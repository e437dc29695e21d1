/**
 The job runner: it polls a submitted job until the service reports it
 successful, then downloads every result. The service is modelled by the
 sequence of job records that successive refreshes return.
 */
module JobRunner {
  import opened Wrappers
  import opened Errors
  import opened Api

  /** The delay before the `k`-th refresh: ten seconds, growing by a tenth each round. */
  function Backoff(k: nat): (r: real)
    ensures r >= 10.0
  {
    if k == 0 then 10.0 else Backoff(k - 1) * 1.1
  }

  /** The delays grow strictly from one round to the next. */
  lemma {:induction false} BackoffIncreasing(i: nat, j: nat)
    requires i < j
    ensures Backoff(i) < Backoff(j)
    decreases j
  {
    if i < j - 1 {
      BackoffIncreasing(i, j - 1);
    }
  }

  lemma BackoffFirstRounds()
    ensures Backoff(0) == 10.0 && Backoff(1) == 11.0 && Backoff(2) == 12.1
  {
  }

  /** The statuses under which the runner keeps waiting. */
  predicate Waiting(s: Option<string>) {
    s == Some("accepted") || s == Some("running")
  }

  /** How a run ends: normally, with an exception, or still polling when the modelled history runs out. */
  datatype Ending = Finished | Raised(error: Error) | StillPolling

  /** The job after refreshing it from each record of `fs` in turn. */
  function RefreshAll(job: Job, fs: seq<Job>): (r: Job)
    ensures r.jobId == job.jobId && r.started == job.started
    ensures fs == [] ==> r == job
    ensures fs != [] ==> r.status == fs[|fs| - 1].status
  {
    if fs == [] then job else Refresh(RefreshAll(job, fs[..|fs| - 1]), fs[|fs| - 1])
  }

  /** One more refresh extends the history by one record and exposes that record's status. */
  lemma RefreshAllStep(job: Job, fetched: seq<Job>, k: nat)
    requires k < |fetched|
    ensures RefreshAll(job, fetched[..k + 1]) == Refresh(RefreshAll(job, fetched[..k]), fetched[k])
    ensures RefreshAll(job, fetched[..k + 1]).status == StatusAt(job, fetched, k + 1)
  {
    assert fetched[..k + 1][..k] == fetched[..k];
  }

  /** The status the runner examines in round `k`: the job's own first, then each refreshed one. */
  function StatusAt(job: Job, fetched: seq<Job>, k: nat): Option<string>
    requires k <= |fetched|
  {
    if k == 0 then job.status else fetched[k - 1].status
  }

  /**
   The download loop over the results, in order: a `result` is downloaded, an
   `enclosure` is only logged by title, anything else ends the run with the
   exception `download` raised. Returns the ending, the downloads and the
   logged titles.
   */
  function DownloadPhase(rs: seq<JobResult>, dir: Option<string>): (Ending, seq<Download>, seq<string>) {
    if rs == [] then (Finished, [], [])
    else
      var prior := DownloadPhase(rs[..|rs| - 1], dir);
      var last := rs[|rs| - 1];
      if prior.0 != Finished then prior
      else
        match DownloadResult(last, dir)
        case Ok(d) => (Finished, prior.1 + [d], prior.2)
        case Err(e) =>
          if e == NotDownloadable then (Finished, prior.1, prior.2 + [last.title])
          else (Raised(e), prior.1, prior.2)
  }

  predicate Known(r: JobResult) {
    r.rel == "result" || r.rel == "enclosure"
  }

  /** The download loop completes exactly when every result is a `result` or an `enclosure`, each handled once. */
  lemma {:induction false} DownloadPhaseFinished(rs: seq<JobResult>, dir: Option<string>)
    ensures var o := DownloadPhase(rs, dir);
            && (o.0 == Finished <==> forall i :: 0 <= i < |rs| ==> Known(rs[i]))
            && (o.0 == Finished ==> |o.1| + |o.2| == |rs|)
            && o.0 != StillPolling
  {
    if rs != [] {
      var init := rs[..|rs| - 1];
      var last := rs[|rs| - 1];
      DownloadPhaseFinished(init, dir);
      assert forall i :: 0 <= i < |init| ==> init[i] == rs[i];
      var d := DownloadResult(last, dir);
      assert d.Ok? <==> last.rel == "result";
      assert d.Err? && d.error == NotDownloadable <==> last.rel == "enclosure";
    }
  }

  /** One more result after a completed prefix: downloaded, logged, or the loop stops. */
  lemma DownloadPhaseStep(rs: seq<JobResult>, n: nat, dir: Option<string>)
    requires n < |rs| && DownloadPhase(rs[..n], dir).0 == Finished
    ensures var prior := DownloadPhase(rs[..n], dir);
            var d := DownloadResult(rs[n], dir);
            && (d.Ok? ==> DownloadPhase(rs[..n + 1], dir) == (Finished, prior.1 + [d.value], prior.2))
            && (rs[n].rel == "enclosure" ==> DownloadPhase(rs[..n + 1], dir) == (Finished, prior.1, prior.2 + [rs[n].title]))
  {
    assert rs[..n + 1][..n] == rs[..n];
  }

  /** The loop stops at the first unknown `rel`, raising for it, after handling every result before it. */
  lemma {:induction false} DownloadPhaseStopsAtUnknown(rs: seq<JobResult>, i: nat, dir: Option<string>)
    requires i < |rs| && !Known(rs[i])
    requires forall j :: 0 <= j < i ==> Known(rs[j])
    ensures var o := DownloadPhase(rs, dir);
            var before := DownloadPhase(rs[..i], dir);
            o == (Raised(UnknownResultType(rs[i].rel)), before.1, before.2)
    decreases |rs|
  {
    var init := rs[..|rs| - 1];
    if i == |rs| - 1 {
      DownloadPhaseFinished(init, dir);
      assert init == rs[..i];
    } else {
      assert init[..i] == rs[..i];
      DownloadPhaseStopsAtUnknown(init, i, dir);
    }
  }

  /**
   The polling loop as a reference definition, from round `k` on: the ending
   and the number of rounds (each one sleep and one refresh) before it.
   Each round looks at the current status before doing anything: `failed`
   raises, anything but `accepted` or `running` fails the assertion,
   `successful` ends the loop, otherwise the runner sleeps and refreshes.
   */
  function PollFrom(job: Job, fetched: seq<Job>, k: nat): (r: (Ending, nat))
    requires k <= |fetched|
    ensures k <= r.1 <= |fetched|
    decreases |fetched| - k
  {
    var s := StatusAt(job, fetched, k);
    if s == Some("successful") then (Finished, k)
    else if s == Some("failed") then (Raised(JobFailed(job.jobId)), k)
    else if !Waiting(s) then (Raised(StatusAssertion(s)), k)
    else if k == |fetched| then (StillPolling, k)
    else PollFrom(job, fetched, k + 1)
  }

  /**
   What the loop promises: it waits only through `accepted` and `running`,
   finishes exactly on `successful`, raises `JobFailed` for the job on
   `failed` and an assertion error on any other status, and runs out of
   history only while still waiting.
   */
  lemma {:induction false} PollRounds(job: Job, fetched: seq<Job>, k: nat)
    requires k <= |fetched|
    ensures var n := PollFrom(job, fetched, k).1;
            var e := PollFrom(job, fetched, k).0;
            var s := StatusAt(job, fetched, n);
            && k <= n <= |fetched|
            && (forall i :: k <= i < n ==> Waiting(StatusAt(job, fetched, i)))
            && (e == Finished <==> s == Some("successful"))
            && (e == StillPolling <==> n == |fetched| && Waiting(s))
            && (s == Some("failed") ==> e == Raised(JobFailed(job.jobId)))
            && (s != Some("failed") && s != Some("successful") && !Waiting(s) ==> e == Raised(StatusAssertion(s)))
    decreases |fetched| - k
  {
    var s := StatusAt(job, fetched, k);
    if s != Some("successful") && s != Some("failed") && Waiting(s) && k < |fetched| {
      PollRounds(job, fetched, k + 1);
    }
  }

  /**
   The runner finishes on `successful`, which `completed` does not report:
   a job the runner has just finished polling is never `completed`, and a
   `completed` job makes the runner fail its status assertion at once.
   */
  lemma FinishedIsNotCompleted(job: Job, fetched: seq<Job>)
    ensures var (e, n) := PollFrom(job, fetched, 0);
            e == Finished ==> !Completed(RefreshAll(job, fetched[..n]))
    ensures Completed(job) ==> PollFrom(job, fetched, 0) == (Raised(StatusAssertion(Some("completed"))), 0)
  {
    PollRounds(job, fetched, 0);
    var n := PollFrom(job, fetched, 0).1;
    if n > 0 {
      RefreshAllStep(job, fetched, n - 1);
    }
  }

  /**
   The polling half of `JobRunner.run`. `final` is the job as the runner
   leaves it, `delays` the sleeps in order.
   */
  method Poll(job: Job, fetched: seq<Job>) returns (ending: Ending, final: Job, delays: seq<real>)
    ensures (ending, |delays|) == PollFrom(job, fetched, 0)
    ensures |delays| <= |fetched|
    ensures forall i :: 0 <= i < |delays| ==> delays[i] == Backoff(i)
    ensures final == RefreshAll(job, fetched[..|delays|])
  {
    var status := job.status;
    var k := 0;
    final, delays := job, [];
    // Rounds that only sleep and refresh; the status that stops them is judged below.
    while Waiting(status) && k < |fetched|
      invariant k <= |fetched| && |delays| == k
      invariant PollFrom(job, fetched, k) == PollFrom(job, fetched, 0)
      invariant forall i :: 0 <= i < k ==> delays[i] == Backoff(i)
      invariant final == RefreshAll(job, fetched[..k])
      invariant status == StatusAt(job, fetched, k)
      decreases |fetched| - k
    {
      delays := delays + [Backoff(k)];
      RefreshAllStep(job, fetched, k);
      final := Refresh(final, fetched[k]);
      k := k + 1;
      status := final.status;
    }
    if status == Some("successful") {
      ending := Finished;
    } else if status == Some("failed") {
      ending := Raised(JobFailed(final.jobId));
    } else if !Waiting(status) {
      ending := Raised(StatusAssertion(status));
    } else {
      ending := StillPolling;
    }
  }

  /** One round of the download loop: download or log `results[n]`, or report the error that stops the loop. */
  method DownloadNext(results: seq<JobResult>, n: nat, downloadDir: Option<string>, downloads: seq<Download>, skipped: seq<string>)
    returns (failure: Option<Error>, downloads': seq<Download>, skipped': seq<string>)
    requires n < |results| && (Finished, downloads, skipped) == DownloadPhase(results[..n], downloadDir)
    ensures failure.None? ==> (Finished, downloads', skipped') == DownloadPhase(results[..n + 1], downloadDir)
    ensures failure.Some? ==> (Raised(failure.value), downloads', skipped') == DownloadPhase(results, downloadDir)
  {
    var r := results[n];
    DownloadPhaseStep(results, n, downloadDir);
    var d := DownloadResult(r, downloadDir);
    failure, downloads', skipped' := None, downloads, skipped;
    if d.Ok? {
      downloads' := downloads + [d.value];
    } else if d.error == NotDownloadable {
      skipped' := skipped + [r.title];
    } else {
      DownloadPhaseFinished(results[..n], downloadDir);
      assert forall j :: 0 <= j < n ==> results[..n][j] == results[j];
      DownloadPhaseStopsAtUnknown(results, n, downloadDir);
      failure := Some(d.error);
    }
  }

  /** The download half of `JobRunner.run`: `download` on every result in order. */
  method DownloadAll(results: seq<JobResult>, downloadDir: Option<string>)
    returns (ending: Ending, downloads: seq<Download>, skipped: seq<string>)
    ensures (ending, downloads, skipped) == DownloadPhase(results, downloadDir)
  {
    ending, downloads, skipped := Finished, [], [];
    var n := 0;
    while n < |results|
      invariant n <= |results|
      invariant (Finished, downloads, skipped) == DownloadPhase(results[..n], downloadDir)
      decreases |results| - n
    {
      var failure;
      failure, downloads, skipped := DownloadNext(results, n, downloadDir, downloads, skipped);
      if failure.Some? {
        ending := Raised(failure.value);
        return;
      }
      n := n + 1;
    }
    assert results[..n] == results;
  }

  /** `JobRunner.run`: poll, then download only once the job is successful. */
  method Run(job: Job, fetched: seq<Job>, results: seq<JobResult>, downloadDir: Option<string>)
    returns (ending: Ending, final: Job, delays: seq<real>, downloads: seq<Download>, skipped: seq<string>)
    ensures |delays| <= |fetched| && final == RefreshAll(job, fetched[..|delays|])
    ensures forall i :: 0 <= i < |delays| ==> delays[i] == Backoff(i) && Waiting(StatusAt(job, fetched, i))
    ensures StatusAt(job, fetched, |delays|) == Some("successful") ==> (ending, downloads, skipped) == DownloadPhase(results, downloadDir)
    ensures StatusAt(job, fetched, |delays|) != Some("successful") ==> downloads == [] && skipped == [] && ending != Finished
    ensures |delays| == PollFrom(job, fetched, 0).1
    ensures PollFrom(job, fetched, 0).0 != Finished ==> ending == PollFrom(job, fetched, 0).0
    ensures StatusAt(job, fetched, |delays|) == Some("failed") ==> ending == Raised(JobFailed(job.jobId))
  {
    ending, final, delays := Poll(job, fetched);
    PollRounds(job, fetched, 0);
    downloads, skipped := [], [];
    if ending == Finished {
      ending, downloads, skipped := DownloadAll(results, downloadDir);
    }
  }
}
