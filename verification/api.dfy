/**
 The typed request/response model of `eocanvas/api.py`: wire-to-field
 remapping, log timestamps, jobs, results and their download targets, keys
 and key configurations, process inputs and the submission envelope.
 */
module Api {
  import opened Wrappers
  import opened Errors
  import opened Json
  import opened Strings

  // ---------------------------------------------------------------------
  // Wire-to-field remapping

  /** `mapping.get(k, k)`. */
  function Rename(mapping: map<string, string>, k: string): string {
    if k in mapping then mapping[k] else k
  }

  /**
   `transform_data`: the dictionary `items` (a Python dict, listed in its
   insertion order) with every key renamed through `mapping`.
   */
  function TransformData<V>(items: seq<(string, V)>, mapping: map<string, string>): (r: map<string, V>)
    ensures |r| <= |items|
    ensures |items| > 0 ==> Rename(mapping, items[|items| - 1].0) in r && r[Rename(mapping, items[|items| - 1].0)] == items[|items| - 1].1
  {
    if |items| == 0 then map[]
    else
      var last := items[|items| - 1];
      TransformData(items[..|items| - 1], mapping)[Rename(mapping, last.0) := last.1]
  }

  /** No entry after position `i` is renamed to the same key as entry `i`. */
  predicate LastWithRenamedKey<V>(items: seq<(string, V)>, mapping: map<string, string>, i: int)
    requires 0 <= i < |items|
  {
    forall j :: i < j < |items| ==> Rename(mapping, items[j].0) != Rename(mapping, items[i].0)
  }

  /** The keys of `transform_data` are exactly the renamed input keys. */
  lemma {:induction false} TransformDataKeys<V>(items: seq<(string, V)>, mapping: map<string, string>)
    ensures var r := TransformData(items, mapping);
            && (forall i :: 0 <= i < |items| ==> Rename(mapping, items[i].0) in r)
            && (forall k :: k in r ==> exists i :: 0 <= i < |items| && Rename(mapping, items[i].0) == k)
  {
    if |items| > 0 {
      var n := |items| - 1;
      var prefix := items[..n];
      TransformDataKeys(prefix, mapping);
      var r := TransformData(items, mapping);
      forall i | 0 <= i < |items|
        ensures Rename(mapping, items[i].0) in r
      {
        if i < n { assert prefix[i] == items[i]; }
      }
      forall k | k in r
        ensures exists i :: 0 <= i < |items| && Rename(mapping, items[i].0) == k
      {
        if k != Rename(mapping, items[n].0) {
          var i :| 0 <= i < |prefix| && Rename(mapping, prefix[i].0) == k;
          assert items[i] == prefix[i];
        }
      }
    }
  }

  /** Each key of `transform_data` carries the value of the last entry renamed to it. */
  lemma {:induction false} TransformDataLastWins<V>(items: seq<(string, V)>, mapping: map<string, string>)
    ensures var r := TransformData(items, mapping);
            forall i :: 0 <= i < |items| && LastWithRenamedKey(items, mapping, i)
              ==> Rename(mapping, items[i].0) in r && r[Rename(mapping, items[i].0)] == items[i].1
  {
    if |items| > 0 {
      var n := |items| - 1;
      var prefix := items[..n];
      TransformDataLastWins(prefix, mapping);
      var r := TransformData(items, mapping);
      forall i | 0 <= i < |items| && LastWithRenamedKey(items, mapping, i)
        ensures Rename(mapping, items[i].0) in r && r[Rename(mapping, items[i].0)] == items[i].1
      {
        if i < n {
          assert prefix[i] == items[i];
          assert LastWithRenamedKey(prefix, mapping, i) by {
            forall j | i < j < |prefix|
              ensures Rename(mapping, prefix[j].0) != Rename(mapping, prefix[i].0)
            {
              assert prefix[j] == items[j];
            }
          }
        }
      }
    }
  }

  /** `filter_dict_for_dataclass`: keeps exactly the keys that are fields of the dataclass. */
  function FilterForDataclass<V>(fields: set<string>, d: map<string, V>): (r: map<string, V>)
    ensures r.Keys == d.Keys * fields
    ensures forall k :: k in r ==> r[k] == d[k]
  {
    map k | k in d && k in fields :: d[k]
  }

  const JobFields: set<string> := {"api", "job_id", "status", "started", "created", "updated", "finished"}
  const JobWireNames: map<string, string> := map["jobID" := "job_id"]

  /**
   `_build_job` before the constructor call: the server's `jobID` becomes the
   `job_id` field, and wire keys that are not `Job` fields (such as
   `processID` or `type`) are dropped.
   */
  lemma {:induction false} WireJobIdBecomesField(items: seq<(string, Value)>, i: nat)
    requires i < |items| && items[i].0 == "jobID"
    requires forall j :: 0 <= j < |items| && j != i ==> items[j].0 != "jobID" && items[j].0 != "job_id"
    ensures var d := FilterForDataclass(JobFields, TransformData(items, JobWireNames));
            "job_id" in d && d["job_id"] == items[i].1 && "jobID" !in d && "processID" !in d
  {
    TransformDataLastWins(items, JobWireNames);
    assert LastWithRenamedKey(items, JobWireNames, i) by {
      forall j | i < j < |items|
        ensures Rename(JobWireNames, items[j].0) != "job_id"
      {
        assert items[j].0 != "jobID" && items[j].0 != "job_id";
      }
    }
    assert Rename(JobWireNames, items[i].0) == "job_id";
  }

  // ---------------------------------------------------------------------
  // Log entries

  /** Python's `s[:n]`. */
  function Head(s: string, n: nat): string {
    if n <= |s| then s[..n] else s
  }

  /** Python's `s[-n:]` for n > 0. */
  function Tail(s: string, n: nat): string {
    if n <= |s| then s[|s| - n..] else s
  }

  /**
   The timestamp slicing of `_build_log_entry`, as written: the first 26
   characters followed by the last 6.
   */
  function TruncateTimestampAsWritten(ts: string): (r: string)
    ensures |ts| >= 26 ==> |r| == 32 && r[..26] == ts[..26] && r[26..] == ts[|ts| - 6..]
    ensures 6 <= |ts| <= 26 ==> r == ts + ts[|ts| - 6..]
    ensures |ts| < 6 ==> r == ts + ts
  {
    Head(ts, 26) + Tail(ts, 6)
  }

  /** On a nanosecond RFC 3339 timestamp with a `+hh:mm` offset, exactly the three sub-microsecond digits go. */
  lemma TruncateDropsNanoDigits(ts: string)
    requires |ts| == 35
    ensures TruncateTimestampAsWritten(ts) == ts[..26] + ts[29..]
  {
  }

  /**
   A timestamp whose fraction is shorter than nine digits is corrupted:
   the characters after the 26th give way to a second copy of the offset.
   */
  lemma TruncateCorruptsShortFraction()
    ensures TruncateTimestampAsWritten("2024-12-06T15:31:45+00:00") == "2024-12-06T15:31:45+00:00+00:00"
    ensures TruncateTimestampAsWritten("2024-12-06T15:31:45.5+00:00") == "2024-12-06T15:31:45.5+00:0+00:00"
  {
  }

  /** Index of the first `'.'` in `s` at or after `i`, or `|s|` when there is none. */
  function DotFrom(s: string, i: nat): (n: nat)
    requires i <= |s|
    ensures i <= n <= |s|
    ensures forall j :: i <= j < n ==> s[j] != '.'
    ensures n < |s| ==> s[n] == '.'
    decreases |s| - i
  {
    if i == |s| || s[i] == '.' then i else DotFrom(s, i + 1)
  }

  /** Index of the first `'.'` in `s`, or `|s|` when there is none. */
  function DotIndex(s: string): (n: nat)
    ensures n <= |s|
    ensures forall i :: 0 <= i < n ==> s[i] != '.'
    ensures n < |s| ==> s[n] == '.'
  {
    DotFrom(s, 0)
  }

  /** End of the run of digits of `s` that starts at `i`. */
  function DigitsFrom(s: string, i: nat): (n: nat)
    requires i <= |s|
    ensures i <= n <= |s|
    ensures forall j :: i <= j < n ==> IsDigit(s[j])
    ensures n < |s| ==> !IsDigit(s[n])
    decreases |s| - i
  {
    if i == |s| || !IsDigit(s[i]) then i else DigitsFrom(s, i + 1)
  }

  /** Length of the run of digits at the start of `s`. */
  function DigitRun(s: string): (n: nat)
    ensures n <= |s|
    ensures forall i :: 0 <= i < n ==> IsDigit(s[i])
    ensures n < |s| ==> !IsDigit(s[n])
  {
    DigitsFrom(s, 0)
  }

  /** The run is determined by where the first non-digit stands. */
  lemma {:induction false} DigitsFromExact(s: string, i: nat, n: nat)
    requires i <= n <= |s|
    requires forall j :: i <= j < n ==> IsDigit(s[j])
    requires n < |s| ==> !IsDigit(s[n])
    ensures DigitsFrom(s, i) == n
    decreases n - i
  {
    if i < n {
      DigitsFromExact(s, i + 1, n);
    }
  }

  lemma DigitRunExact(s: string, n: nat)
    requires n <= |s|
    requires forall i :: 0 <= i < n ==> IsDigit(s[i])
    requires n < |s| ==> !IsDigit(s[n])
    ensures DigitRun(s) == n
  {
    DigitsFromExact(s, 0, n);
  }

  /** Cuts the leading run of digits of `f` to at most six, keeping what follows it. */
  function CutFraction(f: string): string {
    var k := DigitRun(f);
    var keep := if k < 6 then k else 6;
    f[..keep] + f[k..]
  }

  /**
   The intended truncation: the fractional-second digits that follow the
   first `'.'` are cut to at most six, everything else is kept.
   */
  function TruncateTimestamp(ts: string): string {
    var d := DotIndex(ts);
    if d == |ts| then ts else ts[..d + 1] + CutFraction(ts[d + 1..])
  }

  /** The fraction after the cut has `min(k, 6)` digits and is followed by what followed the `k` digits. */
  lemma CutFractionShape(f: string)
    ensures var k := DigitRun(f);
            var keep := if k < 6 then k else 6;
            var g := CutFraction(f);
            && |g| == |f| - (k - keep)
            && g[..keep] == f[..keep]
            && g[keep..] == f[k..]
            && DigitRun(g) == keep
  {
    var k := DigitRun(f);
    var keep := if k < 6 then k else 6;
    var g := f[..keep] + f[k..];
    assert g[..keep] == f[..k][..keep];
    if keep < |g| {
      assert g[keep] == f[k];
    }
    DigitRunExact(g, keep);
  }

  lemma CutFractionShort(f: string)
    requires DigitRun(f) <= 6
    ensures CutFraction(f) == f
  {
    var k := DigitRun(f);
    assert f[..k] + f[k..] == f;
  }

  /** With a dot at `d`, the truncation cuts the fraction after it. */
  lemma TruncateAtDot(ts: string, d: nat)
    requires d == DotIndex(ts) && d < |ts|
    ensures TruncateTimestamp(ts) == ts[..d + 1] + CutFraction(ts[d + 1..])
  {
  }

  /**
   What the intended truncation keeps: everything up to the dot, the first
   (at most six) fraction digits, and everything after the fraction; the
   result's fraction has at most six digits.
   */
  lemma TruncateTimestampFraction(ts: string, d: nat)
    requires d == DotIndex(ts) && d < |ts|
    ensures var r := TruncateTimestamp(ts);
            var k := DigitRun(ts[d + 1..]);
            var keep := if k < 6 then k else 6;
            && |r| == |ts| - (k - keep)
            && r[..d + 1] == ts[..d + 1]
            && r[d + 1..][..keep] == ts[d + 1..][..keep]
            && r[d + 1 + keep..] == ts[d + 1 + k..]
            && DigitRun(r[d + 1..]) == keep
  {
    var f := ts[d + 1..];
    var g := CutFraction(f);
    var r := ts[..d + 1] + g;
    TruncateAtDot(ts, d);
    var k := DigitRun(f);
    var keep := if k < 6 then k else 6;
    CutFractionShape(f);
    assert r[..d + 1] == ts[..d + 1];
    assert r[d + 1..] == g;
    assert r[d + 1 + keep..] == g[keep..];
    assert f[k..] == ts[d + 1 + k..];
  }

  /** A fraction of at most six digits is left alone. */
  lemma TruncateKeepsMicroseconds(ts: string, d: nat)
    requires d == DotIndex(ts) && d < |ts| && DigitRun(ts[d + 1..]) <= 6
    ensures TruncateTimestamp(ts) == ts
  {
    var f := ts[d + 1..];
    TruncateAtDot(ts, d);
    CutFractionShort(f);
    assert ts[..d + 1] + f == ts;
  }

  /** On the nanosecond timestamps the server sends, the intended truncation agrees with the code. */
  lemma TruncateAgreesOnNanoseconds(ts: string)
    requires |ts| == 35 && ts[19] == '.' && AllDigits(ts[20..29]) && !IsDigit(ts[29])
    requires forall i :: 0 <= i < 19 ==> ts[i] != '.'
    ensures TruncateTimestamp(ts) == TruncateTimestampAsWritten(ts)
  {
    assert DotIndex(ts) == 19;
    assert forall i :: 0 <= i < 9 ==> ts[20..][i] == ts[20..29][i];
    DigitRunExact(ts[20..], 9);
  }

  datatype LogEntry = LogEntry(timestamp: string, message: string)

  /**
   `_build_log_entry` as written, on the two wire fields: the timestamp is
   sliced to its first 26 and last 6 characters (the date parsing that
   follows is not modelled).
   */
  function BuildLogEntryAsWritten(timestamp: string, message: string): (e: LogEntry)
    ensures e.message == message
    ensures |timestamp| >= 26 ==> e.timestamp == timestamp[..26] + timestamp[|timestamp| - 6..]
    ensures 6 <= |timestamp| <= 26 ==> e.timestamp == timestamp + timestamp[|timestamp| - 6..]
  {
    LogEntry(TruncateTimestampAsWritten(timestamp), message)
  }

  /**
   `_build_log_entry` as evidently intended: the fraction of seconds is cut
   to six digits and nothing else changes.
   */
  function BuildLogEntry(timestamp: string, message: string): (e: LogEntry)
    ensures e.message == message
    ensures DotIndex(timestamp) == |timestamp| ==> e.timestamp == timestamp
    ensures |e.timestamp| <= |timestamp|
  {
    LogEntry(TruncateTimestamp(timestamp), message)
  }

  /** On the nanosecond timestamps the server sends, the intended entry is the one the code builds. */
  lemma BuildLogEntryAgrees(timestamp: string, message: string)
    requires |timestamp| == 35 && timestamp[19] == '.' && AllDigits(timestamp[20..29]) && !IsDigit(timestamp[29])
    requires forall i :: 0 <= i < 19 ==> timestamp[i] != '.'
    ensures BuildLogEntry(timestamp, message) == BuildLogEntryAsWritten(timestamp, message)
  {
    TruncateAgreesOnNanoseconds(timestamp);
  }

  // ---------------------------------------------------------------------
  // Jobs

  datatype Job = Job(
    jobId: string,
    status: Option<string>,
    started: Option<string>,
    created: Option<string>,
    updated: Option<string>,
    finished: Option<string>)

  /** `Job.refresh_from_api`, given the job the server returned for this id. */
  function Refresh(job: Job, fetched: Job): (r: Job)
    ensures r.status == fetched.status && r.created == fetched.created
    ensures r.updated == fetched.updated && r.finished == fetched.finished
    ensures r.jobId == job.jobId && r.started == job.started
  {
    job.(status := fetched.status, created := fetched.created,
         updated := fetched.updated, finished := fetched.finished)
  }

  /** Refreshing twice from the same answer is the same as once. */
  lemma RefreshIdempotent(job: Job, fetched: Job)
    ensures Refresh(Refresh(job, fetched), fetched) == Refresh(job, fetched)
  {
  }

  /** The `completed` property. */
  function Completed(job: Job): (b: bool)
    ensures b <==> job.status == Some("completed")
  {
    job.status == Some("completed")
  }

  // ---------------------------------------------------------------------
  // Results and downloads

  datatype JobResult = JobResult(href: string, title: string, rel: string)

  /** The `Result` constructor; `rel` defaults to "result". */
  function NewResult(href: string, title: string, rel: Option<string>): (r: JobResult)
    ensures r.href == href && r.title == title
    ensures rel.None? ==> r.rel == "result"
    ensures rel.Some? ==> r.rel == rel.value
  {
    JobResult(href, title, rel.GetOr("result"))
  }

  predicate IsSuffix(s: string, t: string) {
    |s| <= |t| && t[|t| - |s|..] == s
  }

  /** `title.split("/")[-1]`: the longest suffix of the title without a `/`. */
  function FileName(title: string): (r: string)
    ensures '/' !in r
    ensures IsSuffix(r, title)
    ensures |r| == |title| || title[|title| - |r| - 1] == '/'
  {
    if |title| == 0 then ""
    else if title[|title| - 1] == '/' then ""
    else FileName(title[..|title| - 1]) + [title[|title| - 1]]
  }

  /** `os.path.join(dir, name)` for a name that holds no `/`. */
  function JoinPath(dir: string, name: string): (p: string)
    ensures IsSuffix(name, p)
    ensures StartsWith(p, dir)
    ensures |dir| + |name| <= |p| <= |dir| + 1 + |name|
    ensures |p| == |dir| + 1 + |name| ==> p[|dir|] == '/'
    ensures '/' !in name ==> FileName(p) == name
  {
    FileNameAfterSlash(if dir == "" || dir[|dir| - 1] == '/' then dir else dir + "/", name);

    if dir == "" || dir[|dir| - 1] == '/' then dir + name else dir + "/" + name
  }

  /** A name without `/` after a directory part ending in `/` is that path's file name. */
  lemma {:induction false} FileNameAfterSlash(dir: string, name: string)
    requires dir == "" || dir[|dir| - 1] == '/'
    ensures '/' !in name ==> FileName(dir + name) == name
    decreases |name|
  {
    if '/' !in name {
      if name == [] {
        assert dir + name == dir;
      } else {
        var p := dir + name;
        var init := name[..|name| - 1];
        var c := name[|name| - 1];
        assert c != '/';
        assert p[|p| - 1] == c;
        assert p[..|p| - 1] == dir + init;
        FileNameAfterSlash(dir, init);
        assert FileName(p) == FileName(dir + init) + [c];
        assert init + [c] == name;
      }
    }
  }

  datatype Download = Download(href: string, path: string)

  /** `Result.download`: which artifact is fetched and where it is written, or why it is not. */
  function DownloadResult(r: JobResult, downloadDir: Option<string>): (d: Result<Download>)
    ensures d.Ok? <==> r.rel == "result"
    ensures r.rel == "enclosure" ==> d == Err(NotDownloadable)
    ensures r.rel != "result" && r.rel != "enclosure" ==> d == Err(UnknownResultType(r.rel))
    ensures d.Ok? ==> d.value.href == r.href && IsSuffix(FileName(r.title), d.value.path)
    ensures d.Ok? && downloadDir.None? ==> StartsWith(d.value.path, ".")
    ensures d.Ok? ==> StartsWith(d.value.path, downloadDir.GetOr("."))
    ensures d.Ok? ==> FileName(d.value.path) == FileName(r.title)
  {
    if r.rel == "result" then
      Ok(Download(r.href, JoinPath(downloadDir.GetOr("."), FileName(r.title))))
    else if r.rel == "enclosure" then Err(NotDownloadable)
    else Err(UnknownResultType(r.rel))
  }

  // ---------------------------------------------------------------------
  // Keys

  /** The two concrete key configurations; the `api` back-reference is not modelled. */
  datatype KeyConfig =
    | S3Config(secretKey: string, accessKey: string, bucket: string, endpoint: string, region: string)
    | WebDavConfig(endpoint: string, username: string, password: string)

  /** `_S3KeyParams.__post_init__`. */
  function NewS3Config(secretKey: string, accessKey: string, bucket: string, endpoint: string, region: string): (r: Result<KeyConfig>)
    ensures r.Ok? <==> StartsWith(endpoint, "https://")
    ensures r.Ok? ==> r.value == S3Config(secretKey, accessKey, bucket, endpoint, region)
    ensures r.Err? ==> r.error == EndpointNotUrl(endpoint)
  {
    if StartsWith(endpoint, "https://") then Ok(S3Config(secretKey, accessKey, bucket, endpoint, region))
    else Err(EndpointNotUrl(endpoint))
  }

  /** `_WebDavKeyParams.__post_init__`. */
  function NewWebDavConfig(endpoint: string, username: string, password: string): (r: Result<KeyConfig>)
    ensures r.Ok? <==> StartsWith(endpoint, "https://")
    ensures r.Ok? ==> r.value == WebDavConfig(endpoint, username, password)
    ensures r.Err? ==> r.error == EndpointNotUrl(endpoint)
  {
    if StartsWith(endpoint, "https://") then Ok(WebDavConfig(endpoint, username, password))
    else Err(EndpointNotUrl(endpoint))
  }

  /** The endpoint of the test fixtures, the bare scheme, is accepted. */
  lemma BareSchemeAccepted()
    ensures NewWebDavConfig("https://", "abc", "abc").Ok?
    ensures NewS3Config("abc", "abc", "abc", "https://", "abc").Ok?
    ensures NewS3Config("abc", "abc", "abc", "http://x", "abc").Err?
  {
    assert "http://x"[..8][4] != "https://"[4];
  }

  const S3ConfigFields: set<string> := {"secret_key", "access_key", "bucket", "endpoint", "region"}
  const WebDavConfigFields: set<string> := {"endpoint", "username", "password"}

  /** `KeyConfig.asdict`: every dataclass field except `api`. */
  function KeyConfigAsDict(c: KeyConfig): (r: map<string, Value>)
    ensures "api" !in r
    ensures c.S3Config? ==> r.Keys == S3ConfigFields
    ensures c.WebDavConfig? ==> r.Keys == WebDavConfigFields
    ensures r["endpoint"] == Str(c.endpoint)
    ensures c.S3Config? ==> (r["secret_key"] == Str(c.secretKey) && r["access_key"] == Str(c.accessKey)
                             && r["bucket"] == Str(c.bucket) && r["region"] == Str(c.region))
    ensures c.WebDavConfig? ==> (r["username"] == Str(c.username) && r["password"] == Str(c.password))
  {
    match c
    case S3Config(sk, ak, b, e, rg) =>
      map["secret_key" := Str(sk), "access_key" := Str(ak), "bucket" := Str(b), "endpoint" := Str(e), "region" := Str(rg)]
    case WebDavConfig(e, u, p) =>
      map["endpoint" := Str(e), "username" := Str(u), "password" := Str(p)]
  }

  function ConfigKind(c: KeyConfig): string {
    if c.S3Config? then "S3" else "WEBDAV"
  }

  datatype Key = Key(
    name: string,
    keyType: Option<string>,
    config: Option<KeyConfig>,
    description: Option<string>,
    creationDate: Option<string>,
    owner: Option<string>,
    public: Option<bool>,
    expirationDate: Option<string>,
    expireSeconds: Option<int>)

  /** A key as `Key(name=...)` builds it, with every other field at its default. */
  function NamedKey(name: string): Key {
    Key(name, None, None, None, None, None, Some(false), None, Some(0))
  }

  /**
   `Key.__post_init__`: a configuration forces the type to its kind, whatever
   was passed; without one, a type other than S3 or WEBDAV is refused.
   */
  function NewKey(k: Key): (r: Result<Key>)
    ensures r.Ok? <==> k.config.Some? || k.keyType.None? || k.keyType.value in {"S3", "WEBDAV"}
    ensures r.Err? ==> r.error == InvalidKeyType(k.keyType.value)
    ensures r.Ok? && k.config.Some? ==> r.value.keyType == Some(ConfigKind(k.config.value))
    ensures r.Ok? && k.config.None? ==> r.value.keyType == k.keyType
    ensures r.Ok? ==> r.value == k.(keyType := r.value.keyType)
  {
    var k' := if k.config.Some? then k.(keyType := Some(ConfigKind(k.config.value))) else k;
    if k'.keyType.Some? && k'.keyType.value !in {"S3", "WEBDAV"} then Err(InvalidKeyType(k'.keyType.value))
    else Ok(k')
  }

  /** An explicit type that conflicts with the configuration is overwritten, not refused. */
  lemma ConflictingTypeIsOverwritten(name: string, c: KeyConfig, t: string)
    ensures var r := NewKey(Key(name, Some(t), Some(c), None, None, None, Some(false), None, Some(0)));
            r.Ok? && r.value.keyType == Some(ConfigKind(c))
  {
  }

  /**
   `Key.asdict`: one entry named after the key. `seal` stands for
   `KeyConfig.encode` (JSON, RSA-OAEP with the service's public key, base64).
   Without a configuration the call fails on `None.encode`.
   */
  function KeyAsDict(k: Key, seal: map<string, Value> -> string): (r: Result<Value>)
    ensures r.Ok? <==> k.config.Some?
    ensures r.Ok? ==> r.value.Dict? && r.value.fields.Keys == {k.name}
    ensures r.Ok? ==>
      var entry := r.value.fields[k.name];
      && entry.Dict?
      && entry.fields.Keys == {"type", "expire", "public", "description", "data"}
      && entry.fields["expire"] == Int(if k.expireSeconds.Some? && k.expireSeconds.value != 0 then k.expireSeconds.value else 3600)
      && entry.fields["description"] == Str(if k.description.Some? && k.description.value != "" then k.description.value else k.name)
      && entry.fields["data"] == Str(seal(KeyConfigAsDict(k.config.value)))
      && entry.fields["type"] == (if k.keyType.Some? then Str(k.keyType.value) else Null)
      && entry.fields["public"] == (if k.public.Some? then Bool(k.public.value) else Null)
  {
    if k.config.None? then Err(MissingAttribute("encode"))
    else
      var expire := match k.expireSeconds case Some(s) => if s != 0 then s else 3600 case None => 3600;
      var description := match k.description case Some(d) => if d != "" then d else k.name case None => k.name;
      Ok(Dict(map[k.name := Dict(map[
        "type" := (match k.keyType case Some(t) => Str(t) case None => Null),
        "expire" := Int(expire),
        "public" := (match k.public case Some(p) => Bool(p) case None => Null),
        "description" := Str(description),
        "data" := Str(seal(KeyConfigAsDict(k.config.value)))])]))
  }

  /**
   `Key.create` followed by `API.create_key`: the request body that is
   posted, and the key handed back (the key itself, the response being empty).
   A key without configuration fails before any request.
   */
  function CreateKey(k: Key, seal: map<string, Value> -> string): (r: Result<(Value, Key)>)
    ensures r.Ok? <==> k.config.Some?
    ensures r.Err? ==> r.error == KeyWithoutConfig
    ensures r.Ok? ==> r.value.1 == k && Ok(r.value.0) == KeyAsDict(k, seal)
  {
    if k.config.None? then Err(KeyWithoutConfig)
    else Ok((KeyAsDict(k, seal).value, k))
  }

  // ---------------------------------------------------------------------
  // Process inputs and the submission envelope

  /** A key store reference: a key name or a `Key` object. */
  datatype KeyStore = ByName(name: string) | ByKey(key: Key)

  function KeyStoreName(s: KeyStore): string {
    match s
    case ByName(n) => n
    case ByKey(k) => k.name
  }

  datatype Input = Input(key: string, url: string, keystore: Option<KeyStore>)

  /** `Input.asdict`. */
  function InputAsDict(i: Input): (r: Value)
    ensures r.Dict? && i.key in r.fields
    ensures i.keystore.None? ==> r.fields == map[i.key := Str(i.url)]
    ensures i.keystore.Some? ==>
              r.fields.Keys == {i.key, "schema"}
              && r.fields["schema"] == Str("keystore://" + KeyStoreName(i.keystore.value))
              && (i.key != "schema" ==> r.fields[i.key] == Str(i.url))
  {
    var value := map[i.key := Str(i.url)];
    match i.keystore
    case None => Dict(value)
    case Some(s) => Dict(value["schema" := Str("keystore://" + KeyStoreName(s))])
  }

  datatype ConfigOption = ConfigOption(uncompress: bool, subPath: string)
  datatype Config = Config(key: string, options: ConfigOption)

  /** `ConfigOption.asdict`. */
  function ConfigOptionAsDict(o: ConfigOption): (r: Value)
    ensures r.Dict? && r.fields.Keys == {"uncompress", "subPath"}
    ensures r.fields["uncompress"] == Bool(o.uncompress) && r.fields["subPath"] == Str(o.subPath)
  {
    Dict(map["uncompress" := Bool(o.uncompress), "subPath" := Str(o.subPath)])
  }

  /** `Config.asdict`: the options nested under the configuration's key. */
  function ConfigAsDict(c: Config): (r: Value)
    ensures r.Dict? && r.fields.Keys == {c.key}
    ensures r.fields[c.key] == ConfigOptionAsDict(c.options)
  {
    Dict(map[c.key := ConfigOptionAsDict(c.options)])
  }

  datatype Process = Process(
    processId: Option<string>,
    version: Option<string>,
    title: Option<string>,
    description: Option<string>,
    output: Option<KeyStore>)

  /** The fixed shape every `prepare_inputs` returns. */
  predicate IsEnvelope(v: Value) {
    && v.Dict?
    && v.fields.Keys == {"inputs", "outputs", "response", "subscriber"}
    && v.fields["inputs"].Dict?
    && v.fields["outputs"].Dict?
    && v.fields["response"] == Str("raw")
    && v.fields["subscriber"] == Null
  }

  function Envelope(inputs: map<string, Value>, outputs: map<string, Value>): (v: Value)
    ensures IsEnvelope(v)
    ensures v.fields["inputs"] == Dict(inputs) && v.fields["outputs"] == Dict(outputs)
  {
    Dict(map["inputs" := Dict(inputs), "outputs" := Dict(outputs), "response" := Str("raw"), "subscriber" := Null])
  }

  /** The `outputs` block of the base `prepare_inputs`. */
  function OutputsFor(output: Option<KeyStore>): (r: map<string, Value>)
    ensures output.None? <==> r == map[]
  {
    match output
    case None => map[]
    case Some(s) =>
      var r := map["output" := Dict(map["format" := Dict(map["schema" := Str("keystore://" + KeyStoreName(s))])])];
      assert "output" in r;
      r
  }

  /** The base `Process.prepare_inputs`. */
  function PrepareInputs(p: Process): (v: Value)
    ensures IsEnvelope(v)
    ensures v.fields["inputs"] == Dict(map[])
    ensures p.output.None? <==> v.fields["outputs"] == Dict(map[])
    ensures p.output.Some? ==>
      v.fields["outputs"].fields.Keys == {"output"}
      && v.fields["outputs"].fields["output"] == Dict(map["format" := Dict(map["schema" := Str("keystore://" + KeyStoreName(p.output.value))])])
  {
    Envelope(map[], OutputsFor(p.output))
  }

  /** A key object and its name give the same output reference. */
  lemma OutputByKeyOrName(p: Process, k: Key)
    ensures PrepareInputs(p.(output := Some(ByKey(k)))) == PrepareInputs(p.(output := Some(ByName(k.name))))
  {
  }
}
