/**
 Credentials and the OAuth token life cycle. Time is the integer number of
 seconds `now` the caller passes in; the token service is a function from
 the grant that is posted to the response it gives.
 */
module Auth {
  import opened Wrappers
  import opened Errors

  // ---------------------------------------------------------------------
  // Credentials

  /** Python's `\s` in a `str` pattern: the characters `str.isspace` accepts. */
  predicate IsSpace(c: char) {
    || ('\U{0009}' <= c <= '\U{000D}') || ('\U{001C}' <= c <= '\U{0020}')
    || c == '\U{0085}' || c == '\U{00A0}' || c == '\U{1680}'
    || ('\U{2000}' <= c <= '\U{200A}') || c == '\U{2028}' || c == '\U{2029}'
    || c == '\U{202F}' || c == '\U{205F}' || c == '\U{3000}'
  }

  /** Length of the leading run of non-whitespace characters: what `[^\s]+` consumes. */
  function NonSpaceRun(s: string): (n: nat)
    ensures n <= |s|
    ensures forall i :: 0 <= i < n ==> !IsSpace(s[i])
    ensures n < |s| ==> IsSpace(s[n])
  {
    if |s| == 0 || IsSpace(s[0]) then 0 else 1 + NonSpaceRun(s[1..])
  }

  /**
   `re.match(r"[^\s]+$", s) is not None`: a non-empty run of non-space
   characters, then the end of the text or a final newline (Python's `$`).
   */
  predicate MatchesCredentialPattern(s: string) {
    var n := NonSpaceRun(s);
    n >= 1 && (n == |s| || (n == |s| - 1 && s[n] == '\n'))
  }

  /** What the pattern means: no whitespace at all, apart from one trailing newline. */
  predicate WellFormed(s: string) {
    || (|s| >= 1 && forall i :: 0 <= i < |s| ==> !IsSpace(s[i]))
    || (|s| >= 2 && s[|s| - 1] == '\n' && forall i :: 0 <= i < |s| - 1 ==> !IsSpace(s[i]))
  }

  lemma CredentialPatternMeaning(s: string)
    ensures MatchesCredentialPattern(s) <==> WellFormed(s)
  {
    var n := NonSpaceRun(s);
    if WellFormed(s) && !(|s| >= 1 && forall i :: 0 <= i < |s| ==> !IsSpace(s[i])) {
      assert IsSpace(s[|s| - 1]);
      assert n == |s| - 1;
    }
  }

  datatype Credentials = Credentials(username: string, password: string)

  /** `Credentials.__init__`. */
  function NewCredentials(username: string, password: string): (r: Result<Credentials>)
    ensures r.Ok? <==> WellFormed(username) && WellFormed(password)
    ensures r.Ok? ==> r.value == Credentials(username, password)
    ensures r.Err? ==> r.error == MalformedCredentials
  {
    CredentialPatternMeaning(username);
    CredentialPatternMeaning(password);
    if !MatchesCredentialPattern(username) || !MatchesCredentialPattern(password) then Err(MalformedCredentials)
    else Ok(Credentials(username, password))
  }

  /** Credentials the library's tests accept, a trailing newline included. */
  lemma CredentialExamples(u: string, p: string, v: string)
    requires u == "abc" && p == "123" && v == "abc\n"
    ensures NewCredentials(u, p) == Ok(Credentials(u, p))
    ensures NewCredentials(v, p) == Ok(Credentials(v, p))
  {
    assert v[0] == 'a' && v[1] == 'b' && v[2] == 'c' && v[3] == '\n';
    assert NonSpaceRun(v) == 3;
  }

  /** A space inside a name, and an empty name, are refused. */
  lemma MalformedCredentialExamples(u: string, p: string, e: string)
    requires u == "a a" && p == "b/b" && e == ""
    ensures NewCredentials(u, p) == Err(MalformedCredentials)
    ensures NewCredentials(e, p) == Err(MalformedCredentials)
  {
    assert NonSpaceRun(u) == 1;
  }

  // ---------------------------------------------------------------------
  // Tokens

  /** The mutable state of an `OAuthToken`. */
  datatype Token = Token(access: Option<string>, refresh: Option<string>, expiration: Option<int>)

  /** A token as `OAuthToken.__init__` leaves it. */
  const Fresh: Token := Token(None, None, None)

  /** `is_expired` at time `now`. */
  predicate IsExpired(t: Token, now: int) {
    t.expiration.None? || now > t.expiration.value
  }

  lemma FreshIsExpired(now: int)
    ensures IsExpired(Fresh, now)
  {
  }

  /** A token that is unexpired at some time holds an access token. */
  predicate Consistent(t: Token) {
    t.expiration.Some? ==> t.access.Some?
  }

  /** `invalidate`: forget the expiration only. */
  function Invalidate(t: Token): (r: Token)
    ensures r.access == t.access && r.refresh == t.refresh
    ensures forall now :: IsExpired(r, now)
    ensures Consistent(r)
  {
    t.(expiration := None)
  }

  /** The two requests the token service understands. */
  datatype Grant = PasswordGrant(username: string, password: string) | RefreshGrant(refreshToken: string)

  /** The decoded body of a token response. */
  datatype TokenData = TokenData(accessToken: string, refreshToken: Option<string>, expiresIn: int)

  datatype Response = Response(status: int, data: TokenData)

  /** The statuses the `https://` adapter retries. */
  const RetryStatuses: set<int> := {500, 502, 503, 504}

  /** The `max_retries` default of `http.request`. */
  const MaxRetries: int := 5

  /**
   What `http.request` raises for the status of an `https://` request. A
   retried status keeps coming back from a server that answers each request
   the same way, so the retries run out and the library's own `HTTPError`
   is raised; otherwise the quota test comes first, then `raise_for_status`.
   */
  function CheckStatus(status: int): (r: Option<Error>)
    ensures r.None? <==> !(400 <= status < 600)
    ensures status in RetryStatuses ==> r == Some(RetriesExhausted(MaxRetries))
    ensures status == 429 ==> r == Some(QuotaExceeded)
    ensures status != 429 && status !in RetryStatuses && 400 <= status < 600 ==> r == Some(HttpStatus(status))
  {
    if status in RetryStatuses then Some(RetriesExhausted(MaxRetries))
    else if status == 429 then Some(QuotaExceeded)
    else if 400 <= status < 600 then Some(HttpStatus(status))
    else None
  }

  /** A server error answered every time ends as the library's `HTTPError`, as the HTTP test expects for 500. */
  lemma ServerErrorRaisesHttpError(server: Grant -> Response, g: Grant)
    requires server(g).status == 500
    ensures Post(server, g) == Err(RetriesExhausted(MaxRetries))
    ensures ExceptionClass(Post(server, g).error) == "HTTPError"
  {
  }

  /** The token state after a successful exchange at time `now`. */
  function Store(d: TokenData, now: int): (t: Token)
    ensures t.access == Some(d.accessToken) && t.refresh == d.refreshToken
    ensures t.expiration == Some(now + d.expiresIn)
    ensures Consistent(t)
  {
    Token(Some(d.accessToken), d.refreshToken, Some(now + d.expiresIn))
  }

  /**
   `_set_token` as its branches intend: with a refresh token, try the refresh
   grant and fall back to the password grant when it is refused with 403 or
   400; the last response is then checked and stored. Returns the grants
   posted, in order, and the new state or the exception.
   */
  function SetToken(t: Token, creds: Credentials, now: int, server: Grant -> Response): (r: (seq<Grant>, Result<Token>))
    ensures 1 <= |r.0| <= 2
    ensures r.0[0] == (if t.refresh.Some? then RefreshGrant(t.refresh.value) else PasswordGrant(creds.username, creds.password))
    ensures |r.0| == 2 <==> t.refresh.Some? && server(r.0[0]).status in {400, 403}
    ensures |r.0| == 2 ==> r.0[1] == PasswordGrant(creds.username, creds.password)
    ensures var last := server(r.0[|r.0| - 1]);
            && (r.1.Ok? <==> CheckStatus(last.status).None?)
            && (r.1.Err? ==> Some(r.1.error) == CheckStatus(last.status))
            && (r.1.Ok? ==> r.1.value == Store(last.data, now))
  {
    var password := PasswordGrant(creds.username, creds.password);
    var calls :=
      if t.refresh.None? then [password]
      else if server(RefreshGrant(t.refresh.value)).status in {403, 400} then [RefreshGrant(t.refresh.value), password]
      else [RefreshGrant(t.refresh.value)];
    var response := server(calls[|calls| - 1]);
    match CheckStatus(response.status)
    case Some(e) => (calls, Err(e))
    case None => (calls, Ok(Store(response.data, now)))
  }

  /**
   The `access_token` property: an exchange only when the token is expired,
   otherwise the cached value and no request. Returns the grants posted, and
   the value with the new token state.
   */
  function AccessToken(t: Token, creds: Credentials, now: int, server: Grant -> Response): (r: (seq<Grant>, Result<(Option<string>, Token)>))
    ensures !IsExpired(t, now) ==> r.0 == [] && r.1 == Ok((t.access, t))
    ensures IsExpired(t, now) ==> |r.0| >= 1
    ensures r.1.Ok? ==> r.1.value.0 == r.1.value.1.access
    ensures IsExpired(t, now) && r.1.Ok? ==> r.1.value.1.expiration.Some? && r.1.value.0.Some?
    ensures Consistent(t) && r.1.Ok? ==> Consistent(r.1.value.1) && r.1.value.0.Some?
  {
    if !IsExpired(t, now) then ([], Ok((t.access, t)))
    else
      var (calls, res) := SetToken(t, creds, now, server);
      match res
      case Err(e) => (calls, Err(e))
      case Ok(t') => (calls, Ok((t'.access, t')))
  }

  /** An exchange at `now` with lifetime `d.expiresIn` holds exactly up to and including `now + d.expiresIn`. */
  lemma StoredTokenLifetime(d: TokenData, now: int, later: int)
    ensures !IsExpired(Store(d, now), later) <==> later <= now + d.expiresIn
  {
  }

  /** The scenario of the token test: one password exchange, then the cached value. */
  lemma FirstAccessExchangesOnce(now: int, server: Grant -> Response)
    requires forall g :: server(g) == Response(200, TokenData("abc", Some("def"), 1))
    ensures var (calls, r) := AccessToken(Fresh, Credentials("u", "p"), now, server);
            && calls == [PasswordGrant("u", "p")]
            && r == Ok((Some("abc"), Token(Some("abc"), Some("def"), Some(now + 1))))
            && !IsExpired(r.value.1, now)
            && IsExpired(r.value.1, now + 2)
            && AccessToken(r.value.1, Credentials("u", "p"), now, server) == ([], Ok((Some("abc"), r.value.1)))
  {
  }

  /** With a refresh token, a refused refresh falls back to the password grant. */
  lemma RefusedRefreshFallsBack(t: Token, creds: Credentials, now: int, server: Grant -> Response)
    requires t.refresh.Some? && server(RefreshGrant(t.refresh.value)).status == 403
    requires server(PasswordGrant(creds.username, creds.password)).status == 200
    ensures SetToken(t, creds, now, server).0 == [RefreshGrant(t.refresh.value), PasswordGrant(creds.username, creds.password)]
    ensures SetToken(t, creds, now, server).1 == Ok(Store(server(PasswordGrant(creds.username, creds.password)).data, now))
  {
  }

  /** An invalidated token makes the next access exchange again. */
  lemma InvalidateForcesExchange(t: Token, creds: Credentials, now: int, server: Grant -> Response)
    ensures |AccessToken(Invalidate(t), creds, now, server).0| >= 1
  {
  }

  /** ASCII lower case, which is all `str.lower` changes in a header named `authorization`. */
  function LowerChar(c: char): char {
    if 'A' <= c <= 'Z' then (c as int + 32) as char else c
  }

  /** Header names are compared without regard to case, as `requests` stores them. */
  predicate SameHeader(a: string, b: string) {
    |a| == |b| && forall i :: 0 <= i < |a| ==> LowerChar(a[i]) == LowerChar(b[i])
  }

  /**
   Setting a header in a case-insensitive header map: every spelling of the
   name is replaced by the one given.
   */
  function SetHeader(headers: map<string, string>, name: string, value: string): (h: map<string, string>)
    ensures name in h && h[name] == value
    ensures forall k :: k in h && k != name ==> k in headers && h[k] == headers[k] && !SameHeader(k, name)
    ensures forall k :: k in headers && !SameHeader(k, name) ==> k in h && h[k] == headers[k]
  {
    (map k | k in headers && !SameHeader(k, name) :: headers[k])[name := value]
  }

  /**
   `HTTPOAuth2.__call__`: the header `authorization`, in whatever case it was
   spelt, is set to `Bearer` and the access token; no other header changes.
   A `Consistent` token always yields an access token here, so the text put
   in place of a missing one stands for a state the library never reaches.
   */
  function Authorize(headers: map<string, string>, t: Token, creds: Credentials, now: int, server: Grant -> Response)
    : (r: (seq<Grant>, Result<(map<string, string>, Token)>))
    ensures r.1.Ok? <==> AccessToken(t, creds, now, server).1.Ok?
    ensures r.1.Ok? ==>
              var (h, t') := r.1.value;
              && "authorization" in h
              && (forall k :: k in headers && !SameHeader(k, "authorization") ==> k in h && h[k] == headers[k])
              && (forall k :: k in h && k != "authorization" ==> k in headers && h[k] == headers[k])
              && t' == AccessToken(t, creds, now, server).1.value.1
              && (t'.access.Some? ==> h["authorization"] == "Bearer " + t'.access.value)
    ensures Consistent(t) && r.1.Ok? ==> r.1.value.1.access.Some? && r.1.value.0["authorization"] == "Bearer " + r.1.value.1.access.value
    ensures r.0 == AccessToken(t, creds, now, server).0
  {
    var (calls, res) := AccessToken(t, creds, now, server);
    match res
    case Err(e) => (calls, Err(e))
    case Ok((value, t')) =>
      var text := match value case Some(v) => v case None => "None";
      (calls, Ok((SetHeader(headers, "authorization", "Bearer " + text), t')))
  }

  /** An `Authorization` header already present is replaced, not kept beside the new one. */
  lemma AuthorizeReplacesHeader(headers: map<string, string>, t: Token, creds: Credentials, now: int, server: Grant -> Response, name: string)
    requires name == "Authorization"
    requires Authorize(headers, t, creds, now, server).1.Ok?
    ensures var h := Authorize(headers, t, creds, now, server).1.value.0;
            name !in h && "authorization" in h
  {
    var h := Authorize(headers, t, creds, now, server).1.value.0;
    assert SameHeader(name, "authorization") by {
      assert name[0] == 'A';
      forall i | 0 <= i < |name|
        ensures LowerChar(name[i]) == LowerChar("authorization"[i])
      {
      }
    }
    assert name != "authorization" by { assert name[0] != "authorization"[0]; }
  }

  // ---------------------------------------------------------------------
  // `_set_token` over the library's own `post`

  /** `http.post` on the token service: the response, or what `http.request` raises for its status. */
  function Post(server: Grant -> Response, g: Grant): (r: Result<Response>)
    ensures r.Ok? <==> CheckStatus(server(g).status).None?
    ensures r.Ok? ==> r.value == server(g)
  {
    var response := server(g);
    match CheckStatus(response.status)
    case Some(e) => Err(e)
    case None => Ok(response)
  }

  /**
   `_set_token` as written: the refresh response comes from `post`, which
   has already raised for any 4xx/5xx status, so the status test that guards
   the password fallback never sees 400 or 403.
   */
  function SetTokenOverHttp(t: Token, creds: Credentials, now: int, server: Grant -> Response): (seq<Grant>, Result<Token>) {
    var password := PasswordGrant(creds.username, creds.password);
    if t.refresh.Some? then
      var refresh := RefreshGrant(t.refresh.value);
      match Post(server, refresh)
      case Err(e) => ([refresh], Err(e))
      case Ok(response) =>
        if response.status in {403, 400} then
          match Post(server, password)
          case Err(e) => ([refresh, password], Err(e))
          case Ok(second) => ([refresh, password], Ok(Store(second.data, now)))
        else ([refresh], Ok(Store(response.data, now)))
    else
      match Post(server, password)
      case Err(e) => ([password], Err(e))
      case Ok(response) => ([password], Ok(Store(response.data, now)))
  }

  /** As written, `_set_token` never posts a second request: the fallback is dead code. */
  lemma SetTokenOverHttpNeverFallsBack(t: Token, creds: Credentials, now: int, server: Grant -> Response)
    ensures |SetTokenOverHttp(t, creds, now, server).0| == 1
  {
  }

  /** Away from a refused refresh, the code as written and the intended branches agree. */
  lemma SetTokenOverHttpAgrees(t: Token, creds: Credentials, now: int, server: Grant -> Response)
    requires t.refresh.None? || server(RefreshGrant(t.refresh.value)).status !in {400, 403}
    ensures SetTokenOverHttp(t, creds, now, server) == SetToken(t, creds, now, server)
  {
  }

  /** A refresh refused with 403 raises as written, where the intended fallback obtains a token. */
  lemma RefusedRefreshRaisesAsWritten(creds: Credentials, now: int, server: Grant -> Response)
    requires forall g :: server(g) == (if g.RefreshGrant? then Response(403, TokenData("", None, 0)) else Response(200, TokenData("abc", Some("def"), 60)))
    ensures SetTokenOverHttp(Token(None, Some("old"), None), creds, now, server) == ([RefreshGrant("old")], Err(HttpStatus(403)))
    ensures SetToken(Token(None, Some("old"), None), creds, now, server).1 == Ok(Token(Some("abc"), Some("def"), Some(now + 60)))
  {
  }
}
