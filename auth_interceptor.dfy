/** The client's AuthInterceptor: it attaches the cached access token to the
    calls that need one and keeps the token fresh by logging in again. The
    login RPC is outside the model: each login's outcome is an argument. The
    refresh goroutine and its sleeps are modelled as a finite run of the
    loop's rounds, with the waits it would sleep recorded rather than slept. */
module ClientAuth {
  import opened Base

  /** time.Second, in nanoseconds as time.Duration counts. */
  const SECOND: int := 1_000_000_000

  /** The wait after a failed refresh: 10 * time.Second. */
  const RETRY_WAIT: int := 10 * SECOND

  /** The outgoing context of a call, reduced to its metadata pairs in the
      order they were appended. */
  datatype OutgoingContext = OutgoingContext(metadata: seq<(string, string)>)

  /** The wait before the next refresh: 10 seconds after a failed refresh,
      the configured refresh duration after a successful one. */
  function NextWait(refreshDuration: int, refreshErr: Option<Error>): (w: int)
    ensures refreshErr.Some? ==> w == RETRY_WAIT
    ensures refreshErr.None? ==> w == refreshDuration
  {
    if refreshErr.Some? then RETRY_WAIT else refreshDuration
  }

  /** The token cached after a run of logins starting from `token`: the last
      successful login's token, or `token` when none succeeded. */
  function LatestToken(token: string, logins: seq<Result<string>>): string
  {
    if logins == [] then token
    else if logins[|logins| - 1].Success? then logins[|logins| - 1].value
    else LatestToken(token, logins[..|logins| - 1])
  }

  /** The waits the refresh loop sleeps before each of its rounds: first the
      refresh duration, then the wait chosen after the previous round. */
  function Waits(refreshDuration: int, logins: seq<Result<string>>): (ws: seq<int>)
    ensures |ws| == |logins|
    ensures forall k :: 0 <= k < |ws| ==> ws[k] == RETRY_WAIT || ws[k] == refreshDuration
    ensures |ws| > 0 ==> ws[0] == refreshDuration
    ensures forall k :: 0 < k < |ws| ==> ws[k] == (if logins[k - 1].Failure? then RETRY_WAIT else refreshDuration)
  {
    seq(|logins|, k requires 0 <= k < |logins| =>
      if k == 0 then refreshDuration
      else NextWait(refreshDuration, if logins[k - 1].Failure? then Some(logins[k - 1].error) else None))
  }

  /** The cached token is the one of the last successful login: no failed
      login after it, and no success at all leaves the token unchanged. */
  lemma {:induction false} LatestTokenIsLastSuccess(token: string, logins: seq<Result<string>>)
    ensures (forall k :: 0 <= k < |logins| ==> logins[k].Failure?) ==> LatestToken(token, logins) == token
    ensures forall k ::
      (0 <= k < |logins| && logins[k].Success? && (forall l :: k < l < |logins| ==> logins[l].Failure?)) ==>
        LatestToken(token, logins) == logins[k].value
  {
    if logins != [] {
      var init := logins[..|logins| - 1];
      LatestTokenIsLastSuccess(token, init);
      assert forall k :: 0 <= k < |init| ==> init[k] == logins[k];
    }
  }

  class AuthInterceptor {
    /** The full method names that need a token (a missing name reads as false). */
    const authMethods: map<string, bool>
    var accessToken: string

    constructor (authMethods: map<string, bool>)
      ensures this.authMethods == authMethods && accessToken == ""
    {
      this.authMethods := authMethods;
      accessToken := "";
    }

    /** `authMethods[method]`: whether calls to this method carry the token. */
    predicate NeedsToken(fullMethod: string)
    {
      fullMethod in authMethods && authMethods[fullMethod]
    }

    /** attachToken: the context with `authorization` = the cached token appended. */
    function AttachToken(ctx: OutgoingContext): (c: OutgoingContext)
      reads this
      ensures |c.metadata| == |ctx.metadata| + 1 && c.metadata[..|ctx.metadata|] == ctx.metadata
      ensures c.metadata[|ctx.metadata|] == ("authorization", accessToken)
    {
      OutgoingContext(ctx.metadata + [("authorization", accessToken)])
    }

    /** Unary: the context handed to the invoker. A method that needs a token
        gains exactly one more metadata pair, `authorization` with the cached
        token; any other method's context passes unchanged. */
    function Unary(ctx: OutgoingContext, fullMethod: string): (c: OutgoingContext)
      reads this
      ensures NeedsToken(fullMethod) ==>
        |c.metadata| == |ctx.metadata| + 1 && c.metadata[..|ctx.metadata|] == ctx.metadata &&
        c.metadata[|ctx.metadata|] == ("authorization", accessToken)
      ensures !NeedsToken(fullMethod) ==> c == ctx
    {
      if NeedsToken(fullMethod) then AttachToken(ctx) else ctx
    }

    /** Stream: the context handed to the streamer, decided as for Unary. */
    function Stream(ctx: OutgoingContext, fullMethod: string): (c: OutgoingContext)
      reads this
      ensures NeedsToken(fullMethod) ==>
        |c.metadata| == |ctx.metadata| + 1 && c.metadata[..|ctx.metadata|] == ctx.metadata &&
        c.metadata[|ctx.metadata|] == ("authorization", accessToken)
      ensures !NeedsToken(fullMethod) ==> c == ctx
    {
      if NeedsToken(fullMethod) then AttachToken(ctx) else ctx
    }

    /** refreshToken: log in; on failure return the error and keep the cached
        token, on success cache the new token. */
    method RefreshToken(login: Result<string>) returns (err: Option<Error>)
      modifies this`accessToken
      ensures login.Failure? ==> err == Some(login.error) && accessToken == old(accessToken)
      ensures login.Success? ==> err == None && accessToken == login.value
    {
      if login.Failure? {
        return Some(login.error);
      }
      accessToken := login.value;
      err := None;
    }

    /** scheduleRefreshToken: refresh once, synchronously, and return its
        error; the background loop (RefreshLoop) is started only on success. */
    method ScheduleRefreshToken(login: Result<string>) returns (err: Option<Error>)
      modifies this`accessToken
      ensures login.Failure? ==> err == Some(login.error) && accessToken == old(accessToken)
      ensures login.Success? ==> err == None && accessToken == login.value
    {
      err := RefreshToken(login);
    }

    /** The refresh goroutine's loop for as many rounds as `logins` has: each
        round sleeps `wait`, logs in, and sets the next wait to 10 seconds on
        failure and to `refreshDuration` on success. Returns the waits slept;
        the cached token ends as the last successful login left it. */
    method RefreshLoop(refreshDuration: int, logins: seq<Result<string>>) returns (slept: seq<int>)
      modifies this`accessToken
      ensures slept == Waits(refreshDuration, logins)
      ensures accessToken == LatestToken(old(accessToken), logins)
    {
      var wait := refreshDuration;
      slept := [];
      var k := 0;
      while k < |logins|
        invariant 0 <= k <= |logins|
        invariant slept == Waits(refreshDuration, logins[..k])
        invariant accessToken == LatestToken(old(accessToken), logins[..k])
        invariant wait == if k == 0 then refreshDuration
                          else NextWait(refreshDuration, if logins[k - 1].Failure? then Some(logins[k - 1].error) else None)
      {
        slept := slept + [wait];
        var err := RefreshToken(logins[k]);
        assert logins[..k + 1][..k] == logins[..k];
        if err.Some? {
          wait := RETRY_WAIT;
        } else {
          wait := refreshDuration;
        }
        k := k + 1;
      }
      assert logins[..k] == logins;
    }
  }

  /** Unary and Stream make the same attach-or-not decision for every call. */
  lemma StreamDecidesAsUnary(interceptor: AuthInterceptor, ctx: OutgoingContext, fullMethod: string)
    ensures interceptor.Stream(ctx, fullMethod) == interceptor.Unary(ctx, fullMethod)
  {
  }

  /** NewAuthInterceptor: fails, with the login's error, exactly when the first
      refresh fails; otherwise the new interceptor holds the first token. */
  method NewAuthInterceptor(authMethods: map<string, bool>, login: Result<string>) returns (r: Result<AuthInterceptor>)
    ensures r.Failure? <==> login.Failure?
    ensures r.Failure? ==> r.error == login.error
    ensures r.Success? ==> fresh(r.value) && r.value.authMethods == authMethods && r.value.accessToken == login.value
  {
    var interceptor := new AuthInterceptor(authMethods);
    var err := interceptor.ScheduleRefreshToken(login);
    if err.Some? {
      return Failure(err.value);
    }
    r := Success(interceptor);
  }
}
