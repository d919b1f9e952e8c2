/**
 * The client call gate of client/auth_interceptor_client.go: the interceptor
 * caches the latest access token, refreshes it by logging in again, and
 * attaches it to the outgoing metadata of the methods that need it.
 * Each login is an outcome given as input (a token, or an error text);
 * the refresh goroutine is its loop run over a finite list of outcomes.
 */
module ClientAuth {
  import opened Wrappers
  import opened Grpc

  /** `time.Duration`: a count of nanoseconds. */
  type Duration = int

  /** `time.Second`. */
  const Second: Duration := 1_000_000_000

  /** What `AuthClient.Login` returns: the access token, or the error's text. */
  type LoginOutcome = Result<string, string>

  /** Outgoing metadata as the ordered key/value pairs appended to a context. */
  type OutgoingMetadata = seq<(string, string)>

  /** The wait chosen after a refresh attempt: one second after a failure, the full period after a success. */
  function NextWait(refreshDuration: Duration, refreshed: bool): Duration
  {
    if refreshed then refreshDuration else Second
  }

  /** The wait before attempt `i` of the refresh loop: the full period first, then as `NextWait` says. */
  function WaitBefore(refreshDuration: Duration, outcomes: seq<LoginOutcome>, i: nat): (wait: Duration)
    requires i <= |outcomes|
    ensures i == 0 ==> wait == refreshDuration
    ensures i > 0 && outcomes[i - 1].Success? ==> wait == refreshDuration
    ensures i > 0 && outcomes[i - 1].Failure? ==> wait == Second
  {
    if i == 0 then refreshDuration else NextWait(refreshDuration, outcomes[i - 1].Success?)
  }

  /** The cached token after the attempts `outcomes`, starting from `token`. */
  function LatestToken(token: string, outcomes: seq<LoginOutcome>): string
  {
    if outcomes == [] then token
    else if outcomes[|outcomes| - 1].Success? then outcomes[|outcomes| - 1].value
    else LatestToken(token, outcomes[..|outcomes| - 1])
  }

  /** With no successful attempt the cached token is the starting one. */
  lemma {:induction false} LatestTokenWithoutSuccess(token: string, outcomes: seq<LoginOutcome>)
    requires forall i :: 0 <= i < |outcomes| ==> outcomes[i].Failure?
    ensures LatestToken(token, outcomes) == token
    decreases |outcomes|
  {
    if outcomes != [] {
      var n := |outcomes| - 1;
      assert forall i :: 0 <= i < n ==> outcomes[..n][i] == outcomes[i];
      LatestTokenWithoutSuccess(token, outcomes[..n]);
    }
  }

  /**
   * The cached token is the one from the most recent successful login:
   * attempt j succeeded and every later attempt failed.
   */
  lemma {:induction false} LatestTokenIsLastSuccess(token: string, outcomes: seq<LoginOutcome>, j: nat)
    requires j < |outcomes| && outcomes[j].Success?
    requires forall i :: j < i < |outcomes| ==> outcomes[i].Failure?
    ensures LatestToken(token, outcomes) == outcomes[j].value
    decreases |outcomes|
  {
    var n := |outcomes| - 1;
    if j < n {
      assert outcomes[..n][j] == outcomes[j];
      assert forall i :: j < i < n ==> outcomes[..n][i] == outcomes[i];
      LatestTokenIsLastSuccess(token, outcomes[..n], j);
    }
  }

  class AuthInterceptor {
    /** Which full method names need a token (`authMethods[method]`; a missing key reads as false). */
    const authMethods: map<string, bool>
    /** The latest acquired access token. */
    var accessToken: string

    constructor (authMethods: map<string, bool>)
      ensures this.authMethods == authMethods && accessToken == ""
    {
      this.authMethods := authMethods;
      accessToken := "";
    }

    /** `authMethods[method]`, with Go's zero value for a missing key. */
    predicate RequiresAuth(fullMethod: string)
    {
      fullMethod in authMethods && authMethods[fullMethod]
    }

    /** `refreshToken`: log in once; store the token on success, keep the old one on failure. */
    method RefreshToken(login: LoginOutcome) returns (err: Option<string>)
      modifies this
      ensures login.Success? ==> err == None && accessToken == login.value
      ensures login.Failure? ==> err == Some(login.error) && accessToken == old(accessToken)
    {
      if login.Failure? {
        return Some(login.error);
      }
      accessToken := login.value;
      return None;
    }

    /**
     * The body of the refresh goroutine, run over the attempts `outcomes`:
     * wait, refresh, and choose the next wait. Returns the wait slept before
     * each attempt.
     */
    method RefreshLoop(refreshDuration: Duration, outcomes: seq<LoginOutcome>) returns (waits: seq<Duration>)
      modifies this
      ensures accessToken == LatestToken(old(accessToken), outcomes)
      ensures |waits| == |outcomes|
      ensures forall i :: 0 <= i < |outcomes| ==> waits[i] == WaitBefore(refreshDuration, outcomes, i)
    {
      var wait := refreshDuration;
      waits := [];
      var i := 0;
      while i < |outcomes|
        invariant 0 <= i <= |outcomes|
        invariant wait == WaitBefore(refreshDuration, outcomes, i)
        invariant accessToken == LatestToken(old(accessToken), outcomes[..i])
        invariant |waits| == i
        invariant forall k :: 0 <= k < i ==> waits[k] == WaitBefore(refreshDuration, outcomes, k)
      {
        waits := waits + [wait];
        var err := RefreshToken(outcomes[i]);
        if err.Some? {
          wait := Second;
        } else {
          wait := refreshDuration;
        }
        assert outcomes[..i + 1][..i] == outcomes[..i];
        i := i + 1;
      }
      assert outcomes[..i] == outcomes;
    }

    /** `AppendToOutgoingContext(ctx, "authorization", accessToken)`. */
    function AttachToken(md: OutgoingMetadata): (out: OutgoingMetadata)
      reads this
      ensures |out| == |md| + 1 && out[..|md|] == md
      ensures out[|md|] == (AuthorizationKey, accessToken)
    {
      md + [(AuthorizationKey, accessToken)]
    }

    /** The metadata a call goes out with: the token appended for a method that needs it, unchanged otherwise. */
    function CallMetadata(fullMethod: string, md: OutgoingMetadata): (out: OutgoingMetadata)
      reads this
      ensures RequiresAuth(fullMethod) ==> out == md + [(AuthorizationKey, accessToken)]
      ensures !RequiresAuth(fullMethod) ==> out == md
    {
      if RequiresAuth(fullMethod) then AttachToken(md) else md
    }

    /** The unary interceptor: invokes the RPC with the metadata `CallMetadata` chooses. */
    function Unary<R>(fullMethod: string, md: OutgoingMetadata, invoker: OutgoingMetadata -> R): (r: R)
      reads this
      ensures RequiresAuth(fullMethod) ==> r == invoker(md + [(AuthorizationKey, accessToken)])
      ensures !RequiresAuth(fullMethod) ==> r == invoker(md)
    {
      invoker(CallMetadata(fullMethod, md))
    }

    /** The stream interceptor: opens the stream with the metadata `CallMetadata` chooses. */
    function Stream<R>(fullMethod: string, md: OutgoingMetadata, streamer: OutgoingMetadata -> R): (r: R)
      reads this
      ensures RequiresAuth(fullMethod) ==> r == streamer(md + [(AuthorizationKey, accessToken)])
      ensures !RequiresAuth(fullMethod) ==> r == streamer(md)
    {
      streamer(CallMetadata(fullMethod, md))
    }
  }

  /**
   * `NewAuthInterceptor` (with the synchronous first refresh of
   * `scheduleRefreshToken`): no interceptor when the first login fails,
   * otherwise one whose cache holds the first token.
   */
  method NewAuthInterceptor(authMethods: map<string, bool>, firstLogin: LoginOutcome)
    returns (ic: AuthInterceptor?, err: Option<string>)
    ensures firstLogin.Failure? ==> ic == null && err == Some(firstLogin.error)
    ensures firstLogin.Success? ==> err == None && ic != null && fresh(ic)
    ensures firstLogin.Success? ==> ic.authMethods == authMethods && ic.accessToken == firstLogin.value
  {
    var interceptor := new AuthInterceptor(authMethods);
    err := interceptor.RefreshToken(firstLogin);
    if err.Some? {
      return null, err;
    }
    return interceptor, None;
  }

  /** After construction, any run of the refresh loop leaves the most recent successful token cached. */
  method StartAndRefresh(authMethods: map<string, bool>, refreshDuration: Duration,
                         firstLogin: LoginOutcome, later: seq<LoginOutcome>)
    returns (ic: AuthInterceptor?, waits: seq<Duration>)
    ensures firstLogin.Failure? <==> ic == null
    ensures firstLogin.Failure? ==> waits == []
    ensures ic != null ==> ic.accessToken == LatestToken(firstLogin.value, later)
    ensures ic != null ==> |waits| == |later| && (|later| > 0 ==> waits[0] == refreshDuration)
  {
    var err;
    ic, err := NewAuthInterceptor(authMethods, firstLogin);
    waits := [];
    if ic != null {
      waits := ic.RefreshLoop(refreshDuration, later);
    }
  }

  /** The scenario of a 30-unit period whose second login fails: the next attempt comes after one second. */
  lemma FailedRefreshRetriesAfterOneSecond(error: string, later: seq<LoginOutcome>)
    ensures var outcomes := [Failure(error)] + later;
            WaitBefore(30 * Second, outcomes, 0) == 30 * Second && WaitBefore(30 * Second, outcomes, 1) == Second
  {
  }
}
