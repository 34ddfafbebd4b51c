/** The token over a session's lifetime: the `jwt` callback of src/auth.ts invoked once per
    request, each invocation starting from the token the previous one returned. A `null` (or a
    throw) ends the session: nothing later resumes it. */
module AuthLifecycle {
  import opened Wrappers
  import opened IdentityActions
  import opened Auth

  /** One invocation: the clock, the `user` NextAuth passes (present only at sign-in), and how
      the refresh request would end if the invocation makes one. */
  datatype Invocation = Invocation(now: int, user: Option<User>, refreshResponse: HttpOutcome)

  /** The token after a series of invocations, or `None` once one of them dropped it. A
      surviving token carries a user if the first one did or if any invocation signed in. */
  function Run(t: TokenRecord, calls: seq<Invocation>, decode: string -> Option<TokenPayload>): (r: Option<TokenRecord>)
    decreases |calls|
    ensures r.Some? && t.user.Some? ==> r.value.user.Some?
    ensures r.Some? && (exists i :: 0 <= i < |calls| && calls[i].user.Some?) ==> r.value.user.Some?
  {
    if calls == [] then Some(t)
    else
      var c := calls[0];
      match Returned(JwtStep(t, c.now, c.user, decode, c.refreshResponse))
      case None => None
      case Some(next) => Run(next, calls[1..], decode)
  }

  /** Running two series one after the other is running their concatenation; in particular a
      dropped token stays dropped. */
  lemma {:induction false} RunComposes(t: TokenRecord, a: seq<Invocation>, b: seq<Invocation>,
                                       decode: string -> Option<TokenPayload>)
    decreases |a|
    ensures Run(t, a + b, decode) == if Run(t, a, decode).None? then None else Run(Run(t, a, decode).value, b, decode)
  {
    if a == [] {
      assert a + b == b;
    } else {
      assert (a + b)[0] == a[0];
      assert (a + b)[1..] == a[1..] + b;
      var c := a[0];
      match Returned(JwtStep(t, c.now, c.user, decode, c.refreshResponse))
      case None =>
      case Some(next) => RunComposes(next, a[1..], b, decode);
    }
  }

  /** Starting from a token without `error`, no series of invocations produces one with it:
      the "Refresh token expired" marking never happens, and the degraded-session signal the
      session callback tests for is never raised by this code. */
  lemma {:induction false} RunNeverSetsError(t: TokenRecord, calls: seq<Invocation>, decode: string -> Option<TokenPayload>)
    requires t.error == None
    decreases |calls|
    ensures Run(t, calls, decode).Some? ==> Run(t, calls, decode).value.error == None
  {
    if calls != [] {
      var c := calls[0];
      NeverSetsError(t, c.now, c.user, decode, c.refreshResponse);
      match Returned(JwtStep(t, c.now, c.user, decode, c.refreshResponse))
      case None =>
      case Some(next) => RunNeverSetsError(next, calls[1..], decode);
    }
  }

  /** Once the refresh token's expiry is set and passed, a series whose first invocation is
      not a sign-in ends with the token dropped, and that invocation calls no service. */
  lemma {:induction false} ExpiredRefreshIsTerminal(t: TokenRecord, calls: seq<Invocation>, decode: string -> Option<TokenPayload>)
    requires calls != [] && NonZero(t.refreshExp)
    requires calls[0].user.None? && calls[0].now >= t.refreshExp.value
    ensures Run(t, calls, decode) == None
    ensures JwtStep(t, calls[0].now, None, decode, calls[0].refreshResponse) == RefreshTokenExpired
  {
    ExpiredRefreshLogsOut(t, calls[0].now, decode, calls[0].refreshResponse);
  }

  /** The fresh token's session view after sign-in and possibly later invocations: it carries
      no error, so the session callback always copies a token that survives. */
  lemma {:induction false} SessionAfterSignIn(s: SessionRecord, now: int, u: User, calls: seq<Invocation>,
                                              decode: string -> Option<TokenPayload>)
    requires decode(u.accessToken).Some? && u.refreshToken.Some? && decode(u.refreshToken.value).Some?
    requires Run(EmptyToken, [Invocation(now, Some(u), NotOk)] + calls, decode).Some?
    ensures var t := Run(EmptyToken, [Invocation(now, Some(u), NotOk)] + calls, decode).value;
      t.error == None && t.user.Some? && SessionStep(s, Some(t)).accessToken == t.accessToken
      && SessionStep(s, Some(t)).refreshToken == t.refreshToken
  {
    var first := [Invocation(now, Some(u), NotOk)];
    RunComposes(EmptyToken, first, calls, decode);
    SignInInitialises(EmptyToken, now, u, decode, NotOk);
    var t0 := Run(EmptyToken, first, decode).value;
    RunNeverSetsError(t0, calls, decode);
  }
}
