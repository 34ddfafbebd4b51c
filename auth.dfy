/** The NextAuth callbacks of src/auth.ts: `authorize` maps a sign-in result to a user record,
    the `jwt` callback decides once per invocation whether to initialise, keep, rotate or drop
    the token, and the `session` callback projects the token into the session.
    `Date.now()` is the parameter `now`; `jwtDecode` is the parameter `decode`, whose `None`
    stands for a decoding error; the refresh request's outcome is the parameter `refreshResponse`. */
module Auth {
  import opened Wrappers
  import opened IdentityActions

  // ---------------------------------------------------------------- authorize

  /** The user profile kept in the token and the session. */
  datatype Profile = Profile(
    id: int,
    username: string,
    email: string,
    displayName: string,
    roles: seq<string>,
    phone: Option<string>,
    gender: Option<string>)

  /** The record `authorize` returns. The source asserts the refresh token present with `!`,
      which does nothing at run time, so it is optional here. */
  datatype User = User(profile: Profile, accessToken: string, refreshToken: Option<string>, accessExp: int, refreshExp: int)

  /** The profile fields of a sign-in user record, with `roles ?? []`. */
  function ProfileOf(info: UserInfo): (p: Profile)
    ensures p.id == info.id && p.username == info.username && p.email == info.email
    ensures p.displayName == info.displayName && p.phone == info.phone && p.gender == info.gender
    ensures info.roles.Some? ==> p.roles == info.roles.value
    ensures info.roles.None? ==> p.roles == []
  {
    Profile(info.id, info.username, info.email, info.displayName,
            if info.roles.Some? then info.roles.value else [], info.phone, info.gender)
  }

  /** `authorize`: `credentialsAccepted` is the outcome of the credentials schema check and
      `response` the outcome of the sign-in request. A missing `user` in a success record makes
      `result.user!.id` throw, which the surrounding `try` turns into `null`. */
  function Authorize(credentialsAccepted: bool, response: HttpOutcome): (r: Option<User>)
    ensures r.Some? ==> credentialsAccepted && DoSignIn(response).SignedIn?
    ensures r.Some? ==> r.value.accessToken != ""
  {
    if !credentialsAccepted then None
    else
      var result := DoSignIn(response);
      if result.SignInFailed? || result.user.None? then None
      else Some(User(ProfileOf(result.user.value), result.tokens.accessToken, result.tokens.refreshToken,
                     result.tokens.accessExp, result.tokens.refreshExp))
  }

  /** A user record is produced exactly when the schema accepts the credentials and sign-in
      succeeds with a user. */
  lemma AuthorizeExactly(credentialsAccepted: bool, response: HttpOutcome)
    ensures Authorize(credentialsAccepted, response).Some? <==>
      credentialsAccepted && DoSignIn(response).SignedIn? && DoSignIn(response).user.Some?
  {
  }

  /** The user record copies the profile (roles defaulting to empty), both tokens and both
      normalised expiries from the sign-in result. */
  lemma AuthorizeMapping(credentialsAccepted: bool, response: HttpOutcome)
    requires Authorize(credentialsAccepted, response).Some?
    ensures var u := Authorize(credentialsAccepted, response).value;
      var s := DoSignIn(response);
      && u.profile.id == s.user.value.id
      && u.profile.username == s.user.value.username && u.profile.email == s.user.value.email
      && u.profile.displayName == s.user.value.displayName
      && u.profile.phone == s.user.value.phone && u.profile.gender == s.user.value.gender
      && (s.user.value.roles.None? ==> u.profile.roles == [])
      && (s.user.value.roles.Some? ==> u.profile.roles == s.user.value.roles.value)
      && u.accessToken == s.tokens.accessToken && u.refreshToken == s.tokens.refreshToken
      && u.accessExp == s.tokens.accessExp && u.refreshExp == s.tokens.refreshExp
  {
  }

  // ---------------------------------------------------------------- jwt

  /** The fields of the JWT record the callbacks manage (NextAuth's default claims are not
      modelled). `None` is `undefined`. */
  datatype TokenRecord = TokenRecord(
    user: Option<Profile>,
    accessToken: Option<string>,
    refreshToken: Option<string>,
    accessExp: Option<int>,
    refreshExp: Option<int>,
    error: Option<string>)

  /** The token NextAuth starts from before the first sign-in. */
  const EmptyToken: TokenRecord := TokenRecord(None, None, None, None, None, None)

  /** How many milliseconds before access expiry a rotation is attempted. */
  const RefreshThreshold: int := 2000

  const RefreshExpiredError: string := "Refresh token expired"

  /** The largest magnitude of a JavaScript time value: `new Date(v).toISOString()` throws a
      RangeError for any `v` beyond it (ECMA-262, "Time Values and Time Range"). */
  const MaxTimeValue: int := 8640000000000000

  /** `new Date(v).toISOString()` succeeds. */
  predicate InDateRange(v: int) {
    -MaxTimeValue <= v <= MaxTimeValue
  }

  /** An absolute expiry anchored at `now`, from the token's own `exp - iat` duration in seconds. */
  function ExpiryFrom(now: int, p: TokenPayload): int {
    now + (p.exp - p.iat) * 1000
  }

  /** `token.refreshExp && now >= token.refreshExp`. */
  predicate RefreshExpiredAt(t: TokenRecord, now: int) {
    NonZero(t.refreshExp) && now >= t.refreshExp.value
  }

  /** `token.accessExp && now >= token.accessExp - refreshThreshold`. */
  predicate AccessDueAt(t: TokenRecord, now: int) {
    NonZero(t.accessExp) && now >= t.accessExp.value - RefreshThreshold
  }

  /** The branch one invocation of the `jwt` callback takes, with the token it returns. */
  datatype Decision =
    | Initialised(token: TokenRecord)   // sign-in: both expiries computed, `error` cleared
    | DecodeThrew                       // sign-in: a token could not be decoded; the callback throws
    | RefreshTokenExpired               // `null`: forced logout, no refresh request
    | ExpiryMarked(token: TokenRecord)  // the `error = "Refresh token expired"` branch, as written
    | Rotated(token: TokenRecord)       // both tokens and both expiries replaced
    | RotationFailed                    // `null`: the refresh failed or its tokens would not decode
    | RotatedThenThrew(token: TokenRecord) // `null`: fields rewritten, then logging a new expiry
                                           // outside the `Date` range threw inside the `try`
    | Unchanged(token: TokenRecord)     // the input token, as it was

  /** What the callback hands back to NextAuth: a token, or none (`null` or a throw). */
  function Returned(d: Decision): Option<TokenRecord> {
    match d
    case Initialised(t) => Some(t)
    case ExpiryMarked(t) => Some(t)
    case Rotated(t) => Some(t)
    case Unchanged(t) => Some(t)
    case _ => None
  }

  /** The invocation called `doRefreshToken`. */
  predicate RefreshCalled(d: Decision) {
    d.Rotated? || d.RotationFailed? || d.RotatedThenThrew?
  }

  /** The fields of the token object once the callback has finished with it: a `null` or a
      throw before any write leaves it as it was. */
  function StateAfter(t: TokenRecord, d: Decision): TokenRecord {
    match d
    case DecodeThrew => t
    case RefreshTokenExpired => t
    case RotationFailed => t
    case _ => d.token
  }

  /** `result.success && result.accessToken && result.refreshToken`, and both new tokens
      decode (a decoding error inside the `try` would return `null`). */
  predicate RefreshUsable(result: RefreshResult, decode: string -> Option<TokenPayload>) {
    && result.Refreshed? && NonEmpty(Some(result.tokens.accessToken)) && NonEmpty(result.tokens.refreshToken)
    && decode(result.tokens.accessToken).Some? && decode(result.tokens.refreshToken.value).Some?
  }

  /** Both expiries a usable refresh result would give can be logged as `Date`s. */
  predicate ExpiriesLoggable(now: int, result: RefreshResult, decode: string -> Option<TokenPayload>)
    requires RefreshUsable(result, decode)
  {
    && InDateRange(ExpiryFrom(now, decode(result.tokens.accessToken).value))
    && InDateRange(ExpiryFrom(now, decode(result.tokens.refreshToken.value).value))
  }

  /** The rotation step once `doRefreshToken` has answered `result`. */
  function Rotate(t: TokenRecord, now: int, decode: string -> Option<TokenPayload>, result: RefreshResult): (d: Decision)
    ensures RefreshCalled(d)
    ensures d.RotationFailed? <==> !RefreshUsable(result, decode)
    ensures d.Rotated? <==> RefreshUsable(result, decode) && ExpiriesLoggable(now, result, decode)
    ensures d.Rotated? || d.RotatedThenThrew? ==>
      result.Refreshed? && d.token.accessToken == Some(result.tokens.accessToken)
      && d.token.refreshToken == result.tokens.refreshToken && NonEmpty(d.token.refreshToken)
      && d.token.accessExp.Some? && d.token.refreshExp.Some? && d.token.error == None && d.token.user == t.user
    ensures d.Rotated? ==> InDateRange(d.token.accessExp.value) && InDateRange(d.token.refreshExp.value)
    ensures d.RotatedThenThrew? ==> !InDateRange(d.token.accessExp.value) || !InDateRange(d.token.refreshExp.value)
  {
    if result.Refreshed? && NonEmpty(Some(result.tokens.accessToken)) && NonEmpty(result.tokens.refreshToken) then
      var access := decode(result.tokens.accessToken);
      var refresh := decode(result.tokens.refreshToken.value);
      if access.None? || refresh.None? then RotationFailed
      else
        var rotated := t.(accessToken := Some(result.tokens.accessToken),
                          refreshToken := result.tokens.refreshToken,
                          accessExp := Some(ExpiryFrom(now, access.value)),
                          refreshExp := Some(ExpiryFrom(now, refresh.value)),
                          error := None);
        if InDateRange(rotated.accessExp.value) && InDateRange(rotated.refreshExp.value) then Rotated(rotated)
        else RotatedThenThrew(rotated)
    else RotationFailed
  }

  /** The `jwt` callback as a function of the token before the call. */
  function JwtStep(t: TokenRecord, now: int, user: Option<User>, decode: string -> Option<TokenPayload>,
                   refreshResponse: HttpOutcome): (d: Decision)
    ensures user.Some? ==> d.Initialised? || d.DecodeThrew?
  {
    if user.Some? then
      var u := user.value;
      var access := decode(u.accessToken);
      var refresh := if u.refreshToken.Some? then decode(u.refreshToken.value) else None;
      if access.None? || refresh.None? then DecodeThrew
      else Initialised(TokenRecord(Some(u.profile), Some(u.accessToken), u.refreshToken,
                                   Some(ExpiryFrom(now, access.value)), Some(ExpiryFrom(now, refresh.value)), None))
    else if RefreshExpiredAt(t, now) then RefreshTokenExpired
    else if AccessDueAt(t, now) then
      if RefreshExpiredAt(t, now) then ExpiryMarked(t.(error := Some(RefreshExpiredError)))
      else Rotate(t, now, decode, DoRefreshToken(refreshResponse))
    else Unchanged(t)
  }

  /** The JWT object NextAuth passes to the `jwt` callback, updated field by field. */
  class JwtToken {
    var user: Option<Profile>
    var accessToken: Option<string>
    var refreshToken: Option<string>
    var accessExp: Option<int>
    var refreshExp: Option<int>
    var error: Option<string>

    /** The token's current field values. */
    function Snapshot(): TokenRecord
      reads this
    {
      TokenRecord(user, accessToken, refreshToken, accessExp, refreshExp, error)
    }

    /** The token before the first sign-in. */
    constructor ()
      ensures Snapshot() == EmptyToken
    {
      user, accessToken, refreshToken := None, None, None;
      accessExp, refreshExp, error := None, None, None;
    }
  }

  /** The `jwt` callback. It returns `token` itself or `null`; `raised` reports that it threw
      (a sign-in token that does not decode). Only a rotation whose new expiries cannot be
      logged writes the token and then returns `null`. */
  method JwtCallback(token: JwtToken, now: int, user: Option<User>, decode: string -> Option<TokenPayload>,
                     refreshResponse: HttpOutcome)
    returns (r: JwtToken?, raised: bool)
    modifies token
    ensures var d := JwtStep(old(token.Snapshot()), now, user, decode, refreshResponse);
      && raised == d.DecodeThrew?
      && (r == null <==> Returned(d).None?)
      && (r != null ==> r == token && token.Snapshot() == Returned(d).value)
      && token.Snapshot() == StateAfter(old(token.Snapshot()), d)
  {
    if user.Some? {
      var u := user.value;
      var decoded := decode(u.accessToken);
      var refreshDecoded := if u.refreshToken.Some? then decode(u.refreshToken.value) else None;
      if decoded.None? || refreshDecoded.None? {
        return null, true;
      }
      token.user := Some(u.profile);
      token.accessToken := Some(u.accessToken);
      token.refreshToken := u.refreshToken;
      token.accessExp := Some(ExpiryFrom(now, decoded.value));
      token.refreshExp := Some(ExpiryFrom(now, refreshDecoded.value));
      token.error := None;
      return token, false;
    }

    if NonZero(token.refreshExp) && now >= token.refreshExp.value {
      return null, false;
    }

    if NonZero(token.accessExp) && now >= token.accessExp.value - RefreshThreshold {
      if NonZero(token.refreshExp) && now >= token.refreshExp.value {
        // The source sets `error` to RefreshExpiredError and returns the token here; the
        // same condition has already returned null above (see ExpiryMarkedUnreachable).
        assert false;
      }
      var result := DoRefreshToken(refreshResponse);
      if result.Refreshed? && result.tokens.accessToken != "" && NonEmpty(result.tokens.refreshToken) {
        var newAccessDecoded := decode(result.tokens.accessToken);
        var newRefreshDecoded := decode(result.tokens.refreshToken.value);
        if newAccessDecoded.None? || newRefreshDecoded.None? {
          return null, false;
        }
        token.accessToken := Some(result.tokens.accessToken);
        token.refreshToken := result.tokens.refreshToken;
        token.accessExp := Some(ExpiryFrom(now, newAccessDecoded.value));
        token.refreshExp := Some(ExpiryFrom(now, newRefreshDecoded.value));
        token.error := None;
        if !InDateRange(token.accessExp.value) || !InDateRange(token.refreshExp.value) {
          // The log line's `toISOString()` throws a RangeError; the `catch` returns null.
          return null, false;
        }
      } else {
        return null, false;
      }
    }
    return token, false;
  }

  /** Sign-in computes both expiries from the payload durations anchored at `now`, copies both
      tokens and the profile, and clears `error`, whatever the token held before. */
  lemma SignInInitialises(t: TokenRecord, now: int, u: User, decode: string -> Option<TokenPayload>, refreshResponse: HttpOutcome)
    requires decode(u.accessToken).Some? && u.refreshToken.Some? && decode(u.refreshToken.value).Some?
    ensures var d := JwtStep(t, now, Some(u), decode, refreshResponse);
      var a := decode(u.accessToken).value;
      var r := decode(u.refreshToken.value).value;
      && d.Initialised?
      && d.token.accessExp == Some(now + (a.exp - a.iat) * 1000)
      && d.token.refreshExp == Some(now + (r.exp - r.iat) * 1000)
      && d.token.accessToken == Some(u.accessToken) && d.token.refreshToken == u.refreshToken
      && d.token.user == Some(u.profile) && d.token.error == None
  {
  }

  /** A sign-in whose tokens cannot both be decoded throws out of the callback. */
  lemma SignInDecodeFailureThrows(t: TokenRecord, now: int, u: User, decode: string -> Option<TokenPayload>, refreshResponse: HttpOutcome)
    requires decode(u.accessToken).None? || u.refreshToken.None? || decode(u.refreshToken.value).None?
    ensures JwtStep(t, now, Some(u), decode, refreshResponse) == DecodeThrew
  {
  }

  /** The expiries `authorize` computed with `parseExp` play no part in the sign-in step. */
  lemma SignInIgnoresUserExpiries(t: TokenRecord, now: int, u: User, accessExp: int, refreshExp: int,
                                  decode: string -> Option<TokenPayload>, refreshResponse: HttpOutcome)
    ensures JwtStep(t, now, Some(u), decode, refreshResponse)
         == JwtStep(t, now, Some(u.(accessExp := accessExp, refreshExp := refreshExp)), decode, refreshResponse)
  {
  }

  /** An expired refresh token logs the session out, and no refresh request is made. */
  lemma ExpiredRefreshLogsOut(t: TokenRecord, now: int, decode: string -> Option<TokenPayload>, refreshResponse: HttpOutcome)
    requires NonZero(t.refreshExp) && now >= t.refreshExp.value
    ensures JwtStep(t, now, None, decode, refreshResponse) == RefreshTokenExpired
    ensures !RefreshCalled(JwtStep(t, now, None, decode, refreshResponse))
  {
  }

  /** Without a sign-in, the refresh request is made exactly when the access expiry is set and
      within the threshold and the refresh token has not expired. */
  lemma RefreshCalledExactly(t: TokenRecord, now: int, decode: string -> Option<TokenPayload>, refreshResponse: HttpOutcome)
    ensures RefreshCalled(JwtStep(t, now, None, decode, refreshResponse)) <==>
      NonZero(t.accessExp) && now >= t.accessExp.value - 2000 && !RefreshExpiredAt(t, now)
  {
  }

  /** An access expiry 2000 ms away triggers the refresh; 2001 ms away does not. */
  lemma ThresholdBoundary(t: TokenRecord, now: int, decode: string -> Option<TokenPayload>, refreshResponse: HttpOutcome)
    requires now + 2000 != 0 && !RefreshExpiredAt(t, now)
    ensures RefreshCalled(JwtStep(t.(accessExp := Some(now + 2000)), now, None, decode, refreshResponse))
    ensures JwtStep(t.(accessExp := Some(now + 2001)), now, None, decode, refreshResponse)
         == Unchanged(t.(accessExp := Some(now + 2001)))
  {
  }

  /** The branch that marks the token "Refresh token expired" is never taken: its condition
      has already returned `null`. */
  lemma ExpiryMarkedUnreachable(t: TokenRecord, now: int, user: Option<User>, decode: string -> Option<TokenPayload>,
                                refreshResponse: HttpOutcome)
    ensures !JwtStep(t, now, user, decode, refreshResponse).ExpiryMarked?
  {
  }

  /** No invocation sets `error`: a returned token has it cleared or carries the input's. */
  lemma NeverSetsError(t: TokenRecord, now: int, user: Option<User>, decode: string -> Option<TokenPayload>,
                       refreshResponse: HttpOutcome)
    ensures var r := Returned(JwtStep(t, now, user, decode, refreshResponse));
      r.Some? ==> r.value.error == None || r.value.error == t.error
  {
  }

  /** A successful rotation replaces both tokens from one refresh result, recomputes both
      expiries from the new payloads, clears `error` and keeps the user. */
  lemma RotationReplacesBoth(t: TokenRecord, now: int, decode: string -> Option<TokenPayload>, refreshResponse: HttpOutcome)
    requires JwtStep(t, now, None, decode, refreshResponse).Rotated?
    ensures var n := JwtStep(t, now, None, decode, refreshResponse).token;
      var result := DoRefreshToken(refreshResponse);
      && result.Refreshed? && NonEmpty(result.tokens.refreshToken)
      && n.accessToken == Some(result.tokens.accessToken) && n.refreshToken == result.tokens.refreshToken
      && n.accessExp == Some(ExpiryFrom(now, decode(result.tokens.accessToken).value))
      && n.refreshExp == Some(ExpiryFrom(now, decode(result.tokens.refreshToken.value).value))
      && n.error == None && n.user == t.user
      && InDateRange(n.accessExp.value) && InDateRange(n.refreshExp.value)
  {
  }

  /** A due token whose refresh succeeds with both tokens decodable and both new expiries
      within the `Date` range is rotated: both tokens and both expiries are replaced, `error`
      is cleared, the user is kept, and the token is returned. */
  lemma GoodRefreshRotates(t: TokenRecord, now: int, decode: string -> Option<TokenPayload>, refreshResponse: HttpOutcome)
    requires AccessDueAt(t, now) && !RefreshExpiredAt(t, now)
    requires RefreshUsable(DoRefreshToken(refreshResponse), decode)
    requires ExpiriesLoggable(now, DoRefreshToken(refreshResponse), decode)
    ensures var d := JwtStep(t, now, None, decode, refreshResponse);
      var result := DoRefreshToken(refreshResponse);
      && d.Rotated? && Returned(d) == Some(d.token)
      && d.token.accessToken == Some(result.tokens.accessToken) && d.token.refreshToken == result.tokens.refreshToken
      && d.token.accessExp == Some(ExpiryFrom(now, decode(result.tokens.accessToken).value))
      && d.token.refreshExp == Some(ExpiryFrom(now, decode(result.tokens.refreshToken.value).value))
      && d.token.error == None && d.token.user == t.user
  {
  }

  /** A refresh that succeeds with both tokens decodable, but gives an expiry outside the
      `Date` range, still ends the session: the fields are already rewritten when logging them
      throws, and the `catch` returns `null`. */
  lemma OutOfRangeExpiryLogsOut(t: TokenRecord, now: int, decode: string -> Option<TokenPayload>, refreshResponse: HttpOutcome)
    requires AccessDueAt(t, now) && !RefreshExpiredAt(t, now)
    requires var result := DoRefreshToken(refreshResponse);
      && result.Refreshed? && NonEmpty(result.tokens.refreshToken)
      && decode(result.tokens.accessToken).Some? && decode(result.tokens.refreshToken.value).Some?
      && (!InDateRange(ExpiryFrom(now, decode(result.tokens.accessToken).value))
          || !InDateRange(ExpiryFrom(now, decode(result.tokens.refreshToken.value).value)))
    ensures var d := JwtStep(t, now, None, decode, refreshResponse);
      && d.RotatedThenThrew? && Returned(d).None?
      && StateAfter(t, d).accessToken == Some(DoRefreshToken(refreshResponse).tokens.accessToken)
      && StateAfter(t, d).refreshToken == DoRefreshToken(refreshResponse).tokens.refreshToken
  {
  }

  /** No invocation without a sign-in changes one token and keeps the other: any change of
      either token is a rotation, which takes both from the same refresh result. */
  lemma NoHalfRotation(t: TokenRecord, now: int, decode: string -> Option<TokenPayload>, refreshResponse: HttpOutcome)
    requires var r := Returned(JwtStep(t, now, None, decode, refreshResponse));
      r.Some? && (r.value.accessToken != t.accessToken || r.value.refreshToken != t.refreshToken)
    ensures var d := JwtStep(t, now, None, decode, refreshResponse);
      && d.Rotated?
      && d.token.accessToken == Some(DoRefreshToken(refreshResponse).tokens.accessToken)
      && d.token.refreshToken == DoRefreshToken(refreshResponse).tokens.refreshToken
  {
  }

  /** A refresh that fails, or succeeds without both tokens, drops the token: the old token is
      never kept after a failed rotation. */
  lemma FailedRefreshLogsOut(t: TokenRecord, now: int, decode: string -> Option<TokenPayload>, refreshResponse: HttpOutcome)
    requires AccessDueAt(t, now) && !RefreshExpiredAt(t, now)
    requires var result := DoRefreshToken(refreshResponse);
      result.RefreshFailed? || !NonEmpty(result.tokens.refreshToken)
    ensures JwtStep(t, now, None, decode, refreshResponse) == RotationFailed
    ensures Returned(JwtStep(t, now, None, decode, refreshResponse)).None?
  {
  }

  /** When neither the refresh expiry nor the access threshold is reached, the token comes back
      with every field unchanged. */
  lemma KeepsUnchanged(t: TokenRecord, now: int, decode: string -> Option<TokenPayload>, refreshResponse: HttpOutcome)
    requires !RefreshExpiredAt(t, now) && !AccessDueAt(t, now)
    ensures Returned(JwtStep(t, now, None, decode, refreshResponse)) == Some(t)
  {
  }

  /** A rotation to an access token valid for more than the threshold moves the access expiry
      strictly forward and leaves nothing due at the same instant. */
  lemma RotationAdvancesExpiry(t: TokenRecord, now: int, decode: string -> Option<TokenPayload>, refreshResponse: HttpOutcome)
    requires JwtStep(t, now, None, decode, refreshResponse).Rotated?
    requires var a := decode(DoRefreshToken(refreshResponse).tokens.accessToken).value;
      var r := decode(DoRefreshToken(refreshResponse).tokens.refreshToken.value).value;
      (a.exp - a.iat) * 1000 > RefreshThreshold && r.exp > r.iat
    ensures var n := JwtStep(t, now, None, decode, refreshResponse).token;
      n.accessExp.value > t.accessExp.value && !AccessDueAt(n, now) && !RefreshExpiredAt(n, now)
  {
  }

  // ---------------------------------------------------------------- session

  /** The fields of the session object the `session` callback writes. */
  datatype SessionRecord = SessionRecord(
    user: Option<Profile>,
    accessToken: Option<string>,
    accessExp: Option<int>,
    refreshExp: Option<int>,
    refreshToken: Option<string>,
    error: Option<string>)

  /** The `session` callback as a function; `token` is `None` when `jwt` returned `null`. */
  function SessionStep(s: SessionRecord, token: Option<TokenRecord>): (r: SessionRecord)
    ensures r != s ==> token.Some? && !NonEmpty(token.value.error) && token.value.user.Some?
    ensures !NonEmpty(r.error) || r.error == s.error
    ensures token.None? ==> r == s
  {
    if token.None? || NonEmpty(token.value.error) then s
    else if token.value.user.Some? then
      var t := token.value;
      SessionRecord(t.user, t.accessToken, t.accessExp, t.refreshExp, t.refreshToken, t.error)
    else s
  }

  /** The session object NextAuth passes to the `session` callback, mutated in place. */
  class SessionState {
    var user: Option<Profile>
    var accessToken: Option<string>
    var accessExp: Option<int>
    var refreshExp: Option<int>
    var refreshToken: Option<string>
    var error: Option<string>

    function Snapshot(): SessionRecord
      reads this
    {
      SessionRecord(user, accessToken, accessExp, refreshExp, refreshToken, error)
    }

    /** A session with none of the token-derived fields. */
    constructor ()
      ensures Snapshot() == SessionRecord(None, None, None, None, None, None)
    {
      user, accessToken, accessExp := None, None, None;
      refreshExp, refreshToken, error := None, None, None;
    }
  }

  /** The `session` callback: returns the session it was given, updated from the token. */
  method SessionCallback(session: SessionState, token: JwtToken?) returns (r: SessionState)
    modifies session
    ensures r == session
    ensures session.Snapshot() == SessionStep(old(session.Snapshot()), if token == null then None else Some(token.Snapshot()))
  {
    if token == null || NonEmpty(token.error) {
      return session;
    }
    if token.user.Some? {
      session.user := token.user;
      session.accessToken := token.accessToken;
      session.accessExp := token.accessExp;
      session.refreshExp := token.refreshExp;
      session.refreshToken := token.refreshToken;
      session.error := token.error;
    }
    return session;
  }

  /** The session takes the user, both tokens and both expiries exactly when the token exists,
      has no error and has a user; otherwise it is returned untouched. */
  lemma SessionCopiesExactly(s: SessionRecord, token: Option<TokenRecord>)
    ensures var n := SessionStep(s, token);
      if token.Some? && !NonEmpty(token.value.error) && token.value.user.Some? then
        n.user == token.value.user && n.accessToken == token.value.accessToken
        && n.refreshToken == token.value.refreshToken && n.accessExp == token.value.accessExp
        && n.refreshExp == token.value.refreshExp && !NonEmpty(n.error)
      else n == s
  {
  }
}
