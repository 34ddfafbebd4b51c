/** The identity-service actions of src/app/actions/auth.ts: `doSignIn` and `doRefreshToken`
    turn the outcome of one HTTP exchange into a failure or a success record. The request
    itself is not modelled; its outcome is an input. */
module IdentityActions {
  import opened Wrappers
  import opened ExpiryUtils

  /** The timing claims of a token payload (`iat`, `exp`); the other claims are not read. */
  datatype TokenPayload = TokenPayload(iat: int, exp: int)

  /** The user record of a sign-in response, restricted to the fields the sign-in flow reads. */
  datatype UserInfo = UserInfo(
    id: int,
    username: string,
    email: string,
    displayName: string,
    roles: Option<seq<string>>,
    phone: Option<string>,
    gender: Option<string>)

  /** The `token` object of a response; every field may be missing at run time. */
  datatype TokenInfo = TokenInfo(
    accessToken: Option<string>,
    refreshToken: Option<string>,
    accessPayload: Option<TokenPayload>,
    refreshPayload: Option<TokenPayload>)

  /** The JSON body of a sign-in or refresh response (a refresh body has no `data`). */
  datatype LoginResponse = LoginResponse(success: bool, data: Option<UserInfo>, token: Option<TokenInfo>)

  /** How one call to the identity service ends: a non-2xx status, a parsed body, or an
      exception from `fetch` or `res.json()`. */
  datatype HttpOutcome = NotOk | Body(body: LoginResponse) | Threw

  /** The token fields of a success record. Only the access token is checked, so the refresh
      token may be absent. */
  datatype IssuedTokens = IssuedTokens(accessToken: string, refreshToken: Option<string>, accessExp: int, refreshExp: int)

  datatype SignInResult = SignInFailed(error: string) | SignedIn(tokens: IssuedTokens, user: Option<UserInfo>)

  datatype RefreshResult = RefreshFailed(error: string) | Refreshed(tokens: IssuedTokens)

  const SignInNotOk: string := "Failed to sign in"
  const SignInInvalid: string := "Invalid sign in response"
  const RefreshNotOk: string := "Failed to refresh token"
  const RefreshInvalid: string := "Invalid refresh token response"
  const Unexpected: string := "An unexpected error occurred"

  /** What a parsed body amounts to, shared by both actions: rejected by the
      `success`/`token.accessToken` test, a crash while reading a missing payload (caught by
      the surrounding `try`), or the success record's token fields. */
  datatype BodyReading = Rejected | Crashed | Accepted(tokens: IssuedTokens)

  /** The body passes the `success` and `token.accessToken` test. */
  predicate Passes(body: LoginResponse) {
    body.success && body.token.Some? && NonEmpty(body.token.value.accessToken)
  }

  function ReadBody(body: LoginResponse): (r: BodyReading)
    ensures r.Rejected? <==> !Passes(body)
    ensures r.Accepted? ==> Passes(body)
    ensures r.Accepted? ==>
      r.tokens.accessToken == body.token.value.accessToken.value && r.tokens.refreshToken == body.token.value.refreshToken
  {
    if !Passes(body) then Rejected
    else
      var t := body.token.value;
      if t.accessPayload.None? || t.refreshPayload.None? then Crashed
      else Accepted(IssuedTokens(t.accessToken.value, t.refreshToken,
                                 ParseExp(t.accessPayload.value.exp), ParseExp(t.refreshPayload.value.exp)))
  }

  /** `doSignIn`: never throws; every failure is a record with one of three messages. */
  function DoSignIn(response: HttpOutcome): (r: SignInResult)
    ensures r.SignInFailed? ==> r.error in {SignInNotOk, SignInInvalid, Unexpected}
    ensures r.SignedIn? ==> response.Body? && Passes(response.body) && r.tokens.accessToken != ""
    ensures r.SignedIn? ==> r.user == response.body.data
  {
    match response
    case NotOk => SignInFailed(SignInNotOk)
    case Threw => SignInFailed(Unexpected)
    case Body(body) =>
      match ReadBody(body)
      case Rejected => SignInFailed(SignInInvalid)
      case Crashed => SignInFailed(Unexpected)
      case Accepted(tokens) => SignedIn(tokens, body.data)
  }

  /** `doRefreshToken`: the same classification with its own messages and no user. */
  function DoRefreshToken(response: HttpOutcome): (r: RefreshResult)
    ensures r.RefreshFailed? ==> r.error in {RefreshNotOk, RefreshInvalid, Unexpected}
    ensures r.Refreshed? ==> response.Body? && Passes(response.body) && r.tokens.accessToken != ""
  {
    match response
    case NotOk => RefreshFailed(RefreshNotOk)
    case Threw => RefreshFailed(Unexpected)
    case Body(body) =>
      match ReadBody(body)
      case Rejected => RefreshFailed(RefreshInvalid)
      case Crashed => RefreshFailed(Unexpected)
      case Accepted(tokens) => Refreshed(tokens)
  }

  /** A non-2xx status fails with the action's own message. */
  lemma NotOkFails()
    ensures DoSignIn(NotOk) == SignInFailed("Failed to sign in")
    ensures DoRefreshToken(NotOk) == RefreshFailed("Failed to refresh token")
  {
  }

  /** A thrown error is caught and reported, so both actions are total. */
  lemma ThrownFails()
    ensures DoSignIn(Threw) == SignInFailed("An unexpected error occurred")
    ensures DoRefreshToken(Threw) == RefreshFailed("An unexpected error occurred")
  {
  }

  /** A body that passes the test but lacks a payload throws while reading its `exp`; the
      same `catch` reports it as unexpected. */
  lemma MissingPayloadFails(response: HttpOutcome)
    requires response.Body? && Passes(response.body)
    requires response.body.token.value.accessPayload.None? || response.body.token.value.refreshPayload.None?
    ensures DoSignIn(response) == SignInFailed("An unexpected error occurred")
    ensures DoRefreshToken(response) == RefreshFailed("An unexpected error occurred")
  {
  }

  /** A body with `success` false, or without a non-empty `token.accessToken`, is rejected. */
  lemma RejectedBodyFails(body: LoginResponse)
    requires !body.success || body.token.None? || !NonEmpty(body.token.value.accessToken)
    ensures DoSignIn(Body(body)) == SignInFailed("Invalid sign in response")
    ensures DoRefreshToken(Body(body)) == RefreshFailed("Invalid refresh token response")
  {
  }

  /** Success exactly when the body passes the test and carries both payloads. */
  lemma SuccessExactly(response: HttpOutcome)
    ensures DoSignIn(response).SignedIn? <==>
      response.Body? && Passes(response.body)
      && response.body.token.value.accessPayload.Some? && response.body.token.value.refreshPayload.Some?
    ensures DoRefreshToken(response).Refreshed? <==> DoSignIn(response).SignedIn?
  {
  }

  /** A success record copies both token strings verbatim and normalises both `exp` claims. */
  lemma SuccessCarriesParsedExpiries(response: HttpOutcome)
    requires DoSignIn(response).SignedIn?
    ensures var t := response.body.token.value;
      var r := DoSignIn(response).tokens;
      && Some(r.accessToken) == t.accessToken
      && r.refreshToken == t.refreshToken
      && r.accessExp == ParseExp(t.accessPayload.value.exp)
      && r.refreshExp == ParseExp(t.refreshPayload.value.exp)
    ensures DoRefreshToken(response) == Refreshed(DoSignIn(response).tokens)
  {
  }

  /** `success: true` does not promise a refresh token: only the access token is checked. */
  lemma SuccessWithoutRefreshToken()
    ensures var body := LoginResponse(true, None, Some(TokenInfo(Some("a"), None, Some(TokenPayload(0, 60)), Some(TokenPayload(0, 600)))));
      && DoRefreshToken(Body(body)).Refreshed?
      && DoRefreshToken(Body(body)).tokens.refreshToken.None?
      && DoSignIn(Body(body)).SignedIn?
  {
  }
}
