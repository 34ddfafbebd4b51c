# Token lifecycle of a NextAuth credentials setup, in Dafny

This project models the decision logic of a Next.js application that signs users in against a
remote identity service with NextAuth's credentials provider and keeps a rotating
access/refresh token pair alive for the session:

- `ExpiryUtils` (`utils.dfy`): `parseExp`, which guesses whether an `exp` value is in seconds
  or milliseconds.
- `IdentityActions` (`identity.dfy`): `doSignIn` and `doRefreshToken`, which classify one
  identity-service response as a failure record or a success record. The HTTP exchange is the
  input `HttpOutcome` (non-2xx, a parsed body, or a thrown error).
- `Auth` (`auth.dfy`): the `authorize` mapping from a sign-in result to a user record; the
  `jwt` callback, which on each invocation initialises, keeps, rotates or drops the token; and
  the `session` callback, which copies token fields into the session. The two callbacks mutate
  NextAuth's objects field by field, so they are methods (`JwtCallback`, `SessionCallback`)
  over the classes `JwtToken` and `SessionState`. Each is specified by a step function on
  value snapshots (`JwtStep`, `SessionStep`), and the lemmas are about those functions.
  `JwtStep` returns a `Decision` naming the branch taken, including whether the refresh
  request was made.
- `AuthLifecycle` (`lifecycle.dfy`): a session's series of `jwt` invocations, each starting
  from the token the previous one returned, with inductive lemmas over such series.
- `Middleware` (`middleware.dfy`): the route guard's choice between pass-through and a
  redirect, as a function of the path and the login state.
- `Wrappers` (`wrappers.dfy`): `Option`, and JavaScript's truthiness as the source applies it.
  An absent or empty string is falsy. An absent expiry or an expiry of 0 is falsy.

Abstractions:
- `Date.now()` is the parameter `now`.
- `jwtDecode` is the parameter `decode: string -> Option<TokenPayload>`. `None` stands for a
  decoding error. A decoding error when signing in is outside any `try`, so the callback
  throws (`DecodeThrew`). A decoding error during rotation is inside the `try`, so the
  callback returns `null` (`RotationFailed`).
- The response to the refresh request is the parameter `refreshResponse`.
- The credentials schema check is the boolean `credentialsAccepted`.
- Timestamps, `iat` and `exp` are integers.

## Model

| member | source | states |
|---|---|---|
| ExpiryUtils.ParseExp | src/lib/utils.ts:1-5 | the result is the input or the input times 1000; it is at least the input for non-negative input; every input of at least 10,000,000 ends above the seconds limit |
| ExpiryUtils.AboveLimitUnchanged | src/lib/utils.ts:4 | a value above 9,999,999,999 is returned unchanged |
| ExpiryUtils.AtOrBelowLimitScaled | src/lib/utils.ts:4 | a value at or below 9,999,999,999 is multiplied by 1000 |
| ExpiryUtils.LimitBoundary | src/lib/utils.ts:4 | 9,999,999,999 becomes 9,999,999,999,000 and 10,000,000,000 stays 10,000,000,000 |
| ExpiryUtils.IdempotentExactly | src/lib/utils.ts:4 | applying it twice equals applying it once exactly when the input is 0 or at least 10,000,000 |
| IdentityActions.ReadBody | src/app/actions/auth.ts:29-39 | a body is rejected exactly when `success` is false or `token.accessToken` is missing or empty; an accepted body's token strings are copied verbatim |
| IdentityActions.DoSignIn | src/app/actions/auth.ts:8-45 | always a result, never a throw; every failure carries one of the three messages; a success comes from a parsed body that passed the check, has a non-empty access token and carries the body's user |
| IdentityActions.DoRefreshToken | src/app/actions/auth.ts:47-81 | always a result; every failure carries one of its three messages; a success comes from a parsed body that passed the check and has a non-empty access token |
| IdentityActions.NotOkFails | src/app/actions/auth.ts:23-25 | a non-2xx response fails with "Failed to sign in" or "Failed to refresh token" |
| IdentityActions.ThrownFails | src/app/actions/auth.ts:41-44 | an error thrown by the request itself (`fetch` or `res.json()`) yields "An unexpected error occurred" in both actions |
| IdentityActions.MissingPayloadFails | src/app/actions/auth.ts:33-44 | a body that passes the test but lacks either payload throws while reading `exp`, and both actions report "An unexpected error occurred" |
| IdentityActions.RejectedBodyFails | src/app/actions/auth.ts:29-31 | a body with `success` false or without a non-empty access token fails with the action's "Invalid … response" message |
| IdentityActions.SuccessExactly | src/app/actions/auth.ts:23-39 | success exactly for a parsed body that passes the check and has both payloads; the two actions succeed on the same responses |
| IdentityActions.SuccessCarriesParsedExpiries | src/app/actions/auth.ts:33-39 | a success copies both token strings verbatim and sets each expiry to `parseExp` of its payload's `exp`; the refresh success has the same token fields and no user |
| IdentityActions.SuccessWithoutRefreshToken | src/app/actions/auth.ts:66-75 | a success record can lack the refresh token, because only the access token is checked |
| Auth.Authorize | src/auth.ts:22-56 | a user record only for accepted credentials and a successful sign-in, always with a non-empty access token |
| Auth.AuthorizeExactly | src/auth.ts:23-42 | a user record exactly when the credentials are accepted and sign-in succeeds with a user; a missing user is caught and gives none |
| Auth.AuthorizeMapping | src/auth.ts:39-51 | the record copies `id`, `username`, `email`, `displayName`, `phone` and `gender`, with `roles` defaulting to empty, plus both tokens and both expiries of the sign-in result |
| Auth.ProfileOf | src/auth.ts:40-46 | every profile field is copied from the sign-in user, with `roles` defaulting to empty when absent |
| Auth.Rotate | src/auth.ts:105-147 | a rotation attempt always calls the service and never keeps the token; it fails exactly when the result is not a success with both tokens non-empty and decodable; it rotates exactly when the result is usable and both new expiries lie within the `Date` range; a rotated token, including one whose logging then throws, takes both tokens from the one result, clears `error` and keeps `user` |
| Auth.JwtStep | src/auth.ts:60-151 | an invocation with a sign-in user always initialises the token or throws (the other branches are stated by the lemmas below) |
| Auth.JwtToken.constructor | src/types/next-auth.d.ts:41-56 | a token before sign-in has none of the managed fields |
| Auth.JwtCallback | src/auth.ts:60-151 | the callback returns the token itself exactly when the step keeps a token, with the fields the step gives; it throws exactly on a sign-in decoding failure; the token object ends as the step says, untouched on every `null` or throw except a rotation whose logging throws after the fields were written |
| Auth.SignInInitialises | src/auth.ts:63-86 | sign-in sets each expiry to `now + (exp - iat) * 1000` of its decoded payload, copies both tokens and the profile and clears `error` |
| Auth.SignInDecodeFailureThrows | src/auth.ts:64-65 | a sign-in token that cannot be decoded makes the callback throw |
| Auth.SignInIgnoresUserExpiries | src/auth.ts:63-86 | the user record's own `accessExp`/`refreshExp` do not affect the sign-in step |
| Auth.ExpiredRefreshLogsOut | src/auth.ts:90-94 | a set refresh expiry that has passed gives `null` and no refresh request |
| Auth.RefreshCalledExactly | src/auth.ts:90-109 | refresh is requested exactly when the access expiry is set, `now >= accessExp - 2000`, and the refresh token has not expired |
| Auth.ThresholdBoundary | src/auth.ts:97-98 | an access expiry at `now + 2000` triggers the refresh; at `now + 2001` the token is kept unchanged |
| Auth.ExpiryMarkedUnreachable | src/auth.ts:90-101 | the branch that sets `error = "Refresh token expired"` is never taken |
| Auth.NeverSetsError | src/auth.ts:60-151 | a returned token's `error` is cleared or is the input's |
| Auth.RotationReplacesBoth | src/auth.ts:109-132 | a rotation takes both tokens from one successful refresh result, recomputes both expiries from the new payloads, clears `error` and keeps `user`; both new expiries are within the `Date` range |
| Auth.GoodRefreshRotates | src/auth.ts:109-150 | a due token whose refresh succeeds with both tokens decodable and both new expiries in range is returned rotated, with both tokens and both expiries replaced, `error` cleared and `user` kept |
| Auth.OutOfRangeExpiryLogsOut | src/auth.ts:118-146 | a successful, decodable refresh whose new expiry lies outside the `Date` range gives `null`, after both tokens have been written into the token object |
| Auth.NoHalfRotation | src/auth.ts:98-150 | without a sign-in, any change to either token is a rotation that replaces both tokens from the same refresh result |
| Auth.FailedRefreshLogsOut | src/auth.ts:138-147 | a failed refresh, or one missing the refresh token, gives `null`; the old token is not kept |
| Auth.KeepsUnchanged | src/auth.ts:150 | when neither the refresh expiry nor the access threshold is reached the token is returned with every field unchanged |
| Auth.RotationAdvancesExpiry | src/auth.ts:118-129 | a rotation to tokens valid for more than the threshold moves the access expiry strictly forward, and nothing is due again at the same instant |
| Auth.SessionState.constructor | src/types/next-auth.d.ts:8-23 | a session before the callback has none of the token-derived fields |
| Auth.SessionStep | src/auth.ts:152-171 | the session changes only for an existing token with no error and a user; it never gains an error it did not have; without a token it is untouched |
| Auth.SessionCallback | src/auth.ts:152-171 | the callback returns the session it was given, with the fields the step function gives |
| Auth.SessionCopiesExactly | src/auth.ts:156-168 | user, both tokens and both expiries are copied exactly when the token exists, has no error and has a user; otherwise the session is untouched |
| AuthLifecycle.Run | src/auth.ts:60-151 | a surviving token carries a user when the starting token did or when any invocation in the series signed in |
| AuthLifecycle.RunComposes | src/auth.ts:86-150 | running two series in turn is running their concatenation, so a dropped token stays dropped |
| AuthLifecycle.RunNeverSetsError | src/auth.ts:85-132 | from a token without `error`, no series of invocations produces one with `error` |
| AuthLifecycle.ExpiredRefreshIsTerminal | src/auth.ts:90-94 | once a set refresh expiry has passed, a series whose first invocation is not a sign-in ends the session, and that invocation makes no refresh request |
| AuthLifecycle.SessionAfterSignIn | src/auth.ts:63-168 | after a successful sign-in, every surviving token has no error and a user, so the session copies its tokens |
| Middleware.Guard | src/middleware.ts:4-26 | a redirect goes to `/dashboard` when logged in and to `/login` otherwise, and never applies to an `/api/auth` path |
| Middleware.ApiAuthPassesThrough | src/middleware.ts:13-15 | any path starting with `/api/auth` passes through whatever the login state |
| Middleware.LoggedInLoginRedirects | src/middleware.ts:17-19 | a logged-in request to `/login` redirects to `/dashboard` |
| Middleware.LoggedOutDashboardRedirects | src/middleware.ts:21-23 | a request without a session to any path starting with `/dashboard` redirects to `/login` |
| Middleware.RedirectsExactly | src/middleware.ts:9-25 | a redirect happens exactly in those two cases; everything else, `/` included, passes through |
| Middleware.NoRedirectLoop | src/middleware.ts:17-25 | for a fixed login state, the redirect target passes through |

## Left out

- Network and framework calls are not modelled: `fetch`, `res.json()`, the `NextAuth(...)` configuration, `signOut`/`doSignOut`, the `events` handlers and all console output. An HTTP exchange is an input outcome.
- `jwtDecode` is a parameter that returns a payload or a decoding error. It does no signature verification. Only the `iat`/`exp` claims are kept.
- JavaScript number semantics are not modelled beyond the `Date` range of the rotation log line: `Number(...)` parsing of the string claims, `NaN` and floating point. Integers stand in. An `exp` that was present but not numeric (NaN) is not a case here.
- Auth.Authorize: the zod credentials schema (`src/lib/validator.ts`) is the boolean `credentialsAccepted`, not the email and length rules themselves.
- The middleware's `config.matcher` (src/middleware.ts:28-30) is routing configuration and is not modelled. `isLoggedIn` is an input rather than derived from the session.
- NextAuth's default claims (`name`, `email`, `sub`, ...) and the session's `expires` are not in the token or session records.
- AuthLifecycle.Run: NextAuth's handling of a `null` or a throw (clearing the cookie) is modelled only as the end of the series. A later sign-in starts a new series.
- Concurrent or single-flight rotation is not modelled: the source has no locking or de-duplication.
- The dashboard's client countdown and poller (`src/app/(protected)/dashboard/page.tsx`) is a UI component outside the modelled core.
- The type declaration files only shape the datatypes.

## Notes on the source

- `success: true` from either action does not promise a refresh token, and `authorize` copies it with a non-null assertion that has no effect at run time. In the model, a sign-in user without a refresh token makes the `jwt` callback's `jwtDecode(user.refreshToken)` throw (`DecodeThrew`). A rotation result without one returns `null`.
- A success record whose body lacks `accessPayload` or `refreshPayload` throws while reading `exp`. The surrounding `try` turns this into "An unexpected error occurred".
- The rotation logs both new expiries with `new Date(...).toISOString()` inside the `try` (src/auth.ts:134-137). An expiry beyond ±8,640,000,000,000,000 ms makes that throw after the token object was rewritten, so the callback returns `null` (`RotatedThenThrew`).
- The `error = "Refresh token expired"` branch (src/auth.ts:99-102) is dead. `JwtStep` keeps it as written, and `Auth.ExpiryMarkedUnreachable` shows it is never taken. In `JwtCallback` that branch is the assertion that it is unreachable.
