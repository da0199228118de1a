# E-book library: request gate, sign-in flows and reader state

This project models the decision logic of a small Next.js e-book library that sits on a hosted
identity and database service. It covers six parts:

- **Request gate** (`Middleware`). Every matched request passes through it. Inputs are the
  path, the user the identity provider resolved, and the error it reported. The gate lets the
  request through, lets it through with the session cookies deleted, or redirects it to
  `/sign-in`. The `setAll` callback is modelled as a class `RequestCycle` whose loop updates
  the request jar and rebuilds the response once per cookie. The matcher's look-ahead pattern
  is modelled as a predicate on paths.
- **Google OAuth callback** (`GoogleCallback`). It maps the `error`, `code` and `next` query
  parameters and the result of the code exchange to a redirect target and message. The
  `error` values are the authorization error codes of section 4.1.2.1 of RFC 6749.
- **Reader navigation** (`PdfReader`). The class `Reader` holds the current page, the page
  count and the rotation, and has one method per toolbar handler. Each handler returns the
  reading-progress request the following re-render sends.
- **Client auth thunks** (`AuthActions`). Error classification for Google sign-in, the
  `signOut` result, and the user record `getCurrentUser` builds, with the role defaulting to
  `"user"`.
- **Server actions** (`ServerActions`). Each action returns the provider calls it makes, in
  order, and where it sends the browser.
- **Auth reducer** (`AuthReducer`). The transitions of the client's auth slice.

Calls to the identity provider and the database become parameters: what a call returned, or
that it threw. `encodeURIComponent` is a parameter `encode: string -> string`. JavaScript
semantics the code relies on are written out in helper modules:

- `JsText`: `startsWith`, `includes`, and the truthiness of an optional string (an empty
  string is falsy).
- `JsNumber`: `parseInt`. It skips leading whitespace, reads a sign and a `0x` prefix, takes
  the longest digit prefix, and gives NaN as `None`.
- `Web`: the rendering of a redirect target with its query string.

## Model

| member | source | states |
|---|---|---|
| Middleware.Decide | src/middleware.ts:44-85 | The gate's decision from the path, whether a user was resolved, and the error: redirect on an invalid token away from the auth pages, redirect on a protected path without a user, otherwise pass, deleting the session cookies when the token was invalid. Its properties are the lemmas below. |
| Middleware.Matched | src/middleware.ts:89-100 | The matcher pattern: the path begins with `/` and the rest does not begin with any excluded prefix, `.` matching any character. |
| Middleware.WouldLog | src/middleware.ts:46-51 | An error is logged unless its message includes "Auth session missing" or its name is `AuthSessionMissingError`; an undefined message counts as not including it. Its properties are `SessionMissingNeverLogged`, `OtherErrorsLogged` and `TokenErrorsLogged`. |
| Middleware.RequestCycle.constructor | src/middleware.ts:6-10 | The response first forwards the request's cookies and sets none. |
| Middleware.RequestCycle.SetAll | src/middleware.ts:23-33 | Every cookie is written into the request jar, in order. The response is rebuilt from the updated jar and carries only the last cookie's `Set-Cookie`. With no cookies, the response is unchanged. |
| Middleware.RequestCycle.ClearSession | src/middleware.ts:59-62 | Exactly the three session cookies are expired on the response. The request jar and the forwarded cookies are untouched. |
| Middleware.Gate | src/middleware.ts:39-85 | A run of the gate agrees with `Decide`. A redirect is a fresh response to `/sign-in` that carries no cookies, so neither the refreshed cookies nor the deletions go with it. A pass returns the rebuilt response: the jar after `setAll`, the last refreshed cookie, and the session deletions when the token was invalid. |
| Middleware.AnonymousProtectedRedirects | src/middleware.ts:76-83 | Without a user, a path starting `/dashboard` or `/read` is redirected to sign-in, whatever the error. |
| Middleware.ProtectionIsRawPrefix | src/middleware.ts:77-81 | Protection is a plain prefix test: `/reading` and `/dashboard-x` are protected too. |
| Middleware.InvalidTokenRedirects | src/middleware.ts:53-72 | An error whose message names a missing or invalid refresh token or an expired JWT redirects to sign-in when the path is not an auth page, even with a user. |
| Middleware.AuthPagesNeverRedirect | src/middleware.ts:64-85 | On `/sign-in`, `/sign-up`, `/forgot-password` and `/auth` paths the gate never redirects. An invalid token there only deletes the session cookies. |
| Middleware.OtherErrorsIgnored | src/middleware.ts:44-85 | An error that is not about the token gives the same decision as no error. Then only the path and the user decide. |
| Middleware.RefreshTokenMessageRecognised | src/middleware.ts:54-58 | "Invalid Refresh Token" is recognised anywhere in the message. |
| Middleware.SessionMissingIsQuiet | src/middleware.ts:44-58 | The provider's "Auth session missing!" error, whatever its name, is neither logged nor treated as an invalid token. |
| Middleware.SessionMissingNamesNoToken | src/middleware.ts:54-58 | The "Auth session missing!" message contains none of the three token strings. |
| Middleware.SessionMissingNeverLogged | src/middleware.ts:46-51 | A message mentioning "Auth session missing" anywhere is never logged, whatever the name; an error named `AuthSessionMissingError` is never logged, whatever the message. |
| Middleware.OtherErrorsLogged | src/middleware.ts:46-51 | An error whose name is not `AuthSessionMissingError` is logged when it has no message, or a message with no capital `A` in it (so it cannot include "Auth session missing"). |
| Middleware.TokenErrorsLogged | src/middleware.ts:44-58 | The "Invalid Refresh Token" and "JWT expired" errors are both logged and treated as invalid tokens. |
| Middleware.WrittenHoldsLastValue | src/middleware.ts:24-25 | After `setAll`, each name that was set holds the value set last for it. |
| Middleware.WrittenKeepsOthers | src/middleware.ts:24-25 | After `setAll`, a name that was not set keeps the value it had in the request jar. |
| Middleware.WrittenKeys | src/middleware.ts:24-25 | After `setAll`, the request jar holds its earlier names plus exactly the names set. |
| Middleware.SessionDeletion | src/middleware.ts:60-62 | The deletion adds exactly the three session cookies as expired. Every other response cookie keeps its value. |
| Middleware.LastSetIsOneCookie | src/middleware.ts:26-31 | However many cookies are set, the response ends up with one: the last. |
| Middleware.ProtectedPathsAreMatched | src/middleware.ts:89-100 | Paths under `/dashboard` and `/read` are never excluded by the matcher. |
| Middleware.ApiAuthIsMatched | src/middleware.ts:91-99 | Every path beginning `/api/auth` is matched, although the matcher's comment lists `api/auth` as excluded. |
| Middleware.ExcludedPaths | src/middleware.ts:99 | Every path beginning `/_next/static`, `/_next/image`, `/favicon.ico` or `/public` is skipped. |
| Middleware.FaviconDotIsWildcard | src/middleware.ts:99 | The unescaped dot also skips `/faviconXico`, while `/favicon.png` is matched. |
| Middleware.ProtectedPathsNeedAUser | src/middleware.ts:76-100 | For a protected path without a user, the gate runs and redirects to sign-in. |
| JsText.IncludesIff | src/middleware.ts:54-58 | `includes` holds exactly when the text occurs at some position. |
| GoogleCallback.Callback | src/app/api/auth/google/route.ts:5-91 | The redirect target of `GET` from the query and the exchange result: the `error` branch, the `code` branch with its three exchange results, and the fallthrough. Its properties are the lemmas below. |
| GoogleCallback.ErrorWins | src/app/api/auth/google/route.ts:14-42 | With an `error` parameter, the redirect is `/sign-in` with the encoded message for that error. The code and the exchange play no part. |
| GoogleCallback.ErrorMessages | src/app/api/auth/google/route.ts:19-34 | `access_denied` maps to "Akses ditolak…". Every other value, listed or not, maps to "belum dikonfigurasi". |
| GoogleCallback.SuccessGoesToNext | src/app/api/auth/google/route.ts:11-51 | After a successful exchange the redirect goes to `next` unchecked, or to `/dashboard` when `next` is absent. |
| GoogleCallback.FailedExchangeMessage | src/app/api/auth/google/route.ts:53-72 | A failed exchange reports "belum dikonfigurasi" exactly when its message names a missing or invalid provider. Otherwise it reports the generic message. |
| GoogleCallback.NothingToDo | src/app/api/auth/google/route.ts:75-81 | With neither `error` nor `code`, the result is `/sign-in?error=` followed by the generic message, not encoded. |
| GoogleCallback.ExceptionMessage | src/app/api/auth/google/route.ts:82-90 | An exception gives `/sign-in?error=` followed by the "belum dikonfigurasi" message, not encoded. |
| GoogleCallback.ErrorRendering | src/app/api/auth/google/route.ts:36-41 | An error redirect renders as `/sign-in?error=` followed by the encoded message. |
| GoogleCallback.FailuresGoToSignIn | src/app/api/auth/google/route.ts:13-90 | Every outcome except a successful exchange lands on `/sign-in` with exactly one `error` parameter. |
| GoogleCallback.EmptyParameters | src/app/api/auth/google/route.ts:8-44 | For every query, an empty `error` or `code` gives the same target as an absent one. After a successful exchange an empty `next` is kept, because `??` only replaces a missing value. |
| PdfReader.Reader.Progress | src/components/pdf-reader.tsx:31-48 | The progress request the effect sends for the current state: the e-book, the page and the page count, and none unless the page is positive. |
| PdfReader.Reader.constructor | src/components/pdf-reader.tsx:20-28 | The reader starts on `initialPage` with one page and no rotation. The page is in range at mount exactly when `initialPage` is 1. |
| PdfReader.Reader.PrevPage | src/components/pdf-reader.tsx:50-54 | The handler goes back one page only above page 1, and otherwise changes nothing. It is a no-op exactly when the previous buttons are disabled. It keeps the page in range. A progress request goes out only when the page changed. |
| PdfReader.Reader.NextPage | src/components/pdf-reader.tsx:56-60 | The handler goes forward one page only below the page count, and otherwise changes nothing. It is a no-op exactly when the next buttons are disabled. It keeps the page in range. A progress request goes out only when the page changed. |
| PdfReader.Reader.EnterPage | src/components/pdf-reader.tsx:157-161 | The typed text, read with `parseInt`, becomes the page only when it lies between 1 and the page count. Other text, NaN included, is ignored. It keeps the page in range. |
| PdfReader.Reader.LoadFrame | src/components/pdf-reader.tsx:130-134 | The page count becomes 10 and the page is not adjusted, so a saved page above 10 falls out of range. A progress request goes out when the count changed. |
| PdfReader.Reader.Rotate | src/components/pdf-reader.tsx:70-72 | The view turns a quarter clockwise, modulo 360. The page and the count are untouched. |
| PdfReader.RotationStaysQuarter | src/components/pdf-reader.tsx:70-72 | The rotation stays one of 0, 90, 180 and 270. |
| PdfReader.FullTurn | src/components/pdf-reader.tsx:70-72 | Four rotations return to the starting orientation. |
| PdfReader.Session | src/components/pdf-reader.tsx:31-161 | Typing "9" is refused while the document counts one page and accepted after the frame loads. Next-page then stops at page 10. |
| JsNumber.ParseInt | src/components/pdf-reader.tsx:158 | `parseInt` without a radix: leading white space, a sign, a `0x` prefix for radix 16, the longest digit prefix, NaN when it is empty. |
| JsNumber.ParseDecimal | src/components/pdf-reader.tsx:158 | `parseInt` reads back a decimal page number, whatever non-digit text follows it. |
| JsNumber.NoDigitIsNaN | src/components/pdf-reader.tsx:158-161 | Text with no decimal digit after its leading white space and optional sign (the empty text, `"   "`, `" x"`, `"-x"`, `"+"`) parses to NaN, so the guard refuses it. |
| AuthActions.SignInWithGoogle | src/store/actions/authActions.ts:5-48 | The Google sign-in thunk: the OAuth call's data, or the message it rejects with. |
| AuthActions.SignOut | src/store/actions/authActions.ts:50-66 | The sign-out thunk: true, or the message it rejects with. |
| AuthActions.GetCurrentUser | src/store/actions/authActions.ts:68-106 | The current-user thunk: the user record or null, or the message it rejects with, and the id whose role row was read. |
| AuthActions.GetUserErrorRejects | src/store/actions/authActions.ts:78-80 | A provider error rejects with its message, and no role is looked up. |
| AuthActions.NoUserIsNull | src/store/actions/authActions.ts:82-84 | With nobody signed in the result is null, and no role is looked up. |
| AuthActions.SignedInUserRecord | src/store/actions/authActions.ts:86-100 | The record carries the user's id. The email is null when absent. The name and avatar are null when missing or empty. The role is the row's role when non-empty, and `"user"` otherwise. |
| AuthActions.RoleIsNeverEmpty | src/store/actions/authActions.ts:97 | The role is never empty. It is `"admin"` only when the row says so. |
| AuthActions.RoleLookupOnlyWhenSignedIn | src/store/actions/authActions.ts:78-90 | A role is looked up exactly when a user was returned without error, and it is looked up by that user's id. |
| AuthActions.UnavailableProviderMessage | src/store/actions/authActions.ts:21-33 | A disabled, unsupported or invalid provider, or status 400, rejects with the "belum dikonfigurasi" message. |
| AuthActions.DisabledProviderRecognised | src/store/actions/authActions.ts:24-25 | "provider is not enabled" is recognised anywhere in the message. |
| AuthActions.OtherSignInErrors | src/store/actions/authActions.ts:35-46 | Any other error rejects with its message, or with the fallback when the message is empty. A throw gives "belum dikonfigurasi". |
| AuthActions.SignOutOutcomes | src/store/actions/authActions.ts:53-64 | `signOut` gives true exactly on success. A provider error rejects with its message. An exception rejects with "Gagal keluar dari akun.". |
| ServerActions.EncodedRedirect | src/app/actions.ts:9-16 | The redirect target with a verbatim status and an encoded message. |
| ServerActions.SignInAction | src/app/actions.ts:20-33 | The sign-in action: its provider call and its redirect. |
| ServerActions.SignUpAction | src/app/actions.ts:35-48 | The sign-up action: its provider call and its redirect. |
| ServerActions.SignOutAction | src/app/actions.ts:50-54 | The sign-out action: one sign-out call, whose answer is ignored, and a redirect to `/sign-in`. |
| ServerActions.ResetPasswordAction | src/app/actions.ts:56-77 | The password reset: presence check, equality check, then the update call and its redirect. |
| ServerActions.AddEbook | src/app/actions.ts:81-96 | Adding an e-book: the insert, the dashboard refresh on success, and the redirect. |
| ServerActions.DeleteEbookAction | src/app/actions.ts:98-108 | Deleting an e-book: the delete, then an error redirect or the dashboard refresh. |
| ServerActions.UpdateEbookAction | src/app/actions.ts:110-129 | Updating an e-book: the update, the dashboard refresh on success, and the redirect. |
| ServerActions.EncodedRedirectRendering | src/app/actions.ts:9-16 | The target is exactly `path?status=<status>&message=<encoded message>`. |
| ServerActions.SignInOutcome | src/app/actions.ts:20-33 | Sign-in passes the submitted email and password on as they are. The browser receives `/sign-in?status=error&message=` plus the encoded message on a provider error, and `/dashboard` otherwise. |
| ServerActions.SignUpOutcome | src/app/actions.ts:35-48 | Sign-up passes the submitted email and password on as they are. The browser receives `/sign-up?status=error&message=` plus the encoded message on a provider error, and `/dashboard` otherwise. |
| ServerActions.ResetNeedsBothFields | src/app/actions.ts:62-64 | A missing or empty password or confirmation redirects with an error to `/protected/reset-password`. No update call is made. |
| ServerActions.ResetNeedsMatch | src/app/actions.ts:66-68 | Two different passwords redirect with an error to `/dashboard/reset-password`. No update call is made. |
| ServerActions.ResetUpdatesIff | src/app/actions.ts:56-77 | The update call is made exactly when both fields are filled in and equal. A failed update redirects to `/dashboard/reset-password` and a successful one to `/protected/reset-password`. |
| ServerActions.AddAndUpdateOutcomes | src/app/actions.ts:81-129 | Adding and updating always redirect to `/dashboard`, with status `error` on a database error and `success` otherwise. |
| ServerActions.DeleteOutcomes | src/app/actions.ts:98-108 | Deleting redirects with an error on failure. On success it refreshes the dashboard and returns without a redirect. |
| ServerActions.MutationsWriteUnguarded | src/app/actions.ts:81-129 | No e-book mutation checks the caller: the first call of each is its write, with the submitted fields. The dashboard is refreshed exactly after a successful write. |
| AuthReducer.Step | src/__tests__/store/authReducer.test.tsx:29-93 | One transition of the auth slice for each action. |
| AuthReducer.Reduce | src/__tests__/store/authReducer.test.tsx:25-27 | The reducer as the store calls it: an undefined state starts from the initial one. |
| AuthReducer.InitialState | src/__tests__/store/authReducer.test.tsx:10-27 | An undefined state with an unknown action gives `{user: null, isLoading: false, error: null}`. |
| AuthReducer.LoginStartKeepsUser | src/__tests__/store/authReducer.test.tsx:81-93 | `loginStart` sets loading and clears the error. It keeps the user, a signed-in one included. |
| AuthReducer.LoginSuccessSignsIn | src/__tests__/store/authReducer.test.tsx:38-45 | `loginSuccess(u)` gives user `u`, no loading and no error. |
| AuthReducer.LoginFailureFromInitial | src/__tests__/store/authReducer.test.tsx:47-55 | `loginFailure(m)` from the initial state gives no user, no loading and error `m`. |
| AuthReducer.LogoutResets | src/__tests__/store/authReducer.test.tsx:57-65 | `logout` gives exactly the initial state. |
| AuthReducer.ClearErrorOnlyClears | src/__tests__/store/authReducer.test.tsx:67-79 | `clearError` clears the error, keeps the other fields, and is idempotent. |
| AuthReducer.UserKeptByStartAndClear | src/__tests__/store/authReducer.test.tsx:29-93 | Through any sequence of `loginStart` and `clearError`, the user stays the same. |

## Left out

- Calls into the identity provider and the database become parameters. So do Next.js `redirect`, `NextResponse` and `revalidatePath`, and the transport of cookies. What each call returns is an input; what the app asks of it is a recorded call or an outcome.
- `encodeURIComponent` is an uninterpreted parameter. The `URL` constructor is not modelled: resolving a target against the request URL, and its percent-encoding of the spaces in the unencoded messages, are outside the model. Reading the query string (percent-decoding, repeated keys) is outside it too: each parameter is given already decoded.
- Console logging is a side effect. Only the condition under which the gate logs is kept, as `Middleware.WouldLog`.
- Reader zoom is floating-point clamping and is left out, as are the iframe's `src` and the CSS transform.
- The reader's progress request is modelled as the value each handler returns. `updateReadingProgressAction` itself is not part of this model: it does not exist in src/app/actions.ts. The request sent on first mount is not returned by the constructor; it is the state's `Progress()`.
- React batching is not modelled: each handler sees the state left by the previous one, as it does when every event causes its own render.
- `GoogleCallback.ExceptionMessage`: only a throw from the code exchange is modelled. Other throws the `catch` would also handle (building the client, a malformed request URL) lead to the same redirect but are not inputs of the model.
- `ServerActions.MutationsWriteUnguarded`: `updateEbook` converts the `id` field with `Number(...)`. The model passes the raw field on, because numeric conversion of arbitrary text is not modelled.
- `JsNumber.ParseDecimal`: numbers are unbounded, so the rounding `parseInt` does above 2^53 is not modelled. Leading white space is the fixed list of space and line-terminator characters, not a live Unicode category.
- The reducer's own source is not part of this model. Its transitions are the ones src/__tests__/store/authReducer.test.tsx pins down. For states the tests do not cover, the model makes the usual slice choices: `loginFailure` keeps the user, `clearError` keeps `isLoading`, and an unknown action leaves the state unchanged.
- `signOutAction` is modelled as a function, `ServerActions.SignOutAction`, but no property is stated about it. It ignores the provider's answer and always redirects to `/sign-in`.
- The dashboard page and the presentational pages are not part of this model.
- No admin-role check precedes the e-book writes, and the model adds none; see `ServerActions.MutationsWriteUnguarded`.
