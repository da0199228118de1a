/**
 * The Google OAuth callback route (src/app/api/auth/google/route.ts): from the query
 * parameters and the result of exchanging the code for a session, where to redirect and
 * with which message. The `error` values are the authorization error codes of section
 * 4.1.2.1 of RFC 6749.
 */
module GoogleCallback {
  import opened Wrappers
  import opened JsText
  import Web

  /** The query parameters the route reads; absent ones are `None`. */
  datatype Query = Query(code: Option<string>, error: Option<string>,
                         errorDescription: Option<string>, next: Option<string>)

  /** What `exchangeCodeForSession(code)` did: succeeded, returned an error, or threw. */
  datatype Exchange = Exchanged | ExchangeFailed(message: string) | ExchangeThrew

  const Generic := "Terjadi kesalahan saat masuk dengan Google."
  const NotConfigured := "Google Sign-In belum dikonfigurasi. Silakan gunakan email dan password."
  const AccessDenied := "Akses ditolak. Silakan coba lagi."

  /** The message for an `error` parameter (the `switch`). */
  function ErrorMessage(error: string): string {
    match error
    case "access_denied" => AccessDenied
    case "invalid_request" => NotConfigured
    case "unsupported_response_type" => NotConfigured
    case "invalid_scope" => NotConfigured
    case "server_error" => NotConfigured
    case "temporarily_unavailable" => NotConfigured
    case _ => NotConfigured
  }

  /** The exchange failed because the Google provider is not set up. */
  predicate ProviderMissing(message: string) {
    Includes(message, "provider is not enabled") || Includes(message, "Invalid provider")
    || Includes(message, "Unsupported provider")
  }

  function ExchangeMessage(message: string): string {
    if ProviderMissing(message) then NotConfigured else Generic
  }

  /** `/sign-in?error=<encodeURIComponent(message)>` */
  function SignInWithError(message: string): Web.Target {
    Web.Target("/sign-in", [Web.Param("error", Web.Encoded(message))])
  }

  /** `/sign-in?error=<message>` with the message written as is. */
  function SignInWithRawError(message: string): Web.Target {
    Web.Target("/sign-in", [Web.Param("error", Web.Verbatim(message))])
  }

  /** The redirect target of `GET`. `exchange` answers `exchangeCodeForSession` for a code. */
  function Callback(q: Query, exchange: string -> Exchange): Web.Target {
    if Truthy(q.error) then SignInWithError(ErrorMessage(q.error.value))
    else if Truthy(q.code) then
      match exchange(q.code.value)
      case Exchanged => Web.Target(q.next.GetOr("/dashboard"), [])
      case ExchangeFailed(m) => SignInWithError(ExchangeMessage(m))
      case ExchangeThrew => SignInWithRawError(NotConfigured)
    else SignInWithRawError(Generic)
  }

  // ---------------------------------------------------------------------------------------
  // Properties

  /** With an `error` parameter the code is never exchanged: the result does not depend on it. */
  lemma ErrorWins(q: Query, exchange: string -> Exchange, other: string -> Exchange, code: Option<string>)
    requires Truthy(q.error)
    ensures Callback(q, exchange) == SignInWithError(ErrorMessage(q.error.value))
    ensures Callback(q.(code := code), other) == Callback(q, exchange)
  {
  }

  /** Only `access_denied` gets its own message; every other value, listed or not, reads "belum dikonfigurasi". */
  lemma ErrorMessages(error: string)
    ensures ErrorMessage(error) == AccessDenied <==> error == "access_denied"
    ensures error != "access_denied" ==> ErrorMessage(error) == NotConfigured
  {
  }

  /** A successful exchange goes to `next`, unchecked (it may name another site), or to the dashboard. */
  lemma SuccessGoesToNext(q: Query, exchange: string -> Exchange)
    requires !Truthy(q.error) && Truthy(q.code) && exchange(q.code.value) == Exchanged
    ensures q.next.None? ==> Callback(q, exchange) == Web.Target("/dashboard", [])
    ensures q.next.Some? ==> Callback(q, exchange) == Web.Target(q.next.value, [])
  {
  }

  /** A failed exchange reads "belum dikonfigurasi" exactly when the provider is reported missing. */
  lemma FailedExchangeMessage(q: Query, exchange: string -> Exchange, m: string)
    requires !Truthy(q.error) && Truthy(q.code) && exchange(q.code.value) == ExchangeFailed(m)
    ensures Callback(q, exchange) == SignInWithError(if ProviderMissing(m) then NotConfigured else Generic)
    ensures Callback(q, exchange) == SignInWithError(NotConfigured) <==> ProviderMissing(m)
  {
  }

  /** With neither `error` nor `code` the generic message goes out unencoded. */
  lemma NothingToDo(q: Query, exchange: string -> Exchange, encode: string -> string)
    requires !Truthy(q.error) && !Truthy(q.code)
    ensures Web.Render(Callback(q, exchange), encode) == "/sign-in?error=" + Generic
  {
    Web.RenderOne("/sign-in", "error", Web.Verbatim(Generic), encode);
  }

  /** An exception sends the user to sign-in with the unencoded "belum dikonfigurasi" message. */
  lemma ExceptionMessage(q: Query, exchange: string -> Exchange, encode: string -> string)
    requires !Truthy(q.error) && Truthy(q.code) && exchange(q.code.value) == ExchangeThrew
    ensures Web.Render(Callback(q, exchange), encode) == "/sign-in?error=" + NotConfigured
  {
    Web.RenderOne("/sign-in", "error", Web.Verbatim(NotConfigured), encode);
  }

  /** An error message is passed through the encoder. */
  lemma ErrorRendering(message: string, encode: string -> string)
    ensures Web.Render(SignInWithError(message), encode) == "/sign-in?error=" + encode(message)
  {
    Web.RenderOne("/sign-in", "error", Web.Encoded(message), encode);
  }

  /** Every outcome other than a successful exchange lands on the sign-in page with an `error` parameter. */
  lemma FailuresGoToSignIn(q: Query, exchange: string -> Exchange)
    requires !(!Truthy(q.error) && Truthy(q.code) && exchange(q.code.value) == Exchanged)
    ensures Callback(q, exchange).path == "/sign-in"
    ensures |Callback(q, exchange).query| == 1 && Callback(q, exchange).query[0].key == "error"
  {
  }

  /**
   * An empty `error` or `code` parameter counts as absent, whatever the rest of the query; an
   * empty `next` is kept as is, since `??` replaces only a missing value.
   */
  lemma EmptyParameters(q: Query, exchange: string -> Exchange)
    ensures Callback(q.(error := Some("")), exchange) == Callback(q.(error := None), exchange)
    ensures Callback(q.(code := Some("")), exchange) == Callback(q.(code := None), exchange)
    ensures !Truthy(q.error) && Truthy(q.code) && exchange(q.code.value) == Exchanged ==>
      Callback(q.(next := Some("")), exchange) == Web.Target("", [])
  {
  }
}
