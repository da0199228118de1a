/**
 * The request gate that runs before every matched request (src/middleware.ts).
 *
 * The identity provider is not modelled: what `supabase.auth.getUser()` reports is given as
 * parameters — the resolved user (its id), the error, and the cookies the provider writes
 * back through `setAll` while refreshing the session.
 */
module Middleware {
  import opened Wrappers
  import opened JsText
  import Web

  /** The error `getUser()` reports; its message may be undefined. */
  datatype AuthError = AuthError(name: string, message: Option<string>)

  /** `error.message?.includes(t)`: false when the message is undefined. */
  predicate MessageIncludes(e: AuthError, t: string) {
    e.message.Some? && Includes(e.message.value, t)
  }

  /** The gate writes the error to the console unless it is the "no session" kind. */
  predicate WouldLog(e: AuthError) {
    !MessageIncludes(e, "Auth session missing") && e.name != "AuthSessionMissingError"
  }

  /** The refresh token is missing or invalid, or the access token has expired. */
  predicate TokenInvalid(e: AuthError) {
    || MessageIncludes(e, "refresh_token_not_found")
    || MessageIncludes(e, "Invalid Refresh Token")
    || MessageIncludes(e, "JWT expired")
  }

  /** The sign-in, sign-up, password-recovery and auth-callback pages. */
  predicate OnAuthPage(path: string) {
    StartsWith(path, "/sign-in") || StartsWith(path, "/sign-up")
    || StartsWith(path, "/forgot-password") || StartsWith(path, "/auth")
  }

  /** The library and the reader need a signed-in user. */
  predicate Protected(path: string) {
    StartsWith(path, "/dashboard") || StartsWith(path, "/read")
  }

  /** What the gate does with a request: let it through (deleting the session cookies or not), or send it to sign-in. */
  datatype Decision = Forward(clearSession: bool) | RedirectToSignIn

  /** The gate's decision, from the path, whether a user was resolved, and the error. */
  function Decide(path: string, signedIn: bool, err: Option<AuthError>): Decision {
    var invalid := err.Some? && TokenInvalid(err.value);
    if invalid && !OnAuthPage(path) then RedirectToSignIn
    else if Protected(path) && !signedIn then RedirectToSignIn
    else Forward(invalid)
  }

  // ---------------------------------------------------------------------------------------
  // Cookies

  /** A cookie the identity provider asks the gate to store (`options` kept as text). */
  datatype CookieToSet = CookieToSet(name: string, value: string, options: string)

  /** A `Set-Cookie` a response carries: a value, or an expiry that deletes the cookie. */
  datatype ResponseCookie = SetTo(value: string, options: string) | Expired

  /**
   * A `NextResponse.next(...)`: the request cookies it forwards to the handler (copied from
   * the request when the response is built) and the cookies it sets in the browser.
   */
  datatype Response = Response(forwarded: map<string, string>, cookies: map<string, ResponseCookie>)

  const SessionCookies: seq<string> := ["sb-access-token", "sb-refresh-token", "supabase-auth-token"]

  /** The request jar after `req.cookies.set(name, value)` for each cookie in turn. */
  function Written(jar: map<string, string>, toSet: seq<CookieToSet>): map<string, string> {
    if toSet == [] then jar
    else
      var last := toSet[|toSet| - 1];
      Written(jar, toSet[..|toSet| - 1])[last.name := last.value]
  }

  /** The response cookies with every session cookie deleted. */
  function WithoutSession(cookies: map<string, ResponseCookie>): map<string, ResponseCookie> {
    cookies[SessionCookies[0] := Expired][SessionCookies[1] := Expired][SessionCookies[2] := Expired]
  }

  /** The response cookies `setAll` leaves: those of the last cookie only, since `res` is rebuilt for each. */
  function LastSet(toSet: seq<CookieToSet>): map<string, ResponseCookie> {
    if toSet == [] then map[]
    else
      var last := toSet[|toSet| - 1];
      map[last.name := SetTo(last.value, last.options)]
  }

  /** The request and the response the gate is building, as the `setAll` callback sees them. */
  class RequestCycle {
    var requestCookies: map<string, string>
    var response: Response

    constructor (cookies: map<string, string>)
      ensures requestCookies == cookies
      ensures response == Response(cookies, map[])
    {
      requestCookies := cookies;
      response := Response(cookies, map[]);
    }

    /**
     * The `setAll` callback: each cookie is stored in the request jar, then `res` is rebuilt
     * from the request and given that one cookie.
     */
    method SetAll(toSet: seq<CookieToSet>)
      modifies this
      ensures requestCookies == Written(old(requestCookies), toSet)
      ensures toSet == [] ==> response == old(response)
      ensures toSet != [] ==> response == Response(requestCookies, LastSet(toSet))
    {
      for i := 0 to |toSet|
        invariant requestCookies == Written(old(requestCookies), toSet[..i])
        invariant i == 0 ==> response == old(response)
        invariant i > 0 ==> response == Response(requestCookies, LastSet(toSet[..i]))
      {
        var c := toSet[i];
        assert toSet[..i + 1][..i] == toSet[..i];
        requestCookies := requestCookies[c.name := c.value];
        response := Response(requestCookies, map[]);
        response := response.(cookies := response.cookies[c.name := SetTo(c.value, c.options)]);
      }
      assert toSet[..|toSet|] == toSet;
    }

    /** `res.cookies.delete(...)` for each session cookie. */
    method ClearSession()
      modifies this
      ensures requestCookies == old(requestCookies)
      ensures response == old(response).(cookies := WithoutSession(old(response.cookies)))
    {
      response := response.(cookies := response.cookies["sb-access-token" := Expired]);
      response := response.(cookies := response.cookies["sb-refresh-token" := Expired]);
      response := response.(cookies := response.cookies["supabase-auth-token" := Expired]);
    }
  }

  /** What the gate hands back: the forwarded request's response, or a fresh redirect. */
  datatype Outcome = Pass(response: Response) | Redirect(target: Web.Target, cookies: map<string, ResponseCookie>)

  const SignIn: Web.Target := Web.Target("/sign-in", [])

  /**
   * One run of the gate. `refreshed` is what the provider writes through `setAll` while it
   * resolves the session (empty when nothing was refreshed).
   */
  method Gate(path: string, cookies: map<string, string>, refreshed: seq<CookieToSet>,
              user: Option<string>, err: Option<AuthError>) returns (out: Outcome)
    ensures Decide(path, user.Some?, err) == RedirectToSignIn ==> out == Redirect(SignIn, map[])
    ensures Decide(path, user.Some?, err) == Forward(false) ==>
      out == Pass(Response(Written(cookies, refreshed), LastSet(refreshed)))
    ensures Decide(path, user.Some?, err) == Forward(true) ==>
      out == Pass(Response(Written(cookies, refreshed), WithoutSession(LastSet(refreshed))))
  {
    var cycle := new RequestCycle(cookies);
    cycle.SetAll(refreshed);
    if err.Some? && TokenInvalid(err.value) {
      cycle.ClearSession();
      if !OnAuthPage(path) {
        return Redirect(SignIn, map[]);
      }
    }
    if StartsWith(path, "/dashboard") && user.None? {
      return Redirect(SignIn, map[]);
    }
    if StartsWith(path, "/read") && user.None? {
      return Redirect(SignIn, map[]);
    }
    return Pass(cycle.response);
  }

  // ---------------------------------------------------------------------------------------
  // Which requests the gate runs for (`config.matcher`)

  /** The alternatives of the matcher's negative look-ahead; `.` in a pattern matches any character. */
  const Excluded: seq<string> := ["_next/static", "_next/image", "favicon.ico", "public"]

  predicate PatternPrefix(s: string, pattern: string) {
    |pattern| <= |s| && forall i :: 0 <= i < |pattern| ==> pattern[i] == '.' || s[i] == pattern[i]
  }

  /** `/((?!_next/static|_next/image|favicon.ico|public).*)` matches the whole path. */
  predicate Matched(path: string) {
    |path| >= 1 && path[0] == '/' && forall x :: x in Excluded ==> !PatternPrefix(path[1..], x)
  }

  // ---------------------------------------------------------------------------------------
  // Properties

  /** Without a user, a protected path is always sent to sign-in, whatever the error. */
  lemma AnonymousProtectedRedirects(path: string, err: Option<AuthError>)
    requires Protected(path)
    ensures Decide(path, false, err) == RedirectToSignIn
  {
  }

  /** Protection is a raw prefix test: `/reading` and `/dashboard-x` are protected too. */
  lemma ProtectionIsRawPrefix()
    ensures Decide("/reading", false, None) == RedirectToSignIn
    ensures Decide("/dashboard-x", false, None) == RedirectToSignIn
  {
  }

  /** An invalid token away from the auth pages sends the request to sign-in, even with a user. */
  lemma InvalidTokenRedirects(path: string, signedIn: bool, e: AuthError)
    requires TokenInvalid(e) && !OnAuthPage(path)
    ensures Decide(path, signedIn, Some(e)) == RedirectToSignIn
  {
  }

  /** Auth pages begin `/s`, `/f` or `/a`. */
  lemma AuthPageSecondChar(path: string)
    ensures OnAuthPage(path) ==> |path| >= 2 && (path[1] == 's' || path[1] == 'f' || path[1] == 'a')
  {
    if StartsWith(path, "/sign-in") {
      assert path[1] == "/sign-in"[1];
    } else if StartsWith(path, "/sign-up") {
      assert path[1] == "/sign-up"[1];
    } else if StartsWith(path, "/forgot-password") {
      assert path[1] == "/forgot-password"[1];
    } else if StartsWith(path, "/auth") {
      assert path[1] == "/auth"[1];
    }
  }

  /** Protected paths begin `/d` or `/r`. */
  lemma ProtectedSecondChar(path: string)
    ensures Protected(path) ==> |path| >= 2 && (path[1] == 'd' || path[1] == 'r')
  {
    if StartsWith(path, "/dashboard") {
      assert path[1] == "/dashboard"[1];
    } else if StartsWith(path, "/read") {
      assert path[1] == "/read"[1];
    }
  }

  lemma AuthPagesAreNotProtected(path: string)
    requires OnAuthPage(path)
    ensures !Protected(path)
  {
    AuthPageSecondChar(path);
    ProtectedSecondChar(path);
  }

  /**
   * No redirect loop: on an auth page the gate never redirects; an invalid token there
   * only deletes the session cookies.
   */
  lemma AuthPagesNeverRedirect(path: string, signedIn: bool, err: Option<AuthError>)
    requires OnAuthPage(path)
    ensures Decide(path, signedIn, err) == Forward(err.Some? && TokenInvalid(err.value))
  {
    AuthPagesAreNotProtected(path);
  }

  /** An error that is not about the token changes nothing: only the user and the path decide. */
  lemma OtherErrorsIgnored(path: string, signedIn: bool, e: AuthError)
    requires !TokenInvalid(e)
    ensures Decide(path, signedIn, Some(e)) == Decide(path, signedIn, None)
    ensures Decide(path, signedIn, None) == if Protected(path) && !signedIn then RedirectToSignIn else Forward(false)
  {
  }

  /** The provider's "Invalid Refresh Token" message is recognised wherever it stands in the text. */
  lemma RefreshTokenMessageRecognised(name: string, before: string, after: string)
    ensures TokenInvalid(AuthError(name, Some(before + "Invalid Refresh Token" + after)))
  {
    IncludesMiddle(before, "Invalid Refresh Token", after);
  }

  /** The provider's "Auth session missing!" message names no token problem. */
  lemma SessionMissingNamesNoToken(name: string)
    ensures !TokenInvalid(AuthError(name, Some("Auth session missing!")))
  {
    AbsentFirstCharacter("Auth session missing!", "refresh_token_not_found");
    AbsentFirstCharacter("Auth session missing!", "Invalid Refresh Token");
    AbsentFirstCharacter("Auth session missing!", "JWT expired");
  }

  /** The provider's "Auth session missing!" error, whatever its name, is neither logged nor treated as an invalid token. */
  lemma SessionMissingIsQuiet(name: string)
    ensures !WouldLog(AuthError(name, Some("Auth session missing!")))
    ensures !TokenInvalid(AuthError(name, Some("Auth session missing!")))
  {
    SessionMissingNeverLogged(name, "", "!", None);
    assert "" + "Auth session missing" + "!" == "Auth session missing!";
    SessionMissingNamesNoToken(name);
  }

  /**
   * A message that mentions a missing session anywhere is never logged, whatever the error's
   * name; an error named `AuthSessionMissingError` is never logged, whatever its message.
   */
  lemma SessionMissingNeverLogged(name: string, before: string, after: string, message: Option<string>)
    ensures !WouldLog(AuthError(name, Some(before + "Auth session missing" + after)))
    ensures !WouldLog(AuthError("AuthSessionMissingError", message))
  {
    IncludesMiddle(before, "Auth session missing", after);
  }

  /**
   * Every other error is logged: one without a message, and one whose message cannot mention a
   * missing session because it has no capital A in it.
   */
  lemma OtherErrorsLogged(name: string, message: string)
    requires name != "AuthSessionMissingError" && 'A' !in message
    ensures WouldLog(AuthError(name, None))
    ensures WouldLog(AuthError(name, Some(message)))
  {
    AbsentFirstCharacter(message, "Auth session missing");
  }

  /** The token errors the gate acts on are logged as well as acted on. */
  lemma TokenErrorsLogged(name: string)
    requires name != "AuthSessionMissingError"
    ensures var e := AuthError(name, Some("Invalid Refresh Token"));
      WouldLog(e) && TokenInvalid(e)
    ensures var e := AuthError(name, Some("JWT expired")); WouldLog(e) && TokenInvalid(e)
  {
    OtherErrorsLogged(name, "Invalid Refresh Token");
    OtherErrorsLogged(name, "JWT expired");
    IncludesMiddle("", "Invalid Refresh Token", "");
    assert "" + "Invalid Refresh Token" + "" == "Invalid Refresh Token";
    IncludesMiddle("", "JWT expired", "");
    assert "" + "JWT expired" + "" == "JWT expired";
  }

  /**
   * `setAll` stores every cookie in the request jar: afterwards the jar holds the earlier
   * cookies and every name that was set, each with the value set last.
   */
  lemma {:induction false} WrittenHoldsLastValue(jar: map<string, string>, toSet: seq<CookieToSet>, k: nat)
    requires k < |toSet|
    requires forall j :: k < j < |toSet| ==> toSet[j].name != toSet[k].name
    ensures toSet[k].name in Written(jar, toSet)
    ensures Written(jar, toSet)[toSet[k].name] == toSet[k].value
    decreases |toSet|
  {
    if k < |toSet| - 1 {
      var prefix := toSet[..|toSet| - 1];
      assert forall j :: k < j < |prefix| ==> prefix[j] == toSet[j];
      WrittenHoldsLastValue(jar, prefix, k);
    }
  }

  /** A name that was not set keeps the value it had in the request jar. */
  lemma {:induction false} WrittenKeepsOthers(jar: map<string, string>, toSet: seq<CookieToSet>, n: string)
    requires n in jar && forall c :: c in toSet ==> c.name != n
    ensures n in Written(jar, toSet) && Written(jar, toSet)[n] == jar[n]
    decreases |toSet|
  {
    if toSet != [] {
      var prefix := toSet[..|toSet| - 1];
      assert forall c :: c in prefix ==> c in toSet;
      WrittenKeepsOthers(jar, prefix, n);
    }
  }

  /** The request jar keeps the cookies it had and gains exactly the names that were set. */
  lemma {:induction false} WrittenKeys(jar: map<string, string>, toSet: seq<CookieToSet>)
    ensures Written(jar, toSet).Keys == jar.Keys + set c | c in toSet :: c.name
    decreases |toSet|
  {
    if toSet != [] {
      var prefix := toSet[..|toSet| - 1];
      WrittenKeys(jar, prefix);
      assert toSet == prefix + [toSet[|toSet| - 1]];
      assert (set c | c in toSet :: c.name) == (set c | c in prefix :: c.name) + {toSet[|toSet| - 1].name};
    }
  }

  /** The response forwarded after an invalid token deletes exactly the three session cookies. */
  lemma SessionDeletion(cookies: map<string, ResponseCookie>)
    ensures WithoutSession(cookies).Keys == cookies.Keys + {"sb-access-token", "sb-refresh-token", "supabase-auth-token"}
    ensures forall n :: n in SessionCookies ==> WithoutSession(cookies)[n] == Expired
    ensures forall n :: n in cookies && n !in SessionCookies ==> WithoutSession(cookies)[n] == cookies[n]
  {
  }

  /** However many cookies the provider sets, the response carries at most the last one. */
  lemma LastSetIsOneCookie(toSet: seq<CookieToSet>)
    requires toSet != []
    ensures LastSet(toSet).Keys == {toSet[|toSet| - 1].name}
  {
  }

  /** The library and the reader are never excluded by the matcher, so the gate always runs for them. */
  lemma ProtectedPathsAreMatched(path: string)
    requires Protected(path)
    ensures Matched(path)
  {
    var rest := path[1..];
    ProtectedSecondChar(path);
    forall x | x in Excluded ensures !PatternPrefix(rest, x) {
      assert x[0] in {'_', 'f', 'p'};
    }
  }

  /** The auth API routes are not excluded, whatever the matcher's comment says: the gate runs for every one. */
  lemma ApiAuthIsMatched(path: string)
    requires StartsWith(path, "/api/auth")
    ensures Matched(path)
  {
    var rest := path[1..];
    assert rest[0] == "/api/auth"[1];
    forall x | x in Excluded ensures !PatternPrefix(rest, x) {
      assert x[0] in {'_', 'f', 'p'};
    }
  }

  /** Every path beginning with `/` and one of the excluded prefixes is skipped by the gate. */
  lemma ExcludedPaths(path: string, x: string)
    requires x in Excluded && StartsWith(path, "/" + x)
    ensures !Matched(path)
  {
    forall i | 0 <= i < |x| ensures path[1..][i] == x[i] {
      assert path[i + 1] == ("/" + x)[i + 1];
    }
    assert PatternPrefix(path[1..], x);
  }

  /** The dot in `favicon.ico` is a wildcard: `/faviconXico` is skipped too, while `/favicon.png` is not. */
  lemma FaviconDotIsWildcard()
    ensures !Matched("/faviconXico")
    ensures Matched("/favicon.png")
  {
    assert "/faviconXico"[1..] == "faviconXico";
    assert PatternPrefix("faviconXico", Excluded[2]);
    var rest := "/favicon.png"[1..];
    assert rest == "favicon.png";
    forall x | x in Excluded ensures !PatternPrefix(rest, x) {
      if x == Excluded[2] {
        assert rest[8] != x[8] && x[8] != '.';
      } else {
        assert x[0] != rest[0];
      }
    }
  }

  /** For a protected path without a user the gate runs and sends the request to sign-in. */
  lemma ProtectedPathsNeedAUser(path: string, err: Option<AuthError>)
    requires Protected(path)
    ensures Matched(path) && Decide(path, false, err) == RedirectToSignIn
  {
    ProtectedPathsAreMatched(path);
  }
}
