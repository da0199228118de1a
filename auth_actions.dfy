/**
 * The client's authentication thunks (src/store/actions/authActions.ts). Each provider call
 * is a parameter: what it returned, or that it threw.
 */
module AuthActions {
  import opened Wrappers
  import opened JsText
  import opened UserTypes

  /** An error the identity provider returns. */
  datatype ProviderError = ProviderError(message: string, status: Option<int>)

  /** A provider call that returned `{data, error}`, or threw. */
  datatype Call<T> = Returned(data: T, error: Option<ProviderError>) | Threw

  const NotConfigured := "Google Sign-In belum dikonfigurasi. Silakan gunakan email dan password untuk masuk."
  const GoogleFallback := "Terjadi kesalahan saat masuk dengan Google"
  const SignOutFailed := "Gagal keluar dari akun."
  const GetUserFailed := "Gagal mendapatkan data pengguna."

  /** The Google provider is not enabled, or the request was refused as malformed. */
  predicate ProviderUnavailable(e: ProviderError) {
    || Includes(e.message, "provider is not enabled")
    || Includes(e.message, "Unsupported provider")
    || Includes(e.message, "Invalid provider")
    || e.status == Some(400)
  }

  /** `signInWithGoogle`: the OAuth start call's data, or the message it is rejected with. */
  function SignInWithGoogle<D>(call: Call<D>): Settled<D> {
    match call
    case Threw => Rejected(NotConfigured)
    case Returned(data, None) => Fulfilled(data)
    case Returned(_, Some(e)) =>
      if ProviderUnavailable(e) then Rejected(NotConfigured)
      else if e.message != "" then Rejected(e.message)
      else Rejected(GoogleFallback)
  }

  /** `signOut`: true on success, else the reason. */
  function SignOut(call: Call<()>): Settled<bool> {
    match call
    case Threw => Rejected(SignOutFailed)
    case Returned(_, None) => Fulfilled(true)
    case Returned(_, Some(e)) => Rejected(e.message)
  }

  /** The user `getUser()` reports: id, optional email, and optional string metadata. */
  datatype AuthUser = AuthUser(id: string, email: Option<string>, metadata: Option<map<string, string>>)

  /** `user.user_metadata?.[key] || null`: a missing or empty field becomes null. */
  function MetadataField(u: AuthUser, key: string): Option<string> {
    if u.metadata.Some? && key in u.metadata.value && u.metadata.value[key] != "" then
      Some(u.metadata.value[key])
    else None
  }

  /** `userRole?.role || "user"`. */
  function RoleOrDefault(row: Option<string>): string {
    if row.Some? && row.value != "" then row.value else "user"
  }

  /** What `getCurrentUser` settles with, and the user id whose role row it looked up (if any). */
  datatype CurrentUser = CurrentUser(result: Settled<Option<User>>, roleLookup: Option<string>)

  /**
   * `getCurrentUser`. `roleOf(id)` is the `role` column of the user's row in `user_roles`,
   * `None` when there is no row or the lookup fails.
   */
  function GetCurrentUser(call: Call<Option<AuthUser>>, roleOf: string -> Option<string>): CurrentUser {
    match call
    case Threw => CurrentUser(Rejected(GetUserFailed), None)
    case Returned(_, Some(e)) => CurrentUser(Rejected(e.message), None)
    case Returned(None, None) => CurrentUser(Fulfilled(None), None)
    case Returned(Some(u), None) =>
      var user := User(u.id, u.email, MetadataField(u, "full_name"), MetadataField(u, "avatar_url"),
                       Some(RoleOrDefault(roleOf(u.id))));
      CurrentUser(Fulfilled(Some(user)), Some(u.id))
  }

  // ---------------------------------------------------------------------------------------
  // Properties

  /** A provider error rejects with its message, and no role is looked up. */
  lemma GetUserErrorRejects(data: Option<AuthUser>, e: ProviderError, roleOf: string -> Option<string>)
    ensures GetCurrentUser(Returned(data, Some(e)), roleOf) == CurrentUser(Rejected(e.message), None)
  {
  }

  /** Nobody signed in: the result is null and no role is looked up. */
  lemma NoUserIsNull(roleOf: string -> Option<string>)
    ensures GetCurrentUser(Returned(None, None), roleOf) == CurrentUser(Fulfilled(None), None)
  {
  }

  /**
   * A signed-in user is looked up by id; the record carries the id, the email (null when
   * absent, kept when empty), the name and avatar (null when missing or empty), and the role
   * of the row when non-empty, `"user"` otherwise.
   */
  lemma SignedInUserRecord(u: AuthUser, roleOf: string -> Option<string>)
    ensures var r := GetCurrentUser(Returned(Some(u), None), roleOf);
      && r.roleLookup == Some(u.id)
      && r.result.Fulfilled? && r.result.value.Some?
      && var user := r.result.value.value;
      && user.id == u.id
      && user.email == u.email
      && (user.fullName.None? <==> u.metadata.None? || "full_name" !in u.metadata.value || u.metadata.value["full_name"] == "")
      && (user.fullName.Some? ==> user.fullName.value == u.metadata.value["full_name"])
      && (user.avatarUrl.None? <==> u.metadata.None? || "avatar_url" !in u.metadata.value || u.metadata.value["avatar_url"] == "")
      && (user.avatarUrl.Some? ==> user.avatarUrl.value == u.metadata.value["avatar_url"])
      && user.role == Some(if roleOf(u.id).Some? && roleOf(u.id).value != "" then roleOf(u.id).value else "user")
  {
  }

  /** Whatever the lookup gives, the role is never empty, and it is `"admin"` only when the row says so. */
  lemma RoleIsNeverEmpty(row: Option<string>)
    ensures RoleOrDefault(row) != ""
    ensures RoleOrDefault(row) == "admin" <==> row == Some("admin")
  {
  }

  /** A role is looked up only for a signed-in user, and it is that user's id. */
  lemma RoleLookupOnlyWhenSignedIn(call: Call<Option<AuthUser>>, roleOf: string -> Option<string>)
    ensures GetCurrentUser(call, roleOf).roleLookup.Some? <==> call.Returned? && call.error.None? && call.data.Some?
    ensures GetCurrentUser(call, roleOf).roleLookup.Some? ==> GetCurrentUser(call, roleOf).roleLookup.value == call.data.value.id
  {
  }

  /** Provider-not-set-up errors and status 400 are reported as "belum dikonfigurasi". */
  lemma UnavailableProviderMessage<D>(data: D, e: ProviderError)
    requires ProviderUnavailable(e)
    ensures SignInWithGoogle(Returned(data, Some(e))) == Rejected(NotConfigured)
  {
  }

  /** The provider's "provider is not enabled" text is recognised wherever it stands in the message. */
  lemma DisabledProviderRecognised(before: string, after: string, status: Option<int>)
    ensures ProviderUnavailable(ProviderError(before + "provider is not enabled" + after, status))
  {
    IncludesMiddle(before, "provider is not enabled", after);
  }

  /** Any other error is passed on by its message, or the fallback when the message is empty; a throw reads "belum dikonfigurasi". */
  lemma OtherSignInErrors<D>(data: D, e: ProviderError)
    requires !ProviderUnavailable(e)
    ensures SignInWithGoogle(Returned(data, Some(e))) == Rejected(if e.message == "" then GoogleFallback else e.message)
    ensures SignInWithGoogle<D>(Threw) == Rejected(NotConfigured)
  {
  }

  /** `signOut` is fulfilled exactly when the call returned without error, and then with true. */
  lemma SignOutOutcomes(call: Call<()>)
    ensures SignOut(call).Fulfilled? <==> call.Returned? && call.error.None?
    ensures SignOut(call).Fulfilled? ==> SignOut(call).value
    ensures call.Returned? && call.error.Some? ==> SignOut(call) == Rejected(call.error.value.message)
    ensures call.Threw? ==> SignOut(call) == Rejected("Gagal keluar dari akun.")
  {
  }
}
