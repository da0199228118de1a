/**
 * The server actions behind the forms (src/app/actions.ts). Each action is a function from
 * its form and the provider's answers to the calls it makes, in order, and where it sends
 * the browser. The provider's answer to a call is a parameter: `None` for success, or the
 * error message.
 */
module ServerActions {
  import opened Wrappers
  import opened JsText
  import Web

  datatype Status = Success | Error {
    function Text(): string {
      match this
      case Success => "success"
      case Error => "error"
    }
  }

  /** `encodedRedirect(status, path, message)`. */
  function EncodedRedirect(status: Status, path: string, message: string): Web.Target {
    Web.Target(path, [Web.Param("status", Web.Verbatim(status.Text())), Web.Param("message", Web.Encoded(message))])
  }

  /** A submitted form: `formData.get(key)` is `None` for a missing field. */
  type Form = map<string, string>

  function Field(form: Form, key: string): Option<string> {
    if key in form then Some(form[key]) else None
  }

  /** The calls the actions make to the provider and to the framework's cache. */
  datatype Call =
    | SignInWithPassword(email: Option<string>, password: Option<string>)
    | SignUp(email: Option<string>, password: Option<string>)
    | SignOut
    | UpdatePassword(password: Option<string>)
    | InsertEbook(title: Option<string>, author: Option<string>, link: Option<string>)
    | DeleteEbook(id: int)
    | UpdateEbook(idField: Option<string>, title: Option<string>, author: Option<string>, link: Option<string>)
    | Revalidate(path: string)

  /** Where the action sends the browser, or `Done` when it returns without a redirect. */
  datatype Outcome = Redirect(target: Web.Target) | Done

  datatype ActionResult = ActionResult(calls: seq<Call>, outcome: Outcome)

  function SignInAction(form: Form, err: Option<string>): ActionResult {
    var call := SignInWithPassword(Field(form, "email"), Field(form, "password"));
    if err.Some? then ActionResult([call], Redirect(EncodedRedirect(Error, "/sign-in", "Gagal masuk. Cek email/password.")))
    else ActionResult([call], Redirect(Web.Target("/dashboard", [])))
  }

  function SignUpAction(form: Form, err: Option<string>): ActionResult {
    var call := SignUp(Field(form, "email"), Field(form, "password"));
    if err.Some? then ActionResult([call], Redirect(EncodedRedirect(Error, "/sign-up", "Gagal daftar. Coba email lain.")))
    else ActionResult([call], Redirect(Web.Target("/dashboard", [])))
  }

  /** Signing out ignores the provider's answer. */
  function SignOutAction(): ActionResult {
    ActionResult([SignOut], Redirect(Web.Target("/sign-in", [])))
  }

  /** `resetPasswordAction`: presence, then equality, then the update call. */
  function ResetPasswordAction(form: Form, err: Option<string>): ActionResult {
    var password := Field(form, "password");
    var confirm := Field(form, "confirmPassword");
    if !Truthy(password) || !Truthy(confirm) then
      ActionResult([], Redirect(EncodedRedirect(Error, "/protected/reset-password", "Password wajib diisi.")))
    else if password != confirm then
      ActionResult([], Redirect(EncodedRedirect(Error, "/dashboard/reset-password", "Password tidak cocok.")))
    else if err.Some? then
      ActionResult([UpdatePassword(password)], Redirect(EncodedRedirect(Error, "/dashboard/reset-password", "Gagal mengubah password.")))
    else
      ActionResult([UpdatePassword(password)], Redirect(EncodedRedirect(Success, "/protected/reset-password", "Password berhasil diubah.")))
  }

  function AddEbook(form: Form, err: Option<string>): ActionResult {
    var insert := InsertEbook(Field(form, "title"), Field(form, "author"), Field(form, "link"));
    if err.Some? then ActionResult([insert], Redirect(EncodedRedirect(Error, "/dashboard", "Gagal menambahkan eBook.")))
    else ActionResult([insert, Revalidate("/dashboard")], Redirect(EncodedRedirect(Success, "/dashboard", "eBook berhasil ditambahkan.")))
  }

  function DeleteEbookAction(id: int, err: Option<string>): ActionResult {
    if err.Some? then ActionResult([DeleteEbook(id)], Redirect(EncodedRedirect(Error, "/dashboard", "Gagal menghapus eBook.")))
    else ActionResult([DeleteEbook(id), Revalidate("/dashboard")], Done)
  }

  /** The `id` field is handed on raw; its `Number(...)` conversion is not modelled. */
  function UpdateEbookAction(form: Form, err: Option<string>): ActionResult {
    var update := UpdateEbook(Field(form, "id"), Field(form, "title"), Field(form, "author"), Field(form, "link"));
    if err.Some? then ActionResult([update], Redirect(EncodedRedirect(Error, "/dashboard", "Gagal mengubah eBook.")))
    else ActionResult([update, Revalidate("/dashboard")], Redirect(EncodedRedirect(Success, "/dashboard", "eBook berhasil diperbarui.")))
  }

  // ---------------------------------------------------------------------------------------
  // Properties

  /** The redirect goes to `path?status=<status>&message=<encoded message>`. */
  lemma EncodedRedirectRendering(status: Status, path: string, message: string, encode: string -> string)
    ensures Web.Render(EncodedRedirect(status, path, message), encode)
      == path + "?status=" + status.Text() + "&message=" + encode(message)
  {
    Web.RenderTwo(path, "status", Web.Verbatim(status.Text()), "message", Web.Encoded(message), encode);
  }

  /**
   * Sign-in passes the submitted fields on as they are, and sends the browser back to its page
   * with the error status and message when the provider refuses, to the dashboard otherwise.
   */
  lemma SignInOutcome(form: Form, err: Option<string>, encode: string -> string)
    ensures SignInAction(form, err).calls == [SignInWithPassword(Field(form, "email"), Field(form, "password"))]
    ensures SignInAction(form, err).outcome.Redirect?
    ensures Web.Render(SignInAction(form, err).outcome.target, encode)
      == if err.Some? then "/sign-in?status=error&message=" + encode("Gagal masuk. Cek email/password.") else "/dashboard"
  {
    EncodedRedirectRendering(Error, "/sign-in", "Gagal masuk. Cek email/password.", encode);
    assert "/sign-in" + "?status=" + Error.Text() + "&message=" == "/sign-in?status=error&message=";
  }

  /** Sign-up behaves the same way on its own page. */
  lemma SignUpOutcome(form: Form, err: Option<string>, encode: string -> string)
    ensures SignUpAction(form, err).calls == [SignUp(Field(form, "email"), Field(form, "password"))]
    ensures SignUpAction(form, err).outcome.Redirect?
    ensures Web.Render(SignUpAction(form, err).outcome.target, encode)
      == if err.Some? then "/sign-up?status=error&message=" + encode("Gagal daftar. Coba email lain.") else "/dashboard"
  {
    EncodedRedirectRendering(Error, "/sign-up", "Gagal daftar. Coba email lain.", encode);
    assert "/sign-up" + "?status=" + Error.Text() + "&message=" == "/sign-up?status=error&message=";
  }

  /** A missing or empty password field is refused before anything else, and no update is made. */
  lemma ResetNeedsBothFields(form: Form, err: Option<string>)
    requires !Truthy(Field(form, "password")) || !Truthy(Field(form, "confirmPassword"))
    ensures ResetPasswordAction(form, err)
      == ActionResult([], Redirect(EncodedRedirect(Error, "/protected/reset-password", "Password wajib diisi.")))
  {
  }

  /** Two different passwords are refused, and no update is made. */
  lemma ResetNeedsMatch(form: Form, err: Option<string>)
    requires Truthy(Field(form, "password")) && Truthy(Field(form, "confirmPassword"))
    requires form["password"] != form["confirmPassword"]
    ensures ResetPasswordAction(form, err)
      == ActionResult([], Redirect(EncodedRedirect(Error, "/dashboard/reset-password", "Password tidak cocok.")))
  {
  }

  /** The update is made exactly when both fields are filled in and equal. */
  lemma ResetUpdatesIff(form: Form, err: Option<string>)
    ensures ResetPasswordAction(form, err).calls != [] <==>
      Truthy(Field(form, "password")) && Truthy(Field(form, "confirmPassword"))
      && form["password"] == form["confirmPassword"]
    ensures ResetPasswordAction(form, err).calls != [] ==>
      ResetPasswordAction(form, err).calls == [UpdatePassword(Some(form["password"]))]
      && ResetPasswordAction(form, err).outcome == Redirect(
        if err.Some? then EncodedRedirect(Error, "/dashboard/reset-password", "Gagal mengubah password.")
        else EncodedRedirect(Success, "/protected/reset-password", "Password berhasil diubah."))
  {
  }

  /** Adding and updating report on the dashboard: an error redirect on failure, a success redirect otherwise. */
  lemma AddAndUpdateOutcomes(form: Form, err: Option<string>)
    ensures AddEbook(form, err).outcome.Redirect? && UpdateEbookAction(form, err).outcome.Redirect?
    ensures AddEbook(form, err).outcome.target.path == "/dashboard"
    ensures UpdateEbookAction(form, err).outcome.target.path == "/dashboard"
    ensures AddEbook(form, err).outcome.target.query[0].value == Web.Verbatim(if err.Some? then "error" else "success")
    ensures UpdateEbookAction(form, err).outcome.target.query[0].value == Web.Verbatim(if err.Some? then "error" else "success")
  {
  }

  /** Deleting redirects only on failure; on success it returns after refreshing the dashboard. */
  lemma DeleteOutcomes(id: int, err: Option<string>)
    ensures DeleteEbookAction(id, err).outcome.Done? <==> err.None?
    ensures err.None? ==> DeleteEbookAction(id, err).calls == [DeleteEbook(id), Revalidate("/dashboard")]
    ensures err.Some? ==> DeleteEbookAction(id, err).outcome == Redirect(EncodedRedirect(Error, "/dashboard", "Gagal menghapus eBook."))
  {
  }

  /**
   * No e-book mutation checks the caller: whoever submits, the first thing each does is its
   * write, carrying the submitted fields as they are; the dashboard is refreshed only after
   * a successful write.
   */
  lemma MutationsWriteUnguarded(form: Form, id: int, err: Option<string>)
    ensures AddEbook(form, err).calls[0] == InsertEbook(Field(form, "title"), Field(form, "author"), Field(form, "link"))
    ensures UpdateEbookAction(form, err).calls[0]
      == UpdateEbook(Field(form, "id"), Field(form, "title"), Field(form, "author"), Field(form, "link"))
    ensures DeleteEbookAction(id, err).calls[0] == DeleteEbook(id)
    ensures Revalidate("/dashboard") in AddEbook(form, err).calls <==> err.None?
    ensures Revalidate("/dashboard") in UpdateEbookAction(form, err).calls <==> err.None?
    ensures Revalidate("/dashboard") in DeleteEbookAction(id, err).calls <==> err.None?
  {
  }
}
