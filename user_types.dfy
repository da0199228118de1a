/** The application's user record and the client-side authentication state (src/types/user.ts). */
module UserTypes {
  import opened Wrappers

  /** `role` is optional in the type; the user's role row decides it when present. */
  datatype User = User(id: string, email: Option<string>, fullName: Option<string>,
                       avatarUrl: Option<string>, role: Option<string>)

  datatype AuthState = AuthState(user: Option<User>, isLoading: bool, error: Option<string>)
}
