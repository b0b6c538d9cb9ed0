/**
 * The outcome of the authentication lookup a request handler performs before
 * anything else (`supabase.auth.getUser()`), supplied as an input.
 */
module Session {
  import opened Js

  /** The signed-in user, with the profile fields the handlers read. */
  datatype User = User(id: string, email: Option<string>, fullName: Option<string>)

  /** `AuthError` is a lookup that returned an error object. */
  datatype Auth = AuthError | SignedOut | SignedIn(user: User)
}
