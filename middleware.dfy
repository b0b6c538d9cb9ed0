/**
 * The request middleware: every page request is checked against the session;
 * a signed-out visitor is sent to the login page and a signed-in one is sent
 * away from the login and signup pages. API routes and the auth callback are
 * never redirected, and any failure lets the request through.
 */
module Middleware {
  import opened Js
  import opened Text

  /** The two public Supabase settings read from the environment. */
  datatype Env = Env(supabaseUrl: Option<string>, supabaseAnonKey: Option<string>)

  /** The session lookup: it threw, or it answered whether a user is signed in. */
  datatype AuthCheck = Failed | Checked(signedIn: bool)

  datatype Decision = PassThrough | Redirect(target: string)

  const LoginPath: string := "/login"
  const HomePath: string := "/"

  predicate Configured(env: Env) {
    TruthyString(env.supabaseUrl) && TruthyString(env.supabaseAnonKey)
  }

  predicate IsAuthRoute(path: string) {
    StartsWith(path, "/login") || StartsWith(path, "/signup")
  }

  predicate IsApiRoute(path: string) {
    StartsWith(path, "/api")
  }

  predicate IsCallback(path: string) {
    StartsWith(path, "/auth/callback")
  }

  /** The middleware's answer for a request to `path`. */
  function Decide(env: Env, auth: AuthCheck, path: string): (d: Decision)
    ensures d.Redirect? ==> d.target == LoginPath || d.target == HomePath
    ensures d == Redirect(LoginPath) <==>
      Configured(env) && auth == Checked(false) && !IsAuthRoute(path) && !IsApiRoute(path) && !IsCallback(path)
    ensures d == Redirect(HomePath) <==> Configured(env) && auth == Checked(true) && IsAuthRoute(path)
  {
    if !Configured(env) then PassThrough
    else
      match auth
      case Failed => PassThrough
      case Checked(signedIn) =>
        if !signedIn && !IsAuthRoute(path) && !IsApiRoute(path) && !IsCallback(path) then Redirect(LoginPath)
        else if signedIn && IsAuthRoute(path) then Redirect(HomePath)
        else PassThrough
  }

  /** Without the URL or the key every request passes through. */
  lemma UnconfiguredPassesThrough(env: Env, auth: AuthCheck, path: string)
    requires !TruthyString(env.supabaseUrl) || !TruthyString(env.supabaseAnonKey)
    ensures Decide(env, auth, path) == PassThrough
  {
  }

  /** A failed session lookup lets the request through. */
  lemma FailurePassesThrough(env: Env, path: string)
    ensures Decide(env, Failed, path) == PassThrough
  {
  }

  /** The route classes are disjoint: an API or callback path is not an auth route. */
  lemma RouteClassesDisjoint(path: string)
    ensures IsApiRoute(path) ==> !IsAuthRoute(path) && !IsCallback(path)
    ensures IsCallback(path) ==> !IsAuthRoute(path)
  {
    PrefixesExclusive(path, "/api", "/login", 1);
    PrefixesExclusive(path, "/api", "/signup", 1);
    PrefixesExclusive(path, "/api", "/auth/callback", 2);
    PrefixesExclusive(path, "/auth/callback", "/login", 1);
    PrefixesExclusive(path, "/auth/callback", "/signup", 1);
  }

  /** API routes and the auth callback are never redirected, whatever the session. */
  lemma ApiNeverRedirected(env: Env, auth: AuthCheck, path: string)
    requires IsApiRoute(path) || IsCallback(path)
    ensures Decide(env, auth, path) == PassThrough
  {
    RouteClassesDisjoint(path);
  }

  /**
   * No redirect loop: following a redirect with the same session and
   * settings reaches a page that passes through.
   */
  lemma NoRedirectLoop(env: Env, auth: AuthCheck, path: string)
    requires Decide(env, auth, path).Redirect?
    ensures Decide(env, auth, Decide(env, auth, path).target) == PassThrough
    ensures Decide(env, auth, path).target != path
  {
    assert IsAuthRoute(LoginPath);
    assert !IsAuthRoute(HomePath);
  }
}
