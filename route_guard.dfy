/** The route guard of temp_app/src/middleware.ts: the `authorized`
    callback that decides whether a request needs a sign-in, and the
    middleware that sends a signed-in user whose role does not own an area
    back to "/". */
module RouteGuard {
  import opened Options
  import opened Text

  /** The session token; `role` is absent when the token carries none. */
  datatype Token = Token(role: Option<string>)

  /** What the middleware returns. */
  datatype Decision = Next | RedirectHome

  /** `token?.role`. */
  function RoleOf(token: Option<Token>): Option<string> {
    if token.Some? then token.value.role else None
  }

  /** The three role-owned areas, tested as raw prefixes of the path. */
  predicate WrongRole(path: string, role: Option<string>) {
    || (StartsWith(path, "/admin") && role != Some("ADMIN"))
    || (StartsWith(path, "/doctor") && role != Some("DOCTOR"))
    || (StartsWith(path, "/patient") && role != Some("PATIENT"))
  }

  /** The middleware function: the first area whose prefix matches and
      whose role differs from the token's redirects to "/". */
  function Middleware(path: string, token: Option<Token>): Decision {
    var role := RoleOf(token);
    if StartsWith(path, "/admin") && role != Some("ADMIN") then RedirectHome
    else if StartsWith(path, "/doctor") && role != Some("DOCTOR") then RedirectHome
    else if StartsWith(path, "/patient") && role != Some("PATIENT") then RedirectHome
    else Next
  }

  /** Paths open without a token. */
  predicate Public(path: string) {
    path == "/" || StartsWith(path, "/login") || StartsWith(path, "/register")
  }

  /** The `authorized` callback. */
  function Authorized(path: string, token: Option<Token>): bool {
    if Public(path) then true else token.Some?
  }

  /** The `matcher` of the exported config: an area's root or anything
      below it. */
  predicate Guarded(path: string) {
    || path == "/admin" || StartsWith(path, "/admin/")
    || path == "/doctor" || StartsWith(path, "/doctor/")
    || path == "/patient" || StartsWith(path, "/patient/")
  }

  // ------------------------------------------------------------ properties

  /** The middleware redirects exactly when some area's prefix matches with
      a role other than that area's, and passes every other request. */
  lemma MiddlewareSpec(path: string, token: Option<Token>)
    ensures Middleware(path, token) == RedirectHome <==> WrongRole(path, RoleOf(token))
    ensures Middleware(path, token) == Next <==> !WrongRole(path, RoleOf(token))
  {
  }

  /** The prefix test is raw: "/administrator" and "/doctors" belong to the
      admin and doctor areas, and a request there without the owning role
      goes back to "/". */
  lemma RawPrefix(p: string, q: string, token: Option<Token>)
    requires p == "/administrator" && q == "/doctors"
    ensures RoleOf(token) != Some("ADMIN") ==> Middleware(p, token) == RedirectHome
    ensures RoleOf(token) != Some("DOCTOR") ==> Middleware(q, token) == RedirectHome
  {
    assert p[..|"/admin"|] == "/admin";
    assert q[..|"/doctor"|] == "/doctor";
  }

  /** The owner of an area is let through, and no one else: a request that
      passes under an area's prefix carries that area's role. */
  lemma AreaOwner(path: string, token: Option<Token>)
    ensures StartsWith(path, "/admin") && Middleware(path, token) == Next ==> RoleOf(token) == Some("ADMIN")
    ensures StartsWith(path, "/doctor") && Middleware(path, token) == Next ==> RoleOf(token) == Some("DOCTOR")
    ensures StartsWith(path, "/patient") && Middleware(path, token) == Next ==> RoleOf(token) == Some("PATIENT")
    ensures StartsWith(path, "/admin") && RoleOf(token) == Some("ADMIN") ==> Middleware(path, token) == Next
    ensures StartsWith(path, "/doctor") && RoleOf(token) == Some("DOCTOR") ==> Middleware(path, token) == Next
    ensures StartsWith(path, "/patient") && RoleOf(token) == Some("PATIENT") ==> Middleware(path, token) == Next
  {
    if StartsWith(path, "/admin") {
      assert path[1] == 'a';
    } else if StartsWith(path, "/doctor") {
      assert path[1] == 'd';
    } else if StartsWith(path, "/patient") {
      assert path[1] == 'p';
    }
  }

  /** "/" and the login and register pages are open without a token; every
      other path is open exactly when a token is present. */
  lemma AuthorizedSpec(path: string, token: Option<Token>)
    ensures Public(path) ==> Authorized(path, token)
    ensures !Public(path) ==> (Authorized(path, token) <==> token.Some?)
  {
  }

  /** Under the matcher the public exemption never applies: every guarded
      path needs a token. */
  lemma GuardedNeedsToken(path: string, token: Option<Token>)
    requires Guarded(path)
    ensures !Public(path)
    ensures Authorized(path, token) <==> token.Some?
  {
    assert |path| >= 6 && path[1] in {'a', 'd', 'p'};
  }
}
