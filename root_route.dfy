/** The root route's `beforeLoad` guard: it asks `/me` for the session, records
    the answer in the auth store, and sends the visitor to the page their role
    may see. */
module RootRoute {
  import opened Js
  import opened Text
  import opened Envelope
  import opened Auth

  const LoginPath := "/login"
  const RegisterPath := "/register"
  const HomePath := "/"

  /** `roleBasePaths[role]`: only three lower-case roles have a home. */
  function RoleBasePath(role: string): (p: Option<string>)
    ensures p.Some? <==> role == "admin" || role == "consultant" || role == "client"
    ensures p.Some? ==> p.value == "/" + role
  {
    if role == "admin" then Some("/admin")
    else if role == "consultant" then Some("/consultant")
    else if role == "client" then Some("/client")
    else None
  }

  /** The guard's answer: let the page load, or redirect. */
  datatype Redirect = Stay | RedirectTo(to: string)

  /** Evaluating `res.role?.toLowerCase()`: the lowered role (None when it is
      null or undefined), or a TypeError (reading a property of null, or a role
      that is not a string and so has no `toLowerCase`). */
  datatype RoleRead = RoleValue(role: Option<string>) | RoleThrows

  function ReadRole(res: Json): RoleRead {
    if res.JNull? then RoleThrows
    else
      match Get(res, "role")
      case None => RoleValue(None)
      case Some(JNull) => RoleValue(None)
      case Some(JStr(s)) => RoleValue(Some(Lower(s)))
      case Some(_) => RoleThrows
  }

  /** The query's value: `json?.data ?? null`. */
  function SessionData(json: Json): Json {
    DataOr(json, JNull)
  }

  /** The `try` block runs to a decision: `/me` resolved and its role could be read. */
  predicate SignedIn(me: Result<Json>) {
    me.Ok? && ReadRole(SessionData(me.value)).RoleValue?
  }

  /** The base path of a signed-in session's role, if it has one. */
  function SessionPath(me: Result<Json>): Option<string>
    requires SignedIn(me)
  {
    var role := ReadRole(SessionData(me.value)).role;
    if role.None? then None else RoleBasePath(role.value)
  }

  /** The auth store's user and the redirect after `beforeLoad`. */
  datatype Guarded = Guarded(user: Json, redirect: Redirect)

  /** The guard's decision table. */
  function Guard(me: Result<Json>, path: string): (g: Guarded)
    // the store holds the session record, or null once the catch block has run
    ensures SignedIn(me) ==> g.user == SessionData(me.value) && !g.user.JNull?
    ensures !SignedIn(me) ==> g.user == JNull
    // signed in, on a login page: to the role's home, or to "/" for an unmapped role
    ensures SignedIn(me) && StartsWith(path, LoginPath) ==>
      g.redirect == RedirectTo(if SessionPath(me).Some? then SessionPath(me).value else HomePath)
    // signed in, elsewhere: stay exactly when the role is unmapped or the path is under its home
    ensures SignedIn(me) && !StartsWith(path, LoginPath) ==>
      (g.redirect == Stay <==> SessionPath(me).None? || StartsWith(path, SessionPath(me).value))
    ensures SignedIn(me) && !StartsWith(path, LoginPath) && g.redirect != Stay ==>
      SessionPath(me).Some? && g.redirect == RedirectTo(SessionPath(me).value)
    // no session: stay only on the login and register pages, otherwise go to login
    ensures !SignedIn(me) ==>
      (g.redirect == Stay <==> StartsWith(path, LoginPath) || StartsWith(path, RegisterPath))
    ensures !SignedIn(me) && g.redirect != Stay ==> g.redirect == RedirectTo(LoginPath)
  {
    if SignedIn(me) then
      var rolePath := SessionPath(me);
      var to :=
        if StartsWith(path, LoginPath) then Some(if rolePath.Some? then rolePath.value else HomePath)
        else if rolePath.Some? && !StartsWith(path, rolePath.value) then rolePath
        else None;
      Guarded(SessionData(me.value), if to.Some? then RedirectTo(to.value) else Stay)
    else
      Guarded(JNull, if !StartsWith(path, LoginPath) && !StartsWith(path, RegisterPath) then RedirectTo(LoginPath) else Stay)
  }

  /** `beforeLoad`: `setUser` runs as soon as `/me` has answered, before the role
      is read; a failure anywhere in the `try` block clears the user again. */
  method BeforeLoad(auth: AuthStore, me: Result<Json>, path: string) returns (r: Redirect)
    modifies auth
    ensures auth.user == Guard(me, path).user
    ensures r == Guard(me, path).redirect
  {
    if me.Ok? {
      var res := SessionData(me.value);
      auth.SetUser(res);
      var read := ReadRole(res);
      if read.RoleValue? {
        var rolePath := if read.role.None? then None else RoleBasePath(read.role.value);
        if StartsWith(path, LoginPath) {
          return RedirectTo(if rolePath.Some? then rolePath.value else HomePath);
        }
        if rolePath.Some? && !StartsWith(path, rolePath.value) {
          return RedirectTo(rolePath.value);
        }
        return Stay;
      }
    }
    auth.ClearUser();
    if !StartsWith(path, LoginPath) && !StartsWith(path, RegisterPath) {
      return RedirectTo(LoginPath);
    }
    return Stay;
  }

  /** A null session record (`/me` answered without data) is treated as signed out. */
  lemma NullSessionSignedOut(json: Json)
    requires Nullish(Get(json, "data"))
    ensures !SignedIn(Ok(json))
  {
  }

  /** The guard settles in one step: following its redirect, with the same session,
      the guard lets the page load. */
  lemma GuardSettles(me: Result<Json>, path: string)
    requires Guard(me, path).redirect.RedirectTo?
    ensures Guard(me, Guard(me, path).redirect.to).redirect == Stay
  {
    var to := Guard(me, path).redirect.to;
    if SignedIn(me) {
      if SessionPath(me).Some? {
        var home := SessionPath(me).value;
        assert to == home;
        assert StartsWith(home, home);
        assert home[1] != 'l';
        assert !StartsWith(home, LoginPath);
      } else {
        assert to == HomePath;
        assert !StartsWith(HomePath, LoginPath);
      }
    } else {
      assert to == LoginPath;
      assert StartsWith(LoginPath, LoginPath);
    }
  }
}
