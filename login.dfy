/** The login page: form validation, the `/login` call and its envelope check,
    and where a signed-in user is sent. */
module Login {
  import opened Js
  import opened Text
  import opened Envelope
  import opened Auth
  import opened Notifications
  import opened RootRoute

  /** The three role cards; the choice only colours the page. */
  datatype LoginRole = AdminCard | FarmerCard | ConsultantCard

  datatype LoginField = RoleField | UsernameField | PasswordField | ServerField

  type Errors = map<LoginField, string>

  /** The body of `POST /login`. */
  datatype Credentials = Credentials(username: string, password: string)

  const UsernameRequired := "Username is required"
  const PasswordRequired := "Password is required"
  const LoginFailed := "Login failed"

  /** The message that replaces a browser network error; it names the configured origin. */
  function ConnectionMessage(apiUrl: string): string {
    "Tidak dapat terhubung ke server. Pastikan backend API berjalan di " + apiUrl + ". "
    + "Periksa juga apakah server sudah di-start dan CORS sudah dikonfigurasi dengan benar."
  }

  /** `loginUser`: a falsy `success` is an error carrying the backend's text or
      "Login failed"; a TypeError whose message mentions `fetch` becomes the
      connection message; every other error is rethrown as it is. */
  function LoginResult(fetched: Result<Json>, apiUrl: string): (r: Result<Option<Json>>)
    ensures fetched.Ok? ==> r == RequireSuccess(fetched.value, LoginFailed)
    ensures fetched.Ok? && r.Ok? ==> TruthyOpt(Get(fetched.value, "success")) && r.value == Get(fetched.value, "data")
    ensures fetched.Err? && fetched.error.TypeError? && Contains(fetched.error.message, "fetch") ==>
      r == Err(Error(ConnectionMessage(apiUrl)))
    ensures fetched.Err? && !(fetched.error.TypeError? && Contains(fetched.error.message, "fetch")) ==>
      r == Err(fetched.error)
  {
    var attempt: Result<Option<Json>> :=
      match fetched
      case Ok(json) => RequireSuccess(json, LoginFailed)
      case Err(e) => Err(e);
    if attempt.Err? && attempt.error.TypeError? && Contains(attempt.error.message, "fetch") then
      Err(Error(ConnectionMessage(apiUrl)))
    else
      attempt
  }

  /** The errors `handleSubmit` reports: one per field that is blank after trimming,
      and nothing else. */
  function ValidationErrors(username: string, password: string): (e: Errors)
    ensures UsernameField in e <==> IsBlank(username)
    ensures PasswordField in e <==> IsBlank(password)
    ensures UsernameField in e ==> e[UsernameField] == UsernameRequired
    ensures PasswordField in e ==> e[PasswordField] == PasswordRequired
    ensures RoleField !in e && ServerField !in e
  {
    TrimEmptyIffBlank(username);
    TrimEmptyIffBlank(password);
    (if Trim(username) == "" then map[UsernameField := UsernameRequired] else map[])
    + (if Trim(password) == "" then map[PasswordField := PasswordRequired] else map[])
  }

  /** `(user.role || '').toLowerCase()`; None where it throws: a missing user
      (a property of undefined or null), or a truthy role that is not a string. */
  function LoweredRole(user: Option<Json>): Option<string> {
    if user.None? || user.value.JNull? then None
    else
      var role := Get(user.value, "role");
      if !TruthyOpt(role) then Some("")
      else if role.value.JStr? then Some(Lower(role.value.s))
      else None
  }

  /** Where `onSuccess` navigates for a lowered role; the selected card plays no part. */
  function LoginRoute(role: string): (to: Option<string>)
    ensures to.Some? <==> role == "admin" || role == "client" || role == "farmer" || role == "consultant"
    ensures role == "admin" ==> to == Some("/admin")
    ensures role == "client" || role == "farmer" ==> to == Some("/client")
    ensures role == "consultant" ==> to == Some("/consultant")
  {
    if role == "admin" then Some("/admin")
    else if role == "client" || role == "farmer" then Some("/client")
    else if role == "consultant" then Some("/consultant")
    else None
  }

  /** The outcome of `onSuccess`. */
  datatype AfterLogin = NavigateTo(to: string) | NoNavigation | CallbackThrew

  /** `onSuccess(user)`: reads the role first, then stores the user and navigates. */
  method OnSuccess(auth: AuthStore, user: Option<Json>) returns (next: AfterLogin)
    modifies auth
    ensures LoweredRole(user).None? ==> next == CallbackThrew && auth.user == old(auth.user)
    ensures LoweredRole(user).Some? ==> auth.user == user.value
    ensures LoweredRole(user).Some? && LoginRoute(LoweredRole(user).value).Some? ==>
      next == NavigateTo(LoginRoute(LoweredRole(user).value).value)
    ensures LoweredRole(user).Some? && LoginRoute(LoweredRole(user).value).None? ==> next == NoNavigation
  {
    var role := LoweredRole(user);
    if role.None? {
      return CallbackThrew;
    }
    auth.SetUser(user.value);
    var to := LoginRoute(role.value);
    next := if to.Some? then NavigateTo(to.value) else NoNavigation;
  }

  /** For the three roles the guard knows, login and guard agree on the home page. */
  lemma LoginAgreesWithGuard(role: string)
    requires role == "admin" || role == "client" || role == "consultant"
    ensures LoginRoute(role) == RoleBasePath(role)
  {
  }

  /** Login sends a farmer to `/client`, but the guard knows no `farmer` home: it
      lets such a session open any page, the admin pages included, and sends it
      from the login page to `/` rather than to `/client`. */
  lemma FarmerUnmappedInGuard(me: Result<Json>)
    requires SignedIn(me) && ReadRole(SessionData(me.value)) == RoleValue(Some("farmer"))
    ensures LoginRoute("farmer") == Some("/client")
    ensures RoleBasePath("farmer").None?
    ensures Guard(me, "/client").redirect == Stay
    ensures Guard(me, "/admin").redirect == Stay
    ensures Guard(me, LoginPath).redirect == RedirectTo(HomePath)
  {
    assert SessionPath(me).None?;
    assert StartsWith(LoginPath, LoginPath);
    assert !StartsWith("/client", LoginPath) by { assert "/client"[1] != LoginPath[1]; }
    assert !StartsWith("/admin", LoginPath) by { assert "/admin"[1] != LoginPath[1]; }
  }

  /** The login form's state. */
  class LoginForm {
    var selectedRole: Option<LoginRole>
    var username: string
    var password: string
    var errors: Errors

    constructor ()
      ensures selectedRole == None && username == "" && password == "" && errors == map[]
    {
      selectedRole := None;
      username := "";
      password := "";
      errors := map[];
    }

    /** Clicking a role card clears the role and server errors. */
    method SelectRole(role: LoginRole)
      modifies this`selectedRole, this`errors
      ensures selectedRole == Some(role)
      ensures errors == old(errors) - {RoleField, ServerField}
    {
      selectedRole := Some(role);
      errors := errors - {RoleField, ServerField};
    }

    /** Typing a username clears only the username error. */
    method EditUsername(value: string)
      modifies this`username, this`errors
      ensures username == value
      ensures errors == old(errors) - {UsernameField}
    {
      username := value;
      errors := errors - {UsernameField};
    }

    /** Typing a password clears only the password error. */
    method EditPassword(value: string)
      modifies this`password, this`errors
      ensures password == value
      ensures errors == old(errors) - {PasswordField}
    {
      password := value;
      errors := errors - {PasswordField};
    }

    /** `handleSubmit`: either shows the validation errors (replacing the old ones)
        and sends nothing, or sends the untrimmed credentials and leaves the errors. */
    method HandleSubmit() returns (request: Option<Credentials>)
      modifies this`errors
      ensures request.Some? <==> !IsBlank(username) && !IsBlank(password)
      ensures request.Some? ==> request.value == Credentials(username, password) && errors == old(errors)
      ensures request.None? ==> errors == ValidationErrors(username, password)
    {
      var newErrors: Errors := map[];
      if Trim(username) == "" {
        newErrors := newErrors[UsernameField := UsernameRequired];
      }
      if Trim(password) == "" {
        newErrors := newErrors[PasswordField := PasswordRequired];
      }
      assert newErrors == ValidationErrors(username, password);
      if newErrors.Keys != {} {
        errors := newErrors;
        return None;
      }
      return Some(Credentials(username, password));
    }

    /** `onError`: the message becomes the only error and is also raised as a toast. */
    method OnError(err: Thrown, toasts: NotificationStore, now: nat)
      requires toasts.Valid()
      modifies this`errors, toasts
      ensures errors == map[ServerField := err.message]
      ensures toasts.Valid()
      ensures toasts.items == Pushed(old(toasts.items), Stamped(Some(Failure), LoginFailed, Some(err.message), now))
    {
      errors := map[ServerField := err.message];
      toasts.Push(Some(Failure), LoginFailed, Some(err.message), now);
    }
  }
}
