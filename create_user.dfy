/** The admin's "Create User" page: the request requires a successful envelope,
    and the outcome is announced with a toast. */
module CreateUser {
  import opened Js
  import opened Envelope
  import opened Notifications

  /** The body of `POST /users`. */
  datatype NewUser = NewUser(username: string, password: string, userRoleId: JsNumber)

  const CreateFailed := "Failed to create user"
  const CreatedTitle := "Success"
  const CreatedMessage := "User created successfully"
  const FailureTitle := "Create failed"
  const AdminPath := "/admin"

  /** The role selector's options: the value sent and its label. */
  const RoleOptions: seq<(string, string)> := [("1", "Admin"), ("2", "Consultant"), ("3", "Farmer")]

  /** `createUserRequest`: a rejection passes through; a resolved envelope must
      carry a truthy `success`, else its `error` text or "Failed to create user"
      is thrown. */
  function CreateUserResult(fetched: Result<Json>): (r: Result<Option<Json>>)
    ensures fetched.Err? ==> r == Err(fetched.error)
    ensures fetched.Ok? ==> r == RequireSuccess(fetched.value, CreateFailed)
    ensures fetched.Ok? ==> (r.Ok? <==> TruthyOpt(Get(fetched.value, "success")))
    ensures fetched.Ok? && r.Ok? ==> r.value == Get(fetched.value, "data")
    ensures fetched.Ok? && r.Err? && !TruthyOpt(Get(fetched.value, "error")) ==>
      r.error == Error(CreateFailed)
    ensures fetched.Ok? && r.Err? && TruthyOpt(Get(fetched.value, "error")) ==>
      r.error == Error(ToText(fetched.value.fields["error"]))
  {
    match fetched
    case Ok(json) => RequireSuccess(json, CreateFailed)
    case Err(e) => Err(e)
  }

  /** `handleSubmit`: no check of its own; the role id goes through `Number()`. */
  function NewUserFor(username: string, password: string, userRoleId: string, number: string -> JsNumber)
    : (u: NewUser)
    ensures u.username == username && u.password == password && u.userRoleId == number(userRoleId)
  {
    NewUser(username, password, number(userRoleId))
  }

  /** `onSuccess`: a success toast, then the admin dashboard. */
  method OnSuccess(toasts: NotificationStore, now: nat) returns (to: string)
    requires toasts.Valid()
    modifies toasts
    ensures toasts.Valid()
    ensures toasts.items == Pushed(old(toasts.items), Stamped(Some(Success), CreatedTitle, Some(CreatedMessage), now))
    ensures to == AdminPath
  {
    toasts.Push(Some(Success), CreatedTitle, Some(CreatedMessage), now);
    to := AdminPath;
  }

  /** `onError`: an error toast with the thrown message; the page stays. */
  method OnError(err: Thrown, toasts: NotificationStore, now: nat)
    requires toasts.Valid()
    modifies toasts
    ensures toasts.Valid()
    ensures toasts.items == Pushed(old(toasts.items), Stamped(Some(Failure), FailureTitle, Some(err.message), now))
  {
    toasts.Push(Some(Failure), FailureTitle, Some(err.message), now);
  }

  /** A 2xx reply with `success: false` and no `error` still fails the creation,
      with the page's own fallback text. */
  lemma UnsuccessfulEnvelopeFails(json: Json)
    requires json == JObj(map["success" := JBool(false)])
    ensures CreateUserResult(Ok(json)) == Err(Error(CreateFailed))
  {
    assert Get(json, "error").None?;
  }
}
