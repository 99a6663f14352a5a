/** The session store `useAuthStore`: the signed-in user, or null. */
module Auth {
  import opened Js

  /** The store holds whatever record the backend returned for the session
      (`JNull` is the store's null). */
  class AuthStore {
    var user: Json

    constructor ()
      ensures user == JNull
    {
      user := JNull;
    }

    /** `setUser(u)`: the user becomes exactly `u`, null included. */
    method SetUser(u: Json)
      modifies this
      ensures user == u
    {
      user := u;
    }

    /** `clearUser()` */
    method ClearUser()
      modifies this
      ensures user == JNull
    {
      user := JNull;
    }
  }
}
