/**
 * The authentication slice of the store: the saved session, the login and
 * logout lifecycle and the two plain reducers.
 */
module AuthSlice {
  import opened Json
  import opened Api

  datatype AuthState = AuthState(token: Value, user: Value, isAuthenticated: bool, loading: bool, error: Value)

  /** The value a failed `loginAdmin` rejects with; it is never empty. */
  function RejectionPayload(f: Failure): (m: Value)
    ensures Truthy(m)
    ensures Truthy(f.responseMessage) ==> m == f.responseMessage
    ensures !Truthy(f.responseMessage) && Truthy(f.message) ==> m == f.message
    ensures !Truthy(f.responseMessage) && !Truthy(f.message) ==> m == Str("Login failed")
  {
    ErrorText(f, "Login failed")
  }

  /** The message of the `TypeError` thrown by reading `token` off `null` or `undefined`, in V8's wording. */
  function ReadTokenError(data: Value): string {
    "Cannot read properties of " + ToJsString(data) + " (reading 'token')"
  }

  /** The message of the `ReferenceError` thrown by naming the undeclared `username`, in V8's wording. */
  const UsernameError: string := "username is not defined"

  /**
   * How the `loginAdmin` thunk settles for the outcome of its call: `Ok`
   * fulfils with the reply, `Err` rejects through the `catch`. Besides a
   * failed call, a reply whose `token` cannot be read and a reply with a
   * token but neither `admin` nor `user` (its storage step evaluates the
   * undeclared `username`) throw inside the `try` and so reject.
   */
  function LoginSettles(outcome: Outcome): (s: Outcome)
    ensures s.Ok? <==> outcome.Ok? && !Nullish(outcome.data)
                       && (!Truthy(Get(outcome.data, "token")) || Truthy(Get(outcome.data, "admin")) || Truthy(Get(outcome.data, "user")))
    ensures s.Ok? ==> s.data == outcome.data
    ensures outcome.Err? ==> s == outcome
    ensures outcome.Ok? && s.Err? ==> !Truthy(s.failure.responseMessage) && Truthy(s.failure.message)
  {
    match outcome
    case Err(_) => outcome
    case Ok(data) =>
      if Nullish(data) then Err(Failure(Undefined, Str(ReadTokenError(data))))
      else if Truthy(Get(data, "token")) && !Truthy(Get(data, "admin")) && !Truthy(Get(data, "user")) then
        Err(Failure(Undefined, Str(UsernameError)))
      else outcome
  }

  /** The user a fulfilled login stores: `admin`, else `user`, else `{ username }`; never falsy. */
  function LoggedInUser(payload: Value): (u: Value)
    ensures Truthy(u)
    ensures Truthy(Get(payload, "admin")) ==> u == Get(payload, "admin")
    ensures !Truthy(Get(payload, "admin")) && Truthy(Get(payload, "user")) ==> u == Get(payload, "user")
    ensures !Truthy(Get(payload, "admin")) && !Truthy(Get(payload, "user")) ==>
              u == Obj([Entry("username", Get(payload, "username"))])
  {
    Or(Get(payload, "admin"), Or(Get(payload, "user"), Obj([Entry("username", Get(payload, "username"))])))
  }

  /** The value `localStorage.getItem` gives: a string, or `null` when nothing is saved. */
  predicate StoredItem(v: Value) {
    v.Str? || v.Null?
  }

  class Auth {
    var token: Value
    var user: Value
    var isAuthenticated: bool
    var loading: bool
    var error: Value

    function State(): AuthState
      reads this
    {
      AuthState(token, user, isAuthenticated, loading, error)
    }

    /**
     * The initial state from the saved session: `parsedUser` stands for
     * `JSON.parse(savedUser)`. Authenticated exactly when a non-empty token is saved.
     */
    constructor (savedToken: Value, savedUser: Value, parsedUser: Value)
      requires StoredItem(savedToken) && StoredItem(savedUser)
      ensures isAuthenticated <==> savedToken.Str? && savedToken.s != ""
      ensures token == (if isAuthenticated then savedToken else Null)
      ensures user == (if Truthy(savedUser) then parsedUser else Null)
      ensures !loading && error == Null
    {
      token := Or(savedToken, Null);
      user := if Truthy(savedUser) then parsedUser else Null;
      isAuthenticated := Truthy(savedToken);
      loading := false;
      error := Null;
    }

    method ClearError()
      modifies this
      ensures State() == old(State()).(error := Null)
    {
      error := Null;
    }

    /**
     * `setCredentials({ token, user })`. Destructuring a `null` or `undefined`
     * payload throws a `TypeError` before any field is assigned, so the
     * reducer leaves the state as it was.
     */
    method SetCredentials(payload: Value) returns (thrown: bool)
      modifies this
      ensures thrown <==> Nullish(payload)
      ensures thrown ==> State() == old(State())
      ensures !thrown ==> State() == old(State()).(token := Get(payload, "token"), user := Get(payload, "user"), isAuthenticated := true)
    {
      if Nullish(payload) {
        return true;
      }
      token := Get(payload, "token");
      user := Get(payload, "user");
      isAuthenticated := true;
      thrown := false;
    }

    method LoginPending()
      modifies this
      ensures State() == old(State()).(loading := true, error := Null)
    {
      loading := true;
      error := Null;
    }

    method LoginFulfilled(payload: Value)
      modifies this
      ensures State() == AuthState(Get(payload, "token"), LoggedInUser(payload), true, false, Null)
    {
      loading := false;
      token := Get(payload, "token");
      user := LoggedInUser(payload);
      isAuthenticated := true;
      error := Null;
    }

    method LoginRejected(payload: Value)
      modifies this
      ensures State() == old(State()).(loading := false, error := payload, isAuthenticated := false)
    {
      loading := false;
      error := payload;
      isAuthenticated := false;
    }

    method LogoutFulfilled()
      modifies this
      ensures State() == AuthState(Null, Null, false, false, Null)
    {
      token := Null;
      user := Null;
      isAuthenticated := false;
      loading := false;
      error := Null;
    }

    /**
     * One dispatch of `loginAdmin`: pending, then fulfilled with the reply or
     * rejected with its message, as `LoginSettles` decides. Afterwards the
     * slice is authenticated exactly when the thunk fulfilled, and a
     * rejection keeps the old session data.
     */
    method Login(outcome: Outcome)
      modifies this
      ensures !loading
      ensures isAuthenticated <==> LoginSettles(outcome).Ok?
      ensures LoginSettles(outcome).Ok? ==>
                State() == AuthState(Get(outcome.data, "token"), LoggedInUser(outcome.data), true, false, Null)
      ensures LoginSettles(outcome).Err? ==>
                token == old(token) && user == old(user) && error == RejectionPayload(LoginSettles(outcome).failure)
      ensures outcome.Err? ==> error == RejectionPayload(outcome.failure)
      ensures !isAuthenticated ==> Truthy(error)
    {
      var settled := LoginSettles(outcome);
      LoginPending();
      match settled {
        case Ok(data) => LoginFulfilled(data);
        case Err(f) => LoginRejected(RejectionPayload(f));
      }
    }
  }
}
