/** User administration (backend/routes/api/users.py): creating a user (Admin
    only), logging in and logging out, over the list of stored users. The JSON file
    the list lives in is the field `UserStore.users`; reading and writing it is not
    modelled. */
module Users {
  import opened Common

  const AdminRole := "Admin"
  const ViewerRole := "Viewer"

  /** A stored user; the role is whatever string was stored (create_user does not
      validate it). */
  datatype User = User(id: int, username: string, password: string, role: string)

  /** The body of `POST /api/users/`; a field is `None` when its key is absent. */
  datatype CreateUserRequest = CreateUserRequest(
    creator: Option<string>, username: Option<string>, password: Option<string>, role: Option<string>)

  /** What a successful login returns. */
  datatype LoginData = LoginData(username: string, role: string)

  /** Python truthiness of a value that is a string or absent. */
  predicate Given(v: Option<string>)
  {
    v.Some? && v.value != ""
  }

  predicate HasName(name: string, u: User)
  {
    u.username == name
  }

  function Named(name: string): User -> bool
  {
    u => HasName(name, u)
  }

  predicate HasCredentials(username: string, password: string, u: User)
  {
    u.username == username && u.password == password
  }

  function Credentials(username: string, password: string): User -> bool
  {
    u => HasCredentials(username, password, u)
  }

  /** Some stored user already has the name. */
  predicate UsernameTaken(users: seq<User>, name: string)
  {
    exists i :: 0 <= i < |users| && users[i].username == name
  }

  /** `i` is the first user called `name`: the one `next(...)` picks. */
  predicate FirstNamed(users: seq<User>, name: string, i: int)
  {
    && 0 <= i < |users|
    && users[i].username == name
    && forall j :: 0 <= j < i ==> users[j].username != name
  }

  predicate UniqueUsernames(users: seq<User>)
  {
    forall i, j :: 0 <= i < j < |users| ==> users[i].username != users[j].username
  }

  // ---------------------------------------------------------------------------
  // create_user

  /** The outcome of `create_user` on the stored list `users`, checks in the
      source's order: fields, then the creator's role, then duplicates. */
  function CreateUserDecision(users: seq<User>, req: CreateUserRequest): Result<User, HttpError>
  {
    if !Given(req.creator) || !Given(req.username) || !Given(req.password) then Err(BadRequest)
    else
      match FindFirst(users, Named(req.creator.value))
      case None => Err(Forbidden)
      case Some(i) =>
        if users[i].role != AdminRole then Err(Forbidden)
        else if UsernameTaken(users, req.username.value) then Err(BadRequest)
        else Ok(User(|users| + 1, req.username.value, req.password.value,
                     if req.role.Some? then req.role.value else ViewerRole))
  }

  /** A missing or empty field is refused with 400 whatever the stored users are. */
  lemma CreateUserChecksFieldsFirst(users: seq<User>, req: CreateUserRequest)
    requires !Given(req.creator) || !Given(req.username) || !Given(req.password)
    ensures CreateUserDecision(users, req) == Err(BadRequest)
  {
  }

  /** With all fields present, 403 is exactly the case where the first user with the
      creator's name is missing or is not an Admin; a duplicate name is only
      reported to an Admin. */
  lemma CreateUserAdminGate(users: seq<User>, req: CreateUserRequest)
    requires Given(req.creator) && Given(req.username) && Given(req.password)
    ensures CreateUserDecision(users, req) == Err(Forbidden) <==>
      !exists i :: FirstNamed(users, req.creator.value, i) && users[i].role == AdminRole
    ensures CreateUserDecision(users, req) == Err(BadRequest) <==>
      (exists i :: FirstNamed(users, req.creator.value, i) && users[i].role == AdminRole)
      && UsernameTaken(users, req.username.value)
  {
    match FindFirst(users, Named(req.creator.value))
    case None =>
    case Some(i) =>
      assert FirstNamed(users, req.creator.value, i);
      forall k | FirstNamed(users, req.creator.value, k) ensures k == i {
        assert !Named(req.creator.value)(users[k]) || k >= i;
      }
  }

  /** A created user gets the next id, the requested name and password, the role
      `"Viewer"` unless one was given, and a name nobody had. */
  lemma CreateUserSuccess(users: seq<User>, req: CreateUserRequest)
    requires CreateUserDecision(users, req).Ok?
    ensures var u := CreateUserDecision(users, req).value;
      && u.id == |users| + 1
      && Given(req.username) && u.username == req.username.value
      && Given(req.password) && u.password == req.password.value
      && u.role == (if req.role.Some? then req.role.value else ViewerRole)
      && !UsernameTaken(users, u.username)
  {
  }

  /** Creating users keeps user names unique. */
  lemma CreateUserKeepsNamesUnique(users: seq<User>, req: CreateUserRequest)
    requires UniqueUsernames(users)
    requires CreateUserDecision(users, req).Ok?
    ensures UniqueUsernames(users + [CreateUserDecision(users, req).value])
  {
    var u := CreateUserDecision(users, req).value;
    var all := users + [u];
    forall i, j | 0 <= i < j < |all| ensures all[i].username != all[j].username {
      if j == |users| {
        assert all[i] == users[i];
      } else {
        assert all[i] == users[i] && all[j] == users[j];
      }
    }
  }

  // ---------------------------------------------------------------------------
  // login and logout

  /** `login` as written: the 401 it raises is caught by the generic
      `except Exception` and re-raised as 500. */
  function LoginAsWritten(users: seq<User>, username: string, password: string): Result<LoginData, HttpError>
  {
    match FindFirst(users, Credentials(username, password))
    case Some(i) => Ok(LoginData(users[i].username, users[i].role))
    case None => Err(InternalServerError)
  }

  /** The test's wrong-password login against the seeded admin gets 500, not the 401
      the test expects. */
  lemma WrongPasswordIsServerErrorAsWritten()
    ensures LoginAsWritten([User(1, "admin123", "admin123", AdminRole)], "admin123", "wrong")
         == Err(InternalServerError)
  {
    assert !Credentials("admin123", "wrong")(User(1, "admin123", "admin123", AdminRole));
  }

  /** `logout`: 400 without a name, 404 for an unknown name, success otherwise;
      the user list is only read. */
  function Logout(users: seq<User>, username: Option<string>): (r: Outcome<HttpError>)
    ensures r == Fail(BadRequest) <==> !Given(username)
    ensures r == Fail(NotFound) <==> Given(username) && !UsernameTaken(users, username.value)
    ensures r == Pass <==> Given(username) && UsernameTaken(users, username.value)
  {
    if !Given(username) then Fail(BadRequest)
    else
      match FindFirst(users, Named(username.value))
      case None => Fail(NotFound)
      case Some(_) => Pass
  }

  // ---------------------------------------------------------------------------
  // The stored list

  class UserStore {
    var users: seq<User>

    constructor(users: seq<User>)
      ensures this.users == users
    {
      this.users := users;
    }

    method CreateUser(req: CreateUserRequest) returns (r: Result<User, HttpError>)
      modifies this
      ensures r == CreateUserDecision(old(users), req)
      ensures users == if r.Ok? then old(users) + [r.value] else old(users)
    {
      if !Given(req.creator) || !Given(req.username) || !Given(req.password) {
        return Err(BadRequest);
      }
      var creator := FindFirst(users, Named(req.creator.value));
      if creator.None? || users[creator.value].role != AdminRole {
        return Err(Forbidden);
      }
      if UsernameTaken(users, req.username.value) {
        return Err(BadRequest);
      }
      var newUser := User(|users| + 1, req.username.value, req.password.value,
                          if req.role.Some? then req.role.value else ViewerRole);
      users := users + [newUser];
      r := Ok(newUser);
    }

    /** `login` with its evidently intended status: the first user whose name and
        password both match, or 401. */
    method Login(username: string, password: string) returns (r: Result<LoginData, HttpError>)
      ensures r.Ok? <==> exists i :: 0 <= i < |users| && HasCredentials(username, password, users[i])
      ensures r.Ok? ==> exists i ::
        && 0 <= i < |users| && HasCredentials(username, password, users[i])
        && (forall j :: 0 <= j < i ==> !HasCredentials(username, password, users[j]))
        && r.value == LoginData(users[i].username, users[i].role)
      ensures r.Err? ==> r.error == Unauthorized
      ensures r.Err? ==> LoginAsWritten(users, username, password) == Err(InternalServerError)
      ensures r.Ok? ==> LoginAsWritten(users, username, password) == r
    {
      var i := 0;
      while i < |users|
        invariant 0 <= i <= |users|
        invariant forall j :: 0 <= j < i ==> !HasCredentials(username, password, users[j])
      {
        var user := users[i];
        if user.username == username && user.password == password {
          assert FindFirst(users, Credentials(username, password)) == Some(i);
          return Ok(LoginData(user.username, user.role));
        }
        i := i + 1;
      }
      assert FindFirst(users, Credentials(username, password)) == None;
      r := Err(Unauthorized);
    }
  }
}
