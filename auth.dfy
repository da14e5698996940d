/** The backend's role check (`require_role` in backend/utils/auth.py): the first
    stored user with the given name decides; 401 when there is none, 403 when that
    user's role is not allowed. */
module Auth {
  import opened Common
  import opened Users

  function RequireRole(users: seq<User>, username: string, allowedRoles: set<string>): (r: Outcome<HttpError>)
    ensures r == Fail(Unauthorized) <==> !UsernameTaken(users, username)
    ensures r == Fail(Forbidden) <==>
      exists i :: FirstNamed(users, username, i) && users[i].role !in allowedRoles
    ensures r == Pass <==>
      exists i :: FirstNamed(users, username, i) && users[i].role in allowedRoles
  {
    match FindFirst(users, Named(username))
    case None => Fail(Unauthorized)
    case Some(i) =>
      FirstNamedIsUnique(users, username, i);
      if users[i].role !in allowedRoles then Fail(Forbidden) else Pass
  }

  lemma FirstNamedIsUnique(users: seq<User>, name: string, i: int)
    requires FirstNamed(users, name, i)
    ensures forall k :: FirstNamed(users, name, k) ==> k == i
  {
  }

  /** Allowing more roles never turns a pass into a failure. */
  lemma RequireRoleMonotone(users: seq<User>, username: string, allowed: set<string>, more: set<string>)
    requires allowed <= more
    requires RequireRole(users, username, allowed) == Pass
    ensures RequireRole(users, username, more) == Pass
  {
  }

  /** Users stored after the first one with a name do not change the decision for it. */
  lemma RequireRoleIgnoresLaterUsers(users: seq<User>, later: seq<User>, username: string, allowedRoles: set<string>)
    requires UsernameTaken(users, username)
    ensures RequireRole(users + later, username, allowedRoles) == RequireRole(users, username, allowedRoles)
  {
    FindFirstAppend(users, later, Named(username));
    var i :| 0 <= i < |users| && users[i].username == username;
    assert Named(username)(users[i]);
  }

  /** `create_user`'s creator check is `require_role(creator, {"Admin"})` with the
      401 case folded into 403. */
  lemma CreatorCheckIsAdminRoleCheck(users: seq<User>, req: CreateUserRequest)
    requires Given(req.creator) && Given(req.username) && Given(req.password)
    ensures CreateUserDecision(users, req) == Err(Forbidden) <==>
      RequireRole(users, req.creator.value, {AdminRole}) != Pass
  {
    CreateUserAdminGate(users, req);
  }

  /** A newly created user can log in with its password, and passes the role
      check exactly for the role it was created with. */
  lemma CreatedUserIsUsable(users: seq<User>, req: CreateUserRequest, allowedRoles: set<string>)
    requires CreateUserDecision(users, req).Ok?
    ensures var u := CreateUserDecision(users, req).value;
      && LoginAsWritten(users + [u], u.username, u.password) == Ok(LoginData(u.username, u.role))
      && RequireRole(users + [u], u.username, allowedRoles)
         == (if u.role in allowedRoles then Pass else Fail(Forbidden))
  {
    var u := CreateUserDecision(users, req).value;
    CreateUserSuccess(users, req);
    FindFirstAppend(users, [u], Credentials(u.username, u.password));
    FindFirstAppend(users, [u], Named(u.username));
    assert Named(u.username)([u][0]);
    assert Credentials(u.username, u.password)([u][0]);
    assert forall j :: 0 <= j < |users| ==> !Named(u.username)(users[j]);
    assert forall j :: 0 <= j < |users| ==> !Credentials(u.username, u.password)(users[j]);
    assert (users + [u])[|users|] == u;
  }
}
