/** The client's route guard (frontend/components/AuthGuard.tsx): from the
    session's loading flag, user and role and the page's optional list of allowed
    roles, what it renders and where, if anywhere, its effect redirects. */
module AuthGuard {
  import opened Common

  const LoginPath := "/login"
  const MenuPath := "/menu"

  /** What the guard renders: the "Checking session..." spinner, nothing, or the
      protected page. */
  datatype View = LoadingView | NoContent | Children

  datatype Decision = Decision(view: View, redirect: Option<string>)

  /** The guard's role test: an absent list or an
      absent role lets everyone through, an empty list (truthy in JavaScript)
      lets nobody with a role through. */
  predicate RoleRejected(role: Option<Role>, allowedRoles: Option<seq<Role>>)
  {
    allowedRoles.Some? && role.Some? && role.value !in allowedRoles.value
  }

  /** The effect's redirect and the render's result, for one set of inputs. The
      session user is only tested for presence. */
  function Guard(isLoading: bool, user: Option<string>, role: Option<Role>, allowedRoles: Option<seq<Role>>): (d: Decision)
    ensures isLoading <==> d.view == LoadingView
    ensures d.view == Children <==> !isLoading && user.Some? && !RoleRejected(role, allowedRoles)
    ensures d.redirect == Some(LoginPath) <==> !isLoading && user.None?
    ensures d.redirect == Some(MenuPath) <==> !isLoading && user.Some? && RoleRejected(role, allowedRoles)
  {
    if isLoading then Decision(LoadingView, None)
    else if user.None? then Decision(NoContent, Some(LoginPath))
    else if RoleRejected(role, allowedRoles) then Decision(NoContent, Some(MenuPath))
    else Decision(Children, None)
  }

  /** The page is never left blank without somewhere to go: a redirect happens
      exactly when nothing is rendered. */
  lemma NeverStranded(isLoading: bool, user: Option<string>, role: Option<Role>, allowedRoles: Option<seq<Role>>)
    ensures var d := Guard(isLoading, user, role, allowedRoles);
      d.redirect.Some? <==> d.view == NoContent
  {
  }

  /** Without an allowed-roles list every signed-in user sees the page. */
  lemma NoListAdmitsEveryUser(user: string, role: Option<Role>)
    ensures Guard(false, Some(user), role, None) == Decision(Children, None)
  {
  }

  /** Widening the allowed-roles list never hides a page that was shown. */
  lemma WiderListAdmitsMore(user: Option<string>, role: Option<Role>, allowed: seq<Role>, more: seq<Role>)
    requires forall r :: r in allowed ==> r in more
    requires Guard(false, user, role, Some(allowed)).view == Children
    ensures Guard(false, user, role, Some(more)).view == Children
  {
  }
}
