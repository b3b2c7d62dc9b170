/**
 * The start page: it shows the dashboard of the signed-in user's role, and
 * the login form when nobody is signed in or the role tag is not one it
 * knows.
 */
module Index {
  import opened Wrappers
  import opened AuthContext

  /** The four views the start page can render. */
  datatype View = LoginView | UserView | CollectionPointView | FactoryView {

    /** The role whose dashboard this is; the login view belongs to none. */
    function Owner(): Option<Role>
    {
      match this
      case LoginView => None
      case UserView => Some(EndUser)
      case CollectionPointView => Some(CollectionPoint)
      case FactoryView => Some(Factory)
    }
  }

  /**
   * The switch over a role tag, with its default arm. A tag that names a
   * role selects that role's dashboard; any other string selects the login
   * view.
   */
  function ViewForTag(tag: string): (v: View)
    ensures forall r: Role :: v.Owner() == Some(r) <==> tag == r.Tag()
    ensures v == LoginView <==> forall r: Role :: tag != r.Tag()
  {
    if tag == "user" then
      assert tag == EndUser.Tag();
      UserView
    else if tag == "collection-point" then
      assert tag == CollectionPoint.Tag();
      CollectionPointView
    else if tag == "factory" then
      assert tag == Factory.Tag();
      FactoryView
    else
      LoginView
  }

  /** The view the start page renders for the current session. */
  function Dispatch(session: Session): (v: View)
    ensures v == LoginView <==> session.None?
    ensures session.Some? ==> v.Owner() == Some(session.value.role)
  {
    match session
    case None => LoginView
    case Some(u) => ViewForTag(u.role.Tag())
  }

  /** The view depends on the role alone, never on balance, name, id or location. */
  lemma DispatchDependsOnlyOnRole(a: User, b: User)
    requires a.role == b.role
    ensures Dispatch(Some(a)) == Dispatch(Some(b))
  {
  }

  /** Each role lands on its own dashboard. */
  lemma DispatchByRole(u: User)
    ensures u.role == EndUser ==> Dispatch(Some(u)) == UserView
    ensures u.role == CollectionPoint ==> Dispatch(Some(u)) == CollectionPointView
    ensures u.role == Factory ==> Dispatch(Some(u)) == FactoryView
  {
  }

  /** After logout the start page shows the login form. */
  lemma DispatchAfterLogout(session: Session)
    ensures Dispatch(Logout(session)) == LoginView
  {
  }
}
