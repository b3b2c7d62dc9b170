/**
 * The session store of the application (the `AuthProvider` context).
 *
 * It holds at most one signed-in user. `Login` is a mock credential check
 * that accepts any non-empty username and password, `Logout` clears the
 * user, and `UpdateBalance` adds a signed delta to the balance of the user
 * that is signed in. Every operation is a pure transition on the session.
 */
module AuthContext {
  import opened Wrappers

  /** The three account roles. */
  datatype Role = EndUser | CollectionPoint | Factory {

    /** The tag the source uses for the role. */
    function Tag(): string
    {
      match this
      case EndUser => "user"
      case CollectionPoint => "collection-point"
      case Factory => "factory"
    }
  }

  /** Distinct roles have distinct tags, so a tag names at most one role. */
  lemma TagInjective(a: Role, b: Role)
    ensures a.Tag() == b.Tag() <==> a == b
  {
  }

  /** The placeholder location every collection point and factory is given. */
  const DefaultLocation: string := "Toshkent, O'zbekiston"

  /** A signed-in user. `id` is a random string chosen at login. */
  datatype User = User(id: string, username: string, role: Role, balance: int, location: Option<string>)

  /** The store's state: no user, or exactly one. */
  type Session = Option<User>

  /** `a` and `b` are the same account: they differ at most in the balance. */
  predicate SameIdentity(a: User, b: User)
  {
    a.id == b.id && a.username == b.username && a.role == b.role && a.location == b.location
  }

  /** The balance a fresh session starts with, fixed by the role alone. */
  function InitialBalance(role: Role): int
  {
    match role
    case EndUser => 50000
    case CollectionPoint => 150000
    case Factory => 500000
  }

  datatype LoginResult = LoginResult(session: Session, accepted: bool)

  /**
   * The mock login. `id` stands for the random identifier the source draws.
   * A rejected attempt leaves the session as it was; an accepted one
   * replaces it, whatever it held.
   */
  function Login(session: Session, username: string, password: string, role: Role, id: string): (r: LoginResult)
    ensures r.accepted <==> username != "" && password != ""
    ensures !r.accepted ==> r.session == session
    ensures r.accepted ==> r.session.Some?
    ensures r.accepted ==> r.session.value.id == id && r.session.value.username == username
    ensures r.accepted ==> r.session.value.role == role
    ensures r.accepted && role == EndUser ==> r.session.value.balance == 50000
    ensures r.accepted && role == CollectionPoint ==> r.session.value.balance == 150000
    ensures r.accepted && role == Factory ==> r.session.value.balance == 500000
    ensures r.accepted ==> (r.session.value.location.Some? <==> role != EndUser)
    ensures r.accepted && role != EndUser ==> r.session.value.location.value == DefaultLocation
  {
    if username != "" && password != "" then
      var location := if role != EndUser then Some(DefaultLocation) else None;
      LoginResult(Some(User(id, username, role, InitialBalance(role), location)), true)
    else
      LoginResult(session, false)
  }

  /** The three balance tiers are ordered end-user < collection point < factory. */
  lemma InitialBalanceTiers()
    ensures 0 < InitialBalance(EndUser) < InitialBalance(CollectionPoint) < InitialBalance(Factory)
  {
  }

  /** An accepted login does not depend on who was signed in before. */
  lemma LoginReplacesSession(s1: Session, s2: Session, username: string, password: string, role: Role, id: string)
    requires username != "" && password != ""
    ensures Login(s1, username, password, role, id) == Login(s2, username, password, role, id)
  {
  }

  /** Clears the session unconditionally. */
  function Logout(session: Session): (r: Session)
    ensures r.None?
  {
    None
  }

  /** Logging out twice is the same as logging out once. */
  lemma LogoutIdempotent(session: Session)
    ensures Logout(Logout(session)) == Logout(session)
  {
  }

  /**
   * Adds a signed `delta` to the balance of the signed-in user; without a
   * user nothing happens. The store does not check sufficiency: callers do.
   */
  function UpdateBalance(session: Session, delta: int): (r: Session)
    ensures r.Some? <==> session.Some?
    ensures session.Some? ==> SameIdentity(r.value, session.value)
    ensures session.Some? ==> r.value.balance == session.value.balance + delta
  {
    match session
    case None => None
    case Some(u) => Some(u.(balance := u.balance + delta))
  }

  /** A delta followed by its negation restores the session. */
  lemma UpdateBalanceInverse(session: Session, delta: int)
    ensures UpdateBalance(UpdateBalance(session, delta), -delta) == session
  {
  }

  /** Two updates add up: the store keeps no trace of how a balance was reached. */
  lemma UpdateBalanceCompose(session: Session, a: int, b: int)
    ensures UpdateBalance(UpdateBalance(session, a), b) == UpdateBalance(session, a + b)
  {
  }
}
