/**
 * The application as one state machine. One session store is shared by
 * every page; each dashboard and the login form keep their own form state.
 * Routes are not gated on the session, so every event is possible in every
 * state. The scan's pending completion is tracked explicitly.
 *
 * The store's login is part of its interface but no page calls it, so
 * `SignIn` stands for a caller outside the pages. The deferred scan update
 * is applied to the session as it is when the timer fires; the source
 * instead applies it to the user captured when the scan was submitted, so
 * there a scan completing after logout signs that user back in. The trace
 * properties below are properties of this model in that respect.
 */
module App {
  import opened Wrappers
  import opened AuthContext
  import Index
  import FactoryDashboard
  import CollectionPointDashboard
  import UserDashboard
  import LoginForm

  datatype State = State(
    session: Session,
    credentials: LoginForm.Form,
    transfer: FactoryDashboard.TransferForm,
    scan: CollectionPointDashboard.ScanForm,
    scanPending: bool,
    upload: UserDashboard.UploadForm)

  const Initial := State(None, LoginForm.InitialForm, FactoryDashboard.EmptyForm,
                         CollectionPointDashboard.Idle, false, UserDashboard.EmptyForm)

  /** The store's own operations, what a user can do on the pages, the scan timer and the server's replies. */
  datatype Event =
    | SignIn(username: string, password: string, role: Role, id: string)
    | SignOut
    | EditCredentials(email: string, password: string, fullName: string, phone: string,
                      address: string, companyName: string, role: Role)
    | SelectMode(isLogin: bool)
    | SelectLanguage(language: LoginForm.Language)
    | SubmitCredentials(reply: LoginForm.Reply)
    | EditTransfer(form: FactoryDashboard.TransferForm)
    | SubmitTransfer
    | EditCode(text: string)
    | SubmitScan
    | ScanTimerFires(draw: CollectionPointDashboard.Random)
    | PickFile(slot: UserDashboard.Slot, file: UserDashboard.File)
    | EditUpload(description: string, location: string)
    | SubmitUpload

  /** The events of the login / registration form. */
  predicate CredentialEvent(e: Event)
  {
    e.EditCredentials? || e.SelectMode? || e.SelectLanguage? || e.SubmitCredentials?
  }

  /** Events other than the store's own login and logout. */
  predicate KeepsAccount(e: Event)
  {
    !e.SignIn? && !e.SignOut?
  }

  function Step(s: State, e: Event): State
  {
    match e
    case SignIn(username, password, role, id) =>
      s.(session := Login(s.session, username, password, role, id).session)
    case SignOut =>
      s.(session := Logout(s.session))
    case EditCredentials(email, password, fullName, phone, address, companyName, role) =>
      s.(credentials := s.credentials.(email := email, password := password, fullName := fullName,
                                       phone := phone, address := address,
                                       companyName := companyName, role := role))
    case SelectMode(isLogin) =>
      s.(credentials := LoginForm.SelectMode(s.credentials, isLogin))
    case SelectLanguage(language) =>
      s.(credentials := s.credentials.(language := language))
    case SubmitCredentials(reply) =>
      s.(credentials := LoginForm.HandleSubmit(s.credentials, reply).form)
    case EditTransfer(form) =>
      s.(transfer := form)
    case SubmitTransfer =>
      var r := FactoryDashboard.HandleTransfer(s.session, s.transfer);
      s.(session := r.session, transfer := r.form)
    case EditCode(text) =>
      s.(scan := CollectionPointDashboard.EditCode(s.scan, text))
    case SubmitScan =>
      var r := CollectionPointDashboard.Submit(s.scan);
      s.(scan := r.form, scanPending := s.scanPending || r.scheduled)
    case ScanTimerFires(draw) =>
      if s.scanPending then
        var r := CollectionPointDashboard.CompleteScan(s.session, s.scan, draw);
        s.(session := r.session, scan := r.form, scanPending := false)
      else
        s
    case PickFile(slot, file) =>
      s.(upload := UserDashboard.HandleFileUpload(s.upload, slot, file))
    case EditUpload(description, location) =>
      s.(upload := UserDashboard.EditLocation(UserDashboard.EditDescription(s.upload, description), location))
    case SubmitUpload =>
      s.(upload := UserDashboard.HandleSubmit(s.upload))
  }

  /** The state after a sequence of events. */
  function Run(s: State, events: seq<Event>): State
    decreases |events|
  {
    if |events| == 0 then s else Run(Step(s, events[0]), events[1..])
  }

  /**
   * The invariant of reachable states: a signed-in user's balance is never
   * negative, a completion is pending exactly while the flag is shown, and a
   * running scan has a code.
   */
  predicate Valid(s: State)
  {
    && (s.session.Some? ==> s.session.value.balance >= 0)
    && (s.scanPending <==> s.scan.scanning)
    && (s.scan.scanning ==> s.scan.qrCode != "")
  }

  lemma InitialValid()
    ensures Valid(Initial)
  {
  }

  lemma StepPreservesValid(s: State, e: Event)
    requires Valid(s)
    ensures Valid(Step(s, e))
  {
  }

  /** Every state reachable from a valid one is valid. */
  lemma {:induction false} RunPreservesValid(s: State, events: seq<Event>)
    requires Valid(s)
    ensures Valid(Run(s, events))
    decreases |events|
  {
    if |events| > 0 {
      StepPreservesValid(s, events[0]);
      RunPreservesValid(Step(s, events[0]), events[1..]);
    }
  }

  /** No event but the store's login and logout adds, removes or alters the account itself. */
  lemma StepKeepsAccount(s: State, e: Event)
    requires KeepsAccount(e)
    ensures Step(s, e).session.Some? <==> s.session.Some?
    ensures s.session.Some? ==> SameIdentity(Step(s, e).session.value, s.session.value)
  {
  }

  lemma {:induction false} RunKeepsAccount(s: State, events: seq<Event>)
    requires forall i :: 0 <= i < |events| ==> KeepsAccount(events[i])
    ensures Run(s, events).session.Some? <==> s.session.Some?
    ensures s.session.Some? ==> SameIdentity(Run(s, events).session.value, s.session.value)
    decreases |events|
  {
    if |events| > 0 {
      StepKeepsAccount(s, events[0]);
      RunKeepsAccount(Step(s, events[0]), events[1..]);
    }
  }

  /** Only the factory transfer can lower a balance. */
  lemma StepOnlyTransferDebits(s: State, e: Event)
    requires KeepsAccount(e) && !e.SubmitTransfer? && s.session.Some?
    ensures Step(s, e).session.Some? && Step(s, e).session.value.balance >= s.session.value.balance
  {
  }

  lemma {:induction false} RunWithoutTransferNeverDebits(s: State, events: seq<Event>)
    requires s.session.Some?
    requires forall i :: 0 <= i < |events| ==> KeepsAccount(events[i]) && !events[i].SubmitTransfer?
    ensures Run(s, events).session.Some?
    ensures Run(s, events).session.value.balance >= s.session.value.balance
    decreases |events|
  {
    if |events| > 0 {
      StepOnlyTransferDebits(s, events[0]);
      RunWithoutTransferNeverDebits(Step(s, events[0]), events[1..]);
    }
  }

  /** The login / registration form never touches the session, and the user dashboard's submit neither. */
  lemma StepCredentialsOrUploadKeepSession(s: State, e: Event)
    requires CredentialEvent(e) || e.SubmitUpload? || e.PickFile? || e.EditUpload?
    ensures Step(s, e).session == s.session
  {
  }

  /**
   * Consequently, from a signed-out state, whatever the server replies, the
   * start page still shows the login view after any use of the credential form.
   */
  lemma {:induction false} CredentialFormNeverSignsIn(s: State, events: seq<Event>)
    requires s.session.None?
    requires forall i :: 0 <= i < |events| ==> CredentialEvent(events[i])
    ensures Index.Dispatch(Run(s, events).session) == Index.LoginView
    decreases |events|
  {
    if |events| > 0 {
      StepCredentialsOrUploadKeepSession(s, events[0]);
      CredentialFormNeverSignsIn(Step(s, events[0]), events[1..]);
    }
  }
}
