/**
 * The factory dashboard's transfer form: the factory pays an amount to a
 * collection point. The handler has a required-field guard, then a
 * sufficiency guard, then debits the session and clears the form.
 */
module FactoryDashboard {
  import opened Wrappers
  import opened AuthContext

  /**
   * The transfer form. `amount` is the number field: None when its text is
   * empty, Some(n) when the text parses to n.
   */
  datatype TransferForm = TransferForm(pointId: string, amount: Option<int>, wasteType: string)

  /** The form as it starts, and as a committed transfer leaves it. */
  const EmptyForm := TransferForm("", None, "")

  /** What the handler reports: nothing (a field is missing), the error notice, or the success notice. */
  datatype Outcome = Ignored | InsufficientFunds | Sent(amount: int)

  datatype TransferResult = TransferResult(session: Session, form: TransferForm, outcome: Outcome)

  /** The fields the handler requires; the waste type is not among them. */
  predicate Filled(form: TransferForm)
  {
    form.pointId != "" && form.amount.Some?
  }

  /** The balance the sufficiency guard compares with: a missing user counts as 0. */
  function Available(session: Session): int
  {
    if session.Some? then session.value.balance else 0
  }

  /**
   * Submitting the transfer form. An incomplete form is ignored; an amount
   * above the available balance is refused with a notice; otherwise the
   * amount is debited (through the store, so without a user nothing is
   * debited) and the form is cleared.
   */
  function HandleTransfer(session: Session, form: TransferForm): (r: TransferResult)
    ensures r.outcome.Ignored? <==> !Filled(form)
    ensures r.outcome.InsufficientFunds? <==> Filled(form) && form.amount.value > Available(session)
    ensures !r.outcome.Sent? ==> r.session == session && r.form == form
    ensures r.outcome.Sent? ==> r.outcome.amount == form.amount.value && r.form == EmptyForm
    ensures r.session.Some? <==> session.Some?
    ensures session.Some? ==> SameIdentity(r.session.value, session.value)
    ensures r.outcome.Sent? && session.Some? ==> r.session.value.balance == session.value.balance - r.outcome.amount
    ensures r.outcome.Sent? && session.Some? ==> r.session.value.balance >= 0
  {
    if !Filled(form) then
      TransferResult(session, form, Ignored)
    else
      var amount := form.amount.value;
      if amount > Available(session) then
        TransferResult(session, form, InsufficientFunds)
      else
        TransferResult(UpdateBalance(session, -amount), EmptyForm, Sent(amount))
  }

  /** Paying out exactly the whole balance is accepted and leaves 0. */
  lemma TransferWholeBalance(u: User, pointId: string, wasteType: string)
    requires pointId != ""
    ensures var r := HandleTransfer(Some(u), TransferForm(pointId, Some(u.balance), wasteType));
      r.outcome == Sent(u.balance) && r.session.value.balance == 0
  {
  }

  /** A transfer of 0..balance keeps the balance between 0 and its old value. */
  lemma TransferStaysInRange(u: User, form: TransferForm)
    requires Filled(form) && 0 <= form.amount.value <= u.balance
    ensures var r := HandleTransfer(Some(u), form);
      r.outcome.Sent? && 0 <= r.session.value.balance <= u.balance
  {
  }

  /**
   * The handler has no lower bound on the amount: a negative amount passes
   * the sufficiency guard and raises the balance.
   */
  lemma NegativeAmountRaisesBalance(u: User, pointId: string, amount: int, wasteType: string)
    requires pointId != "" && amount < 0 <= u.balance
    ensures var r := HandleTransfer(Some(u), TransferForm(pointId, Some(amount), wasteType));
      r.outcome.Sent? && r.session.value.balance > u.balance
  {
  }

  /** The waste type never influences the outcome or the balance. */
  lemma WasteTypeNotRequired(session: Session, form: TransferForm, wasteType: string)
    ensures HandleTransfer(session, form.(wasteType := wasteType)).outcome == HandleTransfer(session, form).outcome
    ensures HandleTransfer(session, form.(wasteType := wasteType)).session == HandleTransfer(session, form).session
  {
  }

  /** A refused transfer leaves everything as it was, so retrying it is refused again. */
  lemma RefusalIsStable(session: Session, form: TransferForm)
    requires HandleTransfer(session, form).outcome.InsufficientFunds?
    ensures var r := HandleTransfer(session, form);
      HandleTransfer(r.session, r.form) == r
  {
  }

  /** A freshly logged-in factory (500 000) sends 100 000 and keeps 400 000. */
  lemma ScenarioCommit(username: string, password: string, id: string)
    requires username != "" && password != ""
    ensures var s := Login(None, username, password, Factory, id).session;
      var r := HandleTransfer(s, TransferForm("point1", Some(100_000), "plastic"));
      r.outcome == Sent(100_000) && r.session.value.balance == 400_000 && r.form == EmptyForm
  {
  }

  /** A freshly logged-in factory (500 000) cannot send 600 000. */
  lemma ScenarioRefuse(username: string, password: string, id: string)
    requires username != "" && password != ""
    ensures var s := Login(None, username, password, Factory, id).session;
      var r := HandleTransfer(s, TransferForm("point1", Some(600_000), ""));
      r.outcome == InsufficientFunds && r.session.value.balance == 500_000
  {
  }
}
