/**
 * The collection point's QR scan. Submitting a non-empty code starts a
 * scan; when the simulated delay ends the point is credited a random amount
 * and the form is cleared. The delay is modelled as two steps: `StartScan`
 * and `CompleteScan`.
 */
module CollectionPointDashboard {
  import opened Wrappers
  import opened AuthContext

  /** A draw of the random-number generator, a real in [0, 1). */
  type Random = r: real | 0.0 <= r < 1.0

  /** The bounds of a credited amount. */
  const MinCredit: int := 2000
  const MaxCredit: int := 11999

  /** The credit a draw yields: the draw scaled to [0, 10000), rounded down, plus 2000. */
  function Credit(draw: Random): (amount: int)
    ensures MinCredit <= amount <= MaxCredit
  {
    (draw * 10000.0).Floor + 2000
  }

  /** The bounds are tight: every amount between them is the credit of some draw. */
  lemma CreditCoversRange(amount: int)
    requires MinCredit <= amount <= MaxCredit
    ensures exists draw: Random :: Credit(draw) == amount
  {
    var draw: Random := (amount - 2000) as real / 10000.0;
    assert draw * 10000.0 == (amount - 2000) as real;
    assert Credit(draw) == amount;
  }

  /** The scanner form: the code field and the flag shown while a scan runs. */
  datatype ScanForm = ScanForm(qrCode: string, scanning: bool)

  /** The form as it starts, and as a completed scan leaves it. */
  const Idle := ScanForm("", false)

  /** Typing into the code field; the field is disabled while a scan runs. */
  function EditCode(form: ScanForm, text: string): (r: ScanForm)
    ensures form.scanning ==> r == form
    ensures !form.scanning ==> r == ScanForm(text, false)
  {
    if form.scanning then form else form.(qrCode := text)
  }

  datatype ScanStart = ScanStart(form: ScanForm, scheduled: bool)

  /**
   * The submit handler: an empty code does nothing; otherwise the scanning
   * flag is raised and the completion is scheduled. The handler itself does
   * not look at the flag.
   */
  function StartScan(form: ScanForm): (r: ScanStart)
    ensures r.scheduled <==> form.qrCode != ""
    ensures !r.scheduled ==> r.form == form
    ensures r.scheduled ==> r.form.scanning && r.form.qrCode == form.qrCode
  {
    if form.qrCode == "" then ScanStart(form, false)
    else ScanStart(form.(scanning := true), true)
  }

  /**
   * Submitting the form as the page allows it: while a scan runs both the
   * code field and the button are disabled, so nothing reaches the handler.
   */
  function Submit(form: ScanForm): (r: ScanStart)
    ensures r.scheduled <==> !form.scanning && form.qrCode != ""
    ensures !r.scheduled ==> r.form == form
    ensures r.scheduled ==> r.form == ScanForm(form.qrCode, true)
  {
    if form.scanning then ScanStart(form, false) else StartScan(form)
  }

  /** While a scan runs, neither typing nor submitting changes anything or starts another scan. */
  lemma ScanningBlocksInput(form: ScanForm, text: string)
    requires form.scanning
    ensures EditCode(form, text) == form
    ensures Submit(form) == ScanStart(form, false)
  {
  }

  datatype ScanResult = ScanResult(session: Session, form: ScanForm, credited: int)

  /**
   * The end of the delay: the session is credited (through the store, so
   * without a user nothing changes), the code is cleared and the flag
   * dropped.
   */
  function CompleteScan(session: Session, form: ScanForm, draw: Random): (r: ScanResult)
    ensures r.form == Idle
    ensures r.credited == Credit(draw)
    ensures MinCredit <= r.credited <= MaxCredit
    ensures r.session.Some? <==> session.Some?
    ensures session.Some? ==> SameIdentity(r.session.value, session.value)
    ensures session.Some? ==> r.session.value.balance == session.value.balance + r.credited
    ensures session.Some? ==> r.session.value.balance > session.value.balance
  {
    var amount := Credit(draw);
    ScanResult(UpdateBalance(session, amount), Idle, amount)
  }

  /** Submitting an empty code changes nothing: no scan, no flag. */
  lemma EmptyCodeIsIgnored(form: ScanForm)
    requires form.qrCode == ""
    ensures StartScan(form) == ScanStart(form, false)
    ensures Submit(form) == ScanStart(form, false)
  {
  }
}
