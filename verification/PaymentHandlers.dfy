/** What each handler does to the state and answers, one function per handler. */
module PaymentHandlers {
  import opened Text
  import opened Transactions
  import opened Verifiers
  import opened PaymentState

  function StatusOf(checkouts: map<string, Checkout>, reference: string): Reply {
    if reference !in checkouts then NoReport
    else
      var c := checkouts[reference];
      CheckoutReport(reference, c.status, c.signature.GetOr(""), c.participant, c.payMethod)
  }

  predicate IsPaid(checkouts: map<string, Checkout>, reference: string) {
    reference in checkouts && checkouts[reference].status == Paid
  }

  predicate ValidWallet(cfg: Config, wallet: string) {
    wallet != "" && cfg.isWallet(wallet)
  }

  // Events

  function AddEvent(s: State, event: Event): State {
    s.(events := s.events[s.nextEvent := event], slugs := s.slugs[event.slug := s.nextEvent], nextEvent := s.nextEvent + 1)
  }

  function CreateEvent(cfg: Config, s: State, owner: string, slug: string, dollars: int, merchant: string, expiresAt: Time,
                       walletEnabled: bool, qrEnabled: bool): (State, Reply) {
    if !ValidWallet(cfg, merchant) || dollars <= 0 then (s, Error(400))
    else if slug in s.slugs then (s, Error(500))
    else
      var event := Event(owner, slug, Int64(dollars * 1_000_000), merchant, expiresAt, true, walletEnabled, qrEnabled);
      (AddEvent(s, event), Done)
  }

  function UpdateEvent(cfg: Config, s: State, id: EventId, owner: string, dollars: int, merchant: string, expiresAt: Time,
                       walletEnabled: bool, qrEnabled: bool): (State, Reply) {
    if !ValidWallet(cfg, merchant) || dollars <= 0 then (s, Error(400))
    else if HasPaidDeposits(s.checkouts, id) then (s, Error(409))
    else if id !in s.events || s.events[id].owner != owner then (s, Error(404))
    else
      var event := s.events[id].(amount := Int64(dollars * 1_000_000), merchant := merchant, expiresAt := expiresAt,
                                 walletEnabled := walletEnabled, qrEnabled := qrEnabled);
      (s.(events := s.events[id := event]), Done)
  }

  /** Deleting an event deletes its checkouts, its sessions and their attempts. */
  function Cascade(s: State, id: EventId): State {
    s.(events := s.events - {id},
       slugs := SlugsWithout(s.slugs, id),
       checkouts := CheckoutsWithout(s.checkouts, id),
       sessions := s.sessions - SessionsOf(s.sessions, id),
       attempts := s.attempts - SessionsOf(s.sessions, id))
  }

  function SlugsWithout(slugs: map<string, EventId>, id: EventId): map<string, EventId> {
    map slug | slug in slugs && slugs[slug] != id :: slugs[slug]
  }

  function CheckoutsWithout(checkouts: map<string, Checkout>, id: EventId): map<string, Checkout> {
    map r | r in checkouts && checkouts[r].event != id :: checkouts[r]
  }

  function SessionsOf(sessions: map<string, Session>, id: EventId): set<string> {
    set i | i in sessions && sessions[i].event == id
  }

  function DeleteEvent(s: State, id: EventId, owner: string): (State, Reply) {
    if HasPaidDeposits(s.checkouts, id) then (s, Error(409))
    else if id !in s.events || s.events[id].owner != owner then (s, Error(404))
    else (Cascade(s, id), Done)
  }

  // Checkout

  function EventBySlug(s: State, slug: string): Option<EventId> {
    if slug in s.slugs && s.slugs[slug] in s.events && s.events[s.slugs[slug]].active then Some(s.slugs[slug]) else None
  }

  /** The refusals shared by both ways to open a checkout, in the order the code takes them. */
  function OpeningError(cfg: Config, s: State, id: EventId, formOk: bool, participant: Participant,
                        payMethod: string, wallet: string, now: Time): Option<nat>
    requires id in s.events
  {
    var event := s.events[id];
    if event.expiresAt < now then Some(410)
    else if !formOk then Some(400)
    else if EmailUsed(s.checkouts, id, participant) then Some(409)
    else if payMethod == "wallet" then
      if !event.walletEnabled || !ValidWallet(cfg, wallet) then Some(400) else None
    else if payMethod == "qr" then
      if !event.qrEnabled then Some(400) else None
    else Some(400)
  }

  function Open(s: State, reference: string, invoice: Invoice): State {
    s.(redis := s.redis[reference := invoice], issued := s.issued + {reference},
       origins := s.origins[reference := Opened(invoice)])
  }

  function CreateCheckoutInvoice(cfg: Config, s: State, slug: string, wallet: string, participant: Participant,
                                 formOk: bool, payMethod: string, now: Time, reference: string): (State, Reply) {
    var slug, wallet, payMethod := TrimSpace(slug), TrimSpace(wallet), TrimSpace(payMethod);
    var id := EventBySlug(s, slug);
    if slug == "" then (s, Error(400))
    else if id.None? then (s, Error(404))
    else
      var error := OpeningError(cfg, s, id.value, formOk, participant, payMethod, wallet, now);
      if error.Some? then (s, Error(error.value))
      else
        var event := s.events[id.value];
        var invoice := Invoice(wallet, event.amount, id.value, event.merchant, payMethod, participant);
        (Open(s, reference, invoice), InvoiceCreated(reference, event.amount))
  }

  /** DELETE FROM event_checkouts WHERE reference = r AND signature IS NULL AND status = 'pending_payment' */
  function WithoutPending(checkouts: map<string, Checkout>, reference: string): map<string, Checkout> {
    if reference in checkouts && checkouts[reference].signature.None? && checkouts[reference].status == PendingPayment
    then checkouts - {reference} else checkouts
  }

  /** What cancelling does to the reference: its invoice and an unsigned pending checkout go. */
  function Abandon(s: State, reference: string): State {
    s.(checkouts := WithoutPending(s.checkouts, reference), redis := s.redis - {reference})
  }

  function CancelCheckoutInvoice(cfg: Config, s: State, reference: string): (State, Reply) {
    if !cfg.isReference(TrimSpace(reference)) then (s, Error(400))
    else
      var invoices :=
        if reference in s.invoices && s.invoices[reference].signature.None? && s.invoices[reference].status == InvoicePending
        then s.invoices - {reference} else s.invoices;
      (Abandon(s.(invoices := invoices), reference), Done)
  }

  datatype Books = Books(invoices: map<string, InvoiceRow>, checkouts: map<string, Checkout>, ok: bool)

  /** finalizePaidCheckout. The invoice row is written before the checkout row, whose insertion fails
      when the event is gone. */
  function Finalize(events: map<EventId, Event>, invoices: map<string, InvoiceRow>, checkouts: map<string, Checkout>,
                    reference: string, signature: string, invoice: Invoice, amount: int, now: Time): Books {
    var wallet := if TrimSpace(invoice.wallet) == "" then "unknown_wallet" else TrimSpace(invoice.wallet);
    var payMethod := if TrimSpace(invoice.payMethod) == "" then "wallet" else TrimSpace(invoice.payMethod);
    if EmailTaken(checkouts, invoice.event, reference, invoice.participant) then Books(invoices, checkouts, false)
    else
      var row :=
        if reference in invoices
        then invoices[reference].(status := InvoicePaid, signature := Some(signature), errReason := None)
        else InvoiceRow(wallet, amount, Some(signature), InvoicePaid, None);
      var invoices := invoices[reference := row];
      if reference in checkouts then
        var checkout := checkouts[reference].(status := Paid, signature := Some(signature), paidAt := Some(now),
                                              participant := invoice.participant, payMethod := payMethod);
        Books(invoices, checkouts[reference := checkout], true)
      else if invoice.event !in events then Books(invoices, checkouts, false)
      else
        var checkout := Checkout(invoice.event, wallet, Some(signature), amount, Paid, now, Some(now), invoice.participant, payMethod);
        Books(invoices, checkouts[reference := checkout], true)
  }

  function FinalizePaidCheckout(s: State, reference: string, signature: string, invoice: Invoice, amount: int, now: Time): (State, bool) {
    var books := Finalize(s.events, s.invoices, s.checkouts, reference, signature, invoice, amount, now);
    (s.(invoices := books.invoices, checkouts := books.checkouts), books.ok)
  }

  function DropInvoice(s: State, reference: string): State {
    s.(redis := s.redis - {reference})
  }

  /** Finalizing a live reference with what its invoice holds; a refusal by the database answers code. */
  function Settle(s: State, reference: string, signature: string, invoice: Invoice, now: Time, code: nat): (State, Reply) {
    var (t, ok) := FinalizePaidCheckout(s, reference, signature, invoice, invoice.amount, now);
    if !ok then (t, Error(code)) else (DropInvoice(t, reference), StatusOf(t.checkouts, reference))
  }

  /** What confirming does with the verifier's answer: a refusal is kept in the invoice row. */
  function ConfirmWith(s: State, reference: string, signature: string, verdict: Verdict, now: Time): (State, Reply)
    requires reference in s.redis
  {
    var invoice := s.redis[reference];
    match verdict
    case Refused(reason) =>
      var row :=
        if reference in s.invoices
        then s.invoices[reference].(status := InvoiceError, signature := Some(signature), errReason := Some(reason))
        else InvoiceRow(TrimSpace(invoice.wallet), invoice.amount, Some(signature), InvoiceError, Some(reason));
      (s.(invoices := s.invoices[reference := row]), Error(400))
    case Accepted(_) => Settle(s, reference, signature, invoice, now, 500)
  }

  ghost function ConfirmCheckoutPayment(cfg: Config, s: State, reference: string, signature: string, rpc: Rpc, now: Time): (State, Reply) {
    if !cfg.isReference(reference) || TrimSpace(signature) == "" then (s, Error(400))
    else if reference !in s.redis then (s, Error(404))
    else
      var invoice := s.redis[reference];
      var merchant := TrimSpace(invoice.merchant);
      if merchant == "" then (s, Error(500))
      else ConfirmWith(s, reference, signature, VerdictFor(cfg, rpc, reference, signature, invoice.amount, merchant), now)
  }

  function RecheckWith(s: State, reference: string, signature: string, verdict: Verdict, now: Time): (State, Reply)
    requires reference in s.redis
  {
    if verdict.Refused? then (s, Error(400)) else Settle(s, reference, signature, s.redis[reference], now, 500)
  }

  ghost function RecheckCheckoutPayment(cfg: Config, s: State, reference: string, signature: string, rpc: Rpc, now: Time): (State, Reply) {
    if !cfg.isReference(TrimSpace(reference)) then (s, Error(400))
    else if IsPaid(s.checkouts, reference) then (s, StatusOf(s.checkouts, reference))
    else if reference !in s.redis then (s, Error(404))
    else
      var invoice := s.redis[reference];
      var merchant, signature := TrimSpace(invoice.merchant), TrimSpace(signature);
      if merchant == "" || signature == "" then (s, Error(400))
      else RecheckWith(s, reference, signature, VerdictFor(cfg, rpc, reference, signature, invoice.amount, merchant), now)
  }

  /** A detected payment fills in the payer when the invoice has no wallet. */
  function WithSender(invoice: Invoice, sender: string): Invoice {
    if TrimSpace(invoice.wallet) == "" && sender != "" then invoice.(wallet := sender) else invoice
  }

  function DetectWith(s: State, reference: string, detection: Detection, now: Time): (State, Reply)
    requires reference in s.redis
  {
    match detection
    case NotDetected => (s, StillPending)
    case Found(signature, sender) => Settle(s, reference, signature, WithSender(s.redis[reference], sender), now, 400)
  }

  ghost function DetectCheckoutPayment(cfg: Config, s: State, reference: string, rpc: Rpc, now: Time): (State, Reply) {
    var reference := TrimSpace(reference);
    if !cfg.isReference(reference) then (s, Error(400))
    else if IsPaid(s.checkouts, reference) then (s, StatusOf(s.checkouts, reference))
    else if reference !in s.redis then (s, Error(404))
    else
      var invoice := s.redis[reference];
      var merchant := TrimSpace(invoice.merchant);
      if merchant == "" then (s, Error(400))
      else DetectWith(s, reference, DetectFrom(cfg, rpc, reference, invoice.amount, merchant, 0), now)
  }

  function AddDirect(s: State, reference: string, row: InvoiceRow, checkout: Checkout): State {
    s.(invoices := s.invoices[reference := row], checkouts := s.checkouts[reference := checkout],
       issued := s.issued + {reference}, origins := s.origins[reference := Direct])
  }

  ghost function ManualVerifyCheckoutPayment(cfg: Config, s: State, slug: string, wallet: string, signature: string,
                                             participant: Participant, rpc: Rpc, now: Time, reference: string): (State, Reply) {
    var slug, wallet, signature := TrimSpace(slug), TrimSpace(wallet), TrimSpace(signature);
    var id := EventBySlug(s, slug);
    if slug == "" || signature == "" || !ValidWallet(cfg, wallet) then (s, Error(400))
    else if id.None? then (s, Error(404))
    else
      var event := s.events[id.value];
      if !DirectlyAccepted(cfg, rpc, signature, event.amount, event.merchant, wallet) then (s, Error(400))
      else
        var row := InvoiceRow(wallet, event.amount, Some(signature), InvoicePaid, None);
        var checkout := Checkout(id.value, wallet, Some(signature), event.amount, Paid, now, Some(now), participant, "wallet");
        (AddDirect(s, reference, row, checkout), CheckoutReport(reference, Paid, signature, participant, ""))
  }

  // Headless sessions

  function LoadRecord(s: State, owner: string, key: string, endpoint: Endpoint): Option<Reply> {
    var k := IdempotencyKey(owner, key, endpoint);
    if TrimSpace(owner) == "" || TrimSpace(key) == "" || k !in s.records then None else Some(s.records[k])
  }

  /** saveIdempotentResponse upserts. */
  function SaveRecord(s: State, owner: string, key: string, endpoint: Endpoint, reply: Reply): State {
    if TrimSpace(owner) == "" || TrimSpace(key) == "" then s
    else s.(records := s.records[IdempotencyKey(owner, key, endpoint) := reply])
  }

  function OwnerOf(claims: Option<string>): string {
    if claims.Some? && TrimSpace(claims.value) != "" then TrimSpace(claims.value) else "public_checkout"
  }

  /** The unique index on (owner_email, idempotency_key); an absent key is stored as ''. */
  predicate KeyTaken(sessions: map<string, Session>, owner: string, key: string) {
    exists i | i in sessions :: sessions[i].owner == owner && sessions[i].key == key
  }

  function AddSession(s: State, id: string, session: Session): State {
    s.(sessions := s.sessions[id := session], attempts := s.attempts[id := []], issued := s.issued + {id},
       stateLog := s.stateLog[id := [session.state]])
  }

  /** The second half of creating a session: the invoice is live before the session row is inserted. */
  function OpenSession(cfg: Config, s: State, owner: string, key: string, id: EventId, payMethod: string, wallet: string,
                       participant: Participant, formOk: bool, now: Time, sessionId: string, reference: string): (State, Reply)
    requires id in s.events
  {
    var error := OpeningError(cfg, s, id, formOk, participant, payMethod, wallet, now);
    if error.Some? then (s, Error(error.value))
    else
      var event := s.events[id];
      var t := Open(s, reference, Invoice(wallet, event.amount, id, event.merchant, payMethod, participant));
      if KeyTaken(s.sessions, owner, key) then (t, Error(500))
      else
        var expiresAt := now + 20 * MINUTE;
        var session := Session(id, owner, participant, wallet, payMethod, Awaiting, reference, event.amount, cfg.mint,
                               event.merchant, key, None, expiresAt);
        var reply := SessionCreated(sessionId, reference, payMethod, event.amount, cfg.mint, expiresAt);
        (SaveRecord(AddSession(t, sessionId, session), owner, key, CreateSession, reply), reply)
  }

  function V1CreatePaymentSession(cfg: Config, s: State, claims: Option<string>, eventId: EventId, slug: string,
                                  payMethod: string, wallet: string, participant: Participant, formOk: bool, header: string,
                                  now: Time, sessionId: string, reference: string): (State, Reply) {
    var owner, key := OwnerOf(claims), TrimSpace(header);
    var slug, wallet, payMethod := TrimSpace(slug), TrimSpace(wallet), TrimSpace(payMethod);
    var stored := LoadRecord(s, owner, key, CreateSession);
    var id := if eventId == 0 then EventBySlug(s, slug)
              else if eventId in s.events && s.events[eventId].active then Some(eventId) else None;
    if stored.Some? then (s, stored.value)
    else if id.None? then (s, Error(404))
    else OpenSession(cfg, s, owner, key, id.value, payMethod, wallet, participant, formOk, now, sessionId, reference)
  }

  function SetSessionState(s: State, id: string, state: SessionState): State
    requires id in s.sessions
  {
    s.(sessions := s.sessions[id := s.sessions[id].(state := state)],
       stateLog := s.stateLog[id := LogOf(s.stateLog, id) + [state]])
  }

  function AddAttempt(s: State, id: string, attempt: Attempt): State {
    s.(attempts := s.attempts[id := AttemptsOf(s.attempts, id) + [attempt]])
  }

  function FailSession(s: State, id: string, signature: string): State
    requires id in s.sessions
  {
    SetSessionState(AddAttempt(s, id, Attempt(signature, AttemptFailed)), id, SessionFailed)
  }

  function PaySession(s: State, id: string, signature: string): State
    requires id in s.sessions
  {
    var t := SetSessionState(AddAttempt(s, id, Attempt(signature, AttemptPaid)), id, SessionPaid);
    t.(sessions := t.sessions[id := t.sessions[id].(signature := Some(signature))])
  }

  /** What submitting does with the verifier's answer. */
  function SubmitWith(s: State, id: string, signature: string, key: string, verdict: Verdict, now: Time): (State, Reply)
    requires id in s.sessions && s.sessions[id].reference in s.redis
  {
    var session := s.sessions[id];
    if verdict.Refused? then (FailSession(s, id, signature), Error(400))
    else
      var (t, ok) := FinalizePaidCheckout(s, session.reference, signature, s.redis[session.reference], session.amount, now);
      if !ok then (FailSession(t, id, signature), Error(500))
      else
        var reply := StatusOf(t.checkouts, session.reference);
        var u := DropInvoice(PaySession(t, id, signature), session.reference);
        (SaveRecord(u, session.owner, key, SubmitSignature, reply), reply)
  }

  /** The second half of submitting a signature, entered with the session awaiting or verifying. */
  ghost function Submit(cfg: Config, s: State, id: string, signature: string, key: string, rpc: Rpc, now: Time): (State, Reply)
    requires id in s.sessions
  {
    var session := s.sessions[id];
    var s := SetSessionState(s, id, Verifying);
    if session.reference !in s.redis then (s, Error(404))
    else SubmitWith(s, id, signature, key, VerdictFor(cfg, rpc, session.reference, signature, session.amount, session.merchant), now)
  }

  ghost function V1SubmitSignature(cfg: Config, s: State, id: string, signature: string, header: string, rpc: Rpc, now: Time): (State, Reply) {
    var signature, key := TrimSpace(signature), TrimSpace(header);
    if signature == "" then (s, Error(400))
    else if id !in s.sessions then (s, Error(404))
    else
      var session := s.sessions[id];
      var stored := LoadRecord(s, session.owner, key, SubmitSignature);
      if stored.Some? then (s, stored.value)
      else if session.state != Awaiting && session.state != Verifying then (s, Error(409))
      else Submit(cfg, s, id, signature, key, rpc, now)
  }

  function V1CancelPaymentSession(s: State, id: string, header: string): (State, Reply) {
    var key := TrimSpace(header);
    if id !in s.sessions then (s, Error(404))
    else
      var session := s.sessions[id];
      var stored := LoadRecord(s, session.owner, key, CancelSession);
      if stored.Some? then (s, stored.value)
      else if session.state == SessionPaid then (s, Error(409))
      else
        var t := Abandon(SetSessionState(s, id, Cancelled), session.reference);
        (SaveRecord(t, session.owner, key, CancelSession, Done), Done)
  }

  function SessionDetectWith(s: State, id: string, detection: Detection, now: Time): (State, Reply)
    requires id in s.sessions && s.sessions[id].reference in s.redis
  {
    var session := s.sessions[id];
    match detection
    case NotDetected => (s, StillPending)
    case Found(signature, sender) =>
      var invoice := WithSender(s.redis[session.reference], sender);
      var (t, ok) := FinalizePaidCheckout(s, session.reference, signature, invoice, session.amount, now);
      if !ok then (t, Error(400))
      else (DropInvoice(PaySession(t, id, signature), session.reference), StatusOf(t.checkouts, session.reference))
  }

  ghost function V1DetectPayment(cfg: Config, s: State, id: string, rpc: Rpc, now: Time): (State, Reply) {
    if id !in s.sessions then (s, Error(404))
    else
      var session := s.sessions[id];
      if session.state == SessionPaid then (s, StatusOf(s.checkouts, session.reference))
      else if session.reference !in s.redis then (s, Error(404))
      else SessionDetectWith(s, id, DetectFrom(cfg, rpc, session.reference, session.amount, session.merchant, 0), now)
  }

  // The recovery sweep

  const SWEEP_LIMIT: nat := 200

  predicate Eligible(events: map<EventId, Event>, checkouts: map<string, Checkout>, reference: string, now: Time) {
    && reference in checkouts
    && var c := checkouts[reference];
    && c.event in events
    && c.createdAt > now - 24 * 60 * MINUTE
    && (c.status == PendingPayment || c.status == Failed)
    && c.signature.Some? && c.signature.value != ""
  }

  function RowOf(events: map<EventId, Event>, checkouts: map<string, Checkout>, reference: string, now: Time): RecoveryRow
    requires Eligible(events, checkouts, reference, now)
  {
    var c := checkouts[reference];
    RecoveryRow(reference, c.event, c.wallet, c.signature.value, c.amount, c.createdAt, events[c.event].merchant)
  }

  /** The rows the SELECT may return: eligible ones, newest first, cut off at the limit. */
  predicate Selection(events: map<EventId, Event>, checkouts: map<string, Checkout>, now: Time, rows: seq<RecoveryRow>) {
    && |rows| <= SWEEP_LIMIT
    && (forall i | 0 <= i < |rows| ::
          && Eligible(events, checkouts, rows[i].reference, now)
          && rows[i] == RowOf(events, checkouts, rows[i].reference, now))
    && (forall i, j | 0 <= i < j < |rows| :: rows[i].reference != rows[j].reference && rows[i].createdAt >= rows[j].createdAt)
    && (forall r | r in checkouts :: Eligible(events, checkouts, r, now) ==>
          || (exists i | 0 <= i < |rows| :: rows[i].reference == r)
          || (|rows| == SWEEP_LIMIT && forall i | 0 <= i < |rows| :: rows[i].createdAt >= checkouts[r].createdAt))
  }

  /** One turn of the sweep's loop: re-verify a row read earlier and update it by its id. */
  ghost function RecoverCheckout(cfg: Config, c: Checkout, row: RecoveryRow, rpc: Rpc, now: Time): Checkout {
    RecoverWith(c, row, VerdictFor(cfg, rpc, row.reference, row.signature, row.amount, row.merchant), now)
  }

  function RecoverWith(c: Checkout, row: RecoveryRow, verdict: Verdict, now: Time): Checkout {
    match verdict
    case Accepted(sender) =>
      c.(status := Paid, signature := Some(row.signature), paidAt := Some(c.paidAt.GetOr(now)),
         wallet := if c.wallet == "" then sender else c.wallet)
    case Refused(_) =>
      if now - row.createdAt > 60 * MINUTE && c.status != Paid then c.(status := Failed) else c
  }

  ghost function RecoverRow(cfg: Config, s: State, row: RecoveryRow, rpc: Rpc, now: Time): State {
    if row.reference !in s.checkouts then s
    else s.(checkouts := s.checkouts[row.reference := RecoverCheckout(cfg, s.checkouts[row.reference], row, rpc, now)])
  }

  function SelectRows(s: State, rows: seq<RecoveryRow>): State {
    s.(selected := s.selected + set i | 0 <= i < |rows| :: rows[i])
  }

  /** The loop over the selected rows. */
  ghost function RecoverRows(cfg: Config, s: State, rows: seq<RecoveryRow>, rpc: Rpc, now: Time): State
    decreases rows
  {
    if rows == [] then s else RecoverRows(cfg, RecoverRow(cfg, s, rows[0], rpc, now), rows[1..], rpc, now)
  }

  /** RecoverErrorInvoices, when nothing interleaves. */
  ghost function RecoverErrorInvoices(cfg: Config, s: State, rows: seq<RecoveryRow>, rpc: Rpc, now: Time): State {
    RecoverRows(cfg, SelectRows(s, rows), rows, rpc, now)
  }
}
