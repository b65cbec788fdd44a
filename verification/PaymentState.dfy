/** The shared state of the payment service: the Redis invoices, the tables and the chain. */
module PaymentState {
  import opened Text
  import opened Transactions
  import opened Verifiers

  type Time = int  // microseconds

  const MINUTE: Time := 60_000_000

  type EventId = nat

  datatype Event = Event(
    owner: string, slug: string, amount: int, merchant: string, expiresAt: Time,
    active: bool, walletEnabled: bool, qrEnabled: bool)

  /** The email entry of the submitted JSON. A value that is not a string prints differently in Go and in SQL. */
  datatype Email = Missing | Plain(text: string) | Other(goText: string, sqlText: string)
  datatype Participant = Participant(email: Email, rest: string)

  /** The Redis hash invoice:<reference>. */
  datatype Invoice = Invoice(
    wallet: string, amount: int, event: EventId, merchant: string, payMethod: string, participant: Participant)

  datatype InvoiceStatus = InvoicePending | InvoicePaid | InvoiceFailed | InvoiceExpired | InvoiceError

  /** A row of table invoice. */
  datatype InvoiceRow = InvoiceRow(
    wallet: string, amount: int, signature: Option<string>, status: InvoiceStatus, errReason: Option<Reason>)

  datatype CheckoutStatus = PendingPayment | Paid | Approved | Failed | Rejected

  /** A row of table event_checkouts. */
  datatype Checkout = Checkout(
    event: EventId, wallet: string, signature: Option<string>, amount: int, status: CheckoutStatus,
    createdAt: Time, paidAt: Option<Time>, participant: Participant, payMethod: string)

  datatype SessionState = Awaiting | Verifying | SessionFailed | SessionPaid | Cancelled

  /** A row of table payment_sessions. */
  datatype Session = Session(
    event: EventId, owner: string, participant: Participant, wallet: string, payMethod: string, state: SessionState,
    reference: string, amount: int, mint: string, merchant: string, key: string, signature: Option<string>, expiresAt: Time)

  datatype AttemptStatus = AttemptFailed | AttemptPaid
  datatype Attempt = Attempt(signature: string, status: AttemptStatus)

  datatype Endpoint = CreateSession | SubmitSignature | CancelSession
  datatype IdempotencyKey = IdempotencyKey(owner: string, key: string, endpoint: Endpoint)

  /** What a handler answers; Error carries the HTTP status. */
  datatype Reply =
    | Error(code: nat)
    | Done
    | InvoiceCreated(reference: string, amount: int)
    | SessionCreated(sessionId: string, reference: string, payMethod: string, amount: int, mint: string, expiresAt: Time)
    | CheckoutReport(reference: string, status: CheckoutStatus, signature: string, participant: Participant, payMethod: string)
    | NoReport
    | StillPending

  /** A checkout as the sweep's SELECT returned it, with the event's merchant at that moment. */
  datatype RecoveryRow = RecoveryRow(
    reference: string, event: EventId, wallet: string, signature: string, amount: int, createdAt: Time, merchant: string)

  /** How a reference came to be. */
  datatype Origin = Opened(invoice: Invoice) | Direct | Legacy

  /** The tables keyed by their unique columns; attempts are grouped by the session they refer to.
      The last five fields are history: identifiers issued, how each reference arose, every value
      written to a session's state column, the rows sweeps have read, and the next event id. */
  datatype State = State(
    events: map<EventId, Event>,
    slugs: map<string, EventId>,
    redis: map<string, Invoice>,
    invoices: map<string, InvoiceRow>,
    checkouts: map<string, Checkout>,
    sessions: map<string, Session>,
    attempts: map<string, seq<Attempt>>,
    records: map<IdempotencyKey, Reply>,
    chain: Chain,
    nextEvent: EventId,
    issued: set<string>,
    origins: map<string, Origin>,
    stateLog: map<string, seq<SessionState>>,
    selected: set<RecoveryRow>)

  predicate HasPaidDeposits(checkouts: map<string, Checkout>, event: EventId) {
    exists r | r in checkouts :: checkouts[r].event == event && checkouts[r].status == Paid
  }

  function LogOf(log: map<string, seq<SessionState>>, id: string): seq<SessionState> {
    if id in log then log[id] else []
  }

  function AttemptsOf(attempts: map<string, seq<Attempt>>, id: string): seq<Attempt> {
    if id in attempts then attempts[id] else []
  }

  /** The email as the handlers compare it: trimmed and lower-cased in Go. */
  function GoEmail(p: Participant): string {
    Lower(TrimSpace(match p.email case Missing => "<nil>" case Plain(t) => t case Other(g, _) => g))
  }

  /** The email as the query compares it: lower-cased only, with NULL read as ''. */
  function SqlEmail(p: Participant): string {
    Lower(match p.email case Missing => "" case Plain(t) => t case Other(_, q) => q)
  }

  predicate EmailApplies(p: Participant) {
    GoEmail(p) != "" && GoEmail(p) != "<nil>"
  }

  /** Some other paid checkout of the event has this email. */
  predicate EmailTaken(checkouts: map<string, Checkout>, event: EventId, reference: string, p: Participant) {
    && EmailApplies(p)
    && exists r | r in checkouts ::
         && checkouts[r].event == event && checkouts[r].status == Paid && r != reference
         && SqlEmail(checkouts[r].participant) == GoEmail(p)
  }

  /** As EmailTaken, but for a reference that is about to be issued. */
  predicate EmailUsed(checkouts: map<string, Checkout>, event: EventId, p: Participant) {
    && EmailApplies(p)
    && exists r | r in checkouts ::
         checkouts[r].event == event && checkouts[r].status == Paid && SqlEmail(checkouts[r].participant) == GoEmail(p)
  }

  /** Int64 arithmetic wraps around. */
  function Int64(x: int): int {
    (x + 0x8000_0000_0000_0000) % 0x1_0000_0000_0000_0000 - 0x8000_0000_0000_0000
  }
}
