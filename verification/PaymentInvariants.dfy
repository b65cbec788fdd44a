/** The cross-table invariant, and what no step undoes. Each predicate takes the tables it reads. */
module PaymentInvariants {
  import opened Text
  import opened Transactions
  import opened Verifiers
  import opened PaymentState
  import opened PaymentHandlers

  type Sessions = map<string, Session>
  type Checkouts = map<string, Checkout>
  type Events = map<EventId, Event>
  type Origins = map<string, Origin>
  type Invoices = map<string, InvoiceRow>
  type Redis = map<string, Invoice>
  type Attempts = map<string, seq<Attempt>>
  type Logs = map<string, seq<SessionState>>

  /** Base58 text has no blanks. */
  ghost predicate Sane(cfg: Config) {
    forall w :: cfg.isWallet(w) ==> Trimmed(w)
  }

  // The invariant

  ghost predicate EventsOk(cfg: Config, events: Events, slugs: map<string, EventId>, nextEvent: EventId) {
    && (forall e | e in events :: e < nextEvent && ValidWallet(cfg, events[e].merchant))
    && (forall slug | slug in slugs :: slugs[slug] in events)
  }

  ghost predicate OriginsOk(cfg: Config, origins: Origins, issued: set<string>) {
    forall r | r in origins :: r in issued && (origins[r].Opened? ==> ValidWallet(cfg, origins[r].invoice.merchant))
  }

  /** A live invoice is the snapshot taken when its reference was issued, and has no checkout. */
  ghost predicate LiveOk(redis: Redis, origins: Origins, checkouts: Checkouts) {
    forall r | r in redis :: r in origins && origins[r] == Opened(redis[r]) && r !in checkouts
  }

  ghost predicate InvoicePaidWith(invoices: Invoices, r: string, signature: Option<string>) {
    r in invoices && invoices[r].status == InvoicePaid && invoices[r].signature == signature
  }

  /** A sweep read this checkout and its signature verifies for the merchant read with it. */
  ghost predicate Recovered(cfg: Config, chain: Chain, selected: set<RecoveryRow>, r: string, c: Checkout) {
    exists row | row in selected ::
      && row.reference == r && Some(row.signature) == c.signature && row.amount == c.amount && row.event == c.event
      && PaidOnChain(cfg, chain, r, row.signature, row.amount, row.merchant)
  }

  ghost predicate Complete(c: Checkout) {
    c.status == Paid && c.signature.Some? && c.wallet != "" && c.paidAt.Some?
  }

  /** A paid checkout was paid on the chain, by the rule that goes with its origin. */
  ghost predicate CheckoutOk(cfg: Config, r: string, c: Checkout, origin: Origin, event: Event, invoices: Invoices,
                             chain: Chain, selected: set<RecoveryRow>) {
    match origin
    case Opened(invoice) =>
      && Complete(c)
      && c.event == invoice.event && c.amount == invoice.amount && c.participant == invoice.participant
      && PaidOnChain(cfg, chain, r, c.signature.value, c.amount, invoice.merchant)
      && InvoicePaidWith(invoices, r, c.signature)
    case Direct =>
      && Complete(c)
      && PaidDirectlyOnChain(cfg, chain, c.signature.value, c.amount, event.merchant, c.wallet)
      && InvoicePaidWith(invoices, r, c.signature)
    case Legacy =>
      c.status == Paid ==> Complete(c) && Recovered(cfg, chain, selected, r, c)
  }

  ghost predicate CheckoutsOk(cfg: Config, checkouts: Checkouts, origins: Origins, events: Events, invoices: Invoices,
                              chain: Chain, selected: set<RecoveryRow>) {
    forall r | r in checkouts ::
      && r in origins && checkouts[r].event in events
      && CheckoutOk(cfg, r, checkouts[r], origins[r], events[checkouts[r].event], invoices, chain, selected)
  }

  /** The session's copy agrees with the snapshot. */
  ghost predicate Copies(session: Session, invoice: Invoice) {
    && session.event == invoice.event && session.amount == invoice.amount && session.merchant == invoice.merchant
    && session.participant == invoice.participant && session.wallet == invoice.wallet && session.payMethod == invoice.payMethod
  }

  ghost predicate LogEndsWith(log: seq<SessionState>, state: SessionState) {
    |log| > 0 && log[|log| - 1] == state
  }

  ghost predicate SessionOk(i: string, session: Session, attempts: Attempts, stateLog: Logs, issued: set<string>,
                            origins: Origins, events: Events) {
    && i in issued && i in attempts && i in stateLog && LogEndsWith(stateLog[i], session.state)
    && session.event in events && session.owner != "" && Trimmed(session.owner)
    && session.reference in origins && origins[session.reference].Opened?
    && Copies(session, origins[session.reference].invoice)
  }

  ghost predicate SessionsOk(sessions: Sessions, attempts: Attempts, stateLog: Logs, issued: set<string>,
                             origins: Origins, events: Events) {
    forall i | i in sessions :: SessionOk(i, sessions[i], attempts, stateLog, issued, origins, events)
  }

  ghost predicate ReferencesDistinct(sessions: Sessions) {
    forall i, j | i in sessions && j in sessions :: sessions[i].reference == sessions[j].reference ==> i == j
  }

  ghost predicate OneFailure(attempts: seq<Attempt>) {
    |attempts| == 1 && attempts[0].status == AttemptFailed
  }

  ghost predicate PaidBy(attempts: seq<Attempt>, signature: Option<string>) {
    && signature.Some?
    && ((|attempts| == 1 && attempts[0] == Attempt(signature.value, AttemptPaid))
        || (|attempts| == 2 && attempts[0].status == AttemptFailed && attempts[1] == Attempt(signature.value, AttemptPaid)))
  }

  /** The attempts a session in this state has, and where its reference stands. */
  ghost predicate LedgerOk(session: Session, attempts: seq<Attempt>, redis: Redis, checkouts: Checkouts) {
    match session.state
    case Awaiting => attempts == [] && session.signature == None
    case Verifying => attempts == [] && session.signature == None && session.reference !in redis
    case SessionFailed => OneFailure(attempts) && session.signature == None
    case Cancelled => (attempts == [] || OneFailure(attempts)) && session.signature == None && session.reference !in redis
    case SessionPaid =>
      && PaidBy(attempts, session.signature)
      && IsPaid(checkouts, session.reference) && checkouts[session.reference].signature == session.signature
  }

  ghost predicate LedgersOk(sessions: Sessions, attempts: Attempts, redis: Redis, checkouts: Checkouts) {
    forall i | i in sessions :: i in attempts && LedgerOk(sessions[i], attempts[i], redis, checkouts)
  }

  function Rank(state: SessionState): nat {
    match state case Awaiting => 0 case Verifying => 1 case SessionFailed => 2 case SessionPaid => 3 case Cancelled => 3
  }

  /** The state column starts at awaiting, and each write keeps the value or raises its rank. */
  ghost predicate Climbing(log: seq<SessionState>) {
    && log != [] && log[0] == Awaiting
    && forall i, j | 0 <= i < j < |log| :: log[i] == log[j] || Rank(log[i]) < Rank(log[j])
  }

  ghost predicate LogsOk(stateLog: Logs, issued: set<string>) {
    forall i | i in stateLog :: i in issued && Climbing(stateLog[i])
  }

  /** A session created under a key has its response on record. */
  ghost predicate RecordsOk(sessions: Sessions, records: map<IdempotencyKey, Reply>) {
    forall i | i in sessions && sessions[i].key != "" :: IdempotencyKey(sessions[i].owner, sessions[i].key, CreateSession) in records
  }

  /** A row a sweep has read still describes its checkout, if that is still there. */
  ghost predicate SelectedOk(selected: set<RecoveryRow>, origins: Origins, checkouts: Checkouts) {
    forall row | row in selected ::
      && row.reference in origins && origins[row.reference] == Legacy
      && (row.reference in checkouts ==>
            && checkouts[row.reference].signature == Some(row.signature)
            && checkouts[row.reference].amount == row.amount
            && checkouts[row.reference].event == row.event)
  }

  /** The Go check and the SQL comparison see the same, applicable email. */
  ghost predicate Guarded(p: Participant) {
    EmailApplies(p) && SqlEmail(p) == GoEmail(p)
  }

  ghost predicate SameGuardedEmail(c: Checkout, d: Checkout) {
    c.event == d.event && Guarded(c.participant) && Guarded(d.participant) && SqlEmail(c.participant) == SqlEmail(d.participant)
  }

  ghost predicate EmailsOk(checkouts: Checkouts, origins: Origins) {
    forall q, r | q in checkouts && r in checkouts && q in origins && r in origins && origins[q].Opened? && origins[r].Opened? ::
      SameGuardedEmail(checkouts[q], checkouts[r]) ==> q == r
  }

  ghost predicate Inv(cfg: Config, s: State) {
    && EventsOk(cfg, s.events, s.slugs, s.nextEvent)
    && OriginsOk(cfg, s.origins, s.issued)
    && LiveOk(s.redis, s.origins, s.checkouts)
    && CheckoutsOk(cfg, s.checkouts, s.origins, s.events, s.invoices, s.chain, s.selected)
    && SessionsOk(s.sessions, s.attempts, s.stateLog, s.issued, s.origins, s.events)
    && ReferencesDistinct(s.sessions)
    && LedgersOk(s.sessions, s.attempts, s.redis, s.checkouts)
    && LogsOk(s.stateLog, s.issued)
    && RecordsOk(s.sessions, s.records)
    && SelectedOk(s.selected, s.origins, s.checkouts)
    && EmailsOk(s.checkouts, s.origins)
  }

  /** The unique index on the slugs of the events. */
  ghost predicate SlugsIndexed(events: Events, slugs: map<string, EventId>) {
    && (forall slug | slug in slugs :: slugs[slug] in events && events[slugs[slug]].slug == slug)
    && (forall e | e in events :: events[e].slug in slugs && slugs[events[e].slug] == e)
  }

  /** Only the rows an earlier version left behind: no live invoice, no session, nothing paid. */
  ghost predicate Init(cfg: Config, s: State) {
    && EventsOk(cfg, s.events, s.slugs, s.nextEvent) && SlugsIndexed(s.events, s.slugs)
    && s.redis == map[] && s.sessions == map[] && s.attempts == map[] && s.records == map[]
    && s.stateLog == map[] && s.selected == {}
    && (forall r | r in s.origins :: r in s.issued && s.origins[r] == Legacy)
    && (forall r | r in s.invoices :: r in s.issued)
    && (forall r | r in s.checkouts :: r in s.origins && s.checkouts[r].event in s.events && s.checkouts[r].status != Paid)
  }

  lemma InitEstablishes(cfg: Config, s: State)
    requires Init(cfg, s)
    ensures Inv(cfg, s)
  {
  }

  // What no step undoes

  ghost predicate Submap<K, V>(m: map<K, V>, n: map<K, V>) {
    forall k | k in m :: k in n && n[k] == m[k]
  }

  ghost predicate LogsGrow(stateLog: Logs, stateLog': Logs) {
    forall i | i in stateLog :: i in stateLog' && stateLog[i] <= stateLog'[i]
  }

  /** An invoice that is gone stays gone, and an opened reference without invoice or checkout gets no checkout. */
  ghost predicate StaysDead(redis: Redis, redis': Redis, origins: Origins, checkouts: Checkouts, checkouts': Checkouts) {
    forall r | r in origins && r !in redis ::
      r !in redis' && (origins[r].Opened? && r !in checkouts ==> r !in checkouts')
  }

  /** A paid checkout is never written again. */
  ghost predicate StaysPaid(checkouts: Checkouts, checkouts': Checkouts) {
    forall r | r in checkouts && checkouts[r].status == Paid :: r in checkouts' && checkouts'[r] == checkouts[r]
  }

  /** Nor is its invoice row, unless the checkout was recovered. */
  ghost predicate KeepsInvoices(checkouts: Checkouts, origins: Origins, invoices: Invoices, invoices': Invoices) {
    forall r | r in checkouts && checkouts[r].status == Paid && r in origins && origins[r] != Legacy && r in invoices ::
      r in invoices' && invoices'[r] == invoices[r]
  }

  ghost predicate StaysLocked(events: Events, events': Events, checkouts: Checkouts) {
    forall e | e in events && HasPaidDeposits(checkouts, e) :: e in events' && events'[e] == events[e]
  }

  ghost predicate Advances(session: Session, session': Session) {
    && session'.(state := session.state, signature := session.signature) == session
    && (session.state == Cancelled ==> session'.state == Cancelled)
  }

  ghost predicate SessionsAdvance(sessions: Sessions, sessions': Sessions, attempts: Attempts, attempts': Attempts, stateLog: Logs) {
    && (forall i | i in stateLog && i !in sessions :: i !in sessions')
    && (forall i | i in sessions && i in sessions' :: Advances(sessions[i], sessions'[i]))
    && (forall i | i in sessions && sessions[i].state == SessionPaid ::
          i in sessions' && sessions'[i] == sessions[i] && i in attempts && i in attempts' && attempts'[i] == attempts[i])
  }

  ghost predicate Preserves(s: State, t: State) {
    && s.issued <= t.issued && s.selected <= t.selected && s.nextEvent <= t.nextEvent
    && Submap(s.chain, t.chain) && Submap(s.origins, t.origins) && Submap(s.records, t.records)
    && LogsGrow(s.stateLog, t.stateLog)
    && StaysDead(s.redis, t.redis, s.origins, s.checkouts, t.checkouts)
    && StaysPaid(s.checkouts, t.checkouts)
    && KeepsInvoices(s.checkouts, s.origins, s.invoices, t.invoices)
    && StaysLocked(s.events, t.events, s.checkouts)
    && SessionsAdvance(s.sessions, t.sessions, s.attempts, t.attempts, s.stateLog)
  }

  ghost predicate Good(cfg: Config, s: State, t: State) {
    Inv(cfg, t) && Preserves(s, t)
  }
}
