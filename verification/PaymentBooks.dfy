/** How any step of the service can change the books, and what follows for orphaned invoice rows and unpaid sessions. */
module PaymentBooks {
  import opened Text
  import opened Transactions
  import opened Verifiers
  import opened PaymentState
  import opened PaymentHandlers
  import opened PaymentInvariants
  import opened PaymentSteps
  import opened PaymentRuns
  import opened PaymentTheorems
  import opened PaymentOutcomes

  // Every step either finalizes one reference or leaves the books as they are

  /** The step is one of the five that finalize, and this is its reference. */
  predicate Finalizing(s: State, step: Step, r: string) {
    match step
    case Confirm(reference, _, _, _) => r == reference
    case Recheck(reference, _, _, _) => r == reference
    case Detect(reference, _, _) => r == TrimSpace(reference)
    case SessionSubmit(id, _, _, _, _) => id in s.sessions && r == s.sessions[id].reference
    case SessionDetect(id, _, _) => id in s.sessions && r == s.sessions[id].reference
    case _ => false
  }

  /** No session has become paid. */
  ghost predicate NoneNewlyPaid(sessions: Sessions, sessions': Sessions) {
    forall i | i in sessions' && sessions'[i].state == SessionPaid :: i in sessions && sessions[i].state == SessionPaid
  }

  ghost predicate NoNewCheckout(checkouts: Checkouts, checkouts': Checkouts) {
    forall r | r in checkouts' :: r in checkouts
  }

  /** No invoice row has become paid, and only live references have new ones. */
  ghost predicate NoNewPaidInvoice(invoices: Invoices, invoices': Invoices, redis: Redis) {
    forall r | r in invoices' ::
      && (r in invoices || r in redis)
      && (invoices'[r].status == InvoicePaid ==> r in invoices && invoices[r].status == InvoicePaid)
  }

  ghost predicate NoOldEvent(events: Events, events': Events, nextEvent: EventId) {
    forall e | e in events' :: e in events || e == nextEvent
  }

  /** References are opened for events that exist. */
  ghost predicate OpensFrom(origins: Origins, origins': Origins, events: Events, issued: set<string>) {
    forall r | r in origins' && r !in origins && origins'[r].Opened? :: r !in issued && origins'[r].invoice.event in events
  }

  /** The step has paid this payable reference, and with it a session only if the step was that session's. */
  ghost predicate Pays(s: State, t: State, step: Step, r: string) {
    && Finalizing(s, step, r) && Payable(s, r)
    && (exists signature, sender, now :: Booked(s, t, r, signature, sender, now))
    && (if step.SessionSubmit? || step.SessionDetect?
        then exists signature :: OnlySession(s, t, step.sessionId, SessionPaid, signature)
        else t.sessions == s.sessions)
  }

  /** The step has verified a payment that the database refused to book. */
  ghost predicate Fails(s: State, t: State, step: Step, r: string) {
    && Finalizing(s, step, r) && (exists signature, sender :: Unbooked(s, t, r, signature, sender))
    && NoneNewlyPaid(s.sessions, t.sessions)
  }

  /** A manual verification has booked its new reference. */
  ghost predicate PaysDirectly(s: State, t: State, step: Step) {
    && step.ManualVerify? && step.reference in t.checkouts && step.reference in t.invoices
    && t == AddDirect(s, step.reference, t.invoices[step.reference], t.checkouts[step.reference])
  }

  /** The step has paid nothing. */
  ghost predicate PaysNothing(s: State, t: State) {
    && NoneNewlyPaid(s.sessions, t.sessions)
    && NoNewCheckout(s.checkouts, t.checkouts)
    && NoNewPaidInvoice(s.invoices, t.invoices, s.redis)
    && NoOldEvent(s.events, t.events, s.nextEvent)
    && OpensFrom(s.origins, t.origins, s.events, s.issued)
  }

  lemma UnchangedPaysNothing(s: State)
    ensures PaysNothing(s, s)
  {
  }

  lemma SameTablesPayNothing(s: State, t: State)
    requires t.sessions == s.sessions && t.checkouts == s.checkouts && t.invoices == s.invoices && t.events == s.events
    requires t.origins == s.origins
    ensures PaysNothing(s, t)
  {
    UnchangedPaysNothing(s);
  }

  lemma ConfirmBooks(cfg: Config, s: State, r: string, signature: string, rpc: Rpc, now: Time)
    requires Sane(cfg) && Reachable(cfg, s)
    ensures var step := Confirm(r, signature, rpc, now); var t := Take(cfg, s, step).0;
            Pays(s, t, step, r) || Fails(s, t, step, r) || PaysNothing(s, t)
  {
    ConfirmPaysIff(cfg, s, r, signature, rpc, now);
    UnchangedPaysNothing(s);
  }

  lemma RecheckBooks(cfg: Config, s: State, r: string, signature: string, rpc: Rpc, now: Time)
    requires Sane(cfg) && Reachable(cfg, s)
    ensures var step := Recheck(r, signature, rpc, now); var t := Take(cfg, s, step).0;
            Pays(s, t, step, r) || Fails(s, t, step, r) || PaysNothing(s, t)
  {
    RecheckPaysIff(cfg, s, r, signature, rpc, now);
    UnchangedPaysNothing(s);
  }

  lemma DetectBooks(cfg: Config, s: State, reference: string, rpc: Rpc, now: Time)
    requires Sane(cfg) && Reachable(cfg, s)
    ensures var step, r := Detect(reference, rpc, now), TrimSpace(reference); var t := Take(cfg, s, step).0;
            Pays(s, t, step, r) || Fails(s, t, step, r) || PaysNothing(s, t)
  {
    DetectPaysIff(cfg, s, reference, rpc, now);
    UnchangedPaysNothing(s);
  }

  lemma SubmitBooks(cfg: Config, s: State, id: string, signature: string, header: string, rpc: Rpc, now: Time)
    requires Sane(cfg) && Reachable(cfg, s)
    ensures var step := SessionSubmit(id, signature, header, rpc, now); var t := Take(cfg, s, step).0;
            PaysNothing(s, t)
            || (id in s.sessions && (Pays(s, t, step, s.sessions[id].reference) || Fails(s, t, step, s.sessions[id].reference)))
  {
    var step := SessionSubmit(id, signature, header, rpc, now);
    var (t, reply) := V1SubmitSignature(cfg, s, id, signature, header, rpc, now);
    SubmitOutcome(cfg, s, id, signature, header, rpc, now);
    if MaySubmit(s, id, signature, TrimSpace(header)) {
      SubmittedBooks(cfg, s, t, reply, step, TrimSpace(signature));
    } else {
      UnchangedPaysNothing(s);
    }
  }

  lemma SubmittedBooks(cfg: Config, s: State, t: State, reply: Reply, step: Step, signature: string)
    requires step.SessionSubmit? && step.sessionId in s.sessions
    requires Submitted(cfg, s, t, reply, step.sessionId, signature, step.rpc, step.now)
    ensures var r := s.sessions[step.sessionId].reference; PaysNothing(s, t) || Pays(s, t, step, r) || Fails(s, t, step, r)
  {
    var r := s.sessions[step.sessionId].reference;
    if r !in s.redis {
      OneUnpaidSession(s, t, step.sessionId, Verifying);
    } else if !PaidAccordingTo(cfg, s, step.rpc, r, signature) {
      OneUnpaidSession(s, t, step.sessionId, SessionFailed);
    } else if Payable(s, r) {
      SubmissionPays(s, t, step, r, signature);
    } else {
      SubmissionFails(s, t, step, r, signature);
    }
  }

  lemma SubmissionFails(s: State, t: State, step: Step, r: string, signature: string)
    requires step.SessionSubmit? && step.sessionId in s.sessions && r == s.sessions[step.sessionId].reference
    requires OnlySession(s, t, step.sessionId, SessionFailed, None) && Unbooked(s, t, r, signature, "")
    ensures Fails(s, t, step, r)
  {
    OneUnpaidSession(s, t, step.sessionId, SessionFailed);
  }

  lemma SubmissionPays(s: State, t: State, step: Step, r: string, signature: string)
    requires step.SessionSubmit? && step.sessionId in s.sessions && r == s.sessions[step.sessionId].reference && Payable(s, r)
    requires OnlySession(s, t, step.sessionId, SessionPaid, Some(signature)) && Booked(s, t, r, signature, "", step.now)
    ensures Pays(s, t, step, r)
  {
  }

  lemma OneUnpaidSession(s: State, t: State, id: string, state: SessionState)
    requires OnlySession(s, t, id, state, None) && state != SessionPaid
    ensures NoneNewlyPaid(s.sessions, t.sessions)
    ensures SameBooks(s, t) ==> PaysNothing(s, t)
  {
    UnchangedPaysNothing(s);
  }

  lemma SessionDetectBooks(cfg: Config, s: State, id: string, rpc: Rpc, now: Time)
    requires Sane(cfg) && Reachable(cfg, s)
    ensures var step := SessionDetect(id, rpc, now); var t := Take(cfg, s, step).0;
            PaysNothing(s, t)
            || (id in s.sessions && (Pays(s, t, step, s.sessions[id].reference) || Fails(s, t, step, s.sessions[id].reference)))
  {
    UnchangedPaysNothing(s);
    if id in s.sessions {
      SessionDetectPaysIff(cfg, s, id, rpc, now);
    }
  }

  lemma RemoveEventPaysNothing(s: State, id: EventId, owner: string)
    ensures PaysNothing(s, DeleteEvent(s, id, owner).0)
  {
    UnchangedPaysNothing(s);
  }

  lemma EventStepsPayNothing(cfg: Config, s: State, step: Step)
    requires step.NewEvent? || step.EditEvent? || step.RemoveEvent?
    ensures PaysNothing(s, Take(cfg, s, step).0)
  {
    UnchangedPaysNothing(s);
    if step.RemoveEvent? {
      RemoveEventPaysNothing(s, step.id, step.owner);
    }
  }

  lemma OpenPaysNothing(s: State, r: string, invoice: Invoice)
    requires r !in s.issued && invoice.event in s.events
    ensures PaysNothing(s, Open(s, r, invoice))
  {
    UnchangedPaysNothing(s);
  }

  lemma CreateInvoicePaysNothing(cfg: Config, s: State, step: Step)
    requires step.CreateInvoice? && step.reference !in s.issued
    ensures PaysNothing(s, Take(cfg, s, step).0)
  {
    var t := Take(cfg, s, step).0;
    UnchangedPaysNothing(s);
    if t != s {
      OpenPaysNothing(s, step.reference, t.redis[step.reference]);
    }
  }

  /** A new session that is not paid changes nothing in the books. */
  lemma AddSessionPaysNothing(s: State, u: State, id: string, session: Session, owner: string, key: string, reply: Reply)
    requires PaysNothing(s, u) && session.state != SessionPaid
    ensures PaysNothing(s, SaveRecord(AddSession(u, id, session), owner, key, CreateSession, reply))
  {
    SavedShape(AddSession(u, id, session), owner, key, CreateSession, reply);
  }

  lemma SessionCreationPaysNothing(cfg: Config, s: State, owner: string, key: string, id: EventId, channel: string, wallet: string,
                                   p: Participant, formOk: bool, now: Time, sessionId: string, r: string)
    requires id in s.events && r !in s.issued
    ensures PaysNothing(s, OpenSession(cfg, s, owner, key, id, channel, wallet, p, formOk, now, sessionId, r).0)
  {
    UnchangedPaysNothing(s);
    var event := s.events[id];
    var invoice := Invoice(wallet, event.amount, id, event.merchant, channel, p);
    var session := Session(id, owner, p, wallet, channel, Awaiting, r, event.amount, cfg.mint, event.merchant, key, None,
                           now + 20 * MINUTE);
    OpenPaysNothing(s, r, invoice);
    AddSessionPaysNothing(s, Open(s, r, invoice), sessionId, session, owner, key,
                          SessionCreated(sessionId, r, channel, event.amount, cfg.mint, now + 20 * MINUTE));
  }

  lemma SessionCreatePaysNothing(cfg: Config, s: State, step: Step)
    requires step.SessionCreate? && step.reference !in s.issued
    ensures PaysNothing(s, Take(cfg, s, step).0)
  {
    UnchangedPaysNothing(s);
    var id := if step.eventId == 0 then EventBySlug(s, TrimSpace(step.slug)) else Some(step.eventId);
    if id.Some? && id.value in s.events {
      SessionCreationPaysNothing(cfg, s, OwnerOf(step.claims), TrimSpace(step.header), id.value, TrimSpace(step.payMethod),
                                 TrimSpace(step.wallet), step.participant, step.formOk, step.now, step.sessionId, step.reference);
    }
  }

  lemma CancelInvoicePaysNothing(cfg: Config, s: State, r: string)
    ensures PaysNothing(s, CancelCheckoutInvoice(cfg, s, r).0)
  {
    UnchangedPaysNothing(s);
  }

  lemma SessionCancelPaysNothing(s: State, id: string, header: string)
    ensures PaysNothing(s, V1CancelPaymentSession(s, id, header).0)
  {
    UnchangedPaysNothing(s);
    SessionCancelOutcome(s, id, header);
  }

  lemma ManualVerifyBooks(cfg: Config, s: State, slug: string, wallet: string, signature: string, p: Participant, rpc: Rpc,
                          now: Time, r: string)
    requires r !in s.checkouts
    ensures var step := ManualVerify(slug, wallet, signature, p, rpc, now, r); var t := Take(cfg, s, step).0;
            PaysDirectly(s, t, step) || PaysNothing(s, t)
  {
    UnchangedPaysNothing(s);
    ManualVerifyPaysIff(cfg, s, slug, wallet, signature, p, rpc, now, r);
  }

  lemma RecoverRowPaysNothing(cfg: Config, s: State, row: RecoveryRow, rpc: Rpc, now: Time)
    ensures PaysNothing(s, RecoverRow(cfg, s, row, rpc, now))
  {
    UnchangedPaysNothing(s);
  }

  lemma BackgroundPaysNothing(cfg: Config, s: State, step: Step)
    requires step.SweepSelect? || step.SweepRow? || step.Expire? || step.Grow?
    ensures PaysNothing(s, Take(cfg, s, step).0)
  {
    match step
    case SweepRow(row, rpc, now) => RecoverRowPaysNothing(cfg, s, row, rpc, now);
    case SweepSelect(_, _) => SameTablesPayNothing(s, Take(cfg, s, step).0);
    case Expire(_) => SameTablesPayNothing(s, Take(cfg, s, step).0);
    case Grow(_) => SameTablesPayNothing(s, Take(cfg, s, step).0);
  }

  /** Of an allowed step on a reachable state, one of the four is true. */
  lemma StepBooks(cfg: Config, s: State, step: Step)
    requires Sane(cfg) && Reachable(cfg, s) && Allowed(s, step)
    ensures var t := Take(cfg, s, step).0;
            (exists r :: Pays(s, t, step, r)) || (exists r :: Fails(s, t, step, r)) || PaysDirectly(s, t, step) || PaysNothing(s, t)
  {
    match step
    case Confirm(r, sig, rpc, now) => ConfirmBooks(cfg, s, r, sig, rpc, now);
    case Recheck(r, sig, rpc, now) => RecheckBooks(cfg, s, r, sig, rpc, now);
    case Detect(r, rpc, now) => DetectBooks(cfg, s, r, rpc, now);
    case SessionSubmit(id, sig, header, rpc, now) => SubmitBooks(cfg, s, id, sig, header, rpc, now);
    case SessionDetect(id, rpc, now) => SessionDetectBooks(cfg, s, id, rpc, now);
    case NewEvent(_, _, _, _, _, _, _) => EventStepsPayNothing(cfg, s, step);
    case EditEvent(_, _, _, _, _, _, _) => EventStepsPayNothing(cfg, s, step);
    case RemoveEvent(_, _) => EventStepsPayNothing(cfg, s, step);
    case CreateInvoice(_, _, _, _, _, _, _) => CreateInvoicePaysNothing(cfg, s, step);
    case SessionCreate(_, _, _, _, _, _, _, _, _, _, _) => SessionCreatePaysNothing(cfg, s, step);
    case CancelInvoice(r) => CancelInvoicePaysNothing(cfg, s, r);
    case SessionCancel(id, header) => SessionCancelPaysNothing(s, id, header);
    case ManualVerify(slug, wallet, sig, p, rpc, now, r) =>
      FreshIsNew(cfg, s);
      ManualVerifyBooks(cfg, s, slug, wallet, sig, p, rpc, now, r);
    case _ => BackgroundPaysNothing(cfg, s, step);
  }

  lemma FreshIsNew(cfg: Config, s: State)
    requires Sane(cfg) && Reachable(cfg, s)
    ensures forall r | r in s.checkouts :: r in s.issued
    ensures forall i | i in s.sessions :: i in s.issued
    ensures forall r | r in s.redis :: r in s.issued
  {
    ReachableIsInv(cfg, s);
    forall i | i in s.sessions
      ensures i in s.issued
    {
      assert SessionOk(i, s.sessions[i], s.attempts, s.stateLog, s.issued, s.origins, s.events);
    }
  }

  // What follows for the reference of a step

  /** What the four cases mean for one opened reference. */
  lemma OpenedReferenceBooks(cfg: Config, s: State, step: Step, r: string)
    requires Sane(cfg) && Reachable(cfg, s) && Allowed(s, step) && r !in s.checkouts
    requires var t := Take(cfg, s, step).0; r in t.checkouts && r in t.origins && t.origins[r].Opened?
    ensures Pays(s, Take(cfg, s, step).0, step, r)
  {
    var t := Take(cfg, s, step).0;
    StepBooks(cfg, s, step);
    NewOpenedIsPaid(s, t, step, r);
  }

  lemma NewOpenedIsPaid(s: State, t: State, step: Step, r: string)
    requires (exists q :: Pays(s, t, step, q)) || (exists q :: Fails(s, t, step, q)) || PaysDirectly(s, t, step) || PaysNothing(s, t)
    requires r !in s.checkouts && r in t.checkouts && r in t.origins && t.origins[r].Opened?
    ensures Pays(s, t, step, r)
  {
    if q :| Pays(s, t, step, q) {
      PaysOnlyOne(s, t, step, q, r);
    }
  }

  lemma PaysOnlyOne(s: State, t: State, step: Step, q: string, r: string)
    requires Pays(s, t, step, q) && r !in s.checkouts && r in t.checkouts
    ensures q == r
  {
    var signature, sender, now :| Booked(s, t, q, signature, sender, now);
  }

  lemma OpenedIsPaid(cfg: Config, s: State, r: string)
    requires Sane(cfg) && Reachable(cfg, s) && r in s.checkouts && r in s.origins && s.origins[r].Opened?
    ensures s.checkouts[r].status == Paid && s.checkouts[r].event == s.origins[r].invoice.event && s.checkouts[r].event in s.events
  {
    ReachableIsInv(cfg, s);
    RowFacts(cfg, s, r);
  }

  // From an invoice to its end

  /** A payment of the snapshot of an opened invoice, confirmed after any run, pays it if and only if the reference is still
      live, its event still there and its email still free; and what is then booked is the amount the event had at the
      opening, whatever the owner has changed since. */
  lemma OpenedIsPaidIff(cfg: Config, s: State, open: Step, id: EventId, steps: seq<Step>, signature: string, rpc: Rpc, now: Time)
    requires Sane(cfg) && Reachable(cfg, s) && AllowedRun(cfg, s, [open] + steps)
    requires open.CreateInvoice? && cfg.isReference(open.reference) && TrimSpace(open.slug) != ""
    requires EventBySlug(s, TrimSpace(open.slug)) == Some(id)
    requires Admissible(cfg, s, id, open.formOk, open.participant, TrimSpace(open.payMethod), TrimSpace(open.wallet), open.now)
    requires TrimSpace(signature) != "" && signature in rpc.transactions
    requires Accepts(cfg, rpc.transactions[signature], open.reference, s.events[id].amount, s.events[id].merchant)
    requires open.reference !in Run(cfg, s, [open] + steps).checkouts
    ensures var u, r := Run(cfg, s, [open] + steps), open.reference;
            var v := ConfirmCheckoutPayment(cfg, u, r, signature, rpc, now).0;
            && (IsPaid(v.checkouts, r) <==> r in u.redis && id in u.events && !EmailTaken(u.checkouts, id, r, open.participant))
            && (IsPaid(v.checkouts, r) ==>
                  var c := v.checkouts[r];
                  c.event == id && c.amount == s.events[id].amount && c.participant == open.participant
                  && c.signature == Some(signature))
  {
    var t := Take(cfg, s, open).0;
    assert ([open] + steps)[1..] == steps;
    StepReaches(cfg, s, open);
    ContinuationIsReachable(cfg, t, steps);
    InvoiceIsOpenedIff(cfg, s, open.slug, open.wallet, open.participant, open.formOk, open.payMethod, open.now, open.reference);
    LiveStays(cfg, t, steps, open.reference);
    ConfirmPaysIff(cfg, Run(cfg, t, steps), open.reference, signature, rpc, now);
  }

  lemma LiveStays(cfg: Config, s: State, steps: seq<Step>, r: string)
    requires Sane(cfg) && Reachable(cfg, s) && AllowedRun(cfg, s, steps) && r in s.redis
    ensures var u := Run(cfg, s, steps); r in u.redis ==> u.redis[r] == s.redis[r]
  {
    LiveIsOpened(cfg, s);
    ContinuationIsReachable(cfg, s, steps);
    var u := Continuation(cfg, s, steps);
    LiveIsOpened(cfg, u);
  }

  /** A cancelled reference is never live again, and its checkout, if it has one, stays as it is; so one that was not paid
      never will be. */
  lemma CancelledStaysDead(cfg: Config, s: State, r: string, steps: seq<Step>)
    requires Sane(cfg) && Reachable(cfg, s) && r in s.origins && s.origins[r].Opened? && cfg.isReference(TrimSpace(r))
    requires AllowedRun(cfg, CancelCheckoutInvoice(cfg, s, r).0, steps)
    ensures var u := Run(cfg, CancelCheckoutInvoice(cfg, s, r).0, steps);
            && r !in u.redis
            && (r in u.checkouts <==> r in s.checkouts) && (r in s.checkouts ==> u.checkouts[r] == s.checkouts[r])
  {
    var t := CancelCheckoutInvoice(cfg, s, r).0;
    StepReaches(cfg, s, CancelInvoice(r));
    CancelledReferenceIsDead(cfg, s, r);
    OriginsStay(cfg, s, CancelInvoice(r), r);
    if r in s.checkouts {
      OpenedIsPaid(cfg, s, r);
      PaidAfterStep(cfg, s, CancelInvoice(r), r);
    }
    var u := Continuation(cfg, t, steps);
  }

  // Orphaned invoice rows

  /** A paid invoice row of an opened reference has a checkout unless its event is gone. */
  ghost predicate NoOrphan(invoices: Invoices, checkouts: Checkouts, events: Events, r: string, invoice: Invoice) {
    r in invoices && invoices[r].status == InvoicePaid && r !in checkouts ==> invoice.event !in events
  }

  ghost predicate InvoicesBooked(invoices: Invoices, checkouts: Checkouts, events: Events, origins: Origins,
                                 issued: set<string>, nextEvent: EventId) {
    && (forall r | r in invoices :: r in issued)
    && (forall r | r in origins && origins[r].Opened? ::
          origins[r].invoice.event < nextEvent && NoOrphan(invoices, checkouts, events, r, origins[r].invoice))
  }

  ghost predicate BooksOk(s: State) {
    InvoicesBooked(s.invoices, s.checkouts, s.events, s.origins, s.issued, s.nextEvent)
  }

  /** What a step that undoes nothing keeps of the tables BooksOk reads. */
  ghost predicate Grows(s: State, t: State) {
    && s.issued <= t.issued && s.nextEvent <= t.nextEvent && Submap(s.origins, t.origins)
    && (forall r | r in t.origins :: r in t.issued)
    && (forall r | r in s.redis :: r in s.issued)
    && (forall r | r in s.checkouts && r in s.origins && s.origins[r].Opened? :: r in t.checkouts)
    && (forall e | e in s.events :: e < s.nextEvent)
  }

  lemma StepGrows(cfg: Config, s: State, step: Step)
    requires Sane(cfg) && Reachable(cfg, s) && Allowed(s, step)
    ensures Grows(s, Take(cfg, s, step).0)
  {
    ReachableIsInv(cfg, s);
    StepIsGood(cfg, s, step);
    OpenedRowsArePaid(cfg, s);
  }

  lemma PayingKeepsBooks(s: State, t: State, step: Step, r: string)
    requires BooksOk(s) && Grows(s, t) && Pays(s, t, step, r)
    ensures BooksOk(t)
  {
    var signature, sender, now :| Booked(s, t, r, signature, sender, now);
  }

  lemma FailingKeepsBooks(s: State, t: State, step: Step, r: string)
    requires BooksOk(s) && Grows(s, t) && Fails(s, t, step, r) && r !in s.checkouts
    requires r in s.origins && s.origins[r] == Opened(s.redis[r])
    ensures BooksOk(t)
  {
    var signature, sender :| Unbooked(s, t, r, signature, sender);
  }

  lemma DirectKeepsBooks(s: State, t: State, step: Step)
    requires BooksOk(s) && Grows(s, t) && PaysDirectly(s, t, step) && step.reference !in s.issued
    ensures BooksOk(t)
  {
    assert t.origins[step.reference] == Direct;
  }

  lemma NothingKeepsBooks(s: State, t: State)
    requires BooksOk(s) && Grows(s, t) && PaysNothing(s, t)
    ensures BooksOk(t)
  {
    forall r | r in t.origins && t.origins[r].Opened?
      ensures t.origins[r].invoice.event < t.nextEvent && NoOrphan(t.invoices, t.checkouts, t.events, r, t.origins[r].invoice)
    {
      if r in s.origins {
        assert NoOrphan(s.invoices, s.checkouts, s.events, r, s.origins[r].invoice);
      }
    }
  }

  lemma StepKeepsBooks(cfg: Config, s: State, step: Step)
    requires Sane(cfg) && Reachable(cfg, s) && Allowed(s, step) && BooksOk(s)
    ensures BooksOk(Take(cfg, s, step).0)
  {
    var t := Take(cfg, s, step).0;
    StepGrows(cfg, s, step);
    StepBooks(cfg, s, step);
    if r :| Pays(s, t, step, r) {
      PayingKeepsBooks(s, t, step, r);
    } else if r :| Fails(s, t, step, r) {
      LiveIsOpened(cfg, s);
      FailingKeepsBooks(s, t, step, r);
    } else if PaysDirectly(s, t, step) {
      DirectKeepsBooks(s, t, step);
    } else {
      NothingKeepsBooks(s, t);
    }
  }

  lemma LiveIsOpened(cfg: Config, s: State)
    requires Sane(cfg) && Reachable(cfg, s)
    ensures forall r | r in s.redis :: r !in s.checkouts && r in s.origins && s.origins[r] == Opened(s.redis[r])
  {
    ReachableIsInv(cfg, s);
  }

  lemma {:induction false} RunKeepsBooks(cfg: Config, s: State, steps: seq<Step>)
    requires Sane(cfg) && Reachable(cfg, s) && AllowedRun(cfg, s, steps) && BooksOk(s)
    ensures BooksOk(Run(cfg, s, steps))
    decreases steps
  {
    if steps != [] {
      StepKeepsBooks(cfg, s, steps[0]);
      StepReaches(cfg, s, steps[0]);
      RunKeepsBooks(cfg, Take(cfg, s, steps[0]).0, steps[1..]);
    }
  }

  lemma InitIsReachable(cfg: Config, s: State)
    requires Init(cfg, s)
    ensures Reachable(cfg, s) && BooksOk(s)
  {
    assert AllowedRun(cfg, s, []) && Run(cfg, s, []) == s;
  }

  /** In every reachable state the paid invoice row of an opened reference has no checkout if and only if the event it was
      opened for is gone. */
  lemma OrphanInvoiceIff(cfg: Config, s: State, r: string)
    requires Sane(cfg) && Reachable(cfg, s) && r in s.origins && s.origins[r].Opened?
    requires r in s.invoices && s.invoices[r].status == InvoicePaid
    ensures r !in s.checkouts <==> s.origins[r].invoice.event !in s.events
  {
    var s0, steps :| Init(cfg, s0) && AllowedRun(cfg, s0, steps) && s == Run(cfg, s0, steps);
    InitIsReachable(cfg, s0);
    RunKeepsBooks(cfg, s0, steps);
    assert NoOrphan(s.invoices, s.checkouts, s.events, r, s.origins[r].invoice);
    if r in s.checkouts {
      OpenedIsPaid(cfg, s, r);
    }
  }

  /** And such orphans arise: after its event is deleted, whichever of the three handlers verifies a payment of a live
      reference marks the invoice row paid, books no checkout and answers an error. */
  lemma DeletedEventLeavesPaidInvoice(cfg: Config, s: State, step: Step, r: string)
    requires Sane(cfg) && Reachable(cfg, s) && r in s.redis && cfg.isReference(r) && TrimSpace(r) == r
    requires s.redis[r].event !in s.events
    requires match step
             case Confirm(q, signature, rpc, _) => q == r && TrimSpace(signature) != "" && PaidAccordingTo(cfg, s, rpc, r, signature)
             case Recheck(q, signature, rpc, _) =>
               q == r && TrimSpace(signature) != "" && PaidAccordingTo(cfg, s, rpc, r, TrimSpace(signature))
             case Detect(q, rpc, _) => q == r && Detectable(cfg, rpc, r, s.redis[r].amount, s.redis[r].merchant)
             case _ => false
    ensures var (t, reply) := Take(cfg, s, step);
            && reply == Error(if step.Detect? then 400 else 500)
            && r in t.invoices && t.invoices[r].status == InvoicePaid && r !in t.checkouts && r in t.redis
  {
    LiveIsOpened(cfg, s);
    NoEmailWithoutEvent(cfg, s, s.redis[r].event, r, s.redis[r].participant);
    match step
    case Confirm(_, signature, rpc, now) => ConfirmPaysIff(cfg, s, r, signature, rpc, now);
    case Recheck(_, signature, rpc, now) => RecheckPaysIff(cfg, s, r, signature, rpc, now);
    case Detect(_, rpc, now) => DetectPaysIff(cfg, s, r, rpc, now);
  }

  lemma NoEmailWithoutEvent(cfg: Config, s: State, event: EventId, r: string, p: Participant)
    requires Sane(cfg) && Reachable(cfg, s) && event !in s.events
    ensures !EmailTaken(s.checkouts, event, r, p)
  {
    CheckoutsHaveEvents(cfg, s);
  }

  lemma CheckoutsHaveEvents(cfg: Config, s: State)
    requires Sane(cfg) && Reachable(cfg, s)
    ensures forall r | r in s.checkouts :: s.checkouts[r].event in s.events
  {
    ReachableIsInv(cfg, s);
  }

  // Paid references and unpaid sessions

  lemma SessionReferences(cfg: Config, s: State, id: string)
    requires Sane(cfg) && Reachable(cfg, s) && id in s.sessions
    ensures var r := s.sessions[id].reference;
            && r in s.origins && s.origins[r].Opened? && (r in s.checkouts ==> IsPaid(s.checkouts, r))
            && (s.sessions[id].state == SessionPaid ==> IsPaid(s.checkouts, r))
            && (forall j | j in s.sessions && s.sessions[j].reference == r :: j == id)
            && id in s.stateLog
  {
    ReachableIsInv(cfg, s);
    SessionFacts(cfg, s, id);
    var r := s.sessions[id].reference;
    if r in s.checkouts {
      RowFacts(cfg, s, r);
    }
  }

  /** When a step pays a session's reference, the session becomes paid exactly when the step was a submission to, or a
      detection for, that session. So the legacy handlers leave it unpaid. */
  lemma PaidTogetherIff(cfg: Config, s: State, step: Step, id: string)
    requires Sane(cfg) && Reachable(cfg, s) && Allowed(s, step) && id in s.sessions
    requires var r := s.sessions[id].reference; !IsPaid(s.checkouts, r) && IsPaid(Take(cfg, s, step).0.checkouts, r)
    ensures var t := Take(cfg, s, step).0;
            && id in t.sessions && t.sessions[id].reference == s.sessions[id].reference
            && (t.sessions[id].state == SessionPaid <==> (step.SessionSubmit? || step.SessionDetect?) && step.sessionId == id)
            && (!(step.SessionSubmit? || step.SessionDetect?) ==> step.Confirm? || step.Recheck? || step.Detect?)
  {
    var t, r := Take(cfg, s, step).0, s.sessions[id].reference;
    SessionReferences(cfg, s, id);
    OriginsStay(cfg, s, step, r);
    OpenedReferenceBooks(cfg, s, step, r);
  }

  lemma OriginsStay(cfg: Config, s: State, step: Step, r: string)
    requires Sane(cfg) && Reachable(cfg, s) && Allowed(s, step) && r in s.origins
    ensures r in Take(cfg, s, step).0.origins && Take(cfg, s, step).0.origins[r] == s.origins[r]
  {
    ReachableIsInv(cfg, s);
    StepIsGood(cfg, s, step);
  }

  /** A session only becomes paid while its reference is live. */
  lemma BecomingPaidNeedsLive(cfg: Config, s: State, step: Step, id: string)
    requires Sane(cfg) && Reachable(cfg, s) && Allowed(s, step) && id in s.sessions && s.sessions[id].state != SessionPaid
    requires var t := Take(cfg, s, step).0; id in t.sessions && t.sessions[id].state == SessionPaid
    ensures s.sessions[id].reference in s.redis
  {
    var t := Take(cfg, s, step).0;
    StepBooks(cfg, s, step);
    if r :| Pays(s, t, step, r) {
      PayingSession(s, t, step, r, id);
    }
  }

  lemma PayingSession(s: State, t: State, step: Step, r: string, id: string)
    requires Pays(s, t, step, r) && id in s.sessions && s.sessions[id].state != SessionPaid
    requires id in t.sessions && t.sessions[id].state == SessionPaid
    ensures s.sessions[id].reference in s.redis
  {
  }

  /** A session whose reference was paid without it is never paid, in any continuation. */
  lemma {:induction false} LeftBehindForever(cfg: Config, s: State, steps: seq<Step>, id: string)
    requires Sane(cfg) && Reachable(cfg, s) && AllowedRun(cfg, s, steps)
    requires id in s.sessions && IsPaid(s.checkouts, s.sessions[id].reference) && s.sessions[id].state != SessionPaid
    ensures var u := Run(cfg, s, steps);
            && IsPaid(u.checkouts, s.sessions[id].reference)
            && (id in u.sessions ==> u.sessions[id].reference == s.sessions[id].reference && u.sessions[id].state != SessionPaid)
    decreases steps
  {
    if steps != [] {
      var t, r := Take(cfg, s, steps[0]).0, s.sessions[id].reference;
      StepReaches(cfg, s, steps[0]);
      SessionAfterStep(cfg, s, steps[0], id);
      PaidAfterSteps(cfg, t, steps[1..], r);
      if id in t.sessions {
        if t.sessions[id].state == SessionPaid {
          BecomingPaidNeedsLive(cfg, s, steps[0], id);
          LiveIsOpened(cfg, s);
        }
        LeftBehindForever(cfg, t, steps[1..], id);
      } else {
        GoneForever(cfg, t, steps[1..], id);
      }
    }
  }

  lemma PaidAfterSteps(cfg: Config, s: State, steps: seq<Step>, r: string)
    requires Sane(cfg) && Reachable(cfg, s) && AllowedRun(cfg, s, steps) && IsPaid(s.checkouts, r)
    ensures IsPaid(Run(cfg, s, steps).checkouts, r)
  {
    PaidIsFinal(cfg, s, steps, r);
  }

  lemma SessionAfterStep(cfg: Config, s: State, step: Step, id: string)
    requires Sane(cfg) && Reachable(cfg, s) && Allowed(s, step) && id in s.sessions
    ensures var t := Take(cfg, s, step).0;
            && (id in t.sessions ==> t.sessions[id].reference == s.sessions[id].reference)
            && id in t.stateLog
            && (IsPaid(s.checkouts, s.sessions[id].reference) ==> IsPaid(t.checkouts, s.sessions[id].reference))
  {
    SessionReferences(cfg, s, id);
    ReachableIsInv(cfg, s);
    StepIsGood(cfg, s, step);
  }

  /** A session that is gone never comes back. */
  lemma GoneForever(cfg: Config, s: State, steps: seq<Step>, id: string)
    requires Sane(cfg) && Reachable(cfg, s) && AllowedRun(cfg, s, steps) && id in s.stateLog && id !in s.sessions
    ensures id !in Run(cfg, s, steps).sessions
  {
    var u := Continuation(cfg, s, steps);
  }

  // Emails

  /** A reference that a step finalizes had a free email just before. */
  lemma FinalizedWasFree(cfg: Config, s: State, step: Step, r: string)
    requires Sane(cfg) && Reachable(cfg, s) && Allowed(s, step) && r !in s.checkouts
    requires var t := Take(cfg, s, step).0; r in t.checkouts && r in t.origins && t.origins[r].Opened?
    ensures var c := Take(cfg, s, step).0.checkouts[r]; !EmailTaken(s.checkouts, c.event, r, c.participant)
  {
    OpenedReferenceBooks(cfg, s, step, r);
    PaidForItsParticipant(s, Take(cfg, s, step).0, step, r);
  }

  lemma PaidForItsParticipant(s: State, t: State, step: Step, r: string)
    requires Pays(s, t, step, r)
    ensures r in t.checkouts && !EmailTaken(s.checkouts, t.checkouts[r].event, r, t.checkouts[r].participant)
  {
    var signature, sender, now :| Booked(s, t, r, signature, sender, now);
  }

  /** Once a checkout with a guarded email is paid, no continuation finalizes another reference of its event for an
      address that Go compares equal, however that address is written. */
  lemma {:induction false} GuardedEmailIsUsedUp(cfg: Config, s: State, steps: seq<Step>, q: string, r: string)
    requires Sane(cfg) && Reachable(cfg, s) && AllowedRun(cfg, s, steps)
    requires IsPaid(s.checkouts, q) && Guarded(s.checkouts[q].participant) && r !in s.checkouts
    ensures var u := Run(cfg, s, steps);
            r in u.checkouts && r in u.origins && u.origins[r].Opened? && u.checkouts[r].event == s.checkouts[q].event ==>
              GoEmail(u.checkouts[r].participant) != GoEmail(s.checkouts[q].participant)
    decreases steps
  {
    if steps != [] {
      var t := Take(cfg, s, steps[0]).0;
      StepReaches(cfg, s, steps[0]);
      PaidAfterStep(cfg, s, steps[0], q);
      if r !in t.checkouts {
        GuardedEmailIsUsedUp(cfg, t, steps[1..], q, r);
      } else {
        NewRowStays(cfg, s, steps[0], steps[1..], r);
        if r in t.origins && t.origins[r].Opened? {
          FinalizedWasFree(cfg, s, steps[0], r);
          GuardedIsTaken(s.checkouts, q, r, t.checkouts[r]);
        }
      }
    }
  }

  lemma GuardedIsTaken(checkouts: Checkouts, q: string, r: string, c: Checkout)
    requires IsPaid(checkouts, q) && q != r && Guarded(checkouts[q].participant)
    requires !EmailTaken(checkouts, c.event, r, c.participant)
    ensures c.event == checkouts[q].event ==> GoEmail(c.participant) != GoEmail(checkouts[q].participant)
  {
  }

  lemma PaidAfterStep(cfg: Config, s: State, step: Step, q: string)
    requires Sane(cfg) && Reachable(cfg, s) && Allowed(s, step) && IsPaid(s.checkouts, q)
    ensures var t := Take(cfg, s, step).0; q in t.checkouts && t.checkouts[q] == s.checkouts[q]
  {
    ReachableIsInv(cfg, s);
    StepIsGood(cfg, s, step);
  }

  /** A row a step has added is final if its reference was opened, and its origin stays. */
  lemma NewRowStays(cfg: Config, s: State, step: Step, steps: seq<Step>, r: string)
    requires Sane(cfg) && Reachable(cfg, s) && Allowed(s, step) && r !in s.checkouts
    requires var t := Take(cfg, s, step).0; r in t.checkouts && AllowedRun(cfg, t, steps)
    ensures var t := Take(cfg, s, step).0; var u := Run(cfg, t, steps);
            && r in t.origins && r in u.origins && u.origins[r] == t.origins[r]
            && (t.origins[r].Opened? ==> r in u.checkouts && u.checkouts[r] == t.checkouts[r])
  {
    var t := Take(cfg, s, step).0;
    StepReaches(cfg, s, step);
    var u := Continuation(cfg, t, steps);
    RowFacts(cfg, t, r);
  }

  /** A live reference of an event whose stored emails are strings is paid by a signature that verifies if and only if
      no paid checkout of the event has a guarded address that Go compares equal. */
  lemma SecondIsPaidIffUnguarded(cfg: Config, s: State, r: string, signature: string, rpc: Rpc, now: Time)
    requires Sane(cfg) && Reachable(cfg, s) && r in s.redis && s.redis[r].event in s.events
    requires StringEmails(s.checkouts, s.redis[r].event)
    requires cfg.isReference(r) && TrimSpace(signature) != "" && PaidAccordingTo(cfg, s, rpc, r, signature)
    ensures var t := ConfirmCheckoutPayment(cfg, s, r, signature, rpc, now).0;
            && (IsPaid(t.checkouts, r) <==> !GuardedRival(s.checkouts, s.redis[r].event, r, s.redis[r].participant))
            && (IsPaid(t.checkouts, r) ==> t.checkouts == s.checkouts[r := t.checkouts[r]]
                                           && t.checkouts[r].event == s.redis[r].event
                                           && t.checkouts[r].participant == s.redis[r].participant)
    ensures r !in s.checkouts
  {
    LiveIsOpened(cfg, s);
    DuplicateRefusedIffGuarded(s.checkouts, s.redis[r].event, r, s.redis[r].participant);
    ConfirmPaysIff(cfg, s, r, signature, rpc, now);
  }

  /** For instance with a stored trailing blank: the event then has two paid checkouts for one address, whether or not the
      second one is written with a blank too. */
  lemma BlankEvadesGuard(cfg: Config, s: State, q: string, r: string, rest: string, text: string, signature: string, rpc: Rpc, now: Time)
    requires Sane(cfg) && Reachable(cfg, s) && IsPaid(s.checkouts, q) && r in s.redis && s.redis[r].event == s.checkouts[q].event
    requires s.checkouts[q].participant == Participant(Plain("a@b.c "), rest)
    requires (text == "a@b.c" || text == "a@b.c ") && s.redis[r].participant == Participant(Plain(text), rest)
    requires forall x | x in s.checkouts && x != q :: s.checkouts[x].event != s.redis[r].event || s.checkouts[x].status != Paid
    requires cfg.isReference(r) && TrimSpace(signature) != "" && PaidAccordingTo(cfg, s, rpc, r, signature)
    ensures var t := ConfirmCheckoutPayment(cfg, s, r, signature, rpc, now).0;
            && q != r && IsPaid(t.checkouts, q) && IsPaid(t.checkouts, r) && t.checkouts[q].event == t.checkouts[r].event
            && GoEmail(t.checkouts[q].participant) == GoEmail(t.checkouts[r].participant)
  {
    PaddedAddress();
    GuardedStrings(s.checkouts[q].participant);
    CheckoutsHaveEvents(cfg, s);
    SecondIsPaidIffUnguarded(cfg, s, r, signature, rpc, now);
  }

  lemma PaddedAddress()
    ensures TrimSpace("a@b.c ") == "a@b.c" && TrimSpace("a@b.c") == "a@b.c" && !Trimmed("a@b.c ")
  {
    assert "a@b.c "[..5] == "a@b.c";
    assert TrimLeft("a@b.c ") == "a@b.c ";
    assert TrimRight("a@b.c ") == TrimRight("a@b.c");
  }
}
