/** What every run of the payment service guarantees. */
module PaymentTheorems {
  import opened Text
  import opened Transactions
  import opened Verifiers
  import opened PaymentState
  import opened PaymentHandlers
  import opened PaymentInvariants
  import opened PaymentEffects
  import opened PaymentSteps
  import opened PaymentRuns
  import opened PaymentOutcomes

  /** One turn from a reachable state leads to a reachable state. */
  lemma {:induction false} RunsCompose(cfg: Config, s: State, steps: seq<Step>, more: seq<Step>)
    requires AllowedRun(cfg, s, steps) && AllowedRun(cfg, Run(cfg, s, steps), more)
    ensures AllowedRun(cfg, s, steps + more) && Run(cfg, s, steps + more) == Run(cfg, Run(cfg, s, steps), more)
    decreases steps
  {
    if steps == [] {
      assert steps + more == more;
    } else {
      assert (steps + more)[1..] == steps[1..] + more;
      RunsCompose(cfg, Take(cfg, s, steps[0]).0, steps[1..], more);
    }
  }

  lemma ContinuationIsReachable(cfg: Config, s: State, steps: seq<Step>)
    requires Reachable(cfg, s) && AllowedRun(cfg, s, steps)
    ensures Reachable(cfg, Run(cfg, s, steps))
  {
    var s0, before :| Init(cfg, s0) && AllowedRun(cfg, s0, before) && s == Run(cfg, s0, before);
    RunsCompose(cfg, s0, before, steps);
  }

  /** A state and any continuation of it, with the facts the theorems below draw on. */
  lemma Continuation(cfg: Config, s: State, steps: seq<Step>) returns (u: State)
    requires Sane(cfg) && Reachable(cfg, s) && AllowedRun(cfg, s, steps)
    ensures u == Run(cfg, s, steps) && Inv(cfg, s) && Good(cfg, s, u)
  {
    u := Run(cfg, s, steps);
    ReachableIsInv(cfg, s);
    RunIsGood(cfg, s, steps);
  }

  lemma RowFacts(cfg: Config, s: State, r: string)
    requires Inv(cfg, s) && r in s.checkouts
    ensures r in s.origins && s.checkouts[r].event in s.events
    ensures CheckoutOk(cfg, r, s.checkouts[r], s.origins[r], s.events[s.checkouts[r].event], s.invoices, s.chain, s.selected)
  {
  }

  // Payments are real

  /** No reference has been added, and no sweep has read anything. */
  ghost predicate SameReferences(s: State, t: State) {
    t.origins == s.origins && t.selected == s.selected
  }

  ghost predicate SameEvents(s: State, t: State) {
    t.events == s.events && t.slugs == s.slugs && t.nextEvent == s.nextEvent
  }

  ghost predicate SameHistory(s: State, t: State) {
    && t.origins == s.origins && t.selected == s.selected
    && t.events == s.events && t.slugs == s.slugs && t.nextEvent == s.nextEvent
  }

  lemma FinalizeOpensNothing(s: State, r: string, signature: string, invoice: Invoice, amount: int, now: Time)
    ensures var t := FinalizePaidCheckout(s, r, signature, invoice, amount, now).0;
            SameHistory(s, t) && t.sessions == s.sessions
  {
  }

  lemma SettleOpensNothing(s: State, r: string, signature: string, invoice: Invoice, now: Time, code: nat)
    ensures SameHistory(s, Settle(s, r, signature, invoice, now, code).0)
  {
    FinalizeOpensNothing(s, r, signature, invoice, invoice.amount, now);
  }

  lemma ClosingOpensNothing(s: State, id: string, signature: string)
    requires id in s.sessions
    ensures SameHistory(s, FailSession(s, id, signature)) && SameHistory(s, PaySession(s, id, signature))
  {
  }

  lemma SavingOpensNothing(s: State, owner: string, key: string, endpoint: Endpoint, reply: Reply)
    ensures SameHistory(s, SaveRecord(s, owner, key, endpoint, reply))
  {
    SavedShape(s, owner, key, endpoint, reply);
  }

  lemma SubmitWithOpensNothing(s: State, id: string, signature: string, key: string, verdict: Verdict, now: Time)
    requires id in s.sessions && s.sessions[id].reference in s.redis
    ensures SameHistory(s, SubmitWith(s, id, signature, key, verdict, now).0)
  {
    var session := s.sessions[id];
    var t := FinalizePaidCheckout(s, session.reference, signature, s.redis[session.reference], session.amount, now).0;
    FinalizeOpensNothing(s, session.reference, signature, s.redis[session.reference], session.amount, now);
    ClosingOpensNothing(s, id, signature);
    ClosingOpensNothing(t, id, signature);
    SavingOpensNothing(DropInvoice(PaySession(t, id, signature), session.reference), session.owner, key, SubmitSignature,
                       StatusOf(t.checkouts, session.reference));
  }

  lemma SessionDetectWithOpensNothing(s: State, id: string, detection: Detection, now: Time)
    requires id in s.sessions && s.sessions[id].reference in s.redis
    ensures SameHistory(s, SessionDetectWith(s, id, detection, now).0)
  {
    if detection.Found? {
      var r := s.sessions[id].reference;
      var invoice := WithSender(s.redis[r], detection.sender);
      var t := FinalizePaidCheckout(s, r, detection.signature, invoice, s.sessions[id].amount, now).0;
      FinalizeOpensNothing(s, r, detection.signature, invoice, s.sessions[id].amount, now);
      ClosingOpensNothing(t, id, detection.signature);
    }
  }

  lemma ConfirmWithOpensNothing(s: State, r: string, signature: string, verdict: Verdict, now: Time)
    requires r in s.redis
    ensures SameHistory(s, ConfirmWith(s, r, signature, verdict, now).0)
  {
    SettleOpensNothing(s, r, signature, s.redis[r], now, 500);
  }

  lemma ConfirmOpensNothing(cfg: Config, s: State, r: string, signature: string, rpc: Rpc, now: Time)
    ensures SameHistory(s, ConfirmCheckoutPayment(cfg, s, r, signature, rpc, now).0)
  {
    if r in s.redis {
      var merchant := TrimSpace(s.redis[r].merchant);
      ConfirmWithOpensNothing(s, r, signature, VerdictFor(cfg, rpc, r, signature, s.redis[r].amount, merchant), now);
    }
  }

  lemma RecheckOpensNothing(cfg: Config, s: State, r: string, signature: string, rpc: Rpc, now: Time)
    ensures SameHistory(s, RecheckCheckoutPayment(cfg, s, r, signature, rpc, now).0)
  {
    if r in s.redis {
      SettleOpensNothing(s, r, TrimSpace(signature), s.redis[r], now, 500);
    }
  }

  lemma DetectWithOpensNothing(s: State, r: string, detection: Detection, now: Time)
    requires r in s.redis
    ensures SameHistory(s, DetectWith(s, r, detection, now).0)
  {
    if detection.Found? {
      SettleOpensNothing(s, r, detection.signature, WithSender(s.redis[r], detection.sender), now, 400);
    }
  }

  lemma DetectOpensNothing(cfg: Config, s: State, reference: string, rpc: Rpc, now: Time)
    ensures SameHistory(s, DetectCheckoutPayment(cfg, s, reference, rpc, now).0)
  {
    var r := TrimSpace(reference);
    if r in s.redis {
      DetectWithOpensNothing(s, r, DetectFrom(cfg, rpc, r, s.redis[r].amount, TrimSpace(s.redis[r].merchant), 0), now);
    }
  }

  lemma SubmitOpensNothing(cfg: Config, s: State, id: string, signature: string, key: string, rpc: Rpc, now: Time)
    requires id in s.sessions
    ensures SameHistory(s, Submit(cfg, s, id, signature, key, rpc, now).0)
  {
    var t, session := SetSessionState(s, id, Verifying), s.sessions[id];
    if session.reference in s.redis {
      SubmitWithOpensNothing(t, id, signature, key,
                             VerdictFor(cfg, rpc, session.reference, signature, session.amount, session.merchant), now);
    }
  }

  lemma SessionDetectOpensNothing(cfg: Config, s: State, id: string, rpc: Rpc, now: Time)
    ensures SameHistory(s, V1DetectPayment(cfg, s, id, rpc, now).0)
  {
    if id in s.sessions && s.sessions[id].reference in s.redis {
      var session := s.sessions[id];
      SessionDetectWithOpensNothing(s, id, DetectFrom(cfg, rpc, session.reference, session.amount, session.merchant, 0), now);
    }
  }

  lemma AbandoningOpensNothing(s: State, r: string)
    ensures SameHistory(s, Abandon(s, r))
  {
  }

  lemma CancelOpensNothing(s: State, id: string, header: string)
    ensures SameHistory(s, V1CancelPaymentSession(s, id, header).0)
  {
    if id in s.sessions {
      var a := SetSessionState(s, id, Cancelled);
      assert SameHistory(s, a);
      AbandoningOpensNothing(a, s.sessions[id].reference);
      SavingOpensNothing(Abandon(a, s.sessions[id].reference), s.sessions[id].owner, TrimSpace(header), CancelSession, Done);
    }
  }

  lemma V1SubmitOpensNothing(cfg: Config, s: State, id: string, signature: string, header: string, rpc: Rpc, now: Time)
    ensures SameHistory(s, V1SubmitSignature(cfg, s, id, signature, header, rpc, now).0)
  {
    if id in s.sessions {
      SubmitOpensNothing(cfg, s, id, TrimSpace(signature), TrimSpace(header), rpc, now);
    }
  }

  lemma DeletingOpensNothing(s: State, id: EventId, owner: string)
    ensures SameReferences(s, DeleteEvent(s, id, owner).0)
  {
  }

  lemma CreatingOpensNothing(cfg: Config, s: State, owner: string, slug: string, dollars: int, merchant: string, expiresAt: Time,
                             walletEnabled: bool, qrEnabled: bool)
    ensures SameReferences(s, CreateEvent(cfg, s, owner, slug, dollars, merchant, expiresAt, walletEnabled, qrEnabled).0)
  {
  }

  lemma EditingOpensNothing(cfg: Config, s: State, id: EventId, owner: string, dollars: int, merchant: string, expiresAt: Time,
                            walletEnabled: bool, qrEnabled: bool)
    ensures SameReferences(s, UpdateEvent(cfg, s, id, owner, dollars, merchant, expiresAt, walletEnabled, qrEnabled).0)
  {
  }

  lemma CancelInvoiceOpensNothing(cfg: Config, s: State, r: string)
    ensures SameHistory(s, CancelCheckoutInvoice(cfg, s, r).0)
  {
    if cfg.isReference(TrimSpace(r)) {
      var a := s.(invoices := CancelCheckoutInvoice(cfg, s, r).0.invoices);
      AbandoningOpensNothing(a, r);
      assert CancelCheckoutInvoice(cfg, s, r).0 == Abandon(a, r);
    }
  }

  lemma RecoveringOpensNothing(cfg: Config, s: State, row: RecoveryRow, rpc: Rpc, now: Time)
    ensures SameHistory(s, RecoverRow(cfg, s, row, rpc, now))
  {
  }

  /** Only the three creating handlers add references, and only a SELECT adds rows that sweeps have read. */
  lemma OthersOpenNothing(cfg: Config, s: State, step: Step)
    requires !step.CreateInvoice? && !step.SessionCreate? && !step.ManualVerify? && !step.SweepSelect?
    ensures SameReferences(s, Take(cfg, s, step).0)
    ensures !step.NewEvent? && !step.EditEvent? && !step.RemoveEvent? ==> SameEvents(s, Take(cfg, s, step).0)
  {
    match step
    case Confirm(r, sig, rpc, now) => ConfirmOpensNothing(cfg, s, r, sig, rpc, now);
    case Recheck(r, sig, rpc, now) => RecheckOpensNothing(cfg, s, r, sig, rpc, now);
    case Detect(r, rpc, now) => DetectOpensNothing(cfg, s, r, rpc, now);
    case SessionSubmit(id, sig, header, rpc, now) => V1SubmitOpensNothing(cfg, s, id, sig, header, rpc, now);
    case SessionCancel(id, header) => CancelOpensNothing(s, id, header);
    case SessionDetect(id, rpc, now) => SessionDetectOpensNothing(cfg, s, id, rpc, now);
    case NewEvent(owner, slug, dollars, merchant, expiresAt, w, q) =>
      CreatingOpensNothing(cfg, s, owner, slug, dollars, merchant, expiresAt, w, q);
    case EditEvent(id, owner, dollars, merchant, expiresAt, w, q) =>
      EditingOpensNothing(cfg, s, id, owner, dollars, merchant, expiresAt, w, q);
    case RemoveEvent(id, owner) => DeletingOpensNothing(s, id, owner);
    case CancelInvoice(r) => CancelInvoiceOpensNothing(cfg, s, r);
    case SweepRow(row, rpc, now) => RecoveringOpensNothing(cfg, s, row, rpc, now);
    case _ =>
  }

  ghost predicate Snapshot(s: State, t: State, r: string) {
    && t.selected == s.selected && SameEvents(s, t)
    && (|| t.origins == s.origins
        || (&& r in t.redis && t.origins == s.origins[r := Opened(t.redis[r])]
            && var invoice := t.redis[r];
            && invoice.event in s.events && invoice.amount == s.events[invoice.event].amount
            && invoice.merchant == s.events[invoice.event].merchant))
  }

  lemma OpenSessionSnapshot(cfg: Config, s: State, owner: string, key: string, id: EventId, payMethod: string, wallet: string,
                            participant: Participant, formOk: bool, now: Time, sessionId: string, r: string)
    requires id in s.events
    ensures Snapshot(s, OpenSession(cfg, s, owner, key, id, payMethod, wallet, participant, formOk, now, sessionId, r).0, r)
  {
    var t := OpenSession(cfg, s, owner, key, id, payMethod, wallet, participant, formOk, now, sessionId, r).0;
    if t != s {
      var event := s.events[id];
      var invoice := Invoice(wallet, event.amount, id, event.merchant, payMethod, participant);
      var session := Session(id, owner, participant, wallet, payMethod, Awaiting, r, event.amount, cfg.mint, event.merchant, key,
                             None, now + 20 * MINUTE);
      var reply := SessionCreated(sessionId, r, payMethod, event.amount, cfg.mint, now + 20 * MINUTE);
      AddingOpensNothing(Open(s, r, invoice), sessionId, session, owner, key, reply);
      assert Snapshot(s, Open(s, r, invoice), r);
    }
  }

  lemma AddingOpensNothing(s: State, id: string, session: Session, owner: string, key: string, reply: Reply)
    ensures var t := SaveRecord(AddSession(s, id, session), owner, key, CreateSession, reply);
            SameHistory(s, t) && t.redis == s.redis
  {
  }

  lemma CreateInvoiceSnapshot(cfg: Config, s: State, step: Step)
    requires step.CreateInvoice?
    ensures Snapshot(s, Take(cfg, s, step).0, step.reference)
  {
    var t := Take(cfg, s, step).0;
    InvoiceIsOpenedIff(cfg, s, step.slug, step.wallet, step.participant, step.formOk, step.payMethod, step.now, step.reference);
    if t != s {
      OpenSnapshot(s, step.reference, t.redis[step.reference]);
    }
  }

  lemma OpenSnapshot(s: State, r: string, invoice: Invoice)
    requires invoice.event in s.events
    requires invoice.amount == s.events[invoice.event].amount && invoice.merchant == s.events[invoice.event].merchant
    ensures Snapshot(s, Open(s, r, invoice), r)
  {
  }

  lemma SessionCreateSnapshot(cfg: Config, s: State, step: Step)
    requires step.SessionCreate?
    ensures Snapshot(s, Take(cfg, s, step).0, step.reference)
  {
    var id := if step.eventId == 0 then EventBySlug(s, TrimSpace(step.slug)) else Some(step.eventId);
    if id.Some? && id.value in s.events {
      OpenSessionSnapshot(cfg, s, OwnerOf(step.claims), TrimSpace(step.header), id.value, TrimSpace(step.payMethod),
                          TrimSpace(step.wallet), step.participant, step.formOk, step.now, step.sessionId, step.reference);
    }
  }

  /** At most the reference is added, as a direct one. */
  ghost predicate AddsDirect(s: State, t: State, r: string) {
    && t.selected == s.selected && SameEvents(s, t)
    && (t.origins == s.origins || t.origins == s.origins[r := Direct])
  }

  lemma AddingDirect(s: State, r: string, row: InvoiceRow, checkout: Checkout)
    ensures AddsDirect(s, AddDirect(s, r, row, checkout), r)
  {
  }

  lemma VerifyingAddsDirect(cfg: Config, s: State, slug: string, wallet: string, signature: string, p: Participant, rpc: Rpc,
                            now: Time, r: string)
    ensures AddsDirect(s, ManualVerifyCheckoutPayment(cfg, s, slug, wallet, signature, p, rpc, now, r).0, r)
  {
    var t := ManualVerifyCheckoutPayment(cfg, s, slug, wallet, signature, p, rpc, now, r).0;
    if t != s {
      AddingDirect(s, r, t.invoices[r], t.checkouts[r]);
    }
  }

  lemma ManualVerifyOpensDirect(cfg: Config, s: State, step: Step)
    requires step.ManualVerify?
    ensures AddsDirect(s, Take(cfg, s, step).0, step.reference)
  {
    VerifyingAddsDirect(cfg, s, step.slug, step.wallet, step.signature, step.participant, step.rpc, step.now, step.reference);
  }

  /** A reference is opened with the amount and merchant its event has at that moment. */
  lemma OpeningTakesSnapshot(cfg: Config, s: State, step: Step, r: string)
    requires var t := Take(cfg, s, step).0; r in t.origins && r !in s.origins && t.origins[r].Opened?
    ensures var t := Take(cfg, s, step).0; var invoice := t.origins[r].invoice;
            && r in t.redis && t.redis[r] == invoice
            && invoice.event in s.events && invoice.amount == s.events[invoice.event].amount
            && invoice.merchant == s.events[invoice.event].merchant
  {
    match step
    case SessionCreate(_, _, _, _, _, _, _, _, _, _, _) => SessionCreateSnapshot(cfg, s, step);
    case CreateInvoice(_, _, _, _, _, _, _) => CreateInvoiceSnapshot(cfg, s, step);
    case ManualVerify(_, _, _, _, _, _, _) => ManualVerifyOpensDirect(cfg, s, step);
    case SweepSelect(_, _) =>
    case _ => OthersOpenNothing(cfg, s, step);
  }

  // What sweeps have read

  lemma OthersSelectNothing(cfg: Config, s: State, step: Step)
    requires !step.SweepSelect?
    ensures Take(cfg, s, step).0.selected == s.selected
  {
    match step
    case SessionCreate(_, _, _, _, _, _, _, _, _, _, _) => SessionCreateSnapshot(cfg, s, step);
    case CreateInvoice(_, _, _, _, _, _, _) => CreateInvoiceSnapshot(cfg, s, step);
    case ManualVerify(_, _, _, _, _, _, _) => ManualVerifyOpensDirect(cfg, s, step);
    case _ => OthersOpenNothing(cfg, s, step);
  }

  /** The row describes its checkout and the event's merchant as they are now. */
  ghost predicate RowIsCurrent(events: Events, checkouts: Checkouts, row: RecoveryRow) {
    && row.reference in checkouts && row.event in events
    && row.merchant == events[row.event].merchant
    && var c := checkouts[row.reference];
    && c.event == row.event && c.signature == Some(row.signature) && c.amount == row.amount && c.wallet == row.wallet
  }

  /** A sweep reads a row only as it is at that moment, with the merchant its event then has. */
  lemma SelectingTakesMerchant(cfg: Config, s: State, step: Step, row: RecoveryRow)
    requires Allowed(s, step) && row !in s.selected && row in Take(cfg, s, step).0.selected
    ensures step.SweepSelect? && RowIsCurrent(s.events, s.checkouts, row)
  {
    if !step.SweepSelect? {
      OthersSelectNothing(cfg, s, step);
    }
  }

  /** Along a run, every row that was read was current at some moment of it. */
  lemma {:induction false} SelectedWasCurrent(cfg: Config, s: State, steps: seq<Step>, row: RecoveryRow) returns (k: nat)
    requires AllowedRun(cfg, s, steps) && row !in s.selected && row in Run(cfg, s, steps).selected
    ensures k <= |steps| && RowIsCurrent(Run(cfg, s, steps[..k]).events, Run(cfg, s, steps[..k]).checkouts, row)
    decreases steps
  {
    var t := Take(cfg, s, steps[0]).0;
    if row in t.selected {
      SelectingTakesMerchant(cfg, s, steps[0], row);
      k := 0;
    } else {
      var n := SelectedWasCurrent(cfg, t, steps[1..], row);
      k := n + 1;
      assert steps[..k][1..] == steps[1..][..n];
    }
  }

  /** The event had this merchant at some moment of a run that leads here. */
  ghost predicate HadMerchant(cfg: Config, s: State, event: EventId, merchant: string) {
    exists s0, steps, k: nat ::
      Init(cfg, s0) && AllowedRun(cfg, s0, steps) && s == Run(cfg, s0, steps) && k <= |steps|
      && event in Run(cfg, s0, steps[..k]).events && Run(cfg, s0, steps[..k]).events[event].merchant == merchant
  }

  lemma SelectedMerchantWasEvents(cfg: Config, s: State, row: RecoveryRow)
    requires Reachable(cfg, s) && row in s.selected
    ensures HadMerchant(cfg, s, row.event, row.merchant)
  {
    var s0, steps :| Init(cfg, s0) && AllowedRun(cfg, s0, steps) && s == Run(cfg, s0, steps);
    var k := SelectedWasCurrent(cfg, s0, steps, row);
  }

  /** Each paid checkout carries a signature whose transaction passes the verifier that belongs to the
      way it was paid: the snapshot's merchant and amount, the event's merchant for a manual
      transfer, and for a recovered row the merchant its event had when a sweep read the row. */
  lemma PaidWasVerified(cfg: Config, s: State, r: string)
    requires Sane(cfg) && Reachable(cfg, s) && IsPaid(s.checkouts, r)
    ensures r in s.origins && s.checkouts[r].signature.Some? && s.checkouts[r].event in s.events
    ensures var c := s.checkouts[r];
            match s.origins[r]
            case Opened(invoice) =>
              && c.event == invoice.event && c.amount == invoice.amount && c.participant == invoice.participant
              && PaidOnChain(cfg, s.chain, r, c.signature.value, invoice.amount, invoice.merchant)
            case Direct =>
              PaidDirectlyOnChain(cfg, s.chain, c.signature.value, c.amount, s.events[c.event].merchant, c.wallet)
            case Legacy =>
              exists row | row in s.selected ::
                row.reference == r && row.event == c.event && row.amount == c.amount
                && HadMerchant(cfg, s, c.event, row.merchant)
                && PaidOnChain(cfg, s.chain, r, c.signature.value, c.amount, row.merchant)
  {
    ReachableIsInv(cfg, s);
    RowFacts(cfg, s, r);
    if s.origins[r] == Legacy {
      var c := s.checkouts[r];
      var row := RecoveredRow(cfg, s, r);
      SelectedMerchantWasEvents(cfg, s, row);
    }
  }

  lemma RecoveredRow(cfg: Config, s: State, r: string) returns (row: RecoveryRow)
    requires Inv(cfg, s) && IsPaid(s.checkouts, r) && r in s.origins && s.origins[r] == Legacy
    ensures var c := s.checkouts[r];
            && row in s.selected && row.reference == r && row.event == c.event && row.amount == c.amount && c.signature.Some?
            && PaidOnChain(cfg, s.chain, r, c.signature.value, c.amount, row.merchant)
  {
    RowFacts(cfg, s, r);
    var c := s.checkouts[r];
    assert Recovered(cfg, s.chain, s.selected, r, c);
    row :| row in s.selected && row.reference == r && Some(row.signature) == c.signature && row.amount == c.amount
           && row.event == c.event && PaidOnChain(cfg, s.chain, r, row.signature, row.amount, row.merchant);
  }

  /** The copies held by Redis and by the session agree, so both families of handlers verify the same thing. */
  lemma CopiesAgree(cfg: Config, s: State, id: string)
    requires Sane(cfg) && Reachable(cfg, s) && id in s.sessions && s.sessions[id].reference in s.redis
    ensures var session := s.sessions[id]; var invoice := s.redis[session.reference];
            && session.amount == invoice.amount && session.merchant == invoice.merchant && session.event == invoice.event
            && session.participant == invoice.participant
            && TrimSpace(invoice.merchant) == session.merchant
  {
    ReachableIsInv(cfg, s);
    SessionFacts(cfg, s, id);
    LiveMerchant(cfg, s, s.sessions[id].reference);
  }

  // Payments are final

  lemma NeverLiveAndPaid(cfg: Config, s: State, r: string)
    requires Sane(cfg) && Reachable(cfg, s) && r in s.redis
    ensures r !in s.checkouts
  {
    ReachableIsInv(cfg, s);
  }

  /** Once paid, a checkout's row never changes, nor does its invoice row unless it was recovered. */
  lemma PaidIsFinal(cfg: Config, s: State, steps: seq<Step>, r: string)
    requires Sane(cfg) && Reachable(cfg, s) && AllowedRun(cfg, s, steps) && IsPaid(s.checkouts, r)
    ensures var u := Run(cfg, s, steps);
            && r in u.checkouts && u.checkouts[r] == s.checkouts[r]
            && r in s.origins
            && (s.origins[r] != Legacy ==>
                  && r in s.invoices && r in u.invoices && u.invoices[r] == s.invoices[r]
                  && u.invoices[r].status == InvoicePaid && u.invoices[r].signature == s.checkouts[r].signature)
  {
    var u := Continuation(cfg, s, steps);
    RowFacts(cfg, s, r);
  }

  // Sessions

  /** How often the state column took a new value. */
  function Changes(log: seq<SessionState>): nat {
    if |log| <= 1 then 0
    else (if log[|log| - 1] != log[|log| - 2] then 1 else 0) + Changes(log[..|log| - 1])
  }

  lemma {:induction false} ChangesWithinRank(log: seq<SessionState>)
    requires Climbing(log)
    ensures Changes(log) <= Rank(log[|log| - 1])
  {
    if |log| > 1 {
      var before := log[..|log| - 1];
      assert Climbing(before);
      ChangesWithinRank(before);
    }
  }

  /** In any run a session's state changes at most three times, counting every write of every handler,
      and the current state is the last value written. */
  lemma AtMostThreeChanges(cfg: Config, s: State, id: string)
    requires Sane(cfg) && Reachable(cfg, s) && id in s.stateLog
    ensures Changes(s.stateLog[id]) <= 3
    ensures id in s.sessions ==> LogEndsWith(s.stateLog[id], s.sessions[id].state)
  {
    ReachableIsInv(cfg, s);
    ChangesWithinRank(s.stateLog[id]);
    if id in s.sessions {
      SessionFacts(cfg, s, id);
    }
  }

  lemma LongerLogsEndHigher(log: seq<SessionState>, longer: seq<SessionState>, a: SessionState, b: SessionState)
    requires Climbing(longer) && log <= longer && LogEndsWith(log, a) && LogEndsWith(longer, b)
    ensures a == b || Rank(a) < Rank(b)
  {
    assert longer[|log| - 1] == a;
  }

  /** States only move up, and paid and cancelled are absorbing while the session exists. */
  lemma StatesOnlyClimb(cfg: Config, s: State, steps: seq<Step>, id: string)
    requires Sane(cfg) && Reachable(cfg, s) && AllowedRun(cfg, s, steps) && id in s.sessions
    ensures var u := Run(cfg, s, steps);
            && (id in u.sessions ==>
                  var a, b := s.sessions[id].state, u.sessions[id].state; a == b || Rank(a) < Rank(b))
            && (s.sessions[id].state == SessionPaid ==> id in u.sessions && u.sessions[id] == s.sessions[id])
  {
    var u := Continuation(cfg, s, steps);
    SessionFacts(cfg, s, id);
    if id in u.sessions {
      SessionFacts(cfg, u, id);
      LongerLogsEndHigher(s.stateLog[id], u.stateLog[id], s.sessions[id].state, u.sessions[id].state);
    }
  }

  /** A cancelled or stalled session's reference is dead: whatever its checkout is, it stays so. */
  lemma CancelSealsReference(cfg: Config, s: State, steps: seq<Step>, id: string)
    requires Sane(cfg) && Reachable(cfg, s) && AllowedRun(cfg, s, steps) && id in s.sessions
    requires s.sessions[id].state == Cancelled || s.sessions[id].state == Verifying
    ensures var u := Run(cfg, s, steps); var r := s.sessions[id].reference;
            && r !in u.redis
            && (r in u.checkouts <==> r in s.checkouts)
            && (r in s.checkouts ==> u.checkouts[r] == s.checkouts[r])
  {
    var u := Continuation(cfg, s, steps);
    SessionFacts(cfg, s, id);
    var r := s.sessions[id].reference;
    if r in s.checkouts {
      RowFacts(cfg, s, r);
    }
  }

  function Count(attempts: seq<Attempt>, status: AttemptStatus): nat {
    if attempts == [] then 0 else (if attempts[0].status == status then 1 else 0) + Count(attempts[1..], status)
  }

  ghost predicate LedgerAgrees(session: Session, attempts: seq<Attempt>, checkouts: Checkouts) {
    && Count(attempts, AttemptPaid) <= 1 && Count(attempts, AttemptFailed) <= 1
    && (session.state == SessionPaid <==> Count(attempts, AttemptPaid) == 1)
    && (session.state == SessionPaid <==> session.signature.Some?)
    && (session.state == SessionPaid ==>
          && Attempt(session.signature.value, AttemptPaid) in attempts
          && IsPaid(checkouts, session.reference)
          && checkouts[session.reference].signature == session.signature)
    && (Count(attempts, AttemptFailed) == 1 ==> session.state in {SessionFailed, Cancelled, SessionPaid})
  }

  lemma OneAttempt(a: Attempt, status: AttemptStatus)
    ensures Count([a], status) == if a.status == status then 1 else 0
  {
  }

  lemma LedgerCounts(session: Session, attempts: seq<Attempt>, redis: Redis, checkouts: Checkouts)
    requires LedgerOk(session, attempts, redis, checkouts)
    ensures LedgerAgrees(session, attempts, checkouts)
  {
    if |attempts| == 2 {
      assert attempts[1..] == [attempts[1]];
      OneAttempt(attempts[1], AttemptPaid);
      OneAttempt(attempts[1], AttemptFailed);
    } else if |attempts| == 1 {
      assert attempts == [attempts[0]];
    }
  }

  /** A session is paid exactly when it has exactly one paid attempt, whose signature is the session's
      and its paid checkout's; it has at most one failed attempt, and then it is failed, cancelled or paid. */
  lemma AttemptLedger(cfg: Config, s: State, id: string)
    requires Sane(cfg) && Reachable(cfg, s) && id in s.sessions
    ensures id in s.attempts && LedgerAgrees(s.sessions[id], s.attempts[id], s.checkouts)
  {
    ReachableIsInv(cfg, s);
    SessionFacts(cfg, s, id);
    LedgerCounts(s.sessions[id], s.attempts[id], s.redis, s.checkouts);
  }

  // Events

  ghost function PaidReferences(s: State, e: EventId): set<string> {
    set r | r in s.checkouts && s.checkouts[r].event == e && s.checkouts[r].status == Paid
  }

  /** Once an event has a paid checkout it is never edited or deleted, and it never loses a paid
      checkout or a paid session. */
  lemma PaidEventIsLocked(cfg: Config, s: State, steps: seq<Step>, e: EventId)
    requires Sane(cfg) && Reachable(cfg, s) && AllowedRun(cfg, s, steps) && HasPaidDeposits(s.checkouts, e)
    ensures e in s.events
    ensures var u := Run(cfg, s, steps);
            && e in u.events && u.events[e] == s.events[e]
            && PaidReferences(s, e) <= PaidReferences(u, e)
            && (forall id | id in s.sessions && s.sessions[id].event == e && s.sessions[id].state == SessionPaid ::
                  id in u.sessions && u.sessions[id] == s.sessions[id])
  {
    var u := Continuation(cfg, s, steps);
    var r :| r in s.checkouts && s.checkouts[r].event == e && s.checkouts[r].status == Paid;
    RowFacts(cfg, s, r);
  }

  // Emails

  /** Two finalized checkouts of one event with the same guarded email are the same checkout. */
  lemma OneCheckoutPerEmail(cfg: Config, s: State, q: string, r: string)
    requires Sane(cfg) && Reachable(cfg, s)
    requires IsPaid(s.checkouts, q) && IsPaid(s.checkouts, r) && q in s.origins && r in s.origins
    requires s.origins[q].Opened? && s.origins[r].Opened? && s.checkouts[q].event == s.checkouts[r].event
    requires Guarded(s.checkouts[q].participant) && Guarded(s.checkouts[r].participant)
    requires SqlEmail(s.checkouts[q].participant) == SqlEmail(s.checkouts[r].participant)
    ensures q == r
  {
    ReachableIsInv(cfg, s);
    assert SameGuardedEmail(s.checkouts[q], s.checkouts[r]);
  }

  /** For a string email, guarded means: no surrounding blanks, not empty, and not the text of a missing value. */
  lemma GuardedStrings(p: Participant)
    requires p.email.Plain?
    ensures Guarded(p) <==> Trimmed(p.email.text) && p.email.text != "" && Lower(p.email.text) != "<nil>"
  {
    var e := p.email.text;
    TrimSpaceIsTrimmed(e);
    TrimSpaceShortens(e);
    if Trimmed(e) {
      TrimmedIsFixed(e);
    }
  }

  /** The event has a paid checkout, not this one, whose address is guarded and equals this one as Go compares them. */
  ghost predicate GuardedRival(checkouts: Checkouts, event: EventId, r: string, p: Participant) {
    exists q | q in checkouts ::
      && q != r && checkouts[q].event == event && checkouts[q].status == Paid
      && GoEmail(checkouts[q].participant) == GoEmail(p) && Guarded(checkouts[q].participant)
  }

  ghost predicate StringEmails(checkouts: Checkouts, event: EventId) {
    forall q | q in checkouts && checkouts[q].event == event && checkouts[q].status == Paid :: !checkouts[q].participant.email.Other?
  }

  /** The duplicate check is exact: where stored emails are strings or missing, an address is refused if and only if one
      of the stored addresses that Go compares equal to it is guarded, whatever the new one looks like. */
  lemma DuplicateRefusedIffGuarded(checkouts: Checkouts, event: EventId, r: string, p: Participant)
    requires StringEmails(checkouts, event)
    ensures EmailTaken(checkouts, event, r, p) <==> GuardedRival(checkouts, event, r, p)
  {
    forall q | q in checkouts && !checkouts[q].participant.email.Other?
      ensures EmailApplies(p) && SqlEmail(checkouts[q].participant) == GoEmail(p)
         <==> GoEmail(checkouts[q].participant) == GoEmail(p) && Guarded(checkouts[q].participant)
    {
      ComparedInBothWays(checkouts[q].participant, p);
    }
  }

  lemma ComparedInBothWays(stored: Participant, p: Participant)
    requires !stored.email.Other?
    ensures EmailApplies(p) && SqlEmail(stored) == GoEmail(p) <==> GoEmail(stored) == GoEmail(p) && Guarded(stored)
  {
    if EmailApplies(p) && SqlEmail(stored) == GoEmail(p) && stored.email.Plain? {
      GoEmailIsTrimmed(p);
      LowerKeepsBlanks(stored.email.text);
      TrimmedIsFixed(stored.email.text);
    }
  }

  lemma GoEmailIsTrimmed(p: Participant)
    ensures Trimmed(GoEmail(p))
  {
    var text := match p.email case Missing => "<nil>" case Plain(t) => t case Other(g, _) => g;
    TrimSpaceIsTrimmed(text);
    LowerKeepsBlanks(TrimSpace(text));
  }

  lemma LowerKeepsBlanks(s: string)
    ensures Trimmed(Lower(s)) <==> Trimmed(s)
  {
    assert s != [] ==> Lower(s)[0] == LowerChar(s[0]) && Lower(s)[|s| - 1] == LowerChar(s[|s| - 1]);
  }

  // Idempotency

  /** A record is written once in any run. */
  lemma RecordsAreWrittenOnce(cfg: Config, s: State, steps: seq<Step>, k: IdempotencyKey)
    requires Sane(cfg) && Reachable(cfg, s) && AllowedRun(cfg, s, steps) && k in s.records
    ensures var u := Run(cfg, s, steps); k in u.records && u.records[k] == s.records[k]
  {
    var u := Continuation(cfg, s, steps);
  }

  lemma CreationIsRecorded(cfg: Config, s: State, owner: string, key: string, id: EventId, payMethod: string, wallet: string,
                           participant: Participant, formOk: bool, now: Time, sessionId: string, r: string)
    requires id in s.events && TrimSpace(owner) != "" && TrimSpace(key) != ""
    ensures var (t, reply) := OpenSession(cfg, s, owner, key, id, payMethod, wallet, participant, formOk, now, sessionId, r);
            var k := IdempotencyKey(owner, key, CreateSession);
            !reply.Error? ==> k in t.records && t.records[k] == reply
  {
  }

  lemma FirstCreateIsRecorded(cfg: Config, s: State, first: Step)
    requires first.SessionCreate? && TrimSpace(first.header) != ""
    ensures var (t, reply) := Take(cfg, s, first);
            var k := IdempotencyKey(OwnerOf(first.claims), TrimSpace(first.header), CreateSession);
            !reply.Error? ==> k in t.records && t.records[k] == reply
  {
    var id := if first.eventId == 0 then EventBySlug(s, TrimSpace(first.slug)) else Some(first.eventId);
    KeyIsUsable(first.claims, first.header);
    if id.Some? && id.value in s.events {
      CreationIsRecorded(cfg, s, OwnerOf(first.claims), TrimSpace(first.header), id.value, TrimSpace(first.payMethod),
                         TrimSpace(first.wallet), first.participant, first.formOk, first.now, first.sessionId, first.reference);
    }
  }

  lemma KeyIsUsable(claims: Option<string>, header: string)
    requires TrimSpace(header) != ""
    ensures TrimSpace(OwnerOf(claims)) != "" && TrimSpace(TrimSpace(header)) != ""
  {
    TrimSpaceIsTrimmed(header);
    TrimmedIsFixed(TrimSpace(header));
    OwnerIsTrimmed(claims);
    TrimmedIsFixed(OwnerOf(claims));
  }

  lemma RecordedCreateIsReplayed(cfg: Config, s: State, again: Step)
    requires again.SessionCreate? && TrimSpace(again.header) != ""
    requires IdempotencyKey(OwnerOf(again.claims), TrimSpace(again.header), CreateSession) in s.records
    ensures Take(cfg, s, again) == (s, s.records[IdempotencyKey(OwnerOf(again.claims), TrimSpace(again.header), CreateSession)])
  {
    KeyIsUsable(again.claims, again.header);
  }

  /** After a session was created under a key, every later creation under that key, whatever else it
      asks for, gives the same reply and changes nothing. */
  lemma CreateIsReplayed(cfg: Config, s: State, first: Step, steps: seq<Step>, again: Step, owner: string)
    requires Sane(cfg) && Reachable(cfg, s) && first.SessionCreate? && Allowed(s, first) && again.SessionCreate?
    requires TrimSpace(first.header) == TrimSpace(again.header) && TrimSpace(first.header) != ""
    requires CallerIs(first.claims, owner) && CallerIs(again.claims, owner)
    requires !Take(cfg, s, first).1.Error?
    requires AllowedRun(cfg, Take(cfg, s, first).0, steps)
    ensures var (t, reply) := Take(cfg, s, first); var u := Run(cfg, t, steps); Take(cfg, u, again) == (u, reply)
  {
    var t := Take(cfg, s, first).0;
    FirstCreateIsRecorded(cfg, s, first);
    StepReaches(cfg, s, first);
    RecordsAreWrittenOnce(cfg, t, steps, IdempotencyKey(OwnerOf(first.claims), TrimSpace(first.header), CreateSession));
    RecordedCreateIsReplayed(cfg, Run(cfg, t, steps), again);
  }

  lemma StepReaches(cfg: Config, s: State, step: Step)
    requires Reachable(cfg, s) && Allowed(s, step)
    ensures Reachable(cfg, Take(cfg, s, step).0)
  {
    var t := Take(cfg, s, step).0;
    assert [step][1..] == [];
    assert AllowedRun(cfg, t, []) && Run(cfg, t, []) == t;
    assert AllowedRun(cfg, s, [step]) && Run(cfg, s, [step]) == t;
    ContinuationIsReachable(cfg, s, [step]);
  }

  lemma OwnersAreUsable(cfg: Config, s: State, id: string)
    requires Sane(cfg) && Reachable(cfg, s) && id in s.sessions
    ensures TrimSpace(s.sessions[id].owner) != ""
  {
    ReachableIsInv(cfg, s);
    SessionFacts(cfg, s, id);
    TrimmedIsFixed(s.sessions[id].owner);
  }

  lemma FirstSubmitIsRecorded(cfg: Config, s: State, first: Step)
    requires first.SessionSubmit? && TrimSpace(TrimSpace(first.header)) != "" && !Take(cfg, s, first).1.Error?
    requires first.sessionId in s.sessions && TrimSpace(s.sessions[first.sessionId].owner) != ""
    ensures var (t, reply) := Take(cfg, s, first);
            var k := IdempotencyKey(s.sessions[first.sessionId].owner, TrimSpace(first.header), SubmitSignature);
            k in t.records && t.records[k] == reply
  {
    SubmissionIsRecorded(cfg, s, first.sessionId, TrimSpace(first.signature), TrimSpace(first.header), first.rpc, first.now);
  }

  /** The answer, unless an error, is on record under the key. */
  ghost predicate OnRecord(answer: (State, Reply), k: IdempotencyKey) {
    !answer.1.Error? ==> k in answer.0.records && answer.0.records[k] == answer.1
  }

  lemma SubmissionIsRecorded(cfg: Config, s: State, id: string, signature: string, key: string, rpc: Rpc, now: Time)
    requires id in s.sessions && TrimSpace(key) != "" && TrimSpace(s.sessions[id].owner) != ""
    ensures OnRecord(Submit(cfg, s, id, signature, key, rpc, now), IdempotencyKey(s.sessions[id].owner, key, SubmitSignature))
  {
    var session, a := s.sessions[id], SetSessionState(s, id, Verifying);
    if session.reference in s.redis {
      var verdict := VerdictFor(cfg, rpc, session.reference, signature, session.amount, session.merchant);
      assert a.sessions[id].owner == session.owner && a.redis == s.redis;
      SettledSubmissionIsRecorded(a, id, signature, key, verdict, now);
    }
  }

  lemma SettledSubmissionIsRecorded(s: State, id: string, signature: string, key: string, verdict: Verdict, now: Time)
    requires id in s.sessions && s.sessions[id].reference in s.redis && TrimSpace(key) != "" && TrimSpace(s.sessions[id].owner) != ""
    ensures OnRecord(SubmitWith(s, id, signature, key, verdict, now), IdempotencyKey(s.sessions[id].owner, key, SubmitSignature))
  {
  }

  lemma FirstCancelIsRecorded(cfg: Config, s: State, first: Step)
    requires first.SessionCancel? && TrimSpace(TrimSpace(first.header)) != "" && !Take(cfg, s, first).1.Error?
    requires first.sessionId in s.sessions && TrimSpace(s.sessions[first.sessionId].owner) != ""
    ensures var (t, reply) := Take(cfg, s, first);
            var k := IdempotencyKey(s.sessions[first.sessionId].owner, TrimSpace(first.header), CancelSession);
            k in t.records && t.records[k] == reply
  {
  }

  /** Likewise for submitting a signature: any later submission under the key, for any session of the owner that
      still exists, gives the recorded reply and changes nothing; only one without a signature is refused first. */
  lemma SubmitIsReplayed(cfg: Config, s: State, first: Step, steps: seq<Step>, again: Step)
    requires Sane(cfg) && Reachable(cfg, s) && first.SessionSubmit? && Allowed(s, first) && again.SessionSubmit?
    requires TrimSpace(first.header) == TrimSpace(again.header) && TrimSpace(first.header) != ""
    requires !Take(cfg, s, first).1.Error? && first.sessionId in s.sessions
    requires AllowedRun(cfg, Take(cfg, s, first).0, steps)
    requires var u := Run(cfg, Take(cfg, s, first).0, steps);
             again.sessionId in u.sessions && u.sessions[again.sessionId].owner == s.sessions[first.sessionId].owner
    ensures var (t, reply) := Take(cfg, s, first); var u := Run(cfg, t, steps);
            Take(cfg, u, again) == (u, if TrimSpace(again.signature) == "" then Error(400) else reply)
  {
    var t := Take(cfg, s, first).0;
    OwnersAreUsable(cfg, s, first.sessionId);
    KeyIsUsable(None, first.header);
    FirstSubmitIsRecorded(cfg, s, first);
    StepReaches(cfg, s, first);
    RecordsAreWrittenOnce(cfg, t, steps, IdempotencyKey(s.sessions[first.sessionId].owner, TrimSpace(first.header), SubmitSignature));
  }

  /** And for cancelling. */
  lemma CancelIsReplayed(cfg: Config, s: State, first: Step, steps: seq<Step>, again: Step)
    requires Sane(cfg) && Reachable(cfg, s) && first.SessionCancel? && again.SessionCancel?
    requires TrimSpace(first.header) == TrimSpace(again.header) && TrimSpace(first.header) != ""
    requires !Take(cfg, s, first).1.Error? && first.sessionId in s.sessions
    requires AllowedRun(cfg, Take(cfg, s, first).0, steps)
    requires var u := Run(cfg, Take(cfg, s, first).0, steps);
             again.sessionId in u.sessions && u.sessions[again.sessionId].owner == s.sessions[first.sessionId].owner
    ensures var (t, reply) := Take(cfg, s, first); var u := Run(cfg, t, steps); Take(cfg, u, again) == (u, reply)
  {
    var t := Take(cfg, s, first).0;
    OwnersAreUsable(cfg, s, first.sessionId);
    KeyIsUsable(None, first.header);
    FirstCancelIsRecorded(cfg, s, first);
    StepReaches(cfg, s, first);
    RecordsAreWrittenOnce(cfg, t, steps, IdempotencyKey(s.sessions[first.sessionId].owner, TrimSpace(first.header), CancelSession));
  }

  /** How a creation ends that passes every check. */
  lemma CheckedCreation(cfg: Config, s: State, owner: string, key: string, id: EventId, payMethod: string, wallet: string,
                        participant: Participant, formOk: bool, now: Time, sessionId: string, r: string)
    requires id in s.events && OpeningError(cfg, s, id, formOk, participant, payMethod, wallet, now).None? && sessionId !in s.sessions
    ensures var (t, reply) := OpenSession(cfg, s, owner, key, id, payMethod, wallet, participant, formOk, now, sessionId, r);
            && (reply.Error? <==> KeyTaken(s.sessions, owner, key))
            && r in t.redis
            && (if reply.Error? then t.sessions == s.sessions else sessionId in t.sessions && t.sessions[sessionId].reference == r)
  {
    AdmissibleIsChecked(cfg, s, id, formOk, participant, payMethod, wallet, now);
    SessionIsCreatedIff(cfg, s, owner, key, id, payMethod, wallet, participant, formOk, now, sessionId, r);
  }

  /** A creation that passes every check still fails exactly when it carries no key and the owner already
      has a session without one; it then leaves a live invoice that belongs to no session. */
  lemma KeylessCollision(cfg: Config, s: State, owner: string, key: string, id: EventId, payMethod: string, wallet: string,
                         participant: Participant, formOk: bool, now: Time, sessionId: string, r: string)
    requires Sane(cfg) && Reachable(cfg, s) && id in s.events && r !in s.issued && sessionId !in s.issued && sessionId != r
    requires OpeningError(cfg, s, id, formOk, participant, payMethod, wallet, now).None?
    requires TrimSpace(owner) != "" && Trimmed(key) && LoadRecord(s, owner, key, CreateSession).None?
    ensures var (t, reply) := OpenSession(cfg, s, owner, key, id, payMethod, wallet, participant, formOk, now, sessionId, r);
            && (reply.Error? <==> key == "" && exists i :: i in s.sessions && s.sessions[i].owner == owner && s.sessions[i].key == "")
            && r in t.redis
            && (if reply.Error?
                then t.sessions == s.sessions && forall i | i in t.sessions :: t.sessions[i].reference != r
                else sessionId in t.sessions && t.sessions[sessionId].reference == r)
  {
    ReachableIsInv(cfg, s);
    TrimmedIsFixed(key);
    forall i | i in s.sessions
      ensures s.sessions[i].reference != r && i in s.issued
    {
      SessionFacts(cfg, s, i);
      assert SessionOk(i, s.sessions[i], s.attempts, s.stateLog, s.issued, s.origins, s.events);
    }
    CheckedCreation(cfg, s, owner, key, id, payMethod, wallet, participant, formOk, now, sessionId, r);
  }
}
