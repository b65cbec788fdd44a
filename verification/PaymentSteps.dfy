/** Every handler keeps the invariant and undoes nothing. */
module PaymentSteps {
  import opened Text
  import opened Transactions
  import opened Verifiers
  import opened PaymentState
  import opened PaymentHandlers
  import opened PaymentInvariants
  import opened PaymentEffects

  /** The node only answers with transactions that are on the chain. */
  ghost predicate Answers(rpc: Rpc, chain: Chain) {
    Submap(rpc.transactions, chain)
  }

  // Events

  lemma CreateEventIsGood(cfg: Config, s: State, owner: string, slug: string, dollars: int, merchant: string, expiresAt: Time,
                          walletEnabled: bool, qrEnabled: bool)
    requires Inv(cfg, s)
    ensures Good(cfg, s, CreateEvent(cfg, s, owner, slug, dollars, merchant, expiresAt, walletEnabled, qrEnabled).0)
  {
    PreservesItself(s);
    var t := CreateEvent(cfg, s, owner, slug, dollars, merchant, expiresAt, walletEnabled, qrEnabled).0;
    if t != s {
      assert s.nextEvent !in s.events;
      EventsWriteIsGood(cfg, s, t.events, t.slugs, t.nextEvent);
    }
  }

  lemma UpdateEventIsGood(cfg: Config, s: State, id: EventId, owner: string, dollars: int, merchant: string, expiresAt: Time,
                          walletEnabled: bool, qrEnabled: bool)
    requires Inv(cfg, s)
    ensures Good(cfg, s, UpdateEvent(cfg, s, id, owner, dollars, merchant, expiresAt, walletEnabled, qrEnabled).0)
  {
    PreservesItself(s);
    var t := UpdateEvent(cfg, s, id, owner, dollars, merchant, expiresAt, walletEnabled, qrEnabled).0;
    if t != s {
      EventsWriteIsGood(cfg, s, t.events, t.slugs, t.nextEvent);
    }
  }

  /** The cascade never reaches a paid checkout or a paid session. */
  lemma CascadeSparesPaid(cfg: Config, s: State, id: EventId)
    requires Inv(cfg, s) && !HasPaidDeposits(s.checkouts, id)
    ensures forall r | r in s.checkouts && s.checkouts[r].status == Paid :: s.checkouts[r].event != id
    ensures forall i | i in s.sessions && s.sessions[i].state == SessionPaid :: s.sessions[i].event != id
  {
    forall i | i in s.sessions && s.sessions[i].state == SessionPaid
      ensures s.sessions[i].event != id
    {
      var r := s.sessions[i].reference;
      assert SessionOk(i, s.sessions[i], s.attempts, s.stateLog, s.issued, s.origins, s.events);
      assert LedgerOk(s.sessions[i], s.attempts[i], s.redis, s.checkouts);
      assert CheckoutOk(cfg, r, s.checkouts[r], s.origins[r], s.events[s.checkouts[r].event], s.invoices, s.chain, s.selected);
      assert s.checkouts[r].event == s.sessions[i].event;
    }
  }

  lemma DeletedRows(cfg: Config, s: State, t: State, id: EventId, owner: string)
    requires Inv(cfg, s) && t == DeleteEvent(s, id, owner).0 && t != s
    ensures Fewer(s.checkouts, t.checkouts) && StaysPaid(s.checkouts, t.checkouts)
    ensures CheckoutsOk(cfg, t.checkouts, t.origins, t.events, t.invoices, t.chain, t.selected)
    ensures SelectedOk(t.selected, t.origins, t.checkouts) && EmailsOk(t.checkouts, t.origins)
    ensures LiveOk(t.redis, t.origins, t.checkouts)
    ensures StaysLocked(s.events, t.events, s.checkouts)
  {
    CascadeSparesPaid(cfg, s, id);
    PreservesItself(s);
    FewerSurvive(cfg, s, t.checkouts, t.origins);
    CheckoutsSurvive(cfg, t.checkouts, s.origins, s.events, s.invoices, s.chain, s.selected,
                     t.origins, t.events, t.invoices, t.chain, t.selected);
  }

  lemma DeletedSessions(s: State, t: State, id: EventId, owner: string)
    requires SessionsOk(s.sessions, s.attempts, s.stateLog, s.issued, s.origins, s.events) && ReferencesDistinct(s.sessions)
    requires RecordsOk(s.sessions, s.records)
    requires t == DeleteEvent(s, id, owner).0 && t != s
    ensures SessionsOk(t.sessions, t.attempts, t.stateLog, t.issued, t.origins, t.events) && ReferencesDistinct(t.sessions)
    ensures RecordsOk(t.sessions, t.records)
  {
    forall i | i in t.sessions
      ensures SessionOk(i, t.sessions[i], t.attempts, t.stateLog, t.issued, t.origins, t.events)
    {
      assert SessionOk(i, s.sessions[i], s.attempts, s.stateLog, s.issued, s.origins, s.events);
    }
  }

  lemma DeletedLedgers(s: State, t: State, id: EventId, owner: string)
    requires LedgersOk(s.sessions, s.attempts, s.redis, s.checkouts) && StaysPaid(s.checkouts, t.checkouts)
    requires t == DeleteEvent(s, id, owner).0 && t != s
    requires forall i | i in s.sessions && s.sessions[i].state == SessionPaid :: s.sessions[i].event != id
    ensures LedgersOk(t.sessions, t.attempts, t.redis, t.checkouts)
    ensures SessionsAdvance(s.sessions, t.sessions, s.attempts, t.attempts, s.stateLog)
  {
    forall i | i in t.sessions
      ensures i in t.attempts && LedgerOk(t.sessions[i], t.attempts[i], t.redis, t.checkouts)
    {
      assert LedgerOk(s.sessions[i], s.attempts[i], s.redis, s.checkouts);
    }
  }

  lemma DeleteEventIsGood(cfg: Config, s: State, id: EventId, owner: string)
    requires Inv(cfg, s)
    ensures Good(cfg, s, DeleteEvent(s, id, owner).0)
  {
    var t := DeleteEvent(s, id, owner).0;
    PreservesItself(s);
    if t != s {
      DeletedRows(cfg, s, t, id, owner);
      DeletedSessions(s, t, id, owner);
      CascadeSparesPaid(cfg, s, id);
      DeletedLedgers(s, t, id, owner);
    }
  }

  // Checkout

  lemma CreateCheckoutInvoiceIsGood(cfg: Config, s: State, slug: string, wallet: string, participant: Participant,
                                    formOk: bool, payMethod: string, now: Time, reference: string)
    requires Inv(cfg, s) && reference !in s.issued
    ensures Good(cfg, s, CreateCheckoutInvoice(cfg, s, slug, wallet, participant, formOk, payMethod, now, reference).0)
  {
    PreservesItself(s);
    var t := CreateCheckoutInvoice(cfg, s, slug, wallet, participant, formOk, payMethod, now, reference).0;
    if t != s {
      OpenIsGood(cfg, s, reference, t.redis[reference]);
    }
  }

  lemma CancelCheckoutInvoiceIsGood(cfg: Config, s: State, reference: string)
    requires Inv(cfg, s)
    ensures Good(cfg, s, CancelCheckoutInvoice(cfg, s, reference).0)
  {
    PreservesItself(s);
    var t := CancelCheckoutInvoice(cfg, s, reference).0;
    if t != s {
      var a := Abandon(s, reference);
      AbandonIsGood(cfg, s, reference);
      CancelledInvoicesAreKept(cfg, a, t.invoices);
      InvoiceWriteIsGood(cfg, a, t.invoices);
      assert t == a.(invoices := t.invoices);
      GoodIsTransitive(cfg, s, a, t);
    }
  }

  /** Only unsigned invoice rows are deleted, and a paid checkout's row is signed. */
  lemma CancelledInvoicesAreKept(cfg: Config, s: State, invoices: Invoices)
    requires Inv(cfg, s)
    requires forall r | r in s.invoices && s.invoices[r].signature.Some? :: r in invoices && invoices[r] == s.invoices[r]
    ensures KeepsInvoices(s.checkouts, s.origins, s.invoices, invoices)
  {
    forall r | r in s.checkouts && s.checkouts[r].status == Paid && r in s.origins && s.origins[r] != Legacy && r in s.invoices
      ensures r in invoices && invoices[r] == s.invoices[r]
    {
      assert CheckoutOk(cfg, r, s.checkouts[r], s.origins[r], s.events[s.checkouts[r].event], s.invoices, s.chain, s.selected);
    }
  }

  lemma GoodIsTransitive(cfg: Config, s: State, t: State, u: State)
    requires Inv(cfg, s) && Good(cfg, s, t) && Good(cfg, t, u)
    ensures Good(cfg, s, u)
  {
    LockIsTransitive(s.events, t.events, u.events, s.checkouts, t.checkouts);
    SessionsAdvanceTransitively(s.sessions, t.sessions, u.sessions, s.attempts, t.attempts, u.attempts, s.stateLog, t.stateLog);
    DeathIsTransitive(s, t, u);
    InvoicesAreKeptTransitively(s, t, u);
    GrowthIsTransitive(s, t, u);
  }

  lemma LockIsTransitive(events: Events, events': Events, events'': Events, checkouts: Checkouts, checkouts': Checkouts)
    requires StaysPaid(checkouts, checkouts') && StaysLocked(events, events', checkouts) && StaysLocked(events', events'', checkouts')
    ensures StaysLocked(events, events'', checkouts)
  {
    forall e | e in events && HasPaidDeposits(checkouts, e)
      ensures HasPaidDeposits(checkouts', e)
    {
      var r :| r in checkouts && checkouts[r].event == e && checkouts[r].status == Paid;
      assert checkouts'[r] == checkouts[r];
    }
  }

  lemma SessionsAdvanceTransitively(a: Sessions, b: Sessions, c: Sessions, x: Attempts, y: Attempts, z: Attempts, log: Logs, log': Logs)
    requires SessionsAdvance(a, b, x, y, log) && SessionsAdvance(b, c, y, z, log') && LogsGrow(log, log')
    requires forall i | i in a :: i in log
    ensures SessionsAdvance(a, c, x, z, log)
  {
  }

  lemma DeathIsTransitive(s: State, t: State, u: State)
    requires StaysDead(s.redis, t.redis, s.origins, s.checkouts, t.checkouts) && Submap(s.origins, t.origins)
    requires StaysDead(t.redis, u.redis, t.origins, t.checkouts, u.checkouts)
    ensures StaysDead(s.redis, u.redis, s.origins, s.checkouts, u.checkouts)
  {
  }

  lemma InvoicesAreKeptTransitively(s: State, t: State, u: State)
    requires KeepsInvoices(s.checkouts, s.origins, s.invoices, t.invoices) && Submap(s.origins, t.origins)
    requires KeepsInvoices(t.checkouts, t.origins, t.invoices, u.invoices) && StaysPaid(s.checkouts, t.checkouts)
    ensures KeepsInvoices(s.checkouts, s.origins, s.invoices, u.invoices)
  {
  }

  lemma GrowthIsTransitive(s: State, t: State, u: State)
    requires LogsGrow(s.stateLog, t.stateLog) && LogsGrow(t.stateLog, u.stateLog)
    requires StaysPaid(s.checkouts, t.checkouts) && StaysPaid(t.checkouts, u.checkouts)
    ensures LogsGrow(s.stateLog, u.stateLog) && StaysPaid(s.checkouts, u.checkouts)
  {
  }

  // Finalizing

  /** The duplicate check keeps guarded emails apart. */
  lemma EmailsStayApart(checkouts: Checkouts, origins: Origins, r: string, c: Checkout)
    requires EmailsOk(checkouts, origins) && r !in checkouts
    requires forall q | q in checkouts && q in origins && origins[q].Opened? :: checkouts[q].status == Paid
    requires !EmailTaken(checkouts, c.event, r, c.participant)
    ensures EmailsOk(checkouts[r := c], origins)
  {
    forall q | q in checkouts && q in origins && origins[q].Opened?
      ensures !SameGuardedEmail(c, checkouts[q]) && !SameGuardedEmail(checkouts[q], c)
    {
      assert checkouts[q].status == Paid;
    }
  }

  /** The event of a finalized row is paid only through that row, so the other tables are as before. */
  lemma FinalizedRow(s: State, reference: string, signature: string, invoice: Invoice, now: Time)
    requires reference !in s.checkouts && FinalizePaidCheckout(s, reference, signature, invoice, invoice.amount, now).1
    ensures var t := FinalizePaidCheckout(s, reference, signature, invoice, invoice.amount, now).0;
            && reference in t.checkouts && t == s.(checkouts := s.checkouts[reference := t.checkouts[reference]], invoices := t.invoices)
            && (forall r | r in s.invoices && r != reference :: r in t.invoices && t.invoices[r] == s.invoices[r])
            && var c := t.checkouts[reference];
            && Complete(c) && c.signature == Some(signature) && InvoicePaidWith(t.invoices, reference, c.signature)
            && c.event == invoice.event && c.amount == invoice.amount && c.participant == invoice.participant
            && c.event in s.events && !EmailTaken(s.checkouts, c.event, reference, c.participant)
  {
  }

  lemma RefusedFinalize(s: State, reference: string, signature: string, invoice: Invoice, now: Time)
    requires reference !in s.checkouts && !FinalizePaidCheckout(s, reference, signature, invoice, invoice.amount, now).1
    ensures var t := FinalizePaidCheckout(s, reference, signature, invoice, invoice.amount, now).0;
            t == s.(invoices := t.invoices) && KeepsInvoices(s.checkouts, s.origins, s.invoices, t.invoices)
  {
  }

  /** Finalizing a live reference whose payment verified: either it is refused, at most leaving an
      invoice row, or the reference becomes paid and dropping its live invoice restores the invariant. */
  lemma FinalizeIsGood(cfg: Config, s: State, reference: string, signature: string, invoice: Invoice, now: Time)
    requires Inv(cfg, s) && reference in s.redis
    requires invoice.(wallet := s.redis[reference].wallet) == s.redis[reference]
    requires PaidOnChain(cfg, s.chain, reference, signature, invoice.amount, invoice.merchant)
    ensures var (t, ok) := FinalizePaidCheckout(s, reference, signature, invoice, invoice.amount, now);
            if ok then
              && Good(cfg, s, DropInvoice(t, reference))
              && IsPaid(t.checkouts, reference) && t.checkouts[reference].signature == Some(signature)
            else Good(cfg, s, t)
  {
    var (t, ok) := FinalizePaidCheckout(s, reference, signature, invoice, invoice.amount, now);
    if ok {
      FinalizedRow(s, reference, signature, invoice, now);
      FinalizedIsGood(cfg, s, DropInvoice(t, reference), reference, t.checkouts[reference], invoice);
    } else {
      RefusedFinalize(s, reference, signature, invoice, now);
      InvoiceWriteIsGood(cfg, s, t.invoices);
    }
  }

  lemma FinalizedIsGood(cfg: Config, s: State, t: State, reference: string, c: Checkout, invoice: Invoice)
    requires Inv(cfg, s) && reference in s.redis && invoice.(wallet := s.redis[reference].wallet) == s.redis[reference]
    requires t == s.(checkouts := s.checkouts[reference := c], invoices := t.invoices, redis := s.redis - {reference})
    requires forall r | r in s.invoices && r != reference :: r in t.invoices && t.invoices[r] == s.invoices[r]
    requires Complete(c) && InvoicePaidWith(t.invoices, reference, c.signature)
    requires c.event == invoice.event && c.amount == invoice.amount && c.participant == invoice.participant
    requires c.event in s.events && !EmailTaken(s.checkouts, c.event, reference, c.participant)
    requires PaidOnChain(cfg, s.chain, reference, c.signature.value, c.amount, invoice.merchant)
    ensures Good(cfg, s, t)
  {
    var u := DropInvoice(s, reference);
    DropIsGood(cfg, s, reference);
    FinalizedPreserves(cfg, s, t, reference, c);
    assert reference !in s.checkouts && s.origins[reference] == Opened(s.redis[reference]);
    OpenedRowsArePaid(cfg, s);
    EmailsStayApart(s.checkouts, s.origins, reference, c);
    assert KeepsInvoices(u.checkouts, u.origins, u.invoices, t.invoices);
    CheckoutInsertIsGood(cfg, u, t, reference, c);
  }

  lemma FinalizedPreserves(cfg: Config, s: State, t: State, reference: string, c: Checkout)
    requires Inv(cfg, s) && reference in s.redis
    requires t == s.(checkouts := s.checkouts[reference := c], invoices := t.invoices, redis := s.redis - {reference})
    requires forall r | r in s.invoices && r != reference :: r in t.invoices && t.invoices[r] == s.invoices[r]
    ensures Preserves(s, t)
  {
    PreservesItself(s);
  }

  lemma OpenedRowsArePaid(cfg: Config, s: State)
    requires CheckoutsOk(cfg, s.checkouts, s.origins, s.events, s.invoices, s.chain, s.selected)
    ensures forall q | q in s.checkouts && q in s.origins && s.origins[q].Opened? :: s.checkouts[q].status == Paid
  {
    forall q | q in s.checkouts && q in s.origins && s.origins[q].Opened?
      ensures s.checkouts[q].status == Paid
    {
      assert CheckoutOk(cfg, q, s.checkouts[q], s.origins[q], s.events[s.checkouts[q].event], s.invoices, s.chain, s.selected);
    }
  }

  /** The merchant of a live invoice has no blanks to trim and is not empty. */
  lemma LiveMerchant(cfg: Config, s: State, reference: string)
    requires Sane(cfg) && OriginsOk(cfg, s.origins, s.issued) && LiveOk(s.redis, s.origins, s.checkouts) && reference in s.redis
    ensures TrimSpace(s.redis[reference].merchant) == s.redis[reference].merchant && reference !in s.checkouts
  {
    TrimmedIsFixed(s.redis[reference].merchant);
  }

  lemma VerifiedIsPaid(cfg: Config, rpc: Rpc, chain: Chain, reference: string, signature: string, amount: int, merchant: string)
    requires Answers(rpc, chain) && VerdictFor(cfg, rpc, reference, signature, amount, merchant).Accepted?
    ensures PaidOnChain(cfg, chain, reference, signature, amount, merchant)
  {
  }

  lemma ConfirmIsGood(cfg: Config, s: State, reference: string, signature: string, rpc: Rpc, now: Time)
    requires Sane(cfg) && Inv(cfg, s) && Answers(rpc, s.chain)
    ensures Good(cfg, s, ConfirmCheckoutPayment(cfg, s, reference, signature, rpc, now).0)
  {
    PreservesItself(s);
    var t := ConfirmCheckoutPayment(cfg, s, reference, signature, rpc, now).0;
    if t != s {
      LiveMerchant(cfg, s, reference);
      var invoice := s.redis[reference];
      if VerdictFor(cfg, rpc, reference, signature, invoice.amount, invoice.merchant).Accepted? {
        VerifiedIsPaid(cfg, rpc, s.chain, reference, signature, invoice.amount, invoice.merchant);
        FinalizeIsGood(cfg, s, reference, signature, invoice, now);
      } else {
        assert t == s.(invoices := t.invoices);
        InvoiceWriteIsGood(cfg, s, t.invoices);
      }
    }
  }

  lemma RecheckIsGood(cfg: Config, s: State, reference: string, signature: string, rpc: Rpc, now: Time)
    requires Sane(cfg) && Inv(cfg, s) && Answers(rpc, s.chain)
    ensures Good(cfg, s, RecheckCheckoutPayment(cfg, s, reference, signature, rpc, now).0)
  {
    PreservesItself(s);
    var t := RecheckCheckoutPayment(cfg, s, reference, signature, rpc, now).0;
    if t != s {
      LiveMerchant(cfg, s, reference);
      var invoice := s.redis[reference];
      VerifiedIsPaid(cfg, rpc, s.chain, reference, TrimSpace(signature), invoice.amount, invoice.merchant);
      FinalizeIsGood(cfg, s, reference, TrimSpace(signature), invoice, now);
    }
  }

  lemma DetectIsGood(cfg: Config, s: State, reference: string, rpc: Rpc, now: Time)
    requires Sane(cfg) && Inv(cfg, s) && Answers(rpc, s.chain)
    ensures Good(cfg, s, DetectCheckoutPayment(cfg, s, reference, rpc, now).0)
  {
    PreservesItself(s);
    var t, reference := DetectCheckoutPayment(cfg, s, reference, rpc, now).0, TrimSpace(reference);
    if t != s {
      LiveMerchant(cfg, s, reference);
      var invoice := s.redis[reference];
      var d := DetectFrom(cfg, rpc, reference, invoice.amount, invoice.merchant, 0);
      DetectionIsVerified(cfg, rpc, reference, invoice.amount, invoice.merchant, 0);
      VerifiedIsPaid(cfg, rpc, s.chain, reference, d.signature, invoice.amount, invoice.merchant);
      FinalizeIsGood(cfg, s, reference, d.signature, WithSender(invoice, d.sender), now);
    }
  }

  lemma ManualVerifyIsGood(cfg: Config, s: State, slug: string, wallet: string, signature: string,
                           participant: Participant, rpc: Rpc, now: Time, reference: string)
    requires Inv(cfg, s) && Answers(rpc, s.chain) && reference !in s.issued
    ensures Good(cfg, s, ManualVerifyCheckoutPayment(cfg, s, slug, wallet, signature, participant, rpc, now, reference).0)
  {
    PreservesItself(s);
    var t := ManualVerifyCheckoutPayment(cfg, s, slug, wallet, signature, participant, rpc, now, reference).0;
    if t != s {
      var c := t.checkouts[reference];
      assert t == AddDirect(s, reference, t.invoices[reference], c);
      assert PaidDirectlyOnChain(cfg, s.chain, c.signature.value, c.amount, s.events[c.event].merchant, c.wallet);
      AddDirectIsGood(cfg, s, reference, t.invoices[reference], c);
    }
  }

  lemma AddDirectPreserves(cfg: Config, s: State, reference: string, row: InvoiceRow, c: Checkout)
    requires Inv(cfg, s) && reference !in s.issued
    ensures Preserves(s, AddDirect(s, reference, row, c))
    ensures reference !in s.origins && reference !in s.redis && reference !in s.checkouts
  {
    PreservesItself(s);
    assert reference !in s.origins;
  }

  lemma AddDirectIsGood(cfg: Config, s: State, reference: string, row: InvoiceRow, c: Checkout)
    requires Inv(cfg, s) && reference !in s.issued && c.event in s.events
    requires Complete(c) && row.status == InvoicePaid && row.signature == c.signature
    requires PaidDirectlyOnChain(cfg, s.chain, c.signature.value, c.amount, s.events[c.event].merchant, c.wallet)
    ensures Good(cfg, s, AddDirect(s, reference, row, c))
  {
    var t := AddDirect(s, reference, row, c);
    AddDirectPreserves(cfg, s, reference, row, c);
    assert KeepsInvoices(s.checkouts, s.origins, s.invoices, t.invoices);
    assert OriginsOk(cfg, t.origins, t.issued);
    assert CheckoutOk(cfg, reference, c, Direct, s.events[c.event], t.invoices, s.chain, s.selected);
    CheckoutInsertIsGood(cfg, s, t, reference, c);
  }

  // Headless sessions

  lemma OpenSessionIsGood(cfg: Config, s: State, owner: string, key: string, id: EventId, payMethod: string, wallet: string,
                          participant: Participant, formOk: bool, now: Time, sessionId: string, reference: string)
    requires Inv(cfg, s) && id in s.events && reference !in s.issued && sessionId !in s.issued && sessionId != reference
    requires LoadRecord(s, owner, key, CreateSession) == None && Trimmed(key) && Trimmed(owner) && owner != ""
    ensures Good(cfg, s, OpenSession(cfg, s, owner, key, id, payMethod, wallet, participant, formOk, now, sessionId, reference).0)
  {
    PreservesItself(s);
    if OpeningError(cfg, s, id, formOk, participant, payMethod, wallet, now).None? {
      var event := s.events[id];
      var invoice := Invoice(wallet, event.amount, id, event.merchant, payMethod, participant);
      OpenIsGood(cfg, s, reference, invoice);
      if !KeyTaken(s.sessions, owner, key) {
        var session := Session(id, owner, participant, wallet, payMethod, Awaiting, reference, event.amount, cfg.mint,
                               event.merchant, key, None, now + 20 * MINUTE);
        var reply := OpenSession(cfg, s, owner, key, id, payMethod, wallet, participant, formOk, now, sessionId, reference).1;
        OpenedSessionIsGood(cfg, s, sessionId, session, invoice, reply);
      }
    }
  }

  lemma V1CreateIsGood(cfg: Config, s: State, claims: Option<string>, eventId: EventId, slug: string, payMethod: string, wallet: string,
                       participant: Participant, formOk: bool, header: string, now: Time, sessionId: string, reference: string)
    requires Inv(cfg, s) && reference !in s.issued && sessionId !in s.issued && sessionId != reference
    ensures Good(cfg, s, V1CreatePaymentSession(cfg, s, claims, eventId, slug, payMethod, wallet, participant, formOk, header, now,
                                                sessionId, reference).0)
  {
    PreservesItself(s);
    var id := if eventId == 0 then EventBySlug(s, TrimSpace(slug)) else Some(eventId);
    if id.Some? && id.value in s.events && LoadRecord(s, OwnerOf(claims), TrimSpace(header), CreateSession) == None {
      TrimSpaceIsTrimmed(header);
      OwnerIsTrimmed(claims);
      OpenSessionIsGood(cfg, s, OwnerOf(claims), TrimSpace(header), id.value, TrimSpace(payMethod), TrimSpace(wallet),
                        participant, formOk, now, sessionId, reference);
    }
  }

  lemma OwnerIsTrimmed(claims: Option<string>)
    ensures Trimmed(OwnerOf(claims)) && OwnerOf(claims) != ""
  {
    if claims.Some? {
      TrimSpaceIsTrimmed(claims.value);
    }
  }

  /** Saving the response and adding the session can be read in either order. */
  lemma SaveThenAdd(s: State, sessionId: string, session: Session, reply: Reply)
    requires Trimmed(session.key) && Trimmed(session.owner) && session.owner != ""
    ensures var t := SaveRecord(s, session.owner, session.key, CreateSession, reply);
            && SaveRecord(AddSession(s, sessionId, session), session.owner, session.key, CreateSession, reply)
               == AddSession(t, sessionId, session)
            && t == s.(records := t.records)
            && (session.key != "" ==> IdempotencyKey(session.owner, session.key, CreateSession) in t.records)
  {
    TrimmedIsFixed(session.key);
    TrimmedIsFixed(session.owner);
  }

  lemma OpenedSessionIsGood(cfg: Config, s: State, sessionId: string, session: Session, invoice: Invoice, reply: Reply)
    requires Inv(cfg, s) && session.reference !in s.issued && sessionId !in s.issued && sessionId != session.reference
    requires ValidWallet(cfg, invoice.merchant) && Copies(session, invoice)
    requires session.state == Awaiting && session.signature == None && session.event in s.events
    requires LoadRecord(s, session.owner, session.key, CreateSession) == None
    requires Trimmed(session.key) && Trimmed(session.owner) && session.owner != ""
    ensures Good(cfg, s, SaveRecord(AddSession(Open(s, session.reference, invoice), sessionId, session),
                                    session.owner, session.key, CreateSession, reply))
  {
    var u := Open(s, session.reference, invoice);
    OpenIsGood(cfg, s, session.reference, invoice);
    forall i | i in u.sessions
      ensures u.sessions[i].reference != session.reference
    {
      SessionFacts(cfg, s, i);
    }
    var v := SaveRecord(u, session.owner, session.key, CreateSession, reply);
    SaveIsGood(cfg, u, session.owner, session.key, CreateSession, reply);
    GoodIsTransitive(cfg, s, u, v);
    SaveThenAdd(u, sessionId, session, reply);
    SessionInsertIsGood(cfg, v, sessionId, session);
    GoodIsTransitive(cfg, s, v, AddSession(v, sessionId, session));
  }

  /** The log grows by a state of the same or a higher rank. */
  lemma ClimbOn(log: seq<SessionState>, last: SessionState, next: SessionState)
    requires Climbing(log) && LogEndsWith(log, last) && (last == next || Rank(last) < Rank(next))
    ensures Climbing(log + [next]) && LogEndsWith(log + [next], next)
  {
    assert forall i | 0 <= i < |log| - 1 :: log[i] == log[|log| - 1] || Rank(log[i]) < Rank(log[|log| - 1]);
  }

  /** What the invariant says of one session. */
  lemma SessionFacts(cfg: Config, s: State, id: string)
    requires Inv(cfg, s) && id in s.sessions
    ensures id in s.stateLog && id in s.attempts && Climbing(s.stateLog[id]) && LogEndsWith(s.stateLog[id], s.sessions[id].state)
    ensures LedgerOk(s.sessions[id], s.attempts[id], s.redis, s.checkouts)
    ensures s.sessions[id].owner != "" && Trimmed(s.sessions[id].owner)
    ensures var r := s.sessions[id].reference;
            && r in s.origins && s.origins[r].Opened? && Copies(s.sessions[id], s.origins[r].invoice)
            && (r in s.redis ==> s.redis[r] == s.origins[r].invoice)
  {
    assert SessionOk(id, s.sessions[id], s.attempts, s.stateLog, s.issued, s.origins, s.events);
  }

  /** A finalized reference settles the session that asked for it. */
  lemma PaySessionIsGood(cfg: Config, s: State, id: string, signature: string, log: seq<SessionState>)
    requires Inv(cfg, s) && id in s.sessions && id in s.attempts && id in s.stateLog
    requires s.sessions[id].state == Awaiting || s.sessions[id].state == SessionFailed
    requires s.stateLog[id] <= log && Climbing(log) && LogEndsWith(log, SessionPaid)
    requires IsPaid(s.checkouts, s.sessions[id].reference) && s.checkouts[s.sessions[id].reference].signature == Some(signature)
    ensures Good(cfg, s, s.(sessions := s.sessions[id := s.sessions[id].(state := SessionPaid, signature := Some(signature))],
                            attempts := s.attempts[id := s.attempts[id] + [Attempt(signature, AttemptPaid)]],
                            stateLog := s.stateLog[id := log]))
  {
    SessionFacts(cfg, s, id);
    AdvanceIsGood(cfg, s, id, s.sessions[id].(state := SessionPaid, signature := Some(signature)),
                  s.attempts[id] + [Attempt(signature, AttemptPaid)], log);
  }

  lemma FailSessionIsGood(cfg: Config, s: State, id: string, signature: string, log: seq<SessionState>)
    requires Inv(cfg, s) && id in s.sessions && id in s.attempts && id in s.stateLog
    requires s.sessions[id].state == Awaiting
    requires s.stateLog[id] <= log && Climbing(log) && LogEndsWith(log, SessionFailed)
    ensures Good(cfg, s, s.(sessions := s.sessions[id := s.sessions[id].(state := SessionFailed)],
                            attempts := s.attempts[id := s.attempts[id] + [Attempt(signature, AttemptFailed)]],
                            stateLog := s.stateLog[id := log]))
  {
    SessionFacts(cfg, s, id);
    AdvanceIsGood(cfg, s, id, s.sessions[id].(state := SessionFailed), s.attempts[id] + [Attempt(signature, AttemptFailed)], log);
  }

  lemma CancelledShape(s: State, id: string)
    requires id in s.sessions && id in s.attempts && id in s.stateLog
    ensures var a := Abandon(s, s.sessions[id].reference);
            Abandon(SetSessionState(s, id, Cancelled), s.sessions[id].reference)
            == a.(sessions := a.sessions[id := s.sessions[id].(state := Cancelled)], attempts := a.attempts[id := a.attempts[id]],
                  stateLog := a.stateLog[id := a.stateLog[id] + [Cancelled]])
  {
    assert s.attempts[id := s.attempts[id]] == s.attempts;
  }

  lemma CancelledIsGood(cfg: Config, s: State, id: string)
    requires Inv(cfg, s) && id in s.sessions && s.sessions[id].state != SessionPaid
    ensures Good(cfg, s, Abandon(SetSessionState(s, id, Cancelled), s.sessions[id].reference))
  {
    var a := Abandon(s, s.sessions[id].reference);
    AbandonIsGood(cfg, s, s.sessions[id].reference);
    SessionFacts(cfg, s, id);
    CancelledShape(s, id);
    DeadSessionIsGood(cfg, a, id);
    GoodIsTransitive(cfg, s, a, Abandon(SetSessionState(s, id, Cancelled), s.sessions[id].reference));
  }

  lemma DeadSessionIsGood(cfg: Config, s: State, id: string)
    requires Inv(cfg, s) && id in s.sessions && s.sessions[id].state != SessionPaid && s.sessions[id].reference !in s.redis
    requires id in s.stateLog && id in s.attempts
    ensures Good(cfg, s, s.(sessions := s.sessions[id := s.sessions[id].(state := Cancelled)],
                            attempts := s.attempts[id := s.attempts[id]],
                            stateLog := s.stateLog[id := s.stateLog[id] + [Cancelled]]))
  {
    SessionFacts(cfg, s, id);
    ClimbOn(s.stateLog[id], s.sessions[id].state, Cancelled);
    AdvanceIsGood(cfg, s, id, s.sessions[id].(state := Cancelled), s.attempts[id], s.stateLog[id] + [Cancelled]);
  }

  lemma V1CancelIsGood(cfg: Config, s: State, id: string, header: string)
    requires Inv(cfg, s)
    ensures Good(cfg, s, V1CancelPaymentSession(s, id, header).0)
  {
    PreservesItself(s);
    var t := V1CancelPaymentSession(s, id, header).0;
    if t != s {
      CancelledIsGood(cfg, s, id);
      var a := Abandon(SetSessionState(s, id, Cancelled), s.sessions[id].reference);
      SaveIsGood(cfg, a, s.sessions[id].owner, TrimSpace(header), CancelSession, Done);
      GoodIsTransitive(cfg, s, a, t);
    }
  }

  /** Finalizing and paying the session together. */
  lemma SettleIsGood(cfg: Config, s: State, id: string, signature: string, invoice: Invoice, now: Time, log: seq<SessionState>)
    requires Inv(cfg, s) && id in s.sessions && s.sessions[id].reference in s.redis
    requires var r := s.sessions[id].reference;
             && invoice.(wallet := s.redis[r].wallet) == s.redis[r]
             && PaidOnChain(cfg, s.chain, r, signature, invoice.amount, invoice.merchant)
             && FinalizePaidCheckout(s, r, signature, invoice, invoice.amount, now).1
    requires id in s.stateLog && id in s.attempts && s.stateLog[id] <= log && Climbing(log) && LogEndsWith(log, SessionPaid)
    ensures var r := s.sessions[id].reference;
            var t := DropInvoice(FinalizePaidCheckout(s, r, signature, invoice, invoice.amount, now).0, r);
            Good(cfg, s, t.(sessions := s.sessions[id := s.sessions[id].(state := SessionPaid, signature := Some(signature))],
                            attempts := s.attempts[id := s.attempts[id] + [Attempt(signature, AttemptPaid)]],
                            stateLog := s.stateLog[id := log]))
  {
    var r := s.sessions[id].reference;
    FinalizeIsGood(cfg, s, r, signature, invoice, now);
    var t := DropInvoice(FinalizePaidCheckout(s, r, signature, invoice, invoice.amount, now).0, r);
    SessionFacts(cfg, s, id);
    assert s.sessions[id].state == Awaiting || s.sessions[id].state == SessionFailed by {
      assert r !in s.checkouts;
    }
    PaySessionIsGood(cfg, t, id, signature, log);
    GoodIsTransitive(cfg, s, t, t.(sessions := s.sessions[id := s.sessions[id].(state := SessionPaid, signature := Some(signature))],
                                   attempts := s.attempts[id := s.attempts[id] + [Attempt(signature, AttemptPaid)]],
                                   stateLog := s.stateLog[id := log]));
  }

  /** The writes of a session's row, its attempts and its log, read together. */
  lemma PaidShape(s: State, t: State, id: string, signature: string, log: seq<SessionState>)
    requires id in s.sessions && id in s.attempts && id in s.stateLog && id in t.sessions
    requires t.sessions[id].(state := SessionPaid) == s.sessions[id].(state := SessionPaid)
    requires t == s.(sessions := s.sessions[id := t.sessions[id]], stateLog := s.stateLog[id := log])
    ensures PaySession(t, id, signature)
            == s.(sessions := s.sessions[id := s.sessions[id].(state := SessionPaid, signature := Some(signature))],
                  attempts := s.attempts[id := s.attempts[id] + [Attempt(signature, AttemptPaid)]],
                  stateLog := s.stateLog[id := log + [SessionPaid]])
  {
  }

  lemma FailedShape(s: State, t: State, id: string, signature: string, log: seq<SessionState>)
    requires id in s.sessions && id in s.attempts && id in s.stateLog && id in t.sessions
    requires t.sessions[id].(state := SessionFailed) == s.sessions[id].(state := SessionFailed)
    requires t == s.(sessions := s.sessions[id := t.sessions[id]], stateLog := s.stateLog[id := log])
    ensures FailSession(t, id, signature)
            == s.(sessions := s.sessions[id := s.sessions[id].(state := SessionFailed)],
                  attempts := s.attempts[id := s.attempts[id] + [Attempt(signature, AttemptFailed)]],
                  stateLog := s.stateLog[id := log + [SessionFailed]])
  {
  }

  lemma DetectedPaymentIsGood(cfg: Config, s: State, id: string, signature: string, invoice: Invoice, now: Time)
    requires Inv(cfg, s) && id in s.sessions && s.sessions[id].reference in s.redis
    requires var r := s.sessions[id].reference;
             && invoice.(wallet := s.redis[r].wallet) == s.redis[r]
             && PaidOnChain(cfg, s.chain, r, signature, invoice.amount, invoice.merchant)
             && FinalizePaidCheckout(s, r, signature, invoice, invoice.amount, now).1
    ensures var r := s.sessions[id].reference;
            var t := FinalizePaidCheckout(s, r, signature, invoice, invoice.amount, now).0;
            Good(cfg, s, DropInvoice(PaySession(t, id, signature), r))
  {
    SessionFacts(cfg, s, id);
    var r, log := s.sessions[id].reference, s.stateLog[id];
    ClimbOn(log, s.sessions[id].state, SessionPaid) by {
      assert r !in s.checkouts;
    }
    SettleIsGood(cfg, s, id, signature, invoice, now, log + [SessionPaid]);
    var u := FinalizePaidCheckout(s, r, signature, invoice, invoice.amount, now).0;
    SameRow(u, id);
    PaidShape(u, u, id, signature, log);
  }

  lemma SameRow(s: State, id: string)
    requires id in s.sessions && id in s.stateLog && id in s.attempts
    ensures s == s.(sessions := s.sessions[id := s.sessions[id]], stateLog := s.stateLog[id := s.stateLog[id]])
    ensures s.attempts == s.attempts[id := s.attempts[id]]
  {
    assert s.sessions == s.sessions[id := s.sessions[id]];
    assert s.stateLog == s.stateLog[id := s.stateLog[id]];
  }

  lemma V1DetectIsGood(cfg: Config, s: State, id: string, rpc: Rpc, now: Time)
    requires Inv(cfg, s) && Answers(rpc, s.chain)
    ensures Good(cfg, s, V1DetectPayment(cfg, s, id, rpc, now).0)
  {
    PreservesItself(s);
    var t := V1DetectPayment(cfg, s, id, rpc, now).0;
    if t != s {
      var session, r := s.sessions[id], s.sessions[id].reference;
      var d := DetectFrom(cfg, rpc, r, session.amount, session.merchant, 0);
      DetectionIsVerified(cfg, rpc, r, session.amount, session.merchant, 0);
      VerifiedIsPaid(cfg, rpc, s.chain, r, d.signature, session.amount, session.merchant);
      SessionDetectWithIsGood(cfg, s, id, d, now);
    }
  }

  lemma SessionDetectWithIsGood(cfg: Config, s: State, id: string, d: Detection, now: Time)
    requires Inv(cfg, s) && id in s.sessions && s.sessions[id].reference in s.redis && d.Found?
    requires PaidOnChain(cfg, s.chain, s.sessions[id].reference, d.signature, s.sessions[id].amount, s.sessions[id].merchant)
    ensures Good(cfg, s, SessionDetectWith(s, id, d, now).0)
  {
    SessionFacts(cfg, s, id);
    var r := s.sessions[id].reference;
    var invoice := WithSender(s.redis[r], d.sender);
    if FinalizePaidCheckout(s, r, d.signature, invoice, invoice.amount, now).1 {
      DetectedPaymentIsGood(cfg, s, id, d.signature, invoice, now);
    } else {
      FinalizeIsGood(cfg, s, r, d.signature, invoice, now);
    }
  }

  /** A failed submission, after finalizing left the tables as in s. */
  lemma FailedSubmitIsGood(cfg: Config, s: State, id: string, signature: string)
    requires Inv(cfg, s) && id in s.sessions && s.sessions[id].state == Awaiting
    ensures Good(cfg, s, FailSession(SetSessionState(s, id, Verifying), id, signature))
  {
    SessionFacts(cfg, s, id);
    var t, log := SetSessionState(s, id, Verifying), s.stateLog[id] + [Verifying];
    ClimbOn(s.stateLog[id], Awaiting, Verifying);
    ClimbOn(log, Verifying, SessionFailed);
    FailedShape(s, t, id, signature, log);
    FailSessionIsGood(cfg, s, id, signature, log + [SessionFailed]);
  }

  /** Finalizing neither reads nor writes sessions. */
  lemma FinalizeCommutes(s: State, id: string, r: string, signature: string, invoice: Invoice, now: Time)
    requires id in s.sessions
    ensures var (u, ok) := FinalizePaidCheckout(s, r, signature, invoice, invoice.amount, now);
            && u.sessions == s.sessions && u.attempts == s.attempts && u.stateLog == s.stateLog
            && FinalizePaidCheckout(SetSessionState(s, id, Verifying), r, signature, invoice, invoice.amount, now)
               == (SetSessionState(u, id, Verifying), ok)
  {
  }

  lemma PaidSubmitShape(s: State, id: string, signature: string, invoice: Invoice, now: Time)
    requires id in s.sessions && id in s.attempts && id in s.stateLog
    ensures var r := s.sessions[id].reference;
            var t := FinalizePaidCheckout(SetSessionState(s, id, Verifying), r, signature, invoice, invoice.amount, now).0;
            var u := DropInvoice(FinalizePaidCheckout(s, r, signature, invoice, invoice.amount, now).0, r);
            id in t.sessions
            && DropInvoice(PaySession(t, id, signature), r)
               == u.(sessions := s.sessions[id := s.sessions[id].(state := SessionPaid, signature := Some(signature))],
                     attempts := s.attempts[id := s.attempts[id] + [Attempt(signature, AttemptPaid)]],
                     stateLog := s.stateLog[id := s.stateLog[id] + [Verifying] + [SessionPaid]])
  {
    var r := s.sessions[id].reference;
    var u := FinalizePaidCheckout(s, r, signature, invoice, invoice.amount, now).0;
    FinalizeCommutes(s, id, r, signature, invoice, now);
    PaidShape(u, SetSessionState(u, id, Verifying), id, signature, s.stateLog[id] + [Verifying]);
  }

  lemma PaidLogClimbs(cfg: Config, s: State, id: string)
    requires Inv(cfg, s) && id in s.sessions && s.sessions[id].state == Awaiting
    ensures id in s.stateLog && id in s.attempts
    ensures var log := s.stateLog[id] + [Verifying] + [SessionPaid];
            s.stateLog[id] <= log && Climbing(log) && LogEndsWith(log, SessionPaid)
  {
    SessionFacts(cfg, s, id);
    ClimbOn(s.stateLog[id], Awaiting, Verifying);
    ClimbOn(s.stateLog[id] + [Verifying], Verifying, SessionPaid);
  }

  lemma PaidSubmitIsGood(cfg: Config, s: State, id: string, signature: string, invoice: Invoice, now: Time)
    requires Inv(cfg, s) && id in s.sessions && s.sessions[id].state == Awaiting && s.sessions[id].reference in s.redis
    requires var r := s.sessions[id].reference;
             && invoice == s.redis[r]
             && PaidOnChain(cfg, s.chain, r, signature, invoice.amount, invoice.merchant)
             && FinalizePaidCheckout(s, r, signature, invoice, invoice.amount, now).1
    ensures var r := s.sessions[id].reference;
            var t := FinalizePaidCheckout(SetSessionState(s, id, Verifying), r, signature, invoice, invoice.amount, now).0;
            Good(cfg, s, DropInvoice(PaySession(t, id, signature), r))
  {
    PaidLogClimbs(cfg, s, id);
    PaidSubmitShape(s, id, signature, invoice, now);
    SettleIsGood(cfg, s, id, signature, invoice, now, s.stateLog[id] + [Verifying] + [SessionPaid]);
  }

  lemma StalledSubmitIsGood(cfg: Config, s: State, id: string)
    requires Inv(cfg, s) && id in s.sessions && s.sessions[id].reference !in s.redis
    requires s.sessions[id].state == Awaiting || s.sessions[id].state == Verifying
    ensures Good(cfg, s, SetSessionState(s, id, Verifying))
  {
    SessionFacts(cfg, s, id);
    var log := s.stateLog[id] + [Verifying];
    ClimbOn(s.stateLog[id], s.sessions[id].state, Verifying);
    AdvanceIsGood(cfg, s, id, s.sessions[id].(state := Verifying), s.attempts[id], log);
    SameRow(s, id);
  }

  lemma SubmitIsGood(cfg: Config, s: State, id: string, signature: string, key: string, rpc: Rpc, now: Time)
    requires Inv(cfg, s) && Answers(rpc, s.chain) && id in s.sessions
    requires s.sessions[id].state == Awaiting || s.sessions[id].state == Verifying
    requires LoadRecord(s, s.sessions[id].owner, key, SubmitSignature) == None
    ensures Good(cfg, s, Submit(cfg, s, id, signature, key, rpc, now).0)
  {
    var session, r := s.sessions[id], s.sessions[id].reference;
    if r !in s.redis {
      StalledSubmitIsGood(cfg, s, id);
    } else {
      var verdict := VerdictFor(cfg, rpc, r, signature, session.amount, session.merchant);
      if verdict.Accepted? {
        VerifiedIsPaid(cfg, rpc, s.chain, r, signature, session.amount, session.merchant);
      }
      SubmitWithIsGood(cfg, s, id, signature, key, verdict, now);
    }
  }

  lemma SubmitWithIsGood(cfg: Config, s: State, id: string, signature: string, key: string, verdict: Verdict, now: Time)
    requires Inv(cfg, s) && id in s.sessions && s.sessions[id].reference in s.redis
    requires s.sessions[id].state == Awaiting || s.sessions[id].state == Verifying
    requires LoadRecord(s, s.sessions[id].owner, key, SubmitSignature) == None
    requires verdict.Accepted? ==>
               PaidOnChain(cfg, s.chain, s.sessions[id].reference, signature, s.sessions[id].amount, s.sessions[id].merchant)
    ensures Good(cfg, s, SubmitWith(SetSessionState(s, id, Verifying), id, signature, key, verdict, now).0)
  {
    SessionFacts(cfg, s, id);
    if verdict.Refused? {
      FailedSubmitIsGood(cfg, s, id, signature);
    } else {
      VerifiedSubmitIsGood(cfg, s, id, signature, key, now);
    }
  }

  lemma VerifiedSubmitIsGood(cfg: Config, s: State, id: string, signature: string, key: string, now: Time)
    requires Inv(cfg, s) && id in s.sessions && s.sessions[id].state == Awaiting && s.sessions[id].reference in s.redis
    requires LoadRecord(s, s.sessions[id].owner, key, SubmitSignature) == None
    requires var r := s.sessions[id].reference; var invoice := s.redis[r];
             PaidOnChain(cfg, s.chain, r, signature, invoice.amount, invoice.merchant)
    ensures var r := s.sessions[id].reference; var invoice := s.redis[r];
            var (t, ok) := FinalizePaidCheckout(SetSessionState(s, id, Verifying), r, signature, invoice, invoice.amount, now);
            if ok then
              Good(cfg, s, SaveRecord(DropInvoice(PaySession(t, id, signature), r), s.sessions[id].owner, key, SubmitSignature,
                                      StatusOf(t.checkouts, r)))
            else Good(cfg, s, FailSession(t, id, signature))
  {
    var r := s.sessions[id].reference;
    var invoice := s.redis[r];
    var (u, ok) := FinalizePaidCheckout(s, r, signature, invoice, invoice.amount, now);
    var t := FinalizePaidCheckout(SetSessionState(s, id, Verifying), r, signature, invoice, invoice.amount, now).0;
    if ok {
      PaidSubmitIsGood(cfg, s, id, signature, invoice, now);
      var v := DropInvoice(PaySession(t, id, signature), r);
      var reply := StatusOf(t.checkouts, r);
      SaveIsGood(cfg, v, s.sessions[id].owner, key, SubmitSignature, reply);
      GoodIsTransitive(cfg, s, v, SaveRecord(v, s.sessions[id].owner, key, SubmitSignature, reply));
    } else {
      FinalizeIsGood(cfg, s, r, signature, invoice, now);
      FailedSubmitIsGood(cfg, u, id, signature);
      FinalizeCommutes(s, id, r, signature, invoice, now);
      GoodIsTransitive(cfg, s, u, FailSession(t, id, signature));
    }
  }

  lemma V1SubmitIsGood(cfg: Config, s: State, id: string, signature: string, header: string, rpc: Rpc, now: Time)
    requires Inv(cfg, s) && Answers(rpc, s.chain)
    ensures Good(cfg, s, V1SubmitSignature(cfg, s, id, signature, header, rpc, now).0)
  {
    PreservesItself(s);
    var t := V1SubmitSignature(cfg, s, id, signature, header, rpc, now).0;
    if t != s {
      SubmitIsGood(cfg, s, id, TrimSpace(signature), TrimSpace(header), rpc, now);
    }
  }

  // The sweep, the chain and Redis

  lemma SelectIsGood(cfg: Config, s: State, rows: seq<RecoveryRow>, now: Time)
    requires Inv(cfg, s) && Selection(s.events, s.checkouts, now, rows)
    ensures Good(cfg, s, SelectRows(s, rows))
  {
    PreservesItself(s);
    var t := SelectRows(s, rows);
    CheckoutsSurvive(cfg, s.checkouts, s.origins, s.events, s.invoices, s.chain, s.selected,
                     s.origins, s.events, s.invoices, s.chain, t.selected);
    forall row | row in t.selected && row !in s.selected
      ensures row.reference in s.checkouts && s.origins[row.reference] == Legacy
    {
      var r := row.reference;
      assert CheckoutOk(cfg, r, s.checkouts[r], s.origins[r], s.events[s.checkouts[r].event], s.invoices, s.chain, s.selected);
    }
  }

  /** Rewriting the checkout of a legacy row that is not paid yet. */
  lemma LegacyWriteIsGood(cfg: Config, s: State, r: string, c: Checkout)
    requires Inv(cfg, s) && r in s.checkouts && s.origins[r] == Legacy && s.checkouts[r].status != Paid
    requires c.event == s.checkouts[r].event && c.amount == s.checkouts[r].amount && c.signature == s.checkouts[r].signature
    requires c.status == Paid ==> Complete(c) && Recovered(cfg, s.chain, s.selected, r, c)
    ensures Good(cfg, s, s.(checkouts := s.checkouts[r := c]))
  {
    PreservesItself(s);
    var checkouts := s.checkouts[r := c];
    assert StaysPaid(s.checkouts, checkouts);
    LedgersSurvive(s.sessions, s.attempts, s.redis, s.checkouts, s.attempts, s.redis, checkouts);
    RewrittenRows(cfg, s, checkouts, r);
  }

  lemma RewrittenRows(cfg: Config, s: State, checkouts: Checkouts, r: string)
    requires CheckoutsOk(cfg, s.checkouts, s.origins, s.events, s.invoices, s.chain, s.selected)
    requires SelectedOk(s.selected, s.origins, s.checkouts) && EmailsOk(s.checkouts, s.origins)
    requires r in s.checkouts && r in s.origins && s.origins[r] == Legacy && r in checkouts && checkouts == s.checkouts[r := checkouts[r]]
    requires var c := checkouts[r];
             && c.event == s.checkouts[r].event && c.amount == s.checkouts[r].amount && c.signature == s.checkouts[r].signature
             && (c.status == Paid ==> Complete(c) && Recovered(cfg, s.chain, s.selected, r, c))
    ensures CheckoutsOk(cfg, checkouts, s.origins, s.events, s.invoices, s.chain, s.selected)
    ensures SelectedOk(s.selected, s.origins, checkouts) && EmailsOk(checkouts, s.origins)
  {
  }

  /** One turn of the sweep, however long after its SELECT. */
  lemma RecoverRowIsGood(cfg: Config, s: State, row: RecoveryRow, rpc: Rpc, now: Time)
    requires Inv(cfg, s) && Answers(rpc, s.chain) && row in s.selected
    ensures Good(cfg, s, RecoverRow(cfg, s, row, rpc, now))
  {
    PreservesItself(s);
    var r := row.reference;
    if r in s.checkouts {
      var c := RecoverCheckout(cfg, s.checkouts[r], row, rpc, now);
      if s.checkouts[r].status == Paid {
        PaidIsNotRewritten(cfg, s, row, rpc, now);
        assert s.checkouts[r := c] == s.checkouts;
      } else {
        if c.status == Paid {
          VerifiedIsPaid(cfg, rpc, s.chain, r, row.signature, row.amount, row.merchant);
        }
        LegacyWriteIsGood(cfg, s, r, c);
      }
    }
  }

  lemma PaidIsNotRewritten(cfg: Config, s: State, row: RecoveryRow, rpc: Rpc, now: Time)
    requires Inv(cfg, s) && row in s.selected && row.reference in s.checkouts && s.checkouts[row.reference].status == Paid
    ensures RecoverCheckout(cfg, s.checkouts[row.reference], row, rpc, now) == s.checkouts[row.reference]
  {
    var r := row.reference;
    assert CheckoutOk(cfg, r, s.checkouts[r], s.origins[r], s.events[s.checkouts[r].event], s.invoices, s.chain, s.selected);
  }

  lemma GrowIsGood(cfg: Config, s: State, chain: Chain)
    requires Inv(cfg, s) && Submap(s.chain, chain)
    ensures Good(cfg, s, s.(chain := chain))
  {
    PreservesItself(s);
    CheckoutsSurvive(cfg, s.checkouts, s.origins, s.events, s.invoices, s.chain, s.selected,
                     s.origins, s.events, s.invoices, chain, s.selected);
  }
}
