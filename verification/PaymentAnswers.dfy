/** What payers are told: every payment is reported as it was booked, at once and ever after. */
module PaymentAnswers {
  import opened Text
  import opened Transactions
  import opened Verifiers
  import opened PaymentState
  import opened PaymentHandlers
  import opened PaymentInvariants
  import opened PaymentSteps
  import opened PaymentRuns
  import opened PaymentTheorems
  import opened PaymentOutcomes
  import opened PaymentBooks
  import opened PaymentEvents

  /** The step asks how r stands: a recheck or a detection of it, or a detection for a paid session of it. */
  ghost predicate AsksFor(cfg: Config, s: State, ask: Step, r: string) {
    match ask
    case Recheck(q, _, _, _) => q == r && cfg.isReference(TrimSpace(r))
    case Detect(q, _, _) => TrimSpace(q) == r && cfg.isReference(r)
    case SessionDetect(id, _, _) => id in s.sessions && s.sessions[id].reference == r && s.sessions[id].state == SessionPaid
    case _ => false
  }

  lemma AskingReports(cfg: Config, s: State, ask: Step, r: string)
    requires Sane(cfg) && Reachable(cfg, s) && IsPaid(s.checkouts, r) && AsksFor(cfg, s, ask, r)
    ensures var (t, reply) := Take(cfg, s, ask); t == s && ReportsPaid(reply, r, s.checkouts[r])
  {
    match ask
    case Recheck(q, signature, rpc, now) => RecheckPaysIff(cfg, s, q, signature, rpc, now);
    case Detect(q, rpc, now) => DetectPaysIff(cfg, s, q, rpc, now);
    case SessionDetect(id, rpc, now) => SessionDetectPaysIff(cfg, s, id, rpc, now);
  }

  /** Once paid, a checkout is reported as paid, with the signature, participant and channel booked for it, in every
      continuation, and asking changes nothing. */
  lemma PaidIsReported(cfg: Config, s: State, steps: seq<Step>, ask: Step, r: string)
    requires Sane(cfg) && Reachable(cfg, s) && AllowedRun(cfg, s, steps) && IsPaid(s.checkouts, r)
    requires AsksFor(cfg, Run(cfg, s, steps), ask, r)
    ensures var u, c := Run(cfg, s, steps), s.checkouts[r];
            c.signature.Some? && Take(cfg, u, ask) == (u, CheckoutReport(r, Paid, c.signature.value, c.participant, c.payMethod))
  {
    PaidIsFinal(cfg, s, steps, r);
    ContinuationIsReachable(cfg, s, steps);
    AskingReports(cfg, Run(cfg, s, steps), ask, r);
  }

  /** The step has booked r with this signature, for the payer, amount, participant and channel of its invoice. */
  ghost predicate BookedAs(s: State, t: State, r: string, signature: string) {
    && r in s.redis && IsPaid(t.checkouts, r)
    && var invoice, c := s.redis[r], t.checkouts[r];
    && c.signature == Some(signature) && c.event == invoice.event && c.amount == invoice.amount
    && c.participant == invoice.participant && c.payMethod == ChannelOf(invoice)
    && (TrimSpace(invoice.wallet) != "" ==> c.wallet == TrimSpace(invoice.wallet))
  }

  lemma PayingBooksInvoice(s: State, t: State, step: Step, r: string)
    requires Pays(s, t, step, r)
    ensures r in t.checkouts && t.checkouts[r].signature.Some? && BookedAs(s, t, r, t.checkouts[r].signature.value)
  {
    var signature, sender, now :| Booked(s, t, r, signature, sender, now);
  }

  /** Whatever step pays an opened reference, it books what the live invoice held, for a signature that pays it on the chain;
      and whoever asks in any continuation is told so. */
  lemma PaymentIsReported(cfg: Config, s: State, step: Step, r: string, steps: seq<Step>, ask: Step)
    requires Sane(cfg) && Reachable(cfg, s) && Allowed(s, step) && r !in s.checkouts
    requires var t := Take(cfg, s, step).0;
             && r in t.checkouts && r in t.origins && t.origins[r].Opened?
             && AllowedRun(cfg, t, steps) && AsksFor(cfg, Run(cfg, t, steps), ask, r)
    ensures var t := Take(cfg, s, step).0; var u := Run(cfg, t, steps);
            && r in s.redis
            && exists signature ::
                 && BookedAs(s, t, r, signature)
                 && PaidOnChain(cfg, t.chain, r, signature, s.redis[r].amount, s.redis[r].merchant)
                 && Take(cfg, u, ask) == (u, CheckoutReport(r, Paid, signature, s.redis[r].participant, ChannelOf(s.redis[r])))
  {
    var t := Take(cfg, s, step).0;
    OpenedReferenceBooks(cfg, s, step, r);
    PayingBooksInvoice(s, t, step, r);
    StepReaches(cfg, s, step);
    LiveIsOpened(cfg, s);
    OriginsStay(cfg, s, step, r);
    PaidWasVerified(cfg, t, r);
    PaidIsReported(cfg, t, steps, ask, r);
  }

  // What happens at the opening decides what can be paid

  /** The check at the opening agrees with the one at the booking. */
  lemma OpeningChecksEmail(checkouts: Checkouts, event: EventId, r: string, p: Participant)
    requires r !in checkouts
    ensures EmailUsed(checkouts, event, p) <==> EmailTaken(checkouts, event, r, p)
  {
  }

  /** Where stored emails are strings, the opening refuses an address if and only if a guarded one equal to it has paid. */
  lemma OpeningRefusesIffGuarded(checkouts: Checkouts, event: EventId, r: string, p: Participant)
    requires StringEmails(checkouts, event) && r !in checkouts
    ensures EmailUsed(checkouts, event, p) <==> GuardedRival(checkouts, event, r, p)
  {
    OpeningChecksEmail(checkouts, event, r, p);
    DuplicateRefusedIffGuarded(checkouts, event, r, p);
  }

  /** A reference that either opening handler makes live is payable at once, and its invoice row is not paid. */
  lemma OpenedIsPayable(cfg: Config, s: State, step: Step)
    requires Sane(cfg) && Reachable(cfg, s) && Allowed(s, step) && (step.CreateInvoice? || step.SessionCreate?)
    requires step.reference in Take(cfg, s, step).0.redis
    ensures Payable(Take(cfg, s, step).0, step.reference)
  {
    FreshIsNew(cfg, s);
    if step.CreateInvoice? {
      OpenedInvoiceIsPayable(cfg, s, step);
    } else {
      var owner := OwnerOf(step.claims);
      SessionIsForNamedEvent(cfg, s, step, owner);
      if e :| Names(s, step.eventId, step.slug, e) {
        OpenedSessionIsPayable(cfg, s, owner, TrimSpace(step.header), e, TrimSpace(step.payMethod), TrimSpace(step.wallet),
                               step.participant, step.formOk, step.now, step.sessionId, step.reference);
      }
    }
  }

  lemma OpenIsPayable(s: State, r: string, invoice: Invoice)
    requires r !in s.checkouts && invoice.event in s.events && !EmailUsed(s.checkouts, invoice.event, invoice.participant)
    ensures Payable(Open(s, r, invoice), r)
  {
    OpeningChecksEmail(s.checkouts, invoice.event, r, invoice.participant);
  }

  lemma OpenedInvoiceIsPayable(cfg: Config, s: State, step: Step)
    requires step.CreateInvoice? && step.reference !in s.checkouts && step.reference !in s.redis
    requires step.reference in Take(cfg, s, step).0.redis
    ensures Payable(Take(cfg, s, step).0, step.reference)
  {
    InvoiceIsOpenedIff(cfg, s, step.slug, step.wallet, step.participant, step.formOk, step.payMethod, step.now, step.reference);
    OpenIsPayable(s, step.reference, Take(cfg, s, step).0.redis[step.reference]);
  }

  lemma OpenedSessionIsPayable(cfg: Config, s: State, owner: string, key: string, id: EventId, channel: string, wallet: string,
                               p: Participant, formOk: bool, now: Time, sessionId: string, r: string)
    requires id in s.events && r !in s.checkouts && r !in s.redis && sessionId !in s.sessions
    ensures var t := OpenSession(cfg, s, owner, key, id, channel, wallet, p, formOk, now, sessionId, r).0;
            r in t.redis ==> Payable(t, r)
  {
    var t := OpenSession(cfg, s, owner, key, id, channel, wallet, p, formOk, now, sessionId, r).0;
    var invoice := Invoice(wallet, s.events[id].amount, id, s.events[id].merchant, channel, p);
    SessionIsCreatedIff(cfg, s, owner, key, id, channel, wallet, p, formOk, now, sessionId, r);
    if Admissible(cfg, s, id, formOk, p, channel, wallet, now) {
      OpenIsPayable(s, r, invoice);
      AlikeIsPayable(Open(s, r, invoice), t, r);
    }
  }

  lemma AlikeIsPayable(s: State, t: State, r: string)
    requires t.redis == s.redis && t.events == s.events && t.checkouts == s.checkouts && Payable(s, r)
    ensures Payable(t, r)
  {
  }
}
