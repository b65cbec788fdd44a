/** When each handler does what it is for: exact conditions, answers, and what else it leaves alone. */
module PaymentOutcomes {
  import opened Text
  import opened Transactions
  import opened Verifiers
  import opened PaymentState
  import opened PaymentHandlers
  import opened PaymentInvariants
  import opened PaymentSteps
  import opened PaymentRuns

  /** The reference is live and the database would take its checkout. */
  ghost predicate Payable(s: State, r: string) {
    r in s.redis && s.redis[r].event in s.events && !EmailTaken(s.checkouts, s.redis[r].event, r, s.redis[r].participant)
  }

  /** The node knows a transaction that pays the live reference. */
  ghost predicate PaidAccordingTo(cfg: Config, s: State, rpc: Rpc, r: string, signature: string) {
    && r in s.redis && signature in rpc.transactions
    && Accepts(cfg, rpc.transactions[signature], r, s.redis[r].amount, s.redis[r].merchant)
  }

  /** Entry k of the listing has a memo with the reference, and its transaction pays. */
  ghost predicate Shows(cfg: Config, rpc: Rpc, r: string, amount: int, merchant: string, k: nat) {
    && k < |rpc.listing| && rpc.listing[k].memo.Some? && Contains(rpc.listing[k].memo.value, r)
    && rpc.listing[k].signature in rpc.transactions
    && Accepts(cfg, rpc.transactions[rpc.listing[k].signature], r, amount, merchant)
  }

  ghost predicate Detectable(cfg: Config, rpc: Rpc, r: string, amount: int, merchant: string) {
    exists k: nat :: Shows(cfg, rpc, r, amount, merchant, k)
  }

  /** The first such entry has this signature. */
  ghost predicate FirstShown(cfg: Config, rpc: Rpc, r: string, amount: int, merchant: string, signature: string) {
    exists k: nat ::
      && Shows(cfg, rpc, r, amount, merchant, k) && rpc.listing[k].signature == signature
      && forall j: nat | j < k :: !Shows(cfg, rpc, r, amount, merchant, j)
  }

  /** Nothing but invoices, checkouts, sessions and their records may differ. */
  ghost predicate SameRest(s: State, t: State) {
    && t.events == s.events && t.slugs == s.slugs && t.nextEvent == s.nextEvent && t.chain == s.chain
    && t.issued == s.issued && t.origins == s.origins && t.selected == s.selected
  }

  ghost predicate SameSessions(s: State, t: State) {
    t.sessions == s.sessions && t.attempts == s.attempts && t.stateLog == s.stateLog && t.records == s.records
  }

  ghost predicate SameBooks(s: State, t: State) {
    t.redis == s.redis && t.invoices == s.invoices && t.checkouts == s.checkouts && SameRest(s, t)
  }

  /** The payer on the books: the wallet given at the opening, else the detected sender, if any. */
  function PayerOf(invoice: Invoice, sender: string): string {
    if TrimSpace(invoice.wallet) != "" then TrimSpace(invoice.wallet)
    else if TrimSpace(sender) != "" then TrimSpace(sender)
    else "unknown_wallet"
  }

  function ChannelOf(invoice: Invoice): string {
    if TrimSpace(invoice.payMethod) != "" then TrimSpace(invoice.payMethod) else "wallet"
  }

  /** The checkout that a payment of the invoice makes. */
  function CheckoutOf(invoice: Invoice, signature: string, sender: string, now: Time): Checkout {
    Checkout(invoice.event, PayerOf(invoice, sender), Some(signature), invoice.amount, Paid, now, Some(now), invoice.participant,
             ChannelOf(invoice))
  }

  /** The invoice row of r is paid with this signature; one that was there keeps its wallet and amount. */
  ghost predicate InvoiceBooked(invoices: Invoices, invoices': Invoices, r: string, signature: string, invoice: Invoice, sender: string) {
    && r in invoices' && invoices' == invoices[r := invoices'[r]]
    && invoices'[r] == InvoiceRow(if r in invoices then invoices[r].wallet else PayerOf(invoice, sender),
                                  if r in invoices then invoices[r].amount else invoice.amount, Some(signature), InvoicePaid, None)
  }

  /** The reference, new to the checkouts, is paid as its invoice says with this signature, and dead; no other checkout and
      no other invoice has changed. */
  ghost predicate Booked(s: State, t: State, r: string, signature: string, sender: string, now: Time) {
    && r in s.redis && r !in s.checkouts && r in t.checkouts
    && t.checkouts == s.checkouts[r := t.checkouts[r]] && t.redis == s.redis - {r}
    && InvoiceBooked(s.invoices, t.invoices, r, signature, s.redis[r], sender)
    && SameRest(s, t)
    && t.checkouts[r] == CheckoutOf(s.redis[r], signature, sender, now)
  }

  /** The database refuses the checkout. When the email is taken nothing has changed; when the event is gone, the
      invoice row is marked paid all the same. */
  ghost predicate Unbooked(s: State, t: State, r: string, signature: string, sender: string) {
    && r in s.redis && t.checkouts == s.checkouts && t.redis == s.redis && SameRest(s, t)
    && if EmailTaken(s.checkouts, s.redis[r].event, r, s.redis[r].participant) then t.invoices == s.invoices
       else s.redis[r].event !in s.events && InvoiceBooked(s.invoices, t.invoices, r, signature, s.redis[r], sender)
  }

  /** The answer reports the payment of a live reference. */
  ghost predicate Reports(reply: Reply, r: string, signature: string, invoice: Invoice) {
    reply == CheckoutReport(r, Paid, signature, invoice.participant, ChannelOf(invoice))
  }

  /** The answer reports a checkout that was paid before. */
  ghost predicate ReportsPaid(reply: Reply, r: string, c: Checkout) {
    c.signature.Some? && reply == CheckoutReport(r, Paid, c.signature.value, c.participant, c.payMethod)
  }

  /** Finalizing has booked the payment and reports it, or the database has refused it and the answer is an error. */
  ghost predicate Settled(s: State, t: State, reply: Reply, r: string, signature: string, sender: string, now: Time, code: nat) {
    && r in s.redis
    && if Payable(s, r) then Booked(s, t, r, signature, sender, now) && Reports(reply, r, signature, s.redis[r])
       else Unbooked(s, t, r, signature, sender) && reply == Error(code)
  }

  /** The reason the verifier has to give for turning the signature down. */
  ghost predicate RightReason(cfg: Config, rpc: Rpc, r: string, signature: string, amount: int, merchant: string, reason: Reason) {
    if !Configured(cfg, merchant) then reason == NotConfigured
    else if signature !in rpc.transactions then reason == NotFound
    else RightVerdict(cfg, rpc.transactions[signature], r, amount, merchant, Refused(reason))
  }

  /** The invoice row of r holds the refused signature and the reason, and nothing else has changed. */
  ghost predicate RefusalKept(s: State, t: State, r: string, signature: string, reason: Reason) {
    && r in s.redis && r in t.invoices && t == s.(invoices := s.invoices[r := t.invoices[r]])
    && t.invoices[r] == InvoiceRow(if r in s.invoices then s.invoices[r].wallet else TrimSpace(s.redis[r].wallet),
                                   if r in s.invoices then s.invoices[r].amount else s.redis[r].amount,
                                   Some(signature), InvoiceError, Some(reason))
  }

  /** The invoice as a detection may have completed it with the sender it found. */
  ghost predicate Completed(invoice: Invoice, completed: Invoice, sender: string) {
    && completed.(wallet := invoice.wallet) == invoice
    && (if TrimSpace(invoice.wallet) == "" && sender != "" then completed.wallet == sender else completed.wallet == invoice.wallet)
  }

  lemma FinalizeOutcome(s: State, r: string, signature: string, invoice: Invoice, sender: string, now: Time)
    requires r in s.redis && r !in s.checkouts && Completed(s.redis[r], invoice, sender)
    ensures var (t, ok) := FinalizePaidCheckout(s, r, signature, invoice, invoice.amount, now);
            && ok == Payable(s, r) && SameSessions(s, t)
            && if ok then Booked(s, DropInvoice(t, r), r, signature, sender, now)
                          && Reports(StatusOf(t.checkouts, r), r, signature, s.redis[r])
               else Unbooked(s, t, r, signature, sender)
  {
    FinalizedBooks(s.events, s.invoices, s.checkouts, r, signature, s.redis[r], invoice, sender, now);
  }

  lemma FinalizedBooks(events: Events, invoices: Invoices, checkouts: Checkouts, r: string, signature: string, invoice: Invoice,
                       completed: Invoice, sender: string, now: Time)
    requires r !in checkouts && Completed(invoice, completed, sender)
    ensures var b := Finalize(events, invoices, checkouts, r, signature, completed, completed.amount, now);
            if EmailTaken(checkouts, invoice.event, r, invoice.participant) then b == Books(invoices, checkouts, false)
            else && InvoiceBooked(invoices, b.invoices, r, signature, invoice, sender) && b.ok == (invoice.event in events)
                 && b.checkouts == if b.ok then checkouts[r := CheckoutOf(invoice, signature, sender, now)] else checkouts
  {
    PayerIsCompleted(invoice, completed, sender);
    var wallet := if TrimSpace(completed.wallet) == "" then "unknown_wallet" else TrimSpace(completed.wallet);
    assert wallet == PayerOf(invoice, sender);
  }

  lemma PayerIsCompleted(invoice: Invoice, completed: Invoice, sender: string)
    requires Completed(invoice, completed, sender)
    ensures PayerOf(invoice, sender)
         == if TrimSpace(completed.wallet) == "" then "unknown_wallet" else TrimSpace(completed.wallet)
    ensures ChannelOf(invoice) == if TrimSpace(completed.payMethod) == "" then "wallet" else TrimSpace(completed.payMethod)
  {
    if sender == "" {
      assert TrimSpace(sender) == "";
    }
  }

  lemma SettleOutcome(s: State, r: string, signature: string, invoice: Invoice, sender: string, now: Time, code: nat)
    requires r in s.redis && r !in s.checkouts && Completed(s.redis[r], invoice, sender)
    ensures var (t, reply) := Settle(s, r, signature, invoice, now, code);
            SameSessions(s, t) && Settled(s, t, reply, r, signature, sender, now, code)
  {
    FinalizeOutcome(s, r, signature, invoice, sender, now);
  }

  lemma LiveReference(cfg: Config, s: State, r: string)
    requires Sane(cfg) && Reachable(cfg, s) && r in s.redis
    ensures r !in s.checkouts && TrimSpace(s.redis[r].merchant) == s.redis[r].merchant && s.redis[r].merchant != ""
  {
    ReachableIsInv(cfg, s);
    LiveMerchant(cfg, s, r);
  }

  ghost predicate Confirmed(cfg: Config, s: State, t: State, reply: Reply, r: string, signature: string, rpc: Rpc, now: Time) {
    if !cfg.isReference(r) || TrimSpace(signature) == "" then t == s && reply == Error(400)
    else if r !in s.redis then t == s && reply == Error(404)
    else if !PaidAccordingTo(cfg, s, rpc, r, signature) then
      && reply == Error(400)
      && exists reason :: RefusalKept(s, t, r, signature, reason)
                          && RightReason(cfg, rpc, r, signature, s.redis[r].amount, s.redis[r].merchant, reason)
    else SameSessions(s, t) && Settled(s, t, reply, r, signature, "", now, 500)
  }

  /** Confirming pays exactly a payable reference whose signature verifies, and reports it. Otherwise no checkout changes: a
      signature that was looked at and refused leaves its reason in the invoice row, and one that verified leaves it marked
      paid exactly when the event is gone. */
  lemma ConfirmPaysIff(cfg: Config, s: State, r: string, signature: string, rpc: Rpc, now: Time)
    requires Sane(cfg) && Reachable(cfg, s)
    ensures var (t, reply) := ConfirmCheckoutPayment(cfg, s, r, signature, rpc, now);
            Confirmed(cfg, s, t, reply, r, signature, rpc, now)
  {
    if r in s.redis {
      LiveReference(cfg, s, r);
    }
    LiveConfirmOutcome(cfg, s, r, signature, rpc, now);
  }

  lemma LiveConfirmOutcome(cfg: Config, s: State, r: string, signature: string, rpc: Rpc, now: Time)
    requires r in s.redis ==> r !in s.checkouts && TrimSpace(s.redis[r].merchant) == s.redis[r].merchant && s.redis[r].merchant != ""
    ensures var (t, reply) := ConfirmCheckoutPayment(cfg, s, r, signature, rpc, now);
            Confirmed(cfg, s, t, reply, r, signature, rpc, now)
  {
    if cfg.isReference(r) && TrimSpace(signature) != "" && r in s.redis {
      var verdict := VerdictFor(cfg, rpc, r, signature, s.redis[r].amount, s.redis[r].merchant);
      ConfirmWithOutcome(s, r, signature, verdict, now);
      assert ConfirmCheckoutPayment(cfg, s, r, signature, rpc, now) == ConfirmWith(s, r, signature, verdict, now);
      assert verdict.Accepted? <==> PaidAccordingTo(cfg, s, rpc, r, signature);
      assert verdict.Refused? ==> RightReason(cfg, rpc, r, signature, s.redis[r].amount, s.redis[r].merchant, verdict.reason);
    } else {
      assert ConfirmCheckoutPayment(cfg, s, r, signature, rpc, now).0 == s;
    }
  }

  lemma ConfirmWithOutcome(s: State, r: string, signature: string, verdict: Verdict, now: Time)
    requires r in s.redis && r !in s.checkouts
    ensures var (t, reply) := ConfirmWith(s, r, signature, verdict, now);
            match verdict
            case Refused(reason) => RefusalKept(s, t, r, signature, reason) && reply == Error(400)
            case Accepted(_) => SameSessions(s, t) && Settled(s, t, reply, r, signature, "", now, 500)
  {
    SettleOutcome(s, r, signature, s.redis[r], "", now, 500);
  }

  ghost predicate Rechecked(cfg: Config, s: State, t: State, reply: Reply, r: string, signature: string, rpc: Rpc, now: Time) {
    if !cfg.isReference(TrimSpace(r)) then t == s && reply == Error(400)
    else if IsPaid(s.checkouts, r) then t == s && ReportsPaid(reply, r, s.checkouts[r])
    else if r !in s.redis then t == s && reply == Error(404)
    else if signature == "" || !PaidAccordingTo(cfg, s, rpc, r, signature) then t == s && reply == Error(400)
    else SameSessions(s, t) && Settled(s, t, reply, r, signature, "", now, 500)
  }

  /** Rechecking reports a paid checkout, and pays exactly a payable reference whose signature verifies. */
  lemma RecheckPaysIff(cfg: Config, s: State, r: string, signature: string, rpc: Rpc, now: Time)
    requires Sane(cfg) && Reachable(cfg, s)
    ensures var (t, reply) := RecheckCheckoutPayment(cfg, s, r, signature, rpc, now);
            Rechecked(cfg, s, t, reply, r, TrimSpace(signature), rpc, now)
  {
    if r in s.redis {
      LiveReference(cfg, s, r);
    }
    PaidIsSigned(cfg, s, r);
    LiveRecheckOutcome(cfg, s, r, signature, rpc, now);
  }

  lemma PaidIsSigned(cfg: Config, s: State, r: string)
    requires Sane(cfg) && Reachable(cfg, s)
    ensures IsPaid(s.checkouts, r) ==> s.checkouts[r].signature.Some?
  {
    ReachableIsInv(cfg, s);
    if IsPaid(s.checkouts, r) {
      var c := s.checkouts[r];
      assert CheckoutOk(cfg, r, c, s.origins[r], s.events[c.event], s.invoices, s.chain, s.selected);
    }
  }

  lemma LiveRecheckOutcome(cfg: Config, s: State, r: string, signature: string, rpc: Rpc, now: Time)
    requires r in s.redis ==> r !in s.checkouts && TrimSpace(s.redis[r].merchant) == s.redis[r].merchant && s.redis[r].merchant != ""
    requires IsPaid(s.checkouts, r) ==> s.checkouts[r].signature.Some?
    ensures var (t, reply) := RecheckCheckoutPayment(cfg, s, r, signature, rpc, now);
            Rechecked(cfg, s, t, reply, r, TrimSpace(signature), rpc, now)
  {
    if r in s.redis {
      SettleOutcome(s, r, TrimSpace(signature), s.redis[r], "", now, 500);
    }
  }

  lemma DetectableIsShown(cfg: Config, rpc: Rpc, r: string, amount: int, merchant: string, k: nat)
    ensures DetectableAt(cfg, rpc, r, amount, merchant, k) <==> Shows(cfg, rpc, r, amount, merchant, k)
  {
  }

  lemma DetectionIsComplete(cfg: Config, rpc: Rpc, r: string, amount: int, merchant: string)
    ensures var d := DetectFrom(cfg, rpc, r, amount, merchant, 0);
            if Detectable(cfg, rpc, r, amount, merchant)
            then d.Found? && FirstShown(cfg, rpc, r, amount, merchant, d.signature) && d.signature in rpc.transactions
                 && RightVerdict(cfg, rpc.transactions[d.signature], r, amount, merchant, Accepted(d.sender))
            else d == NotDetected
  {
    DetectionIsVerified(cfg, rpc, r, amount, merchant, 0);
    forall k: nat
      ensures DetectableAt(cfg, rpc, r, amount, merchant, k) <==> Shows(cfg, rpc, r, amount, merchant, k)
    {
      DetectableIsShown(cfg, rpc, r, amount, merchant, k);
    }
  }

  /** The detection found this signature first, and its sender. */
  ghost predicate FoundFirst(cfg: Config, rpc: Rpc, r: string, amount: int, merchant: string, signature: string, sender: Key) {
    && FirstShown(cfg, rpc, r, amount, merchant, signature) && signature in rpc.transactions
    && RightVerdict(cfg, rpc.transactions[signature], r, amount, merchant, Accepted(sender))
  }

  ghost predicate Detected(cfg: Config, s: State, t: State, reply: Reply, r: string, rpc: Rpc, now: Time) {
    if !cfg.isReference(r) then t == s && reply == Error(400)
    else if IsPaid(s.checkouts, r) then t == s && ReportsPaid(reply, r, s.checkouts[r])
    else if r !in s.redis then t == s && reply == Error(404)
    else if !Detectable(cfg, rpc, r, s.redis[r].amount, s.redis[r].merchant) then t == s && reply == StillPending
    else
      && SameSessions(s, t)
      && exists signature, sender: Key :: Settled(s, t, reply, r, signature, sender, now, 400)
                                     && FoundFirst(cfg, rpc, r, s.redis[r].amount, s.redis[r].merchant, signature, sender)
  }

  /** Detecting reports a paid checkout, answers pending exactly when a live reference has no listed payment, and otherwise
      settles the reference with the first of them, whose sender stands in for a wallet not given. */
  lemma DetectPaysIff(cfg: Config, s: State, reference: string, rpc: Rpc, now: Time)
    requires Sane(cfg) && Reachable(cfg, s)
    ensures var (t, reply) := DetectCheckoutPayment(cfg, s, reference, rpc, now);
            Detected(cfg, s, t, reply, TrimSpace(reference), rpc, now)
  {
    if TrimSpace(reference) in s.redis {
      LiveReference(cfg, s, TrimSpace(reference));
    }
    PaidIsSigned(cfg, s, TrimSpace(reference));
    LiveDetectOutcome(cfg, s, reference, TrimSpace(reference), rpc, now);
  }

  lemma LiveDetectOutcome(cfg: Config, s: State, reference: string, r: string, rpc: Rpc, now: Time)
    requires r == TrimSpace(reference)
    requires r in s.redis ==> r !in s.checkouts && TrimSpace(s.redis[r].merchant) == s.redis[r].merchant && s.redis[r].merchant != ""
    requires IsPaid(s.checkouts, r) ==> s.checkouts[r].signature.Some?
    ensures var (t, reply) := DetectCheckoutPayment(cfg, s, reference, rpc, now);
            Detected(cfg, s, t, reply, r, rpc, now)
  {
    if cfg.isReference(r) && r in s.redis {
      var d := DetectFrom(cfg, rpc, r, s.redis[r].amount, s.redis[r].merchant, 0);
      DetectionIsComplete(cfg, rpc, r, s.redis[r].amount, s.redis[r].merchant);
      if d.Found? {
        SettleOutcome(s, r, d.signature, WithSender(s.redis[r], d.sender), d.sender, now, 400);
        var (t, reply) := DetectCheckoutPayment(cfg, s, reference, rpc, now);
        assert (t, reply) == Settle(s, r, d.signature, WithSender(s.redis[r], d.sender), now, 400);
        assert FoundFirst(cfg, rpc, r, s.redis[r].amount, s.redis[r].merchant, d.signature, d.sender);
      }
    }
  }

  /** A manual verification adds a paid checkout under the new reference exactly when the slug names an active event
      and the transaction pays it directly from the given wallet; otherwise nothing at all happens. */
  lemma ManualVerifyPaysIff(cfg: Config, s: State, slug: string, wallet: string, signature: string, participant: Participant,
                            rpc: Rpc, now: Time, r: string)
    requires r !in s.checkouts
    ensures var (t, reply) := ManualVerifyCheckoutPayment(cfg, s, slug, wallet, signature, participant, rpc, now, r);
            var id, payer, trimmed := EventBySlug(s, TrimSpace(slug)), TrimSpace(wallet), TrimSpace(signature);
            if TrimSpace(slug) == "" || trimmed == "" || !ValidWallet(cfg, payer) then t == s && reply == Error(400)
            else if id.None? then t == s && reply == Error(404)
            else
              var event := s.events[id.value];
              if trimmed in rpc.transactions && AcceptsDirect(cfg, rpc.transactions[trimmed], event.amount, event.merchant, payer)
              then && t == s.(checkouts := s.checkouts[r := t.checkouts[r]], invoices := s.invoices[r := t.invoices[r]],
                              issued := s.issued + {r}, origins := s.origins[r := Direct])
                   && t.checkouts[r] == Checkout(id.value, payer, Some(trimmed), event.amount, Paid, now, Some(now), participant, "wallet")
                   && t.invoices[r] == InvoiceRow(payer, event.amount, Some(trimmed), InvoicePaid, None)
                   && reply == CheckoutReport(r, Paid, trimmed, participant, "")
              else t == s && reply == Error(400)
  {
  }

  // Opening

  /** The event takes this payer by this channel at this time. */
  predicate Admissible(cfg: Config, s: State, id: EventId, formOk: bool, p: Participant, channel: string, wallet: string, now: Time) {
    && id in s.events && now <= s.events[id].expiresAt && formOk && !EmailUsed(s.checkouts, id, p)
    && ((channel == "wallet" && s.events[id].walletEnabled && ValidWallet(cfg, wallet))
        || (channel == "qr" && s.events[id].qrEnabled))
  }

  /** Why it does not: it is over, the form is incomplete, the email has paid, or the channel is not available. */
  function RefusalCode(s: State, id: EventId, formOk: bool, p: Participant, now: Time): nat
    requires id in s.events
  {
    if s.events[id].expiresAt < now then 410
    else if formOk && EmailUsed(s.checkouts, id, p) then 409
    else 400
  }

  /** An invoice is opened exactly for an active event that admits the payer; it is the only change. */
  lemma InvoiceIsOpenedIff(cfg: Config, s: State, slug: string, wallet: string, p: Participant, formOk: bool, channel: string,
                           now: Time, r: string)
    ensures var (t, reply) := CreateCheckoutInvoice(cfg, s, slug, wallet, p, formOk, channel, now, r);
            var id := EventBySlug(s, TrimSpace(slug));
            if TrimSpace(slug) != "" && id.Some? && Admissible(cfg, s, id.value, formOk, p, TrimSpace(channel), TrimSpace(wallet), now)
            then r in t.redis && reply == InvoiceCreated(r, s.events[id.value].amount)
                 && t == Open(s, r, Invoice(TrimSpace(wallet), s.events[id.value].amount, id.value, s.events[id.value].merchant,
                                            TrimSpace(channel), p))
            else t == s && reply == Error(if TrimSpace(slug) == "" then 400 else if id.None? then 404
                                          else RefusalCode(s, id.value, formOk, p, now))
  {
  }

  /** The caller a creation is made for: the trimmed email of the login, or the public checkout. */
  ghost predicate CallerIs(claims: Option<string>, owner: string) {
    match claims
    case Some(email) => owner == if TrimSpace(email) != "" then TrimSpace(email) else "public_checkout"
    case None => owner == "public_checkout"
  }

  /** t holds the invoice as the only new one, and the session as the only new one, made from it. */
  ghost predicate Created(s: State, t: State, reply: Reply, sessionId: string, r: string, invoice: Invoice, owner: string,
                          key: string, mint: string, now: Time) {
    && t.redis == s.redis[r := invoice]
    && sessionId in t.sessions && t.sessions == s.sessions[sessionId := t.sessions[sessionId]]
    && t.attempts == s.attempts[sessionId := []]
    && t.checkouts == s.checkouts && t.invoices == s.invoices && t.events == s.events && t.slugs == s.slugs && t.chain == s.chain
    && var session := t.sessions[sessionId];
    && session.state == Awaiting && session.reference == r && Copies(session, invoice) && session.mint == mint
    && session.owner == owner && session.key == key && session.signature == None && session.expiresAt == now + 20 * MINUTE
    && reply == SessionCreated(sessionId, r, invoice.payMethod, invoice.amount, mint, now + 20 * MINUTE)
  }

  /** A session is created exactly for an admitted payer with a free key, together with a live invoice it agrees with;
      when only the key is taken, the invoice is left behind. */
  lemma SessionIsCreatedIff(cfg: Config, s: State, owner: string, key: string, id: EventId, channel: string, wallet: string,
                            p: Participant, formOk: bool, now: Time, sessionId: string, r: string)
    requires id in s.events && sessionId !in s.sessions
    ensures var (t, reply) := OpenSession(cfg, s, owner, key, id, channel, wallet, p, formOk, now, sessionId, r);
            var invoice := Invoice(wallet, s.events[id].amount, id, s.events[id].merchant, channel, p);
            if !Admissible(cfg, s, id, formOk, p, channel, wallet, now) then t == s && reply == Error(RefusalCode(s, id, formOk, p, now))
            else if exists i :: i in s.sessions && s.sessions[i].owner == owner && s.sessions[i].key == key
            then t == Open(s, r, invoice) && reply == Error(500)
            else Created(s, t, reply, sessionId, r, invoice, owner, key, cfg.mint, now)
  {
    AdmissibleIsChecked(cfg, s, id, formOk, p, channel, wallet, now);
    if Admissible(cfg, s, id, formOk, p, channel, wallet, now) && !KeyTaken(s.sessions, owner, key) {
      var event := s.events[id];
      var session := Session(id, owner, p, wallet, channel, Awaiting, r, event.amount, cfg.mint, event.merchant, key, None,
                             now + 20 * MINUTE);
      AddedSessionIsCreated(s, sessionId, session, Invoice(wallet, event.amount, id, event.merchant, channel, p), now);
    }
  }

  lemma AddedSessionIsCreated(s: State, id: string, session: Session, invoice: Invoice, now: Time)
    requires Copies(session, invoice) && session.state == Awaiting && session.signature == None && session.expiresAt == now + 20 * MINUTE
    ensures var reply := SessionCreated(id, session.reference, invoice.payMethod, invoice.amount, session.mint, now + 20 * MINUTE);
            var u := AddSession(Open(s, session.reference, invoice), id, session);
            Created(s, SaveRecord(u, session.owner, session.key, CreateSession, reply), reply, id, session.reference, invoice,
                    session.owner, session.key, session.mint, now)
  {
    var u := AddSession(Open(s, session.reference, invoice), id, session);
    var reply := SessionCreated(id, session.reference, invoice.payMethod, invoice.amount, session.mint, now + 20 * MINUTE);
    SavedShape(u, session.owner, session.key, CreateSession, reply);
  }

  lemma AdmissibleIsChecked(cfg: Config, s: State, id: EventId, formOk: bool, p: Participant, channel: string, wallet: string, now: Time)
    requires id in s.events
    ensures OpeningError(cfg, s, id, formOk, p, channel, wallet, now).None? <==> Admissible(cfg, s, id, formOk, p, channel, wallet, now)
  {
  }

  /** Cancelling kills the reference, and takes with it only unsigned pending rows. */
  lemma CancelledReferenceIsDead(cfg: Config, s: State, r: string)
    requires cfg.isReference(TrimSpace(r))
    ensures var t := CancelCheckoutInvoice(cfg, s, r).0;
            && r !in t.redis
            && (r in s.checkouts && r !in t.checkouts <==>
                  r in s.checkouts && s.checkouts[r].signature.None? && s.checkouts[r].status == PendingPayment)
            && (r in s.invoices && r !in t.invoices <==>
                  r in s.invoices && s.invoices[r].signature.None? && s.invoices[r].status == InvoicePending)
            && (forall q | q != r :: (q in t.redis <==> q in s.redis) && (q in t.redis ==> t.redis[q] == s.redis[q]))
            && (forall q | q in t.checkouts :: q in s.checkouts && t.checkouts[q] == s.checkouts[q])
            && (forall q | q in t.invoices :: q in s.invoices && t.invoices[q] == s.invoices[q])
  {
  }

  // Events

  /** The event is gone with its slugs, checkouts, sessions and their attempts; everything else is as it was, live invoices and
      invoice rows included. */
  ghost predicate Taken(s: State, t: State, id: EventId) {
    && t == s.(events := s.events - {id}, slugs := t.slugs, checkouts := t.checkouts, sessions := t.sessions, attempts := t.attempts)
    && (forall x :: x in t.slugs <==> x in s.slugs && s.slugs[x] != id) && (forall x | x in t.slugs :: t.slugs[x] == s.slugs[x])
    && (forall r :: r in t.checkouts <==> r in s.checkouts && s.checkouts[r].event != id)
    && (forall r | r in t.checkouts :: t.checkouts[r] == s.checkouts[r])
    && (forall i :: i in t.sessions <==> i in s.sessions && s.sessions[i].event != id)
    && (forall i | i in t.sessions :: t.sessions[i] == s.sessions[i])
    && (forall i :: i in t.attempts <==> i in s.attempts && !(i in s.sessions && s.sessions[i].event == id))
    && (forall i | i in t.attempts :: t.attempts[i] == s.attempts[i])
  }

  lemma CascadeTakes(s: State, id: EventId)
    ensures Taken(s, Cascade(s, id), id)
  {
  }

  /** A delete takes exactly the owner's event when nothing in it is paid, and nothing that is paid with it. */
  lemma DeletionTakesExactly(cfg: Config, s: State, id: EventId, owner: string)
    requires Sane(cfg) && Reachable(cfg, s)
    ensures var (t, reply) := DeleteEvent(s, id, owner);
            if exists r :: r in s.checkouts && s.checkouts[r].event == id && s.checkouts[r].status == Paid then
              t == s && reply == Error(409)
            else if id !in s.events || s.events[id].owner != owner then t == s && reply == Error(404)
            else
              && reply == Done && Taken(s, t, id)
              && (forall i | i in s.sessions && s.sessions[i].event == id :: s.sessions[i].state != SessionPaid)
  {
    DeletedSessionsAreUnpaid(cfg, s, id);
    CascadeTakes(s, id);
  }

  lemma DeletedSessionsAreUnpaid(cfg: Config, s: State, id: EventId)
    requires Sane(cfg) && Reachable(cfg, s)
    ensures !HasPaidDeposits(s.checkouts, id) ==>
              forall i | i in s.sessions && s.sessions[i].event == id :: s.sessions[i].state != SessionPaid
    ensures forall i | i in s.sessions :: i in s.attempts
  {
    ReachableIsInv(cfg, s);
    if !HasPaidDeposits(s.checkouts, id) {
      CascadeSparesPaid(cfg, s, id);
    }
  }

  // Sessions

  /** Only the named session has changed, and only in its state and signature. */
  ghost predicate OnlySession(s: State, t: State, id: string, state: SessionState, signature: Option<string>) {
    id in s.sessions && t.sessions == s.sessions[id := s.sessions[id].(state := state, signature := signature)]
  }

  ghost predicate OneMoreAttempt(s: State, t: State, id: string, attempt: Attempt) {
    t.attempts == s.attempts[id := AttemptsOf(s.attempts, id) + [attempt]]
  }

  /** How submitting a signature ends: a dead reference stalls the session, a payable one that the signature pays
      settles both, and anything else fails the session. */
  ghost predicate Submitted(cfg: Config, s: State, t: State, reply: Reply, id: string, signature: string, rpc: Rpc, now: Time)
    requires id in s.sessions
  {
    var r := s.sessions[id].reference;
    if r !in s.redis then
      OnlySession(s, t, id, Verifying, None) && t.attempts == s.attempts && SameBooks(s, t) && reply == Error(404)
    else if !PaidAccordingTo(cfg, s, rpc, r, signature) then
      && OnlySession(s, t, id, SessionFailed, None) && OneMoreAttempt(s, t, id, Attempt(signature, AttemptFailed))
      && SameBooks(s, t) && reply == Error(400)
    else
      && (if Payable(s, r)
          then OnlySession(s, t, id, SessionPaid, Some(signature)) && OneMoreAttempt(s, t, id, Attempt(signature, AttemptPaid))
          else OnlySession(s, t, id, SessionFailed, None) && OneMoreAttempt(s, t, id, Attempt(signature, AttemptFailed)))
      && Settled(s, t, reply, r, signature, "", now, 500)
  }

  /** The session may still take a signature, and the key has not been used. */
  predicate MaySubmit(s: State, id: string, signature: string, key: string) {
    && TrimSpace(signature) != "" && id in s.sessions
    && (s.sessions[id].state == Awaiting || s.sessions[id].state == Verifying)
    && LoadRecord(s, s.sessions[id].owner, key, SubmitSignature).None?
  }

  /** The answer to a submission that the session does not take. */
  function DeclineOf(s: State, id: string, signature: string, key: string): Reply {
    if TrimSpace(signature) == "" then Error(400)
    else if id !in s.sessions then Error(404)
    else LoadRecord(s, s.sessions[id].owner, key, SubmitSignature).GetOr(Error(409))
  }

  /** This is what happens to a session that may take a signature; otherwise nothing at all changes. */
  lemma SubmitOutcome(cfg: Config, s: State, id: string, signature: string, header: string, rpc: Rpc, now: Time)
    requires Sane(cfg) && Reachable(cfg, s)
    ensures var (t, reply) := V1SubmitSignature(cfg, s, id, signature, header, rpc, now);
            if MaySubmit(s, id, signature, TrimSpace(header)) then Submitted(cfg, s, t, reply, id, TrimSpace(signature), rpc, now)
            else t == s && reply == DeclineOf(s, id, signature, TrimSpace(header))
  {
    if MaySubmit(s, id, signature, TrimSpace(header)) {
      SubmittedSession(cfg, s, id);
      if s.sessions[id].reference in s.redis {
        LiveReference(cfg, s, s.sessions[id].reference);
      }
      SecondHalfOutcome(cfg, s, id, TrimSpace(signature), TrimSpace(header), rpc, now);
    }
  }

  lemma SecondHalfOutcome(cfg: Config, s: State, id: string, signature: string, key: string, rpc: Rpc, now: Time)
    requires id in s.sessions && s.sessions[id].signature == None
    requires var r := s.sessions[id].reference;
             r in s.redis ==>
               r !in s.checkouts && s.redis[r].amount == s.sessions[id].amount && s.redis[r].merchant == s.sessions[id].merchant
    ensures var (t, reply) := Submit(cfg, s, id, signature, key, rpc, now);
            Submitted(cfg, s, t, reply, id, signature, rpc, now)
  {
    var session := s.sessions[id];
    if session.reference in s.redis {
      var verdict := VerdictFor(cfg, rpc, session.reference, signature, session.amount, session.merchant);
      SubmitWithOutcome(s, id, signature, key, verdict, now);
    }
  }

  lemma SubmittedSession(cfg: Config, s: State, id: string)
    requires Sane(cfg) && Reachable(cfg, s) && id in s.sessions
    ensures var session := s.sessions[id]; var r := session.reference;
            && (session.state == Awaiting || session.state == Verifying ==> session.signature == None)
            && (r in s.redis ==> s.redis[r].amount == session.amount && s.redis[r].merchant == session.merchant)
  {
    ReachableIsInv(cfg, s);
    SessionFacts(cfg, s, id);
  }

  lemma SubmitWithOutcome(s: State, id: string, signature: string, key: string, verdict: Verdict, now: Time)
    requires id in s.sessions && s.sessions[id].signature == None
    requires var r := s.sessions[id].reference; r in s.redis && r !in s.checkouts && s.redis[r].amount == s.sessions[id].amount
    ensures var (t, reply) := SubmitWith(SetSessionState(s, id, Verifying), id, signature, key, verdict, now);
            var r := s.sessions[id].reference;
            if verdict.Refused? then
              && OnlySession(s, t, id, SessionFailed, None) && OneMoreAttempt(s, t, id, Attempt(signature, AttemptFailed))
              && SameBooks(s, t) && reply == Error(400)
            else
              && (if Payable(s, r)
                  then OnlySession(s, t, id, SessionPaid, Some(signature)) && OneMoreAttempt(s, t, id, Attempt(signature, AttemptPaid))
                  else OnlySession(s, t, id, SessionFailed, None) && OneMoreAttempt(s, t, id, Attempt(signature, AttemptFailed)))
              && Settled(s, t, reply, r, signature, "", now, 500)
  {
    var u, r := SetSessionState(s, id, Verifying), s.sessions[id].reference;
    var t := FinalizePaidCheckout(u, r, signature, u.redis[r], u.redis[r].amount, now).0;
    FinalizeOutcome(u, r, signature, u.redis[r], "", now);
    FailedShapeOf(u, id, signature);
    FailedShapeOf(t, id, signature);
    PaidShapeOf(t, id, signature);
    RewrittenTwice(s.sessions, id, u.sessions[id], s.sessions[id].(state := SessionPaid, signature := Some(signature)));
    RewrittenTwice(s.sessions, id, u.sessions[id], s.sessions[id].(state := SessionFailed));
    SavedShape(DropInvoice(PaySession(t, id, signature), r), s.sessions[id].owner, key, SubmitSignature, StatusOf(t.checkouts, r));
  }

  lemma PaidShapeOf(s: State, id: string, signature: string)
    requires id in s.sessions
    ensures var t := PaySession(s, id, signature);
            && t == s.(sessions := t.sessions, attempts := t.attempts, stateLog := t.stateLog)
            && t.sessions == s.sessions[id := s.sessions[id].(state := SessionPaid, signature := Some(signature))]
            && OneMoreAttempt(s, t, id, Attempt(signature, AttemptPaid))
  {
  }

  lemma FailedShapeOf(s: State, id: string, signature: string)
    requires id in s.sessions
    ensures var t := FailSession(s, id, signature);
            && t == s.(sessions := t.sessions, attempts := t.attempts, stateLog := t.stateLog)
            && t.sessions == s.sessions[id := s.sessions[id].(state := SessionFailed)]
            && OneMoreAttempt(s, t, id, Attempt(signature, AttemptFailed))
  {
  }

  lemma SavedShape(s: State, owner: string, key: string, endpoint: Endpoint, reply: Reply)
    ensures var t := SaveRecord(s, owner, key, endpoint, reply); t == s.(records := t.records)
  {
  }

  lemma RewrittenTwice(sessions: Sessions, id: string, a: Session, b: Session)
    ensures sessions[id := a][id := b] == sessions[id := b]
  {
  }

  /** Cancelling, under a key not yet used, cancels a session that is not paid and kills its reference; otherwise
      nothing changes. */
  lemma SessionCancelOutcome(s: State, id: string, header: string)
    ensures var (t, reply) := V1CancelPaymentSession(s, id, header);
            if id in s.sessions && s.sessions[id].state != SessionPaid
               && LoadRecord(s, s.sessions[id].owner, TrimSpace(header), CancelSession).None?
            then OnlySession(s, t, id, Cancelled, s.sessions[id].signature) && t.redis == s.redis - {s.sessions[id].reference}
                 && t.attempts == s.attempts && t.invoices == s.invoices && SameRest(s, t)
                 && t.checkouts == WithoutPending(s.checkouts, s.sessions[id].reference) && reply == Done
            else t == s && reply == if id !in s.sessions then Error(404)
                                    else LoadRecord(s, s.sessions[id].owner, TrimSpace(header), CancelSession).GetOr(Error(409))
  {
    if id in s.sessions {
      var session, a := s.sessions[id], SetSessionState(s, id, Cancelled);
      assert OnlySession(s, a, id, Cancelled, session.signature);
      SavedShape(Abandon(a, session.reference), session.owner, TrimSpace(header), CancelSession, Done);
    }
  }

  /** What a detection that found this signature does to the session and its reference. */
  ghost predicate SessionSettled(s: State, t: State, reply: Reply, id: string, signature: string, sender: string, now: Time)
    requires id in s.sessions
  {
    var r := s.sessions[id].reference;
    && (if Payable(s, r)
        then OnlySession(s, t, id, SessionPaid, Some(signature)) && OneMoreAttempt(s, t, id, Attempt(signature, AttemptPaid))
        else SameSessions(s, t))
    && Settled(s, t, reply, r, signature, sender, now, 400)
  }

  ghost predicate SessionDetected(cfg: Config, s: State, t: State, reply: Reply, id: string, rpc: Rpc, now: Time)
    requires id in s.sessions
  {
    var session := s.sessions[id];
    var r := session.reference;
    if session.state == SessionPaid then t == s && r in s.checkouts && ReportsPaid(reply, r, s.checkouts[r])
    else if r !in s.redis then t == s && reply == Error(404)
    else if !Detectable(cfg, rpc, r, session.amount, session.merchant) then t == s && reply == StillPending
    else exists signature, sender: Key :: SessionSettled(s, t, reply, id, signature, sender, now)
                                     && FoundFirst(cfg, rpc, r, session.amount, session.merchant, signature, sender)
  }

  /** Detecting for a session reports a paid one, and otherwise settles it together with its reference, exactly when a listed
      payment is there. */
  lemma SessionDetectPaysIff(cfg: Config, s: State, id: string, rpc: Rpc, now: Time)
    requires Sane(cfg) && Reachable(cfg, s) && id in s.sessions
    ensures var (t, reply) := V1DetectPayment(cfg, s, id, rpc, now);
            SessionDetected(cfg, s, t, reply, id, rpc, now)
  {
    SubmittedSession(cfg, s, id);
    PaidSessionIsSigned(cfg, s, id);
    if s.sessions[id].reference in s.redis {
      LiveReference(cfg, s, s.sessions[id].reference);
    }
    LiveSessionDetectOutcome(cfg, s, id, rpc, now);
  }

  lemma PaidSessionIsSigned(cfg: Config, s: State, id: string)
    requires Sane(cfg) && Reachable(cfg, s) && id in s.sessions
    ensures var r := s.sessions[id].reference;
            s.sessions[id].state == SessionPaid ==> IsPaid(s.checkouts, r) && s.checkouts[r].signature.Some? && r !in s.redis
  {
    ReachableIsInv(cfg, s);
    SessionFacts(cfg, s, id);
  }

  lemma LiveSessionDetectOutcome(cfg: Config, s: State, id: string, rpc: Rpc, now: Time)
    requires id in s.sessions
    requires var session := s.sessions[id]; var r := session.reference;
             && (r in s.redis ==> r !in s.checkouts && s.redis[r].amount == session.amount && s.redis[r].merchant == session.merchant)
             && (session.state == SessionPaid ==> IsPaid(s.checkouts, r) && s.checkouts[r].signature.Some?)
    ensures var (t, reply) := V1DetectPayment(cfg, s, id, rpc, now);
            SessionDetected(cfg, s, t, reply, id, rpc, now)
  {
    var session := s.sessions[id];
    if session.state != SessionPaid && session.reference in s.redis {
      var d := DetectFrom(cfg, rpc, session.reference, session.amount, session.merchant, 0);
      DetectionIsComplete(cfg, rpc, session.reference, session.amount, session.merchant);
      if d.Found? {
        SessionDetectWithOutcome(s, id, d, now);
        assert V1DetectPayment(cfg, s, id, rpc, now) == SessionDetectWith(s, id, d, now);
        assert FoundFirst(cfg, rpc, session.reference, session.amount, session.merchant, d.signature, d.sender);
      }
    }
  }

  lemma SessionDetectWithOutcome(s: State, id: string, d: Detection, now: Time)
    requires id in s.sessions && d.Found?
    requires var r := s.sessions[id].reference; r in s.redis && r !in s.checkouts && s.redis[r].amount == s.sessions[id].amount
    ensures var (t, reply) := SessionDetectWith(s, id, d, now);
            SessionSettled(s, t, reply, id, d.signature, d.sender, now)
  {
    var r := s.sessions[id].reference;
    var invoice := WithSender(s.redis[r], d.sender);
    FinalizeOutcome(s, r, d.signature, invoice, d.sender, now);
    PaidShapeOf(FinalizePaidCheckout(s, r, d.signature, invoice, invoice.amount, now).0, id, d.signature);
  }
}
