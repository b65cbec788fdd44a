/** The handlers as they run: statement by statement over the tables and Redis. */
module PaymentService {
  import opened Text
  import opened Transactions
  import opened Verifiers
  import opened PaymentState
  import opened PaymentHandlers
  import opened PaymentInvariants
  import opened PaymentEffects
  import opened PaymentSteps
  import opened PaymentRuns

  class Service {
    const cfg: Config
    var events: map<EventId, Event>
    var slugs: map<string, EventId>
    var redis: map<string, Invoice>
    var invoices: map<string, InvoiceRow>
    var checkouts: map<string, Checkout>
    var sessions: map<string, Session>
    var attempts: map<string, seq<Attempt>>
    var records: map<IdempotencyKey, Reply>
    var nextEvent: EventId
    ghost var chain: Chain
    ghost var issued: set<string>
    ghost var origins: map<string, Origin>
    ghost var stateLog: map<string, seq<SessionState>>
    ghost var selected: set<RecoveryRow>

    ghost function Now(): State
      reads this
    {
      State(events, slugs, redis, invoices, checkouts, sessions, attempts, records, chain, nextEvent, issued, origins,
            stateLog, selected)
    }

    ghost predicate Valid()
      reads this
    {
      Sane(cfg) && Inv(cfg, Now())
    }

    /** A service over the tables an earlier version left behind. */
    constructor (cfg: Config, start: State)
      requires Sane(cfg) && Init(cfg, start)
      ensures this.cfg == cfg && Now() == start && Valid()
    {
      this.cfg := cfg;
      events, slugs, redis, invoices, checkouts := start.events, start.slugs, start.redis, start.invoices, start.checkouts;
      sessions, attempts, records, nextEvent := start.sessions, start.attempts, start.records, start.nextEvent;
      chain, issued, origins, stateLog, selected := start.chain, start.issued, start.origins, start.stateLog, start.selected;
    }

    // Statements

    method OpenInvoice(reference: string, invoice: Invoice)
      modifies this
      ensures Now() == Open(old(Now()), reference, invoice)
    {
      redis := redis[reference := invoice];
      issued := issued + {reference};
      origins := origins[reference := Opened(invoice)];
    }

    method DeleteInvoice(reference: string)
      modifies this`redis
      ensures Now() == DropInvoice(old(Now()), reference)
    {
      redis := redis - {reference};
    }

    method DeletePendingCheckout(reference: string)
      modifies this`checkouts
      ensures Now() == old(Now()).(checkouts := WithoutPending(old(checkouts), reference))
    {
      if reference in checkouts && checkouts[reference].signature.None? && checkouts[reference].status == PendingPayment {
        checkouts := checkouts - {reference};
      }
    }

    method UpdateState(id: string, state: SessionState)
      requires id in sessions
      modifies this`sessions, this`stateLog
      ensures Now() == SetSessionState(old(Now()), id, state)
    {
      sessions := sessions[id := sessions[id].(state := state)];
      stateLog := stateLog[id := LogOf(stateLog, id) + [state]];
    }

    method InsertAttempt(id: string, attempt: Attempt)
      modifies this`attempts
      ensures Now() == AddAttempt(old(Now()), id, attempt)
    {
      var rows := if id in attempts then attempts[id] else [];
      attempts := attempts[id := rows + [attempt]];
    }

    method LoadIdempotentResponse(owner: string, key: string, endpoint: Endpoint) returns (stored: Option<Reply>)
      ensures stored == LoadRecord(Now(), owner, key, endpoint)
    {
      if TrimSpace(owner) == "" || TrimSpace(key) == "" {
        return None;
      }
      var k := IdempotencyKey(owner, key, endpoint);
      stored := if k in records then Some(records[k]) else None;
    }

    method SaveIdempotentResponse(owner: string, key: string, endpoint: Endpoint, reply: Reply)
      modifies this`records
      ensures Now() == SaveRecord(old(Now()), owner, key, endpoint, reply)
    {
      if TrimSpace(owner) == "" || TrimSpace(key) == "" {
        return;
      }
      records := records[IdempotencyKey(owner, key, endpoint) := reply];
    }

    /** finalizePaidCheckout */
    method FinalizePaid(reference: string, signature: string, invoice: Invoice, amount: int, now: Time) returns (ok: bool)
      modifies this`invoices, this`checkouts
      ensures (Now(), ok) == FinalizePaidCheckout(old(Now()), reference, signature, invoice, amount, now)
    {
      var wallet := TrimSpace(invoice.wallet);
      if wallet == "" {
        wallet := "unknown_wallet";
      }
      var payMethod := TrimSpace(invoice.payMethod);
      if payMethod == "" {
        payMethod := "wallet";
      }
      if EmailTaken(checkouts, invoice.event, reference, invoice.participant) {
        return false;
      }
      if reference in invoices {
        var row := invoices[reference].(status := InvoicePaid, signature := Some(signature), errReason := None);
        invoices := invoices[reference := row];
      } else {
        invoices := invoices[reference := InvoiceRow(wallet, amount, Some(signature), InvoicePaid, None)];
      }
      if reference in checkouts {
        var row := checkouts[reference].(status := Paid, signature := Some(signature), paidAt := Some(now),
                                         participant := invoice.participant, payMethod := payMethod);
        checkouts := checkouts[reference := row];
      } else if invoice.event in events {
        var row := Checkout(invoice.event, wallet, Some(signature), amount, Paid, now, Some(now), invoice.participant, payMethod);
        checkouts := checkouts[reference := row];
      } else {
        return false;
      }
      ok := true;
    }

    // Events

    method HandleCreateEvent(owner: string, slug: string, dollars: int, merchant: string, expiresAt: Time,
                             walletEnabled: bool, qrEnabled: bool) returns (reply: Reply)
      requires Valid()
      modifies this
      ensures (Now(), reply) == CreateEvent(cfg, old(Now()), owner, slug, dollars, merchant, expiresAt, walletEnabled, qrEnabled)
      ensures Valid() && Preserves(old(Now()), Now())
    {
      CreateEventIsGood(cfg, Now(), owner, slug, dollars, merchant, expiresAt, walletEnabled, qrEnabled);
      if !ValidWallet(cfg, merchant) || dollars <= 0 {
        return Error(400);
      }
      if slug in slugs {
        return Error(500);
      }
      InsertEvent(Event(owner, slug, Int64(dollars * 1_000_000), merchant, expiresAt, true, walletEnabled, qrEnabled));
      reply := Done;
    }

    method InsertEvent(event: Event)
      modifies this`events, this`slugs, this`nextEvent
      ensures Now() == AddEvent(old(Now()), event)
    {
      events := events[nextEvent := event];
      slugs := slugs[event.slug := nextEvent];
      nextEvent := nextEvent + 1;
    }

    method HandleUpdateEvent(id: EventId, owner: string, dollars: int, merchant: string, expiresAt: Time,
                             walletEnabled: bool, qrEnabled: bool) returns (reply: Reply)
      requires Valid()
      modifies this
      ensures (Now(), reply) == UpdateEvent(cfg, old(Now()), id, owner, dollars, merchant, expiresAt, walletEnabled, qrEnabled)
      ensures Valid() && Preserves(old(Now()), Now())
    {
      UpdateEventIsGood(cfg, Now(), id, owner, dollars, merchant, expiresAt, walletEnabled, qrEnabled);
      if !ValidWallet(cfg, merchant) || dollars <= 0 {
        return Error(400);
      }
      if HasPaidDeposits(checkouts, id) {
        return Error(409);
      }
      if id !in events || events[id].owner != owner {
        return Error(404);
      }
      events := events[id := events[id].(amount := Int64(dollars * 1_000_000), merchant := merchant, expiresAt := expiresAt,
                                         walletEnabled := walletEnabled, qrEnabled := qrEnabled)];
      reply := Done;
    }

    method HandleDeleteEvent(id: EventId, owner: string) returns (reply: Reply)
      requires Valid()
      modifies this
      ensures (Now(), reply) == DeleteEvent(old(Now()), id, owner)
      ensures Valid() && Preserves(old(Now()), Now())
    {
      DeleteEventIsGood(cfg, Now(), id, owner);
      if HasPaidDeposits(checkouts, id) {
        return Error(409);
      }
      if id !in events || events[id].owner != owner {
        return Error(404);
      }
      DeleteCascading(id);
      reply := Done;
    }

    /** One DELETE; the foreign keys cascade it. */
    method DeleteCascading(id: EventId)
      modifies this`events, this`slugs, this`checkouts, this`sessions, this`attempts
      ensures Now() == Cascade(old(Now()), id)
    {
      events := events - {id};
      slugs := SlugsWithout(slugs, id);
      checkouts := CheckoutsWithout(checkouts, id);
      var orphans := SessionsOf(sessions, id);
      sessions := sessions - orphans;
      attempts := attempts - orphans;
    }

    // Checkout

    method HandleCreateInvoice(slug: string, wallet: string, participant: Participant, formOk: bool, payMethod: string,
                               now: Time, reference: string) returns (reply: Reply)
      requires Valid() && reference !in issued
      modifies this
      ensures (Now(), reply) == CreateCheckoutInvoice(cfg, old(Now()), slug, wallet, participant, formOk, payMethod, now, reference)
      ensures Valid() && Preserves(old(Now()), Now())
    {
      CreateCheckoutInvoiceIsGood(cfg, Now(), slug, wallet, participant, formOk, payMethod, now, reference);
      var name, payer, channel := TrimSpace(slug), TrimSpace(wallet), TrimSpace(payMethod);
      if name == "" {
        return Error(400);
      }
      if !(name in slugs && slugs[name] in events && events[slugs[name]].active) {
        return Error(404);
      }
      var id := slugs[name];
      var event := events[id];
      if event.expiresAt < now {
        return Error(410);
      }
      if !formOk {
        return Error(400);
      }
      if EmailUsed(checkouts, id, participant) {
        return Error(409);
      }
      if channel == "wallet" {
        if !event.walletEnabled || !ValidWallet(cfg, payer) {
          return Error(400);
        }
      } else if channel == "qr" {
        if !event.qrEnabled {
          return Error(400);
        }
      } else {
        return Error(400);
      }
      OpenInvoice(reference, Invoice(payer, event.amount, id, event.merchant, channel, participant));
      reply := InvoiceCreated(reference, event.amount);
    }

    method HandleCancelInvoice(reference: string) returns (reply: Reply)
      requires Valid()
      modifies this
      ensures (Now(), reply) == CancelCheckoutInvoice(cfg, old(Now()), reference)
      ensures Valid() && Preserves(old(Now()), Now())
    {
      CancelCheckoutInvoiceIsGood(cfg, Now(), reference);
      if !cfg.isReference(TrimSpace(reference)) {
        return Error(400);
      }
      DeletePendingCheckout(reference);
      if reference in invoices && invoices[reference].signature.None? && invoices[reference].status == InvoicePending {
        invoices := invoices - {reference};
      }
      DeleteInvoice(reference);
      reply := Done;
    }

    method HandleConfirm(reference: string, signature: string, rpc: Rpc, now: Time) returns (reply: Reply)
      requires Valid() && Answers(rpc, chain)
      modifies this
      ensures (Now(), reply) == ConfirmCheckoutPayment(cfg, old(Now()), reference, signature, rpc, now)
      ensures Valid() && Preserves(old(Now()), Now())
    {
      ConfirmIsGood(cfg, Now(), reference, signature, rpc, now);
      if !cfg.isReference(reference) || TrimSpace(signature) == "" {
        return Error(400);
      }
      if reference !in redis {
        return Error(404);
      }
      var invoice := redis[reference];
      var merchant := TrimSpace(invoice.merchant);
      if merchant == "" {
        return Error(500);
      }
      var verdict := VerifySignature(cfg, rpc, reference, signature, invoice.amount, merchant);
      reply := SettleConfirm(reference, signature, verdict, now);
    }

    method SettleConfirm(reference: string, signature: string, verdict: Verdict, now: Time) returns (reply: Reply)
      requires reference in redis
      modifies this`invoices, this`checkouts, this`redis
      ensures (Now(), reply) == ConfirmWith(old(Now()), reference, signature, verdict, now)
    {
      var invoice := redis[reference];
      if verdict.Refused? {
        if reference in invoices {
          var row := invoices[reference].(status := InvoiceError, signature := Some(signature), errReason := Some(verdict.reason));
          invoices := invoices[reference := row];
        } else {
          var row := InvoiceRow(TrimSpace(invoice.wallet), invoice.amount, Some(signature), InvoiceError, Some(verdict.reason));
          invoices := invoices[reference := row];
        }
        return Error(400);
      }
      var ok := FinalizePaid(reference, signature, invoice, invoice.amount, now);
      if !ok {
        return Error(500);
      }
      DeleteInvoice(reference);
      reply := StatusOf(checkouts, reference);
    }

    method HandleRecheck(reference: string, signature: string, rpc: Rpc, now: Time) returns (reply: Reply)
      requires Valid() && Answers(rpc, chain)
      modifies this
      ensures (Now(), reply) == RecheckCheckoutPayment(cfg, old(Now()), reference, signature, rpc, now)
      ensures Valid() && Preserves(old(Now()), Now())
    {
      RecheckIsGood(cfg, Now(), reference, signature, rpc, now);
      if !cfg.isReference(TrimSpace(reference)) {
        return Error(400);
      }
      if IsPaid(checkouts, reference) {
        return StatusOf(checkouts, reference);
      }
      if reference !in redis {
        return Error(404);
      }
      var invoice := redis[reference];
      var merchant, trimmed := TrimSpace(invoice.merchant), TrimSpace(signature);
      if merchant == "" || trimmed == "" {
        return Error(400);
      }
      var verdict := VerifySignature(cfg, rpc, reference, trimmed, invoice.amount, merchant);
      reply := SettleRecheck(reference, trimmed, verdict, now);
    }

    method SettleRecheck(reference: string, signature: string, verdict: Verdict, now: Time) returns (reply: Reply)
      requires reference in redis
      modifies this`invoices, this`checkouts, this`redis
      ensures (Now(), reply) == RecheckWith(old(Now()), reference, signature, verdict, now)
    {
      var invoice := redis[reference];
      if verdict.Refused? {
        return Error(400);
      }
      var ok := FinalizePaid(reference, signature, invoice, invoice.amount, now);
      if !ok {
        return Error(500);
      }
      DeleteInvoice(reference);
      reply := StatusOf(checkouts, reference);
    }

    method HandleDetect(reference: string, rpc: Rpc, now: Time) returns (reply: Reply)
      requires Valid() && Answers(rpc, chain)
      modifies this
      ensures (Now(), reply) == DetectCheckoutPayment(cfg, old(Now()), reference, rpc, now)
      ensures Valid() && Preserves(old(Now()), Now())
    {
      DetectIsGood(cfg, Now(), reference, rpc, now);
      var r := TrimSpace(reference);
      if !cfg.isReference(r) {
        return Error(400);
      }
      if IsPaid(checkouts, r) {
        return StatusOf(checkouts, r);
      }
      if r !in redis {
        return Error(404);
      }
      var invoice := redis[r];
      var merchant := TrimSpace(invoice.merchant);
      if merchant == "" {
        return Error(400);
      }
      var detection := DetectSignature(cfg, rpc, r, invoice.amount, merchant);
      reply := SettleDetect(r, detection, now);
    }

    method SettleDetect(reference: string, detection: Detection, now: Time) returns (reply: Reply)
      requires reference in redis
      modifies this`invoices, this`checkouts, this`redis
      ensures (Now(), reply) == DetectWith(old(Now()), reference, detection, now)
    {
      var invoice := redis[reference];
      if detection.NotDetected? {
        return StillPending;
      }
      var ok := FinalizePaid(reference, detection.signature, WithSender(invoice, detection.sender), invoice.amount, now);
      if !ok {
        return Error(400);
      }
      DeleteInvoice(reference);
      reply := StatusOf(checkouts, reference);
    }

    method HandleManualVerify(slug: string, wallet: string, signature: string, participant: Participant, rpc: Rpc,
                              now: Time, reference: string) returns (reply: Reply)
      requires Valid() && Answers(rpc, chain) && reference !in issued
      modifies this
      ensures (Now(), reply) == ManualVerifyCheckoutPayment(cfg, old(Now()), slug, wallet, signature, participant, rpc, now, reference)
      ensures Valid() && Preserves(old(Now()), Now())
    {
      ManualVerifyIsGood(cfg, Now(), slug, wallet, signature, participant, rpc, now, reference);
      var name, payer, trimmed := TrimSpace(slug), TrimSpace(wallet), TrimSpace(signature);
      if name == "" || trimmed == "" || !ValidWallet(cfg, payer) {
        return Error(400);
      }
      if !(name in slugs && slugs[name] in events && events[slugs[name]].active) {
        return Error(404);
      }
      var id := slugs[name];
      var event := events[id];
      var ok := VerifyDirectSignature(cfg, rpc, trimmed, event.amount, event.merchant, payer);
      if !ok {
        return Error(400);
      }
      var row := InvoiceRow(payer, event.amount, Some(trimmed), InvoicePaid, None);
      InsertDirect(reference, row, Checkout(id, payer, Some(trimmed), event.amount, Paid, now, Some(now), participant, "wallet"));
      reply := CheckoutReport(reference, Paid, trimmed, participant, "");
    }

    method InsertDirect(reference: string, row: InvoiceRow, checkout: Checkout)
      modifies this`invoices, this`checkouts, this`issued, this`origins
      ensures Now() == AddDirect(old(Now()), reference, row, checkout)
    {
      issued := issued + {reference};
      origins := origins[reference := Direct];
      invoices := invoices[reference := row];
      checkouts := checkouts[reference := checkout];
    }

    // Headless sessions

    method HandleV1Create(claims: Option<string>, eventId: EventId, slug: string, payMethod: string, wallet: string,
                          participant: Participant, formOk: bool, header: string, now: Time, sessionId: string,
                          reference: string) returns (reply: Reply)
      requires Valid() && reference !in issued && sessionId !in issued && sessionId != reference
      modifies this
      ensures (Now(), reply) == V1CreatePaymentSession(cfg, old(Now()), claims, eventId, slug, payMethod, wallet, participant,
                                                       formOk, header, now, sessionId, reference)
      ensures Valid() && Preserves(old(Now()), Now())
    {
      V1CreateIsGood(cfg, Now(), claims, eventId, slug, payMethod, wallet, participant, formOk, header, now, sessionId, reference);
      var owner, key := OwnerOf(claims), TrimSpace(header);
      var stored := LoadIdempotentResponse(owner, key, CreateSession);
      if stored.Some? {
        return stored.value;
      }
      var id := eventId;
      if eventId == 0 {
        var name := TrimSpace(slug);
        if name !in slugs {
          return Error(404);
        }
        id := slugs[name];
      }
      if id !in events || !events[id].active {
        return Error(404);
      }
      reply := InsertSession(owner, key, id, TrimSpace(payMethod), TrimSpace(wallet), participant, formOk, now, sessionId, reference);
    }

    method InsertSessionRow(id: string, session: Session)
      modifies this`sessions, this`attempts, this`issued, this`stateLog
      ensures Now() == AddSession(old(Now()), id, session)
    {
      sessions := sessions[id := session];
      attempts := attempts[id := []];
      issued := issued + {id};
      stateLog := stateLog[id := [session.state]];
    }

    method CheckSession(id: EventId, formOk: bool, participant: Participant, payMethod: string, wallet: string, now: Time)
      returns (error: Option<nat>)
      requires id in events
      ensures error == OpeningError(cfg, Now(), id, formOk, participant, payMethod, wallet, now)
    {
      var event := events[id];
      if event.expiresAt < now {
        return Some(410);
      }
      if !formOk {
        return Some(400);
      }
      if EmailUsed(checkouts, id, participant) {
        return Some(409);
      }
      if payMethod == "wallet" && !event.walletEnabled {
        return Some(400);
      }
      if payMethod == "qr" && !event.qrEnabled {
        return Some(400);
      }
      if payMethod != "wallet" && payMethod != "qr" {
        return Some(400);
      }
      if payMethod == "wallet" && !ValidWallet(cfg, wallet) {
        return Some(400);
      }
      error := None;
    }

    method InsertSession(owner: string, key: string, id: EventId, payMethod: string, wallet: string, participant: Participant,
                         formOk: bool, now: Time, sessionId: string, reference: string) returns (reply: Reply)
      requires id in events
      modifies this
      ensures (Now(), reply) == OpenSession(cfg, old(Now()), owner, key, id, payMethod, wallet, participant, formOk, now, sessionId, reference)
    {
      var error := CheckSession(id, formOk, participant, payMethod, wallet, now);
      if error.Some? {
        return Error(error.value);
      }
      var event := events[id];
      OpenInvoice(reference, Invoice(wallet, event.amount, id, event.merchant, payMethod, participant));
      if KeyTaken(sessions, owner, key) {
        return Error(500);
      }
      var expiresAt := now + 20 * MINUTE;
      InsertSessionRow(sessionId, Session(id, owner, participant, wallet, payMethod, Awaiting, reference, event.amount,
                                          cfg.mint, event.merchant, key, None, expiresAt));
      reply := SessionCreated(sessionId, reference, payMethod, event.amount, cfg.mint, expiresAt);
      SaveIdempotentResponse(owner, key, CreateSession, reply);
    }

    method HandleV1Submit(id: string, signature: string, header: string, rpc: Rpc, now: Time) returns (reply: Reply)
      requires Valid() && Answers(rpc, chain)
      modifies this
      ensures (Now(), reply) == V1SubmitSignature(cfg, old(Now()), id, signature, header, rpc, now)
      ensures Valid() && Preserves(old(Now()), Now())
    {
      V1SubmitIsGood(cfg, Now(), id, signature, header, rpc, now);
      var trimmed, key := TrimSpace(signature), TrimSpace(header);
      if trimmed == "" {
        return Error(400);
      }
      if id !in sessions {
        return Error(404);
      }
      var session := sessions[id];
      var stored := LoadIdempotentResponse(session.owner, key, SubmitSignature);
      if stored.Some? {
        return stored.value;
      }
      if session.state != Awaiting && session.state != Verifying {
        return Error(409);
      }
      reply := VerifyAndSettle(id, trimmed, key, rpc, now);
    }

    method VerifyAndSettle(id: string, signature: string, key: string, rpc: Rpc, now: Time) returns (reply: Reply)
      requires id in sessions
      modifies this
      ensures (Now(), reply) == Submit(cfg, old(Now()), id, signature, key, rpc, now)
    {
      var session := sessions[id];
      UpdateState(id, Verifying);
      if session.reference !in redis {
        return Error(404);
      }
      var verdict := VerifySignature(cfg, rpc, session.reference, signature, session.amount, session.merchant);
      reply := SettleSubmit(id, signature, key, verdict, now);
    }

    method SettleSubmit(id: string, signature: string, key: string, verdict: Verdict, now: Time) returns (reply: Reply)
      requires id in sessions && sessions[id].reference in redis
      modifies this
      ensures (Now(), reply) == SubmitWith(old(Now()), id, signature, key, verdict, now)
    {
      var session := sessions[id];
      var invoice := redis[session.reference];
      if verdict.Refused? {
        InsertAttempt(id, Attempt(signature, AttemptFailed));
        UpdateState(id, SessionFailed);
        return Error(400);
      }
      var ok := FinalizePaid(session.reference, signature, invoice, session.amount, now);
      if !ok {
        InsertAttempt(id, Attempt(signature, AttemptFailed));
        UpdateState(id, SessionFailed);
        return Error(500);
      }
      MarkSessionPaid(id, signature);
      DeleteInvoice(session.reference);
      reply := StatusOf(checkouts, session.reference);
      SaveIdempotentResponse(session.owner, key, SubmitSignature, reply);
    }

    method MarkSessionPaid(id: string, signature: string)
      requires id in sessions
      modifies this`attempts, this`sessions, this`stateLog
      ensures Now() == PaySession(old(Now()), id, signature)
    {
      InsertAttempt(id, Attempt(signature, AttemptPaid));
      sessions := sessions[id := sessions[id].(state := SessionPaid, signature := Some(signature))];
      stateLog := stateLog[id := LogOf(stateLog, id) + [SessionPaid]];
    }

    method HandleV1Cancel(id: string, header: string) returns (reply: Reply)
      requires Valid()
      modifies this
      ensures (Now(), reply) == V1CancelPaymentSession(old(Now()), id, header)
      ensures Valid() && Preserves(old(Now()), Now())
    {
      V1CancelIsGood(cfg, Now(), id, header);
      var key := TrimSpace(header);
      if id !in sessions {
        return Error(404);
      }
      var session := sessions[id];
      var stored := LoadIdempotentResponse(session.owner, key, CancelSession);
      if stored.Some? {
        return stored.value;
      }
      if session.state == SessionPaid {
        return Error(409);
      }
      UpdateState(id, Cancelled);
      DeletePendingCheckout(session.reference);
      DeleteInvoice(session.reference);
      SaveIdempotentResponse(session.owner, key, CancelSession, Done);
      reply := Done;
    }

    method HandleV1Detect(id: string, rpc: Rpc, now: Time) returns (reply: Reply)
      requires Valid() && Answers(rpc, chain)
      modifies this
      ensures (Now(), reply) == V1DetectPayment(cfg, old(Now()), id, rpc, now)
      ensures Valid() && Preserves(old(Now()), Now())
    {
      V1DetectIsGood(cfg, Now(), id, rpc, now);
      if id !in sessions {
        return Error(404);
      }
      var session := sessions[id];
      if session.state == SessionPaid {
        return StatusOf(checkouts, session.reference);
      }
      if session.reference !in redis {
        return Error(404);
      }
      var detection := DetectSignature(cfg, rpc, session.reference, session.amount, session.merchant);
      reply := SettleSessionDetect(id, detection, now);
    }

    method SettleSessionDetect(id: string, detection: Detection, now: Time) returns (reply: Reply)
      requires id in sessions && sessions[id].reference in redis
      modifies this
      ensures (Now(), reply) == SessionDetectWith(old(Now()), id, detection, now)
    {
      var session := sessions[id];
      var invoice := redis[session.reference];
      if detection.NotDetected? {
        return StillPending;
      }
      var ok := FinalizePaid(session.reference, detection.signature, WithSender(invoice, detection.sender), session.amount, now);
      if !ok {
        return Error(400);
      }
      MarkSessionPaid(id, detection.signature);
      DeleteInvoice(session.reference);
      reply := StatusOf(checkouts, session.reference);
    }

    // The sweep

    /** markCheckoutPaid */
    method MarkCheckoutPaid(reference: string, signature: string, sender: string, now: Time)
      modifies this`checkouts
      ensures Now() == old(Now()).(checkouts := checkouts)
      ensures checkouts == if reference !in old(checkouts) then old(checkouts) else
                old(checkouts)[reference := var c := old(checkouts)[reference];
                  c.(status := Paid, signature := Some(signature), paidAt := Some(c.paidAt.GetOr(now)),
                     wallet := if c.wallet == "" then sender else c.wallet)]
    {
      if reference in checkouts {
        var c := checkouts[reference];
        var paidAt := if c.paidAt.Some? then c.paidAt.value else now;
        var wallet := if c.wallet == "" then sender else c.wallet;
        checkouts := checkouts[reference := c.(status := Paid, signature := Some(signature), paidAt := Some(paidAt), wallet := wallet)];
      }
    }

    /** markCheckoutFailed */
    method MarkCheckoutFailed(reference: string)
      modifies this`checkouts
      ensures Now() == old(Now()).(checkouts := checkouts)
      ensures checkouts == if reference !in old(checkouts) || old(checkouts)[reference].status == Paid then old(checkouts)
                           else old(checkouts)[reference := old(checkouts)[reference].(status := Failed)]
    {
      if reference in checkouts && checkouts[reference].status != Paid {
        checkouts := checkouts[reference := checkouts[reference].(status := Failed)];
      }
    }

    method RecoverOne(row: RecoveryRow, rpc: Rpc, now: Time)
      modifies this`checkouts
      ensures Now() == RecoverRow(cfg, old(Now()), row, rpc, now)
    {
      var verdict := VerifySignature(cfg, rpc, row.reference, row.signature, row.amount, row.merchant);
      MarkCheckout(row, verdict, now);
    }

    method MarkCheckout(row: RecoveryRow, verdict: Verdict, now: Time)
      modifies this`checkouts
      ensures Now() == old(Now()).(checkouts := checkouts)
      ensures checkouts == if row.reference !in old(checkouts) then old(checkouts)
                           else old(checkouts)[row.reference := RecoverWith(old(checkouts)[row.reference], row, verdict, now)]
    {
      if verdict.Accepted? {
        MarkCheckoutPaid(row.reference, row.signature, verdict.sender, now);
      } else if now - row.createdAt > 60 * MINUTE {
        MarkCheckoutFailed(row.reference);
      }
      assert row.reference in old(checkouts) ==> old(checkouts)[row.reference := old(checkouts)[row.reference]] == old(checkouts);
    }

    method RecoverAll(rows: seq<RecoveryRow>, rpc: Rpc, now: Time)
      modifies this`checkouts
      ensures Now() == RecoverRows(cfg, old(Now()), rows, rpc, now)
    {
      ghost var start := Now();
      for i := 0 to |rows|
        invariant RecoverRows(cfg, Now(), rows[i..], rpc, now) == RecoverRows(cfg, start, rows, rpc, now)
      {
        assert rows[i..][0] == rows[i] && rows[i..][1..] == rows[i + 1..];
        RecoverOne(rows[i], rpc, now);
      }
    }

    /** RecoverErrorInvoices, given the rows its SELECT returned. */
    method HandleSweep(rows: seq<RecoveryRow>, rpc: Rpc, now: Time)
      requires Valid() && Answers(rpc, chain) && Selection(events, checkouts, now, rows)
      modifies this`checkouts, this`selected
      ensures Now() == RecoverErrorInvoices(cfg, old(Now()), rows, rpc, now)
      ensures Valid() && Preserves(old(Now()), Now())
    {
      SweepIsGood(cfg, Now(), rows, rpc, now);
      SelectAndRecover(rows, rpc, now);
    }

    method SelectAndRecover(rows: seq<RecoveryRow>, rpc: Rpc, now: Time)
      modifies this`checkouts, this`selected
      ensures Now() == RecoverErrorInvoices(cfg, old(Now()), rows, rpc, now)
    {
      selected := SelectRows(Now(), rows).selected;
      RecoverAll(rows, rpc, now);
    }

    // Everything else that happens

    /** Redis drops an invoice when its twenty minutes are over. */
    method ExpireInvoice(reference: string)
      requires Valid()
      modifies this`redis
      ensures Now() == DropInvoice(old(Now()), reference)
      ensures Valid() && Preserves(old(Now()), Now())
    {
      DropIsGood(cfg, Now(), reference);
      redis := redis - {reference};
    }

    /** The chain grows; finalized transactions stay as they are. */
    ghost method GrowChain(chain': Chain)
      requires Valid() && Submap(chain, chain')
      modifies this`chain
      ensures Now() == old(Now()).(chain := chain')
      ensures Valid() && Preserves(old(Now()), Now())
    {
      GrowIsGood(cfg, Now(), chain');
      chain := chain';
    }
  }

  lemma SweepIsGood(cfg: Config, s: State, rows: seq<RecoveryRow>, rpc: Rpc, now: Time)
    requires Sane(cfg) && Inv(cfg, s) && Selection(s.events, s.checkouts, now, rows) && Answers(rpc, s.chain)
    ensures Good(cfg, s, RecoverErrorInvoices(cfg, s, rows, rpc, now))
  {
    SelectIsGood(cfg, s, rows, now);
    LoopIsGood(cfg, SelectRows(s, rows), rows, rpc, now);
    GoodIsTransitive(cfg, s, SelectRows(s, rows), RecoverErrorInvoices(cfg, s, rows, rpc, now));
  }

  lemma {:induction false} LoopIsGood(cfg: Config, s: State, rows: seq<RecoveryRow>, rpc: Rpc, now: Time)
    requires Inv(cfg, s) && Answers(rpc, s.chain) && forall i | 0 <= i < |rows| :: rows[i] in s.selected
    ensures Good(cfg, s, RecoverRows(cfg, s, rows, rpc, now))
    decreases rows
  {
    PreservesItself(s);
    if rows != [] {
      var t := RecoverRow(cfg, s, rows[0], rpc, now);
      RecoverRowIsGood(cfg, s, rows[0], rpc, now);
      LoopIsGood(cfg, t, rows[1..], rpc, now);
      GoodIsTransitive(cfg, s, t, RecoverRows(cfg, s, rows, rpc, now));
    }
  }
}
