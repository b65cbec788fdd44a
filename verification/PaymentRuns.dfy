/** Runs: any sequence of handler calls, sweep turns, expiries and blocks, and what holds along all of them. */
module PaymentRuns {
  import opened Text
  import opened Transactions
  import opened Verifiers
  import opened PaymentState
  import opened PaymentHandlers
  import opened PaymentInvariants
  import opened PaymentEffects
  import opened PaymentSteps

  datatype Step =
    | NewEvent(owner: string, slug: string, dollars: int, merchant: string, expiresAt: Time, walletEnabled: bool, qrEnabled: bool)
    | EditEvent(id: EventId, owner: string, dollars: int, merchant: string, expiresAt: Time, walletEnabled: bool, qrEnabled: bool)
    | RemoveEvent(id: EventId, owner: string)
    | CreateInvoice(slug: string, wallet: string, participant: Participant, formOk: bool, payMethod: string, now: Time, reference: string)
    | CancelInvoice(reference: string)
    | Confirm(reference: string, signature: string, rpc: Rpc, now: Time)
    | Recheck(reference: string, signature: string, rpc: Rpc, now: Time)
    | Detect(reference: string, rpc: Rpc, now: Time)
    | ManualVerify(slug: string, wallet: string, signature: string, participant: Participant, rpc: Rpc, now: Time, reference: string)
    | SessionCreate(claims: Option<string>, eventId: EventId, slug: string, payMethod: string, wallet: string,
                    participant: Participant, formOk: bool, header: string, now: Time, sessionId: string, reference: string)
    | SessionSubmit(sessionId: string, signature: string, header: string, rpc: Rpc, now: Time)
    | SessionCancel(sessionId: string, header: string)
    | SessionDetect(sessionId: string, rpc: Rpc, now: Time)
    | SweepSelect(rows: seq<RecoveryRow>, now: Time)   // the sweep's SELECT
    | SweepRow(row: RecoveryRow, rpc: Rpc, now: Time)  // one turn of a sweep's loop, at any later moment
    | Expire(reference: string)                        // Redis drops an invoice
    | Grow(chain: Chain)                               // the chain grows

  ghost function Take(cfg: Config, s: State, step: Step): (State, Reply) {
    match step
    case NewEvent(owner, slug, dollars, merchant, expiresAt, w, q) => CreateEvent(cfg, s, owner, slug, dollars, merchant, expiresAt, w, q)
    case EditEvent(id, owner, dollars, merchant, expiresAt, w, q) => UpdateEvent(cfg, s, id, owner, dollars, merchant, expiresAt, w, q)
    case RemoveEvent(id, owner) => DeleteEvent(s, id, owner)
    case CreateInvoice(slug, wallet, p, formOk, m, now, r) => CreateCheckoutInvoice(cfg, s, slug, wallet, p, formOk, m, now, r)
    case CancelInvoice(r) => CancelCheckoutInvoice(cfg, s, r)
    case Confirm(r, sig, rpc, now) => ConfirmCheckoutPayment(cfg, s, r, sig, rpc, now)
    case Recheck(r, sig, rpc, now) => RecheckCheckoutPayment(cfg, s, r, sig, rpc, now)
    case Detect(r, rpc, now) => DetectCheckoutPayment(cfg, s, r, rpc, now)
    case ManualVerify(slug, wallet, sig, p, rpc, now, r) => ManualVerifyCheckoutPayment(cfg, s, slug, wallet, sig, p, rpc, now, r)
    case SessionCreate(claims, e, slug, m, wallet, p, formOk, header, now, id, r) =>
      V1CreatePaymentSession(cfg, s, claims, e, slug, m, wallet, p, formOk, header, now, id, r)
    case SessionSubmit(id, sig, header, rpc, now) => V1SubmitSignature(cfg, s, id, sig, header, rpc, now)
    case SessionCancel(id, header) => V1CancelPaymentSession(s, id, header)
    case SessionDetect(id, rpc, now) => V1DetectPayment(cfg, s, id, rpc, now)
    case SweepSelect(rows, now) => (SelectRows(s, rows), Done)
    case SweepRow(row, rpc, now) => (RecoverRow(cfg, s, row, rpc, now), Done)
    case Expire(r) => (DropInvoice(s, r), Done)
    case Grow(chain) => (s.(chain := chain), Done)
  }

  /** Fresh UUIDs, a node that answers from the chain, a SELECT that returns what it should, a chain that only grows. */
  ghost predicate Allowed(s: State, step: Step) {
    match step
    case CreateInvoice(_, _, _, _, _, _, r) => r !in s.issued
    case ManualVerify(_, _, _, _, rpc, _, r) => r !in s.issued && Answers(rpc, s.chain)
    case SessionCreate(_, _, _, _, _, _, _, _, _, id, r) => r !in s.issued && id !in s.issued && id != r
    case Confirm(_, _, rpc, _) => Answers(rpc, s.chain)
    case Recheck(_, _, rpc, _) => Answers(rpc, s.chain)
    case Detect(_, rpc, _) => Answers(rpc, s.chain)
    case SessionSubmit(_, _, _, rpc, _) => Answers(rpc, s.chain)
    case SessionDetect(_, rpc, _) => Answers(rpc, s.chain)
    case SweepSelect(rows, now) => Selection(s.events, s.checkouts, now, rows)
    case SweepRow(row, rpc, _) => row in s.selected && Answers(rpc, s.chain)
    case Grow(chain) => Submap(s.chain, chain)
    case _ => true
  }

  lemma StepIsGood(cfg: Config, s: State, step: Step)
    requires Sane(cfg) && Inv(cfg, s) && Allowed(s, step)
    ensures Good(cfg, s, Take(cfg, s, step).0)
  {
    match step
    case NewEvent(owner, slug, dollars, merchant, expiresAt, w, q) =>
      CreateEventIsGood(cfg, s, owner, slug, dollars, merchant, expiresAt, w, q);
    case EditEvent(id, owner, dollars, merchant, expiresAt, w, q) =>
      UpdateEventIsGood(cfg, s, id, owner, dollars, merchant, expiresAt, w, q);
    case RemoveEvent(id, owner) => DeleteEventIsGood(cfg, s, id, owner);
    case CreateInvoice(slug, wallet, p, formOk, m, now, r) => CreateCheckoutInvoiceIsGood(cfg, s, slug, wallet, p, formOk, m, now, r);
    case CancelInvoice(r) => CancelCheckoutInvoiceIsGood(cfg, s, r);
    case Confirm(r, sig, rpc, now) => ConfirmIsGood(cfg, s, r, sig, rpc, now);
    case Recheck(r, sig, rpc, now) => RecheckIsGood(cfg, s, r, sig, rpc, now);
    case Detect(r, rpc, now) => DetectIsGood(cfg, s, r, rpc, now);
    case ManualVerify(slug, wallet, sig, p, rpc, now, r) => ManualVerifyIsGood(cfg, s, slug, wallet, sig, p, rpc, now, r);
    case SessionCreate(claims, e, slug, m, wallet, p, formOk, header, now, id, r) =>
      V1CreateIsGood(cfg, s, claims, e, slug, m, wallet, p, formOk, header, now, id, r);
    case SessionSubmit(id, sig, header, rpc, now) => V1SubmitIsGood(cfg, s, id, sig, header, rpc, now);
    case SessionCancel(id, header) => V1CancelIsGood(cfg, s, id, header);
    case SessionDetect(id, rpc, now) => V1DetectIsGood(cfg, s, id, rpc, now);
    case SweepSelect(rows, now) => SelectIsGood(cfg, s, rows, now);
    case SweepRow(row, rpc, now) => RecoverRowIsGood(cfg, s, row, rpc, now);
    case Expire(r) => DropIsGood(cfg, s, r);
    case Grow(chain) => GrowIsGood(cfg, s, chain);
  }

  ghost function Run(cfg: Config, s: State, steps: seq<Step>): State
    decreases steps
  {
    if steps == [] then s else Run(cfg, Take(cfg, s, steps[0]).0, steps[1..])
  }

  ghost predicate AllowedRun(cfg: Config, s: State, steps: seq<Step>)
    decreases steps
  {
    steps == [] || (Allowed(s, steps[0]) && AllowedRun(cfg, Take(cfg, s, steps[0]).0, steps[1..]))
  }

  /** Every run keeps the invariant and undoes nothing. */
  lemma {:induction false} RunIsGood(cfg: Config, s: State, steps: seq<Step>)
    requires Sane(cfg) && Inv(cfg, s) && AllowedRun(cfg, s, steps)
    ensures Good(cfg, s, Run(cfg, s, steps))
    decreases steps
  {
    PreservesItself(s);
    if steps != [] {
      var t := Take(cfg, s, steps[0]).0;
      StepIsGood(cfg, s, steps[0]);
      RunIsGood(cfg, t, steps[1..]);
      GoodIsTransitive(cfg, s, t, Run(cfg, s, steps));
    }
  }

  ghost predicate Reachable(cfg: Config, s: State) {
    exists s0, steps :: Init(cfg, s0) && AllowedRun(cfg, s0, steps) && s == Run(cfg, s0, steps)
  }

  lemma ReachableIsInv(cfg: Config, s: State)
    requires Sane(cfg) && Reachable(cfg, s)
    ensures Inv(cfg, s)
  {
    var s0, steps :| Init(cfg, s0) && AllowedRun(cfg, s0, steps) && s == Run(cfg, s0, steps);
    InitEstablishes(cfg, s0);
    RunIsGood(cfg, s0, steps);
  }
}
