/** The recovery sweep: safe when interleaved, and stable when run twice. */
module SweepTheorems {
  import opened Collections
  import opened Text
  import opened Transactions
  import opened Verifiers
  import opened PaymentState
  import opened PaymentHandlers
  import opened PaymentInvariants
  import opened PaymentEffects
  import opened PaymentSteps
  import opened PaymentRuns
  import opened PaymentTheorems
  import opened PaymentBooks

  /** The checkout d may take the place of c: a paid row, a set paid_at, a non-empty wallet and everything else that
      was read stay as they are, and a row that becomes paid was paid on the chain to this merchant. */
  ghost predicate SafeRewrite(cfg: Config, chain: Chain, merchant: string, r: string, c: Checkout, d: Checkout) {
    && (c.status == Paid ==> d == c)
    && (c.paidAt.Some? ==> d.paidAt == c.paidAt)
    && (c.wallet != "" ==> d.wallet == c.wallet)
    && d.signature == c.signature && d.amount == c.amount && d.event == c.event && d.participant == c.participant
    && (d.status == Paid && c.status != Paid ==>
          d.signature.Some? && PaidOnChain(cfg, chain, r, d.signature.value, d.amount, merchant))
  }

  /** t is s with at most the checkout of this row rewritten, and that safely. */
  ghost predicate SafeTurn(cfg: Config, s: State, t: State, row: RecoveryRow) {
    var r := row.reference;
    if r in s.checkouts
    then r in t.checkouts && t == s.(checkouts := s.checkouts[r := t.checkouts[r]])
         && SafeRewrite(cfg, s.chain, row.merchant, r, s.checkouts[r], t.checkouts[r])
    else t == s
  }

  /** One turn of a sweep's loop, with anything having happened since its SELECT, rewrites at most the row it
      read, and that safely. */
  lemma TurnIsSafe(cfg: Config, s: State, row: RecoveryRow, rpc: Rpc, now: Time)
    requires Sane(cfg) && Reachable(cfg, s) && row in s.selected && Answers(rpc, s.chain)
    ensures SafeTurn(cfg, s, RecoverRow(cfg, s, row, rpc, now), row)
  {
    if row.reference in s.checkouts {
      SelectedRowFacts(cfg, s, row, rpc, now);
    }
    SelectedTurnIsSafe(cfg, s, row, rpc, now);
  }

  lemma SelectedTurnIsSafe(cfg: Config, s: State, row: RecoveryRow, rpc: Rpc, now: Time)
    requires Answers(rpc, s.chain)
    requires row.reference in s.checkouts ==>
               var c := s.checkouts[row.reference];
               && c.signature == Some(row.signature) && c.amount == row.amount
               && (c.status == Paid ==> RecoverCheckout(cfg, c, row, rpc, now) == c)
    ensures SafeTurn(cfg, s, RecoverRow(cfg, s, row, rpc, now), row)
  {
    if row.reference in s.checkouts {
      RecoveryIsSafe(cfg, s.chain, s.checkouts[row.reference], row, rpc, now);
    }
  }

  /** What one rewriting can do to a row the sweep has read. */
  lemma RecoveryIsSafe(cfg: Config, chain: Chain, c: Checkout, row: RecoveryRow, rpc: Rpc, now: Time)
    requires Answers(rpc, chain) && c.signature == Some(row.signature) && c.amount == row.amount
    requires c.status == Paid ==> RecoverCheckout(cfg, c, row, rpc, now) == c
    ensures SafeRewrite(cfg, chain, row.merchant, row.reference, c, RecoverCheckout(cfg, c, row, rpc, now))
  {
    if VerdictFor(cfg, rpc, row.reference, row.signature, row.amount, row.merchant).Accepted? {
      VerifiedIsPaid(cfg, rpc, chain, row.reference, row.signature, row.amount, row.merchant);
    }
  }

  lemma SelectedRowFacts(cfg: Config, s: State, row: RecoveryRow, rpc: Rpc, now: Time)
    requires Sane(cfg) && Reachable(cfg, s) && row in s.selected && row.reference in s.checkouts
    ensures s.checkouts[row.reference].signature == Some(row.signature) && s.checkouts[row.reference].amount == row.amount
    ensures s.checkouts[row.reference].status == Paid ==>
              RecoverCheckout(cfg, s.checkouts[row.reference], row, rpc, now) == s.checkouts[row.reference]
  {
    ReachableIsInv(cfg, s);
    if s.checkouts[row.reference].status == Paid {
      PaidIsNotRewritten(cfg, s, row, rpc, now);
    }
  }

  /** A row ends paid exactly when it was or its signature verifies, and is newly failed exactly when it was neither,
      nothing verifies and it is over an hour old. */
  lemma RecoveryOutcome(cfg: Config, c: Checkout, row: RecoveryRow, rpc: Rpc, now: Time)
    ensures var d := RecoverCheckout(cfg, c, row, rpc, now);
            var verifies := row.signature in rpc.transactions
                            && Accepts(cfg, rpc.transactions[row.signature], row.reference, row.amount, row.merchant);
            && (d.status == Paid <==> c.status == Paid || verifies)
            && (d.status == Failed && c.status != Failed <==>
                  c.status != Failed && c.status != Paid && !verifies && now - row.createdAt > 60 * MINUTE)
            && (verifies ==> d.signature == Some(row.signature) && d.paidAt.Some?)
  {
    VerdictDecides(cfg, rpc, row);
  }

  lemma VerdictDecides(cfg: Config, rpc: Rpc, row: RecoveryRow)
    ensures VerdictFor(cfg, rpc, row.reference, row.signature, row.amount, row.merchant).Accepted? <==>
              row.signature in rpc.transactions
              && Accepts(cfg, rpc.transactions[row.signature], row.reference, row.amount, row.merchant)
  {
  }

  ghost predicate Distinct(rows: seq<RecoveryRow>) {
    forall i, j | 0 <= i < j < |rows| :: rows[i].reference != rows[j].reference
  }

  /** The loop rewrites each selected checkout once and no other. */
  lemma {:induction false} LoopRewritesEachRow(cfg: Config, s: State, rows: seq<RecoveryRow>, rpc: Rpc, now: Time)
    requires Distinct(rows) && forall i | 0 <= i < |rows| :: rows[i].reference in s.checkouts
    ensures var t := RecoverRows(cfg, s, rows, rpc, now);
            && t == s.(checkouts := t.checkouts) && t.checkouts.Keys == s.checkouts.Keys
            && (forall i | 0 <= i < |rows| ::
                  t.checkouts[rows[i].reference] == RecoverCheckout(cfg, s.checkouts[rows[i].reference], rows[i], rpc, now))
            && (forall r | r in s.checkouts && (forall i | 0 <= i < |rows| :: rows[i].reference != r) :: t.checkouts[r] == s.checkouts[r])
    decreases rows
  {
    if rows != [] {
      var u, rest := RecoverRow(cfg, s, rows[0], rpc, now), rows[1..];
      LoopRewritesEachRow(cfg, u, rest, rpc, now);
      var t := RecoverRows(cfg, s, rows, rpc, now);
      assert forall i | 0 <= i < |rest| :: rest[i] == rows[i + 1];
      assert t.checkouts[rows[0].reference] == u.checkouts[rows[0].reference];
      forall i | 0 <= i < |rows|
        ensures t.checkouts[rows[i].reference] == RecoverCheckout(cfg, s.checkouts[rows[i].reference], rows[i], rpc, now)
      {
        if i > 0 {
          assert rows[i] == rest[i - 1] && u.checkouts[rows[i].reference] == s.checkouts[rows[i].reference];
        }
      }
      forall r | r in s.checkouts && (forall i | 0 <= i < |rows| :: rows[i].reference != r)
        ensures t.checkouts[r] == s.checkouts[r]
      {
        assert rows[0].reference != r;
        assert forall i | 0 <= i < |rest| :: rest[i] == rows[i + 1];
      }
    }
  }

  function EligibleReferences(events: Events, checkouts: Checkouts, now: Time): set<string> {
    set r | r in checkouts && Eligible(events, checkouts, r, now)
  }

  function ReferencesOf(rows: seq<RecoveryRow>): set<string> {
    set i | 0 <= i < |rows| :: rows[i].reference
  }

  lemma {:induction false} DistinctCount(rows: seq<RecoveryRow>)
    requires Distinct(rows)
    ensures |ReferencesOf(rows)| == |rows|
  {
    if rows != [] {
      var init := rows[..|rows| - 1];
      DistinctCount(init);
      assert ReferencesOf(rows) == ReferencesOf(init) + {rows[|rows| - 1].reference} by {
        forall r | r in ReferencesOf(rows)
          ensures r in ReferencesOf(init) + {rows[|rows| - 1].reference}
        {
          var i :| 0 <= i < |rows| && rows[i].reference == r;
          if i < |init| {
            assert init[i].reference == r;
          }
        }
        forall r | r in ReferencesOf(init)
          ensures r in ReferencesOf(rows)
        {
          var i :| 0 <= i < |init| && init[i].reference == r;
          assert rows[i].reference == r;
        }
      }
      assert rows[|rows| - 1].reference !in ReferencesOf(init);
    }
  }

  /** With at most 200 eligible rows the SELECT returns them all. */
  lemma SmallSelectionIsComplete(s: State, now: Time, rows: seq<RecoveryRow>, r: string)
    requires Selection(s.events, s.checkouts, now, rows) && Eligible(s.events, s.checkouts, r, now)
    requires |EligibleReferences(s.events, s.checkouts, now)| <= SWEEP_LIMIT
    ensures exists i :: 0 <= i < |rows| && rows[i].reference == r
  {
    if |rows| == SWEEP_LIMIT {
      DistinctCount(rows);
      assert ReferencesOf(rows) <= EligibleReferences(s.events, s.checkouts, now);
      SubsetOfSameSize(ReferencesOf(rows), EligibleReferences(s.events, s.checkouts, now));
      assert r in ReferencesOf(rows);
    }
  }

  /** A row still eligible after a complete sweep was refused by it, and reads the same again. */
  lemma LeftoverReadsTheSame(cfg: Config, s: State, rows: seq<RecoveryRow>, rpc: Rpc, now: Time, r: string)
    requires Selection(s.events, s.checkouts, now, rows) && |EligibleReferences(s.events, s.checkouts, now)| <= SWEEP_LIMIT
    requires var t := RecoverRows(cfg, s, rows, rpc, now); Eligible(t.events, t.checkouts, r, now)
    ensures var t := RecoverRows(cfg, s, rows, rpc, now);
            && Eligible(s.events, s.checkouts, r, now) && RowOf(t.events, t.checkouts, r, now) == RowOf(s.events, s.checkouts, r, now)
            && RecoverCheckout(cfg, t.checkouts[r], RowOf(s.events, s.checkouts, r, now), rpc, now) == t.checkouts[r]
  {
    var t := RecoverRows(cfg, s, rows, rpc, now);
    SelectionFacts(s.events, s.checkouts, now, rows);
    if i :| 0 <= i < |rows| && rows[i].reference == r {
      SelectedIsRewritten(cfg, s, rows, rpc, now, i);
    } else {
      UnselectedIsUntouched(cfg, s, rows, rpc, now, r);
      SmallSelectionIsComplete(s, now, rows, r);
      assert false;
    }
  }

  lemma SelectionFacts(events: Events, checkouts: Checkouts, now: Time, rows: seq<RecoveryRow>)
    requires Selection(events, checkouts, now, rows)
    ensures Distinct(rows)
    ensures forall i | 0 <= i < |rows| ::
              && rows[i].reference in checkouts && Eligible(events, checkouts, rows[i].reference, now)
              && rows[i] == RowOf(events, checkouts, rows[i].reference, now)
  {
  }

  lemma SelectedIsRewritten(cfg: Config, s: State, rows: seq<RecoveryRow>, rpc: Rpc, now: Time, i: nat)
    requires Distinct(rows) && (forall i | 0 <= i < |rows| :: rows[i].reference in s.checkouts) && i < |rows|
    ensures var t, r := RecoverRows(cfg, s, rows, rpc, now), rows[i].reference;
            t.events == s.events && r in t.checkouts && t.checkouts[r] == RecoverCheckout(cfg, s.checkouts[r], rows[i], rpc, now)
  {
    LoopRewritesEachRow(cfg, s, rows, rpc, now);
  }

  lemma UnselectedIsUntouched(cfg: Config, s: State, rows: seq<RecoveryRow>, rpc: Rpc, now: Time, r: string)
    requires Distinct(rows) && forall i | 0 <= i < |rows| :: rows[i].reference in s.checkouts && rows[i].reference != r
    ensures var t := RecoverRows(cfg, s, rows, rpc, now);
            t.events == s.events && (r in t.checkouts ==> r in s.checkouts && t.checkouts[r] == s.checkouts[r])
  {
    LoopRewritesEachRow(cfg, s, rows, rpc, now);
  }

  lemma {:induction false} LoopOfNoOps(cfg: Config, s: State, rows: seq<RecoveryRow>, rpc: Rpc, now: Time)
    requires forall i | 0 <= i < |rows| ::
               rows[i].reference in s.checkouts
               && RecoverCheckout(cfg, s.checkouts[rows[i].reference], rows[i], rpc, now) == s.checkouts[rows[i].reference]
    ensures RecoverRows(cfg, s, rows, rpc, now) == s
    decreases rows
  {
    if rows != [] {
      var r := rows[0].reference;
      assert s.checkouts[r := s.checkouts[r]] == s.checkouts;
      LoopOfNoOps(cfg, s, rows[1..], rpc, now);
    }
  }

  /** With at most 200 eligible rows, sweeping again at the same time and chain changes no table. */
  lemma SecondSweepChangesNothing(cfg: Config, s: State, rows: seq<RecoveryRow>, again: seq<RecoveryRow>, rpc: Rpc, now: Time)
    requires Selection(s.events, s.checkouts, now, rows) && |EligibleReferences(s.events, s.checkouts, now)| <= SWEEP_LIMIT
    requires var t := RecoverErrorInvoices(cfg, s, rows, rpc, now); Selection(t.events, t.checkouts, now, again)
    ensures var t := RecoverErrorInvoices(cfg, s, rows, rpc, now);
            RecoverErrorInvoices(cfg, t, again, rpc, now) == SelectRows(t, again)
  {
    var s' := SelectRows(s, rows);
    var t := RecoverRows(cfg, s', rows, rpc, now);
    var t' := SelectRows(t, again);
    SelectionFacts(t.events, t.checkouts, now, again);
    forall i | 0 <= i < |again|
      ensures again[i].reference in t'.checkouts
      ensures RecoverCheckout(cfg, t'.checkouts[again[i].reference], again[i], rpc, now) == t'.checkouts[again[i].reference]
    {
      LeftoverReadsTheSame(cfg, s', rows, rpc, now, again[i].reference);
    }
    LoopOfNoOps(cfg, t', again, rpc, now);
  }

  /** The turns of a sweep as steps of a run. */
  function Turns(rows: seq<RecoveryRow>, rpc: Rpc, now: Time): seq<Step> {
    if rows == [] then [] else [SweepRow(rows[0], rpc, now)] + Turns(rows[1..], rpc, now)
  }

  lemma {:induction false} LoopIsRun(cfg: Config, s: State, rows: seq<RecoveryRow>, rpc: Rpc, now: Time)
    requires Answers(rpc, s.chain) && forall i | 0 <= i < |rows| :: rows[i] in s.selected
    ensures AllowedRun(cfg, s, Turns(rows, rpc, now)) && Run(cfg, s, Turns(rows, rpc, now)) == RecoverRows(cfg, s, rows, rpc, now)
    decreases rows
  {
    if rows != [] {
      var steps := Turns(rows, rpc, now);
      assert steps[1..] == Turns(rows[1..], rpc, now);
      LoopIsRun(cfg, RecoverRow(cfg, s, rows[0], rpc, now), rows[1..], rpc, now);
    }
  }

  /** A sweep that nothing interrupts is one of the runs. */
  lemma SweepIsRun(cfg: Config, s: State, rows: seq<RecoveryRow>, rpc: Rpc, now: Time)
    requires Selection(s.events, s.checkouts, now, rows) && Answers(rpc, s.chain)
    ensures var steps := [SweepSelect(rows, now)] + Turns(rows, rpc, now);
            AllowedRun(cfg, s, steps) && Run(cfg, s, steps) == RecoverErrorInvoices(cfg, s, rows, rpc, now)
  {
    var steps := [SweepSelect(rows, now)] + Turns(rows, rpc, now);
    assert steps[1..] == Turns(rows, rpc, now);
    LoopIsRun(cfg, SelectRows(s, rows), rows, rpc, now);
  }

  // What a whole sweep does

  /** Pending or failed, with a signature, and less than a day old. */
  predicate Due(c: Checkout, now: Time) {
    && (c.status == PendingPayment || c.status == Failed)
    && c.signature.Some? && c.signature.value != "" && now - c.createdAt < 86_400_000_000
  }

  /** The other checkouts that are due and at least as new. */
  function DueBefore(checkouts: Checkouts, r: string, now: Time): set<string>
    requires r in checkouts
  {
    set q | q in checkouts && q != r && Due(checkouts[q], now) && checkouts[q].createdAt >= checkouts[r].createdAt
  }

  /** What the sweep makes of a due checkout: paid to this merchant, keeping when it was paid and by whom if that is known;
      or failed when nothing verifies and it is over an hour old; or nothing. */
  ghost predicate Swept(cfg: Config, rpc: Rpc, merchant: string, r: string, c: Checkout, d: Checkout, now: Time)
    requires c.signature.Some?
  {
    var signature := c.signature.value;
    if signature in rpc.transactions && Accepts(cfg, rpc.transactions[signature], r, c.amount, merchant) then
      exists sender: Key ::
        && RightVerdict(cfg, rpc.transactions[signature], r, c.amount, merchant, Accepted(sender))
        && d == c.(status := Paid, paidAt := if c.paidAt.Some? then c.paidAt else Some(now),
                   wallet := if c.wallet != "" then c.wallet else sender)
    else d == if now - c.createdAt > 3_600_000_000 then c.(status := Failed) else c
  }

  lemma RowIsSwept(cfg: Config, c: Checkout, row: RecoveryRow, rpc: Rpc, now: Time)
    requires c.signature == Some(row.signature) && c.amount == row.amount && c.createdAt == row.createdAt && c.status != Paid
    ensures Swept(cfg, rpc, row.merchant, row.reference, c, RecoverCheckout(cfg, c, row, rpc, now), now)
  {
    var v := VerdictFor(cfg, rpc, row.reference, row.signature, row.amount, row.merchant);
    if v.Accepted? {
      assert RightVerdict(cfg, rpc.transactions[row.signature], row.reference, row.amount, row.merchant, Accepted(v.sender));
    }
  }

  lemma DueIsEligible(events: Events, checkouts: Checkouts, r: string, now: Time)
    requires r in checkouts && checkouts[r].event in events
    ensures Due(checkouts[r], now) <==> Eligible(events, checkouts, r, now)
  {
  }

  lemma PassedOver(events: Events, checkouts: Checkouts, rows: seq<RecoveryRow>, r: string, now: Time)
    requires Selection(events, checkouts, now, rows) && Eligible(events, checkouts, r, now)
    requires forall i | 0 <= i < |rows| :: rows[i].reference != r
    ensures |DueBefore(checkouts, r, now)| >= 200
  {
    SelectionFacts(events, checkouts, now, rows);
    DistinctCount(rows);
    forall q | q in ReferencesOf(rows)
      ensures q in DueBefore(checkouts, r, now)
    {
      var i :| 0 <= i < |rows| && rows[i].reference == q;
      assert Eligible(events, checkouts, q, now);
    }
    SubsetIsSmaller(ReferencesOf(rows), DueBefore(checkouts, r, now));
  }

  /** An uninterrupted sweep reads at most 200 rows and changes nothing but due checkouts. Each of these it settles for the
      merchant of its event, unless at least 200 others that are due are as new. */
  lemma SweepOutcome(cfg: Config, s: State, rows: seq<RecoveryRow>, rpc: Rpc, now: Time, r: string)
    requires Sane(cfg) && Reachable(cfg, s) && Selection(s.events, s.checkouts, now, rows) && r in s.checkouts
    ensures |rows| <= 200
    ensures var t := RecoverErrorInvoices(cfg, s, rows, rpc, now);
            && t == s.(checkouts := t.checkouts, selected := t.selected) && t.checkouts.Keys == s.checkouts.Keys
            && s.checkouts[r].event in s.events
            && var c, d := s.checkouts[r], t.checkouts[r];
            if !Due(c, now) then d == c
            else Swept(cfg, rpc, s.events[c.event].merchant, r, c, d, now) || (d == c && |DueBefore(s.checkouts, r, now)| >= 200)
  {
    CheckoutsHaveEvents(cfg, s);
    SelectedSweepOutcome(cfg, s, rows, rpc, now, r);
  }

  lemma SelectedSweepOutcome(cfg: Config, s: State, rows: seq<RecoveryRow>, rpc: Rpc, now: Time, r: string)
    requires Selection(s.events, s.checkouts, now, rows) && r in s.checkouts && s.checkouts[r].event in s.events
    ensures var t := RecoverErrorInvoices(cfg, s, rows, rpc, now);
            && t == s.(checkouts := t.checkouts, selected := t.selected) && t.checkouts.Keys == s.checkouts.Keys
            && var c, d := s.checkouts[r], t.checkouts[r];
            if !Due(c, now) then d == c
            else Swept(cfg, rpc, s.events[c.event].merchant, r, c, d, now) || (d == c && |DueBefore(s.checkouts, r, now)| >= 200)
  {
    SelectionFacts(s.events, s.checkouts, now, rows);
    DueIsEligible(s.events, s.checkouts, r, now);
    LoopRewritesEachRow(cfg, SelectRows(s, rows), rows, rpc, now);
    if i :| 0 <= i < |rows| && rows[i].reference == r {
      assert rows[i] == RowOf(s.events, s.checkouts, r, now);
      RowIsSwept(cfg, s.checkouts[r], rows[i], rpc, now);
    } else if Due(s.checkouts[r], now) {
      PassedOver(s.events, s.checkouts, rows, r, now);
    }
  }

  // The merchant of a recovered row

  /** The checkout of r is paid with this signature to this merchant, for the event e. */
  ghost predicate RecoveredTo(cfg: Config, s: State, r: string, row: RecoveryRow) {
    && IsPaid(s.checkouts, r) && s.checkouts[r].signature == Some(row.signature)
    && s.checkouts[r].amount == row.amount && s.checkouts[r].event == row.event
    && PaidOnChain(cfg, s.chain, r, row.signature, row.amount, row.merchant)
  }

  lemma RecoveryStays(cfg: Config, t: State, steps: seq<Step>, r: string, row: RecoveryRow)
    requires Sane(cfg) && Reachable(cfg, t) && AllowedRun(cfg, t, steps) && RecoveredTo(cfg, t, r, row)
    ensures var u := Run(cfg, t, steps);
            && RecoveredTo(cfg, u, r, row)
            && row.event in t.events && row.event in u.events && u.events[row.event] == t.events[row.event]
  {
    assert HasPaidDeposits(t.checkouts, row.event);
    PaidIsFinal(cfg, t, steps, r);
    PaidEventIsLocked(cfg, t, steps, row.event);
    var u := Continuation(cfg, t, steps);
  }

  lemma RecoveringTurn(cfg: Config, s: State, row: RecoveryRow, rpc: Rpc, now: Time)
    requires Sane(cfg) && Reachable(cfg, s) && row in s.selected && Answers(rpc, s.chain)
    requires row.reference in s.checkouts && !IsPaid(s.checkouts, row.reference)
    requires IsPaid(RecoverRow(cfg, s, row, rpc, now).checkouts, row.reference)
    ensures var t := RecoverRow(cfg, s, row, rpc, now);
            Reachable(cfg, t) && t.events == s.events && RecoveredTo(cfg, t, row.reference, row)
  {
    StepReaches(cfg, s, SweepRow(row, rpc, now));
    TurnIsSafe(cfg, s, row, rpc, now);
    SelectedEvent(cfg, s, row);
    SelectedRowFacts(cfg, s, row, rpc, now);
  }

  lemma SelectedEvent(cfg: Config, s: State, row: RecoveryRow)
    requires Sane(cfg) && Reachable(cfg, s) && row in s.selected && row.reference in s.checkouts
    ensures s.checkouts[row.reference].event == row.event && row.event in s.events
  {
    ReachableIsInv(cfg, s);
  }

  /** A turn pays an unpaid row exactly when its signature verifies for the merchant the sweep read, and then for good; it
      fails one that does not verify exactly when it is over an hour old. */
  lemma RecoveryIsFinal(cfg: Config, s: State, row: RecoveryRow, rpc: Rpc, now: Time, steps: seq<Step>)
    requires Sane(cfg) && Reachable(cfg, s) && row in s.selected && Answers(rpc, s.chain)
    requires row.reference in s.checkouts && !IsPaid(s.checkouts, row.reference)
    requires AllowedRun(cfg, RecoverRow(cfg, s, row, rpc, now), steps)
    ensures var r, t := row.reference, RecoverRow(cfg, s, row, rpc, now);
            var u := Run(cfg, t, steps);
            var verifies := row.signature in rpc.transactions
                            && Accepts(cfg, rpc.transactions[row.signature], r, row.amount, row.merchant);
            && r in t.checkouts
            && (IsPaid(t.checkouts, r) <==> verifies)
            && (verifies ==> RecoveredTo(cfg, u, r, row) && u.checkouts[r] == t.checkouts[r])
            && (!verifies && s.checkouts[r].status != Failed ==>
                  (t.checkouts[r].status == Failed <==> now - row.createdAt > 60 * MINUTE))
  {
    var t := RecoverRow(cfg, s, row, rpc, now);
    RecoveryOutcome(cfg, s.checkouts[row.reference], row, rpc, now);
    if IsPaid(t.checkouts, row.reference) {
      RecoveringTurn(cfg, s, row, rpc, now);
      RecoveryStays(cfg, t, steps, row.reference, row);
      PaidIsFinal(cfg, t, steps, row.reference);
    }
  }

  /** A turn that pays a row pays it to the merchant the sweep read. That is the merchant of its event, then and in every
      continuation, if and only if the event still has that merchant at the moment of the turn. */
  lemma RecoveredMerchantIff(cfg: Config, s: State, row: RecoveryRow, rpc: Rpc, now: Time, steps: seq<Step>)
    requires Sane(cfg) && Reachable(cfg, s) && row in s.selected && Answers(rpc, s.chain)
    requires row.reference in s.checkouts && !IsPaid(s.checkouts, row.reference)
    requires var t := RecoverRow(cfg, s, row, rpc, now); IsPaid(t.checkouts, row.reference) && AllowedRun(cfg, t, steps)
    ensures var u := Run(cfg, RecoverRow(cfg, s, row, rpc, now), steps);
            && RecoveredTo(cfg, u, row.reference, row)
            && row.event in s.events && row.event in u.events
            && (u.events[row.event].merchant == row.merchant <==> s.events[row.event].merchant == row.merchant)
  {
    RecoveringTurn(cfg, s, row, rpc, now);
    RecoveryStays(cfg, RecoverRow(cfg, s, row, rpc, now), steps, row.reference, row);
  }

  /** The condition can fail: an owner who changes the merchant between the SELECT and the turn ends with a paid row that was
      paid to the former merchant. */
  lemma RecoveryAfterEdit(cfg: Config, s: State, rows: seq<RecoveryRow>, row: RecoveryRow, rpc: Rpc, now: Time,
                          owner: string, dollars: int, merchant: string, expiresAt: Time)
    requires Selection(s.events, s.checkouts, now, rows) && row in rows && Answers(rpc, s.chain)
    requires VerdictFor(cfg, rpc, row.reference, row.signature, row.amount, row.merchant).Accepted?
    requires !HasPaidDeposits(s.checkouts, row.event) && row.event in s.events && s.events[row.event].owner == owner
    requires ValidWallet(cfg, merchant) && dollars > 0 && merchant != row.merchant
    ensures var steps := [SweepSelect(rows, now), EditEvent(row.event, owner, dollars, merchant, expiresAt, true, true),
                          SweepRow(row, rpc, now)];
            var u := Run(cfg, s, steps);
            && AllowedRun(cfg, s, steps)
            && RecoveredTo(cfg, u, row.reference, row)
            && row.event in u.events && u.events[row.event].merchant == merchant != row.merchant
  {
    var select := SweepSelect(rows, now);
    var edit := EditEvent(row.event, owner, dollars, merchant, expiresAt, true, true);
    var a := Take(cfg, s, select).0;
    EditBetween(cfg, s, rows, row, now, owner, dollars, merchant, expiresAt);
    RecoverAfter(cfg, Take(cfg, a, edit).0, row, rpc, now);
    ThreeSteps(cfg, s, select, edit, SweepRow(row, rpc, now));
  }

  lemma EditBetween(cfg: Config, s: State, rows: seq<RecoveryRow>, row: RecoveryRow, now: Time,
                    owner: string, dollars: int, merchant: string, expiresAt: Time)
    requires Selection(s.events, s.checkouts, now, rows) && row in rows
    requires !HasPaidDeposits(s.checkouts, row.event) && row.event in s.events && s.events[row.event].owner == owner
    requires ValidWallet(cfg, merchant) && dollars > 0
    ensures var select := SweepSelect(rows, now);
            var edit := EditEvent(row.event, owner, dollars, merchant, expiresAt, true, true);
            var a := Take(cfg, s, select).0; var b := Take(cfg, a, edit).0;
            && Allowed(s, select) && Allowed(a, edit)
            && row in b.selected && b.chain == s.chain && row.event in b.events && b.events[row.event].merchant == merchant
            && RowRead(b, row)
  {
    var i :| 0 <= i < |rows| && rows[i] == row;
    SelectionFacts(s.events, s.checkouts, now, rows);
    RowsAreSelected(s, rows, i);
    EditOutcome(cfg, SelectRows(s, rows), row.event, owner, dollars, merchant, expiresAt);
  }

  ghost predicate RowRead(s: State, row: RecoveryRow) {
    && row.reference in s.checkouts
    && s.checkouts[row.reference].event == row.event && s.checkouts[row.reference].amount == row.amount
  }

  lemma RecoverAfter(cfg: Config, s: State, row: RecoveryRow, rpc: Rpc, now: Time)
    requires Answers(rpc, s.chain) && row in s.selected && RowRead(s, row)
    requires VerdictFor(cfg, rpc, row.reference, row.signature, row.amount, row.merchant).Accepted?
    ensures var step := SweepRow(row, rpc, now); var u := Take(cfg, s, step).0;
            Allowed(s, step) && RecoveredTo(cfg, u, row.reference, row) && u.events == s.events
  {
    RecoveringAcceptedRow(cfg, s, row, rpc, now);
  }

  lemma RowsAreSelected(s: State, rows: seq<RecoveryRow>, i: nat)
    requires i < |rows|
    ensures rows[i] in SelectRows(s, rows).selected
  {
  }

  lemma EditOutcome(cfg: Config, s: State, id: EventId, owner: string, dollars: int, merchant: string, expiresAt: Time)
    requires !HasPaidDeposits(s.checkouts, id) && id in s.events && s.events[id].owner == owner
    requires ValidWallet(cfg, merchant) && dollars > 0
    ensures var t := UpdateEvent(cfg, s, id, owner, dollars, merchant, expiresAt, true, true).0;
            && t == s.(events := t.events) && id in t.events && t.events[id].merchant == merchant
  {
  }

  lemma RecoveringAcceptedRow(cfg: Config, s: State, row: RecoveryRow, rpc: Rpc, now: Time)
    requires Answers(rpc, s.chain) && RowRead(s, row)
    requires VerdictFor(cfg, rpc, row.reference, row.signature, row.amount, row.merchant).Accepted?
    ensures var u := RecoverRow(cfg, s, row, rpc, now); RecoveredTo(cfg, u, row.reference, row) && u.events == s.events
  {
    VerifiedIsPaid(cfg, rpc, s.chain, row.reference, row.signature, row.amount, row.merchant);
  }

  lemma ThreeSteps(cfg: Config, s: State, x: Step, y: Step, z: Step)
    ensures var a := Take(cfg, s, x).0; var b := Take(cfg, a, y).0;
            && Run(cfg, s, [x, y, z]) == Take(cfg, b, z).0
            && (AllowedRun(cfg, s, [x, y, z]) <==> Allowed(s, x) && Allowed(a, y) && Allowed(b, z))
  {
    var a := Take(cfg, s, x).0;
    var b := Take(cfg, a, y).0;
    assert [x, y, z][1..] == [y, z] && [y, z][1..] == [z] && [z][1..] == [];
    assert Run(cfg, b, [z]) == Run(cfg, Take(cfg, b, z).0, []);
    assert Run(cfg, a, [y, z]) == Run(cfg, b, [z]);
    assert AllowedRun(cfg, b, [z]) <==> Allowed(b, z);
    assert AllowedRun(cfg, a, [y, z]) <==> Allowed(a, y) && AllowedRun(cfg, b, [z]);
  }

  /** A row that an uninterrupted sweep recovers was paid to the merchant its event has, then and in every continuation. */
  lemma RecoveredForEventMerchant(cfg: Config, s: State, rows: seq<RecoveryRow>, rpc: Rpc, now: Time, r: string, steps: seq<Step>)
    requires Sane(cfg) && Reachable(cfg, s) && Selection(s.events, s.checkouts, now, rows) && Answers(rpc, s.chain)
    requires r in s.checkouts && s.checkouts[r].status != Paid
    requires var t := RecoverErrorInvoices(cfg, s, rows, rpc, now); IsPaid(t.checkouts, r) && AllowedRun(cfg, t, steps)
    ensures var u := Run(cfg, RecoverErrorInvoices(cfg, s, rows, rpc, now), steps);
            && IsPaid(u.checkouts, r) && u.checkouts[r].event == s.checkouts[r].event && u.checkouts[r].amount == s.checkouts[r].amount
            && u.checkouts[r].event in u.events && u.checkouts[r].signature.Some?
            && PaidOnChain(cfg, u.chain, r, u.checkouts[r].signature.value, u.checkouts[r].amount, u.events[u.checkouts[r].event].merchant)
  {
    var t := RecoverErrorInvoices(cfg, s, rows, rpc, now);
    SweepIsRun(cfg, s, rows, rpc, now);
    ContinuationIsReachable(cfg, s, [SweepSelect(rows, now)] + Turns(rows, rpc, now));
    var row := SweptRow(cfg, s, rows, rpc, now, r);
    RecoveryStays(cfg, t, steps, r, row);
  }

  lemma SweptRow(cfg: Config, s: State, rows: seq<RecoveryRow>, rpc: Rpc, now: Time, r: string) returns (row: RecoveryRow)
    requires Selection(s.events, s.checkouts, now, rows) && Answers(rpc, s.chain)
    requires r in s.checkouts && s.checkouts[r].status != Paid
    requires IsPaid(RecoverErrorInvoices(cfg, s, rows, rpc, now).checkouts, r)
    ensures var t := RecoverErrorInvoices(cfg, s, rows, rpc, now);
            && RecoveredTo(cfg, t, r, row) && row.event == s.checkouts[r].event && row.amount == s.checkouts[r].amount
            && row.event in t.events && t.events[row.event].merchant == row.merchant
  {
    SelectionFacts(s.events, s.checkouts, now, rows);
    LoopRewritesEachRow(cfg, SelectRows(s, rows), rows, rpc, now);
    var i :| 0 <= i < |rows| && rows[i].reference == r;
    row := rows[i];
    assert row == RowOf(s.events, s.checkouts, r, now);
    VerifiedIsPaid(cfg, rpc, s.chain, r, row.signature, row.amount, row.merchant);
  }
}
