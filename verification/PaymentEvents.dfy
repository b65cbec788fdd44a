/** Events over whole runs: who may change them, what stays, and how requests name them. */
module PaymentEvents {
  import opened Text
  import opened Transactions
  import opened Verifiers
  import opened PaymentState
  import opened PaymentHandlers
  import opened PaymentInvariants
  import opened PaymentSteps
  import opened PaymentRuns
  import opened PaymentTheorems
  import opened PaymentOutcomes
  import opened PaymentBooks

  /** amount is what remains of so many dollars, in units of a millionth, in an int64. */
  predicate IsPrice(amount: int, dollars: int) {
    -0x8000_0000_0000_0000 <= amount < 0x8000_0000_0000_0000
    && amount % 0x1_0000_0000_0000_0000 == dollars * 1_000_000 % 0x1_0000_0000_0000_0000
  }

  lemma WrappedIsPrice(dollars: int)
    ensures IsPrice(Int64(dollars * 1_000_000), dollars)
  {
    WrapsBy64(dollars * 1_000_000);
  }

  lemma WrapsBy64(x: int)
    ensures Int64(x) % 0x1_0000_0000_0000_0000 == x % 0x1_0000_0000_0000_0000
  {
  }

  ghost predicate HasPaidCheckout(s: State, e: EventId) {
    exists r :: r in s.checkouts && s.checkouts[r].event == e && s.checkouts[r].status == Paid
  }

  /** An event is rewritten exactly by its owner, while nothing in it is paid, and then in its price, merchant, expiry and
      channels alone; otherwise nothing changes. */
  lemma EventIsEditedIff(cfg: Config, s: State, id: EventId, caller: string, dollars: int, merchant: string, expiresAt: Time,
                         walletEnabled: bool, qrEnabled: bool)
    ensures var (t, reply) := UpdateEvent(cfg, s, id, caller, dollars, merchant, expiresAt, walletEnabled, qrEnabled);
            if merchant == "" || !cfg.isWallet(merchant) || dollars <= 0 then t == s && reply == Error(400)
            else if HasPaidCheckout(s, id) then t == s && reply == Error(409)
            else if !(id in s.events && s.events[id].owner == caller) then t == s && reply == Error(404)
            else && reply == Done && id in t.events && t == s.(events := s.events[id := t.events[id]])
                 && var e := t.events[id];
                 && IsPrice(e.amount, dollars)
                 && e == s.events[id].(amount := e.amount, merchant := merchant, expiresAt := expiresAt,
                                       walletEnabled := walletEnabled, qrEnabled := qrEnabled)
  {
    WrappedIsPrice(dollars);
    assert HasPaidCheckout(s, id) <==> HasPaidDeposits(s.checkouts, id);
  }

  /** An event is created exactly for a valid merchant, a price and a slug that is free, under an identifier not used before. */
  lemma EventIsCreatedIff(cfg: Config, s: State, owner: string, slug: string, dollars: int, merchant: string, expiresAt: Time,
                          walletEnabled: bool, qrEnabled: bool)
    requires Sane(cfg) && Reachable(cfg, s)
    ensures var (t, reply) := CreateEvent(cfg, s, owner, slug, dollars, merchant, expiresAt, walletEnabled, qrEnabled);
            if merchant == "" || !cfg.isWallet(merchant) || dollars <= 0 then t == s && reply == Error(400)
            else if exists e :: e in s.events && s.events[e].slug == slug then t == s && reply == Error(500)
            else && reply == Done && s.nextEvent !in s.events && s.nextEvent in t.events
                 && t == s.(events := s.events[s.nextEvent := t.events[s.nextEvent]], slugs := s.slugs[slug := s.nextEvent],
                            nextEvent := s.nextEvent + 1)
                 && var e := t.events[s.nextEvent];
                 && IsPrice(e.amount, dollars)
                 && e == Event(owner, slug, e.amount, merchant, expiresAt, true, walletEnabled, qrEnabled)
  {
    SlugsAreIndexed(cfg, s);
    EventsAreOld(cfg, s);
    FreshEventIsCreated(cfg, s, owner, slug, dollars, merchant, expiresAt, walletEnabled, qrEnabled);
  }

  lemma FreshEventIsCreated(cfg: Config, s: State, owner: string, slug: string, dollars: int, merchant: string, expiresAt: Time,
                            walletEnabled: bool, qrEnabled: bool)
    ensures var (t, reply) := CreateEvent(cfg, s, owner, slug, dollars, merchant, expiresAt, walletEnabled, qrEnabled);
            if merchant == "" || !cfg.isWallet(merchant) || dollars <= 0 then t == s && reply == Error(400)
            else if slug in s.slugs then t == s && reply == Error(500)
            else && reply == Done && s.nextEvent in t.events
                 && t == s.(events := s.events[s.nextEvent := t.events[s.nextEvent]], slugs := s.slugs[slug := s.nextEvent],
                            nextEvent := s.nextEvent + 1)
                 && var e := t.events[s.nextEvent];
                 && IsPrice(e.amount, dollars)
                 && e == Event(owner, slug, e.amount, merchant, expiresAt, true, walletEnabled, qrEnabled)
  {
    WrappedIsPrice(dollars);
  }

  lemma EventsAreOld(cfg: Config, s: State)
    requires Sane(cfg) && Reachable(cfg, s)
    ensures forall e | e in s.events :: e < s.nextEvent
  {
    ReachableIsInv(cfg, s);
  }

  // Runs

  /** What a step may do to the events: create one, or let an owner edit or delete one. */
  ghost predicate EventsChange(events: Events, next: EventId, events': Events, next': EventId, step: Step) {
    && next <= next'
    && (forall e | e in events' && e !in events ::
          step.NewEvent? && e == next < next' && events'[e].owner == step.owner && events'[e].slug == step.slug)
    && (forall e | e in events && e !in events' :: step.RemoveEvent? && step.id == e && step.owner == events[e].owner)
    && (forall e | e in events && e in events' && events'[e] != events[e] ::
          && step.EditEvent? && step.id == e && step.owner == events[e].owner
          && events'[e].owner == events[e].owner && events'[e].slug == events[e].slug)
  }

  ghost predicate WellChanged(s: State, t: State, step: Step) {
    && EventsChange(s.events, s.nextEvent, t.events, t.nextEvent, step)
    && (SlugsIndexed(s.events, s.slugs) ==> SlugsIndexed(t.events, t.slugs))
  }

  lemma OthersKeepEvents(cfg: Config, s: State, step: Step)
    requires !step.NewEvent? && !step.EditEvent? && !step.RemoveEvent?
    ensures SameEvents(s, Take(cfg, s, step).0)
  {
    match step
    case SessionCreate(_, _, _, _, _, _, _, _, _, _, _) => SessionCreateSnapshot(cfg, s, step);
    case CreateInvoice(_, _, _, _, _, _, _) => CreateInvoiceSnapshot(cfg, s, step);
    case ManualVerify(_, _, _, _, _, _, _) => ManualVerifyOpensDirect(cfg, s, step);
    case SweepSelect(_, _) =>
    case _ => OthersOpenNothing(cfg, s, step);
  }

  lemma NothingChanges(s: State, t: State, step: Step)
    requires SameEvents(s, t)
    ensures WellChanged(s, t, step)
  {
  }

  lemma AddingChanges(events: Events, slugs: map<string, EventId>, next: EventId, event: Event, step: Step)
    requires step.NewEvent? && event.owner == step.owner && event.slug == step.slug
    requires event.slug !in slugs && forall e | e in events :: e < next
    ensures EventsChange(events, next, events[next := event], next + 1, step)
    ensures SlugsIndexed(events, slugs) ==> SlugsIndexed(events[next := event], slugs[event.slug := next])
  {
  }

  lemma CreatedChanges(s: State, t: State, event: Event, step: Step)
    requires step.NewEvent? && event.owner == step.owner && event.slug == step.slug && forall e | e in s.events :: e < s.nextEvent
    requires t == s || (event.slug !in s.slugs && t == AddEvent(s, event))
    ensures WellChanged(s, t, step)
  {
    if t == s {
      NothingChanges(s, s, step);
    } else {
      AddingChanges(s.events, s.slugs, s.nextEvent, event, step);
    }
  }

  lemma CreateAdds(cfg: Config, s: State, owner: string, slug: string, dollars: int, merchant: string, expiresAt: Time,
                   walletEnabled: bool, qrEnabled: bool) returns (event: Event)
    ensures event.owner == owner && event.slug == slug
    ensures var t := CreateEvent(cfg, s, owner, slug, dollars, merchant, expiresAt, walletEnabled, qrEnabled).0;
            t == s || (slug !in s.slugs && t == AddEvent(s, event))
  {
    event := Event(owner, slug, Int64(dollars * 1_000_000), merchant, expiresAt, true, walletEnabled, qrEnabled);
  }

  lemma CreateChanges(cfg: Config, s: State, step: Step)
    requires step.NewEvent? && forall e | e in s.events :: e < s.nextEvent
    ensures var t := CreateEvent(cfg, s, step.owner, step.slug, step.dollars, step.merchant, step.expiresAt, step.walletEnabled,
                                 step.qrEnabled).0;
            WellChanged(s, t, step)
  {
    var t := CreateEvent(cfg, s, step.owner, step.slug, step.dollars, step.merchant, step.expiresAt, step.walletEnabled, step.qrEnabled).0;
    var event := CreateAdds(cfg, s, step.owner, step.slug, step.dollars, step.merchant, step.expiresAt, step.walletEnabled, step.qrEnabled);
    CreatedChanges(s, t, event, step);
  }

  lemma RewritingChanges(events: Events, slugs: map<string, EventId>, next: EventId, event: Event, step: Step)
    requires step.EditEvent? && step.id in events && step.owner == events[step.id].owner
    requires event.owner == events[step.id].owner && event.slug == events[step.id].slug
    ensures EventsChange(events, next, events[step.id := event], next, step)
    ensures SlugsIndexed(events, slugs) ==> SlugsIndexed(events[step.id := event], slugs)
  {
  }

  lemma EditedChanges(s: State, t: State, step: Step)
    requires step.EditEvent?
    requires t == s || (&& step.id in s.events && step.owner == s.events[step.id].owner && step.id in t.events
                        && t == s.(events := s.events[step.id := t.events[step.id]])
                        && t.events[step.id].owner == step.owner && t.events[step.id].slug == s.events[step.id].slug)
    ensures WellChanged(s, t, step)
  {
    if t == s {
      NothingChanges(s, s, step);
    } else {
      RewritingChanges(s.events, s.slugs, s.nextEvent, t.events[step.id], step);
    }
  }

  lemma EditChanges(cfg: Config, s: State, step: Step)
    requires step.EditEvent?
    ensures var t := UpdateEvent(cfg, s, step.id, step.owner, step.dollars, step.merchant, step.expiresAt, step.walletEnabled,
                                 step.qrEnabled).0;
            WellChanged(s, t, step)
  {
    EventIsEditedIff(cfg, s, step.id, step.owner, step.dollars, step.merchant, step.expiresAt, step.walletEnabled, step.qrEnabled);
    var t := UpdateEvent(cfg, s, step.id, step.owner, step.dollars, step.merchant, step.expiresAt, step.walletEnabled, step.qrEnabled).0;
    EditedChanges(s, t, step);
  }

  lemma RemovingChanges(events: Events, slugs: map<string, EventId>, next: EventId, step: Step)
    requires step.RemoveEvent? && step.id in events && step.owner == events[step.id].owner
    ensures EventsChange(events, next, events - {step.id}, next, step)
    ensures SlugsIndexed(events, slugs) ==> SlugsIndexed(events - {step.id}, SlugsWithout(slugs, step.id))
  {
  }

  lemma RemoveChanges(s: State, step: Step)
    requires step.RemoveEvent?
    ensures WellChanged(s, DeleteEvent(s, step.id, step.owner).0, step)
  {
    NothingChanges(s, s, step);
    if step.id in s.events && step.owner == s.events[step.id].owner {
      RemovingChanges(s.events, s.slugs, s.nextEvent, step);
    }
  }

  /** Whatever the step, an existing event is only ever changed by an edit, and only ever removed by a delete, of its owner;
      and the slugs stay an index. */
  lemma OnlyOwnersChangeEvents(cfg: Config, s: State, step: Step)
    requires forall e | e in s.events :: e < s.nextEvent
    ensures WellChanged(s, Take(cfg, s, step).0, step)
  {
    match step
    case NewEvent(_, _, _, _, _, _, _) => CreateChanges(cfg, s, step);
    case EditEvent(_, _, _, _, _, _, _) => EditChanges(cfg, s, step);
    case RemoveEvent(_, _) => RemoveChanges(s, step);
    case _ =>
      OthersKeepEvents(cfg, s, step);
      NothingChanges(s, Take(cfg, s, step).0, step);
  }

  lemma {:induction false} RunKeepsSlugs(cfg: Config, s: State, steps: seq<Step>)
    requires Sane(cfg) && Reachable(cfg, s) && AllowedRun(cfg, s, steps) && SlugsIndexed(s.events, s.slugs)
    ensures SlugsIndexed(Run(cfg, s, steps).events, Run(cfg, s, steps).slugs)
    decreases steps
  {
    if steps != [] {
      EventsAreOld(cfg, s);
      OnlyOwnersChangeEvents(cfg, s, steps[0]);
      StepReaches(cfg, s, steps[0]);
      RunKeepsSlugs(cfg, Take(cfg, s, steps[0]).0, steps[1..]);
    }
  }

  lemma SlugsAreIndexed(cfg: Config, s: State)
    requires Sane(cfg) && Reachable(cfg, s)
    ensures SlugsIndexed(s.events, s.slugs)
  {
    var s0, steps :| Init(cfg, s0) && AllowedRun(cfg, s0, steps) && s == Run(cfg, s0, steps);
    InitIsReachable(cfg, s0);
    RunKeepsSlugs(cfg, s0, steps);
  }

  /** In every reachable state a slug finds exactly the active event that has it; so no two events share one. */
  lemma SlugFindsItsEvent(cfg: Config, s: State, slug: string, e: EventId)
    requires Sane(cfg) && Reachable(cfg, s)
    ensures EventBySlug(s, slug) == Some(e) <==> e in s.events && s.events[e].slug == slug && s.events[e].active
    ensures forall d | d in s.events && e in s.events && s.events[d].slug == s.events[e].slug :: d == e
  {
    SlugsAreIndexed(cfg, s);
  }

  /** Over any run an event that is still there has its owner and its slug, and one that has gone does not come back; if it
      differs at all, its owner has edited it. */
  lemma {:induction false} OwnerAndSlugStay(cfg: Config, s: State, steps: seq<Step>, e: EventId)
    requires Sane(cfg) && Reachable(cfg, s) && AllowedRun(cfg, s, steps) && e < s.nextEvent
    ensures var u := Run(cfg, s, steps);
            && (e in u.events ==> e in s.events && u.events[e].owner == s.events[e].owner && u.events[e].slug == s.events[e].slug)
            && (e in u.events && u.events[e] != s.events[e] ==>
                  exists k :: 0 <= k < |steps| && steps[k].EditEvent? && steps[k].id == e && steps[k].owner == s.events[e].owner)
            && (e in s.events && e !in u.events ==>
                  exists k :: 0 <= k < |steps| && steps[k].RemoveEvent? && steps[k].id == e && steps[k].owner == s.events[e].owner)
    decreases steps
  {
    if steps != [] {
      var t := Take(cfg, s, steps[0]).0;
      EventsAreOld(cfg, s);
      OnlyOwnersChangeEvents(cfg, s, steps[0]);
      StepReaches(cfg, s, steps[0]);
      OwnerAndSlugStay(cfg, t, steps[1..], e);
      LaterSteps(steps, e);
    }
  }

  /** A step of the rest of a run is a step of the run. */
  lemma LaterSteps(steps: seq<Step>, e: EventId)
    requires steps != []
    ensures forall k :: 0 <= k < |steps| - 1 ==> steps[1..][k] == steps[k + 1]
  {
  }

  // Sessions

  /** The request names this event: by its identifier, or by its slug when it gives none. */
  ghost predicate Names(s: State, eventId: EventId, slug: string, e: EventId) {
    && e in s.events && s.events[e].active
    && if eventId != 0 then e == eventId else s.events[e].slug == TrimSpace(slug)
  }

  /** A creation is answered from the record of its caller and key if there is one; otherwise refused if it names no event;
      otherwise it ends as the second half ends for that event and caller. */
  lemma SessionIsForNamedEvent(cfg: Config, s: State, step: Step, owner: string)
    requires Sane(cfg) && Reachable(cfg, s) && step.SessionCreate? && CallerIs(step.claims, owner)
    ensures var (t, reply) := Take(cfg, s, step);
            var key := TrimSpace(step.header);
            var k := IdempotencyKey(owner, key, CreateSession);
            if key != "" && k in s.records then t == s && reply == s.records[k]
            else if forall e :: !Names(s, step.eventId, step.slug, e) then t == s && reply == Error(404)
            else forall e | Names(s, step.eventId, step.slug, e) ::
                   (t, reply) == OpenSession(cfg, s, owner, key, e, TrimSpace(step.payMethod), TrimSpace(step.wallet), step.participant,
                                             step.formOk, step.now, step.sessionId, step.reference)
  {
    var id := if step.eventId == 0 then EventBySlug(s, TrimSpace(step.slug))
              else if step.eventId in s.events && s.events[step.eventId].active then Some(step.eventId) else None;
    forall e: EventId
      ensures Names(s, step.eventId, step.slug, e) <==> id == Some(e)
    {
      SlugFindsItsEvent(cfg, s, TrimSpace(step.slug), e);
    }
    OwnersUsable(step.claims, owner, step.header);
  }

  lemma OwnersUsable(claims: Option<string>, owner: string, header: string)
    requires CallerIs(claims, owner)
    ensures OwnerOf(claims) == owner && TrimSpace(owner) != ""
    ensures TrimSpace(TrimSpace(header)) == TrimSpace(header)
  {
    OwnerIsTrimmed(claims);
    TrimmedIsFixed(OwnerOf(claims));
    TrimSpaceIsTrimmed(header);
    TrimmedIsFixed(TrimSpace(header));
  }
}
