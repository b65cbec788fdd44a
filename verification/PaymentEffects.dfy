/** The effects the handlers are composed of keep the invariant. */
module PaymentEffects {
  import opened Text
  import opened Transactions
  import opened Verifiers
  import opened PaymentState
  import opened PaymentHandlers
  import opened PaymentInvariants

  // Each part of the invariant survives growth of the tables it reads.

  lemma CheckoutsSurvive(cfg: Config, checkouts: Checkouts, origins: Origins, events: Events, invoices: Invoices, chain: Chain,
                         selected: set<RecoveryRow>, origins': Origins, events': Events, invoices': Invoices, chain': Chain,
                         selected': set<RecoveryRow>)
    requires CheckoutsOk(cfg, checkouts, origins, events, invoices, chain, selected)
    requires Submap(origins, origins') && Submap(chain, chain') && selected <= selected'
    requires KeepsInvoices(checkouts, origins, invoices, invoices')
    requires forall r | r in checkouts && checkouts[r].event in events ::
               checkouts[r].event in events' &&
               (checkouts[r].status == Paid ==> events'[checkouts[r].event] == events[checkouts[r].event])
    ensures CheckoutsOk(cfg, checkouts, origins', events', invoices', chain', selected')
  {
    forall r | r in checkouts
      ensures CheckoutOk(cfg, r, checkouts[r], origins[r], events'[checkouts[r].event], invoices', chain', selected')
    {
      var c := checkouts[r];
      assert CheckoutOk(cfg, r, c, origins[r], events[c.event], invoices, chain, selected);
      if c.status == Paid && origins[r] == Legacy {
        var row :| row in selected && row.reference == r && Some(row.signature) == c.signature && row.amount == c.amount
                   && row.event == c.event && PaidOnChain(cfg, chain, r, row.signature, row.amount, row.merchant);
        assert row in selected';
      }
    }
  }

  lemma SessionsSurvive(sessions: Sessions, attempts: Attempts, stateLog: Logs, issued: set<string>, origins: Origins, events: Events,
                        attempts': Attempts, stateLog': Logs, issued': set<string>, origins': Origins, events': Events)
    requires SessionsOk(sessions, attempts, stateLog, issued, origins, events)
    requires Submap(attempts, attempts') && Submap(stateLog, stateLog') && issued <= issued' && Submap(origins, origins')
    requires forall i | i in sessions :: sessions[i].event in events'
    ensures SessionsOk(sessions, attempts', stateLog', issued', origins', events')
  {
    forall i | i in sessions
      ensures SessionOk(i, sessions[i], attempts', stateLog', issued', origins', events')
    {
      assert SessionOk(i, sessions[i], attempts, stateLog, issued, origins, events);
    }
  }

  lemma LedgersSurvive(sessions: Sessions, attempts: Attempts, redis: Redis, checkouts: Checkouts,
                       attempts': Attempts, redis': Redis, checkouts': Checkouts)
    requires LedgersOk(sessions, attempts, redis, checkouts)
    requires Submap(attempts, attempts')
    requires forall i | i in sessions && sessions[i].reference !in redis :: sessions[i].reference !in redis'
    requires StaysPaid(checkouts, checkouts')
    ensures LedgersOk(sessions, attempts', redis', checkouts')
  {
    forall i | i in sessions
      ensures i in attempts' && LedgerOk(sessions[i], attempts'[i], redis', checkouts')
    {
      assert LedgerOk(sessions[i], attempts[i], redis, checkouts);
    }
  }

  ghost predicate Fewer(checkouts: Checkouts, checkouts': Checkouts) {
    forall r | r in checkouts' :: r in checkouts && checkouts'[r] == checkouts[r]
  }

  lemma FewerSurvive(cfg: Config, s: State, checkouts: Checkouts, origins: Origins)
    requires CheckoutsOk(cfg, s.checkouts, s.origins, s.events, s.invoices, s.chain, s.selected)
    requires SelectedOk(s.selected, s.origins, s.checkouts) && EmailsOk(s.checkouts, s.origins) && LiveOk(s.redis, s.origins, s.checkouts)
    requires Fewer(s.checkouts, checkouts) && Submap(s.origins, origins)
    ensures CheckoutsOk(cfg, checkouts, s.origins, s.events, s.invoices, s.chain, s.selected)
    ensures SelectedOk(s.selected, origins, checkouts) && EmailsOk(checkouts, origins)
    ensures LiveOk(s.redis, origins, checkouts)
  {
  }

  lemma PreservesItself(s: State)
    requires LedgersOk(s.sessions, s.attempts, s.redis, s.checkouts)
    ensures Preserves(s, s)
  {
  }

  // The effects

  lemma OpenIsGood(cfg: Config, s: State, reference: string, invoice: Invoice)
    requires Inv(cfg, s) && reference !in s.issued && ValidWallet(cfg, invoice.merchant)
    ensures Good(cfg, s, Open(s, reference, invoice))
  {
    PreservesItself(s);
    OpenKeepsInv(cfg, s, reference, invoice);
  }

  lemma OpenKeepsInv(cfg: Config, s: State, reference: string, invoice: Invoice)
    requires Inv(cfg, s) && reference !in s.issued && ValidWallet(cfg, invoice.merchant)
    ensures Inv(cfg, Open(s, reference, invoice))
  {
    var t := Open(s, reference, invoice);
    assert Submap(s.origins, t.origins);
    CheckoutsSurvive(cfg, s.checkouts, s.origins, s.events, s.invoices, s.chain, s.selected,
                     t.origins, t.events, t.invoices, t.chain, t.selected);
    SessionsSurvive(s.sessions, s.attempts, s.stateLog, s.issued, s.origins, s.events,
                    t.attempts, t.stateLog, t.issued, t.origins, t.events);
    FewerSurvive(cfg, s, s.checkouts, t.origins);
    SessionsHaveOrigins(s, reference);
    LedgersSurvive(s.sessions, s.attempts, s.redis, s.checkouts, t.attempts, t.redis, t.checkouts);
  }

  lemma SessionsHaveOrigins(s: State, reference: string)
    requires SessionsOk(s.sessions, s.attempts, s.stateLog, s.issued, s.origins, s.events)
    requires (forall r | r in s.origins :: r in s.issued) && reference !in s.issued
    ensures forall i | i in s.sessions :: s.sessions[i].reference != reference
  {
    assert forall i | i in s.sessions :: SessionOk(i, s.sessions[i], s.attempts, s.stateLog, s.issued, s.origins, s.events);
  }

  lemma DropIsGood(cfg: Config, s: State, reference: string)
    requires Inv(cfg, s)
    ensures Good(cfg, s, DropInvoice(s, reference))
  {
    PreservesItself(s);
    LedgersSurvive(s.sessions, s.attempts, s.redis, s.checkouts, s.attempts, s.redis - {reference}, s.checkouts);
  }

  lemma AbandonIsGood(cfg: Config, s: State, reference: string)
    requires Inv(cfg, s)
    ensures Good(cfg, s, Abandon(s, reference))
  {
    PreservesItself(s);
    var t := Abandon(s, reference);
    FewerSurvive(cfg, s, t.checkouts, s.origins);
    assert StaysPaid(s.checkouts, t.checkouts);
    LedgersSurvive(s.sessions, s.attempts, s.redis, s.checkouts, t.attempts, t.redis, t.checkouts);
  }

  lemma InvoiceWriteIsGood(cfg: Config, s: State, invoices: Invoices)
    requires Inv(cfg, s) && KeepsInvoices(s.checkouts, s.origins, s.invoices, invoices)
    ensures Good(cfg, s, s.(invoices := invoices))
  {
    PreservesItself(s);
    CheckoutsSurvive(cfg, s.checkouts, s.origins, s.events, s.invoices, s.chain, s.selected,
                     s.origins, s.events, invoices, s.chain, s.selected);
  }

  lemma RecordsGrowIsGood(cfg: Config, s: State, records: map<IdempotencyKey, Reply>)
    requires Inv(cfg, s) && Submap(s.records, records)
    ensures Good(cfg, s, s.(records := records))
  {
    PreservesItself(s);
  }

  /** Saving never overwrites, because every handler that saves has looked first. */
  lemma SaveGrows(s: State, owner: string, key: string, endpoint: Endpoint, reply: Reply)
    requires LoadRecord(s, owner, key, endpoint) == None
    ensures var t := SaveRecord(s, owner, key, endpoint, reply); Submap(s.records, t.records) && t == s.(records := t.records)
  {
    var k := IdempotencyKey(owner, key, endpoint);
    if TrimSpace(owner) == "" || TrimSpace(key) == "" {
      assert SaveRecord(s, owner, key, endpoint, reply) == s;
    } else {
      assert k !in s.records;
      NewKeyGrows(s.records, k, reply);
    }
  }

  lemma NewKeyGrows(records: map<IdempotencyKey, Reply>, k: IdempotencyKey, reply: Reply)
    requires k !in records
    ensures Submap(records, records[k := reply])
  {
  }

  lemma SaveIsGood(cfg: Config, s: State, owner: string, key: string, endpoint: Endpoint, reply: Reply)
    requires Inv(cfg, s) && LoadRecord(s, owner, key, endpoint) == None
    ensures Good(cfg, s, SaveRecord(s, owner, key, endpoint, reply))
  {
    SaveGrows(s, owner, key, endpoint, reply);
    RecordsGrowIsGood(cfg, s, SaveRecord(s, owner, key, endpoint, reply).records);
  }

  /** Writing events that have no paid checkout. */
  lemma EventsWriteIsGood(cfg: Config, s: State, events: Events, slugs: map<string, EventId>, nextEvent: EventId)
    requires Inv(cfg, s) && EventsOk(cfg, events, slugs, nextEvent) && s.nextEvent <= nextEvent
    requires s.events.Keys <= events.Keys && StaysLocked(s.events, events, s.checkouts)
    ensures Good(cfg, s, s.(events := events, slugs := slugs, nextEvent := nextEvent))
  {
    PreservesItself(s);
    PaidEventsKept(s.checkouts, s.events, events);
    CheckoutsSurvive(cfg, s.checkouts, s.origins, s.events, s.invoices, s.chain, s.selected,
                     s.origins, events, s.invoices, s.chain, s.selected);
    SessionEventsKept(s, events);
    SessionsSurvive(s.sessions, s.attempts, s.stateLog, s.issued, s.origins, s.events, s.attempts, s.stateLog, s.issued, s.origins, events);
  }

  lemma PaidEventsKept(checkouts: Checkouts, events: Events, events': Events)
    requires events.Keys <= events'.Keys && StaysLocked(events, events', checkouts)
    ensures forall r | r in checkouts && checkouts[r].event in events ::
              checkouts[r].event in events' &&
              (checkouts[r].status == Paid ==> events'[checkouts[r].event] == events[checkouts[r].event])
  {
  }

  lemma SessionEventsKept(s: State, events: Events)
    requires SessionsOk(s.sessions, s.attempts, s.stateLog, s.issued, s.origins, s.events) && s.events.Keys <= events.Keys
    ensures forall i | i in s.sessions :: s.sessions[i].event in events
  {
    forall i | i in s.sessions
      ensures s.sessions[i].event in events
    {
      assert SessionOk(i, s.sessions[i], s.attempts, s.stateLog, s.issued, s.origins, s.events);
    }
  }

  lemma InsertedRow(cfg: Config, s: State, t: State, r: string, c: Checkout)
    requires CheckoutsOk(cfg, s.checkouts, s.origins, s.events, s.invoices, s.chain, s.selected)
    requires r !in s.checkouts && r in t.origins && c.event in s.events
    requires t == s.(checkouts := s.checkouts[r := c], invoices := t.invoices, origins := t.origins, issued := t.issued)
    requires Submap(s.origins, t.origins) && KeepsInvoices(s.checkouts, s.origins, s.invoices, t.invoices)
    requires CheckoutOk(cfg, r, c, t.origins[r], s.events[c.event], t.invoices, s.chain, s.selected)
    ensures CheckoutsOk(cfg, t.checkouts, t.origins, t.events, t.invoices, t.chain, t.selected)
  {
    CheckoutsSurvive(cfg, s.checkouts, s.origins, s.events, s.invoices, s.chain, s.selected,
                     t.origins, t.events, t.invoices, t.chain, t.selected);
  }

  lemma InsertedRowStaysApart(cfg: Config, s: State, t: State, r: string)
    requires SelectedOk(s.selected, s.origins, s.checkouts) && EmailsOk(s.checkouts, s.origins) && LiveOk(s.redis, s.origins, s.checkouts)
    requires CheckoutsOk(cfg, s.checkouts, s.origins, s.events, s.invoices, s.chain, s.selected)
    requires r !in s.redis && r in t.origins && r in t.checkouts && t.checkouts == s.checkouts[r := t.checkouts[r]]
    requires Submap(s.origins, t.origins) && t.origins[r] != Legacy
    requires t.origins[r].Opened? ==> EmailsOk(t.checkouts, t.origins)
    ensures SelectedOk(s.selected, t.origins, t.checkouts) && EmailsOk(t.checkouts, t.origins) && LiveOk(s.redis, t.origins, t.checkouts)
  {
  }

  /** A reference without checkout becomes paid. */
  lemma CheckoutInsertIsGood(cfg: Config, s: State, t: State, r: string, c: Checkout)
    requires Inv(cfg, s) && r !in s.checkouts && r !in s.redis && c.event in s.events && r in t.origins
    requires t == s.(checkouts := s.checkouts[r := c], invoices := t.invoices, origins := t.origins, issued := t.issued)
    requires Submap(s.origins, t.origins) && s.issued <= t.issued && OriginsOk(cfg, t.origins, t.issued)
    requires KeepsInvoices(s.checkouts, s.origins, s.invoices, t.invoices)
    requires t.origins[r] != Legacy && CheckoutOk(cfg, r, c, t.origins[r], s.events[c.event], t.invoices, s.chain, s.selected)
    requires t.origins[r].Opened? ==> EmailsOk(t.checkouts, t.origins)
    ensures Inv(cfg, t)
  {
    InsertedRow(cfg, s, t, r, c);
    InsertedRowStaysApart(cfg, s, t, r);
    SessionsSurvive(s.sessions, s.attempts, s.stateLog, s.issued, s.origins, s.events,
                    t.attempts, t.stateLog, t.issued, t.origins, t.events);
    assert StaysPaid(s.checkouts, t.checkouts);
    LedgersSurvive(s.sessions, s.attempts, s.redis, s.checkouts, t.attempts, t.redis, t.checkouts);
  }

  lemma SessionUpdate(sessions: Sessions, attempts: Attempts, stateLog: Logs, issued: set<string>, origins: Origins, events: Events,
                      id: string, session: Session, tries: seq<Attempt>, log: seq<SessionState>)
    requires SessionsOk(sessions, attempts, stateLog, issued, origins, events) && ReferencesDistinct(sessions)
    requires id in sessions && Advances(sessions[id], session) && LogEndsWith(log, session.state)
    ensures SessionsOk(sessions[id := session], attempts[id := tries], stateLog[id := log], issued, origins, events)
    ensures ReferencesDistinct(sessions[id := session])
    ensures forall records :: RecordsOk(sessions, records) ==> RecordsOk(sessions[id := session], records)
  {
    forall i | i in sessions
      ensures SessionOk(i, sessions[id := session][i], attempts[id := tries], stateLog[id := log], issued, origins, events)
    {
      assert SessionOk(i, sessions[i], attempts, stateLog, issued, origins, events);
    }
  }

  lemma LedgerUpdate(sessions: Sessions, attempts: Attempts, stateLog: Logs, redis: Redis, checkouts: Checkouts,
                     id: string, session: Session, tries: seq<Attempt>)
    requires LedgersOk(sessions, attempts, redis, checkouts)
    requires id in sessions && Advances(sessions[id], session) && sessions[id].state != SessionPaid
    requires LedgerOk(session, tries, redis, checkouts) && id in stateLog
    ensures LedgersOk(sessions[id := session], attempts[id := tries], redis, checkouts)
    ensures SessionsAdvance(sessions, sessions[id := session], attempts, attempts[id := tries], stateLog)
  {
  }

  lemma LogUpdate(stateLog: Logs, issued: set<string>, id: string, log: seq<SessionState>)
    requires LogsOk(stateLog, issued) && id in stateLog && stateLog[id] <= log && Climbing(log)
    ensures LogsOk(stateLog[id := log], issued) && LogsGrow(stateLog, stateLog[id := log])
  {
  }

  /** Moving one unsettled session forward. */
  lemma AdvanceIsGood(cfg: Config, s: State, id: string, session: Session, tries: seq<Attempt>, log: seq<SessionState>)
    requires Inv(cfg, s) && id in s.sessions && id in s.stateLog
    requires Advances(s.sessions[id], session) && s.sessions[id].state != SessionPaid
    requires LedgerOk(session, tries, s.redis, s.checkouts)
    requires s.stateLog[id] <= log && Climbing(log) && LogEndsWith(log, session.state)
    ensures Good(cfg, s, s.(sessions := s.sessions[id := session], attempts := s.attempts[id := tries], stateLog := s.stateLog[id := log]))
  {
    PreservesItself(s);
    SessionUpdate(s.sessions, s.attempts, s.stateLog, s.issued, s.origins, s.events, id, session, tries, log);
    LedgerUpdate(s.sessions, s.attempts, s.stateLog, s.redis, s.checkouts, id, session, tries);
    LogUpdate(s.stateLog, s.issued, id, log);
  }

  /** A new session on a reference no other session has. */
  lemma SessionInsert(s: State, id: string, session: Session, issued: set<string>)
    requires SessionsOk(s.sessions, s.attempts, s.stateLog, s.issued, s.origins, s.events)
    requires id !in s.issued && s.issued + {id} == issued
    requires session.state == Awaiting && session.event in s.events && session.owner != "" && Trimmed(session.owner)
    requires session.reference in s.origins && s.origins[session.reference].Opened?
    requires Copies(session, s.origins[session.reference].invoice)
    ensures SessionsOk(s.sessions[id := session], s.attempts[id := []], s.stateLog[id := [Awaiting]], issued, s.origins, s.events)
    ensures id !in s.sessions
  {
    assert id !in s.sessions by {
      assert forall i | i in s.sessions :: SessionOk(i, s.sessions[i], s.attempts, s.stateLog, s.issued, s.origins, s.events);
    }
    forall i | i in s.sessions
      ensures SessionOk(i, s.sessions[i], s.attempts[id := []], s.stateLog[id := [Awaiting]], issued, s.origins, s.events)
    {
      assert SessionOk(i, s.sessions[i], s.attempts, s.stateLog, s.issued, s.origins, s.events);
    }
  }

  lemma LedgerInsert(s: State, id: string, session: Session, issued: set<string>)
    requires LedgersOk(s.sessions, s.attempts, s.redis, s.checkouts) && LogsOk(s.stateLog, s.issued)
    requires id !in s.issued && s.issued <= issued && id in issued && id !in s.sessions
    requires session.state == Awaiting && session.signature == None
    ensures LedgersOk(s.sessions[id := session], s.attempts[id := []], s.redis, s.checkouts)
    ensures LogsOk(s.stateLog[id := [Awaiting]], issued) && LogsGrow(s.stateLog, s.stateLog[id := [Awaiting]])
    ensures SessionsAdvance(s.sessions, s.sessions[id := session], s.attempts, s.attempts[id := []], s.stateLog)
  {
    assert id !in s.stateLog;
  }

  lemma ReferenceInsert(sessions: Sessions, records: map<IdempotencyKey, Reply>, id: string, session: Session)
    requires ReferencesDistinct(sessions) && RecordsOk(sessions, records) && id !in sessions
    requires forall i | i in sessions :: sessions[i].reference != session.reference
    requires session.key != "" ==> IdempotencyKey(session.owner, session.key, CreateSession) in records
    ensures ReferencesDistinct(sessions[id := session]) && RecordsOk(sessions[id := session], records)
  {
  }

  lemma SessionInsertIsGood(cfg: Config, s: State, id: string, session: Session)
    requires Inv(cfg, s) && id !in s.issued
    requires session.state == Awaiting && session.signature == None && session.event in s.events
    requires session.owner != "" && Trimmed(session.owner)
    requires session.reference in s.origins && s.origins[session.reference].Opened?
    requires Copies(session, s.origins[session.reference].invoice)
    requires forall i | i in s.sessions :: s.sessions[i].reference != session.reference
    requires session.key != "" ==> IdempotencyKey(session.owner, session.key, CreateSession) in s.records
    ensures Good(cfg, s, AddSession(s, id, session))
  {
    PreservesItself(s);
    SessionInsert(s, id, session, s.issued + {id});
    LedgerInsert(s, id, session, s.issued + {id});
    ReferenceInsert(s.sessions, s.records, id, session);
  }
}
