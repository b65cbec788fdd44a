/** AgentCheckoutCreate of backend/api/agent_runtime.go: the hourly limit on settlements and their idempotency keys. */
module SettlementLimiter {
  import opened Collections
  import opened Text

  type Time = int  // microseconds

  const HOUR: Time := 3_600_000_000

  datatype Status = Queued | Signed | Broadcasted | Confirmed | Failed

  /** A row of automation_intents. */
  datatype Intent = Intent(agent: string, recipient: string, amount: real, memo: string, status: Status,
                           key: Option<string>, signature: Option<string>, createdAt: Time)

  type Intents = map<string, Intent>

  /** One call: the statements' clock readings, the identifier and signature it will draw if it needs them, the active
      policy's limit, and whether settlement is mocked. */
  datatype Call = Call(agent: string, recipient: string, amount: real, memo: string, header: string, limit: Option<int>,
                       mock: bool, countedAt: Time, insertedAt: Time, id: string, signature: string)

  datatype Reply = Rejected(code: nat) | Settled(signature: string)

  function HourlyLimit(limit: Option<int>): int {
    if limit.Some? && limit.value > 0 then limit.value else 10
  }

  predicate Counts(intent: Intent, agent: string) {
    intent.agent == agent && (intent.status == Signed || intent.status == Broadcasted || intent.status == Confirmed)
  }

  /** The agent's counted intents created in the hour after s. */
  function Window(intents: Intents, agent: string, s: Time): set<string> {
    set id | id in intents && Counts(intents[id], agent) && s < intents[id].createdAt <= s + HOUR
  }

  function Recent(intents: Intents, agent: string, now: Time): set<string> {
    set id | id in intents && Counts(intents[id], agent) && now - HOUR < intents[id].createdAt
  }

  predicate HasKey(intent: Intent, agent: string, key: string) {
    intent.agent == agent && intent.key == Some(key)
  }

  predicate KeyUsed(intents: Intents, agent: string, key: string) {
    exists id | id in intents :: HasKey(intents[id], agent, key)
  }

  /** The policy's verdict on a call, before the table is looked at. */
  predicate PolicyAllows(call: Call, isWallet: string -> bool) {
    0.0 < call.amount <= 500.0 && TrimSpace(call.memo) != "" && isWallet(TrimSpace(call.recipient))
  }

  function NewIntent(call: Call): Intent {
    var key := TrimSpace(call.header);
    Intent(call.agent, TrimSpace(call.recipient), call.amount, TrimSpace(call.memo), if call.mock then Confirmed else Failed,
           if key == "" then None else Some(key), if call.mock then Some(call.signature) else None, call.insertedAt)
  }

  /** What a call leaves in the table. */
  function After(isWallet: string -> bool, intents: Intents, call: Call): Intents {
    var key := TrimSpace(call.header);
    if !PolicyAllows(call, isWallet) || |Recent(intents, call.agent, call.countedAt)| >= HourlyLimit(call.limit)
       || (key != "" && KeyUsed(intents, call.agent, key))
    then intents
    else intents[call.id := NewIntent(call)]
  }

  /** A call's answer. */
  ghost predicate Answers(isWallet: string -> bool, intents: Intents, call: Call, reply: Reply) {
    var key := TrimSpace(call.header);
    if !PolicyAllows(call, isWallet) || |Recent(intents, call.agent, call.countedAt)| >= HourlyLimit(call.limit) then
      reply == Rejected(403)
    else if key != "" && KeyUsed(intents, call.agent, key) then
      exists id | id in intents :: HasKey(intents[id], call.agent, key) && reply == Settled(intents[id].signature.GetOr(""))
    else
      reply == if call.mock then Settled(call.signature) else Rejected(500)
  }

  class Settlement {
    const isWallet: string -> bool
    var intents: Intents

    constructor (isWallet: string -> bool)
      ensures this.isWallet == isWallet && intents == map[]
    {
      this.isWallet := isWallet;
      intents := map[];
    }

    method AgentCheckoutCreate(call: Call) returns (reply: Reply)
      requires call.id !in intents
      modifies this
      ensures intents == After(isWallet, old(intents), call)
      ensures Answers(isWallet, old(intents), call, reply)
    {
      var recipient, memo := TrimSpace(call.recipient), TrimSpace(call.memo);
      if call.amount <= 0.0 || call.amount > 500.0 {
        return Rejected(403);
      }
      if memo == "" {
        return Rejected(403);
      }
      if !isWallet(recipient) {
        return Rejected(403);
      }
      var hourlyLimit := 10;
      if call.limit.Some? && call.limit.value > 0 {
        hourlyLimit := call.limit.value;
      }
      var hourCount := |Recent(intents, call.agent, call.countedAt)|;
      if hourCount >= hourlyLimit {
        return Rejected(403);
      }
      var idem := TrimSpace(call.header);
      if idem != "" {
        if KeyUsed(intents, call.agent, idem) {
          var row :| row in intents && HasKey(intents[row], call.agent, idem);
          return Settled(intents[row].signature.GetOr(""));
        }
      }
      intents := intents[call.id := Intent(call.agent, recipient, call.amount, memo, Queued,
                                           if idem == "" then None else Some(idem), None, call.insertedAt)];
      if call.mock {
        intents := intents[call.id := intents[call.id].(status := Confirmed, signature := Some(call.signature))];
        return Settled(call.signature);
      }
      intents := intents[call.id := intents[call.id].(status := Failed)];
      reply := Rejected(500);
    }
  }

  // Runs

  /** Clock readings never go back, identifiers are fresh. */
  ghost predicate Allowed(intents: Intents, clock: Time, call: Call) {
    clock <= call.countedAt <= call.insertedAt && call.id !in intents
  }

  function AfterAll(isWallet: string -> bool, intents: Intents, calls: seq<Call>): Intents
    decreases calls
  {
    if calls == [] then intents else AfterAll(isWallet, After(isWallet, intents, calls[0]), calls[1..])
  }

  ghost predicate AllowedRun(isWallet: string -> bool, intents: Intents, clock: Time, calls: seq<Call>)
    decreases calls
  {
    calls == []
    || (Allowed(intents, clock, calls[0])
        && AllowedRun(isWallet, After(isWallet, intents, calls[0]), calls[0].insertedAt, calls[1..]))
  }

  /** Nothing in the table is later than the clock, and every one-hour window holds at most bound counted intents. */
  ghost predicate WindowsOk(intents: Intents, clock: Time, bound: int) {
    && (forall id | id in intents :: intents[id].createdAt <= clock)
    && forall agent, s :: |Window(intents, agent, s)| <= bound
  }

  /** A window the new intent falls into holds only intents the call has counted. */
  lemma CountedBefore(intents: Intents, agent: string, s: Time, call: Call)
    requires call.countedAt <= call.insertedAt <= s + HOUR
    ensures |Window(intents, agent, s)| <= |Recent(intents, agent, call.countedAt)|
  {
    SubsetIsSmaller(Window(intents, agent, s), Recent(intents, agent, call.countedAt));
  }

  lemma CallKeepsWindows(isWallet: string -> bool, intents: Intents, clock: Time, call: Call, bound: int)
    requires WindowsOk(intents, clock, bound) && Allowed(intents, clock, call) && HourlyLimit(call.limit) <= bound
    ensures WindowsOk(After(isWallet, intents, call), call.insertedAt, bound)
  {
    var after := After(isWallet, intents, call);
    if after != intents {
      forall agent, s ensures |Window(after, agent, s)| <= bound {
        assert |Window(intents, agent, s)| <= bound;
        InsertedWindow(intents, call.id, NewIntent(call), agent, s);
        if call.agent == agent && s < call.insertedAt <= s + HOUR {
          CountedBefore(intents, agent, s, call);
        }
      }
    }
  }

  lemma InsertedWindow(intents: Intents, id: string, intent: Intent, agent: string, s: Time)
    requires id !in intents
    ensures Window(intents[id := intent], agent, s)
         == Window(intents, agent, s) + (if Counts(intent, agent) && s < intent.createdAt <= s + HOUR then {id} else {})
  {
  }

  lemma {:induction false} WindowsStayBounded(isWallet: string -> bool, intents: Intents, clock: Time, calls: seq<Call>,
                                              bound: int, agent: string, s: Time)
    requires WindowsOk(intents, clock, bound) && AllowedRun(isWallet, intents, clock, calls)
    requires forall i | 0 <= i < |calls| :: HourlyLimit(calls[i].limit) <= bound
    ensures |Window(AfterAll(isWallet, intents, calls), agent, s)| <= bound
    decreases calls
  {
    if calls != [] {
      CallKeepsWindows(isWallet, intents, clock, calls[0], bound);
      WindowsStayBounded(isWallet, After(isWallet, intents, calls[0]), calls[0].insertedAt, calls[1..], bound, agent, s);
    }
  }

  /** The agent's intents that are signed, broadcast or confirmed and were created in the hour after this moment. */
  function SettledInHour(intents: Intents, agent: string, after: Time): set<string> {
    set id | id in intents && intents[id].agent == agent && after < intents[id].createdAt <= after + 3_600_000_000
             && (intents[id].status == Signed || intents[id].status == Broadcasted || intents[id].status == Confirmed)
  }

  function SettledAfter(intents: Intents, agent: string, after: Time): set<string> {
    set id | id in intents && intents[id].agent == agent && after < intents[id].createdAt
             && (intents[id].status == Signed || intents[id].status == Broadcasted || intents[id].status == Confirmed)
  }

  /** The number of settlements an hour may hold for a call: the policy's, if it is positive, and ten without one. */
  ghost predicate MayHold(limit: Option<int>, n: int) {
    (limit == Some(n) && n > 0) || (n == 10 && (limit == None || limit.value <= 0))
  }

  lemma LimitIsHeld(limit: Option<int>, n: int)
    ensures MayHold(limit, n) <==> HourlyLimit(limit) == n
  {
  }

  lemma WindowIsHour(intents: Intents, agent: string, s: Time)
    ensures Window(intents, agent, s) == SettledInHour(intents, agent, s)
    ensures Recent(intents, agent, s + 3_600_000_000) == SettledAfter(intents, agent, s)
  {
  }

  /** Every hour, at any time and for every agent, holds at most bound settlements, if it did before the run and no call of
      the run may hold more: neither by its policy nor, without a positive policy limit, by the default of ten. */
  lemma EveryHourIsBounded(isWallet: string -> bool, intents: Intents, clock: Time, calls: seq<Call>, bound: int, agent: string, s: Time)
    requires forall id | id in intents :: intents[id].createdAt <= clock
    requires forall a, x :: |SettledInHour(intents, a, x)| <= bound
    requires AllowedRun(isWallet, intents, clock, calls)
    requires forall i, n | 0 <= i < |calls| && MayHold(calls[i].limit, n) :: n <= bound
    ensures |SettledInHour(AfterAll(isWallet, intents, calls), agent, s)| <= bound
  {
    forall a, x ensures |Window(intents, a, x)| <= bound {
      WindowIsHour(intents, a, x);
      assert |SettledInHour(intents, a, x)| <= bound;
    }
    forall i | 0 <= i < |calls| ensures HourlyLimit(calls[i].limit) <= bound {
      LimitIsHeld(calls[i].limit, HourlyLimit(calls[i].limit));
    }
    WindowsStayBounded(isWallet, intents, clock, calls, bound, agent, s);
    WindowIsHour(AfterAll(isWallet, intents, calls), agent, s);
  }

  /** The policy's own checks: a positive amount of at most 500, a memo and a wallet. */
  ghost predicate WithinPolicy(call: Call, isWallet: string -> bool) {
    call.amount > 0.0 && call.amount <= 500.0 && TrimSpace(call.memo) != "" && isWallet(TrimSpace(call.recipient))
  }

  /** A call within the policy is rejected for the hour exactly when the hour before it already holds as many settlements as
      it may; a call outside the policy always is; and neither leaves a mark. */
  lemma HourRefusesIff(isWallet: string -> bool, intents: Intents, call: Call, reply: Reply, n: int)
    requires Answers(isWallet, intents, call, reply) && MayHold(call.limit, n)
    ensures reply == Rejected(403) <==>
              !WithinPolicy(call, isWallet) || n <= |SettledAfter(intents, call.agent, call.countedAt - 3_600_000_000)|
    ensures reply == Rejected(403) ==> After(isWallet, intents, call) == intents
  {
    LimitIsHeld(call.limit, n);
    WindowIsHour(intents, call.agent, call.countedAt - 3_600_000_000);
  }

  /** A call that is not refused and whose key is new makes exactly one intent, of its own data. */
  lemma NewIntentHolds(isWallet: string -> bool, intents: Intents, call: Call, n: int)
    requires MayHold(call.limit, n) && WithinPolicy(call, isWallet) && call.id !in intents
    requires |SettledAfter(intents, call.agent, call.countedAt - 3_600_000_000)| < n
    requires TrimSpace(call.header) == ""
             || forall id | id in intents :: intents[id].agent != call.agent || intents[id].key != Some(TrimSpace(call.header))
    ensures After(isWallet, intents, call)
         == intents[call.id := Intent(call.agent, TrimSpace(call.recipient), call.amount, TrimSpace(call.memo),
                                      if call.mock then Confirmed else Failed,
                                      if TrimSpace(call.header) == "" then None else Some(TrimSpace(call.header)),
                                      if call.mock then Some(call.signature) else None, call.insertedAt)]
  {
    LimitIsHeld(call.limit, n);
    WindowIsHour(intents, call.agent, call.countedAt - 3_600_000_000);
  }

  // Idempotency

  ghost predicate KeysUnique(intents: Intents) {
    forall i, j | i in intents && j in intents ::
      intents[i].agent == intents[j].agent && intents[i].key == intents[j].key && intents[i].key.Some? ==> i == j
  }

  /** Over any run, each agent has at most one intent per key, and an intent once made never changes. */
  lemma {:induction false} OneIntentPerKey(isWallet: string -> bool, intents: Intents, clock: Time, calls: seq<Call>)
    requires KeysUnique(intents) && AllowedRun(isWallet, intents, clock, calls)
    ensures KeysUnique(AfterAll(isWallet, intents, calls))
    ensures forall id | id in intents ::
              id in AfterAll(isWallet, intents, calls) && AfterAll(isWallet, intents, calls)[id] == intents[id]
    decreases calls
  {
    if calls != [] {
      OneIntentPerKey(isWallet, After(isWallet, intents, calls[0]), calls[0].insertedAt, calls[1..]);
    }
  }

  /** Once an intent with a key exists, every later call of its agent with that key leaves the table alone, and is
      rejected by the policy or answered with the signature on record. */
  lemma RepeatsAnswerTheRecord(isWallet: string -> bool, intents: Intents, clock: Time, calls: seq<Call>, id: string,
                               call: Call, reply: Reply)
    requires KeysUnique(intents) && AllowedRun(isWallet, intents, clock, calls)
    requires id in intents && intents[id].key == Some(TrimSpace(call.header)) && TrimSpace(call.header) != ""
    requires call.agent == intents[id].agent
    requires Answers(isWallet, AfterAll(isWallet, intents, calls), call, reply)
    ensures After(isWallet, AfterAll(isWallet, intents, calls), call) == AfterAll(isWallet, intents, calls)
    ensures reply == Rejected(403) || reply == Settled(intents[id].signature.GetOr(""))
  {
    OneIntentPerKey(isWallet, intents, clock, calls);
    var later := AfterAll(isWallet, intents, calls);
    assert HasKey(later[id], call.agent, TrimSpace(call.header));
  }

  /** A call that settles puts its answer on record, one rejected for want of a signer an empty signature. */
  lemma FirstAnswerIsRecorded(isWallet: string -> bool, intents: Intents, call: Call, reply: Reply)
    requires Answers(isWallet, intents, call, reply) && call.id !in intents
    requires After(isWallet, intents, call) != intents
    ensures var after := After(isWallet, intents, call);
            && call.id in after
            && (TrimSpace(call.header) != "" ==> HasKey(after[call.id], call.agent, TrimSpace(call.header)))
            && (call.mock ==> reply == Settled(call.signature) && after[call.id].signature == Some(call.signature))
            && (!call.mock ==> reply == Rejected(500) && after[call.id].signature == None && after[call.id].status == Failed)
  {
  }

  /** The limit comes before the key is looked up, so a full window rejects even a repeat. */
  lemma RepeatIsAnsweredIff(isWallet: string -> bool, intents: Intents, call: Call, reply: Reply, n: int)
    requires TrimSpace(call.header) != "" && KeyUsed(intents, call.agent, TrimSpace(call.header))
    requires Answers(isWallet, intents, call, reply) && MayHold(call.limit, n)
    ensures reply.Settled? <==>
              WithinPolicy(call, isWallet) && |SettledAfter(intents, call.agent, call.countedAt - 3_600_000_000)| < n
  {
    HourRefusesIff(isWallet, intents, call, reply, n);
  }

  /** A call that makes an intent under a key fixes the answer of every later call of its agent under that key, in any run:
      what the policy and the hour let through is answered as the first call was if that settled, and as settled with an
      empty signature if it was rejected for want of a signer. Neither answer leaves a mark. */
  lemma FirstCallFixesAnswers(isWallet: string -> bool, intents: Intents, clock: Time, first: Call, reply: Reply,
                              calls: seq<Call>, again: Call, answer: Reply, n: int)
    requires KeysUnique(intents) && Allowed(intents, clock, first) && Answers(isWallet, intents, first, reply)
    requires var after := After(isWallet, intents, first);
             after != intents && AllowedRun(isWallet, after, first.insertedAt, calls)
             && Answers(isWallet, AfterAll(isWallet, after, calls), again, answer)
    requires again.agent == first.agent && TrimSpace(again.header) == TrimSpace(first.header) && TrimSpace(first.header) != ""
    requires MayHold(again.limit, n)
    ensures var later := AfterAll(isWallet, After(isWallet, intents, first), calls);
            && After(isWallet, later, again) == later
            && (reply == if first.mock then Settled(first.signature) else Rejected(500))
            && answer == if WithinPolicy(again, isWallet) && |SettledAfter(later, again.agent, again.countedAt - 3_600_000_000)| < n
                         then (if first.mock then reply else Settled("")) else Rejected(403)
  {
    var after := After(isWallet, intents, first);
    FirstAnswerIsRecorded(isWallet, intents, first, reply);
    FirstCallKeepsKeysUnique(isWallet, intents, first);
    OneIntentPerKey(isWallet, after, first.insertedAt, calls);
    assert HasKey(AfterAll(isWallet, after, calls)[first.id], again.agent, TrimSpace(again.header));
    RepeatsAnswerTheRecord(isWallet, after, first.insertedAt, calls, first.id, again, answer);
    RepeatIsAnsweredIff(isWallet, AfterAll(isWallet, after, calls), again, answer, n);
  }

  lemma FirstCallKeepsKeysUnique(isWallet: string -> bool, intents: Intents, call: Call)
    requires KeysUnique(intents) && call.id !in intents
    ensures KeysUnique(After(isWallet, intents, call))
  {
  }
}
