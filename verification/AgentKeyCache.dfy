/** The agent key cache of backend/middleware/auth.go and its writers in backend/api/agent_keys.go: first as an object
    used by one caller at a time, then as atomic sections of interleaved calls. */
module AgentKeyCache {
  import opened Text

  type Time = int  // nanoseconds
  type PublicKey = string
  type KeyMap = map<string, PublicKey>

  /** A row of agent_api_keys. */
  datatype KeyRow = KeyRow(encoded: string, active: bool, revoked: bool)
  type Rows = map<string, KeyRow>

  /** The environment's keys (none when the variable is missing or malformed), the decoder, and the time to live. */
  datatype Settings = Settings(env: Option<KeyMap>, decode: string -> Option<PublicKey>, ttl: Time)

  ghost predicate Sensible(p: Settings) {
    p.ttl > 0
  }

  /** Upserts store trimmed, non-empty names. */
  predicate NamesTrimmed(rows: Rows) {
    forall agent | agent in rows :: agent != "" && TrimSpace(agent) == agent
  }

  predicate Usable(p: Settings, rows: Rows, agent: string) {
    agent in rows && rows[agent].active && !rows[agent].revoked && p.decode(TrimSpace(rows[agent].encoded)).Some?
  }

  function RowKeys(p: Settings, rows: Rows): KeyMap {
    map agent | agent in rows && Usable(p, rows, agent) :: p.decode(TrimSpace(rows[agent].encoded)).value
  }

  function KeysWithout(p: Settings, rows: Rows, todo: set<string>): KeyMap {
    map agent | agent in rows && agent !in todo && Usable(p, rows, agent) :: p.decode(TrimSpace(rows[agent].encoded)).value
  }

  lemma OneRowMore(p: Settings, rows: Rows, todo: set<string>, row: string)
    requires row in todo && row in rows
    ensures KeysWithout(p, rows, todo - {row})
         == if Usable(p, rows, row) then KeysWithout(p, rows, todo)[row := p.decode(TrimSpace(rows[row].encoded)).value]
            else KeysWithout(p, rows, todo)
  {
  }

  /** What a read answers: the active rows, or the environment when there are none or the read fails. */
  function Answer(p: Settings, rows: Rows, up: bool): Option<KeyMap> {
    if !up || RowKeys(p, rows) == map[] then p.env else Some(RowKeys(p, rows))
  }

  /** The effective key set. */
  function Effective(p: Settings, rows: Rows): Option<KeyMap> {
    Answer(p, rows, true)
  }

  /** An active row that has not been revoked holds this key. */
  ghost predicate Granted(p: Settings, rows: Rows, agent: string, key: PublicKey) {
    agent in rows && rows[agent].active && !rows[agent].revoked && p.decode(TrimSpace(rows[agent].encoded)) == Some(key)
  }

  /** The keys are those granted, or the environment's when none is. */
  ghost predicate AreKeysOf(p: Settings, rows: Rows, keys: Option<KeyMap>) {
    if exists agent, key :: Granted(p, rows, agent, key)
    then keys.Some? && forall agent, key :: agent in keys.value && keys.value[agent] == key <==> Granted(p, rows, agent, key)
    else keys == p.env
  }

  lemma EffectiveIsGranted(p: Settings, rows: Rows)
    ensures AreKeysOf(p, rows, Effective(p, rows))
  {
    var found := RowKeys(p, rows);
    forall agent, key
      ensures agent in found && found[agent] == key <==> Granted(p, rows, agent, key)
    {
    }
    if found != map[] {
      var agent :| agent in found;
      assert Granted(p, rows, agent, found[agent]);
    }
  }

  datatype Cache = Cache(keys: Option<KeyMap>, expiresAt: Time)

  const EMPTY := Cache(None, 0)

  function Hit(c: Cache, now: Time): Option<KeyMap> {
    if c.keys.Some? && now < c.expiresAt then c.keys else None
  }

  function Refilled(p: Settings, keys: Option<KeyMap>, now: Time): Cache {
    Cache(keys, now + p.ttl)
  }

  function Upserted(rows: Rows, agent: string, encoded: string): Rows {
    rows[agent := KeyRow(encoded, true, false)]
  }

  function Revoked(rows: Rows, agent: string): Rows {
    if agent in rows then rows[agent := rows[agent].(active := false, revoked := true)] else rows
  }

  // One caller at a time

  class AgentKeys {
    const p: Settings
    var rows: Rows
    var keys: Option<KeyMap>
    var expiresAt: Time

    constructor (p: Settings)
      ensures this.p == p && rows == map[] && CacheIs(EMPTY) && Current()
    {
      this.p := p;
      rows, keys, expiresAt := map[], None, 0;
    }

    predicate CacheIs(c: Cache)
      reads this
    {
      Cache(keys, expiresAt) == c
    }

    /** Whatever is cached is the effective key set. */
    predicate Current()
      reads this
    {
      NamesTrimmed(rows) && (keys.Some? ==> keys == Effective(p, rows))
    }

    /** agentPublicKeysFromDB */
    method AgentPublicKeysFromDB() returns (out: KeyMap)
      requires NamesTrimmed(rows)
      ensures out == RowKeys(p, rows)
    {
      out := map[];
      var todo := rows.Keys;
      while todo != {}
        invariant todo <= rows.Keys
        invariant out == KeysWithout(p, rows, todo)
        decreases todo
      {
        var row :| row in todo;
        OneRowMore(p, rows, todo, row);
        todo := todo - {row};
        if !rows[row].active || rows[row].revoked {
          continue;
        }
        var agentID := TrimSpace(row);
        var key := p.decode(TrimSpace(rows[row].encoded));
        if agentID == "" || key.None? {
          continue;
        }
        out := out[agentID := key.value];
      }
    }

    method Peek(now: Time) returns (cached: Option<KeyMap>)
      ensures cached == Hit(Cache(keys, expiresAt), now)
    {
      if keys.Some? && now < expiresAt {
        return keys;
      }
      cached := None;
    }

    method Store(loaded: Option<KeyMap>, now: Time)
      modifies this`keys, this`expiresAt
      ensures CacheIs(Refilled(p, loaded, now))
    {
      keys := loaded;
      expiresAt := now + p.ttl;
    }

    /** InvalidateAgentKeyCache */
    method Invalidate()
      modifies this`keys, this`expiresAt
      ensures CacheIs(EMPTY)
    {
      keys := None;
      expiresAt := 0;
    }

    /** agentPublicKeys, undisturbed. It returns the effective set whenever the database answers and the cache was
        current, and then leaves the cache current. */
    method AgentPublicKeys(now: Time, up: bool) returns (found: Option<KeyMap>)
      requires NamesTrimmed(rows)
      modifies this`keys, this`expiresAt
      ensures found == Hit(old(Cache(keys, expiresAt)), now) || found == Answer(p, rows, up)
      ensures old(Current()) && up ==> found == Effective(p, rows) && Current()
      ensures Hit(old(Cache(keys, expiresAt)), now).None? ==> CacheIs(Refilled(p, Answer(p, rows, up), now))
    {
      var cached := Peek(now);
      if cached.Some? {
        return cached;
      }
      found := p.env;
      if up {
        var loaded := AgentPublicKeysFromDB();
        if |loaded| != 0 {
          found := Some(loaded);
        }
      }
      Store(found, now);
    }

    /** UpsertAgentKey's writes; afterwards the cache is current, whatever it was before. */
    method UpsertAgentKey(agent: string, encoded: string) returns (ok: bool)
      requires NamesTrimmed(rows)
      modifies this
      ensures ok == (TrimSpace(agent) != "" && TrimSpace(encoded) != "" && p.decode(TrimSpace(encoded)).Some?)
      ensures rows == if ok then Upserted(old(rows), TrimSpace(agent), TrimSpace(encoded)) else old(rows)
      ensures if ok then CacheIs(EMPTY) && Current() else CacheIs(old(Cache(keys, expiresAt)))
      ensures ok ==> NamesTrimmed(rows) && Granted(p, rows, TrimSpace(agent), p.decode(TrimSpace(encoded)).value)
      ensures forall other, k | other != TrimSpace(agent) :: Granted(p, rows, other, k) <==> Granted(p, old(rows), other, k)
    {
      var agentID, key := TrimSpace(agent), TrimSpace(encoded);
      if agentID == "" || key == "" || p.decode(key).None? {
        return false;
      }
      TrimSpaceIsTrimmed(agent);
      TrimmedIsFixed(agentID);
      TrimSpaceIsTrimmed(encoded);
      TrimmedIsFixed(key);
      rows := rows[agentID := KeyRow(key, true, false)];
      Invalidate();
      ok := true;
    }

    /** RevokeAgentKey's writes */
    method RevokeAgentKey(agent: string) returns (ok: bool)
      requires NamesTrimmed(rows)
      modifies this
      ensures ok == (TrimSpace(agent) != "")
      ensures rows == if ok then Revoked(old(rows), TrimSpace(agent)) else old(rows)
      ensures if ok then CacheIs(EMPTY) && Current() else CacheIs(old(Cache(keys, expiresAt)))
      ensures ok ==> forall k :: !Granted(p, rows, TrimSpace(agent), k)
      ensures forall other, k | other != TrimSpace(agent) :: Granted(p, rows, other, k) <==> Granted(p, old(rows), other, k)
    {
      var agentID := TrimSpace(agent);
      if agentID == "" {
        return false;
      }
      if agentID in rows {
        rows := rows[agentID := rows[agentID].(active := false, revoked := true)];
      }
      Invalidate();
      ok := true;
    }
  }

  // Interleaved calls

  /** How far a lookup has come since it read the clock at t. */
  datatype Call = Began(t: Time) | Missed(t: Time) | Loaded(t: Time, keys: Option<KeyMap>) | Returned(t: Time, keys: Option<KeyMap>)

  /** A moment of the past: the table at that time, and whether the database answered. */
  datatype Moment = Moment(at: Time, rows: Rows, up: bool)

  datatype System = System(clock: Time, rows: Rows, cache: Cache, calls: map<nat, Call>, history: seq<Moment>)

  datatype Section =
    | Wait(until: Time)                           // time passes
    | ReadClock(id: nat)                          // a lookup starts
    | PeekCache(id: nat)                          // its section under the read lock
    | ReadRows(id: nat, up: bool)                 // its query
    | StoreKeys(id: nat)                          // its section under the write lock
    | UpsertRow(agent: string, encoded: string)   // the writers' statements
    | RevokeRow(agent: string)
    | ClearCache                                  // their invalidation, at any later time

  predicate Enabled(s: System, section: Section) {
    match section
    case Wait(until) => s.clock <= until
    case ReadClock(id) => id !in s.calls
    case PeekCache(id) => id in s.calls && s.calls[id].Began?
    case ReadRows(id, _) => id in s.calls && s.calls[id].Missed?
    case StoreKeys(id) => id in s.calls && s.calls[id].Loaded?
    case _ => true
  }

  function Change(p: Settings, s: System, section: Section): System
    requires Enabled(s, section)
  {
    match section
    case Wait(until) => s.(clock := until)
    case ReadClock(id) => s.(calls := s.calls[id := Began(s.clock)])
    case PeekCache(id) =>
      var t, hit := s.calls[id].t, Hit(s.cache, s.calls[id].t);
      s.(calls := s.calls[id := if hit.Some? then Returned(t, hit) else Missed(t)])
    case ReadRows(id, up) => s.(calls := s.calls[id := Loaded(s.calls[id].t, Answer(p, s.rows, up))])
    case StoreKeys(id) =>
      var call := s.calls[id];
      s.(cache := Refilled(p, call.keys, call.t), calls := s.calls[id := Returned(call.t, call.keys)])
    case UpsertRow(agent, encoded) => s.(rows := Upserted(s.rows, agent, encoded))
    case RevokeRow(agent) => s.(rows := Revoked(s.rows, agent))
    case ClearCache => s.(cache := EMPTY)
  }

  /** A section, and the moment after it put on record. */
  function Do(p: Settings, s: System, section: Section): System
    requires Enabled(s, section)
  {
    var t := Change(p, s, section);
    t.(history := s.history + [Moment(t.clock, t.rows, section.ReadRows? ==> section.up)])
  }

  ghost predicate Runs(p: Settings, s: System, sections: seq<Section>, t: System)
    decreases sections
  {
    if sections == [] then s == t
    else Enabled(s, sections[0]) && Runs(p, Do(p, s, sections[0]), sections[1..], t)
  }

  /** At a moment not before from, these keys were what a read answered. */
  ghost predicate Served(p: Settings, history: seq<Moment>, keys: Option<KeyMap>, from: Time) {
    exists i :: 0 <= i < |history| && from <= history[i].at && keys == Answer(p, history[i].rows, history[i].up)
  }

  ghost predicate CallOk(p: Settings, s: System, call: Call) {
    match call
    case Began(t) => t <= s.clock
    case Missed(t) => t <= s.clock
    case Loaded(t, keys) => Served(p, s.history, keys, t)
    case Returned(t, keys) => Served(p, s.history, keys, t - p.ttl + 1)
  }

  ghost predicate SystemOk(p: Settings, s: System) {
    && (s.cache.keys.Some? ==> Served(p, s.history, s.cache.keys, s.cache.expiresAt - p.ttl))
    && forall id | id in s.calls :: CallOk(p, s, s.calls[id])
  }

  lemma ServedStays(p: Settings, history: seq<Moment>, moment: Moment, keys: Option<KeyMap>, from: Time)
    requires Served(p, history, keys, from)
    ensures Served(p, history + [moment], keys, from)
  {
    var i :| 0 <= i < |history| && from <= history[i].at && keys == Answer(p, history[i].rows, history[i].up);
    assert (history + [moment])[i] == history[i];
  }

  lemma ServedEarlier(p: Settings, history: seq<Moment>, keys: Option<KeyMap>, from: Time, from': Time)
    requires Served(p, history, keys, from) && from' <= from
    ensures Served(p, history, keys, from')
  {
    var i :| 0 <= i < |history| && from <= history[i].at && keys == Answer(p, history[i].rows, history[i].up);
  }

  /** The call a section advances ends up well. */
  lemma OwnCallOk(p: Settings, s: System, section: Section, id: nat)
    requires Sensible(p) && SystemOk(p, s) && Enabled(s, section)
    requires id in Change(p, s, section).calls && (id !in s.calls || Change(p, s, section).calls[id] != s.calls[id])
    ensures CallOk(p, Do(p, s, section), Do(p, s, section).calls[id])
  {
    var t := Do(p, s, section);
    var moment := t.history[|s.history|];
    if section.ReadRows? {
      assert CallOk(p, s, s.calls[id]);
      assert t.history[|s.history|].at >= s.calls[id].t;
    } else if section.StoreKeys? {
      var call := s.calls[id];
      assert CallOk(p, s, call);
      ServedStays(p, s.history, moment, call.keys, call.t);
      ServedEarlier(p, t.history, call.keys, call.t, call.t - p.ttl + 1);
    } else if section.PeekCache? {
      assert CallOk(p, s, s.calls[id]);
      if t.calls[id].Returned? {
        ServedStays(p, s.history, moment, s.cache.keys, s.cache.expiresAt - p.ttl);
        ServedEarlier(p, t.history, s.cache.keys, s.cache.expiresAt - p.ttl, s.calls[id].t - p.ttl + 1);
      }
    }
  }

  lemma OtherCallOk(p: Settings, s: System, section: Section, id: nat)
    requires SystemOk(p, s) && Enabled(s, section) && id in s.calls
    ensures CallOk(p, Do(p, s, section), s.calls[id])
  {
    var moment, call := Do(p, s, section).history[|s.history|], s.calls[id];
    assert CallOk(p, s, call);
    if call.Loaded? {
      ServedStays(p, s.history, moment, call.keys, call.t);
    } else if call.Returned? {
      ServedStays(p, s.history, moment, call.keys, call.t - p.ttl + 1);
    }
  }

  lemma CacheOk(p: Settings, s: System, section: Section)
    requires SystemOk(p, s) && Enabled(s, section)
    ensures var t := Do(p, s, section);
            t.cache.keys.Some? ==> Served(p, t.history, t.cache.keys, t.cache.expiresAt - p.ttl)
  {
    var moment := Do(p, s, section).history[|s.history|];
    if section.StoreKeys? {
      var call := s.calls[section.id];
      assert CallOk(p, s, call);
      ServedStays(p, s.history, moment, call.keys, call.t);
    } else if s.cache.keys.Some? {
      ServedStays(p, s.history, moment, s.cache.keys, s.cache.expiresAt - p.ttl);
    }
  }

  lemma SectionKeepsOk(p: Settings, s: System, section: Section)
    requires Sensible(p) && SystemOk(p, s) && Enabled(s, section)
    ensures SystemOk(p, Do(p, s, section))
  {
    var t := Do(p, s, section);
    CacheOk(p, s, section);
    forall id | id in t.calls ensures CallOk(p, t, t.calls[id]) {
      if id in s.calls && t.calls[id] == s.calls[id] {
        OtherCallOk(p, s, section, id);
      } else {
        OwnCallOk(p, s, section, id);
      }
    }
  }

  lemma {:induction false} RunKeepsOk(p: Settings, s: System, sections: seq<Section>, t: System)
    requires Sensible(p) && SystemOk(p, s) && Runs(p, s, sections, t)
    ensures SystemOk(p, t)
    decreases sections
  {
    if sections != [] {
      SectionKeepsOk(p, s, sections[0]);
      RunKeepsOk(p, Do(p, s, sections[0]), sections[1..], t);
    }
  }

  ghost predicate Initial(s: System) {
    s.cache == EMPTY && s.calls == map[]
  }

  /** Under every interleaving, a lookup that read the clock at t returns keys that a read answered at a moment after
      t - ttl: the effective set of that moment, or the environment if the database was down. */
  lemma StalenessIsBounded(p: Settings, s: System, sections: seq<Section>, t: System, id: nat)
    requires Sensible(p) && Initial(s) && Runs(p, s, sections, t) && id in t.calls && t.calls[id].Returned?
    ensures exists i :: 0 <= i < |t.history| && t.history[i].at > t.calls[id].t - p.ttl
                        && t.calls[id].keys == Answer(p, t.history[i].rows, t.history[i].up)
  {
    RunKeepsOk(p, s, sections, t);
    assert CallOk(p, t, t.calls[id]);
    var from := t.calls[id].t - p.ttl + 1;
    var i :| 0 <= i < |t.history| && from <= t.history[i].at
             && t.calls[id].keys == Answer(p, t.history[i].rows, t.history[i].up);
  }

  ghost predicate NeverDown(sections: seq<Section>) {
    forall i | 0 <= i < |sections| :: sections[i].ReadRows? ==> sections[i].up
  }

  lemma {:induction false} NeverDownHistory(p: Settings, s: System, sections: seq<Section>, t: System)
    requires Runs(p, s, sections, t) && NeverDown(sections) && forall i | 0 <= i < |s.history| :: s.history[i].up
    ensures forall i | 0 <= i < |t.history| :: t.history[i].up
    decreases sections
  {
    if sections != [] {
      NeverDownHistory(p, Do(p, s, sections[0]), sections[1..], t);
    }
  }

  /** With a database that always answers, every lookup returns a key set that was effective after t - ttl. */
  lemma ReturnedKeysWereEffective(p: Settings, s: System, sections: seq<Section>, t: System, id: nat)
    requires Sensible(p) && Initial(s) && s.history == [] && Runs(p, s, sections, t) && NeverDown(sections)
    requires id in t.calls && t.calls[id].Returned?
    ensures exists i :: 0 <= i < |t.history| && t.history[i].at > t.calls[id].t - p.ttl
                        && AreKeysOf(p, t.history[i].rows, t.calls[id].keys)
  {
    StalenessIsBounded(p, s, sections, t, id);
    NeverDownHistory(p, s, sections, t);
    var i :| 0 <= i < |t.history| && t.history[i].at > t.calls[id].t - p.ttl
             && t.calls[id].keys == Answer(p, t.history[i].rows, t.history[i].up);
    assert t.history[i].up;
    EffectiveIsGranted(p, t.history[i].rows);
  }

  lemma {:induction false} RunsOf(p: Settings, states: seq<System>, sections: seq<Section>)
    requires |states| == |sections| + 1
    requires forall i | 0 <= i < |sections| :: Enabled(states[i], sections[i]) && states[i + 1] == Do(p, states[i], sections[i])
    ensures Runs(p, states[0], sections, states[|sections|])
    decreases sections
  {
    if sections != [] {
      RunsOf(p, states[1..], sections[1..]);
    }
  }

  // How long a revoked key can come back

  /** No section stores a row for the agent. */
  ghost predicate NotUpserted(sections: seq<Section>, agent: string) {
    forall i | 0 <= i < |sections| :: sections[i].UpsertRow? ==> sections[i].agent != agent
  }

  /** From index n on, the key of the agent is in no moment's rows. */
  ghost predicate Unusable(p: Settings, history: seq<Moment>, n: nat, agent: string) {
    forall i | n <= i < |history| :: !Usable(p, history[i].rows, agent)
  }

  ghost predicate InThePast(history: seq<Moment>, clock: Time) {
    forall i | 0 <= i < |history| :: history[i].at <= clock
  }

  lemma {:induction false} RevokedStaysUnusable(p: Settings, s: System, sections: seq<Section>, t: System, agent: string)
    requires Runs(p, s, sections, t) && NotUpserted(sections, agent) && !Usable(p, s.rows, agent)
    ensures |s.history| <= |t.history| && t.history[..|s.history|] == s.history && Unusable(p, t.history, |s.history|, agent)
    decreases sections
  {
    if sections != [] {
      var u := Do(p, s, sections[0]);
      assert sections[0].UpsertRow? ==> sections[0].agent != agent;
      RevokedStaysUnusable(p, u, sections[1..], t, agent);
      assert u.history[..|s.history|] == s.history;
      assert t.history[|s.history|] == u.history[|s.history|];
    }
  }

  lemma {:induction false} HistoryIsPast(p: Settings, s: System, sections: seq<Section>, t: System)
    requires Runs(p, s, sections, t) && InThePast(s.history, s.clock)
    ensures InThePast(t.history, t.clock)
    decreases sections
  {
    if sections != [] {
      HistoryIsPast(p, Do(p, s, sections[0]), sections[1..], t);
    }
  }

  lemma {:induction false} RunsInTurn(p: Settings, s: System, a: seq<Section>, t: System, b: seq<Section>, u: System)
    requires Runs(p, s, a, t) && Runs(p, t, b, u)
    ensures Runs(p, s, a + b, u)
    decreases a
  {
    if a == [] {
      assert a + b == b;
    } else {
      assert (a + b)[1..] == a[1..] + b;
      RunsInTurn(p, Do(p, s, a[0]), a[1..], t, b, u);
    }
  }

  ghost predicate Holds(keys: Option<KeyMap>, agent: string) {
    keys.Some? && agent in keys.value
  }

  /** An answer holds the agent only from usable rows, when the environment does not know the agent. */
  lemma AnswerHolds(p: Settings, rows: Rows, up: bool, agent: string)
    requires !Holds(p.env, agent)
    ensures Holds(Answer(p, rows, up), agent) ==> Usable(p, rows, agent)
  {
  }

  /** Whatever is interleaved, and even if the cache is never cleared: a lookup that reads the clock a full time to live
      after the revocation, or later, does not return the key. */
  lemma RevokedKeyIsGone(p: Settings, s: System, before: seq<Section>, agent: string, after: seq<Section>, a: System, t: System, id: nat)
    requires Sensible(p) && Initial(s) && s.history == [] && !Holds(p.env, agent)
    requires Runs(p, s, before, a) && Runs(p, Do(p, a, RevokeRow(agent)), after, t) && NotUpserted(after, agent)
    requires id in t.calls && t.calls[id].Returned? && t.calls[id].t >= a.clock + p.ttl
    ensures !Holds(t.calls[id].keys, agent)
  {
    var u := Do(p, a, RevokeRow(agent));
    assert Runs(p, a, [RevokeRow(agent)], u) by {
      assert [RevokeRow(agent)][1..] == [];
      assert Runs(p, u, [], u);
    }
    RunsInTurn(p, s, before, a, [RevokeRow(agent)], u);
    RunsInTurn(p, s, before + [RevokeRow(agent)], u, after, t);
    StalenessIsBounded(p, s, before + [RevokeRow(agent)] + after, t, id);
    HistoryIsPast(p, s, before, a);
    RevokedStaysUnusable(p, u, after, t, agent);
    var i :| 0 <= i < |t.history| && t.history[i].at > t.calls[id].t - p.ttl
             && t.calls[id].keys == Answer(p, t.history[i].rows, t.history[i].up);
    AnswerHolds(p, t.history[i].rows, t.history[i].up, agent);
    LateMoment(a.history, u.history, t.history, a.clock, i);
  }

  /** A moment after the clock of the past is the next one or a later one. */
  lemma LateMoment(past: seq<Moment>, next: seq<Moment>, history: seq<Moment>, clock: Time, i: nat)
    requires InThePast(past, clock) && |next| == |past| + 1 && next[..|past|] == past
    requires |next| <= |history| && history[..|next|] == next && i < |history| && history[i].at > clock
    ensures i >= |past| && (i < |next| ==> history[i] == next[|past|])
  {
    assert forall k | 0 <= k < |next| :: history[k] == history[..|next|][k];
    assert forall k | 0 <= k < |past| :: next[k] == next[..|past|][k];
  }

  /** A revocation at the moment of before, complete with its clearing of the cache, and a lookup started afterwards that
      reads the clock d later and returns the key. */
  ghost predicate Revival(p: Settings, s: System, agent: string, d: Time, before: seq<Section>, after: seq<Section>, a: System,
                          t: System, id: nat) {
    && Runs(p, s, before, a)
    && Runs(p, Do(p, a, RevokeRow(agent)), [ClearCache] + after, t) && NotUpserted(after, agent)
    && id !in a.calls && id in t.calls && t.calls[id].Returned? && t.calls[id].t == a.clock + d
    && Holds(t.calls[id].keys, agent)
  }

  const READING := [ReadClock(0), PeekCache(0), ReadRows(0, true)]

  /** A lookup that has read the rows but not stored them yet. */
  lemma ReadingRuns(p: Settings, s: System) returns (a: System)
    requires Initial(s)
    ensures Runs(p, s, READING, a)
    ensures a.calls == map[0 := Loaded(s.clock, Effective(p, s.rows))]
    ensures a.rows == s.rows && a.cache == EMPTY && a.clock == s.clock
  {
    var b := Do(p, s, READING[0]);
    var c := Do(p, b, READING[1]);
    a := Do(p, c, READING[2]);
    RunsOf(p, [s, b, c, a], READING);
  }

  function Storing(until: Time): seq<Section> {
    [ClearCache, StoreKeys(0), Wait(until), ReadClock(1), PeekCache(1)]
  }

  /** It stores them after the cache was cleared, and a lookup d later finds them. */
  lemma StoringRuns(p: Settings, s: System, stale: Option<KeyMap>, d: Time) returns (t: System)
    requires stale.Some? && s.calls == map[0 := Loaded(s.clock, stale)] && 0 <= d < p.ttl
    ensures Runs(p, s, Storing(s.clock + d), t)
    ensures 1 in t.calls && t.calls[1] == Returned(s.clock + d, stale)
  {
    var sections := Storing(s.clock + d);
    var e := Do(p, s, sections[0]);
    var f := Do(p, e, sections[1]);
    var g := Do(p, f, sections[2]);
    var h := Do(p, g, sections[3]);
    t := Do(p, h, sections[4]);
    RunsOf(p, [s, e, f, g, h, t], sections);
  }

  lemma UsableIsEffective(p: Settings, rows: Rows, agent: string)
    requires Usable(p, rows, agent)
    ensures Holds(Effective(p, rows), agent)
  {
    assert agent in RowKeys(p, rows);
  }

  /** So a lookup can still return a usable key of any agent at any moment less than a time to live after its revocation. */
  lemma RevokedKeyCanReturn(p: Settings, s: System, agent: string, d: Time) returns (a: System, t: System)
    requires Sensible(p) && Initial(s) && Usable(p, s.rows, agent) && 0 <= d < p.ttl
    ensures Revival(p, s, agent, d, READING, Storing(s.clock + d)[1..], a, t, 1)
  {
    a := ReadingRuns(p, s);
    UsableIsEffective(p, s.rows, agent);
    var u := Do(p, a, RevokeRow(agent));
    t := StoringRuns(p, u, Effective(p, s.rows), d);
    assert [ClearCache] + Storing(s.clock + d)[1..] == Storing(s.clock + d);
  }

  /** A revoked key can come back d after its revocation if and only if d is less than the time to live. */
  lemma RevokedKeyReturnsIff(p: Settings, s: System, agent: string, d: Time)
    requires Sensible(p) && Initial(s) && s.history == [] && Usable(p, s.rows, agent) && !Holds(p.env, agent) && 0 <= d
    ensures (exists before, after, a, t, id: nat :: Revival(p, s, agent, d, before, after, a, t, id)) <==> d < p.ttl
  {
    if d < p.ttl {
      var a, t := RevokedKeyCanReturn(p, s, agent, d);
    } else {
      forall before, after, a, t, id: nat | Revival(p, s, agent, d, before, after, a, t, id)
        ensures false
      {
        RevokedKeyIsGone(p, s, before, agent, [ClearCache] + after, a, t, id);
      }
    }
  }
}
