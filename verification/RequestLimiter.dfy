/** The fixed-window request limiter of backend/middleware/ratelimit.go over Redis counters. */
module RequestLimiter {
  import opened Text
  import opened Decimal

  type Time = nat  // milliseconds since 1970, on the one clock Go and Redis read

  const WINDOW: Time := 60_000

  /** windowBucket: whole seconds, divided by sixty */
  function Bucket(now: Time): nat {
    now / 1000 / 60
  }

  /** rateLimitPolicy */
  function Policy(path: string): (string, nat) {
    if HasPrefix(path, "/api/checkout/detect") then ("checkout_detect", 30)
    else if HasPrefix(path, "/api/checkout/recheck") then ("checkout_recheck", 12)
    else if HasPrefix(path, "/api/checkout/manual-verify") then ("checkout_manual_verify", 10)
    else ("default", 10)
  }

  predicate IsTag(tag: string) {
    tag == "checkout_detect" || tag == "checkout_recheck" || tag == "checkout_manual_verify" || tag == "default"
  }

  function LimitOf(tag: string): nat {
    if tag == "checkout_detect" then 30 else if tag == "checkout_recheck" then 12 else 10
  }

  lemma PolicyGivesLimit(path: string)
    ensures IsTag(Policy(path).0) && LimitOf(Policy(path).0) == Policy(path).1
  {
  }

  datatype Slot = Slot(tag: string, ip: string, bucket: nat)

  /** fmt.Sprintf("ratelimit:%s:%s:%d", tag, ip, bucket) */
  function KeyOf(slot: Slot): string {
    "ratelimit:" + slot.tag + ":" + slot.ip + ":" + Digits(slot.bucket)
  }

  /** A Redis counter. */
  datatype Counter = Counter(count: nat, expiresAt: Option<Time>)
  type Counters = map<string, Counter>

  predicate Alive(counters: Counters, key: string, now: Time) {
    key in counters && (counters[key].expiresAt.Some? ==> now < counters[key].expiresAt.value)
  }

  function Live(counters: Counters, key: string, now: Time): nat {
    if Alive(counters, key, now) then counters[key].count else 0
  }

  /** Redis INCR: a missing or expired counter starts anew and without expiry. */
  function Incremented(counters: Counters, key: string, now: Time): Counters {
    if Alive(counters, key, now) then counters[key := counters[key].(count := counters[key].count + 1)]
    else counters[key := Counter(1, None)]
  }

  function Expiring(counters: Counters, key: string, now: Time): Counters
    requires key in counters
  {
    counters[key := counters[key].(expiresAt := Some(now + WINDOW))]
  }

  /** A request, and whether Redis answers the INCR and the EXPIRE. */
  datatype Request = Request(ip: string, path: string, now: Time, incrOk: bool, expireOk: bool)
  datatype Reply = Admitted | TooMany | Unavailable

  datatype Entry = Entry(tag: string, ip: string, at: Time)

  /** The counters, the requests they counted, and those of them that were let through. */
  datatype State = State(counters: Counters, hits: seq<Entry>, log: seq<Entry>)

  function SlotOf(request: Request): Slot {
    Slot(Policy(request.path).0, request.ip, Bucket(request.now))
  }

  function Serve(s: State, r: Request): (State, Reply) {
    var key := KeyOf(SlotOf(r));
    if !r.incrOk then (s, Unavailable)
    else
      var counters := Incremented(s.counters, key, r.now);
      var count := counters[key].count;
      var counters' := if count == 1 && r.expireOk then Expiring(counters, key, r.now) else counters;
      var e := Entry(Policy(r.path).0, r.ip, r.now);
      if count > Policy(r.path).1 then (State(counters', s.hits + [e], s.log), TooMany)
      else (State(counters', s.hits + [e], s.log + [e]), Admitted)
  }

  const START := State(map[], [], [])

  class Limiter {
    var counters: Counters
    ghost var hits: seq<Entry>
    ghost var log: seq<Entry>

    constructor ()
      ensures Now() == START
    {
      counters, hits, log := map[], [], [];
    }

    ghost function Now(): State
      reads this
    {
      State(counters, hits, log)
    }

    method Incr(key: string, now: Time) returns (count: nat)
      modifies this`counters
      ensures counters == Incremented(old(counters), key, now) && key in counters && count == counters[key].count
    {
      if key in counters && (counters[key].expiresAt.None? || now < counters[key].expiresAt.value) {
        counters := counters[key := Counter(counters[key].count + 1, counters[key].expiresAt)];
      } else {
        counters := counters[key := Counter(1, None)];
      }
      count := counters[key].count;
    }

    method RateLimit(r: Request) returns (reply: Reply)
      modifies this
      ensures (Now(), reply) == Serve(old(Now()), r)
    {
      var bucket := r.now / 1000 / 60;
      var (tag, limit) := Policy(r.path);
      var key := "ratelimit:" + tag + ":" + r.ip + ":" + Digits(bucket);
      if !r.incrOk {
        return Unavailable;
      }
      var count := Incr(key, r.now);
      if count == 1 {
        if r.expireOk {
          counters := counters[key := counters[key].(expiresAt := Some(r.now + WINDOW))];
        }
      }
      hits := hits + [Entry(tag, r.ip, r.now)];
      if count > limit {
        return TooMany;
      }
      log := log + [Entry(tag, r.ip, r.now)];
      reply := Admitted;
    }
  }

  // Keys do not collide, even for addresses with colons

  lemma {:induction false} DigitsHaveNoColon(n: nat)
    ensures ':' !in Digits(n)
  {
    DigitsAreRead(n);
  }

  /** The text before the first colon, and the text after the last one, determine a split. */
  lemma SplitsAreUnique(a: string, b: string, c: string, a': string, b': string, c': string)
    requires ':' !in a && ':' !in a' && ':' !in c && ':' !in c'
    requires a + ":" + b + ":" + c == a' + ":" + b' + ":" + c'
    ensures a == a' && b == b' && c == c'
  {
    var s, s' := a + ":" + b + ":" + c, a' + ":" + b' + ":" + c';
    assert s[|a|] == ':' && s'[|a'|] == ':';
    assert s[|s| - |c| - 1] == ':' && s'[|s'| - |c'| - 1] == ':';
    assert forall k | 0 <= k < |a| :: s[k] == a[k];
    assert forall k | 0 <= k < |a'| :: s'[k] == a'[k];
    assert |a| == |a'|;
    assert forall k | |s| - |c| <= k < |s| :: s[k] == c[k - (|s| - |c|)];
    assert forall k | |s'| - |c'| <= k < |s'| :: s'[k] == c'[k - (|s'| - |c'|)];
    assert |c| == |c'|;
    assert s[..|a|] == a && s'[..|a'|] == a';
    assert s[|s| - |c|..] == c && s'[|s| - |c'|..] == c';
    assert s[|a| + 1..|s| - |c| - 1] == b && s'[|a'| + 1..|s'| - |c'| - 1] == b';
  }

  lemma KeysAreDistinct(x: Slot, y: Slot)
    requires IsTag(x.tag) && IsTag(y.tag) && KeyOf(x) == KeyOf(y)
    ensures x == y
  {
    DigitsHaveNoColon(x.bucket);
    DigitsHaveNoColon(y.bucket);
    TagsHaveNoColon(x.tag);
    TagsHaveNoColon(y.tag);
    KeyTail(x);
    KeyTail(y);
    SplitsAreUnique(x.tag, x.ip, Digits(x.bucket), y.tag, y.ip, Digits(y.bucket));
    DigitsAreDistinct(x.bucket, y.bucket);
  }

  lemma TagsHaveNoColon(tag: string)
    requires IsTag(tag)
    ensures ':' !in tag
  {
  }

  lemma KeyTail(slot: Slot)
    ensures |KeyOf(slot)| >= 10 && KeyOf(slot)[10..] == slot.tag + ":" + slot.ip + ":" + Digits(slot.bucket)
  {
    var tail := slot.tag + ":" + slot.ip + ":" + Digits(slot.bucket);
    assert |"ratelimit:"| == 10;
    assert KeyOf(slot) == "ratelimit:" + tail;
  }

  // Runs

  ghost predicate Ordered(clock: Time, requests: seq<Request>)
    decreases requests
  {
    requests == [] || (clock <= requests[0].now && Ordered(requests[0].now, requests[1..]))
  }

  function ServeAll(s: State, requests: seq<Request>): State
    decreases requests
  {
    if requests == [] then s else ServeAll(Serve(s, requests[0]).0, requests[1..])
  }

  /** How many entries a tag and address have from lo up to but not including hi. */
  function Count(log: seq<Entry>, tag: string, ip: string, lo: int, hi: int): nat {
    if log == [] then 0
    else
      var e := log[|log| - 1];
      Count(log[..|log| - 1], tag, ip, lo, hi) + (if e.tag == tag && e.ip == ip && lo <= e.at < hi then 1 else 0)
  }

  function InSlot(log: seq<Entry>, slot: Slot): nat {
    Count(log, slot.tag, slot.ip, slot.bucket * WINDOW, (slot.bucket + 1) * WINDOW)
  }

  lemma BucketIs(now: Time, b: nat)
    ensures Bucket(now) == b <==> b * WINDOW <= now < (b + 1) * WINDOW
  {
    assert now / 1000 / 60 == now / 60_000;
  }

  ghost predicate NotAfter(log: seq<Entry>, clock: Time) {
    forall i | 0 <= i < |log| :: log[i].at <= clock
  }

  /** A counter lives to the end of its bucket. */
  ghost predicate Lasting(counters: Counters) {
    forall slot: Slot | IsTag(slot.tag) && KeyOf(slot) in counters ::
      counters[KeyOf(slot)].expiresAt.Some? ==> (slot.bucket + 1) * WINDOW <= counters[KeyOf(slot)].expiresAt.value
  }

  function Min(a: nat, b: nat): nat {
    if a < b then a else b
  }

  /** The slot has let through its first requests up to its limit, and in the current bucket its counter is exact. */
  ghost predicate SlotExact(s: State, now: Time, slot: Slot) {
    && InSlot(s.log, slot) == Min(InSlot(s.hits, slot), LimitOf(slot.tag))
    && (slot.bucket == Bucket(now) ==> InSlot(s.hits, slot) == Live(s.counters, KeyOf(slot), now))
    && (slot.bucket > Bucket(now) ==> KeyOf(slot) !in s.counters)
  }

  ghost predicate Exact(s: State, clock: Time) {
    forall slot: Slot | IsTag(slot.tag) :: SlotExact(s, clock, slot)
  }

  ghost predicate Ok(s: State, clock: Time) {
    NotAfter(s.hits, clock) && Lasting(s.counters) && Exact(s, clock)
  }

  lemma {:induction false} NothingLater(log: seq<Entry>, clock: Time, tag: string, ip: string, lo: int, hi: int)
    requires NotAfter(log, clock) && clock < lo
    ensures Count(log, tag, ip, lo, hi) == 0
  {
    if log != [] {
      NothingLater(log[..|log| - 1], clock, tag, ip, lo, hi);
    }
  }

  /** As time passes, the current bucket's counters stay exact. */
  lemma CountersStayExact(s: State, clock: Time, now: Time, slot: Slot)
    requires Ok(s, clock) && clock <= now && IsTag(slot.tag) && slot.bucket == Bucket(now)
    ensures InSlot(s.hits, slot) == Live(s.counters, KeyOf(slot), now)
  {
    BucketIs(now, slot.bucket);
    BucketIs(clock, slot.bucket);
    if Bucket(clock) != slot.bucket {
      BucketsAdvance(clock, now);
      assert clock < slot.bucket * WINDOW;
      NothingLater(s.hits, clock, slot.tag, slot.ip, slot.bucket * WINDOW, (slot.bucket + 1) * WINDOW);
    }
  }

  lemma BucketsAdvance(clock: Time, now: Time)
    requires clock <= now
    ensures Bucket(clock) <= Bucket(now)
  {
    BucketIs(clock, Bucket(clock));
    BucketIs(now, Bucket(now));
  }

  lemma LogGrows(log: seq<Entry>, e: Entry, slot: Slot)
    ensures InSlot(log + [e], slot) == InSlot(log, slot) +
              if e.tag == slot.tag && e.ip == slot.ip && Bucket(e.at) == slot.bucket then 1 else 0
  {
    BucketIs(e.at, slot.bucket);
    assert (log + [e])[..|log|] == log;
  }

  lemma ServeKeepsLasting(s: State, r: Request)
    requires Lasting(s.counters)
    ensures Lasting(Serve(s, r).0.counters)
  {
    var t := Serve(s, r).0;
    BucketIs(r.now, Bucket(r.now));
    PolicyGivesLimit(r.path);
    forall slot: Slot | IsTag(slot.tag) && KeyOf(slot) in t.counters && t.counters[KeyOf(slot)].expiresAt.Some?
      ensures (slot.bucket + 1) * WINDOW <= t.counters[KeyOf(slot)].expiresAt.value
    {
      if KeyOf(slot) == KeyOf(SlotOf(r)) {
        KeysAreDistinct(slot, SlotOf(r));
      }
    }
  }

  /** A counted request adds one to its own counter and touches no other. */
  lemma ServeCounts(s: State, r: Request)
    requires r.incrOk
    ensures var t, own := Serve(s, r).0, KeyOf(SlotOf(r));
            && Live(t.counters, own, r.now) == Live(s.counters, own, r.now) + 1
            && (forall key | key != own :: Live(t.counters, key, r.now) == Live(s.counters, key, r.now))
            && (forall key | key != own :: key in t.counters <==> key in s.counters)
  {
  }

  lemma SlotStaysExact(s: State, clock: Time, now: Time, slot: Slot)
    requires Ok(s, clock) && clock <= now && IsTag(slot.tag)
    ensures SlotExact(s, now, slot)
  {
    BucketsAdvance(clock, now);
    if slot.bucket == Bucket(now) {
      CountersStayExact(s, clock, now, slot);
    }
  }

  lemma OwnSlotIsExact(s: State, r: Request)
    requires r.incrOk && SlotExact(s, r.now, SlotOf(r))
    ensures SlotExact(Serve(s, r).0, r.now, SlotOf(r))
  {
    var e := Entry(Policy(r.path).0, r.ip, r.now);
    PolicyGivesLimit(r.path);
    ServeCounts(s, r);
    LogGrows(s.log, e, SlotOf(r));
    LogGrows(s.hits, e, SlotOf(r));
  }

  lemma OtherSlotIsExact(s: State, r: Request, slot: Slot)
    requires r.incrOk && slot != SlotOf(r) && IsTag(slot.tag) && SlotExact(s, r.now, slot)
    ensures SlotExact(Serve(s, r).0, r.now, slot)
  {
    var e := Entry(Policy(r.path).0, r.ip, r.now);
    PolicyGivesLimit(r.path);
    if KeyOf(slot) == KeyOf(SlotOf(r)) {
      KeysAreDistinct(slot, SlotOf(r));
    }
    ServeCounts(s, r);
    LogGrows(s.log, e, slot);
    LogGrows(s.hits, e, slot);
  }

  lemma ServeKeepsOk(s: State, clock: Time, r: Request)
    requires Ok(s, clock) && clock <= r.now
    ensures Ok(Serve(s, r).0, r.now)
  {
    ServeKeepsLasting(s, r);
    forall slot: Slot | IsTag(slot.tag)
      ensures SlotExact(Serve(s, r).0, r.now, slot)
    {
      SlotStaysExact(s, clock, r.now, slot);
      if r.incrOk {
        if slot == SlotOf(r) {
          OwnSlotIsExact(s, r);
        } else {
          OtherSlotIsExact(s, r, slot);
        }
      }
    }
  }

  /** The clock after a run. */
  function ClockAfter(clock: Time, requests: seq<Request>): Time {
    if requests == [] then clock else requests[|requests| - 1].now
  }

  lemma {:induction false} RunKeepsOk(s: State, clock: Time, requests: seq<Request>)
    requires Ok(s, clock) && Ordered(clock, requests)
    ensures Ok(ServeAll(s, requests), ClockAfter(clock, requests))
    decreases requests
  {
    if requests != [] {
      ServeKeepsOk(s, clock, requests[0]);
      RunKeepsOk(Serve(s, requests[0]).0, requests[0].now, requests[1..]);
    }
  }

  /** From empty counters, every minute bucket lets through exactly the first requests, up to the limit, of each tag
      and address; so a counter never expires inside its own bucket. */
  lemma BucketAdmitsUpToLimit(clock: Time, requests: seq<Request>, slot: Slot)
    requires Ordered(clock, requests) && IsTag(slot.tag)
    ensures var s := ServeAll(START, requests);
            InSlot(s.log, slot) == Min(InSlot(s.hits, slot), LimitOf(slot.tag))
  {
    RunKeepsOk(START, clock, requests);
  }

  /** A request is let through exactly when its slot has counted fewer requests than the limit. */
  lemma AdmittedIff(clock: Time, requests: seq<Request>, r: Request)
    requires Ordered(clock, requests) && ClockAfter(clock, requests) <= r.now
    ensures var s := ServeAll(START, requests);
            Serve(s, r).1 == Admitted <==> r.incrOk && InSlot(s.hits, SlotOf(r)) < LimitOf(SlotOf(r).tag)
  {
    RunKeepsOk(START, clock, requests);
    PolicyGivesLimit(r.path);
    CountersStayExact(ServeAll(START, requests), ClockAfter(clock, requests), r.now, SlotOf(r));
  }

  lemma {:induction false} CountSplits(log: seq<Entry>, tag: string, ip: string, lo: int, mid: int, hi: int, lo': int, hi': int)
    requires lo <= lo' && hi' <= hi && lo <= mid <= hi
    ensures Count(log, tag, ip, lo', hi') <= Count(log, tag, ip, lo, mid) + Count(log, tag, ip, mid, hi)
  {
    if log != [] {
      CountSplits(log[..|log| - 1], tag, ip, lo, mid, hi, lo', hi');
    }
  }

  /** Any sixty seconds, both ends included and wherever they start, let through at most twice the limit. */
  lemma AnyMinuteIsBounded(clock: Time, requests: seq<Request>, tag: string, ip: string, x: Time)
    requires Ordered(clock, requests) && IsTag(tag)
    ensures Count(ServeAll(START, requests).log, tag, ip, x, x + WINDOW + 1) <= 2 * LimitOf(tag)
  {
    var b, log := Bucket(x), ServeAll(START, requests).log;
    BucketIs(x, b);
    BucketAdmitsUpToLimit(clock, requests, Slot(tag, ip, b));
    BucketAdmitsUpToLimit(clock, requests, Slot(tag, ip, b + 1));
    CountSplits(log, tag, ip, b * WINDOW, (b + 1) * WINDOW, (b + 2) * WINDOW, x, x + WINDOW + 1);
  }

  // The same about requests

  /** The three checkout endpoints that are limited by themselves; everything else shares one limit. */
  predicate SameEndpoint(path: string, other: string) {
    && (HasPrefix(path, "/api/checkout/detect") <==> HasPrefix(other, "/api/checkout/detect"))
    && (HasPrefix(path, "/api/checkout/recheck") <==> HasPrefix(other, "/api/checkout/recheck"))
    && (HasPrefix(path, "/api/checkout/manual-verify") <==> HasPrefix(other, "/api/checkout/manual-verify"))
  }

  /** How many requests a minute the path may serve to one address. */
  ghost predicate MayServe(path: string, n: nat) {
    n == if HasPrefix(path, "/api/checkout/detect") then 30 else if HasPrefix(path, "/api/checkout/recheck") then 12 else 10
  }

  /** How many of the requests Redis has counted came from this address, in this minute, to this endpoint. */
  function Earlier(requests: seq<Request>, r: Request): nat {
    if requests == [] then 0
    else
      var q := requests[|requests| - 1];
      Earlier(requests[..|requests| - 1], r)
      + (if q.incrOk && q.ip == r.ip && q.now / 60_000 == r.now / 60_000 && SameEndpoint(q.path, r.path) then 1 else 0)
  }

  /** How many requests of this address to this endpoint were let through in the sixty seconds from x on. */
  function LetThrough(requests: seq<Request>, ip: string, path: string, x: Time): nat {
    if requests == [] then 0
    else
      var n := |requests| - 1;
      LetThrough(requests[..n], ip, path, x)
      + (if Serve(ServeAll(START, requests[..n]), requests[n]).1 == Admitted && requests[n].ip == ip
            && x <= requests[n].now <= x + 60_000 && SameEndpoint(requests[n].path, path) then 1 else 0)
  }

  lemma PathsPart(path: string)
    ensures !(HasPrefix(path, "/api/checkout/detect") && HasPrefix(path, "/api/checkout/recheck"))
    ensures !(HasPrefix(path, "/api/checkout/detect") && HasPrefix(path, "/api/checkout/manual-verify"))
    ensures !(HasPrefix(path, "/api/checkout/recheck") && HasPrefix(path, "/api/checkout/manual-verify"))
  {
    PrefixAt(path, "/api/checkout/detect", 14);
    PrefixAt(path, "/api/checkout/recheck", 14);
    PrefixAt(path, "/api/checkout/manual-verify", 14);
  }

  lemma PrefixAt(s: string, prefix: string, k: nat)
    requires k < |prefix|
    ensures HasPrefix(s, prefix) ==> k < |s| && s[k] == prefix[k]
  {
  }

  lemma EndpointIsTag(path: string, other: string)
    ensures SameEndpoint(path, other) <==> Policy(path).0 == Policy(other).0
    ensures MayServe(path, LimitOf(Policy(path).0))
  {
    PathsPart(path);
    PathsPart(other);
  }

  lemma {:induction false} ServeAllEnds(s: State, requests: seq<Request>)
    requires requests != []
    ensures var n := |requests| - 1; ServeAll(s, requests) == Serve(ServeAll(s, requests[..n]), requests[n]).0
    decreases requests
  {
    var n := |requests| - 1;
    if n > 0 {
      ServeAllEnds(Serve(s, requests[0]).0, requests[1..]);
      assert requests[1..][..n - 1] == requests[..n][1..];
    }
  }

  /** What the last request adds to both logs. */
  lemma ServeLogs(s: State, q: Request)
    ensures var e := Entry(Policy(q.path).0, q.ip, q.now);
            && Serve(s, q).0.hits == (if q.incrOk then s.hits + [e] else s.hits)
            && Serve(s, q).0.log == (if Serve(s, q).1 == Admitted then s.log + [e] else s.log)
  {
  }

  lemma {:induction false} HitsAreEarlier(requests: seq<Request>, r: Request)
    ensures InSlot(ServeAll(START, requests).hits, SlotOf(r)) == Earlier(requests, r)
    decreases requests
  {
    if requests != [] {
      var n := |requests| - 1;
      var q, s := requests[n], ServeAll(START, requests[..n]);
      HitsAreEarlier(requests[..n], r);
      ServeAllEnds(START, requests);
      ServeLogs(s, q);
      OneMoreEarlier(s.hits, q, r);
    }
  }

  lemma OneMoreEarlier(hits: seq<Entry>, q: Request, r: Request)
    ensures InSlot(hits + [Entry(Policy(q.path).0, q.ip, q.now)], SlotOf(r))
         == InSlot(hits, SlotOf(r)) + (if q.ip == r.ip && q.now / 60_000 == r.now / 60_000 && SameEndpoint(q.path, r.path) then 1 else 0)
  {
    EndpointIsTag(q.path, r.path);
    LogGrows(hits, Entry(Policy(q.path).0, q.ip, q.now), SlotOf(r));
  }

  lemma {:induction false} LogIsLetThrough(requests: seq<Request>, ip: string, path: string, x: Time)
    ensures Count(ServeAll(START, requests).log, Policy(path).0, ip, x, x + WINDOW + 1) == LetThrough(requests, ip, path, x)
    decreases requests
  {
    if requests != [] {
      var n := |requests| - 1;
      var q, s := requests[n], ServeAll(START, requests[..n]);
      LogIsLetThrough(requests[..n], ip, path, x);
      ServeAllEnds(START, requests);
      ServeLogs(s, q);
      OneMoreThrough(s.log, q, ip, path, x);
    }
  }

  lemma OneMoreThrough(log: seq<Entry>, q: Request, ip: string, path: string, x: Time)
    ensures Count(log + [Entry(Policy(q.path).0, q.ip, q.now)], Policy(path).0, ip, x, x + WINDOW + 1)
         == Count(log, Policy(path).0, ip, x, x + WINDOW + 1)
            + (if q.ip == ip && x <= q.now <= x + 60_000 && SameEndpoint(q.path, path) then 1 else 0)
  {
    EndpointIsTag(q.path, path);
    assert (log + [Entry(Policy(q.path).0, q.ip, q.now)])[..|log|] == log;
  }

  /** After any run, a request that Redis counts is let through if and only if fewer requests than the path may serve came
      before it, counted, from its address in its minute to its endpoint; one it does not count is turned away. */
  lemma AdmittedIffFewEarlier(clock: Time, requests: seq<Request>, r: Request, n: nat)
    requires Ordered(clock, requests) && ClockAfter(clock, requests) <= r.now && MayServe(r.path, n)
    ensures Serve(ServeAll(START, requests), r).1
         == if !r.incrOk then Unavailable else if Earlier(requests, r) < n then Admitted else TooMany
  {
    AdmittedIff(clock, requests, r);
    HitsAreEarlier(requests, r);
    EndpointIsTag(r.path, r.path);
  }

  /** And in any sixty seconds at most twice as many as the path may serve are let through for one address. */
  lemma AnyMinuteLetsThrough(clock: Time, requests: seq<Request>, ip: string, path: string, x: Time, n: nat)
    requires Ordered(clock, requests) && MayServe(path, n)
    ensures LetThrough(requests, ip, path, x) <= 2 * n
  {
    PolicyGivesLimit(path);
    EndpointIsTag(path, path);
    AnyMinuteIsBounded(clock, requests, Policy(path).0, ip, x);
    LogIsLetThrough(requests, ip, path, x);
  }
}
