/**
 * A token bucket per key (backend/src/platform/tokenBucket.ts). Tokens are reals, the clock whole milliseconds. The source's
 * Map keeps insertion order, so here it is the sequence of its entries, least recently spent first.
 */
module TokenBuckets {
  import opened Wrappers

  const EPSILON: real := 1.0 / 4503599627370496.0

  datatype Bucket = Bucket(tokens: real, at: int)

  datatype Entry = Entry(key: string, bucket: Bucket)

  datatype Config = Config(capacity: real, refillPerSecond: real, maxKeys: int)

  /** The constructor throws a RangeError otherwise. */
  predicate Usable(c: Config) {
    c.capacity > 0.0 && c.refillPerSecond > 0.0
  }

  function Max(a: int, b: int): int { if a < b then b else a }

  function MinReal(a: real, b: real): real { if b < a then b else a }

  function MaxReal(a: real, b: real): real { if a < b then b else a }

  function Find(entries: seq<Entry>, key: string): (r: Option<Bucket>)
    ensures r.Some? ==> Entry(key, r.value) in entries
    ensures r.None? <==> forall e :: e in entries ==> e.key != key
  {
    if entries == [] then None
    else if entries[0].key == key then Some(entries[0].bucket)
    else Find(entries[1..], key)
  }

  function Without(entries: seq<Entry>, key: string): (r: seq<Entry>)
    ensures |r| <= |entries|
    ensures forall e :: e in r <==> e in entries && e.key != key
  {
    if entries == [] then []
    else if entries[0].key == key then Without(entries[1..], key)
    else [entries[0]] + Without(entries[1..], key)
  }

  /** What a stored balance has grown to at `at`, past any capacity. */
  function Refilled(c: Config, b: Bucket, at: int): real {
    b.tokens + (Max(0, at - b.at) as real / 1000.0) * c.refillPerSecond
  }

  /** The bucket as of now; a clock set back does not undo what was stored. */
  function Current(c: Config, stored: Option<Bucket>, now: int): Bucket {
    if stored.None? then Bucket(c.capacity, now)
    else
      var at := Max(now, stored.value.at);
      Bucket(MinReal(c.capacity, Refilled(c, stored.value, at)), at)
  }

  /** The entries still below capacity at `at`. */
  function Refilling(c: Config, entries: seq<Entry>, at: int): (r: seq<Entry>)
    ensures |r| <= |entries|
    ensures forall e :: e in r <==> e in entries && Refilled(c, e.bucket, at) < c.capacity
  {
    if entries == [] then []
    else if Refilled(c, entries[0].bucket, at) >= c.capacity then Refilling(c, entries[1..], at)
    else [entries[0]] + Refilling(c, entries[1..], at)
  }

  /** Room for a new key: the full buckets go first, and only if none is full the oldest one. */
  function Evict(c: Config, entries: seq<Entry>, at: int): seq<Entry> {
    var kept := Refilling(c, entries, at);
    if |kept| >= c.maxKeys && kept != [] then kept[1..] else kept
  }

  function Room(c: Config, entries: seq<Entry>, key: string, at: int): seq<Entry> {
    if Find(entries, key).None? && |entries| >= c.maxKeys then Evict(c, entries, at) else entries
  }

  function Store(c: Config, entries: seq<Entry>, key: string, bucket: Bucket): seq<Entry> {
    Without(Room(c, entries, key, bucket.at), key) + [Entry(key, bucket)]
  }

  function Ceil(x: real): (r: int)
    ensures r as real - 1.0 < x <= r as real
  {
    -((-x).Floor)
  }

  function SecondsUntil(c: Config, missing: real): int
    requires Usable(c)
  {
    Max(1, Ceil(missing / c.refillPerSecond))
  }

  datatype Call =
    | Take(key: string, cost: real, now: int)
    | Admit(key: string, now: int)
    | Charge(key: string, cost: real, now: int)

  /** What the call does to its key's own bucket; None when it stores nothing. */
  function Spend(c: Config, stored: Option<Bucket>, call: Call): Option<Bucket> {
    var current := Current(c, stored, call.now);
    match call
    case Take(_, cost, _) => if current.tokens >= cost then Some(current.(tokens := current.tokens - cost)) else None
    case Admit(_, _) => None
    case Charge(_, cost, _) => Some(current.(tokens := MaxReal(-c.capacity, current.tokens - cost)))
  }

  /** The whole seconds to wait, 0 when allowed. */
  function Answer(c: Config, stored: Option<Bucket>, call: Call): int
    requires Usable(c)
  {
    var tokens := Current(c, stored, call.now).tokens;
    match call
    case Take(_, cost, _) => if tokens >= cost then 0 else SecondsUntil(c, cost - tokens)
    case Admit(_, _) => if tokens > 0.0 then 0 else SecondsUntil(c, -tokens + EPSILON)
    case Charge(_, _, _) => 0
  }

  function Step(c: Config, entries: seq<Entry>, call: Call): seq<Entry> {
    var spent := Spend(c, Find(entries, call.key), call);
    if spent.None? then entries else Store(c, entries, call.key, spent.value)
  }

  function Run(c: Config, calls: seq<Call>): seq<Entry> {
    if calls == [] then [] else Step(c, Run(c, calls[..|calls| - 1]), calls[|calls| - 1])
  }

  /** A key's bucket if no other key existed: the unbounded map, one key at a time. */
  function Own(c: Config, calls: seq<Call>, key: string): Option<Bucket> {
    if calls == [] then None
    else
      var before, last := Own(c, calls[..|calls| - 1], key), calls[|calls| - 1];
      if last.key != key then before
      else if Spend(c, before, last).None? then before else Spend(c, before, last)
  }

  function Balance(c: Config, stored: Option<Bucket>, now: int): real {
    Current(c, stored, now).tokens
  }

  // ----- the clock -----

  /** The clock never goes back, and no call is after `now`. */
  ghost predicate Monotone(calls: seq<Call>, now: int) {
    && (forall i, j :: 0 <= i <= j < |calls| ==> calls[i].now <= calls[j].now)
    && (forall i :: 0 <= i < |calls| ==> calls[i].now <= now)
  }

  lemma Distributes(x: real, y: real, r: real)
    ensures (x + y) * r == x * r + y * r
  {
  }

  /** The tokens a second's rate adds from `s` to `t`. */
  function Refill(c: Config, s: int, t: int): real {
    ((t - s) as real / 1000.0) * c.refillPerSecond
  }

  /** A balance grows at the refill rate until it is full. */
  lemma Grows(c: Config, stored: Option<Bucket>, t: int, later: int)
    requires Usable(c) && t <= later && (stored.Some? ==> stored.value.at <= t)
    ensures Balance(c, stored, later) ==
            MinReal(c.capacity, Balance(c, stored, t) + Refill(c, t, later))
    ensures Refill(c, t, later) >= 0.0
  {
    var d := (later - t) as real / 1000.0;
    assert d * c.refillPerSecond >= 0.0;
    if stored.Some? {
      var b := stored.value;
      Distributes((t - b.at) as real / 1000.0, d, c.refillPerSecond);
      assert (later - b.at) as real / 1000.0 == (t - b.at) as real / 1000.0 + d;
    }
  }

  // ----- each returned wait -----

  lemma Ratio(missing: real, rate: real, v: real)
    requires rate > 0.0
    ensures missing / rate <= v <==> missing <= v * rate
  {
    var q := missing / rate;
    assert q * rate == missing;
    if q <= v { assert (v - q) * rate >= 0.0; Distributes(v - q, q, rate); }
    else { assert (q - v) * rate > 0.0; Distributes(q - v, v, rate); }
  }

  /** `secondsUntil` is the least whole number of seconds, at least 1, that refills what is missing. */
  lemma LeastSeconds(c: Config, missing: real, v: nat)
    requires Usable(c) && 1 <= v
    ensures SecondsUntil(c, missing) <= v <==> missing <= v as real * c.refillPerSecond
    ensures SecondsUntil(c, missing) >= 1
  {
    Ratio(missing, c.refillPerSecond, v as real);
  }

  lemma RefillOfSeconds(c: Config, now: int, v: nat)
    ensures Refill(c, now, now + 1000 * v) == v as real * c.refillPerSecond
  {
    assert (now + 1000 * v - now) as real / 1000.0 == v as real;
  }

  /** A refused `take` succeeds after `v` seconds of no other spending exactly when `v` is at least the wait it returned. */
  lemma TakeWaitIsExact(c: Config, stored: Option<Bucket>, key: string, cost: real, now: int, v: nat)
    requires Usable(c) && (stored.Some? ==> stored.value.at <= now)
    requires Answer(c, stored, Take(key, cost, now)) != 0 && 1 <= v
    ensures Answer(c, stored, Take(key, cost, now + 1000 * v)) == 0 <==>
            cost <= c.capacity && Answer(c, stored, Take(key, cost, now)) <= v
  {
    hide SecondsUntil, Current, Refill;
    var tokens, later := Balance(c, stored, now), Balance(c, stored, now + 1000 * v);
    Grows(c, stored, now, now + 1000 * v);
    RefillOfSeconds(c, now, v);
    LeastSeconds(c, cost - tokens, v);
    if later < cost { LeastSeconds(c, cost - later, 1); }
  }

  /** A refused `admit` succeeds after the wait it returned; before that the balance is below the one EPSILON aimed at. */
  lemma AdmitWaitIsEnough(c: Config, stored: Option<Bucket>, key: string, now: int, v: nat)
    requires Usable(c) && (stored.Some? ==> stored.value.at <= now)
    requires Answer(c, stored, Admit(key, now)) != 0 && 1 <= v
    ensures Answer(c, stored, Admit(key, now)) <= v ==> Answer(c, stored, Admit(key, now + 1000 * v)) == 0
    ensures v < Answer(c, stored, Admit(key, now)) ==> Balance(c, stored, now + 1000 * v) < EPSILON
  {
    hide SecondsUntil, Current, Refill;
    Grows(c, stored, now, now + 1000 * v);
    RefillOfSeconds(c, now, v);
    LeastSeconds(c, -Balance(c, stored, now) + EPSILON, v);
  }

  // ----- each call -----

  function After(c: Config, stored: Option<Bucket>, call: Call): Option<Bucket> {
    if Spend(c, stored, call).None? then stored else Spend(c, stored, call)
  }

  /**
   * A `take` is allowed exactly when the balance covers it, and then takes just that; an `admit` exactly when the balance is
   * positive, and takes nothing; a charge is deducted down to the deepest debt. A refusal takes nothing and is at least 1.
   */
  lemma EachCallSpends(c: Config, stored: Option<Bucket>, call: Call)
    requires Usable(c) && (stored.Some? ==> stored.value.tokens <= c.capacity) && (!call.Admit? ==> call.cost >= 0.0)
    ensures var before, after := Balance(c, stored, call.now), Balance(c, After(c, stored, call), call.now);
            match call
            case Take(_, cost, _) =>
              && (Answer(c, stored, call) == 0 <==> cost <= before)
              && after == (if Answer(c, stored, call) == 0 then before - cost else before)
            case Admit(_, _) => (Answer(c, stored, call) == 0 <==> 0.0 < before) && after == before
            case Charge(_, cost, _) =>
              Answer(c, stored, call) == 0 && after == if before - cost < -c.capacity then -c.capacity else before - cost
    ensures Answer(c, stored, call) >= 0
    ensures Answer(c, stored, call) != 0 ==> After(c, stored, call) == stored
  {
    if stored.Some? {
      assert (Max(0, Max(call.now, stored.value.at) - stored.value.at) as real / 1000.0) * c.refillPerSecond >= 0.0;
    }
  }

  /** A clock set back refills nothing, and does not move what was stored back in time. */
  lemma ClockBackRefillsNothing(c: Config, b: Bucket, call: Call)
    requires call.now <= b.at && b.tokens <= c.capacity
    ensures Balance(c, Some(b), call.now) == b.tokens
    ensures After(c, Some(b), call).value.at == b.at
  {
  }

  /** So for each call of the limiter: only its own key's balance is spent from. */
  lemma LimiterSpends(c: Config, calls: seq<Call>, call: Call)
    requires Usable(c)
    ensures Find(Run(c, calls + [call]), call.key) == After(c, Find(Run(c, calls), call.key), call)
    ensures Spend(c, Find(Run(c, calls), call.key), call).None? ==> Run(c, calls + [call]) == Run(c, calls)
  {
    assert (calls + [call])[..|calls|] == calls;
    RunDistinct(c, calls);
    var spent := Spend(c, Find(Run(c, calls), call.key), call);
    hide Run;
    if spent.Some? { FindStored(c, Run(c, calls), call.key, spent.value, call.key); }
  }

  // ----- the bounded map -----

  ghost predicate Distinct(entries: seq<Entry>) {
    forall i, j :: 0 <= i < j < |entries| ==> entries[i].key != entries[j].key
  }

  ghost predicate Past(entries: seq<Entry>, now: int) {
    forall e :: e in entries ==> e.bucket.at <= now
  }

  lemma {:induction false} FindEntry(entries: seq<Entry>, e: Entry)
    requires Distinct(entries) && e in entries
    ensures Find(entries, e.key) == Some(e.bucket)
  {
    if entries[0] == e {
    } else {
      assert e in entries[1..];
      FindEntry(entries[1..], e);
      var i :| 1 <= i < |entries| && entries[i] == e;
    }
  }

  lemma {:induction false} WithoutDistinct(entries: seq<Entry>, key: string)
    requires Distinct(entries)
    ensures Distinct(Without(entries, key))
    ensures |Without(entries, key)| == |entries| - (if Find(entries, key).Some? then 1 else 0)
  {
    if entries != [] {
      WithoutDistinct(entries[1..], key);
      forall e | e in Without(entries[1..], key) ensures e.key != entries[0].key {
        assert e in entries[1..];
      }
      if entries[0].key == key {
        assert Find(entries[1..], key).None? by { forall e | e in entries[1..] ensures e.key != key {} }
      }
    }
  }

  lemma {:induction false} RefillingDistinct(c: Config, entries: seq<Entry>, at: int)
    requires Distinct(entries)
    ensures Distinct(Refilling(c, entries, at))
  {
    if entries != [] {
      RefillingDistinct(c, entries[1..], at);
      forall e | e in Refilling(c, entries[1..], at) ensures e.key != entries[0].key {
        assert e in entries[1..];
      }
    }
  }

  lemma RoomDistinct(c: Config, entries: seq<Entry>, key: string, at: int)
    requires Distinct(entries)
    ensures Distinct(Room(c, entries, key, at))
    ensures forall e :: e in Room(c, entries, key, at) ==> e in entries
  {
    RefillingDistinct(c, entries, at);
  }

  lemma FindStored(c: Config, entries: seq<Entry>, key: string, bucket: Bucket, other: string)
    requires Distinct(entries)
    ensures Distinct(Store(c, entries, key, bucket))
    ensures Find(Store(c, entries, key, bucket), other) ==
            if other == key then Some(bucket) else Find(Room(c, entries, key, bucket.at), other)
  {
    var room := Room(c, entries, key, bucket.at);
    RoomDistinct(c, entries, key, bucket.at);
    WithoutDistinct(room, key);
    var r := Store(c, entries, key, bucket);
    assert Distinct(r) by {
      forall i | 0 <= i < |r| - 1 ensures r[i].key != key {
        assert r[i] in Without(room, key);
      }
    }
    if other == key {
      assert r[|r| - 1] in r;
      FindEntry(r, Entry(key, bucket));
    } else if Find(room, other).Some? {
      var e := Entry(other, Find(room, other).value);
      assert e in Without(room, key);
      assert e in r;
      FindEntry(r, e);
    } else {
      forall e | e in r ensures e.key != other {
      }
    }
  }

  /** The call drops `key`, still below capacity, to make room for another: the only way the map forgets a debt. */
  ghost predicate ForcedOut(c: Config, entries: seq<Entry>, call: Call, key: string) {
    && Spend(c, Find(entries, call.key), call).Some? && Find(entries, call.key).None? && |entries| >= c.maxKeys
    && var kept := Refilling(c, entries, call.now);
    |kept| >= c.maxKeys && kept != [] && kept[0].key == key
  }

  ghost predicate NeverForcedOut(c: Config, calls: seq<Call>, key: string) {
    forall i :: 0 <= i < |calls| ==> !ForcedOut(c, Run(c, calls[..i]), calls[i], key)
  }

  /** From `now` on the two stored buckets cannot be told apart. */
  ghost predicate Same(c: Config, a: Option<Bucket>, b: Option<Bucket>, now: int) {
    && (a.Some? ==> a.value.at <= now) && (b.Some? ==> b.value.at <= now)
    && forall t :: now <= t ==> Balance(c, a, t) == Balance(c, b, t)
  }

  lemma SameSpend(c: Config, a: Option<Bucket>, b: Option<Bucket>, call: Call)
    requires Usable(c) && Same(c, a, b, call.now)
    ensures Spend(c, a, call) == Spend(c, b, call) && Answer(c, a, call) == Answer(c, b, call)
    ensures Spend(c, a, call).Some? ==> Spend(c, a, call).value.at == call.now
  {
    assert Balance(c, a, call.now) == Balance(c, b, call.now);
  }

  /** A full bucket is the same as no entry. */
  lemma FullIsAbsent(c: Config, b: Bucket, now: int)
    requires Usable(c) && b.at <= now && Refilled(c, b, now) >= c.capacity
    ensures Same(c, None, Some(b), now)
  {
    forall t | now <= t ensures Balance(c, Some(b), t) == c.capacity {
      Grows(c, Some(b), now, t);
    }
  }

  /** Making room changes another key's answers only by forcing it out. */
  lemma RoomSame(c: Config, entries: seq<Entry>, call: Call, key: string)
    requires Usable(c) && Distinct(entries) && Past(entries, call.now)
    requires Spend(c, Find(entries, call.key), call).Some? && key != call.key
    requires !ForcedOut(c, entries, call, key)
    ensures Same(c, Find(Room(c, entries, call.key, call.now), key), Find(entries, key), call.now)
  {
    var room := Room(c, entries, call.key, call.now);
    RoomDistinct(c, entries, call.key, call.now);
    if Find(entries, key).Some? && room != entries {
      var e := Entry(key, Find(entries, key).value);
      if Refilled(c, e.bucket, call.now) < c.capacity {
        var kept := Refilling(c, entries, call.now);
        assert e in kept;
        var i :| 0 <= i < |kept| && kept[i] == e;
        RefillingDistinct(c, entries, call.now);
        assert e in room by { if i > 0 { assert kept[1..][i - 1] == e; } }
        FindEntry(room, e);
      } else {
        FullIsAbsent(c, e.bucket, call.now);
        assert Find(room, key).None? by {
          forall x | x in room && x.key == key ensures false {
            FindEntry(entries, x);
          }
        }
      }
    }
  }

  lemma StepSame(c: Config, entries: seq<Entry>, own: Option<Bucket>, call: Call, key: string)
    requires Usable(c) && Distinct(entries) && Past(entries, call.now)
    requires Same(c, Find(entries, key), own, call.now) && !ForcedOut(c, entries, call, key)
    ensures var after := if call.key != key || Spend(c, own, call).None? then own else Spend(c, own, call);
            Same(c, Find(Step(c, entries, call), key), after, call.now)
  {
    SameSpend(c, Find(entries, call.key), Find(entries, call.key), call);
    if call.key == key { SameSpend(c, Find(entries, key), own, call); }
    var spent := Spend(c, Find(entries, call.key), call);
    if spent.Some? {
      FindStored(c, entries, call.key, spent.value, key);
      if call.key != key { RoomSame(c, entries, call, key); }
    }
  }

  lemma StepShape(c: Config, entries: seq<Entry>, call: Call)
    requires Usable(c) && Distinct(entries) && Past(entries, call.now)
    ensures Distinct(Step(c, entries, call)) && Past(Step(c, entries, call), call.now)
  {
    var stored := Find(entries, call.key);
    SameSpend(c, stored, stored, call);
    var spent := Spend(c, stored, call);
    if spent.Some? {
      FindStored(c, entries, call.key, spent.value, call.key);
      RoomDistinct(c, entries, call.key, call.now);
    }
  }

  lemma {:induction false} RunShape(c: Config, calls: seq<Call>, now: int)
    requires Usable(c) && Monotone(calls, now)
    ensures Distinct(Run(c, calls)) && Past(Run(c, calls), now)
  {
    if calls != [] {
      var n := |calls| - 1;
      RunShape(c, calls[..n], calls[n].now);
      StepShape(c, Run(c, calls[..n]), calls[n]);
    }
  }

  lemma Earlier(calls: seq<Call>, now: int)
    requires Monotone(calls, now) && calls != []
    ensures Monotone(calls[..|calls| - 1], calls[|calls| - 1].now) && calls[|calls| - 1].now <= now
  {
  }

  lemma NeverBefore(c: Config, calls: seq<Call>, key: string)
    requires NeverForcedOut(c, calls, key) && calls != []
    ensures NeverForcedOut(c, calls[..|calls| - 1], key)
    ensures !ForcedOut(c, Run(c, calls[..|calls| - 1]), calls[|calls| - 1], key)
  {
    hide Run, ForcedOut;
    var before := calls[..|calls| - 1];
    forall i | 0 <= i < |before| ensures !ForcedOut(c, Run(c, before[..i]), before[i], key) {
      assert before[..i] == calls[..i];
    }
  }

  lemma {:induction false} RunSame(c: Config, calls: seq<Call>, key: string, now: int)
    requires Usable(c) && Monotone(calls, now) && NeverForcedOut(c, calls, key)
    ensures Same(c, Find(Run(c, calls), key), Own(c, calls, key), now)
  {
    if calls != [] {
      hide Same, NeverForcedOut, ForcedOut, Step, Spend, Find, Distinct, Past, Monotone;
      var n := |calls| - 1;
      NeverBefore(c, calls, key);
      Earlier(calls, now);
      RunSame(c, calls[..n], key, calls[n].now);
      RunShape(c, calls[..n], calls[n].now);
      StepSame(c, Run(c, calls[..n]), Own(c, calls[..n], key), calls[n], key);
      LaterSame(c, Find(Run(c, calls), key), Own(c, calls, key), calls[n].now, now);
    } else {
      SameAsItself(c, now);
    }
  }

  lemma SameAsItself(c: Config, now: int)
    ensures Same(c, None, None, now)
  {
  }

  lemma LaterSame(c: Config, a: Option<Bucket>, b: Option<Bucket>, now: int, later: int)
    requires Same(c, a, b, now) && now <= later
    ensures Same(c, a, b, later)
  {
  }

  // ----- the claims -----

  /** The bounded map answers every call as an unbounded one would, for each key it never drops below capacity. */
  lemma BoundedAnswersAlike(c: Config, calls: seq<Call>, call: Call)
    requires Usable(c) && Monotone(calls, call.now) && NeverForcedOut(c, calls, call.key)
    ensures Answer(c, Find(Run(c, calls), call.key), call) == Answer(c, Own(c, calls, call.key), call)
  {
    RunSame(c, calls, call.key, call.now);
    SameSpend(c, Find(Run(c, calls), call.key), Own(c, calls, call.key), call);
  }

  /** Dropping a key below capacity is felt at once: its balance jumps to the full capacity, and a `take` of it succeeds. */
  lemma ForcedOutForgives(c: Config, calls: seq<Call>, call: Call, key: string)
    requires Usable(c) && Monotone(calls, call.now)
    requires ForcedOut(c, Run(c, calls), call, key)
    ensures var entries := Run(c, calls);
            && Answer(c, Find(Step(c, entries, call), key), Take(key, c.capacity, call.now)) == 0
            && Answer(c, Find(entries, key), Take(key, c.capacity, call.now)) > 0
  {
    hide Run;
    var entries := Run(c, calls);
    RunShape(c, calls, call.now);
    var kept := Refilling(c, entries, call.now);
    RefillingDistinct(c, entries, call.now);
    assert kept[0] in entries;
    FindEntry(entries, kept[0]);
    var spent := Spend(c, None, call);
    FindStored(c, entries, call.key, spent.value, key);
    assert Find(kept[1..], key).None? by {
      forall e | e in kept[1..] ensures e.key != key {}
    }
  }

  // ----- least recently spent first -----

  /** Which call last stored the key, counted from one; 0 when none did. */
  ghost function LastSpent(c: Config, calls: seq<Call>, key: string): nat {
    if calls == [] then 0
    else
      var n := |calls| - 1;
      if calls[n].key == key && Spend(c, Find(Run(c, calls[..n]), key), calls[n]).Some? then n + 1
      else LastSpent(c, calls[..n], key)
  }

  ghost predicate Ordered(entries: seq<Entry>, rank: map<string, int>) {
    && (forall e :: e in entries ==> e.key in rank)
    && forall i, j :: 0 <= i < j < |entries| ==> rank[entries[i].key] < rank[entries[j].key]
  }

  lemma OrderedTail(entries: seq<Entry>, rank: map<string, int>)
    requires Ordered(entries, rank) && entries != []
    ensures Ordered(entries[1..], rank) && entries[0].key in rank
    ensures forall e :: e in entries[1..] ==> rank[entries[0].key] < rank[e.key]
  {
    forall e | e in entries[1..] ensures rank[entries[0].key] < rank[e.key] {
      var i :| 0 <= i < |entries| - 1 && entries[1..][i] == e;
      assert entries[i + 1] == e;
    }
  }

  lemma OrderedCons(first: Entry, rest: seq<Entry>, rank: map<string, int>)
    requires Ordered(rest, rank) && first.key in rank && forall e :: e in rest ==> rank[first.key] < rank[e.key]
    ensures Ordered([first] + rest, rank)
  {
    var r := [first] + rest;
    forall i, j | 0 <= i < j < |r| ensures rank[r[i].key] < rank[r[j].key] {
      assert r[j] == rest[j - 1] && r[j] in rest;
      if i > 0 { assert r[i] == rest[i - 1]; }
    }
  }

  lemma {:induction false} WithoutOrdered(entries: seq<Entry>, key: string, rank: map<string, int>)
    requires Ordered(entries, rank)
    ensures Ordered(Without(entries, key), rank)
  {
    if entries != [] {
      OrderedTail(entries, rank);
      hide Ordered;
      WithoutOrdered(entries[1..], key, rank);
      if entries[0].key != key { OrderedCons(entries[0], Without(entries[1..], key), rank); }
    }
  }

  lemma {:induction false} RefillingOrdered(c: Config, entries: seq<Entry>, at: int, rank: map<string, int>)
    requires Ordered(entries, rank)
    ensures Ordered(Refilling(c, entries, at), rank)
  {
    if entries != [] {
      OrderedTail(entries, rank);
      hide Ordered, Refilled;
      RefillingOrdered(c, entries[1..], at, rank);
      if Refilled(c, entries[0].bucket, at) < c.capacity {
        OrderedCons(entries[0], Refilling(c, entries[1..], at), rank);
      }
    }
  }

  /** Storing puts the key last, and leaves the others in their order. */
  lemma StoreOrdered(c: Config, entries: seq<Entry>, key: string, bucket: Bucket, rank: map<string, int>, last: int)
    requires Ordered(entries, rank) && forall k :: k in rank ==> rank[k] < last
    ensures Ordered(Store(c, entries, key, bucket), rank[key := last])
  {
    hide Refilling, Without;
    var room := Room(c, entries, key, bucket.at);
    RefillingOrdered(c, entries, bucket.at, rank);
    assert Ordered(room, rank);
    WithoutOrdered(room, key, rank);
  }

  ghost function Ranks(c: Config, calls: seq<Call>): map<string, int> {
    map e | e in Run(c, calls) :: e.key := LastSpent(c, calls, e.key)
  }

  lemma SmallerRank(entries: seq<Entry>, a: map<string, int>, b: map<string, int>)
    requires Ordered(entries, a) && forall e :: e in entries ==> e.key in b && b[e.key] == a[e.key]
    ensures Ordered(entries, b)
  {
  }

  lemma {:induction false} LastSpentBelow(c: Config, calls: seq<Call>, key: string)
    ensures LastSpent(c, calls, key) <= |calls|
  {
    if calls != [] { LastSpentBelow(c, calls[..|calls| - 1], key); }
  }

  /** The map lists its keys by when they last spent. */
  lemma {:induction false} LeastRecentFirst(c: Config, calls: seq<Call>)
    ensures Ordered(Run(c, calls), Ranks(c, calls))
  {
    if calls != [] {
      var n := |calls| - 1;
      var entries, call := Run(c, calls[..n]), calls[n];
      var before := Ranks(c, calls[..n]);
      LeastRecentFirst(c, calls[..n]);
      var spent := Spend(c, Find(entries, call.key), call);
      hide Ordered;
      forall k | k in before ensures before[k] < n + 1 { LastSpentBelow(c, calls[..n], k); }
      if spent.Some? {
        StoreOrdered(c, entries, call.key, spent.value, before, n + 1);
        OnlyOwnRank(c, calls);
        SmallerRank(Run(c, calls), before[call.key := n + 1], Ranks(c, calls));
      } else {
        SmallerRank(entries, before, Ranks(c, calls));
      }
    }
  }

  lemma OnlyOwnRank(c: Config, calls: seq<Call>)
    requires calls != [] && Spend(c, Find(Run(c, calls[..|calls| - 1]), calls[|calls| - 1].key), calls[|calls| - 1]).Some?
    ensures var n := |calls| - 1;
            forall e :: e in Run(c, calls) ==>
              LastSpent(c, calls, e.key) == if e.key == calls[n].key then n + 1 else LastSpent(c, calls[..n], e.key)
    ensures var n := |calls| - 1;
            forall e :: e in Run(c, calls) && e.key != calls[n].key ==> e in Run(c, calls[..n])
  {
    var n := |calls| - 1;
    var entries, call := Run(c, calls[..n]), calls[n];
    var spent := Spend(c, Find(entries, call.key), call).value;
    hide Spend;
    var room := Room(c, entries, call.key, spent.at);
    forall e | e in Run(c, calls) && e.key != call.key ensures e in entries {
      assert e in Without(room, call.key);
      assert e in room;
    }
  }

  /** The key forced out spent longer ago than any other that is not full. */
  lemma ForcedOutIsLeastRecent(c: Config, calls: seq<Call>, call: Call, key: string, e: Entry)
    requires ForcedOut(c, Run(c, calls), call, key)
    requires e in Run(c, calls) && e.key != key && Refilled(c, e.bucket, call.now) < c.capacity
    ensures LastSpent(c, calls, key) < LastSpent(c, calls, e.key)
  {
    hide Refilled, Run, LastSpent, Spend;
    LeastRecentFirst(c, calls);
    var kept := Refilling(c, Run(c, calls), call.now);
    RefillingOrdered(c, Run(c, calls), call.now, Ranks(c, calls));
    var i :| 0 <= i < |kept| && kept[i] == e;
    assert kept[0] in Run(c, calls);
  }

  lemma {:induction false} RunDistinct(c: Config, calls: seq<Call>)
    ensures Distinct(Run(c, calls))
  {
    if calls != [] {
      var n := |calls| - 1;
      var entries, call := Run(c, calls[..n]), calls[n];
      RunDistinct(c, calls[..n]);
      var spent := Spend(c, Find(entries, call.key), call);
      if spent.Some? { FindStored(c, entries, call.key, spent.value, call.key); }
    }
  }

  /** At most `maxKeys` buckets are kept, or one when `maxKeys` is smaller than one, whatever the clock does. */
  lemma {:induction false} KeysAreBounded(c: Config, calls: seq<Call>)
    requires Usable(c)
    ensures |Run(c, calls)| <= Max(1, c.maxKeys)
  {
    if calls != [] {
      var n := |calls| - 1;
      var entries, call := Run(c, calls[..n]), calls[n];
      KeysAreBounded(c, calls[..n]);
      RunDistinct(c, calls[..n]);
      var spent := Spend(c, Find(entries, call.key), call);
      if spent.Some? {
        var room := Room(c, entries, call.key, spent.value.at);
        RoomDistinct(c, entries, call.key, spent.value.at);
        WithoutDistinct(room, call.key);
      }
    }
  }

  /** With `maxKeys` below one, a call that stores leaves one key, its own: the map holds one more than it says. */
  lemma OneKeyIsKept(c: Config, calls: seq<Call>, call: Call)
    requires Usable(c) && c.maxKeys < 1
    requires Spend(c, Find(Run(c, calls), call.key), call).Some?
    ensures Step(c, Run(c, calls), call) ==
            [Entry(call.key, Spend(c, Find(Run(c, calls), call.key), call).value)]
  {
    KeysAreBounded(c, calls);
    RunDistinct(c, calls);
    hide Run, Spend, Refilled;
    var entries, spent := Run(c, calls), Spend(c, Find(Run(c, calls), call.key), call).value;
    var room := Room(c, entries, call.key, spent.at);
    RoomDistinct(c, entries, call.key, spent.at);
    WithoutDistinct(room, call.key);
    if Find(entries, call.key).Some? {
      assert room == entries;
    } else {
      assert room == [];
    }
    assert Without(room, call.key) == [];
  }

  // ----- what a key can spend -----

  ghost predicate NoRefunds(calls: seq<Call>) {
    forall i :: 0 <= i < |calls| && !calls[i].Admit? ==> calls[i].cost >= 0.0
  }

  ghost predicate InRange(c: Config, stored: Option<Bucket>) {
    stored.Some? ==> -c.capacity <= stored.value.tokens <= c.capacity
  }

  lemma SpendInRange(c: Config, stored: Option<Bucket>, call: Call)
    requires Usable(c) && InRange(c, stored) && (!call.Admit? ==> call.cost >= 0.0)
    ensures InRange(c, Spend(c, stored, call))
    ensures -c.capacity <= Balance(c, stored, call.now) <= c.capacity
  {
    if stored.Some? {
      assert (Max(0, Max(call.now, stored.value.at) - stored.value.at) as real / 1000.0) * c.refillPerSecond >= 0.0;
    }
  }

  /** Every stored balance stays in [-capacity, capacity], whatever the clock does. */
  lemma {:induction false} BalancesInRange(c: Config, calls: seq<Call>, e: Entry)
    requires Usable(c) && NoRefunds(calls) && e in Run(c, calls)
    ensures -c.capacity <= e.bucket.tokens <= c.capacity
  {
    var n := |calls| - 1;
    var entries, call := Run(c, calls[..n]), calls[n];
    if e in entries {
      BalancesInRange(c, calls[..n], e);
    } else {
      if Find(entries, call.key).Some? { BalancesInRange(c, calls[..n], Entry(call.key, Find(entries, call.key).value)); }
      SpendInRange(c, Find(entries, call.key), call);
      assert e == Entry(call.key, Spend(c, Find(entries, call.key), call).value) by {
        StoreAdds(c, entries, call.key, Spend(c, Find(entries, call.key), call).value, e);
      }
    }
  }

  lemma StoreAdds(c: Config, entries: seq<Entry>, key: string, bucket: Bucket, e: Entry)
    requires e in Store(c, entries, key, bucket) && e !in entries
    ensures e == Entry(key, bucket)
  {
    assert forall x :: x in Without(Room(c, entries, key, bucket.at), key) ==> x in entries;
  }

  /** The cost a call is granted: that of a `take` answered 0, and all of a charge's. */
  function Paid(c: Config, stored: Option<Bucket>, call: Call): real
    requires Usable(c)
  {
    match call
    case Take(_, cost, _) => if Answer(c, stored, call) == 0 then cost else 0.0
    case Admit(_, _) => 0.0
    case Charge(_, cost, _) => cost
  }

  /** What a charge costs past the deepest debt, `-capacity`. */
  function Forgiven(c: Config, stored: Option<Bucket>, call: Call): real {
    match call
    case Charge(_, cost, now) => MaxReal(0.0, cost - Balance(c, stored, now) - c.capacity)
    case _ => 0.0
  }

  /** Sums over the calls `i` up to `j` of `key`, each on the bucket the key then had. */
  function TotalPaid(c: Config, calls: seq<Call>, key: string, i: nat, j: nat): real
    requires Usable(c) && i <= j <= |calls|
  {
    if i == j then 0.0
    else
      TotalPaid(c, calls, key, i, j - 1) +
      if calls[j - 1].key == key then Paid(c, Own(c, calls[..j - 1], key), calls[j - 1]) else 0.0
  }

  function TotalForgiven(c: Config, calls: seq<Call>, key: string, i: nat, j: nat): real
    requires i <= j <= |calls|
  {
    if i == j then 0.0
    else
      TotalForgiven(c, calls, key, i, j - 1) +
      if calls[j - 1].key == key then Forgiven(c, Own(c, calls[..j - 1], key), calls[j - 1]) else 0.0
  }

  ghost predicate OwnOk(c: Config, stored: Option<Bucket>, now: int) {
    InRange(c, stored) && (stored.Some? ==> stored.value.at <= now)
  }

  /** One call: the balance falls by what was paid and not forgiven. */
  lemma CallConserves(c: Config, stored: Option<Bucket>, call: Call)
    requires Usable(c) && OwnOk(c, stored, call.now)
    requires !call.Admit? ==> call.cost >= 0.0
    ensures var after := After(c, stored, call);
            && OwnOk(c, after, call.now)
            && Balance(c, after, call.now) == Balance(c, stored, call.now) - Paid(c, stored, call) + Forgiven(c, stored, call)
            && (Paid(c, stored, call) > 0.0 && call.Take? ==> Balance(c, after, call.now) >= 0.0)
  {
    SpendInRange(c, stored, call);
  }

  lemma {:induction false} OwnKeeps(c: Config, calls: seq<Call>, key: string, now: int)
    requires Usable(c) && Monotone(calls, now) && NoRefunds(calls)
    ensures OwnOk(c, Own(c, calls, key), now)
  {
    if calls != [] {
      var n := |calls| - 1;
      OwnKeeps(c, calls[..n], key, calls[n].now);
      CallConserves(c, Own(c, calls[..n], key), calls[n]);
    }
  }

  lemma OwnStep(c: Config, calls: seq<Call>, key: string, j: nat)
    requires 0 < j <= |calls|
    ensures var before := Own(c, calls[..j - 1], key);
            Own(c, calls[..j], key) == if calls[j - 1].key == key then After(c, before, calls[j - 1]) else before
  {
    assert calls[..j][..j - 1] == calls[..j - 1];
  }

  lemma PrefixOk(c: Config, calls: seq<Call>, key: string, j: nat, t: int)
    requires Usable(c) && NoRefunds(calls) && j <= |calls| && Monotone(calls[..j], t)
    ensures OwnOk(c, Own(c, calls[..j], key), t)
  {
    OwnKeeps(c, calls[..j], key, t);
  }

  lemma RefillAdds(c: Config, s: int, m: int, t: int)
    requires Usable(c) && s <= m <= t
    ensures Refill(c, s, t) == Refill(c, s, m) + Refill(c, m, t) && Refill(c, m, t) >= 0.0 && Refill(c, s, m) >= 0.0
  {
    var x, y := (m - s) as real / 1000.0, (t - m) as real / 1000.0;
    Distributes(x, y, c.refillPerSecond);
    assert (t - s) as real / 1000.0 == x + y;
    assert x * c.refillPerSecond >= 0.0 && y * c.refillPerSecond >= 0.0;
  }

  /** A window of calls: `s` is not before the calls up to `i`, nor after the others, and `t` is not before any up to `j`. */
  ghost predicate Window(calls: seq<Call>, i: nat, j: nat, s: int, t: int) {
    && i <= j <= |calls| && s <= t
    && Monotone(calls[..i], s) && Monotone(calls[..j], t)
    && (forall k :: i <= k < j ==> s <= calls[k].now)
  }

  lemma ShorterWindow(calls: seq<Call>, i: nat, j: nat, s: int, t: int)
    requires Window(calls, i, j, s, t) && i < j
    ensures Window(calls, i, j - 1, s, calls[j - 1].now) && s <= calls[j - 1].now <= t
  {
    assert calls[..j][j - 1] == calls[j - 1];
    forall k | 0 <= k < j - 1 ensures calls[k].now <= calls[j - 1].now {
      assert calls[..j][k] == calls[k];
    }
    forall k, l | 0 <= k <= l < j - 1 ensures calls[k].now <= calls[l].now {
      assert calls[..j][k] == calls[k] && calls[..j][l] == calls[l];
    }
  }

  /**
   * Conservation: over any window the balance a key ends with, plus what it was granted, less what was forgiven, is at most
   * the balance it began with plus the refill.
   */
  lemma {:induction false} SpendingIsConserved(c: Config, calls: seq<Call>, key: string, i: nat, j: nat, s: int, t: int)
    requires Usable(c) && NoRefunds(calls) && Window(calls, i, j, s, t)
    ensures Balance(c, Own(c, calls[..j], key), t) + TotalPaid(c, calls, key, i, j) - TotalForgiven(c, calls, key, i, j)
            <= Balance(c, Own(c, calls[..i], key), s) + Refill(c, s, t)
    decreases j
  {
    hide Own, After, Balance, Paid, Forgiven, InRange, Monotone, Refill;
    if i == j {
      PrefixOk(c, calls, key, i, s);
      Grows(c, Own(c, calls[..i], key), s, t);
    } else {
      var m := calls[j - 1].now;
      ShorterWindow(calls, i, j, s, t);
      SpendingIsConserved(c, calls, key, i, j - 1, s, m);
      PrefixOk(c, calls, key, j - 1, m);
      CallConserves(c, Own(c, calls[..j - 1], key), calls[j - 1]);
      OwnStep(c, calls, key, j);
      Grows(c, Own(c, calls[..j], key), m, t);
      RefillAdds(c, s, m, t);
    }
  }

  /** Any window: a key is granted at most two capacities, the refill of the window, and what was forgiven. */
  lemma GrantsAreBounded(c: Config, calls: seq<Call>, key: string, i: nat, j: nat, s: int, t: int)
    requires Usable(c) && NoRefunds(calls) && Window(calls, i, j, s, t)
    ensures TotalPaid(c, calls, key, i, j) <= 2.0 * c.capacity + Refill(c, s, t) + TotalForgiven(c, calls, key, i, j)
  {
    hide Own, TotalPaid, TotalForgiven;
    SpendingIsConserved(c, calls, key, i, j, s, t);
    PrefixOk(c, calls, key, j, t);
    BalanceBounds(c, Own(c, calls[..j], key), t);
    BalanceBounds(c, Own(c, calls[..i], key), s);
  }

  lemma BalanceBounds(c: Config, stored: Option<Bucket>, now: int)
    requires Usable(c)
    ensures Balance(c, stored, now) <= c.capacity
    ensures InRange(c, stored) ==> -c.capacity <= Balance(c, stored, now)
  {
    SpendsNothing(c, stored, now);
  }

  lemma SpendsNothing(c: Config, stored: Option<Bucket>, now: int)
    requires Usable(c)
    ensures stored.Some? ==> Refilled(c, stored.value, Max(now, stored.value.at)) >= stored.value.tokens
  {
    if stored.Some? {
      assert (Max(0, Max(now, stored.value.at) - stored.value.at) as real / 1000.0) * c.refillPerSecond >= 0.0;
    }
  }

  ghost predicate OnlyTakes(calls: seq<Call>, key: string, i: nat, j: nat) {
    forall k :: i <= k < j && k < |calls| && calls[k].key == key ==> !calls[k].Charge?
  }

  lemma {:induction false} TakesLeaveNoDebt(c: Config, calls: seq<Call>, key: string, i: nat, j: nat, s: int, t: int)
    requires Usable(c) && NoRefunds(calls) && Window(calls, i, j, s, t) && OnlyTakes(calls, key, i, j)
    ensures TotalForgiven(c, calls, key, i, j) == 0.0
    ensures TotalPaid(c, calls, key, i, j) == 0.0 || Balance(c, Own(c, calls[..j], key), t) >= 0.0
    decreases j
  {
    hide Own, After, Balance, InRange, Monotone, Refill;
    if i < j {
      var m := calls[j - 1].now;
      ShorterWindow(calls, i, j, s, t);
      TakesLeaveNoDebt(c, calls, key, i, j - 1, s, m);
      PrefixOk(c, calls, key, j - 1, m);
      CallConserves(c, Own(c, calls[..j - 1], key), calls[j - 1]);
      OwnStep(c, calls, key, j);
      Grows(c, Own(c, calls[..j], key), m, t);
    }
  }

  /** Where only `take` spends, a key is granted at most its capacity plus the refill of the window, any window. */
  lemma TakesWithinTheRate(c: Config, calls: seq<Call>, key: string, i: nat, j: nat, s: int, t: int)
    requires Usable(c) && NoRefunds(calls) && Window(calls, i, j, s, t) && OnlyTakes(calls, key, i, j)
    ensures TotalPaid(c, calls, key, i, j) <= c.capacity + Refill(c, s, t)
  {
    hide Own, TotalPaid, TotalForgiven;
    SpendingIsConserved(c, calls, key, i, j, s, t);
    TakesLeaveNoDebt(c, calls, key, i, j, s, t);
    BalanceBounds(c, Own(c, calls[..i], key), s);
    RefillAdds(c, s, s, t);
  }

  /** Each charge of `key` is covered by the balance it finds and one capacity of debt. */
  ghost predicate Covered(c: Config, calls: seq<Call>, key: string, i: nat, j: nat)
    requires i <= j <= |calls|
  {
    forall k :: i <= k < j && calls[k].key == key && calls[k].Charge? ==>
      calls[k].cost <= Balance(c, Own(c, calls[..k], key), calls[k].now) + c.capacity
  }

  /** Nothing is forgiven in a window exactly when each of its charges is covered. */
  lemma {:induction false} NothingForgiven(c: Config, calls: seq<Call>, key: string, i: nat, j: nat)
    requires i <= j <= |calls|
    ensures 0.0 <= TotalForgiven(c, calls, key, i, j)
    ensures TotalForgiven(c, calls, key, i, j) == 0.0 <==> Covered(c, calls, key, i, j)
    decreases j
  {
    hide Own, Balance;
    if i < j { NothingForgiven(c, calls, key, i, j - 1); }
  }

  /** Each charge of `key` costs at most a capacity and finds the key as an `admit` would let it through. */
  ghost predicate Admitted(c: Config, calls: seq<Call>, key: string, i: nat, j: nat)
    requires i <= j <= |calls|
  {
    forall k :: i <= k < j && calls[k].key == key && calls[k].Charge? ==>
      calls[k].cost <= c.capacity && Balance(c, Own(c, calls[..k], key), calls[k].now) > 0.0
  }

  /** With one admitted charge at a time, each of at most a capacity, the bound grows by one capacity and no more. */
  lemma {:induction false} AdmittedChargesAreBounded(
      c: Config, calls: seq<Call>, key: string, i: nat, j: nat, s: int, t: int)
    requires Usable(c) && NoRefunds(calls) && Window(calls, i, j, s, t) && Admitted(c, calls, key, i, j)
    ensures TotalPaid(c, calls, key, i, j) <= 2.0 * c.capacity + Refill(c, s, t)
  {
    hide Own, TotalPaid, TotalForgiven;
    GrantsAreBounded(c, calls, key, i, j, s, t);
    NothingForgiven(c, calls, key, i, j);
  }

  /** An admitted key stays admitted until it spends, so a charge that follows its `admit` directly is `Admitted`. */
  lemma {:induction false} AdmitLasts(c: Config, calls: seq<Call>, key: string, i: nat, j: nat)
    requires Usable(c) && NoRefunds(calls) && i < j < |calls| && Monotone(calls, calls[|calls| - 1].now)
    requires calls[i] == Admit(key, calls[i].now) && Answer(c, Own(c, calls[..i], key), calls[i]) == 0
    requires forall k :: i < k < j && calls[k].key == key ==> calls[k].Admit?
    ensures Own(c, calls[..j], key) == Own(c, calls[..i], key)
    ensures Balance(c, Own(c, calls[..j], key), calls[j].now) > 0.0
    decreases j
  {
    hide Own, Refilled, Refill;
    OwnStep(c, calls, key, i + 1);
    if i + 1 < j {
      AdmitLasts(c, calls, key, i, j - 1);
      OwnStep(c, calls, key, j);
    }
    PrefixOk(c, calls, key, i, calls[i].now);
    Grows(c, Own(c, calls[..i], key), calls[i].now, calls[j].now);
  }

  /** Several charges on one balance go past it: three admitted together, one capacity each, spend three capacities at once. */
  lemma ThreeAdmittedAtOnce(c: Config, key: string)
    requires Usable(c)
    ensures var admit, charge := Admit(key, 0), Charge(key, c.capacity, 0);
            var calls := [admit, admit, admit, charge, charge, charge];
            && (forall k :: 0 <= k < 3 ==> Answer(c, Own(c, calls[..k], key), calls[k]) == 0)
            && Window(calls, 0, 6, 0, 0)
            && TotalPaid(c, calls, key, 0, 6) == 3.0 * c.capacity > 2.0 * c.capacity + Refill(c, 0, 0)
  {
    var admit, charge := Admit(key, 0), Charge(key, c.capacity, 0);
    var calls := [admit, admit, admit, charge, charge, charge];
    OwnStep(c, calls, key, 1);
    OwnStep(c, calls, key, 2);
    assert TotalPaid(c, calls, key, 0, 1) == 0.0;
    assert TotalPaid(c, calls, key, 0, 3) == 0.0;
    assert TotalPaid(c, calls, key, 0, 6) == TotalPaid(c, calls, key, 0, 4) + 2.0 * c.capacity;
    assert Refill(c, 0, 0) == 0.0;
  }

  // ----- the bounded limiter's own grants -----

  /** The sum of what the limiter itself grants `key` in calls `i` up to `j`, each as it answers on the map it then has. */
  function Granted(c: Config, calls: seq<Call>, key: string, i: nat, j: nat): real
    requires Usable(c) && i <= j <= |calls|
  {
    if i == j then 0.0
    else
      Granted(c, calls, key, i, j - 1) +
      if calls[j - 1].key == key then Paid(c, Find(Run(c, calls[..j - 1]), key), calls[j - 1]) else 0.0
  }

  /** And of what it forgives. */
  function Remitted(c: Config, calls: seq<Call>, key: string, i: nat, j: nat): real
    requires i <= j <= |calls|
  {
    if i == j then 0.0
    else
      Remitted(c, calls, key, i, j - 1) +
      if calls[j - 1].key == key then Forgiven(c, Find(Run(c, calls[..j - 1]), key), calls[j - 1]) else 0.0
  }

  lemma PrefixOf(c: Config, calls: seq<Call>, key: string, j: nat, t: int)
    requires 0 < j <= |calls| && Monotone(calls[..j], t) && NeverForcedOut(c, calls[..j], key)
    ensures Monotone(calls[..j - 1], calls[j - 1].now) && NeverForcedOut(c, calls[..j - 1], key)
  {
    hide Monotone, NeverForcedOut;
    Earlier(calls[..j], t);
    NeverBefore(c, calls[..j], key);
    assert calls[..j][..j - 1] == calls[..j - 1] && calls[..j][j - 1] == calls[j - 1];
  }

  lemma SamePaid(c: Config, a: Option<Bucket>, b: Option<Bucket>, call: Call)
    requires Usable(c) && Same(c, a, b, call.now)
    ensures Paid(c, a, call) == Paid(c, b, call) && Forgiven(c, a, call) == Forgiven(c, b, call)
  {
    SameSpend(c, a, b, call);
    hide Balance;
    assert Balance(c, a, call.now) == Balance(c, b, call.now);
  }

  /** The limiter grants a key it never forces out what an unbounded map would. */
  lemma {:induction false} GrantsAlike(c: Config, calls: seq<Call>, key: string, i: nat, j: nat, t: int)
    requires Usable(c) && i <= j <= |calls| && Monotone(calls[..j], t) && NeverForcedOut(c, calls[..j], key)
    ensures Granted(c, calls, key, i, j) == TotalPaid(c, calls, key, i, j)
    ensures Remitted(c, calls, key, i, j) == TotalForgiven(c, calls, key, i, j)
    decreases j
  {
    hide Monotone, NeverForcedOut, Run, Own, Find, Paid, Forgiven, Same;
    if i < j {
      PrefixOf(c, calls, key, j, t);
      GrantsAlike(c, calls, key, i, j - 1, calls[j - 1].now);
      RunSame(c, calls[..j - 1], key, calls[j - 1].now);
      SamePaid(c, Find(Run(c, calls[..j - 1]), key), Own(c, calls[..j - 1], key), calls[j - 1]);
    }
  }

  /**
   * The limiter itself, whatever the other keys do: in any window a key it never forces out is granted at most two
   * capacities, the refill of the window and what was forgiven; and at most one and the refill where only `take` spends it.
   */
  lemma LimiterWithinTheRate(c: Config, calls: seq<Call>, key: string, i: nat, j: nat, s: int, t: int)
    requires Usable(c) && NoRefunds(calls) && Window(calls, i, j, s, t) && NeverForcedOut(c, calls[..j], key)
    ensures Granted(c, calls, key, i, j) <= 2.0 * c.capacity + Refill(c, s, t) + Remitted(c, calls, key, i, j)
    ensures Covered(c, calls, key, i, j) <==> Remitted(c, calls, key, i, j) == 0.0
    ensures OnlyTakes(calls, key, i, j) ==> Granted(c, calls, key, i, j) <= c.capacity + Refill(c, s, t)
  {
    hide NeverForcedOut, NoRefunds, Granted, Remitted, TotalPaid, TotalForgiven, Refill, OnlyTakes, Covered, Monotone;
    GrantsAlike(c, calls, key, i, j, t);
    GrantsAreBounded(c, calls, key, i, j, s, t);
    NothingForgiven(c, calls, key, i, j);
    if OnlyTakes(calls, key, i, j) { TakesWithinTheRate(c, calls, key, i, j, s, t); }
  }

  lemma RefillingNone(c: Config, at: int)
    ensures Refilling(c, [], at) == []
  {
  }

  lemma RefillingFrom(c: Config, entries: seq<Entry>, i: nat, at: int)
    requires i < |entries|
    ensures Refilling(c, entries[i..], at) ==
            (if Refilled(c, entries[i].bucket, at) < c.capacity then [entries[i]] else [])
            + Refilling(c, entries[i + 1..], at)
  {
    hide Refilled;
    assert entries[i..][1..] == entries[i + 1..];
  }

  lemma WithoutNone(key: string)
    ensures Without([], key) == []
  {
  }

  lemma WithoutFrom(entries: seq<Entry>, i: nat, key: string)
    requires i < |entries|
    ensures Without(entries[i..], key) ==
            (if entries[i].key != key then [entries[i]] else []) + Without(entries[i + 1..], key)
  {
    assert entries[i..][1..] == entries[i + 1..];
  }

  // ----- the limiter's fields -----

  class TokenBucketLimiter {
    const config: Config
    var buckets: seq<Entry>

    constructor (config: Config)
      requires Usable(config)
      ensures this.config == config && buckets == Run(config, [])
    {
      this.config := config;
      buckets := [];
    }

    /** Deletes the buckets that are full at `at`, in one pass over the map. */
    method DropFull(at: int)
      modifies this
      ensures buckets == Refilling(config, old(buckets), at)
    {
      hide Refilled, Refilling;
      var kept := [];
      RefillingNone(config, at);
      var i := 0;
      while i < |buckets|
        invariant 0 <= i <= |buckets| && buckets == old(buckets)
        invariant kept + Refilling(config, buckets[i..], at) == Refilling(config, buckets, at)
      {
        RefillingFrom(config, buckets, i, at);
        if Refilled(config, buckets[i].bucket, at) < config.capacity { kept := kept + [buckets[i]]; }
        i := i + 1;
      }
      buckets := kept;
    }

    method Delete(key: string)
      modifies this
      ensures buckets == Without(old(buckets), key)
    {
      hide Without;
      var kept := [];
      WithoutNone(key);
      var i := 0;
      while i < |buckets|
        invariant 0 <= i <= |buckets| && buckets == old(buckets)
        invariant kept + Without(buckets[i..], key) == Without(buckets, key)
      {
        WithoutFrom(buckets, i, key);
        if buckets[i].key != key { kept := kept + [buckets[i]]; }
        i := i + 1;
      }
      buckets := kept;
    }

    method Set(key: string, bucket: Bucket)
      modifies this
      ensures buckets == Store(config, old(buckets), key, bucket)
    {
      if Find(buckets, key).None? && |buckets| >= config.maxKeys {
        DropFull(bucket.at);
        if |buckets| >= config.maxKeys && buckets != [] { buckets := buckets[1..]; }
      }
      Delete(key);
      buckets := buckets + [Entry(key, bucket)];
    }

    method Take(key: string, cost: real, now: int) returns (wait: int)
      requires Usable(config)
      modifies this
      ensures buckets == Step(config, old(buckets), Call.Take(key, cost, now))
      ensures wait == Answer(config, Find(old(buckets), key), Call.Take(key, cost, now))
    {
      var bucket := Current(config, Find(buckets, key), now);
      if bucket.tokens >= cost {
        Set(key, bucket.(tokens := bucket.tokens - cost));
        return 0;
      }
      wait := SecondsUntil(config, cost - bucket.tokens);
    }

    method Admit(key: string, now: int) returns (wait: int)
      requires Usable(config)
      ensures buckets == Step(config, buckets, Call.Admit(key, now))
      ensures wait == Answer(config, Find(buckets, key), Call.Admit(key, now))
    {
      var bucket := Current(config, Find(buckets, key), now);
      wait := if bucket.tokens > 0.0 then 0 else SecondsUntil(config, -bucket.tokens + EPSILON);
    }

    method Charge(key: string, cost: real, now: int)
      requires Usable(config)
      modifies this
      ensures buckets == Step(config, old(buckets), Call.Charge(key, cost, now))
    {
      var bucket := Current(config, Find(buckets, key), now);
      Set(key, bucket.(tokens := MaxReal(-config.capacity, bucket.tokens - cost)));
    }
  }
}
