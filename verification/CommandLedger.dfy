/**
 * Command de-duplication (agent/src/ledger.ts): the ids of commands until their own expiry, oldest first, at most
 * `maxEntries` of them. The source's Map keeps insertion order, so here it is the sequence of its entries.
 */
module CommandLedgers {
  import opened Wrappers
  import opened BoundedQueues

  datatype CommandResult = CommandResult(ok: bool, code: Option<string>)

  datatype Verdict = New | Running | Done(result: CommandResult)

  datatype Entry = Entry(id: string, expiresAtMs: int, result: Option<CommandResult>)

  const LEDGER_MAX_ENTRIES: nat := 1000

  /** The entries not yet expired at `at`. */
  function Live(entries: seq<Entry>, at: int): (r: seq<Entry>)
    ensures |r| <= |entries|
    ensures forall e :: e in r <==> e in entries && at < e.expiresAtMs
  {
    if entries == [] then []
    else if entries[0].expiresAtMs <= at then Live(entries[1..], at)
    else [entries[0]] + Live(entries[1..], at)
  }

  lemma LiveStep(entries: seq<Entry>, at: int)
    requires entries != []
    ensures Live(entries, at) ==
            (if at < entries[0].expiresAtMs then [entries[0]] else []) + Live(entries[1..], at)
  {
  }

  /** A purge keeps the order and the count of what lives: it works on each part of the list by itself. */
  lemma {:induction false} LiveJoin(a: seq<Entry>, b: seq<Entry>, at: int)
    ensures Live(a + b, at) == Live(a, at) + Live(b, at)
  {
    hide Live;
    if a == [] {
      assert a + b == b && Live(a, at) == [];
    } else {
      LiveJoin(a[1..], b, at);
      LiveStep(a, at);
      LiveStep(a + b, at);
      assert (a + b)[1..] == a[1..] + b && (a + b)[0] == a[0];
    }
  }

  /** An entry that lives stays where it is between the others; one that does not goes alone. */
  lemma LiveInOrder(a: seq<Entry>, e: Entry, b: seq<Entry>, at: int)
    ensures Live(a + [e] + b, at) == Live(a, at) + (if at < e.expiresAtMs then [e] else []) + Live(b, at)
  {
    hide Live;
    LiveJoin(a + [e], b, at);
    LiveJoin(a, [e], at);
    LiveStep([e], at);
    assert [e][1..] == [] && Live([], at) == [];
  }

  function Find(entries: seq<Entry>, id: string): (r: Option<Entry>)
    ensures r.Some? ==> r.value in entries && r.value.id == id
    ensures r.None? ==> forall e :: e in entries ==> e.id != id
  {
    if entries == [] then None
    else if entries[0].id == id then Some(entries[0])
    else Find(entries[1..], id)
  }

  function VerdictOf(known: Option<Entry>): Verdict {
    if known.None? then New else if known.value.result.None? then Running else Done(known.value.result.value)
  }

  function Begin(entries: seq<Entry>, max: nat, id: string, expiresAtMs: int, at: int): seq<Entry> {
    var live := Live(entries, at);
    if Find(live, id).Some? then live else Newest(live + [Entry(id, expiresAtMs, None)], max)
  }

  function Finish(entries: seq<Entry>, id: string, result: CommandResult): (r: seq<Entry>)
    ensures |r| == |entries|
    ensures forall i :: 0 <= i < |r| ==>
      r[i] == if entries[i].id == id then entries[i].(result := Some(result)) else entries[i]
  {
    seq(|entries|, i requires 0 <= i < |entries| =>
      if entries[i].id == id then entries[i].(result := Some(result)) else entries[i])
  }

  lemma {:induction false} FinishLive(entries: seq<Entry>, id: string, result: CommandResult, at: int)
    ensures Live(Finish(entries, id, result), at) == Finish(Live(entries, at), id, result)
  {
    hide Live, Finish;
    if entries == [] {
      assert Live(entries, at) == [] && Finish(entries, id, result) == [];
    } else {
      FinishLive(entries[1..], id, result, at);
      LiveStep(entries, at);
      LiveStep(Finish(entries, id, result), at);
      FinishStep(entries, id, result);
      if at < entries[0].expiresAtMs { FinishStep([entries[0]] + Live(entries[1..], at), id, result); }
    }
  }

  lemma FinishStep(entries: seq<Entry>, id: string, result: CommandResult)
    requires entries != []
    ensures Finish(entries, id, result)[1..] == Finish(entries[1..], id, result)
    ensures Finish(entries, id, result) == [Finish(entries, id, result)[0]] + Finish(entries[1..], id, result)
  {
  }

  lemma {:induction false} FinishFinds(entries: seq<Entry>, id: string, result: CommandResult, other: string)
    ensures VerdictOf(Find(Finish(entries, id, result), other)) ==
            if other == id && Find(entries, id).Some? then Done(result) else VerdictOf(Find(entries, other))
  {
    if entries != [] {
      FinishFinds(entries[1..], id, result, other);
      assert Finish(entries, id, result)[1..] == Finish(entries[1..], id, result);
    }
  }

  /** Once an id's outcome is stored, a delivery of it is answered by that outcome while it lives; no other id's answer moves. */
  lemma FinishAnswers(entries: seq<Entry>, id: string, result: CommandResult, other: string, at: int)
    ensures var before, after := Live(entries, at), Live(Finish(entries, id, result), at);
            VerdictOf(Find(after, other)) ==
              if other == id && Find(before, id).Some? then Done(result) else VerdictOf(Find(before, other))
  {
    FinishLive(entries, id, result, at);
    FinishFinds(Live(entries, at), id, result, other);
  }

  class CommandLedger {
    const maxEntries: nat
    var entries: seq<Entry>

    constructor (maxEntries: nat)
      ensures this.maxEntries == maxEntries && entries == []
    {
      this.maxEntries := maxEntries;
      entries := [];
    }

    method Purge(at: int)
      modifies this
      ensures entries == Live(old(entries), at)
    {
      hide Live;
      var kept := [];
      var i := 0;
      assert Live([], at) == [];
      while i < |entries|
        invariant 0 <= i <= |entries| && entries == old(entries)
        invariant kept + Live(entries[i..], at) == Live(entries, at)
      {
        LiveStep(entries[i..], at);
        assert entries[i..][1..] == entries[i + 1..];
        if at < entries[i].expiresAtMs { kept := kept + [entries[i]]; }
        i := i + 1;
      }
      entries := kept;
    }

    method BeginCommand(id: string, expiresAtMs: int, at: int) returns (verdict: Verdict)
      modifies this
      ensures entries == Begin(old(entries), maxEntries, id, expiresAtMs, at)
      ensures verdict == VerdictOf(Find(Live(old(entries), at), id))
    {
      Purge(at);
      var known := Find(entries, id);
      if known.Some? { return VerdictOf(known); }
      entries := entries + [Entry(id, expiresAtMs, None)];
      ghost var all := entries;
      while |entries| > maxEntries
        invariant |entries| <= |all| && entries == all[|all| - |entries|..]
        invariant |all| <= maxEntries ==> entries == all
        invariant maxEntries < |all| ==> maxEntries <= |entries|
      {
        entries := entries[1..];
      }
      verdict := New;
    }

    method FinishCommand(id: string, result: CommandResult)
      modifies this
      ensures entries == Finish(old(entries), id, result)
    {
      var i := 0;
      while i < |entries|
        invariant 0 <= i <= |entries| == |old(entries)|
        invariant forall j :: 0 <= j < |entries| ==>
          entries[j] == if j < i then Finish(old(entries), id, result)[j] else old(entries)[j]
      {
        if entries[i].id == id { entries := entries[i := entries[i].(result := Some(result))]; }
        i := i + 1;
      }
    }
  }
}

/**
 * What the ledger is for, over every run of deliveries and outcomes: a command runs at most once, a re-delivery reports
 * the first result, and no expired command runs.
 */
module CommandBooks {
  import opened Wrappers
  import opened Ranges
  import opened CommandLedgers

  const MAX_COMMAND_LIFETIME_MS: int := 600_000

  datatype Execution = Execution(id: string, expiresAtMs: int, at: int)

  datatype Report = Report(id: string, result: CommandResult)

  /** The ledger, and as history what was executed, decided and reported. */
  datatype Book = Book(
    entries: seq<Entry>,
    executed: seq<Execution>,
    running: set<string>,
    decided: map<string, CommandResult>,
    reported: seq<Report>)

  const EMPTY: Book := Book([], [], {}, map[], [])

  /** `handle` refuses an expired command, and one that claims to live far longer than the backend allows. */
  predicate Acceptable(expiresAtMs: int, at: int) {
    at < expiresAtMs && expiresAtMs - at <= MAX_COMMAND_LIFETIME_MS
  }

  function VerdictFor(b: Book, id: string, at: int): Verdict {
    VerdictOf(Find(Live(b.entries, at), id))
  }

  function Deliver(b: Book, max: nat, id: string, expiresAtMs: int, at: int): Book {
    if !Acceptable(expiresAtMs, at) then b
    else
      var b1 := b.(entries := Begin(b.entries, max, id, expiresAtMs, at));
      match VerdictFor(b, id, at)
      case New => b1.(executed := b1.executed + [Execution(id, expiresAtMs, at)], running := b1.running + {id})
      case Running => b1
      case Done(result) => b1.(reported := b1.reported + [Report(id, result)])
  }

  /** The execution of `id` ends with `result`, which is reported. */
  function Decide(b: Book, id: string, result: CommandResult): Book {
    if id !in b.running then b
    else b.(entries := Finish(b.entries, id, result), running := b.running - {id},
            decided := b.decided[id := result], reported := b.reported + [Report(id, result)])
  }

  datatype Event =
    | Delivered(id: string, expiresAtMs: int, at: int)
    | Decided(id: string, result: CommandResult)

  function Step(b: Book, max: nat, e: Event): Book {
    match e
    case Delivered(id, expiresAtMs, at) => Deliver(b, max, id, expiresAtMs, at)
    case Decided(id, result) => Decide(b, id, result)
  }

  function Run(max: nat, events: seq<Event>): Book {
    if events == [] then EMPTY else Step(Run(max, events[..|events| - 1]), max, events[|events| - 1])
  }

  // ----- the hypotheses -----

  /** The ids executed so far that are not expired at `at`. */
  ghost function Unexpired(b: Book, expiry: map<string, int>, at: int): set<string> {
    set x | x in b.executed && x.id in expiry && at < expiry[x.id] :: x.id
  }

  /** A delivery that keeps its id's own expiry and leaves at most `max` unexpired ids. */
  ghost predicate Fits(b: Book, max: nat, expiry: map<string, int>, e: Event) {
    e.Delivered? ==>
      && e.id in expiry && expiry[e.id] == e.expiresAtMs
      && |Unexpired(b, expiry, e.at) + {e.id}| <= max
  }

  /** The time of the last delivery among the first `n` events, or earlier than all. */
  ghost predicate NotAfter(events: seq<Event>, at: int) {
    forall i :: 0 <= i < |events| && events[i].Delivered? ==> events[i].at <= at
  }

  ghost predicate WellTimed(max: nat, expiry: map<string, int>, events: seq<Event>) {
    events == [] ||
    var last, before := events[|events| - 1], events[..|events| - 1];
    && WellTimed(max, expiry, before)
    && Fits(Run(max, before), max, expiry, last)
    && (last.Delivered? ==> NotAfter(before, last.at))
  }

  // ----- the invariant -----

  ghost predicate Distinct(entries: seq<Entry>) {
    forall i, j :: 0 <= i < j < |entries| ==> entries[i].id != entries[j].id
  }

  ghost predicate WasExecuted(executed: seq<Execution>, id: string) {
    exists i :: 0 <= i < |executed| && executed[i].id == id
  }

  ghost predicate EntryOk(b: Book, expiry: map<string, int>, e: Entry) {
    && e.id in expiry && e.expiresAtMs == expiry[e.id]
    && WasExecuted(b.executed, e.id)
    && match e.result
       case None => e.id in b.running
       case Some(r) => e.id in b.decided && b.decided[e.id] == r
  }

  ghost predicate EntriesOk(b: Book, expiry: map<string, int>) {
    Distinct(b.entries) && forall i :: 0 <= i < |b.entries| ==> EntryOk(b, expiry, b.entries[i])
  }

  ghost predicate Has(entries: seq<Entry>, id: string) {
    exists i :: 0 <= i < |entries| && entries[i].id == id
  }

  /** Executed commands were acceptable, once each, and are remembered until their expiry. */
  ghost predicate ExecutedOk(b: Book, expiry: map<string, int>, now: int) {
    && (forall i :: 0 <= i < |b.executed| ==>
          var x := b.executed[i];
          && x.id in expiry && expiry[x.id] == x.expiresAtMs && Acceptable(x.expiresAtMs, x.at)
          && (now < x.expiresAtMs ==> Has(b.entries, x.id)))
    && (forall i, j :: 0 <= i < j < |b.executed| ==> b.executed[i].id != b.executed[j].id)
  }

  ghost predicate OutcomesOk(b: Book) {
    && (forall id :: id in b.running ==> id !in b.decided && WasExecuted(b.executed, id))
    && (forall id :: id in b.decided ==> WasExecuted(b.executed, id))
    && (forall i :: 0 <= i < |b.reported| ==>
          b.reported[i].id in b.decided && b.decided[b.reported[i].id] == b.reported[i].result)
  }

  ghost predicate Inv(b: Book, expiry: map<string, int>, now: int) {
    EntriesOk(b, expiry) && ExecutedOk(b, expiry, now) && OutcomesOk(b)
  }

  lemma FindHas(entries: seq<Entry>, id: string)
    ensures Find(entries, id).Some? <==> Has(entries, id)
  {
    if Has(entries, id) {
      var i :| 0 <= i < |entries| && entries[i].id == id;
      assert entries[i] in entries;
    }
  }

  ghost function Ids(entries: seq<Entry>): set<string> {
    set e | e in entries :: e.id
  }

  lemma {:induction false} LiveDistinct(entries: seq<Entry>, at: int)
    requires Distinct(entries)
    ensures Distinct(Live(entries, at))
  {
    if entries != [] {
      LiveDistinct(entries[1..], at);
      forall e | e in Live(entries[1..], at) ensures e.id != entries[0].id {
        assert e in entries[1..];
      }
    }
  }

  lemma {:induction false} IdsCount(entries: seq<Entry>)
    requires Distinct(entries)
    ensures |Ids(entries)| == |entries|
  {
    if entries != [] {
      IdsCount(entries[1..]);
      assert entries == [entries[0]] + entries[1..];
      assert Ids(entries) == {entries[0].id} + Ids(entries[1..]);
      assert entries[0].id !in Ids(entries[1..]);
    }
  }

  lemma LaterInv(b: Book, expiry: map<string, int>, now: int, later: int)
    requires Inv(b, expiry, now) && now <= later
    ensures Inv(b, expiry, later)
  {
  }

  /** A purge at `at` forgets only what is expired at `at`. */
  lemma PurgeKeeps(b: Book, expiry: map<string, int>, now: int, at: int)
    requires Inv(b, expiry, now) && now <= at
    ensures Inv(b.(entries := Live(b.entries, at)), expiry, at)
  {
    LiveDistinct(b.entries, at);
    var live := Live(b.entries, at);
    forall i | 0 <= i < |live| ensures EntryOk(b.(entries := live), expiry, live[i]) {
      assert live[i] in b.entries;
    }
    forall i | 0 <= i < |b.executed| && at < b.executed[i].expiresAtMs ensures Has(live, b.executed[i].id) {
      var j :| 0 <= j < |b.entries| && b.entries[j].id == b.executed[i].id;
      assert EntryOk(b, expiry, b.entries[j]) && b.entries[j] in live;
    }
  }

  /** With room for every unexpired id, remembering a new one evicts nothing. */
  lemma RoomForNew(b: Book, max: nat, expiry: map<string, int>, id: string, at: int)
    requires Inv(b, expiry, at)
    requires forall e :: e in b.entries ==> at < e.expiresAtMs
    requires !Has(b.entries, id)
    requires |Unexpired(b, expiry, at) + {id}| <= max
    ensures |b.entries| + 1 <= max
  {
    var ids := Ids(b.entries);
    IdsCount(b.entries);
    forall k | k in ids ensures k in Unexpired(b, expiry, at) {
      var i :| 0 <= i < |b.entries| && b.entries[i].id == k;
      assert EntryOk(b, expiry, b.entries[i]) && b.entries[i] in b.entries;
      var j :| 0 <= j < |b.executed| && b.executed[j].id == k;
      assert b.executed[j] in b.executed;
    }
    assert id !in ids;
    SubsetSize(ids + {id}, Unexpired(b, expiry, at) + {id});
  }

  function Remembered(b: Book, id: string, expiresAtMs: int, at: int): Book {
    b.(entries := b.entries + [Entry(id, expiresAtMs, None)],
       executed := b.executed + [Execution(id, expiresAtMs, at)], running := b.running + {id})
  }

  lemma NewKeeps(b: Book, expiry: map<string, int>, id: string, expiresAtMs: int, at: int)
    requires Inv(b, expiry, at) && !Has(b.entries, id)
    requires id in expiry && expiry[id] == expiresAtMs && Acceptable(expiresAtMs, at)
    ensures Inv(Remembered(b, id, expiresAtMs, at), expiry, at)
  {
    var r := Remembered(b, id, expiresAtMs, at);
    var n := |b.entries|;
    assert r.executed[|b.executed|].id == id && r.entries[n].id == id;
    forall k | WasExecuted(b.executed, k) ensures WasExecuted(r.executed, k) && k != id {
      var i :| 0 <= i < |b.executed| && b.executed[i].id == k;
      assert r.executed[i] == b.executed[i];
    }
    forall k | Has(b.entries, k) ensures Has(r.entries, k) {
      var i :| 0 <= i < n && b.entries[i].id == k;
      assert r.entries[i] == b.entries[i];
    }
    forall i | 0 <= i < n ensures EntryOk(r, expiry, r.entries[i]) {
      assert EntryOk(b, expiry, b.entries[i]);
    }
    assert WasExecuted(r.executed, id);
    assert Has(r.entries, id);
  }

  lemma DeliverKeeps(b: Book, max: nat, expiry: map<string, int>, now: int, id: string, expiresAtMs: int, at: int)
    requires Inv(b, expiry, now) && now <= at
    requires Fits(b, max, expiry, Delivered(id, expiresAtMs, at))
    ensures Inv(Deliver(b, max, id, expiresAtMs, at), expiry, at)
  {
    hide EntriesOk, ExecutedOk, OutcomesOk, Unexpired;
    LaterInv(b, expiry, now, at);
    if Acceptable(expiresAtMs, at) {
      var purged := b.(entries := Live(b.entries, at));
      PurgeKeeps(b, expiry, now, at);
      FindHas(purged.entries, id);
      match VerdictFor(b, id, at) {
        case New =>
          SameUnexpired(b, purged, expiry, at);
          RoomForNew(purged, max, expiry, id, at);
          NewKeeps(purged, expiry, id, expiresAtMs, at);
          assert Deliver(b, max, id, expiresAtMs, at) == Remembered(purged, id, expiresAtMs, at);
        case Running =>
        case Done(result) => RepeatKeeps(purged, expiry, id, result, at);
      }
    }
  }

  lemma SameUnexpired(b: Book, r: Book, expiry: map<string, int>, at: int)
    requires b.executed == r.executed
    ensures Unexpired(b, expiry, at) == Unexpired(r, expiry, at)
  {
  }

  lemma RepeatKeeps(b: Book, expiry: map<string, int>, id: string, result: CommandResult, at: int)
    requires Inv(b, expiry, at)
    requires VerdictOf(Find(b.entries, id)) == Done(result)
    ensures Inv(b.(reported := b.reported + [Report(id, result)]), expiry, at)
  {
    var r := b.(reported := b.reported + [Report(id, result)]);
    forall i | 0 <= i < |b.entries| ensures EntryOk(r, expiry, b.entries[i]) && EntryOk(b, expiry, b.entries[i]) {
      assert EntryOk(b, expiry, b.entries[i]);
    }
  }

  lemma DecideKeeps(b: Book, expiry: map<string, int>, now: int, id: string, result: CommandResult)
    requires Inv(b, expiry, now)
    ensures Inv(Decide(b, id, result), expiry, now)
  {
    if id in b.running {
      var r := Decide(b, id, result);
      forall i | 0 <= i < |r.entries| ensures EntryOk(r, expiry, r.entries[i]) {
        assert EntryOk(b, expiry, b.entries[i]);
      }
      forall k | Has(b.entries, k) ensures Has(r.entries, k) {
        var i :| 0 <= i < |b.entries| && b.entries[i].id == k;
        assert r.entries[i].id == k;
      }
    }
  }

  lemma {:induction false} RunKeeps(max: nat, expiry: map<string, int>, events: seq<Event>, now: int)
    requires WellTimed(max, expiry, events) && NotAfter(events, now)
    ensures Inv(Run(max, events), expiry, now)
  {
    if events != [] {
      var last, before := events[|events| - 1], events[..|events| - 1];
      match last {
        case Delivered(id, expiresAtMs, at) =>
          RunKeeps(max, expiry, before, at);
          DeliverKeeps(Run(max, before), max, expiry, at, id, expiresAtMs, at);
          LaterInv(Run(max, events), expiry, at, now);
        case Decided(id, result) =>
          RunKeeps(max, expiry, before, now);
          DecideKeeps(Run(max, before), expiry, now, id, result);
      }
    }
  }

  // ----- the claims, over every run -----

  /** No command id is executed twice. */
  lemma ExecutedAtMostOnce(max: nat, expiry: map<string, int>, events: seq<Event>, now: int, i: nat, j: nat)
    requires WellTimed(max, expiry, events) && NotAfter(events, now)
    requires i < j < |Run(max, events).executed|
    ensures Run(max, events).executed[i].id != Run(max, events).executed[j].id
  {
    RunKeeps(max, expiry, events, now);
  }

  /** Every report of an id, the first and those of later deliveries, carries the one result its execution had. */
  lemma SameResultEveryTime(max: nat, expiry: map<string, int>, events: seq<Event>, now: int, i: nat)
    requires WellTimed(max, expiry, events) && NotAfter(events, now)
    requires i < |Run(max, events).reported|
    ensures var b := Run(max, events);
            && WasExecuted(b.executed, b.reported[i].id)
            && (forall j :: 0 <= j < |b.reported| && b.reported[j].id == b.reported[i].id ==>
                  b.reported[j].result == b.reported[i].result)
  {
    hide Run;
    RunKeeps(max, expiry, events, now);
  }

  /** What runs has not expired, and does not claim to live longer than the backend allows. */
  lemma NothingExpiredRuns(max: nat, expiry: map<string, int>, events: seq<Event>, now: int, i: nat)
    requires WellTimed(max, expiry, events) && NotAfter(events, now)
    requires i < |Run(max, events).executed|
    ensures var x := Run(max, events).executed[i]; x.at < x.expiresAtMs <= x.at + MAX_COMMAND_LIFETIME_MS
  {
    RunKeeps(max, expiry, events, now);
  }

  /** A delivery of an id already executed and not expired runs nothing. */
  lemma RedeliveryRunsNothing(max: nat, expiry: map<string, int>, events: seq<Event>, id: string, at: int)
    requires WellTimed(max, expiry, events) && NotAfter(events, at)
    requires WasExecuted(Run(max, events).executed, id) && id in expiry
    ensures var b := Run(max, events);
            Deliver(b, max, id, expiry[id], at).executed == b.executed
  {
    hide Run;
    RunKeeps(max, expiry, events, at);
    var b := Run(max, events);
    PurgeKeeps(b, expiry, at, at);
    FindHas(Live(b.entries, at), id);
  }

  lemma UnexpiredRemembered(b: Book, expiry: map<string, int>, at: int)
    requires Inv(b, expiry, at)
    ensures Unexpired(b, expiry, at) <= Ids(Live(b.entries, at))
  {
    var live := Live(b.entries, at);
    PurgeKeeps(b, expiry, at, at);
    forall x | x in b.executed && at < expiry[x.id] ensures x.id in Ids(live) {
      var j :| 0 <= j < |b.executed| && b.executed[j] == x;
      assert Has(live, b.executed[j].id);
      var i :| 0 <= i < |live| && live[i].id == x.id;
      assert live[i] in live;
    }
  }

  /** Without room the ledger is full of unexpired ids. */
  lemma FullLedger(b: Book, max: nat, expiry: map<string, int>, id: string, at: int)
    requires Inv(b, expiry, at) && |b.entries| <= max
    requires max < |Unexpired(b, expiry, at) + {id}|
    ensures |Live(b.entries, at)| == max
  {
    hide Unexpired;
    var ids := Ids(Live(b.entries, at));
    UnexpiredRemembered(b, expiry, at);
    LiveDistinct(b.entries, at);
    IdsCount(Live(b.entries, at));
    SubsetSize(Unexpired(b, expiry, at) + {id}, ids + {id});
    assert |ids + {id}| <= |ids| + 1;
  }

  lemma OldestForgotten(live: seq<Entry>, e: Entry, at: int)
    requires live != [] && Distinct(live) && e.id != live[0].id
    ensures VerdictOf(Find(Live((live + [e])[1..], at), live[0].id)) == New
  {
    var all := live + [e];
    var kept := all[1..];
    forall k | k in Live(kept, at) ensures k.id != live[0].id {
      assert k in kept;
      var i :| 0 <= i < |kept| && kept[i] == k;
      assert kept[i] == all[i + 1];
    }
  }

  /**
   * The room is needed: a delivery that leaves more than `max` unexpired ids evicts one, and that one, delivered again
   * before its expiry, is run a second time.
   */
  lemma NoRoomRunsTwice(b: Book, max: nat, expiry: map<string, int>, id: string, at: int) returns (evicted: string)
    requires Inv(b, expiry, at) && 1 <= max && |b.entries| <= max
    requires id in expiry && Acceptable(expiry[id], at) && !WasExecuted(b.executed, id)
    requires max < |Unexpired(b, expiry, at) + {id}|
    ensures evicted in expiry && evicted != id && at < expiry[evicted] && WasExecuted(b.executed, evicted)
    ensures VerdictFor(Deliver(b, max, id, expiry[id], at), evicted, at) == New
  {
    var live := Live(b.entries, at);
    FullLedger(b, max, expiry, id, at);
    LiveDistinct(b.entries, at);
    forall i | 0 <= i < |live| ensures EntryOk(b, expiry, live[i]) && live[i].id != id {
      assert live[i] in b.entries;
      var j :| 0 <= j < |b.entries| && b.entries[j] == live[i];
      assert EntryOk(b, expiry, b.entries[j]);
    }
    evicted := live[0].id;
    assert live[0] in live;
    FindHas(live, id);
    OldestForgotten(live, Entry(id, expiry[id], None), at);
  }
}
