/**
 * Where a request's time went (backend/src/platform/requestTiming.ts). Times are whole ticks; a tick is covered when some
 * call to the game server was running in it.
 */
module RequestTimings {
  import opened Ranges
  import opened Wrappers

  const MAX_STORED_CALLS: nat := 200

  datatype Upstream = Vanilla | Frm

  datatype Interval = Interval(upstream: Upstream, startMs: int, endMs: int)

  datatype Summary = Summary(totalMs: int, upstreamMs: int, appMs: int, vanillaMs: int, frmMs: int, upstreamCalls: nat)

  function Max(a: int, b: int): int { if a < b then b else a }

  function Min(a: int, b: int): int { if b < a then b else a }

  // ----- what is being measured -----

  ghost predicate Runs(i: Interval, tick: int) {
    i.startMs <= tick < i.endMs
  }

  ghost predicate RunsAny(intervals: seq<Interval>, tick: int) {
    exists i :: i in intervals && Runs(i, tick)
  }

  /** The ticks of [from, to) in which at least one of the intervals runs. */
  ghost function Covered(intervals: seq<Interval>, from: int, to: int): set<int> {
    set tick | tick in Range(from, Max(0, to - from)) && RunsAny(intervals, tick)
  }

  // ----- the pipeline before the sweep -----

  function Clip(i: Interval, from: int, to: int): Interval {
    i.(startMs := Max(i.startMs, from), endMs := Min(i.endMs, to))
  }

  function Clipped(intervals: seq<Interval>, from: int, to: int): (r: seq<Interval>)
    ensures forall i :: i in r ==> i.startMs < i.endMs && from <= i.startMs && i.endMs <= to
    ensures forall i :: i in intervals && Clip(i, from, to).startMs < Clip(i, from, to).endMs ==> Clip(i, from, to) in r
    ensures forall c :: c in r ==> exists i :: i in intervals && c == Clip(i, from, to)
  {
    if intervals == [] then []
    else
      var c, rest := Clip(intervals[0], from, to), Clipped(intervals[1..], from, to);
      if c.startMs < c.endMs then [c] + rest else rest
  }

  ghost predicate Sorted(s: seq<Interval>) {
    forall i, j :: 0 <= i < j < |s| ==> s[i].startMs <= s[j].startMs
  }

  function Insert(i: Interval, s: seq<Interval>): (r: seq<Interval>)
    requires Sorted(s)
    ensures Sorted(r)
    ensures forall x :: x in r <==> x == i || x in s
  {
    if s == [] || i.startMs <= s[0].startMs then [i] + s
    else
      var r := Insert(i, s[1..]);
      assert forall x :: x in r ==> s[0].startMs <= x.startMs;
      [s[0]] + r
  }

  function SortByStart(s: seq<Interval>): (r: seq<Interval>)
    ensures Sorted(r)
    ensures forall x :: x in r <==> x in s
  {
    if s == [] then [] else Insert(s[0], SortByStart(s[1..]))
  }

  // ----- the sweep -----

  /** The ticks the intervals run in, unclipped. */
  ghost function Ticks(intervals: seq<Interval>): (r: set<int>)
    ensures forall tick :: tick in r <==> RunsAny(intervals, tick)
  {
    if intervals == [] then {}
    else
      var n := |intervals| - 1;
      var last, before := intervals[n], intervals[..n];
      assert intervals == before + [last];
      var r := Ticks(before) + Range(last.startMs, Max(0, last.endMs - last.startMs));
      assert forall tick :: RunsAny(before, tick) || Runs(last, tick) ==> RunsAny(intervals, tick);
      r
  }

  lemma Append(ticks: set<int>, from: int, n: nat)
    requires forall tick :: tick in ticks ==> tick < from
    ensures |ticks + Range(from, n)| == |ticks| + n
  {
    assert ticks * Range(from, n) == {};
  }

  lemma ClipKeeps(intervals: seq<Interval>, from: int, to: int, tick: int)
    requires from <= tick < to && RunsAny(intervals, tick)
    ensures RunsAny(SortByStart(Clipped(intervals, from, to)), tick)
  {
    var i :| i in intervals && Runs(i, tick);
    var c := Clip(i, from, to);
    assert c in Clipped(intervals, from, to) && Runs(c, tick);
  }

  lemma ClipAdds(intervals: seq<Interval>, from: int, to: int, tick: int)
    requires RunsAny(SortByStart(Clipped(intervals, from, to)), tick)
    ensures from <= tick < to && RunsAny(intervals, tick)
  {
    var c :| c in SortByStart(Clipped(intervals, from, to)) && Runs(c, tick);
    var i :| i in intervals && c == Clip(i, from, to);
    assert Runs(i, tick);
  }

  /** Clipping, dropping what is empty and sorting cover just the ticks to measure. */
  lemma ClippedCover(intervals: seq<Interval>, from: int, to: int)
    ensures Ticks(SortByStart(Clipped(intervals, from, to))) == Covered(intervals, from, to)
  {
    hide RunsAny, SortByStart, Clipped, Ticks;
    var r := SortByStart(Clipped(intervals, from, to));
    forall tick ensures tick in Ticks(r) <==> tick in Covered(intervals, from, to) {
      if RunsAny(r, tick) { ClipAdds(intervals, from, to, tick); }
      if tick in Covered(intervals, from, to) { ClipKeeps(intervals, from, to, tick); }
    }
  }

  function RunLength(runStart: int, runEnd: Option<int>): int {
    if runEnd.Some? && runEnd.value - runStart > 0 then runEnd.value - runStart else 0
  }

  /** What is covered before the run, and the run [runStart, runEnd) itself, which is the last of the ticks. */
  ghost predicate EndsInRun(ticks: set<int>, covered: int, runStart: int, runEnd: int) {
    && runStart < runEnd && |ticks| == covered + (runEnd - runStart)
    && (forall tick :: tick in ticks ==> tick < runEnd)
    && (forall tick :: runStart <= tick < runEnd ==> tick in ticks)
  }

  ghost predicate Swept(done: seq<Interval>, covered: int, runStart: int, runEnd: Option<int>) {
    if runEnd.None? then done == [] && covered == 0
    else
      && done != [] && runStart <= done[|done| - 1].startMs
      && EndsInRun(Ticks(done), covered, runStart, runEnd.value)
  }

  lemma RunAfterGap(ticks: set<int>, covered: int, from: int, n: nat)
    requires 0 < n && |ticks| == covered && forall tick :: tick in ticks ==> tick < from
    ensures EndsInRun(ticks + Range(from, n), covered, from, from + n)
  {
    hide Range;
    Append(ticks, from, n);
  }

  lemma RunWithoutGap(ticks: set<int>, covered: int, runStart: int, runEnd: int, from: int, n: nat)
    requires EndsInRun(ticks, covered, runStart, runEnd) && runStart <= from <= runEnd
    ensures EndsInRun(ticks + Range(from, n), covered, runStart, Max(runEnd, from + n))
  {
    hide Range;
    var more := Max(0, from + n - runEnd);
    Append(ticks, runEnd, more);
    assert ticks + Range(from, n) == ticks + Range(runEnd, more);
  }

  lemma TicksAppend(done: seq<Interval>, i: Interval)
    requires i.startMs < i.endMs
    ensures Ticks(done + [i]) == Ticks(done) + Range(i.startMs, i.endMs - i.startMs)
  {
    hide RunsAny;
    assert (done + [i])[..|done|] == done;
  }

  /** A gap before the next interval ends the run. */
  lemma RunEnds(done: seq<Interval>, i: Interval, covered: int, runStart: int, runEnd: Option<int>)
    requires Swept(done, covered, runStart, runEnd) && i.startMs < i.endMs
    requires runEnd.Some? ==> runEnd.value < i.startMs
    ensures Swept(done + [i], covered + RunLength(runStart, runEnd), i.startMs, Some(i.endMs))
  {
    hide RunsAny, Ticks, Range;
    TicksAppend(done, i);
    if runEnd.None? { EmptyTicks(); }
    RunAfterGap(Ticks(done), covered + RunLength(runStart, runEnd), i.startMs, i.endMs - i.startMs);
  }

  lemma EmptyTicks()
    ensures Ticks([]) == {}
  {
  }

  /** An interval that starts within the run, or at its end, extends it. */
  lemma RunGoesOn(done: seq<Interval>, i: Interval, covered: int, runStart: int, runEnd: int)
    requires Swept(done, covered, runStart, Some(runEnd)) && i.startMs < i.endMs
    requires done[|done| - 1].startMs <= i.startMs <= runEnd
    ensures Swept(done + [i], covered, runStart, Some(Max(runEnd, i.endMs)))
  {
    hide RunsAny, Ticks, Range, EndsInRun;
    TicksAppend(done, i);
    RunWithoutGap(Ticks(done), covered, runStart, runEnd, i.startMs, i.endMs - i.startMs);
  }

  lemma SweptMeasure(done: seq<Interval>, covered: int, runStart: int, runEnd: Option<int>)
    requires Swept(done, covered, runStart, runEnd)
    ensures |Ticks(done)| == covered + RunLength(runStart, runEnd)
    ensures runEnd.Some? <==> done != []
  {
  }

  /** The measure of the union, whatever the order, overlaps or number of the intervals, and for an empty [from, to) too. */
  method UnionMs(intervals: seq<Interval>, from: int, to: int) returns (ms: int)
    ensures ms == |Covered(intervals, from, to)|
  {
    hide Swept, Ticks, RunsAny, Covered, Runs, SortByStart, Clipped;
    var clipped := SortByStart(Clipped(intervals, from, to));
    var covered := 0;
    var runStart := 0;
    var runEnd: Option<int> := None; // -Infinity
    NothingSwept();
    for i := 0 to |clipped|
      invariant Swept(clipped[..i], covered, runStart, runEnd)
    {
      var startMs, endMs := clipped[i].startMs, clipped[i].endMs;
      assert clipped[i] in clipped;
      assert clipped[..i + 1] == clipped[..i] + [clipped[i]];
      SweptMeasure(clipped[..i], covered, runStart, runEnd);
      if runEnd.None? || startMs > runEnd.value {
        RunEnds(clipped[..i], clipped[i], covered, runStart, runEnd);
        covered := covered + RunLength(runStart, runEnd);
        runStart := startMs;
        runEnd := Some(endMs);
      } else {
        RunGoesOn(clipped[..i], clipped[i], covered, runStart, runEnd.value);
        if endMs > runEnd.value { runEnd := Some(endMs); }
      }
    }
    assert clipped[..|clipped|] == clipped;
    SweptMeasure(clipped, covered, runStart, runEnd);
    ClippedCover(intervals, from, to);
    ms := covered + RunLength(runStart, runEnd);
  }

  lemma NothingSwept()
    ensures Swept([], 0, 0, None)
  {
  }

  // ----- the summary -----

  function Of(calls: seq<Interval>, upstream: Upstream): (r: seq<Interval>)
    ensures forall i :: i in r <==> i in calls && i.upstream == upstream
  {
    if calls == [] then []
    else if calls[0].upstream == upstream then [calls[0]] + Of(calls[1..], upstream)
    else Of(calls[1..], upstream)
  }

  lemma CoverSplits(calls: seq<Interval>, from: int, to: int)
    ensures var all, vanilla, frm := Covered(calls, from, to), Covered(Of(calls, Vanilla), from, to), Covered(Of(calls, Frm), from, to);
            && all == vanilla + frm
            && |vanilla| <= |all| && |frm| <= |all| && |all| <= |vanilla| + |frm|
            && |all| <= Max(0, to - from)
  {
    var all, vanilla, frm := Covered(calls, from, to), Covered(Of(calls, Vanilla), from, to), Covered(Of(calls, Frm), from, to);
    forall tick | tick in all ensures tick in vanilla || tick in frm {
      var i :| i in calls && Runs(i, tick);
      assert i in Of(calls, i.upstream);
    }
    SubsetSize(vanilla, all);
    SubsetSize(frm, all);
    SubsetSize(all, Range(from, Max(0, to - from)));
  }

  /** A request's time, split: every tick of it is either the game server's or this app's. */
  method Summarize(timing: RequestTiming, nowMs: int) returns (s: Summary)
    ensures s.totalMs == Max(0, nowMs - timing.startMs)
    ensures s.upstreamMs == |Covered(timing.calls, timing.startMs, nowMs)|
    ensures s.vanillaMs == |Covered(Of(timing.calls, Vanilla), timing.startMs, nowMs)|
    ensures s.frmMs == |Covered(Of(timing.calls, Frm), timing.startMs, nowMs)|
    ensures s.appMs >= 0 && s.upstreamMs + s.appMs == s.totalMs
    ensures s.vanillaMs <= s.upstreamMs && s.frmMs <= s.upstreamMs <= s.vanillaMs + s.frmMs
    ensures s.upstreamCalls == timing.callCount
  {
    var totalMs := Max(0, nowMs - timing.startMs);
    var upstreamMs := UnionMs(timing.calls, timing.startMs, nowMs);
    var vanillaMs := UnionMs(Of(timing.calls, Vanilla), timing.startMs, nowMs);
    var frmMs := UnionMs(Of(timing.calls, Frm), timing.startMs, nowMs);
    CoverSplits(timing.calls, timing.startMs, nowMs);
    s := Summary(totalMs, upstreamMs, Max(0, totalMs - upstreamMs), vanillaMs, frmMs, timing.callCount);
  }

  /** One request's timer. `reported` is every call reported to it. */
  class RequestTiming {
    const startMs: int
    var calls: seq<Interval>
    var callCount: nat
    ghost var reported: seq<Interval>

    ghost predicate Valid()
      reads this
    {
      callCount == |reported| && calls == reported[..Min(|reported|, MAX_STORED_CALLS)]
    }

    constructor (startMs: int)
      ensures Valid() && this.startMs == startMs && reported == []
    {
      this.startMs := startMs;
      calls, callCount, reported := [], 0, [];
    }
  }

  /** Outside a request there is no timer, and nothing is recorded. */
  method RecordUpstreamCall(timing: RequestTiming?, call: Interval)
    requires timing != null ==> timing.Valid()
    modifies if timing == null then {} else {timing}
    ensures timing != null ==> timing.Valid() && timing.reported == old(timing.reported) + [call]
  {
    if timing == null { return; }
    timing.callCount := timing.callCount + 1;
    if |timing.calls| < MAX_STORED_CALLS { timing.calls := timing.calls + [call]; }
    timing.reported := timing.reported + [call];
  }

  /** What is reported past the stored calls is missing from the union and never adds to it; up to them nothing is missing. */
  lemma StoredCallsUnderReport(reported: seq<Interval>, from: int, to: int)
    ensures var stored := reported[..Min(|reported|, MAX_STORED_CALLS)];
            && Covered(stored, from, to) <= Covered(reported, from, to)
            && |Covered(stored, from, to)| <= |Covered(reported, from, to)|
            && (|reported| <= MAX_STORED_CALLS ==> stored == reported)
  {
    var stored := reported[..Min(|reported|, MAX_STORED_CALLS)];
    forall tick | tick in Covered(stored, from, to) ensures tick in Covered(reported, from, to) {
      var i :| i in stored && Runs(i, tick);
      assert i in reported;
    }
    SubsetSize(Covered(stored, from, to), Covered(reported, from, to));
  }
}
