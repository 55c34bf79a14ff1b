/**
 * One read at a time (server-manager/src/refresher.ts). Reads are numbered as they start. A settled read and the follow-up
 * queued on it are two steps, as they are two microtasks: a refresh may come between them.
 */
module Refreshing {
  import opened Wrappers

  /** The follow-up queued on the read `after`; `settled` once that read has ended and the follow-up is about to run. */
  datatype FollowUp = FollowUp(after: nat, settled: bool)

  /** One refresh: how many reads had started when it was asked, the read then running, and whether it came in the gap
      between a settled read and its follow-up while another read had already begun. */
  datatype Ask = Ask(anew: bool, started: nat, during: Option<nat>, inGap: bool)

  datatype State = State(
    current: Option<nat>,
    next: Option<FollowUp>,
    started: nat,
    running: set<nat>,
    asks: seq<Ask>,
    waiting: seq<nat>,
    answered: map<nat, nat>,
    followUps: map<nat, nat>)

  const INITIAL: State := State(None, None, 0, {}, [], [], map[], map[])

  function Start(s: State): State {
    s.(current := Some(s.started), running := s.running + {s.started}, started := s.started + 1)
  }

  function AskOf(s: State, anew: bool): Ask {
    Ask(anew, s.started, s.current, s.next.Some? && s.next.value.settled && s.current.Some?)
  }

  /** A refresh, and the read its promise follows when that is known already. */
  function Refresh(s: State, anew: bool): State {
    var id := |s.asks|;
    var s1 := s.(asks := s.asks + [AskOf(s, anew)]);
    if s.current.None? then Start(s1).(answered := s.answered[id := s.started])
    else if !anew then s1.(answered := s.answered[id := s.current.value])
    else
      s1.(next := if s.next.None? then Some(FollowUp(s.current.value, false)) else s.next, waiting := s.waiting + [id])
  }

  /** The read ends, well or not, and `finally` clears it. */
  function Settle(s: State, read: nat): State {
    if read !in s.running then s
    else
      s.(running := s.running - {read},
         current := if s.current == Some(read) then None else s.current,
         next := if s.next.Some? && s.next.value.after == read then Some(FollowUp(read, true)) else s.next)
  }

  /** The queued callback: the read that is running, or a new one. */
  function Follow(s: State): State {
    if s.next.None? || !s.next.value.settled then s
    else
      var s1 := if s.current.Some? then s else Start(s);
      var read := s1.current.value;
      s1.(next := None, waiting := [], answered := s.answered + (map id | id in s.waiting :: read),
          followUps := s.followUps[s.next.value.after := read])
  }

  datatype Event = Refreshed(anew: bool) | Settled(read: nat) | Followed

  function Step(s: State, e: Event): State {
    match e
    case Refreshed(anew) => Refresh(s, anew)
    case Settled(read) => Settle(s, read)
    case Followed => Follow(s)
  }

  function Run(events: seq<Event>): State {
    if events == [] then INITIAL else Step(Run(events[..|events| - 1]), events[|events| - 1])
  }

  // ----- what every run keeps -----

  /** Read by read: at most the current one is running, and the follow-up waits for it or is about to run. */
  ghost predicate ReadsOk(s: State) {
    && (forall r :: r in s.running <==> s.current == Some(r))
    && (s.current.Some? ==> s.current.value + 1 == s.started)
    && (s.next.Some? && !s.next.value.settled ==> s.current == Some(s.next.value.after))
    && (s.next.Some? && s.next.value.settled ==>
          s.next.value.after < s.started && s.current != Some(s.next.value.after))
    && (s.next.Some? ==> s.next.value.after !in s.followUps)
    && (forall r :: r in s.followUps ==> r < s.started && s.current != Some(r))
  }

  /** A fresh refresh waits for the follow-up of the read it was asked during, unless it came in the gap. */
  ghost predicate WaiterOk(s: State, id: nat) {
    && id < |s.asks| && id !in s.answered && s.next.Some?
    && var a := s.asks[id];
    && a.anew && a.during.Some? && a.started == a.during.value + 1 <= s.started
    && if a.inGap then s.next.value.settled else a.during.value == s.next.value.after
  }

  ghost predicate AnswerOk(s: State, id: nat)
    requires id in s.answered
  {
    && id < |s.asks|
    && var a := s.asks[id];
    && a.started <= s.started && s.answered[id] < s.started
    && (a.anew && !a.inGap ==> a.started <= s.answered[id])
    && (a.anew && a.during.Some? && !a.inGap ==>
          a.during.value in s.followUps && s.answered[id] == s.followUps[a.during.value])
  }

  ghost predicate Inv(s: State) {
    && ReadsOk(s)
    && (forall id :: id in s.waiting ==> WaiterOk(s, id))
    && (forall id :: id in s.answered ==> AnswerOk(s, id))
    && (forall id :: 0 <= id < |s.asks| ==> id in s.answered || id in s.waiting)
  }

  /** What a step must leave alone for an answer given, or a wait begun, to stay right. */
  ghost predicate Extends(s: State, r: State) {
    && |s.asks| <= |r.asks| && (forall i :: 0 <= i < |s.asks| ==> r.asks[i] == s.asks[i])
    && s.started <= r.started
    && (forall k :: k in s.followUps ==> k in r.followUps && r.followUps[k] == s.followUps[k])
  }

  lemma AnswerStays(s: State, r: State, id: nat)
    requires id in s.answered && AnswerOk(s, id) && Extends(s, r) && id in r.answered && r.answered[id] == s.answered[id]
    ensures AnswerOk(r, id)
  {
  }

  lemma WaiterStays(s: State, r: State, id: nat)
    requires WaiterOk(s, id) && Extends(s, r) && id !in r.answered && r.next.Some?
    requires r.next.value.after == s.next.value.after && (s.next.value.settled ==> r.next.value.settled)
    ensures WaiterOk(r, id)
  {
  }

  lemma AnsweredWasAsked(s: State)
    requires Inv(s)
    ensures forall k :: k in s.answered ==> k < |s.asks|
  {
    forall k | k in s.answered ensures k < |s.asks| {
      assert AnswerOk(s, k);
    }
  }

  lemma RefreshKeeps(s: State, anew: bool)
    requires Inv(s)
    ensures Inv(Refresh(s, anew))
  {
    AnsweredWasAsked(s);
    NewAsk(s, anew);
    RefreshReads(s, anew);
    hide AnswerOk, WaiterOk, ReadsOk, Extends, Refresh;
    var r, id := Refresh(s, anew), |s.asks|;
    forall k | k in s.waiting ensures WaiterOk(r, k) {
      assert WaiterOk(s, k);
      WaiterBefore(s, k);
      WaiterStays(s, r, k);
    }
    forall k | k in s.answered ensures AnswerOk(r, k) {
      assert AnswerOk(s, k);
      AnswerStays(s, r, k);
    }
  }

  /** What a refresh does to the reads, the answers given and those who wait. */
  lemma RefreshReads(s: State, anew: bool)
    requires ReadsOk(s)
    ensures var r, id := Refresh(s, anew), |s.asks|;
            && ReadsOk(r) && Extends(s, r) && |r.asks| == id + 1
            && (forall k :: k in s.answered && k != id ==> k in r.answered && r.answered[k] == s.answered[k])
            && (forall k :: k in r.answered ==> k == id || k in s.answered)
            && (forall k :: k in r.waiting ==> k in s.waiting || (k == id && (id in r.answered ==> id in s.answered)))
            && (forall k :: k in s.waiting ==> k in r.waiting)
            && (id in r.answered || id in r.waiting)
            && (s.next.Some? ==> r.next == s.next)
  {
  }

  lemma WaiterBefore(s: State, id: nat)
    requires WaiterOk(s, id)
    ensures id < |s.asks| && id !in s.answered && s.next.Some?
  {
  }

  lemma NewAsk(s: State, anew: bool)
    requires ReadsOk(s) && |s.asks| !in s.answered
    ensures var r, id := Refresh(s, anew), |s.asks|;
            if id in r.answered then AnswerOk(r, id) else WaiterOk(r, id)
  {
  }

  lemma SettleKeeps(s: State, read: nat)
    requires Inv(s)
    ensures Inv(Settle(s, read))
  {
    var r := Settle(s, read);
    forall k | k in s.waiting ensures WaiterOk(r, k) {
      assert WaiterOk(s, k);
    }
    forall k | k in s.answered ensures AnswerOk(r, k) {
      assert AnswerOk(s, k);
    }
  }

  lemma WaiterAnswered(s: State, id: nat)
    requires ReadsOk(s) && WaiterOk(s, id) && id in s.waiting && s.next.value.settled
    ensures id in Follow(s).answered && AnswerOk(Follow(s), id)
  {
  }

  lemma FollowReads(s: State)
    requires ReadsOk(s)
    ensures ReadsOk(Follow(s)) && Extends(s, Follow(s))
  {
  }

  lemma FollowKeeps(s: State)
    requires Inv(s)
    ensures Inv(Follow(s))
  {
    if s.next.Some? && s.next.value.settled {
      var r := Follow(s);
      FollowReads(s);
      hide AnswerOk, WaiterOk, ReadsOk, Extends;
      forall k | k in s.waiting ensures AnswerOk(r, k) {
        WaiterAnswered(s, k);
      }
      forall k | k in s.answered && k !in s.waiting ensures AnswerOk(r, k) {
        AnswerStays(s, r, k);
      }
    }
  }

  lemma {:induction false} RunKeeps(events: seq<Event>)
    ensures Inv(Run(events))
  {
    if events != [] {
      hide Inv;
      var before := Run(events[..|events| - 1]);
      RunKeeps(events[..|events| - 1]);
      match events[|events| - 1] {
        case Refreshed(anew) => RefreshKeeps(before, anew);
        case Settled(read) => SettleKeeps(before, read);
        case Followed => FollowKeeps(before);
      }
    } else {
      assert Inv(INITIAL);
    }
  }

  // ----- the claims, over every run -----

  /** At most one read runs at a time. */
  lemma OneReadAtATime(events: seq<Event>)
    ensures |Run(events).running| <= 1
  {
    RunKeeps(events);
    var s := Run(events);
    if s.current.Some? {
      assert s.running == {s.current.value};
    } else {
      assert s.running == {};
    }
  }

  /** A fresh refresh not asked in the gap is answered by a read that began at or after it. */
  lemma FreshMeansLater(events: seq<Event>, id: nat)
    requires id in Run(events).answered && id < |Run(events).asks|
    requires Run(events).asks[id].anew && !Run(events).asks[id].inGap
    ensures Run(events).asks[id].started <= Run(events).answered[id]
  {
    hide Run;
    RunKeeps(events);
    assert AnswerOk(Run(events), id);
  }

  /** No refresh is forgotten: one not answered waits for a follow-up that is queued, and running it answers it. */
  lemma EveryRefreshIsAnswered(events: seq<Event>, id: nat)
    requires id < |Run(events).asks| && id !in Run(events).answered
    ensures var s := Run(events);
            && s.next.Some?
            && (!s.next.value.settled ==> s.next.value.after in s.running && Settle(s, s.next.value.after).next.value.settled)
            && (s.next.value.settled ==> id in Follow(s).answered)
  {
    hide Run;
    RunKeeps(events);
    assert WaiterOk(Run(events), id);
  }

  /** The fresh refreshes asked during one read all share its single follow-up read. */
  lemma OneFollowUp(events: seq<Event>, id: nat, other: nat)
    requires id in Run(events).answered && other in Run(events).answered
    requires id < |Run(events).asks| && other < |Run(events).asks|
    requires var a, b := Run(events).asks[id], Run(events).asks[other];
             a.anew && b.anew && !a.inGap && !b.inGap && a.during.Some? && a.during == b.during
    ensures Run(events).answered[id] == Run(events).answered[other] > Run(events).asks[id].during.value
  {
    hide Run;
    RunKeeps(events);
    var s := Run(events);
    assert AnswerOk(s, id) && AnswerOk(s, other);
    StartedAfter(events, id);
  }

  /** A refresh asked while a read runs is asked after that read, the last, has started. */
  lemma {:induction false} StartedAfter(events: seq<Event>, id: nat)
    requires id < |Run(events).asks| && Run(events).asks[id].during.Some?
    ensures Run(events).asks[id].started == Run(events).asks[id].during.value + 1
  {
    if events != [] {
      var n := |events| - 1;
      var before := Run(events[..n]);
      RunKeeps(events[..n]);
      AsksKept(before, events[n], id);
      hide Step, Inv;
      if id < |before.asks| { StartedAfter(events[..n], id); }
    }
  }

  /** A step adds at most the one refresh, asked during the last read when one runs. */
  lemma AsksKept(s: State, e: Event, id: nat)
    requires Inv(s) && id < |Step(s, e).asks|
    ensures var a := Step(s, e).asks[id];
            if id < |s.asks| then a == s.asks[id] else a.during.Some? ==> a.started == a.during.value + 1
  {
    hide WaiterOk, AnswerOk;
  }

  /** In the gap the answer is stale exactly when the read then running is still the one the follow-up finds. */
  lemma StaleInTheGap(events: seq<Event>, id: nat)
    requires var s := Run(events); id in s.waiting && s.next.Some? && s.next.value.settled
    ensures var s := Run(events);
            && id < |s.asks| && id in Follow(s).answered
            && (Follow(s).answered[id] < s.asks[id].started <==> s.current.Some? && s.current == s.asks[id].during)
            && (Follow(s).answered[id] < s.asks[id].started ==> s.asks[id].inGap)
  {
    hide Run;
    RunKeeps(events);
    assert WaiterOk(Run(events), id);
  }

  const GAP: seq<Event> := [Refreshed(false), Refreshed(true), Settled(0), Refreshed(false), Refreshed(true), Followed]

  lemma RunOn(events: seq<Event>, e: Event)
    ensures Run(events + [e]) == Step(Run(events), e)
  {
    assert (events + [e])[..|events|] == events;
  }

  lemma GapBegins()
    ensures var s := Run(GAP[..2]);
            && s.current == Some(0) && s.next == Some(FollowUp(0, false)) && s.started == 1 && |s.asks| == 2
            && s.running == {0}
  {
    assert GAP[..2] == [GAP[0], GAP[1]] && [] + [GAP[0]] == [GAP[0]] && [GAP[0]] + [GAP[1]] == [GAP[0], GAP[1]];
    RunOn([], GAP[0]);
    RunOn([GAP[0]], GAP[1]);
  }

  lemma GapOpens()
    ensures var s := Run(GAP[..4]);
            && s.current == Some(1) && s.next == Some(FollowUp(0, true)) && s.started == 2 && |s.asks| == 3
  {
    GapBegins();
    hide Run;
    RunOn(GAP[..2], GAP[2]);
    RunOn(GAP[..3], GAP[3]);
    assert GAP[..2] + [GAP[2]] == GAP[..3] && GAP[..3] + [GAP[3]] == GAP[..4];
  }

  /** It does happen: the last fresh refresh of GAP, asked after read 1 began, is answered by read 1. */
  lemma GapIsReachable()
    ensures var s := Run(GAP); |s.asks| == 4 && s.asks[3] == Ask(true, 2, Some(1), true) && Get(s.answered, 3) == Some(1)
  {
    hide Run;
    GapOpens();
    RunOn(GAP[..4], GAP[4]);
    RunOn(GAP[..5], GAP[5]);
    assert GAP[..4] + [GAP[4]] == GAP[..5] && GAP[..5] + [GAP[5]] == GAP;
  }

  function Get(answered: map<nat, nat>, id: nat): Option<nat> {
    if id in answered then Some(answered[id]) else None
  }

  /** With the settling read and its follow-up as one step there is no gap, and every fresh refresh is answered by a later read. */
  ghost predicate Prompt(events: seq<Event>) {
    forall i :: 0 <= i < |events| && events[i].Refreshed? ==>
      var s := Run(events[..i]); !(s.next.Some? && s.next.value.settled)
  }

  lemma {:induction false} PromptLeavesNoGap(events: seq<Event>, id: nat)
    requires Prompt(events) && id < |Run(events).asks|
    ensures !Run(events).asks[id].inGap
  {
    var n := |events| - 1;
    var before := Run(events[..n]);
    if id < |before.asks| {
      assert Prompt(events[..n]) by {
        forall i | 0 <= i < n && events[..n][i].Refreshed?
          ensures var s := Run(events[..n][..i]); !(s.next.Some? && s.next.value.settled)
        {
          assert events[..n][..i] == events[..i];
        }
      }
      PromptLeavesNoGap(events[..n], id);
    } else {
      assert events[n].Refreshed?;
    }
  }

  // ----- the closure's variables -----

  class Refresher {
    var current: Option<nat>
    var next: Option<FollowUp>
    ghost var started: nat
    ghost var running: set<nat>
    ghost var asks: seq<Ask>
    ghost var waiting: seq<nat>
    ghost var answered: map<nat, nat>
    ghost var followUps: map<nat, nat>

    ghost function View(): State
      reads this
    {
      State(current, next, started, running, asks, waiting, answered, followUps)
    }

    constructor ()
      ensures View() == INITIAL
    {
      current, next := None, None;
      started, running, asks, waiting, answered, followUps := 0, {}, [], [], map[], map[];
    }

    /** `read` is the number of the read now beginning. */
    method StartRead(read: nat)
      requires read == started
      modifies this
      ensures View() == Start(old(View()))
    {
      current := Some(read);
      running, started := running + {read}, started + 1;
    }

    method Request(anew: bool, read: nat)
      requires read == started
      modifies this
      ensures View() == Refresh(old(View()), anew)
    {
      ghost var id := |asks|;
      asks := asks + [AskOf(View(), anew)];
      if current.None? {
        StartRead(read);
        answered := answered[id := read];
      } else if !anew {
        answered := answered[id := current.value];
      } else {
        if next.None? { next := Some(FollowUp(current.value, false)); }
        waiting := waiting + [id];
      }
    }

    method OnSettled(read: nat)
      requires read in running
      modifies this
      ensures View() == Settle(old(View()), read)
    {
      running := running - {read};
      if current == Some(read) { current := None; }
      if next.Some? && next.value.after == read { next := Some(FollowUp(read, true)); }
    }

    method OnFollowUp(read: nat)
      requires read == started && next.Some? && next.value.settled
      modifies this
      ensures View() == Follow(old(View()))
    {
      var after := next.value.after;
      if current.None? { StartRead(read); }
      next := None;
      ghost var ids := waiting;
      answered := answered + (map id | id in ids :: current.value);
      waiting, followUps := [], followUps[after := current.value];
    }
  }
}
