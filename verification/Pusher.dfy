/** The bounded queue between sampling and pushing: it drops the oldest when full (agent/src/queue.ts). */
module BoundedQueues {
  import opened Wrappers

  /** The last `max` of `items`. */
  function Newest<T>(items: seq<T>, max: nat): (r: seq<T>)
    ensures |r| == if |items| <= max then |items| else max
    ensures r == items[|items| - |r|..]
  {
    if |items| <= max then items else items[|items| - max..]
  }

  class BoundedQueue<T> {
    const max: nat
    var items: seq<T>

    /** The source throws a RangeError for a smaller `max`. */
    constructor (max: nat)
      requires 1 <= max
      ensures this.max == max && items == []
    {
      this.max := max;
      items := [];
    }

    method Push(item: T) returns (dropped: nat)
      requires |items| <= max
      modifies this`items
      ensures items == Newest(old(items) + [item], max)
      ensures dropped == |old(items)| + 1 - |items|
      ensures 1 <= max ==> dropped <= 1
    {
      items := items + [item];
      if |items| <= max { return 0; }
      dropped := |items| - max;
      items := items[dropped..];
    }

    function Peek(): (head: Option<T>)
      reads this
      ensures head.None? <==> items == []
      ensures head.Some? ==> items == [head.value] + items[1..]
    {
      if items == [] then None else Some(items[0])
    }

    method Shift() returns (head: Option<T>)
      modifies this`items
      ensures head == old(Peek())
      ensures items == if old(items) == [] then [] else old(items)[1..]
    {
      head := Peek();
      if items != [] { items := items[1..]; }
    }
  }
}

/**
 * The push loop (agent/src/pusher.ts). A snapshot is its identity: the n-th one enqueued is n. The loop is where it is
 * suspended (`at`); one event is one synchronous segment. `acked`, `refused`, `dropped` and `posts` are history.
 */
module SnapshotPusher {
  import opened Wrappers
  import opened BoundedQueues

  datatype At =
    | Ready                    // about to run the loop's next turn
    | Parked                   // waiting for an enqueue or the stop signal
    | Posting(head: nat)       // `await client.postSnapshot(head)`
    | BackingOff               // `await sleep(delay)`
    | Returned

  datatype Answer = Accepted | AuthRejected | Refused | Transient

  datatype State = State(
    max: nat,
    queue: seq<nat>,
    at: At,
    aborted: bool,
    failures: nat,
    droppedInStreak: nat,
    rejected: nat,
    enqueued: nat,
    answered: seq<nat>,
    acked: set<nat>,
    refused: set<nat>,
    dropped: set<nat>,
    posts: nat,
    authRejected: bool)

  function Initial(max: nat): State {
    State(max, [], Ready, false, 0, 0, 0, 0, [], {}, {}, {}, 0, false)
  }

  /** The oldest `n` of these snapshots. */
  function First(items: seq<nat>, n: nat): set<nat>
    requires n <= |items|
  {
    set x | x in items[..n]
  }

  function Enqueue(s: State): State {
    var queue := Newest(s.queue + [s.enqueued], s.max);
    var lost := |s.queue| + 1 - |queue|;
    s.(queue := queue, enqueued := s.enqueued + 1,
       dropped := s.dropped + First(s.queue + [s.enqueued], lost),
       droppedInStreak := s.droppedInStreak + lost,
       at := if s.at == Parked then Ready else s.at)
  }

  /** One turn of `while (!signal.aborted)`, up to its await. */
  function Turn(s: State): State {
    if s.at != Ready then s
    else if s.aborted then s.(at := Returned)
    else if s.queue == [] then s.(at := Parked)
    else s.(at := Posting(s.queue[0]), posts := s.posts + 1)
  }

  /** Takes the answered snapshot off the queue, unless it has been dropped meanwhile. */
  function Remove(queue: seq<nat>, head: nat): seq<nat> {
    if queue != [] && queue[0] == head then queue[1..] else queue
  }

  function OnAnswer(s: State, a: Answer): State {
    if !s.at.Posting? then s
    else
      var head := s.at.head;
      var queue := Remove(s.queue, head);
      var here := if queue != s.queue then {head} else {};
      match a
      case Accepted =>
        s.(queue := queue, at := Ready, failures := 0,
           droppedInStreak := if s.failures > 0 then 0 else s.droppedInStreak,
           answered := s.answered + [head], acked := s.acked + here)
      case AuthRejected =>
        if s.aborted then s.(at := Returned)
        else s.(at := Returned, aborted := true, authRejected := true)
      case Refused =>
        if s.aborted then s.(at := Returned)
        else s.(queue := queue, at := Ready, rejected := s.rejected + 1, refused := s.refused + here)
      case Transient =>
        if s.aborted then s.(at := Returned) else s.(at := BackingOff, failures := s.failures + 1)
  }

  function SleepEnds(s: State): State {
    if s.at == BackingOff then s.(at := Ready) else s
  }

  /** The stop signal, from outside or another loop's 401. */
  function Abort(s: State): State {
    s.(aborted := true, at := if s.at == Parked then Ready else s.at)
  }

  datatype Event = Enqueued | TurnRuns | Answered(answer: Answer) | Slept | Stopped

  function Step(s: State, e: Event): State {
    match e
    case Enqueued => Enqueue(s)
    case TurnRuns => Turn(s)
    case Answered(a) => OnAnswer(s, a)
    case Slept => SleepEnds(s)
    case Stopped => Abort(s)
  }

  function Run(max: nat, events: seq<Event>): State {
    if events == [] then Initial(max) else Step(Run(max, events[..|events| - 1]), events[|events| - 1])
  }

  // ----- what every run keeps -----

  /** The oldest snapshot still queued, or the next one to come. */
  ghost function Oldest(s: State): int {
    s.enqueued - |s.queue|
  }

  ghost predicate Suffix(s: State) {
    && |s.queue| <= s.max && |s.queue| <= s.enqueued
    && forall i :: 0 <= i < |s.queue| ==> s.queue[i] == Oldest(s) + i
  }

  /** Every snapshot no longer queued has exactly one fate, and no other has one. */
  ghost predicate Accounted(s: State) {
    forall n: nat ::
      && (n in s.acked ==> n !in s.refused && n !in s.dropped)
      && (n in s.refused ==> n !in s.dropped)
      && (n in s.acked || n in s.refused || n in s.dropped <==> n < Oldest(s))
  }

  ghost predicate InOrder(s: State) {
    && (forall i, j :: 0 <= i < j < |s.answered| ==> s.answered[i] < s.answered[j])
    && (forall i :: 0 <= i < |s.answered| ==> s.answered[i] < Oldest(s))
    && (s.at.Posting? ==>
          && s.at.head <= Oldest(s) && s.at.head < s.enqueued
          && s.at.head !in s.acked && s.at.head !in s.refused
          && forall i :: 0 <= i < |s.answered| ==> s.answered[i] < s.at.head)
    && (forall n :: n in s.acked ==> n in s.answered)
  }

  ghost predicate Inv(s: State) {
    && Suffix(s) && Accounted(s) && InOrder(s)
    && (s.at == Parked ==> s.queue == [] && !s.aborted)
    && (s.authRejected ==> s.aborted)
  }

  /** A newer queue that has lost at most its oldest snapshot, which is then dropped. */
  ghost predicate MovedOn(s: State, r: State) {
    && r.acked == s.acked && r.refused == s.refused && r.answered == s.answered && s.enqueued <= r.enqueued
    && (r.at == s.at || (s.at == Parked && r.at == Ready))
    && (|| (Oldest(r) == Oldest(s) && r.dropped == s.dropped)
        || (&& Oldest(r) == Oldest(s) + 1
            && forall n :: n in r.dropped <==> n in s.dropped || n == Oldest(s)))
  }

  lemma EnqueueSuffix(s: State)
    requires Suffix(s)
    ensures var r := Enqueue(s);
            && Suffix(r) && MovedOn(s, r)
            && r.max == s.max && r.aborted == s.aborted && r.authRejected == s.authRejected && r.at != Parked
  {
    var all := s.queue + [s.enqueued];
    assert forall i :: 0 <= i < |all| ==> all[i] == Oldest(s) + i;
    var r := Enqueue(s);
    if |all| <= s.max {
      assert r.dropped == s.dropped by { assert all[..0] == []; }
    } else {
      assert all[..1] == [all[0]];
    }
  }

  lemma MovedOnAccounted(s: State, r: State)
    requires Accounted(s) && MovedOn(s, r)
    ensures Accounted(r)
  {
    hide Oldest;
  }

  lemma MovedOnInOrder(s: State, r: State)
    requires InOrder(s) && MovedOn(s, r)
    ensures InOrder(r)
  {
    hide Oldest;
  }

  lemma EnqueueKeeps(s: State)
    requires Inv(s)
    ensures Inv(Enqueue(s))
  {
    EnqueueSuffix(s);
    hide Newest, Suffix, Enqueue, MovedOn, Accounted, InOrder;
    MovedOnAccounted(s, Enqueue(s));
    MovedOnInOrder(s, Enqueue(s));
  }

  lemma TurnKeeps(s: State)
    requires Inv(s)
    ensures Inv(Turn(s)) && Turn(s).max == s.max
  {
  }

  /** The ends of sleeps and the stop move no snapshot. */
  lemma RestKeeps(s: State)
    requires Inv(s)
    ensures Inv(SleepEnds(s)) && Inv(Abort(s)) && SleepEnds(s).max == s.max && Abort(s).max == s.max
  {
    hide Accounted, InOrder;
    AtRest(s, SleepEnds(s));
    AtRest(s, Abort(s));
  }

  lemma AtRest(s: State, r: State)
    requires Accounted(s) && InOrder(s) && r == s.(at := r.at, aborted := r.aborted) && (r.at == s.at || !r.at.Posting?)
    ensures Accounted(r) && InOrder(r)
  {
  }

  lemma AnswerKeeps(s: State, a: Answer)
    requires Inv(s)
    ensures Inv(OnAnswer(s, a))
  {
    if s.at.Posting? {
      var head, r := s.at.head, OnAnswer(s, a);
      assert Remove(s.queue, head) != s.queue <==> s.queue != [] && head == Oldest(s) by {
        if s.queue != [] && head == Oldest(s) { assert |Remove(s.queue, head)| == |s.queue| - 1; }
      }
      if a == Accepted {
        assert forall n :: n in s.answered ==> n in r.answered;
        assert r.answered[|s.answered|] == head;
      }
    }
  }

  lemma NothingYet(max: nat)
    ensures Inv(Initial(max))
  {
  }

  lemma {:induction false} RunKeeps(max: nat, events: seq<Event>)
    ensures Inv(Run(max, events)) && Run(max, events).max == max
  {
    if events != [] {
      hide Inv, Turn, SleepEnds, Abort, Newest;
      var before := Run(max, events[..|events| - 1]);
      RunKeeps(max, events[..|events| - 1]);
      match events[|events| - 1] {
        case Enqueued => EnqueueKeeps(before);
        case Answered(a) => AnswerKeeps(before, a);
        case TurnRuns => TurnKeeps(before);
        case _ => RestKeeps(before);
      }
    } else {
      NothingYet(max);
    }
  }

  /** The queue is always the newest of everything enqueued, contiguous and in order. */
  lemma QueueIsSuffix(max: nat, events: seq<Event>)
    ensures var s := Run(max, events);
            && |s.queue| <= max
            && forall i :: 0 <= i < |s.queue| ==> s.queue[i] == s.enqueued - |s.queue| + i
  {
    hide Run;
    RunKeeps(max, events);
  }

  /** Conservation: each snapshot enqueued is exactly one of acknowledged, refused, dropped for room, or queued. */
  lemma ExactlyOneFate(max: nat, events: seq<Event>, n: nat)
    requires n < Run(max, events).enqueued
    ensures var s := Run(max, events);
            (if n in s.acked then 1 else 0) + (if n in s.refused then 1 else 0)
            + (if n in s.dropped then 1 else 0) + (if n in s.queue then 1 else 0) == 1
  {
    hide Run;
    RunKeeps(max, events);
    var s := Run(max, events);
    if Oldest(s) <= n { assert s.queue[n - Oldest(s)] == n; }
  }

  /** The backend's acknowledgements come strictly in enqueue order, the ones of heads dropped in flight included. */
  lemma AcksInOrder(max: nat, events: seq<Event>, i: nat, j: nat)
    requires i < j < |Run(max, events).answered|
    ensures Run(max, events).answered[i] < Run(max, events).answered[j] < Run(max, events).enqueued
  {
    hide Run;
    RunKeeps(max, events);
  }

  /** No wake-up is missed: the loop parks only with nothing queued and no stop, and either one makes it run again. */
  lemma NoMissedWakeUp(max: nat, events: seq<Event>)
    requires 1 <= max && Run(max, events).at == Parked
    ensures var s := Run(max, events);
            && s.queue == [] && !s.aborted
            && Enqueue(s).at == Ready && Turn(Enqueue(s)).at == Posting(s.enqueued)
            && Abort(s).at == Ready && Turn(Abort(s)).at == Returned
  {
    hide Run;
    RunKeeps(max, events);
    Woken(Run(max, events));
  }

  lemma Woken(s: State)
    requires 1 <= s.max && s.queue == [] && s.at == Parked && !s.aborted
    ensures Turn(Enqueue(s)).at == Posting(s.enqueued)
  {
    assert s.queue + [s.enqueued] == [s.enqueued];
  }

  /** While a post is in flight its head may be dropped for room; only then does an answer leave the queue alone. */
  lemma AnswerRemovesItsHead(max: nat, events: seq<Event>, a: Answer)
    requires Run(max, events).at.Posting?
    requires !Run(max, events).aborted || a == Accepted
    ensures var s := Run(max, events);
            var r := OnAnswer(s, a);
            && (s.at.head in s.queue <==> s.at.head !in s.dropped)
            && (s.at.head in r.queue <==> s.at.head in s.queue && (a == Transient || a == AuthRejected))
            && (forall n :: n != s.at.head ==> (n in r.queue <==> n in s.queue))
  {
    hide Run;
    RunKeeps(max, events);
    HeadRemoved(Run(max, events), a);
  }

  lemma HeadRemoved(s: State, a: Answer)
    requires Inv(s) && s.at.Posting? && (!s.aborted || a == Accepted)
    ensures var r := OnAnswer(s, a);
            && (s.at.head in s.queue <==> s.at.head !in s.dropped)
            && (s.at.head in r.queue <==> s.at.head in s.queue && (a == Transient || a == AuthRejected))
            && (forall n :: n != s.at.head ==> (n in r.queue <==> n in s.queue))
  {
    var head := s.at.head;
    if head == Oldest(s) {
      assert s.queue[0] == head;
      assert s.queue == [head] + s.queue[1..];
    } else {
      assert head in s.dropped;
    }
  }

  // ----- the loop goes on -----

  lemma NextIs(max: nat, events: seq<Event>, e: Event)
    ensures Run(max, events + [e]) == Step(Run(max, events), e)
  {
    assert (events + [e])[..|events|] == events;
  }

  /** A snapshot enqueued is queued last; with `max` queued already the oldest goes, and no other. */
  lemma DropsOnlyTheOldest(max: nat, events: seq<Event>)
    requires 1 <= max
    ensures var s, r := Run(max, events), Run(max, events + [Enqueued]);
            && r.enqueued == s.enqueued + 1
            && r.queue == (if |s.queue| < max then s.queue else s.queue[1..]) + [s.enqueued]
            && r.dropped == s.dropped + (if |s.queue| < max then {} else {s.queue[0]})
            && r.acked == s.acked && r.refused == s.refused
            && r.at == if s.at == Parked then Ready else s.at
  {
    NextIs(max, events, Enqueued);
    RunKeeps(max, events);
    hide Run, Accounted, InOrder;
    var s := Run(max, events);
    var all := s.queue + [s.enqueued];
    assert all[..0] == [];
    if |s.queue| == max {
      assert all[..1] == [s.queue[0]] && all[1..] == s.queue[1..] + [s.enqueued];
    }
  }

  /**
   * With something queued and no stop, the oldest snapshot is posted: at the loop's next turn, after the wait it is in, or
   * after the wait that follows an answer that failed in passing. The loop is neither parked nor gone.
   */
  lemma KeepsPosting(max: nat, events: seq<Event>)
    requires Run(max, events).queue != [] && !Run(max, events).aborted
    ensures var s := Run(max, events);
            match s.at
            case Ready => Run(max, events + [TurnRuns]).at == Posting(s.queue[0])
            case BackingOff => Run(max, events + [Slept] + [TurnRuns]).at == Posting(s.queue[0])
            case Posting(head) =>
              && head <= s.queue[0]
              && Run(max, events + [Answered(Transient)] + [Slept] + [TurnRuns]).at == Posting(s.queue[0])
              && Run(max, events + [Answered(Transient)]).failures == s.failures + 1
            case _ => false
  {
    NextIs(max, events, TurnRuns);
    NextIs(max, events, Slept);
    NextIs(max, events + [Slept], TurnRuns);
    NextIs(max, events, Answered(Transient));
    NextIs(max, events + [Answered(Transient)], Slept);
    NextIs(max, events + [Answered(Transient)] + [Slept], TurnRuns);
    RunKeeps(max, events);
    ReturnedIsStopped(max, events);
    hide Run, Accounted;
  }

  /** With nothing queued and no stop the loop's next turn parks it, and no post begins. */
  lemma ParksWhenEmpty(max: nat, events: seq<Event>)
    requires Run(max, events).at == Ready && Run(max, events).queue == [] && !Run(max, events).aborted
    ensures Run(max, events + [TurnRuns]) == Run(max, events).(at := Parked)
  {
    NextIs(max, events, TurnRuns);
  }

  lemma {:induction false} ReturnedIsStopped(max: nat, events: seq<Event>)
    ensures Run(max, events).at == Returned ==> Run(max, events).aborted
  {
    if events != [] {
      hide Newest;
      ReturnedIsStopped(max, events[..|events| - 1]);
    }
  }

  /** An answer that settles the snapshot in flight. */
  ghost predicate Settles(s: State, e: Event) {
    s.at.Posting? && (e == Answered(Accepted) || (e == Answered(Refused) && !s.aborted))
  }

  /** How many of the answers from step `from` on settled what was in flight. */
  ghost function Settlements(max: nat, events: seq<Event>, from: nat): nat {
    if |events| <= from then 0
    else
      var n := |events| - 1;
      Settlements(max, events[..n], from) + if Settles(Run(max, events[..n]), events[n]) then 1 else 0
  }

  /** The snapshot in flight, or the oldest queued. */
  ghost function Current(s: State): int {
    if s.at.Posting? then s.at.head else Oldest(s)
  }

  lemma EnqueueAdvances(s: State)
    requires Inv(s)
    ensures Current(s) <= Current(Enqueue(s))
  {
    EnqueueSuffix(s);
    hide Enqueue, Accounted, Newest;
  }

  lemma AnswerAdvances(s: State, a: Answer)
    requires Inv(s)
    ensures Current(s) + (if Settles(s, Answered(a)) then 1 else 0) <= Current(OnAnswer(s, a))
  {
    hide Accounted;
    if s.at.Posting? && s.queue != [] { assert s.queue[0] == Oldest(s); }
  }

  lemma StepAdvances(s: State, e: Event)
    requires Inv(s)
    ensures Current(s) + (if Settles(s, e) then 1 else 0) <= Current(Step(s, e))
  {
    hide Enqueue, OnAnswer, Accounted, InOrder;
    match e {
      case Enqueued => EnqueueAdvances(s);
      case Answered(a) => AnswerAdvances(s, a);
      case TurnRuns => if s.queue != [] { assert s.queue[0] == Oldest(s); }
      case _ =>
    }
  }

  lemma {:induction false} Advances(max: nat, events: seq<Event>, from: nat)
    requires from <= |events|
    ensures Current(Run(max, events[..from])) + Settlements(max, events, from) <= Current(Run(max, events))
  {
    if from == |events| {
      assert events[..from] == events;
    } else {
      hide Step, Inv, Settles, Current;
      var n := |events| - 1;
      assert events[..n][..from] == events[..from];
      RunKeeps(max, events[..n]);
      Advances(max, events[..n], from);
      StepAdvances(Run(max, events[..n]), events[n]);
    }
  }

  /**
   * Every snapshot's turn comes: once as many answers have settled a snapshot as there are from the one in flight at `from`
   * up to `n`, `n` is acknowledged, refused or dropped.
   */
  lemma EveryTurnComes(max: nat, events: seq<Event>, from: nat, n: nat)
    requires from <= |events| && n < Run(max, events[..from]).enqueued
    requires n < Current(Run(max, events[..from])) + Settlements(max, events, from)
    ensures var s := Run(max, events); n !in s.queue && (n in s.acked || n in s.refused || n in s.dropped)
  {
    hide Run, Settlements;
    Advances(max, events, from);
    RunKeeps(max, events);
    CurrentIsOldest(Run(max, events));
  }

  lemma CurrentIsOldest(s: State)
    requires Inv(s)
    ensures Current(s) <= Oldest(s)
  {
  }

  // ----- each fate is an event's -----

  /** The snapshots answered so while in flight and still queued. */
  ghost function AnsweredSo(max: nat, events: seq<Event>, a: Answer): set<nat> {
    if events == [] then {}
    else
      var n := |events| - 1;
      var s := Run(max, events[..n]);
      AnsweredSo(max, events[..n], a)
        + if events[n] == Answered(a) && Settles(s, events[n]) && s.at.head in s.queue then {s.at.head} else {}
  }

  /** How many snapshots were refused, and how many posts failed in passing since the last acknowledgement. */
  ghost function Refusals(max: nat, events: seq<Event>): nat {
    if events == [] then 0
    else
      var n := |events| - 1;
      Refusals(max, events[..n]) + if events[n] == Answered(Refused) && Settles(Run(max, events[..n]), events[n]) then 1 else 0
  }

  ghost function FailuresInARow(max: nat, events: seq<Event>): nat {
    if events == [] then 0
    else
      var n := |events| - 1;
      var s := Run(max, events[..n]);
      if !s.at.Posting? then FailuresInARow(max, events[..n])
      else if events[n] == Answered(Accepted) then 0
      else FailuresInARow(max, events[..n]) + if events[n] == Answered(Transient) && !s.aborted then 1 else 0
  }

  /** How many posts began. */
  ghost function PostsBegun(max: nat, events: seq<Event>): nat {
    if events == [] then 0
    else
      var n := |events| - 1;
      var s := Run(max, events[..n]);
      PostsBegun(max, events[..n]) + if events[n] == TurnRuns && s.at == Ready && !s.aborted && s.queue != [] then 1 else 0
  }

  /** How many snapshots were dropped since the last acknowledgement that ended a row of failures. */
  ghost function LostInARow(max: nat, events: seq<Event>): nat {
    if events == [] then 0
    else
      var n := |events| - 1;
      var s := Run(max, events[..n]);
      if events[n] == Answered(Accepted) && s.at.Posting? && FailuresInARow(max, events[..n]) > 0 then 0
      else LostInARow(max, events[..n]) + if events[n] == Enqueued && |s.queue| >= max then 1 else 0
  }

  lemma StepCounts(s: State, e: Event)
    requires Inv(s)
    ensures var r := Step(s, e);
            && r.posts == s.posts + (if e == TurnRuns && s.at == Ready && !s.aborted && s.queue != [] then 1 else 0)
            && r.droppedInStreak ==
                 (if e == Answered(Accepted) && s.at.Posting? && s.failures > 0 then 0
                  else s.droppedInStreak + if e == Enqueued && |s.queue| >= s.max then 1 else 0)
  {
    hide Accounted, InOrder;
  }

  /** The loop counts its posts, and what it will report as lost. */
  lemma {:induction false} CountsAreEvents(max: nat, events: seq<Event>)
    ensures var s := Run(max, events);
            s.posts == PostsBegun(max, events) && s.droppedInStreak == LostInARow(max, events)
  {
    if events != [] {
      hide Step, Inv;
      var n := |events| - 1;
      CountsAreEvents(max, events[..n]);
      FatesAreAnswers(max, events[..n]);
      RunKeeps(max, events[..n]);
      StepCounts(Run(max, events[..n]), events[n]);
    }
  }

  lemma StepFates(s: State, e: Event)
    requires Inv(s)
    ensures var r := Step(s, e);
            var here := if s.at.Posting? && s.at.head in s.queue then {s.at.head} else {};
            && r.acked == s.acked + (if e == Answered(Accepted) then here else {})
            && r.refused == s.refused + (if e == Answered(Refused) && Settles(s, e) then here else {})
            && r.rejected == s.rejected + (if e == Answered(Refused) && Settles(s, e) then 1 else 0)
            && r.failures ==
                 (if !s.at.Posting? then s.failures
                  else if e == Answered(Accepted) then 0
                  else s.failures + if e == Answered(Transient) && !s.aborted then 1 else 0)
  {
    hide Accounted, Newest;
    if s.at.Posting? && s.at.head in s.queue {
      var i :| 0 <= i < |s.queue| && s.queue[i] == s.at.head;
      assert i == 0 && |s.queue[1..]| != |s.queue|;
    }
  }

  /** What was acknowledged, or refused, is what was answered so; and the loop counts its refusals and failures. */
  lemma {:induction false} FatesAreAnswers(max: nat, events: seq<Event>)
    ensures var s := Run(max, events);
            && s.acked == AnsweredSo(max, events, Accepted) && s.refused == AnsweredSo(max, events, Refused)
            && s.rejected == Refusals(max, events) && s.failures == FailuresInARow(max, events)
  {
    if events != [] {
      hide Step, Inv;
      var n := |events| - 1;
      FatesAreAnswers(max, events[..n]);
      RunKeeps(max, events[..n]);
      StepFates(Run(max, events[..n]), events[n]);
    }
  }

  // ----- the object itself -----

  class Pusher {
    const queue: BoundedQueue<nat>
    var at: At
    var aborted: bool
    var failures: nat
    var droppedInStreak: nat
    var rejected: nat
    ghost var enqueued: nat
    ghost var answered: seq<nat>
    ghost var acked: set<nat>
    ghost var refused: set<nat>
    ghost var dropped: set<nat>
    ghost var posts: nat
    ghost var authRejected: bool

    ghost function View(): State
      reads this, queue
    {
      State(queue.max, queue.items, at, aborted, failures, droppedInStreak, rejected, enqueued, answered, acked, refused,
            dropped, posts, authRejected)
    }

    constructor (queue: BoundedQueue<nat>)
      requires queue.items == []
      ensures this.queue == queue && View() == Initial(queue.max)
    {
      this.queue := queue;
      at, aborted, failures, droppedInStreak, rejected := Ready, false, 0, 0, 0;
      enqueued, answered, acked, refused, dropped, posts, authRejected := 0, [], {}, {}, {}, 0, false;
    }

    method Add(snapshot: nat)
      requires snapshot == enqueued && |queue.items| <= queue.max
      modifies this, queue
      ensures View() == Enqueue(old(View()))
    {
      hide Newest, First;
      ghost var all := queue.items + [snapshot];
      var lost := queue.Push(snapshot);
      droppedInStreak := droppedInStreak + lost;
      dropped := dropped + First(all, lost);
      enqueued := enqueued + 1;
      if at == Parked { at := Ready; }
    }

    method RunTurn()
      modifies this
      ensures View() == Turn(old(View()))
    {
      if at != Ready { return; }
      if aborted { at := Returned; return; }
      var head := queue.Peek();
      if head.None? { at := Parked; return; }
      posts := posts + 1;
      at := Posting(head.value);
    }

    method RemoveHead(head: nat)
      modifies queue
      ensures queue.items == Remove(old(queue.items), head)
    {
      if queue.Peek() == Some(head) { var _ := queue.Shift(); }
    }

    method Acknowledged(head: nat)
      requires at == Posting(head)
      modifies this, queue
      ensures View() == OnAnswer(old(View()), Accepted)
    {
      ghost var before := queue.items;
      RemoveHead(head);
      if failures > 0 { failures, droppedInStreak := 0, 0; }
      answered := answered + [head];
      acked := acked + (if queue.items != before then {head} else {});
      at := Ready;
    }

    method RefusedFor(head: nat)
      requires at == Posting(head) && !aborted
      modifies this, queue
      ensures View() == OnAnswer(old(View()), Refused)
    {
      ghost var before := queue.items;
      RemoveHead(head);
      rejected := rejected + 1;
      refused := refused + (if queue.items != before then {head} else {});
      at := Ready;
    }

    method AfterPost(a: Answer)
      modifies this, queue
      ensures View() == OnAnswer(old(View()), a)
    {
      hide Remove;
      if !at.Posting? { return; }
      if a == Accepted { Acknowledged(at.head); return; }
      if aborted { at := Returned; return; }
      match a {
        case AuthRejected => aborted, authRejected, at := true, true, Returned;
        case Refused => RefusedFor(at.head);
        case Transient => failures, at := failures + 1, BackingOff;
      }
    }

    method AfterSleep()
      modifies this
      ensures View() == SleepEnds(old(View()))
    {
      if at == BackingOff { at := Ready; }
    }

    method OnStop()
      modifies this
      ensures View() == Abort(old(View()))
    {
      aborted := true;
      if at == Parked { at := Ready; }
    }
  }
}
