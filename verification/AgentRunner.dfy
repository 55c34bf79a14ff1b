/**
 * The agent's loops under one stop signal (agent/src/agentRunner.ts): sampling, pushing, commands and one loop per world
 * layer, interleaved freely, one synchronous segment a step. A 401 that a loop acts on stops them all.
 */
module AgentRuns {
  import Push = SnapshotPusher
  import Commands = CommandLoop
  import World = WorldLayers
  import opened Wrappers
  import BoundedQueues
  import CommandBooks
  import CommandLedgers

  const QUEUE_MAX_SNAPSHOTS: nat := 120

  datatype Outcome = Stopped | AuthRejected

  datatype SampleAt = SampleReady | Sampling | SampleAsleep | SampleReturned

  datatype Agent = Agent(
    stop: bool,
    outcome: Outcome,
    sample: SampleAt,
    push: Push.State,
    commands: Commands.State,
    world: seq<World.State>)

  datatype Event =
    | SampleTurn
    | Sampled(buildings: Option<int>)
    | SampleFailed
    | SampleSlept
    | PushTurn
    | PushAnswered(answer: Push.Answer, commandsPending: bool)
    | PushSlept
    | CommandSegment(segment: Commands.Event)
    | LayerSegment(layer: nat, now: int, event: World.Event)
    | StopFromOutside

  /** `runAgent` up to its first await; a signal aborted before it starts no loop. */
  function Start(aborted: bool, queueMax: nat, ledgerMax: nat, layers: seq<World.Layer>): Agent {
    var push, commands, world := Push.Initial(queueMax), Commands.Initial(ledgerMax), seq(|layers|, _ => World.INITIAL);
    if aborted then
      Agent(true, Stopped, SampleReturned, push.(at := Push.Returned, aborted := true),
            commands.(at := Commands.Returned, aborted := true),
            seq(|layers|, _ => World.INITIAL.(at := World.Returned, aborted := true)))
    else Agent(false, Stopped, SampleReady, push, commands, world)
  }

  function StopAll(a: Agent): (r: Agent)
    ensures |r.world| == |a.world|
    ensures forall i :: 0 <= i < |a.world| ==> r.world[i] == World.Abort(a.world[i])
  {
    a.(stop := true, push := Push.Abort(a.push), commands := Commands.Abort(a.commands),
       world := seq(|a.world|, i requires 0 <= i < |a.world| => World.Abort(a.world[i])))
  }

  /** `onAuthRejected` */
  function OnAuthRejected(a: Agent): Agent {
    StopAll(a).(outcome := AuthRejected)
  }

  function WithPush(a: Agent, push: Push.State): Agent {
    var r := a.(push := push);
    if push.authRejected && !a.push.authRejected then OnAuthRejected(r) else r
  }

  function WithCommands(a: Agent, commands: Commands.State): Agent {
    var r := a.(commands := commands);
    if commands.authRejected && !a.commands.authRejected then OnAuthRejected(r) else r
  }

  function WithLayer(a: Agent, i: nat, layer: World.State): Agent
    requires i < |a.world|
  {
    var r := a.(world := a.world[i := layer]);
    if layer.authRejected && !a.world[i].authRejected then OnAuthRejected(r) else r
  }

  /** The building ids of a snapshot reach the nudgeable layer's loop. */
  function Observed(layers: seq<World.Layer>, world: seq<World.State>, hash: int): (r: seq<World.State>)
    requires |layers| == |world|
    ensures |r| == |world|
    ensures forall i :: 0 <= i < |r| ==> r[i] == if layers[i].nudgeable then World.Observe(world[i], hash) else world[i]
  {
    seq(|world|, i requires 0 <= i < |world| =>
      if layers[i].nudgeable then World.Observe(world[i], hash) else world[i])
  }

  function SampleSegment(layers: seq<World.Layer>, a: Agent, e: Event): Agent
    requires |layers| == |a.world|
  {
    match e
    case SampleTurn =>
      if a.sample != SampleReady then a else a.(sample := if a.stop then SampleReturned else Sampling)
    case Sampled(buildings) =>
      if a.sample != Sampling then a
      else
        a.(sample := SampleAsleep, push := Push.Enqueue(a.push),
           world := if buildings.Some? then Observed(layers, a.world, buildings.value) else a.world)
    case SampleFailed => if a.sample != Sampling then a else a.(sample := SampleAsleep)
    case _ => if a.sample != SampleAsleep then a else a.(sample := SampleReady)
  }

  function PushSegment(a: Agent, e: Event): Agent {
    match e
    case PushTurn => WithPush(a, Push.Turn(a.push))
    case PushAnswered(answer, commandsPending) =>
      var r := WithPush(a, Push.OnAnswer(a.push, answer));
      if a.push.at.Posting? && answer == Push.Accepted && commandsPending
        then r.(commands := Commands.NotifyPending(r.commands)) else r
    case _ => WithPush(a, Push.SleepEnds(a.push))
  }

  /** A stop, a poke and an observed building set reach a loop only through the others. */
  function Step(layers: seq<World.Layer>, a: Agent, e: Event): Agent
    requires |layers| == |a.world|
  {
    match e
    case PushTurn => PushSegment(a, e)
    case PushAnswered(_, _) => PushSegment(a, e)
    case PushSlept => PushSegment(a, e)
    case CommandSegment(c) => if c.Poked? || c.Stopped? then a else WithCommands(a, Commands.Advance(a.commands, c))
    case LayerSegment(i, now, w) =>
      if |a.world| <= i || w.Observed? || w.Stopped? then a
      else WithLayer(a, i, World.Step(layers[i], a.world[i], w, now))
    case StopFromOutside => StopAll(a)
    case _ => SampleSegment(layers, a, e)
  }

  function Run(layers: seq<World.Layer>, start: Agent, events: seq<Event>): (r: Agent)
    requires |layers| == |start.world|
    ensures |r.world| == |layers|
  {
    if events == [] then start
    else
      var before := Run(layers, start, events[..|events| - 1]);
      KeepsLayers(layers, before, events[|events| - 1]);
      Step(layers, before, events[|events| - 1])
  }

  lemma KeepsLayers(layers: seq<World.Layer>, a: Agent, e: Event)
    requires |layers| == |a.world|
    ensures |Step(layers, a, e).world| == |a.world|
  {
    hide Push.Turn, Push.OnAnswer, Push.SleepEnds, Push.Enqueue, Commands.Advance, World.Step, World.Observe, Push.Abort;
  }

  // ----- 401s -----

  /** A 401 answers a request in flight. */
  predicate Gets401(a: Agent, e: Event) {
    match e
    case PushAnswered(answer, _) => a.push.at.Posting? && answer == Push.AuthRejected
    case CommandSegment(PollError(answer)) => a.commands.at.Polling? && answer == Commands.AuthRejected
    case CommandSegment(Reported(answer, _)) => a.commands.at.Posting? && answer == Commands.AuthRejected
    case LayerSegment(i, _, PostDone(answer, _)) =>
      i < |a.world| && a.world[i].at.Posting? && answer == World.AuthRejected
    case _ => false
  }

  /** A stopped loop ignores its 401, except the one that answers a command's result. */
  predicate ActsOn401(a: Agent, e: Event) {
    Gets401(a, e) && (!a.stop || (e.CommandSegment? && e.segment.Reported?))
  }

  // ----- what every run keeps -----

  ghost predicate Inv(a: Agent) {
    && a.push.aborted == a.stop && a.commands.aborted == a.stop
    && (forall i :: 0 <= i < |a.world| ==> a.world[i].aborted == a.stop && (a.world[i].authRejected ==> a.stop))
    && (a.push.authRejected || a.commands.authRejected || a.outcome == AuthRejected ==> a.stop)
    && (a.push.authRejected ==> a.push.at == Push.Returned)
    && (a.commands.authRejected ==> a.commands.at == Commands.Returned)
    && (a.push.at == Push.Parked ==> !a.stop)
  }

  /** No loop has begun a request between `a` and `b`. */
  ghost predicate SameRequests(a: Agent, b: Agent) {
    && a.push.posts == b.push.posts && a.commands.requests == b.commands.requests
    && |a.world| == |b.world|
    && forall i :: 0 <= i < |a.world| ==> a.world[i].requests == b.world[i].requests
  }

  ghost predicate PushRejects(s: Push.State, e: Push.Event) {
    s.at.Posting? && e == Push.Answered(Push.AuthRejected) && !s.aborted
  }

  /** What the stop signal and a 401 do to the push loop, and that a stopped one asks for nothing. */
  lemma PushStops(s: Push.State, e: Push.Event)
    requires e.TurnRuns? || e.Answered? || e.Slept? || e.Enqueued?
    requires s.at == Push.Parked ==> !s.aborted
    requires s.authRejected ==> s.at == Push.Returned && s.aborted
    ensures var r := Push.Step(s, e);
            && (s.aborted ==> r.posts == s.posts)
            && (r.authRejected <==> s.authRejected || PushRejects(s, e))
            && (r.aborted <==> s.aborted || PushRejects(s, e))
            && (r.authRejected ==> r.at == Push.Returned)
            && (r.at == Push.Parked ==> !r.aborted)
  {
    hide BoundedQueues.Newest;
  }

  ghost predicate CommandRejects(s: Commands.State, e: Commands.Event) {
    || (s.at.Polling? && e == Commands.PollError(Commands.AuthRejected) && !s.aborted)
    || (s.at.Posting? && e.Reported? && e.answer == Commands.AuthRejected)
  }

  lemma CommandsStop(s: Commands.State, e: Commands.Event)
    requires !e.Poked? && !e.Stopped?
    requires s.authRejected ==> s.at == Commands.Returned && s.aborted
    ensures var r := Commands.Advance(s, e);
            && (s.aborted ==> r.requests == s.requests)
            && (r.authRejected <==> s.authRejected || CommandRejects(s, e))
            && (r.aborted <==> s.aborted || CommandRejects(s, e))
            && (r.authRejected ==> r.at == Commands.Returned)
  {
    hide CommandBooks.Step, CommandBooks.VerdictFor;
  }

  ghost predicate LayerRejects(s: World.State, e: World.Event) {
    s.at.Posting? && e.PostDone? && e.answer == World.AuthRejected && !s.aborted
  }

  /** A segment that neither hears a 401 nor, once stopped, begins a request. */
  ghost predicate Quiet(s: World.State, r: World.State) {
    r.aborted == s.aborted && r.authRejected == s.authRejected && (s.aborted ==> r.requests == s.requests)
  }

  lemma ReadQuiet(l: World.Layer, s: World.State, read: World.ReadResult, delayMs: int, now: int)
    ensures Quiet(s, World.ReadSettled(l, s, read, delayMs, now))
  {
    hide World.AfterCycle;
    if s.at == World.Reading {
      var s1 := s.(lastRead := read, readFailing := read.ReadFailed?);
      match read {
        case ReadFailed =>
        case ReadSkip(reason) => SendQuiet(l, s1, World.Skipped(reason), delayMs, now);
        case ReadItems(items) => SendQuiet(l, s1.(skipSent := None), World.Data(items), delayMs, now);
      }
    }
  }

  lemma SendQuiet(l: World.Layer, s: World.State, body: World.Body, delayMs: int, now: int)
    ensures Quiet(s, World.Send(l, s, body, delayMs, now)) && Quiet(s, World.CycleDone(l, s, delayMs, now))
  {
    hide World.AfterCycle;
  }

  lemma PostStops(l: World.Layer, s: World.State, answer: World.Answer, delayMs: int, now: int)
    requires s.authRejected ==> s.aborted
    ensures var e, r := World.PostDone(answer, delayMs), World.PostSettled(l, s, answer, delayMs, now);
            if LayerRejects(s, e) then r.aborted && r.authRejected else Quiet(s, r)
  {
    hide World.AfterCycle;
  }

  lemma LayerStops(l: World.Layer, s: World.State, e: World.Event, now: int)
    requires !e.Observed? && !e.Stopped?
    requires s.authRejected ==> s.aborted
    ensures var r := World.Step(l, s, e, now);
            && (s.aborted ==> r.requests == s.requests)
            && (r.authRejected <==> s.authRejected || LayerRejects(s, e))
            && (r.aborted <==> s.aborted || LayerRejects(s, e))
  {
    hide World.AfterCycle, World.Wakes, World.ReadSettled, World.PostSettled, World.Send;
    var s1 := s.(clock := now);
    match e {
      case ReadDone(read, delayMs) => ReadQuiet(l, s1, read, delayMs, now);
      case PostDone(answer, delayMs) => PostStops(l, s1, answer, delayMs, now);
      case BackoffDone(delayMs) => if s.at.BackingOff? { SendQuiet(l, s1, s.at.body, delayMs, now); }
      case _ =>
    }
  }

  /** One step keeps the invariant; a stop lasts and ends all requests; the outcome records exactly the 401s acted on. */
  ghost predicate Good(a: Agent, e: Event, r: Agent) {
    && Inv(r) && (a.stop ==> r.stop && SameRequests(a, r))
    && (Gets401(a, e) ==> r.stop)
    && (r.outcome == AuthRejected <==> a.outcome == AuthRejected || ActsOn401(a, e))
  }

  lemma StopAllKeeps(a: Agent)
    requires forall i :: 0 <= i < |a.world| ==> a.world[i].authRejected ==> a.world[i].aborted
    requires a.push.authRejected ==> a.push.at == Push.Returned
    requires a.commands.authRejected ==> a.commands.at == Commands.Returned
    ensures Inv(StopAll(a)) && StopAll(a).stop && SameRequests(a, StopAll(a)) && StopAll(a).outcome == a.outcome
    ensures Inv(OnAuthRejected(a)) && OnAuthRejected(a).stop && SameRequests(a, OnAuthRejected(a))
  {
  }

  lemma PushGood(layers: seq<World.Layer>, a: Agent, e: Event)
    requires Inv(a) && |layers| == |a.world| && (e.PushTurn? || e.PushAnswered? || e.PushSlept?)
    ensures Good(a, e, Step(layers, a, e))
  {
    hide Push.Turn, Push.OnAnswer, Push.SleepEnds, StopAll;
    var p := match e case PushTurn => Push.TurnRuns case PushAnswered(x, _) => Push.Answered(x) case _ => Push.Slept;
    PushStops(a.push, p);
    StopAllKeeps(a.(push := Push.Step(a.push, p)));
  }

  lemma CommandGood(layers: seq<World.Layer>, a: Agent, e: Event)
    requires Inv(a) && |layers| == |a.world| && e.CommandSegment?
    ensures Good(a, e, Step(layers, a, e))
  {
    hide Commands.Advance, StopAll;
    if !e.segment.Poked? && !e.segment.Stopped? {
      CommandsStop(a.commands, e.segment);
      StopAllKeeps(a.(commands := Commands.Advance(a.commands, e.segment)));
    }
  }

  lemma LayerGood(layers: seq<World.Layer>, a: Agent, e: Event)
    requires Inv(a) && |layers| == |a.world| && e.LayerSegment?
    ensures Good(a, e, Step(layers, a, e))
  {
    hide World.Step, StopAll;
    var i := e.layer;
    if i < |a.world| && !e.event.Observed? && !e.event.Stopped? {
      var layer := World.Step(layers[i], a.world[i], e.event, e.now);
      LayerStops(layers[i], a.world[i], e.event, e.now);
      StopAllKeeps(a.(world := a.world[i := layer]));
    }
  }

  lemma SampleGood(layers: seq<World.Layer>, a: Agent, e: Event)
    requires Inv(a) && |layers| == |a.world|
    requires e.SampleTurn? || e.Sampled? || e.SampleFailed? || e.SampleSlept?
    ensures Good(a, e, Step(layers, a, e))
  {
    hide BoundedQueues.Newest;
  }

  lemma StepGood(layers: seq<World.Layer>, a: Agent, e: Event)
    requires Inv(a) && |layers| == |a.world|
    ensures Good(a, e, Step(layers, a, e))
  {
    hide Good, Step, StopAll;
    match e {
      case PushTurn => PushGood(layers, a, e);
      case PushAnswered(_, _) => PushGood(layers, a, e);
      case PushSlept => PushGood(layers, a, e);
      case CommandSegment(_) => CommandGood(layers, a, e);
      case LayerSegment(_, _, _) => LayerGood(layers, a, e);
      case StopFromOutside => OutsideGood(layers, a);
      case _ => SampleGood(layers, a, e);
    }
  }

  lemma OutsideGood(layers: seq<World.Layer>, a: Agent)
    requires Inv(a) && |layers| == |a.world|
    ensures Good(a, StopFromOutside, Step(layers, a, StopFromOutside))
  {
    StopAllKeeps(a);
  }

  ghost predicate Fresh(layers: seq<World.Layer>, start: Agent) {
    exists aborted, queueMax, ledgerMax :: start == Start(aborted, queueMax, ledgerMax, layers)
  }

  lemma {:induction false} RunGood(layers: seq<World.Layer>, start: Agent, events: seq<Event>)
    requires Fresh(layers, start) && |layers| == |start.world|
    ensures Inv(Run(layers, start, events))
  {
    if events != [] {
      hide Step;
      RunGood(layers, start, events[..|events| - 1]);
      StepGood(layers, Run(layers, start, events[..|events| - 1]), events[|events| - 1]);
    }
  }

  lemma {:induction false} StopLasts(layers: seq<World.Layer>, start: Agent, events: seq<Event>, i: nat, j: nat)
    requires Fresh(layers, start) && |layers| == |start.world|
    requires i <= j <= |events| && Run(layers, start, events[..i]).stop
    ensures Run(layers, start, events[..j]).stop
    ensures SameRequests(Run(layers, start, events[..i]), Run(layers, start, events[..j]))
  {
    hide Run, Step, Inv, SameRequests, Fresh;
    if i < j {
      var before := events[..j - 1];
      assert events[..j] == before + [events[j - 1]];
      RunOn(layers, start, before, events[j - 1]);
      StopLasts(layers, start, events, i, j - 1);
      RunGood(layers, start, before);
      StepStopped(layers, Run(layers, start, events[..i]), Run(layers, start, before), events[j - 1]);
    } else {
      StillSame(Run(layers, start, events[..i]), Run(layers, start, events[..i]), Run(layers, start, events[..i]));
    }
  }

  lemma StepStopped(layers: seq<World.Layer>, a: Agent, b: Agent, e: Event)
    requires Inv(b) && b.stop && |layers| == |b.world| && SameRequests(a, b)
    ensures Step(layers, b, e).stop && SameRequests(a, Step(layers, b, e))
  {
    hide Step, Inv, SameRequests, Gets401, ActsOn401;
    StepGood(layers, b, e);
    StillSame(a, b, Step(layers, b, e));
  }

  lemma StillSame(a: Agent, b: Agent, c: Agent)
    ensures SameRequests(a, a)
    ensures SameRequests(a, b) && SameRequests(b, c) ==> SameRequests(a, c)
  {
  }

  // ----- the claims, over every run -----

  /** After the first 401 in any loop, and after a stop, no loop begins another backend request. */
  lemma NoRequestAfter401(layers: seq<World.Layer>, start: Agent, events: seq<Event>, i: nat, j: nat)
    requires Fresh(layers, start) && |layers| == |start.world|
    requires i < j <= |events|
    requires Gets401(Run(layers, start, events[..i]), events[i]) || Run(layers, start, events[..i + 1]).stop
    ensures SameRequests(Run(layers, start, events[..i + 1]), Run(layers, start, events[..j]))
  {
    hide Step;
    assert events[..i + 1][..i] == events[..i];
    RunGood(layers, start, events[..i]);
    StepGood(layers, Run(layers, start, events[..i]), events[i]);
    StopLasts(layers, start, events, i + 1, j);
  }

  /** Some 401 of the run was acted on. */
  ghost predicate Acted(layers: seq<World.Layer>, start: Agent, events: seq<Event>)
    requires |layers| == |start.world|
  {
    exists i :: 0 <= i < |events| && ActedAt(layers, start, events, i)
  }

  ghost predicate ActedAt(layers: seq<World.Layer>, start: Agent, events: seq<Event>, i: nat)
    requires |layers| == |start.world| && i < |events|
  {
    ActsOn401(Run(layers, start, events[..i]), events[i])
  }

  lemma ActedOn(layers: seq<World.Layer>, start: Agent, events: seq<Event>)
    requires |layers| == |start.world| && events != []
    ensures var n := |events| - 1;
            Acted(layers, start, events) <==>
              Acted(layers, start, events[..n]) || ActsOn401(Run(layers, start, events[..n]), events[n])
  {
    hide Run, ActsOn401;
    var n := |events| - 1;
    forall i | 0 <= i < n ensures ActedAt(layers, start, events[..n], i) == ActedAt(layers, start, events, i) {
      assert events[..n][..i] == events[..i];
    }
    assert ActedAt(layers, start, events, n) == ActsOn401(Run(layers, start, events[..n]), events[n]);
  }

  /** Exactly when `runAgent` returns auth_rejected: some 401 was acted on. */
  lemma {:induction false} OutcomeIs401(layers: seq<World.Layer>, start: Agent, events: seq<Event>)
    requires Fresh(layers, start) && |layers| == |start.world|
    ensures Run(layers, start, events).outcome == AuthRejected <==> Acted(layers, start, events)
  {
    if events != [] {
      hide Step, Acted, ActsOn401, Fresh, Inv, Gets401, SameRequests;
      var n := |events| - 1;
      OutcomeIs401(layers, start, events[..n]);
      RunGood(layers, start, events[..n]);
      StepGood(layers, Run(layers, start, events[..n]), events[n]);
      ActedOn(layers, start, events);
    }
  }

  /** A first 401 that finds the run not stopped ends it as auth_rejected, whatever the loops do next. */
  lemma First401Decides(layers: seq<World.Layer>, start: Agent, events: seq<Event>, i: nat)
    requires Fresh(layers, start) && |layers| == |start.world|
    requires i < |events| && Gets401(Run(layers, start, events[..i]), events[i])
    requires !Run(layers, start, events[..i]).stop
    ensures Run(layers, start, events).outcome == AuthRejected
  {
    hide Run, Step;
    OutcomeIs401(layers, start, events);
    assert ActedAt(layers, start, events, i);
  }

  function PollThenStop(): seq<Event> {
    [CommandSegment(Commands.TurnRuns(0)), StopFromOutside]
  }

  lemma StoppedWhilePolling(start: Agent)
    requires start == Start(false, QUEUE_MAX_SNAPSHOTS, CommandLedgers.LEDGER_MAX_ENTRIES, [])
    ensures var r := Run([], start, PollThenStop());
            r.stop && r.outcome == Stopped && r.commands.at == Commands.Polling(0) && r.commands.aborted && !r.commands.authRejected
  {
    var poll := CommandSegment(Commands.TurnRuns(0));
    RunOn([], start, [], poll);
    RunOn([], start, [poll], StopFromOutside);
    assert [] + [poll] == [poll] && [poll] + [StopFromOutside] == PollThenStop();
  }

  /**
   * A 401 that a loop hears only after a stop from outside is not reported: the run returns "stopped". So the first 401
   * decides exactly while the run is not stopped, or when it answers a command's result.
   */
  lemma StoppedBefore401(start: Agent)
    requires start == Start(false, QUEUE_MAX_SNAPSHOTS, CommandLedgers.LEDGER_MAX_ENTRIES, [])
    ensures var last := CommandSegment(Commands.PollError(Commands.AuthRejected));
            && Gets401(Run([], start, PollThenStop()), last)
            && Run([], start, PollThenStop() + [last]).outcome == Stopped
  {
    hide Run, PollThenStop;
    StoppedWhilePolling(start);
    RunOn([], start, PollThenStop(), CommandSegment(Commands.PollError(Commands.AuthRejected)));
  }

  lemma RunOn(layers: seq<World.Layer>, start: Agent, events: seq<Event>, e: Event)
    requires |layers| == |start.world|
    ensures Run(layers, start, events + [e]) == Step(layers, Run(layers, start, events), e)
  {
    hide Step;
    assert (events + [e])[..|events|] == events;
  }

  // ----- a stopped run ends -----

  function SampleRank(at: SampleAt): nat {
    match at case Sampling => 3 case SampleAsleep => 2 case SampleReady => 1 case SampleReturned => 0
  }

  function PushRank(at: Push.At): nat {
    match at case Posting(_) => 3 case BackingOff => 2 case Parked => 2 case Ready => 1 case Returned => 0
  }

  function CommandRank(at: Commands.At): nat {
    match at
    case Executing(_, _, _) => 5
    case Posting(_, _) => 5
    case ReportBackoff(_, _) => 4
    case Polling(_) => 4
    case Handling(_) => 3
    case PollBackoff => 2
    case Spacing(_) => 2
    case Ready => 1
    case Returned => 0
  }

  function LayerRank(at: World.At): nat {
    match at case Reading => 3 case Posting(_) => 3 case Ready => 1 case Returned => 0 case _ => 2
  }

  function LayerRanks(world: seq<World.State>): nat {
    if world == [] then 0 else LayerRanks(world[..|world| - 1]) + LayerRank(world[|world| - 1].at)
  }

  /** How many segments the loops of a stopped run may still have. */
  function Rank(a: Agent): nat {
    SampleRank(a.sample) + PushRank(a.push.at) + CommandRank(a.commands.at) + LayerRanks(a.world)
  }

  predicate Finished(a: Agent) {
    && a.sample == SampleReturned && a.push.at == Push.Returned && a.commands.at == Commands.Returned
    && forall i :: 0 <= i < |a.world| ==> a.world[i].at == World.Returned
  }

  /** The segment a loop is suspended before, or the one a running request, read or execution ends with. */
  predicate Awaited(a: Agent, e: Event) {
    match e
    case SampleTurn => a.sample == SampleReady
    case Sampled(_) => a.sample == Sampling
    case SampleFailed => a.sample == Sampling
    case SampleSlept => a.sample == SampleAsleep
    case PushTurn => a.push.at == Push.Ready
    case PushAnswered(_, _) => a.push.at.Posting?
    case PushSlept => a.push.at == Push.BackingOff
    case CommandSegment(c) => AwaitedCommand(a.commands.at, c)
    case LayerSegment(i, _, w) => i < |a.world| && AwaitedLayer(a.world[i].at, w)
    case StopFromOutside => false
  }

  predicate AwaitedCommand(at: Commands.At, e: Commands.Event) {
    match e
    case TurnRuns(_) => at == Commands.Ready
    case Polled(_) => at.Polling?
    case PollError(_) => at.Polling?
    case PollSlept => at == Commands.PollBackoff
    case NextRuns(_) => at.Handling?
    case Ran(_) => at.Executing?
    case Reported(_, _) => at.Posting?
    case ReportSlept => at.ReportBackoff?
    case Spaced(_) => at.Spacing?
    case _ => false
  }

  predicate AwaitedLayer(at: World.At, e: World.Event) {
    match e
    case TurnRuns => at == World.Ready
    case ReadDone(_, _) => at == World.Reading
    case PostDone(_, _) => at.Posting?
    case BackoffDone(_) => at.BackingOff?
    case SleepDone => World.Sleeping(at)
    case _ => false
  }

  lemma {:induction false} RanksFall(world: seq<World.State>, after: seq<World.State>, strict: nat)
    requires |world| == |after|
    requires forall i :: 0 <= i < |world| ==> LayerRank(after[i].at) <= LayerRank(world[i].at)
    ensures LayerRanks(after) <= LayerRanks(world)
    ensures strict < |world| && LayerRank(after[strict].at) < LayerRank(world[strict].at) ==>
              LayerRanks(after) < LayerRanks(world)
  {
    if world != [] {
      RanksFall(world[..|world| - 1], after[..|world| - 1], strict);
    }
  }

  lemma CycleEnds(l: World.Layer, s: World.State, body: World.Body, delayMs: int, now: int)
    requires s.aborted
    ensures World.CycleDone(l, s, delayMs, now).at == World.Returned
    ensures World.Send(l, s, body, delayMs, now).at == World.Returned
  {
  }

  lemma ReadWinds(l: World.Layer, s: World.State, read: World.ReadResult, delayMs: int, now: int)
    requires s.aborted && s.at == World.Reading
    ensures World.ReadSettled(l, s, read, delayMs, now).at == World.Returned
  {
    hide World.CycleDone, World.Send;
    var s1 := s.(lastRead := read, readFailing := read.ReadFailed?);
    match read {
      case ReadFailed => CycleEnds(l, s1, World.Data(""), delayMs, now);
      case ReadSkip(reason) => CycleEnds(l, s1, World.Skipped(reason), delayMs, now);
      case ReadItems(items) => CycleEnds(l, s1.(skipSent := None), World.Data(items), delayMs, now);
    }
  }

  lemma LayerWinds(l: World.Layer, s: World.State, e: World.Event, now: int)
    requires s.aborted && AwaitedLayer(s.at, e)
    ensures LayerRank(World.Step(l, s, e, now).at) < LayerRank(s.at)
  {
    hide World.CycleDone, World.Send, World.Accept, World.ReadSettled;
    var s1 := s.(clock := now);
    match e {
      case ReadDone(read, delayMs) => ReadWinds(l, s1, read, delayMs, now);
      case PostDone(answer, delayMs) =>
        AcceptAborted(l, s1, s.at.body);
        CycleEnds(l, World.Accept(l, s1, s.at.body), s.at.body, delayMs, now);
        CycleEnds(l, s1, s.at.body, delayMs, now);
      case BackoffDone(delayMs) => CycleEnds(l, s1, s.at.body, delayMs, now);
      case _ =>
    }
  }

  lemma AcceptAborted(l: World.Layer, s: World.State, body: World.Body)
    ensures World.Accept(l, s, body).aborted == s.aborted
  {
  }

  lemma CommandWinds(s: Commands.State, e: Commands.Event)
    requires s.aborted && AwaitedCommand(s.at, e)
    ensures CommandRank(Commands.Advance(s, e).at) < CommandRank(s.at)
  {
    hide CommandBooks.Step, CommandBooks.VerdictFor;
  }

  /** Once stopped, every segment a loop was waiting for brings the run closer to its end, whatever the answers are. */
  lemma StoppedRunWindsDown(layers: seq<World.Layer>, a: Agent, e: Event)
    requires Inv(a) && a.stop && |layers| == |a.world| && Awaited(a, e)
    ensures Rank(Step(layers, a, e)) < Rank(a)
  {
    hide Inv, Rank, Step;
    match e {
      case CommandSegment(c) => CommandWindsDown(layers, a, c);
      case LayerSegment(i, now, w) => LayerWindsDown(layers, a, i, now, w);
      case SampleTurn => SampleWindsDown(layers, a, e);
      case Sampled(_) => SampleWindsDown(layers, a, e);
      case SampleFailed => SampleWindsDown(layers, a, e);
      case SampleSlept => SampleWindsDown(layers, a, e);
      case StopFromOutside =>
      case _ => PushWindsDown(layers, a, e);
    }
  }

  lemma CommandWindsDown(layers: seq<World.Layer>, a: Agent, c: Commands.Event)
    requires Inv(a) && a.stop && |layers| == |a.world| && AwaitedCommand(a.commands.at, c)
    ensures Rank(Step(layers, a, CommandSegment(c))) < Rank(a)
  {
    hide Commands.Advance, LayerRanks;
    CommandWinds(a.commands, c);
    CommandsStop(a.commands, c);
    RanksFall(a.world, Step(layers, a, CommandSegment(c)).world, 0);
  }

  lemma LayerWindsDown(layers: seq<World.Layer>, a: Agent, i: nat, now: int, w: World.Event)
    requires Inv(a) && a.stop && |layers| == |a.world| && i < |a.world| && AwaitedLayer(a.world[i].at, w)
    ensures Rank(Step(layers, a, LayerSegment(i, now, w))) < Rank(a)
  {
    hide World.Step, LayerRanks;
    LayerWinds(layers[i], a.world[i], w, now);
    LayerStops(layers[i], a.world[i], w, now);
    RanksFall(a.world, Step(layers, a, LayerSegment(i, now, w)).world, i);
  }

  lemma PushWinds(s: Push.State, e: Push.Event)
    requires s.aborted
    requires match e
             case TurnRuns => s.at == Push.Ready
             case Answered(_) => s.at.Posting?
             case Slept => s.at == Push.BackingOff
             case _ => false
    ensures PushRank(Push.Step(s, e).at) < PushRank(s.at)
  {
  }

  lemma PushWindsDown(layers: seq<World.Layer>, a: Agent, e: Event)
    requires Inv(a) && a.stop && |layers| == |a.world| && Awaited(a, e)
    requires e.PushTurn? || e.PushAnswered? || e.PushSlept?
    ensures Rank(Step(layers, a, e)) < Rank(a)
  {
    hide Push.Turn, Push.OnAnswer, Push.SleepEnds, LayerRanks;
    var p := match e case PushTurn => Push.TurnRuns case PushAnswered(x, _) => Push.Answered(x) case _ => Push.Slept;
    PushWinds(a.push, p);
    PushStops(a.push, p);
    RanksFall(a.world, Step(layers, a, e).world, 0);
  }

  lemma SampleWindsDown(layers: seq<World.Layer>, a: Agent, e: Event)
    requires Inv(a) && a.stop && |layers| == |a.world| && Awaited(a, e)
    requires e.SampleTurn? || e.Sampled? || e.SampleFailed? || e.SampleSlept?
    ensures Rank(Step(layers, a, e)) < Rank(a)
  {
    hide BoundedQueues.Newest, LayerRanks;
    RanksFall(a.world, Step(layers, a, e).world, 0);
  }

  /** A stopped run that has not returned is waiting for some loop's segment, so it ends after at most `Rank` of them. */
  lemma StoppedRunIsNotStuck(a: Agent) returns (e: Event)
    requires Inv(a) && a.stop && !Finished(a)
    ensures Awaited(a, e)
  {
    if a.sample != SampleReturned {
      e := match a.sample case Sampling => SampleFailed case SampleAsleep => SampleSlept case _ => SampleTurn;
    } else if a.push.at != Push.Returned {
      e := match a.push.at
           case Posting(_) => PushAnswered(Push.Transient, false)
           case BackingOff => PushSlept
           case _ => PushTurn;
    } else if a.commands.at != Commands.Returned {
      e := CommandSegment(NextCommandSegment(a.commands.at));
    } else {
      var i :| 0 <= i < |a.world| && a.world[i].at != World.Returned;
      e := LayerSegment(i, 0, NextLayerSegment(a.world[i].at));
    }
  }

  function NextCommandSegment(at: Commands.At): Commands.Event {
    match at
    case Polling(_) => Commands.PollError(Commands.Transient)
    case PollBackoff => Commands.PollSlept
    case Handling(_) => Commands.NextRuns(0)
    case Executing(_, _, _) => Commands.Ran(CommandLedgers.CommandResult(true, None))
    case Posting(_, _) => Commands.Reported(Commands.Transient, 0)
    case ReportBackoff(_, _) => Commands.ReportSlept
    case Spacing(_) => Commands.Spaced(0)
    case _ => Commands.TurnRuns(0)
  }

  function NextLayerSegment(at: World.At): World.Event {
    match at
    case Reading => World.ReadDone(World.ReadFailed, 0)
    case Posting(_) => World.PostDone(World.Transient, 0)
    case BackingOff(_) => World.BackoffDone(0)
    case Ready => World.TurnRuns
    case _ => World.SleepDone
  }

  // ----- the run's variables -----

  /** `runAgent`'s closure: the loops it composes, the stop controller and the outcome. */
  class AgentRun {
    const layers: seq<World.Layer>
    const push: Push.Pusher
    const commands: Commands.CommandRunner
    const world: seq<World.LayerLoop>
    var stop: bool
    var outcome: Outcome
    var sample: SampleAt

    ghost predicate Valid() {
      && |world| == |layers|
      && (forall i :: 0 <= i < |world| ==> world[i].layer == layers[i])
      && (forall i, j :: 0 <= i < j < |world| ==> world[i] != world[j])
    }

    ghost function Loops(): set<object> {
      {push, push.queue, commands, commands.ledger} + (set l | l in world)
    }

    ghost function Worlds(): (r: seq<World.State>)
      reads set l | l in world
      ensures |r| == |world| && forall i :: 0 <= i < |r| ==> r[i] == world[i].View()
    {
      seq(|world|, i requires 0 <= i < |world| reads set l | l in world => world[i].View())
    }

    ghost function View(): Agent
      reads this, Loops()
    {
      Agent(stop, outcome, sample, push.View(), commands.View(), Worlds())
    }

    /** The run of a signal not yet aborted, with its loops just made. */
    constructor (push: Push.Pusher, commands: Commands.CommandRunner, world: seq<World.LayerLoop>)
      requires push.View() == Push.Initial(push.queue.max) && commands.View() == Commands.Initial(commands.ledger.maxEntries)
      requires forall i :: 0 <= i < |world| ==> world[i].View() == World.INITIAL
      requires forall i, j :: 0 <= i < j < |world| ==> world[i] != world[j]
      ensures Valid() && this.push == push && this.commands == commands && this.world == world
      ensures View() == Start(false, push.queue.max, commands.ledger.maxEntries, layers)
    {
      this.push, this.commands, this.world := push, commands, world;
      layers := seq(|world|, i requires 0 <= i < |world| => world[i].layer);
      stop, outcome, sample := false, Stopped, SampleReady;
    }

    /** `stop.abort()`: the signal reaches every loop. */
    method StopLoops()
      requires Valid()
      modifies this`stop, Loops()
      ensures View() == StopAll(old(View()))
    {
      hide Push.Abort, Commands.Abort, World.Abort;
      stop := true;
      push.OnStop();
      commands.OnStop();
      for i := 0 to |world|
        invariant stop && outcome == old(outcome) && sample == old(sample)
        invariant push.View() == Push.Abort(old(push.View())) && commands.View() == Commands.Abort(old(commands.View()))
        invariant forall j :: 0 <= j < |world| ==>
          world[j].View() == if j < i then World.Abort(old(world[j].View())) else old(world[j].View())
      {
        world[i].OnStop();
      }
    }

    /** `authRejected` */
    method RejectAuth()
      requires Valid()
      modifies this, Loops()
      ensures View() == OnAuthRejected(old(View()))
    {
      StopLoops();
      outcome := AuthRejected;
    }

    /** The turn of the sample loop, up to the game's read. */
    method SampleNext()
      modifies this`sample
      ensures View() == SampleSegment(layers, old(View()), SampleTurn)
      requires Valid()
    {
      if sample == SampleReady { sample := if stop then SampleReturned else Sampling; }
    }

    /** A snapshot was read: it is queued, and its buildings are shown to the conveyors loop. */
    method OnSample(snapshot: nat, buildings: Option<int>)
      requires Valid() && sample == Sampling && snapshot == push.enqueued && |push.queue.items| <= push.queue.max
      modifies this`sample, Loops()
      ensures View() == SampleSegment(layers, old(View()), Sampled(buildings))
    {
      hide Push.Enqueue, Observed, World.Observe;
      ghost var before := View();
      push.Add(snapshot);
      assert Worlds() == before.world && commands.View() == before.commands;
      if buildings.Some? { ShowBuildings(buildings.value); }
      assert push.View() == Push.Enqueue(before.push) && commands.View() == before.commands;
      sample := SampleAsleep;
    }

    method ShowBuildings(hash: int)
      requires Valid()
      modifies set l | l in world
      ensures Worlds() == Observed(layers, old(Worlds()), hash)
    {
      for i := 0 to |world|
        invariant forall j :: 0 <= j < |world| ==>
          world[j].View() == if j < i && layers[j].nudgeable then World.Observe(old(world[j].View()), hash)
                             else old(world[j].View())
      {
        if layers[i].nudgeable { world[i].ObserveFactoryBuildings(hash); }
      }
    }

    method OnSampleFailed()
      requires Valid()
      modifies this`sample
      ensures View() == SampleSegment(layers, old(View()), SampleFailed)
    {
      if sample == Sampling { sample := SampleAsleep; }
    }

    method AfterSampleSleep()
      requires Valid()
      modifies this`sample
      ensures View() == SampleSegment(layers, old(View()), SampleSlept)
    {
      if sample == SampleAsleep { sample := SampleReady; }
    }

    /** The push loop's turns and the ends of its back-offs begin no 401. */
    method PushNext(slept: bool)
      requires Valid()
      modifies push
      ensures View() == PushSegment(old(View()), if slept then PushSlept else PushTurn)
    {
      hide StopAll;
      if slept { push.AfterSleep(); } else { push.RunTurn(); }
    }

    /** An answer to a post; one that says a command is waiting ends the command loop's spacing. */
    method OnPushAnswer(answer: Push.Answer, commandsPending: bool)
      requires Valid() && (push.authRejected ==> push.aborted)
      modifies this, Loops()
      ensures View() == PushSegment(old(View()), PushAnswered(answer, commandsPending))
    {
      hide StopAll, Push.OnAnswer;
      var posting, rejected := push.at.Posting?, push.aborted;
      ghost var before := View();
      push.AfterPost(answer);
      HeardPush(before.push, answer);
      if posting && answer == Push.AuthRejected && !rejected { RejectAuth(); }
      if posting && answer == Push.Accepted && commandsPending { commands.Poke(); }
    }

    method CommandNext(e: Commands.Event)
      requires Valid() && !e.Poked? && !e.Stopped?
      requires commands.at.Executing? ==> commands.at.command.id in commands.running
      requires commands.authRejected ==> commands.at == Commands.Returned && commands.aborted
      modifies this, Loops()
      ensures View() == Step(layers, old(View()), CommandSegment(e))
    {
      hide StopAll, Commands.Advance;
      var polling, posting, aborted := commands.at.Polling?, commands.at.Posting?, commands.aborted;
      CommandsStop(commands.View(), e);
      commands.Segment(e);
      if (polling && e == Commands.PollError(Commands.AuthRejected) && !aborted)
         || (posting && e.Reported? && e.answer == Commands.AuthRejected)
      {
        RejectAuth();
      }
    }

    method LayerNext(i: nat, e: World.Event, now: int)
      requires Valid() && i < |world| && !e.Observed? && !e.Stopped?
      requires world[i].authRejected ==> world[i].aborted
      modifies this, Loops()
      ensures View() == Step(layers, old(View()), LayerSegment(i, now, e))
    {
      hide StopAll, World.Step;
      var posting, aborted := world[i].at.Posting?, world[i].aborted;
      LayerStops(layers[i], world[i].View(), e, now);
      ghost var before := Worlds();
      world[i].Segment(e, now);
      assert Worlds() == before[i := World.Step(layers[i], before[i], e, now)];
      if posting && e.PostDone? && e.answer == World.AuthRejected && !aborted { RejectAuth(); }
    }

    /** `stopFromOutside` */
    method OnStopFromOutside()
      requires Valid()
      modifies this, Loops()
      ensures View() == Step(layers, old(View()), StopFromOutside)
    {
      StopLoops();
    }
  }

  lemma HeardPush(s: Push.State, a: Push.Answer)
    ensures var r := Push.OnAnswer(s, a);
            r.authRejected <==> s.authRejected || (s.at.Posting? && a == Push.AuthRejected && !s.aborted)
  {
  }
}
