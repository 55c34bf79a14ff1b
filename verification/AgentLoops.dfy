/**
 * The agent is its loops (agent/src/agentRunner.ts): in every interleaving each loop goes through exactly the states it would
 * alone, given what the others tell it. What is proved of every run of one loop so holds of it inside the agent.
 */
module AgentLoops {
  import Push = SnapshotPusher
  import Commands = CommandLoop
  import World = WorldLayers
  import opened Wrappers
  import opened AgentRuns

  // ----- what one step of the agent is to each loop -----

  /** The step stops every loop, after what else it is to them. */
  ghost predicate StopsAll(a: Agent, e: Event) {
    e == StopFromOutside || ActsOn401(a, e)
  }

  /** A snapshot queued, a turn, an answer, the end of a wait. */
  ghost function PushHears(a: Agent, e: Event): Option<Push.Event> {
    match e
    case Sampled(_) => if a.sample == Sampling then Some(Push.Enqueued) else None
    case PushTurn => Some(Push.TurnRuns)
    case PushAnswered(answer, _) => Some(Push.Answered(answer))
    case PushSlept => Some(Push.Slept)
    case _ => None
  }

  /** Its own segments, and the hint in an accepted push's answer. */
  ghost function CommandsHear(a: Agent, e: Event): Option<Commands.Event> {
    match e
    case CommandSegment(c) => if c.Poked? || c.Stopped? then None else Some(c)
    case PushAnswered(answer, pending) =>
      if a.push.at.Posting? && answer == Push.Accepted && pending then Some(Commands.Poked) else None
    case _ => None
  }

  /** Its own segments and, for the nudgeable layer, the building set of each snapshot that has one. */
  ghost function LayerHears(layers: seq<World.Layer>, a: Agent, e: Event, i: nat): Option<World.Stamped>
    requires |layers| == |a.world| && i < |layers|
  {
    match e
    case LayerSegment(j, now, w) => if j != i || w.Observed? || w.Stopped? then None else Some(World.Stamped(w, now))
    case Sampled(Some(hash)) =>
      if a.sample == Sampling && layers[i].nudgeable then Some(World.Stamped(World.Observed(hash), a.world[i].clock)) else None
    case _ => None
  }

  // ----- one step -----

  ghost function PushAfter(s: Push.State, heard: Option<Push.Event>, stops: bool): Push.State {
    var r := if heard.Some? then Push.Step(s, heard.value) else s;
    if stops then Push.Step(r, Push.Stopped) else r
  }

  ghost function CommandsAfter(s: Commands.State, heard: Option<Commands.Event>, stops: bool): Commands.State {
    var r := if heard.Some? then Commands.Advance(s, heard.value) else s;
    if stops then Commands.Advance(r, Commands.Stopped) else r
  }

  ghost function LayerAfter(l: World.Layer, s: World.State, heard: Option<World.Stamped>, stops: bool): World.State {
    var r := if heard.Some? then World.Step(l, s, heard.value.event, heard.value.now) else s;
    if stops then World.Step(l, r, World.Stopped, r.clock) else r
  }

  ghost predicate EachIsItself(layers: seq<World.Layer>, a: Agent, e: Event, r: Agent)
    requires |layers| == |a.world|
  {
    && r.push == PushAfter(a.push, PushHears(a, e), StopsAll(a, e))
    && r.commands == CommandsAfter(a.commands, CommandsHear(a, e), StopsAll(a, e))
    && |r.world| == |a.world|
    && forall i :: 0 <= i < |layers| ==>
         r.world[i] == LayerAfter(layers[i], a.world[i], LayerHears(layers, a, e, i), StopsAll(a, e))
  }

  lemma StopReaches(a: Agent)
    ensures var r := StopAll(a);
            && r.push == Push.Abort(a.push) && r.commands == Commands.Abort(a.commands)
            && |r.world| == |a.world| && forall i :: 0 <= i < |a.world| ==> r.world[i] == World.Abort(a.world[i])
  {
  }

  /** A stop says nothing of the time. */
  lemma StoppedThen(l: World.Layer, s: World.State)
    ensures World.Step(l, s, World.Stopped, s.clock) == World.Abort(s)
  {
  }

  lemma PushItself(layers: seq<World.Layer>, a: Agent, e: Event)
    requires Inv(a) && |layers| == |a.world| && (e.PushTurn? || e.PushAnswered? || e.PushSlept?)
    ensures EachIsItself(layers, a, e, Step(layers, a, e))
  {
    hide Push.Turn, Push.OnAnswer, Push.SleepEnds, Push.Abort, Commands.Abort, Commands.NotifyPending, World.Abort, StopAll;
    var p := PushHears(a, e).value;
    PushStops(a.push, p);
    StopReaches(a.(push := Push.Step(a.push, p)));
    forall i | 0 <= i < |a.world| { StoppedThen(layers[i], a.world[i]); }
    hide World.Step;
    if ActsOn401(a, e) { RejectedPush(a, e); }
  }

  /** A push answered 401 says nothing of commands. */
  lemma RejectedPush(a: Agent, e: Event)
    requires e.PushAnswered? && ActsOn401(a, e)
    ensures CommandsHear(a, e).None? && e.answer == Push.AuthRejected
  {
  }

  lemma CommandItself(layers: seq<World.Layer>, a: Agent, e: Event)
    requires Inv(a) && |layers| == |a.world| && e.CommandSegment?
    ensures EachIsItself(layers, a, e, Step(layers, a, e))
  {
    hide Push.Abort, World.Abort, StopAll;
    if !e.segment.Poked? && !e.segment.Stopped? {
      CommandsStop(a.commands, e.segment);
      var s := Commands.Advance(a.commands, e.segment);
      StopReaches(a.(commands := s));
      hide Commands.Turn, Commands.PollAnswered, Commands.PollFailed, Commands.PollBackoffEnds, Commands.Next,
        Commands.Executed, Commands.ReportAnswered, Commands.ReportBackoffEnds, Commands.SpacingEnds;
      forall i | 0 <= i < |a.world| { StoppedThen(layers[i], a.world[i]); }
      hide World.Step;
    }
  }

  lemma LayerItself(layers: seq<World.Layer>, a: Agent, e: Event)
    requires Inv(a) && |layers| == |a.world| && e.LayerSegment?
    ensures EachIsItself(layers, a, e, Step(layers, a, e))
  {
    hide Push.Abort, Commands.Abort, World.Abort, StopAll;
    var i := e.layer;
    if i < |a.world| && !e.event.Observed? && !e.event.Stopped? {
      var layer := World.Step(layers[i], a.world[i], e.event, e.now);
      LayerStops(layers[i], a.world[i], e.event, e.now);
      forall j | 0 <= j < |a.world| { StoppedThen(layers[j], a.world[j]); }
      StoppedThen(layers[i], layer);
      StopReaches(a.(world := a.world[i := layer]));
      hide World.Step;
    }
  }

  lemma SampleItself(layers: seq<World.Layer>, a: Agent, e: Event)
    requires Inv(a) && |layers| == |a.world|
    requires e.SampleTurn? || e.Sampled? || e.SampleFailed? || e.SampleSlept? || e.StopFromOutside?
    ensures EachIsItself(layers, a, e, Step(layers, a, e))
  {
    hide Push.Enqueue, World.Observe, StopAll;
    StopReaches(a);
    forall i | 0 <= i < |a.world| { StoppedThen(layers[i], a.world[i]); }
    if e.Sampled? && e.buildings.Some? {
      forall i | 0 <= i < |a.world| { ObservedThen(layers[i], a.world[i], e.buildings.value); }
    }
    hide World.Step, World.Abort, Push.Abort, Commands.Abort;
  }

  lemma ObservedThen(l: World.Layer, s: World.State, hash: int)
    ensures World.Step(l, s, World.Observed(hash), s.clock) == World.Observe(s, hash)
  {
  }

  lemma StepIsItself(layers: seq<World.Layer>, a: Agent, e: Event)
    requires Inv(a) && |layers| == |a.world|
    ensures EachIsItself(layers, a, e, Step(layers, a, e))
  {
    hide EachIsItself, Step, Inv;
    match e {
      case PushTurn => PushItself(layers, a, e);
      case PushAnswered(_, _) => PushItself(layers, a, e);
      case PushSlept => PushItself(layers, a, e);
      case CommandSegment(_) => CommandItself(layers, a, e);
      case LayerSegment(_, _, _) => LayerItself(layers, a, e);
      case _ => SampleItself(layers, a, e);
    }
  }

  // ----- every run -----

  function Both<T>(heard: Option<T>, stops: bool, stop: T): seq<T> {
    (if heard.Some? then [heard.value] else []) + if stops then [stop] else []
  }

  /** What the push loop is told in a run of the agent. */
  ghost function PushStory(layers: seq<World.Layer>, start: Agent, events: seq<Event>): seq<Push.Event>
    requires |layers| == |start.world|
  {
    if events == [] then []
    else
      var n := |events| - 1;
      var a := Run(layers, start, events[..n]);
      PushStory(layers, start, events[..n]) + Both(PushHears(a, events[n]), StopsAll(a, events[n]), Push.Stopped)
  }

  ghost function CommandsStory(layers: seq<World.Layer>, start: Agent, events: seq<Event>): seq<Commands.Event>
    requires |layers| == |start.world|
  {
    if events == [] then []
    else
      var n := |events| - 1;
      var a := Run(layers, start, events[..n]);
      CommandsStory(layers, start, events[..n]) + Both(CommandsHear(a, events[n]), StopsAll(a, events[n]), Commands.Stopped)
  }

  ghost function LayerStory(layers: seq<World.Layer>, start: Agent, events: seq<Event>, i: nat): seq<World.Stamped>
    requires |layers| == |start.world| && i < |layers|
  {
    if events == [] then []
    else
      var n := |events| - 1;
      var a := Run(layers, start, events[..n]);
      var heard := LayerHears(layers, a, events[n], i);
      var clock := LayerAfter(layers[i], a.world[i], heard, false).clock;
      LayerStory(layers, start, events[..n], i)
        + Both(heard, StopsAll(a, events[n]), World.Stamped(World.Stopped, clock))
  }

  lemma PushOn(max: nat, before: seq<Push.Event>, heard: Option<Push.Event>, stops: bool)
    ensures Push.Run(max, before + Both(heard, stops, Push.Stopped)) == PushAfter(Push.Run(max, before), heard, stops)
  {
    hide Push.Step;
    var one := before + if heard.Some? then [heard.value] else [];
    assert before + [] == before && one + [] == one;
    if heard.Some? { assert (before + [heard.value])[..|before|] == before; }
    if stops { assert (one + [Push.Stopped])[..|one|] == one; }
    assert before + Both(heard, stops, Push.Stopped) == one + if stops then [Push.Stopped] else [];
  }

  lemma CommandsOn(max: nat, before: seq<Commands.Event>, heard: Option<Commands.Event>, stops: bool)
    ensures Commands.Run(max, before + Both(heard, stops, Commands.Stopped))
            == CommandsAfter(Commands.Run(max, before), heard, stops)
  {
    hide Commands.Advance;
    var one := before + if heard.Some? then [heard.value] else [];
    assert before + [] == before && one + [] == one;
    if heard.Some? { assert (before + [heard.value])[..|before|] == before; }
    if stops { assert (one + [Commands.Stopped])[..|one|] == one; }
    assert before + Both(heard, stops, Commands.Stopped) == one + if stops then [Commands.Stopped] else [];
  }

  lemma LayerOn(l: World.Layer, before: seq<World.Stamped>, heard: Option<World.Stamped>, stops: bool)
    ensures var s := World.Run(l, before);
            World.Run(l, before + Both(heard, stops, World.Stamped(World.Stopped, LayerAfter(l, s, heard, false).clock)))
            == LayerAfter(l, s, heard, stops)
  {
    hide World.Step;
    var stop := World.Stamped(World.Stopped, LayerAfter(l, World.Run(l, before), heard, false).clock);
    var one := before + if heard.Some? then [heard.value] else [];
    assert before + [] == before && one + [] == one;
    if heard.Some? { assert (before + [heard.value])[..|before|] == before; }
    if stops { assert (one + [stop])[..|one|] == one; }
    assert before + Both(heard, stops, stop) == one + if stops then [stop] else [];
  }

  lemma PushNext(layers: seq<World.Layer>, queueMax: nat, start: Agent, events: seq<Event>)
    requires |layers| == |start.world| && events != []
    requires var n := |events| - 1;
             && Run(layers, start, events[..n]).push == Push.Run(queueMax, PushStory(layers, start, events[..n]))
             && EachIsItself(layers, Run(layers, start, events[..n]), events[n], Run(layers, start, events))
    ensures Run(layers, start, events).push == Push.Run(queueMax, PushStory(layers, start, events))
  {
    hide Run, PushAfter, CommandsAfter, LayerAfter, PushHears, StopsAll, Both, Push.Run;
    var n := |events| - 1;
    var a, e := Run(layers, start, events[..n]), events[n];
    PushOn(queueMax, PushStory(layers, start, events[..n]), PushHears(a, e), StopsAll(a, e));
  }

  lemma CommandsNext(layers: seq<World.Layer>, ledgerMax: nat, start: Agent, events: seq<Event>)
    requires |layers| == |start.world| && events != []
    requires var n := |events| - 1;
             && Run(layers, start, events[..n]).commands == Commands.Run(ledgerMax, CommandsStory(layers, start, events[..n]))
             && EachIsItself(layers, Run(layers, start, events[..n]), events[n], Run(layers, start, events))
    ensures Run(layers, start, events).commands == Commands.Run(ledgerMax, CommandsStory(layers, start, events))
  {
    hide Run, PushAfter, CommandsAfter, LayerAfter, CommandsHear, StopsAll, Both, Commands.Run;
    var n := |events| - 1;
    var a, e := Run(layers, start, events[..n]), events[n];
    CommandsOn(ledgerMax, CommandsStory(layers, start, events[..n]), CommandsHear(a, e), StopsAll(a, e));
  }

  lemma LayerNext(layers: seq<World.Layer>, start: Agent, events: seq<Event>, i: nat)
    requires |layers| == |start.world| && events != [] && i < |layers|
    requires var n := |events| - 1;
             && Run(layers, start, events[..n]).world[i] == World.Run(layers[i], LayerStory(layers, start, events[..n], i))
             && EachIsItself(layers, Run(layers, start, events[..n]), events[n], Run(layers, start, events))
    ensures Run(layers, start, events).world[i] == World.Run(layers[i], LayerStory(layers, start, events, i))
  {
    hide Run, PushAfter, CommandsAfter, LayerAfter, LayerHears, StopsAll, Both, World.Run;
    var n := |events| - 1;
    var a, e := Run(layers, start, events[..n]), events[n];
    LayerOn(layers[i], LayerStory(layers, start, events[..n], i), LayerHears(layers, a, e, i), StopsAll(a, e));
  }

  lemma AgentStep(layers: seq<World.Layer>, queueMax: nat, ledgerMax: nat, events: seq<Event>)
    requires events != []
    ensures var start, n := Start(false, queueMax, ledgerMax, layers), |events| - 1;
            EachIsItself(layers, Run(layers, start, events[..n]), events[n], Run(layers, start, events))
  {
    var start, n := Start(false, queueMax, ledgerMax, layers), |events| - 1;
    assert Fresh(layers, start);
    hide EachIsItself, Step, Start;
    RunGood(layers, start, events[..n]);
    StepIsItself(layers, Run(layers, start, events[..n]), events[n]);
  }

  /**
   * In every run of an agent that was started, the push loop is where its own run takes it through what it was told: each
   * snapshot queued for it, its own segments, and the stop.
   */
  lemma {:induction false} PushIsItsOwn(layers: seq<World.Layer>, queueMax: nat, ledgerMax: nat, events: seq<Event>)
    ensures var start := Start(false, queueMax, ledgerMax, layers);
            Run(layers, start, events).push == Push.Run(queueMax, PushStory(layers, start, events))
  {
    if events != [] {
      PushIsItsOwn(layers, queueMax, ledgerMax, events[..|events| - 1]);
      AgentStep(layers, queueMax, ledgerMax, events);
      PushNext(layers, queueMax, Start(false, queueMax, ledgerMax, layers), events);
      hide *;
    }
  }

  /** And the command loop, told of the hints in the answers to accepted snapshots. */
  lemma {:induction false} CommandsAreTheirOwn(layers: seq<World.Layer>, queueMax: nat, ledgerMax: nat, events: seq<Event>)
    ensures var start := Start(false, queueMax, ledgerMax, layers);
            Run(layers, start, events).commands == Commands.Run(ledgerMax, CommandsStory(layers, start, events))
  {
    if events != [] {
      CommandsAreTheirOwn(layers, queueMax, ledgerMax, events[..|events| - 1]);
      AgentStep(layers, queueMax, ledgerMax, events);
      CommandsNext(layers, ledgerMax, Start(false, queueMax, ledgerMax, layers), events);
      hide *;
    }
  }

  /** And each layer's loop, the conveyors' told of the building set of every snapshot that has one. */
  lemma {:induction false} LayerIsItsOwn(
      layers: seq<World.Layer>, queueMax: nat, ledgerMax: nat, events: seq<Event>, i: nat)
    requires i < |layers|
    ensures var start := Start(false, queueMax, ledgerMax, layers);
            Run(layers, start, events).world[i] == World.Run(layers[i], LayerStory(layers, start, events, i))
  {
    if events != [] {
      LayerIsItsOwn(layers, queueMax, ledgerMax, events[..|events| - 1], i);
      AgentStep(layers, queueMax, ledgerMax, events);
      LayerNext(layers, Start(false, queueMax, ledgerMax, layers), events, i);
      hide *;
    }
  }

  // ----- sampling -----

  /** The sampling loop reads again after each sample and each failed one, until the stop. */
  lemma SamplesAgain(layers: seq<World.Layer>, a: Agent, buildings: Option<int>)
    requires |layers| == |a.world| && !a.stop
    ensures a.sample == SampleReady ==> Step(layers, a, SampleTurn).sample == Sampling
    ensures a.sample == Sampling ==>
              && Step(layers, a, Sampled(buildings)).sample == SampleAsleep
              && Step(layers, a, SampleFailed) == a.(sample := SampleAsleep)
    ensures a.sample == SampleAsleep ==> Step(layers, a, SampleSlept) == a.(sample := SampleReady)
    ensures a.sample != SampleReady ==> Step(layers, a, SampleTurn) == a
    ensures a.sample != Sampling ==> Step(layers, a, Sampled(buildings)) == a && Step(layers, a, SampleFailed) == a
    ensures a.sample != SampleAsleep ==> Step(layers, a, SampleSlept) == a
  {
    hide Push.Enqueue, Observed;
  }

  // ----- a signal aborted before the start -----

  lemma FinishedStays(layers: seq<World.Layer>, a: Agent, e: Event)
    requires Inv(a) && a.stop && Finished(a) && |layers| == |a.world|
    ensures Finished(Step(layers, a, e)) && Step(layers, a, e).outcome == a.outcome
  {
    hide Push.Enqueue, Observed;
    match e {
      case LayerSegment(i, now, w) => if i < |a.world| { LayerStays(layers[i], a.world[i], w, now); }
      case _ =>
    }
  }

  lemma LayerStays(l: World.Layer, s: World.State, e: World.Event, now: int)
    requires s.at == World.Returned
    ensures var r := World.Step(l, s, e, now); r.at == World.Returned && r.authRejected == s.authRejected
  {
    hide World.CycleDone, World.Send, World.Accept, World.WaitOutGap, World.BeginRead;
    match e {
      case ReadDone(_, _) =>
      case PostDone(_, _) =>
      case BackoffDone(_) =>
      case _ =>
    }
  }

  /** A run whose signal was aborted before it began asks for nothing and returns "stopped", whatever happens. */
  lemma {:induction false} AbortedStartsNothing(
      layers: seq<World.Layer>, queueMax: nat, ledgerMax: nat, events: seq<Event>)
    ensures var start := Start(true, queueMax, ledgerMax, layers);
            var a := Run(layers, start, events);
            && Finished(a) && a.stop && a.outcome == Stopped && SameRequests(start, a)
            && start.push.posts == 0 && start.commands.requests == 0
            && forall i :: 0 <= i < |layers| ==> start.world[i].requests == 0
  {
    var start := Start(true, queueMax, ledgerMax, layers);
    assert Fresh(layers, start);
    if events != [] {
      hide Step, Inv, Finished, Fresh, SameRequests;
      var n := |events| - 1;
      AbortedStartsNothing(layers, queueMax, ledgerMax, events[..n]);
      RunGood(layers, start, events[..n]);
      StepStopped(layers, start, Run(layers, start, events[..n]), events[n]);
      FinishedStays(layers, Run(layers, start, events[..n]), events[n]);
    }
  }
}
