/**
 * Each of the four hazards is real from every state: a hazard step that can happen can go on to two servers alive, or to
 * one alive while SteamCMD updates it, with no process reported ended that still runs. With SessionSafety this makes the
 * hazards exactly the steps that lead there.
 */
module SessionHazards {
  import opened Wrappers
  import opened Ranges
  import opened ServerSupervisor
  import opened Sessions
  import opened SessionSafety
  import Restarts = SupervisorRestarts
  import Safety = SupervisorSafety

  /** What must never be: two servers, or one under SteamCMD. */
  ghost predicate Broken(w: World) {
    || 2 <= |w.machine.servers|
    || (w.machine.servers != {} && w.session.Some? && w.session.value.updating == SteamCmd)
  }

  ghost predicate Truthful(w: World, a: Action) {
    match a
    case ToSupervisor(EndReported(p)) => p.pid !in w.machine.servers
    case ToReplaced(_, EndReported(p)) => p.pid !in w.machine.servers
    case _ => true
  }

  /** Every end of a process in this run is reported only once the process is gone. */
  ghost predicate Honest(w: World, steps: seq<Stamp>) {
    steps == [] ||
    var before := steps[..|steps| - 1];
    Honest(w, before) && Truthful(Reached(w, before), steps[|steps| - 1].action)
  }

  ghost predicate Breaks(w: World, steps: seq<Stamp>) {
    Proper(w, steps) && Honest(w, steps) && Broken(Reached(w, steps))
  }

  /** From here it can come to what must never be. */
  ghost predicate CanBreak(w: World) {
    exists steps :: Breaks(w, steps)
  }

  lemma AlreadyBroken(w: World)
    requires Broken(w)
    ensures CanBreak(w)
  {
    assert Breaks(w, []);
  }

  lemma {:induction false} Prepended(w: World, x: Stamp, steps: seq<Stamp>)
    ensures var w1 := Next(w, x.action, x.now, x.spawn);
            && Reached(w, [x] + steps) == Reached(w1, steps)
            && (Proper(w, [x] + steps) <==> Possible(w, x.action, x.spawn) && Proper(w1, steps))
            && (Honest(w, [x] + steps) <==> Truthful(w, x.action) && Honest(w1, steps))
  {
    hide Next, Possible, Truthful;
    var all := [x] + steps;
    if steps == [] {
      assert all[..0] == [] && all[0] == x;
    } else {
      var n := |steps| - 1;
      assert all[..|steps|] == [x] + steps[..n] && all[|steps|] == steps[n];
      Prepended(w, x, steps[..n]);
    }
  }

  lemma OneStep(w: World, x: Stamp)
    requires Possible(w, x.action, x.spawn) && Truthful(w, x.action)
    requires CanBreak(Next(w, x.action, x.now, x.spawn))
    ensures CanBreak(w)
  {
    hide Next, Possible, Truthful, Broken, Reached, Proper, Honest;
    var rest :| Breaks(Next(w, x.action, x.now, x.spawn), rest);
    Prepended(w, x, rest);
    assert Breaks(w, [x] + rest);
  }

  lemma {:induction false} NewPid(used: set<int>) returns (pid: int)
    ensures 0 < pid && forall x :: x in used ==> x < pid
    decreases |used|
  {
    pid := 1;
    if x :| x in used {
      var rest := used - {x};
      var next := NewPid(rest);
      pid := if next <= x then x + 1 else next;
      forall y | y in used ensures y < pid { assert y == x || y in rest; }
    }
  }

  /** A pid that is not alive, nor `other`. */
  lemma FreePid(m: Machine, other: int) returns (pid: int)
    ensures 0 < pid && !IsAlive(m, pid) && pid != other
  {
    pid := NewPid(m.servers + m.others + {other});
  }

  lemma Two(s: set<int>, pid: int)
    requires s != {} && pid !in s
    ensures 2 <= |s + {pid}|
  {
    assert (forall p :: p !in s) ==> s == {};
    assert exists p :: p in s;
    var p :| p in s;
    SubsetSize({p, pid}, s + {pid});
  }

  // ----- a live server without a record -----

  lemma StartsAnother(m: Machine)
    requires m.servers != {} && m.file == None
    ensures CanBreak(Alone(m, INITIAL))
  {
    var pid := FreePid(m, 0);
    FreshSupervisor(m);
    hide Safety.Inv, Start, After;
    StartEffects(m, INITIAL, 0, Spawning(pid));
    StartSpawns(INITIAL, 0, pid);
    var x := Stamp(PressStart, 0, Spawning(pid));
    Two(m.servers, pid);
    AlreadyBroken(Next(Alone(m, INITIAL), x.action, x.now, x.spawn));
    OneStep(Alone(m, INITIAL), x);
  }

  /** Quit, launch and start. */
  lemma NoRecordLeft(w: World)
    requires w.machine.servers != {} && w.machine.file == None
    ensures CanBreak(w)
  {
    hide CanBreak;
    var off := World(w.machine, None);
    StartsAnother(w.machine);
    assert Next(off, LaunchApp(true), 0, Throwing()) == Alone(w.machine, INITIAL);
    OneStep(off, Do(LaunchApp(true)));
    if w.session.Some? {
      assert Next(w, Quit, 0, Throwing()) == off;
      OneStep(w, Do(Quit));
    }
  }

  // ----- a lookup that clears the record -----

  lemma LookupBreaks(w: World, now: int, spawn: SpawnOracle)
    requires Inv(w) && Hazard(w, AdoptResumes, spawn)
    ensures CanBreak(Next(w, AdoptResumes, now, spawn))
  {
    NoRecordLeft(Next(w, AdoptResumes, now, spawn));
  }

  // ----- the end of a server that still runs -----

  lemma LetGoBreaks(w: World, p: Handle, now: int, spawn: SpawnOracle)
    requires Inv(w) && Possible(w, ToSupervisor(EndReported(p)), spawn) && Hazard(w, ToSupervisor(EndReported(p)), spawn)
    ensures CanBreak(Next(w, ToSupervisor(EndReported(p)), now, spawn))
  {
    var m, s := w.machine, w.session.value.sup.value;
    hide Safety.Inv, After, ProcessEnded, CanBreak;
    EndReportEffects(m, s, p, now, spawn);
    var w1 := Next(w, ToSupervisor(EndReported(p)), now, spawn);
    var r := ProcessEnded(s, p, now, spawn);
    assert w1.machine == After(m, s, r);
    if r.child.Some? {
      Two(m.servers, r.child.value.pid);
      AlreadyBroken(w1);
    } else {
      NoRecordLeft(w1);
    }
  }

  // ----- a restart under an update -----

  lemma RestartBreaks(w: World, k: nat, now: int, spawn: SpawnOracle)
    requires Inv(w) && Hazard(w, ToSupervisor(RestartResumes(k)), spawn)
    ensures CanBreak(Next(w, ToSupervisor(RestartResumes(k)), now, spawn))
  {
    var ss := w.session.value;
    var m, s := w.machine, ss.sup.value;
    var r := RestartResumed(s, k, now, spawn);
    assert Idle(s);
    RestartStarts(s, k, now, spawn);
    RestartMoves(m, s, k, now, spawn);
    StepPromises(s, RestartResumes(k), now, spawn);
    hide Safety.Inv, After, RestartResumed, CanBreak, Moved, StartSucceeds;
    var w1 := Next(w, ToSupervisor(RestartResumes(k)), now, spawn);
    assert w1 == World(After(m, s, r), Some(ss.(sup := Some(r))));
    assert r.child.value.pid in w1.machine.servers;
    if ss.updating == SteamCmd {
      AlreadyBroken(w1);
    } else {
      UpdateGoesOnToo(w1, ss.(sup := Some(r)));
    }
  }

  /** The update's stop has settled `stopped` too. */
  lemma UpdateGoesOnToo(w: World, ss: Session)
    requires w.session == Some(ss) && w.machine.servers != {} && ss.sup.Some? && ss.updating.AwaitingStop?
    requires ss.updating.stop in ss.sup.value.settled && ss.sup.value.settled[ss.updating.stop] == Gone
    ensures CanBreak(w)
  {
    hide CanBreak;
    AlreadyBroken(Next(w, UpdateStopSettles, 0, Throwing()));
    OneStep(w, Do(UpdateStopSettles));
  }

  // ----- a restart of a replaced supervisor -----

  /** A replaced supervisor whose server's end will make it restart that server, ungated. */
  ghost predicate Armed(ss: Session, i: nat) {
    && i < |ss.replaced|
    && Safety.Inv(ss.replaced[i]) && ss.replaced[i].child.Some? && !ss.replaced[i].stopRequested
  }

  function PidOf(ss: Session, i: nat): int
    requires i < |ss.replaced| && ss.replaced[i].child.Some?
  {
    ss.replaced[i].child.value.pid
  }

  /** A time at which none of these restarts counts any more. */
  lemma {:induction false} LongAfter(times: seq<int>) returns (now: int)
    ensures forall later :: now <= later ==> Recent(times, later) == []
  {
    now := 0;
    if times != [] {
      now := LongAfter(times[1..]);
      if now < times[0] + RESTART_WINDOW_MS { now := times[0] + RESTART_WINDOW_MS; }
    }
  }

  lemma RestartsAtOnce(s: State, p: Handle, now: int, pid: int)
    requires Safety.Inv(s) && s.child == Some(p) && !s.stopRequested && Recent(s.restarts, now) == []
    ensures ProcessEnded(s, p, now, Spawning(pid)).child.Some?
  {
    hide Safety.Summary, Safety.Sound, Launch, OnEnded;
    var s1 := Note(s.(handled := s.handled + {p}), Ended(p));
    Restarts.EndTriesInOrder(s1, now, Spawning(pid));
    assert Spawning(pid)(s1.nextHandle).Some?;
  }

  /** Its server gone, it starts another beside a running one, or under SteamCMD. */
  lemma Fires(w: World, ss: Session, i: nat)
    requires w.session == Some(ss) && Armed(ss, i) && PidOf(ss, i) !in w.machine.servers
    requires w.machine.servers != {} || ss.updating == SteamCmd
    ensures CanBreak(w)
  {
    var m, s, p := w.machine, ss.replaced[i], ss.replaced[i].child.value;
    var now := LongAfter(s.restarts);
    var pid := FreePid(w.machine, 0);
    hide Safety.Inv, After, ProcessEnded, CanBreak, Recent;
    RestartsAtOnce(s, p, now, pid);
    EndReportEffects(m, s, p, now, Spawning(pid));
    var x := Stamp(ToReplaced(i, EndReported(p)), now, Spawning(pid));
    var w1 := Next(w, x.action, x.now, x.spawn);
    assert w1.machine.servers == m.servers + {pid};
    if m.servers != {} { Two(m.servers, pid); } else { assert pid in w1.machine.servers; }
    AlreadyBroken(w1);
    OneStep(w, x);
  }

  /** No server runs and none is recorded alive, with an armed supervisor behind the app's own. */
  ghost predicate Loaded(w: World, ss: Session, i: nat) {
    && w.session == Some(ss) && Armed(ss, i)
    && w.machine.servers == {}
    && (w.machine.file.Some? ==> !IsAlive(w.machine, w.machine.file.value))
    && (ss.sup.Some? ==> Safety.Inv(ss.sup.value))
    && (ss.updating.AwaitingStop? ==>
          && ss.sup.Some?
          && (ss.updating.stop in ss.sup.value.settled || ss.sup.value.stopping == Some(ss.updating.stop)))
  }

  lemma Fed(w: World, ss: Session, e: Event, now: int, spawn: SpawnOracle)
    requires w.session == Some(ss) && ss.sup.Some?
    ensures var r := Step(ss.sup.value, e, now, spawn);
            Next(w, ToSupervisor(e), now, spawn) == World(After(w.machine, ss.sup.value, r), Some(ss.(sup := Some(r))))
  {
    hide Step, After;
  }

  lemma StepEnds(s: State, p: Handle, now: int, spawn: SpawnOracle)
    ensures Step(s, EndReported(p), now, spawn) == ProcessEnded(s, p, now, spawn)
  {
  }

  /** A step of the app's own supervisor that starts nothing leaves it so. */
  lemma StillLoaded(w: World, ss: Session, i: nat, m: Machine, r: State)
    requires Loaded(w, ss, i) && ss.sup.Some? && ss.updating != SteamCmd
    requires m == w.machine || m == w.machine.(file := None)
    requires Safety.Inv(r) && Promised(ss.sup.value, r)
    ensures Loaded(World(m, Some(ss.(sup := Some(r)))), ss.(sup := Some(r)), i)
  {
    hide Safety.Inv;
  }

  /** Start. */
  lemma FromIdle(w: World, ss: Session, i: nat)
    requires Loaded(w, ss, i) && ss.updating == NotUpdating && ss.sup.Some? && Idle(ss.sup.value)
    ensures CanBreak(w)
  {
    var s, m := ss.sup.value, w.machine.(file := None);
    var pid := FreePid(w.machine, PidOf(ss, i));
    hide Safety.Inv, After, Start, CanBreak;
    StartEffects(m, s, 0, Spawning(pid));
    StartEffects(w.machine, s, 0, Spawning(pid));
    StartSpawns(s, 0, pid);
    var x := Stamp(PressStart, 0, Spawning(pid));
    var r := Start(s, 0, Spawning(pid));
    var w1, ss1 := Next(w, x.action, x.now, x.spawn), ss.(sup := Some(r));
    assert w1.session == Some(ss1) && w1.machine.servers == {pid};
    Fires(w1, ss1, i);
    OneStep(w, x);
  }

  /** With no folder configured, choose one first. */
  lemma FromNone(w: World, ss: Session, i: nat)
    requires Loaded(w, ss, i) && ss.updating == NotUpdating && ss.sup.None?
    ensures CanBreak(w)
  {
    FreshSupervisor(w.machine);
    hide Safety.Inv, CanBreak;
    FromIdle(Next(w, PickFolder, 0, Throwing()), ss.(sup := Some(INITIAL)), i);
    OneStep(w, Do(PickFolder));
  }

  /** The update's stop has settled: SteamCMD runs, or nothing does. */
  lemma FromSettled(w: World, ss: Session, i: nat)
    requires Loaded(w, ss, i) && ss.updating.AwaitingStop? && Idle(ss.sup.value)
    requires ss.updating.stop in ss.sup.value.settled
    ensures CanBreak(w)
  {
    hide Safety.Inv, CanBreak;
    var w1 := Next(w, UpdateStopSettles, 0, Throwing());
    if ss.sup.value.settled[ss.updating.stop] == Gone {
      Fires(w1, ss.(updating := SteamCmd), i);
    } else {
      FromIdle(w1, ss.(updating := NotUpdating), i);
    }
    OneStep(w, Do(UpdateStopSettles));
  }

  /** An idle supervisor's pending stop is still reading the token, and settles `stopped` once it is read. */
  lemma TokenSettles(s: State, k: nat)
    requires Safety.Inv(s) && Idle(s) && s.stopping == Some(k)
    ensures k in AccessAnswered(s, k, true).settled
  {
    hide Safety.Summary, Safety.Sound;
  }

  lemma ShapePromises(s: State, k: nat)
    requires Safety.Inv(s)
    ensures Promised(s, AccessAnswered(s, k, true))
  {
    hide Safety.Owned, Safety.Linked, Safety.Sound, AccessAnswered, Promised;
    AccessPromises(s, k, true);
  }

  /** What is left of a pending stop once the token is read. */
  lemma TokenRead(w: World, ss: Session, i: nat)
    requires Loaded(w, ss, i) && ss.updating.AwaitingStop? && Idle(ss.sup.value)
    requires ss.sup.value.stopping == Some(ss.updating.stop)
    ensures var s, k := ss.sup.value, ss.updating.stop;
            var r := AccessAnswered(s, k, true);
            && Next(w, ToSupervisor(AccessAnswer(k, true)), 0, Throwing()) == World(w.machine, Some(ss.(sup := Some(r))))
            && Safety.Inv(r) && Promised(s, r) && Idle(r) && k in r.settled
  {
    var s, k := ss.sup.value, ss.updating.stop;
    hide Safety.Inv, AccessAnswered, After, Next, Step, Promised, Armed;
    StepAnswers(s, k, true);
    Fed(w, ss, AccessAnswer(k, true), 0, Throwing());
    TokenSettles(s, k);
    AccessQuiet(w.machine, s, k, true);
    Safety.AccessKeeps(s, k, true);
    ShapePromises(s, k);
  }

  lemma FromPending(w: World, ss: Session, i: nat)
    requires Loaded(w, ss, i) && ss.updating.AwaitingStop? && Idle(ss.sup.value)
    requires ss.sup.value.stopping == Some(ss.updating.stop)
    ensures CanBreak(w)
  {
    hide Safety.Inv, CanBreak, AccessAnswered, Next, Step, Promised, Armed, Idle;
    var a, r := ToSupervisor(AccessAnswer(ss.updating.stop, true)), AccessAnswered(ss.sup.value, ss.updating.stop, true);
    TokenRead(w, ss, i);
    StillLoaded(w, ss, i, w.machine, r);
    FromSettled(World(w.machine, Some(ss.(sup := Some(r)))), ss.(sup := Some(r)), i);
    OneStep(w, Do(a));
  }

  lemma FromAnyIdle(w: World, ss: Session, i: nat)
    requires Loaded(w, ss, i) && (ss.sup.Some? ==> Idle(ss.sup.value)) && ss.updating != SteamCmd
    ensures CanBreak(w)
  {
    hide Safety.Inv, CanBreak, Armed, IsAlive, Idle;
    if ss.updating == NotUpdating {
      if ss.sup.Some? { FromIdle(w, ss, i); } else { FromNone(w, ss, i); }
    } else if ss.updating.stop in ss.sup.value.settled {
      FromSettled(w, ss, i);
    } else {
      FromPending(w, ss, i);
    }
  }

  lemma StillArmed(ss: Session, ss1: Session, i: nat)
    requires Armed(ss, i) && ss1.replaced == ss.replaced
    ensures Armed(ss1, i)
  {
    hide Safety.Inv;
  }

  /** The app's own server is gone too: it is restarted, or its supervisor becomes idle. */
  lemma FromBusy(w: World, ss: Session, i: nat)
    requires Loaded(w, ss, i) && ss.sup.Some? && ss.sup.value.child.Some? && ss.updating != SteamCmd
    ensures CanBreak(w)
  {
    var m, s, p := w.machine, ss.sup.value, ss.sup.value.child.value;
    var pid := FreePid(w.machine, PidOf(ss, i));
    var x := Stamp(ToSupervisor(EndReported(p)), 0, Spawning(pid));
    hide Safety.Inv, After, ProcessEnded, CanBreak, Promised, Armed, Next, Step;
    StepEnds(s, p, 0, Spawning(pid));
    Fed(w, ss, EndReported(p), 0, Spawning(pid));
    EndReportEffects(m, s, p, 0, Spawning(pid));
    Safety.StepKeeps(s, EndReported(p), 0, Spawning(pid));
    StepPromises(s, EndReported(p), 0, Spawning(pid));
    var r := ProcessEnded(s, p, 0, Spawning(pid));
    ChildIffBusy(r);
    var w1, ss1 := Next(w, x.action, x.now, x.spawn), ss.(sup := Some(r));
    if r.child.Some? {
      assert w1.machine.servers == {pid};
      StillArmed(ss, ss1, i);
      Fires(w1, ss1, i);
    } else {
      StillLoaded(w, ss, i, m.(file := None), r);
      hide Loaded;
      FromAnyIdle(w1, ss1, i);
    }
    OneStep(w, x);
  }

  lemma LoadedBreaks(w: World, ss: Session, i: nat)
    requires Loaded(w, ss, i)
    ensures CanBreak(w)
  {
    if ss.sup.Some? { ChildIffBusy(ss.sup.value); }
    hide Safety.Inv, CanBreak, Idle;
    if ss.updating == SteamCmd { Fires(w, ss, i); }
    else if ss.sup.Some? && ss.sup.value.child.Some? { FromBusy(w, ss, i); }
    else { FromAnyIdle(w, ss, i); }
  }

  lemma RestartedShape(s: State, k: nat, now: int, spawn: SpawnOracle)
    requires Safety.Inv(s) && Idle(s) && RestartGoesOn(s, k) && StartSucceeds(s, spawn)
    ensures var r := RestartResumed(s, k, now, spawn);
            Safety.Inv(r) && r.child.Some? && !r.stopRequested
  {
    hide Safety.Summary, Safety.Sound, Launch;
    RestartStarts(s, k, now, spawn);
    Safety.StepKeeps(s, RestartResumes(k), now, spawn);
    Safety.LaunchLeads(Note(s.(waiters := s.waiters - multiset{k}, restarts := []), Explicit), now, spawn);
  }

  lemma ReplacedBreaks(w: World, i: nat, k: nat, now: int, spawn: SpawnOracle)
    requires Inv(w) && Possible(w, ToReplaced(i, RestartResumes(k)), spawn)
    requires Hazard(w, ToReplaced(i, RestartResumes(k)), spawn)
    ensures CanBreak(Next(w, ToReplaced(i, RestartResumes(k)), now, spawn))
  {
    var m, ss := w.machine, w.session.value;
    var s := ss.replaced[i];
    var r := RestartResumed(s, k, now, spawn);
    RestartStarts(s, k, now, spawn);
    RestartMoves(m, s, k, now, spawn);
    hide Safety.Inv, After, RestartResumed, CanBreak, Moved, StartSucceeds;
    var w1, ss1 := Next(w, ToReplaced(i, RestartResumes(k)), now, spawn), ss.(replaced := ss.replaced[i := r]);
    assert w1 == World(After(m, s, r), Some(ss1));
    if !StartSucceeds(s, spawn) {
      NoRecordLeft(w1);
    } else if m.servers != {} {
      Two(m.servers, r.child.value.pid);
      AlreadyBroken(w1);
    } else {
      RestartedShape(s, k, now, spawn);
      ServerOfReplaced(w, w1, ss1, i);
    }
  }

  /** The only server alive is the replaced supervisor's: it dies, and the supervisor is armed. */
  lemma ServerOfReplaced(w: World, w1: World, ss: Session, i: nat)
    requires Inv(w) && w.machine.servers == {} && w.session.Some?
    requires ss == w.session.value.(replaced := ss.replaced) && Armed(ss, i) && w1.session == Some(ss)
    requires w1.machine == w.machine.(servers := {PidOf(ss, i)}, file := Some(PidOf(ss, i)))
    requires PidOf(ss, i) !in w.machine.others
    ensures CanBreak(w1)
  {
    hide Safety.Inv, CanBreak;
    var pid := PidOf(ss, i);
    assert {pid} - {pid} == {};
    LoadedBreaks(Next(w1, ServerDies(pid), 0, Throwing()), ss, i);
    OneStep(w1, Do(ServerDies(pid)));
  }

  // ----- the claim -----

  lemma InvNotBroken(w: World)
    requires Inv(w)
    ensures !Broken(w)
  {
    hide Safety.Inv;
    if w.machine.servers != {} { OneServer(w.machine); }
  }

  /**
   * From a state of the invariant, a step that is no hazard leads to such a state, which is not broken; a hazard step leads
   * to one from which a run that can happen ends broken.
   */
  lemma HazardsAreReal(w: World, a: Action, now: int, spawn: SpawnOracle)
    requires Inv(w) && Possible(w, a, spawn)
    ensures !Hazard(w, a, spawn) ==> Inv(Next(w, a, now, spawn)) && !Broken(Next(w, a, now, spawn))
    ensures Hazard(w, a, spawn) ==> CanBreak(Next(w, a, now, spawn))
  {
    hide Inv, Next, Possible, CanBreak, Broken;
    if Hazard(w, a, spawn) {
      match a {
        case AdoptResumes => LookupBreaks(w, now, spawn);
        case ToReplaced(i, RestartResumes(k)) => ReplacedBreaks(w, i, k, now, spawn);
        case ToSupervisor(RestartResumes(k)) => RestartBreaks(w, k, now, spawn);
        case ToSupervisor(EndReported(p)) => LetGoBreaks(w, p, now, spawn);
        case _ =>
      }
    } else {
      StepKeepsUnlessHazard(w, a, now, spawn);
      InvNotBroken(Next(w, a, now, spawn));
    }
  }

  /** Over runs of sessions from power-on: what the first hazard leads to can end broken; `NeverASecondServer` is the rest. */
  lemma FirstHazardBreaks(steps: seq<Stamp>)
    requires Proper(POWERED_ON, steps) && steps != []
    requires NoHazard(POWERED_ON, steps[..|steps| - 1]) && !NoHazard(POWERED_ON, steps)
    ensures CanBreak(Reached(POWERED_ON, steps))
  {
    hide Next, Possible, Hazard, CanBreak, Safety.Inv;
    var last, before := steps[|steps| - 1], steps[..|steps| - 1];
    RunKeeps(POWERED_ON, before);
    HazardsAreReal(Reached(POWERED_ON, before), last.action, last.now, last.spawn);
  }
}
