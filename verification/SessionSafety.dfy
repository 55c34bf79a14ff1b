/**
 * When the app really never runs a second server: the invariant "every live server is the one in the pid file" is kept by
 * a step exactly when the step is not one of four hazards, each shown reachable below.
 */
module SessionSafety {
  import opened Wrappers
  import opened Ranges
  import opened ServerSupervisor
  import opened Sessions
  import Commands = ServerCommands
  import Restarts = SupervisorRestarts
  import Safety = SupervisorSafety

  // ----- what a step of the supervisor does to the machine -----

  ghost predicate Extends(s: State, r: State) {
    |s.log| <= |r.log|
  }

  lemma NoteEffect(m: Machine, s: State, r: State, e: Entry)
    requires Extends(s, r)
    ensures Extends(s, Note(r, e)) && After(m, s, Note(r, e)) == Effect(After(m, s, r), e)
  {
    var n := |s.log|;
    assert Note(r, e).log[n..][..|r.log| - n] == r.log[n..];
  }

  lemma StateEffect(m: Machine, s: State, r: State, next: ServerState)
    requires Extends(s, r)
    ensures var r1 := SetState(r, next);
            && Extends(s, r1)
            && (next == r.current || !(next == Stopped || next == Crashed) ==> After(m, s, r1) == After(m, s, r))
            && (next != r.current && (next == Stopped || next == Crashed) ==>
                  After(m, s, r1) == After(m, s, r).(file := None))
  {
    NoteEffect(m, s, r.(current := next), Changed(next));
  }

  lemma {:induction false} LaunchEffects(m: Machine, s: State, s1: State, now: int, spawn: SpawnOracle)
    requires Extends(s, s1) && !s1.stopRequested
    ensures var r := Launch(s1, now, spawn);
            && Extends(s, r)
            && match r.child
               case None => After(m, s, r) == After(m, s, s1).(file := None)
               case Some(p) =>
                 && spawn(p.id) == Some(p.pid)
                 && After(m, s, r) ==
                    After(m, s, s1).(servers := After(m, s, s1).servers + {p.pid}, file := Some(p.pid))
    decreases Budget(s1, now), 1
  {
    hide After, OnEnded;
    StateEffect(m, s, s1, Starting);
    var s2 := SetState(s1, Starting);
    match spawn(s2.nextHandle) {
      case None =>
        var s3 := s2.(nextHandle := s2.nextHandle + 1, child := None);
        AfterLog(m, s, s2, s3);
        NoteEffect(m, s, s3, SpawnThrew);
        EndEffects(m, s, Note(s3, SpawnThrew), now, spawn);
      case Some(pid) =>
        var p := Handle(s2.nextHandle, pid);
        var s3 := s2.(nextHandle := s2.nextHandle + 1, child := Some(p));
        AfterLog(m, s, s2, s3);
        NoteEffect(m, s, s3, Spawned(p));
    }
  }

  lemma AfterLog(m: Machine, s: State, r1: State, r2: State)
    requires r1.log == r2.log
    ensures After(m, s, r1) == After(m, s, r2)
  {
  }

  /** An end nobody asked for: a restart, or a crash. */
  lemma {:induction false} EndEffects(m: Machine, s: State, s1: State, now: int, spawn: SpawnOracle)
    requires Extends(s, s1) && !s1.stopRequested && s1.current != Crashed
    ensures var r := OnEnded(s1, now, spawn);
            && Extends(s, r)
            && match r.child
               case None => After(m, s, r) == After(m, s, s1).(file := None)
               case Some(p) =>
                 && spawn(p.id) == Some(p.pid)
                 && After(m, s, r) ==
                    After(m, s, s1).(servers := After(m, s, s1).servers + {p.pid}, file := Some(p.pid))
    decreases Budget(s1, now), 0
  {
    hide After, Launch, Recent;
    var recent := Recent(s1.restarts, now);
    if |recent| < MAX_RESTARTS {
      RecentAppend(s1.restarts, now);
      var s2 := s1.(child := None, restarts := recent + [now]);
      AfterLog(m, s, s1, s2);
      NoteEffect(m, s, s2, AutoRestart(now));
      LaunchEffects(m, s, Note(s2, AutoRestart(now)), now, spawn);
    } else {
      var s2 := s1.(child := None, restarts := recent);
      AfterLog(m, s, s1, s2);
      StateEffect(m, s, s2, Crashed);
    }
  }

  /** From an idle supervisor a start ends crashed, with the file cleared, or with one new recorded server. */
  lemma StartEffects(m: Machine, s: State, now: int, spawn: SpawnOracle)
    requires Safety.Inv(s) && Idle(s)
    ensures var r := Start(s, now, spawn);
            && r.waiters == s.waiters
            && match r.child
               case None => After(m, s, r) == m.(file := None)
               case Some(p) =>
                 && spawn(p.id) == Some(p.pid)
                 && After(m, s, r) == m.(servers := m.servers + {p.pid}, file := Some(p.pid))
  {
    var s1 := s.(restarts := []);
    AfterLog(m, s, s, s1);
    NoteEffect(m, s, s1, Explicit);
    LaunchEffects(m, s, Note(s1, Explicit), now, spawn);
    Safety.LaunchLeads(Note(s1, Explicit), now, spawn);
  }

  /** The end of the supervised process: stopped or crashed with the file cleared, or restarted. */
  lemma EndReportEffects(m: Machine, s: State, p: Handle, now: int, spawn: SpawnOracle)
    requires Safety.Inv(s) && s.child == Some(p)
    ensures var r := ProcessEnded(s, p, now, spawn);
            && r.waiters == s.waiters
            && match r.child
               case None => After(m, s, r) == m.(file := None)
               case Some(q) =>
                 && spawn(q.id) == Some(q.pid)
                 && After(m, s, r) == m.(servers := m.servers + {q.pid}, file := Some(q.pid))
  {
    hide After;
    var s1 := s.(handled := s.handled + {p});
    AfterLog(m, s, s, s1);
    EmptyAfter(m, s);
    NoteEffect(m, s, s1, Ended(p));
    var s2 := Note(s1, Ended(p));
    if s.stopRequested {
      var s3 := s2.(child := None, stopRequested := false);
      AfterLog(m, s, s2, s3);
      StateEffect(m, s, s3, Stopped);
      FinishEffect(m, s, SetState(s3, Stopped), Gone);
    } else {
      EndEffects(m, s, s2, now, spawn);
      Safety.EndLeads(s2, now, spawn);
    }
  }

  lemma EmptyAfter(m: Machine, s: State)
    ensures After(m, s, s) == m
  {
  }

  lemma FinishEffect(m: Machine, s: State, s1: State, outcome: StopOutcome)
    requires Extends(s, s1)
    ensures Extends(s, FinishStop(s1, outcome)) && After(m, s, FinishStop(s1, outcome)) == After(m, s, s1)
  {
    var s2 := s1.(timer := None, forceRequested := false, stopping := None);
    match s1.stopping {
      case None => AfterLog(m, s, s1, s2);
      case Some(k) =>
        var s3 := s2.(settled := s2.settled[k := outcome]);
        AfterLog(m, s, s1, s3);
        NoteEffect(m, s, s3, Settled(k, outcome, s1.child));
    }
  }

  lemma ForceEffect(m: Machine, s: State, s1: State, k: nat)
    requires Extends(s, s1)
    ensures Extends(s, ForceStop(s1, k)) && After(m, s, ForceStop(s1, k)) == After(m, s, s1)
  {
    hide After;
    var s0 := s1.(stopRequested := true, forced := false);
    AfterLog(m, s, s1, s0);
    StateEffect(m, s, s0, Stopping);
    var s2 := if s1.stopRequested then s1 else BeginStopping(s1);
    var s3 := s2.(forced := true, timer := None);
    AfterLog(m, s, s2, s3);
    if s3.child.Some? { NoteEffect(m, s, s3, Killed(k, s3.child.value)); }
  }

  /** Stopping, its answers and the timer neither spawn nor touch the pid file. */
  ghost predicate Quiet(m: Machine, s: State, r: State) {
    After(m, s, r) == m && r.child == s.child && (Idle(r) <==> Idle(s))
  }

  lemma StopQuiet(m: Machine, s: State, anyway: bool)
    requires Safety.Inv(s)
    ensures Quiet(m, s, Stop(s, anyway)) && Stop(s, anyway).waiters == s.waiters
  {
    hide After;
    EmptyAfter(m, s);
    var k := StopPromise(s);
    var s1 := Note(s, Asked(k, anyway, FoundStarting(s)));
    NoteEffect(m, s, s, Asked(k, anyway, FoundStarting(s)));
    if s.stopping.Some? {
      ForceEffect(m, s, s1, k);
      AfterLog(m, s, s1, s1.(forceRequested := true));
    } else {
      var s2 := s1.(nextStop := k + 1);
      AfterLog(m, s, s1, s2);
      OpenQuiet(m, s, s2, k, anyway);
    }
  }

  /** Opening a stop touches neither the machine nor what is supervised. */
  lemma OpenQuiet(m: Machine, s: State, s2: State, k: nat, anyway: bool)
    requires Extends(s, s2) && s2.child == s.child && s2.current == s.current && s2.waiters == s.waiters
    requires (s.child.None? <==> Idle(s)) && After(m, s, s2) == m
    ensures Quiet(m, s, OpenStop(s2, k, anyway)) && OpenStop(s2, k, anyway).waiters == s.waiters
  {
    hide After;
    if Idle(s) {
      NoteEffect(m, s, s2.(settled := s2.settled[k := Gone]), Settled(k, Gone, s.child));
      AfterLog(m, s, s2, s2.(settled := s2.settled[k := Gone]));
    } else {
      var s3 := s2.(stopping := Some(k));
      AfterLog(m, s, s2, s3);
      ForceEffect(m, s, s3, k);
      AfterLog(m, s, s3, s3.(conts := s3.conts[k := ReadingAccess]));
    }
  }

  lemma AccessQuiet(m: Machine, s: State, k: nat, granted: bool)
    requires Safety.Inv(s)
    ensures Quiet(m, s, AccessAnswered(s, k, granted)) && AccessAnswered(s, k, granted).waiters == s.waiters
  {
    hide After;
    EmptyAfter(m, s);
    if k in s.conts && s.conts[k] == ReadingAccess {
      var s1 := s.(conts := s.conts - {k});
      AfterLog(m, s, s, s1);
      if s.child.None? || s.current != Running {
        FinishEffect(m, s, s1, if s.child.Some? then Failed else Gone);
      } else if s.forceRequested {
        ForceEffect(m, s, s1, k);
      } else if !granted {
        FinishEffect(m, s, s1, Unavailable);
      } else {
        var s2 := s1.(stopRequested := true, forced := false);
        AfterLog(m, s, s1, s2);
        StateEffect(m, s, s2, Stopping);
        AfterLog(m, s, SetState(s2, Stopping), AccessAnswered(s, k, granted));
      }
    }
  }

  lemma SaveQuiet(m: Machine, s: State, k: nat, succeeded: bool)
    requires Safety.Inv(s)
    ensures Quiet(m, s, SaveAnswered(s, k, succeeded)) && SaveAnswered(s, k, succeeded).waiters == s.waiters
  {
    hide After;
    EmptyAfter(m, s);
    if k in s.conts && s.conts[k].Saving? {
      var proc := s.conts[k].proc;
      var s1 := s.(conts := s.conts - {k});
      AfterLog(m, s, s, s1);
      NoteEffect(m, s, s1, Saved(k, proc));
      var s2 := if succeeded then Note(s1, Saved(k, proc)) else s1;
      if s.child == Some(proc) && !s.forced {
        if succeeded {
          AfterLog(m, s, s2, s2.(conts := s2.conts[k := ShuttingDown(proc)]));
        } else {
          AfterLog(m, s, s2, s2.(stopRequested := false));
          StateEffect(m, s, s2.(stopRequested := false), Running);
          FinishEffect(m, s, SetState(s2.(stopRequested := false), Running), Failed);
        }
      }
    }
  }

  lemma TimerQuiet(m: Machine, s: State)
    ensures Quiet(m, s, TimerFired(s)) && TimerFired(s).waiters == s.waiters
  {
    hide After;
    EmptyAfter(m, s);
    if s.timer.Some? {
      var s1 := s.(timer := None);
      AfterLog(m, s, s, s1);
      NoteEffect(m, s, s1, Killed(s.timer.value.stop, s.timer.value.proc));
    }
  }

  lemma AdoptEffects(m: Machine, s: State, pid: int)
    requires Safety.Inv(s) && Idle(s) && 0 < pid <= MAX_SAFE_INTEGER
    ensures var r := Adopt(s, pid);
            After(m, s, r) == m && r.child == Some(Handle(s.nextHandle, pid)) && !Idle(r)
  {
    hide After;
    EmptyAfter(m, s);
    var s1 := s.(restarts := []);
    AfterLog(m, s, s, s1);
    NoteEffect(m, s, s1, Explicit);
    var s2 := Note(s1, Explicit);
    var s3 := s2.(nextHandle := s2.nextHandle + 1, child := Some(Handle(s.nextHandle, pid)));
    AfterLog(m, s, s2, s3);
    NoteEffect(m, s, s3, Attached(Handle(s.nextHandle, pid)));
    StateEffect(m, s, Note(s3, Attached(Handle(s.nextHandle, pid))), Running);
  }

  /** What the runtime's events do to an otherwise untouched machine. */
  ghost predicate Moved(m: Machine, s: State, r: State, spawn: SpawnOracle) {
    || Quiet(m, s, r)
    || (r.child.None? && Idle(r) && After(m, s, r) == m.(file := None))
    || (&& r.child.Some? && !Idle(r)
        && spawn(r.child.value.id) == Some(r.child.value.pid)
        && After(m, s, r) == m.(servers := m.servers + {r.child.value.pid}, file := Some(r.child.value.pid)))
  }

  /** Only a truthful end of the child, or a restart that goes on from idle, is more than quiet. */
  ghost predicate Loud(s: State, e: Event) {
    match e
    case EndReported(p) => s.child == Some(p)
    case RestartResumes(k) => Idle(s) && k in s.waiters && k in s.settled && s.settled[k] == Gone
    case _ => false
  }

  /** A restart that goes on: nothing moves, or the start it makes. */
  lemma RestartMoves(m: Machine, s: State, k: nat, now: int, spawn: SpawnOracle)
    requires Safety.Inv(s) && k in s.waiters && k in s.settled
    ensures var e := RestartResumes(k);
            var r := RestartResumed(s, k, now, spawn);
            && Moved(m, s, r, spawn) && r.waiters <= s.waiters
            && (!Loud(s, e) ==> Quiet(m, s, r))
            && (Loud(s, e) && r.child.None? ==> After(m, s, r) == m.(file := None))
            && (Loud(s, e) && r.child.Some? ==>
                  After(m, s, r) == m.(servers := m.servers + {r.child.value.pid}, file := Some(r.child.value.pid))
                  && spawn(r.child.value.id) == Some(r.child.value.pid))
  {
    hide After, Launch, OnEnded;
    var s1 := s.(waiters := s.waiters - multiset{k});
    if Loud(s, RestartResumes(k)) {
      Safety.WaitersAside(s, s1.waiters);
      StartEffects(m, s1, now, spawn);
      Safety.StartKeeps(s1, now, spawn);
      ChildIffBusy(Start(s1, now, spawn));
      Rebased(m, s, s1, Start(s1, now, spawn));
    } else { AfterLog(m, s, s, s1); EmptyAfter(m, s); }
  }

  lemma RuntimeMoves(m: Machine, s: State, e: Event, now: int, spawn: SpawnOracle)
    requires Safety.Inv(s) && FromRuntime(e)
    ensures var r := Step(s, e, now, spawn);
            && Safety.Inv(r) && Moved(m, s, r, spawn)
            && r.waiters <= s.waiters
            && (!Loud(s, e) ==> Quiet(m, s, r))
            && (Loud(s, e) && r.child.None? ==> After(m, s, r) == m.(file := None))
            && (Loud(s, e) && r.child.Some? ==>
                  After(m, s, r) == m.(servers := m.servers + {r.child.value.pid}, file := Some(r.child.value.pid))
                  && spawn(r.child.value.id) == Some(r.child.value.pid))
  {
    hide After, Launch, OnEnded, Start;
    Safety.StepKeeps(s, e, now, spawn);
    EmptyAfter(m, s);
    match e {
      case SpawnReported(p) => StateEffect(m, s, s, Running);
      case EndReported(p) => if s.child == Some(p) { EndReportEffects(m, s, p, now, spawn); }
      case AccessAnswer(k, granted) => AccessQuiet(m, s, k, granted);
      case SaveAnswer(k, succeeded) => SaveQuiet(m, s, k, succeeded);
      case ShutdownAnswer(k) => AfterLog(m, s, s, ShutdownAnswered(s, k));
      case TimerFires => TimerQuiet(m, s);
      case RestartResumes(k) =>
        if k in s.waiters && k in s.settled { RestartMoves(m, s, k, now, spawn); }
      case _ =>
    }
  }

  lemma Rebased(m: Machine, s: State, s1: State, r: State)
    requires s.log == s1.log
    ensures After(m, s, r) == After(m, s1, r)
  {
  }

  /** A stop promise never changes once settled, and a pending one is settled `stopped` only with nothing supervised. */
  ghost predicate Promised(s: State, r: State) {
    && (forall k :: k in s.settled ==> k in r.settled && r.settled[k] == s.settled[k])
    && (s.stopping.Some? ==>
          || r.stopping == s.stopping
          || (s.stopping.value in r.settled && (r.settled[s.stopping.value] == Gone ==> Idle(r))))
  }

  lemma StopPromises(s: State, anyway: bool)
    requires Safety.Shape(s)
    ensures Promised(s, Stop(s, anyway))
  {
  }

  lemma AccessPromises(s: State, k: nat, yes: bool)
    requires Safety.Shape(s)
    ensures Promised(s, AccessAnswered(s, k, yes))
  {
  }

  lemma SavePromises(s: State, k: nat, yes: bool)
    requires Safety.Shape(s)
    ensures Promised(s, SaveAnswered(s, k, yes))
  {
  }

  lemma EndPromises(s: State, p: Handle, now: int, spawn: SpawnOracle)
    requires Safety.Shape(s)
    ensures Promised(s, ProcessEnded(s, p, now, spawn))
  {
    hide Safety.Summary, Safety.Sound, Launch, Recent;
    var s1 := Note(s.(handled := s.handled + {p}), Ended(p));
    if !s.stopRequested { Safety.EndLeads(s1, now, spawn); }
  }

  lemma StartPromises(s: State, now: int, spawn: SpawnOracle)
    requires Safety.Shape(s)
    ensures Promised(s, Start(s, now, spawn))
  {
    hide Safety.Summary, Safety.Sound, Launch;
    if Idle(s) { Safety.LaunchLeads(Note(s.(restarts := []), Explicit), now, spawn); }
  }

  lemma RestartPromises(s: State, anyway: bool)
    requires Safety.Shape(s)
    ensures Promised(s, Restart(s, anyway))
  {
    hide Stop;
    StopPromises(s, anyway);
  }

  lemma ResumedPromises(s: State, k: nat, now: int, spawn: SpawnOracle)
    requires Safety.Shape(s)
    ensures Promised(s, RestartResumed(s, k, now, spawn))
  {
    hide Start;
    StartPromises(s.(waiters := s.waiters - multiset{k}), now, spawn);
  }

  /** Adopting, a spawn report, the shutdown's answer and the timer settle no stop. */
  lemma OtherPromises(s: State, e: Event, now: int, spawn: SpawnOracle)
    requires Safety.Shape(s) && (e.AdoptCalled? || e.SpawnReported? || e.ShutdownAnswer? || e.TimerFires?)
    ensures Promised(s, Step(s, e, now, spawn))
  {
  }

  lemma StepPromises(s: State, e: Event, now: int, spawn: SpawnOracle)
    requires Safety.Inv(s)
    ensures Promised(s, Step(s, e, now, spawn))
  {
    assert Safety.Shape(s);
    hide Safety.Inv, Promised, Start, Stop, Restart, ProcessEnded, AccessAnswered, SaveAnswered, RestartResumed;
    match e {
      case StartCalled => StartPromises(s, now, spawn);
      case StopCalled(anyway) => StopPromises(s, anyway);
      case RestartCalled(anyway) => RestartPromises(s, anyway);
      case EndReported(p) => EndPromises(s, p, now, spawn);
      case AccessAnswer(k, granted) => AccessPromises(s, k, granted);
      case SaveAnswer(k, succeeded) => SavePromises(s, k, succeeded);
      case RestartResumes(k) => ResumedPromises(s, k, now, spawn);
      case _ => OtherPromises(s, e, now, spawn);
    }
  }

  // ----- the invariant and its hazards -----

  ghost predicate Recorded(m: Machine) {
    forall p :: p in m.servers ==> 0 < p && m.file == Some(p)
  }

  ghost predicate SupervisorOk(m: Machine, s: State) {
    && Safety.Inv(s)
    && (s.child.Some? ==> m.servers <= {s.child.value.pid})
    && (Idle(s) && s.waiters != multiset{} ==> m.servers == {})
  }

  ghost predicate UpdateOk(m: Machine, ss: Session) {
    match ss.updating
    case NotUpdating => true
    case SteamCmd => SupIdle(ss) && m.servers == {}
    case AwaitingStop(k) =>
      && ss.sup.Some?
      && var s := ss.sup.value;
      && (k in s.settled || s.stopping == Some(k))
      && (k in s.settled && s.settled[k] == Gone ==> Idle(s))
      && (Idle(s) ==> m.servers == {})
  }

  ghost predicate SessionOk(m: Machine, ss: Session) {
    && (ss.sup.Some? ==> SupervisorOk(m, ss.sup.value))
    && (forall i :: 0 <= i < |ss.replaced| ==> Safety.Inv(ss.replaced[i]) && Idle(ss.replaced[i]))
    && (ss.adopting.Some? && ss.adopting.value.sup == |ss.replaced| ==>
          ss.sup.Some? && (SupIdle(ss) ==> m.servers <= {ss.adopting.value.pid}))
    && (ss.adopting.Some? ==> ss.adopting.value.sup <= |ss.replaced|)
    && UpdateOk(m, ss)
  }

  /** Every live server is the one in the pid file, so there is at most one; and the app knows of it. */
  ghost predicate Inv(w: World) {
    Recorded(w.machine) && (w.session.Some? ==> SessionOk(w.machine, w.session.value))
  }

  ghost predicate RestartGoesOn(s: State, k: nat) {
    k in s.waiters && k in s.settled && s.settled[k] == Gone
  }

  /** The start that a pending restart makes gets a process: one of its spawn attempts does not throw. */
  ghost predicate StartSucceeds(s: State, spawn: SpawnOracle) {
    Restarts.SomeSpawn(spawn, s.nextHandle, MAX_RESTARTS + 1)
  }

  /** An update has had its stop settled, and runs SteamCMD or is about to. */
  ghost predicate UpdateGoesOn(ss: Session, s: State) {
    || ss.updating == SteamCmd
    || (&& ss.updating.AwaitingStop? && ss.updating.stop in s.settled && s.settled[ss.updating.stop] == Gone)
  }

  /**
   * The four ways out of the invariant:
   *  - `findLeftover` clears the pid file after its await, although a server started meanwhile is recorded there;
   *  - a `restart` still pending on a supervisor that a folder change replaced goes on, and starts that one ungated;
   *  - a `restart` goes on, and starts the server, while an update has stopped it for SteamCMD;
   *  - the supervised server is reported ended although it still runs: a `kill` that found its command line unreadable,
   *    or an error event of a process that goes on.
   */
  ghost predicate Hazard(w: World, a: Action, spawn: SpawnOracle) {
    w.session.Some? &&
    var ss := w.session.value;
    match a
    case AdoptResumes =>
      ss.adopting.Some? && ss.adopting.value.Read? && ss.adopting.value.verdict == Other && w.machine.servers != {}
    case ToReplaced(i, RestartResumes(k)) =>
      && i < |ss.replaced| && RestartGoesOn(ss.replaced[i], k)
      && (StartSucceeds(ss.replaced[i], spawn) || w.machine.servers != {})
    case ToSupervisor(RestartResumes(k)) =>
      && ss.sup.Some? && RestartGoesOn(ss.sup.value, k)
      && UpdateGoesOn(ss, ss.sup.value) && StartSucceeds(ss.sup.value, spawn)
    case ToSupervisor(EndReported(p)) =>
      ss.sup.Some? && ss.sup.value.child == Some(p) && p.pid in w.machine.servers
    case _ => false
  }

  lemma Unrecorded(m: Machine)
    requires m.servers != {} && m.file == None
    ensures !Recorded(m)
  {
    assert (forall p :: p !in m.servers) ==> m.servers == {};
  }

  lemma LeftoverNone(w: World, ss: Session)
    requires Inv(w) && w.session == Some(ss)
    ensures var (pid, w1) := Leftover(w, ss);
            && Inv(w1) && w1.session == w.session && w1.machine.servers == w.machine.servers
            && (pid.None? && SupIdle(ss) ==> w.machine.servers == {})
  {
    var (pid, w1) := Leftover(w, ss);
    if pid.None? && SupIdle(ss) {
      assert forall p :: p in w.machine.servers ==> IsAlive(w.machine, p);
      assert forall p :: p !in w.machine.servers;
    }
  }

  lemma ChildIffBusy(s: State)
    requires Safety.Inv(s)
    ensures s.child.None? <==> Idle(s)
    ensures s.stopping.Some? ==> s.stopping.value !in s.settled
  {
  }

  /** A restart that goes on from idle supervises a process exactly when its start succeeds. */
  lemma RestartStarts(s: State, k: nat, now: int, spawn: SpawnOracle)
    requires Safety.Inv(s) && Idle(s) && RestartGoesOn(s, k)
    ensures RestartResumed(s, k, now, spawn).child.Some? <==> StartSucceeds(s, spawn)
  {
    hide Safety.Summary, Safety.Sound, Start;
    Restarts.StartTriesInOrder(s.(waiters := s.waiters - multiset{k}), now, spawn);
  }

  /** The end of a server that still runs: its record is cleared, or overwritten by the server restarted beside it. */
  lemma EndOfLive(w: World, ss: Session, p: Handle, now: int, spawn: SpawnOracle)
    requires Inv(w) && w.session == Some(ss) && Possible(w, ToSupervisor(EndReported(p)), spawn)
    requires ss.sup.Some? && ss.sup.value.child == Some(p) && p.pid in w.machine.servers
    ensures !Inv(Feed(w, ss, EndReported(p), now, spawn))
  {
    hide After, ProcessEnded, Safety.Inv;
    var m, s := w.machine, ss.sup.value;
    EndReportEffects(m, s, p, now, spawn);
    var r := ProcessEnded(s, p, now, spawn);
    var m1 := After(m, s, r);
    assert p.pid in m1.servers;
    if r.child.Some? {
      assert IsAlive(m, p.pid) && !IsAlive(m, r.child.value.pid);
      assert r.child.value.pid in m1.servers;
    }
    assert !Recorded(m1);
  }

  /** The current supervisor takes a runtime event. */
  lemma FeedKeeps(w: World, ss: Session, e: Event, now: int, spawn: SpawnOracle)
    requires Inv(w) && w.session == Some(ss) && Possible(w, ToSupervisor(e), spawn)
    ensures !Hazard(w, ToSupervisor(e), spawn) <==> Inv(Feed(w, ss, e, now, spawn))
  {
    hide After, Step, Safety.Inv, StartSucceeds;
    if ss.sup.Some? {
      var s := ss.sup.value;
      if e.EndReported? && Hazard(w, ToSupervisor(e), spawn) {
        EndOfLive(w, ss, e.proc, now, spawn);
      } else if e.RestartResumes? && Loud(s, e) {
        RestartFeeds(w, ss, e, now, spawn);
      } else {
        OthersFeed(w, ss, e, now, spawn);
      }
    }
  }

  /** A restart that goes on from idle: only an update that goes on too is broken, when the start succeeds. */
  lemma RestartFeeds(w: World, ss: Session, e: Event, now: int, spawn: SpawnOracle)
    requires Inv(w) && w.session == Some(ss) && Possible(w, ToSupervisor(e), spawn) && ss.sup.Some?
    requires e.RestartResumes? && Loud(ss.sup.value, e)
    ensures !Hazard(w, ToSupervisor(e), spawn) <==> Inv(Feed(w, ss, e, now, spawn))
  {
    hide After, Step, Safety.Inv, StartSucceeds;
    var s := ss.sup.value;
    var r := Step(s, e, now, spawn);
    RuntimeMoves(w.machine, s, e, now, spawn);
    StepPromises(s, e, now, spawn);
    ChildIffBusy(s);
    ChildIffBusy(r);
    assert w.machine.servers == {};
    RestartStarts(s, e.stop, now, spawn);
    StepRestarts(s, e.stop, now, spawn);
  }

  /** Every other event keeps the invariant, an end only once the process is gone. */
  lemma OthersFeed(w: World, ss: Session, e: Event, now: int, spawn: SpawnOracle)
    requires Inv(w) && w.session == Some(ss) && Possible(w, ToSupervisor(e), spawn) && ss.sup.Some?
    requires !(e.RestartResumes? && Loud(ss.sup.value, e))
    requires e.EndReported? ==> !Hazard(w, ToSupervisor(e), spawn)
    ensures !Hazard(w, ToSupervisor(e), spawn) && Inv(Feed(w, ss, e, now, spawn))
  {
    hide After, Step, Safety.Inv, StartSucceeds;
    var s := ss.sup.value;
    var r := Step(s, e, now, spawn);
    RuntimeMoves(w.machine, s, e, now, spawn);
    StepPromises(s, e, now, spawn);
    ChildIffBusy(s);
    ChildIffBusy(r);
    assert r.waiters != multiset{} ==> s.waiters != multiset{};
    if Loud(s, e) { assert w.machine.servers == {}; }
  }

  lemma StepRestarts(s: State, k: nat, now: int, spawn: SpawnOracle)
    ensures Step(s, RestartResumes(k), now, spawn) == RestartResumed(s, k, now, spawn)
  {
  }

  /** A supervisor that a folder change replaced takes a runtime event. */
  lemma ReplacedKeeps(w: World, ss: Session, i: nat, e: Event, now: int, spawn: SpawnOracle)
    requires Inv(w) && w.session == Some(ss) && i < |ss.replaced| && Possible(w, ToReplaced(i, e), spawn)
    ensures !Hazard(w, ToReplaced(i, e), spawn) <==> Inv(Next(w, ToReplaced(i, e), now, spawn))
  {
    hide After, Step, Safety.Inv, StartSucceeds, UpdateOk;
    var s := ss.replaced[i];
    var r := Step(s, e, now, spawn);
    RuntimeMoves(w.machine, s, e, now, spawn);
    ChildIffBusy(s);
    ChildIffBusy(r);
    if e.RestartResumes? && RestartGoesOn(s, e.stop) {
      RestartStarts(s, e.stop, now, spawn);
      StepRestarts(s, e.stop, now, spawn);
    }
    var m1 := After(w.machine, s, r);
    if r.child.Some? {
      assert !Idle(ss.replaced[i := r][i]);
    } else if Loud(s, e) && w.machine.servers != {} {
      Unrecorded(m1);
    } else {
      assert m1 == w.machine || m1 == w.machine.(file := None);
      assert Recorded(m1);
      SameServers(w.machine, m1, ss, ss.(replaced := ss.replaced[i := r]));
    }
  }

  lemma SameServers(m: Machine, m1: Machine, ss: Session, ss1: Session)
    requires SessionOk(m, ss) && m1.servers == m.servers
    requires ss1 == ss.(replaced := ss1.replaced) && |ss1.replaced| == |ss.replaced|
    requires forall j :: 0 <= j < |ss1.replaced| ==> Safety.Inv(ss1.replaced[j]) && Idle(ss1.replaced[j])
    ensures SessionOk(m1, ss1)
  {
    hide Safety.Inv;
  }

  lemma PressStartKeeps(w: World, ss: Session, now: int, spawn: SpawnOracle)
    requires Inv(w) && w.session == Some(ss) && Possible(w, PressStart, spawn)
    ensures Inv(InSession(w, ss, PressStart, now, spawn))
  {
    hide After, Start, Safety.Inv, Leftover;
    LeftoverNone(w, ss);
    var (pid, w1) := Leftover(w, ss);
    if ss.updating == NotUpdating && pid.None? && ss.sup.Some? {
      var s := ss.sup.value;
      if Idle(s) { StartEffects(w1.machine, s, now, spawn); }
      else { StartBusy(s, now, spawn); EmptyAfter(w1.machine, s); }
      Safety.StepKeeps(s, StartCalled, now, spawn);
      ChildIffBusy(Start(s, now, spawn));
    }
  }

  lemma StartBusy(s: State, now: int, spawn: SpawnOracle)
    requires !Idle(s)
    ensures Start(s, now, spawn) == s
  {
  }

  lemma PressStopKeeps(w: World, ss: Session, anyway: bool, now: int, spawn: SpawnOracle)
    requires Inv(w) && w.session == Some(ss)
    ensures Inv(InSession(w, ss, PressStop(anyway), now, spawn))
  {
    hide After, Stop, Safety.Inv;
    if ss.sup.Some? {
      StopQuiet(w.machine, ss.sup.value, anyway);
      Safety.StopKeeps(ss.sup.value, anyway);
    }
  }

  lemma PressRestartKeeps(w: World, ss: Session, anyway: bool, now: int, spawn: SpawnOracle)
    requires Inv(w) && w.session == Some(ss)
    ensures Inv(InSession(w, ss, PressRestart(anyway), now, spawn))
  {
    hide After, Stop, Safety.Inv, Leftover;
    LeftoverNone(w, ss);
    var (pid, w1) := Leftover(w, ss);
    if ss.updating == NotUpdating && pid.None? && ss.sup.Some? {
      var s := ss.sup.value;
      StopQuiet(w1.machine, s, anyway);
      Safety.StepKeeps(s, RestartCalled(anyway), now, spawn);
      AfterLog(w1.machine, s, Stop(s, anyway), Restart(s, anyway));
    }
  }

  lemma StopRunning(s: State, anyway: bool)
    requires Safety.Inv(s) && s.current == Running
    ensures Stop(s, anyway).stopping == Some(StopPromise(s)) && !Idle(Stop(s, anyway))
    ensures StopPromise(s) !in Stop(s, anyway).settled
  {
  }

  lemma PressUpdateKeeps(w: World, ss: Session, anyway: bool, now: int, spawn: SpawnOracle)
    requires Inv(w) && w.session == Some(ss)
    ensures Inv(Update(w, ss, anyway, now, spawn))
  {
    hide After, Stop, Safety.Inv, Leftover;
    LeftoverNone(w, ss);
    var (pid, w1) := Leftover(w, ss);
    if pid.None? && ss.updating == NotUpdating && ss.sup.Some? && ss.sup.value.current == Running {
      var s := ss.sup.value;
      StopQuiet(w1.machine, s, anyway);
      Safety.StopKeeps(s, anyway);
      StopRunning(s, anyway);
    }
  }

  lemma ResumeAdoptKeeps(w: World, ss: Session, now: int, spawn: SpawnOracle)
    requires Inv(w) && w.session == Some(ss)
    ensures !Hazard(w, AdoptResumes, spawn) <==> Inv(ResumeAdopt(w, ss, now, spawn))
  {
    hide After, Adopt, Safety.Inv;
    if ss.adopting.Some? && ss.adopting.value.Read? {
      var a := ss.adopting.value;
      if a.verdict == Other {
        if w.machine.servers != {} { Unrecorded(w.machine.(file := None)); }
      } else if a.verdict == Ours && a.sup == |ss.replaced| && ss.updating == NotUpdating && SupIdle(ss) {
        var s := ss.sup.value;
        Safety.StepKeeps(s, AdoptCalled(a.pid), now, spawn);
        AdoptIgnored(s, a.pid);
        EmptyAfter(w.machine, s);
        if 0 < a.pid <= MAX_SAFE_INTEGER { AdoptEffects(w.machine, s, a.pid); }
      }
    }
  }

  lemma AdoptIgnored(s: State, pid: int)
    ensures !(0 < pid <= MAX_SAFE_INTEGER) ==> Adopt(s, pid) == s
  {
  }

  /** A step keeps the invariant exactly when it is none of the four hazards. */
  lemma StepKeepsUnlessHazard(w: World, a: Action, now: int, spawn: SpawnOracle)
    requires Inv(w) && Possible(w, a, spawn)
    ensures Inv(Next(w, a, now, spawn)) <==> !Hazard(w, a, spawn)
  {
    hide After, Step, Safety.Inv, Feed, Leftover, Update, ResumeAdopt;
    match a {
      case LaunchApp(configured) => LaunchAppKeeps(w, configured, now, spawn);
      case ServerDies(pid) => ServerDiesKeeps(w, pid);
      case OtherStarts(pid) =>
      case OtherDies(pid) =>
      case _ =>
        if w.session.Some? {
          var ss := w.session.value;
          match a {
            case StatusPushed => LeftoverNone(w, ss);
            case PressStart => PressStartKeeps(w, ss, now, spawn);
            case PressStop(anyway) => PressStopKeeps(w, ss, anyway, now, spawn);
            case PressRestart(anyway) => PressRestartKeeps(w, ss, anyway, now, spawn);
            case PressUpdate(anyway) => PressUpdateKeeps(w, ss, anyway, now, spawn);
            case PickFolder => PickFolderKeeps(w, ss, now, spawn);
            case AdoptResumes => ResumeAdoptKeeps(w, ss, now, spawn);
            case ToSupervisor(e) => FeedKeeps(w, ss, e, now, spawn);
            case ToReplaced(i, e) => if i < |ss.replaced| { ReplacedKeeps(w, ss, i, e, now, spawn); }
            case _ =>
          }
        }
    }
  }

  lemma FreshSupervisor(m: Machine)
    ensures SupervisorOk(m, INITIAL) && Idle(INITIAL)
  {
  }

  lemma LaunchAppKeeps(w: World, configured: bool, now: int, spawn: SpawnOracle)
    requires Inv(w)
    ensures Inv(Next(w, LaunchApp(configured), now, spawn))
  {
    var (pid, m) := LeftoverPid(w.machine);
    FreshSupervisor(m);
    assert forall p :: p in w.machine.servers ==> pid == Some(p);
  }

  lemma ServerDiesKeeps(w: World, pid: int)
    requires Inv(w)
    ensures Inv(w.(machine := w.machine.(servers := w.machine.servers - {pid})))
  {
    hide Safety.Inv;
  }

  lemma PickFolderKeeps(w: World, ss: Session, now: int, spawn: SpawnOracle)
    requires Inv(w) && w.session == Some(ss)
    ensures Inv(InSession(w, ss, PickFolder, now, spawn))
  {
    FreshSupervisor(w.machine);
    hide Safety.Inv;
  }

  // ----- runs of the machine -----

  const POWERED_ON: World := World(Machine({}, {}, None), None)

  ghost function Reached(w: World, steps: seq<Stamp>): World {
    if steps == [] then w
    else
      var last := steps[|steps| - 1];
      Next(Reached(w, steps[..|steps| - 1]), last.action, last.now, last.spawn)
  }

  /** Each step is one the machine and the truthful oracles allow. */
  ghost predicate Proper(w: World, steps: seq<Stamp>) {
    steps == [] ||
    var last, before := steps[|steps| - 1], steps[..|steps| - 1];
    Proper(w, before) && Possible(Reached(w, before), last.action, last.spawn)
  }

  ghost predicate NoHazard(w: World, steps: seq<Stamp>) {
    steps == [] ||
    var last, before := steps[|steps| - 1], steps[..|steps| - 1];
    NoHazard(w, before) && !Hazard(Reached(w, before), last.action, last.spawn)
  }

  lemma {:induction false} RunKeeps(w: World, steps: seq<Stamp>)
    requires Inv(w) && Proper(w, steps) && NoHazard(w, steps)
    ensures Inv(Reached(w, steps))
  {
    if steps != [] {
      var last, before := steps[|steps| - 1], steps[..|steps| - 1];
      RunKeeps(w, before);
      StepKeepsUnlessHazard(Reached(w, before), last.action, last.now, last.spawn);
    }
  }

  lemma OneServer(m: Machine)
    requires Recorded(m) && m.servers != {}
    ensures |m.servers| == 1 && m.file.Some? && m.servers == {m.file.value}
  {
    assert (forall p :: p !in m.servers) ==> m.servers == {};
    assert exists p :: p in m.servers;
    var p :| p in m.servers;
    forall q | q in m.servers ensures q == p { assert m.file.value == q; }
    Single(m.servers, p);
  }

  /** Without a hazard no run has two servers alive, nor one alive while SteamCMD updates it. */
  lemma NeverASecondServer(steps: seq<Stamp>)
    requires Proper(POWERED_ON, steps) && NoHazard(POWERED_ON, steps)
    ensures var w := Reached(POWERED_ON, steps);
            && |w.machine.servers| <= 1
            && (w.machine.servers != {} ==> w.machine.file.Some? && w.machine.servers == {w.machine.file.value})
            && (w.session.Some? && w.session.value.updating == SteamCmd ==> w.machine.servers == {})
  {
    hide Reached, Proper, NoHazard, Safety.Inv;
    RunKeeps(POWERED_ON, steps);
    var m := Reached(POWERED_ON, steps).machine;
    if m.servers != {} { OneServer(m); }
  }

  // ----- each hazard really ends with a second server, or with one running under SteamCMD -----

  function Spawning(pid: int): SpawnOracle {
    (n: nat) => Some(pid)
  }

  function Throwing(): SpawnOracle {
    (n: nat) => None
  }

  function Do(a: Action): Stamp {
    Stamp(a, 0, Throwing())
  }

  lemma Extended(w: World, steps: seq<Stamp>, x: Stamp)
    ensures Reached(w, steps + [x]) == Next(Reached(w, steps), x.action, x.now, x.spawn)
    ensures Proper(w, steps + [x]) <==> Proper(w, steps) && Possible(Reached(w, steps), x.action, x.spawn)
  {
    assert (steps + [x])[..|steps|] == steps;
  }

  function RelaunchAfterLookup(): seq<Stamp> {
    [Do(AdoptResumes), Do(Quit), Do(LaunchApp(true))]
  }

  lemma LookupClears(w: World)
    requires Inv(w) && Hazard(w, AdoptResumes, Throwing())
    ensures Possible(w, AdoptResumes, Throwing()) && |w.machine.servers| == 1
    ensures Next(w, AdoptResumes, 0, Throwing()).machine == w.machine.(file := None)
  {
    OneServer(w.machine);
  }

  lemma QuitAndLaunch(w: World)
    requires w.machine.file == None
    ensures var w1 := Next(w, Quit, 0, Throwing());
            && Possible(w, Quit, Throwing()) && Possible(w1, LaunchApp(true), Throwing())
            && Next(w1, LaunchApp(true), 0, Throwing()) == Alone(w.machine, INITIAL)
  {
  }

  lemma Relaunched(w: World)
    requires Inv(w) && Hazard(w, AdoptResumes, Throwing())
    ensures Proper(w, RelaunchAfterLookup()) && |w.machine.servers| == 1
    ensures Reached(w, RelaunchAfterLookup()) == Alone(w.machine.(file := None), INITIAL)
  {
    hide Inv, Hazard, Next, Possible, Reached, Proper;
    var s1 := [Do(AdoptResumes)];
    var s2 := [Do(AdoptResumes), Do(Quit)];
    assert s1 == [] + [Do(AdoptResumes)] && s2 == s1 + [Do(Quit)];
    assert RelaunchAfterLookup() == s2 + [Do(LaunchApp(true))];
    Nothing(w);
    LookupClears(w);
    Extended(w, [], Do(AdoptResumes));
    Extended(w, s1, Do(Quit));
    Extended(w, s2, Do(LaunchApp(true)));
    QuitAndLaunch(Reached(w, s1));
  }

  lemma StartsASecond(m: Machine, pid: int)
    requires m.file == None && |m.servers| == 1 && 0 < pid && !IsAlive(m, pid)
    ensures var w := Alone(m, INITIAL);
            && Possible(w, PressStart, Spawning(pid))
            && |Next(w, PressStart, 0, Spawning(pid)).machine.servers| == 2
  {
    FreshSupervisor(m);
    StartEffects(m, INITIAL, 0, Spawning(pid));
  }

  /** A cleared record: quit, launch again, start, and there are two. */
  lemma LostRecordMeansTwo(w: World, pid: int)
    requires Inv(w) && Hazard(w, AdoptResumes, Throwing())
    requires 0 < pid && !IsAlive(w.machine, pid)
    ensures var steps := RelaunchAfterLookup() + [Stamp(PressStart, 0, Spawning(pid))];
            Proper(w, steps) && |Reached(w, steps).machine.servers| == 2
  {
    hide Inv, Hazard, Next, Possible, Reached, Proper;
    Relaunched(w);
    Extended(w, RelaunchAfterLookup(), Stamp(PressStart, 0, Spawning(pid)));
    StartsASecond(w.machine.(file := None), pid);
  }

  /** Launch, start a server with pid 1, and ask for a restart: its clean stop reads the token. */
  function RestartAsked(): seq<Stamp> {
    [Do(LaunchApp(true)), Stamp(PressStart, 0, Spawning(1)),
     Do(ToSupervisor(SpawnReported(Handle(0, 1)))), Do(PressRestart(false))]
  }

  ghost predicate Restarting(w: World) {
    && w.machine == Machine({1}, {}, Some(1))
    && w.session.Some?
    && var ss := w.session.value;
    && ss.sup.Some? && ss == Session(ss.sup, [], None, NotUpdating)
    && var s := ss.sup.value;
    && s.current == Running && s.child == Some(Handle(0, 1)) && !s.stopRequested && !s.forceRequested && !s.forced
    && s.stopping == Some(0) && s.conts == map[0 := ReadingAccess]
    && s.waiters == multiset{0} && s.settled == map[] && s.handled == {} && s.timer == None
    && Safety.Inv(s)
  }

  function Alone(m: Machine, s: State): World {
    World(m, Some(Session(Some(s), [], None, NotUpdating)))
  }

  function Started1(): State {
    Start(INITIAL, 0, Spawning(1))
  }

  lemma StartedShape()
    ensures var s := Started1();
            && s == INITIAL.(current := Starting, child := Some(Handle(0, 1)), nextHandle := 1, log := s.log)
            && Safety.Inv(s)
  {
    FreshSupervisor(POWERED_ON.machine);
    Safety.StartKeeps(INITIAL, 0, Spawning(1));
  }

  lemma Launched1()
    ensures Next(POWERED_ON, LaunchApp(true), 0, Throwing()) == Alone(POWERED_ON.machine, INITIAL)
    ensures Next(Alone(POWERED_ON.machine, INITIAL), PressStart, 0, Spawning(1)) ==
            Alone(Machine({1}, {}, Some(1)), Started1())
  {
    hide Safety.Summary, Safety.Sound;
    FreshSupervisor(POWERED_ON.machine);
    StartedShape();
    StartEffects(POWERED_ON.machine, INITIAL, 0, Spawning(1));
  }

  lemma Running1(m: Machine)
    ensures var s, p := Started1(), Handle(0, 1);
            Next(Alone(m, s), ToSupervisor(SpawnReported(p)), 0, Throwing()) == Alone(m, OnSpawn(s, p))
  {
    hide Safety.Summary, Safety.Sound;
    StartedShape();
    RuntimeMoves(m, Started1(), SpawnReported(Handle(0, 1)), 0, Throwing());
  }

  lemma Restarting1(m: Machine)
    requires m == Machine({1}, {}, Some(1))
    ensures var s := OnSpawn(Started1(), Handle(0, 1));
            Restarting(Next(Alone(m, s), PressRestart(false), 0, Throwing()))
  {
    hide Safety.Summary, Safety.Sound, Start;
    StartedShape();
    var s := OnSpawn(Started1(), Handle(0, 1));
    Safety.SpawnReportKeeps(Started1(), Handle(0, 1));
    assert s == INITIAL.(current := Running, child := Some(Handle(0, 1)), nextHandle := 1, log := s.log);
    hide Started1, OnSpawn, After, Safety.Inv;
    StopQuiet(m, s, false);
    AfterLog(m, s, Stop(s, false), Restart(s, false));
    Safety.StepKeeps(s, RestartCalled(false), 0, Throwing());
  }

  lemma RestartAskedReached()
    ensures Proper(POWERED_ON, RestartAsked()) && Restarting(Reached(POWERED_ON, RestartAsked()))
  {
    hide Reached, Proper, Next, Start, OnSpawn;
    var s0: seq<Stamp> := [];
    var s1 := [Do(LaunchApp(true))];
    var s2 := s1 + [Stamp(PressStart, 0, Spawning(1))];
    var s3 := s2 + [Do(ToSupervisor(SpawnReported(Handle(0, 1))))];
    assert s1 == s0 + [Do(LaunchApp(true))];
    assert RestartAsked() == s3 + [Do(PressRestart(false))];
    Nothing(POWERED_ON);
    Extended(POWERED_ON, s0, Do(LaunchApp(true)));
    Extended(POWERED_ON, s1, Stamp(PressStart, 0, Spawning(1)));
    Extended(POWERED_ON, s2, Do(ToSupervisor(SpawnReported(Handle(0, 1)))));
    Extended(POWERED_ON, s3, Do(PressRestart(false)));
    Launched1();
    Running1(Machine({1}, {}, Some(1)));
    Restarting1(Machine({1}, {}, Some(1)));
  }

  lemma Nothing(w: World)
    ensures Reached(w, []) == w && Proper(w, [])
  {
  }

  /** A server of an earlier session is gone and its pid taken by another program; the app launches and looks it up. */
  lemma StaleRecord()
    ensures var w0 := Alone(Machine({7}, {}, Some(7)), Start(INITIAL, 0, Spawning(7)));
            var w1 := Next(w0, Quit, 0, Throwing());
            var w2 := Next(w1, ServerDies(7), 0, Throwing());
            var w3 := Next(w2, OtherStarts(7), 0, Throwing());
            var w4 := Next(w3, LaunchApp(true), 0, Throwing());
            && Next(Alone(POWERED_ON.machine, INITIAL), PressStart, 0, Spawning(7)) == w0
            && Possible(w2, OtherStarts(7), Throwing())
            && w4 == World(Machine({}, {7}, Some(7)), Some(Session(Some(INITIAL), [], Some(Reading(7, 0)), NotUpdating)))
  {
    hide Start;
    FreshSupervisor(POWERED_ON.machine);
    StartEffects(POWERED_ON.machine, INITIAL, 0, Spawning(7));
    StartSpawns(INITIAL, 0, 7);
    assert {7} - {7} == {};
    assert {} + {7} == {7};
  }

  lemma StartsBeforeResuming(w: World)
    requires w.machine == Machine({}, {}, Some(7)) && w.session.Some?
    requires w.session.value == Session(Some(INITIAL), [], Some(Read(7, 0, Other)), NotUpdating)
    requires Inv(w)
    ensures var r := Next(w, PressStart, 0, Spawning(8));
            && Possible(w, PressStart, Spawning(8))
            && r.machine == Machine({8}, {}, Some(8)) && Inv(r) && Hazard(r, AdoptResumes, Throwing())
  {
    hide Start, Safety.Inv;
    StepKeepsUnlessHazard(w, PressStart, 0, Spawning(8));
    hide Inv;
    FreshSupervisor(Machine({}, {}, None));
    StartEffects(Machine({}, {}, None), INITIAL, 0, Spawning(8));
    StartSpawns(INITIAL, 0, 8);
  }

  /** While its command line is being read that program ends too, and Start runs a new server. */
  lemma RecordOverwritten(w: World)
    requires w == World(Machine({}, {7}, Some(7)), Some(Session(Some(INITIAL), [], Some(Reading(7, 0)), NotUpdating)))
    ensures var w1 := Next(w, CommandLineRead(Other), 0, Throwing());
            var w2 := Next(w1, OtherDies(7), 0, Throwing());
            var w3 := Next(w2, PressStart, 0, Spawning(8));
            && Possible(w, CommandLineRead(Other), Throwing()) && Possible(w2, PressStart, Spawning(8))
            && w3.machine == Machine({8}, {}, Some(8)) && Inv(w3) && Hazard(w3, AdoptResumes, Throwing())
  {
    var w2 := Next(Next(w, CommandLineRead(Other), 0, Throwing()), OtherDies(7), 0, Throwing());
    assert {7} - {7} == {};
    assert w2 == World(Machine({}, {}, Some(7)),
                       Some(Session(Some(INITIAL), [], Some(Read(7, 0, Other)), NotUpdating)));
    FreshSupervisor(w2.machine);
    assert Inv(w2);
    hide Inv, Next;
    StartsBeforeResuming(w2);
  }

  /** So a run from power-on, with every oracle truthful, ends with two servers. */
  lemma LostRecordReached() returns (steps: seq<Stamp>)
    ensures Proper(POWERED_ON, steps)
    ensures var w := Reached(POWERED_ON, steps);
            Inv(w) && w.machine.servers == {8} && Hazard(w, AdoptResumes, Throwing())
  {
    hide Reached, Proper, Next, Inv, Hazard, Start;
    Launched1();
    StaleRecord();
    Nothing(POWERED_ON);
    steps := Then([], Do(LaunchApp(true)));
    steps := Then(steps, Stamp(PressStart, 0, Spawning(7)));
    steps := Then(steps, Do(Quit));
    steps := Then(steps, Do(ServerDies(7)));
    steps := Then(steps, Do(OtherStarts(7)));
    steps := Then(steps, Do(LaunchApp(true)));
    RecordOverwritten(Reached(POWERED_ON, steps));
    steps := Then(steps, Do(CommandLineRead(Other)));
    steps := Then(steps, Do(OtherDies(7)));
    steps := Then(steps, Stamp(PressStart, 0, Spawning(8)));
  }

  /** The restart's server dies and its restarts fail: the supervisor is crashed while the restart still reads the token. */
  ghost predicate CrashedMeanwhile(s: State) {
    && Safety.Inv(s) && s.current == Crashed && s.child == None && s.stopping == Some(0)
    && s.conts == map[0 := ReadingAccess] && s.waiters == multiset{0} && s.settled == map[]
  }

  lemma CrashedShape(w: World)
    requires Restarting(w)
    ensures var m := Machine({}, {}, Some(1));
            var w1 := Next(w, ServerDies(1), 0, Throwing());
            var e := ToSupervisor(EndReported(Handle(0, 1)));
            var w2 := Next(w1, e, 0, Throwing());
            && w1 == w.(machine := m) && Possible(w1, e, Throwing())
            && w2.machine == Machine({}, {}, None) && w2.session.Some? && w2.session.value.sup.Some?
            && w2 == Alone(w2.machine, w2.session.value.sup.value)
            && CrashedMeanwhile(w2.session.value.sup.value)
  {
    hide Safety.Summary, Safety.Sound, Launch, OnEnded, Safety.Linked, Safety.Owned;
    var m := Machine({}, {}, Some(1));
    var s, p := w.session.value.sup.value, Handle(0, 1);
    assert w.machine.servers - {1} == {};
    var s1 := Note(s.(handled := s.handled + {p}), Ended(p));
    Safety.EndLeads(s1, 0, Throwing());
    Restarts.ThrowingEnds(s1, 0, Throwing());
    RuntimeMoves(m, s, EndReported(p), 0, Throwing());
  }

  /** `restart` on a supervisor that a folder change replaced starts a second server. */
  lemma ReplacedRestartMeansTwo() returns (steps: seq<Stamp>)
    ensures Proper(POWERED_ON, steps)
    ensures Reached(POWERED_ON, steps).machine.servers == {2, 3}
  {
    hide Reached, Proper, Next;
    RestartAskedReached();
    var w := Reached(POWERED_ON, RestartAsked());
    var e := ToSupervisor(EndReported(Handle(0, 1)));
    CrashedShape(w);
    ReplacedRestart(Next(Next(w, ServerDies(1), 0, Throwing()), e, 0, Throwing()));
    steps := RestartAsked();
    steps := Then(steps, Do(ServerDies(1)));
    steps := Then(steps, Do(e));
    steps := Then(steps, Do(PickFolder));
    steps := Then(steps, Stamp(PressStart, 0, Spawning(2)));
    steps := Then(steps, Do(ToReplaced(0, AccessAnswer(0, true))));
    steps := Then(steps, Stamp(ToReplaced(0, RestartResumes(0)), 0, Spawning(3)));
  }

  lemma Then(steps: seq<Stamp>, x: Stamp) returns (longer: seq<Stamp>)
    ensures longer == steps + [x]
    ensures Reached(POWERED_ON, longer) == Next(Reached(POWERED_ON, steps), x.action, x.now, x.spawn)
    ensures Proper(POWERED_ON, longer) <==>
            Proper(POWERED_ON, steps) && Possible(Reached(POWERED_ON, steps), x.action, x.spawn)
  {
    longer := steps + [x];
    Extended(POWERED_ON, steps, x);
  }

  /** A folder change while the crashed supervisor's restart is pending, and a server started in the new folder. */
  lemma StartedElsewhere(w: World)
    requires w.session.Some? && w.session.value.sup.Some?
    requires w == Alone(Machine({}, {}, None), w.session.value.sup.value)
    requires Idle(w.session.value.sup.value)
    ensures var w1 := Next(w, PickFolder, 0, Throwing());
            var w2 := Next(w1, PressStart, 0, Spawning(2));
            && Possible(w1, PressStart, Spawning(2))
            && w2.machine == Machine({2}, {}, Some(2))
            && w2.session.Some? && w2.session.value.replaced == [w.session.value.sup.value]
  {
    hide Safety.Inv, Start;
    FreshSupervisor(w.machine);
    StartEffects(w.machine, INITIAL, 0, Spawning(2));
    StartSpawns(INITIAL, 0, 2);
  }

  lemma NewPid(w: World, a: Action, pid: int)
    requires a.ToReplaced? && FromRuntime(a.event) && !a.event.EndReported?
    requires 0 < pid && !IsAlive(w.machine, pid)
    ensures Possible(w, a, Spawning(pid))
  {
  }

  lemma NothingSpawned(w: World, a: Action)
    requires a.ToReplaced? && FromRuntime(a.event) && !a.event.EndReported?
    ensures Possible(w, a, Throwing())
  {
  }

  lemma ToOnlyReplaced(w: World, e: Event, now: int, spawn: SpawnOracle)
    requires w.session.Some? && |w.session.value.replaced| == 1
    ensures var ss := w.session.value;
            var r := Step(ss.replaced[0], e, now, spawn);
            Next(w, ToReplaced(0, e), now, spawn) ==
              World(After(w.machine, ss.replaced[0], r), Some(ss.(replaced := [r])))
  {
    hide Step, After;
    assert w.session.value.replaced[0 := Step(w.session.value.replaced[0], e, now, spawn)] ==
           [Step(w.session.value.replaced[0], e, now, spawn)];
  }

  /** The token read, the restart goes on and starts a server. */
  lemma CrashedRestarts(m: Machine, s: State)
    requires CrashedMeanwhile(s)
    ensures var s1 := Step(s, AccessAnswer(0, true), 0, Throwing());
            var s2 := Step(s1, RestartResumes(0), 0, Spawning(3));
            && After(m, s, s1) == m
            && After(m, s1, s2) == m.(servers := m.servers + {3}, file := Some(3))
  {
    SettledGone(s);
    hide Safety.Inv, AccessAnswered, RestartResumed, After, CrashedMeanwhile, Step, Idle;
    var s1 := AccessAnswered(s, 0, true);
    CrashedQuiet(m, s);
    CrashedStarts(m, s1);
    StepAnswers(s, 0, true);
    StepRestarts(s1, 0, 0, Spawning(3));
  }

  lemma StepAnswers(s: State, k: nat, granted: bool)
    ensures Step(s, AccessAnswer(k, granted), 0, Throwing()) == AccessAnswered(s, k, granted)
  {
  }

  lemma CrashedInv(s: State)
    requires CrashedMeanwhile(s)
    ensures Safety.Inv(s)
  {
  }

  lemma CrashedQuiet(m: Machine, s: State)
    requires CrashedMeanwhile(s)
    ensures After(m, s, AccessAnswered(s, 0, true)) == m && Safety.Inv(AccessAnswered(s, 0, true))
  {
    CrashedInv(s);
    hide Safety.Inv, AccessAnswered, After, CrashedMeanwhile, Idle;
    AccessQuiet(m, s, 0, true);
    Safety.AccessKeeps(s, 0, true);
  }

  /** With its stop settled, the restart goes on from idle and starts a server. */
  lemma CrashedStarts(m: Machine, s: State)
    requires Safety.Inv(s) && Idle(s) && s.settled == map[0 := Gone] && s.waiters == multiset{0}
    ensures var r := RestartResumed(s, 0, 0, Spawning(3));
            After(m, s, r) == m.(servers := m.servers + {3}, file := Some(3))
  {
    StartSpawns(s.(waiters := s.waiters - multiset{0}), 0, 3);
    hide Safety.Inv, Start, After, Moved;
    RestartMoves(m, s, 0, 0, Spawning(3));
  }

  lemma ReplacedGoesOn(w: World)
    requires !IsAlive(w.machine, 3)
    requires w.session.Some? && |w.session.value.replaced| == 1 && CrashedMeanwhile(w.session.value.replaced[0])
    ensures var answer, resume := ToReplaced(0, AccessAnswer(0, true)), ToReplaced(0, RestartResumes(0));
            var w1 := Next(w, answer, 0, Throwing());
            var w2 := Next(w1, resume, 0, Spawning(3));
            && Possible(w, answer, Throwing()) && Possible(w1, resume, Spawning(3))
            && w2.machine.servers == w.machine.servers + {3}
  {
    var ss := w.session.value;
    var s := ss.replaced[0];
    CrashedRestarts(w.machine, s);
    hide Safety.Inv, After, Step, CrashedMeanwhile, Next, Possible;
    var w1 := Next(w, ToReplaced(0, AccessAnswer(0, true)), 0, Throwing());
    ToOnlyReplaced(w, AccessAnswer(0, true), 0, Throwing());
    ToOnlyReplaced(w1, RestartResumes(0), 0, Spawning(3));
    NothingSpawned(w, ToReplaced(0, AccessAnswer(0, true)));
    NewPid(w1, ToReplaced(0, RestartResumes(0)), 3);
  }

  lemma SettledGone(s: State)
    requires CrashedMeanwhile(s)
    ensures var s1 := AccessAnswered(s, 0, true);
            s1.settled == map[0 := Gone] && s1.waiters == multiset{0} && Idle(s1)
  {
    hide Safety.Inv;
  }

  lemma ReplacedRestart(w: World)
    requires w.session.Some? && w.session.value.sup.Some?
    requires w == Alone(Machine({}, {}, None), w.session.value.sup.value)
    requires CrashedMeanwhile(w.session.value.sup.value)
    ensures var w1 := Next(w, PickFolder, 0, Throwing());
            var w2 := Next(w1, PressStart, 0, Spawning(2));
            var answer, resume := ToReplaced(0, AccessAnswer(0, true)), ToReplaced(0, RestartResumes(0));
            var w3 := Next(w2, answer, 0, Throwing());
            var w4 := Next(w3, resume, 0, Spawning(3));
            && Possible(w1, PressStart, Spawning(2)) && Possible(w2, answer, Throwing()) && Possible(w3, resume, Spawning(3))
            && w4.machine.servers == {2, 3}
  {
    hide Next;
    StartedElsewhere(w);
    ReplacedGoesOn(Next(Next(w, PickFolder, 0, Throwing()), PressStart, 0, Spawning(2)));
  }

  lemma StartSpawns(s: State, now: int, pid: int)
    requires Idle(s)
    ensures Start(s, now, Spawning(pid)).child.Some?
    ensures Start(s, now, Spawning(pid)).child.value.pid == pid
  {
  }

  /** A restart and an update that wait for the same stop: the restart goes on first, and SteamCMD runs under the server. */
  lemma RestartBeatsUpdate() returns (steps: seq<Stamp>)
    ensures Proper(POWERED_ON, steps)
    ensures var w := Reached(POWERED_ON, steps);
            w.machine.servers == {2} && w.session.Some? && w.session.value.updating == SteamCmd
  {
    hide Reached, Proper, Next;
    RestartAskedReached();
    var w := Reached(POWERED_ON, RestartAsked());
    UpdateJoins(w);
    steps := RestartAsked();
    steps := Then(steps, Do(PressUpdate(false)));
    steps := Then(steps, Do(ToSupervisor(AccessAnswer(0, true))));
    var w2 := Reached(POWERED_ON, steps);
    ServerGone(w2);
    steps := Then(steps, Do(ServerDies(1)));
    steps := Then(steps, Do(ToSupervisor(EndReported(Handle(0, 1)))));
    var w4 := Reached(POWERED_ON, steps);
    RestartFirst(w4);
    steps := Then(steps, Stamp(ToSupervisor(RestartResumes(0)), 0, Spawning(2)));
    steps := Then(steps, Do(UpdateStopSettles));
  }

  ghost predicate StopShared(w: World) {
    && w.machine == Machine({1}, {}, Some(1))
    && w.session.Some? && w.session.value.sup.Some?
    && w.session.value == Session(w.session.value.sup, [], None, AwaitingStop(0))
    && var s := w.session.value.sup.value;
    && Safety.Inv(s) && s.child == Some(Handle(0, 1)) && s.stopRequested && s.stopping == Some(0)
    && s.waiters == multiset{0} && s.handled == {}
  }

  function Awaiting(m: Machine, s: State): World {
    World(m, Some(Session(Some(s), [], None, AwaitingStop(0))))
  }

  lemma UpdateAsks(w: World)
    requires Restarting(w)
    ensures var s := w.session.value.sup.value;
            && Possible(w, PressUpdate(false), Throwing()) && Safety.Inv(Stop(s, false))
            && Next(w, PressUpdate(false), 0, Throwing()) == Awaiting(w.machine, Stop(s, false))
  {
    var s := w.session.value.sup.value;
    assert StopPromise(s) == 0;
    hide Safety.Inv, Stop, After;
    StopQuiet(w.machine, s, false);
    Safety.StopKeeps(s, false);
  }

  lemma UpdateJoins(w: World)
    requires Restarting(w)
    ensures var w1 := Next(w, PressUpdate(false), 0, Throwing());
            var answer := ToSupervisor(AccessAnswer(0, true));
            && Possible(w, PressUpdate(false), Throwing()) && Possible(w1, answer, Throwing())
            && StopShared(Next(w1, answer, 0, Throwing()))
  {
    var s := w.session.value.sup.value;
    JoinedStop(s);
    UpdateAsks(w);
    hide Safety.Inv, AccessAnswered, Stop, After, Update, Leftover, Idle, StopShared;
    RuntimeMoves(w.machine, Stop(s, false), AccessAnswer(0, true), 0, Throwing());
    SharedShape(w.machine, AccessAnswered(Stop(s, false), 0, true));
  }

  lemma SharedShape(m: Machine, s: State)
    requires m == Machine({1}, {}, Some(1))
    requires Safety.Inv(s) && s.child == Some(Handle(0, 1)) && s.stopRequested && s.stopping == Some(0)
    requires s.waiters == multiset{0} && s.handled == {}
    ensures StopShared(Awaiting(m, s))
  {
    hide Safety.Inv;
  }

  /** A stop asked while the restart's is pending shares it, and goes on to save when the token is read. */
  lemma JoinedStop(s: State)
    requires s.current == Running && s.child == Some(Handle(0, 1)) && !s.stopRequested && !s.forceRequested && !s.forced
    requires s.stopping == Some(0) && s.conts == map[0 := ReadingAccess] && s.waiters == multiset{0} && s.handled == {}
    ensures StopPromise(s) == 0
    ensures var r := AccessAnswered(Stop(s, false), 0, true);
            && r.child == Some(Handle(0, 1)) && r.stopRequested && r.stopping == Some(0)
            && r.waiters == multiset{0} && r.handled == {}
  {
  }

  ghost predicate StoppedForBoth(w: World) {
    && w.machine == Machine({}, {}, None)
    && w.session.Some? && w.session.value.sup.Some?
    && w.session.value == Session(w.session.value.sup, [], None, AwaitingStop(0))
    && var s := w.session.value.sup.value;
    && Safety.Inv(s) && Idle(s) && 0 in s.settled && s.settled[0] == Gone && s.waiters == multiset{0}
  }

  lemma ServerGone(w: World)
    requires StopShared(w)
    ensures var e := ToSupervisor(EndReported(Handle(0, 1)));
            var w1 := Next(w, ServerDies(1), 0, Throwing());
            && Possible(w1, e, Throwing())
            && StoppedForBoth(Next(w1, e, 0, Throwing()))
  {
    OnlyServerDies(w);
    var s := w.session.value.sup.value;
    SharedStopEnds(s);
    hide Safety.Inv, ProcessEnded, After, StoppedForBoth, Quiet;
    RuntimeMoves(Machine({}, {}, Some(1)), s, EndReported(Handle(0, 1)), 0, Throwing());
    BothStopped(ProcessEnded(s, Handle(0, 1), 0, Throwing()));
  }

  lemma OnlyServerDies(w: World)
    requires w.machine == Machine({1}, {}, Some(1))
    ensures Next(w, ServerDies(1), 0, Throwing()) == w.(machine := Machine({}, {}, Some(1)))
  {
    assert {1} - {1} == {};
  }

  lemma BothStopped(s: State)
    requires Safety.Inv(s) && Idle(s) && 0 in s.settled && s.settled[0] == Gone && s.waiters == multiset{0}
    ensures StoppedForBoth(World(Machine({}, {}, None), Some(Session(Some(s), [], None, AwaitingStop(0)))))
  {
    hide Safety.Inv;
  }

  /** The end of the server settles the stop that a restart and an update share. */
  lemma SharedStopEnds(s: State)
    requires Safety.Inv(s) && s.child == Some(Handle(0, 1)) && s.stopRequested && s.stopping == Some(0)
    requires s.waiters == multiset{0} && s.handled == {}
    ensures var r := ProcessEnded(s, Handle(0, 1), 0, Throwing());
            Idle(r) && r.child.None? && 0 in r.settled && r.settled[0] == Gone && r.waiters == multiset{0}
  {
    hide Safety.Inv, Launch;
  }

  lemma RestartFirst(w: World)
    requires StoppedForBoth(w)
    ensures var resume := ToSupervisor(RestartResumes(0));
            var w1 := Next(w, resume, 0, Spawning(2));
            var w2 := Next(w1, UpdateStopSettles, 0, Throwing());
            && Possible(w, resume, Spawning(2)) && Possible(w1, UpdateStopSettles, Throwing())
            && w2.machine.servers == {2} && w2.session.Some? && w2.session.value.updating == SteamCmd
  {
    hide Safety.Inv, Start, After;
    var s := w.session.value.sup.value;
    RuntimeMoves(w.machine, s, RestartResumes(0), 0, Spawning(2));
    StepPromises(s, RestartResumes(0), 0, Spawning(2));
    StartSpawns(s.(waiters := s.waiters - multiset{0}), 0, 2);
  }

  /** A server started in one session and adopted by the next, which has then been asked to end it without saving. */
  function EndAsked(): seq<Stamp> {
    [Do(LaunchApp(true)), Stamp(PressStart, 0, Spawning(1)), Do(Quit), Do(LaunchApp(true)),
     Do(CommandLineRead(Ours)), Do(AdoptResumes), Do(PressStop(true))]
  }

  ghost predicate Ending(w: World) {
    && w.machine == Machine({1}, {}, Some(1))
    && w.session.Some? && w.session.value.sup.Some?
    && w == Alone(w.machine, w.session.value.sup.value)
    && var s := w.session.value.sup.value;
    && Safety.Inv(s) && s.child == Some(Handle(0, 1)) && s.stopRequested && s.handled == {}
  }

  lemma AdoptedShape()
    ensures var s := Adopt(INITIAL, 1);
            && s == INITIAL.(current := Running, child := Some(Handle(0, 1)), nextHandle := 1, log := s.log)
            && Safety.Inv(s)
  {
    FreshSupervisor(POWERED_ON.machine);
    Safety.AdoptKeeps(INITIAL, 1);
  }

  function LookingUp(m: Machine): World {
    World(m, Some(Session(Some(INITIAL), [], Some(Reading(1, 0)), NotUpdating)))
  }

  lemma LooksUp(m: Machine)
    requires m == Machine({1}, {}, Some(1))
    ensures Next(World(m, None), LaunchApp(true), 0, Throwing()) == LookingUp(m)
  {
  }

  lemma AdoptsAgain(m: Machine)
    requires m == Machine({1}, {}, Some(1))
    ensures Next(Next(LookingUp(m), CommandLineRead(Ours), 0, Throwing()), AdoptResumes, 0, Throwing()) ==
            Alone(m, Adopt(INITIAL, 1))
  {
    FreshSupervisor(m);
    hide Safety.Inv, Adopt;
    AdoptEffects(m, INITIAL, 1);
  }

  lemma AsksToEnd(m: Machine)
    requires m == Machine({1}, {}, Some(1))
    ensures Ending(Next(Alone(m, Adopt(INITIAL, 1)), PressStop(true), 0, Throwing()))
  {
    AdoptedShape();
    var s := Adopt(INITIAL, 1);
    EndingShape(s);
    hide Safety.Inv, Adopt, Stop;
    StopQuiet(m, s, true);
    Safety.StopKeeps(s, true);
  }

  lemma EndingShape(s: State)
    requires s.current == Running && s.stopping.None? && s.child == Some(Handle(0, 1)) && s.handled == {}
    ensures var r := Stop(s, true); r.child == s.child && r.stopRequested && r.handled == {}
  {
  }

  lemma EndAskedReached()
    ensures Proper(POWERED_ON, EndAsked()) && Ending(Reached(POWERED_ON, EndAsked()))
  {
    hide Reached, Proper, Next, Start, Adopt, Ending, Possible;
    var m := Machine({1}, {}, Some(1));
    var steps := QuitWithServer();
    LooksUp(m);
    AdoptsAgain(m);
    AlwaysAllowed();
    steps := Then(steps, Do(LaunchApp(true)));
    steps := Then(steps, Do(CommandLineRead(Ours)));
    steps := Then(steps, Do(AdoptResumes));
    AsksToEnd(m);
    steps := Then(steps, Do(PressStop(true)));
    assert steps == EndAsked();
  }

  /** A server started, and the app quit: the server goes on. */
  lemma QuitWithServer() returns (steps: seq<Stamp>)
    ensures steps == [Do(LaunchApp(true)), Stamp(PressStart, 0, Spawning(1)), Do(Quit)]
    ensures Proper(POWERED_ON, steps) && Reached(POWERED_ON, steps) == World(Machine({1}, {}, Some(1)), None)
  {
    hide Reached, Proper, Next, Start, Possible;
    Nothing(POWERED_ON);
    Launched1();
    AlwaysAllowed();
    steps := Then([], Do(LaunchApp(true)));
    steps := Then(steps, Stamp(PressStart, 0, Spawning(1)));
    Quits(Alone(Machine({1}, {}, Some(1)), Started1()));
    steps := Then(steps, Do(Quit));
  }

  /** Steps that ask nothing of the oracles, and the first start. */
  lemma AlwaysAllowed()
    ensures Possible(Alone(POWERED_ON.machine, INITIAL), PressStart, Spawning(1))
    ensures forall w: World, a: Action ::
              !a.OtherStarts? && !a.ToSupervisor? && !a.ToReplaced? ==> Possible(w, a, Throwing())
  {
  }

  lemma Quits(w: World)
    requires w.session.Some?
    ensures Next(w, Quit, 0, Throwing()) == World(w.machine, None)
  {
  }

  /** The kill finds the command line unreadable, so the handle reports the end of a server that goes on. */
  lemma StopsWatching(w: World)
    requires Ending(w)
    ensures var e := ToSupervisor(EndReported(Handle(0, 1)));
            var w1 := Next(w, e, 0, Throwing());
            && Possible(w, e, Throwing()) && Hazard(w, e, Throwing())
            && w1.machine == Machine({1}, {}, None) && w1.session.Some? && w1.session.value.sup.Some?
            && w1 == Alone(w1.machine, w1.session.value.sup.value)
            && Safety.Inv(w1.session.value.sup.value) && Idle(w1.session.value.sup.value)
  {
    var s := w.session.value.sup.value;
    EndsIdle(s);
    hide Safety.Inv, ProcessEnded, After;
    RuntimeMoves(w.machine, s, EndReported(Handle(0, 1)), 0, Throwing());
  }

  lemma EndsIdle(s: State)
    requires Safety.Inv(s) && s.child == Some(Handle(0, 1)) && s.stopRequested && s.handled == {}
    ensures var r := ProcessEnded(s, Handle(0, 1), 0, Throwing()); Idle(r) && r.child.None?
  {
    hide Safety.Inv, Launch;
  }

  lemma StartsBeside(w: World)
    requires w.machine == Machine({1}, {}, None) && w.session.Some? && w.session.value.sup.Some?
    requires w == Alone(w.machine, w.session.value.sup.value)
    requires Safety.Inv(w.session.value.sup.value) && Idle(w.session.value.sup.value)
    ensures Possible(w, PressStart, Spawning(2))
    ensures Next(w, PressStart, 0, Spawning(2)).machine.servers == {1, 2}
  {
    hide Safety.Inv, Start, After;
    StartEffects(w.machine, w.session.value.sup.value, 0, Spawning(2));
    StartSpawns(w.session.value.sup.value, 0, 2);
  }

  /** So Stop anyway on a server the app has adopted can end with a second one beside it. */
  lemma LetGoMeansTwo() returns (steps: seq<Stamp>)
    ensures Proper(POWERED_ON, steps)
    ensures Reached(POWERED_ON, steps).machine.servers == {1, 2}
  {
    hide Reached, Proper, Next, Ending, Possible, Hazard, Safety.Inv;
    EndAskedReached();
    StopsWatching(Reached(POWERED_ON, EndAsked()));
    steps := Then(EndAsked(), Do(ToSupervisor(EndReported(Handle(0, 1)))));
    StartsBeside(Reached(POWERED_ON, steps));
    steps := Then(steps, Stamp(PressStart, 0, Spawning(2)));
  }

  // ----- a folder change while the launch's lookup is under way -----

  /** `ps` of the server in "/a b", read for this configured program. */
  function ReadFor(serverExe: string): Verdict {
    VerdictOn(Commands.POSIX, Some("/a b/F -log"), serverExe, None)
  }

  lemma ReadForBoth()
    ensures ReadFor("/a b/F") == Ours && ReadFor("/c/F") == Other
  {
    Commands.OtherFolder();
    hide Commands.ServerCommandMatch;
  }

  /** Its supervisor replaced, the lookup adopts nothing; and the next launch looks the pid up for the new folder. */
  lemma FolderChanged(m: Machine)
    requires m == Machine({1}, {}, Some(1))
    ensures var w1 := Next(LookingUp(m), PickFolder, 0, Throwing());
            var w2 := Next(w1, CommandLineRead(Ours), 0, Throwing());
            var w3 := Next(w2, AdoptResumes, 0, Throwing());
            Next(w3, Quit, 0, Throwing()) == World(m, None)
  {
  }

  /** The command line of the earlier folder's server is another program's now: its record is removed. */
  lemma Forgets(m: Machine)
    requires m == Machine({1}, {}, Some(1))
    ensures var w1 := Next(LookingUp(m), CommandLineRead(Other), 0, Throwing());
            Next(w1, AdoptResumes, 0, Throwing()) == Alone(m.(file := None), INITIAL)
  {
  }

  function FolderChange(): seq<Stamp> {
    [Do(LaunchApp(true)), Stamp(PressStart, 0, Spawning(1)), Do(Quit),
     Do(LaunchApp(true)), Do(PickFolder), Do(CommandLineRead(ReadFor("/a b/F"))), Do(AdoptResumes), Do(Quit),
     Do(LaunchApp(true)), Do(CommandLineRead(ReadFor("/c/F"))), Do(AdoptResumes), Stamp(PressStart, 0, Spawning(2))]
  }

  /**
   * So a folder change while the launch still checks a leftover server at an unquoted path with a space, and a launch
   * later, Start runs a second one: each command line read is the server's own.
   */
  lemma FolderChangeMeansTwo()
    ensures Proper(POWERED_ON, FolderChange())
    ensures Reached(POWERED_ON, FolderChange()).machine.servers == {1, 2}
  {
    hide Reached, Proper, Next, Possible, ReadFor, Safety.Inv;
    var m := Machine({1}, {}, Some(1));
    ReadForBoth();
    AlwaysAllowed();
    LooksUp(m);
    FolderChanged(m);
    Forgets(m);
    FreshSupervisor(m.(file := None));
    var steps := QuitWithServer();
    steps := Then(steps, Do(LaunchApp(true)));
    steps := Then(steps, Do(PickFolder));
    steps := Then(steps, Do(CommandLineRead(ReadFor("/a b/F"))));
    steps := Then(steps, Do(AdoptResumes));
    steps := Then(steps, Do(Quit));
    steps := Then(steps, Do(LaunchApp(true)));
    steps := Then(steps, Do(CommandLineRead(ReadFor("/c/F"))));
    steps := Then(steps, Do(AdoptResumes));
    StartsBeside(Alone(m.(file := None), INITIAL));
    steps := Then(steps, Stamp(PressStart, 0, Spawning(2)));
    assert steps == FolderChange();
  }
}
