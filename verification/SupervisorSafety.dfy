/**
 * What every run of the supervisor keeps, for any interleaving of calls, API answers, process ends and the timer:
 * each stop promise settles once, a kill is always justified, nothing is spawned beside a handle that has not ended, and
 * a suspended clean stop acts only while it owns the pending stop.
 */
module SupervisorSafety {
  import opened Wrappers
  import opened ServerSupervisor

  /** What a history says so far: one set per kind of entry the claims look back at. */
  datatype Facts = Facts(
    issued: set<Handle>,
    ended: set<Handle>,
    settled: set<nat>,
    asked: set<nat>,
    anyway: set<nat>,
    starting: set<(nat, Handle)>,
    saved: set<(nat, Handle)>)

  ghost function Add(f: Facts, e: Entry): Facts {
    match e
    case Spawned(p) => f.(issued := f.issued + {p})
    case Attached(p) => f.(issued := f.issued + {p})
    case Ended(p) => f.(ended := f.ended + {p})
    case Settled(k, _, _) => f.(settled := f.settled + {k})
    case Asked(k, anyway, found) =>
      f.(asked := f.asked + {k},
         anyway := if anyway then f.anyway + {k} else f.anyway,
         starting := if found.Some? then f.starting + {(k, found.value)} else f.starting)
    case Saved(k, p) => f.(saved := f.saved + {(k, p)})
    case _ => f
  }

  ghost function Summary(log: seq<Entry>): Facts {
    if log == [] then Facts({}, {}, {}, {}, {}, {}, {})
    else Add(Summary(log[..|log| - 1]), log[|log| - 1])
  }

  /** When an entry may follow a history with these facts. */
  ghost predicate Admissible(f: Facts, e: Entry) {
    match e
    case Spawned(_) => f.issued <= f.ended
    case SpawnThrew => f.issued <= f.ended
    case Attached(_) => f.issued <= f.ended
    case Asked(k, _, found) => found.Some? ==> k !in f.asked && found.value in f.issued && found.value !in f.ended
    case Killed(k, p) =>
      && k !in f.settled && p in f.issued && p !in f.ended
      && (k in f.anyway || (k, p) in f.starting || (k, p) in f.saved)
    case Settled(k, outcome, supervised) =>
      && k !in f.settled
      && (outcome == Gone <==> supervised == None)
      && (supervised == None <==> f.issued <= f.ended)
    case _ => true
  }

  ghost predicate Sound(log: seq<Entry>) {
    log == [] || (Sound(log[..|log| - 1]) && Admissible(Summary(log[..|log| - 1]), log[|log| - 1]))
  }

  lemma Noted(s: State, e: Entry)
    ensures Summary(Note(s, e).log) == Add(Summary(s.log), e)
    ensures Sound(Note(s, e).log) <==> Sound(s.log) && Admissible(Summary(s.log), e)
  {
    assert Note(s, e).log[..|s.log|] == s.log;
  }

  // ----- the invariant -----

  ghost predicate Shape(s: State) {
    && (s.child.None? <==> Idle(s))
    && (s.stopRequested <==> s.current == Stopping)
    && (s.stopRequested ==> s.stopping.Some?)
    && (s.stopping.Some? ==> s.stopping.value < s.nextStop && s.stopping.value !in s.settled)
    && (forall k :: k in s.settled ==> k < s.nextStop)
    && (s.forceRequested ==> s.stopping.Some?)
  }

  /** A suspended clean stop: reading the token it holds the pending stop; past that, only while its process is the child. */
  ghost predicate Suspended(s: State, f: Facts, k: nat, phase: Phase) {
    && k < s.nextStop
    && match phase
       case ReadingAccess => s.stopping == Some(k) && !s.stopRequested
       case Saving(p) => p in f.issued && (s.child == Some(p) ==> s.stopRequested && s.stopping == Some(k))
       case ShuttingDown(p) =>
         p in f.issued && (k, p) in f.saved && (s.child == Some(p) ==> s.stopRequested && s.stopping == Some(k))
  }

  ghost predicate Owned(s: State, f: Facts) {
    && (forall k :: k in s.conts ==> Suspended(s, f, k, s.conts[k]))
    && (s.stopping.Some? && !s.stopRequested ==>
          s.stopping.value in s.conts && s.conts[s.stopping.value] == ReadingAccess)
    && (s.timer.Some? ==>
          && s.stopping == Some(s.timer.value.stop) && s.child == Some(s.timer.value.proc)
          && s.stopRequested && !s.forced
          && (s.timer.value.stop, s.timer.value.proc) in f.saved)
  }

  ghost predicate Linked(s: State, f: Facts) {
    && f.settled == s.settled.Keys
    && f.ended == s.handled
    && match s.child {
         case None => f.issued <= f.ended
         case Some(p) => p in f.issued && p !in f.ended && f.issued <= f.ended + {p}
       }
    && (forall p :: p in f.issued ==> p.id < s.nextHandle)
    && (forall p :: p in f.ended ==> p.id < s.nextHandle)
    && (forall k :: k in f.asked ==> k < s.nextStop)
    && (s.forceRequested && s.stopping.Some? ==> s.stopping.value in f.anyway)
  }

  ghost predicate Inv(s: State) {
    var f := Summary(s.log);
    Shape(s) && Owned(s, f) && Linked(s, f) && Sound(s.log)
  }

  // ----- launching -----

  /** What launching from `s` leads to: a fresh supervised handle, or a crash; nothing else moves. */
  ghost predicate Launched(s: State, r: State) {
    && r == s.(current := r.current, child := r.child, restarts := r.restarts, nextHandle := r.nextHandle, log := r.log)
    && s.nextHandle <= r.nextHandle
    && (Sound(s.log) && Summary(s.log).issued <= Summary(s.log).ended ==> Sound(r.log))
    && match r.child
       case None => r.current == Crashed && Summary(r.log) == Summary(s.log)
       case Some(p) =>
         && r.current == Starting && s.nextHandle <= p.id < r.nextHandle
         && Summary(r.log) == Summary(s.log).(issued := Summary(s.log).issued + {p})
  }

  lemma {:induction false} LaunchLeads(s: State, now: int, spawn: SpawnOracle)
    requires s.child.None? && !s.stopRequested
    ensures Launched(s, Launch(s, now, spawn))
    decreases Budget(s, now), 1
  {
    hide Summary, Sound;
    var s1 := SetState(s, Starting);
    Noted(s.(current := Starting), Changed(Starting));
    match spawn(s1.nextHandle) {
      case None =>
        var s2 := s1.(nextHandle := s1.nextHandle + 1, child := None);
        Noted(s2, SpawnThrew);
        EndLeads(Note(s2, SpawnThrew), now, spawn);
      case Some(pid) =>
        var proc := Handle(s1.nextHandle, pid);
        Noted(s1.(nextHandle := s1.nextHandle + 1, child := Some(proc)), Spawned(proc));
    }
  }

  lemma {:induction false} EndLeads(s: State, now: int, spawn: SpawnOracle)
    requires !s.stopRequested
    ensures Launched(s, OnEnded(s, now, spawn))
    decreases Budget(s, now), 0
  {
    hide Summary, Sound;
    var recent := Recent(s.restarts, now);
    if |recent| < MAX_RESTARTS {
      RecentAppend(s.restarts, now);
      var s1 := s.(child := None, restarts := recent + [now]);
      Noted(s1, AutoRestart(now));
      LaunchLeads(Note(s1, AutoRestart(now)), now, spawn);
    } else {
      Noted(s.(child := None, restarts := recent, current := Crashed), Changed(Crashed));
    }
  }

  // ----- every step keeps the invariant -----

  lemma StateSet(s: State, next: ServerState)
    ensures Summary(SetState(s, next).log) == Summary(s.log)
    ensures Sound(s.log) ==> Sound(SetState(s, next).log)
  {
    Noted(s.(current := next), Changed(next));
  }

  lemma StartKeeps(s: State, now: int, spawn: SpawnOracle)
    requires Inv(s)
    ensures Inv(Start(s, now, spawn))
  {
    hide Summary, Sound, Launch;
    if Idle(s) {
      var s1 := s.(restarts := []);
      Noted(s1, Explicit);
      LaunchLeads(Note(s1, Explicit), now, spawn);
    }
  }

  lemma AdoptNoted(s: State, pid: int)
    requires Idle(s) && 0 < pid <= MAX_SAFE_INTEGER
    requires Sound(s.log) && Summary(s.log).issued <= Summary(s.log).ended
    ensures var f := Summary(s.log);
            Summary(Adopt(s, pid).log) == f.(issued := f.issued + {Handle(s.nextHandle, pid)})
    ensures Sound(Adopt(s, pid).log)
  {
    hide Summary, Sound;
    var proc := Handle(s.nextHandle, pid);
    Noted(s.(restarts := []), Explicit);
    var s1 := Note(s.(restarts := []), Explicit);
    var s2 := s1.(nextHandle := s1.nextHandle + 1, child := Some(proc));
    Noted(s2, Attached(proc));
    StateSet(Note(s2, Attached(proc)), Running);
  }

  lemma AdoptKeeps(s: State, pid: int)
    requires Inv(s)
    ensures Inv(Adopt(s, pid))
  {
    hide Summary, Sound;
    if Idle(s) && 0 < pid <= MAX_SAFE_INTEGER {
      AdoptNoted(s, pid);
    }
  }

  lemma SpawnReportKeeps(s: State, proc: Handle)
    requires Inv(s)
    ensures Inv(OnSpawn(s, proc))
  {
    hide Summary, Sound;
    StateSet(s, Running);
  }

  /** The end a stop was waiting for settles it: `Gone`, with nothing supervised. */
  lemma SettleGone(s: State, now: int, spawn: SpawnOracle)
    requires s.stopRequested && s.stopping.Some? && s.child.None?
    requires Sound(s.log) && Summary(s.log).issued <= Summary(s.log).ended
    requires s.stopping.value !in Summary(s.log).settled
    ensures var f := Summary(s.log);
            var r := OnEnded(s, now, spawn);
            Summary(r.log) == f.(settled := f.settled + {s.stopping.value}) && Sound(r.log)
  {
    hide Summary, Sound;
    var s1 := s.(stopRequested := false);
    StateSet(s1, Stopped);
    var s2 := SetState(s1, Stopped);
    var k := s.stopping.value;
    Noted(s2.(timer := None, forceRequested := false, stopping := None, settled := s2.settled[k := Gone]),
          Settled(k, Gone, None));
  }

  /** The state in which the end of the child is handled: reported, and no longer supervised. */
  ghost function EndNoted(s: State, proc: Handle): State {
    Note(s.(handled := s.handled + {proc}), Ended(proc)).(child := None)
  }

  lemma StopEnds(s: State, proc: Handle, now: int, spawn: SpawnOracle)
    requires Inv(s) && proc !in s.handled && s.child == Some(proc) && s.stopRequested
    ensures Inv(OnEnded(EndNoted(s, proc), now, spawn))
  {
    hide Summary, Sound;
    Noted(s.(handled := s.handled + {proc}), Ended(proc));
    SettleGone(EndNoted(s, proc), now, spawn);
  }

  lemma CrashEnds(s: State, proc: Handle, now: int, spawn: SpawnOracle)
    requires Inv(s) && proc !in s.handled && s.child == Some(proc) && !s.stopRequested
    ensures Inv(OnEnded(EndNoted(s, proc), now, spawn))
  {
    hide Summary, Sound, OnEnded;
    Noted(s.(handled := s.handled + {proc}), Ended(proc));
    EndLeads(EndNoted(s, proc), now, spawn);
  }

  lemma EndUnsupervises(s: State, now: int, spawn: SpawnOracle)
    ensures OnEnded(s, now, spawn) == OnEnded(s.(child := None), now, spawn)
  {
    hide Launch, FinishStop, SetState, Recent;
  }

  lemma EndReportKeeps(s: State, proc: Handle, now: int, spawn: SpawnOracle)
    requires Inv(s)
    ensures Inv(ProcessEnded(s, proc, now, spawn))
  {
    if proc !in s.handled && s.child == Some(proc) {
      EndUnsupervises(Note(s.(handled := s.handled + {proc}), Ended(proc)), now, spawn);
      hide Inv, OnEnded;
      if s.stopRequested { StopEnds(s, proc, now, spawn); } else { CrashEnds(s, proc, now, spawn); }
    }
  }

  /** Forcing the stop `k`, which is pending or starts now, is sound when it was asked for. */
  lemma Forcing(s: State, k: nat)
    requires Sound(s.log)
    requires s.child.Some? && k !in s.settled
    requires Linked(s.(forceRequested := false, timer := None), Summary(s.log))
    requires k in Summary(s.log).anyway || (k, s.child.value) in Summary(s.log).starting
    ensures Summary(ForceStop(s, k).log) == Summary(s.log) && Sound(ForceStop(s, k).log)
  {
    hide Summary, Sound;
    if !s.stopRequested { StateSet(s.(stopRequested := true, forced := false), Stopping); }
    var s1 := if s.stopRequested then s else BeginStopping(s);
    Noted(s1.(forced := true, timer := None), Killed(k, s1.child.value));
  }

  lemma StopAgainKeeps(s: State, anyway: bool)
    requires Inv(s) && s.stopping.Some?
    ensures Inv(Stop(s, anyway))
  {
    hide Summary, Sound;
    var k := s.stopping.value;
    Noted(s, Asked(k, anyway, FoundStarting(s)));
    if anyway && s.stopRequested { Forcing(Note(s, Asked(k, anyway, FoundStarting(s))), k); }
  }

  lemma StopIdleKeeps(s: State, anyway: bool)
    requires Inv(s) && s.stopping.None? && s.child.None?
    ensures Inv(Stop(s, anyway))
  {
    hide Summary, Sound;
    var k := s.nextStop;
    Noted(s, Asked(k, anyway, FoundStarting(s)));
    var s1 := Note(s, Asked(k, anyway, FoundStarting(s))).(nextStop := k + 1);
    Noted(s1.(settled := s1.settled[k := Gone]), Settled(k, Gone, None));
  }

  lemma StopForcedKeeps(s: State, anyway: bool)
    requires Inv(s) && s.stopping.None? && s.child.Some?
    requires anyway || s.current == Starting
    ensures Inv(Stop(s, anyway))
  {
    hide Summary, Sound;
    var k := s.nextStop;
    Noted(s, Asked(k, anyway, FoundStarting(s)));
    Forcing(Note(s, Asked(k, anyway, FoundStarting(s))).(nextStop := k + 1, stopping := Some(k)), k);
  }

  lemma StopCleanKeeps(s: State)
    requires Inv(s) && s.stopping.None? && s.child.Some? && s.current != Starting
    ensures Inv(Stop(s, false))
  {
    hide Summary, Sound;
    Noted(s, Asked(s.nextStop, false, FoundStarting(s)));
  }

  lemma StopKeeps(s: State, anyway: bool)
    requires Inv(s)
    ensures Inv(Stop(s, anyway))
  {
    if s.stopping.Some? { StopAgainKeeps(s, anyway); }
    else if s.child.None? { StopIdleKeeps(s, anyway); }
    else if anyway || s.current == Starting { StopForcedKeeps(s, anyway); }
    else { StopCleanKeeps(s); }
  }

  /** The clean stop whose token came too late: nothing of it is left to stop cleanly, or it is forced. */
  lemma AccessLateKeeps(s: State, k: nat, granted: bool)
    requires Inv(s) && k in s.conts && s.conts[k] == ReadingAccess
    requires s.child.None? || s.current != Running || (!s.forceRequested && !granted)
    ensures Inv(AccessAnswered(s, k, granted))
  {
    hide Summary, Sound;
    var outcome := if s.child.None? then Gone else if s.current != Running then Failed else Unavailable;
    FinishNoted(s.(conts := s.conts - {k}), outcome);
  }

  lemma AccessForcedKeeps(s: State, k: nat, granted: bool)
    requires Inv(s) && k in s.conts && s.conts[k] == ReadingAccess
    requires s.child.Some? && s.current == Running && s.forceRequested
    ensures Inv(AccessAnswered(s, k, granted))
  {
    hide Summary, Sound;
    Forcing(s.(conts := s.conts - {k}), k);
  }

  lemma AccessGrantedKeeps(s: State, k: nat)
    requires Inv(s) && k in s.conts && s.conts[k] == ReadingAccess
    requires s.child.Some? && s.current == Running && !s.forceRequested
    ensures Inv(AccessAnswered(s, k, true))
  {
    hide Summary, Sound;
    StateSet(s.(conts := s.conts - {k}, stopRequested := true, forced := false), Stopping);
  }

  lemma AccessKeeps(s: State, k: nat, granted: bool)
    requires Inv(s)
    ensures Inv(AccessAnswered(s, k, granted))
  {
    if k in s.conts && s.conts[k] == ReadingAccess {
      if s.child.None? || s.current != Running || (!s.forceRequested && !granted) { AccessLateKeeps(s, k, granted); }
      else if s.forceRequested { AccessForcedKeeps(s, k, granted); }
      else { AccessGrantedKeeps(s, k); }
    }
  }

  lemma FinishNoted(s: State, outcome: StopOutcome)
    requires s.stopping.Some? && Sound(s.log)
    requires s.stopping.value !in Summary(s.log).settled
    requires outcome == Gone <==> s.child == None
    requires s.child == None <==> Summary(s.log).issued <= Summary(s.log).ended
    ensures var f, r := Summary(s.log), FinishStop(s, outcome);
            Summary(r.log) == f.(settled := f.settled + {s.stopping.value}) && Sound(r.log)
  {
    var k := s.stopping.value;
    var s1 := s.(timer := None, forceRequested := false, stopping := None);
    Noted(s1.(settled := s1.settled[k := outcome]), Settled(k, outcome, s.child));
  }

  lemma SavedKeeps(s: State, k: nat)
    requires Inv(s) && k in s.conts && s.conts[k].Saving?
    ensures Inv(SaveAnswered(s, k, true))
  {
    hide Summary, Sound;
    Noted(s.(conts := s.conts - {k}), Saved(k, s.conts[k].proc));
  }

  /** A continuation that has gone past the token may end without a trace. */
  lemma ContinuationEnds(s: State, k: nat)
    requires Inv(s) && k in s.conts && s.conts[k] != ReadingAccess
    ensures Inv(s.(conts := s.conts - {k}))
  {
    hide Summary, Sound;
  }

  /** The pending stop `k` gives up after a failed save: its process runs on. */
  ghost function GivenUp(s: State): State {
    FinishStop(SetState(s.(stopRequested := false), Running), Failed)
  }

  lemma GivenUpNoted(s: State)
    requires Inv(s) && s.stopRequested
    ensures var f, r := Summary(s.log), GivenUp(s);
            Summary(r.log) == f.(settled := f.settled + {s.stopping.value}) && Sound(r.log)
  {
    hide Summary, Sound;
    StateSet(s.(stopRequested := false), Running);
    FinishNoted(SetState(s.(stopRequested := false), Running), Failed);
  }

  lemma GivenUpKeeps(s: State)
    requires Inv(s) && s.stopRequested && s.child.Some?
    requires forall j :: j in s.conts && s.conts[j] != ReadingAccess ==> s.child != Some(s.conts[j].proc)
    ensures Inv(GivenUp(s))
  {
    hide Summary, Sound;
    GivenUpNoted(s);
    var r := GivenUp(s);
    assert r.conts == s.conts && r.child == s.child && r.handled == s.handled && r.nextHandle == s.nextHandle;
    assert r.current == Running && r.stopping.None? && r.timer.None? && !r.stopRequested && !r.forceRequested;
    assert r.settled == s.settled[s.stopping.value := Failed] && r.nextStop == s.nextStop;
    hide GivenUp, SetState, FinishStop;
    assert Shape(r);
  }

  lemma SaveFailedKeeps(s: State, k: nat)
    requires Inv(s) && k in s.conts && s.conts[k].Saving?
    ensures Inv(SaveAnswered(s, k, false))
  {
    hide Summary, Sound;
    ContinuationEnds(s, k);
    if s.child == Some(s.conts[k].proc) && !s.forced {
      GivenUpKeeps(s.(conts := s.conts - {k}));
    }
  }

  lemma ShutdownKeeps(s: State, k: nat)
    requires Inv(s)
    ensures Inv(ShutdownAnswered(s, k))
  {
    hide Summary, Sound;
  }

  lemma TimerKeeps(s: State)
    requires Inv(s)
    ensures Inv(TimerFired(s))
  {
    hide Summary, Sound;
    if s.timer.Some? {
      var t := s.timer.value;
      Noted(s.(timer := None), Killed(t.stop, t.proc));
    }
  }

  lemma WaitersAside(s: State, waiters: multiset<nat>)
    ensures Inv(s) ==> Inv(s.(waiters := waiters))
  {
  }

  lemma StepKeeps(s: State, e: Event, now: int, spawn: SpawnOracle)
    requires Inv(s)
    ensures Inv(Step(s, e, now, spawn))
  {
    hide Inv;
    match e {
      case StartCalled => StartKeeps(s, now, spawn);
      case AdoptCalled(pid) => AdoptKeeps(s, pid);
      case StopCalled(anyway) =>
        StopKeeps(s, anyway);
      case RestartCalled(anyway) =>
        StopKeeps(s, anyway);
        WaitersAside(Stop(s, anyway), Stop(s, anyway).waiters + multiset{StopPromise(s)});
      case SpawnReported(proc) => SpawnReportKeeps(s, proc);
      case EndReported(proc) => EndReportKeeps(s, proc, now, spawn);
      case AccessAnswer(k, granted) => AccessKeeps(s, k, granted);
      case SaveAnswer(k, succeeded) =>
        if k in s.conts && s.conts[k].Saving? {
          if succeeded { SavedKeeps(s, k); } else { SaveFailedKeeps(s, k); }
        }
      case ShutdownAnswer(k) => ShutdownKeeps(s, k);
      case TimerFires => TimerKeeps(s);
      case RestartResumes(k) =>
        WaitersAside(s, s.waiters - multiset{k});
        if k in s.waiters { StartKeeps(s.(waiters := s.waiters - multiset{k}), now, spawn); }
    }
  }

  lemma {:induction false} RunKeeps(events: seq<Stamped>, spawn: SpawnOracle)
    ensures Inv(Run(events, spawn))
  {
    if events != [] {
      var last := events[|events| - 1];
      RunKeeps(events[..|events| - 1], spawn);
      StepKeeps(Run(events[..|events| - 1], spawn), last.event, last.now, spawn);
    }
  }

  // ----- reading a history -----

  lemma {:induction false} SoundAt(log: seq<Entry>, i: nat)
    requires Sound(log) && i < |log|
    ensures Admissible(Summary(log[..i]), log[i])
  {
    if i < |log| - 1 {
      SoundAt(log[..|log| - 1], i);
      assert log[..|log| - 1][..i] == log[..i];
    }
  }

  lemma {:induction false} SoundBefore(log: seq<Entry>, i: nat)
    requires Sound(log) && i <= |log|
    ensures Sound(log[..i])
  {
    if i == |log| {
      assert log[..i] == log;
    } else {
      SoundBefore(log[..|log| - 1], i);
      assert log[..|log| - 1][..i] == log[..i];
    }
  }

  ghost predicate SettledIn(log: seq<Entry>, k: nat) {
    exists i :: 0 <= i < |log| && log[i].Settled? && log[i].stop == k
  }

  ghost predicate AskedAnyway(log: seq<Entry>, k: nat) {
    exists i :: 0 <= i < |log| && log[i].Asked? && log[i].stop == k && log[i].anyway
  }

  /** The ask that opened the stop found this process starting. */
  ghost predicate OpenedOnStarting(log: seq<Entry>, k: nat, p: Handle) {
    exists i :: 0 <= i < |log| && log[i].Asked? && log[i].stop == k && log[i].found == Some(p) && !AskedIn(log[..i], k)
  }

  ghost predicate AskedIn(log: seq<Entry>, k: nat) {
    exists i :: 0 <= i < |log| && log[i].Asked? && log[i].stop == k
  }

  ghost predicate IssuedIn(log: seq<Entry>, p: Handle) {
    Spawned(p) in log || Attached(p) in log
  }

  lemma {:induction false} SummaryOfStops(log: seq<Entry>, k: nat)
    ensures var f := Summary(log);
            && (k in f.settled <==> SettledIn(log, k))
            && (k in f.anyway <==> AskedAnyway(log, k))
            && (k in f.asked <==> AskedIn(log, k))
  {
    if log != [] {
      var n := |log| - 1;
      SummaryOfStops(log[..n], k);
      assert forall i :: 0 <= i < n ==> log[i] == log[..n][i];
    }
  }

  lemma {:induction false} SummaryOfHandles(log: seq<Entry>, k: nat, p: Handle)
    ensures var f := Summary(log);
            && (p in f.issued <==> IssuedIn(log, p))
            && (p in f.ended <==> Ended(p) in log)
            && ((k, p) in f.saved <==> Saved(k, p) in log)
  {
    if log != [] {
      var n := |log| - 1;
      SummaryOfHandles(log[..n], k, p);
      assert log == log[..n] + [log[n]];
    }
  }

  lemma {:induction false} SummaryOfStarting(log: seq<Entry>, k: nat, p: Handle)
    requires Sound(log)
    ensures (k, p) in Summary(log).starting ==> OpenedOnStarting(log, k, p)
  {
    if log != [] && (k, p) in Summary(log).starting {
      var n := |log| - 1;
      if (k, p) in Summary(log[..n]).starting {
        SummaryOfStarting(log[..n], k, p);
        var i :| 0 <= i < n && log[..n][i].Asked? && log[..n][i].stop == k && log[..n][i].found == Some(p)
                 && !AskedIn(log[..n][..i], k);
        assert log[..n][..i] == log[..i] && log[i] == log[..n][i];
      } else {
        SummaryOfStops(log[..n], k);
        assert log[n].Asked? && log[n].stop == k && log[n].found == Some(p) && !AskedIn(log[..n], k);
      }
    }
  }

  // ----- the claims, over every run -----

  /** The entry at `i` of any run's history, with what the entries before it say. */
  lemma EntryOfRun(events: seq<Stamped>, spawn: SpawnOracle, i: nat)
    requires i < |Run(events, spawn).log|
    ensures var log := Run(events, spawn).log; Admissible(Summary(log[..i]), log[i])
  {
    RunKeeps(events, spawn);
    SoundAt(Run(events, spawn).log, i);
  }

  /** A stop promise settles at most once. */
  lemma StopSettlesOnce(events: seq<Stamped>, spawn: SpawnOracle, i: nat, j: nat)
    requires i < j < |Run(events, spawn).log|
    requires var log := Run(events, spawn).log; log[i].Settled? && log[j].Settled?
    ensures var log := Run(events, spawn).log; log[i].stop != log[j].stop
  {
    var log := Run(events, spawn).log;
    EntryOfRun(events, spawn, j);
    SummaryOfStops(log[..j], log[i].stop);
    assert log[..j][i] == log[i];
  }

  /** A stop resolves `stopped` exactly when, at that moment, every process ever handed over has reported its end. */
  lemma StoppedMeansGone(events: seq<Stamped>, spawn: SpawnOracle, i: nat)
    requires i < |Run(events, spawn).log| && Run(events, spawn).log[i].Settled?
    ensures var log := Run(events, spawn).log;
            && (log[i].outcome == Gone <==> log[i].supervised == None)
            && (log[i].outcome == Gone <==> forall p :: IssuedIn(log[..i], p) ==> Ended(p) in log[..i])
  {
    EntryOfRun(events, spawn, i);
    var before := Run(events, spawn).log[..i];
    forall p ensures p in Summary(before).issued <==> IssuedIn(before, p)
             ensures p in Summary(before).ended <==> Ended(p) in before
    {
      SummaryOfHandles(before, 0, p);
    }
  }

  /**
   * A process is killed only for a stop that is pending, and only when that stop was asked `anyway`, was opened by an ask
   * that found that same process starting, or had saved the game with that same process.
   */
  lemma KillIsJustified(events: seq<Stamped>, spawn: SpawnOracle, i: nat, k: nat, p: Handle)
    requires i < |Run(events, spawn).log| && Run(events, spawn).log[i] == Killed(k, p)
    ensures var before := Run(events, spawn).log[..i];
            && !SettledIn(before, k)
            && IssuedIn(before, p) && Ended(p) !in before
            && (AskedAnyway(before, k) || OpenedOnStarting(before, k, p) || Saved(k, p) in before)
  {
    EntryOfRun(events, spawn, i);
    SummaryOfStops(Run(events, spawn).log[..i], k);
    SummaryOfHandles(Run(events, spawn).log[..i], k, p);
    RunKeeps(events, spawn);
    SoundBefore(Run(events, spawn).log, i);
    SummaryOfStarting(Run(events, spawn).log[..i], k, p);
  }

  /** Nothing is spawned or adopted while an earlier handle has not reported its end. */
  lemma NeverASecondChild(events: seq<Stamped>, spawn: SpawnOracle, i: nat, p: Handle)
    requires i < |Run(events, spawn).log|
    requires var e := Run(events, spawn).log[i]; e.Spawned? || e.SpawnThrew? || e.Attached?
    requires IssuedIn(Run(events, spawn).log[..i], p)
    ensures Ended(p) in Run(events, spawn).log[..i]
  {
    EntryOfRun(events, spawn, i);
    SummaryOfHandles(Run(events, spawn).log[..i], 0, p);
  }

  /**
   * The guard `child !== proc || forced` is exactly ownership: a clean stop that goes on after the save or Shutdown finds
   * its captured process still the child, and itself not forced, only when its own stop is the pending one.
   */
  lemma ActsOnlyAsOwner(events: seq<Stamped>, spawn: SpawnOracle, k: nat)
    requires var s := Run(events, spawn); k in s.conts && s.conts[k] != ReadingAccess
    requires var s := Run(events, spawn); s.child == Some(s.conts[k].proc) && !s.forced
    ensures var s := Run(events, spawn); s.stopping == Some(k) && s.current == Stopping && k !in s.settled
  {
    RunKeeps(events, spawn);
  }

  /** No timer outlives its stop: while one is armed its stop is pending, unforced, and its process is the child. */
  lemma TimerBelongsToPendingStop(events: seq<Stamped>, spawn: SpawnOracle)
    requires Run(events, spawn).timer.Some?
    ensures var s := Run(events, spawn);
            && s.stopping == Some(s.timer.value.stop) && s.child == Some(s.timer.value.proc)
            && s.current == Stopping && !s.forced
            && Saved(s.timer.value.stop, s.timer.value.proc) in s.log
  {
    RunKeeps(events, spawn);
    SummaryOfHandles(Run(events, spawn).log, Run(events, spawn).timer.value.stop, Run(events, spawn).timer.value.proc);
  }

  /** No stop promise is stranded: a pending one is still read for, or the end of the child settles it `stopped`. */
  lemma PendingStopCanSettle(events: seq<Stamped>, spawn: SpawnOracle, now: int)
    requires Run(events, spawn).stopping.Some?
    ensures var s := Run(events, spawn);
            var k := s.stopping.value;
            || (k in s.conts && s.conts[k] == ReadingAccess)
            || (&& s.child.Some?
                && k in ProcessEnded(s, s.child.value, now, spawn).settled
                && ProcessEnded(s, s.child.value, now, spawn).settled[k] == Gone)
  {
    RunKeeps(events, spawn);
  }

  /** And once the token is read, that stop is settled or the process is on its way out. */
  lemma AccessMovesOn(s: State, k: nat, granted: bool)
    requires Inv(s) && k in s.conts && s.conts[k] == ReadingAccess
    ensures var r := AccessAnswered(s, k, granted);
            || (k in r.settled && r.stopping.None?)
            || (r.stopping == Some(k) && r.current == Stopping && r.child == s.child && r.child.Some?)
  {
    hide Summary, Sound;
  }
}
