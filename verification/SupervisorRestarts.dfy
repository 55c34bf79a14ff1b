/**
 * The restart budget: between two explicit starts or adopts, any window of RESTART_WINDOW_MS holds at most MAX_RESTARTS
 * automatic restarts, given a clock that never goes back; and a spawn that always throws ends in `crashed`.
 */
module SupervisorRestarts {
  import opened Wrappers
  import opened Ranges
  import opened ServerSupervisor

  /** The times of the automatic restarts since the last explicit start or adopt. */
  ghost function SinceExplicit(log: seq<Entry>): seq<int> {
    if log == [] then []
    else
      var before := SinceExplicit(log[..|log| - 1]);
      match log[|log| - 1]
      case Explicit => []
      case AutoRestart(at) => before + [at]
      case _ => before
  }

  /** In any window of RESTART_WINDOW_MS at most MAX_RESTARTS of these times fall. */
  ghost predicate Spaced(times: seq<int>) {
    && (forall i, j :: 0 <= i <= j < |times| ==> times[i] <= times[j])
    && (forall i :: 0 <= i && i + MAX_RESTARTS < |times| ==> times[i + MAX_RESTARTS] - times[i] >= RESTART_WINDOW_MS)
  }

  lemma RecentNone(now: int)
    ensures Recent([], now) == []
  {
  }

  lemma Regroup(first: int, x: seq<int>, y: seq<int>)
    ensures [first] + (x + y) == [first] + x + y
  {
  }

  lemma RecentStep(times: seq<int>, now: int)
    requires times != []
    ensures Recent(times, now) ==
            if now - times[0] < RESTART_WINDOW_MS then [times[0]] + Recent(times[1..], now) else Recent(times[1..], now)
  {
  }

  lemma {:induction false} RecentConcat(a: seq<int>, b: seq<int>, now: int)
    ensures Recent(a + b, now) == Recent(a, now) + Recent(b, now)
  {
    hide Recent;
    RecentNone(now);
    if a == [] {
      assert a + b == b && [] + Recent(b, now) == Recent(b, now);
    } else {
      RecentConcat(a[1..], b, now);
      RecentStep(a, now);
      RecentStep(a + b, now);
      assert (a + b)[1..] == a[1..] + b && (a + b)[0] == a[0];
      Regroup(a[0], Recent(a[1..], now), Recent(b, now));
    }
  }

  lemma {:induction false} RecentTwice(times: seq<int>, a: int, b: int)
    requires a <= b
    ensures Recent(Recent(times, a), b) == Recent(times, b)
  {
    if times != [] { RecentTwice(times[1..], a, b); }
  }

  /** When the MAX_RESTARTS-th last of these times still counts at `now`, so do the ones after it. */
  lemma TailCounts(times: seq<int>, now: int)
    requires Spaced(times) && MAX_RESTARTS <= |times|
    requires now - times[|times| - MAX_RESTARTS] < RESTART_WINDOW_MS
    ensures MAX_RESTARTS <= |Recent(times, now)|
  {
    hide Recent;
    var n := |times|;
    var head, tail := times[..n - MAX_RESTARTS], times[n - MAX_RESTARTS..];
    assert times == head + tail;
    RecentConcat(head, tail, now);
    forall i | 0 <= i < |tail| ensures now - tail[i] < RESTART_WINDOW_MS {
      assert tail[i] == times[n - MAX_RESTARTS + i];
    }
    AllRecent(tail, now);
  }

  /** Too few restarts that still count means the next one is spaced. */
  lemma SpacedAppend(times: seq<int>, now: int)
    requires Spaced(times)
    requires times != [] ==> times[|times| - 1] <= now
    requires |Recent(times, now)| < MAX_RESTARTS
    ensures Spaced(times + [now])
  {
    hide Recent;
    if MAX_RESTARTS <= |times| && now - times[|times| - MAX_RESTARTS] < RESTART_WINDOW_MS { TailCounts(times, now); }
  }

  /** The restart list remembers every restart since the last explicit start that can still count at `now` or later. */
  ghost predicate Remembers(s: State, now: int) {
    var times := SinceExplicit(s.log);
    && Spaced(times)
    && (forall i :: 0 <= i < |times| ==> times[i] <= now)
    && (forall t :: now <= t ==> Recent(s.restarts, t) == Recent(times, t))
  }

  lemma NotedSince(s: State, e: Entry)
    ensures SinceExplicit(Note(s, e).log) ==
            match e case Explicit => [] case AutoRestart(at) => SinceExplicit(s.log) + [at] case _ => SinceExplicit(s.log)
  {
    assert Note(s, e).log[..|s.log|] == s.log;
  }

  lemma RestartRemembered(s: State, now: int)
    requires Remembers(s, now) && |Recent(s.restarts, now)| < MAX_RESTARTS
    ensures Remembers(Note(s.(child := None, restarts := Recent(s.restarts, now) + [now]), AutoRestart(now)), now)
  {
    hide Recent, Spaced, SinceExplicit;
    var s1 := s.(child := None, restarts := Recent(s.restarts, now) + [now]);
    var times := SinceExplicit(s.log);
    NotedSince(s1, AutoRestart(now));
    SpacedAppend(times, now);
    forall t | now <= t ensures Recent(s1.restarts, t) == Recent(times + [now], t) {
      RecentExtended(s.restarts, times, now, t);
    }
  }

  /** Filtering now and then adding leaves the same times recent at `t` as only adding. */
  lemma RecentExtended(restarts: seq<int>, times: seq<int>, now: int, t: int)
    requires now <= t && Recent(restarts, t) == Recent(times, t)
    ensures Recent(Recent(restarts, now) + [now], t) == Recent(times + [now], t)
  {
    hide Recent;
    RecentConcat(Recent(restarts, now), [now], t);
    RecentConcat(times, [now], t);
    RecentTwice(restarts, now, t);
  }

  /** What else a step may note does not touch the budget. */
  lemma OtherRemembered(s: State, r: State, e: Entry, now: int)
    requires Remembers(s, now) && !e.Explicit? && !e.AutoRestart?
    requires r.restarts == s.restarts && r.log == s.log + [e]
    ensures Remembers(r, now)
  {
    NotedSince(s, e);
    assert Note(s, e).log == r.log;
  }

  lemma {:induction false} LaunchRemembers(s: State, now: int, spawn: SpawnOracle)
    requires Remembers(s, now)
    ensures Remembers(Launch(s, now, spawn), now)
    decreases Budget(s, now), 1
  {
    hide Remembers;
    var s1 := SetState(s, Starting);
    StateRemembered(s, Starting, now);
    match spawn(s1.nextHandle) {
      case None =>
        var s2 := Note(s1.(nextHandle := s1.nextHandle + 1, child := None), SpawnThrew);
        OtherRemembered(s1, s2, SpawnThrew, now);
        EndRemembers(s2, now, spawn);
      case Some(pid) =>
        OtherRemembered(s1, Launch(s, now, spawn), Spawned(Handle(s1.nextHandle, pid)), now);
    }
  }

  lemma StateRemembered(s: State, next: ServerState, now: int)
    requires Remembers(s, now)
    ensures Remembers(SetState(s, next), now)
  {
    if next != s.current { OtherRemembered(s, SetState(s, next), Changed(next), now); }
  }

  lemma SameRemembered(s: State, r: State, now: int)
    requires Remembers(s, now) && r.restarts == s.restarts && r.log == s.log
    ensures Remembers(r, now)
  {
  }

  lemma FinishRemembered(s: State, outcome: StopOutcome, now: int)
    requires Remembers(s, now)
    ensures Remembers(FinishStop(s, outcome), now)
  {
    if s.stopping.Some? {
      OtherRemembered(s, FinishStop(s, outcome), Settled(s.stopping.value, outcome, s.child), now);
    }
  }

  lemma ForceRemembered(s: State, k: nat, now: int)
    requires Remembers(s, now)
    ensures Remembers(ForceStop(s, k), now)
  {
    hide Remembers;
    var s0 := s.(stopRequested := true, forced := false);
    SameRemembered(s, s0, now);
    StateRemembered(s0, Stopping, now);
    var s1 := if s.stopRequested then s else BeginStopping(s);
    var s2 := s1.(forced := true, timer := None);
    SameRemembered(s1, s2, now);
    if s2.child.Some? { OtherRemembered(s2, ForceStop(s, k), Killed(k, s2.child.value), now); }
  }

  lemma {:induction false} EndRemembers(s: State, now: int, spawn: SpawnOracle)
    requires Remembers(s, now)
    ensures Remembers(OnEnded(s, now, spawn), now)
    decreases Budget(s, now), 0
  {
    if s.stopRequested {
      var s1 := s.(child := None, stopRequested := false);
      StateRemembered(s1, Stopped, now);
      FinishRemembered(SetState(s1, Stopped), Gone, now);
    } else if |Recent(s.restarts, now)| < MAX_RESTARTS {
      RecentAppend(s.restarts, now);
      RestartRemembered(s, now);
      LaunchRemembers(Note(s.(child := None, restarts := Recent(s.restarts, now) + [now]), AutoRestart(now)), now, spawn);
    } else {
      var s1 := s.(child := None, restarts := Recent(s.restarts, now));
      forall t | now <= t ensures Recent(s1.restarts, t) == Recent(SinceExplicit(s.log), t) {
        RecentTwice(s.restarts, now, t);
      }
      StateRemembered(s1, Crashed, now);
    }
  }

  lemma ExplicitRemembered(s: State, now: int)
    ensures Remembers(Note(s.(restarts := []), Explicit), now)
  {
    NotedSince(s.(restarts := []), Explicit);
  }

  lemma StartRemembers(s: State, now: int, spawn: SpawnOracle)
    requires Remembers(s, now)
    ensures Remembers(Start(s, now, spawn), now)
  {
    if Idle(s) {
      ExplicitRemembered(s, now);
      LaunchRemembers(Note(s.(restarts := []), Explicit), now, spawn);
    }
  }

  lemma StopRemembers(s: State, anyway: bool, now: int)
    requires Remembers(s, now)
    ensures Remembers(Stop(s, anyway), now)
  {
    hide Remembers, JoinStop, OpenStop;
    var k := StopPromise(s);
    var s1 := Note(s, Asked(k, anyway, FoundStarting(s)));
    OtherRemembered(s, s1, Asked(k, anyway, FoundStarting(s)), now);
    if s.stopping.Some? {
      JoinRemembers(s1, k, anyway, now);
    } else {
      SameRemembered(s1, s1.(nextStop := k + 1), now);
      OpenRemembers(s1.(nextStop := k + 1), k, anyway, now);
    }
  }

  lemma JoinRemembers(s: State, k: nat, anyway: bool, now: int)
    requires Remembers(s, now)
    ensures Remembers(JoinStop(s, k, anyway), now)
  {
    hide Remembers, ForceStop;
    ForceRemembered(s, k, now);
    SameRemembered(s, s.(forceRequested := true), now);
  }

  lemma OpenRemembers(s: State, k: nat, anyway: bool, now: int)
    requires Remembers(s, now)
    ensures Remembers(OpenStop(s, k, anyway), now)
  {
    hide Remembers, ForceStop;
    if Idle(s) || s.child.None? {
      OtherRemembered(s, OpenStop(s, k, anyway), Settled(k, Gone, s.child), now);
    } else {
      var s1 := s.(stopping := Some(k));
      SameRemembered(s, s1, now);
      ForceRemembered(s1, k, now);
      SameRemembered(s1, s1.(conts := s1.conts[k := ReadingAccess]), now);
    }
  }

  lemma AccessRemembers(s: State, k: nat, granted: bool, now: int)
    requires Remembers(s, now)
    ensures Remembers(AccessAnswered(s, k, granted), now)
  {
    hide Remembers, FinishStop, ForceStop;
    if k in s.conts && s.conts[k] == ReadingAccess {
      var s1 := s.(conts := s.conts - {k});
      SameRemembered(s, s1, now);
      FinishRemembered(s1, if s.child.Some? then Failed else Gone, now);
      FinishRemembered(s1, Unavailable, now);
      ForceRemembered(s1, k, now);
      SameRemembered(s1, s1.(stopRequested := true, forced := false), now);
      StateRemembered(s1.(stopRequested := true, forced := false), Stopping, now);
      if s.child.Some? {
        var s2 := BeginStopping(s1);
        SameRemembered(s2, s2.(conts := s2.conts[k := Saving(s.child.value)]), now);
      }
    }
  }

  lemma SaveRemembers(s: State, k: nat, succeeded: bool, now: int)
    requires Remembers(s, now)
    ensures Remembers(SaveAnswered(s, k, succeeded), now)
  {
    hide Remembers, FinishStop;
    if k in s.conts && s.conts[k].Saving? {
      var proc := s.conts[k].proc;
      var s1 := s.(conts := s.conts - {k});
      SameRemembered(s, s1, now);
      OtherRemembered(s1, Note(s1, Saved(k, proc)), Saved(k, proc), now);
      var s2 := if succeeded then Note(s1, Saved(k, proc)) else s1;
      SameRemembered(s2, s2.(conts := s2.conts[k := ShuttingDown(proc)]), now);
      SameRemembered(s2, s2.(stopRequested := false), now);
      StateRemembered(s2.(stopRequested := false), Running, now);
      FinishRemembered(SetState(s2.(stopRequested := false), Running), Failed, now);
    }
  }

  lemma StepRemembers(s: State, e: Event, now: int, spawn: SpawnOracle)
    requires Remembers(s, now)
    ensures Remembers(Step(s, e, now, spawn), now)
  {
    hide Remembers;
    match e {
      case StartCalled => StartRemembers(s, now, spawn);
      case AdoptCalled(pid) =>
        ExplicitRemembered(s, now);
        var s1 := Note(s.(restarts := []), Explicit);
        var proc := Handle(s.nextHandle, pid);
        var s2 := Note(s1.(nextHandle := s1.nextHandle + 1, child := Some(proc)), Attached(proc));
        OtherRemembered(s1, s2, Attached(proc), now);
        StateRemembered(s2, Running, now);
      case StopCalled(anyway) => StopRemembers(s, anyway, now);
      case RestartCalled(anyway) =>
        StopRemembers(s, anyway, now);
        SameRemembered(Stop(s, anyway), Restart(s, anyway), now);
      case SpawnReported(proc) => StateRemembered(s, Running, now);
      case EndReported(proc) =>
        var s1 := Note(s.(handled := s.handled + {proc}), Ended(proc));
        OtherRemembered(s, s1, Ended(proc), now);
        EndRemembers(s1, now, spawn);
      case AccessAnswer(k, granted) => AccessRemembers(s, k, granted, now);
      case SaveAnswer(k, succeeded) => SaveRemembers(s, k, succeeded, now);
      case ShutdownAnswer(k) => SameRemembered(s, ShutdownAnswered(s, k), now);
      case TimerFires =>
        SameRemembered(s, s.(timer := None), now);
        if s.timer.Some? {
          var s1 := s.(timer := None);
          OtherRemembered(s1, Note(s1, Killed(s.timer.value.stop, s.timer.value.proc)), Killed(s.timer.value.stop, s.timer.value.proc), now);
        }
      case RestartResumes(k) =>
        var s1 := s.(waiters := s.waiters - multiset{k});
        SameRemembered(s, s1, now);
        StartRemembers(s1, now, spawn);
    }
  }

  ghost predicate Monotone(events: seq<Stamped>) {
    forall i, j :: 0 <= i <= j < |events| ==> events[i].now <= events[j].now
  }

  lemma LaterRemembers(s: State, now: int, later: int)
    requires Remembers(s, now) && now <= later
    ensures Remembers(s, later)
  {
  }

  lemma {:induction false} RunRemembers(events: seq<Stamped>, spawn: SpawnOracle)
    requires events != [] && Monotone(events)
    ensures Remembers(Run(events, spawn), events[|events| - 1].now)
  {
    var n := |events| - 1;
    var last := events[n];
    if n > 0 {
      RunRemembers(events[..n], spawn);
      LaterRemembers(Run(events[..n], spawn), events[n - 1].now, last.now);
    }
    StepRemembers(Run(events[..n], spawn), last.event, last.now, spawn);
  }

  /** Any window [from, from + RESTART_WINDOW_MS) holds at most MAX_RESTARTS automatic restarts of one explicit start. */
  lemma RestartsAreBounded(events: seq<Stamped>, spawn: SpawnOracle, from: int)
    requires Monotone(events)
    ensures var times := SinceExplicit(Run(events, spawn).log);
            |set i | 0 <= i < |times| && from <= times[i] < from + RESTART_WINDOW_MS| <= MAX_RESTARTS
  {
    var times := SinceExplicit(Run(events, spawn).log);
    if events != [] { RunRemembers(events, spawn); }
    var window := set i | 0 <= i < |times| && from <= times[i] < from + RESTART_WINDOW_MS;
    var first := 0;
    while first < |times| && times[first] < from
      invariant 0 <= first <= |times|
      invariant forall i :: 0 <= i < first ==> times[i] < from
    {
      first := first + 1;
    }
    if first < |times| { WithinWindow(times, first, from); }
    SubsetSize(window, Range(first, MAX_RESTARTS));
  }

  lemma WithinWindow(times: seq<int>, first: int, from: int)
    requires Spaced(times) && 0 <= first < |times| && from <= times[first]
    ensures forall i :: first + MAX_RESTARTS <= i < |times| ==> from + RESTART_WINDOW_MS <= times[i]
  {
    forall i | first + MAX_RESTARTS <= i < |times| ensures from + RESTART_WINDOW_MS <= times[i] {
      assert times[first + MAX_RESTARTS] <= times[i];
    }
  }

  /** A spawn that always throws uses up the budget and ends crashed: Budget + 1 attempts in all. */
  lemma {:induction false} AlwaysThrowingCrashes(s: State, now: int, spawn: SpawnOracle)
    requires !s.stopRequested
    requires forall n :: spawn(n).None?
    ensures var r := Launch(s, now, spawn);
            r.current == Crashed && r.child.None? && r.nextHandle == s.nextHandle + Budget(s, now) + 1
    decreases Budget(s, now), 1
  {
    hide OnEnded, Budget;
    var s1 := SetState(s, Starting);
    assert spawn(s1.nextHandle).None?;
    var s2 := Note(s1.(nextHandle := s1.nextHandle + 1, child := None), SpawnThrew);
    SameBudget(s, s2, now);
    ThrowingEnds(s2, now, spawn);
  }

  lemma {:induction false} ThrowingEnds(s: State, now: int, spawn: SpawnOracle)
    requires !s.stopRequested
    requires forall n :: spawn(n).None?
    ensures var r := OnEnded(s, now, spawn);
            r.current == Crashed && r.child.None? && r.nextHandle == s.nextHandle + Budget(s, now)
    decreases Budget(s, now), 0
  {
    hide Launch, Recent;
    var recent := Recent(s.restarts, now);
    if |recent| < MAX_RESTARTS {
      RecentAppend(s.restarts, now);
      AlwaysThrowingCrashes(Note(s.(child := None, restarts := recent + [now]), AutoRestart(now)), now, spawn);
    }
  }

  lemma SameBudget(s: State, r: State, now: int)
    requires r.restarts == s.restarts
    ensures Budget(r, now) == Budget(s, now)
  {
  }

  /** From an explicit start that is MAX_RESTARTS + 1 attempts. */
  lemma ExplicitStartOfThrowing(s: State, now: int, spawn: SpawnOracle)
    requires Idle(s) && !s.stopRequested
    requires forall n :: spawn(n).None?
    ensures var r := Start(s, now, spawn);
            r.current == Crashed && r.child.None? && r.nextHandle == s.nextHandle + MAX_RESTARTS + 1
  {
    AlwaysThrowingCrashes(Note(s.(restarts := []), Explicit), now, spawn);
  }

  /** One of the `count` spawn attempts from the one numbered `from` gives a process. */
  ghost predicate SomeSpawn(spawn: SpawnOracle, from: nat, count: nat) {
    exists n :: from <= n < from + count && spawn(n).Some?
  }

  /** `r` supervises what the first attempt from `from` on that did not throw gave. */
  ghost predicate FirstSpawned(r: State, spawn: SpawnOracle, from: nat) {
    && r.child.Some?
    && from <= r.child.value.id
    && spawn(r.child.value.id) == Some(r.child.value.pid)
    && forall n :: from <= n < r.child.value.id ==> spawn(n).None?
  }

  lemma SomeSpawnStep(spawn: SpawnOracle, from: nat, count: nat)
    ensures SomeSpawn(spawn, from, count + 1) <==> spawn(from).Some? || SomeSpawn(spawn, from + 1, count)
  {
    if SomeSpawn(spawn, from, count + 1) && spawn(from).None? {
      var n :| from <= n < from + count + 1 && spawn(n).Some?;
      assert from + 1 <= n;
    }
  }

  /** A launch supervises the first of its Budget + 1 attempts that does not throw, and nothing when all of them throw. */
  lemma {:induction false} LaunchTriesInOrder(s: State, now: int, spawn: SpawnOracle)
    requires !s.stopRequested
    ensures var r := Launch(s, now, spawn);
            && (r.child.Some? <==> SomeSpawn(spawn, s.nextHandle, Budget(s, now) + 1))
            && (r.child.Some? ==> FirstSpawned(r, spawn, s.nextHandle))
    decreases Budget(s, now), 1
  {
    hide OnEnded, Budget, SomeSpawn;
    var s1 := SetState(s, Starting);
    var n := s.nextHandle;
    SomeSpawnStep(spawn, n, Budget(s, now));
    if spawn(n).None? {
      var s2 := Note(s1.(nextHandle := n + 1, child := None), SpawnThrew);
      SameBudget(s, s2, now);
      EndTriesInOrder(s2, now, spawn);
    }
  }

  lemma {:induction false} EndTriesInOrder(s: State, now: int, spawn: SpawnOracle)
    requires !s.stopRequested
    ensures var r := OnEnded(s, now, spawn);
            && (r.child.Some? <==> SomeSpawn(spawn, s.nextHandle, Budget(s, now)))
            && (r.child.Some? ==> FirstSpawned(r, spawn, s.nextHandle))
    decreases Budget(s, now), 0
  {
    hide Launch, Recent;
    var recent := Recent(s.restarts, now);
    if |recent| < MAX_RESTARTS {
      RecentAppend(s.restarts, now);
      LaunchTriesInOrder(Note(s.(child := None, restarts := recent + [now]), AutoRestart(now)), now, spawn);
    }
  }

  /** From an explicit start that is the first of MAX_RESTARTS + 1 attempts. */
  lemma StartTriesInOrder(s: State, now: int, spawn: SpawnOracle)
    requires Idle(s) && !s.stopRequested
    ensures var r := Start(s, now, spawn);
            && (r.child.Some? <==> SomeSpawn(spawn, s.nextHandle, MAX_RESTARTS + 1))
            && (r.child.Some? ==> FirstSpawned(r, spawn, s.nextHandle))
  {
    LaunchTriesInOrder(Note(s.(restarts := []), Explicit), now, spawn);
  }

  // ----- when an end is answered by a restart -----

  /** Which of these times still count at `now`. */
  ghost function Counting(times: seq<int>, now: int): set<int> {
    set i | 0 <= i < |times| && now - times[i] < RESTART_WINDOW_MS
  }

  lemma {:induction false} RecentCounts(times: seq<int>, now: int)
    ensures |Recent(times, now)| == |Counting(times, now)|
  {
    if times == [] {
      assert Counting(times, now) == {};
    } else {
      var n := |times| - 1;
      RecentCounts(times[..n], now);
      assert times == times[..n] + [times[n]];
      RecentConcat(times[..n], [times[n]], now);
      RecentOne(times[n], now);
      var before := Counting(times[..n], now);
      assert Counting(times, now) == if now - times[n] < RESTART_WINDOW_MS then before + {n} else before;
    }
  }

  lemma RecentOne(t: int, now: int)
    ensures Recent([t], now) == if now - t < RESTART_WINDOW_MS then [t] else []
  {
  }

  /** The step notes a restart at `now`, and tries to spawn. */
  ghost predicate Restarts(s: State, r: State, now: int) {
    |s.log| < |r.log| && r.log[..|s.log|] == s.log && r.log[|s.log|] == AutoRestart(now) && s.nextHandle < r.nextHandle
  }

  lemma {:induction false} LaunchGrows(s: State, now: int, spawn: SpawnOracle)
    requires !s.stopRequested
    ensures var r := Launch(s, now, spawn); s.log <= r.log && s.nextHandle < r.nextHandle
    decreases Budget(s, now), 1
  {
    hide OnEnded, Budget;
    var s1 := SetState(s, Starting);
    if spawn(s.nextHandle).None? {
      var s2 := Note(s1.(nextHandle := s.nextHandle + 1, child := None), SpawnThrew);
      SameBudget(s, s2, now);
      EndGrows(s2, now, spawn);
    }
  }

  lemma {:induction false} EndGrows(s: State, now: int, spawn: SpawnOracle)
    requires !s.stopRequested
    ensures var r := OnEnded(s, now, spawn); s.log <= r.log && s.nextHandle <= r.nextHandle
    decreases Budget(s, now), 0
  {
    hide Launch, Recent;
    var recent := Recent(s.restarts, now);
    if |recent| < MAX_RESTARTS {
      RecentAppend(s.restarts, now);
      LaunchGrows(Note(s.(child := None, restarts := recent + [now]), AutoRestart(now)), now, spawn);
    }
  }

  /**
   * Over every run: an end nobody asked for is answered by a restart at once exactly when fewer than MAX_RESTARTS automatic
   * restarts since the last explicit start are less than RESTART_WINDOW_MS old, and by `crashed` otherwise.
   */
  lemma {:induction false} EndIsAnswered(events: seq<Stamped>, spawn: SpawnOracle, p: Handle, now: int)
    requires Monotone(events) && (events != [] ==> events[|events| - 1].now <= now)
    requires var s := Run(events, spawn); s.child == Some(p) && !s.stopRequested && p !in s.handled
    ensures var s := Run(events, spawn);
            var r, ended := ProcessEnded(s, p, now, spawn), Note(s, Ended(p));
            if |Counting(SinceExplicit(s.log), now)| < MAX_RESTARTS then Restarts(ended, r, now)
            else r.current == Crashed && r.child.None? && r.nextHandle == s.nextHandle
  {
    hide Run, ProcessEnded, Recent, SinceExplicit, Restarts;
    var s, times := Run(events, spawn), SinceExplicit(Run(events, spawn).log);
    RunRemembered(events, spawn, now);
    RecentCounts(times, now);
    assert Recent(s.restarts, now) == Recent(times, now);
    EndByBudget(s, p, now, spawn);
  }

  lemma {:induction false} RunRemembered(events: seq<Stamped>, spawn: SpawnOracle, now: int)
    requires Monotone(events) && (events != [] ==> events[|events| - 1].now <= now)
    ensures Remembers(Run(events, spawn), now)
  {
    if events != [] {
      hide Run, Remembers;
      RunRemembers(events, spawn);
      LaterRemembers(Run(events, spawn), events[|events| - 1].now, now);
    }
  }

  lemma EndByBudget(s: State, p: Handle, now: int, spawn: SpawnOracle)
    requires s.child == Some(p) && !s.stopRequested && p !in s.handled
    ensures var r, ended := ProcessEnded(s, p, now, spawn), Note(s, Ended(p));
            if |Recent(s.restarts, now)| < MAX_RESTARTS then Restarts(ended, r, now)
            else r.current == Crashed && r.child.None? && r.nextHandle == s.nextHandle
  {
    hide Launch, Recent;
    var s1 := Note(s.(handled := s.handled + {p}), Ended(p));
    var recent := Recent(s1.restarts, now);
    if |recent| < MAX_RESTARTS {
      RecentAppend(s1.restarts, now);
      LaunchGrows(Note(s1.(child := None, restarts := recent + [now]), AutoRestart(now)), now, spawn);
    }
  }

  // ----- the other ways to running -----

  /** Adopting is running at once, with a new budget; a pid that is none, or an app that is busy, changes nothing. */
  lemma AdoptRuns(s: State, pid: int)
    ensures var r := Adopt(s, pid);
            if Idle(s) && 0 < pid <= MAX_SAFE_INTEGER then
              && r.current == Running && r.child == Some(Handle(s.nextHandle, pid)) && s.nextHandle < r.nextHandle
              && SinceExplicit(r.log) == [] && r.restarts == []
            else r == s
  {
    hide SinceExplicit;
    if Idle(s) && 0 < pid <= MAX_SAFE_INTEGER {
      var s1, p := Note(s.(restarts := []), Explicit), Handle(s.nextHandle, pid);
      var s2 := Note(s1.(nextHandle := s1.nextHandle + 1, child := Some(p)), Attached(p));
      NotedSince(s.(restarts := []), Explicit);
      NotedSince(s1.(nextHandle := s1.nextHandle + 1, child := Some(p)), Attached(p));
      NotedSince(s2.(current := Running), Changed(Running));
    }
  }

  /** The child's spawn report means running exactly while it is starting and nobody stops it. */
  lemma SpawnRuns(s: State, p: Handle)
    ensures var r := OnSpawn(s, p);
            && r == s.(current := r.current, log := r.log)
            && (s.child == Some(p) && s.current == Starting && !s.stopRequested ==> r.current == Running)
            && (!(s.child == Some(p) && s.current == Starting && !s.stopRequested) ==> r == s)
  {
  }
}
