/**
 * The game-server supervisor as a state machine. One function per closure of `createSupervisor`, one step per
 * synchronous segment between two awaits. What a closure leaves suspended is data: `conts` holds the clean stops waiting
 * for the game's API, `timer` the armed shutdown timer, `waiters` the restarts waiting for a stop promise.
 * `log` is history only: no function branches on it.
 */
module ServerSupervisor {
  import opened Wrappers

  const MAX_RESTARTS: nat := 3
  const RESTART_WINDOW_MS: int := 600_000
  const MAX_SAFE_INTEGER: int := 9_007_199_254_740_991

  datatype ServerState = Stopped | Starting | Running | Stopping | Crashed

  datatype StopOutcome = Gone | Unavailable | Failed

  /** A child handle: `id` is its identity, `pid` the process it stands for. */
  datatype Handle = Handle(id: nat, pid: int)

  datatype Phase =
    | ReadingAccess
    | Saving(proc: Handle)
    | ShuttingDown(proc: Handle)

  datatype Timer = Timer(stop: nat, proc: Handle)

  datatype Entry =
    | Explicit                                                    // start or adopt accepted: the restart budget is new
    | Spawned(proc: Handle)
    | SpawnThrew
    | Attached(proc: Handle)
    | Ended(proc: Handle)
    | AutoRestart(at: int)
    | Changed(to: ServerState)
    | Asked(stop: nat, anyway: bool, found: Option<Handle>)     // `found`: the child this ask, opening the stop, found starting
    | Saved(stop: nat, proc: Handle)
    | Killed(stop: nat, proc: Handle)
    | Settled(stop: nat, outcome: StopOutcome, supervised: Option<Handle>)

  datatype State = State(
    current: ServerState,
    child: Option<Handle>,
    restarts: seq<int>,
    stopRequested: bool,
    stopping: Option<nat>,
    forceRequested: bool,
    forced: bool,
    timer: Option<Timer>,
    conts: map<nat, Phase>,
    waiters: multiset<nat>,
    settled: map<nat, StopOutcome>,
    handled: set<Handle>,
    nextHandle: nat,
    nextStop: nat,
    log: seq<Entry>)

  /** What `opts.spawn` does at its n-th call: throw (None) or return a child with this pid. */
  type SpawnOracle = nat -> Option<int>

  const INITIAL: State :=
    State(Stopped, None, [], false, None, false, false, None, map[], multiset{}, map[], {}, 0, 0, [])

  // ----- the closures of createSupervisor -----

  function Note(s: State, e: Entry): State {
    s.(log := s.log + [e])
  }

  function SetState(s: State, next: ServerState): State {
    if next == s.current then s else Note(s.(current := next), Changed(next))
  }

  /** The restart times that still count at `now`: those less than RESTART_WINDOW_MS ago. */
  function Recent(times: seq<int>, now: int): (r: seq<int>) {
    if times == [] then []
    else if now - times[0] < RESTART_WINDOW_MS then [times[0]] + Recent(times[1..], now)
    else Recent(times[1..], now)
  }

  /** How many automatic restarts are still allowed at `now`; it bounds the launch/onEnded recursion. */
  function Budget(s: State, now: int): nat {
    if |Recent(s.restarts, now)| < MAX_RESTARTS then MAX_RESTARTS - |Recent(s.restarts, now)| else 0
  }

  function FinishStop(s: State, outcome: StopOutcome): State {
    var s1 := s.(timer := None, forceRequested := false, stopping := None);
    match s.stopping
    case None => s1
    case Some(k) => Note(s1.(settled := s1.settled[k := outcome]), Settled(k, outcome, s.child))
  }

  function BeginStopping(s: State): State {
    SetState(s.(stopRequested := true, forced := false), Stopping)
  }

  /** `k` is the stop this force belongs to. */
  function ForceStop(s: State, k: nat): State {
    var s1 := if s.stopRequested then s else BeginStopping(s);
    var s2 := s1.(forced := true, timer := None);
    if s2.child.Some? then Note(s2, Killed(k, s2.child.value)) else s2
  }

  function Launch(s: State, now: int, spawn: SpawnOracle): State
    decreases Budget(s, now), 1
  {
    var s1 := SetState(s, Starting);
    match spawn(s1.nextHandle)
    case None =>
      OnEnded(Note(s1.(nextHandle := s1.nextHandle + 1, child := None), SpawnThrew), now, spawn)
    case Some(pid) =>
      var proc := Handle(s1.nextHandle, pid);
      Note(s1.(nextHandle := s1.nextHandle + 1, child := Some(proc)), Spawned(proc))
  }

  function OnEnded(s: State, now: int, spawn: SpawnOracle): State
    decreases Budget(s, now), 0
  {
    var s1 := s.(child := None);
    if s1.stopRequested then
      FinishStop(SetState(s1.(stopRequested := false), Stopped), Gone)
    else
      var recent := Recent(s1.restarts, now);
      if |recent| < MAX_RESTARTS then
        RecentAppend(s1.restarts, now);
        Launch(Note(s1.(restarts := recent + [now]), AutoRestart(now)), now, spawn)
      else
        SetState(s1.(restarts := recent), Crashed)
  }

  function Idle(s: State): bool {
    s.current == Stopped || s.current == Crashed
  }

  function Start(s: State, now: int, spawn: SpawnOracle): State {
    if !Idle(s) then s else Launch(Note(s.(restarts := []), Explicit), now, spawn)
  }

  function Adopt(s: State, pid: int): State {
    if !Idle(s) || !(0 < pid <= MAX_SAFE_INTEGER) then s
    else
      var proc := Handle(s.nextHandle, pid);
      var s1 := Note(s.(restarts := []), Explicit);
      SetState(Note(s1.(nextHandle := s1.nextHandle + 1, child := Some(proc)), Attached(proc)), Running)
  }

  /** `proc.onSpawn`'s callback. */
  function OnSpawn(s: State, proc: Handle): State {
    if s.child == Some(proc) && s.current == Starting && !s.stopRequested then SetState(s, Running) else s
  }

  /** `watch`'s `ended`: an exit or an error event of `proc`, however often it comes. */
  function ProcessEnded(s: State, proc: Handle, now: int, spawn: SpawnOracle): State {
    if proc in s.handled || s.child != Some(proc) then s
    else OnEnded(Note(s.(handled := s.handled + {proc}), Ended(proc)), now, spawn)
  }

  /** The promise `stop` returns: the pending one, one resolved at once, or a new one. */
  function StopPromise(s: State): nat {
    if s.stopping.Some? then s.stopping.value else s.nextStop
  }

  /** A stop asked while one is pending: it only shares the promise, unless it says `anyway`. */
  function JoinStop(s: State, k: nat, anyway: bool): State {
    if !anyway then s else if s.stopRequested then ForceStop(s, k) else s.(forceRequested := true)
  }

  /** A stop that opens its own promise. */
  function OpenStop(s: State, k: nat, anyway: bool): State {
    if Idle(s) || s.child.None? then
      Note(s.(settled := s.settled[k := Gone]), Settled(k, Gone, s.child))
    else
      var s1 := s.(stopping := Some(k));
      if anyway then ForceStop(s1, k)
      else if s.current == Starting then ForceStop(s1, k)
      else s1.(conts := s1.conts[k := ReadingAccess])
  }

  /** The child a stop finds starting when it opens its own promise. */
  function FoundStarting(s: State): Option<Handle> {
    if s.stopping.None? && s.current == Starting then s.child else None
  }

  function Stop(s: State, anyway: bool): State {
    var k := StopPromise(s);
    var s1 := Note(s, Asked(k, anyway, FoundStarting(s)));
    if s.stopping.Some? then JoinStop(s1, k, anyway) else OpenStop(s1.(nextStop := k + 1), k, anyway)
  }

  /** The clean stop of promise `k` goes on after `await opts.gameApi()`; `granted` is `access.ok`. */
  function AccessAnswered(s: State, k: nat, granted: bool): State {
    if k !in s.conts || s.conts[k] != ReadingAccess then s
    else
      var s1 := s.(conts := s.conts - {k});
      if s.child.None? || s.current != Running then FinishStop(s1, if s.child.Some? then Failed else Gone)
      else if s.forceRequested then ForceStop(s1, k)
      else if !granted then FinishStop(s1, Unavailable)
      else
        var s2 := BeginStopping(s1);
        s2.(conts := s2.conts[k := Saving(s.child.value)])
  }

  /** ... after `await api.saveGame(await api.sessionName())`, which succeeded or threw. */
  function SaveAnswered(s: State, k: nat, succeeded: bool): State {
    if k !in s.conts || !s.conts[k].Saving? then s
    else
      var proc := s.conts[k].proc;
      var s1 := s.(conts := s.conts - {k});
      var s2 := if succeeded then Note(s1, Saved(k, proc)) else s1;
      if s.child != Some(proc) || s.forced then s2
      else if succeeded then s2.(conts := s2.conts[k := ShuttingDown(proc)])
      else FinishStop(SetState(s2.(stopRequested := false), Running), Failed)
  }

  /** ... after `await api.shutdown()`, whether or not it threw. */
  function ShutdownAnswered(s: State, k: nat): State {
    if k !in s.conts || !s.conts[k].ShuttingDown? then s
    else
      var proc := s.conts[k].proc;
      var s1 := s.(conts := s.conts - {k});
      if s.child != Some(proc) || s.forced then s1 else s1.(timer := Some(Timer(k, proc)))
  }

  function TimerFired(s: State): State {
    match s.timer
    case None => s
    case Some(t) =>
      var s1 := s.(timer := None);
      if s.child != Some(t.proc) then s1 else Note(s1, Killed(t.stop, t.proc))
  }

  function Restart(s: State, anyway: bool): State {
    var k := StopPromise(s);
    var s1 := Stop(s, anyway);
    s1.(waiters := s1.waiters + multiset{k})
  }

  /** A restart goes on once the stop promise `k` it awaits has settled. */
  function RestartResumed(s: State, k: nat, now: int, spawn: SpawnOracle): State {
    if k !in s.waiters || k !in s.settled then s
    else
      var s1 := s.(waiters := s.waiters - multiset{k});
      if s.settled[k] == Gone then Start(s1, now, spawn) else s1
  }

  // ----- runs -----

  datatype Event =
    | StartCalled
    | AdoptCalled(pid: int)
    | StopCalled(anyway: bool)
    | RestartCalled(anyway: bool)
    | SpawnReported(proc: Handle)
    | EndReported(proc: Handle)
    | AccessAnswer(stop: nat, granted: bool)
    | SaveAnswer(stop: nat, succeeded: bool)
    | ShutdownAnswer(stop: nat)
    | TimerFires
    | RestartResumes(stop: nat)

  function Step(s: State, e: Event, now: int, spawn: SpawnOracle): State {
    match e
    case StartCalled => Start(s, now, spawn)
    case AdoptCalled(pid) => Adopt(s, pid)
    case StopCalled(anyway) => Stop(s, anyway)
    case RestartCalled(anyway) => Restart(s, anyway)
    case SpawnReported(proc) => OnSpawn(s, proc)
    case EndReported(proc) => ProcessEnded(s, proc, now, spawn)
    case AccessAnswer(k, granted) => AccessAnswered(s, k, granted)
    case SaveAnswer(k, succeeded) => SaveAnswered(s, k, succeeded)
    case ShutdownAnswer(k) => ShutdownAnswered(s, k)
    case TimerFires => TimerFired(s)
    case RestartResumes(k) => RestartResumed(s, k, now, spawn)
  }

  datatype Stamped = Stamped(event: Event, now: int)

  /** The state after a run: any events at all, in any order. */
  function Run(events: seq<Stamped>, spawn: SpawnOracle): State {
    if events == [] then INITIAL
    else
      var last := events[|events| - 1];
      Step(Run(events[..|events| - 1], spawn), last.event, last.now, spawn)
  }

  lemma RecentAppend(times: seq<int>, now: int)
    ensures Recent(Recent(times, now) + [now], now) == Recent(times, now) + [now]
  {
    var r := Recent(times, now);
    RecentAll(times, now);
    AllRecent(r + [now], now);
  }

  lemma {:induction false} RecentAll(times: seq<int>, now: int)
    ensures forall i :: 0 <= i < |Recent(times, now)| ==> now - Recent(times, now)[i] < RESTART_WINDOW_MS
  {
    if times != [] { RecentAll(times[1..], now); }
  }

  lemma {:induction false} AllRecent(times: seq<int>, now: int)
    requires forall i :: 0 <= i < |times| ==> now - times[i] < RESTART_WINDOW_MS
    ensures Recent(times, now) == times
  {
    if times != [] {
      AllRecent(times[1..], now);
      assert times == [times[0]] + times[1..];
    }
  }

  // ----- the object itself -----

  /**
   * What `createSupervisor` returns, with the closure's variables as fields. `now` is the clock's one reading in the
   * segment; the listeners it tells about a change do not call back. `conts`, `waiters` and `settled` are the promises
   * and async continuations the runtime would hold.
   */
  class Supervisor {
    const spawn: SpawnOracle
    var current: ServerState
    var child: Option<Handle>
    var restarts: seq<int>
    var stopRequested: bool
    var stopping: Option<nat>
    var forceRequested: bool
    var forced: bool
    var timer: Option<Timer>
    var conts: map<nat, Phase>
    var waiters: multiset<nat>
    var settled: map<nat, StopOutcome>
    var handled: set<Handle>
    var nextHandle: nat
    var nextStop: nat
    ghost var log: seq<Entry>

    ghost function View(): State
      reads this
    {
      State(current, child, restarts, stopRequested, stopping, forceRequested, forced, timer, conts, waiters, settled,
            handled, nextHandle, nextStop, log)
    }

    constructor (spawn: SpawnOracle)
      ensures View() == INITIAL && this.spawn == spawn
    {
      this.spawn := spawn;
      current, child, restarts := ServerState.Stopped, None, [];
      stopRequested, stopping, forceRequested, forced := false, None, false, false;
      timer, conts, waiters, settled, handled := None, map[], multiset{}, map[], {};
      nextHandle, nextStop, log := 0, 0, [];
    }

    method Set(next: ServerState)
      modifies this
      ensures View() == SetState(old(View()), next) && restarts == old(restarts)
    {
      if next == current { return; }
      current := next;
      log := log + [Changed(next)];
    }

    method SettleStop(outcome: StopOutcome)
      modifies this
      ensures View() == FinishStop(old(View()), outcome)
    {
      timer, forceRequested := None, false;
      var pending := stopping;
      stopping := None;
      if pending.Some? {
        settled := settled[pending.value := outcome];
        log := log + [Settled(pending.value, outcome, child)];
      }
    }

    method StartStopping()
      modifies this
      ensures View() == BeginStopping(old(View()))
    {
      stopRequested, forced := true, false;
      Set(ServerState.Stopping);
    }

    method Force(ghost k: nat)
      modifies this
      ensures View() == ForceStop(old(View()), k)
    {
      hide BeginStopping;
      if !stopRequested { StartStopping(); }
      forced, timer := true, None;
      if child.Some? { log := log + [Killed(k, child.value)]; }
    }

    method LaunchChild(now: int)
      modifies this
      ensures View() == Launch(old(View()), now, spawn)
      decreases Budget(View(), now), 1
    {
      hide OnEnded, SetState;
      Set(Starting);
      var id := nextHandle;
      nextHandle := nextHandle + 1;
      match spawn(id) {
        case None =>
          child := None;
          log := log + [SpawnThrew];
          ChildEnded(now);
        case Some(pid) =>
          child := Some(Handle(id, pid));
          log := log + [Spawned(Handle(id, pid))];
      }
    }

    method ChildEnded(now: int)
      modifies this
      ensures View() == OnEnded(old(View()), now, spawn)
      decreases Budget(View(), now), 0
    {
      hide Launch, SetState, FinishStop, Recent;
      child := None;
      if stopRequested {
        stopRequested := false;
        Set(ServerState.Stopped);
        SettleStop(Gone);
        return;
      }
      RecentAppend(restarts, now);
      restarts := Recent(restarts, now);
      if |restarts| < MAX_RESTARTS {
        restarts := restarts + [now];
        log := log + [AutoRestart(now)];
        LaunchChild(now);
        return;
      }
      Set(Crashed);
    }

    method StartServer(now: int)
      modifies this
      ensures View() == Start(old(View()), now, spawn)
    {
      hide Launch;
      if current != ServerState.Stopped && current != Crashed { return; }
      restarts := [];
      log := log + [Explicit];
      LaunchChild(now);
    }

    /** `watch(opts.attach(pid))` */
    method Attach(pid: int)
      modifies this
      ensures var s, proc := old(View()), Handle(old(nextHandle), pid);
              View() == Note(s.(nextHandle := s.nextHandle + 1, child := Some(proc)), Attached(proc))
    {
      var proc := Handle(nextHandle, pid);
      nextHandle, child := nextHandle + 1, Some(proc);
      log := log + [Attached(proc)];
    }

    method AdoptServer(pid: int)
      modifies this
      ensures View() == Adopt(old(View()), pid)
    {
      hide SetState;
      if current != ServerState.Stopped && current != Crashed { return; }
      if !(0 < pid <= MAX_SAFE_INTEGER) { return; }
      restarts := [];
      log := log + [Explicit];
      Attach(pid);
      Set(Running);
    }

    method OnSpawned(proc: Handle)
      modifies this
      ensures View() == OnSpawn(old(View()), proc)
    {
      if child == Some(proc) && current == Starting && !stopRequested { Set(Running); }
    }

    method OnExitOrError(proc: Handle, now: int)
      modifies this
      ensures View() == ProcessEnded(old(View()), proc, now, spawn)
    {
      hide OnEnded;
      if proc in handled || child != Some(proc) { return; }
      handled := handled + {proc};
      log := log + [Ended(proc)];
      ChildEnded(now);
    }

    method ShareStop(k: nat, anyway: bool)
      modifies this
      ensures View() == JoinStop(old(View()), k, anyway)
    {
      hide ForceStop;
      if anyway {
        if stopRequested { Force(k); } else { forceRequested := true; }
      }
    }

    method NewStop(k: nat, anyway: bool)
      modifies this
      ensures View() == OpenStop(old(View()), k, anyway)
    {
      hide ForceStop;
      if current == ServerState.Stopped || current == Crashed || child.None? {
        settled := settled[k := Gone];
        log := log + [Settled(k, Gone, child)];
        return;
      }
      stopping := Some(k);
      if anyway { Force(k); }
      else if current == Starting { Force(k); }
      else { conts := conts[k := ReadingAccess]; }
    }

    method StopServer(anyway: bool) returns (promise: nat)
      modifies this
      ensures View() == Stop(old(View()), anyway)
      ensures promise == StopPromise(old(View()))
    {
      hide JoinStop, OpenStop;
      if stopping.Some? {
        promise := stopping.value;
        log := log + [Asked(promise, anyway, None)];
        ShareStop(promise, anyway);
        return;
      }
      promise := nextStop;
      nextStop := nextStop + 1;
      log := log + [Asked(promise, anyway, if current == Starting then child else None)];
      NewStop(promise, anyway);
    }

    /** `cleanStop` after the token was read. */
    method OnAccess(k: nat, granted: bool)
      modifies this
      ensures View() == AccessAnswered(old(View()), k, granted)
    {
      hide FinishStop, ForceStop, BeginStopping;
      if k !in conts || conts[k] != ReadingAccess { return; }
      conts := conts - {k};
      var proc := child;
      if proc.None? || current != Running {
        SettleStop(if proc.Some? then Failed else Gone);
        return;
      }
      if forceRequested { Force(k); return; }
      if !granted { SettleStop(Unavailable); return; }
      StartStopping();
      conts := conts[k := Saving(proc.value)];
    }

    /** `cleanStop` after saving. */
    method OnSave(k: nat, succeeded: bool)
      modifies this
      ensures View() == SaveAnswered(old(View()), k, succeeded)
    {
      hide SetState, FinishStop;
      if k !in conts || !conts[k].Saving? { return; }
      var proc := conts[k].proc;
      conts := conts - {k};
      if succeeded { log := log + [Saved(k, proc)]; }
      if child != Some(proc) || forced { return; }
      if succeeded { conts := conts[k := ShuttingDown(proc)]; return; }
      stopRequested := false;
      Set(Running);
      SettleStop(Failed);
    }

    /** `cleanStop` after Shutdown. */
    method OnShutdown(k: nat)
      modifies this
      ensures View() == ShutdownAnswered(old(View()), k)
    {
      if k !in conts || !conts[k].ShuttingDown? { return; }
      var proc := conts[k].proc;
      conts := conts - {k};
      if child != Some(proc) || forced { return; }
      timer := Some(Timer(k, proc));
    }

    method OnTimer()
      modifies this
      ensures View() == TimerFired(old(View()))
    {
      if timer.None? { return; }
      var t := timer.value;
      timer := None;
      if child != Some(t.proc) { return; }
      log := log + [Killed(t.stop, t.proc)];
    }

    method RestartServer(anyway: bool) returns (promise: nat)
      modifies this
      ensures View() == Restart(old(View()), anyway)
      ensures promise == StopPromise(old(View()))
    {
      promise := StopServer(anyway);
      waiters := waiters + multiset{promise};
    }

    method OnRestartReady(k: nat, now: int)
      modifies this
      ensures View() == RestartResumed(old(View()), k, now, spawn)
    {
      if k !in waiters || k !in settled { return; }
      waiters := waiters - multiset{k};
      if settled[k] == Gone { StartServer(now); }
    }
  }
}
