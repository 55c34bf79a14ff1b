/**
 * What the supervisor does when it is asked to: a stop really ends the process, by a kill that is noted or by the way through
 * saving and Shutdown to the timer, and every other event has its effect. SupervisorSafety says when a kill may happen;
 * this says when it does.
 */
module SupervisorStops {
  import opened Wrappers
  import opened ServerSupervisor
  import Safety = SupervisorSafety

  /** The step from `s` to `r` ended by killing `p` for the stop `k`. */
  ghost predicate Kills(s: State, r: State, k: nat, p: Handle) {
    |s.log| < |r.log| && r.log[|r.log| - 1] == Killed(k, p)
  }

  /** `p` has been killed for the stop `k`, which settles when its end comes. */
  ghost predicate KilledFor(s: State, r: State, k: nat, p: Handle) {
    Kills(s, r, k, p) && r.current == Stopping && r.stopping == Some(k) && r.child == Some(p)
  }

  lemma ForceKills(s: State, k: nat, p: Handle)
    requires s.child == Some(p) && s.stopping == Some(k) && (s.stopRequested ==> s.current == Stopping)
    ensures KilledFor(s, ForceStop(s, k), k, p)
  {
  }

  /**
   * A stop asked `anyway` while `p` is supervised kills `p` in its own step; only while an earlier stop still reads the
   * token does it wait for the token's answer.
   */
  lemma StopAnywayKills(s: State, p: Handle)
    requires Safety.Inv(s) && s.child == Some(p)
    ensures var k, r := StopPromise(s), Stop(s, true);
            if s.stopping.Some? && !s.stopRequested then AnywayWaits(r, k) && r.child == s.child && r.current == s.current
            else KilledFor(s, r, k, p)
  {
    hide Safety.Summary, Safety.Sound;
    var k := StopPromise(s);
    var s1 := Note(s, Asked(k, true, FoundStarting(s)));
    if s.stopping.Some? {
      if s.stopRequested { ForceKills(s1, k, p); }
    } else {
      ForceKills(s1.(nextStop := k + 1, stopping := Some(k)), k, p);
    }
  }

  /** The stop `k` reads the token, and has been told to end the process whatever it answers. */
  ghost predicate AnywayWaits(s: State, k: nat) {
    s.stopping == Some(k) && s.forceRequested && k in s.conts && s.conts[k] == ReadingAccess
  }

  /** A stop that finds `p` starting kills it in its own step. */
  lemma StartingIsKilled(s: State, anyway: bool, p: Handle)
    requires Safety.Inv(s) && s.child == Some(p) && s.current == Starting && s.stopping.None?
    ensures KilledFor(s, Stop(s, anyway), s.nextStop, p)
  {
    hide Safety.Summary, Safety.Sound;
    var k := s.nextStop;
    ForceKills(Note(s, Asked(k, anyway, FoundStarting(s))).(nextStop := k + 1, stopping := Some(k)), k, p);
  }

  /** Being told so is not forgotten before the stop settles. */
  ghost predicate Told(s: State, k: nat) {
    k in s.settled || (s.stopping == Some(k) && s.forceRequested)
  }

  lemma LaunchTold(s: State, k: nat, now: int, spawn: SpawnOracle)
    requires Told(s, k) && s.child.None? && !s.stopRequested
    ensures Told(Launch(s, now, spawn), k)
  {
    hide Safety.Summary, Safety.Sound, Launch;
    Safety.LaunchLeads(s, now, spawn);
  }

  lemma EndTold(s: State, k: nat, p: Handle, now: int, spawn: SpawnOracle)
    requires Told(s, k)
    ensures Told(ProcessEnded(s, p, now, spawn), k)
  {
    hide Safety.Summary, Safety.Sound, Launch, Recent;
    var s1 := Note(s.(handled := s.handled + {p}), Ended(p));
    if !s.stopRequested { Safety.EndLeads(s1, now, spawn); }
  }

  lemma StartTold(s: State, k: nat, now: int, spawn: SpawnOracle)
    requires Told(s, k) && Safety.Shape(s)
    ensures Told(Start(s, now, spawn), k)
  {
    hide Launch;
    if Idle(s) { LaunchTold(Note(s.(restarts := []), Explicit), k, now, spawn); }
  }

  lemma StopTold(s: State, k: nat, anyway: bool)
    requires Told(s, k) && Safety.Shape(s)
    ensures Told(Stop(s, anyway), k)
  {
  }

  lemma AccessTold(s: State, k: nat, j: nat, granted: bool)
    requires Told(s, k) && Safety.Shape(s)
    ensures Told(AccessAnswered(s, j, granted), k)
  {
  }

  lemma SaveTold(s: State, k: nat, j: nat, succeeded: bool)
    requires Told(s, k) && Safety.Shape(s)
    ensures Told(SaveAnswered(s, j, succeeded), k)
  {
  }

  lemma StepTold(s: State, e: Event, k: nat, now: int, spawn: SpawnOracle)
    requires Told(s, k) && Safety.Inv(s)
    ensures Told(Step(s, e, now, spawn), k)
  {
    assert Safety.Shape(s);
    hide Safety.Inv, Safety.Shape, Start, Stop, ProcessEnded, AccessAnswered, SaveAnswered;
    match e {
      case StartCalled => StartTold(s, k, now, spawn);
      case StopCalled(anyway) => StopTold(s, k, anyway);
      case RestartCalled(anyway) => StopTold(s, k, anyway);
      case EndReported(p) => EndTold(s, k, p, now, spawn);
      case AccessAnswer(j, granted) => AccessTold(s, k, j, granted);
      case SaveAnswer(j, succeeded) => SaveTold(s, k, j, succeeded);
      case RestartResumes(j) => ResumeTold(s, k, j, now, spawn);
      case _ =>
    }
  }

  lemma ResumeTold(s: State, k: nat, j: nat, now: int, spawn: SpawnOracle)
    requires Told(s, k) && Safety.Shape(s)
    ensures Told(RestartResumed(s, j, now, spawn), k)
  {
    hide Start;
    StartTold(s.(waiters := s.waiters - multiset{j}), k, now, spawn);
  }

  lemma RunLast(events: seq<Stamped>, i: nat, spawn: SpawnOracle)
    requires i < |events|
    ensures Run(events[..i + 1], spawn) == Step(Run(events[..i], spawn), events[i].event, events[i].now, spawn)
  {
    assert events[..i + 1][..i] == events[..i];
  }

  lemma {:induction false} StaysTold(events: seq<Stamped>, spawn: SpawnOracle, i: nat, j: nat, k: nat)
    requires i <= j <= |events| && Told(Run(events[..i], spawn), k)
    ensures Told(Run(events[..j], spawn), k)
    decreases j
  {
    hide Run, Told, Step, Safety.Inv;
    if i < j {
      StaysTold(events, spawn, i, j - 1, k);
      Safety.RunKeeps(events[..j - 1], spawn);
      RunLast(events, j - 1, spawn);
      StepTold(Run(events[..j - 1], spawn), events[j - 1].event, k, events[j - 1].now, spawn);
    }
  }

  ghost predicate AsksAnyway(e: Event) {
    e == StopCalled(true) || e == RestartCalled(true)
  }

  /**
   * Over every run: a stop or restart asked `anyway` at step `i`, with a process supervised, kills it there; or it waits
   * for the pending stop's token, and the answer of step `j` kills the process then running, unless that stop has settled.
   */
  lemma AnywayIsHonoured(events: seq<Stamped>, spawn: SpawnOracle, i: nat, j: nat, p: Handle, granted: bool)
    requires i < j < |events| && AsksAnyway(events[i].event) && Run(events[..i], spawn).child.Some?
    requires var k := StopPromise(Run(events[..i], spawn));
             events[j].event == AccessAnswer(k, granted)
    requires var s := Run(events[..j], spawn); s.current == Running && s.child == Some(p)
    ensures var before, s, r := Run(events[..i], spawn), Run(events[..j], spawn), Run(events[..j + 1], spawn);
            var k := StopPromise(before);
            || KilledFor(before, Run(events[..i + 1], spawn), k, before.child.value)
            || k in s.settled
            || KilledFor(s, r, k, p)
  {
    hide Run, Stop, Safety.Inv, KilledFor;
    var before, s := Run(events[..i], spawn), Run(events[..j], spawn);
    var k := StopPromise(before);
    Safety.RunKeeps(events[..i], spawn);
    Safety.RunKeeps(events[..j], spawn);
    RunLast(events, i, spawn);
    RunLast(events, j, spawn);
    StopAnywayKills(before, before.child.value);
    SameKill(before, Stop(before, true), Restart(before, true), k, before.child.value);
    if before.stopping.Some? && !before.stopRequested {
      StaysTold(events, spawn, i + 1, j, k);
      if k !in s.settled { TokenKills(s, k, p, granted); }
    }
  }

  lemma SameKill(s: State, r: State, r1: State, k: nat, p: Handle)
    requires r1 == r.(waiters := r1.waiters)
    ensures KilledFor(s, r, k, p) ==> KilledFor(s, r1, k, p)
  {
  }

  /** The token's answer, once told to end the process whatever it is. */
  lemma TokenKills(s: State, k: nat, p: Handle, granted: bool)
    requires Safety.Inv(s) && s.stopping == Some(k) && s.forceRequested && s.current == Running && s.child == Some(p)
    ensures KilledFor(s, AccessAnswered(s, k, granted), k, p)
  {
    hide Safety.Summary, Safety.Sound;
    assert k in s.conts && s.conts[k] == ReadingAccess;
    ForceKills(s.(conts := s.conts - {k}), k, p);
  }

  // ----- the clean stop -----

  /** A clean stop of a running process reads the token first, and changes nothing else. */
  lemma CleanStopReads(s: State, p: Handle)
    requires Safety.Inv(s) && s.current == Running && s.child == Some(p) && s.stopping.None?
    ensures var k, r := s.nextStop, Stop(s, false);
            && r.stopping == Some(k) && r.conts == s.conts[k := ReadingAccess]
            && r.current == Running && r.child == Some(p) && r.timer == s.timer && r.settled == s.settled
            && r.log == s.log + [Asked(k, false, None)]
  {
    hide Safety.Summary, Safety.Sound;
  }

  /** Granted the token it stops to save; refused it settles `unavailable`, and the process goes on as it was. */
  lemma TokenMovesOn(s: State, k: nat, p: Handle, granted: bool)
    requires Safety.Inv(s) && k in s.conts && s.conts[k] == ReadingAccess
    requires s.current == Running && s.child == Some(p) && !s.forceRequested
    ensures var r := AccessAnswered(s, k, granted);
            && r.child == Some(p) && r.timer.None?
            && (granted ==>
                  && r.current == Stopping && r.stopping == Some(k) && !r.forced && r.conts == s.conts[k := Saving(p)]
                  && r.settled == s.settled)
            && (!granted ==> r.current == Running && r.stopping.None? && r.settled == s.settled[k := Unavailable])
  {
    hide Safety.Summary, Safety.Sound;
  }

  /** Without a running process it settles: `stopped` when it is gone, `failed` when another one was started meanwhile. */
  lemma TokenTooLate(s: State, k: nat, granted: bool)
    requires Safety.Inv(s) && k in s.conts && s.conts[k] == ReadingAccess && s.current != Running
    ensures var r := AccessAnswered(s, k, granted);
            && r.settled == s.settled[k := if s.child.Some? then Failed else Gone]
            && r.current == s.current && r.child == s.child && r.stopping.None?
  {
    hide Safety.Summary, Safety.Sound;
  }

  /** The stop `k` still acts for its own process: nobody forced it, and `p` is still supervised. */
  ghost predicate StillItsOwn(s: State, p: Handle) {
    s.child == Some(p) && !s.forced
  }

  /** Saved it asks for Shutdown; failing to save it settles `failed`, and the process goes on. */
  lemma SaveMovesOn(s: State, k: nat, p: Handle, succeeded: bool)
    requires Safety.Inv(s) && k in s.conts && s.conts[k] == Saving(p) && StillItsOwn(s, p)
    ensures var r := SaveAnswered(s, k, succeeded);
            && r.child == Some(p)
            && (succeeded ==>
                  && r.current == Stopping && r.stopping == Some(k) && r.conts == s.conts[k := ShuttingDown(p)]
                  && r.log == s.log + [Saved(k, p)] && !r.forced && r.settled == s.settled)
            && (!succeeded ==> r.current == Running && r.stopping.None? && r.settled == s.settled[k := Failed])
  {
    hide Safety.Summary, Safety.Sound;
  }

  /** Whatever Shutdown answered, the timer is armed for that process. */
  lemma ShutdownArms(s: State, k: nat, p: Handle)
    requires Safety.Inv(s) && k in s.conts && s.conts[k] == ShuttingDown(p) && StillItsOwn(s, p)
    ensures var r := ShutdownAnswered(s, k);
            && r.timer == Some(Timer(k, p)) && r.current == Stopping && r.stopping == Some(k)
            && r.child == Some(p) && !r.forced && r.log == s.log && r.settled == s.settled
  {
    hide Safety.Summary, Safety.Sound;
  }

  /** The armed timer, when it fires, kills the process. */
  lemma TimerKills(s: State)
    requires Safety.Inv(s) && s.timer.Some?
    ensures var r, t := TimerFired(s), s.timer.value;
            && KilledFor(s, r, t.stop, t.proc) && r.timer.None?
            && r.log == s.log + [Killed(t.stop, t.proc)] && r.settled == s.settled
  {
    hide Safety.Summary, Safety.Sound;
  }

  /** Past its turn, or forced, a continuation only ends. */
  lemma LateAnswersDoNothing(s: State, k: nat, p: Handle, succeeded: bool)
    requires Safety.Inv(s) && k in s.conts && !StillItsOwn(s, p)
    ensures s.conts[k] == Saving(p) ==>
              var r := SaveAnswered(s, k, succeeded);
              r == s.(conts := s.conts - {k}, log := r.log)
              && r.log == s.log + (if succeeded then [Saved(k, p)] else [])
    ensures s.conts[k] == ShuttingDown(p) ==> ShutdownAnswered(s, k) == s.(conts := s.conts - {k})
  {
    hide Safety.Summary, Safety.Sound;
    assert s.log + [] == s.log;
  }

  /** The end of a process asked to stop settles its stop `stopped`, and nothing is restarted. */
  lemma StopSettlesAtTheEnd(s: State, p: Handle, now: int, spawn: SpawnOracle)
    requires Safety.Inv(s) && s.child == Some(p) && s.stopRequested
    ensures var r := ProcessEnded(s, p, now, spawn);
            && r.current == Stopped && r.child.None? && r.stopping.None? && r.timer.None? && !r.stopRequested
            && r.settled == s.settled[s.stopping.value := Gone]
            && r.nextHandle == s.nextHandle
  {
    hide Safety.Summary, Safety.Sound, Launch;
  }

  /** With nothing supervised a stop settles `stopped` at once. */
  lemma StopOfNothing(s: State, anyway: bool)
    requires Safety.Inv(s) && Idle(s) && s.stopping.None?
    ensures var r := Stop(s, anyway);
            r.settled == s.settled[s.nextStop := Gone] && r.current == s.current && r.stopping.None? && r.child.None?
  {
    hide Safety.Summary, Safety.Sound;
  }

  function CleanStop(k: nat): seq<Event> {
    [StopCalled(false), AccessAnswer(k, true), SaveAnswer(k, true), ShutdownAnswer(k), TimerFires]
  }

  function Steps(s: State, events: seq<Event>, now: int, spawn: SpawnOracle): State {
    if events == [] then s else Step(Steps(s, events[..|events| - 1], now, spawn), events[|events| - 1], now, spawn)
  }

  lemma OneMore(s: State, events: seq<Event>, e: Event, now: int, spawn: SpawnOracle)
    ensures Steps(s, events + [e], now, spawn) == Step(Steps(s, events, now, spawn), e, now, spawn)
  {
    hide Step;
    assert (events + [e])[..|events|] == events;
  }

  lemma StepsUnfold(s: State, k: nat, now: int, spawn: SpawnOracle)
    ensures var c := CleanStop(k);
            && Steps(s, c[..1], now, spawn) == Stop(s, false)
            && Steps(s, c[..2], now, spawn) == AccessAnswered(Steps(s, c[..1], now, spawn), k, true)
            && Steps(s, c[..3], now, spawn) == SaveAnswered(Steps(s, c[..2], now, spawn), k, true)
            && Steps(s, c[..4], now, spawn) == ShutdownAnswered(Steps(s, c[..3], now, spawn), k)
            && Steps(s, c, now, spawn) == TimerFired(Steps(s, c[..4], now, spawn))
  {
    hide Stop, AccessAnswered, SaveAnswered, ShutdownAnswered, TimerFired;
    var c := CleanStop(k);
    assert Steps(s, [], now, spawn) == s;
    hide Steps;
    OneMore(s, [], c[0], now, spawn);
    OneMore(s, c[..1], c[1], now, spawn);
    OneMore(s, c[..2], c[2], now, spawn);
    OneMore(s, c[..3], c[3], now, spawn);
    OneMore(s, c[..4], c[4], now, spawn);
    assert [] + [c[0]] == c[..1] && c[..1] + [c[1]] == c[..2] && c[..2] + [c[2]] == c[..3];
    assert c[..3] + [c[3]] == c[..4] && c[..4] + [c[4]] == c;
  }

  /**
   * The whole way of a clean stop, from any state that runs `p`: with every answer a good one the game is saved and, if the
   * process outlives Shutdown by the timer, it is killed; when it ends the stop settles `stopped`.
   */
  lemma CleanStopEndsIt(s: State, p: Handle, now: int, spawn: SpawnOracle)
    requires Safety.Inv(s) && s.current == Running && s.child == Some(p) && s.stopping.None?
    ensures var k := s.nextStop;
            var r := Steps(s, CleanStop(k), now, spawn);
            && Saved(k, p) in r.log && r.log[|r.log| - 1] == Killed(k, p) && r.child == Some(p)
            && var done := ProcessEnded(r, p, now, spawn);
            done.current == Stopped && done.settled == s.settled[k := Gone]
  {
    hide Safety.Inv, Step, Steps, Stop, AccessAnswered, SaveAnswered, ShutdownAnswered, TimerFired, ProcessEnded;
    var k := s.nextStop;
    StepsUnfold(s, k, now, spawn);
    var s1 := Stop(s, false);
    var s2 := AccessAnswered(s1, k, true);
    var s3 := SaveAnswered(s2, k, true);
    var s4 := ShutdownAnswered(s3, k);
    var r := TimerFired(s4);
    Safety.StopKeeps(s, false);
    Safety.AccessKeeps(s1, k, true);
    CleanStopReads(s, p);
    NoForceLeft(s);
    TokenMovesOn(s1, k, p, true);
    SaveMovesOn(s2, k, p, true);
    StepIs(s2, s3, s4, k, now, spawn);
    ShutdownArms(s3, k, p);
    TimerKills(s4);
    assert Saved(k, p) in s3.log && r.log == s3.log + [Killed(k, p)];
    StoppingRequested(r);
    StopSettlesAtTheEnd(r, p, now, spawn);
  }

  /** A force request belongs to a pending stop. */
  lemma NoForceLeft(s: State)
    requires Safety.Inv(s) && s.stopping.None?
    ensures !s.forceRequested && !Stop(s, false).forceRequested
  {
  }

  lemma StepIs(s2: State, s3: State, s4: State, k: nat, now: int, spawn: SpawnOracle)
    requires Safety.Inv(s2) && s3 == SaveAnswered(s2, k, true) && s4 == ShutdownAnswered(s3, k)
    ensures Safety.Inv(s3) && Safety.Inv(s4) && Safety.Inv(TimerFired(s4))
  {
    hide Safety.Inv, SaveAnswered, ShutdownAnswered, TimerFired;
    Safety.StepKeeps(s2, SaveAnswer(k, true), now, spawn);
    Safety.StepKeeps(s3, ShutdownAnswer(k), now, spawn);
    Safety.StepKeeps(s4, TimerFires, now, spawn);
  }

  lemma StoppingRequested(s: State)
    requires Safety.Inv(s) && s.current == Stopping
    ensures s.stopRequested
  {
  }
}
