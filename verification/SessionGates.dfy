/**
 * What the app's handlers do when they act: the launch's lookup adopts, forgets or leaves alone by the command line it read,
 * and a button reaches the supervisor exactly when its gate is open. SessionSafety says what all of this keeps.
 */
module SessionGates {
  import opened Wrappers
  import opened ServerSupervisor
  import opened Sessions
  import opened SessionSafety
  import Commands = ServerCommands
  import Restarts = SupervisorRestarts
  import Safety = SupervisorSafety

  /** The command line was read, and is judged to run the configured server. */
  ghost predicate ReadOurs(p: Commands.Platform, line: Option<string>, serverExe: string, viaNode: Option<string>) {
    line.Some? && Commands.ServerCommandMatch(p, line.value, serverExe, viaNode) == Commands.Ours
  }

  /** It was read, and is judged another program's. */
  ghost predicate ReadOther(p: Commands.Platform, line: Option<string>, serverExe: string, viaNode: Option<string>) {
    line.Some? && Commands.ServerCommandMatch(p, line.value, serverExe, viaNode) == Commands.Other
  }

  /** The supervisor that the lookup began with is still the current one, and neither it nor an update is at work. */
  ghost predicate MayAdopt(ss: Session, pid: int, sup: nat) {
    && sup == |ss.replaced| && ss.updating == NotUpdating && ss.sup.Some? && Idle(ss.sup.value)
    && 0 < pid <= MAX_SAFE_INTEGER
  }

  ghost predicate Sane(ss: Session) {
    ss.sup.Some? ==> Safety.Inv(ss.sup.value)
  }

  /**
   * The launch's lookup of `pid`, from the moment it waits for the command line: the record is removed exactly when the line
   * was read and is another program's; the process is adopted, running at once, exactly when the line is the server's and the
   * app may adopt; and a line that could not be read changes neither the record nor the supervisor.
   */
  lemma LookupDecides(
      w: World, ss: Session, pid: int, sup: nat, p: Commands.Platform, line: Option<string>, serverExe: string,
      viaNode: Option<string>, now: int, spawn: SpawnOracle)
    requires w.session == Some(ss) && Sane(ss) && ss.adopting == Some(Reading(pid, sup))
    ensures var read := CommandLineRead(VerdictOn(p, line, serverExe, viaNode));
            var r := Next(Next(w, read, now, spawn), AdoptResumes, now, spawn);
            && r.machine ==
                 (if ReadOther(p, line, serverExe, viaNode) then w.machine.(file := None) else w.machine)
            && r.session.Some?
            && if ReadOurs(p, line, serverExe, viaNode) && MayAdopt(ss, pid, sup) then
                 && r.session == Some(ss.(adopting := None, sup := r.session.value.sup))
                 && r.session.value.sup.Some?
                 && var s := r.session.value.sup.value;
                 s.current == Running && s.child == Some(Handle(ss.sup.value.nextHandle, pid)) && Safety.Inv(s)
               else r.session == Some(ss.(adopting := None))
    ensures line.None? ==> !ReadOther(p, line, serverExe, viaNode) && !ReadOurs(p, line, serverExe, viaNode)
  {
    hide Safety.Inv, After, Commands.ServerCommandMatch, Adopt;
    if ss.sup.Some? {
      var s := ss.sup.value;
      EmptyAfter(w.machine, s);
      Restarts.AdoptRuns(s, pid);
      if MayAdopt(ss, pid, sup) {
        AdoptEffects(w.machine, s, pid);
        Safety.AdoptKeeps(s, pid);
      }
    }
  }

  /** Nothing an earlier session left is known to run: the record is missing, or of no live pid. */
  ghost predicate NothingLeft(m: Machine) {
    m.file.None? || m.file.value <= 0 || !IsAlive(m, m.file.value)
  }

  /** What a look at the record leaves of it. */
  ghost function Looked(m: Machine): Machine {
    if NothingLeft(m) then m.(file := None) else m
  }

  /** A launch with a folder configured looks up a recorded pid exactly when it is alive, and drops any other record. */
  lemma LaunchLooksUp(w: World, now: int, spawn: SpawnOracle)
    requires w.session.None?
    ensures var r := Next(w, LaunchApp(true), now, spawn);
            && r.machine == Looked(w.machine)
            && r.session == Some(Session(Some(INITIAL), [],
                 if NothingLeft(w.machine) then None else Some(Reading(w.machine.file.value, 0)), NotUpdating))
  {
  }

  /** Without a folder nothing is looked up, and the record stays; while the app runs no other is launched. */
  lemma LaunchWithoutFolder(w: World, configured: bool, now: int, spawn: SpawnOracle)
    ensures w.session.None? ==>
              Next(w, LaunchApp(false), now, spawn) == w.(session := Some(Session(None, [], None, NotUpdating)))
    ensures w.session.Some? ==> Next(w, LaunchApp(configured), now, spawn) == w
    ensures Next(w, Quit, now, spawn) == w.(session := None)
  {
  }

  /** A command line is read once for each lookup, and a lookup not read for is not resumed. */
  lemma ReadOnce(w: World, ss: Session, verdict: Verdict, now: int, spawn: SpawnOracle)
    requires w.session == Some(ss)
    ensures ss.adopting.None? || ss.adopting.value.Read? ==> Next(w, CommandLineRead(verdict), now, spawn) == w
    ensures ss.adopting.None? || ss.adopting.value.Reading? ==> Next(w, AdoptResumes, now, spawn) == w
  {
  }

  /**
   * Start: with nothing left over, no update and an idle supervisor it supervises the first process that a spawn attempt
   * gives, and records it; otherwise it starts nothing.
   */
  lemma StartReaches(w: World, ss: Session, now: int, spawn: SpawnOracle)
    requires w.session == Some(ss) && Sane(ss)
    ensures var r := Next(w, PressStart, now, spawn);
            && r.session.Some?
            && if ss.updating == NotUpdating && ss.sup.Some? && Idle(ss.sup.value) && NothingLeft(w.machine) then
                 && r.session.value.sup.Some? && Safety.Inv(r.session.value.sup.value)
                 && r.session == Some(ss.(sup := r.session.value.sup))
                 && var s := r.session.value.sup.value;
                 if StartSucceeds(ss.sup.value, spawn) then
                   && s.child.Some? && Restarts.FirstSpawned(s, spawn, ss.sup.value.nextHandle)
                   && r.machine == w.machine.(servers := w.machine.servers + {s.child.value.pid},
                                              file := Some(s.child.value.pid))
                 else s.child.None? && s.current == Crashed && r.machine == w.machine.(file := None)
               else r.session == w.session && r.machine.servers == w.machine.servers && r.machine.others == w.machine.others
  {
    hide Safety.Inv, After, Start, StartSucceeds;
    if ss.sup.Some? {
      var s, m := ss.sup.value, w.machine.(file := None);
      EmptyAfter(w.machine, s);
      EmptyAfter(m, s);
      if Idle(s) {
        StartEffects(w.machine, s, now, spawn);
        StartEffects(m, s, now, spawn);
        Started(s, now, spawn);
      } else {
        StartBusy(s, now, spawn);
      }
    }
  }

  lemma Started(s: State, now: int, spawn: SpawnOracle)
    requires Safety.Inv(s) && Idle(s)
    ensures var r := Start(s, now, spawn);
            && Safety.Inv(r) && (r.child.Some? <==> StartSucceeds(s, spawn))
            && (r.child.Some? ==> Restarts.FirstSpawned(r, spawn, s.nextHandle))
            && (r.child.None? ==> r.current == Crashed)
  {
    hide Safety.Summary, Safety.Sound, Launch;
    Restarts.StartTriesInOrder(s, now, spawn);
    Safety.StartKeeps(s, now, spawn);
    Safety.LaunchLeads(Note(s.(restarts := []), Explicit), now, spawn);
  }

  /** Stop and Restart reach the supervisor unless an update runs, Restart only with nothing left over. */
  lemma StopReaches(w: World, ss: Session, anyway: bool, now: int, spawn: SpawnOracle)
    requires w.session == Some(ss) && Sane(ss) && ss.sup.Some?
    ensures var r := Next(w, PressStop(anyway), now, spawn);
            r == w.(session := Some(ss.(sup := Some(if ss.updating == NotUpdating then Stop(ss.sup.value, anyway)
                                                     else ss.sup.value))))
    ensures var r := Next(w, PressRestart(anyway), now, spawn);
            && r.machine.servers == w.machine.servers
            && r.session == Some(ss.(sup := Some(
                 if ss.updating == NotUpdating && (!Idle(ss.sup.value) || NothingLeft(w.machine))
                 then Restart(ss.sup.value, anyway) else ss.sup.value)))
  {
    hide Safety.Inv, After, Stop;
    var s := ss.sup.value;
    StopQuiet(w.machine, s, anyway);
    StopQuiet(w.machine.(file := None), s, anyway);
    AfterLog(w.machine, s, Stop(s, anyway), Restart(s, anyway));
    AfterLog(w.machine.(file := None), s, Stop(s, anyway), Restart(s, anyway));
  }

  /**
   * Update: while starting or stopping, or with a server left over, it does nothing; with the server running it waits for the
   * promise of a stop it asks for; with nothing running SteamCMD runs.
   */
  lemma UpdateReaches(w: World, ss: Session, anyway: bool, now: int, spawn: SpawnOracle)
    requires w.session == Some(ss) && Sane(ss)
    ensures var r := Next(w, PressUpdate(anyway), now, spawn);
            var running := ss.sup.Some? && ss.sup.value.current == Running;
            && r.machine.servers == w.machine.servers && r.session.Some?
            && if ss.updating != NotUpdating then r == w
               else if running then
                 r.session == Some(ss.(sup := Some(Stop(ss.sup.value, anyway)), updating := AwaitingStop(StopPromise(ss.sup.value))))
               else if SupIdle(ss) && NothingLeft(w.machine) then r.session == Some(ss.(updating := SteamCmd))
               else r.session == w.session
  {
    hide Safety.Inv, After, Stop;
    if ss.sup.Some? { StopQuiet(w.machine, ss.sup.value, anyway); }
  }

  /** The update goes on when its stop settles: SteamCMD runs exactly when the outcome is `stopped`. */
  lemma UpdateGoesOnAfterStop(w: World, ss: Session, now: int, spawn: SpawnOracle)
    requires w.session == Some(ss) && ss.updating.AwaitingStop? && ss.sup.Some?
    ensures var k, s := ss.updating.stop, ss.sup.value;
            Next(w, UpdateStopSettles, now, spawn) ==
              if k !in s.settled then w
              else w.(session := Some(ss.(updating := if s.settled[k] == Gone then SteamCmd else NotUpdating)))
  {
  }

  /** The update is over when SteamCMD ends, however it ends. */
  lemma UpdateIsOver(w: World, ss: Session, now: int, spawn: SpawnOracle)
    requires w.session == Some(ss)
    ensures Next(w, UpdateEnds, now, spawn) ==
            if ss.updating == SteamCmd then w.(session := Some(ss.(updating := NotUpdating))) else w
  {
  }

  /** Without a supervisor there is nothing to stop or restart. */
  lemma NothingToStop(w: World, ss: Session, anyway: bool, now: int, spawn: SpawnOracle)
    requires w.session == Some(ss) && ss.sup.None?
    ensures Next(w, PressStop(anyway), now, spawn) == w && Next(w, PressRestart(anyway), now, spawn) == w
  {
  }

  /** A folder is changed exactly while nothing is at work, and the supervisor it replaces goes on by itself. */
  lemma FolderReaches(w: World, ss: Session, now: int, spawn: SpawnOracle)
    requires w.session == Some(ss)
    ensures Next(w, PickFolder, now, spawn) ==
            if ss.updating == NotUpdating && SupIdle(ss) then
              w.(session := Some(Session(Some(INITIAL), ss.replaced + (if ss.sup.Some? then [ss.sup.value] else []),
                                         ss.adopting, NotUpdating)))
            else w
  {
    assert ss.replaced + [] == ss.replaced;
  }
}
