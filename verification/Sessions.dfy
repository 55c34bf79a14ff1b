/**
 * Never a second server: the supervisor inside the app, and the app across its sessions (start, quit, relaunch, adopt,
 * stop, crash, update, folder change), with the pid file that carries the server from one session to the next.
 * Spawning a server and recording its pid are one step. A command line may read as anything, a handle may report an end
 * whether or not its process is gone, and pids may be reused by other programs.
 */
module Sessions {
  import opened Wrappers
  import opened ServerSupervisor
  import Commands = ServerCommands

  datatype Verdict = Ours | Maybe | Unreadable | Other

  /** `adoptLeftover`, suspended on the command line of `pid`; `sup` counts the supervisors made before. */
  datatype Adopting =
    | Reading(pid: int, sup: nat)
    | Read(pid: int, sup: nat, verdict: Verdict)

  datatype Updating = NotUpdating | AwaitingStop(stop: nat) | SteamCmd

  /** One run of the app: its supervisor, the ones a folder change replaced, and its suspended handlers. */
  datatype Session = Session(sup: Option<State>, replaced: seq<State>, adopting: Option<Adopting>, updating: Updating)

  /** The running game servers, the other live pids, and the pid file. */
  datatype Machine = Machine(servers: set<int>, others: set<int>, file: Option<int>)

  datatype World = World(machine: Machine, session: Option<Session>)

  datatype Action =
    | LaunchApp(configured: bool)
    | Quit
    | StatusPushed
    | PressStart
    | PressStop(anyway: bool)
    | PressRestart(anyway: bool)
    | PressUpdate(anyway: bool)
    | UpdateStopSettles
    | UpdateEnds
    | PickFolder
    | CommandLineRead(verdict: Verdict)
    | AdoptResumes
    | ToSupervisor(event: Event)
    | ToReplaced(index: nat, event: Event)
    | ServerDies(pid: int)
    | OtherStarts(pid: int)
    | OtherDies(pid: int)

  /** The clock reading and the spawn results come with the step. */
  datatype Stamp = Stamp(action: Action, now: int, spawn: SpawnOracle)

  // ----- what a supervisor's step does to the machine (main.ts, makeSupervisor) -----

  function Effect(m: Machine, e: Entry): Machine {
    match e
    case Spawned(p) => m.(servers := m.servers + {p.pid}, file := Some(p.pid))
    case Changed(to) => if to == Stopped || to == Crashed then m.(file := None) else m
    case _ => m
  }

  function Effects(m: Machine, entries: seq<Entry>): Machine {
    if entries == [] then m else Effect(Effects(m, entries[..|entries| - 1]), entries[|entries| - 1])
  }

  /** The machine once the supervisor has gone from `s` to `r`. */
  function After(m: Machine, s: State, r: State): Machine {
    if |s.log| <= |r.log| then Effects(m, r.log[|s.log|..]) else m
  }

  // ----- leftoverServer.ts -----

  function IsAlive(m: Machine, pid: int): bool {
    pid in m.servers || pid in m.others
  }

  /** `leftoverPid`: the recorded pid while that process is alive; a stale file is removed. */
  function LeftoverPid(m: Machine): (Option<int>, Machine) {
    match m.file
    case None => (None, m)
    case Some(pid) => if 0 < pid && IsAlive(m, pid) then (Some(pid), m) else (None, m.(file := None))
  }

  /** What `findLeftover` makes of the command line it read, or could not read. */
  function VerdictOn(p: Commands.Platform, line: Option<string>, serverExe: string, viaNode: Option<string>): Verdict {
    if line.None? then Unreadable
    else
      match Commands.ServerCommandMatch(p, line.value, serverExe, viaNode)
      case Ours => Ours
      case Maybe => Maybe
      case Other => Other
  }

  datatype Found = NoLeftover | OurLeftover(pid: int) | Unverified(pid: int)

  /** The pid file beside the app's settings, as its text reads. */
  class PidFile {
    var recorded: Option<int>

    constructor ()
      ensures recorded == None
    {
      recorded := None;
    }

    /** `recordPid`: a spawn that gave no pid records nothing. */
    method Record(pid: Option<int>)
      modifies this
      ensures recorded == if pid.Some? then pid else old(recorded)
    {
      if pid.Some? { recorded := pid; }
    }

    method Clear()
      modifies this
      ensures recorded == None
    {
      recorded := None;
    }

    /** `leftoverPid` */
    method LeftoverOf(isAlive: int -> bool, ghost m: Machine) returns (pid: Option<int>)
      requires m.file == recorded && forall p :: isAlive(p) <==> IsAlive(m, p)
      modifies this
      ensures (pid, m.(file := recorded)) == LeftoverPid(m)
    {
      pid := recorded;
      if pid.Some? && !(0 < pid.value && isAlive(pid.value)) {
        pid := None;
        Clear();
      }
    }

    /** `findLeftover` once the command line of `pid` was read, whatever the file says by then. */
    method Judge(pid: int, verdict: Verdict) returns (found: Found)
      modifies this
      ensures recorded == if verdict == Other then None else old(recorded)
      ensures found == match verdict case Ours => OurLeftover(pid) case Other => NoLeftover case _ => Unverified(pid)
    {
      match verdict {
        case Ours => found := OurLeftover(pid);
        case Other =>
          Clear();
          found := NoLeftover;
        case _ => found := Unverified(pid);
      }
    }
  }

  // ----- main.ts -----

  function SupIdle(ss: Session): bool {
    ss.sup.None? || Idle(ss.sup.value)
  }

  /** `leftover()` */
  function Leftover(w: World, ss: Session): (Option<int>, World) {
    if !SupIdle(ss) then (None, w)
    else
      var (pid, m) := LeftoverPid(w.machine);
      (pid, w.(machine := m))
  }

  /** Feeds the current supervisor one event. */
  function Feed(w: World, ss: Session, e: Event, now: int, spawn: SpawnOracle): World {
    match ss.sup
    case None => w
    case Some(s) =>
      var r := Step(s, e, now, spawn);
      World(After(w.machine, s, r), Some(ss.(sup := Some(r))))
  }

  function Next(w: World, a: Action, now: int, spawn: SpawnOracle): World {
    match a
    case ServerDies(pid) => w.(machine := w.machine.(servers := w.machine.servers - {pid}))
    case OtherStarts(pid) => w.(machine := w.machine.(others := w.machine.others + {pid}))
    case OtherDies(pid) => w.(machine := w.machine.(others := w.machine.others - {pid}))
    case LaunchApp(configured) =>
      if w.session.Some? then w
      else if !configured then w.(session := Some(Session(None, [], None, NotUpdating)))
      else
        var (pid, m) := LeftoverPid(w.machine);
        World(m, Some(Session(Some(INITIAL), [], if pid.Some? then Some(Reading(pid.value, 0)) else None, NotUpdating)))
    case _ =>
      if w.session.None? then w else InSession(w, w.session.value, a, now, spawn)
  }

  function InSession(w: World, ss: Session, a: Action, now: int, spawn: SpawnOracle): World {
    match a
    case Quit => w.(session := None)
    case StatusPushed => Leftover(w, ss).1
    case PressStart =>
      if ss.updating != NotUpdating then w
      else
        var (pid, w1) := Leftover(w, ss);
        if pid.None? then Feed(w1, ss, StartCalled, now, spawn) else w1
    case PressStop(anyway) =>
      if ss.updating != NotUpdating then w else Feed(w, ss, StopCalled(anyway), now, spawn)
    case PressRestart(anyway) =>
      if ss.sup.None? || ss.updating != NotUpdating then w
      else
        var (pid, w1) := Leftover(w, ss);
        if pid.Some? then w1 else Feed(w1, ss, RestartCalled(anyway), now, spawn)
    case PressUpdate(anyway) => Update(w, ss, anyway, now, spawn)
    case UpdateStopSettles =>
      if ss.updating.AwaitingStop? && ss.sup.Some? && ss.updating.stop in ss.sup.value.settled then
        var next := if ss.sup.value.settled[ss.updating.stop] == Gone then SteamCmd else NotUpdating;
        w.(session := Some(ss.(updating := next)))
      else w
    case UpdateEnds =>
      if ss.updating == SteamCmd then w.(session := Some(ss.(updating := NotUpdating))) else w
    case PickFolder =>
      if ss.updating != NotUpdating || !SupIdle(ss) then w
      else
        var replaced := if ss.sup.Some? then ss.replaced + [ss.sup.value] else ss.replaced;
        w.(session := Some(ss.(sup := Some(INITIAL), replaced := replaced)))
    case CommandLineRead(verdict) =>
      if ss.adopting.Some? && ss.adopting.value.Reading? then
        w.(session := Some(ss.(adopting := Some(Read(ss.adopting.value.pid, ss.adopting.value.sup, verdict)))))
      else w
    case AdoptResumes => ResumeAdopt(w, ss, now, spawn)
    case ToSupervisor(e) => Feed(w, ss, e, now, spawn)
    case ToReplaced(i, e) =>
      if i < |ss.replaced| then
        var r := Step(ss.replaced[i], e, now, spawn);
        World(After(w.machine, ss.replaced[i], r), Some(ss.(replaced := ss.replaced[i := r])))
      else w
    case _ => w
  }

  /** `update`, up to its first await. */
  function Update(w: World, ss: Session, anyway: bool, now: int, spawn: SpawnOracle): World {
    var state := if ss.sup.Some? then ss.sup.value.current else Stopped;
    if ss.updating != NotUpdating || state == Starting || state == Stopping then w
    else
      var (pid, w1) := Leftover(w, ss);
      if pid.Some? then w1
      else if ss.sup.Some? && state == Running then
        var ss1 := ss.(updating := AwaitingStop(StopPromise(ss.sup.value)));
        Feed(w1.(session := Some(ss1)), ss1, StopCalled(anyway), now, spawn)
      else w1.(session := Some(ss.(updating := SteamCmd)))
  }

  /** The rest of `findLeftover` and `adoptLeftover` once the command line was read. */
  function ResumeAdopt(w: World, ss: Session, now: int, spawn: SpawnOracle): World {
    if ss.adopting.None? || ss.adopting.value.Reading? then w
    else
      var a := ss.adopting.value;
      var ss1 := ss.(adopting := None);
      match a.verdict
      case Ours =>
        if a.sup == |ss.replaced| && ss.updating == NotUpdating && SupIdle(ss) then
          Feed(w.(session := Some(ss1)), ss1, AdoptCalled(a.pid), now, spawn)
        else w.(session := Some(ss1))
      case Other => World(w.machine.(file := None), Some(ss1))
      case _ => w.(session := Some(ss1))
  }

  // ----- what can happen next -----

  /** The events the app's runtime feeds a supervisor by itself; the calls come only through the handlers above. */
  predicate FromRuntime(e: Event) {
    !e.StartCalled? && !e.AdoptCalled? && !e.StopCalled? && !e.RestartCalled?
  }

  ghost predicate Possible(w: World, a: Action, spawn: SpawnOracle) {
    && (forall n :: spawn(n).Some? ==> 0 < spawn(n).value && !IsAlive(w.machine, spawn(n).value))
    && match a
       case OtherStarts(pid) => !IsAlive(w.machine, pid)
       case ToSupervisor(e) => FromRuntime(e)
       case ToReplaced(_, e) => FromRuntime(e)
       case _ => true
  }
}
