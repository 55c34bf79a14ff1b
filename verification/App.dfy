/**
 * The app's handlers (server-manager/src/main.ts) on the variables they share: the current supervisor, the suspended
 * adoption and update, the pid file, and the processes of the machine. A supervisor is its state here; the class
 * `ServerSupervisor.Supervisor` is the object that has it.
 */
module ServerApp {
  import opened Wrappers
  import opened ServerSupervisor
  import opened Sessions
  import Commands = ServerCommands

  class App {
    const pids: PidFile
    var servers: set<int>
    var others: set<int>
    var sup: Option<State>
    var replaced: seq<State> // no longer held by the app, but their events and promises still come
    var adopting: Option<Adopting>
    var updating: Updating

    ghost function Processes(): Machine
      reads this, pids
    {
      Machine(servers, others, pids.recorded)
    }

    ghost function Vars(): Session
      reads this
    {
      Session(sup, replaced, adopting, updating)
    }

    ghost function View(): World
      reads this, pids
    {
      World(Processes(), Some(Vars()))
    }

    ghost predicate Sees(isAlive: int -> bool)
      reads this, pids
    {
      forall p :: isAlive(p) <==> IsAlive(Processes(), p)
    }

    /** Launch: with a folder configured there is a supervisor, and a recorded pid that is alive is looked up. */
    constructor (pids: PidFile, configured: bool, servers: set<int>, others: set<int>, isAlive: int -> bool)
      requires forall p :: isAlive(p) <==> p in servers || p in others
      modifies pids
      ensures this.pids == pids
      ensures View() == Next(World(Machine(servers, others, old(pids.recorded)), None), LaunchApp(configured), 0, _ => None)
    {
      this.pids := pids;
      this.servers, this.others, replaced, updating := servers, others, [], NotUpdating;
      sup, adopting := if configured then Some(INITIAL) else None, None;
      new;
      if configured {
        var pid := pids.LeftoverOf(isAlive, Machine(servers, others, pids.recorded));
        if pid.Some? { adopting := Some(Reading(pid.value, 0)); }
      }
    }

    /** `leftover()` */
    method CheckLeftover(isAlive: int -> bool) returns (pid: Option<int>)
      requires Sees(isAlive)
      modifies pids
      ensures (pid, View()) == Leftover(old(View()), old(Vars()))
    {
      if sup.Some? && !Idle(sup.value) { return None; }
      pid := pids.LeftoverOf(isAlive, Processes());
    }

    /** An event of the current supervisor, with what its callbacks do to the pid file and the machine. */
    method Tell(e: Event, now: int, spawn: SpawnOracle)
      modifies this`sup, this`servers, this`others, pids
      ensures View() == Feed(old(View()), old(Vars()), e, now, spawn)
    {
      if sup.None? { return; }
      var next := Step(sup.value, e, now, spawn);
      Carry(sup.value, next);
      sup := Some(next);
    }

    method Carry(s: State, next: State)
      modifies this`servers, this`others, pids
      ensures Processes() == After(old(Processes()), s, next)
    {
      var m := After(Machine(servers, others, pids.recorded), s, next);
      servers, others, pids.recorded := m.servers, m.others, m.file;
    }

    method StartServer(now: int, spawn: SpawnOracle, isAlive: int -> bool)
      requires Sees(isAlive)
      modifies this, pids
      ensures View() == InSession(old(View()), old(Vars()), PressStart, now, spawn)
    {
      hide Feed;
      if updating != NotUpdating { return; }
      var pid := CheckLeftover(isAlive);
      if pid.None? { Tell(StartCalled, now, spawn); }
    }

    method StopServer(anyway: bool, now: int, spawn: SpawnOracle)
      modifies this, pids
      ensures View() == InSession(old(View()), old(Vars()), PressStop(anyway), now, spawn)
    {
      hide Feed;
      if updating == NotUpdating { Tell(StopCalled(anyway), now, spawn); }
    }

    method RestartServer(anyway: bool, now: int, spawn: SpawnOracle, isAlive: int -> bool)
      requires Sees(isAlive)
      modifies this, pids
      ensures View() == InSession(old(View()), old(Vars()), PressRestart(anyway), now, spawn)
    {
      hide Feed;
      if sup.None? || updating != NotUpdating { return; }
      var pid := CheckLeftover(isAlive);
      if pid.None? { Tell(RestartCalled(anyway), now, spawn); }
    }

    /** `update`, up to its first await. */
    method UpdateServer(anyway: bool, now: int, spawn: SpawnOracle, isAlive: int -> bool)
      requires Sees(isAlive)
      modifies this, pids
      ensures View() == InSession(old(View()), old(Vars()), PressUpdate(anyway), now, spawn)
    {
      hide Feed;
      var state := if sup.Some? then sup.value.current else Stopped;
      if updating != NotUpdating || state == Starting || state == Stopping { return; }
      var pid := CheckLeftover(isAlive);
      if pid.Some? { return; }
      if sup.Some? && state == Running {
        updating := AwaitingStop(StopPromise(sup.value));
        Tell(StopCalled(anyway), now, spawn);
      } else {
        updating := SteamCmd;
      }
    }

    /** `update` goes on once its stop has settled. */
    method OnUpdateStop(now: int, spawn: SpawnOracle)
      modifies this
      ensures View() == InSession(old(View()), old(Vars()), UpdateStopSettles, now, spawn)
    {
      if updating.AwaitingStop? && sup.Some? && updating.stop in sup.value.settled {
        updating := if sup.value.settled[updating.stop] == Gone then SteamCmd else NotUpdating;
      }
    }

    method OnUpdateEnd(now: int, spawn: SpawnOracle)
      modifies this
      ensures View() == InSession(old(View()), old(Vars()), UpdateEnds, now, spawn)
    {
      if updating == SteamCmd { updating := NotUpdating; }
    }

    method ChooseServerDir(now: int, spawn: SpawnOracle)
      modifies this
      ensures View() == InSession(old(View()), old(Vars()), PickFolder, now, spawn)
    {
      if updating != NotUpdating || (sup.Some? && !Idle(sup.value)) { return; }
      if sup.Some? { replaced := replaced + [sup.value]; }
      sup := Some(INITIAL);
    }

    /** The command line of the pid looked up was read, or could not be. */
    method OnCommandLine(p: Commands.Platform, line: Option<string>, serverExe: string, viaNode: Option<string>,
                         now: int, spawn: SpawnOracle)
      modifies this
      ensures var verdict := VerdictOn(p, line, serverExe, viaNode);
              View() == InSession(old(View()), old(Vars()), CommandLineRead(verdict), now, spawn)
    {
      hide VerdictOn;
      var verdict := VerdictOn(p, line, serverExe, viaNode);
      if adopting.Some? && adopting.value.Reading? {
        adopting := Some(Read(adopting.value.pid, adopting.value.sup, verdict));
      }
    }

    /** The rest of `adoptLeftover`: the record is judged, and ours is adopted if its supervisor is still the current one. */
    method AdoptLeftover(now: int, spawn: SpawnOracle)
      modifies this, pids
      ensures View() == InSession(old(View()), old(Vars()), AdoptResumes, now, spawn)
    {
      hide Feed;
      if adopting.None? || adopting.value.Reading? { return; }
      var a := adopting.value;
      adopting := None;
      var found := pids.Judge(a.pid, a.verdict);
      if found.OurLeftover? && a.sup == |replaced| && updating == NotUpdating && (sup.None? || Idle(sup.value)) {
        Tell(AdoptCalled(found.pid), now, spawn);
      }
    }

    method OnSupervisorEvent(e: Event, now: int, spawn: SpawnOracle)
      modifies this, pids
      ensures View() == InSession(old(View()), old(Vars()), ToSupervisor(e), now, spawn)
    {
      Tell(e, now, spawn);
    }

    method OnReplacedEvent(i: nat, e: Event, now: int, spawn: SpawnOracle)
      modifies this, pids
      ensures View() == InSession(old(View()), old(Vars()), ToReplaced(i, e), now, spawn)
    {
      hide Step;
      if i >= |replaced| { return; }
      var next := Step(replaced[i], e, now, spawn);
      Carry(replaced[i], next);
      replaced := replaced[i := next];
    }
  }
}
