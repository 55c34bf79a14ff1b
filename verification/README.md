# Satisfactory dashboard: a verified model of its stateful core

The dashboard has three programs whose correctness depends on state that changes across awaits and loops. This project
models that state in Dafny and proves what each part promises, over every run.

- **The server manager** starts, stops, restarts and adopts the game server, and must never run a second one
  (`Supervisor.dfy`, `SupervisorSafety.dfy`, `SupervisorRestarts.dfy`, `SupervisorStops.dfy`, `Sessions.dfy`,
  `SessionSafety.dfy`, `SessionHazards.dfy`, `SessionGates.dfy`, `App.dfy`, `LeftoverServer.dfy`, `Refresher.dfy`,
  `Updater.dfy`).
- **The agent** reads the game, queues and pushes snapshots, runs the backend's commands and sends world layers, all under
  one stop signal (`Pusher.dfy`, `CommandLedger.dfy`, `CommandRunner.dfy`, `CommandProgress.dfy`, `WorldReader.dfy`,
  `WorldProgress.dfy`, `AgentRunner.dfy`, `AgentLoops.dfy`).
- **The backend and the planner** meter requests, measure the time they spend upstream, store designated factories and
  rebuild the production graph from them (`TokenBucket.dfy`, `RequestTiming.dfy`, `DesignationStore.dfy`,
  `DesignationWrites.dfy`, `BuildingOverlap.dfy`, `Designations.dfy`).

`Wrappers.dfy`, `Ranges.dfy` and `Texts.dfy` hold what they share. `dafny verify dfyconfig.toml` checks everything; no proof
needs Dafny's automatic induction over lemmas (`--manual-lemma-induction`).

## How to read it

Asynchronous code is a state and one step per synchronous segment between awaits: where a loop or a continuation is
suspended is data, an answer from outside is part of the event, and a run is any list of events in any order. Histories
(logs, sets of answered snapshots, executed commands) are part of the state or ghost fields. Beside each such machine a
class has the source's own fields, and each of its methods is proved to do what the step says. What a machine must not do
is proved as an invariant of every run; what it must do, as what a run's events lead to.

The claims are the lemmas named in the table. Their hypotheses are those of the design, and no more:

- the clock is read once per step, and where a claim needs it, never goes back;
- a supervisor's listeners do not call back into it;
- in the sessions, spawning a server and recording its pid is one step; a command line may read as anything, and a handle
  may report an end at any time;
- a request the backend does not accept changes nothing there, and the hash of a layer is injective;
- for the command ledger, an id keeps one expiry and at most `maxEntries` ids are unexpired at a time;
- for the designation store, a new id is new, and a replace passed the request schema (an id is put once, puts share no
  building);
- for the demo's graph, node keys are unique, base factory keys are distinct and none is a designation's, and every node's
  `factoryKey` is a base key.

## Where the code does less than it says

Each of these has a lemma at an input or a run that shows it, and a lemma that says exactly when the promise is kept.

- *Never a second server.* Four hazards break it, and without them it holds (`SessionSafety.StepKeepsUnlessHazard`); each
  of them, from every state, can go on to two servers or to one under SteamCMD (`SessionHazards.HazardsAreReal`). The
  launch's lookup clears the pid file after an await, even when a server started meanwhile has written it
  (`LostRecordReached`, `LostRecordMeansTwo`); a restart still pending on a supervisor that a folder change replaced starts
  its server ungated (`ReplacedRestartMeansTwo`); a restart and an update that wait for the same stop both go on
  (`RestartBeatsUpdate`); and the handle of a server that still runs reports its end (`LetGoMeansTwo`). The last is what
  the kill of an adopted server does when its command line cannot be read: `stillServer` in
  server-manager/src/main.ts:117-121 answers false, not an error, so `watchPid` lets go, although its own comment at
  server-manager/src/leftoverServer.ts:134-135 says a failed check keeps watching. An error event after a kill that failed
  does the same (server-manager/src/supervisor.ts:117).
- *A server that might be ours is neither adopted nor forgotten.* Quoted, a path answers `ours` or `maybe` exactly by
  comparing and by its file name (`ServerCommands.QuotedExactly`). Unquoted, as `ps` prints it, a line that does not start
  with the configured path answers by its first word (`UnquotedExactly`), so the same program in another folder with a space
  in its path is answered `other` (`OtherFolder`) and its record removed: after a folder change there are two servers
  (`SessionSafety.FolderChangeMeansTwo`).
- *A 401 anywhere returns `auth_rejected`.* A loop that is already stopped ignores its 401, except the one that answers a
  command's result, so the outcome is decided by the 401s acted on (`AgentRuns.OutcomeIs401`, `StoppedBefore401`).
- *Every fresh refresh is answered by a later read.* Not one asked between a read's settling and its follow-up while another
  read has already begun (`Refreshing.StaleInTheGap`, `GapIsReachable`); with the two as one step there is no such refresh
  (`PromptLeavesNoGap`).
- *The rate bound with `admit` and `charge`.* It is passed by what is forgiven (`TokenBuckets.GrantsAreBounded`), which is
  nothing exactly when each charge of the window is covered (`NothingForgiven`); three admitted on one balance pass it
  (`ThreeAdmittedAtOnce`).
- *At most `maxKeys` keys.* With `maxKeys` below one every call that stores still leaves one (`TokenBuckets.OneKeyIsKept`),
  and otherwise the bound holds (`KeysAreBounded`).
- *Undo restores the parent.* Exactly but for an original stored without a `parentId` key that the change left under a
  parent (`DesignationUndo.UndoRestoresParent`, `ParentStays`).

One limit is of a function and not of the program: `runUpdate`, given a handle that reports its end before its last output,
passes the lines of the whole on exactly under the condition of `SteamUpdates.LateOutputExactly`. The handle it is given
reports the end only once the output has been read (server-manager/src/serverProcess.ts:47), where
`SteamUpdates.LinesOfTheWhole` applies.

## Model

| member | source | states |
|---|---|---|
| `ServerSupervisor.Supervisor.constructor` | server-manager/src/supervisor.ts:80-93 | a new supervisor is stopped, with no child, no pending stop, no restarts and no timer |
| `ServerSupervisor.Supervisor.Set` | server-manager/src/supervisor.ts:95-105 | the new state is recorded, and announced only when it differs |
| `ServerSupervisor.Supervisor.LaunchChild` | server-manager/src/supervisor.ts:107-134 | a spawn that succeeds leaves its handle supervised and starting; one that throws goes through the end of a process, and the mutual recursion ends within the restart budget |
| `ServerSupervisor.Supervisor.ChildEnded` | server-manager/src/supervisor.ts:145-163 | the end of the process settles a requested stop, or restarts within the budget, or crashes |
| `ServerSupervisor.Supervisor.StartServer` | server-manager/src/supervisor.ts:165-170 | Start acts only when stopped or crashed, and forgets earlier restarts |
| `ServerSupervisor.Supervisor.AdoptServer` | server-manager/src/supervisor.ts:136-143 | adopting acts only when stopped or crashed and for a safe positive pid, and is running at once |
| `ServerSupervisor.Supervisor.OnSpawned` | server-manager/src/supervisor.ts:130-132 | only the current child's spawn report, while starting and not stopping, means running |
| `ServerSupervisor.Supervisor.OnExitOrError` | server-manager/src/supervisor.ts:108-118 | an end counts once per handle, and only for the current child |
| `ServerSupervisor.Supervisor.SettleStop` | server-manager/src/supervisor.ts:172-180 | the pending stop settles with the outcome, its timer is cancelled, and no force request is left over |
| `ServerSupervisor.Supervisor.StartStopping` | server-manager/src/supervisor.ts:182-187 | the stop is requested, not forced, and the state is stopping |
| `ServerSupervisor.Supervisor.Force` | server-manager/src/supervisor.ts:190-198 | the stop is forced, its timer gone, and the child is killed for it |
| `ServerSupervisor.Supervisor.ShareStop` | server-manager/src/supervisor.ts:249-255 | a stop asked while one is pending shares its promise; "anyway" forces it, or is remembered while the token is read |
| `ServerSupervisor.Supervisor.NewStop` | server-manager/src/supervisor.ts:256-266 | with nothing supervised a stop resolves at once; asked anyway or while starting it ends the process; else it reads the token first |
| `ServerSupervisor.Supervisor.StopServer` | server-manager/src/supervisor.ts:248-266 | the promise returned is the pending one, or a new one never used before |
| `ServerSupervisor.Supervisor.OnAccess` | server-manager/src/supervisor.ts:203-219 | after the token: settle when nothing of ours is left, force when asked meanwhile, settle unavailable without the API, else begin stopping and save with the process captured |
| `ServerSupervisor.Supervisor.OnSave` | server-manager/src/supervisor.ts:220-230 | after saving: nothing when the stop is no longer ours; a failed save leaves the server running and the stop failed |
| `ServerSupervisor.Supervisor.OnShutdown` | server-manager/src/supervisor.ts:231-246 | after Shutdown, whether or not it threw: the 60 s timer is armed only while the stop is ours |
| `ServerSupervisor.Supervisor.OnTimer` | server-manager/src/supervisor.ts:239-245 | the timer kills its process only while that is still the child |
| `ServerSupervisor.Supervisor.RestartServer` | server-manager/src/supervisor.ts:272-276 | a restart is a stop whose promise it waits for |
| `ServerSupervisor.Supervisor.OnRestartReady` | server-manager/src/supervisor.ts:273-275 | a restart starts the server only when the stop it waited for ended the process |
| `SupervisorSafety.StepKeeps` | server-manager/src/supervisor.ts:107-266 | every event, in any state reached, keeps the ownership of the pending stop, the state flags and the history consistent |
| `SupervisorSafety.RunKeeps` | server-manager/src/supervisor.ts:107-266 | and so does every run, however stop calls, API answers, ends and the timer interleave |
| `SupervisorSafety.StopSettlesOnce` | server-manager/src/supervisor.ts:172-180 | each stop promise settles at most once |
| `SupervisorSafety.StoppedMeansGone` | server-manager/src/supervisor.ts:145-152 | a stop resolves "stopped" exactly when, at that moment, every process ever handed over has reported its end |
| `SupervisorSafety.KillIsJustified` | server-manager/src/supervisor.ts:190-246 | a process is killed only for a pending stop, and only one asked anyway, one whose opening ask found that same process starting, or one that had saved the game with that same process |
| `SupervisorSafety.NeverASecondChild` | server-manager/src/supervisor.ts:107-170 | nothing is spawned or adopted while an earlier handle has not reported its end |
| `SupervisorSafety.ActsOnlyAsOwner` | server-manager/src/supervisor.ts:224-238 | a suspended clean stop that finds its captured process still the child, and itself not forced, owns the pending stop |
| `SupervisorSafety.TimerBelongsToPendingStop` | server-manager/src/supervisor.ts:172-246 | no shutdown timer outlives its stop, and none is armed before that stop saved the game |
| `SupervisorSafety.PendingStopCanSettle` | server-manager/src/supervisor.ts:203-246 | no stop promise is stranded: its token is still being read, or the end of the child settles it |
| `SupervisorSafety.AccessMovesOn` | server-manager/src/supervisor.ts:203-219 | once the token is read the stop is settled, or the process is being stopped for it |
| `SupervisorRestarts.RestartsAreBounded` | server-manager/src/supervisor.ts:153-162 | between two explicit starts or adopts any half-open window of RESTART_WINDOW_MS holds at most MAX_RESTARTS automatic restarts, on a clock that never goes back |
| `SupervisorRestarts.AlwaysThrowingCrashes` | server-manager/src/supervisor.ts:120-162 | a spawn that always throws uses up what is left of the budget, plus one attempt, and ends crashed |
| `SupervisorRestarts.ExplicitStartOfThrowing` | server-manager/src/supervisor.ts:120-170 | from an explicit start that is MAX_RESTARTS + 1 attempts |
| `SupervisorRestarts.StartTriesInOrder` | server-manager/src/supervisor.ts:120-170 | an explicit start supervises a process exactly when one of its MAX_RESTARTS + 1 attempts does not throw, and then the first of them |
| `SupervisorRestarts.EndIsAnswered` | server-manager/src/supervisor.ts:153-163 | over every run an end nobody asked for restarts the server exactly when fewer than MAX_RESTARTS automatic restarts fell in the last window, counted from the run itself, and otherwise leaves it crashed |
| `SupervisorRestarts.AdoptRuns` | server-manager/src/supervisor.ts:136-143 | adopting an idle app's leftover is running at once with a fresh budget, and anything else changes nothing |
| `SupervisorRestarts.SpawnRuns` | server-manager/src/supervisor.ts:130-132 | a spawn report means running exactly for the current child while it is starting and nobody stops it |
| `SupervisorStops.AnywayIsHonoured` | server-manager/src/supervisor.ts:190-266 | over every run a stop asked anyway with a process supervised kills it in that step, or waits for the pending stop's token, whose answer kills the process then running unless that stop has settled |
| `SupervisorStops.StopAnywayKills` | server-manager/src/supervisor.ts:190-266 | asked anyway, a supervised process is killed in the stop's own step, and the stop settles at its end; only a stop still reading the token waits for the answer |
| `SupervisorStops.StartingIsKilled` | server-manager/src/supervisor.ts:256-266 | a stop that finds its process starting kills it in its own step |
| `SupervisorStops.TokenKills` | server-manager/src/supervisor.ts:203-219 | told meanwhile to end the process whatever the answer, the token's answer kills it |
| `SupervisorStops.CleanStopReads` | server-manager/src/supervisor.ts:256-266 | a clean stop of a running process first reads the token and changes nothing else |
| `SupervisorStops.TokenMovesOn` | server-manager/src/supervisor.ts:203-223 | granted, it begins stopping and saves; refused, it settles unavailable and the process goes on |
| `SupervisorStops.TokenTooLate` | server-manager/src/supervisor.ts:203-211 | without a running process the token's answer settles it: stopped when nothing is left, failed when another was started |
| `SupervisorStops.SaveMovesOn` | server-manager/src/supervisor.ts:220-233 | saved, it asks for Shutdown; not saved, it settles failed and the process goes on |
| `SupervisorStops.ShutdownArms` | server-manager/src/supervisor.ts:231-246 | whatever Shutdown answered, a stop still its own arms the timer for that process |
| `SupervisorStops.TimerKills` | server-manager/src/supervisor.ts:239-245 | the timer, when it fires, kills the process it was armed for |
| `SupervisorStops.LateAnswersDoNothing` | server-manager/src/supervisor.ts:224-238 | a continuation whose stop was forced or whose process is gone only ends |
| `SupervisorStops.StopSettlesAtTheEnd` | server-manager/src/supervisor.ts:145-152 | the end of a process asked to stop settles its stop "stopped" and restarts nothing |
| `SupervisorStops.StopOfNothing` | server-manager/src/supervisor.ts:256-258 | with nothing supervised a stop settles "stopped" at once |
| `SupervisorStops.CleanStopEndsIt` | server-manager/src/supervisor.ts:203-266 | the whole way of a clean stop from any running state: saved, shut down, killed if it outlives the timer, settled "stopped" at its end |
| `SessionSafety.StepKeepsUnlessHazard` | server-manager/src/main.ts:117-324 | from a state where every live server is the recorded one and the app knows of it, no replaced supervisor runs one and none runs under SteamCMD, a step keeps all of this exactly when it is none of the four hazards, each a condition on the state before the step and the coming spawn attempts |
| `SessionSafety.NeverASecondServer` | server-manager/src/main.ts:117-324 | over any sequence of sessions without a hazard, whatever command lines read as and whenever ends are reported, at most one server is alive, it is the recorded one, and none while SteamCMD runs |
| `SessionSafety.FeedKeeps` | server-manager/src/main.ts:144-177 | an event of the current supervisor keeps the live server recorded exactly when it is neither the end of a server that still runs nor a restart that starts one under an update |
| `SessionSafety.ReplacedKeeps` | server-manager/src/main.ts:478-500 | an event of a supervisor replaced by a folder change is harmless exactly when it is not its restart starting a server |
| `SessionSafety.PressStartKeeps` | server-manager/src/main.ts:321-324 | Start is gated by the leftover check, so it never runs beside a live server |
| `SessionSafety.PressRestartKeeps` | server-manager/src/main.ts:233-242 | neither does Restart |
| `SessionSafety.PressUpdateKeeps` | server-manager/src/main.ts:249-277 | an update begins only with nothing left running, or waits for the stop |
| `SessionSafety.ResumeAdoptKeeps` | server-manager/src/main.ts:190-202 | adopting is harmless exactly when the record it clears is not of a live server |
| `SessionSafety.LaunchAppKeeps` | server-manager/src/leftoverServer.ts:24-35 | a launch drops only the record of a pid that is not alive |
| `SessionSafety.PickFolderKeeps` | server-manager/src/main.ts:478-500 | a folder changes only while nothing runs |
| `SessionSafety.LostRecordMeansTwo` | server-manager/src/leftoverServer.ts:108-116 | from any state where the pending lookup would clear a live server's record: clear, quit, launch and start give two servers |
| `SessionSafety.LostRecordReached` | server-manager/src/leftoverServer.ts:98-116 | that state is reached from power-on with every oracle truthful |
| `SessionSafety.ReplacedRestartMeansTwo` | server-manager/src/main.ts:233-242 | a restart pending on a replaced supervisor starts a second server: a run that ends with two |
| `SessionSafety.RestartBeatsUpdate` | server-manager/src/main.ts:249-277 | a restart and an update that share one stop: a run that ends with SteamCMD under a live server |
| `SessionSafety.LetGoMeansTwo` | server-manager/src/leftoverServer.ts:168-177 | Stop anyway on an adopted server whose command line is unreadable lets go of it while it runs: a run from power-on that ends with two servers |
| `SessionSafety.FolderChangeMeansTwo` | server-manager/src/main.ts:190-202 | a folder change while the launch still checks a leftover server at an unquoted path with a space, and one launch later: a run from power-on that ends with two servers, each command line read being the server's own |
| `SessionHazards.HazardsAreReal` | server-manager/src/main.ts:117-324 | from any state of that invariant, a step that is no hazard leads to neither two servers nor one under SteamCMD, and a hazard step that can happen can go on to one of them with every end reported truthfully |
| `SessionHazards.FirstHazardBreaks` | server-manager/src/main.ts:117-324 | over any sequence of sessions from power-on, the first hazard can go on so |
| `SessionGates.LookupDecides` | server-manager/src/main.ts:190-202 | the launch's lookup removes the record exactly when the command line was read and is another program's, adopts exactly when it is the server's and the app that looked is idle, without an update and still the current one, and an unread line changes neither |
| `SessionGates.LaunchLooksUp` | server-manager/src/leftoverServer.ts:24-36 | a launch looks up a recorded pid exactly when it is alive, and drops any other record |
| `SessionGates.LaunchWithoutFolder` | server-manager/src/main.ts:190-192 | without a folder nothing is looked up and the record stays |
| `SessionGates.ReadOnce` | server-manager/src/leftoverServer.ts:98-117 | a lookup's command line is read once, and the lookup goes on only after it |
| `SessionGates.StartReaches` | server-manager/src/main.ts:321-324 | Start with nothing left over, no update and an idle supervisor supervises and records the first process a spawn attempt gives, and otherwise starts nothing |
| `SessionGates.StopReaches` | server-manager/src/main.ts:233-242 | Stop and Restart reach the supervisor unless an update runs, Restart only with nothing left over |
| `SessionGates.NothingToStop` | server-manager/src/main.ts:233-235 | without a supervisor there is nothing to stop or restart |
| `SessionGates.UpdateReaches` | server-manager/src/main.ts:248-261 | an update does nothing while starting, stopping or with a server left over, waits for its own stop of a running server, and runs SteamCMD with nothing running |
| `SessionGates.UpdateGoesOnAfterStop` | server-manager/src/main.ts:260-273 | SteamCMD then runs exactly when that stop ended "stopped" |
| `SessionGates.UpdateIsOver` | server-manager/src/main.ts:266-277 | the update is over when SteamCMD ends |
| `SessionGates.FolderReaches` | server-manager/src/main.ts:478-500 | a folder is changed exactly while nothing is at work, and the replaced supervisor goes on by itself |
| `ServerApp.App.StartServer` | server-manager/src/main.ts:321-324 | Start reaches the supervisor only when no update runs and nothing is left over |
| `ServerApp.App.UpdateServer` | server-manager/src/main.ts:249-261 | an update is gated as Start is, and waits for a clean stop of a running server |
| `ServerApp.App.OnCommandLine` | server-manager/src/leftoverServer.ts:108-113 | the command line read, or not, is judged as serverCommandMatch judges it, for the pid that was looked up |
| `ServerApp.App.AdoptLeftover` | server-manager/src/main.ts:190-202 | ours is adopted only by the supervisor it was looked up for, while idle; a record judged another's is removed |
| `ServerApp.App.OnReplacedEvent` | server-manager/src/main.ts:493 | a replaced supervisor's events still reach it, the machine and the pid file |
| `Sessions.PidFile.Record` | server-manager/src/leftoverServer.ts:13-17 | the last spawned pid is the recorded one; a spawn without a pid records nothing |
| `Sessions.PidFile.LeftoverOf` | server-manager/src/leftoverServer.ts:24-35 | the recorded pid while it is alive; a stale record is removed |
| `Sessions.PidFile.Judge` | server-manager/src/leftoverServer.ts:98-117 | ours is adopted, an unreadable or doubtful one kept but not adopted, any other removes the record, whatever it says by then |
| `ServerCommands.FirstKnown` | server-manager/src/leftoverServer.ts:55-61 | the known path the line starts with, whole, and with none of those before it; none exactly when it starts with none |
| `ServerCommands.QuotedToken` | server-manager/src/leftoverServer.ts:49-54 | a quoted first token is read up to its closing quote, and the rest is what follows |
| `ServerCommands.QuotedExactly` | server-manager/src/leftoverServer.ts:49-90 | a quoted path, its quote closed or not, is the server exactly when it compares equal to the configured one, and doubtful exactly when only its file name is the same, whatever its arguments |
| `ServerCommands.UnquotedExactly` | server-manager/src/leftoverServer.ts:49-90 | an unquoted line is the server's exactly when it starts, whole, with a path of the configured one's length that compares equal to it, or its first word does |
| `ServerCommands.EveryLine` | server-manager/src/leftoverServer.ts:49-64 | these are all the lines that are not blank |
| `ServerCommands.SameServerUnquoted` | server-manager/src/leftoverServer.ts:44-90 | the configured server at a path that compares equal is recognised unquoted when that path is as long as the configured one or has no space, and exactly when what the line starts with compares equal |
| `ServerCommands.NothingToMatch` | server-manager/src/leftoverServer.ts:80 | a blank line, or no configured server, matches nothing |
| `ServerCommands.ViaNodeExactly` | server-manager/src/leftoverServer.ts:81-92 | under the end-to-end switch a line that runs the app's own Electron is judged by its second token, and any other by its first |
| `ServerCommands.OtherFolder` | server-manager/src/leftoverServer.ts:68-90 | one server program in another folder, with a space in its path: doubtful read quoted, another program read unquoted |
| `PidWatches.EndIsToldOnce` | server-manager/src/leftoverServer.ts:147-155 | over any run each callback registered before the end is called once, in order, and one registered later never |
| `PidWatches.FoundGoneIsTold` | server-manager/src/leftoverServer.ts:150-158 | the end is found only by a poll of a dead pid or an answer that it is not ours, and is told at that moment to all registered |
| `PidWatches.KilledOnlyWhenOurs` | server-manager/src/leftoverServer.ts:168-176 | with a check nothing is killed but on an answer that it is still ours, and a failed check changes nothing |
| `PidWatches.WatchesExactly` | server-manager/src/leftoverServer.ts:137-185 | over every run the handle has ended, awaits checks and has killed exactly as its polls, kills and answers say |
| `PidWatches.PidWatch.FoundGone` | server-manager/src/leftoverServer.ts:150-155 | the first time only: polling stops and every registered callback is called |
| `PidWatches.PidWatch.Tick` | server-manager/src/leftoverServer.ts:156-158 | a poll ends the watch only when the pid is gone |
| `PidWatches.PidWatch.AskKill` | server-manager/src/leftoverServer.ts:170-173 | nothing after the end; without a check at once; else a check is asked |
| `PidWatches.PidWatch.OnChecked` | server-manager/src/leftoverServer.ts:173-176 | still ours kills, not ours ends the watch, a failed check does neither |
| `BoundedQueues.Newest` | agent/src/queue.ts:14-20 | the queue kept is the last `max` items, all of them when there are no more |
| `BoundedQueues.BoundedQueue.Push` | agent/src/queue.ts:14-20 | pushing keeps the newest and says how many old ones went, 0 or 1 |
| `BoundedQueues.BoundedQueue.Peek` | agent/src/queue.ts:23-25 | the oldest item, nothing exactly when empty |
| `BoundedQueues.BoundedQueue.Shift` | agent/src/queue.ts:28-30 | removes exactly the oldest item |
| `SnapshotPusher.QueueIsSuffix` | agent/src/queue.ts:14-20 | over every interleaving the queue is the contiguous newest part of everything enqueued |
| `SnapshotPusher.ExactlyOneFate` | agent/src/pusher.ts:55-113 | each snapshot is exactly one of acknowledged, refused, dropped for room, or queued |
| `SnapshotPusher.AcksInOrder` | agent/src/pusher.ts:80-89 | acknowledgements come strictly in enqueue order, those of heads dropped in flight included |
| `SnapshotPusher.NoMissedWakeUp` | agent/src/pusher.ts:67-78 | the loop parks only with nothing queued and no stop, and an enqueue or a stop wakes it |
| `SnapshotPusher.AnswerRemovesItsHead` | agent/src/pusher.ts:81-108 | an answer removes its own head, if that is still queued, and nothing else |
| `SnapshotPusher.DropsOnlyTheOldest` | agent/src/pusher.ts:54-61 | a snapshot enqueued is queued last, and only a full queue loses one, its oldest |
| `SnapshotPusher.KeepsPosting` | agent/src/pusher.ts:64-119 | with something queued and no stop the oldest snapshot is posted next: at the loop's turn, after the wait it is in, or after the wait that follows an answer that failed in passing |
| `SnapshotPusher.ParksWhenEmpty` | agent/src/pusher.ts:64-82 | with nothing queued the loop's next turn parks it |
| `SnapshotPusher.EveryTurnComes` | agent/src/pusher.ts:64-119 | once as many answers have settled a snapshot as there are from the one in flight up to a queued one, that one is acknowledged, refused or dropped |
| `SnapshotPusher.FatesAreAnswers` | agent/src/pusher.ts:82-119 | what is acknowledged or refused is what was answered so while queued, and refusals and failures in a row are counted |
| `SnapshotPusher.CountsAreEvents` | agent/src/pusher.ts:55-119 | the posts begun and the snapshots lost in a row of failures are counted |
| `SnapshotPusher.Pusher.Add` | agent/src/pusher.ts:55-62 | an enqueue on the shared queue drops the oldest for room and wakes a parked loop |
| `SnapshotPusher.Pusher.RunTurn` | agent/src/pusher.ts:67-80 | a turn returns when stopped, parks when empty, else posts the head |
| `SnapshotPusher.Pusher.AfterPost` | agent/src/pusher.ts:81-112 | each answer's effect on the queue, the failure streak and the loop |
| `SnapshotPusher.Pusher.OnStop` | agent/src/pusher.ts:70-77 | a stop wakes a parked loop |
| `CommandLedgers.LiveInOrder` | agent/src/ledger.ts:54-59 | a purge drops an entry exactly when it is expired, and leaves the others in their order, each once |
| `CommandLedgers.FinishAnswers` | agent/src/ledger.ts:35-52 | once an outcome is stored, a delivery of its id is answered by it for as long as the entry lives, and no other id is answered otherwise than before |
| `CommandLedgers.CommandLedger.Purge` | agent/src/ledger.ts:54-59 | the loop over the map keeps the live entries |
| `CommandLedgers.CommandLedger.BeginCommand` | agent/src/ledger.ts:35-46 | the verdict of a known live id is its own; a new one is remembered, oldest evicted past the maximum |
| `CommandLedgers.CommandLedger.FinishCommand` | agent/src/ledger.ts:49-52 | the outcome is stored on the remembered entry |
| `CommandBooks.ExecutedAtMostOnce` | agent/src/commandRunner.ts:121-141 | no id is executed twice over any run, on a monotone clock, one expiry per id and room for the unexpired ids |
| `CommandBooks.SameResultEveryTime` | agent/src/commandRunner.ts:132-140 | every report of an id carries the one result its execution had |
| `CommandBooks.NothingExpiredRuns` | agent/src/commandRunner.ts:122-128 | what runs has not expired and does not claim a longer life than allowed |
| `CommandBooks.RedeliveryRunsNothing` | agent/src/ledger.ts:35-39 | a delivery of an id executed and unexpired runs nothing |
| `CommandBooks.NoRoomRunsTwice` | agent/src/ledger.ts:41-45 | the room is needed: one unexpired id too many evicts one that, delivered again, runs again |
| `CommandLoop.EachCommandRunsOnce` | agent/src/commandRunner.ts:70-141 | the same for every run of the poll loop: any two executions are of distinct ids, each before its expiry and within the longest lifetime |
| `CommandLoop.PostsTheFirstResult` | agent/src/commandRunner.ts:130-184 | what is posted at any attempt, of any delivery, is the first result, at most RESULT_ATTEMPTS times |
| `CommandLoop.DuplicateIsAnswered` | agent/src/commandRunner.ts:129-141 | a command run before and not expired is not run nor passed over: its first result is posted again |
| `CommandLoop.RunKeeps` | agent/src/commandRunner.ts:70-184 | only the command at hand is running, at most MAX_COMMANDS_PER_POLL wait, and what the ledger answers is what was decided |
| `CommandProgress.EveryOfferedIsTaken` | agent/src/commandRunner.ts:70-85 | over every run the commands taken are those offered, the first MAX_COMMANDS_PER_POLL of each answer, in order; all but the rest of the current batch while the loop runs, and a first part of them once it was stopped |
| `CommandProgress.NewCommandRuns` | agent/src/commandRunner.ts:121-139 | a command that may run and was never executed is executed now |
| `CommandProgress.OthersAreSkipped` | agent/src/commandRunner.ts:121-128 | an expired command, or one that claims too long a life, changes nothing, and the next is taken |
| `CommandProgress.OutcomeIsPosted` | agent/src/commandRunner.ts:135-164 | the outcome of the execution awaited, the game's own or unsupported, is recorded and posted |
| `CommandProgress.PostIsRetried` | agent/src/commandRunner.ts:166-188 | a post that failed in passing is tried again while attempts are left and the command lives; any other answer goes on to the next command |
| `CommandProgress.PollsAgain` | agent/src/commandRunner.ts:70-104 | a loop that is not stopped is never stuck: after POLL_RANK awaited segments a poll has begun, and all offered before it was taken |
| `CommandProgress.FailedPollIsRetried` | agent/src/commandRunner.ts:86-98 | a failed poll is followed by another after its wait, unless it was a 401 or the loop was stopped |
| `CommandProgress.HintEndsTheWait` | agent/src/commandRunner.ts:65-68 | a hint ends the wait between two polls at once |
| `CommandProgress.PollsAreSpaced` | agent/src/commandRunner.ts:100-103 | two polls begin at least MIN_POLL_SPACING_MS apart, on a clock that never goes back, unless a hint or a failed poll came between |
| `CommandProgress.SpacingIsExact` | agent/src/commandRunner.ts:100-103 | and the wait is no longer than that, also on a clock set back |
| `CommandProgress.FailuresAreCounted` | agent/src/commandRunner.ts:72-98 | the failures counted are the polls that failed since the last one answered |
| `CommandLoop.CommandRunner.RunTurn` | agent/src/commandRunner.ts:73-76 | a turn returns when stopped, else polls |
| `CommandLoop.CommandRunner.AfterPoll` | agent/src/commandRunner.ts:77-83 | at most MAX_COMMANDS_PER_POLL commands of an answer are taken |
| `CommandLoop.CommandRunner.AfterPollError` | agent/src/commandRunner.ts:86-99 | a stopped loop returns, a 401 stops, anything else backs off |
| `CommandLoop.CommandRunner.HandleCommand` | agent/src/commandRunner.ts:121-141 | dead commands are skipped, running ones left, finished ones reported, new ones executed |
| `CommandLoop.CommandRunner.RunNext` | agent/src/commandRunner.ts:83-103 | the next command of the batch, or the spacing of the next poll |
| `CommandLoop.CommandRunner.AskLedger` | agent/src/commandRunner.ts:129-131 | the verdict is the ledger's, and the ledger remembers a new id |
| `CommandLoop.CommandRunner.AfterExecute` | agent/src/commandRunner.ts:135-141 | the outcome is recorded before it is reported; an unknown command is unsupported |
| `CommandLoop.CommandRunner.TryPost` | agent/src/commandRunner.ts:166-171 | a result is posted only while attempts are left and the run is not stopped |
| `CommandLoop.CommandRunner.AfterReport` | agent/src/commandRunner.ts:171-181 | a 401 stops, a transient failure retries only before the expiry, the rest ends the report |
| `CommandLoop.CommandRunner.Poke` | agent/src/commandRunner.ts:66-68 | a pending hint ends only the spacing between polls |
| `WorldLayers.ConveyorsDelay` | agent/src/worldReader.ts:62-66 | the jittered conveyors delay is within a tenth of the interval, whatever the random source |
| `WorldLayers.DelaySpreads` | agent/src/worldReader.ts:62-66 | and spreads evenly over that range, a source outside [0, 1] counting as its nearer end |
| `WorldLayers.RememberedIsHeld` | agent/src/worldReader.ts:185-229 | a set `sentHash` or `skipSent` names the body the backend last accepted, over every run |
| `WorldLayers.SilentCycleIsCurrent` | agent/src/worldReader.ts:202-229 | a cycle that sent nothing for a skip or an under-cap read leaves the backend holding just that read |
| `WorldLayers.ReadsKeepTheGap` | agent/src/worldReader.ts:146-183 | consecutive conveyor reads start at least CONVEYORS_NUDGE_MIN_GAP_MS apart |
| `WorldLayers.NoNudgeIsLost` | agent/src/worldReader.ts:117-183 | a change seen since the last read began is kept until the next one begins, which it waits for at most to the end of the gap, unless the last read failed |
| `WorldProgress.ChangesAreNoted` | agent/src/worldReader.ts:117-155 | the loop notes exactly the changes its events show: a set observed that differs from the one before, and no read begun since |
| `WorldProgress.SameSetChangesNothing` | agent/src/worldReader.ts:117-124 | a first set, or one equal to the last, moves nothing but what is remembered of it |
| `WorldProgress.ChangedSetIsNoted` | agent/src/worldReader.ts:117-124 | a changed set is noted and wakes the regular sleep, and moves nothing else |
| `WorldProgress.ChangeCutsTheSleep` | agent/src/worldReader.ts:165-183 | a change not yet read for ends the sleep of a loop whose last read worked; it reads at once, or at the end of the gap since that read began |
| `WorldProgress.SleepsEndWhenDue` | agent/src/worldReader.ts:156-183 | a sleep ends exactly when its time is up, a change not yet read for cuts it short, or at a stop |
| `WorldProgress.ReadWithinFiveMoves` | agent/src/worldReader.ts:146-183 | every layer that is not stopped is read again: once what its loop waits for has come five times, retried posts aside, a read has begun |
| `WorldProgress.ChangedSetIsRead` | agent/src/worldReader.ts:117-183 | a set observed to differ from the last is read for within those five, a change counting as what the regular sleep waits for |
| `WorldProgress.ChangeIsAnsweredByARead` | agent/src/worldReader.ts:117-155 | a change noted by one step and no longer by a later one was answered by a read that began in between |
| `WorldProgress.ChangedItemsAreSent` | agent/src/worldReader.ts:185-229 | what is read is posted exactly when it fits the cap and is not what the backend holds; a failed read posts nothing |
| `WorldProgress.NewSkipIsSent` | agent/src/worldReader.ts:200-213 | a skip is posted unless it was accepted in this streak of skips |
| `WorldProgress.PostIsSettled` | agent/src/worldReader.ts:232-268 | what is accepted is what the backend holds, what failed in passing is posted again, and a refusal ends the cycle |
| `WorldLayers.LayerLoop.RunTurn` | agent/src/worldReader.ts:149-155 | a turn returns when stopped, else begins a read, which answers earlier nudges |
| `WorldLayers.LayerLoop.EndCycle` | agent/src/worldReader.ts:156-160 | after a cycle: stop, sleep the schedule, or the nudgeable sleep when the read worked |
| `WorldLayers.LayerLoop.SleepConveyors` | agent/src/worldReader.ts:166-183 | already nudged, only the rest of the gap is slept |
| `WorldLayers.LayerLoop.AfterRead` | agent/src/worldReader.ts:187-229 | what each read leads to: nothing sent, a skip posted once per streak, or the data when changed and under the cap |
| `WorldLayers.LayerLoop.AfterPost` | agent/src/worldReader.ts:237-263 | only an accepted body is remembered; a 401 stops, a refusal ends the cycle, the rest backs off |
| `WorldLayers.LayerLoop.AfterSleep` | agent/src/worldReader.ts:166-183 | a sleep ends by time, stop or nudge, and a nudge waits out the gap |
| `WorldLayers.LayerLoop.ObserveFactoryBuildings` | agent/src/worldReader.ts:117-124 | the first set is a baseline, an unchanged one nothing, a changed one nudges and wakes |
| `AgentRuns.NoRequestAfter401` | agent/src/agentRunner.ts:61-116 | after the first 401 in any loop, and after any stop, no loop begins another backend request |
| `AgentRuns.OutcomeIs401` | agent/src/agentRunner.ts:61-66 | `runAgent` returns auth_rejected exactly when some loop acted on a 401 |
| `AgentRuns.First401Decides` | agent/src/agentRunner.ts:61-116 | a first 401 that finds the run not stopped makes the outcome auth_rejected, whatever follows |
| `AgentRuns.StoppedBefore401` | agent/src/commandRunner.ts:86-92 | a 401 heard only after a stop from outside is not reported: a run that returns "stopped" |
| `AgentRuns.StoppedRunWindsDown` | agent/src/agentRunner.ts:86-116 | once stopped, every segment a loop was waiting for brings the run closer to returning |
| `AgentRuns.StoppedRunIsNotStuck` | agent/src/agentRunner.ts:109-116 | a stopped run that has not returned is waiting for some loop's segment |
| `AgentRuns.AgentRun.StopLoops` | agent/src/agentRunner.ts:57-66 | the stop signal reaches every loop, and moves nothing else |
| `AgentRuns.AgentRun.RejectAuth` | agent/src/agentRunner.ts:63-66 | a 401 acted on stops every loop and decides the outcome |
| `AgentRuns.AgentRun.OnSample` | agent/src/agentRunner.ts:86-106 | a snapshot is queued, and its building set reaches only the conveyors loop |
| `AgentRuns.AgentRun.OnPushAnswer` | agent/src/agentRunner.ts:71-82 | an answer to a post does what the push loop says, and a pending command or a 401 reaches the other loops |
| `AgentRuns.AgentRun.CommandNext` | agent/src/agentRunner.ts:70 | a segment of the command loop, whose 401 stops the others |
| `AgentRuns.AgentRun.LayerNext` | agent/src/worldReader.ts:146-266 | a segment of one layer's loop, whose 401 stops the others |
| `AgentRuns.AgentRun.OnStopFromOutside` | agent/src/agentRunner.ts:58-60 | a stop from outside stops every loop and leaves the outcome |
| `AgentRuns.StepGood` | agent/src/agentRunner.ts:53-116 | every segment of every loop keeps the loops' stop signals equal, and changes the outcome only for a 401 acted on |
| `AgentLoops.PushIsItsOwn` | agent/src/agentRunner.ts:53-116 | inside the agent, whatever the interleaving, the push loop is where its own run takes it through what it was told, so all that holds of it alone holds of it there |
| `AgentLoops.CommandsAreTheirOwn` | agent/src/agentRunner.ts:53-116 | and so is the command loop, told of each hint in the answer to an accepted snapshot |
| `AgentLoops.LayerIsItsOwn` | agent/src/agentRunner.ts:84-116 | and each layer's loop, the conveyors' told of the building set of every snapshot that has one |
| `AgentLoops.SamplesAgain` | agent/src/agentRunner.ts:86-107 | the sampling loop samples again after each sample and each failed one, until the stop |
| `AgentLoops.AbortedStartsNothing` | agent/src/agentRunner.ts:59 | a run whose signal was aborted before it began asks for nothing and returns "stopped", whatever happens |
| `TokenBuckets.TakeWaitIsExact` | backend/src/platform/tokenBucket.ts:47-55 | after v whole seconds of no other spending a refused `take` succeeds exactly when v is at least the wait returned and the cost fits the capacity |
| `TokenBuckets.EachCallSpends` | backend/src/platform/tokenBucket.ts:47-69 | a `take` is answered 0 exactly when the balance covers it and then takes just that, an `admit` exactly when the balance is positive and takes nothing, and a refusal takes nothing |
| `TokenBuckets.LimiterSpends` | backend/src/platform/tokenBucket.ts:47-95 | and each call of the limiter does just that to its key's stored bucket |
| `TokenBuckets.ClockBackRefillsNothing` | backend/src/platform/tokenBucket.ts:75-83 | a clock set back refills nothing and does not move what is stored back in time |
| `TokenBuckets.LeastRecentFirst` | backend/src/platform/tokenBucket.ts:85-95 | the map lists its keys by when they last spent |
| `TokenBuckets.ForcedOutIsLeastRecent` | backend/src/platform/tokenBucket.ts:85-93 | the key forced out spent longer ago than any other that is not full |
| `TokenBuckets.AdmitWaitIsEnough` | backend/src/platform/tokenBucket.ts:58-61 | after the wait returned a refused `admit` succeeds, and before it the balance is below EPSILON |
| `TokenBuckets.BoundedAnswersAlike` | backend/src/platform/tokenBucket.ts:75-95 | the bounded map answers every call as an unbounded one for each key never dropped below capacity |
| `TokenBuckets.ForcedOutForgives` | backend/src/platform/tokenBucket.ts:85-92 | a key dropped below capacity is felt at once: a `take` of the capacity, refused before, succeeds |
| `TokenBuckets.KeysAreBounded` | backend/src/platform/tokenBucket.ts:85-95 | at most `maxKeys` keys are kept, or one when `maxKeys` is below one, whatever the clock does |
| `TokenBuckets.OneKeyIsKept` | backend/src/platform/tokenBucket.ts:85-95 | with `maxKeys` below one, every call that stores leaves exactly its own key in the map |
| `TokenBuckets.FullIsAbsent` | backend/src/platform/tokenBucket.ts:85-90 | a full bucket is the same as no entry from then on |
| `TokenBuckets.Grows` | backend/src/platform/tokenBucket.ts:75-83 | a balance grows at the refill rate until it is full |
| `TokenBuckets.BalancesInRange` | backend/src/platform/tokenBucket.ts:47-69 | every stored balance stays in [-capacity, capacity], whatever the clock does |
| `TokenBuckets.SpendingIsConserved` | backend/src/platform/tokenBucket.ts:47-83 | over any window the balance at the end, plus what was granted, less what was forgiven, is at most the balance at the start plus the refill |
| `TokenBuckets.TakesWithinTheRate` | backend/src/platform/tokenBucket.ts:47-55 | where only `take` spends, any window grants at most the capacity plus the refill |
| `TokenBuckets.GrantsAreBounded` | backend/src/platform/tokenBucket.ts:47-69 | with charges, at most two capacities plus the refill plus what was forgiven |
| `TokenBuckets.NothingForgiven` | backend/src/platform/tokenBucket.ts:64-68 | nothing is forgiven in a window exactly when each of its charges is covered by the balance it finds and one capacity of debt |
| `TokenBuckets.LimiterWithinTheRate` | backend/src/platform/tokenBucket.ts:47-95 | the bounds for the bounded limiter's own grants: in any window a key it never forces out gets at most two capacities plus the refill plus what is forgiven, and one capacity plus the refill where only `take` spends, whatever the other keys do |
| `TokenBuckets.AdmittedChargesAreBounded` | backend/src/platform/tokenBucket.ts:58-69 | with one admitted charge at a time, of at most a capacity, the bound grows by one capacity only |
| `TokenBuckets.AdmitLasts` | backend/src/platform/tokenBucket.ts:58-61 | an admitted key stays admitted until it spends |
| `TokenBuckets.ThreeAdmittedAtOnce` | backend/src/platform/tokenBucket.ts:64-69 | three charges on one balance go past that bound |
| `TokenBuckets.TokenBucketLimiter.DropFull` | backend/src/platform/tokenBucket.ts:87-90 | the pass over the map deletes exactly the full buckets |
| `TokenBuckets.TokenBucketLimiter.Set` | backend/src/platform/tokenBucket.ts:85-95 | room is made only for a new key at the maximum, and the key becomes the most recent |
| `TokenBuckets.TokenBucketLimiter.Take` | backend/src/platform/tokenBucket.ts:47-55 | a take deducts the cost and answers 0, or stores nothing and answers the wait |
| `TokenBuckets.TokenBucketLimiter.Admit` | backend/src/platform/tokenBucket.ts:58-61 | an admit stores nothing |
| `TokenBuckets.TokenBucketLimiter.Charge` | backend/src/platform/tokenBucket.ts:64-68 | a charge deducts down to at most -capacity |
| `RequestTimings.UnionMs` | backend/src/platform/requestTiming.ts:61-79 | the number of ticks in [from, to) covered by at least one interval, for any list, order and overlap |
| `RequestTimings.ClippedCover` | backend/src/platform/requestTiming.ts:62-65 | clipping, dropping empties and sorting cover just the ticks to measure |
| `RequestTimings.CoverSplits` | backend/src/platform/requestTiming.ts:81-92 | each upstream's union is within the whole, which is within their sum and the request's time |
| `RequestTimings.Summarize` | backend/src/platform/requestTiming.ts:81-92 | upstream + app = total, and max(vanilla, frm) <= upstream <= vanilla + frm |
| `RequestTimings.RecordUpstreamCall` | backend/src/platform/requestTiming.ts:53-58 | every call is counted, the first MAX_STORED_CALLS are stored, none outside a request |
| `RequestTimings.StoredCallsUnderReport` | backend/src/platform/requestTiming.ts:46-58 | calls past the maximum are missing from the union and never add to it |
| `DesignationStore.ShareIsSymmetric` | frontend/src/planner/buildingOverlap.ts:8-30 | sharing a building is symmetric |
| `BuildingOverlaps.LookupsDecide` | frontend/src/planner/buildingOverlap.ts:13-16 | one lookup by id and one by class and position decide what the overlap rule asks of every member added |
| `BuildingOverlaps.Buildings.Has` | frontend/src/planner/buildingOverlap.ts:13-16 | so a member is had exactly when it is the same building as one added |
| `BuildingOverlaps.Buildings.Add` | frontend/src/planner/buildingOverlap.ts:17-21 | the three sets keep up with what was added |
| `BuildingOverlaps.SharedBuilding` | frontend/src/planner/buildingOverlap.ts:24-29 | the first member that is a building of the others, none exactly when they share none |
| `DesignationStore.OverlapWith` | frontend/src/demo/designationStore.ts:32-37 | the overlap names the first designation that holds one of the buildings; there is none exactly when none does |
| `DesignationStore.OldestFirst` | frontend/src/demo/designationStore.ts:28-29 | the same designations, by creation time |
| `DesignationStore.OldestFirstIsStable` | frontend/src/demo/designationStore.ts:28-29 | designations created at the same time keep the order given |
| `DesignationWrites.CreateExactly` | frontend/src/demo/designationStore.ts:87-95 | a create is accepted exactly when its buildings are free and the list is under the cap; then its id names a designation as asked for and every other id what it named before, else the refusal names the first overlap, or the cap |
| `DesignationWrites.UpdateExactly` | frontend/src/demo/designationStore.ts:98-121 | an update is accepted exactly when its designation is there and the buildings asked for are free of the others, and which refusal it gives |
| `DesignationWrites.RemoveExactly` | frontend/src/demo/designationStore.ts:124-127 | a removal is accepted exactly when its designation is there, and leaves the others in their order |
| `DesignationWrites.ReplaceRefusals` | frontend/src/demo/designationStore.ts:53-65 | which refusal a replace gives: the first check that fails, in the source's order |
| `DesignationWrites.PutIsWritten` | frontend/src/demo/designationStore.ts:66-76 | an expected put updates in place, keeping age and, when none is given, parent, one revision on; any other is new with what it gives of id, age and parent |
| `DesignationStore.UpdateChangesOne` | frontend/src/demo/designationStore.ts:98-121 | after an update its own designation is found with the name and members asked for or kept, its age and parent kept and revision + 1, and every other as it was |
| `DesignationStore.RemoveChangesOne` | frontend/src/demo/designationStore.ts:124-127 | a removal removes its own designation and no other |
| `DesignationStore.ReplaceWritesPuts` | frontend/src/demo/designationStore.ts:67-83 | each put is found under its id with its name and members, and what was not expected is untouched |
| `DesignationStore.ReplaceAccepted` | frontend/src/demo/designationStore.ts:47-83 | a replace is accepted exactly when all its checks pass |
| `DesignationStore.ReplaceKeeps` | frontend/src/demo/designationStore.ts:58-83 | an accepted replace keeps ids unique, designations apart, the cap and the order |
| `DesignationStore.CreateKeeps` | frontend/src/demo/designationStore.ts:88-95 | so does a create |
| `DesignationStore.UpdateKeeps` | frontend/src/demo/designationStore.ts:98-121 | so does an update |
| `DesignationStore.StepKeeps` | frontend/src/demo/designationStore.ts:47-127 | so does every write, refused or not |
| `DesignationStore.RunKeeps` | frontend/src/demo/designationStore.ts:47-127 | so does every run of writes |
| `DesignationStore.RemovedAreGone` | frontend/src/demo/designationStore.ts:77-82 | the removed ids of the response are exactly the expected ones no longer there |
| `DesignationStore.RevisionsGrow` | frontend/src/demo/designationStore.ts:67-75 | a designation still there after a write has at least the revision it had |
| `DesignationStore.SecondReplaceIsStale` | frontend/src/demo/designationStore.ts:53-54 | two replaces of the same id and revision cannot both succeed: the second is stale while it was there all along, and once it is gone |
| `DesignationStore.PutBackMatchesAgain` | frontend/src/demo/designationStore.ts:53-76 | removed and put back, the old expectation matches again |
| `DesignationUndo.UndoPutsBack` | frontend/src/planner/designationOps.ts:388-401 | the undo sends every original whole, and its puts share no building |
| `DesignationUndo.UndoSplitsOverlaps` | frontend/src/planner/designationOps.ts:388-397 | for any pre-image, overlapping or not, the undo's puts share no building, the older keeps one that is shared, none is left out, and a put is without members only when its original had none |
| `DesignationUndo.UndoAccepted` | frontend/src/demo/designationStore.ts:53-65 | the undo of an accepted replace is accepted |
| `DesignationUndo.UndoRestores` | frontend/src/planner/designationOps.ts:379-401 | a replace followed by its inverse restores every id, name, member list and creation time, and adds nothing |
| `DesignationUndo.UndoRestoresParent` | frontend/src/planner/designationOps.ts:379-401 | in the list after the undo every designation has its parent of before, exactly but for an original with no `parentId` key that the change left under a parent |
| `DesignationUndo.ParentStays` | frontend/src/demo/designationStore.ts:67-75 | such a run: a top-level designation put under another, undone, and still under it |
| `DemoDesignations.Holders` | frontend/src/demo/designations.ts:76-77 | a building is held by the first designation that lists it |
| `DemoDesignations.Winner` | frontend/src/demo/designations.ts:84-89 | the most votes win, the earliest voted for among equals |
| `DemoDesignations.Tally` | frontend/src/demo/designations.ts:84-88 | one entry per key in order of first vote, with its total |
| `DemoDesignations.VotesAreHeld` | frontend/src/demo/designations.ts:84-89 | the votes counted for a designation are the machines of the group it holds, and come first when its machines do |
| `DemoDesignations.WinnerHoldsMost` | frontend/src/demo/designations.ts:84-89 | so the winner holds most of the group's machines, with the earliest first machine among equals |
| `DemoDesignations.MajorityOwners` | frontend/src/demo/designations.ts:81-93 | each group's owner is the designation that holds most of its machines, counted in the group itself; else the factory the graph names, else the first that lists it |
| `DemoDesignations.OneMajorityOwner` | frontend/src/demo/designations.ts:81-93 | that owner is the only one |
| `DemoDesignations.BuildLinks` | frontend/src/demo/designations.ts:100-105 | the links of a key are its neighbours both ways, in link order |
| `DemoDesignations.ReachKeeps` | frontend/src/demo/designations.ts:115-122 | reaching a neighbour keeps the queue in distance order and every found path valid |
| `DemoDesignations.FoundIsNearest` | frontend/src/demo/designations.ts:115-122 | no walk to a key is shorter than the path found, and no reachable key is missed |
| `DemoDesignations.Spread` | frontend/src/demo/designations.ts:113-122 | the breadth-first loop gives each key the owner of a source at minimum distance inside the factory, and nothing to a key no walk leads to |
| `DemoDesignations.Reassign` | frontend/src/demo/designations.ts:123-124 | exactly the unplaced groups of the factory are given the owner reached, or the majority owner |
| `DemoDesignations.VotesAreGroups` | frontend/src/demo/designations.ts:110-112 | the votes counted where placed groups went are the groups that went there, as often as each counts |
| `DemoDesignations.WinnerGotMost` | frontend/src/demo/designations.ts:110-112 | so the owner an unreachable group falls back to is the one that got most of the factory's placed groups |
| `DemoDesignations.FollowPlaced` | frontend/src/demo/designations.ts:106-125 | one factory's turn: its unplaced groups follow the nearest placed group when all of those have gone, and nothing else changes |
| `DemoDesignations.Owners` | frontend/src/demo/designations.ts:81-125 | the same for all factories, each judged by the majority owners |
| `DemoDesignations.FactoriesPartition` | frontend/src/demo/designations.ts:156-212 | the rebuilt factories partition the owned groups |
| `DemoDesignations.DesignatedFirst` | frontend/src/demo/designations.ts:200-212 | designated factories come first, in the list's order, then the automatic ones in the graph's |
| `DemoDesignations.NodesInOrder` | frontend/src/demo/designations.ts:126 | a factory lists its groups in the graph's order |
| `DemoDesignations.OwnerKnown` | frontend/src/demo/designations.ts:81-125 | every owner is a designation's key or a base factory's |
| `DemoDesignations.WithDemoDesignations` | frontend/src/demo/designations.ts:73-212 | each group's owner is the majority holder of its machines, but an unplaced group of a factory whose placed groups all went follows the nearest of them; the factories partition the owned groups, designated first, each in the graph's order |
| `Refreshing.OneReadAtATime` | server-manager/src/refresher.ts:10-16 | at most one read runs at a time |
| `Refreshing.FreshMeansLater` | server-manager/src/refresher.ts:18-28 | a fresh refresh not asked in the gap is answered by a read that began at or after it |
| `Refreshing.EveryRefreshIsAnswered` | server-manager/src/refresher.ts:18-28 | a refresh not yet answered has a follow-up queued, whose running answers it |
| `Refreshing.OneFollowUp` | server-manager/src/refresher.ts:21-27 | all fresh refreshes asked during one read share one later read |
| `Refreshing.StaleInTheGap` | server-manager/src/refresher.ts:21-27 | in the gap the answer is stale exactly when the read then running is the one the follow-up finds |
| `Refreshing.GapIsReachable` | server-manager/src/refresher.ts:18-28 | a run in which that happens |
| `Refreshing.PromptLeavesNoGap` | server-manager/src/refresher.ts:21-27 | with the settling and the follow-up as one step there is no gap |
| `Refreshing.Refresher.Request` | server-manager/src/refresher.ts:18-28 | a refresh starts a read, joins the running one, or shares the follow-up |
| `Refreshing.Refresher.OnSettled` | server-manager/src/refresher.ts:11-13 | a settled read is cleared only when it is the current one |
| `Refreshing.Refresher.OnFollowUp` | server-manager/src/refresher.ts:23-26 | the follow-up answers all who wait with the running read or a new one |
| `SteamUpdates.SplitRejoins` | server-manager/src/updater.ts:43 | the pieces, rejoined by line breaks, are the text, and a CR LF is one break |
| `SteamUpdates.SplitJoin` | server-manager/src/updater.ts:42-46 | splitting text cut anywhere: the last piece goes on, but for a CR LF cut in two |
| `SteamUpdates.CutLosesNothing` | server-manager/src/updater.ts:42-46 | a cut anywhere loses and adds no non-blank line |
| `SteamUpdates.LinesOfTheWhole` | server-manager/src/updater.ts:42-53 | for every way of cutting the output the lines passed on are the non-blank lines of the whole, in order, each once |
| `SteamUpdates.OneResult` | server-manager/src/updater.ts:47-53 | only the first end counts |
| `SteamUpdates.LateOutputExactly` | server-manager/src/updater.ts:26-53 | with a child handle that reports its end before its last output, the lines are still those of the whole exactly when the end fell on a line boundary, or beside nothing but white space, and the last late piece is blank |
| `SteamUpdates.SteamUpdate.OnOutput` | server-manager/src/updater.ts:42-46 | a chunk passes on its whole non-blank lines and keeps the last piece |
| `SteamUpdates.SteamUpdate.End` | server-manager/src/updater.ts:47-53 | the end passes on the last piece once, and the result is ok exactly for code 0 |
| `SteamUpdates.SteamUpdate.OnError` | server-manager/src/updater.ts:57-68 | an error is passed on as a line, and the result is not ok |

## Left out

- The app's handlers (`App.dfy`) hold a supervisor as its state, a value, since a replaced supervisor goes on by itself; the
  supervisor object and its update in place are the class `ServerSupervisor.Supervisor`.
- SessionSafety.NeverASecondServer: a run with a hazard step is outside it; the four hazards are real (`SessionHazards.HazardsAreReal`).
- SteamCMD surviving a quit of the app is not modelled: an update ends with the session.
- Disk errors on the pid file, its text format, and a pid file changed by another program.
- Error texts, log lines and their rate limits, the listeners' callbacks, `lastError`, `anyway` and the window.
- Path comparison per platform (`comparable`, `basename`) is a parameter of `ServerCommands`; its one concrete value,
  `POSIX`, is for paths that have nothing to normalise.
- A spawn that gives a handle with no pid and then an error event: a spawn of the model throws or gives a pid
  (`Sessions.PidFile.Record` has the missing pid, which records nothing).
- The sampler and the cadence, the lengths of back-offs and `Retry-After`: a back-off ends whenever its event comes.
- WorldProgress.ReadWithinFiveMoves: it counts what the loop waits for and has come; that a post failing for ever ends is not
  claimed. A failing read keeps its regular schedule, as the source has it.
- The streak flags `overCap`, `skipped` and `refused`, which only decide what is logged.
- Floating point: tokens are reals, times integers; `NaN` from a random source is not modelled.
- The order of calls with equal start times in `unionMs`'s sort, which its sum does not depend on.
- Timing headers and rounding (`serverTimingValue`, `timingLogFields`), and Express.
- Request schemas of the designations: their two rules on puts are hypotheses; sizes, names and coordinates are not modelled.
- The hierarchy rules of the real backend (cycle, depth, shape), which the demo store does not check.
- The demo's matches, shares, products and machine counts of a rebuilt factory, and the module variable `stored` with its
  getter, setter and reset: they read or hold what is modelled.
- `mode`, which is always "core".
- Promise machinery below the step, except in `Refresher.dfy`, where one microtask matters.
- `backoff.ts`, `failureStreak.ts`, `mutex.ts`, `userRateLimiter.ts`, `shutdown.ts`, HTTP clients, Electron, React: they
  would add only easy members, or are calls into code outside this model.
