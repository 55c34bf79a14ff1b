/**
 * The command loop (agent/src/commandRunner.ts): long-poll, run each command at most once, report its result. The loop is
 * where it is suspended (`at`); one event is one synchronous segment. `trace` is what the loop asked of its ledger, so what
 * CommandBooks proves of every run of the ledger holds of every run of the loop.
 */
module CommandLoop {
  import opened Wrappers
  import opened CommandLedgers
  import opened CommandBooks

  const MIN_POLL_SPACING_MS: int := 1_000
  const MAX_COMMANDS_PER_POLL: nat := 20
  const RESULT_ATTEMPTS: nat := 5

  /** `expiresAtMs` is None when it does not parse; `known` when the type and the params do. */
  datatype Command = Command(id: string, expiresAtMs: Option<int>, known: bool)

  /** A result on its way to the backend. */
  datatype Job = Job(id: string, expiresAtMs: int, result: CommandResult, attempt: nat)

  /** What is left of one poll's answer, and when that poll began. */
  datatype Batch = Batch(rest: seq<Command>, startedAt: int)

  datatype At =
    | Ready
    | Polling(startedAt: int)
    | Handling(batch: Batch)
    | Executing(command: Command, expiresAtMs: int, batch: Batch)
    | Posting(job: Job, batch: Batch)
    | ReportBackoff(job: Job, batch: Batch)
    | PollBackoff
    | Spacing(until: int)
    | Returned

  datatype Answer = Accepted | AuthRejected | Refused | Transient | NotFromClient

  datatype State = State(
    max: nat,
    at: At,
    aborted: bool,
    failures: nat,
    book: Book,
    trace: seq<CommandBooks.Event>,
    requests: nat,
    authRejected: bool)

  function Initial(max: nat): State {
    State(max, Ready, false, 0, EMPTY, [], 0, false)
  }

  function Told(s: State, e: CommandBooks.Event): State {
    s.(book := CommandBooks.Step(s.book, s.max, e), trace := s.trace + [e])
  }

  function Turn(s: State, now: int): State {
    if s.at != Ready then s
    else if s.aborted then s.(at := Returned)
    else s.(at := Polling(now), requests := s.requests + 1)
  }

  function PollAnswered(s: State, commands: seq<Command>): State {
    if !s.at.Polling? then s
    else
      var kept := if |commands| > MAX_COMMANDS_PER_POLL then commands[..MAX_COMMANDS_PER_POLL] else commands;
      s.(failures := 0, at := Handling(Batch(kept, s.at.startedAt)))
  }

  function PollFailed(s: State, a: Answer): State {
    if !s.at.Polling? then s
    else if s.aborted then s.(at := Returned)
    else if a == AuthRejected then s.(at := Returned, aborted := true, authRejected := true)
    else s.(at := PollBackoff)
  }

  function PollBackoffEnds(s: State): State {
    if s.at == PollBackoff then s.(at := Ready, failures := s.failures + 1) else s
  }

  /** The next attempt of `report`, or its end. */
  function PostNext(s: State, job: Job, batch: Batch): State {
    if job.attempt < RESULT_ATTEMPTS && !s.aborted then s.(at := Posting(job, batch), requests := s.requests + 1)
    else s.(at := Handling(batch))
  }

  /** `handle`, up to its first await. */
  function Handle(s: State, command: Command, batch: Batch, now: int): State {
    if command.expiresAtMs.None? || !Acceptable(command.expiresAtMs.value, now) then s.(at := Handling(batch))
    else
      var expiresAtMs := command.expiresAtMs.value;
      var s1 := Told(s, Delivered(command.id, expiresAtMs, now));
      match VerdictFor(s.book, command.id, now)
      case Running => s1.(at := Handling(batch))
      case Done(result) => PostNext(s1, Job(command.id, expiresAtMs, result, 0), batch)
      case New => s1.(at := Executing(command, expiresAtMs, batch))
  }

  /** The wait that spaces two polls; a clock set back does not lengthen it. */
  function Space(s: State, startedAt: int, now: int): State {
    var spent := if now < startedAt then 0 else now - startedAt;
    if spent < MIN_POLL_SPACING_MS then s.(at := Spacing(now + MIN_POLL_SPACING_MS - spent)) else s.(at := Ready)
  }

  /** The next command of the batch, or the end of the batch. */
  function Next(s: State, now: int): State {
    if !s.at.Handling? then s
    else
      var batch := s.at.batch;
      if batch.rest == [] then Space(s, batch.startedAt, now)
      else if s.aborted then s.(at := Returned)
      else Handle(s, batch.rest[0], batch.(rest := batch.rest[1..]), now)
  }

  /** An unknown type, or params that do not parse, never reaches the game. */
  function ResultOf(command: Command, game: CommandResult): CommandResult {
    if command.known then game else CommandResult(false, Some("unsupported"))
  }

  function Executed(s: State, game: CommandResult): State {
    if !s.at.Executing? then s
    else
      var result := ResultOf(s.at.command, game);
      PostNext(Told(s, Decided(s.at.command.id, result)), Job(s.at.command.id, s.at.expiresAtMs, result, 0), s.at.batch)
  }

  function ReportAnswered(s: State, a: Answer, now: int): State {
    if !s.at.Posting? then s
    else
      match a
      case AuthRejected => s.(at := Returned, aborted := true, authRejected := true)
      case Transient =>
        if s.at.job.expiresAtMs <= now then s.(at := Handling(s.at.batch))
        else s.(at := ReportBackoff(s.at.job, s.at.batch))
      case _ => s.(at := Handling(s.at.batch))
  }

  function ReportBackoffEnds(s: State): State {
    if s.at.ReportBackoff? then PostNext(s, s.at.job.(attempt := s.at.job.attempt + 1), s.at.batch) else s
  }

  /** The spacing ends by itself, at a stop, or when a snapshot's answer said a command is waiting. */
  function SpacingEnds(s: State, now: int): State {
    if s.at.Spacing? && (s.at.until <= now || s.aborted) then s.(at := Ready) else s
  }

  function NotifyPending(s: State): State {
    if s.at.Spacing? then s.(at := Ready) else s
  }

  function Abort(s: State): State {
    s.(aborted := true)
  }

  datatype Event =
    | TurnRuns(now: int)
    | Polled(commands: seq<Command>)
    | PollError(answer: Answer)
    | PollSlept
    | NextRuns(now: int)
    | Ran(game: CommandResult)
    | Reported(answer: Answer, now: int)
    | ReportSlept
    | Spaced(now: int)
    | Poked
    | Stopped

  function Advance(s: State, e: Event): State {
    match e
    case TurnRuns(now) => Turn(s, now)
    case Polled(commands) => PollAnswered(s, commands)
    case PollError(a) => PollFailed(s, a)
    case PollSlept => PollBackoffEnds(s)
    case NextRuns(now) => Next(s, now)
    case Ran(game) => Executed(s, game)
    case Reported(a, now) => ReportAnswered(s, a, now)
    case ReportSlept => ReportBackoffEnds(s)
    case Spaced(now) => SpacingEnds(s, now)
    case Poked => NotifyPending(s)
    case Stopped => Abort(s)
  }

  function Run(max: nat, events: seq<Event>): State {
    if events == [] then Initial(max) else Advance(Run(max, events[..|events| - 1]), events[|events| - 1])
  }

  // ----- what every run keeps -----

  ghost predicate Pending(at: At) {
    at.Posting? || at.ReportBackoff?
  }

  ghost predicate HasBatch(at: At) {
    at.Handling? || at.Executing? || Pending(at)
  }

  /** The loop's book is the ledger's run over the trace; only the command at hand is running; what is posted was decided. */
  ghost predicate Inv(s: State) {
    && s.book == CommandBooks.Run(s.max, s.trace)
    && (forall id :: id in s.book.running <==> s.at.Executing? && id == s.at.command.id)
    && (HasBatch(s.at) ==> |s.at.batch.rest| <= MAX_COMMANDS_PER_POLL)
    && (Pending(s.at) ==>
          && s.at.job.attempt < RESULT_ATTEMPTS
          && s.at.job.id in s.book.decided && s.book.decided[s.at.job.id] == s.at.job.result)
  }

  lemma ToldKeeps(s: State, e: CommandBooks.Event)
    requires s.book == CommandBooks.Run(s.max, s.trace)
    ensures Told(s, e).book == CommandBooks.Run(s.max, Told(s, e).trace)
  {
    assert (s.trace + [e])[..|s.trace|] == s.trace;
  }

  lemma ReportKeeps(s: State, job: Job, batch: Batch)
    requires s.book == CommandBooks.Run(s.max, s.trace)
    requires forall id :: id !in s.book.running
    requires job.id in s.book.decided && s.book.decided[job.id] == job.result
    requires |batch.rest| <= MAX_COMMANDS_PER_POLL
    ensures Inv(PostNext(s, job, batch)) && PostNext(s, job, batch).book == s.book && PostNext(s, job, batch).max == s.max
  {
    hide CommandBooks.Run;
  }

  /** What the ledger answers is what it recorded, whatever was evicted in between. */
  ghost predicate Recorded(b: Book) {
    forall i :: 0 <= i < |b.entries| && b.entries[i].result.Some? ==>
      b.entries[i].id in b.decided && b.decided[b.entries[i].id] == b.entries[i].result.value
  }

  ghost predicate Sound(s: State) {
    Inv(s) && Recorded(s.book)
  }

  lemma BeginRecorded(b: Book, max: nat, id: string, expiresAtMs: int, at: int)
    requires Recorded(b)
    ensures Recorded(CommandBooks.Step(b, max, Delivered(id, expiresAtMs, at)))
    ensures forall k :: k in Live(b.entries, at) && k.result.Some? ==>
      k.id in b.decided && b.decided[k.id] == k.result.value
  {
    var live := Live(b.entries, at);
    forall k | k in live && k.result.Some? ensures k.id in b.decided && b.decided[k.id] == k.result.value {
      assert k in b.entries;
    }
    var all := live + [Entry(id, expiresAtMs, None)];
    var r := CommandBooks.Step(b, max, Delivered(id, expiresAtMs, at));
    forall i | 0 <= i < |r.entries| && r.entries[i].result.Some?
      ensures r.entries[i].id in b.decided && b.decided[r.entries[i].id] == r.entries[i].result.value
    {
      var k := r.entries[i];
      assert k in b.entries by {
        if Acceptable(expiresAtMs, at) { assert k in live || k in all; }
      }
    }
  }

  /** Asking the ledger records no result, and starts at most the one command it was asked about. */
  lemma AskedKeeps(s: State, id: string, expiresAtMs: int, now: int)
    requires Sound(s) && Acceptable(expiresAtMs, now)
    ensures var r := Told(s, Delivered(id, expiresAtMs, now));
            && r.book == CommandBooks.Run(r.max, r.trace) && Recorded(r.book) && r.max == s.max
            && r.book.decided == s.book.decided
            && (forall k :: k in r.book.running <==>
                  k in s.book.running || (k == id && VerdictFor(s.book, id, now) == New))
    ensures match VerdictFor(s.book, id, now)
            case Done(result) => id in s.book.decided && s.book.decided[id] == result
            case _ => true
  {
    hide CommandBooks.Run, Begin;
    ToldKeeps(s, Delivered(id, expiresAtMs, now));
    BeginRecorded(s.book, s.max, id, expiresAtMs, now);
  }

  lemma HandleKeeps(s: State, command: Command, batch: Batch, now: int)
    requires Sound(s) && s.at.Handling? && |batch.rest| <= MAX_COMMANDS_PER_POLL
    ensures Sound(Handle(s, command, batch, now)) && Handle(s, command, batch, now).max == s.max
  {
    hide CommandBooks.Run, PostNext, Told, Recorded;
    if command.expiresAtMs.Some? && Acceptable(command.expiresAtMs.value, now) {
      var e := Delivered(command.id, command.expiresAtMs.value, now);
      AskedKeeps(s, e.id, e.expiresAtMs, now);
      match VerdictFor(s.book, command.id, now) {
        case Done(result) => ReportKeeps(Told(s, e), Job(command.id, e.expiresAtMs, result, 0), batch);
        case _ =>
      }
    }
  }

  lemma ExecutedKeeps(s: State, game: CommandResult)
    requires Sound(s) && s.at.Executing?
    ensures Sound(Executed(s, game)) && Executed(s, game).max == s.max
  {
    hide CommandBooks.Run, PostNext;
    var result := ResultOf(s.at.command, game);
    var e := Decided(s.at.command.id, result);
    ToldKeeps(s, e);
    ReportKeeps(Told(s, e), Job(s.at.command.id, s.at.expiresAtMs, result, 0), s.at.batch);
  }

  lemma StepKeeps(s: State, e: Event)
    requires Sound(s)
    ensures Sound(Advance(s, e)) && Advance(s, e).max == s.max
  {
    hide CommandBooks.Run, CommandBooks.Step, Recorded, Handle, Told, PostNext;
    match e {
      case NextRuns(now) =>
        if s.at.Handling? && s.at.batch.rest != [] && !s.aborted {
          HandleKeeps(s, s.at.batch.rest[0], s.at.batch.(rest := s.at.batch.rest[1..]), now);
        }
      case Ran(game) => if s.at.Executing? { ExecutedKeeps(s, game); }
      case ReportSlept =>
        if s.at.ReportBackoff? { ReportKeeps(s, s.at.job.(attempt := s.at.job.attempt + 1), s.at.batch); }
      case _ =>
    }
  }

  lemma {:induction false} RunKeeps(max: nat, events: seq<Event>)
    ensures Sound(Run(max, events)) && Run(max, events).max == max
  {
    if events != [] {
      RunKeeps(max, events[..|events| - 1]);
      StepKeeps(Run(max, events[..|events| - 1]), events[|events| - 1]);
    }
  }

  // ----- the claims, over every run -----

  /** Every execution is of a different id, not expired, and not claiming to live longer than the backend allows. */
  lemma EachCommandRunsOnce(max: nat, expiry: map<string, int>, events: seq<Event>, now: int, i: nat, j: nat)
    requires WellTimed(max, expiry, Run(max, events).trace) && NotAfter(Run(max, events).trace, now)
    requires i < j < |Run(max, events).book.executed|
    ensures var executed := Run(max, events).book.executed;
            && executed[i].id != executed[j].id
            && executed[i].at < executed[i].expiresAtMs <= executed[i].at + MAX_COMMAND_LIFETIME_MS
            && executed[j].at < executed[j].expiresAtMs <= executed[j].at + MAX_COMMAND_LIFETIME_MS
  {
    hide Run, CommandBooks.Run;
    RunKeeps(max, events);
    var trace := Run(max, events).trace;
    ExecutedAtMostOnce(max, expiry, trace, now, i, j);
    NothingExpiredRuns(max, expiry, trace, now, i);
    NothingExpiredRuns(max, expiry, trace, now, j);
  }

  /** What is being posted of a command is the one result its execution had, at whichever attempt and delivery. */
  lemma PostsTheFirstResult(max: nat, expiry: map<string, int>, events: seq<Event>, now: int)
    requires WellTimed(max, expiry, Run(max, events).trace) && NotAfter(Run(max, events).trace, now)
    requires Run(max, events).at.Posting?
    ensures var s := Run(max, events);
            && s.at.job.attempt < RESULT_ATTEMPTS
            && WasExecuted(s.book.executed, s.at.job.id)
            && (forall i :: 0 <= i < |s.book.reported| && s.book.reported[i].id == s.at.job.id ==>
                  s.book.reported[i].result == s.at.job.result)
  {
    hide Run, CommandBooks.Run;
    RunKeeps(max, events);
    CommandBooks.RunKeeps(max, expiry, Run(max, events).trace, now);
  }

  /** A command run before and not expired is not run, nor passed over: its result is posted again. */
  lemma DuplicateIsAnswered(max: nat, expiry: map<string, int>, events: seq<Event>, now: int)
    requires WellTimed(max, expiry, Run(max, events).trace) && NotAfter(Run(max, events).trace, now)
    requires !Run(max, events).aborted
    requires Run(max, events).at.Handling? && Run(max, events).at.batch.rest != []
    requires var s := Run(max, events);
             var id := s.at.batch.rest[0].id;
             && WasExecuted(s.book.executed, id) && id in expiry && s.at.batch.rest[0].expiresAtMs == Some(expiry[id])
             && Acceptable(expiry[id], now)
    ensures var s := Run(max, events);
            var id := s.at.batch.rest[0].id;
            && id in s.book.decided
            && Next(s, now).at ==
                 Posting(Job(id, expiry[id], s.book.decided[id], 0), s.at.batch.(rest := s.at.batch.rest[1..]))
            && Next(s, now).book.executed == s.book.executed
  {
    hide Run, CommandBooks.Run;
    RunKeeps(max, events);
    var s := Run(max, events);
    CommandBooks.RunKeeps(max, expiry, s.trace, now);
    Answered(s, expiry, s.at.batch.rest[0].id, now);
  }

  lemma Answered(s: State, expiry: map<string, int>, id: string, now: int)
    requires Inv(s) && s.at.Handling? && CommandBooks.Inv(s.book, expiry, now)
    requires WasExecuted(s.book.executed, id) && id in expiry && now < expiry[id]
    ensures id in s.book.decided && VerdictFor(s.book, id, now) == Done(s.book.decided[id])
  {
    hide CommandBooks.Run;
    PurgeKeeps(s.book, expiry, now, now);
    var live := Live(s.book.entries, now);
    FindHas(live, id);
    var e := Find(live, id).value;
    var i :| 0 <= i < |live| && live[i] == e;
    assert EntryOk(s.book.(entries := live), expiry, live[i]);
  }

  /** What a delivery does to the history, by its verdict. */
  lemma DeliverySplits(b: Book, max: nat, id: string, expiresAtMs: int, now: int)
    requires Acceptable(expiresAtMs, now)
    ensures var r := Deliver(b, max, id, expiresAtMs, now);
            && r.entries == Begin(b.entries, max, id, expiresAtMs, now)
            && r.running == (if VerdictFor(b, id, now) == New then b.running + {id} else b.running)
            && r.executed ==
                 b.executed + (if VerdictFor(b, id, now) == New then [Execution(id, expiresAtMs, now)] else [])
            && r.decided == b.decided
            && r.reported == b.reported +
                 (match VerdictFor(b, id, now) case Done(result) => [CommandBooks.Report(id, result)] case _ => [])
  {
    hide Live, Find, Begin, VerdictOf;
    assert b.executed + [] == b.executed && b.reported + [] == b.reported;
  }

  // ----- the runner's fields -----

  class CommandRunner {
    const ledger: CommandLedger
    var at: At
    var aborted: bool
    var failures: nat
    ghost var executed: seq<Execution>
    ghost var running: set<string>
    ghost var decided: map<string, CommandResult>
    ghost var reported: seq<CommandBooks.Report>
    ghost var trace: seq<CommandBooks.Event>
    ghost var requests: nat
    ghost var authRejected: bool

    ghost function View(): State
      reads this, ledger
    {
      State(ledger.maxEntries, at, aborted, failures, Book(ledger.entries, executed, running, decided, reported), trace,
            requests, authRejected)
    }

    constructor (ledger: CommandLedger)
      requires ledger.entries == []
      ensures this.ledger == ledger && View() == Initial(ledger.maxEntries)
    {
      this.ledger := ledger;
      at, aborted, failures := Ready, false, 0;
      executed, running, decided, reported := [], {}, map[], [];
      trace, requests, authRejected := [], 0, false;
    }

    method RunTurn(now: int)
      modifies this
      ensures View() == Turn(old(View()), now)
    {
      if at == Ready {
        if aborted { at := Returned; } else { requests, at := requests + 1, Polling(now); }
      }
    }

    method AfterPoll(commands: seq<Command>)
      modifies this
      ensures View() == PollAnswered(old(View()), commands)
    {
      if !at.Polling? { return; }
      failures := 0;
      var kept := commands;
      if |commands| > MAX_COMMANDS_PER_POLL { kept := commands[..MAX_COMMANDS_PER_POLL]; }
      at := Handling(Batch(kept, at.startedAt));
    }

    method AfterPollError(a: Answer)
      modifies this
      ensures View() == PollFailed(old(View()), a)
    {
      if !at.Polling? { return; }
      if aborted { at := Returned; }
      else if a == AuthRejected { at, aborted, authRejected := Returned, true, true; }
      else { at := PollBackoff; }
    }

    method AfterPollBackoff()
      modifies this
      ensures View() == PollBackoffEnds(old(View()))
    {
      if at == PollBackoff { failures, at := failures + 1, Ready; }
    }

    method TryPost(job: Job, batch: Batch)
      modifies this
      ensures View() == PostNext(old(View()), job, batch)
    {
      if job.attempt < RESULT_ATTEMPTS && !aborted { requests, at := requests + 1, Posting(job, batch); }
      else { at := Handling(batch); }
    }

    method AskLedger(id: string, expiresAtMs: int, now: int) returns (verdict: Verdict)
      requires Acceptable(expiresAtMs, now)
      modifies this, ledger
      ensures verdict == old(VerdictFor(View().book, id, now))
      ensures View() == Told(old(View()), Delivered(id, expiresAtMs, now))
    {
      hide Live, Find, Begin, VerdictOf, Deliver;
      ghost var was := View();
      verdict := ledger.BeginCommand(id, expiresAtMs, now);
      DeliverySplits(was.book, was.max, id, expiresAtMs, now);
      trace := trace + [Delivered(id, expiresAtMs, now)];
      match verdict {
        case New => executed, running := executed + [Execution(id, expiresAtMs, now)], running + {id};
        case Running =>
        case Done(result) => reported := reported + [CommandBooks.Report(id, result)];
      }
    }

    method HandleCommand(command: Command, batch: Batch, now: int)
      modifies this, ledger
      ensures View() == Handle(old(View()), command, batch, now)
    {
      hide Told, PostNext;
      if command.expiresAtMs.None? || !Acceptable(command.expiresAtMs.value, now) {
        at := Handling(batch);
        return;
      }
      var expiresAtMs := command.expiresAtMs.value;
      var verdict := AskLedger(command.id, expiresAtMs, now);
      match verdict {
        case Running => at := Handling(batch);
        case Done(result) => TryPost(Job(command.id, expiresAtMs, result, 0), batch);
        case New => at := Executing(command, expiresAtMs, batch);
      }
    }

    method RunNext(now: int)
      modifies this, ledger
      ensures View() == Next(old(View()), now)
    {
      hide Handle;
      if !at.Handling? { return; }
      var batch := at.batch;
      if batch.rest == [] {
        var spent := now - batch.startedAt;
        if spent < 0 { spent := 0; }
        if spent < MIN_POLL_SPACING_MS { at := Spacing(now + MIN_POLL_SPACING_MS - spent); } else { at := Ready; }
      } else if aborted { at := Returned; }
      else { HandleCommand(batch.rest[0], batch.(rest := batch.rest[1..]), now); }
    }

    method TellLedger(id: string, result: CommandResult)
      requires id in running
      modifies this, ledger
      ensures View() == Told(old(View()), Decided(id, result))
    {
      ledger.FinishCommand(id, result);
      running, decided := running - {id}, decided[id := result];
      reported, trace := reported + [CommandBooks.Report(id, result)], trace + [Decided(id, result)];
    }

    method AfterExecute(game: CommandResult)
      requires at.Executing? ==> at.command.id in running
      modifies this, ledger
      ensures View() == Executed(old(View()), game)
    {
      hide Told, PostNext;
      if !at.Executing? { return; }
      var command, expiresAtMs, batch := at.command, at.expiresAtMs, at.batch;
      var result := ResultOf(command, game);
      TellLedger(command.id, result);
      TryPost(Job(command.id, expiresAtMs, result, 0), batch);
    }

    method AfterReport(a: Answer, now: int)
      modifies this
      ensures View() == ReportAnswered(old(View()), a, now)
    {
      if !at.Posting? { return; }
      match a {
        case AuthRejected => at, aborted, authRejected := Returned, true, true;
        case Transient =>
          if at.job.expiresAtMs <= now { at := Handling(at.batch); } else { at := ReportBackoff(at.job, at.batch); }
        case _ => at := Handling(at.batch);
      }
    }

    method AfterReportBackoff()
      modifies this
      ensures View() == ReportBackoffEnds(old(View()))
    {
      if at.ReportBackoff? { TryPost(at.job.(attempt := at.job.attempt + 1), at.batch); }
    }

    method AfterSpacing(now: int)
      modifies this
      ensures View() == SpacingEnds(old(View()), now)
    {
      if at.Spacing? && (at.until <= now || aborted) { at := Ready; }
    }

    method Poke()
      modifies this
      ensures View() == NotifyPending(old(View()))
    {
      if at.Spacing? { at := Ready; }
    }

    method OnStop()
      modifies this
      ensures View() == Abort(old(View()))
    {
      aborted := true;
    }

    /** One segment of the loop. */
    method Segment(e: Event)
      requires at.Executing? ==> at.command.id in running
      modifies this, ledger
      ensures View() == Advance(old(View()), e)
    {
      hide Turn, PollAnswered, PollFailed, PollBackoffEnds, Next, Executed, ReportAnswered, ReportBackoffEnds, SpacingEnds;
      match e {
        case TurnRuns(now) => RunTurn(now);
        case Polled(commands) => AfterPoll(commands);
        case PollError(a) => AfterPollError(a);
        case PollSlept => AfterPollBackoff();
        case NextRuns(now) => RunNext(now);
        case Ran(game) => AfterExecute(game);
        case Reported(a, now) => AfterReport(a, now);
        case ReportSlept => AfterReportBackoff();
        case Spaced(now) => AfterSpacing(now);
        case Poked => Poke();
        case Stopped => OnStop();
      }
    }
  }
}
