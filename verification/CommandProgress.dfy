/**
 * What the command loop does with what the backend sends (agent/src/commandRunner.ts), over every run: each command of a
 * poll's answer is handled in order before the next poll, a new one is executed, what it came to is posted, and the loop
 * polls again.
 */
module CommandProgress {
  import opened Wrappers
  import opened CommandLedgers
  import opened CommandBooks
  import opened CommandLoop

  // ----- every command offered is handled, in order -----

  function FirstOf(commands: seq<Command>): seq<Command> {
    if |commands| > MAX_COMMANDS_PER_POLL then commands[..MAX_COMMANDS_PER_POLL] else commands
  }

  /** The commands the answered polls offered: of each answer, the first MAX_COMMANDS_PER_POLL. */
  ghost function Offered(max: nat, events: seq<CommandLoop.Event>): seq<Command> {
    if events == [] then []
    else
      var n := |events| - 1;
      var last := events[n];
      Offered(max, events[..n])
        + if last.Polled? && CommandLoop.Run(max, events[..n]).at.Polling? then FirstOf(last.commands) else []
  }

  /** A segment takes the next command of the batch. */
  ghost predicate Takes(s: State, e: CommandLoop.Event) {
    e.NextRuns? && s.at.Handling? && s.at.batch.rest != [] && !s.aborted
  }

  /** The commands taken so far, in the order they were. */
  ghost function Taken(max: nat, events: seq<CommandLoop.Event>): seq<Command> {
    if events == [] then []
    else
      var n := |events| - 1;
      var s := CommandLoop.Run(max, events[..n]);
      Taken(max, events[..n]) + if Takes(s, events[n]) then [s.at.batch.rest[0]] else []
  }

  ghost function RestOf(at: At): seq<Command> {
    if HasBatch(at) then at.batch.rest else []
  }

  /** What a segment is offered, and what it takes. */
  ghost function OfferedBy(s: State, e: CommandLoop.Event): seq<Command> {
    if e.Polled? && s.at.Polling? then FirstOf(e.commands) else []
  }

  ghost function TakenBy(s: State, e: CommandLoop.Event): seq<Command> {
    if Takes(s, e) then [s.at.batch.rest[0]] else []
  }

  /** From `s` to `r` the commands are neither lost nor taken twice. */
  ghost predicate Carries(s: State, e: CommandLoop.Event, r: State) {
    && (s.at == Returned ==> r.at == Returned && TakenBy(s, e) == [] && OfferedBy(s, e) == [])
    && (r.at != Returned ==> RestOf(s.at) + OfferedBy(s, e) == TakenBy(s, e) + RestOf(r.at))
    && (r.at == Returned && s.at != Returned ==> r.aborted && TakenBy(s, e) == [] && OfferedBy(s, e) == [])
    && (s.aborted ==> r.aborted)
  }

  lemma NextCarries(s: State, now: int)
    ensures Carries(s, NextRuns(now), Next(s, now))
  {
    hide VerdictFor, CommandBooks.Step, Acceptable;
    if s.at.Handling? && s.at.batch.rest != [] {
      assert s.at.batch.rest == [s.at.batch.rest[0]] + s.at.batch.rest[1..];
    }
  }

  lemma PolledCarries(s: State, commands: seq<Command>)
    ensures Carries(s, Polled(commands), PollAnswered(s, commands))
  {
  }

  lemma OthersCarry(s: State, e: CommandLoop.Event)
    requires !e.NextRuns? && !e.Polled?
    ensures Carries(s, e, Advance(s, e))
  {
    hide CommandBooks.Step, Next, PollAnswered;
  }

  lemma TakenStep(s: State, e: CommandLoop.Event)
    ensures Carries(s, e, Advance(s, e))
  {
    hide Carries, Next, PollAnswered;
    match e {
      case NextRuns(now) => NextCarries(s, now);
      case Polled(commands) => PolledCarries(s, commands);
      case _ => OthersCarry(s, e);
    }
  }

  lemma OfferedNext(max: nat, events: seq<CommandLoop.Event>)
    requires events != []
    ensures var n := |events| - 1;
            var s := CommandLoop.Run(max, events[..n]);
            && CommandLoop.Run(max, events) == Advance(s, events[n])
            && Offered(max, events) == Offered(max, events[..n]) + OfferedBy(s, events[n])
            && Taken(max, events) == Taken(max, events[..n]) + TakenBy(s, events[n])
  {
    hide Advance;
  }

  lemma Carry(
      offered: seq<Command>, taken: seq<Command>, rest: seq<Command>, more: seq<Command>, takes: seq<Command>,
      left: seq<Command>)
    requires offered == taken + rest && rest + more == takes + left
    ensures offered + more == (taken + takes) + left
  {
    assert offered + more == taken + (rest + more);
    assert taken + (takes + left) == (taken + takes) + left;
  }

  /**
   * While the loop runs, what was offered is what was taken, in that order, and what is left of the current batch; so before
   * each next poll everything offered was taken. A loop that has returned was stopped, and took a first part of it.
   */
  lemma {:induction false} EveryOfferedIsTaken(max: nat, events: seq<CommandLoop.Event>)
    ensures var s := CommandLoop.Run(max, events);
            && (s.at != Returned ==> Offered(max, events) == Taken(max, events) + RestOf(s.at))
            && (s.at == Returned ==> s.aborted && Taken(max, events) <= Offered(max, events))
  {
    if events != [] {
      var n := |events| - 1;
      EveryOfferedIsTaken(max, events[..n]);
      OfferedNext(max, events);
      hide CommandLoop.Run, RestOf, Offered, Taken, OfferedBy, TakenBy, Advance;
      var s, e := CommandLoop.Run(max, events[..n]), events[n];
      TakenStep(s, e);
      if Advance(s, e).at != Returned {
        Carry(
          Offered(max, events[..n]), Taken(max, events[..n]), RestOf(s.at), OfferedBy(s, e), TakenBy(s, e),
          RestOf(Advance(s, e).at));
      }
    }
  }

  // ----- what becomes of a command that is taken -----

  lemma NextIs(max: nat, events: seq<CommandLoop.Event>, e: CommandLoop.Event)
    ensures CommandLoop.Run(max, events + [e]) == Advance(CommandLoop.Run(max, events), e)
  {
    assert (events + [e])[..|events|] == events;
  }

  /** Whatever the ledger remembers was executed. */
  ghost predicate Remembers(b: Book) {
    forall e :: e in b.entries ==> WasExecuted(b.executed, e.id)
  }

  lemma ExecutedStays(executed: seq<Execution>, x: Execution)
    ensures forall id :: WasExecuted(executed, id) ==> WasExecuted(executed + [x], id)
    ensures WasExecuted(executed + [x], x.id)
  {
    var r := executed + [x];
    forall id | WasExecuted(executed, id) ensures WasExecuted(r, id) {
      var i :| 0 <= i < |executed| && executed[i].id == id;
      assert r[i].id == id;
    }
    assert r[|executed|].id == x.id;
  }

  lemma BeginAdds(entries: seq<Entry>, max: nat, id: string, expiresAtMs: int, at: int, k: Entry)
    requires k in Begin(entries, max, id, expiresAtMs, at)
    ensures k in entries || (Find(Live(entries, at), id).None? && k.id == id)
  {
    hide Find, Live;
    var live := Live(entries, at);
    var all := live + [Entry(id, expiresAtMs, None)];
    assert k in live || k in all;
  }

  lemma FinishNames(entries: seq<Entry>, id: string, result: CommandResult, k: Entry) returns (before: Entry)
    requires k in Finish(entries, id, result)
    ensures before in entries && before.id == k.id
  {
    var r := Finish(entries, id, result);
    var i :| 0 <= i < |r| && r[i] == k;
    before := entries[i];
  }

  lemma StepRemembers(b: Book, max: nat, e: CommandBooks.Event)
    requires Remembers(b)
    ensures Remembers(CommandBooks.Step(b, max, e))
  {
    hide WasExecuted, Begin, Finish, Find, Live;
    var r := CommandBooks.Step(b, max, e);
    match e {
      case Delivered(id, expiresAtMs, at) =>
        ExecutedStays(b.executed, Execution(id, expiresAtMs, at));
        forall k | k in r.entries ensures WasExecuted(r.executed, k.id) {
          if Acceptable(expiresAtMs, at) { BeginAdds(b.entries, max, id, expiresAtMs, at, k); }
        }
      case Decided(id, result) =>
        forall k | k in r.entries ensures WasExecuted(r.executed, k.id) {
          if id in b.running { var _ := FinishNames(b.entries, id, result, k); }
        }
    }
  }

  lemma {:induction false} BookRemembers(max: nat, trace: seq<CommandBooks.Event>)
    ensures Remembers(CommandBooks.Run(max, trace))
  {
    if trace != [] {
      hide Remembers, CommandBooks.Step;
      var n := |trace| - 1;
      BookRemembers(max, trace[..n]);
      StepRemembers(CommandBooks.Run(max, trace[..n]), max, trace[n]);
    }
  }

  lemma NeverExecutedIsNew(b: Book, id: string, now: int)
    requires Remembers(b) && !WasExecuted(b.executed, id)
    ensures VerdictFor(b, id, now) == New
  {
    hide WasExecuted;
    forall e | e in Live(b.entries, now) ensures e.id != id { assert e in b.entries; }
  }

  /** The next command of the batch has not expired, and claims no longer a life than the agent allows. */
  ghost predicate MayRun(s: State, now: int) {
    && s.at.Handling? && s.at.batch.rest != [] && !s.aborted
    && s.at.batch.rest[0].expiresAtMs.Some?
    && now < s.at.batch.rest[0].expiresAtMs.value <= now + MAX_COMMAND_LIFETIME_MS
  }

  /** A command that may run and was never executed is executed now, and it is what the loop awaits. */
  lemma NewCommandRuns(max: nat, events: seq<CommandLoop.Event>, now: int)
    requires var s := CommandLoop.Run(max, events);
             MayRun(s, now) && !WasExecuted(s.book.executed, s.at.batch.rest[0].id)
    ensures var s, r := CommandLoop.Run(max, events), CommandLoop.Run(max, events + [NextRuns(now)]);
            var command := s.at.batch.rest[0];
            && r.book.executed == s.book.executed + [Execution(command.id, command.expiresAtMs.value, now)]
            && r.book.running == s.book.running + {command.id} && r.book.decided == s.book.decided
            && r.at == Executing(command, command.expiresAtMs.value, Batch(s.at.batch.rest[1..], s.at.batch.startedAt))
  {
    NextIs(max, events, NextRuns(now));
    CommandLoop.RunKeeps(max, events);
    var s := CommandLoop.Run(max, events);
    BookRemembers(s.max, s.trace);
    NeverExecutedIsNew(s.book, s.at.batch.rest[0].id, now);
    hide CommandBooks.Run, CommandLoop.Run, Remembers, WasExecuted, VerdictFor, Begin;
  }

  /** One that may not run leaves the ledger as it is, and the next is taken after it. */
  lemma OthersAreSkipped(max: nat, events: seq<CommandLoop.Event>, now: int)
    requires var s := CommandLoop.Run(max, events);
             && s.at.Handling? && s.at.batch.rest != [] && !s.aborted && !MayRun(s, now)
    ensures var s, r := CommandLoop.Run(max, events), CommandLoop.Run(max, events + [NextRuns(now)]);
            && r.book == s.book && r.requests == s.requests
            && r.at == Handling(Batch(s.at.batch.rest[1..], s.at.batch.startedAt))
  {
    NextIs(max, events, NextRuns(now));
  }

  /**
   * When the execution awaited ends, its outcome is the game's for a command the agent knows and `unsupported` for any other;
   * it is recorded, and posted unless the loop was stopped.
   */
  lemma OutcomeIsPosted(max: nat, events: seq<CommandLoop.Event>, game: CommandResult)
    requires CommandLoop.Run(max, events).at.Executing?
    ensures var s, r := CommandLoop.Run(max, events), CommandLoop.Run(max, events + [Ran(game)]);
            var result := if s.at.command.known then game else CommandResult(false, Some("unsupported"));
            && r.book.decided == s.book.decided[s.at.command.id := result] && r.book.executed == s.book.executed
            && r.book.reported == s.book.reported + [CommandBooks.Report(s.at.command.id, result)]
            && (!s.aborted ==>
                  && r.at == Posting(Job(s.at.command.id, s.at.expiresAtMs, result, 0), s.at.batch)
                  && r.requests == s.requests + 1)
            && (s.aborted ==> r.at == Handling(s.at.batch) && r.requests == s.requests)
  {
    NextIs(max, events, Ran(game));
    CommandLoop.RunKeeps(max, events);
    hide CommandBooks.Run, CommandLoop.Run, Recorded, Finish;
  }

  /**
   * A post that failed in passing is tried again while attempts are left and the command has not expired, and the loop is not
   * stopped; any other answer, and the last attempt, go on to the next command.
   */
  lemma PostIsRetried(max: nat, events: seq<CommandLoop.Event>, now: int)
    requires CommandLoop.Run(max, events).at.Posting? && !CommandLoop.Run(max, events).aborted
    ensures var s, r := CommandLoop.Run(max, events),
                        CommandLoop.Run(max, events + [Reported(Transient, now)] + [ReportSlept]);
            var job := s.at.job;
            && r.book == s.book
            && if now < job.expiresAtMs && job.attempt + 1 < RESULT_ATTEMPTS then
                 r.at == Posting(job.(attempt := job.attempt + 1), s.at.batch) && r.requests == s.requests + 1
               else r.at == Handling(s.at.batch) && r.requests == s.requests
    ensures forall a :: a != Transient && a != AuthRejected ==>
              var s := CommandLoop.Run(max, events);
              CommandLoop.Run(max, events + [Reported(a, now)]) == s.(at := Handling(s.at.batch))
  {
    NextIs(max, events, Reported(Transient, now));
    NextIs(max, events + [Reported(Transient, now)], ReportSlept);
    forall a { NextIs(max, events, Reported(a, now)); }
  }

  // ----- the loop polls again -----

  /** The segment a state waits for. */
  ghost predicate Awaited(s: State, e: CommandLoop.Event) {
    match s.at
    case Ready => e.TurnRuns?
    case Polling(_) => e.Polled? || e.PollError?
    case Handling(_) => e.NextRuns?
    case Executing(_, _, _) => e.Ran?
    case Posting(_, _) => e.Reported?
    case ReportBackoff(_, _) => e.ReportSlept?
    case PollBackoff => e.PollSlept?
    case Spacing(until) => e.Spaced? && until <= e.now
    case Returned => false
  }

  /** How many awaited segments a state can be from the next poll. */
  ghost function PollRank(at: At): int {
    match at
    case Ready => 0
    case Polling(_) => POLL_RANK
    case Handling(b) => 14 * |b.rest| + 2
    case Executing(_, _, b) => 14 * |b.rest| + 13
    case Posting(job, b) => 14 * |b.rest| + 2 + 2 * (RESULT_ATTEMPTS - job.attempt)
    case ReportBackoff(job, b) => 14 * |b.rest| + 1 + 2 * (RESULT_ATTEMPTS - job.attempt)
    case PollBackoff => 1
    case Spacing(_) => 1
    case Returned => 0
  }

  const POLL_RANK: int := 14 * MAX_COMMANDS_PER_POLL + 14

  ghost predicate PollBegins(s: State, e: CommandLoop.Event) {
    s.at == Ready && e.TurnRuns? && !s.aborted
  }

  /** How many segments from the `from`th on were awaited. */
  ghost function Moved(max: nat, events: seq<CommandLoop.Event>, from: nat): nat
    requires from <= |events|
  {
    if |events| == from then 0
    else
      var n := |events| - 1;
      Moved(max, events[..n], from) + if Awaited(CommandLoop.Run(max, events[..n]), events[n]) then 1 else 0
  }

  lemma AwaitedLowers(s: State, e: CommandLoop.Event)
    requires Sound(s) && !Advance(s, e).aborted
    ensures !s.aborted
    ensures PollBegins(s, e) || PollRank(Advance(s, e).at) + (if Awaited(s, e) then 1 else 0) <= PollRank(s.at)
    ensures PollBegins(s, e) ==> Advance(s, e).at == Polling(e.now) && Advance(s, e).requests == s.requests + 1
  {
    hide VerdictFor, CommandBooks.Step, CommandBooks.Run, Acceptable, Recorded;
  }

  ghost predicate PollBegan(max: nat, events: seq<CommandLoop.Event>, from: nat) {
    exists i :: from <= i < |events| && PollBegins(CommandLoop.Run(max, events[..i]), events[i])
  }

  lemma BeganEarlier(max: nat, events: seq<CommandLoop.Event>, from: nat)
    requires events != [] && PollBegan(max, events[..|events| - 1], from)
    ensures PollBegan(max, events, from)
  {
    var before := events[..|events| - 1];
    var i :| from <= i < |before| && PollBegins(CommandLoop.Run(max, before[..i]), before[i]);
    assert before[..i] == events[..i];
  }

  lemma {:induction false} RankFalls(max: nat, events: seq<CommandLoop.Event>, from: nat)
    requires from <= |events| && !CommandLoop.Run(max, events).aborted
    ensures 0 <= PollRank(CommandLoop.Run(max, events).at)
    ensures PollBegan(max, events, from)
            || PollRank(CommandLoop.Run(max, events).at) + Moved(max, events, from)
                 <= PollRank(CommandLoop.Run(max, events[..from]).at)
  {
    hide PollRank, Awaited, Advance, Sound;
    CommandLoop.RunKeeps(max, events);
    RankIsNat(CommandLoop.Run(max, events));
    if |events| == from {
      assert events[..from] == events;
    } else {
      var n := |events| - 1;
      var s := CommandLoop.Run(max, events[..n]);
      CommandLoop.RunKeeps(max, events[..n]);
      AwaitedLowers(s, events[n]);
      assert events[..n][..from] == events[..from];
      RankFalls(max, events[..n], from);
      if PollBegan(max, events[..n], from) { BeganEarlier(max, events, from); }
    }
  }

  lemma RankIsNat(s: State)
    requires Sound(s)
    ensures 0 <= PollRank(s.at) <= POLL_RANK
  {
    hide CommandBooks.Run, Recorded;
  }

  /**
   * A loop that is not stopped is never stuck: once more than POLL_RANK of the segments it awaited have come, a poll has
   * begun. By EveryOfferedIsTaken every command of the answers before it was taken by then.
   */
  lemma PollsAgain(max: nat, events: seq<CommandLoop.Event>, from: nat)
    requires from <= |events| && !CommandLoop.Run(max, events).aborted
    requires Moved(max, events, from) > POLL_RANK
    ensures exists i :: from <= i < |events| && PollBegins(CommandLoop.Run(max, events[..i]), events[i])
                        && Offered(max, events[..i]) == Taken(max, events[..i])
  {
    hide PollRank, Awaited, Sound, CommandLoop.Run, Moved, Offered, Taken;
    RankFalls(max, events, from);
    CommandLoop.RunKeeps(max, events[..from]);
    RankIsNat(CommandLoop.Run(max, events[..from]));
    var i :| from <= i < |events| && PollBegins(CommandLoop.Run(max, events[..i]), events[i]);
    EveryOfferedIsTaken(max, events[..i]);
  }

  /** A hint ends the wait between two polls at once. */
  lemma HintEndsTheWait(max: nat, events: seq<CommandLoop.Event>, now: int)
    requires CommandLoop.Run(max, events).at.Spacing? && !CommandLoop.Run(max, events).aborted
    ensures var s, r := CommandLoop.Run(max, events), CommandLoop.Run(max, events + [Poked] + [TurnRuns(now)]);
            r == s.(at := Polling(now), requests := s.requests + 1)
  {
    NextIs(max, events, Poked);
    NextIs(max, events + [Poked], TurnRuns(now));
  }

  /** A poll that failed is followed by another after its wait, unless it was refused for good or the loop was stopped. */
  lemma FailedPollIsRetried(max: nat, events: seq<CommandLoop.Event>, a: Answer, now: int)
    requires CommandLoop.Run(max, events).at.Polling? && !CommandLoop.Run(max, events).aborted
    ensures var s := CommandLoop.Run(max, events);
            var failed := CommandLoop.Run(max, events + [PollError(a)]);
            var r := CommandLoop.Run(max, events + [PollError(a)] + [PollSlept] + [TurnRuns(now)]);
            if a == AuthRejected then failed == s.(at := Returned, aborted := true, authRejected := true)
            else r == s.(at := Polling(now), failures := s.failures + 1, requests := s.requests + 1)
  {
    NextIs(max, events, PollError(a));
    NextIs(max, events + [PollError(a)], PollSlept);
    NextIs(max, events + [PollError(a)] + [PollSlept], TurnRuns(now));
  }

  // ----- polls are spaced -----

  /** A poll that came back within a second is spaced to just a second; a clock set back waits a second from now, no more. */
  lemma SpacingIsExact(max: nat, events: seq<CommandLoop.Event>, now: int)
    requires CommandLoop.Run(max, events).at.Handling? && CommandLoop.Run(max, events).at.batch.rest == []
    ensures var startedAt, r := CommandLoop.Run(max, events).at.batch.startedAt, CommandLoop.Run(max, events + [NextRuns(now)]);
            && (r.at == Ready <==> startedAt + MIN_POLL_SPACING_MS <= now)
            && (r.at != Ready ==> r.at.Spacing?)
            && (startedAt <= now && r.at.Spacing? ==> r.at.until == startedAt + MIN_POLL_SPACING_MS)
            && (now < startedAt ==> r.at == Spacing(now + MIN_POLL_SPACING_MS))
  {
    NextIs(max, events, NextRuns(now));
  }

  /** How many polls failed since the last that was answered. */
  ghost function FailuresInARow(max: nat, events: seq<CommandLoop.Event>): nat {
    if events == [] then 0
    else
      var n := |events| - 1;
      var at := CommandLoop.Run(max, events[..n]).at;
      if events[n].Polled? && at.Polling? then 0
      else FailuresInARow(max, events[..n]) + if events[n].PollSlept? && at == PollBackoff then 1 else 0
  }

  lemma StepCounts(s: State, e: CommandLoop.Event)
    ensures Advance(s, e).failures ==
            if e.Polled? && s.at.Polling? then 0 else s.failures + if e.PollSlept? && s.at == PollBackoff then 1 else 0
  {
    hide VerdictFor, CommandBooks.Step, Acceptable;
  }

  /** The wait after a failed poll is chosen by how many failed in a row. */
  lemma {:induction false} FailuresAreCounted(max: nat, events: seq<CommandLoop.Event>)
    ensures CommandLoop.Run(max, events).failures == FailuresInARow(max, events)
  {
    if events != [] {
      hide Advance;
      FailuresAreCounted(max, events[..|events| - 1]);
      StepCounts(CommandLoop.Run(max, events[..|events| - 1]), events[|events| - 1]);
    }
  }

  function TimeOf(e: CommandLoop.Event): Option<int> {
    match e
    case TurnRuns(now) => Some(now)
    case NextRuns(now) => Some(now)
    case Reported(_, now) => Some(now)
    case Spaced(now) => Some(now)
    case _ => None
  }

  /** The clock does not go back from the `from`th event on, nor reads less than `start`. */
  ghost predicate ClockFrom(events: seq<CommandLoop.Event>, from: nat, start: int) {
    forall i, j :: from <= i <= j < |events| && TimeOf(events[i]).Some? && TimeOf(events[j]).Some? ==>
      start <= TimeOf(events[i]).value <= TimeOf(events[j]).value
  }

  /** The loop is still within what began with the poll at `t`, or a second of it has passed. */
  ghost predicate Spaces(at: At, t: int, passed: bool) {
    || passed
    || at == Polling(t)
    || (HasBatch(at) && at.batch.startedAt == t)
    || (at.Spacing? && t + MIN_POLL_SPACING_MS <= at.until)
    || at == Returned
  }

  lemma SpacesStep(s: State, e: CommandLoop.Event, t: int)
    requires Spaces(s.at, t, false) && !Advance(s, e).aborted && !e.Poked? && !e.PollError?
    requires TimeOf(e).Some? ==> t <= TimeOf(e).value
    ensures Spaces(Advance(s, e).at, t, TimeOf(e).Some? && t + MIN_POLL_SPACING_MS <= TimeOf(e).value)
  {
    hide VerdictFor, CommandBooks.Step, Acceptable;
  }

  ghost predicate SecondPassed(events: seq<CommandLoop.Event>, from: nat, t: int) {
    exists i :: from <= i < |events| && TimeOf(events[i]).Some? && t + MIN_POLL_SPACING_MS <= TimeOf(events[i]).value
  }

  lemma {:induction false} SpacesThrough(max: nat, events: seq<CommandLoop.Event>, from: nat, t: int)
    requires from < |events| && PollBegins(CommandLoop.Run(max, events[..from]), events[from]) && events[from].now == t
    requires ClockFrom(events, from, t) && !CommandLoop.Run(max, events).aborted
    requires forall i :: from < i < |events| ==> !events[i].Poked? && !events[i].PollError?
    ensures Spaces(CommandLoop.Run(max, events).at, t, SecondPassed(events, from, t))
  {
    hide Advance;
    var n := |events| - 1;
    if n == from {
      OnePoll(CommandLoop.Run(max, events[..n]), events[n]);
    } else {
      var before := events[..n];
      assert before[..from] == events[..from];
      assert forall i :: 0 <= i < n ==> before[i] == events[i];
      AbortStays(CommandLoop.Run(max, before), events[n]);
      SpacesThrough(max, before, from, t);
      if SecondPassed(before, from, t) {
        var i :| from <= i < n && TimeOf(before[i]).Some? && t + MIN_POLL_SPACING_MS <= TimeOf(before[i]).value;
        assert events[i] == before[i];
      } else {
        SpacesStep(CommandLoop.Run(max, before), events[n], t);
      }
    }
  }

  lemma OnePoll(s: State, e: CommandLoop.Event)
    requires PollBegins(s, e)
    ensures Advance(s, e).at == Polling(e.now)
  {
  }

  lemma AbortStays(s: State, e: CommandLoop.Event)
    requires !Advance(s, e).aborted
    ensures !s.aborted
  {
    hide VerdictFor, CommandBooks.Step, Acceptable;
  }

  /** Two polls are at least a second apart, unless a hint ended the wait or a poll failed in between. */
  lemma PollsAreSpaced(max: nat, events: seq<CommandLoop.Event>, i: nat, j: nat)
    requires i < j < |events|
    requires PollBegins(CommandLoop.Run(max, events[..i]), events[i])
    requires PollBegins(CommandLoop.Run(max, events[..j]), events[j])
    requires ClockFrom(events, i, events[i].now)
    requires forall k :: i < k < j ==> !events[k].Poked? && !events[k].PollError?
    ensures events[i].now + MIN_POLL_SPACING_MS <= events[j].now
  {
    hide CommandLoop.Run;
    var t, before := events[i].now, events[..j];
    assert before[..i] == events[..i];
    assert forall k :: 0 <= k < j ==> before[k] == events[k];
    SpacesThrough(max, before, i, t);
    var k :| i <= k < j && TimeOf(before[k]).Some? && t + MIN_POLL_SPACING_MS <= TimeOf(before[k]).value;
    assert TimeOf(events[k]).value <= TimeOf(events[j]).value;
  }
}
