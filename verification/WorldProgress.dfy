/**
 * What a world layer's loop does next (agent/src/worldReader.ts), over every run and from its events alone: which changes of
 * the building set are noted, that each is answered by a read, what a read sends, and that the loop goes on.
 */
module WorldProgress {
  import opened Wrappers
  import opened WorldLayers

  lemma NextIs(l: Layer, events: seq<Stamped>, e: Stamped)
    ensures Run(l, events + [e]) == Step(l, Run(l, events), e.event, e.now)
  {
    assert (events + [e])[..|events|] == events;
  }

  // ----- which changes are noted -----

  /** The hash of the last building set observed. */
  ghost function SetSeen(events: seq<Stamped>): Option<int> {
    if events == [] then None
    else
      var last := events[|events| - 1].event;
      if last.Observed? then Some(last.hash) else SetSeen(events[..|events| - 1])
  }

  /** The step begins a read. */
  ghost predicate Begins(s: State, e: Event) {
    e.TurnRuns? && s.at == Ready && !s.aborted
  }

  /** A set that differs from the one before it was observed, and no read has begun since. */
  ghost predicate Unread(l: Layer, events: seq<Stamped>) {
    events != [] &&
    var before, last := events[..|events| - 1], events[|events| - 1].event;
    || (last.Observed? && SetSeen(before).Some? && SetSeen(before) != Some(last.hash))
    || (Unread(l, before) && !Begins(Run(l, before), last))
  }

  /** When the reads began. */
  ghost function ReadsBegun(l: Layer, events: seq<Stamped>): seq<int> {
    if events == [] then []
    else
      var before, last := events[..|events| - 1], events[|events| - 1];
      ReadsBegun(l, before) + if Begins(Run(l, before), last.event) then [last.now] else []
  }

  /** A segment that neither observes a set nor begins a read. */
  ghost predicate NotesNothing(s: State, r: State) {
    && r.changedSinceRead == s.changedSinceRead && r.setHash == s.setHash && r.readStarts == s.readStarts
    && r.lastReadAt == s.lastReadAt
  }

  lemma SendNotes(l: Layer, s: State, body: Body, delayMs: int, now: int)
    ensures NotesNothing(s, CycleDone(l, s, delayMs, now)) && NotesNothing(s, Send(l, s, body, delayMs, now))
  {
    hide AfterCycle;
  }

  lemma ReadNotes(l: Layer, s: State, read: ReadResult, delayMs: int, now: int)
    ensures NotesNothing(s, ReadSettled(l, s, read, delayMs, now))
  {
    hide CycleDone, Send;
    if s.at == Reading {
      var s1 := s.(lastRead := read, readFailing := read.ReadFailed?);
      match read {
        case ReadFailed => SendNotes(l, s1, Data(""), delayMs, now);
        case ReadSkip(reason) => SendNotes(l, s1, Skipped(reason), delayMs, now);
        case ReadItems(items) => SendNotes(l, s1.(skipSent := None), Data(items), delayMs, now);
      }
    }
  }

  lemma PostNotes(l: Layer, s: State, a: Answer, delayMs: int, now: int)
    ensures NotesNothing(s, PostSettled(l, s, a, delayMs, now))
  {
    hide CycleDone;
    if s.at.Posting? {
      SendNotes(l, Accept(l, s, s.at.body), Data(""), delayMs, now);
      SendNotes(l, s, Data(""), delayMs, now);
      SendNotes(l, s.(aborted := true, authRejected := true), Data(""), delayMs, now);
    }
  }

  lemma TurnNotes(l: Layer, s: State, now: int)
    ensures var r := Turn(l, s, now);
            if Begins(s, TurnRuns) then
              && r.setHash == s.setHash && r.readStarts == s.readStarts + [now] && r.at == Reading && !r.changedSinceRead
              && r.lastReadAt == (if l.nudgeable then now else s.lastReadAt)
            else NotesNothing(s, r)
  {
  }

  lemma ObserveNotes(s: State, hash: int)
    ensures var r := Observe(s, hash);
            && r.setHash == Some(hash) && r.readStarts == s.readStarts && r.lastReadAt == s.lastReadAt
            && (r.changedSinceRead <==> s.changedSinceRead || (s.setHash.Some? && s.setHash != Some(hash)))
  {
  }

  lemma SleepNotes(s: State, now: int)
    ensures NotesNothing(s, SleepEnds(s, now))
  {
    hide Wakes;
  }

  /** What a step does to what the loop notes. */
  lemma StepNotes(l: Layer, s: State, e: Event, now: int)
    ensures var r := Step(l, s, e, now);
            && r.setHash == (if e.Observed? then Some(e.hash) else s.setHash)
            && r.readStarts == s.readStarts + (if Begins(s, e) then [now] else [])
            && r.lastReadAt == (if Begins(s, e) && l.nudgeable then now else s.lastReadAt)
            && (Begins(s, e) ==> r.at == Reading)
            && (r.changedSinceRead <==>
                  || (e.Observed? && s.setHash.Some? && s.setHash != Some(e.hash))
                  || (s.changedSinceRead && !Begins(s, e)))
  {
    hide CycleDone, Send, SleepEnds, ReadSettled, PostSettled, Turn, Observe;
    assert s.readStarts + [] == s.readStarts;
    var s1 := s.(clock := now);
    match e {
      case TurnRuns => TurnNotes(l, s1, now);
      case ReadDone(read, delayMs) => ReadNotes(l, s1, read, delayMs, now);
      case PostDone(a, delayMs) => PostNotes(l, s1, a, delayMs, now);
      case BackoffDone(delayMs) => if s.at.BackingOff? { SendNotes(l, s1, s.at.body, delayMs, now); }
      case SleepDone => SleepNotes(s1, now);
      case Observed(hash) => ObserveNotes(s1, hash);
      case Stopped =>
    }
  }

  /**
   * The loop notes exactly the changes observed since its last read began; it remembers the last set and, for the conveyors,
   * when that read began.
   */
  lemma {:induction false} ChangesAreNoted(l: Layer, events: seq<Stamped>)
    ensures var s := Run(l, events);
            && s.setHash == SetSeen(events)
            && (s.changedSinceRead <==> Unread(l, events))
            && s.readStarts == ReadsBegun(l, events)
            && s.lastReadAt == if l.nudgeable && s.readStarts != [] then s.readStarts[|s.readStarts| - 1] else 0
  {
    if events != [] {
      hide Step, Begins;
      var n := |events| - 1;
      ChangesAreNoted(l, events[..n]);
      StepNotes(l, Run(l, events[..n]), events[n].event, events[n].now);
      assert ReadsBegun(l, events[..n]) + [] == ReadsBegun(l, events[..n]);
    }
  }

  /** A first set, or one equal to the last, moves nothing but what is remembered of it. */
  lemma SameSetChangesNothing(l: Layer, events: seq<Stamped>, hash: int, now: int)
    requires SetSeen(events).None? || SetSeen(events) == Some(hash)
    ensures Run(l, events + [Stamped(Observed(hash), now)]) == Run(l, events).(setHash := Some(hash), clock := now)
  {
    NextIs(l, events, Stamped(Observed(hash), now));
    ChangesAreNoted(l, events);
  }

  /** A changed set moves no more than the note of it, and wakes the regular sleep between two reads. */
  lemma ChangedSetIsNoted(l: Layer, events: seq<Stamped>, hash: int, now: int)
    requires SetSeen(events).Some? && SetSeen(events) != Some(hash)
    ensures var s, r := Run(l, events), Run(l, events + [Stamped(Observed(hash), now)]);
            r == s.(setHash := Some(hash), clock := now, nudged := true, changedSinceRead := true,
                    at := if s.at.NudgeableSleep? then NudgeableSleep(s.at.until, true) else s.at)
  {
    NextIs(l, events, Stamped(Observed(hash), now));
    ChangesAreNoted(l, events);
  }

  // ----- a noted change is not slept through -----

  /**
   * A change not yet read for ends the regular sleep at once; then the loop reads as soon as the gap since its last read began
   * is over. Only a loop whose last read failed keeps its regular schedule.
   */
  lemma ChangeCutsTheSleep(l: Layer, events: seq<Stamped>, now: int)
    requires l.nudgeable && Timely(events) && Unread(l, events) && !Run(l, events).aborted
    requires events != [] ==> events[|events| - 1].now <= now
    requires !Run(l, events).readFailing && Sleeping(Run(l, events).at)
    ensures var due := Run(l, events).lastReadAt + CONVEYORS_NUDGE_MIN_GAP_MS;
            var r := Run(l, events + [Stamped(SleepDone, now)]);
            r.at == if due <= now then Ready else GapSleep(due)
  {
    NextIs(l, events, Stamped(SleepDone, now));
    ChangesAreNoted(l, events);
    NudgeRun(l, events, now);
    NoNudgeIsLost(l, events, now);
    hide Run, Unread, Timely;
  }

  // ----- the loop goes on -----

  /** How many moves a loop has at most before its next read. */
  ghost function MovesLeft(at: At): nat {
    match at
    case Reading => 5
    case Posting(_) => 4
    case BackingOff(_) => 4
    case NudgeableSleep(_, _) => 3
    case Asleep(_) => 2
    case GapSleep(_) => 2
    case Ready => 1
    case Returned => 0
  }

  /** The sleep is over: its time is up, or it is the regular one and a change has come that no read answered. */
  ghost predicate Due(at: At, unread: bool, now: int) {
    match at
    case Asleep(until) => until <= now
    case GapSleep(until) => until <= now
    case NudgeableSleep(until, _) => until <= now || unread
    case _ => false
  }

  /** What the loop waits for has come. A post that failed for now, and its retry, are not counted. */
  ghost predicate Moves(s: State, unread: bool, e: Event, now: int) {
    match e
    case TurnRuns => s.at == Ready
    case ReadDone(_, _) => s.at == Reading
    case PostDone(a, _) => s.at.Posting? && a != Transient
    case SleepDone => Due(s.at, unread, now)
    case _ => false
  }

  /** How often what the loop waits for comes from step `from` on. */
  ghost function MovesFrom(l: Layer, events: seq<Stamped>, from: nat): nat {
    if |events| <= from then 0
    else
      var before, last := events[..|events| - 1], events[|events| - 1];
      MovesFrom(l, before, from) + if Moves(Run(l, before), Unread(l, before), last.event, last.now) then 1 else 0
  }

  ghost predicate ReadBegan(l: Layer, events: seq<Stamped>, from: nat) {
    exists k :: from <= k < |events| && Begins(Run(l, events[..k]), events[k].event)
  }

  /** A regular sleep that can be cut short knows of a change as soon as there is one; a loop that returned was stopped. */
  ghost predicate Wakeful(l: Layer, s: State) {
    && (l.nudgeable ==> (s.nudged <==> s.changedSinceRead))
    && (s.at.NudgeableSleep? ==> l.nudgeable && (s.at.woken <==> s.nudged))
    && (s.at == Returned ==> s.aborted)
  }

  lemma CycleWakeful(l: Layer, s: State, body: Body, delayMs: int, now: int)
    requires Wakeful(l, s.(at := Reading))
    ensures var r := CycleDone(l, s, delayMs, now);
            Wakeful(l, r) && r.aborted == s.aborted && MovesLeft(r.at) <= 3
    ensures var r := Send(l, s, body, delayMs, now);
            && Wakeful(l, r) && r.aborted == s.aborted && MovesLeft(r.at) <= 4
            && (!s.aborted ==> r.at == Posting(body) && r.requests == s.requests + 1)
  {
  }

  lemma ReadWakeful(l: Layer, s: State, read: ReadResult, delayMs: int, now: int)
    requires Wakeful(l, s) && s.at == Reading
    ensures var r := ReadSettled(l, s, read, delayMs, now);
            Wakeful(l, r) && r.aborted == s.aborted && MovesLeft(r.at) <= 4
  {
    hide CycleDone, Send;
    var s1 := s.(lastRead := read, readFailing := read.ReadFailed?);
    match read {
      case ReadFailed => CycleWakeful(l, s1, Data(""), delayMs, now);
      case ReadSkip(reason) => CycleWakeful(l, s1, Skipped(reason), delayMs, now);
      case ReadItems(items) => CycleWakeful(l, s1.(skipSent := None), Data(items), delayMs, now);
    }
  }

  lemma PostWakeful(l: Layer, s: State, a: Answer, delayMs: int, now: int)
    requires Wakeful(l, s) && s.at.Posting?
    ensures var r := PostSettled(l, s, a, delayMs, now);
            && Wakeful(l, r) && (s.aborted ==> r.aborted)
            && MovesLeft(r.at) <= (if a == Transient && !s.aborted then 4 else 3)
  {
    hide CycleDone;
    CycleWakeful(l, Accept(l, s, s.at.body), Data(""), delayMs, now);
    CycleWakeful(l, s, Data(""), delayMs, now);
    CycleWakeful(l, s.(aborted := true, authRejected := true), Data(""), delayMs, now);
  }

  lemma ElsewhereNothing(l: Layer, s: State, e: Event, delayMs: int, now: int)
    ensures e.ReadDone? && s.at != Reading ==> ReadSettled(l, s, e.read, e.delayMs, now) == s
    ensures e.PostDone? && !s.at.Posting? ==> PostSettled(l, s, e.answer, e.delayMs, now) == s
  {
  }

  lemma SleepMoves(l: Layer, s: State, now: int)
    requires Wakeful(l, s)
    ensures var r := SleepEnds(s, now);
            && Wakeful(l, r) && r.aborted == s.aborted
            && MovesLeft(r.at) + (if Due(s.at, s.changedSinceRead, now) then 1 else 0) <= MovesLeft(s.at)
  {
  }

  lemma ObserveMoves(l: Layer, s: State, hash: int)
    requires Wakeful(l, s)
    ensures var r := Observe(s, hash);
            Wakeful(l, r) && r.aborted == s.aborted && MovesLeft(r.at) == MovesLeft(s.at)
  {
  }

  /** A step begins a read, stops the loop, or lowers what is left by one if it is a move. */
  lemma StepMoves(l: Layer, s: State, e: Event, now: int)
    requires Wakeful(l, s)
    ensures var r := Step(l, s, e, now);
            && Wakeful(l, r) && (s.aborted ==> r.aborted)
            && (|| r.aborted || Begins(s, e)
                || MovesLeft(r.at) + (if Moves(s, s.changedSinceRead, e, now) then 1 else 0) <= MovesLeft(s.at))
  {
    hide CycleDone, ReadSettled, PostSettled, Send, SleepEnds, Observe, Due;
    var s1 := s.(clock := now);
    match e {
      case SleepDone => SleepMoves(l, s1, now);
      case Observed(hash) => ObserveMoves(l, s1, hash);
      case ReadDone(read, delayMs) =>
        if s.at == Reading { ReadWakeful(l, s1, read, delayMs, now); } else { ElsewhereNothing(l, s1, e, delayMs, now); }
      case PostDone(a, delayMs) =>
        if s.at.Posting? { PostWakeful(l, s1, a, delayMs, now); } else { ElsewhereNothing(l, s1, e, delayMs, now); }
      case BackoffDone(delayMs) => if s.at.BackingOff? { CycleWakeful(l, s1, s.at.body, delayMs, now); }
      case _ =>
    }
  }

  lemma {:induction false} RunWakeful(l: Layer, events: seq<Stamped>)
    ensures Wakeful(l, Run(l, events))
  {
    if events != [] {
      hide Step, Wakeful;
      var n := |events| - 1;
      RunWakeful(l, events[..n]);
      StepMoves(l, Run(l, events[..n]), events[n].event, events[n].now);
    } else {
      hide Step;
    }
  }

  /** A sleep ends exactly when it is due, or at a stop; ending by its time alone, the loop reads next. */
  lemma SleepsEndWhenDue(l: Layer, events: seq<Stamped>, now: int)
    requires Sleeping(Run(l, events).at)
    ensures var s, r := Run(l, events), Run(l, events + [Stamped(SleepDone, now)]);
            && (r.at != s.at <==> s.aborted || Due(s.at, Unread(l, events), now))
            && (s.aborted || (!Unread(l, events) && s.at.until <= now) ==> r.at == Ready)
            && (!s.at.NudgeableSleep? && s.at.until <= now ==> r.at == Ready)
            && r == s.(at := r.at, clock := now)
  {
    NextIs(l, events, Stamped(SleepDone, now));
    RunWakeful(l, events);
    ChangesAreNoted(l, events);
    hide Run, Unread;
  }

  lemma BeganEarlier(l: Layer, events: seq<Stamped>, from: nat)
    requires events != [] && ReadBegan(l, events[..|events| - 1], from)
    ensures ReadBegan(l, events, from)
  {
    var before := events[..|events| - 1];
    var k :| from <= k < |before| && Begins(Run(l, before[..k]), before[k].event);
    assert before[..k] == events[..k];
  }

  lemma {:induction false} MovesAreUsed(l: Layer, events: seq<Stamped>, from: nat)
    requires from <= |events| && !Run(l, events).aborted
    ensures || ReadBegan(l, events, from)
            || MovesLeft(Run(l, events).at) + MovesFrom(l, events, from) <= MovesLeft(Run(l, events[..from]).at)
  {
    if |events| == from {
      assert events[..from] == events;
    } else {
      hide Step, Moves, Begins, MovesLeft, Unread, Wakeful;
      var n := |events| - 1;
      var s := Run(l, events[..n]);
      RunWakeful(l, events[..n]);
      ChangesAreNoted(l, events[..n]);
      StepMoves(l, s, events[n].event, events[n].now);
      assert events[..n][..from] == events[..from];
      MovesAreUsed(l, events[..n], from);
      if ReadBegan(l, events[..n], from) { BeganEarlier(l, events, from); }
    }
  }

  /**
   * A layer that is not stopped is read again: once what the loop waits for has come five times, retried posts aside, a read
   * has begun. For the conveyors a change not yet read for counts as what the regular sleep waits for.
   */
  lemma ReadWithinFiveMoves(l: Layer, events: seq<Stamped>, from: nat)
    requires from <= |events| && 5 <= MovesFrom(l, events, from) && !Run(l, events).aborted
    ensures ReadBegan(l, events, from)
  {
    hide Run, MovesFrom, ReadBegan;
    MovesAreUsed(l, events, from);
    RunWakeful(l, events);
  }

  /** A set observed to differ from the last one is answered: five moves later a read has begun, unless the loop was stopped. */
  lemma ChangedSetIsRead(l: Layer, events: seq<Stamped>, i: nat)
    requires i < |events| && events[i].event.Observed?
    requires SetSeen(events[..i]).Some? && SetSeen(events[..i]) != Some(events[i].event.hash)
    requires 5 <= MovesFrom(l, events, i + 1) && !Run(l, events).aborted
    ensures Unread(l, events[..i + 1]) && ReadBegan(l, events, i + 1)
  {
    assert events[..i + 1][..i] == events[..i];
    ReadWithinFiveMoves(l, events, i + 1);
  }

  /** A change unread after `i` steps and no longer after `j` was answered by a read that began in between. */
  lemma {:induction false} ChangeIsAnsweredByARead(l: Layer, events: seq<Stamped>, i: nat, j: nat) returns (k: nat)
    requires i <= j <= |events|
    requires Run(l, events[..i]).changedSinceRead && !Run(l, events[..j]).changedSinceRead
    ensures i <= k < j && Begins(Run(l, events[..k]), events[k].event) && Run(l, events[..k + 1]).at == Reading
    decreases j
  {
    hide Step, Begins;
    var n := j - 1;
    assert events[..j][..n] == events[..n];
    if Run(l, events[..n]).changedSinceRead {
      StepNotes(l, Run(l, events[..n]), events[n].event, events[n].now);
      k := n;
    } else {
      k := ChangeIsAnsweredByARead(l, events, i, n);
    }
  }

  // ----- what a read sends -----

  /** The hash of the graph the backend holds, none when it holds a skip or nothing. */
  ghost function HeldHash(l: Layer, held: Option<Body>): Option<int> {
    if held.Some? && held.value.Data? then Some(l.hash(held.value.items)) else None
  }

  ghost predicate HoldsSame(s: State, r: State) {
    r.sentHash == s.sentHash && r.held == s.held
  }

  lemma SendHolds(l: Layer, s: State, body: Body, delayMs: int, now: int)
    ensures HoldsSame(s, CycleDone(l, s, delayMs, now)) && HoldsSame(s, Send(l, s, body, delayMs, now))
  {
    hide AfterCycle;
  }

  lemma ReadHolds(l: Layer, s: State, read: ReadResult, delayMs: int, now: int)
    ensures HoldsSame(s, ReadSettled(l, s, read, delayMs, now))
  {
    hide CycleDone, Send;
    if s.at == Reading {
      var s1 := s.(lastRead := read, readFailing := read.ReadFailed?);
      match read {
        case ReadFailed => SendHolds(l, s1, Data(""), delayMs, now);
        case ReadSkip(reason) => SendHolds(l, s1, Skipped(reason), delayMs, now);
        case ReadItems(items) => SendHolds(l, s1.(skipSent := None), Data(items), delayMs, now);
      }
    }
  }

  lemma PostHolds(l: Layer, s: State, a: Answer, delayMs: int, now: int)
    requires s.sentHash == HeldHash(l, s.held)
    ensures var r := PostSettled(l, s, a, delayMs, now); r.sentHash == HeldHash(l, r.held)
  {
    hide CycleDone;
    if s.at.Posting? {
      SendHolds(l, Accept(l, s, s.at.body), Data(""), delayMs, now);
      SendHolds(l, s, Data(""), delayMs, now);
      SendHolds(l, s.(aborted := true, authRejected := true), Data(""), delayMs, now);
    }
  }

  lemma StepHolds(l: Layer, s: State, e: Event, now: int)
    requires s.sentHash == HeldHash(l, s.held)
    ensures Step(l, s, e, now).sentHash == HeldHash(l, Step(l, s, e, now).held)
  {
    hide CycleDone, Send, HeldHash, ReadSettled, PostSettled, Wakes;
    var s1 := s.(clock := now);
    match e {
      case ReadDone(read, delayMs) => ReadHolds(l, s1, read, delayMs, now);
      case PostDone(a, delayMs) => PostHolds(l, s1, a, delayMs, now);
      case BackoffDone(delayMs) => if s.at.BackingOff? { SendHolds(l, s1, s.at.body, delayMs, now); }
      case _ =>
    }
  }

  lemma {:induction false} RunHolds(l: Layer, events: seq<Stamped>)
    ensures Run(l, events).sentHash == HeldHash(l, Run(l, events).held)
  {
    if events != [] {
      hide Step, HeldHash;
      var n := |events| - 1;
      RunHolds(l, events[..n]);
      StepHolds(l, Run(l, events[..n]), events[n].event, events[n].now);
    }
  }

  /** A read's items are posted exactly when they fit the cap and are not what the backend holds; a failed read posts nothing. */
  lemma ChangedItemsAreSent(l: Layer, events: seq<Stamped>, items: string, delayMs: int, now: int)
    requires Run(l, events).at == Reading && !Run(l, events).aborted
    ensures var s, r := Run(l, events), Run(l, events + [Stamped(ReadDone(ReadItems(items), delayMs), now)]);
            if !l.tooBig(items) && HeldHash(l, s.held) != Some(l.hash(items)) then
              r.at == Posting(Data(items)) && r.requests == s.requests + 1
            else (Sleeping(r.at) || r.at == Ready) && r.requests == s.requests
    ensures var s, r := Run(l, events), Run(l, events + [Stamped(ReadDone(ReadFailed, delayMs), now)]);
            r.at == Asleep(now + delayMs) && r.requests == s.requests
  {
    NextIs(l, events, Stamped(ReadDone(ReadItems(items), delayMs), now));
    NextIs(l, events, Stamped(ReadDone(ReadFailed, delayMs), now));
    RunHolds(l, events);
    hide Run, HeldHash;
  }

  /** A skip is posted unless it was accepted in this streak of skips; one the backend does not hold always is. */
  lemma NewSkipIsSent(l: Layer, events: seq<Stamped>, reason: string, delayMs: int, now: int)
    requires Run(l, events).at == Reading && !Run(l, events).aborted
    ensures var s, r := Run(l, events), Run(l, events + [Stamped(ReadDone(ReadSkip(reason), delayMs), now)]);
            && (Run(l, events).held != Some(Skipped(reason)) ==> s.skipSent != Some(reason))
            && r.skipSent == s.skipSent
            && if s.skipSent != Some(reason) then r.at == Posting(Skipped(reason)) && r.requests == s.requests + 1
               else (Sleeping(r.at) || r.at == Ready) && r.requests == s.requests
  {
    NextIs(l, events, Stamped(ReadDone(ReadSkip(reason), delayMs), now));
    WorldLayers.RunKeeps(l, events);
    hide Run;
  }

  /** What is accepted is what the backend holds; what failed for now is posted again, the same body; a refusal ends the cycle. */
  lemma PostIsSettled(l: Layer, events: seq<Stamped>, d1: int, d2: int, t1: int, t2: int)
    requires Run(l, events).at.Posting? && !Run(l, events).aborted
    ensures var s := Run(l, events);
            var accepted := Run(l, events + [Stamped(PostDone(Accepted, d1), t1)]);
            && accepted.held == Some(s.at.body) && (Sleeping(accepted.at) || accepted.at == Ready)
            && accepted.skipSent == (if s.at.body.Skipped? then Some(s.at.body.reason) else s.skipSent)
    ensures var s := Run(l, events);
            var retried := Run(l, events + [Stamped(PostDone(Transient, d1), t1)] + [Stamped(BackoffDone(d2), t2)]);
            retried == s.(requests := s.requests + 1, sentThisCycle := true, clock := t2)
    ensures var s := Run(l, events);
            var refused := Run(l, events + [Stamped(PostDone(Refused, d1), t1)]);
            refused.held == s.held && refused.sentHash == s.sentHash && (Sleeping(refused.at) || refused.at == Ready)
  {
    NextIs(l, events, Stamped(PostDone(Accepted, d1), t1));
    NextIs(l, events, Stamped(PostDone(Transient, d1), t1));
    NextIs(l, events + [Stamped(PostDone(Transient, d1), t1)], Stamped(BackoffDone(d2), t2));
    NextIs(l, events, Stamped(PostDone(Refused, d1), t1));
    hide Run;
  }
}
