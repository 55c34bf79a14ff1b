/**
 * One world layer's read-and-send loop (agent/src/worldReader.ts), as the state it is suspended in and one step per
 * synchronous segment. A conveyors loop is `nudgeable`: a changed building set cuts its sleep short. `held` is what the
 * backend last accepted; a request it does not accept changes nothing there. Items are their serialised text.
 */
module WorldLayers {
  import opened Wrappers

  const CONVEYORS_INTERVAL_MS: int := 600_000
  const CONVEYORS_NUDGE_MIN_GAP_MS: int := 60_000

  datatype Body = Skipped(reason: string) | Data(items: string)

  datatype ReadResult = ReadFailed | ReadSkip(reason: string) | ReadItems(items: string)

  datatype Answer = Accepted | AuthRejected | Refused | Transient

  datatype At =
    | Ready
    | Reading
    | Posting(body: Body)
    | BackingOff(body: Body)
    | Asleep(until: int)                      // the regular schedule
    | NudgeableSleep(until: int, woken: bool) // the regular schedule, cut short by a nudge
    | GapSleep(until: int)                    // the rest of the minute since the last read began
    | Returned

  /** The hash of the layer's items, and whether the body with them is over MAP_WORLD_LAYER_MAX_BYTES. */
  datatype Layer = Layer(nudgeable: bool, hash: string -> int, tooBig: string -> bool)

  datatype State = State(
    at: At,
    aborted: bool,
    sentHash: Option<int>,
    skipSent: Option<string>,
    readFailing: bool,
    nudged: bool,
    setHash: Option<int>,
    lastReadAt: int,
    // history
    held: Option<Body>,
    lastRead: ReadResult,
    sentThisCycle: bool,
    changedSinceRead: bool,
    readStarts: seq<int>,
    clock: int,
    requests: nat,
    authRejected: bool)

  const INITIAL: State :=
    State(Ready, false, None, None, false, false, None, 0,
          None, ReadFailed, false, false, [], 0, 0, false)

  /** `sleepConveyors` from the point where the loop knows it was nudged. */
  function WaitOutGap(s: State, now: int): At {
    var gapMs := s.lastReadAt + CONVEYORS_NUDGE_MIN_GAP_MS - now;
    if gapMs > 0 then GapSleep(now + gapMs) else Ready
  }

  /** The loop after `await this.cycle(...)`: stop, or sleep `delayMs`. */
  function AfterCycle(l: Layer, s: State, delayMs: int, now: int): At {
    if s.aborted then Returned
    else if l.nudgeable && !s.readFailing then
      if s.nudged then WaitOutGap(s, now) else NudgeableSleep(now + delayMs, false)
    else Asleep(now + delayMs)
  }

  function CycleDone(l: Layer, s: State, delayMs: int, now: int): State {
    s.(at := AfterCycle(l, s, delayMs, now))
  }

  /** A read begins; a nudge from before it is answered by it. */
  function BeginRead(l: Layer, s: State, now: int): State {
    s.(at := Reading,
       nudged := s.nudged && !l.nudgeable, lastReadAt := if l.nudgeable then now else s.lastReadAt,
       readStarts := s.readStarts + [now], changedSinceRead := false, sentThisCycle := false)
  }

  /** One turn of the loop, up to the read. */
  function Turn(l: Layer, s: State, now: int): State {
    if s.at != Ready then s
    else if s.aborted then s.(at := Returned)
    else BeginRead(l, s, now)
  }

  /** `send` up to its first request, or nothing when the reader has stopped. */
  function Send(l: Layer, s: State, body: Body, delayMs: int, now: int): State {
    if s.aborted then CycleDone(l, s, delayMs, now)
    else s.(at := Posting(body), requests := s.requests + 1, sentThisCycle := true)
  }

  /** The rest of `cycle` once the read has settled. */
  function ReadSettled(l: Layer, s: State, read: ReadResult, delayMs: int, now: int): State {
    if s.at != Reading then s
    else
      var s1 := s.(lastRead := read, readFailing := read.ReadFailed?);
      match read
      case ReadFailed => CycleDone(l, s1, delayMs, now)
      case ReadSkip(reason) =>
        if s1.skipSent == Some(reason) then CycleDone(l, s1, delayMs, now)
        else Send(l, s1, Skipped(reason), delayMs, now)
      case ReadItems(items) =>
        var s2 := s1.(skipSent := None);
        if s2.sentHash == Some(l.hash(items)) || l.tooBig(items) then CycleDone(l, s2, delayMs, now)
        else Send(l, s2, Data(items), delayMs, now)
  }

  function Accept(l: Layer, s: State, body: Body): State {
    s.(held := Some(body),
       skipSent := if body.Skipped? then Some(body.reason) else s.skipSent,
       sentHash := if body.Skipped? then None else Some(l.hash(body.items)))
  }

  function PostSettled(l: Layer, s: State, a: Answer, delayMs: int, now: int): State {
    if !s.at.Posting? then s
    else
      var body := s.at.body;
      match a
      case Accepted => CycleDone(l, Accept(l, s, body), delayMs, now)
      case _ =>
        if s.aborted then CycleDone(l, s, delayMs, now)
        else
          match a
          case AuthRejected => CycleDone(l, s.(aborted := true, authRejected := true), delayMs, now)
          case Refused => CycleDone(l, s, delayMs, now)
          case _ => s.(at := BackingOff(body))
  }

  function BackoffEnds(l: Layer, s: State, delayMs: int, now: int): State {
    if s.at.BackingOff? then Send(l, s, s.at.body, delayMs, now) else s
  }

  /** A sleep ends when its time is up, at a stop, or (a nudgeable one) at a nudge. */
  function Wakes(s: State, now: int): At {
    match s.at
    case Asleep(until) => if until <= now || s.aborted then Ready else s.at
    case GapSleep(until) => if until <= now || s.aborted then Ready else s.at
    case NudgeableSleep(until, woken) =>
      if !(until <= now || s.aborted || woken) then s.at
      else if s.aborted || !s.nudged then Ready
      else WaitOutGap(s, now)
    case _ => s.at
  }

  function SleepEnds(s: State, now: int): State {
    s.(at := Wakes(s, now))
  }

  /** `observeFactoryBuildings`: the first set is a baseline, an unchanged one changes nothing. */
  function Observe(s: State, hash: int): State {
    if s.setHash.None? || s.setHash == Some(hash) then s.(setHash := Some(hash))
    else
      s.(setHash := Some(hash), nudged := true, changedSinceRead := true,
         at := if s.at.NudgeableSleep? then NudgeableSleep(s.at.until, true) else s.at)
  }

  function Abort(s: State): State {
    s.(aborted := true)
  }

  /** `delayMs` is the jittered interval drawn should the cycle end in this segment. */
  datatype Event =
    | TurnRuns
    | ReadDone(read: ReadResult, delayMs: int)
    | PostDone(answer: Answer, delayMs: int)
    | BackoffDone(delayMs: int)
    | SleepDone
    | Observed(hash: int)
    | Stopped

  function Step(l: Layer, s: State, e: Event, now: int): State {
    var s1 := s.(clock := now);
    match e
    case TurnRuns => Turn(l, s1, now)
    case ReadDone(read, delayMs) => ReadSettled(l, s1, read, delayMs, now)
    case PostDone(a, delayMs) => PostSettled(l, s1, a, delayMs, now)
    case BackoffDone(delayMs) => BackoffEnds(l, s1, delayMs, now)
    case SleepDone => SleepEnds(s1, now)
    case Observed(hash) => Observe(s1, hash)
    case Stopped => Abort(s1)
  }

  datatype Stamped = Stamped(event: Event, now: int)

  function Run(l: Layer, events: seq<Stamped>): State {
    if events == [] then INITIAL
    else
      var last := events[|events| - 1];
      Step(l, Run(l, events[..|events| - 1]), last.event, last.now)
  }

  /** ±10% of the interval (`jitteredIntervalMs`); a random source outside [0, 1] is clamped. */
  function JitteredIntervalMs(baseMs: int, random: real): int {
    var r := if random < 0.0 then 0.0 else if random > 1.0 then 1.0 else random;
    (baseMs as real * (0.9 + r * 0.2) + 0.5).Floor
  }

  lemma ConveyorsDelay(random: real)
    ensures 540_000 <= JitteredIntervalMs(CONVEYORS_INTERVAL_MS, random) <= 660_000
  {
  }

  /** It spreads evenly over that range: the ends for a source at or past its ends, and in proportion between. */
  lemma DelaySpreads(a: real, b: real)
    requires 0.0 <= a <= b <= 1.0
    ensures forall r :: r <= 0.0 ==> JitteredIntervalMs(CONVEYORS_INTERVAL_MS, r) == 540_000
    ensures forall r :: r >= 1.0 ==> JitteredIntervalMs(CONVEYORS_INTERVAL_MS, r) == 660_000
    ensures var x, y := JitteredIntervalMs(CONVEYORS_INTERVAL_MS, a), JitteredIntervalMs(CONVEYORS_INTERVAL_MS, b);
            120_000.0 * (b - a) - 1.0 <= (y - x) as real <= 120_000.0 * (b - a) + 1.0
  {
  }

  // ----- the backend holds what the reader remembers -----

  ghost predicate InCycle(at: At) {
    at.Posting? || at.BackingOff?
  }

  /** What the reader remembers as accepted is what the backend holds. */
  ghost predicate Agrees(l: Layer, s: State) {
    && (s.sentHash.Some? ==> s.held.Some? && s.held.value.Data? && l.hash(s.held.value.items) == s.sentHash.value)
    && (s.skipSent.Some? ==> s.held == Some(Skipped(s.skipSent.value)))
  }

  predicate Sleeping(at: At) {
    at.Asleep? || at.NudgeableSleep? || at.GapSleep?
  }

  /** The read of a cycle that sent nothing needed no sending: it failed, is held already, or is over the cap. */
  ghost predicate NothingToSend(l: Layer, s: State) {
    match s.lastRead
    case ReadFailed => true
    case ReadSkip(reason) => s.held == Some(Skipped(reason))
    case ReadItems(items) =>
      || (s.held.Some? && s.held.value.Data? && l.hash(s.held.value.items) == l.hash(items))
      || l.tooBig(items)
  }

  ghost predicate Inv(l: Layer, s: State) {
    && Agrees(l, s)
    && (InCycle(s.at) ==> s.sentThisCycle && (s.at.body.Data? ==> s.skipSent.None?))
    && (s.at == Reading ==> !s.sentThisCycle)
    && (Sleeping(s.at) && !s.sentThisCycle ==> NothingToSend(l, s))
  }

  /** Ending a cycle moves only the loop. */
  lemma CycleSettles(l: Layer, s: State, delayMs: int, now: int)
    requires Agrees(l, s) && (s.sentThisCycle || NothingToSend(l, s))
    ensures Inv(l, CycleDone(l, s, delayMs, now))
  {
  }

  lemma SendSettles(l: Layer, s: State, body: Body, delayMs: int, now: int)
    requires Agrees(l, s) && (body.Data? ==> s.skipSent.None?)
    ensures Inv(l, Send(l, s, body, delayMs, now))
  {
  }

  lemma ReadKeeps(l: Layer, s: State, read: ReadResult, delayMs: int, now: int)
    requires Inv(l, s)
    ensures Inv(l, ReadSettled(l, s, read, delayMs, now))
  {
    hide CycleDone, Inv, Send;
    if s.at == Reading {
      AgreesOf(l, s);
      var s1 := s.(lastRead := read, readFailing := read.ReadFailed?);
      match read {
        case ReadFailed => CycleSettles(l, s1, delayMs, now);
        case ReadSkip(reason) =>
          if s1.skipSent == Some(reason) { CycleSettles(l, s1, delayMs, now); }
          else { SendSettles(l, s1, Skipped(reason), delayMs, now); }
        case ReadItems(items) =>
          var s2 := s1.(skipSent := None);
          if s2.sentHash == Some(l.hash(items)) || l.tooBig(items) { CycleSettles(l, s2, delayMs, now); }
          else { SendSettles(l, s2, Data(items), delayMs, now); }
      }
    }
  }

  lemma AgreesOf(l: Layer, s: State)
    requires Inv(l, s)
    ensures Agrees(l, s)
    ensures InCycle(s.at) ==> s.sentThisCycle && (s.at.body.Data? ==> s.skipSent.None?)
  {
  }

  lemma PostKeeps(l: Layer, s: State, a: Answer, delayMs: int, now: int)
    requires Inv(l, s)
    ensures Inv(l, PostSettled(l, s, a, delayMs, now))
  {
    if s.at.Posting? {
      AgreesOf(l, s);
      hide CycleDone, Inv;
      if a == Accepted { CycleSettles(l, Accept(l, s, s.at.body), delayMs, now); }
      else if s.aborted { CycleSettles(l, s, delayMs, now); }
      else if a == AuthRejected { CycleSettles(l, s.(aborted := true, authRejected := true), delayMs, now); }
      else if a == Refused { CycleSettles(l, s, delayMs, now); }
      else { BackoffSettles(l, s); }
    }
  }

  lemma BackoffSettles(l: Layer, s: State)
    requires Inv(l, s) && s.at.Posting?
    ensures Inv(l, s.(at := BackingOff(s.at.body)))
  {
  }

  lemma TurnKeeps(l: Layer, s: State, now: int)
    requires Inv(l, s)
    ensures Inv(l, Turn(l, s, now))
  {
  }

  /** Building sets and the stop signal say nothing about what the backend holds; between two cycles only the loop moves. */
  lemma BetweenReads(l: Layer, s: State, s1: State)
    requires Inv(l, s)
    requires s1.sentHash == s.sentHash && s1.skipSent == s.skipSent && s1.held == s.held
    requires s1.lastRead == s.lastRead && s1.sentThisCycle == s.sentThisCycle
    requires s1.at == s.at || (Sleeping(s.at) && (Sleeping(s1.at) || s1.at == Ready))
    ensures Inv(l, s1)
  {
  }

  lemma SleepKeeps(l: Layer, s: State, now: int)
    requires Inv(l, s)
    ensures Inv(l, SleepEnds(s, now))
  {
    hide Inv;
    BetweenReads(l, s, SleepEnds(s, now));
  }

  lemma ObserveKeeps(l: Layer, s: State, hash: int)
    requires Inv(l, s)
    ensures Inv(l, Observe(s, hash))
  {
    hide Inv;
    BetweenReads(l, s, Observe(s, hash));
  }

  lemma StepKeeps(l: Layer, s: State, e: Event, now: int)
    requires Inv(l, s)
    ensures Inv(l, Step(l, s, e, now))
  {
    hide Inv, CycleDone, ReadSettled, PostSettled, Turn, SleepEnds, Observe, Send;
    var s1 := s.(clock := now);
    BetweenReads(l, s, s1);
    match e {
      case ReadDone(read, delayMs) => ReadKeeps(l, s1, read, delayMs, now);
      case PostDone(a, delayMs) => PostKeeps(l, s1, a, delayMs, now);
      case BackoffDone(delayMs) =>
        if s.at.BackingOff? {
          AgreesOf(l, s1);
          SendSettles(l, s1, s.at.body, delayMs, now);
        }
      case TurnRuns => TurnKeeps(l, s1, now);
      case SleepDone => SleepKeeps(l, s1, now);
      case Observed(hash) => ObserveKeeps(l, s1, hash);
      case Stopped => BetweenReads(l, s1, Abort(s1));
    }
  }

  lemma {:induction false} RunKeeps(l: Layer, events: seq<Stamped>)
    ensures Inv(l, Run(l, events))
  {
    if events != [] {
      var last := events[|events| - 1];
      RunKeeps(l, events[..|events| - 1]);
      StepKeeps(l, Run(l, events[..|events| - 1]), last.event, last.now);
    }
  }

  ghost predicate Injective(hash: string -> int) {
    forall a, b :: hash(a) == hash(b) ==> a == b
  }

  /** `sentHash` and `skipSent`, when set, name the body the backend last accepted. */
  lemma RememberedIsHeld(l: Layer, events: seq<Stamped>)
    requires Injective(l.hash)
    ensures var s := Run(l, events);
            && (forall items :: s.sentHash == Some(l.hash(items)) ==> s.held == Some(Data(items)))
            && (forall reason :: s.skipSent == Some(reason) ==> s.held == Some(Skipped(reason)))
  {
    hide Run;
    RunKeeps(l, events);
  }

  /** A cycle that sent nothing for a read that is a skip, or fits the cap, left the backend holding just that read. */
  lemma SilentCycleIsCurrent(l: Layer, events: seq<Stamped>)
    requires Injective(l.hash)
    requires Sleeping(Run(l, events).at) && !Run(l, events).sentThisCycle
    ensures var s := Run(l, events);
            match s.lastRead
            case ReadFailed => true
            case ReadSkip(reason) => s.held == Some(Skipped(reason))
            case ReadItems(items) => l.tooBig(items) || s.held == Some(Data(items))
  {
    hide Run;
    RunKeeps(l, events);
  }

  // ----- nudges -----

  /** The clock never goes back, and a conveyors delay is at least the nudge gap. */
  ghost predicate Timely(events: seq<Stamped>) {
    && (forall i, j :: 0 <= i <= j < |events| ==> events[i].now <= events[j].now)
    && (forall i :: 0 <= i < |events| ==> DelayOk(events[i].event))
  }

  ghost predicate DelayOk(e: Event) {
    match e
    case ReadDone(_, delayMs) => CONVEYORS_NUDGE_MIN_GAP_MS <= delayMs
    case PostDone(_, delayMs) => CONVEYORS_NUDGE_MIN_GAP_MS <= delayMs
    case BackoffDone(delayMs) => CONVEYORS_NUDGE_MIN_GAP_MS <= delayMs
    case _ => true
  }

  ghost predicate Gapped(starts: seq<int>) {
    forall i :: 0 <= i && i + 1 < |starts| ==> starts[i] + CONVEYORS_NUDGE_MIN_GAP_MS <= starts[i + 1]
  }

  ghost predicate NudgeInv(s: State, now: int) {
    && Gapped(s.readStarts)
    && (s.readStarts != [] ==> s.lastReadAt == s.readStarts[|s.readStarts| - 1] <= now)
    && (s.nudged <==> s.changedSinceRead)
    && (s.readStarts == [] ==> s.at == Ready || s.at == Returned)
    && var soonest := s.lastReadAt + CONVEYORS_NUDGE_MIN_GAP_MS;
    match s.at
    case Ready => s.readStarts == [] || s.aborted || soonest <= now
    case Asleep(until) => soonest <= until && s.readFailing
    case GapSleep(until) => until == soonest && s.nudged
    case NudgeableSleep(until, woken) => soonest <= until && (woken <==> s.nudged)
    case _ => true
  }

  lemma CycleNudge(l: Layer, s: State, delayMs: int, now: int)
    requires l.nudgeable && s.readStarts != [] && CONVEYORS_NUDGE_MIN_GAP_MS <= delayMs
    requires NudgeInv(s.(at := Reading), now)
    ensures NudgeInv(CycleDone(l, s, delayMs, now), now)
  {
  }

  lemma SendNudge(l: Layer, s: State, body: Body, delayMs: int, now: int)
    requires l.nudgeable && s.readStarts != [] && CONVEYORS_NUDGE_MIN_GAP_MS <= delayMs
    requires NudgeInv(s.(at := Reading), now)
    ensures NudgeInv(Send(l, s, body, delayMs, now), now)
  {
    if s.aborted { CycleNudge(l, s, delayMs, now); }
  }

  lemma NudgeKept(l: Layer, s: State, e: Event, before: int, now: int)
    requires l.nudgeable && DelayOk(e) && before <= now
    requires NudgeInv(s, before)
    ensures NudgeInv(Step(l, s, e, now), now)
  {
    hide CycleDone, ReadSettled, PostSettled, Turn, SleepEnds, Observe, Send;
    var s1 := s.(clock := now);
    assert NudgeInv(s1, now);
    match e {
      case TurnRuns => TurnNudge(l, s1, now);
      case ReadDone(read, delayMs) => ReadNudge(l, s1, read, delayMs, now);
      case PostDone(a, delayMs) => PostNudge(l, s1, a, delayMs, now);
      case BackoffDone(delayMs) =>
        if s.at.BackingOff? { SendNudge(l, s1, s.at.body, delayMs, now); }
      case SleepDone => SleepNudge(s1, now);
      case Observed(hash) => ObserveNudge(s1, hash, now);
      case Stopped =>
    }
  }

  lemma TurnNudge(l: Layer, s: State, now: int)
    requires l.nudgeable && NudgeInv(s, now)
    ensures NudgeInv(Turn(l, s, now), now)
  {
  }

  lemma SleepNudge(s: State, now: int)
    requires NudgeInv(s, now)
    ensures NudgeInv(SleepEnds(s, now), now)
  {
  }

  lemma ObserveNudge(s: State, hash: int, now: int)
    requires NudgeInv(s, now)
    ensures NudgeInv(Observe(s, hash), now)
  {
  }

  lemma ReadNudge(l: Layer, s: State, read: ReadResult, delayMs: int, now: int)
    requires l.nudgeable && CONVEYORS_NUDGE_MIN_GAP_MS <= delayMs && NudgeInv(s, now)
    ensures NudgeInv(ReadSettled(l, s, read, delayMs, now), now)
  {
    hide CycleDone, Send;
    if s.at == Reading {
      var s1 := s.(lastRead := read, readFailing := read.ReadFailed?);
      match read {
        case ReadFailed => CycleNudge(l, s1, delayMs, now);
        case ReadSkip(reason) =>
          if s1.skipSent == Some(reason) { CycleNudge(l, s1, delayMs, now); }
          else { SendNudge(l, s1, Skipped(reason), delayMs, now); }
        case ReadItems(items) =>
          var s2 := s1.(skipSent := None);
          if s2.sentHash == Some(l.hash(items)) || l.tooBig(items) { CycleNudge(l, s2, delayMs, now); }
          else { SendNudge(l, s2, Data(items), delayMs, now); }
      }
    }
  }

  lemma AcceptAside(l: Layer, s: State, body: Body, now: int)
    requires NudgeInv(s, now) && s.at.Posting?
    ensures Accept(l, s, body).readStarts == s.readStarts
    ensures NudgeInv(Accept(l, s, body).(at := Reading), now)
  {
  }

  lemma PostNudge(l: Layer, s: State, a: Answer, delayMs: int, now: int)
    requires l.nudgeable && CONVEYORS_NUDGE_MIN_GAP_MS <= delayMs && NudgeInv(s, now)
    ensures NudgeInv(PostSettled(l, s, a, delayMs, now), now)
  {
    hide CycleDone, Accept;
    if s.at.Posting? {
      AcceptAside(l, s, s.at.body, now);
      if a == Accepted { CycleNudge(l, Accept(l, s, s.at.body), delayMs, now); }
      else if s.aborted { CycleNudge(l, s, delayMs, now); }
      else if a == AuthRejected { CycleNudge(l, s.(aborted := true, authRejected := true), delayMs, now); }
      else if a == Refused { CycleNudge(l, s, delayMs, now); }
    }
  }

  lemma {:induction false} NudgeRun(l: Layer, events: seq<Stamped>, now: int)
    requires l.nudgeable && Timely(events)
    requires events != [] ==> events[|events| - 1].now <= now
    ensures NudgeInv(Run(l, events), now)
  {
    if events != [] {
      var n := |events| - 1;
      NudgeRun(l, events[..n], events[n].now);
      NudgeKept(l, Run(l, events[..n]), events[n].event, events[n].now, events[n].now);
      assert NudgeInv(Run(l, events), events[n].now);
    }
  }

  /** Consecutive conveyor reads start at least CONVEYORS_NUDGE_MIN_GAP_MS apart, whatever nudges come. */
  lemma ReadsKeepTheGap(l: Layer, events: seq<Stamped>, i: nat)
    requires l.nudgeable && Timely(events)
    requires i + 1 < |Run(l, events).readStarts|
    ensures Run(l, events).readStarts[i] + CONVEYORS_NUDGE_MIN_GAP_MS <= Run(l, events).readStarts[i + 1]
  {
    hide Run;
    NudgeRun(l, events, if events == [] then 0 else events[|events| - 1].now);
  }

  /**
   * No nudge is lost: a change observed since the last read began is remembered until the next one begins, and never sits
   * out the regular schedule behind a read that worked. Awake it waits at most for the minute since that read began.
   */
  lemma NoNudgeIsLost(l: Layer, events: seq<Stamped>, now: int)
    requires l.nudgeable && Timely(events)
    requires events != [] ==> events[|events| - 1].now <= now
    requires Run(l, events).changedSinceRead
    ensures var s := Run(l, events);
            && s.nudged
            && (s.at.NudgeableSleep? ==> s.at.woken && !SleepEnds(s, now).at.NudgeableSleep?)
            && (s.at.GapSleep? ==> s.at.until == s.lastReadAt + CONVEYORS_NUDGE_MIN_GAP_MS)
            && (s.at.Asleep? ==> s.readFailing)
            && (!s.aborted && s.lastReadAt + CONVEYORS_NUDGE_MIN_GAP_MS <= now && (s.at.GapSleep? || s.at.NudgeableSleep?) ==>
                  SleepEnds(s, now).at == Ready && Turn(l, SleepEnds(s, now), now).at == Reading
                  && !Turn(l, SleepEnds(s, now), now).changedSinceRead)
  {
    hide Run;
    NudgeRun(l, events, now);
  }

  // ----- the reader's fields -----

  /** One layer's loop: its `LayerState` and, for conveyors, the reader's nudge fields. The ghost fields are history. */
  class LayerLoop {
    const layer: Layer
    var at: At
    var aborted: bool
    var sentHash: Option<int>
    var skipSent: Option<string>
    var readFailing: bool
    var nudged: bool
    var setHash: Option<int>
    var lastReadAt: int
    ghost var held: Option<Body>
    ghost var lastRead: ReadResult
    ghost var sentThisCycle: bool
    ghost var changedSinceRead: bool
    ghost var readStarts: seq<int>
    ghost var clock: int
    ghost var requests: nat
    ghost var authRejected: bool

    ghost function View(): State
      reads this
    {
      State(at, aborted, sentHash, skipSent, readFailing, nudged, setHash, lastReadAt,
            held, lastRead, sentThisCycle, changedSinceRead, readStarts, clock, requests, authRejected)
    }

    constructor (layer: Layer)
      ensures this.layer == layer && View() == INITIAL
    {
      this.layer := layer;
      at, aborted, sentHash, skipSent, readFailing := Ready, false, None, None, false;
      nudged, setHash, lastReadAt := false, None, 0;
      held, lastRead, sentThisCycle, changedSinceRead := None, ReadFailed, false, false;
      readStarts, clock, requests, authRejected := [], 0, 0, false;
    }

    method StartRead(now: int)
      modifies this
      ensures View() == BeginRead(layer, old(View()), now)
    {
      if layer.nudgeable { nudged, lastReadAt := false, now; }
      readStarts, changedSinceRead, sentThisCycle := readStarts + [now], false, false;
      at := Reading;
    }

    method RunTurn(now: int)
      modifies this
      ensures View() == Turn(layer, old(View()), now)
    {
      hide BeginRead;
      if at == Ready {
        if aborted { at := Returned; } else { StartRead(now); }
      }
    }

    method EndCycle(delayMs: int, now: int)
      modifies this`at
      ensures View() == CycleDone(layer, old(View()), delayMs, now)
    {
      if aborted { at := Returned; return; }
      if layer.nudgeable && !readFailing { SleepConveyors(delayMs, now); } else { at := Asleep(now + delayMs); }
    }

    method SleepConveyors(delayMs: int, now: int)
      modifies this`at
      ensures at == if nudged then WaitOutGap(old(View()), now) else NudgeableSleep(now + delayMs, false)
    {
      if !nudged { at := NudgeableSleep(now + delayMs, false); } else { SleepOutGap(now); }
    }

    method SleepOutGap(now: int)
      modifies this`at
      ensures at == WaitOutGap(old(View()), now)
    {
      var gapMs := lastReadAt + CONVEYORS_NUDGE_MIN_GAP_MS - now;
      if gapMs > 0 { at := GapSleep(now + gapMs); } else { at := Ready; }
    }

    method BeginSend(body: Body, delayMs: int, now: int)
      modifies this
      ensures View() == Send(layer, old(View()), body, delayMs, now)
    {
      if aborted { EndCycle(delayMs, now); return; }
      requests, sentThisCycle := requests + 1, true;
      at := Posting(body);
    }

    method AfterRead(read: ReadResult, delayMs: int, now: int)
      modifies this
      ensures View() == ReadSettled(layer, old(View()), read, delayMs, now)
    {
      hide CycleDone, Send;
      if at != Reading { return; }
      lastRead := read;
      readFailing := read.ReadFailed?;
      match read {
        case ReadFailed => EndCycle(delayMs, now);
        case ReadSkip(reason) =>
          if skipSent != Some(reason) { BeginSend(Skipped(reason), delayMs, now); } else { EndCycle(delayMs, now); }
        case ReadItems(items) =>
          skipSent := None;
          if sentHash == Some(layer.hash(items)) { EndCycle(delayMs, now); }
          else if layer.tooBig(items) { EndCycle(delayMs, now); }
          else { BeginSend(Data(items), delayMs, now); }
      }
    }

    method Remember(body: Body)
      modifies this
      ensures View() == Accept(layer, old(View()), body)
    {
      held := Some(body);
      match body {
        case Skipped(reason) => skipSent, sentHash := Some(reason), None;
        case Data(items) => sentHash := Some(layer.hash(items));
      }
    }

    method AfterPost(a: Answer, delayMs: int, now: int)
      modifies this
      ensures View() == PostSettled(layer, old(View()), a, delayMs, now)
    {
      hide CycleDone, Accept;
      if !at.Posting? { return; }
      var body := at.body;
      if a == Accepted {
        Remember(body);
        EndCycle(delayMs, now);
      } else if aborted { EndCycle(delayMs, now); }
      else {
        match a {
          case AuthRejected =>
            aborted, authRejected := true, true;
            EndCycle(delayMs, now);
          case Refused => EndCycle(delayMs, now);
          case Transient => at := BackingOff(body);
        }
      }
    }

    method AfterBackoff(delayMs: int, now: int)
      modifies this
      ensures View() == BackoffEnds(layer, old(View()), delayMs, now)
    {
      if at.BackingOff? { BeginSend(at.body, delayMs, now); }
    }

    method AfterSleep(now: int)
      modifies this
      ensures View() == SleepEnds(old(View()), now)
    {
      match at {
        case Asleep(until) => if until <= now || aborted { at := Ready; }
        case GapSleep(until) => if until <= now || aborted { at := Ready; }
        case NudgeableSleep(until, woken) =>
          if until <= now || aborted || woken {
            if aborted || !nudged { at := Ready; } else { SleepOutGap(now); }
          }
        case _ =>
      }
    }

    method ObserveFactoryBuildings(hash: int)
      modifies this
      ensures View() == Observe(old(View()), hash)
    {
      var before := setHash;
      setHash := Some(hash);
      if before.None? || before == Some(hash) { return; }
      nudged, changedSinceRead := true, true;
      if at.NudgeableSleep? { at := NudgeableSleep(at.until, true); }
    }

    method OnStop()
      modifies this
      ensures View() == Abort(old(View()))
    {
      aborted := true;
    }

    /** One segment of the loop, at its clock reading. */
    method Segment(e: Event, now: int)
      modifies this
      ensures View() == Step(layer, old(View()), e, now)
    {
      hide Turn, ReadSettled, PostSettled, BackoffEnds, SleepEnds, Observe, Abort;
      clock := now;
      match e {
        case TurnRuns => RunTurn(now);
        case ReadDone(read, delayMs) => AfterRead(read, delayMs, now);
        case PostDone(a, delayMs) => AfterPost(a, delayMs, now);
        case BackoffDone(delayMs) => AfterBackoff(delayMs, now);
        case SleepDone => AfterSleep(now);
        case Observed(hash) => ObserveFactoryBuildings(hash);
        case Stopped => OnStop();
      }
    }
  }
}
