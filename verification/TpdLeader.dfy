/** The leader strategy of the TPD feed (`apps/pegasus/strategy/tpd_leader.go`), and its composition
    with the tracker in front of it.

    The staking plan is a parameter (the program's plan is the constant 1), the clock an input.
 */
module TpdLeader {
  import opened Racing
  import opened Wrappers
  import opened Tracker

  const MIN_RANKED_RUNNERS := 4

  datatype LeaderState = LeaderState(ignore: bool, betfairPlaced: bool, betmaticPlaced: bool, runningSince: Option<int>)

  const UNSEEN := LeaderState(false, false, false, None)

  type Leaders = map<string, LeaderState>

  /** One message as the strategy gets it. */
  datatype Message = Message(p: Progress, ref: RaceRef, betfairDelay: int, betmaticDelay: int, now: int)

  /** Conversion that truncates toward zero. */
  function Truncated(x: real): int {
    if x >= 0.0 then x.Floor else -(-x).Floor
  }

  /** Why the packet must not be bet on, as a yes or no. */
  predicate Blocked(p: Progress) {
    p.warnAssignment || p.warnStart || |p.order| < MIN_RANKED_RUNNERS
  }

  /** Milliseconds since the off: the feed's clock, or the local one when that stays at zero. */
  function Elapsed(m: Message, since: int): int {
    var e := Truncated(m.p.runningTime * 1_000_000_000.0);
    Milliseconds(if e <= 0 then m.now - since else e)
  }

  function StateOf(leaders: Leaders, key: string): LeaderState {
    if key in leaders then leaders[key] else UNSEEN
  }

  /** The race's state once a running message has started its local clock. */
  function Clocked(s: LeaderState, now: int): LeaderState {
    if s.runningSince.None? then s.(runningSince := Some(now)) else s
  }

  /** The race's clock reading for a message, in milliseconds. */
  function Reading(s: LeaderState, m: Message): int {
    Elapsed(m, Clocked(s, m.now).runningSince.value)
  }

  predicate BetfairReady(s: LeaderState, m: Message, ms: int) {
    !s.betfairPlaced && ms >= m.betfairDelay
  }

  predicate BetmaticReady(s: LeaderState, m: Message, ms: int) {
    !s.betmaticPlaced && ms >= m.betmaticDelay
  }

  /** A message that can be bet on, delays aside. */
  predicate Bettable(s: LeaderState, m: Message) {
    && !s.ignore && m.ref.status == Running && !Blocked(m.p)
    && m.p.order[0].Some? && m.p.order[0].value >= 1
  }

  predicate Bets(s: LeaderState, m: Message, ms: int, side: Side, plan: real -> real) {
    && Bettable(s, m) && plan(m.ref.distance) > 0.0
    && match side
       case BetmaticWin => BetmaticReady(s, m, ms)
       case BetfairBack => BetfairReady(s, m, ms)
       case BetfairLay => false
  }

  function Placed(s: LeaderState, side: Side): bool {
    match side
    case BetmaticWin => s.betmaticPlaced
    case BetfairBack => s.betfairPlaced
    case BetfairLay => false
  }

  predicate Refused(s: LeaderState, m: Message, ms: int, plan: real -> real) {
    Bettable(s, m) && (BetfairReady(s, m, ms) || BetmaticReady(s, m, ms)) && plan(m.ref.distance) <= 0.0
  }

  /** Whether prices for the race are still worth polling. */
  predicate Tracks(s: LeaderState, m: Message, ms: int, plan: real -> real) {
    && m.ref.status != Finished && !s.ignore
    && (m.ref.status == Running ==> !(s.betfairPlaced && s.betmaticPlaced) && !Refused(s, m, ms, plan))
  }

  /** What a message leaves of its race's state: a side is marked exactly when it is bet. */
  function Moved(s: LeaderState, m: Message, ms: int, plan: real -> real): LeaderState {
    if m.ref.status == Finished then UNSEEN
    else if s.ignore || m.ref.status != Running then s
    else Clocked(s, m.now).(
      ignore := Refused(s, m, ms, plan),
      betmaticPlaced := s.betmaticPlaced || Bets(s, m, ms, BetmaticWin, plan),
      betfairPlaced := s.betfairPlaced || Bets(s, m, ms, BetfairBack, plan))
  }

  /** The bets of a decision are those, and only those, the message is ready for. */
  ghost predicate Answers(d: Decision, s: LeaderState, m: Message, ms: int, plan: real -> real) {
    && OnePerSide(d.bets)
    && (forall side :: OnSide(d.bets, side) <==> Bets(s, m, ms, side, plan))
    && (forall b :: b in d.bets ==>
         && b.ref == m.ref
         && m.p.order != [] && Some(b.runner) == m.p.order[0] && b.unit == plan(m.ref.distance))
    && (d.tracking <==> Tracks(s, m, ms, plan))
  }

  class TpdLeader {
    var raceState: Leaders

    constructor ()
      ensures raceState == map[]
    {
      raceState := map[];
    }

    method Select(m: Message, plan: real -> real) returns (d: Decision)
      modifies this
      ensures var s := StateOf(old(raceState), m.ref.key);
              && Answers(d, s, m, Reading(s, m), plan)
              && StateOf(raceState, m.ref.key) == Moved(s, m, Reading(s, m), plan)
      ensures forall k :: k != m.ref.key ==> StateOf(raceState, k) == StateOf(old(raceState), k)
    {
      var key := m.ref.key;
      if m.ref.status == Finished {
        raceState := raceState - {key};
        return IDLE;
      }
      var state := if key in raceState then raceState[key] else UNSEEN;
      if state.ignore {
        return IDLE;
      }
      if m.ref.status != Running {
        raceState := raceState[key := state];
        return WATCHING;
      }
      if state.runningSince.None? {
        state := state.(runningSince := Some(m.now));
      }
      var elapsed := Truncated(m.p.runningTime * 1_000_000_000.0);
      if elapsed <= 0 {
        elapsed := m.now - state.runningSince.value;
      }
      state, d := SelectRunning(state, m, Milliseconds(elapsed), plan);
      raceState := raceState[key := state];
    }
  }

  /** The part of the selection behind a running message, on the race's own state. */
  method SelectRunning(before: LeaderState, m: Message, ms: int, plan: real -> real) returns (state: LeaderState, d: Decision)
    requires !before.ignore && before.runningSince.Some? && m.ref.status == Running
    ensures Answers(d, before, m, ms, plan)
    ensures state == Moved(before, m, ms, plan)
  {
    state, d := before, IDLE;
    if state.betfairPlaced && state.betmaticPlaced {
      return;
    }
    var betfairReady := !state.betfairPlaced && ms >= m.betfairDelay;
    var betmaticReady := !state.betmaticPlaced && ms >= m.betmaticDelay;
    d := WATCHING;
    if !betfairReady && !betmaticReady {
      return;
    }
    if Blocked(m.p) {
      return;
    }
    if m.p.order[0].None? || m.p.order[0].value < 1 {
      return;
    }
    var leader := m.p.order[0].value;
    var unit := plan(m.ref.distance);
    if unit <= 0.0 {
      state := state.(ignore := true);
      d := IDLE;
      return;
    }
    var bets := [];
    if betmaticReady {
      bets := bets + [Bet(m.ref, BetmaticWin, leader, unit)];
      state := state.(betmaticPlaced := true);
    }
    if betfairReady {
      bets := bets + [Bet(m.ref, BetfairBack, leader, unit)];
      state := state.(betfairPlaced := true);
    }
    d := Decision(bets, true);
    assert betmaticReady ==> bets[0].side == BetmaticWin;
    assert betfairReady ==> bets[|bets| - 1].side == BetfairBack;
  }

  // ----- one message

  /** A bet is placed only on a clean running packet, on its first-ranked runner, no earlier than
      the side's delay after the off, with a positive unit, and never twice from the same state. */
  lemma BetsOnlyOnCleanRunning(d: Decision, s: LeaderState, m: Message, ms: int, plan: real -> real, b: Bet)
    requires Answers(d, s, m, ms, plan) && b in d.bets
    ensures b.ref == m.ref && m.ref.status == Running && b.unit > 0.0
    ensures !m.p.warnAssignment && !m.p.warnStart && |m.p.order| >= MIN_RANKED_RUNNERS
    ensures m.p.order[0] == Some(b.runner) && b.runner >= 1
    ensures ms >= if b.side == BetmaticWin then m.betmaticDelay else m.betfairDelay
    ensures !Placed(s, b.side) && Placed(Moved(s, m, ms, plan), b.side)
  {
    var i :| 0 <= i < |d.bets| && d.bets[i] == b;
    assert OnSide(d.bets, b.side);
  }

  // ----- tracker and strategy together

  /** What happens in the application: the tracker takes an input, and the reference of an accepted
      packet reaches the strategy unless the inbox was full, to be handled in the order of arrival at a
      clock reading of its own; or the process is made anew, with a strategy that knows nothing
      (`kernel/process.go:139-150`, `apps/pegasus/process/process.go:64-82`), and when that is because
      the application was restarted, with a tracker that knows nothing either. */
  datatype Event =
    | Arrival(input: Input, kept: bool, betfairDelay: int, betmaticDelay: int, read: int)
    | Rebuild(restart: bool)

  /** The tracker's races, the strategy's state for one race, and the bets placed on one side of that
      race since the tracker last forgot it or the strategy was built. */
  datatype Pipeline = Pipeline(races: Races, leaders: LeaderState, placed: nat)

  function MessageOf(races: Races, e: Event): Message
    requires e.Arrival? && Out(races, e.input).Some?
  {
    Message(e.input.p, Out(races, e.input).value, e.betfairDelay, e.betmaticDelay, e.read)
  }

  function RacesAfter(races: Races, e: Event): Races {
    if e.Arrival? then Next(races, e.input) else if e.restart then map[] else races
  }

  /** The event puts a message of the race before the strategy. */
  predicate Delivers(s: Pipeline, e: Event, key: string) {
    e.Arrival? && About(e.input, key) && Accepts(s.races, e.input) && e.kept
  }

  /** That message bets the side. */
  predicate BetsSide(s: Pipeline, e: Event, key: string, side: Side, plan: real -> real) {
    && Delivers(s, e, key)
    && var m := MessageOf(s.races, e);
    Bets(s.leaders, m, Reading(s.leaders, m), side, plan)
  }

  /** That message tells the strategy that the race has finished. */
  predicate Finishes(s: Pipeline, e: Event, key: string) {
    Delivers(s, e, key) && MessageOf(s.races, e).ref.status == Finished
  }

  /** The tracker forgets the race: swept, or gone with the application. */
  predicate Forgets(s: Pipeline, e: Event, key: string) {
    key in s.races && key !in RacesAfter(s.races, e)
  }

  function Step(s: Pipeline, e: Event, key: string, side: Side, plan: real -> real): Pipeline {
    Pipeline(
      RacesAfter(s.races, e),
      if e.Rebuild? then UNSEEN
      else if Delivers(s, e, key) then
        Moved(s.leaders, MessageOf(s.races, e), Reading(s.leaders, MessageOf(s.races, e)), plan)
      else s.leaders,
      if e.Rebuild? || Forgets(s, e, key) then 0
      else s.placed + if BetsSide(s, e, key, side, plan) then 1 else 0)
  }

  function Run(events: seq<Event>, key: string, side: Side, plan: real -> real): Pipeline {
    if events == [] then Pipeline(map[], UNSEEN, 0)
    else Step(Run(events[..|events| - 1], key, side, plan), events[|events| - 1], key, side, plan)
  }

  predicate Latched(s: Pipeline, key: string, side: Side) {
    Placed(s.leaders, side) || HasFinished(s.races, key)
  }

  predicate AtMostOne(s: Pipeline, key: string, side: Side) {
    s.placed <= 1 && (s.placed == 1 ==> Latched(s, key, side))
  }

  lemma FinishedLatches(races: Races, input: Input, key: string)
    requires HasFinished(races, key) && key in Next(races, input)
    ensures HasFinished(Next(races, input), key)
    ensures About(input, key) && Accepts(races, input) ==> Out(races, input).value.status == Finished
  {}

  lemma StepKeepsBound(s: Pipeline, e: Event, key: string, side: Side, plan: real -> real)
    requires AtMostOne(s, key, side)
    ensures AtMostOne(Step(s, e, key, side, plan), key, side)
  {
    if e.Arrival? && HasFinished(s.races, key) && key in Next(s.races, e.input) {
      FinishedLatches(s.races, e.input, key);
    }
  }

  /** On every run, whatever the inbox drops, each side of a race is bet at most once by one strategy
      in one lifetime of the race in the tracker. */
  lemma {:induction false} AtMostOneBetPerLifetime(events: seq<Event>, key: string, side: Side, plan: real -> real)
    ensures AtMostOne(Run(events, key, side, plan), key, side)
  {
    if events != [] {
      AtMostOneBetPerLifetime(events[..|events| - 1], key, side, plan);
      StepKeepsBound(Run(events[..|events| - 1], key, side, plan), events[|events| - 1], key, side, plan);
    }
  }

  // ----- when a side is bet again

  predicate BetsAt(events: seq<Event>, i: nat, key: string, side: Side, plan: real -> real)
    requires i < |events|
  {
    BetsSide(Run(events[..i], key, side, plan), events[i], key, side, plan)
  }

  predicate FinishesAt(events: seq<Event>, i: nat, key: string, side: Side, plan: real -> real)
    requires i < |events|
  {
    Finishes(Run(events[..i], key, side, plan), events[i], key)
  }

  predicate ForgetsAt(events: seq<Event>, i: nat, key: string, side: Side, plan: real -> real)
    requires i < |events|
  {
    Forgets(Run(events[..i], key, side, plan), events[i], key)
  }

  /** The event clears the strategy's memory of the race: it hears of the finish, or is a new one. */
  predicate ClearsAt(events: seq<Event>, i: nat, key: string, side: Side, plan: real -> real)
    requires i < |events|
  {
    FinishesAt(events, i, key, side, plan) || events[i].Rebuild?
  }

  predicate NoClearing(events: seq<Event>, from: nat, key: string, side: Side, plan: real -> real) {
    forall f :: from <= f < |events| ==> !ClearsAt(events, f, key, side, plan)
  }

  /** The side was bet by this strategy, and since it last heard of a finish. */
  predicate BetSinceCleared(events: seq<Event>, key: string, side: Side, plan: real -> real) {
    exists i :: 0 <= i < |events| && BetsAt(events, i, key, side, plan) && NoClearing(events, i, key, side, plan)
  }

  lemma SamePast(events: seq<Event>, n: nat, i: nat, key: string, side: Side, plan: real -> real)
    requires i < n <= |events|
    ensures BetsAt(events[..n], i, key, side, plan) == BetsAt(events, i, key, side, plan)
    ensures FinishesAt(events[..n], i, key, side, plan) == FinishesAt(events, i, key, side, plan)
    ensures ForgetsAt(events[..n], i, key, side, plan) == ForgetsAt(events, i, key, side, plan)
  {
    assert events[..n][..i] == events[..i];
  }

  lemma NoClearingGrows(events: seq<Event>, from: nat, key: string, side: Side, plan: real -> real)
    requires events != [] && from < |events|
    ensures var n := |events| - 1;
            NoClearing(events, from, key, side, plan) <==>
              NoClearing(events[..n], from, key, side, plan) && !ClearsAt(events, n, key, side, plan)
  {
    var n := |events| - 1;
    forall f | from <= f < n ensures ClearsAt(events[..n], f, key, side, plan) == ClearsAt(events, f, key, side, plan) {
      SamePast(events, n, f, key, side, plan);
    }
  }

  /** One more event: bet now, or bet before and not cleared now. */
  lemma BetSinceClearedGrows(events: seq<Event>, key: string, side: Side, plan: real -> real)
    requires events != []
    ensures var n := |events| - 1;
            BetSinceCleared(events, key, side, plan) <==>
              !ClearsAt(events, n, key, side, plan) &&
              (BetsAt(events, n, key, side, plan) || BetSinceCleared(events[..n], key, side, plan))
  {
    var n := |events| - 1;
    forall i | 0 <= i < n
      ensures BetsAt(events[..n], i, key, side, plan) && NoClearing(events[..n], i, key, side, plan)
              && !ClearsAt(events, n, key, side, plan)
              <==> BetsAt(events, i, key, side, plan) && NoClearing(events, i, key, side, plan)
    {
      SamePast(events, n, i, key, side, plan);
      NoClearingGrows(events, i, key, side, plan);
    }
    NoClearingGrows(events, n, key, side, plan);
  }

  /** The strategy's mark on a side says exactly that. */
  lemma {:induction false} PlacedMeansBet(events: seq<Event>, key: string, side: Side, plan: real -> real)
    ensures Placed(Run(events, key, side, plan).leaders, side) <==> BetSinceCleared(events, key, side, plan)
  {
    if events != [] {
      PlacedMeansBet(events[..|events| - 1], key, side, plan);
      BetSinceClearedGrows(events, key, side, plan);
    }
  }

  /** The side's delay has passed when the message comes. */
  predicate DelayPassed(s: LeaderState, m: Message, side: Side) {
    match side
    case BetmaticWin => Reading(s, m) >= m.betmaticDelay
    case BetfairBack => Reading(s, m) >= m.betfairDelay
    case BetfairLay => false
  }

  /** When a message bets a side, on any run: exactly when this strategy has not bet the side since the
      last finish it heard of and the message is one to bet on, past its delay, with a stake to place. */
  lemma BetExactlyWhen(events: seq<Event>, e: Event, key: string, side: Side, plan: real -> real)
    requires Delivers(Run(events, key, side, plan), e, key)
    ensures var s := Run(events, key, side, plan);
            var m := MessageOf(s.races, e);
            BetsSide(s, e, key, side, plan) <==>
              && !BetSinceCleared(events, key, side, plan)
              && Bettable(s.leaders, m) && plan(m.ref.distance) > 0.0 && DelayPassed(s.leaders, m, side)
  {
    PlacedMeansBet(events, key, side, plan);
  }

  /** A race that has finished stays so until the tracker forgets it. */
  lemma {:induction false} FinishedUntilForgotten(events: seq<Event>, from: nat, key: string, side: Side, plan: real -> real)
    requires from <= |events| && HasFinished(Run(events[..from], key, side, plan).races, key)
    requires forall d :: from <= d < |events| ==> !ForgetsAt(events, d, key, side, plan)
    ensures HasFinished(Run(events, key, side, plan).races, key)
  {
    if from == |events| {
      assert events[..from] == events;
    } else {
      var n := |events| - 1;
      assert events[..n][..from] == events[..from];
      forall d | from <= d < n ensures !ForgetsAt(events[..n], d, key, side, plan) {
        SamePast(events, n, d, key, side, plan);
      }
      FinishedUntilForgotten(events[..n], from, key, side, plan);
      assert !ForgetsAt(events, n, key, side, plan);
      if events[n].Arrival? {
        FinishedLatches(Run(events[..n], key, side, plan).races, events[n].input, key);
      }
    }
  }

  /** A side bet twice was bet by two strategies, the process having been made anew in between, or on
      either side of a finish the strategy heard of and, after that, a sweep that made the tracker
      forget the race. */
  lemma RebetNeedsRebuildOrSweep(events: seq<Event>, i: nat, j: nat, key: string, side: Side, plan: real -> real)
    requires i < j < |events| && BetsAt(events, i, key, side, plan) && BetsAt(events, j, key, side, plan)
    ensures
      || (exists r :: i < r < j && events[r].Rebuild?)
      || (exists f, d ::
            && i < f < d < j && FinishesAt(events, f, key, side, plan)
            && events[d].Arrival? && events[d].input.Sweep? && ForgetsAt(events, d, key, side, plan))
  {
    var f := ClearedBetween(events, i, j, key, side, plan);
    if FinishesAt(events, f, key, side, plan) {
      var d := ForgottenBetween(events, f, j, key, side, plan);
    }
  }

  lemma ClearedBetween(events: seq<Event>, i: nat, j: nat, key: string, side: Side, plan: real -> real) returns (f: nat)
    requires i < j < |events| && BetsAt(events, i, key, side, plan) && BetsAt(events, j, key, side, plan)
    ensures i < f < j && ClearsAt(events, f, key, side, plan)
  {
    PlacedMeansBet(events[..j], key, side, plan);
    assert !BetSinceCleared(events[..j], key, side, plan);
    SamePast(events, j, i, key, side, plan);
    assert !NoClearing(events[..j], i, key, side, plan);
    f :| i <= f < j && ClearsAt(events[..j], f, key, side, plan);
    SamePast(events, j, f, key, side, plan);
  }

  lemma ForgottenBetween(events: seq<Event>, f: nat, j: nat, key: string, side: Side, plan: real -> real) returns (d: nat)
    requires f < j < |events| && FinishesAt(events, f, key, side, plan) && BetsAt(events, j, key, side, plan)
    ensures f < d < j && ForgetsAt(events, d, key, side, plan)
  {
    assert events[..f + 1][..f] == events[..f];
    assert HasFinished(Run(events[..f + 1], key, side, plan).races, key);
    assert !HasFinished(Run(events[..j], key, side, plan).races, key);
    if forall d :: f < d < j ==> !ForgetsAt(events, d, key, side, plan) {
      forall d | f < d < j ensures !ForgetsAt(events[..j], d, key, side, plan) {
        SamePast(events, j, d, key, side, plan);
      }
      assert events[..j][..f + 1] == events[..f + 1];
      FinishedUntilForgotten(events[..j], f + 1, key, side, plan);
      assert false;
    }
    d :| f < d < j && ForgetsAt(events, d, key, side, plan);
  }

  /** The clock never runs backwards, and a message is handled no earlier than it arrives. */
  predicate ClockAscends(events: seq<Event>) {
    && (forall i :: 0 <= i < |events| && events[i].Arrival? ==> events[i].input.now <= events[i].read)
    && (forall i, j :: 0 <= i <= j < |events| && events[i].Arrival? && events[j].Arrival? ==>
         events[i].input.now <= events[j].input.now && events[i].read <= events[j].read)
  }

  lemma RunFour(a: Event, b: Event, c: Event, d: Event, key: string, side: Side, plan: real -> real)
    ensures Run([a], key, side, plan) == Step(Run([], key, side, plan), a, key, side, plan)
    ensures Run([a, b], key, side, plan) == Step(Run([a], key, side, plan), b, key, side, plan)
    ensures Run([a, b, c], key, side, plan) == Step(Run([a, b], key, side, plan), c, key, side, plan)
    ensures var events := [a, b, c, d];
            events[..0] == [] && events[..1] == [a] && events[..2] == [a, b] && events[..3] == [a, b, c]
  {
    assert [a][..0] == [] && [a, b][..1] == [a] && [a, b, c][..2] == [a, b];
  }

  /** A packet of a race with four ranked runners, handled as it arrives. */
  function Seen(key: string, ref: RaceRef, timestamp: int, progress: real, now: int): Event {
    var p := Progress(key, Some(timestamp), 0.0, progress, [Some(1), Some(2), Some(3), Some(4)], false, false);
    Arrival(Packet(p, Some(ref), now), true, 0, 0, now)
  }

  /** A race seen for the first time, before a strategy that knows nothing of it, is bet. */
  lemma SeenFirstIsBet(s: Pipeline, key: string, ref: RaceRef, timestamp: int, now: int, plan: real -> real)
    requires s.leaders == UNSEEN && key !in s.races && timestamp > 0
    requires ref.distance > 10.0 && plan(ref.distance) > 0.0
    ensures var e := Seen(key, ref, timestamp, 1.0, now);
            var t := Step(s, e, key, BetmaticWin, plan);
            && BetsSide(s, e, key, BetmaticWin, plan)
            && t.races == s.races[key := Updated(RaceState(ref.(key := key), 0.0, false, 0, now), e.input.p, timestamp, now)]
  {}

  /** Both do happen: a race swept after its finish and seen again is bet a second time... */
  lemma SweptRaceIsBetAgain(key: string, ref: RaceRef, plan: real -> real)
    requires ref.distance > 10.0 && plan(ref.distance) > 0.0
    ensures exists events: seq<Event> ::
              && |events| == 4 && ClockAscends(events) && (forall k :: 0 <= k < 4 ==> events[k].Arrival?)
              && BetsAt(events, 0, key, BetmaticWin, plan) && BetsAt(events, 3, key, BetmaticWin, plan)
  {
    var off, finish := Seen(key, ref, 1, 1.0, 0), Seen(key, ref, 2, 0.0, 0);
    var sweep := Arrival(Sweep(RACE_EXPIRY + 1), true, 0, 0, RACE_EXPIRY + 1);
    var late := Seen(key, ref, 3, 1.0, RACE_EXPIRY + 2);
    var events := [off, finish, sweep, late];
    RunFour(off, finish, sweep, late, key, BetmaticWin, plan);
    var a := Run([off], key, BetmaticWin, plan);
    var b := Run([off, finish], key, BetmaticWin, plan);
    var c := Run([off, finish, sweep], key, BetmaticWin, plan);
    SeenFirstIsBet(Run([], key, BetmaticWin, plan), key, ref, 1, 0, plan);
    assert BetsAt(events, 0, key, BetmaticWin, plan);
    assert b.leaders == UNSEEN && key in b.races && b.races[key].touchedAt == 0;
    assert key !in c.races && c.leaders == UNSEEN;
    SeenFirstIsBet(c, key, ref, 3, RACE_EXPIRY + 2, plan);
    assert BetsAt(events, 3, key, BetmaticWin, plan);
  }

  /** ... and so is a race whose process is rebuilt while it runs, in one lifetime in the tracker, with
      neither a finish nor a sweep. */
  lemma RebuiltProcessBetsAgain(key: string, ref: RaceRef, plan: real -> real)
    requires ref.distance > 10.0 && plan(ref.distance) > 0.0
    ensures exists events: seq<Event> ::
              && |events| == 4 && ClockAscends(events)
              && BetsAt(events, 0, key, BetmaticWin, plan) && !BetsAt(events, 1, key, BetmaticWin, plan)
              && events[2].Rebuild? && BetsAt(events, 3, key, BetmaticWin, plan)
              && forall k :: 0 <= k < 4 ==>
                   !FinishesAt(events, k, key, BetmaticWin, plan) && !ForgetsAt(events, k, key, BetmaticWin, plan)
  {
    var off, next, last := Seen(key, ref, 1, 1.0, 0), Seen(key, ref, 2, 1.0, 1), Seen(key, ref, 3, 1.0, 2);
    var events := [off, next, Rebuild(false), last];
    RunFour(off, next, Rebuild(false), last, key, BetmaticWin, plan);
    var a := Run([off], key, BetmaticWin, plan);
    var b := Run([off, next], key, BetmaticWin, plan);
    var c := Run([off, next, Rebuild(false)], key, BetmaticWin, plan);
    assert BetsAt(events, 0, key, BetmaticWin, plan) && key in a.races && a.leaders.betmaticPlaced;
    assert !BetsAt(events, 1, key, BetmaticWin, plan) && key in b.races && !b.races[key].finished;
    assert c.races == b.races && c.leaders == UNSEEN;
    assert BetsAt(events, 3, key, BetmaticWin, plan);
  }
}
