/** What the leader strategy's bets come to on whole runs, without its own functions: the clock they wait
    by, the packets they are placed on and the races whose prices are polled
    (`apps/pegasus/strategy/tpd_leader.go`).
 */
module LeaderLaws {
  import opened Racing
  import opened Wrappers
  import opened Tracker
  import opened TpdLeader

  /** The reading of the clock at the first running message of the race this strategy heard, since it was
      made or last heard of a finish. */
  function HeardRunning(events: seq<Event>, key: string, side: Side, plan: real -> real): Option<int> {
    if events == [] then None
    else
      var n := |events| - 1;
      HeardAfter(HeardRunning(events[..n], key, side, plan), Run(events[..n], key, side, plan), events[n], key)
  }

  function HeardAfter(earlier: Option<int>, s: Pipeline, e: Event, key: string): Option<int> {
    if e.Rebuild? then None
    else if !Delivers(s, e, key) then earlier
    else if MessageOf(s.races, e).ref.status == Finished then None
    else if earlier.None? && MessageOf(s.races, e).ref.status == Running then Some(e.read)
    else earlier
  }

  /** A staking plan that never refuses, as the program's own. */
  ghost predicate Stakes(plan: real -> real) {
    forall distance :: plan(distance) > 0.0
  }

  ghost predicate Remembers(s: LeaderState, heard: Option<int>) {
    s.runningSince == heard && (s.ignore ==> heard.Some?)
  }

  lemma StepRemembers(s: Pipeline, e: Event, heard: Option<int>, key: string, side: Side, plan: real -> real)
    requires Remembers(s.leaders, heard)
    ensures Remembers(Step(s, e, key, side, plan).leaders, HeardAfter(heard, s, e, key))
    ensures Stakes(plan) && !s.leaders.ignore ==> !Step(s, e, key, side, plan).leaders.ignore
  {}

  /** The strategy's own clock runs from that message, later ones notwithstanding; and under a plan that
      never refuses no race is ever given up. */
  lemma {:induction false} ClockRunsFromFirst(events: seq<Event>, key: string, side: Side, plan: real -> real)
    ensures Remembers(Run(events, key, side, plan).leaders, HeardRunning(events, key, side, plan))
    ensures Stakes(plan) ==> !Run(events, key, side, plan).leaders.ignore
  {
    if events != [] {
      var n := |events| - 1;
      ClockRunsFromFirst(events[..n], key, side, plan);
      StepRemembers(Run(events[..n], key, side, plan), events[n], HeardRunning(events[..n], key, side, plan), key, side, plan);
    }
  }

  /** The delay has passed by the feed's running time, in seconds, when that is a nanosecond or more, and
      otherwise since the first running message heard, this one if it is. */
  predicate LongEnough(runningTime: real, first: Option<int>, now: int, delay: int) {
    if runningTime * 1_000_000_000.0 >= 1.0 then Passed((runningTime * 1_000_000_000.0).Floor, delay)
    else Passed(if first.Some? then now - first.value else 0, delay)
  }

  lemma TruncatesToFloor(x: real)
    ensures x >= 1.0 ==> Truncated(x) == x.Floor >= 1
    ensures x < 1.0 ==> Truncated(x) <= 0
  {}

  lemma ReadingIsLongEnough(s: LeaderState, m: Message, delay: int)
    ensures Reading(s, m) >= delay <==> LongEnough(m.p.runningTime, s.runningSince, m.now, delay)
  {
    var x := m.p.runningTime * 1_000_000_000.0;
    TruncatesToFloor(x);
    MillisecondsReach(Truncated(x), delay);
    MillisecondsReach(m.now - Clocked(s, m.now).runningSince.value, delay);
  }

  /** Of the feed's clock, that is the delay's milliseconds in the running time's seconds. */
  lemma FeedClock(runningTime: real, delay: int)
    requires delay > 0
    ensures Passed((runningTime * 1_000_000_000.0).Floor, delay) <==> runningTime * 1000.0 >= delay as real
  {
    var x := runningTime * 1_000_000_000.0;
    assert x.Floor >= delay * 1_000_000 <==> x >= (delay * 1_000_000) as real;
  }

  /** A packet to bet on: four or more ranked runners, no warning, and a first one with a number. */
  predicate Clean(p: Progress) {
    && !p.warnAssignment && !p.warnStart && |p.order| >= 4
    && match p.order[0] case Some(runner) => runner >= 1 case None => false
  }

  /** When a message bets a side, on any run: exactly when the race is running, the packet is clean, the
      side's delay has passed and this strategy has not bet the side since it last heard of a finish. */
  lemma BetsSpelledOut(events: seq<Event>, e: Event, key: string, side: Side, plan: real -> real)
    requires Stakes(plan) && side != BetfairLay && Delivers(Run(events, key, side, plan), e, key)
    ensures var s := Run(events, key, side, plan);
            BetsSide(s, e, key, side, plan) <==>
              && !BetSinceCleared(events, key, side, plan)
              && Out(s.races, e.input).value.status == Running && Clean(e.input.p)
              && LongEnough(e.input.p.runningTime, HeardRunning(events, key, side, plan), e.read,
                            if side == BetmaticWin then e.betmaticDelay else e.betfairDelay)
  {
    var s := Run(events, key, side, plan);
    var m := MessageOf(s.races, e);
    BetExactlyWhen(events, e, key, side, plan);
    ClockRunsFromFirst(events, key, side, plan);
    ReadingIsLongEnough(s.leaders, m, m.betmaticDelay);
    ReadingIsLongEnough(s.leaders, m, m.betfairDelay);
  }

  /** This strategy never lays. */
  lemma NeverLays(s: Pipeline, e: Event, key: string, plan: real -> real)
    ensures !BetsSide(s, e, key, BetfairLay, plan)
  {}

  /** What the strategy knows does not depend on the side whose bets are counted. */
  lemma {:induction false} SameLeaders(events: seq<Event>, key: string, side: Side, other: Side, plan: real -> real)
    ensures Run(events, key, side, plan).leaders == Run(events, key, other, plan).leaders
    ensures Run(events, key, side, plan).races == Run(events, key, other, plan).races
  {
    if events != [] {
      SameLeaders(events[..|events| - 1], key, side, other, plan);
    }
  }

  /** Prices are polled exactly for a race that is not finished, until it runs and both sides were bet. */
  lemma TrackingSpelledOut(events: seq<Event>, e: Event, key: string, plan: real -> real, d: Decision)
    requires Stakes(plan) && Delivers(Run(events, key, BetmaticWin, plan), e, key)
    requires var s := Run(events, key, BetmaticWin, plan);
             var m := MessageOf(s.races, e);
             Answers(d, s.leaders, m, Reading(s.leaders, m), plan)
    ensures var status := Out(Run(events, key, BetmaticWin, plan).races, e.input).value.status;
            d.tracking <==>
              && status != Finished
              && (status == Running ==>
                    !(BetSinceCleared(events, key, BetmaticWin, plan) && BetSinceCleared(events, key, BetfairBack, plan)))
  {
    ClockRunsFromFirst(events, key, BetmaticWin, plan);
    PlacedMeansBet(events, key, BetmaticWin, plan);
    PlacedMeansBet(events, key, BetfairBack, plan);
    SameLeaders(events, key, BetmaticWin, BetfairBack, plan);
  }

  /** Each bet is on the first of the packet's order, at the plan's stake for the race's distance. */
  lemma BetCarried(s: Pipeline, e: Event, key: string, plan: real -> real, d: Decision, b: Bet)
    requires Delivers(s, e, key) && b in d.bets
    requires Answers(d, s.leaders, MessageOf(s.races, e), Reading(s.leaders, MessageOf(s.races, e)), plan)
    ensures b.ref == Out(s.races, e.input).value && b.unit == plan(b.ref.distance)
    ensures e.input.p.order != [] && e.input.p.order[0] == Some(b.runner) && b.runner >= 1
    ensures b.side == BetmaticWin || b.side == BetfairBack
  {
    var i :| 0 <= i < |d.bets| && d.bets[i] == b;
    assert OnSide(d.bets, b.side);
  }

  /** A race is given up, whatever the plan, exactly when a clean running packet past an unbet side's delay
      finds no stake; until it finishes it then stays so, and its prices are not polled. */
  lemma GivenUpExactly(s: LeaderState, m: Message, plan: real -> real)
    ensures var t := Moved(s, m, Reading(s, m), plan);
            t.ignore <==>
              && m.ref.status != Finished
              && (s.ignore ||
                  (&& m.ref.status == Running && Clean(m.p) && plan(m.ref.distance) <= 0.0
                   && ((!s.betfairPlaced && LongEnough(m.p.runningTime, s.runningSince, m.now, m.betfairDelay)) ||
                       (!s.betmaticPlaced && LongEnough(m.p.runningTime, s.runningSince, m.now, m.betmaticDelay)))))
    ensures Moved(s, m, Reading(s, m), plan).ignore ==> !Tracks(s, m, Reading(s, m), plan)
  {
    ReadingIsLongEnough(s, m, m.betfairDelay);
    ReadingIsLongEnough(s, m, m.betmaticDelay);
  }
}
