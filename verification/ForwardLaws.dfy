/** What the forward-progress strategy's picks, stakes and waiting come to, without its own functions: moves
    are displacements, the origin of the positions does not matter, and whole runs bet exactly when the
    words of `apps/pegasus/strategy/forward_progress.go` say so.
 */
module ForwardLaws {
  import opened Racing
  import opened Vectors
  import opened Wrappers
  import opened ForwardProgress

  // ----- moves are displacements

  /** The start of a cloth is where its last horse in the off message was. */
  lemma {:induction false} SnapshotIsLast(horses: seq<Horse>, i: nat)
    requires i < |horses| && forall j :: i < j < |horses| ==> horses[j].cloth != horses[i].cloth
    ensures horses[i].cloth in Snapshot(horses) && Snapshot(horses)[horses[i].cloth] == horses[i].gps
  {
    var n := |horses| - 1;
    if i < n {
      SnapshotIsLast(horses[..n], i);
    }
  }

  /** No other cloth has one. */
  lemma {:induction false} SnapshotIsOf(horses: seq<Horse>, cloth: int)
    ensures cloth in Snapshot(horses) <==> exists i :: 0 <= i < |horses| && horses[i].cloth == cloth
  {
    if horses != [] {
      var n := |horses| - 1;
      SnapshotIsOf(horses[..n], cloth);
    }
  }

  /** Of a field whose starts are all known, the moves are one a horse, in the order of the message, and
      each leads from the horse's start to where it now is. */
  lemma {:induction false} MovesAreDisplacements(start: map<int, Vector>, horses: seq<Horse>)
    requires forall h :: h in horses ==> h.cloth in start
    ensures |Moves(start, horses)| == |horses|
    ensures forall i :: 0 <= i < |horses| ==>
              && Moves(start, horses)[i].cloth == horses[i].cloth
              && start[horses[i].cloth].Add(Moves(start, horses)[i].d) == horses[i].gps
  {
    if horses != [] {
      var n := |horses| - 1;
      assert horses[n] in horses;
      MovesAreDisplacements(start, horses[..n]);
      SubUndoes(horses[n].gps, start[horses[n].cloth]);
    }
  }

  /** A horse without a start might as well not be in the message. */
  lemma {:induction false} UnknownIsLeftOut(start: map<int, Vector>, before: seq<Horse>, h: Horse, after: seq<Horse>)
    requires h.cloth !in start
    ensures Moves(start, before + [h] + after) == Moves(start, before + after)
    decreases |after|
  {
    if after == [] {
      assert before + [h] + after == before + [h] && before + after == before;
      OneMoreHorse(start, before, h);
    } else {
      var n := |after| - 1;
      UnknownIsLeftOut(start, before, h, after[..n]);
      assert before + [h] + after == before + [h] + after[..n] + [after[n]];
      assert before + after == before + after[..n] + [after[n]];
      OneMoreHorse(start, before + [h] + after[..n], after[n]);
      OneMoreHorse(start, before + after[..n], after[n]);
    }
  }

  /** Of equal moves the first is both best and worst. */
  lemma EqualMovesTie(moves: seq<Move>)
    requires moves != [] && forall mv :: mv in moves ==> mv.d == moves[0].d
    ensures PickOf(moves) == if moves[0].cloth < 1 then None else Some(Pick(moves[0].cloth, moves[0].cloth))
  {
    var axis := Total(moves);
    forall i | 0 <= i < |moves| ensures Along(moves, axis)[i] == moves[0].d.Dot(axis) {
      assert moves[i] in moves;
      AlongAt(moves, axis, i);
    }
    PickIsDetermined(moves, 0, 0);
  }

  lemma {:induction false} AlongAt(moves: seq<Move>, axis: Vector, i: nat)
    requires i < |moves|
    ensures Along(moves, axis)[i] == moves[i].d.Dot(axis)
  {
    if i < |moves| - 1 {
      AlongAt(moves[..|moves| - 1], axis, i);
    }
  }

  // ----- the origin does not matter

  function Elsewhere(horses: seq<Horse>, o: Vector): seq<Horse> {
    if horses == [] then []
    else
      var h := horses[|horses| - 1];
      Elsewhere(horses[..|horses| - 1], o) + [h.(gps := h.gps.Add(o))]
  }

  function StartsElsewhere(start: map<int, Vector>, o: Vector): map<int, Vector> {
    map c | c in start :: start[c].Add(o)
  }

  function StateElsewhere(s: Option<RaceState>, o: Vector): Option<RaceState> {
    if s.None? then None else Some(s.value.(start := StartsElsewhere(s.value.start, o)))
  }

  function HeardElsewhere(m: Message, o: Vector): Message {
    m.(horses := Elsewhere(m.horses, o))
  }

  function EventsElsewhere(events: seq<Event>, o: Vector): seq<Event> {
    if events == [] then []
    else
      var e := events[|events| - 1];
      EventsElsewhere(events[..|events| - 1], o) + [if e.Rebuild? then e else Heard(HeardElsewhere(e.m, o))]
  }

  lemma {:induction false} MovesElsewhere(start: map<int, Vector>, horses: seq<Horse>, o: Vector)
    ensures Moves(StartsElsewhere(start, o), Elsewhere(horses, o)) == Moves(start, horses)
  {
    if horses != [] {
      var n := |horses| - 1;
      var h := horses[n];
      MovesElsewhere(start, horses[..n], o);
      OneMoreHorse(StartsElsewhere(start, o), Elsewhere(horses[..n], o), h.(gps := h.gps.Add(o)));
      if h.cloth in start {
        SubMoves(h.gps, start[h.cloth], o);
      }
    }
  }

  lemma {:induction false} SnapshotElsewhere(horses: seq<Horse>, o: Vector)
    ensures Snapshot(Elsewhere(horses, o)) == StartsElsewhere(Snapshot(horses), o)
  {
    if horses != [] {
      var n := |horses| - 1;
      var h := horses[n];
      SnapshotElsewhere(horses[..n], o);
      OneMoreHorse(map[], Elsewhere(horses[..n], o), h.(gps := h.gps.Add(o)));
      assert StartsElsewhere(Snapshot(horses[..n])[h.cloth := h.gps], o) ==
             StartsElsewhere(Snapshot(horses[..n]), o)[h.cloth := h.gps.Add(o)];
    }
  }

  lemma PickedElsewhere(s: Option<RaceState>, m: Message, o: Vector)
    ensures Picked(StateElsewhere(s, o), HeardElsewhere(m, o)) == Picked(s, m)
    ensures Some(Entered(StateElsewhere(s, o), HeardElsewhere(m, o))) == StateElsewhere(Some(Entered(s, m)), o)
  {
    assert StartsElsewhere(map[], o) == map[];
    MovesElsewhere(Entered(s, m).start, m.horses, o);
  }

  lemma BetsElsewhere(s: Option<RaceState>, m: Message, pick: Option<Pick>, side: Side, o: Vector)
    ensures var s', m' := StateElsewhere(s, o), HeardElsewhere(m, o);
            Bets(Entered(s', m'), m', pick, side) == Bets(Entered(s, m), m, pick, side)
  {
    assert StartsElsewhere(map[], o) == map[];
  }

  lemma MovedElsewhere(s: Option<RaceState>, m: Message, pick: Option<Pick>, o: Vector)
    ensures Moved(StateElsewhere(s, o), HeardElsewhere(m, o), pick) == StateElsewhere(Moved(s, m, pick), o)
  {
    assert StartsElsewhere(map[], o) == map[];
    SnapshotElsewhere(m.horses, o);
    BetsElsewhere(s, m, pick, BetmaticWin, o);
    BetsElsewhere(s, m, pick, BetfairBack, o);
  }

  lemma StepElsewhere(t: Trace, m: Message, o: Vector)
    ensures Step(t.(state := StateElsewhere(t.state, o)), HeardElsewhere(m, o)) ==
            Step(t, m).(state := StateElsewhere(Step(t, m).state, o))
  {
    var pick := Picked(t.state, m);
    PickedElsewhere(t.state, m, o);
    MovedElsewhere(t.state, m, pick, o);
    BetsElsewhere(t.state, m, pick, BetmaticWin, o);
    BetsElsewhere(t.state, m, pick, BetfairBack, o);
    BetsElsewhere(t.state, m, pick, BetfairLay, o);
  }

  /** Moving every position of every message by one vector changes nothing on any run but the starts
      remembered: the same runners are backed and laid, o the same messages. */
  lemma {:induction false} OriginDoesNotMatter(events: seq<Event>, key: string, o: Vector)
    ensures var t := Run(events, key);
            Run(EventsElsewhere(events, o), key) == t.(state := StateElsewhere(t.state, o))
  {
    if events != [] {
      var n := |events| - 1;
      var moved := EventsElsewhere(events[..n], o);
      OriginDoesNotMatter(events[..n], key, o);
      assert EventsElsewhere(events, o)[..n] == moved by {
        SameCount(events[..n], o);
      }
      SameCount(events, o);
      if events[n].Heard? {
        StepElsewhere(Run(events[..n], key), events[n].m, o);
      }
    }
  }

  lemma {:induction false} SameCount(events: seq<Event>, o: Vector)
    ensures |EventsElsewhere(events, o)| == |events|
  {
    if events != [] {
      SameCount(events[..|events| - 1], o);
    }
  }

  // ----- which races are bet, at what stake, and when

  /** The races this strategy bets at all, by code and by the distance Betfair gives. */
  predicate Eligible(code: RacingCode, distance: Option<int>) {
    && distance.Some? && distance.value >= 1
    && ((code == Thoroughbred && distance.value <= 1450) || code == Harness)
  }

  /** The first message of the race since it last finished or the strategy was built. */
  function Opening(events: seq<Event>, key: string): Option<Message> {
    if events == [] then None else OpeningAfter(Opening(events[..|events| - 1], key), events[|events| - 1], key)
  }

  function OpeningAfter(earlier: Option<Message>, e: Event, key: string): Option<Message> {
    if e.Rebuild? then None
    else if e.m.ref.key != key then earlier
    else if e.m.ref.status == Finished then None
    else if earlier.None? then Some(e.m)
    else earlier
  }

  /** The distance the race was opened with, when it was one to bet. */
  function DistanceOf(opening: Option<Message>): Option<int> {
    if opening.Some? && Eligible(opening.value.ref.code, opening.value.betfairRace) then opening.value.betfairRace else None
  }

  /** Codes and distances for which there is no stake. */
  predicate Stakeless(code: RacingCode, distance: int) {
    code == OtherCode || (code == Thoroughbred && distance >= 1450)
  }

  /** The stakes, by code and distance. */
  lemma StakesByDistance(code: RacingCode, distance: int)
    ensures UnitFor(code, distance) > 0.0 <==> !Stakeless(code, distance)
    ensures code == Thoroughbred && distance < 1050 ==> UnitFor(code, distance) == 1.0
    ensures code == Thoroughbred && 1050 <= distance < 1250 ==> UnitFor(code, distance) == 0.8
    ensures code == Thoroughbred && 1250 <= distance < 1450 ==> UnitFor(code, distance) == 0.6
    ensures code == Harness && distance < 2000 ==> UnitFor(code, distance) == 1.0
    ensures code == Harness && 2000 <= distance ==> UnitFor(code, distance) == 0.8
  {}

  /** Some message of the race, since its opening, came under a code without a stake at its distance. */
  predicate SawNoStake(events: seq<Event>, key: string) {
    events != [] &&
    var n := |events| - 1;
    var d := DistanceOf(Opening(events, key));
    d.Some? &&
    (SawNoStake(events[..n], key) || (events[n].Heard? && events[n].m.ref.key == key && Stakeless(events[n].m.ref.code, d.value)))
  }

  /** What the race's state says of its opening. */
  ghost predicate OpenedAs(t: Trace, opening: Option<Message>, noStake: bool) {
    && (t.state.Some? <==> opening.Some?)
    && (t.state.Some? && !t.state.value.ignore ==> DistanceOf(opening) == Some(t.state.value.distance))
    && (t.state.Some? && t.state.value.ignore ==> DistanceOf(opening).None? || noStake)
    && (t.state.Some? && DistanceOf(opening).Some? ==> DistanceOf(opening) == Some(t.state.value.distance))
    && (t.state.Some? && (t.state.value.betfairPlaced || t.state.value.betmaticPlaced) ==> t.state.value.started)
  }

  lemma OpensAs(m: Message)
    ensures var s := OpenRace(m.ref, m.betfairRace);
            && s.ignore == DistanceOf(Some(m)).None?
            && (!s.ignore ==> DistanceOf(Some(m)) == Some(s.distance))
            && !s.started && !s.betfairPlaced && !s.betmaticPlaced
  {}

  lemma StepKeepsOpening(t: Trace, m: Message, opening: Option<Message>, noStake: bool)
    requires OpenedAs(t, opening, noStake)
    ensures var after := OpeningAfter(opening, Heard(m), m.ref.key);
            OpenedAs(Step(t, m), after,
                     DistanceOf(after).Some? && (noStake || Stakeless(m.ref.code, DistanceOf(after).value)))
  {
    OpensAs(m);
    StakesByDistance(m.ref.code, Entered(t.state, m).distance);
  }

  lemma {:induction false} RunKeepsOpening(events: seq<Event>, key: string)
    ensures OpenedAs(Run(events, key), Opening(events, key), SawNoStake(events, key))
  {
    if events != [] {
      var n := |events| - 1;
      RunKeepsOpening(events[..n], key);
      if events[n].Heard? && events[n].m.ref.key == key {
        StepKeepsOpening(Run(events[..n], key), events[n].m, Opening(events[..n], key), SawNoStake(events[..n], key));
      }
    }
  }

  /** What the extremes come to between the off message and another. */
  ghost function PickSince(off: Option<Message>, m: Message): Option<Pick> {
    if off.None? then None else PickOf(Moves(Snapshot(off.value.horses), m.horses))
  }

  /** The side's delay has passed between the off message and another. */
  predicate Waited(off: Option<Message>, m: Message, side: Side) {
    && off.Some? && off.value.timestamp.Some? && m.timestamp.Some?
    && Passed(m.timestamp.value - off.value.timestamp.value, if side == BetmaticWin then m.betmaticDelay else m.betfairDelay)
  }

  /** What a bet takes, in terms of the messages of the run alone and the bets it made. */
  ghost predicate Due(events: seq<Event>, m: Message, side: Side) {
    var t, off, d := Run(events, m.ref.key), Off(events, m.ref.key), DistanceOf(Opening(events, m.ref.key));
    && m.ref.status != Finished
    && d.Some? && !Stakeless(m.ref.code, d.value)
    && Waited(off, m, side)
    && (if side == BetmaticWin then t.wins else t.backs) == 0
    && PickSince(off, m).Some?
    && (side == BetfairLay ==> PickSince(off, m).value.worst != PickSince(off, m).value.best)
  }

  /** On every run, a side is bet only when it is due; and when it is due it is bet, unless the race came
      before under a code without a stake. */
  lemma BetsSpelledOut(events: seq<Event>, m: Message, side: Side)
    ensures BetsOn(Run(events, m.ref.key), m, side) ==> Due(events, m, side)
    ensures Due(events, m, side) && !SawNoStake(events, m.ref.key) ==> BetsOn(Run(events, m.ref.key), m, side)
  {
    var t, off := Run(events, m.ref.key), Off(events, m.ref.key);
    RunIsBounded(events, m.ref.key);
    RunKeepsOpening(events, m.ref.key);
    BetExactlyWhen(events, m, side);
    if t.state.Some? {
      StakesByDistance(m.ref.code, t.state.value.distance);
      if off.Some? && m.timestamp.Some? {
        MillisecondsReach(m.timestamp.value - off.value.timestamp.value, m.betmaticDelay);
        MillisecondsReach(m.timestamp.value - off.value.timestamp.value, m.betfairDelay);
      }
    }
  }

  /** The stake a bet carries on every run, by its message's code and the distance of the opening. */
  lemma StakeCarried(events: seq<Event>, m: Message, d: Decision, b: Bet)
    requires Answers(d, Run(events, m.ref.key).state, m, Picked(Run(events, m.ref.key).state, m)) && b in d.bets
    ensures var length := DistanceOf(Opening(events, m.ref.key));
            && length.Some?
            && (m.ref.code == Thoroughbred || m.ref.code == Harness)
            && (m.ref.code == Thoroughbred ==>
                  && length.value < 1450
                  && b.unit == if length.value < 1050 then 1.0 else if length.value < 1250 then 0.8 else 0.6)
            && (m.ref.code == Harness ==> b.unit == if length.value < 2000 then 1.0 else 0.8)
    ensures var pick := PickSince(Off(events, m.ref.key), m);
            pick.Some? && b.ref == m.ref && b.runner == if b.side == BetfairLay then pick.value.worst else pick.value.best
  {
    var i :| 0 <= i < |d.bets| && d.bets[i] == b;
    assert OnSide(d.bets, b.side);
    BetsSpelledOut(events, m, b.side);
    RunIsBounded(events, m.ref.key);
    RunKeepsOpening(events, m.ref.key);
    StakesByDistance(m.ref.code, Run(events, m.ref.key).state.value.distance);
  }

  /** Prices are polled exactly for a race opened as one to bet, not finished, and not bet on both accounts
      yet; of a race that came under a code without a stake nothing is said. */
  lemma TrackingSpelledOut(events: seq<Event>, m: Message, d: Decision)
    requires Answers(d, Run(events, m.ref.key).state, m, Picked(Run(events, m.ref.key).state, m))
    ensures var t, o := Run(events, m.ref.key), DistanceOf(OpeningAfter(Opening(events, m.ref.key), Heard(m), m.ref.key));
            && (d.tracking ==> m.ref.status != Finished && o.Some? && !(t.wins == 1 && t.backs == 1))
            && (d.tracking <== m.ref.status != Finished && o.Some? && !(t.wins == 1 && t.backs == 1)
                               && !SawNoStake(events, m.ref.key) && !Stakeless(m.ref.code, o.value))
  {
    RunIsBounded(events, m.ref.key);
    RunKeepsOpening(events, m.ref.key);
    OpensAs(m);
    StakesByDistance(m.ref.code, Entered(Run(events, m.ref.key).state, m).distance);
  }

  /** A timestamp that cannot be read is reported exactly when it was to start the race or to be waited by. */
  lemma UnreadableSpelledOut(events: seq<Event>, m: Message)
    requires !SawNoStake(events, m.ref.key)
    ensures var t, o := Run(events, m.ref.key), DistanceOf(OpeningAfter(Opening(events, m.ref.key), Heard(m), m.ref.key));
            Unreadable(t.state, m) <==>
              && m.timestamp.None? && m.ref.status != Finished && o.Some?
              && if Off(events, m.ref.key).Some? then !(t.wins == 1 && t.backs == 1) else m.ref.status == Running
  {
    RunIsBounded(events, m.ref.key);
    RunKeepsOpening(events, m.ref.key);
    OpensAs(m);
  }

  /** What the strategy remembers after a message is what the run says, nothing at all after a finish. */
  lemma RemembersTheRun(t: Trace, m: Message)
    ensures Step(t, m).state == Moved(t.state, m, Picked(t.state, m))
    ensures m.ref.status == Finished ==> Moved(t.state, m, Picked(t.state, m)) == None
  {}

  predicate FindsNoStake(e: RaceState, m: Message, pick: Option<Pick>) {
    && e.started && pick.Some? && m.timestamp.Some? && Stakeless(m.ref.code, e.distance)
    && var passed := m.timestamp.value - e.startedAt;
    (!e.betfairPlaced && Passed(passed, m.betfairDelay)) || (!e.betmaticPlaced && Passed(passed, m.betmaticDelay))
  }

  /** A race is given up exactly when a message of it, past an unbet account's delay and with extremes to bet
      on, comes under a code without a stake; its prices are then not polled. */
  lemma GivenUpExactly(s: Option<RaceState>, m: Message, pick: Option<Pick>)
    requires m.ref.status != Finished
    ensures var e, t := Entered(s, m), Moved(s, m, pick);
            && t.Some?
            && (t.value.ignore <==> e.ignore || FindsNoStake(e, m, pick))
            && (t.value.ignore ==> !Tracks(s, m, pick))
  {
    var e := Entered(s, m);
    StakesByDistance(m.ref.code, e.distance);
    if m.timestamp.Some? {
      MillisecondsReach(m.timestamp.value - e.startedAt, m.betfairDelay);
      MillisecondsReach(m.timestamp.value - e.startedAt, m.betmaticDelay);
    }
  }

  /** There is nobody to bet on exactly when no horse has moved from a known start, or neither extreme has a
      saddlecloth of 1 or more. */
  lemma NobodyExactlyWhen(moves: seq<Move>, b: nat, w: nat)
    requires moves != [] ==> FirstMost(Along(moves, Total(moves)), b) && FirstLeast(Along(moves, Total(moves)), w)
    ensures PickOf(moves).None? <==> moves == [] || (moves[b].cloth <= 0 && moves[w].cloth <= 0)
    ensures PickOf(moves).Some? ==> PickOf(moves).value.best == moves[b].cloth && PickOf(moves).value.worst == moves[w].cloth
  {
    if moves != [] {
      PickIsDetermined(moves, b, w);
    }
  }
}
