/** The forward-progress strategy of the Triple-S feed (`apps/pegasus/strategy/forward_progress.go`).

    Timestamps that do not parse are `None`; the Betfair race a message resolves to, of which only
    the distance matters, is an input of each message.
 */
module ForwardProgress {
  import opened Racing
  import opened Vectors
  import opened Wrappers

  datatype Horse = Horse(cloth: int, gps: Vector)

  datatype Move = Move(cloth: int, d: Vector)

  datatype Message = Message(
    timestamp: Option<int>, horses: seq<Horse>, ref: RaceRef,
    betfairDelay: int, betmaticDelay: int, betfairRace: Option<int>)

  // ----- the field's extremes

  function Moves(start: map<int, Vector>, horses: seq<Horse>): seq<Move> {
    if horses == [] then []
    else
      var h := horses[|horses| - 1];
      Moves(start, horses[..|horses| - 1]) +
      if h.cloth in start then [Move(h.cloth, h.gps.Sub(start[h.cloth]))] else []
  }

  function Total(moves: seq<Move>): Vector {
    if moves == [] then ZERO else Total(moves[..|moves| - 1]).Add(moves[|moves| - 1].d)
  }

  /** How far each move went along an axis. */
  function Along(moves: seq<Move>, axis: Vector): (xs: seq<real>)
    ensures |xs| == |moves|
  {
    if moves == [] then [] else Along(moves[..|moves| - 1], axis) + [moves[|moves| - 1].d.Dot(axis)]
  }

  /** The first greatest, and the first least, of some numbers. */
  ghost predicate FirstMost(xs: seq<real>, b: nat) {
    && b < |xs|
    && (forall i :: 0 <= i < |xs| ==> xs[i] <= xs[b])
    && (forall i :: 0 <= i < b ==> xs[i] < xs[b])
  }

  ghost predicate FirstLeast(xs: seq<real>, w: nat) {
    && w < |xs|
    && (forall i :: 0 <= i < |xs| ==> xs[w] <= xs[i])
    && (forall i :: 0 <= i < w ==> xs[w] < xs[i])
  }

  datatype Pick = Pick(best: int, worst: int)

  function PickAt(moves: seq<Move>, b: nat, w: nat): Option<Pick>
    requires b < |moves| && w < |moves|
  {
    if moves[b].cloth < 1 && moves[w].cloth < 1 then None else Some(Pick(moves[b].cloth, moves[w].cloth))
  }

  /** What the extremes are, without normalising and without a buffer: the first runners of greatest
      and least advance along the summed direction of the field. */
  ghost function PickOf(moves: seq<Move>): Option<Pick> {
    if moves == [] then None
    else
      var xs := Along(moves, Total(moves));
      ExtremesExist(xs);
      var b: nat, w: nat :| FirstMost(xs, b) && FirstLeast(xs, w);
      PickAt(moves, b, w)
  }

  lemma ExtremesUnique(xs: seq<real>, b: nat, w: nat, b': nat, w': nat)
    requires FirstMost(xs, b) && FirstLeast(xs, w) && FirstMost(xs, b') && FirstLeast(xs, w')
    ensures b == b' && w == w'
  {
    assert xs[b] == xs[b'] && xs[w] == xs[w'];
  }

  lemma {:induction false} ExtremesExist(xs: seq<real>)
    requires xs != []
    ensures exists b: nat, w: nat :: FirstMost(xs, b) && FirstLeast(xs, w)
  {
    var n := |xs| - 1;
    if n == 0 {
      assert FirstMost(xs, 0) && FirstLeast(xs, 0);
    } else {
      ExtremesExist(xs[..n]);
      var b: nat, w: nat :| FirstMost(xs[..n], b) && FirstLeast(xs[..n], w);
      var b' := if xs[n] > xs[b] then n else b;
      var w' := if xs[n] < xs[w] then n else w;
      assert FirstMost(xs, b') && FirstLeast(xs, w');
    }
  }

  /** The pick is settled by any first greatest and first least. */
  lemma PickIsDetermined(moves: seq<Move>, b: nat, w: nat)
    requires FirstMost(Along(moves, Total(moves)), b) && FirstLeast(Along(moves, Total(moves)), w)
    ensures PickOf(moves) == PickAt(moves, b, w)
  {
    var xs := Along(moves, Total(moves));
    ExtremesExist(xs);
    var b': nat, w': nat :| FirstMost(xs, b') && FirstLeast(xs, w') && PickOf(moves) == PickAt(moves, b', w');
    ExtremesUnique(xs, b, w, b', w');
  }

  function Sum(xs: seq<real>): real {
    if xs == [] then 0.0 else Sum(xs[..|xs| - 1]) + xs[|xs| - 1]
  }

  lemma {:induction false} TotalAlong(moves: seq<Move>, axis: Vector)
    ensures Total(moves).Dot(axis) == Sum(Along(moves, axis))
  {
    if moves != [] {
      var n := |moves| - 1;
      TotalAlong(moves[..n], axis);
      DotAdds(Total(moves[..n]), moves[n].d, axis);
      assert Along(moves, axis)[..n] == Along(moves[..n], axis);
    }
  }

  lemma {:induction false} SumBounds(xs: seq<real>, low: real, high: real)
    requires forall i :: 0 <= i < |xs| ==> low <= xs[i] <= high
    ensures Product(low, |xs| as real) <= Sum(xs) <= Product(high, |xs| as real)
  {
    if xs != [] {
      SumBounds(xs[..|xs| - 1], low, high);
      OneMoreTime(low, |xs| - 1);
      OneMoreTime(high, |xs| - 1);
    }
  }

  lemma OneMoreTime(x: real, n: nat)
    ensures Product(x, (n + 1) as real) == Product(x, n as real) + x
  {
    assert (n + 1) as real == n as real + 1.0;
  }

  function Mean(xs: seq<real>): real
    requires xs != []
  {
    Sum(xs) / |xs| as real
  }

  lemma MeanTimes(xs: seq<real>)
    requires xs != []
    ensures Product(Mean(xs), |xs| as real) == Sum(xs)
  {}

  /** The greatest of some numbers is at least their mean, the least at most. */
  lemma ExtremesAroundMean(xs: seq<real>, b: nat, w: nat)
    requires FirstMost(xs, b) && FirstLeast(xs, w)
    ensures xs[w] <= Mean(xs) <= xs[b]
  {
    SumBounds(xs, xs[w], xs[b]);
    MeanTimes(xs);
    ScaledOrder(Mean(xs), xs[w], |xs| as real);
    ScaledOrder(xs[b], Mean(xs), |xs| as real);
  }

  /** The direction the program scores along: the field's mean move, normalised. */
  function Forward(moves: seq<Move>, sqrt: real -> real): Vector
    requires moves != []
  {
    Total(moves).Div(|moves| as real).Normalise(sqrt)
  }

  /** Of the progress the program compares: the best runner is at least as far along as the field's
      mean and the worst at most as far, and the mean itself is never behind the start. */
  lemma ExtremesBracketMean(moves: seq<Move>, sqrt: real -> real, b: nat, w: nat)
    requires moves != [] && IsSquareRoot(sqrt)
    requires FirstMost(Along(moves, Forward(moves, sqrt)), b) && FirstLeast(Along(moves, Forward(moves, sqrt)), w)
    ensures var xs := Along(moves, Forward(moves, sqrt));
            xs[w] <= Mean(xs) <= xs[b] && 0.0 <= Mean(xs)
  {
    var xs := Along(moves, Forward(moves, sqrt));
    ExtremesAroundMean(xs, b, w);
    TotalAlong(moves, Forward(moves, sqrt));
    TotalIsForward(moves, sqrt);
    NotBehind(xs);
  }

  lemma NotBehind(xs: seq<real>)
    requires xs != [] && 0.0 <= Sum(xs)
    ensures 0.0 <= Mean(xs)
  {
    MeanTimes(xs);
    ScaledOrder(Mean(xs), 0.0, |xs| as real);
  }

  /** Summed up, the field never goes backwards along its own direction. */
  lemma TotalIsForward(moves: seq<Move>, sqrt: real -> real)
    requires moves != [] && IsSquareRoot(sqrt)
    ensures 0.0 <= Total(moves).Dot(Forward(moves, sqrt))
  {
    var sum, n := Total(moves), |moves| as real;
    DirectionScales(sum, sum, n, sqrt);
    FactorPositive(sum, n, sqrt);
    SelfDot(sum);
    ScaledOrder(sum.Dot(Forward(moves, sqrt)), 0.0, Factor(sum, n, sqrt));
  }

  ghost predicate Scaled(xs: seq<real>, ys: seq<real>, k: real) {
    |xs| == |ys| && forall i :: 0 <= i < |xs| ==> Product(xs[i], k) == ys[i]
  }

  /** Along the normalised mean, every advance is the one along the sum, scaled by one factor. */
  lemma {:induction false} AlongScales(moves: seq<Move>, sum: Vector, n: real, sqrt: real -> real)
    requires n > 0.0 && IsSquareRoot(sqrt)
    ensures Scaled(Along(moves, sum.Div(n).Normalise(sqrt)), Along(moves, sum), Factor(sum, n, sqrt))
  {
    if moves != [] {
      AlongScales(moves[..|moves| - 1], sum, n, sqrt);
      DirectionScales(moves[|moves| - 1].d, sum, n, sqrt);
    }
  }

  lemma ScaledExtremes(xs: seq<real>, ys: seq<real>, k: real, b: nat, w: nat)
    requires k > 0.0 && Scaled(xs, ys, k)
    requires FirstMost(xs, b) && FirstLeast(xs, w)
    ensures FirstMost(ys, b) && FirstLeast(ys, w)
  {
    forall i | 0 <= i < |xs| ensures (xs[i] < xs[b] <==> ys[i] < ys[b]) && (xs[w] < xs[i] <==> ys[w] < ys[i])
                             ensures (xs[b] < xs[i] <==> ys[b] < ys[i]) && (xs[i] < xs[w] <==> ys[i] < ys[w])
    {
      ScaledOrder(xs[i], xs[b], k);
      ScaledOrder(xs[b], xs[i], k);
      ScaledOrder(xs[w], xs[i], k);
      ScaledOrder(xs[i], xs[w], k);
    }
  }

  /** Normalising never changes who went furthest or least far. */
  lemma NormalisingKeepsExtremes(moves: seq<Move>, sum: Vector, n: real, sqrt: real -> real, b: nat, w: nat)
    requires n > 0.0 && IsSquareRoot(sqrt)
    requires FirstMost(Along(moves, sum.Div(n).Normalise(sqrt)), b) && FirstLeast(Along(moves, sum.Div(n).Normalise(sqrt)), w)
    ensures FirstMost(Along(moves, sum), b) && FirstLeast(Along(moves, sum), w)
  {
    AlongScales(moves, sum, n, sqrt);
    FactorPositive(sum, n, sqrt);
    ScaledExtremes(Along(moves, sum.Div(n).Normalise(sqrt)), Along(moves, sum), Factor(sum, n, sqrt), b, w);
  }

  // ----- the strategy's own rules

  datatype RaceState = RaceState(
    ignore: bool, started: bool, betfairPlaced: bool, betmaticPlaced: bool,
    distance: int, startedAt: int, start: map<int, Vector>)

  const BLANK := RaceState(false, false, false, false, 0, 0, map[])

  function OpenRace(ref: RaceRef, betfairRace: Option<int>): RaceState {
    if ref.code != Thoroughbred && ref.code != Harness then BLANK.(ignore := true)
    else if betfairRace.None? then BLANK.(ignore := true)
    else if betfairRace.value < 1 then BLANK.(ignore := true)
    else if ref.code == Thoroughbred && betfairRace.value > 1450 then BLANK.(ignore := true)
    else BLANK.(distance := betfairRace.value)
  }

  function UnitFor(code: RacingCode, trackLength: int): real {
    match code
    case Thoroughbred =>
      if trackLength < 1050 then 1.0
      else if trackLength < 1250 then 0.8
      else if trackLength < 1450 then 0.6
      else 0.0
    case Harness => if trackLength < 2000 then 1.0 else 0.8
    case OtherCode => 0.0
  }

  function Snapshot(horses: seq<Horse>): map<int, Vector> {
    if horses == [] then map[]
    else Snapshot(horses[..|horses| - 1])[horses[|horses| - 1].cloth := horses[|horses| - 1].gps]
  }

  /** The race's state when a message of it arrives: opened by its first message. */
  function Entered(s: Option<RaceState>, m: Message): RaceState {
    if s.Some? then s.value else OpenRace(m.ref, m.betfairRace)
  }

  predicate Starts(s: RaceState, m: Message) {
    !s.ignore && !s.started && m.ref.status == Running && m.timestamp.Some?
  }

  function Delta(s: RaceState, m: Message): int
    requires m.timestamp.Some?
  {
    Milliseconds(m.timestamp.value - s.startedAt)
  }

  predicate BetfairReady(s: RaceState, m: Message) {
    !s.betfairPlaced && m.timestamp.Some? && Delta(s, m) >= m.betfairDelay
  }

  predicate BetmaticReady(s: RaceState, m: Message) {
    !s.betmaticPlaced && m.timestamp.Some? && Delta(s, m) >= m.betmaticDelay
  }

  /** What the extremes come to for a started race and a message. */
  ghost function Picked(s: Option<RaceState>, m: Message): Option<Pick> {
    PickOf(Moves(Entered(s, m).start, m.horses))
  }

  /** A message on which something is decided, given what the extremes came to. */
  predicate Decides(s: RaceState, m: Message, pick: Option<Pick>) {
    && !s.ignore && s.started && m.ref.status != Finished
    && (BetfairReady(s, m) || BetmaticReady(s, m)) && pick.Some?
  }

  predicate Bets(s: RaceState, m: Message, pick: Option<Pick>, side: Side) {
    && Decides(s, m, pick) && UnitFor(m.ref.code, s.distance) > 0.0
    && match side
       case BetmaticWin => BetmaticReady(s, m)
       case BetfairBack => BetfairReady(s, m)
       case BetfairLay => BetfairReady(s, m) && pick.value.worst != pick.value.best
  }

  /** What a message leaves of its race's state; a finished race is forgotten. */
  function Moved(s: Option<RaceState>, m: Message, pick: Option<Pick>): Option<RaceState> {
    if m.ref.status == Finished then None
    else
      var e := Entered(s, m);
      if Starts(e, m) then Some(e.(started := true, startedAt := m.timestamp.value, start := Snapshot(m.horses)))
      else if Decides(e, m, pick) && UnitFor(m.ref.code, e.distance) <= 0.0 then Some(e.(ignore := true))
      else Some(e.(betmaticPlaced := e.betmaticPlaced || Bets(e, m, pick, BetmaticWin),
                   betfairPlaced := e.betfairPlaced || Bets(e, m, pick, BetfairBack)))
  }

  predicate Tracks(s: Option<RaceState>, m: Message, pick: Option<Pick>) {
    && m.ref.status != Finished
    && var e := Entered(s, m);
    && !e.ignore && !(e.started && e.betfairPlaced && e.betmaticPlaced)
    && !(Decides(e, m, pick) && UnitFor(m.ref.code, e.distance) <= 0.0)
  }

  /** A timestamp that had to be read and could not be. */
  predicate Unreadable(s: Option<RaceState>, m: Message) {
    && m.ref.status != Finished && m.timestamp.None?
    && var e := Entered(s, m);
    && !e.ignore && (if e.started then !(e.betfairPlaced && e.betmaticPlaced) else m.ref.status == Running)
  }

  /** The bets are those, and only those, the message is ready for: win and back on the best
      runner, lay on the worst. */
  ghost predicate Answers(d: Decision, s: Option<RaceState>, m: Message, pick: Option<Pick>) {
    && OnePerSide(d.bets)
    && (forall side :: OnSide(d.bets, side) <==> Bets(Entered(s, m), m, pick, side))
    && (forall b :: b in d.bets ==>
         && pick.Some? && b.ref == m.ref && b.unit == UnitFor(m.ref.code, Entered(s, m).distance)
         && b.runner == if b.side == BetfairLay then pick.value.worst else pick.value.best)
    && (d.tracking <==> Tracks(s, m, pick))
  }

  function StateOf(races: map<string, RaceState>, key: string): Option<RaceState> {
    if key in races then Some(races[key]) else None
  }

  /** A message of an unseen race is answered as if the race had been opened just before. */
  lemma OpenedFirst(s: Option<RaceState>, m: Message)
    ensures var e := Some(Entered(s, m));
            && Picked(e, m) == Picked(s, m) && (Unreadable(e, m) <==> Unreadable(s, m))
            && Moved(e, m, Picked(s, m)) == Moved(s, m, Picked(s, m))
            && forall d :: Answers(d, e, m, Picked(s, m)) <==> Answers(d, s, m, Picked(s, m))
  {
    var e := Some(Entered(s, m));
    assert Entered(e, m) == Entered(s, m);
  }

  // ----- the program

  class ForwardProgress {
    var races: map<string, RaceState>
    var moves: array<Move>

    constructor ()
      ensures races == map[] && fresh(moves)
    {
      races := map[];
      moves := new Move[0];
    }

    method Append(n: nat, mv: Move)
      requires n <= moves.Length
      modifies this`moves, moves
      ensures n < moves.Length && (moves == old(moves) || fresh(moves))
      ensures moves[..n + 1] == old(moves[..n]) + [mv]
    {
      if n == moves.Length {
        var grown := new Move[2 * n + 1](_ => mv);
        forall i | 0 <= i < n {
          grown[i] := moves[i];
        }
        moves := grown;
      }
      moves[n] := mv;
    }

    /** Refills the reused buffer; whatever it held before does not matter. */
    method FillMoves(start: map<int, Vector>, current: seq<Horse>) returns (n: nat, fieldVector: Vector)
      modifies this`moves, moves
      ensures n <= moves.Length && (moves == old(moves) || fresh(moves))
      ensures moves[..n] == Moves(start, current) && fieldVector == Total(moves[..n])
    {
      n, fieldVector := 0, ZERO;
      for i := 0 to |current|
        invariant n <= moves.Length && (moves == old(moves) || fresh(moves))
        invariant moves[..n] == Moves(start, current[..i]) && fieldVector == Total(moves[..n])
      {
        assert current[..i + 1][..i] == current[..i];
        var h := current[i];
        if h.cloth in start {
          var d := h.gps.Sub(start[h.cloth]);
          Append(n, Move(h.cloth, d));
          n := n + 1;
          assert moves[..n][..n - 1] == Moves(start, current[..i]);
          fieldVector := fieldVector.Add(d);
        }
      }
      assert current[..|current|] == current;
    }

    method Extremes(start: map<int, Vector>, current: seq<Horse>, sqrt: real -> real) returns (best: int, worst: int, ok: bool)
      requires IsSquareRoot(sqrt)
      modifies this`moves, moves
      ensures moves == old(moves) || fresh(moves)
      ensures (if ok then Some(Pick(best, worst)) else None) == PickOf(Moves(start, current))
    {
      var n, fieldVector := FillMoves(start, current);
      if n == 0 {
        return 0, 0, false;
      }
      var forward := fieldVector.Div(n as real).Normalise(sqrt);
      var b, w := MostAndLeast(moves[..n], forward);
      NormalisingKeepsExtremes(moves[..n], fieldVector, n as real, sqrt, b, w);
      PickIsDetermined(moves[..n], b, w);
      best, worst, ok := moves[b].cloth, moves[w].cloth, true;
      if best < 1 && worst < 1 {
        return 0, 0, false;
      }
    }

    method Select(m: Message, sqrt: real -> real) returns (d: Decision, failed: bool)
      requires IsSquareRoot(sqrt)
      modifies this, moves
      ensures moves == old(moves) || fresh(moves)
      ensures var s := StateOf(old(races), m.ref.key);
              && Answers(d, s, m, Picked(s, m))
              && (failed <==> Unreadable(s, m))
              && StateOf(races, m.ref.key) == Moved(s, m, Picked(s, m))
      ensures forall k :: k != m.ref.key ==> StateOf(races, k) == StateOf(old(races), k)
    {
      var key := m.ref.key;
      if m.ref.status == Finished {
        races := races - {key};
        return IDLE, false;
      }
      OpenedFirst(StateOf(races, key), m);
      var state: RaceState;
      if key in races {
        state := races[key];
      } else {
        state := OpenRace(m.ref, m.betfairRace);
        races := races[key := state];
      }
      if state.ignore {
        return IDLE, false;
      }
      if !state.started {
        state, d, failed := Begin(state, m);
      } else {
        state, d, failed := Continue(state, m, sqrt);
      }
      races := races[key := state];
    }

    /** A race that has started: wait for the delays, find the extremes, place. */
    method Continue(before: RaceState, m: Message, sqrt: real -> real) returns (state: RaceState, d: Decision, failed: bool)
      requires IsSquareRoot(sqrt)
      requires m.ref.status != Finished && !before.ignore && before.started
      modifies this`moves, moves
      ensures moves == old(moves) || fresh(moves)
      ensures Answers(d, Some(before), m, Picked(Some(before), m))
      ensures failed <==> Unreadable(Some(before), m)
      ensures Some(state) == Moved(Some(before), m, Picked(Some(before), m))
    {
      state, failed := before, false;
      if state.betfairPlaced && state.betmaticPlaced {
        return state, IDLE, false;
      }
      if m.timestamp.None? {
        return state, WATCHING, true;
      }
      var delta := Milliseconds(m.timestamp.value - state.startedAt);
      var betfairReady := !state.betfairPlaced && delta >= m.betfairDelay;
      var betmaticReady := !state.betmaticPlaced && delta >= m.betmaticDelay;
      if !betfairReady && !betmaticReady {
        return state, WATCHING, false;
      }
      var best, worst, ok := Extremes(state.start, m.horses, sqrt);
      if !ok {
        return state, WATCHING, false;
      }
      state, d := PlaceBets(state, m, best, worst, betfairReady, betmaticReady);
    }
  }

  /** A race not yet started: its first running message with a readable time starts it. */
  method Begin(before: RaceState, m: Message) returns (state: RaceState, d: Decision, failed: bool)
    requires m.ref.status != Finished && !before.ignore && !before.started
    ensures forall pick :: Answers(d, Some(before), m, pick) && Some(state) == Moved(Some(before), m, pick)
    ensures failed <==> Unreadable(Some(before), m)
  {
    state := before;
    if m.ref.status != Running {
      return state, WATCHING, false;
    }
    if m.timestamp.None? {
      return state, WATCHING, true;
    }
    var start: map<int, Vector> := map[];
    for i := 0 to |m.horses|
      invariant start == Snapshot(m.horses[..i])
    {
      assert m.horses[..i + 1][..i] == m.horses[..i];
      start := start[m.horses[i].cloth := m.horses[i].gps];
    }
    assert m.horses[..|m.horses|] == m.horses;
    state := state.(started := true, startedAt := m.timestamp.value, start := start);
    return state, WATCHING, false;
  }

  method PlaceBets(before: RaceState, m: Message, best: int, worst: int, betfairReady: bool, betmaticReady: bool)
    returns (state: RaceState, d: Decision)
    requires m.ref.status != Finished && !before.ignore && before.started && (betfairReady || betmaticReady)
    requires betfairReady == BetfairReady(before, m) && betmaticReady == BetmaticReady(before, m)
    ensures Answers(d, Some(before), m, Some(Pick(best, worst)))
    ensures Some(state) == Moved(Some(before), m, Some(Pick(best, worst)))
  {
    state := before;
    var unit := UnitFor(m.ref.code, state.distance);
    if unit <= 0.0 {
      return state.(ignore := true), IDLE;
    }
    var bets := [];
    if betmaticReady {
      bets := bets + [Bet(m.ref, BetmaticWin, best, unit)];
      state := state.(betmaticPlaced := true);
    }
    ghost var backAt := |bets|;
    if betfairReady {
      bets := bets + [Bet(m.ref, BetfairBack, best, unit)];
      if worst != best {
        bets := bets + [Bet(m.ref, BetfairLay, worst, unit)];
      }
      state := state.(betfairPlaced := true);
    }
    d := Decision(bets, true);
    assert betmaticReady ==> bets[0].side == BetmaticWin;
    assert betfairReady ==> bets[backAt].side == BetfairBack;
    assert betfairReady && worst != best ==> bets[|bets| - 1].side == BetfairLay;
  }

  /** The scoring loop. The infinities it starts from are `None`. */
  method MostAndLeast(moves: seq<Move>, forward: Vector) returns (best: nat, worst: nat)
    requires moves != []
    ensures FirstMost(Along(moves, forward), best) && FirstLeast(Along(moves, forward), worst)
  {
    var bestProgress: Option<real> := None;
    var worstProgress: Option<real> := None;
    best, worst := 0, 0;
    for i := 0 to |moves|
      invariant best < |moves| && worst < |moves|
      invariant ScoredSoFar(Along(moves[..i], forward), best, worst, bestProgress, worstProgress)
    {
      var progress := moves[i].d.Dot(forward);
      assert moves[..i + 1][..i] == moves[..i];
      ScoresOneMore(Along(moves[..i], forward), best, worst, bestProgress, worstProgress, progress);
      if bestProgress.None? || progress > bestProgress.value {
        bestProgress, best := Some(progress), i;
      }
      if worstProgress.None? || progress < worstProgress.value {
        worstProgress, worst := Some(progress), i;
      }
    }
    assert moves[..|moves|] == moves;
  }

  ghost predicate ScoredSoFar(xs: seq<real>, best: nat, worst: nat, bestProgress: Option<real>, worstProgress: Option<real>) {
    if xs == [] then bestProgress.None? && worstProgress.None?
    else
      && FirstMost(xs, best) && bestProgress == Some(xs[best])
      && FirstLeast(xs, worst) && worstProgress == Some(xs[worst])
  }

  lemma ScoresOneMore(
      xs: seq<real>, best: nat, worst: nat, bestProgress: Option<real>, worstProgress: Option<real>, progress: real)
    requires ScoredSoFar(xs, best, worst, bestProgress, worstProgress)
    ensures var ahead := bestProgress.None? || progress > bestProgress.value;
            var behind := worstProgress.None? || progress < worstProgress.value;
            ScoredSoFar(xs + [progress],
                        if ahead then |xs| else best, if behind then |xs| else worst,
                        if ahead then Some(progress) else bestProgress, if behind then Some(progress) else worstProgress)
  {}

  // ----- whole runs

  /** What happens to a process: a message reaches its strategy, or the process is made anew, with a
      strategy that knows nothing. */
  datatype Event = Heard(m: Message) | Rebuild

  /** What a run has come to for one race since it last finished or the strategy was built. */
  datatype Trace = Trace(state: Option<RaceState>, wins: nat, backs: nat, lays: nat, backed: Option<int>, laid: Option<int>)

  const FORGOTTEN := Trace(None, 0, 0, 0, None, None)

  ghost predicate BetsOn(t: Trace, m: Message, side: Side) {
    Bets(Entered(t.state, m), m, Picked(t.state, m), side)
  }

  ghost function Step(t: Trace, m: Message): Trace {
    var pick := Picked(t.state, m);
    if m.ref.status == Finished then FORGOTTEN
    else Trace(
      Moved(t.state, m, pick),
      t.wins + (if BetsOn(t, m, BetmaticWin) then 1 else 0),
      t.backs + (if BetsOn(t, m, BetfairBack) then 1 else 0),
      t.lays + (if BetsOn(t, m, BetfairLay) then 1 else 0),
      if BetsOn(t, m, BetfairBack) then Some(pick.value.best) else t.backed,
      if BetsOn(t, m, BetfairLay) then Some(pick.value.worst) else t.laid)
  }

  ghost function Next(t: Trace, e: Event, key: string): Trace {
    if e.Rebuild? then FORGOTTEN else if e.m.ref.key == key then Step(t, e.m) else t
  }

  ghost function Run(events: seq<Event>, key: string): Trace {
    if events == [] then FORGOTTEN else Next(Run(events[..|events| - 1], key), events[|events| - 1], key)
  }

  /** The first running message with a readable timestamp since the race last finished or the strategy
      was built. */
  function Off(events: seq<Event>, key: string): Option<Message> {
    if events == [] then None
    else OffAfter(Off(events[..|events| - 1], key), events[|events| - 1], key)
  }

  function OffAfter(earlier: Option<Message>, e: Event, key: string): Option<Message> {
    if e.Rebuild? then None
    else if e.m.ref.key != key then earlier
    else if e.m.ref.status == Finished then None
    else if earlier.None? && e.m.ref.status == Running && e.m.timestamp.Some? then Some(e.m)
    else earlier
  }

  /** At most one bet a side, marked exactly when it is made, and never back and lay on the same runner. */
  ghost predicate BetsBounded(t: Trace) {
    && t.wins <= 1 && t.backs <= 1 && t.lays <= t.backs
    && (t.wins == 1 <==> t.state.Some? && t.state.value.betmaticPlaced)
    && (t.backs == 1 <==> t.state.Some? && t.state.value.betfairPlaced)
    && (t.backed.Some? <==> t.backs == 1) && (t.laid.Some? <==> t.lays == 1)
    && (t.laid.Some? ==> t.laid != t.backed)
  }

  /** The start snapshot and start time are those of the off message, from then on. */
  ghost predicate StartKept(t: Trace, off: Option<Message>) {
    && (t.state.None? ==> off.None?)
    && (off.Some? ==> off.value.timestamp.Some?)
    && (t.state.Some? && t.state.value.started ==>
         && off.Some? && t.state.value.startedAt == off.value.timestamp.value
         && t.state.value.start == Snapshot(off.value.horses))
    && (t.state.Some? && !t.state.value.started && !t.state.value.ignore ==> off.None?)
  }

  lemma StepKeepsBounds(t: Trace, m: Message)
    requires BetsBounded(t)
    ensures BetsBounded(Step(t, m))
  {}

  /** On every run, between two finishes of a race and by one strategy: at most one win, one back and
      one lay bet, the lay on another runner than the back, and one unchanging start. */
  lemma {:induction false} RunIsBounded(events: seq<Event>, key: string)
    ensures BetsBounded(Run(events, key)) && StartKept(Run(events, key), Off(events, key))
  {
    if events != [] {
      var n := |events| - 1;
      RunIsBounded(events[..n], key);
      if events[n].Heard? {
        StepKeepsBounds(Run(events[..n], key), events[n].m);
      }
    }
  }

  /** A message on which its race's state allows a bet on the side, whatever was bet before. */
  ghost predicate ReadyFor(t: Trace, m: Message, side: Side) {
    var s, pick := Entered(t.state, m), Picked(t.state, m);
    && !s.ignore && s.started && m.ref.status != Finished && m.timestamp.Some? && pick.Some?
    && UnitFor(m.ref.code, s.distance) > 0.0
    && match side
       case BetmaticWin => Delta(s, m) >= m.betmaticDelay
       case BetfairBack => Delta(s, m) >= m.betfairDelay
       case BetfairLay => Delta(s, m) >= m.betfairDelay && pick.value.worst != pick.value.best
  }

  /** When the next message bets a side, on any run: exactly when it is ready for it and this strategy
      has not bet that side's account on the race since it last finished. */
  lemma BetExactlyWhen(events: seq<Event>, m: Message, side: Side)
    ensures var t := Run(events, m.ref.key);
            BetsOn(t, m, side) <==> ReadyFor(t, m, side) && (if side == BetmaticWin then t.wins else t.backs) == 0
  {
    RunIsBounded(events, m.ref.key);
  }

  /** Milliseconds from the off message to another, when both can be read. */
  function SinceOff(off: Option<Message>, m: Message): Option<int> {
    if off.Some? && off.value.timestamp.Some? && m.timestamp.Some? then
      Some(Milliseconds(m.timestamp.value - off.value.timestamp.value))
    else None
  }

  lemma BetAfterOff(t: Trace, off: Option<Message>, m: Message, pick: Option<Pick>, side: Side)
    requires StartKept(t, off) && Bets(Entered(t.state, m), m, pick, side)
    ensures SinceOff(off, m).Some?
    ensures SinceOff(off, m).value >= if side == BetmaticWin then m.betmaticDelay else m.betfairDelay
  {}

  /** On every run, a bet's message comes at least its side's delay after the off message, on a
      clean reading of both times, with a positive unit. */
  lemma BetsWaitForDelay(events: seq<Event>, m: Message, side: Side)
    requires BetsOn(Run(events, m.ref.key), m, side)
    ensures SinceOff(Off(events, m.ref.key), m).Some?
    ensures SinceOff(Off(events, m.ref.key), m).value >= if side == BetmaticWin then m.betmaticDelay else m.betfairDelay
    ensures UnitFor(m.ref.code, Entered(Run(events, m.ref.key).state, m).distance) > 0.0
  {
    RunIsBounded(events, m.ref.key);
    var t := Run(events, m.ref.key);
    BetAfterOff(t, Off(events, m.ref.key), m, Picked(t.state, m), side);
  }

  // ----- a process made anew while a race runs

  /** A running message with one or more horses, no delays asked for. */
  function Going(ref: RaceRef, at: int, horses: seq<Horse>): Message {
    Message(Some(at), horses, ref, 0, 0, Some(1000))
  }

  predicate Runs(ref: RaceRef) {
    ref.status == Running && ref.code == Thoroughbred
  }

  /** A race first seen running starts; from its start on, it is bet as soon as extremes are found. */
  lemma StartsThenBets(ref: RaceRef, at: int, later: int, horses: seq<Horse>, now: seq<Horse>)
    requires Runs(ref) && at <= later && PickOf(Moves(Snapshot(horses), now)).Some?
    ensures var t := Step(FORGOTTEN, Going(ref, at, horses));
            && Picked(t.state, Going(ref, later, now)) == PickOf(Moves(Snapshot(horses), now))
            && !BetsOn(FORGOTTEN, Going(ref, at, horses), BetmaticWin)
            && BetsOn(t, Going(ref, later, now), BetmaticWin)
            && BetsOn(t, Going(ref, later, now), BetfairBack)
  {
    var m := Going(ref, at, horses);
    assert Starts(Entered(None, m), m);
  }

  lemma OneMoreHorse(start: map<int, Vector>, hs: seq<Horse>, h: Horse)
    ensures Snapshot(hs + [h]) == Snapshot(hs)[h.cloth := h.gps]
    ensures Moves(start, hs + [h]) ==
            Moves(start, hs) + if h.cloth in start then [Move(h.cloth, h.gps.Sub(start[h.cloth]))] else []
  {
    assert (hs + [h])[..|hs|] == hs;
  }

  lemma OneMoreMove(moves: seq<Move>, mv: Move, axis: Vector)
    ensures Total(moves + [mv]) == Total(moves).Add(mv.d)
    ensures Along(moves + [mv], axis) == Along(moves, axis) + [mv.d.Dot(axis)]
  {
    assert (moves + [mv])[..|moves|] == moves;
  }

  lemma OneHorse(cloth: int, from: Vector, to: Vector)
    requires cloth >= 1
    ensures PickOf(Moves(Snapshot([Horse(cloth, from)]), [Horse(cloth, to)])) == Some(Pick(cloth, cloth))
  {
    var h, g := Horse(cloth, from), Horse(cloth, to);
    assert [] + [h] == [h] && [] + [g] == [g];
    OneMoreHorse(map[], [], h);
    OneMoreHorse(Snapshot([h]), [], g);
    var moves := Moves(Snapshot([h]), [g]);
    assert |moves| == 1 && moves[0].cloth == cloth;
    var xs := Along(moves, Total(moves));
    assert FirstMost(xs, 0) && FirstLeast(xs, 0);
    PickIsDetermined(moves, 0, 0);
  }

  lemma SecondBets(events: seq<Event>, n: nat, ref: RaceRef, at: int, horses: seq<Horse>)
    requires n + 1 < |events| && Run(events[..n], ref.key) == FORGOTTEN && Runs(ref)
    requires events[n] == Heard(Going(ref, at, horses)) && events[n + 1] == Heard(Going(ref, at + 1, horses))
    requires PickOf(Moves(Snapshot(horses), horses)).Some?
    ensures BetsOn(Run(events[..n + 1], ref.key), Going(ref, at + 1, horses), BetmaticWin)
  {
    RunFirst(events, n + 1, ref.key);
    StartsThenBets(ref, at, at + 1, horses, horses);
  }

  /** One race on its way, and a process rebuilt after it was bet. */
  predicate RebuiltOnTheWay(events: seq<Event>, ref: RaceRef, horses: seq<Horse>) {
    && |events| == 5 && events[2].Rebuild?
    && forall k :: 0 <= k < 5 && k != 2 ==> events[k] == Heard(Going(ref, k, horses))
  }

  /** The rebuilt process starts the race afresh and bets it again. */
  lemma RebuiltProcessBetsAgain(events: seq<Event>, ref: RaceRef, horses: seq<Horse>)
    requires Runs(ref) && RebuiltOnTheWay(events, ref, horses)
    requires |horses| == 1 && horses[0].cloth >= 1
    ensures BetsOn(Run(events[..1], ref.key), events[1].m, BetmaticWin)
    ensures BetsOn(Run(events[..4], ref.key), events[4].m, BetmaticWin)
  {
    OneHorse(horses[0].cloth, horses[0].gps, horses[0].gps);
    assert horses == [Horse(horses[0].cloth, horses[0].gps)];
    RunsTwice(events, ref.key);
    SecondBets(events, 0, ref, 0, horses);
    SecondBets(events, 3, ref, 3, horses);
  }

  /** A rebuild in between leaves a run where it began. */
  lemma RunsTwice(events: seq<Event>, key: string)
    requires |events| == 5 && events[2].Rebuild?
    ensures Run(events[..0], key) == FORGOTTEN == Run(events[..3], key)
  {
    RunFirst(events, 3, key);
  }

  lemma RunFirst(events: seq<Event>, n: nat, key: string)
    requires 0 < n <= |events|
    ensures Run(events[..n], key) == Next(Run(events[..n - 1], key), events[n - 1], key)
  {
    assert events[..n][..n - 1] == events[..n - 1];
  }

  // ----- whom a bet names

  /** When every bet of a message names a runner, that is, a saddlecloth of at least 1: exactly when no
      bet is placed on an extreme below it. */
  lemma RunnersAreNamed(d: Decision, s: Option<RaceState>, m: Message, pick: Option<Pick>)
    requires Answers(d, s, m, pick)
    ensures (forall b :: b in d.bets ==> b.runner >= 1) <==>
              && (Bets(Entered(s, m), m, pick, BetmaticWin) || Bets(Entered(s, m), m, pick, BetfairBack) ==> pick.value.best >= 1)
              && (Bets(Entered(s, m), m, pick, BetfairLay) ==> pick.value.worst >= 1)
  {
    forall side | OnSide(d.bets, side)
      ensures exists b :: b in d.bets && b.side == side
    {
      var i :| 0 <= i < |d.bets| && d.bets[i].side == side;
      assert d.bets[i] in d.bets;
    }
    forall b | b in d.bets ensures OnSide(d.bets, b.side) {
      var i :| 0 <= i < |d.bets| && d.bets[i] == b;
    }
    assert OnSide(d.bets, BetmaticWin) <==> Bets(Entered(s, m), m, pick, BetmaticWin);
    assert OnSide(d.bets, BetfairBack) <==> Bets(Entered(s, m), m, pick, BetfairBack);
    assert OnSide(d.bets, BetfairLay) <==> Bets(Entered(s, m), m, pick, BetfairLay);
  }

  lemma {:induction false} MovesAreOf(start: map<int, Vector>, horses: seq<Horse>, i: nat)
    requires i < |Moves(start, horses)|
    ensures exists h :: h in horses && h.cloth == Moves(start, horses)[i].cloth
  {
    var n := |horses| - 1;
    assert horses[n] in horses;
    if i < |Moves(start, horses[..n])| {
      MovesAreOf(start, horses[..n], i);
      var h :| h in horses[..n] && h.cloth == Moves(start, horses[..n])[i].cloth;
      assert h in horses;
    }
  }

  /** It is enough that every horse of the message has a saddlecloth. */
  lemma ClothsAreEnough(d: Decision, s: Option<RaceState>, m: Message, b: Bet)
    requires Answers(d, s, m, Picked(s, m)) && b in d.bets
    requires forall h :: h in m.horses ==> h.cloth >= 1
    ensures b.runner >= 1
  {
    var moves := Moves(Entered(s, m).start, m.horses);
    var xs := Along(moves, Total(moves));
    ExtremesExist(xs);
    var best: nat, worst: nat :| FirstMost(xs, best) && FirstLeast(xs, worst);
    PickIsDetermined(moves, best, worst);
    MovesAreOf(Entered(s, m).start, m.horses, best);
    MovesAreOf(Entered(s, m).start, m.horses, worst);
  }

  /** And without that it fails: the program refuses only when both extremes lack a saddlecloth, so a
      leader the feed left without one, which reads as 0, is backed against a last that has one. */
  lemma LeaderWithoutClothIsBacked(ref: RaceRef)
    requires Runs(ref)
    ensures var from := [Horse(0, ZERO), Horse(1, ZERO)];
            var to := [Horse(0, Vector(0.0, 2.0)), Horse(1, Vector(0.0, 1.0))];
            var t := Step(FORGOTTEN, Going(ref, 0, from));
            && BetsOn(t, Going(ref, 1, to), BetmaticWin) && BetsOn(t, Going(ref, 1, to), BetfairBack)
            && Picked(t.state, Going(ref, 1, to)) == Some(Pick(0, 1))
  {
    var from := [Horse(0, ZERO), Horse(1, ZERO)];
    var to := [Horse(0, Vector(0.0, 2.0)), Horse(1, Vector(0.0, 1.0))];
    TwoHorses(from[0], from[1], to[0], to[1]);
    TwoMoves(Move(0, Vector(0.0, 2.0)), Move(1, Vector(0.0, 1.0)));
    StartsThenBets(ref, 0, 1, from, to);
  }

  lemma TwoHorses(a: Horse, b: Horse, a': Horse, b': Horse)
    requires a.cloth != b.cloth && a.cloth == a'.cloth && b.cloth == b'.cloth
    ensures Moves(Snapshot([a, b]), [a', b']) == [Move(a.cloth, a'.gps.Sub(a.gps)), Move(b.cloth, b'.gps.Sub(b.gps))]
  {
    assert [] + [a] + [b] == [a, b] && [] + [a'] + [b'] == [a', b'];
    OneMoreHorse(map[], [], a);
    OneMoreHorse(map[], [] + [a], b);
    var start := Snapshot([a, b]);
    OneMoreHorse(start, [], a');
    OneMoreHorse(start, [] + [a'], b');
  }

  lemma PairAlong(a: Move, b: Move, axis: Vector)
    ensures Total([a, b]) == ZERO.Add(a.d).Add(b.d)
    ensures Along([a, b], axis) == [a.d.Dot(axis), b.d.Dot(axis)]
  {
    assert [] + [a] + [b] == [a, b];
    OneMoreMove([], a, axis);
    OneMoreMove([] + [a], b, axis);
  }

  lemma LongerIsFurther()
    ensures Vector(0.0, 2.0).Dot(Vector(0.0, 3.0)) == 6.0 && Vector(0.0, 1.0).Dot(Vector(0.0, 3.0)) == 3.0
  {}

  /** Of two moves along one line, the longer is best and the shorter worst. */
  lemma TwoMoves(a: Move, b: Move)
    requires a.d == Vector(0.0, 2.0) && b.d == Vector(0.0, 1.0) && b.cloth >= 1
    ensures PickOf([a, b]) == Some(Pick(a.cloth, b.cloth))
  {
    var sum := Vector(0.0, 3.0);
    PairAlong(a, b, sum);
    assert Total([a, b]) == sum;
    LongerIsFurther();
    var xs := Along([a, b], sum);
    assert xs == [6.0, 3.0];
    FirstThenLess(xs);
    PickIsDetermined([a, b], 0, 1);
  }

  lemma FirstThenLess(xs: seq<real>)
    requires |xs| == 2 && xs[1] < xs[0]
    ensures FirstMost(xs, 0) && FirstLeast(xs, 1)
  {}

  /** It is the way made since the off that counts, not the place: the horse further from the origin, and
      further ahead of the other, is laid because it moved less. */
  lemma FurtherMoveIsBacked(ref: RaceRef)
    requires Runs(ref)
    ensures var from := [Horse(2, Vector(0.0, 3.0)), Horse(1, Vector(0.0, 10.0))];
            var to := [Horse(2, Vector(0.0, 5.0)), Horse(1, Vector(0.0, 11.0))];
            var t := Step(FORGOTTEN, Going(ref, 0, from));
            && Picked(t.state, Going(ref, 1, to)) == Some(Pick(2, 1))
            && BetsOn(t, Going(ref, 1, to), BetfairBack) && BetsOn(t, Going(ref, 1, to), BetfairLay)
  {
    var from := [Horse(2, Vector(0.0, 3.0)), Horse(1, Vector(0.0, 10.0))];
    var to := [Horse(2, Vector(0.0, 5.0)), Horse(1, Vector(0.0, 11.0))];
    TwoHorses(from[0], from[1], to[0], to[1]);
    TwoMoves(Move(2, Vector(0.0, 2.0)), Move(1, Vector(0.0, 1.0)));
    StartsThenBets(ref, 0, 1, from, to);
  }
}
