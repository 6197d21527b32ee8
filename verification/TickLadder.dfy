/** The Betfair tick ladder and rounding onto it (`engine/stake.go`).

    A ladder is a list of bands; ticks are counted in cents. Rounding is specified by what it means
    for the ticks on either side, never by the arithmetic: `IsFloor` and `IsCeiling` are the two
    halves of a Galois connection between cents and ticks. Everything is proved for every
    well-formed ladder, and the program's ladder is shown to be one.
 */
module TickLadder {

  datatype Band = Band(limit: int, step: int)

  const BETFAIR: seq<Band> := [
    Band(600, 10), Band(1000, 20), Band(2000, 50), Band(3000, 100),
    Band(5000, 200), Band(10000, 500), Band(100000, 1000)
  ]

  const BOTTOM := 100
  const FIRST_TICK := 101

  // absorbs binary rounding of a decimal price
  const LIFT := 0.000000001

  function Anchor(l: seq<Band>, i: nat): int
    requires i <= |l|
  {
    if i == 0 then BOTTOM else l[i - 1].limit
  }

  predicate WellFormed(l: seq<Band>) {
    && l != []
    && forall i {:trigger l[i]} :: 0 <= i < |l| ==>
         l[i].step > 0 && Anchor(l, i) < l[i].limit && (l[i].limit - Anchor(l, i)) % l[i].step == 0
  }

  function Cap(l: seq<Band>): int
    requires l != []
  {
    l[|l| - 1].limit
  }

  predicate InBand(l: seq<Band>, i: nat, t: int)
    requires WellFormed(l) && i < |l|
  {
    Anchor(l, i) <= t <= l[i].limit && (t - Anchor(l, i)) % l[i].step == 0
  }

  ghost predicate IsTick(l: seq<Band>, t: int)
    requires WellFormed(l)
  {
    t >= FIRST_TICK && exists i: nat :: i < |l| && InBand(l, i, t)
  }

  /** `f` is the greatest tick at or below `c`, or 0 when there is none. */
  ghost predicate IsFloor(l: seq<Band>, c: int, f: int)
    requires WellFormed(l)
  {
    (f == 0 || IsTick(l, f)) && forall t :: IsTick(l, t) ==> (t <= c <==> t <= f)
  }

  /** `g` is the least tick at or above `c`. */
  ghost predicate IsCeiling(l: seq<Band>, c: int, g: int)
    requires WellFormed(l)
  {
    IsTick(l, g) && forall t :: IsTick(l, t) ==> (c <= t <==> g <= t)
  }

  // ----- arithmetic of one band

  /** Division that truncates toward zero. */
  function Quotient(a: int, b: int): int
    requires b > 0
  {
    if a >= 0 then a / b else -(-a / b)
  }

  /** The largest multiple of `s` in `a`, as the program computes it. */
  function Whole(a: int, s: int): int
    requires s > 0
  {
    Quotient(a, s) * s
  }

  lemma WholeBelow(x: int, s: int, y: int)
    requires s > 0 && 0 <= x
    ensures 0 <= Whole(x, s) <= x && Whole(x, s) % s == 0
    ensures 0 <= y <= x && y % s == 0 ==> y <= Whole(x, s)
  {
    MultipleBelow(x, s, y);
    assert Quotient(x, s) == x / s;
  }

  lemma MultipleBelow(x: int, s: int, y: int)
    requires s > 0 && 0 <= x
    ensures 0 <= x / s * s <= x && (x / s * s) % s == 0
    ensures 0 <= y <= x && y % s == 0 ==> y <= x / s * s
  {
    assert x == x / s * s + x % s;
    Remainder(x / s, s);
    if 0 <= y <= x && y % s == 0 {
      assert y == y / s * s;
      QuotientMonotone(y, x, s);
      Scaled(y / s, x / s, s);
    }
  }

  lemma WholeNegative(a: int, s: int)
    requires s > 0 && a < 0
    ensures Whole(a, s) <= 0
  {
    var q := -a / s;
    assert 0 <= q;
    Scaled(0, q, s);
    assert -q * s == -(q * s);
  }

  lemma Remainder(q: int, s: int)
    requires s > 0
    ensures (q * s) % s == 0
  {
    var r := q * s;
    assert r == r / s * s + r % s;
    if r / s < q {
      Scaled(r / s + 1, q, s);
    } else if r / s > q {
      Scaled(q + 1, r / s, s);
    }
  }

  lemma Scaled(a: int, b: int, s: int)
    requires a <= b && s > 0
    ensures a * s <= b * s
  {}

  lemma QuotientMonotone(y: int, x: int, s: int)
    requires s > 0 && 0 <= y <= x
    ensures y / s <= x / s
  {
    assert x == x / s * s + x % s && y == y / s * s + y % s;
    if x / s < y / s {
      Scaled(x / s + 1, y / s, s);
    }
  }

  lemma MultipleAbove(x: int, s: int, y: int)
    requires s > 0 && 0 <= x
    ensures x <= (x + s - 1) / s * s < x + s && ((x + s - 1) / s * s) % s == 0
    ensures x <= y && y % s == 0 ==> (x + s - 1) / s * s <= y
  {
    var q := (x + s - 1) / s;
    assert x + s - 1 == q * s + (x + s - 1) % s;
    Remainder(q, s);
    if x <= y && y % s == 0 {
      assert y == y / s * s;
      if y / s < q {
        Scaled(y / s + 1, q, s);
      }
    }
  }

  lemma {:induction false} LimitsIncrease(l: seq<Band>, i: nat, j: nat)
    requires WellFormed(l) && i <= j <= |l|
    ensures Anchor(l, i) <= Anchor(l, j)
    decreases j - i
  {
    if i < j {
      assert Anchor(l, i) < l[i].limit;
      LimitsIncrease(l, i + 1, j);
    }
  }

  /** A tick in some band lies on the expected side of band `i`. */
  lemma BandsApart(l: seq<Band>, i: nat, j: nat, t: int)
    requires WellFormed(l) && i < |l| && j < |l| && InBand(l, j, t)
    ensures j < i ==> t <= Anchor(l, i)
    ensures i < j ==> l[i].limit <= t
  {
    if j < i {
      LimitsIncrease(l, j + 1, i);
    } else if i < j {
      LimitsIncrease(l, i + 1, j);
    }
  }

  lemma FloorInBand(l: seq<Band>, i: nat, c: int)
    requires WellFormed(l) && i < |l| && Anchor(l, i) <= c < l[i].limit
    ensures IsFloor(l, c, OrNone(Anchor(l, i) + Whole(c - Anchor(l, i), l[i].step)))
  {
    var a, s := Anchor(l, i), l[i].step;
    var f := a + Whole(c - a, s);
    WholeBelow(c - a, s, 0);
    assert InBand(l, i, f);
    forall t | IsTick(l, t) ensures t <= c <==> t <= f {
      var j: nat :| j < |l| && InBand(l, j, t);
      BandsApart(l, i, j, t);
      WholeBelow(c - a, s, t - a);
    }
  }

  /** Under the first tick there is none. */
  function OrNone(f: int): int {
    if f < FIRST_TICK then 0 else f
  }

  lemma CeilingInBand(l: seq<Band>, i: nat, c: int)
    requires WellFormed(l) && i < |l| && FIRST_TICK <= c && Anchor(l, i) < c <= l[i].limit
    ensures IsCeiling(l, c, Anchor(l, i) + (c - Anchor(l, i) + l[i].step - 1) / l[i].step * l[i].step)
  {
    var a, s := Anchor(l, i), l[i].step;
    var g := a + (c - a + s - 1) / s * s;
    MultipleAbove(c - a, s, l[i].limit - a);
    assert InBand(l, i, g);
    forall t | IsTick(l, t) ensures c <= t <==> g <= t {
      var j: nat :| j < |l| && InBand(l, j, t);
      BandsApart(l, i, j, t);
      MultipleAbove(c - a, s, t - a);
    }
  }

  lemma UnderTheCap(l: seq<Band>, t: int)
    requires WellFormed(l) && IsTick(l, t)
    ensures t <= Cap(l)
  {
    var j: nat :| j < |l| && InBand(l, j, t);
    LimitsIncrease(l, j + 1, |l|);
  }

  lemma AboveTheCap(l: seq<Band>, c: int)
    requires WellFormed(l) && Cap(l) <= c
    ensures IsFloor(l, c, Cap(l))
  {
    var n := |l| - 1;
    assert Anchor(l, n) < l[n].limit;
    LimitsIncrease(l, 0, n);
    assert InBand(l, n, Cap(l));
    forall t | IsTick(l, t) ensures t <= Cap(l) {
      UnderTheCap(l, t);
    }
  }

  /** One pass of the loop: the band whose limit is first above `c` settles the answer. */
  lemma FloorSettled(l: seq<Band>, i: nat, c: int)
    requires WellFormed(l) && i < |l| && c < l[i].limit && (i > 0 ==> Anchor(l, i) <= c)
    ensures IsFloor(l, c, OrNone(Anchor(l, i) + Whole(c - Anchor(l, i), l[i].step)))
  {
    if c < Anchor(l, i) {
      WholeNegative(c - Anchor(l, i), l[i].step);
    } else {
      FloorInBand(l, i, c);
    }
  }

  lemma ClippedFloor(l: seq<Band>, price: int, f: int)
    requires WellFormed(l) && Cap(l) <= price && IsFloor(l, Cap(l), f)
    ensures IsFloor(l, price, f)
  {
    forall t | IsTick(l, t) ensures t <= price <==> t <= f {
      UnderTheCap(l, t);
      assert t <= Cap(l) <==> t <= f;
    }
  }

  lemma BetfairIsWellFormed()
    ensures WellFormed(BETFAIR) && Cap(BETFAIR) == 100000
  {}

  // ----- the program, at cent level

  method FloorCents(l: seq<Band>, price: int) returns (f: int)
    requires WellFormed(l)
    ensures IsFloor(l, price, f)
  {
    var cents := price;
    if cents > Cap(l) {
      cents := Cap(l);
    }
    f := FloorClipped(l, cents);
    if cents < price {
      ClippedFloor(l, price, f);
    }
  }

  method FloorClipped(l: seq<Band>, cents: int) returns (f: int)
    requires WellFormed(l) && cents <= Cap(l)
    ensures IsFloor(l, cents, f)
  {
    var anchor := BOTTOM;
    var i := 0;
    while i < |l|
      invariant 0 <= i <= |l| && anchor == Anchor(l, i)
      invariant i > 0 ==> anchor <= cents
    {
      if cents < l[i].limit {
        FloorSettled(l, i, cents);
        var floored := anchor + Whole(cents - anchor, l[i].step);
        if floored < FIRST_TICK {
          return 0;
        }
        return floored;
      }
      anchor := l[i].limit;
      i := i + 1;
    }
    AboveTheCap(l, cents);
    return cents;
  }

  method CeilCents(l: seq<Band>, cents: int) returns (g: int)
    requires WellFormed(l)
    ensures cents < FIRST_TICK ==> g == 0
    ensures FIRST_TICK <= cents <= Cap(l) ==> IsCeiling(l, cents, g)
    ensures Cap(l) < cents ==> g == Cap(l)
  {
    if cents < FIRST_TICK {
      AboveTheCap(l, Cap(l));
      return 0;
    }
    if cents >= Cap(l) {
      AboveTheCap(l, Cap(l));
      return Cap(l);
    }
    var anchor := BOTTOM;
    var i := 0;
    while i < |l|
      invariant 0 <= i <= |l| && anchor == Anchor(l, i) && anchor < cents
    {
      if cents <= l[i].limit {
        CeilingInBand(l, i, cents);
        return anchor + (cents - anchor + l[i].step - 1) / l[i].step * l[i].step;
      }
      anchor := l[i].limit;
      i := i + 1;
    }
    return cents;
  }

  // ----- what the two halves imply

  lemma FloorUnique(l: seq<Band>, c: int, f: int, f': int)
    requires WellFormed(l) && IsFloor(l, c, f) && IsFloor(l, c, f')
    ensures f == f'
  {
    assert f != 0 ==> f <= f';
    assert f' != 0 ==> f' <= f;
  }

  lemma Monotone(l: seq<Band>, c: int, c': int, f: int, f': int, g: int, g': int)
    requires WellFormed(l) && c <= c'
    requires IsFloor(l, c, f) && IsFloor(l, c', f') && IsCeiling(l, c, g) && IsCeiling(l, c', g')
    ensures f <= f' && g <= g'
  {
    assert f != 0 ==> f <= c;
    assert f' != 0 ==> f' <= c' && f' >= FIRST_TICK;
  }

  /** Rounding a rounded value changes nothing, and a tick rounds to itself. */
  lemma Idempotent(l: seq<Band>, c: int, f: int, g: int)
    requires WellFormed(l) && IsFloor(l, c, f) && IsCeiling(l, c, g)
    ensures IsFloor(l, f, f) && IsCeiling(l, g, g)
    ensures IsTick(l, c) ==> f == c == g
  {
    assert IsTick(l, c) ==> c <= f && g <= c;
    assert f != 0 ==> f <= c;
  }

  /** Off the ladder, floor and ceiling are neighbouring ticks around the value. */
  lemma Adjacent(l: seq<Band>, c: int, f: int, g: int, t: int)
    requires WellFormed(l) && IsFloor(l, c, f) && IsCeiling(l, c, g) && !IsTick(l, c)
    ensures f < c < g || (f == 0 && c < g)
    ensures IsTick(l, t) ==> t <= f || g <= t
  {
    assert f != 0 ==> f <= c;
  }

  // ----- the program, at price level

  function Odds(cents: int): real {
    cents as real / 100.0
  }

  ghost predicate OnLadder(odds: real) {
    exists t :: BetfairTick(t) && odds == Odds(t)
  }

  ghost predicate BetfairTick(t: int) {
    BetfairIsWellFormed();
    IsTick(BETFAIR, t)
  }

  lemma TicksAreBounded(t: int)
    requires BetfairTick(t)
    ensures FIRST_TICK <= t <= 100000
    ensures BetfairTick(100000)
  {
    BetfairIsWellFormed();
    AboveTheCap(BETFAIR, 100000);
    assert IsFloor(BETFAIR, 100000, 100000);
    UnderTheCap(BETFAIR, t);
  }

  method FloorToBetfairTick(price: real) returns (odds: real)
    ensures odds == 0.0 || OnLadder(odds)
    ensures forall t :: BetfairTick(t) ==> (t as real <= price * 100.0 + LIFT <==> Odds(t) <= odds)
  {
    BetfairIsWellFormed();
    var cents := (price * 100.0 + LIFT).Floor;
    var f := FloorCents(BETFAIR, cents);
    odds := f as real / 100.0;
    if f != 0 {
      assert BetfairTick(f) && odds == Odds(f);
    }
    forall t | BetfairTick(t) ensures t as real <= price * 100.0 + LIFT <==> Odds(t) <= odds {
      assert t <= cents <==> t <= f;
    }
  }

  method CeilToBetfairTick(price: real) returns (odds: real)
    ensures price * 100.0 - LIFT <= 100.0 ==> odds == 0.0
    ensures price * 100.0 - LIFT > 100.0 ==> OnLadder(odds)
    ensures 100.0 < price * 100.0 - LIFT <= 100000.0 ==>
              forall t :: BetfairTick(t) ==> (price * 100.0 - LIFT <= t as real <==> odds <= Odds(t))
    ensures price * 100.0 - LIFT > 100000.0 ==> odds == 1000.0
  {
    BetfairIsWellFormed();
    var x := price * 100.0 - LIFT;
    var cents := -((-x).Floor);
    var g := CeilCents(BETFAIR, cents);
    odds := g as real / 100.0;
    AboveTheCap(BETFAIR, 100000);
    if x > 100.0 {
      assert BetfairTick(g) && odds == Odds(g);
    }
    if 100.0 < x <= 100000.0 {
      forall t | BetfairTick(t) ensures x <= t as real <==> odds <= Odds(t) {
        assert cents <= t <==> g <= t;
      }
    }
  }

  // ----- the ladder itself

  /** The ticks in cents, range by range. */
  lemma TicksByRange(t: int)
    ensures BetfairTick(t) <==>
              || (101 <= t <= 600 && t % 10 == 0)
              || (600 < t <= 1000 && t % 20 == 0)
              || (1000 < t <= 2000 && t % 50 == 0)
              || (2000 < t <= 3000 && t % 100 == 0)
              || (3000 < t <= 5000 && t % 200 == 0)
              || (5000 < t <= 10000 && t % 500 == 0)
              || (10000 < t <= 100000 && t % 1000 == 0)
  {
    BetfairIsWellFormed();
    InBandOf(0, t);
    InBandOf(1, t);
    InBandOf(2, t);
    InBandOf(3, t);
    InBandOf(4, t);
    InBandOf(5, t);
    InBandOf(6, t);
  }

  lemma InBandOf(i: nat, t: int)
    requires i < 7 && WellFormed(BETFAIR)
    ensures InBand(BETFAIR, i, t) <==> Anchor(BETFAIR, i) <= t <= BETFAIR[i].limit && t % BETFAIR[i].step == 0
  {
    StepsFromZero(i, t);
  }

  /** Every band begins on a multiple of its step. */
  lemma StepsFromZero(i: nat, t: int)
    requires i < 7
    ensures (t - Anchor(BETFAIR, i)) % BETFAIR[i].step == 0 <==> t % BETFAIR[i].step == 0
  {}

  /** The lift changes nothing for a price of whole cents. */
  lemma WholeCentsUnlifted(cents: int)
    ensures (Odds(cents) * 100.0 + LIFT).Floor == cents == -((-(Odds(cents) * 100.0 - LIFT)).Floor)
  {
    assert Odds(cents) * 100.0 == cents as real;
    assert -(cents as real - LIFT) == (-cents) as real + LIFT;
  }
}
