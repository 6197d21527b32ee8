/** Plane vectors (`apps/pegasus/core/vectorTypes.go`), over the reals. The square root is a
    parameter of which only its defining property is assumed. */
module Vectors {

  /** A product of two reals. Written this way, the solver reasons about it by the lemmas below. */
  function Product(x: real, y: real): real {
    x * y
  }

  datatype Vector = Vector(latitude: real, longitude: real) {
    function Add(o: Vector): Vector {
      Vector(latitude + o.latitude, longitude + o.longitude)
    }

    function Sub(o: Vector): Vector {
      Vector(latitude - o.latitude, longitude - o.longitude)
    }

    function Div(s: real): Vector
      requires s != 0.0
    {
      Vector(latitude / s, longitude / s)
    }

    function Dot(o: Vector): real {
      Product(longitude, o.longitude) + Product(latitude, o.latitude)
    }

    function Magnitude(sqrt: real -> real): real {
      sqrt(Dot(this))
    }

    function Normalise(sqrt: real -> real): Vector {
      var mag := Magnitude(sqrt);
      if mag == 0.0 then ZERO else Vector(latitude / mag, longitude / mag)
    }
  }

  const ZERO := Vector(0.0, 0.0)

  ghost predicate IsSquareRoot(sqrt: real -> real) {
    forall x :: x >= 0.0 ==> sqrt(x) >= 0.0 && Product(sqrt(x), sqrt(x)) == x
  }

  lemma ProductPositive(x: real, y: real)
    requires x > 0.0 && y > 0.0
    ensures Product(x, y) > 0.0
  {}

  lemma SquarePositive(x: real)
    requires x != 0.0
    ensures Product(x, x) > 0.0
  {
    if x < 0.0 {
      ProductPositive(-x, -x);
      assert Product(-x, -x) == Product(x, x);
    } else {
      ProductPositive(x, x);
    }
  }

  lemma NonZeroDot(v: Vector)
    requires v != ZERO
    ensures v.Dot(v) > 0.0
  {
    if v.latitude != 0.0 {
      SquarePositive(v.latitude);
      if v.longitude != 0.0 {
        SquarePositive(v.longitude);
      }
    } else {
      SquarePositive(v.longitude);
    }
  }

  lemma SelfDot(v: Vector)
    ensures v.Dot(v) >= 0.0
    ensures v.Dot(v) == 0.0 ==> v == ZERO
  {
    if v != ZERO {
      NonZeroDot(v);
    }
  }

  /** The factor by which normalising the mean of a sum shrinks what lies along it. */
  function Factor(sum: Vector, n: real, sqrt: real -> real): real
    requires n > 0.0
  {
    var mag := sum.Div(n).Magnitude(sqrt);
    if mag == 0.0 then 1.0 else Product(n, mag)
  }

  lemma FactorPositive(sum: Vector, n: real, sqrt: real -> real)
    requires n > 0.0 && IsSquareRoot(sqrt)
    ensures Factor(sum, n, sqrt) > 0.0
  {
    var mean := sum.Div(n);
    SelfDot(mean);
    if mean.Magnitude(sqrt) != 0.0 {
      ProductPositive(n, mean.Magnitude(sqrt));
    }
  }

  /** Only the zero vector has no magnitude. */
  lemma ZeroMagnitude(v: Vector, sqrt: real -> real)
    requires IsSquareRoot(sqrt) && v.Magnitude(sqrt) == 0.0
    ensures v == ZERO
  {
    SelfDot(v);
    assert Product(sqrt(v.Dot(v)), sqrt(v.Dot(v))) == v.Dot(v);
    ProductZero(v.Magnitude(sqrt));
  }

  lemma ProductZero(x: real)
    requires x == 0.0
    ensures Product(x, x) == 0.0
  {}

  /** Dotting with the normalised mean is dotting with the sum, up to that one factor. */
  lemma DirectionScales(d: Vector, sum: Vector, n: real, sqrt: real -> real)
    requires n > 0.0 && IsSquareRoot(sqrt)
    ensures Product(d.Dot(sum.Div(n).Normalise(sqrt)), Factor(sum, n, sqrt)) == d.Dot(sum)
  {
    var mean := sum.Div(n);
    var mag := mean.Magnitude(sqrt);
    var f := mean.Normalise(sqrt);
    if mag == 0.0 {
      ZeroMagnitude(mean, sqrt);
      ZeroQuotient(sum.latitude, n);
      ZeroQuotient(sum.longitude, n);
      assert sum == ZERO == f;
      TimesOne(d.Dot(f));
    } else {
      var k := Product(n, mag);
      Coordinate(d.longitude, sum.longitude, n, mag);
      Coordinate(d.latitude, sum.latitude, n, mag);
      Distributes(Product(d.longitude, f.longitude), Product(d.latitude, f.latitude), k);
    }
  }

  lemma ZeroQuotient(s: real, n: real)
    requires n != 0.0 && s / n == 0.0
    ensures s == 0.0
  {
    assert s == s / n * n;
  }

  lemma TimesOne(x: real)
    ensures Product(x, 1.0) == x
  {}

  lemma Coordinate(x: real, s: real, n: real, mag: real)
    requires n != 0.0 && mag != 0.0
    ensures Product(Product(x, s / n / mag), Product(n, mag)) == Product(x, s)
  {
    Unscaled(s, n, mag);
    Associates(x, s / n / mag, Product(n, mag));
  }

  lemma Unscaled(s: real, n: real, mag: real)
    requires n != 0.0 && mag != 0.0
    ensures Product(s / n / mag, Product(n, mag)) == s
  {
    var m := s / n;
    var q := m / mag;
    assert Product(q, mag) == m && Product(m, n) == s;
    Commutes(n, mag);
    Associates(q, mag, n);
  }

  lemma Commutes(x: real, y: real)
    ensures Product(x, y) == Product(y, x)
  {}

  lemma Associates(x: real, y: real, z: real)
    ensures Product(Product(x, y), z) == Product(x, Product(y, z))
  {}

  lemma Distributes(a: real, b: real, k: real)
    ensures Product(a + b, k) == Product(a, k) + Product(b, k)
  {}

  lemma ScaledOrder(x: real, y: real, k: real)
    requires k > 0.0
    ensures x < y <==> Product(x, k) < Product(y, k)
  {
    assert Product(y, k) - Product(x, k) == Product(y - x, k);
    if x < y {
      ProductPositive(y - x, k);
    } else if y < x {
      ProductPositive(x - y, k);
      assert Product(x, k) - Product(y, k) == Product(x - y, k);
    }
  }

  lemma DotAdds(a: Vector, b: Vector, c: Vector)
    ensures a.Add(b).Dot(c) == a.Dot(c) + b.Dot(c)
  {
    Distributes(a.longitude, b.longitude, c.longitude);
    Distributes(a.latitude, b.latitude, c.latitude);
  }

  /** Subtracting is what adding undoes: a difference leads from the one point to the other. */
  lemma SubUndoes(v: Vector, o: Vector)
    ensures o.Add(v.Sub(o)) == v && v.Add(o).Sub(o) == v
  {}

  /** Moving both ends of a displacement leaves it alone. */
  lemma SubMoves(v: Vector, u: Vector, o: Vector)
    ensures v.Add(o).Sub(u.Add(o)) == v.Sub(u)
  {}
}
