/**
 * The unit values the parser builds: a scale factor relative to the base
 * units, the exponent of each base unit, and an additive origin. This stands
 * in for the unit class hierarchy (scaled, derived and offset units), which
 * the parser uses only through multiply, divide, pow, shift, the conversion
 * of a value in seconds into the unit, and the test whether a unit can be
 * converted to seconds.
 */
module Units {
  import opened Wrappers

  /** Why a unit operation was refused (the unit classes' UnitException). */
  datatype UnitError = CannotDivide | CannotRaise | CannotConvert

  /**
   * A value x in unit u stands for (x + u.origin) * u.scale in the base
   * units whose exponents u.dims lists.
   */
  datatype Unit = Unit(scale: real, dims: map<string, int>, origin: real)

  /** The base dimension of time: a unit converts to seconds when it is exactly this dimension. */
  const Second: string := "s"

  function Exponent(dims: map<string, int>, base: string): int {
    if base in dims then dims[base] else 0
  }

  /** Every base unit listed has a nonzero exponent (like bases are combined, zero exponents removed). */
  predicate Canonical(dims: map<string, int>) {
    forall base :: base in dims ==> dims[base] != 0
  }

  /** `new DerivedUnit()`: the dimensionless unit of magnitude 1. */
  function Dimensionless(): Unit {
    Unit(1.0, map[], 0.0)
  }

  /** `new ScaledUnit(v)`: a dimensionless unit of magnitude v. */
  function Scaled(v: real): Unit {
    Unit(v, map[], 0.0)
  }

  function Power(x: real, n: nat): (r: real)
    ensures x != 0.0 ==> r != 0.0
  {
    if n == 0 then 1.0 else Power(x, n - 1) * x
  }

  function SumDims(x: map<string, int>, y: map<string, int>): (r: map<string, int>)
    ensures Canonical(r)
    ensures forall base :: Exponent(r, base) == Exponent(x, base) + Exponent(y, base)
  {
    map base | base in x.Keys + y.Keys && Exponent(x, base) + Exponent(y, base) != 0
      :: Exponent(x, base) + Exponent(y, base)
  }

  function DifferenceDims(x: map<string, int>, y: map<string, int>): (r: map<string, int>)
    ensures Canonical(r)
    ensures forall base :: Exponent(r, base) == Exponent(x, base) - Exponent(y, base)
  {
    map base | base in x.Keys + y.Keys && Exponent(x, base) - Exponent(y, base) != 0
      :: Exponent(x, base) - Exponent(y, base)
  }

  function ScaleDims(x: map<string, int>, n: int): (r: map<string, int>)
    ensures Canonical(r)
    ensures forall base :: Exponent(r, base) == n * Exponent(x, base)
  {
    map base | base in x.Keys && n * Exponent(x, base) != 0 :: n * Exponent(x, base)
  }

  /** `u.multiply(v)`: scales multiply and exponents add; the product has no origin. */
  function Multiply(u: Unit, v: Unit): Unit {
    Unit(u.scale * v.scale, SumDims(u.dims, v.dims), 0.0)
  }

  /** `u.divide(v)`: refused when v has scale 0. */
  function Divide(u: Unit, v: Unit): (r: Result<Unit, UnitError>)
    ensures r.Err? <==> v.scale == 0.0
  {
    if v.scale == 0.0 then Err(CannotDivide)
    else Ok(Unit(u.scale / v.scale, DifferenceDims(u.dims, v.dims), 0.0))
  }

  /** `u.pow(n)`: refused when a unit of scale 0 is raised to a negative power. */
  function Pow(u: Unit, n: int): (r: Result<Unit, UnitError>)
    ensures r.Err? <==> n < 0 && u.scale == 0.0
  {
    if n >= 0 then Ok(Unit(Power(u.scale, n), ScaleDims(u.dims, n), 0.0))
    else if u.scale == 0.0 then Err(CannotRaise)
    else Ok(Unit(1.0 / Power(u.scale, -n), ScaleDims(u.dims, n), 0.0))
  }

  /** `u.shift(o)`: the value 0 in the result is the value o in u. */
  function Shift(u: Unit, o: real): Unit {
    Unit(u.scale, u.dims, u.origin + o)
  }

  /** The base-unit amount that the value x in u stands for. */
  function ToBase(u: Unit, x: real): real {
    (x + u.origin) * u.scale
  }

  /** `u.toThis(v, second)`: the value in u of v seconds; refused for a unit of scale 0. */
  function ToThis(u: Unit, seconds: real): (r: Result<real, UnitError>)
    ensures r.Err? <==> u.scale == 0.0
    ensures r.Ok? ==> ToBase(u, r.value) == seconds
  {
    if u.scale == 0.0 then Err(CannotConvert) else Ok(seconds / u.scale - u.origin)
  }

  /** `Unit.canConvert(u, second)`: u has exactly the dimension of time. */
  predicate IsTimeConvertible(u: Unit) {
    u.dims == map[Second := 1]
  }

  // ---------------------------------------------------------------------
  // Laws of the unit algebra.

  lemma DimsEqual(x: map<string, int>, y: map<string, int>)
    requires Canonical(x) && Canonical(y)
    requires forall base :: Exponent(x, base) == Exponent(y, base)
    ensures x == y
  {
    forall base | base in x ensures base in y && x[base] == y[base] {
      assert Exponent(x, base) == Exponent(y, base);
    }
    forall base | base in y ensures base in x {
      assert Exponent(x, base) == Exponent(y, base);
    }
  }

  /** Multiplication does not depend on the order of its operands. */
  lemma MultiplyCommutes(u: Unit, v: Unit)
    ensures Multiply(u, v) == Multiply(v, u)
  {
    DimsEqual(SumDims(u.dims, v.dims), SumDims(v.dims, u.dims));
  }

  /** Multiplication is associative, so a product list's grouping changes nothing but the fold order. */
  lemma MultiplyAssociates(u: Unit, v: Unit, w: Unit)
    ensures Multiply(Multiply(u, v), w) == Multiply(u, Multiply(v, w))
  {
    DimsEqual(SumDims(SumDims(u.dims, v.dims), w.dims), SumDims(u.dims, SumDims(v.dims, w.dims)));
  }

  /** Dividing by v undoes multiplying by v (the origin is dropped by both). */
  lemma DivideUndoesMultiply(u: Unit, v: Unit)
    requires v.scale != 0.0 && Canonical(u.dims)
    ensures Divide(Multiply(u, v), v) == Ok(Unit(u.scale, u.dims, 0.0))
  {
    var d := DifferenceDims(SumDims(u.dims, v.dims), v.dims);
    DimsEqual(d, u.dims);
    assert u.scale * v.scale / v.scale == u.scale;
    var m := Multiply(u, v);
    assert m.scale == u.scale * v.scale;
    assert m.dims == SumDims(u.dims, v.dims);
    assert Divide(m, v) == Ok(Unit(m.scale / v.scale, DifferenceDims(m.dims, v.dims), 0.0));
  }

  /** Raising to the power n + 1 multiplies the n-th power by the unit once more. */
  lemma ScaleDimsStepAt(dims: map<string, int>, n: int, base: string)
    ensures Exponent(ScaleDims(dims, n + 1), base) == Exponent(SumDims(ScaleDims(dims, n), dims), base)
  {
    var k := Exponent(dims, base);
    assert (n + 1) * k == n * k + k;
  }

  lemma ScaleDimsStep(dims: map<string, int>, n: int)
    ensures ScaleDims(dims, n + 1) == SumDims(ScaleDims(dims, n), dims)
  {
    forall base
      ensures Exponent(ScaleDims(dims, n + 1), base) == Exponent(SumDims(ScaleDims(dims, n), dims), base)
    {
      ScaleDimsStepAt(dims, n, base);
    }
    DimsEqual(ScaleDims(dims, n + 1), SumDims(ScaleDims(dims, n), dims));
  }

  lemma PowStep(u: Unit, n: nat)
    ensures Pow(u, n + 1) == Ok(Multiply(Pow(u, n).value, u))
  {
    ScaleDimsStep(u.dims, n);
    assert Power(u.scale, n + 1) == Power(u.scale, n) * u.scale;
    assert Pow(u, n + 1) == Ok(Unit(Power(u.scale, n + 1), ScaleDims(u.dims, n + 1), 0.0));
    var p := Pow(u, n).value;
    assert p == Unit(Power(u.scale, n), ScaleDims(u.dims, n), 0.0);
    assert Multiply(p, u) == Unit(Power(u.scale, n) * u.scale, SumDims(ScaleDims(u.dims, n), u.dims), 0.0);
  }

  /** Power 0 is the dimensionless unit and power -1 is the reciprocal. */
  lemma PowZeroAndMinusOne(u: Unit)
    ensures Pow(u, 0) == Ok(Dimensionless())
    ensures u.scale != 0.0 ==> Pow(u, -1) == Divide(Dimensionless(), u)
  {
    DimsEqual(ScaleDims(u.dims, 0), map[]);
    if u.scale != 0.0 {
      DimsEqual(ScaleDims(u.dims, -1), DifferenceDims(map[], u.dims));
    }
  }

  /** Shifting by the converted origin puts the unit's zero at that many seconds. */
  lemma ShiftToOrigin(u: Unit, seconds: real)
    requires u.scale != 0.0
    ensures ToBase(Shift(u, ToThis(u, seconds).value), 0.0) == seconds
  {
  }

  /** A numeric shift moves the zero point by o units of u. */
  lemma ShiftMovesZero(u: Unit, o: real)
    ensures ToBase(Shift(u, o), 0.0) == ToBase(u, o)
    ensures Shift(u, 0.0) == u
  {
  }
}
