/** Numeric primitives of the sugar-line library: rounding, evenly spaced
    grids, piecewise-linear interpolation, the list conversions and the juice
    density polynomial that every stage shares. */
module Numeric {
  import opened JsValues

  // ---------------------------------------------------------------------------
  // Rounding

  /** `Math.round`: the nearest integer, halves rounded up. */
  function Round(x: real): (k: int)
    ensures x - 0.5 < k as real <= x + 0.5
  {
    (x + 0.5).Floor
  }

  function Scale(n: nat): (p: real)
    ensures p >= 1.0
  {
    Pow10(n) as real
  }

  /** `k / p` as a real; kept as a function so that rounding proofs can
      reason about it as a whole. */
  function Quot(k: int, p: real): real
    requires p != 0.0
  {
    k as real / p
  }

  /** `roundTo(v, n)`: v rounded to n decimals, halves up. */
  function RoundTo(v: real, n: nat): real
  {
    Quot(Round(v * Scale(n)), Scale(n))
  }

  /** The rounded value is within half a unit of the last kept decimal. */
  lemma RoundToError(v: real, n: nat)
    ensures -0.5 / Scale(n) < RoundTo(v, n) - v <= 0.5 / Scale(n)
  {
    QuotError(v, Round(v * Scale(n)), Scale(n));
  }

  /** With two decimals the error is at most half a hundredth. */
  lemma RoundTo2Error(v: real)
    ensures -0.005 < RoundTo(v, 2) - v <= 0.005
  {
    RoundToError(v, 2);
    Hundredths();
  }

  lemma QuotError(x: real, k: int, p: real)
    requires p > 0.0 && x * p - 0.5 < k as real <= x * p + 0.5
    ensures -0.5 / p < Quot(k, p) - x <= 0.5 / p
  {
    var e := k as real - x * p;
    assert Quot(k, p) - x == e / p by { assert (x + e / p) * p == x * p + e; }
    var q, r := e / p, 0.5 / p;
    assert q * p == e && r * p == 0.5;
    if q <= -r { MulMonotone(q, -r, p); }
    if q > r { MulMonotone(r, q, p); }
  }

  /** Dividing and multiplying back by the same non-zero value. */
  lemma DivMul(a: real, b: real)
    requires b != 0.0
    ensures (a / b) * b == a
  {
  }

  /** A product of non-zero values is non-zero. */
  lemma MulZero(a: real, b: real)
    requires a == 0.0
    ensures a * b == 0.0
  {
  }

  lemma MulNonZero(a: real, b: real)
    requires a != 0.0 && b != 0.0
    ensures a * b != 0.0
  {
    assert (a * b) / b == a;
  }

  /** A non-zero factor cancels from both sides of an equation. */
  lemma MulCancel(a: real, b: real, m: real)
    requires m != 0.0 && a * m == b * m
    ensures a == b
  {
    assert (a - b) * m == 0.0;
  }

  /** Multiplying by a non-negative factor keeps order. */
  lemma MulMonotone(a: real, b: real, p: real)
    requires a <= b && p >= 0.0
    ensures a * p <= b * p
  {
    assert b * p - a * p == (b - a) * p;
  }

  lemma MulStrictMonotone(a: real, b: real, p: real)
    requires a < b && p > 0.0
    ensures p * a < p * b
  {
    assert p * b - p * a == p * (b - a);
  }

  lemma Hundredths()
    ensures Scale(2) == 100.0
  {
  }

  lemma RoundInteger(k: int)
    ensures Round(k as real) == k
  {
  }

  /** A value rounded to two decimals is already on the grid: rounding it
      again changes nothing. */
  lemma RoundTo2Idempotent(v: real)
    ensures RoundTo(RoundTo(v, 2), 2) == RoundTo(v, 2)
  {
    Hundredths();
    var k := Round(v * 100.0);
    var x := RoundTo(v, 2);
    assert x == k as real / 100.0;
    assert x * 100.0 == k as real;
    RoundInteger(k);
    assert Round(x * 100.0) == k;
  }

  /** Rounding to two decimals keeps order. */
  lemma RoundTo2Monotone(u: real, v: real)
    requires u <= v
    ensures RoundTo(u, 2) <= RoundTo(v, 2)
  {
    Hundredths();
    assert Round(u * 100.0) <= Round(v * 100.0);
  }

  // ---------------------------------------------------------------------------
  // Evenly spaced grids

  /** The spacing `linspace` uses for `num` points. */
  function Step(start: real, stop: real, num: nat): real
    requires num != 1
  {
    (stop - start) / (num as real - 1.0)
  }

  /** `linspace(start, stop, num)`. */
  function Linspace(start: real, stop: real, num: nat): (r: seq<real>)
    ensures |r| == num
    ensures num >= 1 ==> r[0] == start
    ensures num >= 2 ==> r[num - 1] == stop
    ensures forall i :: 0 <= i < num - 1 ==> r[i + 1] - r[i] == Step(start, stop, num)
  {
    if num == 1 then [start]
    else
      var h := Step(start, stop, num);
      var r := seq(num, i requires 0 <= i < num => start + h * i as real);
      assert num >= 2 ==> r[num - 1] == start + h * (num as real - 1.0);
      assert num >= 2 ==> h * (num as real - 1.0) == stop - start;
      r
  }

  /** An increasing range gives an increasing grid. */
  lemma {:induction false} LinspaceIncreasing(start: real, stop: real, num: nat, i: nat, j: nat)
    requires start < stop && i < j < num
    ensures Linspace(start, stop, num)[i] < Linspace(start, stop, num)[j]
    decreases j - i
  {
    var r := Linspace(start, stop, num);
    QuotientPositive(stop - start, num as real - 1.0);
    assert r[(j - 1) + 1] - r[j - 1] == Step(start, stop, num);
    if i < j - 1 {
      LinspaceIncreasing(start, stop, num, i, j - 1);
    }
  }

  /** A point a fraction `t` of the way along a step `d` lies between the
      step's ends. */
  lemma BetweenEnds(a: real, t: real, d: real)
    requires 0.0 <= t <= 1.0
    ensures (a <= a + t * d <= a + d) || (a + d <= a + t * d <= a)
  {
    if d >= 0.0 {
      MulMonotone(0.0, t, d);
      MulMonotone(t, 1.0, d);
    } else {
      MulMonotone(0.0, t, -d);
      MulMonotone(t, 1.0, -d);
      assert t * d == -(t * -d);
    }
  }

  // ---------------------------------------------------------------------------
  // Piecewise-linear interpolation

  lemma QuotientPositive(a: real, b: real)
    requires a > 0.0 && b > 0.0
    ensures a / b > 0.0
  {
    if a / b <= 0.0 { MulMonotone(a / b, 0.0, b); }
  }

  /** 0 < a <= b gives a fraction in (0, 1]. */
  lemma FractionInUnit(a: real, b: real)
    requires 0.0 < a <= b
    ensures 0.0 < a / b <= 1.0
  {
    QuotientPositive(a, b);
  }

  /** The segment the scan of `interp1d` stops at: the first `k >= i` whose
      right knot is not below `x`. */
  function SegmentFrom(xs: seq<real>, x: real, i: nat): (k: nat)
    requires i + 1 < |xs| && xs[i] < x < xs[|xs| - 1]
    ensures i <= k && k + 1 < |xs|
    ensures xs[k] < x <= xs[k + 1]
    ensures forall j :: i < j <= k ==> xs[j] < x
    decreases |xs| - i
  {
    if xs[i + 1] < x then SegmentFrom(xs, x, i + 1) else i
  }

  /** `interp1d(xs, ys, x)` for a single abscissa. */
  function Interp1d(xs: seq<real>, ys: seq<real>, x: real): real
    requires |xs| >= 1 && |ys| == |xs|
  {
    if x <= xs[0] then ys[0]
    else if x >= xs[|xs| - 1] then ys[|ys| - 1]
    else
      var k := SegmentFrom(xs, x, 0);
      ys[k] + (x - xs[k]) / (xs[k + 1] - xs[k]) * (ys[k + 1] - ys[k])
  }

  /** The scan of `interp1d`: advance `i` while the next knot is below `x`. */
  method Interpolate(xs: seq<real>, ys: seq<real>, x: real) returns (y: real)
    requires |xs| >= 1 && |ys| == |xs|
    ensures y == Interp1d(xs, ys, x)
  {
    if x <= xs[0] { return ys[0]; }
    if x >= xs[|xs| - 1] { return ys[|ys| - 1]; }
    var i := 0;
    while xs[i + 1] < x
      invariant i + 1 < |xs| && xs[i] < x
      invariant SegmentFrom(xs, x, i) == SegmentFrom(xs, x, 0)
      decreases |xs| - i
    {
      i := i + 1;
    }
    var t := (x - xs[i]) / (xs[i + 1] - xs[i]);
    y := ys[i] + t * (ys[i + 1] - ys[i]);
  }

  /** Outside the table the first or last value is returned, never an extrapolation. */
  lemma Interp1dClamps(xs: seq<real>, ys: seq<real>, x: real)
    requires |xs| >= 1 && |ys| == |xs|
    ensures x <= xs[0] ==> Interp1d(xs, ys, x) == ys[0]
    ensures xs[0] < x && xs[|xs| - 1] <= x ==> Interp1d(xs, ys, x) == ys[|ys| - 1]
  {
  }

  /** Inside the table the value lies between the two values of its segment. */
  lemma Interp1dBracketed(xs: seq<real>, ys: seq<real>, x: real)
    requires |xs| >= 2 && |ys| == |xs| && xs[0] < x < xs[|xs| - 1]
    ensures exists k :: (0 <= k < |xs| - 1 && xs[k] < x <= xs[k + 1] &&
      ((ys[k] <= Interp1d(xs, ys, x) <= ys[k + 1]) || (ys[k + 1] <= Interp1d(xs, ys, x) <= ys[k])))
  {
    var k := SegmentFrom(xs, x, 0);
    var t := (x - xs[k]) / (xs[k + 1] - xs[k]);
    FractionInUnit(x - xs[k], xs[k + 1] - xs[k]);
    var y := Interp1d(xs, ys, x);
    var d := ys[k + 1] - ys[k];
    assert y == ys[k] + t * d;
    BetweenEnds(ys[k], t, d);
    assert xs[k] < x <= xs[k + 1];
  }

  predicate StrictlyIncreasing(xs: seq<real>) {
    forall i, j :: 0 <= i < j < |xs| ==> xs[i] < xs[j]
  }

  /** At a knot of a strictly increasing table the tabulated value comes back exactly. */
  lemma Interp1dAtKnot(xs: seq<real>, ys: seq<real>, k: nat)
    requires |ys| == |xs| && k < |xs| && StrictlyIncreasing(xs)
    ensures Interp1d(xs, ys, xs[k]) == ys[k]
  {
    if 0 < k < |xs| - 1 {
      var s := SegmentFrom(xs, xs[k], 0);
      assert s == k - 1;
    }
  }

  /** `interp1d` with an array of abscissae: the same interpolation applied to
      each element, order and length kept. */
  function Interp1dAll(xs: seq<real>, ys: seq<real>, q: seq<real>): (r: seq<real>)
    requires |xs| >= 1 && |ys| == |xs|
    ensures |r| == |q|
    ensures forall i :: 0 <= i < |q| ==> r[i] == Interp1d(xs, ys, q[i])
  {
    seq(|q|, i requires 0 <= i < |q| => Interp1d(xs, ys, q[i]))
  }

  // ---------------------------------------------------------------------------
  // List conversions

  /** `dividirListaPorMil`: kg/h to t/h, two decimals. */
  function DividirListaPorMil(xs: seq<real>): (r: seq<real>)
    ensures |r| == |xs|
  {
    seq(|xs|, i requires 0 <= i < |xs| => RoundTo(xs[i] / 1000.0, 2))
  }

  /** `arredondaLista`: two decimals. */
  function ArredondaLista(xs: seq<real>): (r: seq<real>)
    ensures |r| == |xs|
  {
    seq(|xs|, i requires 0 <= i < |xs| => RoundTo(xs[i], 2))
  }

  /** `mcaParaKgf`: metres of water column to kgf/cm². */
  function McaParaKgf(xs: seq<real>): (r: seq<real>)
    ensures |r| == |xs|
  {
    seq(|xs|, i requires 0 <= i < |xs| => xs[i] * 0.01)
  }

  /** `barParaKgf`: bar to kgf/cm². */
  function BarParaKgf(xs: seq<real>): (r: seq<real>)
    ensures |r| == |xs|
  {
    seq(|xs|, i requires 0 <= i < |xs| => xs[i] * 1.01972)
  }

  /** Every element of a `dividirListaPorMil` result is within 0.005 of the
      exact quotient, and the conversion keeps the order of the elements. */
  lemma DividirListaPorMilAccurate(xs: seq<real>)
    ensures forall i :: 0 <= i < |xs| ==>
      -0.005 < DividirListaPorMil(xs)[i] - xs[i] / 1000.0 <= 0.005
    ensures forall i, j :: 0 <= i < |xs| && 0 <= j < |xs| && xs[i] <= xs[j] ==>
      DividirListaPorMil(xs)[i] <= DividirListaPorMil(xs)[j]
  {
    forall i | 0 <= i < |xs|
      ensures -0.005 < DividirListaPorMil(xs)[i] - xs[i] / 1000.0 <= 0.005
    {
      RoundTo2Error(xs[i] / 1000.0);
    }
    forall i, j | 0 <= i < |xs| && 0 <= j < |xs| && xs[i] <= xs[j]
      ensures DividirListaPorMil(xs)[i] <= DividirListaPorMil(xs)[j]
    {
      RoundTo2Monotone(xs[i] / 1000.0, xs[j] / 1000.0);
    }
  }

  /** Rounding a list twice is rounding it once. */
  lemma ArredondaListaIdempotent(xs: seq<real>)
    ensures ArredondaLista(ArredondaLista(xs)) == ArredondaLista(xs)
  {
    forall i | 0 <= i < |xs|
      ensures ArredondaLista(ArredondaLista(xs))[i] == ArredondaLista(xs)[i]
    {
      RoundTo2Idempotent(xs[i]);
    }
  }

  /** Converting m.c.a. to kgf/cm² and multiplying back by 100 recovers the
      input; the bar conversion is undone by dividing by its factor. */
  lemma UnitConversionsInvertible(xs: seq<real>)
    ensures forall i :: 0 <= i < |xs| ==> McaParaKgf(xs)[i] * 100.0 == xs[i]
    ensures forall i :: 0 <= i < |xs| ==> BarParaKgf(xs)[i] / 1.01972 == xs[i]
  {
  }

  /** `arrumarLista`: null and undefined pass through; a number is divided by
      1000 and rounded; an array has each element that converts to a number
      so treated, and other elements kept; anything else passes through. */
  function ArrumarLista(v: JsValue): (r: JsValue)
    ensures v.Undefined? || v.Null? ==> r == v
    ensures v.Arr? ==> r.Arr? && |r.items| == |v.items|
  {
    match v
    case Undefined => v
    case Null => v
    case Num(n) => Num(RoundTo(n / 1000.0, 2))
    case NaN => NaN
    case Arr(items) => Arr(seq(|items|, i requires 0 <= i < |items| => ArrumarElemento(items[i])))
    case _ => v
  }

  /** One element of an array given to `arrumarLista`. */
  function ArrumarElemento(v: JsValue): JsValue
  {
    if v.Undefined? || v.Null? then v
    else match ToNumber(v)
      case Some(n) => Num(RoundTo(n / 1000.0, 2))
      case None => v
  }

  function NumArray(xs: seq<real>): (r: JsValue)
    ensures r.Arr? && |r.items| == |xs|
  {
    Arr(seq(|xs|, i requires 0 <= i < |xs| => Num(xs[i])))
  }

  /** On an array of numbers `arrumarLista` is `dividirListaPorMil`. */
  lemma ArrumarListaOfNumbers(xs: seq<real>)
    ensures ArrumarLista(NumArray(xs)) == NumArray(DividirListaPorMil(xs))
  {
    var l := ArrumarLista(NumArray(xs));
    var d := NumArray(DividirListaPorMil(xs));
    assert |l.items| == |d.items|;
    forall i | 0 <= i < |xs| ensures l.items[i] == d.items[i] {
      assert NumArray(xs).items[i] == Num(xs[i]);
    }
  }

  // ---------------------------------------------------------------------------
  // Juice properties shared by every stage

  /** `Math.pow(x, n)` for a natural exponent. */
  function Pow(x: real, n: nat): real
  {
    if n == 0 then 1.0 else x * Pow(x, n - 1)
  }

  /** Density of cane juice (t/m³) from its Brix: the polynomial every stage uses. */
  function Density(brix: real): (d: real)
    ensures d > 0.9
  {
    assert Pow(brix, 2) == brix * brix by {
      assert Pow(brix, 2) == brix * Pow(brix, 1);
      assert Pow(brix, 1) == brix * Pow(brix, 0);
    }
    var c := 2951.0 / 56.0;
    var u := brix + c;
    assert 0.000028 * brix * brix + 0.002951 * brix + 1.01037
        == 0.000028 * u * u + (1.01037 - 0.000028 * c * c);
    assert 0.000028 * u * u >= 0.0;
    0.000028 * Pow(brix, 2) + 0.002951 * brix + 1.01037
  }

  /** Specific heat of juice (kcal/kg·°C) from its Brix. */
  function SpecificHeat(brix: real): real
  {
    1.0 - 0.006 * brix
  }

  /** Smallest of three values, as `Math.min(a, b, c)`. */
  function Min3(a: real, b: real, c: real): (m: real)
    ensures m <= a && m <= b && m <= c
    ensures m == a || m == b || m == c
  {
    if a <= b && a <= c then a else if b <= c then b else c
  }
}
