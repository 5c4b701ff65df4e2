/** Values as the JavaScript code sees them: a field of a JSON record that may be
    absent, a number that arithmetic on an absent field turns into NaN, and the
    rounding to cents that every monetary output goes through. */
module JsValues {

  /** A field that may be absent (`undefined`) from a record. */
  datatype Option<T> = None | Some(value: T) {
    /** `x || d` on a field whose falsy values all mean "use d". */
    function GetOr(default: T): T {
      match this
      case Some(v) => v
      case None => default
    }
  }

  /** A JavaScript number in the calculation: a finite value, or NaN, which is what
      `undefined` becomes in arithmetic. Infinities are not modelled. */
  datatype Num = Finite(v: real) | NaN

  /** The number a field contributes to arithmetic: an absent field becomes NaN. */
  function OfField(x: Option<real>): (r: Num)
    ensures r.Finite? <==> x.Some?
    ensures r.Finite? ==> r.v == x.value
  {
    if x.Some? then Finite(x.value) else NaN
  }

  /** `a - b`; NaN is contagious. */
  function Sub(a: Num, b: Num): (r: Num)
    ensures r.Finite? <==> a.Finite? && b.Finite?
    ensures r.Finite? ==> r.v + b.v == a.v
  {
    if a.Finite? && b.Finite? then Finite(a.v - b.v) else NaN
  }

  /** `Math.max(0, x)` on a finite value. */
  function MaxCero(x: real): real {
    if x > 0.0 then x else 0.0
  }

  /** `Math.max(0, a)`: NaN stays NaN, anything else is floored at zero. */
  function MaxZero(a: Num): (r: Num)
    ensures r.Finite? <==> a.Finite?
    ensures r.Finite? ==> r.v >= 0.0 && r.v >= a.v && (r.v == 0.0 || r.v == a.v)
  {
    if a.NaN? then NaN else Finite(MaxCero(a.v))
  }

  /** `a / n` for a non-zero whole count `n`. */
  function DivBy(a: Num, n: int): (r: Num)
    requires n != 0
    ensures r.Finite? <==> a.Finite?
    ensures r.Finite? ==> r.v * (n as real) == a.v
  {
    if a.NaN? then NaN else Finite(a.v / (n as real))
  }

  /** `a * k`. */
  function Scale(a: Num, k: real): (r: Num)
    ensures r.Finite? <==> a.Finite?
  {
    if a.NaN? then NaN else Finite(a.v * k)
  }

  /** `a <= b`: false whenever `a` is NaN. */
  predicate AtMost(a: Num, b: real) {
    a.Finite? && a.v <= b
  }

  /** `a < b`: false whenever either side is NaN. */
  predicate Below(a: Num, b: Num) {
    a.Finite? && b.Finite? && a.v < b.v
  }

  /** `Math.round(x * 100) / 100` on an exact value: the nearest whole number of
      cents, halves rounded up, as `Math.round` does. */
  function RoundCents(x: real): (r: real)
    ensures x - 0.005 < r <= x + 0.005
    ensures (r * 100.0).Floor as real == r * 100.0
    ensures x >= 0.0 ==> r >= 0.0
  {
    ((x * 100.0 + 0.5).Floor as real) / 100.0
  }

  /** An amount that already is a whole number of cents comes back unchanged. */
  lemma RoundCentsKeepsCents(x: real)
    requires (x * 100.0).Floor as real == x * 100.0
    ensures RoundCents(x) == x
  {
    var c := (x * 100.0).Floor;
    assert (x * 100.0 + 0.5).Floor == c;
  }

  /** A whole amount comes back unchanged. */
  lemma RoundCentsWhole(n: int)
    ensures RoundCents(n as real) == n as real
  {
    var c := n * 100;
    assert n as real * 100.0 + 0.5 == c as real + 0.5;
    assert (c as real + 0.5).Floor == c;
  }

  /** Rounding to cents never reverses the order of two amounts. */
  lemma RoundCentsMonotonic(x: real, y: real)
    requires x <= y
    ensures RoundCents(x) <= RoundCents(y)
  {
    assert (x * 100.0 + 0.5).Floor <= (y * 100.0 + 0.5).Floor;
  }

  /** `Math.round(a * 100) / 100` on a number: NaN stays NaN. */
  function RoundNum(a: Num): (r: Num)
    ensures r.Finite? <==> a.Finite?
    ensures r.Finite? ==> a.v - 0.005 < r.v <= a.v + 0.005
    ensures r.Finite? && a.v >= 0.0 ==> r.v >= 0.0
  {
    if a.NaN? then NaN else Finite(RoundCents(a.v))
  }
}
