/** JavaScript values as the monitor's audio code produces and exchanges them.
    Doubles are read as exact reals; the non-finite values the code can reach
    (division by zero, reading past the end of an array) are kept explicit. */
module JsValues {

  /** An optional property of a JSON or SDK object: absent, or present with a value. */
  datatype Option<T> = None | Some(value: T) {
    /** `x || d` for a property whose falsy values other than "absent" coincide with `d`. */
    function GetOr(default: T): T {
      match this
      case Some(v) => v
      case None => default
    }
  }

  /** A number computed in the browser: finite, positive infinity, or NaN.
      Every quantity the core divides or adds is a sum of magnitudes, an RMS
      value or a count, so negative infinity never arises. */
  datatype Num = Finite(value: real) | Infinity | NaN

  /** `x` is not a negative number (NaN and +Infinity are not negative). */
  predicate NotNegative(x: Num) {
    x.Finite? ==> x.value >= 0.0
  }

  /** `x / y` with IEEE-754 semantics on the non-negative numbers. */
  function Div(x: Num, y: Num): (r: Num)
    requires NotNegative(x) && NotNegative(y)
    ensures NotNegative(r)
    ensures r.NaN? <==> x.NaN? || y.NaN? || (x.Infinity? && y.Infinity?)
                         || (x == Finite(0.0) && y == Finite(0.0))
    ensures r.Infinity? <==> (x.Infinity? && y.Finite?)
                             || (x.Finite? && x.value > 0.0 && y == Finite(0.0))
    ensures r.Finite? && y.Finite? ==> r.value * y.value == x.value
  {
    match (x, y)
    case (NaN, _) => NaN
    case (_, NaN) => NaN
    case (Infinity, Infinity) => NaN
    case (Infinity, Finite(_)) => Infinity
    case (Finite(_), Infinity) => Finite(0.0)
    case (Finite(a), Finite(b)) =>
      if b > 0.0 then Finite(a / b)
      else if a > 0.0 then Infinity
      else NaN
  }

  /** `x + y` with IEEE-754 semantics on the non-negative numbers. */
  function Add(x: Num, y: Num): (r: Num)
    requires NotNegative(x) && NotNegative(y)
    ensures NotNegative(r)
    ensures r.NaN? <==> x.NaN? || y.NaN?
    ensures r.Finite? <==> x.Finite? && y.Finite?
    ensures r.Finite? ==> r.value >= x.value && r.value >= y.value
  {
    match (x, y)
    case (NaN, _) => NaN
    case (_, NaN) => NaN
    case (Infinity, _) => Infinity
    case (_, Infinity) => Infinity
    case (Finite(a), Finite(b)) => Finite(a + b)
  }

  /** `x > c` for a finite constant `c`: every comparison with NaN is false. */
  predicate Greater(x: Num, c: real): (b: bool)
    ensures x.NaN? ==> !b
    ensures x.Infinity? ==> b
    ensures x.Finite? ==> (b <==> x.value > c)
  {
    match x
    case Finite(v) => v > c
    case Infinity => true
    case NaN => false
  }

  /** `Math.sign` of a finite number. */
  function Sign(x: real): (r: int)
    ensures -1 <= r <= 1
    ensures r == 0 <==> x == 0.0
    ensures r > 0 <==> x > 0.0
  {
    if x > 0.0 then 1 else if x < 0.0 then -1 else 0
  }

  /** With a positive factor `n`, `a * n` has the sign of `a`. */
  lemma ProductSign(a: real, n: real)
    requires n > 0.0
    ensures a > 0.0 ==> a * n > 0.0
    ensures a < 0.0 ==> a * n < 0.0
  {
  }

  /** A number after `JSON.stringify` and `JSON.parse`. */
  datatype JsonNumber = Null | Number(value: real)

  /** `JSON.stringify` writes NaN and the infinities as `null`. */
  function ToJson(x: Num): (j: JsonNumber)
    ensures j.Number? <==> x.Finite?
    ensures j.Number? ==> j.value == x.value
  {
    match x
    case Finite(v) => Number(v)
    case _ => Null
  }

  /** The number a relational or arithmetic operator reads from a JSON value:
      `null` converts to +0. */
  function ToNumber(j: JsonNumber): (r: real)
    ensures j.Null? ==> r == 0.0
    ensures j.Number? ==> r == j.value
  {
    match j
    case Number(v) => v
    case Null => 0.0
  }

  /** A non-negative threshold test gives the same answer before and after the
      JSON round trip for every finite number and NaN; only +Infinity, which
      passes before and reads as 0 after, differs. */
  lemma ComparisonThroughJson(x: Num, c: real)
    requires c >= 0.0
    ensures ToNumber(ToJson(x)) > c <==> x.Finite? && Greater(x, c)
    ensures !x.Infinity? ==> (ToNumber(ToJson(x)) > c <==> Greater(x, c))
  {
  }

  /** `Math.min` of two finite numbers. */
  function Min(a: real, b: real): (r: real)
    ensures r <= a && r <= b
    ensures r == a || r == b
  {
    if a <= b then a else b
  }

  /** `t` occurs in `s` starting at index `i`. */
  predicate OccursAt(s: string, t: string, i: int) {
    0 <= i && i + |t| <= |s| && s[i..i + |t|] == t
  }

  /** `s.includes(t)`: a left-to-right search for `t`. */
  function Includes(s: string, t: string): (b: bool)
    ensures b <==> exists i :: OccursAt(s, t, i)
    decreases |s|
  {
    if OccursAt(s, t, 0) then true
    else if |s| == 0 then false
    else
      var b := Includes(s[1..], t);
      assert b ==> exists i :: OccursAt(s, t, i) by {
        if b {
          var i :| OccursAt(s[1..], t, i);
          assert OccursAt(s, t, i + 1);
        }
      }
      assert (exists i :: OccursAt(s, t, i)) ==> b by {
        if exists i :: OccursAt(s, t, i) {
          var i :| OccursAt(s, t, i);
          assert OccursAt(s[1..], t, i - 1);
        }
      }
      b
  }

  /** Text added on either side never removes an occurrence. */
  lemma IncludesExtends(s: string, u: string, t: string)
    ensures Includes(s, t) ==> Includes(s + u, t) && Includes(u + s, t)
  {
    if Includes(s, t) {
      var i :| OccursAt(s, t, i);
      assert (s + u)[i..i + |t|] == s[i..i + |t|];
      assert OccursAt(s + u, t, i);
      assert (u + s)[|u| + i..|u| + i + |t|] == s[i..i + |t|];
      assert OccursAt(u + s, t, |u| + i);
    }
  }
}
