/**
 * JavaScript numbers as the two calculators use them, idealised: a finite
 * value is an exact real (no rounding, no overflow, no negative zero), and
 * NaN and the two infinities follow IEEE 754's rules for + - * /.
 * Also the calculator display: the text the keypad handlers build, or the
 * rendering `String(v)` of a computed number.
 */
module Numbers {
  import opened Wrappers
  import opened Strings

  datatype Number = Finite(r: real) | NaN | Infinity(negative: bool)

  /** Truthiness of a number: `0` and `NaN` are falsy. */
  predicate Truthy(n: Number) {
    match n
    case Finite(r) => r != 0.0
    case NaN => false
    case Infinity(_) => true
  }

  /** `x || 0` for a value that may be `null`: null and the falsy numbers become 0. */
  function OrZero(x: Option<Number>): (n: Number)
    ensures n.Finite? || Truthy(n)
    ensures x.Some? && Truthy(x.value) ==> n == x.value
  {
    if x.Some? && Truthy(x.value) then x.value else Finite(0.0)
  }

  function Neg(a: Number): Number {
    match a
    case Finite(x) => Finite(-x)
    case NaN => NaN
    case Infinity(s) => Infinity(!s)
  }

  /** IEEE addition: NaN in, NaN out; finite exactly when both operands are, and then the exact sum. */
  function Add(a: Number, b: Number): (r: Number)
    ensures a.NaN? || b.NaN? ==> r.NaN?
    ensures r.Finite? <==> a.Finite? && b.Finite?
    ensures a.Finite? && b.Finite? ==> r.r == a.r + b.r
  {
    match (a, b)
    case (Finite(x), Finite(y)) => Finite(x + y)
    case (Infinity(s), Infinity(t)) => if s == t then Infinity(s) else NaN
    case (Infinity(s), Finite(_)) => Infinity(s)
    case (Finite(_), Infinity(t)) => Infinity(t)
    case _ => NaN
  }

  /** IEEE subtraction, the addition of the negation. */
  function Sub(a: Number, b: Number): (r: Number)
    ensures a.NaN? || b.NaN? ==> r.NaN?
    ensures r.Finite? <==> a.Finite? && b.Finite?
    ensures a.Finite? && b.Finite? ==> r.r == a.r - b.r
  {
    Add(a, Neg(b))
  }

  /** IEEE multiplication; an infinity times 0 is NaN. */
  function Mul(a: Number, b: Number): (r: Number)
    ensures a.NaN? || b.NaN? ==> r.NaN?
    ensures r.Finite? <==> a.Finite? && b.Finite?
    ensures a.Finite? && b.Finite? ==> r.r == a.r * b.r
    ensures (a.Infinity? && b == Finite(0.0)) || (a == Finite(0.0) && b.Infinity?) ==> r.NaN?
  {
    match (a, b)
    case (Finite(x), Finite(y)) => Finite(x * y)
    case (Infinity(s), Infinity(t)) => Infinity(s != t)
    case (Infinity(s), Finite(y)) => if y == 0.0 then NaN else Infinity(s != (y < 0.0))
    case (Finite(x), Infinity(t)) => if x == 0.0 then NaN else Infinity(t != (x < 0.0))
    case _ => NaN
  }

  /** IEEE division: a non-zero number over 0 is an infinity of its sign, 0/0 is NaN, a number over an infinity is 0. */
  function Div(a: Number, b: Number): (r: Number)
    ensures a.NaN? || b.NaN? ==> r.NaN?
    ensures a.Finite? && b.Finite? && b.r != 0.0 ==> r == Finite(a.r / b.r)
    ensures a.Finite? && b == Finite(0.0) && a.r != 0.0 ==> r == Infinity(a.r < 0.0)
    ensures a == Finite(0.0) && b == Finite(0.0) ==> r.NaN?
    ensures a.Finite? && b.Infinity? ==> r == Finite(0.0)
  {
    match (a, b)
    case (Finite(x), Finite(y)) =>
      if y != 0.0 then Finite(x / y) else if x == 0.0 then NaN else Infinity(x < 0.0)
    case (Finite(_), Infinity(_)) => Finite(0.0)
    case (Infinity(s), Finite(y)) => Infinity(s != (y < 0.0))
    case _ => NaN
  }

  /** The operator keys of both calculators. */
  datatype Operator = Plus | Minus | Times | Over | Equals

  /**
   * The operator switch both calculators share: + - * / apply, any other
   * operator (that is, '=') yields the second operand.
   */
  function Calculate(first: Number, second: Number, op: Operator): (r: Number)
    ensures op == Equals ==> r == second
    ensures first.Finite? && second.Finite? && op != Over ==> r.Finite?
    ensures second.NaN? ==> r.NaN?
  {
    match op
    case Plus => Add(first, second)
    case Minus => Sub(first, second)
    case Times => Mul(first, second)
    case Over => Div(first, second)
    case Equals => second
  }

  /** On finite operands, subtraction undoes addition and division undoes multiplication. */
  lemma CalculateInverse(a: real, b: real)
    ensures Calculate(Calculate(Finite(a), Finite(b), Plus), Finite(b), Minus) == Finite(a)
    ensures b != 0.0 ==> Calculate(Calculate(Finite(a), Finite(b), Times), Finite(b), Over) == Finite(a)
  {
    if b != 0.0 {
      assert (a * b) / b == a;
    }
  }

  /** 10 to the power k. */
  function Pow10(k: nat): (p: nat)
    ensures p >= 1
  {
    if k == 0 then 1 else 10 * Pow10(k - 1)
  }

  function Scale(m: real, e: int): real {
    if e >= 0 then m * Pow10(e) as real else m / Pow10(-e) as real
  }

  /** The exponent `[eE][+-]digits` at the start of `s`; 0 when there is none (parseFloat ignores it). */
  function Exponent(s: string): int {
    if |s| > 0 && (s[0] == 'e' || s[0] == 'E') then ParseInt(s[1..], 10).GetOr(0) else 0
  }

  /**
   * `parseFloat(s)`: an optional sign, then `Infinity` or an unsigned
   * decimal; NaN otherwise. Leading whitespace is not modelled (no display
   * text has any).
   */
  function ParseFloat(s: string): (r: Number)
    ensures s == [] ==> r.NaN?
    ensures |s| > 0 && '0' <= s[0] <= '9' ==> r.Finite?
  {
    var (negative, t) := SignAndRest(s);
    if StartsWith(t, "Infinity") then Infinity(negative)
    else
      match Unsigned(t)
      case None => NaN
      case Some(m) => Finite(if negative then -m else m)
  }

  /**
   * The longest prefix `digits [. digits] [exponent]` of `t` with at least
   * one digit, as a value; `None` when there is no digit.
   */
  function Unsigned(t: string): (r: Option<real>)
    ensures t == [] ==> r.None?
    ensures |t| > 0 && CharValue(t[0]) < 10 ==> r.Some?
  {
    var k := DigitRun(t, 10);
    var rest := t[k..];
    var hasPoint := |rest| > 0 && rest[0] == '.';
    var fraction := if hasPoint then rest[1..] else [];
    var f := DigitRun(fraction, 10);
    if k == 0 && f == 0 then None
    else
      var mantissa := DigitsValue(t[..k], 10) as real + DigitsValue(fraction[..f], 10) as real / Pow10(f) as real;
      var tail := if hasPoint then fraction[f..] else rest;
      Some(Scale(mantissa, Exponent(tail)))
  }

  /** A non-empty run of decimal digits reads as its value. */
  lemma ParseFloatOfDigits(t: string)
    requires |t| > 0 && forall i :: 0 <= i < |t| ==> CharValue(t[i]) < 10
    ensures ParseFloat(t) == Finite(DigitsValue(t, 10) as real)
  {
    assert CharValue(t[0]) < 10 && CharValue('-') == 36 && CharValue('+') == 36;
    assert SignAndRest(t) == (false, t);
    if |t| >= 8 {
      assert t[..8][0] == t[0];
      assert CharValue('I') == 18;
    }
    assert !StartsWith(t, "Infinity");
    UnsignedOfDigits(t);
  }

  /** Digits alone, without point or exponent, read as their whole value. */
  lemma UnsignedOfDigits(t: string)
    requires |t| > 0 && forall i :: 0 <= i < |t| ==> CharValue(t[i]) < 10
    ensures Unsigned(t) == Some(DigitsValue(t, 10) as real)
  {
    DigitRunOfDigits(t, 10);
    var k := DigitRun(t, 10);
    var empty: string := [];
    assert t[k..] == empty;
    assert t[..k] == t;
    assert DigitRun(empty, 10) == 0;
    assert empty[..0] == empty;
    assert Exponent(empty) == 0;
    WholeMantissa(DigitsValue(t, 10));
  }

  /** A mantissa without fraction digits, at exponent 0, is the whole part. */
  lemma WholeMantissa(a: nat)
    ensures Scale(a as real + DigitsValue([], 10) as real / Pow10(0) as real, 0) == a as real
  {
    assert DigitsValue([], 10) == 0 && Pow10(0) == 1;
  }

  /** The decimal text of a natural number reads as that number. */
  lemma ParseFloatOfNat(n: nat)
    ensures ParseFloat(NatToString(n)) == Finite(n as real)
  {
    ParseFloatOfDigits(NatToString(n));
    DigitsValueOfRadix(n, 10);
  }

  /** `Math.trunc`: the integer part, rounding toward zero. */
  function Trunc(r: real): (i: int)
    ensures r >= 0.0 ==> i as real <= r < i as real + 1.0
    ensures r < 0.0 ==> i as real - 1.0 < r <= i as real
  {
    if r >= 0.0 then r.Floor else -((-r).Floor)
  }

  /** Number.isInteger. */
  predicate IsInteger(n: Number) {
    n.Finite? && n.r == n.r.Floor as real
  }

  /** What the display shows: text typed or set by a handler, or `String(v)` of a computed number. */
  datatype Display = Typed(text: string) | Rendered(value: Number)

  /** `parseFloat(display)`; for a rendered number, `parseFloat(String(v))` is `v` again. */
  function DisplayValue(d: Display): Number {
    match d
    case Typed(t) => ParseFloat(t)
    case Rendered(v) => v
  }

  /**
   * `parseInt(display, 10)`; for a rendered finite number this is its integer
   * part (exponent notation of very large or small values is not modelled).
   */
  function DisplayInteger(d: Display): Option<int> {
    match d
    case Typed(t) => ParseInt(t, 10)
    case Rendered(Finite(r)) => Some(Trunc(r))
    case Rendered(_) => None
  }

  /** The keys the keypads send to `inputDigit`: decimal digits and the hexadecimal letters. */
  predicate IsKeyDigit(c: char) {
    '0' <= c <= '9' || 'A' <= c <= 'F'
  }

  /** Digit entry on a display that is not waiting: a lone "0" is replaced, anything else extended. */
  function WithDigit(text: string, d: char): (r: string)
    requires IsKeyDigit(d)
    ensures Occurrences(r, '.') == Occurrences(text, '.')
    ensures text != "0" ==> r == text + [d]
    ensures text == "0" ==> r == [d]
  {
    OccurrencesAppend(text, [d], '.');
    if text == "0" then [d] else text + [d]
  }

  /** Decimal-point entry on a display that is not waiting: a second point is never added. */
  function WithPoint(text: string): (r: string)
    ensures '.' in r
    ensures Occurrences(r, '.') == if '.' in text then Occurrences(text, '.') else 1
    ensures '.' in text ==> r == text
  {
    OccurrencesAppend(text, ".", '.');
    if '.' in text then text else text + "."
  }
}
