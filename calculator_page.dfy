/**
 * The multi-mode calculator page: digit entry with a pending operator, the
 * programmer keypad's base filter and base conversion, the factorial, and
 * the memory keys.
 */
module CalculatorPage {
  import opened Wrappers
  import opened Strings
  import opened Numbers

  datatype Mode = Standard | Scientific | Programmer | Converter

  datatype Base = Dec | Bin | Oct | Hex

  function Radix(b: Base): (r: nat)
    ensures IsRadix(r)
  {
    match b
    case Dec => 10
    case Bin => 2
    case Oct => 8
    case Hex => 16
  }

  /**
   * The programmer keypad's filter: in binary only '0' and '1' pass; in octal
   * a key is refused when `parseInt(key)` is at least 8, which lets a
   * letter, whose `parseInt` is NaN, through.
   */
  predicate Rejected(mode: Mode, base: Base, key: char) {
    && mode == Programmer
    && ((base == Bin && key != '0' && key != '1')
        || (base == Oct && var v := ParseInt([key], 10); v.Some? && v.value >= 8))
  }

  /** In octal exactly '8' and '9' are refused among the keypad's keys; the hexadecimal letters pass. */
  lemma OctalFilter(key: char)
    requires IsKeyDigit(key)
    ensures Rejected(Programmer, Oct, key) <==> key == '8' || key == '9'
  {
    var v := ParseInt([key], 10);
    assert [key][1..] == [];
    assert SignAndRest([key]) == (false, [key]);
    if '0' <= key <= '9' {
      assert DigitRun([key], 10) == 1;
      assert [key][..1] == [key];
      assert DigitsValue([key], 10) == DigitsValue([], 10) * 10 + CharValue(key);
      assert v == Some(key as int - '0' as int);
    } else {
      assert CharValue(key) >= 10;
      assert DigitRun([key], 10) == 0;
    }
  }

  /** A decimal digit the filter lets through in binary or octal is a digit of that base. */
  lemma AcceptedDigitFitsBase(base: Base, key: char)
    requires base == Bin || base == Oct
    requires '0' <= key <= '9' && !Rejected(Programmer, base, key)
    ensures CharValue(key) < Radix(base)
  {
    if base == Oct {
      OctalFilter(key);
    }
  }

  /** `n.toString(radix)`, upper-cased for hexadecimal: an optional minus, then digits of the base. */
  function FormatInt(n: int, base: Base): (s: string)
    ensures ParseInt(s, Radix(base)) == Some(n)
    ensures |s| >= 1 && (s[0] == '-' <==> n < 0)
    ensures forall i :: 0 <= i < |s| ==> (i == 0 && s[i] == '-') || CharValue(s[i]) < Radix(base)
    ensures base == Hex ==> forall i :: 0 <= i < |s| ==> !('a' <= s[i] <= 'z')
    ensures s[0] == '0' ==> |s| == 1
    ensures |s| >= 2 && s[0] == '-' ==> s[1] != '0'
  {
    ParseIntOfRadix(n, Radix(base));
    if base == Hex then
      ParseIntIgnoresCase(IntToRadix(n, 16), 16);
      ToUpper(IntToRadix(n, 16))
    else IntToRadix(n, Radix(base))
  }

  /**
   * `formatProgrammingValue`: the decimal reading of `value` written in
   * `base` (upper-case in hexadecimal), or "0" when it has none.
   */
  function FormatProgrammingValue(value: string, base: Base): (s: string)
    ensures ParseInt(value, 10).None? ==> s == "0"
    ensures ParseInt(value, 10).Some? ==>
      && ParseInt(s, Radix(base)) == ParseInt(value, 10)
      && (s[0] == '-' <==> ParseInt(value, 10).value < 0)
      && (forall i :: 0 <= i < |s| ==> (i == 0 && s[i] == '-') || CharValue(s[i]) < Radix(base))
      && (base == Hex ==> forall i :: 0 <= i < |s| ==> !('a' <= s[i] <= 'z'))
      && (s[0] == '0' ==> |s| == 1)
      && (|s| >= 2 && s[0] == '-' ==> s[1] != '0')
  {
    match ParseInt(value, 10)
    case None => "0"
    case Some(n) => FormatInt(n, base)
  }

  /**
   * What the programmer display shows: `formatProgrammingValue` of the
   * display, so its decimal reading in the selected base, or "0". A computed
   * number is read through its integer part, as `parseInt(String(v), 10)` is.
   */
  function ProgrammerView(d: Display, base: Base): (s: string)
    ensures DisplayInteger(d).None? ==> s == "0"
    ensures DisplayInteger(d).Some? ==> ParseInt(s, Radix(base)) == DisplayInteger(d)
    ensures DisplayInteger(d).Some? ==> s == FormatInt(DisplayInteger(d).value, base)
  {
    match d
    case Typed(t) => FormatProgrammingValue(t, base)
    case Rendered(_) =>
      match DisplayInteger(d)
      case None => "0"
      case Some(n) => FormatInt(n, base)
  }

  /**
   * The calculator's display field: in programmer mode its view in the
   * selected base, in standard and scientific mode the display itself;
   * the converter renders no such field.
   */
  function Shown(s: CalculatorState): (d: Option<Display>)
    ensures d.None? <==> s.mode == Converter
    ensures s.mode == Programmer ==> d == Some(Typed(ProgrammerView(s.display, s.base)))
    ensures s.mode == Standard || s.mode == Scientific ==> d == Some(s.display)
  {
    match s.mode
    case Converter => None
    case Programmer => Some(Typed(ProgrammerView(s.display, s.base)))
    case _ => Some(s.display)
  }

  /** The view depends on the display only through its decimal reading. */
  lemma ProgrammerViewOfReading(d: Display, e: Display, base: Base)
    requires DisplayInteger(d) == DisplayInteger(e)
    ensures ProgrammerView(d, base) == ProgrammerView(e, base)
  {
  }

  /**
   * The base switch as written: the display is read as a decimal integer
   * and passed to the formatter, but the formatter still sees the base that
   * was selected before the switch.
   */
  function BaseChangeAsWritten(display: Display, oldBase: Base, newBase: Base): (d: Display)
    ensures DisplayInteger(display).None? ==> d == display
    ensures DisplayInteger(display).Some? ==> d.Typed? && ParseInt(d.text, Radix(oldBase)) == DisplayInteger(display)
  {
    match DisplayInteger(display)
    case None => display
    case Some(n) => ParseIntOfRadix(n, 10); Typed(FormatProgrammingValue(IntToRadix(n, 10), oldBase))
  }

  /**
   * The base switch as intended: the display keeps its decimal reading, now
   * as decimal text, and the view renders it in the new base. A display
   * without a reading stays.
   */
  function BaseChange(display: Display): (d: Display)
    ensures DisplayInteger(d) == DisplayInteger(display)
    ensures DisplayInteger(display).None? ==> d == display
    ensures DisplayInteger(display).Some? ==> d.Typed? && '.' !in d.text
  {
    match DisplayInteger(display)
    case None => display
    case Some(n) =>
      ParseIntOfRadix(n, 10);
      FormattedDigitsHaveNoPoint(n, Dec);
      Typed(IntToRadix(n, 10))
  }

  /** From decimal the written switch is the intended one: the stale base is then decimal, which the formatter leaves as it is. */
  lemma AsWrittenFromDecimal(display: Display, newBase: Base)
    ensures BaseChangeAsWritten(display, Dec, newBase) == BaseChange(display)
  {
    if DisplayInteger(display).Some? {
      ParseIntOfRadix(DisplayInteger(display).value, 10);
    }
  }

  /**
   * After the intended switch the display shows, in the new base, the
   * number it showed in the old one: both views read back as the same integer.
   */
  lemma SwitchKeepsValue(display: Display, oldBase: Base, newBase: Base)
    requires DisplayInteger(display).Some?
    ensures ParseInt(ProgrammerView(BaseChange(display), newBase), Radix(newBase))
         == ParseInt(ProgrammerView(display, oldBase), Radix(oldBase))
  {
  }

  /** Switching the programmer display to another base and back shows what it showed before. */
  lemma BaseChangeRoundTrip(s: CalculatorState, b: Base)
    requires s.mode == Programmer
    ensures var there := s.(base := b, display := BaseChange(s.display));
      Shown(there.(base := s.base, display := BaseChange(there.display))) == Shown(s)
  {
    var there := s.(base := b, display := BaseChange(s.display));
    ProgrammerViewOfReading(BaseChange(there.display), s.display, s.base);
  }

  /** In hexadecimal a display of 255 shows "FF"; switched to decimal it shows "255". */
  lemma HexToDecimal()
    ensures ProgrammerView(Typed("255"), Hex) == "FF"
    ensures ProgrammerView(BaseChange(Typed("255")), Dec) == "255"
  {
    Decimal255();
    ParseIntOfRadix(255, 10);
    Hex255();
    ProgrammerViewOfReading(BaseChange(Typed("255")), Typed("255"), Dec);
    assert FormatInt(255, Dec) == IntToRadix(255, 10);
  }

  lemma Hex255()
    ensures FormatInt(255, Hex) == "FF"
  {
    assert NatToRadix(15, 16) == "f";
    assert NatToRadix(255, 16) == NatToRadix(15, 16) + [DigitChar(15)];
    assert IntToRadix(255, 16) == "ff";
    assert ToUpper("ff") == "FF";
  }

  lemma Decimal255()
    ensures IntToRadix(255, 10) == "255"
  {
    assert NatToRadix(2, 10) == "2";
    assert NatToRadix(25, 10) == NatToRadix(2, 10) + [DigitChar(5)];
    assert NatToRadix(255, 10) == NatToRadix(25, 10) + [DigitChar(5)];
  }

  /**
   * Leaving binary with 5 on the display, which shows "101", the written
   * switch stores the binary text "101" as the display, and decimal then
   * shows 101.
   */
  lemma LeavingBinaryChangesValue()
    ensures ProgrammerView(Typed("5"), Bin) == "101"
    ensures BaseChangeAsWritten(Typed("5"), Bin, Dec) == Typed("101")
    ensures ProgrammerView(BaseChangeAsWritten(Typed("5"), Bin, Dec), Dec) == "101"
    ensures ProgrammerView(BaseChange(Typed("5")), Dec) == "5"
  {
    Digit5();
    Binary5();
    Decimal101();
    ParseIntOfRadix(101, 10);
    ParseIntOfRadix(5, 10);
    assert FormatInt(5, Dec) == "5";
    assert FormatInt(101, Dec) == "101";
  }

  /** Leaving hexadecimal with 255 on the display, which shows "FF", the written switch stores "FF", which decimal shows as "0". */
  lemma LeavingHexShowsZero()
    ensures BaseChangeAsWritten(Typed("255"), Hex, Dec) == Typed("FF")
    ensures ProgrammerView(Typed("FF"), Dec) == "0"
  {
    Decimal255();
    ParseIntOfRadix(255, 10);
    Hex255();
    assert DigitRun("FF", 10) == 0;
  }

  lemma Digit5()
    ensures IntToRadix(5, 10) == "5" && ParseInt("5", 10) == Some(5)
  {
    ParseIntOfRadix(5, 10);
  }

  lemma Binary5()
    ensures FormatInt(5, Bin) == "101"
  {
    assert NatToRadix(1, 2) == "1";
    assert NatToRadix(2, 2) == NatToRadix(1, 2) + [DigitChar(0)];
    assert NatToRadix(5, 2) == NatToRadix(2, 2) + [DigitChar(1)];
  }

  lemma Decimal101()
    ensures IntToRadix(101, 10) == "101" && ParseInt("101", 10) == Some(101)
  {
    assert NatToRadix(1, 10) == "1";
    assert NatToRadix(10, 10) == NatToRadix(1, 10) + [DigitChar(0)];
    assert NatToRadix(101, 10) == NatToRadix(10, 10) + [DigitChar(1)];
    ParseIntOfRadix(101, 10);
  }

  /** n! by its recursive definition. */
  function Fact(n: nat): (f: nat)
    ensures f >= 1
  {
    if n == 0 then 1 else Fact(n - 1) * n
  }

  /** The factorial loop: the product 2 * 3 * ... * n, starting from 1. */
  method FactorialLoop(n: nat) returns (result: nat)
    ensures result == Fact(n)
  {
    result := 1;
    var i := 2;
    while i <= n
      invariant 2 <= i <= if n < 2 then 2 else n + 1
      invariant result == Fact(i - 1)
    {
      ghost var before := result;
      result := result * i;
      assert result == Fact(i) by {
        assert before == Fact(i - 1);
      }
      i := i + 1;
    }
  }

  /** The scientific operations on exact values; the transcendental ones and the constants are not modelled. */
  datatype ScientificOp = Square | Cube | Inverse | Factorial

  function Unary(op: ScientificOp, v: Number): Number
    requires op != Factorial
  {
    match op
    case Square => Mul(v, v)
    case Cube => Mul(Mul(v, v), v)
    case Inverse => Div(Finite(1.0), v)
  }

  datatype MemoryOp = MC | MR | MPlus | MMinus | MS

  /** The memory after a memory key, given the display's value `current`. */
  function MemoryAfter(op: MemoryOp, memory: Option<Number>, current: Number): (m: Option<Number>)
    ensures op == MC ==> m.None?
    ensures op == MR ==> m == memory
    ensures op == MS ==> m == Some(current)
    ensures op == MPlus ==> m == Some(Add(OrZero(memory), current))
    ensures op == MMinus ==> m == Some(Sub(OrZero(memory), current))
    ensures op == MPlus && memory.None? ==> m == Some(Add(Finite(0.0), current))
    ensures (op == MPlus || op == MMinus) && (memory.None? || memory.value.Finite?) && current.Finite? ==>
      m.Some? && m.value.Finite?
  {
    match op
    case MC => None
    case MR => memory
    case MPlus => Some(Add(OrZero(memory), current))
    case MMinus => Some(Sub(OrZero(memory), current))
    case MS => Some(current)
  }

  /** M+ then M- of the same finite value restores a non-zero memory, and leaves 0 where there was none. */
  lemma MemoryAddThenSubtract(memory: Option<Number>, c: real)
    requires memory.None? || memory.value.Finite?
    ensures var after := MemoryAfter(MMinus, MemoryAfter(MPlus, memory, Finite(c)), Finite(c));
      after == if memory.Some? && Truthy(memory.value) then memory else Some(Finite(0.0))
  {
    var m := if memory.Some? && Truthy(memory.value) then memory.value.r else 0.0;
    assert OrZero(memory) == Finite(m);
    assert Add(Finite(m), Finite(c)) == Finite(m + c);
    SubtractAfterAdd(m, c);
  }

  lemma SubtractAfterAdd(m: real, c: real)
    ensures MemoryAfter(MMinus, Some(Finite(m + c)), Finite(c)) == Some(Finite(m))
  {
    var back := if m + c != 0.0 then m + c else 0.0;
    assert OrZero(Some(Finite(m + c))) == Finite(back);
    assert Neg(Finite(c)) == Finite(-c);
    assert Add(Finite(back), Finite(-c)) == Finite(back - c);
  }

  datatype CalculatorState = CalculatorState(
    display: Display,
    operation: Option<Operator>,
    prevValue: Option<Number>,
    waiting: bool,
    mode: Mode,
    base: Base,
    memory: Option<Number>)

  class Calculator {
    var display: Display
    var operation: Option<Operator>
    var prevValue: Option<Number>
    var waiting: bool
    var mode: Mode
    var base: Base
    var memory: Option<Number>

    function State(): CalculatorState
      reads this
    {
      CalculatorState(display, operation, prevValue, waiting, mode, base, memory)
    }

    /**
     * A computed number is shown only while waiting for the next operand, and a
     * typed display never holds a second decimal point.
     */
    predicate Valid()
      reads this
    {
      && (display.Rendered? ==> waiting)
      && (display.Typed? ==> Occurrences(display.text, '.') <= 1)
    }

    constructor ()
      ensures Valid()
      ensures State() == CalculatorState(Typed("0"), None, None, false, Standard, Dec, None)
    {
      display := Typed("0");
      operation := None;
      prevValue := None;
      waiting := false;
      mode := Standard;
      base := Dec;
      memory := None;
    }

    method SetMode(m: Mode)
      requires Valid()
      modifies this
      ensures Valid()
      ensures State() == old(State()).(mode := m)
    {
      mode := m;
    }

    /** `inputDigit`: a filtered key does nothing; waiting starts a new number; otherwise the key is appended. */
    method InputDigit(key: char)
      requires Valid() && IsKeyDigit(key)
      modifies this
      ensures Valid()
      ensures Rejected(old(mode), old(base), key) ==> State() == old(State())
      ensures !Rejected(old(mode), old(base), key) && old(waiting) ==>
        State() == old(State()).(display := Typed([key]), waiting := false)
      ensures !Rejected(old(mode), old(base), key) && !old(waiting) ==>
        State() == old(State()).(display := Typed(WithDigit(old(display).text, key)))
    {
      if Rejected(mode, base, key) {
        return;
      }
      if waiting {
        display := Typed([key]);
        waiting := false;
      } else {
        display := Typed(WithDigit(display.text, key));
      }
    }

    /** `inputDecimal`: none in programmer mode; "0." when waiting; otherwise at most one point. */
    method InputDecimal()
      requires Valid()
      modifies this
      ensures Valid()
      ensures old(mode) == Programmer ==> State() == old(State())
      ensures old(mode) != Programmer && old(waiting) ==> State() == old(State()).(display := Typed("0."), waiting := false)
      ensures old(mode) != Programmer && !old(waiting) ==> State() == old(State()).(display := Typed(WithPoint(old(display).text)))
    {
      if mode == Programmer {
        return;
      }
      if waiting {
        assert "0."[1..] == "." && "."[1..] == [];
        display := Typed("0.");
        waiting := false;
      } else {
        display := Typed(WithPoint(display.text));
      }
    }

    /** `clearDisplay`: "0", no operator, no first operand, not waiting; mode, base and memory stay. */
    method ClearDisplay()
      modifies this
      ensures Valid()
      ensures State() == old(State()).(display := Typed("0"), operation := None, prevValue := None, waiting := false)
    {
      display := Typed("0");
      operation := None;
      prevValue := None;
      waiting := false;
    }

    /**
     * `performOperation`: the first operand is stored; after that the pending
     * operator is applied to the stored operand (a falsy one counts as 0) and
     * the display, and the result becomes the stored operand.
     */
    method PerformOperation(next: Operator)
      requires Valid()
      modifies this
      ensures Valid()
      ensures waiting && operation == Some(next)
      ensures mode == old(mode) && base == old(base) && memory == old(memory)
      ensures old(prevValue).None? ==> prevValue == Some(DisplayValue(old(display))) && display == old(display)
      ensures old(prevValue).Some? && old(operation).None? ==> prevValue == old(prevValue) && display == old(display)
      ensures old(prevValue).Some? && old(operation).Some? ==>
        var result := Calculate(OrZero(old(prevValue)), DisplayValue(old(display)), old(operation).value);
        prevValue == Some(result) && display == Rendered(result)
    {
      var input := DisplayValue(display);
      if prevValue.None? {
        prevValue := Some(input);
      } else if operation.Some? {
        var result := Calculate(OrZero(prevValue), input, operation.value);
        prevValue := Some(result);
        display := Rendered(result);
      }
      waiting := true;
      operation := Some(next);
    }

    /**
     * The modelled scientific keys. The factorial of a value that is negative
     * or not an integer shows "Error" and leaves the waiting flag alone.
     */
    method ScientificOperation(op: ScientificOp)
      requires Valid()
      modifies this
      ensures Valid()
      ensures operation == old(operation) && prevValue == old(prevValue) && memory == old(memory)
      ensures mode == old(mode) && base == old(base)
      ensures var v := DisplayValue(old(display));
        && (op == Factorial && !(IsInteger(v) && v.r >= 0.0) ==> display == Typed("Error") && waiting == old(waiting))
        && (op == Factorial && IsInteger(v) && v.r >= 0.0 ==> display == Rendered(Finite(Fact(v.r.Floor) as real)) && waiting)
        && (op != Factorial ==> display == Rendered(Unary(op, v)) && waiting)
    {
      var v := DisplayValue(display);
      var result: Number;
      if op == Factorial {
        if !(IsInteger(v) && v.r >= 0.0) {
          display := Typed("Error");
          return;
        }
        var f := FactorialLoop(v.r.Floor);
        result := Finite(f as real);
      } else {
        result := Unary(op, v);
      }
      display := Rendered(result);
      waiting := true;
    }

    /** `handleMemoryOperation`: MR shows the memory only when there is one; every key but MC and MR sets waiting. */
    method MemoryOperation(op: MemoryOp)
      requires Valid()
      modifies this
      ensures Valid()
      ensures memory == MemoryAfter(op, old(memory), DisplayValue(old(display)))
      ensures operation == old(operation) && prevValue == old(prevValue) && mode == old(mode) && base == old(base)
      ensures op == MR && old(memory).Some? ==> display == Rendered(old(memory).value) && waiting
      ensures op == MR && old(memory).None? ==> display == old(display) && waiting == old(waiting)
      ensures op == MC ==> display == old(display) && waiting == old(waiting)
      ensures op in {MPlus, MMinus, MS} ==> display == old(display) && waiting
    {
      var current := DisplayValue(display);
      memory := MemoryAfter(op, memory, current);
      match op {
        case MC =>
        case MR =>
          if memory.Some? {
            display := Rendered(memory.value);
            waiting := true;
          }
        case _ =>
          waiting := true;
      }
    }

    /**
     * `handleProgrammingBaseChange`, with the display read in the old base
     * and written in the newly selected one (see `BaseChangeAsWritten` for
     * the code as written).
     */
    method ChangeBase(newBase: Base)
      requires Valid()
      modifies this
      ensures Valid()
      ensures State() == old(State()).(base := newBase, display := BaseChange(old(display)))
      ensures mode == Programmer ==> Shown(State()) == Some(Typed(ProgrammerView(old(display), newBase)))
    {
      base := newBase;
      display := BaseChange(display);
      ProgrammerViewOfReading(display, old(display), newBase);
    }
  }

  /** A formatted integer holds no decimal point. */
  lemma FormattedDigitsHaveNoPoint(n: int, base: Base)
    ensures '.' !in FormatInt(n, base)
  {
    var digits := NatToRadix(if n < 0 then -n else n, Radix(base));
    assert forall i :: 0 <= i < |digits| ==> CharValue(digits[i]) < 36;
  }
}
