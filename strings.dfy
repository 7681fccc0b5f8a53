/**
 * The pieces of JavaScript's string and number-to-text behaviour that the
 * application relies on: `Number.prototype.toString(radix)`, `parseInt`,
 * ASCII `toUpperCase`, `trim`, `split` and `join`.
 */
module Strings {
  import opened Wrappers

  /** Value of `c` as a digit in any radix up to 36, either case; 36 when `c` is no digit. */
  function CharValue(c: char): (v: nat)
    ensures v <= 36
    ensures '0' <= c <= '9' ==> v == c as int - '0' as int
  {
    if '0' <= c <= '9' then c as int - '0' as int
    else if 'a' <= c <= 'z' then c as int - 'a' as int + 10
    else if 'A' <= c <= 'Z' then c as int - 'A' as int + 10
    else 36
  }

  /** The radixes the application formats and parses with (binary up to hexadecimal). */
  predicate IsRadix(radix: nat) {
    2 <= radix <= 16
  }

  /** The digit `d` as `toString` writes it: 0-9, then lower-case letters. */
  function DigitChar(d: nat): (c: char)
    requires d < 16
    ensures CharValue(c) == d
    ensures c != '-' && c != '+'
  {
    if d < 10 then ('0' as int + d) as char else ('a' as int + d - 10) as char
  }

  /** `n.toString(radix)` for a natural number: most significant digit first, no leading zeros. */
  function NatToRadix(n: nat, radix: nat): (s: string)
    requires IsRadix(radix)
    ensures |s| >= 1
    ensures forall i :: 0 <= i < |s| ==> CharValue(s[i]) < radix
    ensures s[0] == '0' <==> n == 0
    ensures n == 0 ==> s == "0"
    decreases n
  {
    if n < radix then [DigitChar(n)]
    else
      DivFacts(n, radix);
      NatToRadix(n / radix, radix) + [DigitChar(n % radix)]
  }

  /** `n.toString(radix)` for an integer: a minus sign before the digits of |n|. */
  function IntToRadix(n: int, radix: nat): (s: string)
    requires IsRadix(radix)
    ensures |s| >= 1
    ensures s[0] == '-' <==> n < 0
    ensures forall i :: 0 <= i < |s| ==> (i == 0 && s[i] == '-') || CharValue(s[i]) < radix
    ensures s[0] == '0' ==> |s| == 1
    ensures |s| >= 2 && s[0] == '-' ==> s[1] != '0'
  {
    if n < 0 then "-" + NatToRadix(-n, radix) else NatToRadix(n, radix)
  }

  /** `String(n)` for a natural number. */
  function NatToString(n: nat): string {
    NatToRadix(n, 10)
  }

  /** Length of the longest prefix of `s` made of digits of `radix`. */
  function DigitRun(s: string, radix: nat): (k: nat)
    ensures k <= |s|
    ensures forall i :: 0 <= i < k ==> CharValue(s[i]) < radix
    ensures k < |s| ==> CharValue(s[k]) >= radix
  {
    if s == [] || CharValue(s[0]) >= radix then 0 else 1 + DigitRun(s[1..], radix)
  }

  /** Value of a run of digits, most significant first. */
  function DigitsValue(s: string, radix: nat): nat {
    if s == [] then 0 else DigitsValue(s[..|s| - 1], radix) * radix + CharValue(s[|s| - 1])
  }

  /** An optional leading sign: whether it is '-', and the text after it. */
  function SignAndRest(s: string): (bool, string) {
    if |s| > 0 && s[0] == '-' then (true, s[1..])
    else if |s| > 0 && s[0] == '+' then (false, s[1..])
    else (false, s)
  }

  /**
   * `parseInt(s, radix)`: an optional sign and the longest run of digits after it;
   * `None` stands for NaN (no digit at all).
   */
  function ParseInt(s: string, radix: nat): (r: Option<int>)
    ensures s == [] ==> r.None?
    ensures radix <= 36 && |s| > 0 && CharValue(s[0]) < radix ==> r.Some? && r.value >= 0
    ensures r.Some? && r.value < 0 ==> s[0] == '-'
  {
    var (negative, t) := SignAndRest(s);
    var k := DigitRun(t, radix);
    if k == 0 then None
    else Some(if negative then -(DigitsValue(t[..k], radix) as int) else DigitsValue(t[..k], radix) as int)
  }

  lemma DigitsValueSnoc(p: string, c: char, radix: nat)
    ensures DigitsValue(p + [c], radix) == DigitsValue(p, radix) * radix + CharValue(c)
  {
    assert (p + [c])[..|p|] == p;
  }

  lemma DivFacts(n: nat, radix: nat)
    requires 2 <= radix <= n
    ensures 1 <= n / radix < n && 0 <= n % radix < radix
    ensures (n / radix) * radix + n % radix == n
  {
  }

  /** One step of `NatToRadix`: the digits of the quotient, then the last digit. */
  lemma NatToRadixStep(n: nat, radix: nat)
    requires IsRadix(radix) && n >= radix
    ensures NatToRadix(n, radix) == NatToRadix(n / radix, radix) + [DigitChar(n % radix)]
  {
  }

  lemma {:induction false} DigitsValueOfRadix(n: nat, radix: nat)
    requires IsRadix(radix)
    ensures DigitsValue(NatToRadix(n, radix), radix) == n
    decreases n
  {
    if n >= radix {
      DivFacts(n, radix);
      var q, d := n / radix, n % radix;
      var p, c := NatToRadix(q, radix), DigitChar(d);
      NatToRadixStep(n, radix);
      DigitsValueSnoc(p, c, radix);
      DigitsValueOfRadix(q, radix);
    } else {
      DigitsValueOfDigit(n, radix);
    }
  }

  lemma DigitsValueOfDigit(n: nat, radix: nat)
    requires IsRadix(radix) && n < radix
    ensures DigitsValue(NatToRadix(n, radix), radix) == n
  {
    var c := DigitChar(n);
    assert NatToRadix(n, radix) == [c];
    assert [c][..0] == [];
  }

  lemma {:induction false} DigitRunOfDigits(s: string, radix: nat)
    requires forall i :: 0 <= i < |s| ==> CharValue(s[i]) < radix
    ensures DigitRun(s, radix) == |s|
  {
    if s != [] {
      DigitRunOfDigits(s[1..], radix);
    }
  }

  lemma ParseIntOfNatRadix(m: nat, radix: nat)
    requires IsRadix(radix)
    ensures SignAndRest(NatToRadix(m, radix)) == (false, NatToRadix(m, radix))
    ensures ParseInt(NatToRadix(m, radix), radix) == Some(m)
  {
    var t := NatToRadix(m, radix);
    assert CharValue(t[0]) < radix;
    DigitRunOfDigits(t, radix);
    DigitsValueOfRadix(m, radix);
    assert t[..|t|] == t;
  }

  /** Reading back what `toString(radix)` wrote gives the number again. */
  lemma ParseIntOfRadix(n: int, radix: nat)
    requires IsRadix(radix)
    ensures ParseInt(IntToRadix(n, radix), radix) == Some(n)
  {
    if n < 0 {
      ParseIntOfNegRadix(-n, radix);
    } else {
      ParseIntOfNatRadix(n, radix);
    }
  }

  lemma ParseIntOfNegRadix(m: nat, radix: nat)
    requires IsRadix(radix) && m > 0
    ensures ParseInt("-" + NatToRadix(m, radix), radix) == Some(-(m as int))
  {
    var t := NatToRadix(m, radix);
    assert ("-" + t)[1..] == t;
    assert SignAndRest("-" + t) == (true, t);
    ParseIntOfNatRadix(m, radix);
  }

  /** Distinct numbers are written differently. */
  lemma NatToStringInjective(a: nat, b: nat)
    requires NatToString(a) == NatToString(b)
    ensures a == b
  {
    ParseIntOfRadix(a, 10);
    ParseIntOfRadix(b, 10);
  }

  /** Two strings whose characters have the same digit values character by character. */
  ghost predicate SameDigits(s: string, t: string) {
    |s| == |t| && forall i :: 0 <= i < |s| ==> CharValue(s[i]) == CharValue(t[i])
  }

  lemma {:induction false} SameDigitsSameValue(s: string, t: string, radix: nat)
    requires SameDigits(s, t)
    ensures DigitRun(s, radix) == DigitRun(t, radix)
    ensures DigitsValue(s, radix) == DigitsValue(t, radix)
  {
    if s != [] {
      SameDigitsSameValue(s[1..], t[1..], radix);
      SameDigitsSameValue(s[..|s| - 1], t[..|t| - 1], radix);
    }
  }

  /** ASCII upper-casing of one character. */
  function UpperChar(c: char): (u: char)
    ensures CharValue(u) == CharValue(c)
    ensures !('a' <= u <= 'z')
    ensures 'a' <= c <= 'z' ==> 'A' <= u <= 'Z'
    ensures !('a' <= c <= 'z') ==> u == c
  {
    if 'a' <= c <= 'z' then (c as int - 32) as char else c
  }

  /** `s.toUpperCase()`, restricted to ASCII letters. */
  function ToUpper(s: string): (r: string)
    ensures |r| == |s|
    ensures forall i :: 0 <= i < |s| ==> r[i] == UpperChar(s[i])
  {
    seq(|s|, i requires 0 <= i < |s| => UpperChar(s[i]))
  }

  lemma ToUpperAppend(a: string, b: string)
    ensures ToUpper(a + b) == ToUpper(a) + ToUpper(b)
  {
  }

  /** `parseInt` reads letters case-insensitively, so upper-casing a numeral keeps its value. */
  lemma ParseIntIgnoresCase(s: string, radix: nat)
    ensures ParseInt(ToUpper(s), radix) == ParseInt(s, radix)
  {
    ParseIntSameDigits(ToUpper(s), s, radix);
  }

  /** Strings with the same sign and the same digit values parse alike. */
  lemma ParseIntSameDigits(s: string, t: string, radix: nat)
    requires SameDigits(s, t)
    requires |s| > 0 ==> (s[0] == '-' <==> t[0] == '-') && (s[0] == '+' <==> t[0] == '+')
    ensures ParseInt(s, radix) == ParseInt(t, radix)
  {
    var (n1, t1) := SignAndRest(s);
    var (n2, t2) := SignAndRest(t);
    assert n1 == n2 && SameDigits(t1, t2);
    SameDigitsSameValue(t1, t2, radix);
    var k := DigitRun(t1, radix);
    assert SameDigits(t1[..k], t2[..k]);
    SameDigitsSameValue(t1[..k], t2[..k], radix);
  }

  /** The characters `String.prototype.trim` removes: ECMAScript WhiteSpace and LineTerminator. */
  predicate IsWhitespace(c: char) {
    c == ' ' || c == '\t' || c == '\n' || c == '\r' || c == '\U{000B}' || c == '\U{000C}'
    || c == '\U{00A0}' || c == '\U{FEFF}' || c == '\U{1680}' || ('\U{2000}' <= c <= '\U{200A}')
    || c == '\U{2028}' || c == '\U{2029}' || c == '\U{202F}' || c == '\U{205F}' || c == '\U{3000}'
  }

  function TrimStart(s: string): (r: string)
    ensures r != [] ==> !IsWhitespace(r[0])
    ensures |r| <= |s| && r == s[|s| - |r|..]
    ensures forall i :: 0 <= i < |s| - |r| ==> IsWhitespace(s[i])
  {
    if s != [] && IsWhitespace(s[0]) then TrimStart(s[1..]) else s
  }

  function TrimEnd(s: string): (r: string)
    ensures r != [] ==> !IsWhitespace(r[|r| - 1])
    ensures |r| <= |s| && r == s[..|r|]
    ensures forall i :: |r| <= i < |s| ==> IsWhitespace(s[i])
  {
    if s != [] && IsWhitespace(s[|s| - 1]) then TrimEnd(s[..|s| - 1]) else s
  }

  /** `s.trim()`. */
  function Trim(s: string): (r: string)
    ensures |r| <= |s|
    ensures r != [] ==> !IsWhitespace(r[0]) && !IsWhitespace(r[|r| - 1])
  {
    TrimEnd(TrimStart(s))
  }

  /** A string is blank when every character is whitespace. */
  predicate IsBlank(s: string) {
    forall i :: 0 <= i < |s| ==> IsWhitespace(s[i])
  }

  /** `s.trim()` is empty (falsy) exactly when `s` is blank. */
  lemma TrimEmptyIffBlank(s: string)
    ensures Trim(s) == "" <==> IsBlank(s)
  {
    var t := TrimStart(s);
  }

  /** `s.split(c)` for a one-character separator: the pieces between separators, empty ones included. */
  function Split(s: string, c: char): (r: seq<string>)
    ensures |r| >= 1
    ensures forall i :: 0 <= i < |r| ==> c !in r[i]
  {
    if s == [] then [""]
    else
      var rest := Split(s[1..], c);
      if s[0] == c then [""] + rest else [[s[0]] + rest[0]] + rest[1..]
  }

  /** `ws.join(sep)`. */
  function Join(ws: seq<string>, sep: string): string {
    if |ws| == 0 then "" else if |ws| == 1 then ws[0] else ws[0] + sep + Join(ws[1..], sep)
  }

  /** Joining the pieces of a split with the separator gives the original string back. */
  lemma {:induction false} JoinSplit(s: string, c: char)
    ensures Join(Split(s, c), [c]) == s
  {
    if s != [] {
      var rest := Split(s[1..], c);
      JoinSplit(s[1..], c);
      if s[0] != c {
        var r := [[s[0]] + rest[0]] + rest[1..];
        assert r[1..] == rest[1..];
        if |rest| > 1 {
          assert Join(rest, [c]) == rest[0] + [c] + Join(rest[1..], [c]);
        }
      }
    }
  }

  /** No element of `ws` contains `c`. */
  predicate Avoids(ws: seq<string>, c: char) {
    forall i :: 0 <= i < |ws| ==> c !in ws[i]
  }

  lemma JoinAt(ws: seq<string>, sep: string)
    requires |ws| >= 2
    ensures Join(ws, sep) == ws[0] + sep + Join(ws[1..], sep)
    ensures sep != [] ==> Join(ws, sep)[|ws[0]|] == sep[0]
  {
  }

  /**
   * When the separator's first character occurs in no element, the joined
   * string determines the list: `join` loses nothing.
   */
  lemma {:induction false} JoinInjective(a: seq<string>, b: seq<string>, sep: string)
    requires |a| >= 1 && |b| >= 1 && |sep| >= 1
    requires Avoids(a, sep[0]) && Avoids(b, sep[0])
    requires Join(a, sep) == Join(b, sep)
    ensures a == b
    decreases |a|
  {
    var x := Join(a, sep);
    if |a| == 1 && |b| > 1 {
      JoinAt(b, sep);
    } else if |a| > 1 && |b| == 1 {
      JoinAt(a, sep);
    } else if |a| > 1 && |b| > 1 {
      JoinAt(a, sep);
      JoinAt(b, sep);
      if |a[0]| == |b[0]| {
        assert a[0] == x[..|a[0]|] == b[0];
        var k := |a[0]| + |sep|;
        assert Join(a[1..], sep) == x[k..] == Join(b[1..], sep);
        JoinInjective(a[1..], b[1..], sep);
        assert a == [a[0]] + a[1..];
        assert b == [b[0]] + b[1..];
      }
    }
  }

  /** Splitting a join of words that contain no separator gives the words back. */
  lemma SplitJoin(ws: seq<string>, c: char)
    requires |ws| >= 1 && Avoids(ws, c)
    ensures Split(Join(ws, [c]), c) == ws
  {
    var s := Join(ws, [c]);
    JoinSplit(s, c);
    JoinInjective(Split(s, c), ws, [c]);
  }

  /** Whether `s` begins with `p`. */
  predicate StartsWith(s: string, p: string) {
    |p| <= |s| && s[..|p|] == p
  }

  /** Number of occurrences of `c` in `s`. */
  function Occurrences(s: string, c: char): (n: nat)
    ensures n == 0 <==> c !in s
    ensures n <= |s|
  {
    if s == [] then 0 else (if s[0] == c then 1 else 0) + Occurrences(s[1..], c)
  }

  lemma OccurrencesAppend(s: string, t: string, c: char)
    ensures Occurrences(s + t, c) == Occurrences(s, c) + Occurrences(t, c)
  {
    if s == [] {
      assert s + t == t;
    } else {
      assert (s + t)[0] == s[0];
      assert (s + t)[1..] == s[1..] + t;
      OccurrencesAppend(s[1..], t, c);
    }
  }
}
