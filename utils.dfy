/** The string and lookup helpers of the shared utility library. */
module Utils {
  import opened Wrappers
  import opened Strings

  /** The twelve colours a new subject can be given. */
  function Palette(): (p: seq<string>)
    ensures |p| == 12
  {
    [ "#9B87F5", "#7E69AB", "#6E59A5", "#4A5568", "#4299E1", "#38B2AC",
      "#48BB78", "#ECC94B", "#ED8936", "#F56565", "#667EEA", "#9F7AEA" ]
  }

  /** `getRandomColor`, given the value `u` that `Math.random()` drew. */
  function RandomColor(u: real): (c: string)
    requires 0.0 <= u < 1.0
    ensures c in Palette()
  {
    var i := (u * 12.0).Floor;
    Palette()[i]
  }

  /**
   * `getInitials` as written: the first two characters of a one-word name,
   * otherwise the first characters of the first and last words. An empty end
   * word contributes `undefined`; when both are empty the sum is the number
   * `NaN`, whose `toUpperCase` throws a `TypeError`, written here as `None`.
   */
  function Initials(name: string): (r: Option<string>)
    ensures var words := Split(name, ' ');
      r.None? <==> |words| >= 2 && words[0] == [] && words[|words| - 1] == []
  {
    var words := Split(name, ' ');
    if |words| == 1 then
      var w := words[0];
      Some(ToUpper(w[..if |w| < 2 then |w| else 2]))
    else
      var first := words[0];
      var last := words[|words| - 1];
      if first == [] && last == [] then None
      else Some(ToUpper((if first == [] then "undefined" else [first[0]]) + (if last == [] then "undefined" else [last[0]])))
  }

  /** A name without spaces gives its first (at most) two characters, upper-cased. */
  lemma InitialsOfOneWord(w: string)
    requires ' ' !in w
    ensures Initials(w).Some?
    ensures |Initials(w).value| == if |w| < 2 then |w| else 2
    ensures Initials(w).value == ToUpper(w[..if |w| < 2 then |w| else 2])
  {
    SplitJoin([w], ' ');
  }

  /**
   * Two or more words: the upper-cased first letters of the first and last
   * words; an empty first or last word shows up as `UNDEFINED`, and when both
   * are empty the call throws.
   */
  lemma InitialsOfWords(ws: seq<string>)
    requires |ws| >= 2 && Avoids(ws, ' ')
    ensures var first, last := ws[0], ws[|ws| - 1];
      && (first != "" && last != "" ==> Initials(Join(ws, " ")) == Some([UpperChar(first[0]), UpperChar(last[0])]))
      && (first == "" && last != "" ==> Initials(Join(ws, " ")) == Some("UNDEFINED" + [UpperChar(last[0])]))
      && (first != "" && last == "" ==> Initials(Join(ws, " ")) == Some([UpperChar(first[0])] + "UNDEFINED"))
      && (first == "" && last == "" ==> Initials(Join(ws, " ")).None?)
  {
    var name := Join(ws, " ");
    SplitJoin(ws, ' ');
    assert Split(name, ' ') == ws;
    var first, last := ws[0], ws[|ws| - 1];
    if first != [] || last != [] {
      var head := if first == [] then "undefined" else [first[0]];
      var tail := if last == [] then "undefined" else [last[0]];
      assert Initials(name) == Some(ToUpper(head + tail));
      ToUpperAppend(head, tail);
      UpperCaseUndefined();
      assert ToUpper(head) == if first == [] then "UNDEFINED" else [UpperChar(first[0])];
      assert ToUpper(tail) == if last == [] then "UNDEFINED" else [UpperChar(last[0])];
      if first != [] && last != [] {
        assert [UpperChar(first[0])] + [UpperChar(last[0])] == [UpperChar(first[0]), UpperChar(last[0])];
      }
    }
  }

  lemma UpperCaseUndefined()
    ensures ToUpper("undefined") == "UNDEFINED"
  {
  }

  /** The name " x " splits into "", "x" and "", so its initials throw. */
  lemma PaddedNameThrows()
    ensures Initials(" x ").None?
  {
    InitialsOfWords(["", "x", ""]);
    assert Join(["", "x", ""], " ") == " x ";
  }

  /** The words of a name: the pieces between spaces that are not empty. */
  function Words(pieces: seq<string>): (ws: seq<string>)
    ensures forall i :: 0 <= i < |ws| ==> ws[i] != [] && ws[i] in pieces
  {
    if pieces == [] then []
    else (if pieces[0] == [] then [] else [pieces[0]]) + Words(pieces[1..])
  }

  /** Pieces that are all non-empty are all words. */
  lemma {:induction false} WordsOfNonEmpty(pieces: seq<string>)
    requires forall i :: 0 <= i < |pieces| ==> pieces[i] != []
    ensures Words(pieces) == pieces
  {
    if pieces != [] {
      WordsOfNonEmpty(pieces[1..]);
    }
  }

  /**
   * The initials as intended: the first two characters of a single word, or
   * the first letters of the first and last words, with extra spaces
   * ignored; a name without words has no initials. It never fails.
   */
  function InitialsOfName(name: string): (r: string)
    ensures |r| <= 2
  {
    var ws := Words(Split(name, ' '));
    if |ws| == 0 then ""
    else if |ws| == 1 then ToUpper(ws[0][..if |ws[0]| < 2 then |ws[0]| else 2])
    else [UpperChar(ws[0][0]), UpperChar(ws[|ws| - 1][0])]
  }

  /** Where `getInitials` is given words separated by single spaces, the intended initials agree with it. */
  lemma InitialsOfNameAgrees(ws: seq<string>)
    requires |ws| >= 1 && Avoids(ws, ' ')
    requires forall i :: 0 <= i < |ws| ==> ws[i] != []
    ensures Initials(Join(ws, " ")) == Some(InitialsOfName(Join(ws, " ")))
  {
    var name := Join(ws, " ");
    SplitJoin(ws, ' ');
    WordsOfNonEmpty(ws);
    InitialsOfNameOfWords(name, ws);
    if |ws| >= 2 {
      InitialsOfWords(ws);
    }
  }

  /** The corrected initials of a name whose pieces are exactly its words. */
  lemma InitialsOfNameOfWords(name: string, ws: seq<string>)
    requires |ws| >= 1 && Split(name, ' ') == ws && Words(ws) == ws
    ensures |ws| == 1 ==> Initials(name) == Some(InitialsOfName(name))
    ensures |ws| >= 2 ==> InitialsOfName(name) == [UpperChar(ws[0][0]), UpperChar(ws[|ws| - 1][0])]
  {
  }

  /** The padded name " x " gets the initial "X" instead of an exception. */
  lemma PaddedNameInitial()
    ensures InitialsOfName(" x ") == "X"
  {
    PaddedNameThrows();
    assert Split(" x ", ' ') == ["", "x", ""] by {
      SplitJoin(["", "x", ""], ' ');
      assert Join(["", "x", ""], " ") == " x ";
    }
    assert Words(["", "x", ""]) == ["x"] by {
      assert Words([""]) == [];
      assert Words(["x", ""]) == ["x"];
    }
  }

  /** `getPeriodTime`: the teaching hours of periods 1 to 8, and "" for anything else. */
  function PeriodTime(period: int): (slot: string)
    ensures slot != "" <==> 1 <= period <= 8
  {
    match period
    case 1 => "8:30 - 9:30"
    case 2 => "9:30 - 10:30"
    case 3 => "10:30 - 11:30"
    case 4 => "11:30 - 12:30"
    case 5 => "13:30 - 14:30"
    case 6 => "14:30 - 15:30"
    case 7 => "15:30 - 16:30"
    case 8 => "16:30 - 17:30"
    case _ => ""
  }

  predicate EndsWith(s: string, p: string) {
    |p| <= |s| && s[|s| - |p|..] == p
  }

  /** The lunch break: period 4 ends at 12:30 and period 5 starts an hour later, at 13:30. */
  lemma LunchBreak()
    ensures EndsWith(PeriodTime(4), "12:30") && StartsWith(PeriodTime(5), "13:30")
    ensures !EndsWith(PeriodTime(4), "13:30")
  {
    assert PeriodTime(4)[8..] == "12:30";
    assert PeriodTime(5)[..5] == "13:30";
  }

  /** `getDayName`: Monday to Saturday for 0 to 5, and "" for anything else. */
  function DayName(day: int): (name: string)
    ensures name != "" <==> 0 <= day < 6
    ensures day == 0 ==> name == "Monday"
    ensures day == 1 ==> name == "Tuesday"
    ensures day == 2 ==> name == "Wednesday"
    ensures day == 3 ==> name == "Thursday"
    ensures day == 4 ==> name == "Friday"
    ensures day == 5 ==> name == "Saturday"
  {
    var days := ["Monday", "Tuesday", "Wednesday", "Thursday", "Friday", "Saturday"];
    if 0 <= day < |days| then days[day] else ""
  }

  /** The six day names are distinct, so a name identifies its day. */
  lemma DayNameInjective(a: int, b: int)
    requires 0 <= a < 6 && 0 <= b < 6
    requires DayName(a) == DayName(b)
    ensures a == b
  {
  }
}
