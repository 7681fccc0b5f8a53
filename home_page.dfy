/**
 * The home page's derived data: today's weekday in the timetable's
 * numbering, today's classes ordered by period, and the first subjects.
 */
module HomePage {
  import opened Wrappers
  import opened Types
  import Store

  /**
   * The timetable's day for `Date.getDay()` (0 = Sunday): Monday becomes 0,
   * Saturday 5 and Sunday 6. It is the inverse of counting one day on from
   * the timetable's day.
   */
  function AdjustedDay(dayOfWeek: int): (d: int)
    requires 0 <= dayOfWeek < 7
    ensures 0 <= d < 7
    ensures (d + 1) % 7 == dayOfWeek
  {
    if dayOfWeek == 0 then 6 else dayOfWeek - 1
  }

  /** Distinct weekdays map to distinct timetable days, and only Sunday maps outside the grid's six days. */
  lemma AdjustedDayBijective(a: int, b: int)
    requires 0 <= a < 7 && 0 <= b < 7
    ensures AdjustedDay(a) == AdjustedDay(b) ==> a == b
    ensures AdjustedDay(a) == 6 <==> a == 0
  {
  }

  /** A cell with a subject: the subject is present and is not the empty string. */
  predicate HasClass(c: ScheduleCell) {
    c.subject.Some? && c.subject.value != ""
  }

  predicate IsToday(c: ScheduleCell, day: int) {
    c.day == day && HasClass(c)
  }

  /** `scheduleData.filter(cell => cell.day === adjustedDay && cell.subject)`. */
  function OfDay(cells: seq<ScheduleCell>, day: int): (r: seq<ScheduleCell>)
    ensures |r| <= |cells|
    ensures forall i :: 0 <= i < |r| ==> IsToday(r[i], day)
    ensures multiset(r) <= multiset(cells)
  {
    if cells == [] then []
    else
      assert cells == [cells[0]] + cells[1..];
      (if IsToday(cells[0], day) then [cells[0]] else []) + OfDay(cells[1..], day)
  }

  /** Every cell of the day with a subject is kept. */
  lemma {:induction false} OfDayKeeps(cells: seq<ScheduleCell>, day: int, c: ScheduleCell)
    requires c in cells && IsToday(c, day)
    ensures c in OfDay(cells, day)
  {
    if cells[0] != c {
      OfDayKeeps(cells[1..], day, c);
    }
  }

  predicate SortedByPeriod(s: seq<ScheduleCell>) {
    forall i, j :: 0 <= i < j < |s| ==> s[i].period <= s[j].period
  }

  /**
   * Insertion of a cell that came before the others: it goes in front of the
   * first cell of no earlier period, so it stays ahead of equal periods.
   */
  function Insert(x: ScheduleCell, s: seq<ScheduleCell>): (r: seq<ScheduleCell>)
    ensures |r| == |s| + 1
    ensures r[0] == x || (s != [] && r[0] == s[0])
  {
    if s == [] then [x]
    else if x.period <= s[0].period then [x] + s
    else [s[0]] + Insert(x, s[1..])
  }

  /** Inserting into a sorted timetable keeps it sorted. */
  lemma {:induction false} InsertSorted(x: ScheduleCell, s: seq<ScheduleCell>)
    requires SortedByPeriod(s)
    ensures SortedByPeriod(Insert(x, s))
  {
    if s != [] && x.period > s[0].period {
      var rest := Insert(x, s[1..]);
      InsertSorted(x, s[1..]);
      assert s[0].period <= rest[0].period;
      assert Insert(x, s) == [s[0]] + rest;
    }
  }

  /** Inserting adds exactly the one cell. */
  lemma {:induction false} InsertCounts(x: ScheduleCell, s: seq<ScheduleCell>)
    ensures multiset(Insert(x, s)) == multiset(s) + multiset{x}
  {
    if s != [] && x.period > s[0].period {
      InsertCounts(x, s[1..]);
      assert s == [s[0]] + s[1..];
      assert Insert(x, s) == [s[0]] + Insert(x, s[1..]);
    }
  }

  /** The cells of one period, in their order. */
  function AtPeriod(s: seq<ScheduleCell>, p: int): seq<ScheduleCell> {
    if s == [] then []
    else (if s[0].period == p then [s[0]] else []) + AtPeriod(s[1..], p)
  }

  lemma {:induction false} AtPeriodConcat(a: seq<ScheduleCell>, b: seq<ScheduleCell>, p: int)
    ensures AtPeriod(a + b, p) == AtPeriod(a, p) + AtPeriod(b, p)
  {
    if a == [] {
      assert a + b == b;
    } else {
      var head := if a[0].period == p then [a[0]] else [];
      assert (a + b)[0] == a[0];
      assert (a + b)[1..] == a[1..] + b;
      assert AtPeriod(a + b, p) == head + AtPeriod(a[1..] + b, p);
      AtPeriodConcat(a[1..], b, p);
      assert AtPeriod(a, p) == head + AtPeriod(a[1..], p);
    }
  }

  /** A single cell is kept exactly when it has the period. */
  lemma AtPeriodOfOne(x: ScheduleCell, p: int)
    ensures AtPeriod([x], p) == if x.period == p then [x] else []
  {
    assert [x][1..] == [];
  }

  /** Insertion puts the new cell ahead of the cells of its own period and moves no other cell of it. */
  lemma {:induction false} InsertStable(x: ScheduleCell, s: seq<ScheduleCell>, p: int)
    ensures AtPeriod(Insert(x, s), p) == (if x.period == p then [x] else []) + AtPeriod(s, p)
  {
    AtPeriodOfOne(x, p);
    if s == [] {
      assert AtPeriod(s, p) == [];
    } else if x.period <= s[0].period {
      AtPeriodConcat([x], s, p);
    } else {
      var rest := Insert(x, s[1..]);
      InsertStable(x, s[1..], p);
      AtPeriodConcat([s[0]], rest, p);
      AtPeriodOfOne(s[0], p);
      assert Insert(x, s) == [s[0]] + rest;
      assert s == [s[0]] + s[1..];
      AtPeriodConcat([s[0]], s[1..], p);
    }
  }

  /** `.sort((a, b) => a.period - b.period)`, a stable sort on the period. */
  function SortByPeriod(s: seq<ScheduleCell>): (r: seq<ScheduleCell>)
    ensures SortedByPeriod(r)
    ensures multiset(r) == multiset(s)
  {
    if s == [] then []
    else
      var rest := SortByPeriod(s[1..]);
      InsertSorted(s[0], rest);
      InsertCounts(s[0], rest);
      assert s == [s[0]] + s[1..];
      Insert(s[0], rest)
  }

  /** The sort is stable: for every period, the cells of that period keep their order. */
  lemma {:induction false} SortByPeriodStable(s: seq<ScheduleCell>, p: int)
    ensures AtPeriod(SortByPeriod(s), p) == AtPeriod(s, p)
  {
    if s != [] {
      SortByPeriodStable(s[1..], p);
      InsertStable(s[0], SortByPeriod(s[1..]), p);
    }
  }

  /** Two cells of one period stay in the order they had. */
  lemma EqualPeriodsKeepOrder(a: ScheduleCell, b: ScheduleCell)
    requires a.period == b.period
    ensures SortByPeriod([a, b]) == [a, b]
  {
    assert [a, b][1..] == [b];
    assert SortByPeriod([b]) == [b] by {
      assert [b][1..] == [];
    }
  }

  /** `todaysClasses`. */
  function TodaysClasses(cells: seq<ScheduleCell>, day: int): (r: seq<ScheduleCell>)
    ensures SortedByPeriod(r)
    ensures forall i :: 0 <= i < |r| ==> IsToday(r[i], day)
    ensures multiset(r) <= multiset(cells)
  {
    var kept := OfDay(cells, day);
    var r := SortByPeriod(kept);
    assert forall i :: 0 <= i < |r| ==> IsToday(r[i], day) by {
      forall i | 0 <= i < |r|
        ensures IsToday(r[i], day)
      {
        assert r[i] in multiset(kept);
        var j :| 0 <= j < |kept| && kept[j] == r[i];
      }
    }
    r
  }

  /** Today's classes are exactly the cells of the day that have a subject, in ascending period. */
  lemma TodaysClassesExactly(cells: seq<ScheduleCell>, day: int, c: ScheduleCell)
    ensures SortedByPeriod(TodaysClasses(cells, day))
    ensures c in TodaysClasses(cells, day) <==> c in cells && IsToday(c, day)
  {
    var kept := OfDay(cells, day);
    assert c in TodaysClasses(cells, day) <==> c in multiset(kept);
    if c in kept {
      var i :| 0 <= i < |kept| && kept[i] == c;
      assert c in multiset(cells);
    }
    if c in cells && IsToday(c, day) {
      OfDayKeeps(cells, day, c);
    }
  }

  /** No timetable cell is on Sunday, so Sunday shows no classes. */
  lemma NoClassesOnSunday(cells: seq<ScheduleCell>)
    requires forall i :: 0 <= i < |cells| ==> Store.InWeek(cells[i])
    ensures TodaysClasses(cells, AdjustedDay(0)) == []
  {
    var kept := OfDay(cells, 6);
    if kept != [] {
      assert kept[0] in multiset(cells);
    }
  }

  /** Before any subject is entered there is nothing today, whatever the day. */
  lemma NoClassesInEmptyTimetable(day: int)
    ensures TodaysClasses(Store.DefaultSchedule(), day) == []
  {
    var cells := Store.DefaultSchedule();
    forall i | 0 <= i < |cells|
      ensures !HasClass(cells[i])
    {
      assert cells[i] == Store.DefaultCell(i);
    }
    NoClassesWithoutSubjects(cells, day);
  }

  /** Cells that all lack a subject give no classes. */
  lemma {:induction false} NoClassesWithoutSubjects(cells: seq<ScheduleCell>, day: int)
    requires forall i :: 0 <= i < |cells| ==> !HasClass(cells[i])
    ensures OfDay(cells, day) == []
  {
    if cells != [] {
      NoClassesWithoutSubjects(cells[1..], day);
    }
  }

  /** `subjects.slice(0, 3)`: the first three subjects, or all of them when there are fewer. */
  function RecentSubjects(subjects: seq<Subject>): (r: seq<Subject>)
    ensures r <= subjects
    ensures |r| == if |subjects| < 3 then |subjects| else 3
  {
    subjects[..if |subjects| < 3 then |subjects| else 3]
  }
}
