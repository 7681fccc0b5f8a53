/**
 * The student calculator page: the basic calculator's entry machine, the
 * GPA calculator over an editable course list, the required final-exam
 * score, and the week count of the date calculator.
 */
module AdvancedCalculator {
  import opened Wrappers
  import opened Strings
  import opened Numbers
  import opened Sequences

  /** The keys of the basic keypad that call `inputDigit`. */
  predicate IsDecimalKey(c: char) {
    '0' <= c <= '9'
  }

  datatype EntryState = EntryState(
    display: Display,
    firstOperand: Option<Number>,
    operator: Option<Operator>,
    waiting: bool)

  /** The basic calculator's four state variables. */
  class BasicCalculator {
    var display: Display
    var firstOperand: Option<Number>
    var operator: Option<Operator>
    var waiting: bool

    function State(): EntryState
      reads this
    {
      EntryState(display, firstOperand, operator, waiting)
    }

    /** A computed result is shown only while waiting for the second operand; typed text has at most one point. */
    predicate Valid()
      reads this
    {
      && (display.Rendered? ==> waiting)
      && (display.Typed? ==> Occurrences(display.text, '.') <= 1)
    }

    constructor ()
      ensures Valid()
      ensures State() == EntryState(Typed("0"), None, None, false)
    {
      display := Typed("0");
      firstOperand := None;
      operator := None;
      waiting := false;
    }

    /** `inputDigit`: waiting starts a new number; otherwise "0" is replaced and anything else extended. */
    method InputDigit(digit: char)
      requires Valid() && IsDecimalKey(digit)
      modifies this
      ensures Valid()
      ensures old(waiting) ==> State() == old(State()).(display := Typed([digit]), waiting := false)
      ensures !old(waiting) ==> State() == old(State()).(display := Typed(WithDigit(old(display).text, digit)))
    {
      if waiting {
        display := Typed([digit]);
        waiting := false;
      } else {
        display := Typed(WithDigit(display.text, digit));
      }
    }

    /** `inputDecimal`: "0." when waiting; otherwise a point is added only when there is none. */
    method InputDecimal()
      requires Valid()
      modifies this
      ensures Valid()
      ensures old(waiting) ==> State() == old(State()).(display := Typed("0."), waiting := false)
      ensures !old(waiting) ==> State() == old(State()).(display := Typed(WithPoint(old(display).text)))
    {
      if waiting {
        assert "0."[1..] == "." && "."[1..] == [];
        display := Typed("0.");
        waiting := false;
        return;
      }
      display := Typed(WithPoint(display.text));
    }

    /** `clearDisplay`: back to the initial state. */
    method ClearDisplay()
      modifies this
      ensures Valid()
      ensures State() == EntryState(Typed("0"), None, None, false)
    {
      display := Typed("0");
      firstOperand := None;
      operator := None;
      waiting := false;
    }

    /**
     * `performOperation`: with no first operand the input becomes it; with one
     * and a pending operator the result is shown and becomes the first operand
     * (a stored 0 is used as it is). The next operator is always recorded and
     * the calculator waits for the second operand.
     */
    method PerformOperation(next: Operator)
      requires Valid()
      modifies this
      ensures Valid()
      ensures waiting && operator == Some(next)
      ensures old(firstOperand).None? ==> firstOperand == Some(DisplayValue(old(display))) && display == old(display)
      ensures old(firstOperand).Some? && old(operator).None? ==> firstOperand == old(firstOperand) && display == old(display)
      ensures old(firstOperand).Some? && old(operator).Some? ==>
        var result := Calculate(old(firstOperand).value, DisplayValue(old(display)), old(operator).value);
        firstOperand == Some(result) && display == Rendered(result)
    {
      var input := DisplayValue(display);
      if firstOperand.None? {
        firstOperand := Some(input);
      } else if operator.Some? {
        var result := Calculate(firstOperand.value, input, operator.value);
        display := Rendered(result);
        firstOperand := Some(result);
      }
      waiting := true;
      operator := Some(next);
    }
  }

  /** One row of the GPA calculator. */
  datatype Course = Course(name: string, credits: int, grade: string)

  /** The grade-point table; a grade missing from it counts as 0. */
  function GradePoint(grade: string): (p: real)
    ensures 0.0 <= p <= 4.0
  {
    if grade == "A+" || grade == "A" then 4.0
    else if grade == "A-" then 3.7
    else if grade == "B+" then 3.3
    else if grade == "B" then 3.0
    else if grade == "B-" then 2.7
    else if grade == "C+" then 2.3
    else if grade == "C" then 2.0
    else if grade == "C-" then 1.7
    else if grade == "D+" then 1.3
    else if grade == "D" then 1.0
    else if grade == "D-" then 0.7
    else 0.0
  }

  /** The credits of all courses, accumulated front to back. */
  function TotalCredits(cs: seq<Course>): int {
    if cs == [] then 0 else TotalCredits(cs[..|cs| - 1]) + cs[|cs| - 1].credits
  }

  /** The credit-weighted grade points of all courses, accumulated front to back. */
  function TotalPoints(cs: seq<Course>): real {
    if cs == [] then 0.0
    else TotalPoints(cs[..|cs| - 1]) + cs[|cs| - 1].credits as real * GradePoint(cs[|cs| - 1].grade)
  }

  /** The GPA: the credit-weighted mean of the grade points, and 0 when there are no credits. */
  function Gpa(cs: seq<Course>): (gpa: real)
    ensures TotalCredits(cs) > 0 ==> gpa * TotalCredits(cs) as real == TotalPoints(cs)
    ensures TotalCredits(cs) <= 0 ==> gpa == 0.0
  {
    if TotalCredits(cs) > 0 then TotalPoints(cs) / TotalCredits(cs) as real else 0.0
  }

  /** `calculateGPA` before rounding: one pass over the courses with two running totals. */
  method CalculateGpa(courses: seq<Course>) returns (gpa: real)
    ensures gpa == Gpa(courses)
  {
    var totalCredits := 0;
    var totalPoints := 0.0;
    for i := 0 to |courses|
      invariant totalCredits == TotalCredits(courses[..i])
      invariant totalPoints == TotalPoints(courses[..i])
    {
      assert courses[..i + 1][..i] == courses[..i];
      var credits := courses[i].credits;
      totalCredits := totalCredits + credits;
      totalPoints := totalPoints + credits as real * GradePoint(courses[i].grade);
    }
    assert courses[..|courses|] == courses;
    gpa := if totalCredits > 0 then totalPoints / totalCredits as real else 0.0;
  }

  predicate NonNegativeCredits(cs: seq<Course>) {
    forall i :: 0 <= i < |cs| ==> cs[i].credits >= 0
  }

  /** With no negative credits the points lie between 0 and 4 per credit. */
  lemma {:induction false} PointsWithinScale(cs: seq<Course>)
    requires NonNegativeCredits(cs)
    ensures TotalCredits(cs) >= 0
    ensures 0.0 <= TotalPoints(cs) <= 4.0 * TotalCredits(cs) as real
  {
    if cs != [] {
      var init, last := cs[..|cs| - 1], cs[|cs| - 1];
      assert NonNegativeCredits(init) by {
        forall i | 0 <= i < |init| ensures init[i].credits >= 0 {
          assert init[i] == cs[i];
        }
      }
      PointsWithinScale(init);
      var c := last.credits as real;
      var g := GradePoint(last.grade);
      assert 0.0 <= c * g <= c * 4.0;
    }
  }

  /** With no negative credits the GPA is on the 0 to 4 scale. */
  lemma GpaWithinScale(cs: seq<Course>)
    requires NonNegativeCredits(cs)
    ensures 0.0 <= Gpa(cs) <= 4.0
  {
    PointsWithinScale(cs);
    if TotalCredits(cs) > 0 {
      QuotientWithinScale(TotalPoints(cs), TotalCredits(cs) as real);
    }
  }

  lemma QuotientWithinScale(p: real, c: real)
    requires c > 0.0 && 0.0 <= p <= 4.0 * c
    ensures 0.0 <= p / c <= 4.0
  {
    assert p / c * c == p;
  }

  /** When every course carries the same grade, the points are that grade's points per credit. */
  lemma {:induction false} PointsOfOneGrade(cs: seq<Course>, grade: string)
    requires forall i :: 0 <= i < |cs| ==> cs[i].grade == grade
    ensures TotalPoints(cs) == GradePoint(grade) * TotalCredits(cs) as real
  {
    if cs != [] {
      var init := cs[..|cs| - 1];
      assert forall i :: 0 <= i < |init| ==> init[i].grade == cs[i].grade;
      PointsOfOneGrade(init, grade);
    }
  }

  /** A mean of equal grades is that grade: with positive credits, the GPA is its grade point. */
  lemma {:induction false} GpaOfOneGrade(cs: seq<Course>, grade: string)
    requires forall i :: 0 <= i < |cs| ==> cs[i].grade == grade
    requires TotalCredits(cs) > 0
    ensures Gpa(cs) == GradePoint(grade)
  {
    PointsOfOneGrade(cs, grade);
    ProductOverFactor(GradePoint(grade), TotalCredits(cs) as real);
  }

  lemma ProductOverFactor(g: real, c: real)
    requires c != 0.0
    ensures g * c / c == g
  {
  }

  function DefaultCourses(): (cs: seq<Course>)
    ensures |cs| == 2
  {
    [Course("Course 1", 3, "A"), Course("Course 2", 4, "B+")]
  }

  /** The starting courses, 3 credits of A and 4 of B+, average 3.6. */
  lemma DefaultGpa()
    ensures Gpa(DefaultCourses()) == 3.6
  {
    var cs := DefaultCourses();
    assert cs[..1][..0] == [];
    assert GradePoint("A") == 4.0;
    assert GradePoint("B+") == 3.3 by {
      assert "B+" != "A+" && "B+" != "A" && "B+" != "A-";
    }
    assert TotalCredits(cs) == 7;
    assert TotalPoints(cs) == 25.2;
  }

  /** The name `addCourse` gives the course after the last one. */
  function NextCourse(count: nat): (c: Course)
    ensures c.credits == 3 && c.grade == "B"
    ensures c.name == "Course " + NatToString(count + 1)
  {
    Course("Course " + NatToString(count + 1), 3, "B")
  }

  /** The field `updateCourse` overwrites, with its new value. */
  datatype CourseField = Name(name: string) | Credits(credits: int) | Grade(grade: string)

  /** One course with one field overwritten; the other two stay. */
  function WithField(c: Course, f: CourseField): (r: Course)
    ensures f.Name? ==> r.name == f.name && r.credits == c.credits && r.grade == c.grade
    ensures f.Credits? ==> r.credits == f.credits && r.name == c.name && r.grade == c.grade
    ensures f.Grade? ==> r.grade == f.grade && r.name == c.name && r.credits == c.credits
  {
    match f
    case Name(n) => c.(name := n)
    case Credits(k) => c.(credits := k)
    case Grade(g) => c.(grade := g)
  }

  /**
   * The GPA calculator's courses and result. The result is recomputed after
   * every change of the courses, so it is always the GPA of the current list.
   */
  class GpaCalculator {
    var courses: seq<Course>
    var gpaResult: real

    predicate Valid()
      reads this
    {
      gpaResult == Gpa(courses)
    }

    constructor ()
      ensures Valid() && courses == DefaultCourses()
    {
      var initial := DefaultCourses();
      var gpa := CalculateGpa(initial);
      courses := initial;
      gpaResult := gpa;
    }

    /** `addCourse`: one more course, "Course n+1" with 3 credits of B, after the others. */
    method AddCourse()
      modifies this
      ensures Valid()
      ensures courses == old(courses) + [NextCourse(|old(courses)|)]
    {
      courses := courses + [NextCourse(|courses|)];
      gpaResult := CalculateGpa(courses);
    }

    /** `removeCourse`: the course at `index` leaves, the rest keep their order. */
    method RemoveCourse(index: nat)
      modifies this
      ensures Valid()
      ensures courses == RemoveAt(old(courses), index)
    {
      courses := RemoveAt(courses, index);
      gpaResult := CalculateGpa(courses);
    }

    /** `updateCourse`: one field of one course is overwritten. */
    method UpdateCourse(index: nat, f: CourseField)
      requires index < |courses|
      modifies this
      ensures Valid()
      ensures courses == old(courses)[index := WithField(old(courses)[index], f)]
    {
      courses := courses[index := WithField(courses[index], f)];
      gpaResult := CalculateGpa(courses);
    }
  }

  /** One part of the final grade; weight and score are percentages. */
  datatype Component = Component(name: string, weight: int, score: int)

  function ComponentName(c: Component): string { c.name }

  /** What a component adds to the grade: score times weight over 100. */
  function Contribution(c: Component): real {
    (c.score * c.weight) as real / 100.0
  }

  /** The contributions of every component except the one at `skip`. */
  function WeightedExcept(cs: seq<Component>, skip: int): real {
    if cs == [] then 0.0
    else WeightedExcept(cs[..|cs| - 1], skip) + (if |cs| - 1 == skip then 0.0 else Contribution(cs[|cs| - 1]))
  }

  /**
   * The required final score: unchanged when no component is named
   * "Final Exam"; otherwise the score that closes the gap between the target
   * and the other components, over the final's weight.
   */
  function RequiredScore(cs: seq<Component>, target: int, previous: Number): (r: Number)
    ensures "Final Exam" !in Keys(cs, ComponentName) ==> r == previous
  {
    var f := FindIndex(cs, ComponentName, "Final Exam");
    if f == -1 then previous
    else Div(Finite((target as real - WeightedExcept(cs, f)) * 100.0), Finite(cs[f].weight as real))
  }

  /** `calculateRequiredScore` before rounding: the final is located, then one pass sums the other components. */
  method CalculateRequiredScore(cs: seq<Component>, target: int, previous: Number) returns (r: Number)
    ensures r == RequiredScore(cs, target, previous)
  {
    var f := FindIndex(cs, ComponentName, "Final Exam");
    if f == -1 {
      return previous;
    }
    var finalWeight := cs[f].weight;
    var weighted := 0.0;
    for i := 0 to |cs|
      invariant weighted == WeightedExcept(cs[..i], f)
    {
      assert cs[..i + 1][..i] == cs[..i];
      if i != f {
        weighted := weighted + (cs[i].score * cs[i].weight) as real / 100.0;
      }
    }
    assert cs[..|cs|] == cs;
    var remaining := target as real - weighted;
    r := Div(Finite(remaining * 100.0), Finite(finalWeight as real));
  }

  /** Scoring the required value on a final of non-zero weight gives exactly the target grade. */
  lemma {:induction false} RequiredScoreReachesTarget(cs: seq<Component>, target: int, previous: Number)
    requires "Final Exam" in Keys(cs, ComponentName)
    requires cs[FindIndex(cs, ComponentName, "Final Exam")].weight != 0
    ensures var f := FindIndex(cs, ComponentName, "Final Exam");
      var r := RequiredScore(cs, target, previous);
      r.Finite? && WeightedExcept(cs, f) + r.r * cs[f].weight as real / 100.0 == target as real
  {
    var f := FindIndex(cs, ComponentName, "Final Exam");
    var w := cs[f].weight as real;
    var gap := target as real - WeightedExcept(cs, f);
    assert RequiredScore(cs, target, previous) == Finite(gap * 100.0 / w);
    ScoreClosesGap(gap, w);
  }

  lemma ScoreClosesGap(gap: real, w: real)
    requires w != 0.0
    ensures gap * 100.0 / w * w / 100.0 == gap
  {
    assert gap * 100.0 / w * w == gap * 100.0;
  }

  /** The components other than `skip` alone decide the sum. */
  lemma {:induction false} WeightedExceptIgnoresSkipped(a: seq<Component>, b: seq<Component>, skip: int)
    requires |a| == |b|
    requires forall i :: 0 <= i < |a| && i != skip ==> a[i] == b[i]
    ensures WeightedExcept(a, skip) == WeightedExcept(b, skip)
  {
    if a != [] {
      var n := |a| - 1;
      assert forall i :: 0 <= i < n && i != skip ==> a[..n][i] == b[..n][i];
      WeightedExceptIgnoresSkipped(a[..n], b[..n], skip);
    }
  }

  /** The final's own score does not enter its required score. */
  lemma RequiredScoreIgnoresFinalScore(cs: seq<Component>, target: int, previous: Number, score: int)
    requires "Final Exam" in Keys(cs, ComponentName)
    ensures var f := FindIndex(cs, ComponentName, "Final Exam");
      RequiredScore(cs[f := cs[f].(score := score)], target, previous) == RequiredScore(cs, target, previous)
  {
    var f := FindIndex(cs, ComponentName, "Final Exam");
    var changed := cs[f := cs[f].(score := score)];
    RescoreKeepsNames(cs, f, score);
    FindIndexOfKeys(changed, cs, ComponentName, "Final Exam");
    WeightedExceptIgnoresSkipped(changed, cs, f);
  }

  /** Changing one component's score keeps every component's name. */
  lemma RescoreKeepsNames(cs: seq<Component>, f: nat, score: int)
    requires f < |cs|
    ensures Keys(cs[f := cs[f].(score := score)], ComponentName) == Keys(cs, ComponentName)
  {
    var changed := cs[f := cs[f].(score := score)];
    forall j | 0 <= j < |cs|
      ensures Keys(changed, ComponentName)[j] == Keys(cs, ComponentName)[j]
    {
      assert Keys(changed, ComponentName)[j] == ComponentName(changed[j]);
      assert Keys(cs, ComponentName)[j] == ComponentName(cs[j]);
    }
  }

  function DefaultComponents(): seq<Component> {
    [ Component("Midterm", 30, 85), Component("Final Exam", 40, 0),
      Component("Assignments", 20, 90), Component("Participation", 10, 95) ]
  }

  /**
   * The grade calculator's components, target and required final score; the
   * required score is recomputed after each change of the other two.
   */
  class GradeCalculator {
    var components: seq<Component>
    var targetGrade: int
    var requiredScore: Number

    constructor ()
      ensures components == DefaultComponents() && targetGrade == 80
      ensures requiredScore == RequiredScore(DefaultComponents(), 80, Finite(0.0))
    {
      var initial := DefaultComponents();
      var required := CalculateRequiredScore(initial, 80, Finite(0.0));
      components := initial;
      targetGrade := 80;
      requiredScore := required;
    }

    /** The score slider of component `index`. */
    method SetScore(index: nat, score: int)
      requires index < |components|
      modifies this
      ensures components == old(components)[index := old(components)[index].(score := score)]
      ensures targetGrade == old(targetGrade)
      ensures requiredScore == RequiredScore(components, targetGrade, old(requiredScore))
    {
      components := components[index := components[index].(score := score)];
      requiredScore := CalculateRequiredScore(components, targetGrade, requiredScore);
    }

    /** The target-grade slider. */
    method SetTarget(target: int)
      modifies this
      ensures components == old(components) && targetGrade == target
      ensures requiredScore == RequiredScore(components, target, old(requiredScore))
    {
      targetGrade := target;
      requiredScore := CalculateRequiredScore(components, targetGrade, requiredScore);
    }
  }

  /** Milliseconds in a day. */
  const DayMs: nat := 1000 * 60 * 60 * 24

  /** `Math.ceil(Math.abs(end - start) / DayMs)` for two instants in milliseconds. */
  function DiffDays(start: int, end: int): (d: nat)
    ensures var gap := if end >= start then end - start else start - end;
      d * DayMs >= gap && (d == 0 || (d - 1) * DayMs < gap)
  {
    var gap := if end >= start then end - start else start - end;
    (gap + DayMs - 1) / DayMs
  }

  /** `Math.floor(days / 7)`: the whole weeks in a number of days. */
  function Weeks(days: nat): (w: nat)
    ensures 7 * w <= days < 7 * w + 7
  {
    days / 7
  }

  /** The days and weeks the date calculator shows (the month estimate is not modelled). */
  datatype Difference = Difference(days: nat, weeks: nat)

  /**
   * `calculateDateDifference`: nothing changes while either date is missing;
   * otherwise the whole days between them, rounded up, and the whole weeks.
   */
  function DateDifference(start: Option<int>, end: Option<int>, previous: Difference): (r: Difference)
    ensures start.None? || end.None? ==> r == previous
    ensures start.Some? && end.Some? ==> r.days == DiffDays(start.value, end.value)
    ensures start.Some? && end.Some? ==> 7 * r.weeks <= r.days < 7 * r.weeks + 7
  {
    if start.None? || end.None? then previous
    else
      var days := DiffDays(start.value, end.value);
      Difference(days, Weeks(days))
  }

  /** The order of the two dates does not matter. */
  lemma DateDifferenceSymmetric(a: int, b: int, previous: Difference)
    ensures DateDifference(Some(a), Some(b), previous) == DateDifference(Some(b), Some(a), previous)
  {
  }
}
