# StudyScribe core, modelled in Dafny

StudyScribe is a study companion that runs in the browser. It keeps:

- subjects, with their resources (PDFs, links, notes);
- a weekly timetable of six days by eight periods;
- study plans;
- a chat with a study assistant.

It also offers two calculators, a PDF uploader and viewer, and a gradient picker. This project models the application's core:

- the state provider (`AppContext`);
- the utility library;
- the two calculators;
- the PDF uploader and viewer;
- the gradient picker;
- the pages that change or derive state: home, resource list, planner and assistant.

It proves the properties those components rely on.

How it is laid out:

- One module per source file, plus helper modules:
  - `Wrappers` (an `Option` type);
  - `Strings` (JavaScript's `parseInt`, `toString(radix)`, `trim`, `split`/`join` and ASCII `toUpperCase`);
  - `Numbers` (JavaScript numbers and the calculator display);
  - `Sequences` (`map`-replace, `filter`, `find`, `findIndex`, `splice`);
  - `Types` (the stored records).
- A component whose state React keeps in `useState` is a `class`:
  - its fields are the state variables;
  - a `State()` function gathers them;
  - each handler is a method whose `ensures` gives its whole new state in terms of the old one.
- A handler that calls the provider takes the `Store.AppStore` object and modifies both.
- Loops in the source are `while`/`for` loops proved against a recursive specification function:
  - the factorial;
  - the GPA and required-score passes;
  - the quiz score.
- The specification functions carry the lemmas.

Inputs from the environment become parameters:

- fresh ids (`generateId`, `Date.now()`);
- timestamps and "today";
- the value `Math.random()` drew;
- the object URL the browser creates;
- the cards and questions the AI hook returns.

Persistence appears only as the values found in storage at start-up (`Store.Saved`).

## Model

| member | source | states |
|---|---|---|
| Store.DefaultSubjects | src/context/AppContext.tsx:31-46 | the two sample subjects have distinct ids and no resources |
| Store.DefaultSchedule | src/context/AppContext.tsx:48-60 | the empty timetable has 48 cells and cell i has id `schedule-i` |
| Store.DefaultScheduleIsGrid | src/context/AppContext.tsx:48-60 | the empty timetable holds every (day 0-5, period 1-8) slot exactly once, and its cell ids are pairwise distinct |
| Store.UpdateCellKeepsGrid | src/context/AppContext.tsx:192-198 | replacing a cell by id keeps the one-cell-per-slot grid whenever the new cell keeps the day and period of the cell it replaces |
| Store.UpdateCellCanBreakGrid | src/context/AppContext.tsx:192-198 | the update does not check the slot: moving cell 0 to period 2 leaves two cells in one slot |
| Store.AddResourceTo | src/context/AppContext.tsx:151-157 | the subject list keeps its length; the subject named by the resource gets it at the end of its list; every other subject is unchanged |
| Store.AddResourceNoOwner | src/context/AppContext.tsx:144-158 | a resource whose subject id matches no subject is silently dropped |
| Store.UpdateResourceIn | src/context/AppContext.tsx:160-173 | only the subject named by the resource's `subjectId` has its resource replaced by id; the subject ids stay as they were |
| Store.DeleteResourceFrom | src/context/AppContext.tsx:175-182 | the id is filtered out of every subject's list, so afterwards no resource anywhere carries it; the subject ids stay |
| Store.DeleteResourceNoMatch | src/context/AppContext.tsx:175-182 | deleting an id that no resource has changes nothing |
| Store.OpenTarget | src/context/AppContext.tsx:184-190 | a resource opens something exactly when it is a PDF with a non-empty path or a link with a non-empty URL, and it opens that field |
| Store.InitialState | src/context/AppContext.tsx:66-92 | each collection is the saved one when storage holds it, else its default (samples, empty timetable, no plans, no chat, empty key); no active subject; the subjects page |
| Store.FirstStart | src/context/AppContext.tsx:66-92 | a first start shows the sample subjects, a well-formed grid and nothing else |
| Store.DeleteSubjectCascades | src/context/AppContext.tsx:133-142 | deleting sample subject "1" leaves only Mathematics and removes that subject's plans |
| Store.DeleteSubjectRemovesExactly | src/context/AppContext.tsx:133-142 | after subject deletion no subject carries the id; every other subject and every plan of another subject survives; the surviving plans are old plans of other subjects |
| Store.AppStore.constructor | src/context/AppContext.tsx:64-92 | the provider starts in `InitialState` of what storage held |
| Store.AppStore.SetApiKey | src/context/AppContext.tsx:90 | only the key changes |
| Store.AppStore.SetActivePage | src/context/AppContext.tsx:88 | only the active page changes |
| Store.AppStore.SetActiveSubject | src/context/AppContext.tsx:71 | only the active subject changes |
| Store.AppStore.AddSubject | src/context/AppContext.tsx:115-123 | the new subject is appended after the old ones with an empty resource list, and a fresh id keeps the subject ids unique |
| Store.AppStore.UpdateSubject | src/context/AppContext.tsx:125-131 | subjects are replaced by id; the ids stay in place; an unknown id changes nothing |
| Store.AppStore.DeleteSubject | src/context/AppContext.tsx:133-142 | the subject and its study plans are filtered out; the active subject is cleared only when it is the deleted one; timetable, chat, page and key are untouched |
| Store.AppStore.AddResource | src/context/AppContext.tsx:144-158 | the stamped resource is added through `AddResourceTo`; with no owning subject nothing changes |
| Store.AppStore.UpdateResource | src/context/AppContext.tsx:160-173 | only the subjects change, by `UpdateResourceIn` |
| Store.AppStore.DeleteResource | src/context/AppContext.tsx:175-182 | only the subjects change, by `DeleteResourceFrom`, and their count is kept |
| Store.AppStore.UpdateScheduleCell | src/context/AppContext.tsx:192-198 | the cell is replaced by id; the timetable keeps its size, and keeps the grid when the slot is kept |
| Store.AppStore.AddStudyPlan | src/context/AppContext.tsx:200-207 | the plan is appended, and a fresh id keeps plan ids unique |
| Store.AppStore.UpdateStudyPlan | src/context/AppContext.tsx:209-215 | plans are replaced by id; ids stay in place; an unknown id changes nothing |
| Store.AppStore.DeleteStudyPlan | src/context/AppContext.tsx:217-219 | the plan is filtered out and unique ids stay unique |
| Store.AppStore.AddChatMessage | src/context/AppContext.tsx:221-229 | the stamped message is appended to the history and nothing else changes |
| Sequences.Replace | src/context/AppContext.tsx:125-131 | the `map` by id: same length; an element with the new record's key becomes the record; any other element is kept |
| Sequences.ReplaceNoMatch | src/context/AppContext.tsx:209-215 | replacing by an id no element carries is the identity |
| Sequences.ReplaceKeepsKeys | src/context/AppContext.tsx:209-215 | replacing keeps the key sequence, hence key uniqueness |
| Sequences.ReplaceIdempotent | src/context/AppContext.tsx:125-131 | applying the same update twice is applying it once |
| Sequences.Without | src/context/AppContext.tsx:217-219 | the `filter` on a key: what remains came from the input and lacks the key, and every element without the key remains |
| Sequences.WithoutConcat | src/components/pdf/PDFViewer.tsx:234-236 | filtering distributes over concatenation, so survivors keep their relative order |
| Sequences.WithoutNoMatch | src/context/AppContext.tsx:175-182 | filtering out an absent key changes nothing |
| Sequences.WithoutUnique | src/context/AppContext.tsx:217-219 | filtering preserves unique keys |
| Sequences.AppendFresh | src/context/AppContext.tsx:200-207 | appending a record with a fresh key keeps keys unique |
| Sequences.FindIndex | src/components/calculator/AdvancedCalculator.tsx:162-163 | -1 exactly when no element has the key; otherwise the index of a match with no match before it |
| Sequences.FindIndexOfKeys | src/components/calculator/AdvancedCalculator.tsx:162 | the index found depends on the keys alone |
| Sequences.Find | src/components/planner/PlannerPage.tsx:89-91 | `find`: none exactly when no key matches, else an element with the key and no match before it |
| Sequences.FindIsFirst | src/components/assistant/AssistantPage.tsx:45 | the same, stated over elements: none iff every key differs, else the first matching element |
| Sequences.RemoveAt | src/components/calculator/AdvancedCalculator.tsx:146-150 | `splice(i, 1)` on a copy: with i in range the element at i is gone and the rest keep their order; out of range nothing changes |
| Strings.ParseIntOfRadix | src/components/calculator/CalculatorPage.tsx:31-45 | reading back what `toString(radix)` wrote for any integer, sign included, gives the integer |
| Strings.ParseIntIgnoresCase | src/components/calculator/CalculatorPage.tsx:41 | upper-casing a numeral does not change what `parseInt` reads from it |
| Strings.ParseInt | src/components/calculator/CalculatorPage.tsx:210 | `parseInt`: empty text is NaN; text starting with a digit of the radix gives a non-negative number; a negative result needs a leading minus |
| Strings.IntToRadix | src/components/calculator/CalculatorPage.tsx:34-43 | `toString(radix)` is never empty, starts with a minus exactly for a negative number, has a digit of the radix at every other position, and has no leading zero (a lone "0" is the only text starting with '0', and no "-0" prefix) |
| Strings.Trim | src/components/subjects/ResourceList.tsx:68 | `trim()` is no longer than its input, and a non-empty result starts and ends with non-whitespace |
| Strings.NatToStringInjective | src/context/AppContext.tsx:52 | distinct numbers are written differently, so the `schedule-i` ids are distinct |
| Strings.TrimEmptyIffBlank | src/components/subjects/ResourceList.tsx:68 | `trim()` is empty exactly when every character is whitespace |
| Strings.JoinSplit | src/lib/utils.ts:50 | joining the pieces of `split(c)` with c restores the string |
| Strings.SplitJoin | src/lib/utils.ts:50 | splitting a join of words that contain no separator gives the words back |
| Strings.JoinInjective | src/components/ui/gradient-picker.tsx:46-48 | `join` loses nothing when no element holds the separator's first character |
| Strings.ToUpper | src/lib/utils.ts:52-54 | upper-casing keeps the length and maps each character through ASCII upper-casing |
| Utils.Palette | src/lib/utils.ts:31-44 | there are twelve colours |
| Utils.RandomColor | src/lib/utils.ts:30-47 | for any draw in [0, 1) the colour is one of the palette's |
| Utils.Initials | src/lib/utils.ts:49-55 | as written: `getInitials` throws (none) exactly when the name splits into two or more pieces whose first and last are both empty |
| Utils.InitialsOfOneWord | src/lib/utils.ts:49-53 | a name without spaces gives its first two characters (or fewer), upper-cased |
| Utils.InitialsOfWords | src/lib/utils.ts:49-55 | two or more words give the upper-cased first letters of the first and last word; one empty end word contributes `UNDEFINED`; when both end words are empty the call throws |
| Utils.PaddedNameThrows | src/lib/utils.ts:49-55 | as written, " x " splits into "", "x", "" and its initials throw |
| Utils.InitialsOfName | src/lib/utils.ts:49-55 | corrected: the initials of the non-empty words, never more than two characters |
| Utils.InitialsOfNameAgrees | src/lib/utils.ts:49-55 | on names of non-empty words joined by single spaces the corrected initials are what `getInitials` returns |
| Utils.PaddedNameInitial | src/lib/utils.ts:49-55 | corrected: " x " gives "X" |
| Utils.PeriodTime | src/lib/utils.ts:57-69 | a time slot is returned exactly for periods 1 to 8 |
| Utils.LunchBreak | src/lib/utils.ts:62-63 | period 4 ends at 12:30 and period 5 starts at 13:30 |
| Utils.DayName | src/lib/utils.ts:71-74 | days 0 to 5 are Monday to Saturday in order, and every other day has the empty name |
| Utils.DayNameInjective | src/lib/utils.ts:71-74 | a day name identifies its day |
| Numbers.OrZero | src/components/calculator/CalculatorPage.tsx:97 | the fallback of a falsy operand to 0 is finite or truthy, and a truthy value passes through unchanged |
| Numbers.Add | src/components/calculator/AdvancedCalculator.tsx:103 | NaN in gives NaN out; the sum is finite exactly when both operands are, and then it is their real sum |
| Numbers.Sub | src/components/calculator/AdvancedCalculator.tsx:105 | NaN in gives NaN out; finite exactly when both operands are, and then their real difference |
| Numbers.Mul | src/components/calculator/AdvancedCalculator.tsx:107 | NaN in gives NaN out; finite exactly when both operands are, and then their real product; an infinity times 0 is NaN |
| Numbers.Div | src/components/calculator/AdvancedCalculator.tsx:109 | NaN in gives NaN out; a non-zero divisor gives the real quotient; a non-zero number over 0 is an infinity of its sign; 0/0 is NaN; a finite number over an infinity is 0 |
| Numbers.Calculate | src/components/calculator/AdvancedCalculator.tsx:100-113 | '=' yields the second operand; finite operands give a finite result except for division; a NaN second operand gives NaN |
| Numbers.CalculateInverse | src/components/calculator/CalculatorPage.tsx:100-115 | on finite operands minus undoes plus and a division by a non-zero value undoes the multiplication |
| Numbers.ParseFloatOfNat | src/components/calculator/CalculatorPage.tsx:92 | `parseFloat` of a decimal numeral is its value |
| Numbers.ParseFloat | src/components/calculator/CalculatorPage.tsx:92 | `parseFloat` of empty text is NaN, and of text starting with a decimal digit a finite number |
| Numbers.Unsigned | src/components/calculator/CalculatorPage.tsx:92 | the unsigned decimal `parseFloat` reads after the sign: none for empty text, a value whenever the text starts with a digit |
| Numbers.Trunc | src/components/calculator/CalculatorPage.tsx:210 | the integer part rounds toward zero on both signs |
| Numbers.WithDigit | src/components/calculator/CalculatorPage.tsx:58 | a lone "0" is replaced by the digit, any other display extended by it; the decimal point count is kept |
| Numbers.WithPoint | src/components/calculator/CalculatorPage.tsx:69-71 | the result has a point and never two: an existing point leaves the display unchanged |
| CalculatorPage.Radix | src/components/calculator/CalculatorPage.tsx:35-44 | every base is a radix from 2 to 16 |
| CalculatorPage.OctalFilter | src/components/calculator/CalculatorPage.tsx:51 | in octal exactly '8' and '9' are refused among the keypad's keys, and the letters pass |
| CalculatorPage.AcceptedDigitFitsBase | src/components/calculator/CalculatorPage.tsx:49-52 | a decimal digit that passes the binary or octal filter is a digit of that base |
| CalculatorPage.FormatInt | src/components/calculator/CalculatorPage.tsx:36-43 | `toString(radix)`: a leading minus exactly for a negative number, every other character a digit of the base, no lower-case letter in hexadecimal, no leading zero (only "0" itself starts with '0', and a minus is never followed by '0'), and the text reads back in that base as the number |
| CalculatorPage.FormatProgrammingValue | src/components/calculator/CalculatorPage.tsx:31-45 | "0" when the text has no decimal reading; otherwise the reading written in the chosen base in the form `FormatInt` gives (minus exactly for negatives, digits of the base, upper-case hexadecimal), reading back as that number |
| CalculatorPage.ProgrammerView | src/components/calculator/CalculatorPage.tsx:748 | what the programmer display shows: "0" without a decimal reading, else exactly `FormatInt` of that reading in the selected base, so text that reads back in that base as the reading |
| CalculatorPage.Shown | src/components/calculator/CalculatorPage.tsx:746-749 | the field exists exactly outside converter mode; it shows the programmer view in programmer mode and the display itself in standard and scientific mode |
| CalculatorPage.ProgrammerViewOfReading | src/components/calculator/CalculatorPage.tsx:748 | the view depends on the display only through its decimal reading |
| CalculatorPage.BaseChangeAsWritten | src/components/calculator/CalculatorPage.tsx:209-215 | as written: a display with no decimal reading stays; otherwise the new text holds the decimal reading written in the old base, not in decimal |
| CalculatorPage.AsWrittenFromDecimal | src/components/calculator/CalculatorPage.tsx:209-215 | as written, leaving decimal is harmless: the switch then equals the intended one |
| CalculatorPage.LeavingBinaryChangesValue | src/components/calculator/CalculatorPage.tsx:209-215 | as written, binary 5 (shown "101") switched to decimal stores "101" and shows 101; the intended switch shows 5 |
| CalculatorPage.LeavingHexShowsZero | src/components/calculator/CalculatorPage.tsx:209-215 | as written, 255 in hexadecimal (shown "FF") switched to decimal stores "FF", which decimal shows as "0" |
| CalculatorPage.BaseChange | src/components/calculator/CalculatorPage.tsx:209-215 | corrected: the display keeps its decimal reading, as decimal text without a point; a display with no reading stays |
| CalculatorPage.SwitchKeepsValue | src/components/calculator/CalculatorPage.tsx:209-215 | corrected: what the display shows after the switch reads in the new base as the number it showed in the old one |
| CalculatorPage.BaseChangeRoundTrip | src/components/calculator/CalculatorPage.tsx:209-215 | corrected: in programmer mode, switching to another base and back shows exactly what was shown before |
| CalculatorPage.HexToDecimal | src/components/calculator/CalculatorPage.tsx:209-215 | corrected: 255 shows "FF" in hexadecimal and "255" after switching to decimal |
| CalculatorPage.Fact | src/components/calculator/CalculatorPage.tsx:162-165 | n! is at least 1 |
| CalculatorPage.FactorialLoop | src/components/calculator/CalculatorPage.tsx:162-165 | the loop's product 2·3·…·n equals n! |
| CalculatorPage.MemoryAfter | src/components/calculator/CalculatorPage.tsx:181-207 | MC clears, MR keeps and MS stores the display value; M+ stores the old memory (0 when none) plus the display value, M- the old memory minus it; finite inputs leave a finite memory |
| CalculatorPage.MemoryAddThenSubtract | src/components/calculator/CalculatorPage.tsx:194-201 | M+ then M- of one value restores a non-zero memory and leaves 0 where there was none or 0 |
| CalculatorPage.SubtractAfterAdd | src/components/calculator/CalculatorPage.tsx:198-200 | M- of c on a memory of m + c leaves m |
| CalculatorPage.Calculator.constructor | src/components/calculator/CalculatorPage.tsx:21-28 | display "0", no operator or operand, not waiting, standard mode, decimal, no memory |
| CalculatorPage.Calculator.SetMode | src/components/calculator/CalculatorPage.tsx:632-662 | only the mode changes |
| CalculatorPage.Calculator.InputDigit | src/components/calculator/CalculatorPage.tsx:47-60 | a filtered key changes nothing; when waiting the key starts a new number; otherwise `WithDigit` |
| CalculatorPage.Calculator.InputDecimal | src/components/calculator/CalculatorPage.tsx:62-72 | nothing in programmer mode; "0." when waiting; otherwise `WithPoint`; never a second point |
| CalculatorPage.Calculator.ClearDisplay | src/components/calculator/CalculatorPage.tsx:74-79 | display "0", no operator or operand, not waiting; mode, base and memory kept |
| CalculatorPage.Calculator.PerformOperation | src/components/calculator/CalculatorPage.tsx:91-123 | stores the first operand; after that applies the pending operator to the stored operand (falsy counts as 0) and shows and stores the result; always waits for the next operator |
| CalculatorPage.Calculator.ScientificOperation | src/components/calculator/CalculatorPage.tsx:125-179 | square, cube and inverse show their result and wait; the factorial of a non-negative integer shows n!, of anything else "Error" without waiting |
| CalculatorPage.Calculator.MemoryOperation | src/components/calculator/CalculatorPage.tsx:181-207 | the memory becomes `MemoryAfter`; MR shows a present memory; M+, M- and MS set waiting; MC and an empty MR leave the display |
| CalculatorPage.Calculator.ChangeBase | src/components/calculator/CalculatorPage.tsx:209-215 | corrected base switch: the base becomes the new one, the display `BaseChange` of the old one, and in programmer mode the field shows the old display's view in the new base |
| CalculatorPage.FormattedDigitsHaveNoPoint | src/components/calculator/CalculatorPage.tsx:36-43 | a formatted integer holds no decimal point |
| AdvancedCalculator.BasicCalculator.constructor | src/components/calculator/AdvancedCalculator.tsx:20-23 | display "0", no operand or operator, not waiting |
| AdvancedCalculator.BasicCalculator.InputDigit | src/components/calculator/AdvancedCalculator.tsx:48-55 | waiting starts a new number, otherwise `WithDigit` |
| AdvancedCalculator.BasicCalculator.InputDecimal | src/components/calculator/AdvancedCalculator.tsx:57-67 | "0." when waiting, otherwise `WithPoint` |
| AdvancedCalculator.BasicCalculator.ClearDisplay | src/components/calculator/AdvancedCalculator.tsx:69-74 | back to the starting state |
| AdvancedCalculator.BasicCalculator.PerformOperation | src/components/calculator/AdvancedCalculator.tsx:85-98 | like the page calculator, but a stored 0 is used as it is |
| AdvancedCalculator.GradePoint | src/components/calculator/AdvancedCalculator.tsx:117-130 | every grade, listed in the table or not, maps to a point between 0 and 4 |
| AdvancedCalculator.Gpa | src/components/calculator/AdvancedCalculator.tsx:125-136 | with some credits the GPA times the total credits is the total points; without credits it is 0 |
| AdvancedCalculator.CalculateGpa | src/components/calculator/AdvancedCalculator.tsx:125-136 | the loop's two running totals give `Gpa`: the credit-weighted mean, 0 without credits |
| AdvancedCalculator.PointsWithinScale | src/components/calculator/AdvancedCalculator.tsx:125-134 | with no negative credits the points lie between 0 and 4 per credit |
| AdvancedCalculator.GpaWithinScale | src/components/calculator/AdvancedCalculator.tsx:136 | with no negative credits the GPA is between 0 and 4 |
| AdvancedCalculator.QuotientWithinScale | src/components/calculator/AdvancedCalculator.tsx:136 | points within 4 per credit give a quotient within 0 and 4 |
| AdvancedCalculator.PointsOfOneGrade | src/components/calculator/AdvancedCalculator.tsx:128-134 | equal grades give that grade's points per credit |
| AdvancedCalculator.GpaOfOneGrade | src/components/calculator/AdvancedCalculator.tsx:136 | with equal grades and some credits the GPA is that grade's point |
| AdvancedCalculator.ProductOverFactor | src/components/calculator/AdvancedCalculator.tsx:136 | g·c / c = g for non-zero c |
| AdvancedCalculator.DefaultCourses | src/components/calculator/AdvancedCalculator.tsx:25-28 | two starting courses |
| AdvancedCalculator.DefaultGpa | src/components/calculator/AdvancedCalculator.tsx:25-28 | 3 credits of A and 4 of B+ average 3.6 |
| AdvancedCalculator.NextCourse | src/components/calculator/AdvancedCalculator.tsx:141-143 | the added course is "Course n+1" with 3 credits of B |
| AdvancedCalculator.WithField | src/components/calculator/AdvancedCalculator.tsx:153-157 | one field is overwritten and the other two are kept |
| AdvancedCalculator.GpaCalculator.constructor | src/components/calculator/AdvancedCalculator.tsx:25-30 | the starting courses with their GPA as the result |
| AdvancedCalculator.GpaCalculator.AddCourse | src/components/calculator/AdvancedCalculator.tsx:141-143 | `NextCourse` is appended and the result is the new list's GPA |
| AdvancedCalculator.GpaCalculator.RemoveCourse | src/components/calculator/AdvancedCalculator.tsx:146-150 | the course at the index leaves (`RemoveAt`) and the result is the new list's GPA |
| AdvancedCalculator.GpaCalculator.UpdateCourse | src/components/calculator/AdvancedCalculator.tsx:153-157 | only the course at the index changes, by `WithField`, and the result is the new list's GPA |
| AdvancedCalculator.RequiredScore | src/components/calculator/AdvancedCalculator.tsx:160-183 | without a "Final Exam" component the previous value stays |
| AdvancedCalculator.CalculateRequiredScore | src/components/calculator/AdvancedCalculator.tsx:160-183 | the find-then-sum loop computes `RequiredScore` |
| AdvancedCalculator.RequiredScoreReachesTarget | src/components/calculator/AdvancedCalculator.tsx:179-180 | scoring the required value on a final of non-zero weight reaches the target grade exactly |
| AdvancedCalculator.ScoreClosesGap | src/components/calculator/AdvancedCalculator.tsx:180 | the required score times the weight over 100 is the gap |
| AdvancedCalculator.WeightedExceptIgnoresSkipped | src/components/calculator/AdvancedCalculator.tsx:171-176 | the skipped component does not enter the sum |
| AdvancedCalculator.RequiredScoreIgnoresFinalScore | src/components/calculator/AdvancedCalculator.tsx:165-180 | the final's own score does not change its required score |
| AdvancedCalculator.GradeCalculator.constructor | src/components/calculator/AdvancedCalculator.tsx:33-40 | the four starting components, target 80, their required score |
| AdvancedCalculator.GradeCalculator.SetScore | src/components/calculator/AdvancedCalculator.tsx:457-461 | only that component's score changes, and the required score is recomputed |
| AdvancedCalculator.GradeCalculator.SetTarget | src/components/calculator/AdvancedCalculator.tsx:480 | only the target changes, and the required score is recomputed |
| AdvancedCalculator.DiffDays | src/components/calculator/AdvancedCalculator.tsx:193-194 | the smallest whole number of days covering the gap between the instants |
| AdvancedCalculator.Weeks | src/components/calculator/AdvancedCalculator.tsx:197 | the whole weeks in the days |
| AdvancedCalculator.DateDifference | src/components/calculator/AdvancedCalculator.tsx:186-205 | nothing changes when a date is missing; otherwise the rounded-up days and the whole weeks in them |
| AdvancedCalculator.DateDifferenceSymmetric | src/components/calculator/AdvancedCalculator.tsx:193 | the order of the two dates does not matter |
| PdfViewer.NextPageOf | src/components/pdf/PDFViewer.tsx:158-162 | one page on while below the limit, else the same page |
| PdfViewer.PrevPageOf | src/components/pdf/PDFViewer.tsx:164-168 | one page back, never before page 1 |
| PdfViewer.PageStepsUndo | src/components/pdf/PDFViewer.tsx:158-168 | a move forward is undone by a move back, and the reverse |
| PdfViewer.PageStepsStayInRange | src/components/pdf/PDFViewer.tsx:158-168 | both moves stay within the document |
| PdfViewer.Rotated | src/components/pdf/PDFViewer.tsx:179-181 | the rotation stays below a full turn |
| PdfViewer.RotationCycle | src/components/pdf/PDFViewer.tsx:179-181 | quarter turns stay quarter turns, always move, and four of them return to the start |
| PdfViewer.NextCardOf | src/components/pdf/PDFViewer.tsx:184-189 | one card on before the last, else the same card |
| PdfViewer.PrevCardOf | src/components/pdf/PDFViewer.tsx:191-196 | one card back after the first, else the same card |
| PdfViewer.CardStepsStayInDeck | src/components/pdf/PDFViewer.tsx:184-196 | card moves stay in the deck, and a move forward is undone by a move back |
| PdfViewer.Unanswered | src/components/pdf/PDFViewer.tsx:140 | one -1 per question |
| PdfViewer.SubmitAfterAnswering | src/components/pdf/PDFViewer.tsx:547-549 | a fresh quiz can be submitted only when it has no questions, and answering every question enables submission |
| PdfViewer.CorrectCount | src/components/pdf/PDFViewer.tsx:205-211 | never more correct answers than questions |
| PdfViewer.FullScoreIffAllCorrect | src/components/pdf/PDFViewer.tsx:205-216 | the score is full exactly when every question has its correct answer |
| PdfViewer.QuizScore | src/components/pdf/PDFViewer.tsx:205-216 | the counting loop gives `CorrectCount` and the question count as total |
| PdfViewer.BookmarkAddRemove | src/components/pdf/PDFViewer.tsx:220-236 | adding a bookmark with a fresh id and removing that id restores the list |
| PdfViewer.Viewer.constructor | src/components/pdf/PDFViewer.tsx:47-77 | no document, page 1, no rotation, no cards, quiz or bookmarks |
| PdfViewer.Viewer.DocumentLoaded | src/components/pdf/PDFViewer.tsx:81-84 | only the page count becomes known |
| PdfViewer.Viewer.GoToPage | src/components/pdf/PDFViewer.tsx:152-156 | a page of the document is accepted, anything else (NaN included) changes nothing |
| PdfViewer.Viewer.NextPage | src/components/pdf/PDFViewer.tsx:158-162 | the page becomes `NextPageOf` |
| PdfViewer.Viewer.PrevPage | src/components/pdf/PDFViewer.tsx:164-168 | the page becomes `PrevPageOf` |
| PdfViewer.Viewer.Rotate | src/components/pdf/PDFViewer.tsx:179-181 | the rotation becomes `Rotated`, still a quarter turn |
| PdfViewer.Viewer.LoadFlashcards | src/components/pdf/PDFViewer.tsx:126-133 | the deck is replaced, at its first card, answer hidden |
| PdfViewer.Viewer.NextFlashcard | src/components/pdf/PDFViewer.tsx:184-189 | a move forward hides the answer; at the last card nothing changes |
| PdfViewer.Viewer.PrevFlashcard | src/components/pdf/PDFViewer.tsx:191-196 | a move back hides the answer; at the first card nothing changes |
| PdfViewer.Viewer.ToggleAnswer | src/components/pdf/PDFViewer.tsx:441 | only the answer's visibility flips |
| PdfViewer.Viewer.LoadQuiz | src/components/pdf/PDFViewer.tsx:135-142 | the quiz is replaced, each answer is -1, results hidden |
| PdfViewer.Viewer.SelectAnswer | src/components/pdf/PDFViewer.tsx:199-203 | only that question's answer changes |
| PdfViewer.Viewer.Submit | src/components/pdf/PDFViewer.tsx:547-549 | results are shown only when no answer is -1 |
| PdfViewer.Viewer.ReviewAnswers | src/components/pdf/PDFViewer.tsx:515 | results are hidden again |
| PdfViewer.Viewer.AddBookmark | src/components/pdf/PDFViewer.tsx:220-228 | a bookmark of the current page, titled "Page n", is appended |
| PdfViewer.Viewer.GoToBookmark | src/components/pdf/PDFViewer.tsx:230-232 | the bookmark's page under `goToPage`'s check |
| PdfViewer.Viewer.RemoveBookmark | src/components/pdf/PDFViewer.tsx:234-236 | exactly the bookmarks with the id leave, and none with it remains |
| GradientPicker.Css | src/components/ui/gradient-picker.tsx:44-50 | the CSS starts with the kind's opening and ends with ')' |
| GradientPicker.StripAffixes | src/components/ui/gradient-picker.tsx:46 | equal strings with equal prefix and suffix have equal middles |
| GradientPicker.CssDeterminesStops | src/components/ui/gradient-picker.tsx:44-50 | for one kind and direction, comma-free stops are determined by the CSS |
| GradientPicker.LinearIsNotRadial | src/components/ui/gradient-picker.tsx:45-49 | a linear gradient never equals a radial one |
| GradientPicker.DefaultStops | src/components/ui/gradient-picker.tsx:24 | two starting stops |
| GradientPicker.DefaultsProduceDefaultValue | src/components/ui/gradient-picker.tsx:19-24 | the starting settings produce the default value |
| GradientPicker.PresetsOffered | src/components/ui/gradient-picker.tsx:27-41 | the supplied presets when any, else the eleven defaults |
| GradientPicker.DeferredUpdateLags | src/components/ui/gradient-picker.tsx:53-58 | as written, changing the first default stop to black leaves the preview on the old gradient |
| GradientPicker.DeferredUpdateAsWritten | src/components/ui/gradient-picker.tsx:53-58 | as written: the preview is CSS built from the settings before the change, starting with their opening |
| GradientPicker.Picker.constructor | src/components/ui/gradient-picker.tsx:19-24 | closed, showing the given value, linear to the right, the two default stops |
| GradientPicker.Picker.Open | src/components/ui/gradient-picker.tsx:85 | only the dialog opens |
| GradientPicker.Picker.Close | src/components/ui/gradient-picker.tsx:221 | only the dialog closes, and nothing is emitted |
| GradientPicker.Picker.ChangeStop | src/components/ui/gradient-picker.tsx:53-58 | corrected: only that stop changes, and the preview is the CSS of the new settings |
| GradientPicker.Picker.AddStop | src/components/ui/gradient-picker.tsx:61-64 | corrected: a white stop is appended and the preview follows |
| GradientPicker.Picker.RemoveStop | src/components/ui/gradient-picker.tsx:67-72 | corrected: refused at two stops; otherwise that stop leaves and the preview follows; at least two always remain |
| GradientPicker.Picker.SetType | src/components/ui/gradient-picker.tsx:131-145 | corrected: the kind changes and the preview follows |
| GradientPicker.Picker.SetDirection | src/components/ui/gradient-picker.tsx:162-165 | corrected: the direction changes and the preview follows |
| GradientPicker.Picker.ChoosePreset | src/components/ui/gradient-picker.tsx:107-111 | the preset becomes active, is emitted, and the dialog closes |
| GradientPicker.Picker.Apply | src/components/ui/gradient-picker.tsx:75-78 | the active gradient is emitted and the dialog closes |
| GradientPicker.RemoveKeepsTwo | src/components/ui/gradient-picker.tsx:68-69 | removing from more than two stops leaves at least two |
| HomePage.AdjustedDay | src/components/pages/HomePage.tsx:11-14 | the timetable day is in 0-6 and counting one day on gives back `getDay()` |
| HomePage.AdjustedDayBijective | src/components/pages/HomePage.tsx:14 | distinct weekdays map to distinct days, and only Sunday maps to 6 |
| HomePage.OfDay | src/components/pages/HomePage.tsx:17 | the filter keeps only that day's cells with a subject, drawn from the timetable |
| HomePage.OfDayKeeps | src/components/pages/HomePage.tsx:17 | every such cell is kept |
| HomePage.Insert | src/components/pages/HomePage.tsx:18 | insertion adds one cell and puts it or the old first cell first; the new cell goes before cells of an equal period |
| HomePage.InsertSorted | src/components/pages/HomePage.tsx:18 | inserting into a list sorted by period keeps it sorted |
| HomePage.InsertCounts | src/components/pages/HomePage.tsx:18 | insertion adds exactly that cell |
| HomePage.SortByPeriod | src/components/pages/HomePage.tsx:18 | the sort yields a permutation in ascending period |
| HomePage.InsertStable | src/components/pages/HomePage.tsx:18 | insertion puts the new cell before the old cells of its period and keeps their order |
| HomePage.SortByPeriodStable | src/components/pages/HomePage.tsx:18 | the sort is stable, like `Array.prototype.sort`: the cells of each period keep their input order |
| HomePage.EqualPeriodsKeepOrder | src/components/pages/HomePage.tsx:18 | two cells of one period stay in their order |
| HomePage.TodaysClasses | src/components/pages/HomePage.tsx:17-18 | today's classes are sorted by period, all of that day, and drawn from the timetable |
| HomePage.TodaysClassesExactly | src/components/pages/HomePage.tsx:17-18 | today's classes are sorted by period, and a cell is among them exactly when it is that day's and has a subject |
| HomePage.NoClassesOnSunday | src/components/pages/HomePage.tsx:14-18 | a Monday-to-Saturday timetable shows nothing on Sunday |
| HomePage.NoClassesInEmptyTimetable | src/components/pages/HomePage.tsx:17 | the empty timetable shows no classes on any day |
| HomePage.NoClassesWithoutSubjects | src/components/pages/HomePage.tsx:17 | cells without subjects give no classes |
| HomePage.RecentSubjects | src/components/pages/HomePage.tsx:21 | a prefix of the subjects, of length three or fewer when there are fewer |
| ResourceList.DraftOf | src/components/subjects/ResourceList.tsx:69-85 | name, type and subject are kept; each attachment is present exactly when the type is its own and the text is non-empty, and then holds that text |
| ResourceList.AtMostOneAttachment | src/components/subjects/ResourceList.tsx:75-85 | at most one attachment, and none for type `other` |
| ResourceList.CanAddIffNotBlank | src/components/subjects/ResourceList.tsx:68 | the add button acts exactly when the name has a non-whitespace character and a subject is active |
| ResourceList.Listed | src/components/subjects/ResourceList.tsx:63-65 | as written: nothing without an active subject, else the resources of the active-subject snapshot |
| ResourceList.Shown | src/components/subjects/ResourceList.tsx:63-65 | corrected: nothing exactly when no subject is active or the store has no subject with its id; else that stored subject's resources |
| ResourceList.ResourceForm.constructor | src/components/subjects/ResourceList.tsx:56-61 | closed, type PDF, every text empty |
| ResourceList.ResourceForm.OpenDialog | src/components/subjects/ResourceList.tsx:100 | only the dialog opens |
| ResourceList.ResourceForm.CloseDialog | src/components/subjects/ResourceList.tsx:207 | only the dialog closes |
| ResourceList.ResourceForm.Type | src/components/subjects/ResourceList.tsx:136 | only the input typed into changes |
| ResourceList.ResourceForm.ChooseKind | src/components/subjects/ResourceList.tsx:146 | only the type changes |
| ResourceList.ResourceForm.AddResource | src/components/subjects/ResourceList.tsx:67-94 | when addable, the store gains `DraftOf` of the form for the active subject, the texts clear (type kept) and the dialog closes; otherwise nothing changes; the snapshot the page lists does not change |
| ResourceList.AddedResourceIsStored | src/context/AppContext.tsx:144-158 | the added resource ends its subject's stored list with the form's fields, after the old ones |
| ResourceList.StaleListOmitsAddedResource | src/components/subjects/ResourceList.tsx:63-65 | as written, adding a resource to sample subject "1" stores it, but the snapshot the page lists still has no resources |
| ResourceList.KeepsIds | src/context/AppContext.tsx:151-157 | adding a resource keeps the subject ids, and so their uniqueness |
| ResourceList.FindUnique | src/components/subjects/ResourceList.tsx:63-65 | with unique ids, the subject found by a subject's id is that subject |
| ResourceList.AddedResourceIsShown | src/components/subjects/ResourceList.tsx:63-87 | corrected: with unique ids, the list shown for the active subject after an add is the old one followed by the new resource |
| ResourceList.AddedResourceOpens | src/components/subjects/ResourceList.tsx:35 | a resource added by the form opens exactly its own type's attachment |
| Planner.FirstSubjectId | src/components/planner/PlannerPage.tsx:42 | the first subject's id, or "" without subjects |
| Planner.BlankForm | src/components/planner/PlannerPage.tsx:40-46 | no title, the first subject, today, 60 minutes, medium |
| Planner.BlankFormIsNotSubmittable | src/components/planner/PlannerPage.tsx:53 | a reset form cannot be submitted |
| Planner.PlanOf | src/components/planner/PlannerPage.tsx:54-57 | the form's fields, not completed |
| Planner.DurationInput | src/components/planner/PlannerPage.tsx:256-258 | the parsed integer, or 30 for NaN or 0; never 0 |
| Planner.DurationRoundTrip | src/components/planner/PlannerPage.tsx:258 | a typed duration reads back unchanged, except 0, which becomes 30 |
| Planner.Toggled | src/components/planner/PlannerPage.tsx:69-74 | `completed` flips and nothing else changes |
| Planner.ToggleTwice | src/components/planner/PlannerPage.tsx:69-74 | toggling twice restores the plan, and the id is kept |
| Planner.SubjectById | src/components/planner/PlannerPage.tsx:89-91 | none exactly when no subject has the id, else the first one that does |
| Planner.PriorityClassesDistinct | src/components/planner/PlannerPage.tsx:76-87 | each priority has its own badge class |
| Planner.PlannerPage.constructor | src/components/planner/PlannerPage.tsx:33-46 | closed dialog, blank form for today |
| Planner.PlannerPage.OpenDialog | src/components/planner/PlannerPage.tsx:100 | only the dialog opens |
| Planner.PlannerPage.CloseDialog | src/components/planner/PlannerPage.tsx:282 | only the dialog closes |
| Planner.PlannerPage.SetTitle | src/components/planner/PlannerPage.tsx:207 | only the title changes |
| Planner.PlannerPage.SetSubject | src/components/planner/PlannerPage.tsx:214 | only the subject changes |
| Planner.PlannerPage.SetDate | src/components/planner/PlannerPage.tsx:244 | only the date changes |
| Planner.PlannerPage.SetDuration | src/components/planner/PlannerPage.tsx:256-258 | only the duration changes, to `DurationInput` |
| Planner.PlannerPage.SetPriority | src/components/planner/PlannerPage.tsx:265-267 | only the priority changes |
| Planner.PlannerPage.AddPlan | src/components/planner/PlannerPage.tsx:52-67 | a form with title and subject becomes a new plan and resets for today with the dialog closed; otherwise nothing changes |
| Planner.PlannerPage.ToggleComplete | src/components/planner/PlannerPage.tsx:69-74 | the store's plan with that id is replaced by the toggled plan |
| Planner.ToggleFlipsOnlyThatPlan | src/components/planner/PlannerPage.tsx:69-74 | with unique ids, completing a listed plan flips that plan alone and moves no plan |
| Assistant.SubjectName | src/components/assistant/AssistantPage.tsx:45 | "" when no subject has the id, else the first such subject's name |
| Assistant.Topic | src/components/assistant/AssistantPage.tsx:71 | the subject's name when there is one, and exactly "your studies" for none; never empty |
| Assistant.Reply | src/components/assistant/AssistantPage.tsx:71-79 | the reply is the preamble, then the topic, then a blank line and the advice chosen by the subject |
| Assistant.AdviceBySubject | src/components/assistant/AssistantPage.tsx:73-79 | each known subject gets its own advice exactly, every other topic the generic one |
| Assistant.Exchange | src/components/assistant/AssistantPage.tsx:48-86 | a send appends two messages: the user's in the subject's context, then the assistant's: the key request with no context without a key, else `Reply` in the same context |
| Assistant.ComposeReply | src/components/assistant/AssistantPage.tsx:71-79 | the `+=` construction yields `Reply` |
| Assistant.AssistantPage.constructor | src/components/assistant/AssistantPage.tsx:38-40 | empty message, the active subject selected, not loading |
| Assistant.AssistantPage.Type | src/components/assistant/AssistantPage.tsx:176 | only the message changes |
| Assistant.AssistantPage.SelectSubject | src/components/assistant/AssistantPage.tsx:126 | only the selection changes |
| Assistant.AssistantPage.SendMessage | src/components/assistant/AssistantPage.tsx:42-97 | a blank message changes nothing; otherwise the history grows by the exchange, the input clears and loading ends off when a reply was composed |
| Assistant.AssistantPage.KeyDown | src/components/assistant/AssistantPage.tsx:99-104 | Enter without Shift sends; any other key changes nothing |
| Assistant.AssistantPage.Converse | src/components/assistant/AssistantPage.tsx:47-96 | after the guard: both messages are added in order and the input clears |
| PdfUploader.SizeErrorNamesTenMegabytes | src/components/pdf/PDFUploader.tsx:37 | the size message names the limit as 10 MB |
| PdfUploader.Check | src/components/pdf/PDFUploader.tsx:29-40 | wrong type exactly for another MIME type; too large exactly for a PDF over the limit; accepted exactly for a PDF within it |
| PdfUploader.LimitIsInclusive | src/components/pdf/PDFUploader.tsx:10-36 | a PDF of exactly 10 MiB passes and one byte more is refused |
| PdfUploader.TypeCheckedFirst | src/components/pdf/PDFUploader.tsx:29-36 | a non-PDF is refused for its type, whatever its size |
| PdfUploader.ErrorOf | src/components/pdf/PDFUploader.tsx:29-43 | an error message exactly for a refused file |
| PdfUploader.Uploader.constructor | src/components/pdf/PDFUploader.tsx:16-20 | no file, URL or error, not dragging, nothing notified or released |
| PdfUploader.Uploader.FileChange | src/components/pdf/PDFUploader.tsx:23-55 | no files: no change; a refused first file sets its error only; an accepted one clears the error, is shown through the URL and is passed to a present callback; a shown file is always an accepted one |
| PdfUploader.Uploader.DragOver | src/components/pdf/PDFUploader.tsx:57-60 | the highlight goes on |
| PdfUploader.Uploader.DragLeave | src/components/pdf/PDFUploader.tsx:62-64 | the highlight goes off |
| PdfUploader.Uploader.Drop | src/components/pdf/PDFUploader.tsx:66-70 | the highlight goes off and the dropped files are handled as a choice |
| PdfUploader.Uploader.RemoveFile | src/components/pdf/PDFUploader.tsx:78-87 | a non-empty URL is released, file and URL are gone and the viewer hides; the error stays |

## Left out

- Persistence: `localStorage` and JSON are not modelled. Storage reaches the model only as the parsed values present at start-up (`Store.Saved`), and a write after each change is not modelled.
- Ids, clocks and randomness are parameters: `generateId`, `new Date()`, `Date.now()` and `Math.random()`. So is `URL.createObjectURL`, and so are the AI hook's summaries, cards, questions and answers.
- `formatDate`, `formatTime` and the planner's calendar filter `filteredPlans`: locale date formatting is outside the model, and so is the planner's selected calendar date.
- Floating point: numbers are exact reals, plus NaN and ±Infinity. `toFixed(2)` in the GPA and required-score results is not modelled, and neither are `String(v)` of non-integers and exponent notation.
- `toggleSign`, `inputPercent` and the converters in both calculators: they parse and print floats, which the exact model does not render. The bitwise buttons are left out too.
- `CalculatorPage.Calculator.ScientificOperation`: the transcendental keys (sin, cos, tan, ln, log, sqrt) and the π and e constants are not modelled. Neither is the `default` branch, which maps to no key.
- `AdvancedCalculator.DateDifference`: the month estimate `days / 30.44` is not modelled, nor is parsing the date strings; dates are millisecond instants.
- `AdvancedCalculator.CalculateRequiredScore`: the unused `currentTotalWeight` is not computed.
- `AdvancedCalculator.GpaCalculator.UpdateCourse`: requires an existing index. The source would write past the end and create a hole, which a JavaScript array allows and a sequence does not.
- `AdvancedCalculator.GradeCalculator.SetScore`: the source mutates the shared component object in place, and the model replaces it. Nothing else observes the old object, so only the aliasing is lost.
- `Utils.PeriodTime`: the contract states only which periods have a slot. The eight time strings are in the body, and only the lunch break is proved about them.
- `Strings.ToUpper`: `toUpperCase` is ASCII-only here, with no Unicode case mapping; `Utils.Initials` inherits this.
- `Utils.Initials`: strings are sequences of Unicode characters, whereas JavaScript indexes UTF-16 code units. So `words[0][0]` and `substring(0, 2)` in `getInitials` (src/lib/utils.ts:49-55) can split a surrogate pair, which the model cannot express: there a non-BMP letter is one character.
- `CalculatorPage.ProgrammerView`: a computed number is read through its integer part, as `parseInt(String(v), 10)` reads it in plain notation; the exponent notation `String` uses for very large or very small values is not modelled.
- `Strings.ParseInt`: leading whitespace and the `0x` prefix are not modelled. No display text and no number input has them.
- `Types.Resource`: the optional `annotations` and `bookmarks` fields of the record type are not modelled. No core handler reads or writes them.
- Browser effects: `window.open` is modelled only as the target `Store.OpenTarget` returns, and file-input clicks and resets are not modelled. Toasts are not modelled, nor is `console.error`.
- `Assistant.AssistantPage.SendMessage`: the one-second `setTimeout` and the `await` are not modelled; the send runs to completion as one step. So `loading` is observed only after the reply, and the `catch` branch, which nothing in the block can reach, is left out.
- `PdfViewer.Viewer.LoadFlashcards`: the `isTextExtracted` guards and the text extraction with pdf.js are not modelled. The same holds for `LoadQuiz` and for the summary and question handlers. The generated content is an input.
- `PdfViewer.QuizScore`: the rounded percentage (`Math.round`) is not computed.
- The PDF viewer's zoom (`scale`), search, annotations, tab switching and download are not modelled. They are rendering settings or browser I/O.
- The calculator Converter mode, the ChatGPT-style settings page and the subject, schedule and layout pages are not part of this model.

## Findings

| source | as written | input that shows it | evidently intended | confidence | as-written member | corrected member |
|---|---|---|---|---|---|---|
| src/components/calculator/CalculatorPage.tsx:209-215 | `setProgrammingBase(base)` is followed in the same handler by `formatProgrammingValue`, which reads `programmingBase` from the current render, the old base, and stores its output as the display; but the display is decimal text that line 748 renders in the selected base | binary mode with 5 on the display (shown "101"), switch to decimal: the display becomes "101" and shows 101; from hexadecimal, 255 (shown "FF") becomes "FF", shown "0" | the display keeps its number and shows it in the new base ("5") | not executed | CalculatorPage.LeavingBinaryChangesValue | CalculatorPage.BaseChange |
| src/components/ui/gradient-picker.tsx:53-58 | `setTimeout(updateGradient, 0)` runs the `updateGradient` of the render that created the handler, whose `colorStops` are the old ones (likewise for type, direction, adding and removing stops) | default stops, change the first to #000000: the preview stays `linear-gradient(to right, #4f46e5, #7e22ce)` | the preview shows the CSS of the edited settings | not executed | GradientPicker.DeferredUpdateLags | GradientPicker.Picker.ChangeStop |
| src/lib/utils.ts:49-55 | `words[0][0]` and `words[words.length - 1][0]` are read without checking that the end pieces are non-empty; when both are, `undefined + undefined` is NaN, a number, and `.toUpperCase()` throws a TypeError (one empty end gives "UNDEFINED" plus a letter) | " x ", which `SubjectList.tsx` and `SubjectCard.tsx` pass for a name typed with surrounding spaces: the split gives "", "x", "" and the call throws | the initials of the non-empty words, "X" | not executed | Utils.PaddedNameThrows | Utils.InitialsOfName |
| src/components/subjects/ResourceList.tsx:63-65 | the list shows `activeSubject.resources`, but `addResource` (src/context/AppContext.tsx:144-158) updates only `subjects` and leaves the `activeSubject` snapshot as it was | select sample subject "1" and add a resource: it is stored, but the page still lists no resources | the list follows the stored subject with the active id | not executed | ResourceList.StaleListOmitsAddedResource | ResourceList.AddedResourceIsShown |
