/**
 * The PDF viewer's navigation and study aids: the page counter, the
 * rotation, the flashcard deck, the quiz with its answer array and score,
 * and the bookmark list. The text extraction and the generated content are
 * inputs here.
 */
module PdfViewer {
  import opened Wrappers
  import opened Strings
  import opened Sequences

  /** `numPages || 0`: no page can be reached before the document has loaded. */
  function PageLimit(numPages: Option<nat>): nat {
    if numPages.Some? then numPages.value else 0
  }

  /** `nextPage` on page p of a document with `limit` pages. */
  function NextPageOf(p: int, limit: nat): (q: int)
    ensures p < limit ==> q == p + 1
    ensures p >= limit ==> q == p
  {
    if p < limit then p + 1 else p
  }

  /** `prevPage`: one page back, never before page 1. */
  function PrevPageOf(p: int): (q: int)
    ensures p > 1 ==> q == p - 1
    ensures p <= 1 ==> q == p
  {
    if p > 1 then p - 1 else p
  }

  /** Forward then back returns to the page, whenever forward moved, and back then forward too. */
  lemma PageStepsUndo(p: int, limit: nat)
    ensures 1 <= p < limit ==> PrevPageOf(NextPageOf(p, limit)) == p
    ensures 1 < p <= limit ==> NextPageOf(PrevPageOf(p), limit) == p
  {
  }

  /** Both steps stay within [1, limit] when they start there. */
  lemma PageStepsStayInRange(p: int, limit: nat)
    requires 1 <= p <= limit
    ensures 1 <= NextPageOf(p, limit) <= limit
    ensures 1 <= PrevPageOf(p) <= limit
  {
  }

  /** `rotate`: a quarter turn clockwise, modulo a full turn. */
  function Rotated(r: nat): (s: nat)
    ensures s < 360
  {
    (r + 90) % 360
  }

  predicate IsQuarterTurn(r: int) {
    r == 0 || r == 90 || r == 180 || r == 270
  }

  /** A quarter turn keeps the four positions and four of them come back to the start. */
  lemma RotationCycle(r: nat)
    requires IsQuarterTurn(r)
    ensures IsQuarterTurn(Rotated(r))
    ensures Rotated(Rotated(Rotated(Rotated(r)))) == r
    ensures Rotated(r) != r
  {
  }

  /** `nextFlashcard`'s index in a deck of n cards. */
  function NextCardOf(i: int, n: nat): (j: int)
    ensures i < n - 1 ==> j == i + 1
    ensures i >= n - 1 ==> j == i
  {
    if i < n - 1 then i + 1 else i
  }

  /** `prevFlashcard`'s index. */
  function PrevCardOf(i: int): (j: int)
    ensures i > 0 ==> j == i - 1
    ensures i <= 0 ==> j == i
  {
    if i > 0 then i - 1 else i
  }

  /** On a deck, both moves keep the index on a card, and a move forward is undone by a move back. */
  lemma CardStepsStayInDeck(i: int, n: nat)
    requires 0 <= i < n
    ensures 0 <= NextCardOf(i, n) < n && 0 <= PrevCardOf(i) < n
    ensures i < n - 1 ==> PrevCardOf(NextCardOf(i, n)) == i
  {
  }

  datatype Flashcard = Flashcard(question: string, answer: string)

  datatype QuizQuestion = QuizQuestion(question: string, options: seq<string>, correctAnswer: int)

  datatype Bookmark = Bookmark(id: string, page: int, title: string)

  function BookmarkId(b: Bookmark): string { b.id }

  /** A new quiz's answer array: -1, "not answered", for every question. */
  function Unanswered(n: nat): (a: seq<int>)
    ensures |a| == n && forall i :: 0 <= i < n ==> a[i] == -1
  {
    seq(n, _ => -1)
  }

  /** The submit button is enabled when no answer is still -1. */
  predicate SubmitEnabled(answers: seq<int>) {
    -1 !in answers
  }

  /** A fresh quiz can be submitted only when it has no questions; answering every question with an option enables it. */
  lemma SubmitAfterAnswering(n: nat, answers: seq<int>)
    ensures SubmitEnabled(Unanswered(n)) <==> n == 0
    ensures (forall i :: 0 <= i < |answers| ==> answers[i] >= 0) ==> SubmitEnabled(answers)
  {
    if n > 0 {
      assert Unanswered(n)[0] == -1;
    }
  }

  /** The number of questions whose selected answer is the correct one. */
  function CorrectCount(quiz: seq<QuizQuestion>, answers: seq<int>): (c: nat)
    ensures c <= |quiz|
  {
    if quiz == [] then 0
    else
      var n := |quiz| - 1;
      CorrectCount(quiz[..n], answers) + if n < |answers| && answers[n] == quiz[n].correctAnswer then 1 else 0
  }

  predicate AllCorrect(quiz: seq<QuizQuestion>, answers: seq<int>) {
    forall i :: 0 <= i < |quiz| ==> i < |answers| && answers[i] == quiz[i].correctAnswer
  }

  /** The score is full exactly when every question was answered correctly. */
  lemma {:induction false} FullScoreIffAllCorrect(quiz: seq<QuizQuestion>, answers: seq<int>)
    ensures CorrectCount(quiz, answers) == |quiz| <==> AllCorrect(quiz, answers)
  {
    if quiz != [] {
      var n := |quiz| - 1;
      var init, q := quiz[..n], quiz[n];
      FullScoreIffAllCorrect(init, answers);
      var hit := n < |answers| && answers[n] == q.correctAnswer;
      assert CorrectCount(quiz, answers) == CorrectCount(init, answers) + if hit then 1 else 0;
      assert AllCorrect(quiz, answers) <==> AllCorrect(init, answers) && hit by {
        assert forall i :: 0 <= i < n ==> init[i] == quiz[i];
      }
    }
  }

  /** `calculateQuizScore` without the rounded percentage: one pass counting correct answers. */
  method QuizScore(quiz: seq<QuizQuestion>, answers: seq<int>) returns (score: nat, total: nat)
    ensures score == CorrectCount(quiz, answers) && total == |quiz|
    ensures score <= total
  {
    var correct := 0;
    for i := 0 to |quiz|
      invariant correct == CorrectCount(quiz[..i], answers)
    {
      assert quiz[..i + 1][..i] == quiz[..i];
      if i < |answers| && answers[i] == quiz[i].correctAnswer {
        correct := correct + 1;
      }
    }
    assert quiz[..|quiz|] == quiz;
    score, total := correct, |quiz|;
  }

  /** Adding a bookmark with a fresh id and then removing that id restores the list. */
  lemma BookmarkAddRemove(bookmarks: seq<Bookmark>, b: Bookmark)
    requires b.id !in Keys(bookmarks, BookmarkId)
    ensures Without(bookmarks + [b], BookmarkId, b.id) == bookmarks
  {
    WithoutConcat(bookmarks, [b], BookmarkId, b.id);
    WithoutNoMatch(bookmarks, BookmarkId, b.id);
    assert Without([b], BookmarkId, b.id) == [];
  }

  datatype ViewerState = ViewerState(
    numPages: Option<nat>,
    pageNumber: int,
    rotation: int,
    flashcards: seq<Flashcard>,
    activeFlashcard: int,
    showAnswer: bool,
    quiz: seq<QuizQuestion>,
    answers: seq<int>,
    showResults: bool,
    bookmarks: seq<Bookmark>)

  class Viewer {
    var numPages: Option<nat>
    var pageNumber: int
    var rotation: int
    var flashcards: seq<Flashcard>
    var activeFlashcard: int
    var showAnswer: bool
    var quiz: seq<QuizQuestion>
    var answers: seq<int>
    var showResults: bool
    var bookmarks: seq<Bookmark>

    function State(): ViewerState
      reads this
    {
      ViewerState(numPages, pageNumber, rotation, flashcards, activeFlashcard, showAnswer,
        quiz, answers, showResults, bookmarks)
    }

    /**
     * The page is at least 1, the rotation a quarter turn, the flashcard
     * index on a card of a non-empty deck (0 otherwise), and one answer
     * slot per quiz question.
     */
    predicate Valid()
      reads this
    {
      && pageNumber >= 1
      && IsQuarterTurn(rotation)
      && (if flashcards == [] then activeFlashcard == 0 else 0 <= activeFlashcard < |flashcards|)
      && |answers| == |quiz|
    }

    constructor ()
      ensures Valid()
      ensures State() == ViewerState(None, 1, 0, [], 0, false, [], [], false, [])
    {
      numPages := None;
      pageNumber := 1;
      rotation := 0;
      flashcards := [];
      activeFlashcard := 0;
      showAnswer := false;
      quiz := [];
      answers := [];
      showResults := false;
      bookmarks := [];
    }

    /** `onDocumentLoadSuccess`: the page count becomes known; the current page is not reset. */
    method DocumentLoaded(n: nat)
      requires Valid()
      modifies this
      ensures Valid()
      ensures State() == old(State()).(numPages := Some(n))
    {
      numPages := Some(n);
    }

    /** `goToPage` with the parsed input (None for NaN): only a page of the document is accepted. */
    method GoToPage(target: Option<int>)
      requires Valid()
      modifies this
      ensures Valid()
      ensures target.Some? && 1 <= target.value <= PageLimit(numPages) ==> State() == old(State()).(pageNumber := target.value)
      ensures !(target.Some? && 1 <= target.value <= PageLimit(numPages)) ==> State() == old(State())
    {
      if target.Some? && 1 <= target.value <= PageLimit(numPages) {
        pageNumber := target.value;
      }
    }

    method NextPage()
      requires Valid()
      modifies this
      ensures Valid()
      ensures State() == old(State()).(pageNumber := NextPageOf(old(pageNumber), PageLimit(numPages)))
    {
      if pageNumber < PageLimit(numPages) {
        pageNumber := pageNumber + 1;
      }
    }

    method PrevPage()
      requires Valid()
      modifies this
      ensures Valid()
      ensures State() == old(State()).(pageNumber := PrevPageOf(old(pageNumber)))
    {
      if pageNumber > 1 {
        pageNumber := pageNumber - 1;
      }
    }

    method Rotate()
      requires Valid()
      modifies this
      ensures Valid()
      ensures State() == old(State()).(rotation := Rotated(old(rotation)))
    {
      RotationCycle(rotation);
      rotation := (rotation + 90) % 360;
    }

    /** `handleCreateFlashcards` with the generated cards: the deck is replaced, at its first card, answer hidden. */
    method LoadFlashcards(cards: seq<Flashcard>)
      requires Valid()
      modifies this
      ensures Valid()
      ensures State() == old(State()).(flashcards := cards, activeFlashcard := 0, showAnswer := false)
    {
      flashcards := cards;
      activeFlashcard := 0;
      showAnswer := false;
    }

    /** `nextFlashcard`: a move forward hides the answer; at the last card nothing changes. */
    method NextFlashcard()
      requires Valid()
      modifies this
      ensures Valid()
      ensures old(activeFlashcard) < |flashcards| - 1 ==>
        State() == old(State()).(activeFlashcard := NextCardOf(old(activeFlashcard), |flashcards|), showAnswer := false)
      ensures old(activeFlashcard) >= |flashcards| - 1 ==> State() == old(State())
    {
      if activeFlashcard < |flashcards| - 1 {
        activeFlashcard := activeFlashcard + 1;
        showAnswer := false;
      }
    }

    /** `prevFlashcard`: a move back hides the answer; at the first card nothing changes. */
    method PrevFlashcard()
      requires Valid()
      modifies this
      ensures Valid()
      ensures old(activeFlashcard) > 0 ==>
        State() == old(State()).(activeFlashcard := PrevCardOf(old(activeFlashcard)), showAnswer := false)
      ensures old(activeFlashcard) <= 0 ==> State() == old(State())
    {
      if activeFlashcard > 0 {
        activeFlashcard := activeFlashcard - 1;
        showAnswer := false;
      }
    }

    /** Clicking the card shows or hides its answer. */
    method ToggleAnswer()
      requires Valid()
      modifies this
      ensures Valid()
      ensures State() == old(State()).(showAnswer := !old(showAnswer))
    {
      showAnswer := !showAnswer;
    }

    /** `handleGenerateQuiz` with the generated questions: every answer starts as -1 and the results are hidden. */
    method LoadQuiz(questions: seq<QuizQuestion>)
      requires Valid()
      modifies this
      ensures Valid()
      ensures State() == old(State()).(quiz := questions, answers := Unanswered(|questions|), showResults := false)
    {
      quiz := questions;
      answers := Unanswered(|questions|);
      showResults := false;
    }

    /** `handleSelectQuizAnswer`: only the answer to question q changes. */
    method SelectAnswer(q: nat, option: int)
      requires Valid() && q < |quiz|
      modifies this
      ensures Valid()
      ensures State() == old(State()).(answers := old(answers)[q := option])
    {
      answers := answers[q := option];
    }

    /** The submit button: results are shown only once every question has an answer. */
    method Submit()
      requires Valid()
      modifies this
      ensures Valid()
      ensures SubmitEnabled(answers) ==> State() == old(State()).(showResults := true)
      ensures !SubmitEnabled(answers) ==> State() == old(State())
    {
      if SubmitEnabled(answers) {
        showResults := true;
      }
    }

    /** "Review Answers": back to the questions. */
    method ReviewAnswers()
      requires Valid()
      modifies this
      ensures Valid()
      ensures State() == old(State()).(showResults := false)
    {
      showResults := false;
    }

    /** `addBookmark` with the id the clock gave: a bookmark of the current page, titled "Page n", at the end. */
    method AddBookmark(id: string)
      requires Valid()
      modifies this
      ensures Valid()
      ensures State() == old(State()).(bookmarks := old(bookmarks) + [Bookmark(id, pageNumber, "Page " + NatToString(pageNumber))])
    {
      bookmarks := bookmarks + [Bookmark(id, pageNumber, "Page " + NatToString(pageNumber))];
    }

    /** `goToBookmark`: the bookmark's page, under the same check as `goToPage`. */
    method GoToBookmark(b: Bookmark)
      requires Valid()
      modifies this
      ensures Valid()
      ensures 1 <= b.page <= PageLimit(numPages) ==> State() == old(State()).(pageNumber := b.page)
      ensures !(1 <= b.page <= PageLimit(numPages)) ==> State() == old(State())
    {
      GoToPage(Some(b.page));
    }

    /** `removeBookmark`: exactly the bookmarks with this id leave. */
    method RemoveBookmark(id: string)
      requires Valid()
      modifies this
      ensures Valid()
      ensures State() == old(State()).(bookmarks := Without(old(bookmarks), BookmarkId, id))
      ensures id !in Keys(bookmarks, BookmarkId)
    {
      bookmarks := Without(bookmarks, BookmarkId, id);
      assert forall i :: 0 <= i < |bookmarks| ==> Keys(bookmarks, BookmarkId)[i] == bookmarks[i].id;
    }
  }
}
