/**
 * The study planner: the new-plan form and its reset, completing a plan,
 * the duration input and the subject lookup of the plan list.
 */
module Planner {
  import opened Wrappers
  import opened Strings
  import opened Sequences
  import opened Types
  import Store

  /** `subjects[0]?.id || ''`: the first subject's id, or the empty string when there is no subject. */
  function FirstSubjectId(subjects: seq<Subject>): (id: string)
    ensures |subjects| == 0 ==> id == ""
    ensures |subjects| > 0 ==> id == subjects[0].id
  {
    if |subjects| == 0 then "" else subjects[0].id
  }

  datatype PlanForm = PlanForm(title: string, subjectId: string, date: int, duration: int, priority: Priority)

  /** The form after a reset: no title, the first subject, the given day, 60 minutes, medium priority. */
  function BlankForm(subjects: seq<Subject>, today: int): (f: PlanForm)
    ensures f.title == "" && f.date == today && f.duration == 60 && f.priority == Medium
    ensures f.subjectId == FirstSubjectId(subjects)
  {
    PlanForm("", FirstSubjectId(subjects), today, 60, Medium)
  }

  /** A blank form cannot be submitted, whichever subjects exist. */
  lemma BlankFormIsNotSubmittable(subjects: seq<Subject>, today: int)
    ensures !Submittable(BlankForm(subjects, today))
  {
  }

  /** `handleAddPlan`'s guard: both the title and the subject are chosen. */
  predicate Submittable(f: PlanForm) {
    f.title != "" && f.subjectId != ""
  }

  /** The plan the form submits: its fields with `completed` false. */
  function PlanOf(f: PlanForm): (d: Store.PlanDraft)
    ensures d.title == f.title && d.subjectId == f.subjectId && d.date == f.date
    ensures d.duration == f.duration && d.priority == f.priority
    ensures !d.completed
  {
    Store.PlanDraft(f.title, f.subjectId, f.date, f.duration, false, f.priority)
  }

  /** `parseInt(value) || 30`: the integer the text starts with, or 30 when there is none or it is 0. */
  function DurationInput(text: string): (minutes: int)
    ensures minutes != 0
    ensures ParseInt(text, 10).None? ==> minutes == 30
    ensures ParseInt(text, 10) == Some(0) ==> minutes == 30
    ensures ParseInt(text, 10).Some? && ParseInt(text, 10).value != 0 ==> minutes == ParseInt(text, 10).value
  {
    match ParseInt(text, 10)
    case None => 30
    case Some(n) => if n == 0 then 30 else n
  }

  /** A duration written out in decimal is read back unchanged, unless it is 0, which becomes 30. */
  lemma DurationRoundTrip(n: int)
    ensures DurationInput(IntToRadix(n, 10)) == if n == 0 then 30 else n
  {
    ParseIntOfRadix(n, 10);
  }

  /** `handleToggleComplete`'s plan: `completed` flipped, every other field kept. */
  function Toggled(p: StudyPlan): (q: StudyPlan)
    ensures q.completed == !p.completed
    ensures q.(completed := p.completed) == p
  {
    p.(completed := !p.completed)
  }

  /** Toggling twice gives the plan back, and the id the store matches on never changes. */
  lemma ToggleTwice(p: StudyPlan)
    ensures Toggled(Toggled(p)) == p
    ensures PlanId(Toggled(p)) == PlanId(p)
  {
  }

  /** `getSubjectById`: the first subject with the id, or none when no subject has it. */
  function SubjectById(subjects: seq<Subject>, id: string): (r: Option<Subject>)
    ensures r.None? <==> forall i :: 0 <= i < |subjects| ==> subjects[i].id != id
    ensures r.Some? ==> exists i :: (0 <= i < |subjects| && subjects[i] == r.value && r.value.id == id
      && forall j :: 0 <= j < i ==> subjects[j].id != id)
  {
    FindIsFirst(subjects, SubjectId, id);
    Find(subjects, SubjectId, id)
  }

  /** `getPriorityClass`: the colour classes of the priority badge. */
  function PriorityClass(p: Priority): string {
    match p
    case Low => "text-blue-500 border-blue-500"
    case Medium => "text-amber-500 border-amber-500"
    case High => "text-red-500 border-red-500"
  }

  /** Each priority has its own badge colour. */
  lemma PriorityClassesDistinct(p: Priority, q: Priority)
    ensures PriorityClass(p) == PriorityClass(q) ==> p == q
  {
    if p != q {
      assert PriorityClass(p)[5] != PriorityClass(q)[5];
    }
  }

  datatype PlannerState = PlannerState(isDialogOpen: bool, form: PlanForm)

  /** The page's state: the dialog and the new-plan form. */
  class PlannerPage {
    var isDialogOpen: bool
    var form: PlanForm

    function State(): PlannerState
      reads this
    {
      PlannerState(isDialogOpen, form)
    }

    /** The page mounts with the dialog closed and a blank form for today. */
    constructor (subjects: seq<Subject>, today: int)
      ensures State() == PlannerState(false, BlankForm(subjects, today))
    {
      isDialogOpen := false;
      form := BlankForm(subjects, today);
    }

    /** The "Add Study Plan" buttons. */
    method OpenDialog()
      modifies this
      ensures State() == old(State()).(isDialogOpen := true)
    {
      isDialogOpen := true;
    }

    /** The Cancel button. */
    method CloseDialog()
      modifies this
      ensures State() == old(State()).(isDialogOpen := false)
    {
      isDialogOpen := false;
    }

    method SetTitle(title: string)
      modifies this
      ensures State() == old(State()).(form := old(form).(title := title))
    {
      form := form.(title := title);
    }

    method SetSubject(subjectId: string)
      modifies this
      ensures State() == old(State()).(form := old(form).(subjectId := subjectId))
    {
      form := form.(subjectId := subjectId);
    }

    method SetDate(date: int)
      modifies this
      ensures State() == old(State()).(form := old(form).(date := date))
    {
      form := form.(date := date);
    }

    /** The duration input keeps `DurationInput` of the text typed. */
    method SetDuration(text: string)
      modifies this
      ensures State() == old(State()).(form := old(form).(duration := DurationInput(text)))
      ensures form.duration != 0
    {
      form := form.(duration := DurationInput(text));
    }

    method SetPriority(p: Priority)
      modifies this
      ensures State() == old(State()).(form := old(form).(priority := p))
    {
      form := form.(priority := p);
    }

    /**
     * `handleAddPlan`. A submittable form becomes a new plan with id `id`,
     * the form is reset for `today` and the dialog closes; otherwise
     * nothing changes.
     */
    method AddPlan(store: Store.AppStore, id: string, today: int)
      modifies this, store
      ensures Submittable(old(form)) ==>
        && store.State() == old(store.State()).(studyPlans := old(store.studyPlans) + [Store.NewPlan(PlanOf(old(form)), id)])
        && State() == PlannerState(false, BlankForm(old(store.subjects), today))
      ensures !Submittable(old(form)) ==> store.State() == old(store.State()) && State() == old(State())
    {
      if Submittable(form) {
        var subjects := store.subjects;
        store.AddStudyPlan(PlanOf(form), id);
        form := BlankForm(subjects, today);
        isDialogOpen := false;
      }
    }

    /** `handleToggleComplete`: the store's plan with this id is replaced by the toggled plan. */
    method ToggleComplete(store: Store.AppStore, plan: StudyPlan)
      modifies store
      ensures store.State() == old(store.State()).(studyPlans := Replace(old(store.studyPlans), PlanId, Toggled(plan)))
    {
      store.UpdateStudyPlan(Toggled(plan));
    }
  }

  /** Completing a listed plan flips that plan alone and keeps every plan in its place. */
  lemma ToggleFlipsOnlyThatPlan(plans: seq<StudyPlan>, i: nat)
    requires i < |plans| && UniqueKeys(plans, PlanId)
    ensures var r := Replace(plans, PlanId, Toggled(plans[i]));
      && |r| == |plans|
      && r[i].completed == !plans[i].completed
      && r[i].(completed := plans[i].completed) == plans[i]
      && forall j :: 0 <= j < |plans| && j != i ==> r[j] == plans[j]
  {
  }
}
