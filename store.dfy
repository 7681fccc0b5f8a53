/**
 * The application state provider: subjects with their resources, the weekly
 * timetable, study plans, chat history, the API key, the active subject and
 * the active page. Each mutation replaces one collection by a `map`, a
 * `filter` or an append of the previous one. Fresh ids and timestamps are
 * parameters; persistence reaches the model only as the values found in
 * storage when the provider starts.
 */
module Store {
  import opened Wrappers
  import opened Strings
  import opened Sequences
  import opened Types

  /** A subject as the add form supplies it: no id and no resources yet. */
  datatype SubjectDraft = SubjectDraft(name: string, color: string, description: Option<string>, schedule: Option<string>)

  /** A resource without id and creation time. */
  datatype ResourceDraft = ResourceDraft(
    name: string,
    kind: ResourceType,
    path: Option<string>,
    url: Option<string>,
    content: Option<string>,
    subjectId: string)

  /** A study plan without id. */
  datatype PlanDraft = PlanDraft(title: string, subjectId: string, date: int, duration: int, completed: bool, priority: Priority)

  /** A chat message without id and timestamp. */
  datatype MessageDraft = MessageDraft(content: string, role: Role, subjectContext: Option<string>)

  function NewSubject(d: SubjectDraft, id: string): Subject {
    Subject(id, d.name, d.color, [], d.description, d.schedule)
  }

  function NewResource(d: ResourceDraft, id: string, createdAt: int): Resource {
    Resource(id, d.name, d.kind, d.path, d.url, d.content, d.subjectId, createdAt)
  }

  function NewPlan(d: PlanDraft, id: string): StudyPlan {
    StudyPlan(id, d.title, d.subjectId, d.date, d.duration, d.completed, d.priority)
  }

  function NewMessage(d: MessageDraft, id: string, timestamp: int): ChatMessage {
    ChatMessage(id, d.content, d.role, timestamp, d.subjectContext)
  }

  /** The two sample subjects a first start shows. */
  function DefaultSubjects(): (r: seq<Subject>)
    ensures |r| == 2 && UniqueKeys(r, SubjectId)
    ensures forall i :: 0 <= i < |r| ==> r[i].resources == []
  {
    [ Subject("1", "Computer Science", "#9B87F5", [], Some("Core computer science courses"), None),
      Subject("2", "Mathematics", "#7E69AB", [], Some("Mathematics and statistical methods"), None) ]
  }

  /** Cell i of the empty timetable. */
  function DefaultCell(i: nat): ScheduleCell {
    ScheduleCell("schedule-" + NatToString(i), i / 8, i % 8 + 1, Some(""), Some(""), Some(""), Some(""))
  }

  /** The empty timetable: six days of eight periods, day-major. */
  function DefaultSchedule(): (r: seq<ScheduleCell>)
    ensures |r| == 48
    ensures forall i :: 0 <= i < 48 ==> r[i].id == "schedule-" + NatToString(i)
  {
    seq(48, i requires 0 <= i < 48 => DefaultCell(i))
  }

  predicate InWeek(c: ScheduleCell) {
    0 <= c.day < 6 && 1 <= c.period <= 8
  }

  /** Some cell of `cells` sits at day d, period p. */
  predicate Occurs(cells: seq<ScheduleCell>, d: int, p: int) {
    exists i :: 0 <= i < |cells| && cells[i].day == d && cells[i].period == p
  }

  /** A timetable in which every (day, period) slot of the week occurs exactly once. */
  predicate IsGrid(cells: seq<ScheduleCell>) {
    && |cells| == 48
    && (forall i :: 0 <= i < |cells| ==> InWeek(cells[i]))
    && (forall i, j :: 0 <= i < j < |cells| ==> cells[i].day != cells[j].day || cells[i].period != cells[j].period)
    && (forall d, p :: 0 <= d < 6 && 1 <= p <= 8 ==> Occurs(cells, d, p))
  }

  /** The default timetable enumerates the week exactly once, with distinct ids. */
  lemma DefaultScheduleIsGrid()
    ensures IsGrid(DefaultSchedule())
    ensures UniqueKeys(DefaultSchedule(), CellId)
  {
    var r := DefaultSchedule();
    forall d, p | 0 <= d < 6 && 1 <= p <= 8
      ensures Occurs(r, d, p)
    {
      var i := 8 * d + p - 1;
      assert r[i].day == d && r[i].period == p;
    }
    forall i, j | 0 <= i < j < 48
      ensures CellId(r[i]) != CellId(r[j])
    {
      var prefix := "schedule-";
      if CellId(r[i]) == CellId(r[j]) {
        assert (prefix + NatToString(i))[|prefix|..] == NatToString(i);
        assert (prefix + NatToString(j))[|prefix|..] == NatToString(j);
        NatToStringInjective(i, j);
      }
    }
  }

  /**
   * Replacing a cell keeps the grid when the new cell keeps the slot of the
   * cell(s) it replaces: the day and period are the caller's responsibility.
   */
  lemma UpdateCellKeepsGrid(cells: seq<ScheduleCell>, x: ScheduleCell)
    requires IsGrid(cells)
    requires forall i :: 0 <= i < |cells| && cells[i].id == x.id ==> cells[i].day == x.day && cells[i].period == x.period
    ensures IsGrid(Replace(cells, CellId, x))
  {
    var r := Replace(cells, CellId, x);
    assert forall i :: 0 <= i < 48 ==> r[i].day == cells[i].day && r[i].period == cells[i].period;
    forall d, p | 0 <= d < 6 && 1 <= p <= 8
      ensures Occurs(r, d, p)
    {
      assert Occurs(cells, d, p);
      var i :| 0 <= i < |cells| && cells[i].day == d && cells[i].period == p;
      assert r[i].day == d && r[i].period == p;
    }
  }

  /** Moving cell 0 to period 2 leaves two cells in that slot: the grid is lost. */
  lemma UpdateCellCanBreakGrid()
    ensures !IsGrid(Replace(DefaultSchedule(), CellId, DefaultCell(0).(period := 2)))
  {
    var x := DefaultCell(0).(period := 2);
    var cells := DefaultSchedule();
    assert cells[1].id != x.id by {
      assert NatToString(0) == "0" && NatToString(1) == "1";
      assert cells[1].id[9] != x.id[9];
    }
    var r := Replace(cells, CellId, x);
    assert r[1] == cells[1] && r[0] == x;
  }

  /** `addResource`'s update: the resource goes to the end of its own subject's list. */
  function AddResourceTo(subjects: seq<Subject>, r: Resource): (out: seq<Subject>)
    ensures |out| == |subjects|
    ensures forall i :: 0 <= i < |subjects| && subjects[i].id == r.subjectId ==>
      out[i] == subjects[i].(resources := subjects[i].resources + [r])
    ensures forall i :: 0 <= i < |subjects| && subjects[i].id != r.subjectId ==> out[i] == subjects[i]
  {
    seq(|subjects|, i requires 0 <= i < |subjects| =>
      if subjects[i].id == r.subjectId then subjects[i].(resources := subjects[i].resources + [r]) else subjects[i])
  }

  /** A resource whose subject does not exist is dropped: the subjects do not change. */
  lemma AddResourceNoOwner(subjects: seq<Subject>, r: Resource)
    requires r.subjectId !in Keys(subjects, SubjectId)
    ensures AddResourceTo(subjects, r) == subjects
  {
    forall i | 0 <= i < |subjects|
      ensures subjects[i].id != r.subjectId
    {
      assert Keys(subjects, SubjectId)[i] == SubjectId(subjects[i]);
    }
  }

  /** `updateResource`'s update: only inside the subject named by the resource's `subjectId`. */
  function UpdateResourceIn(subjects: seq<Subject>, r: Resource): (out: seq<Subject>)
    ensures |out| == |subjects|
    ensures Keys(out, SubjectId) == Keys(subjects, SubjectId)
    ensures forall i :: 0 <= i < |subjects| && subjects[i].id == r.subjectId ==>
      out[i] == subjects[i].(resources := Replace(subjects[i].resources, ResourceId, r))
    ensures forall i :: 0 <= i < |subjects| && subjects[i].id != r.subjectId ==> out[i] == subjects[i]
  {
    var out := seq(|subjects|, i requires 0 <= i < |subjects| =>
      if subjects[i].id == r.subjectId then subjects[i].(resources := Replace(subjects[i].resources, ResourceId, r)) else subjects[i]);
    assert Keys(out, SubjectId) == Keys(subjects, SubjectId);
    out
  }

  /** `deleteResource`'s update: the id is filtered out of every subject's list. */
  function DeleteResourceFrom(subjects: seq<Subject>, id: string): (out: seq<Subject>)
    ensures |out| == |subjects|
    ensures Keys(out, SubjectId) == Keys(subjects, SubjectId)
    ensures forall i :: 0 <= i < |subjects| ==> out[i] == subjects[i].(resources := Without(subjects[i].resources, ResourceId, id))
    ensures forall i, j :: 0 <= i < |out| && 0 <= j < |out[i].resources| ==> out[i].resources[j].id != id
  {
    var out := seq(|subjects|, i requires 0 <= i < |subjects| =>
      subjects[i].(resources := Without(subjects[i].resources, ResourceId, id)));
    assert Keys(out, SubjectId) == Keys(subjects, SubjectId);
    out
  }

  /** A resource id nobody uses: deleting it changes nothing. */
  lemma DeleteResourceNoMatch(subjects: seq<Subject>, id: string)
    requires forall i :: 0 <= i < |subjects| ==> id !in Keys(subjects[i].resources, ResourceId)
    ensures DeleteResourceFrom(subjects, id) == subjects
  {
    var out := DeleteResourceFrom(subjects, id);
    forall i | 0 <= i < |subjects|
      ensures out[i] == subjects[i]
    {
      WithoutNoMatch(subjects[i].resources, ResourceId, id);
    }
  }

  /**
   * `openResource`: the address a resource opens in the browser. A PDF opens
   * its path and a link its URL, when that field is present and not empty;
   * nothing else opens.
   */
  function OpenTarget(r: Resource): (target: Option<string>)
    ensures target.Some? <==>
      ((r.kind == Pdf && r.path.Some? && r.path.value != "") || (r.kind == Link && r.url.Some? && r.url.value != ""))
    ensures target.Some? && r.kind == Pdf ==> target == r.path
    ensures target.Some? && r.kind == Link ==> target == r.url
  {
    if r.kind == Pdf && r.path.Some? && r.path.value != "" then r.path
    else if r.kind == Link && r.url.Some? && r.url.value != "" then r.url
    else None
  }

  /** What storage held when the provider started; `None` is an absent key. */
  datatype Saved = Saved(
    subjects: Option<seq<Subject>>,
    schedule: Option<seq<ScheduleCell>>,
    studyPlans: Option<seq<StudyPlan>>,
    chatHistory: Option<seq<ChatMessage>>,
    apiKey: Option<string>)

  /** Nothing saved. */
  function NothingSaved(): Saved {
    Saved(None, None, None, None, None)
  }

  datatype AppState = AppState(
    subjects: seq<Subject>,
    activeSubject: Option<Subject>,
    schedule: seq<ScheduleCell>,
    studyPlans: seq<StudyPlan>,
    chatHistory: seq<ChatMessage>,
    activePage: string,
    apiKey: string)

  /** The state the provider starts in. */
  function InitialState(saved: Saved): (st: AppState)
    ensures saved.subjects.Some? ==> st.subjects == saved.subjects.value
    ensures saved.subjects.None? ==> st.subjects == DefaultSubjects()
    ensures saved.schedule.Some? ==> st.schedule == saved.schedule.value
    ensures saved.schedule.None? ==> st.schedule == DefaultSchedule()
    ensures saved.studyPlans.Some? ==> st.studyPlans == saved.studyPlans.value
    ensures saved.studyPlans.None? ==> st.studyPlans == []
    ensures saved.chatHistory.Some? ==> st.chatHistory == saved.chatHistory.value
    ensures saved.chatHistory.None? ==> st.chatHistory == []
    ensures saved.apiKey.Some? ==> st.apiKey == saved.apiKey.value
    ensures saved.apiKey.None? ==> st.apiKey == ""
    ensures st.activeSubject.None? && st.activePage == "subjects"
  {
    AppState(
      saved.subjects.GetOr(DefaultSubjects()),
      None,
      saved.schedule.GetOr(DefaultSchedule()),
      saved.studyPlans.GetOr([]),
      saved.chatHistory.GetOr([]),
      "subjects",
      saved.apiKey.GetOr(""))
  }

  /** A first start opens on the subjects page with the samples, the empty timetable and nothing else. */
  lemma FirstStart()
    ensures var st := InitialState(NothingSaved());
      && st.subjects == DefaultSubjects()
      && IsGrid(st.schedule)
      && st.studyPlans == [] && st.chatHistory == [] && st.apiKey == ""
  {
    DefaultScheduleIsGrid();
  }

  /**
   * Deleting a subject takes its study plans with it: with the two samples
   * and one plan for subject "1", deleting "1" leaves Mathematics and no plan.
   */
  lemma DeleteSubjectCascades(plan: StudyPlan)
    requires plan.subjectId == "1"
    ensures Without(DefaultSubjects(), SubjectId, "1") == [DefaultSubjects()[1]]
    ensures Without([plan], PlanSubject, "1") == []
  {
    assert DefaultSubjects()[1..][1..] == [];
  }

  /** Subject deletion: the subject's ids and plans leave, everything else keeps its order. */
  lemma DeleteSubjectRemovesExactly(subjects: seq<Subject>, plans: seq<StudyPlan>, id: string)
    ensures id !in Keys(Without(subjects, SubjectId, id), SubjectId)
    ensures forall i :: 0 <= i < |subjects| && subjects[i].id != id ==> subjects[i] in Without(subjects, SubjectId, id)
    ensures forall i :: 0 <= i < |plans| && plans[i].subjectId != id ==> plans[i] in Without(plans, PlanSubject, id)
    ensures forall p :: p in Without(plans, PlanSubject, id) ==> p in plans && p.subjectId != id
  {
    var w := Without(subjects, SubjectId, id);
    forall i | 0 <= i < |w|
      ensures Keys(w, SubjectId)[i] != id
    {
    }
  }

  class AppStore {
    var subjects: seq<Subject>
    var activeSubject: Option<Subject>
    var schedule: seq<ScheduleCell>
    var studyPlans: seq<StudyPlan>
    var chatHistory: seq<ChatMessage>
    var activePage: string
    var apiKey: string

    function State(): AppState
      reads this
    {
      AppState(subjects, activeSubject, schedule, studyPlans, chatHistory, activePage, apiKey)
    }

    /** The provider's first render: each collection from storage, or its default. */
    constructor (saved: Saved)
      ensures State() == InitialState(saved)
    {
      var st := InitialState(saved);
      subjects := st.subjects;
      activeSubject := st.activeSubject;
      schedule := st.schedule;
      studyPlans := st.studyPlans;
      chatHistory := st.chatHistory;
      activePage := st.activePage;
      apiKey := st.apiKey;
    }

    method SetApiKey(key: string)
      modifies this
      ensures State() == old(State()).(apiKey := key)
    {
      apiKey := key;
    }

    method SetActivePage(page: string)
      modifies this
      ensures State() == old(State()).(activePage := page)
    {
      activePage := page;
    }

    method SetActiveSubject(subject: Option<Subject>)
      modifies this
      ensures State() == old(State()).(activeSubject := subject)
    {
      activeSubject := subject;
    }

    /** Appends the new subject, with an empty resource list; `id` is the freshly generated one. */
    method AddSubject(draft: SubjectDraft, id: string)
      modifies this
      ensures State() == old(State()).(subjects := old(subjects) + [NewSubject(draft, id)])
      ensures |subjects| == |old(subjects)| + 1 && subjects[..|old(subjects)|] == old(subjects)
      ensures subjects[|subjects| - 1].resources == []
      ensures UniqueKeys(old(subjects), SubjectId) && id !in Keys(old(subjects), SubjectId) ==> UniqueKeys(subjects, SubjectId)
    {
      if UniqueKeys(subjects, SubjectId) && id !in Keys(subjects, SubjectId) {
        AppendFresh(subjects, SubjectId, NewSubject(draft, id));
      }
      subjects := subjects + [NewSubject(draft, id)];
    }

    /**
     * Replaces every subject carrying the updated subject's id. The active
     * subject is a separate copy and is not refreshed.
     */
    method UpdateSubject(updated: Subject)
      modifies this
      ensures State() == old(State()).(subjects := Replace(old(subjects), SubjectId, updated))
      ensures Keys(subjects, SubjectId) == Keys(old(subjects), SubjectId)
      ensures updated.id !in Keys(old(subjects), SubjectId) ==> subjects == old(subjects)
    {
      ReplaceKeepsKeys(subjects, SubjectId, updated);
      if updated.id !in Keys(subjects, SubjectId) {
        ReplaceNoMatch(subjects, SubjectId, updated);
      }
      subjects := Replace(subjects, SubjectId, updated);
    }

    /** Removes the subject, its study plans, and the active subject when it is the one removed. */
    method DeleteSubject(id: string)
      modifies this
      ensures subjects == Without(old(subjects), SubjectId, id)
      ensures studyPlans == Without(old(studyPlans), PlanSubject, id)
      ensures activeSubject == if old(activeSubject).Some? && old(activeSubject).value.id == id then None else old(activeSubject)
      ensures schedule == old(schedule) && chatHistory == old(chatHistory)
      ensures activePage == old(activePage) && apiKey == old(apiKey)
    {
      subjects := Without(subjects, SubjectId, id);
      if activeSubject.Some? && activeSubject.value.id == id {
        activeSubject := None;
      }
      studyPlans := Without(studyPlans, PlanSubject, id);
    }

    /** Adds the resource, stamped with `id` and `createdAt`, to the subject it names. */
    method AddResource(draft: ResourceDraft, id: string, createdAt: int)
      modifies this
      ensures State() == old(State()).(subjects := AddResourceTo(old(subjects), NewResource(draft, id, createdAt)))
      ensures draft.subjectId !in Keys(old(subjects), SubjectId) ==> subjects == old(subjects)
    {
      var r := NewResource(draft, id, createdAt);
      if draft.subjectId !in Keys(subjects, SubjectId) {
        AddResourceNoOwner(subjects, r);
      }
      subjects := AddResourceTo(subjects, r);
    }

    method UpdateResource(updated: Resource)
      modifies this
      ensures State() == old(State()).(subjects := UpdateResourceIn(old(subjects), updated))
    {
      subjects := UpdateResourceIn(subjects, updated);
    }

    method DeleteResource(id: string)
      modifies this
      ensures State() == old(State()).(subjects := DeleteResourceFrom(old(subjects), id))
      ensures |subjects| == |old(subjects)|
    {
      subjects := DeleteResourceFrom(subjects, id);
    }

    /** Replaces the cell with the updated cell's id, whatever its day and period. */
    method UpdateScheduleCell(updated: ScheduleCell)
      modifies this
      ensures State() == old(State()).(schedule := Replace(old(schedule), CellId, updated))
      ensures |schedule| == |old(schedule)|
      ensures (IsGrid(old(schedule)) && forall i :: 0 <= i < |old(schedule)| && old(schedule)[i].id == updated.id ==>
                 old(schedule)[i].day == updated.day && old(schedule)[i].period == updated.period)
              ==> IsGrid(schedule)
    {
      if IsGrid(schedule) && (forall i :: 0 <= i < |schedule| && schedule[i].id == updated.id ==>
        schedule[i].day == updated.day && schedule[i].period == updated.period) {
        UpdateCellKeepsGrid(schedule, updated);
      }
      schedule := Replace(schedule, CellId, updated);
    }

    method AddStudyPlan(draft: PlanDraft, id: string)
      modifies this
      ensures State() == old(State()).(studyPlans := old(studyPlans) + [NewPlan(draft, id)])
      ensures UniqueKeys(old(studyPlans), PlanId) && id !in Keys(old(studyPlans), PlanId) ==> UniqueKeys(studyPlans, PlanId)
    {
      if UniqueKeys(studyPlans, PlanId) && id !in Keys(studyPlans, PlanId) {
        AppendFresh(studyPlans, PlanId, NewPlan(draft, id));
      }
      studyPlans := studyPlans + [NewPlan(draft, id)];
    }

    method UpdateStudyPlan(updated: StudyPlan)
      modifies this
      ensures State() == old(State()).(studyPlans := Replace(old(studyPlans), PlanId, updated))
      ensures Keys(studyPlans, PlanId) == Keys(old(studyPlans), PlanId)
      ensures updated.id !in Keys(old(studyPlans), PlanId) ==> studyPlans == old(studyPlans)
    {
      ReplaceKeepsKeys(studyPlans, PlanId, updated);
      if updated.id !in Keys(studyPlans, PlanId) {
        ReplaceNoMatch(studyPlans, PlanId, updated);
      }
      studyPlans := Replace(studyPlans, PlanId, updated);
    }

    method DeleteStudyPlan(id: string)
      modifies this
      ensures State() == old(State()).(studyPlans := Without(old(studyPlans), PlanId, id))
      ensures UniqueKeys(old(studyPlans), PlanId) ==> UniqueKeys(studyPlans, PlanId)
    {
      if UniqueKeys(studyPlans, PlanId) {
        WithoutUnique(studyPlans, PlanId, id);
      }
      studyPlans := Without(studyPlans, PlanId, id);
    }

    method AddChatMessage(draft: MessageDraft, id: string, timestamp: int)
      modifies this
      ensures State() == old(State()).(chatHistory := old(chatHistory) + [NewMessage(draft, id, timestamp)])
    {
      chatHistory := chatHistory + [NewMessage(draft, id, timestamp)];
    }
  }
}
