/**
 * The resource list of the active subject and its add-resource form: a
 * name, a type, and one attachment field per type (a path for a PDF, a URL
 * for a link, the text of a note).
 */
module ResourceList {
  import opened Wrappers
  import opened Strings
  import opened Sequences
  import opened Types
  import Store

  /**
   * The resource `handleAddResource` passes to the store: the name, the
   * type and the active subject, plus the attachment of the chosen type
   * when that field is not empty. The other two attachment fields stay
   * absent, whatever was typed into them.
   */
  function DraftOf(name: string, kind: ResourceType, path: string, url: string, content: string, subjectId: string): (d: Store.ResourceDraft)
    ensures d.name == name && d.kind == kind && d.subjectId == subjectId
    ensures d.path.Some? <==> kind == Pdf && path != ""
    ensures d.url.Some? <==> kind == Link && url != ""
    ensures d.content.Some? <==> kind == Note && content != ""
    ensures d.path.Some? ==> d.path.value == path
    ensures d.url.Some? ==> d.url.value == url
    ensures d.content.Some? ==> d.content.value == content
  {
    Store.ResourceDraft(
      name, kind,
      if kind == Pdf && path != "" then Some(path) else None,
      if kind == Link && url != "" then Some(url) else None,
      if kind == Note && content != "" then Some(content) else None,
      subjectId)
  }

  /** A resource carries at most one attachment, and one of type `other` carries none. */
  lemma AtMostOneAttachment(name: string, kind: ResourceType, path: string, url: string, content: string, subjectId: string)
    ensures var d := DraftOf(name, kind, path, url, content, subjectId);
      && !(d.path.Some? && d.url.Some?)
      && !(d.path.Some? && d.content.Some?)
      && !(d.url.Some? && d.content.Some?)
      && (kind == Other ==> d.path.None? && d.url.None? && d.content.None?)
  {
  }

  /** Whether the add button does anything: a name that is not blank, and an active subject. */
  predicate CanAdd(name: string, activeSubject: Option<Subject>) {
    Trim(name) != "" && activeSubject.Some?
  }

  /** A name of spaces alone is refused; any name with a visible character is accepted. */
  lemma CanAddIffNotBlank(name: string, activeSubject: Option<Subject>)
    ensures CanAdd(name, activeSubject) <==> !IsBlank(name) && activeSubject.Some?
  {
    TrimEmptyIffBlank(name);
  }

  /**
   * The list shown as written: nothing without an active subject, otherwise
   * the resources of the `activeSubject` snapshot, which the store's
   * resource operations do not refresh.
   */
  function Listed(activeSubject: Option<Subject>): (r: Option<seq<Resource>>)
    ensures r.None? <==> activeSubject.None?
    ensures r.Some? ==> r.value == activeSubject.value.resources
  {
    if activeSubject.None? then None else Some(activeSubject.value.resources)
  }

  /**
   * The list as intended: the current resources of the subject in the
   * store's list that has the active subject's id; nothing without an
   * active subject or when the store no longer has it.
   */
  function Shown(subjects: seq<Subject>, activeSubject: Option<Subject>): (r: Option<seq<Resource>>)
    ensures r.None? <==> activeSubject.None? || activeSubject.value.id !in Keys(subjects, SubjectId)
  {
    if activeSubject.None? then None
    else match Find(subjects, SubjectId, activeSubject.value.id)
      case None => None
      case Some(s) => Some(s.resources)
  }

  /** With unique ids, the subject found by id is the one at the index that has it. */
  lemma FindUnique(subjects: seq<Subject>, i: nat)
    requires i < |subjects| && UniqueKeys(subjects, SubjectId)
    ensures Find(subjects, SubjectId, subjects[i].id) == Some(subjects[i])
  {
    assert Keys(subjects, SubjectId)[i] == subjects[i].id;
    var j :| 0 <= j < |subjects| && subjects[j] == Find(subjects, SubjectId, subjects[i].id).value
      && subjects[j].id == subjects[i].id && subjects[i].id !in Keys(subjects[..j], SubjectId);
  }

  /** The text inputs of the dialog. */
  datatype Input = NameInput | PathInput | UrlInput | ContentInput

  datatype FormState = FormState(
    isDialogOpen: bool,
    name: string,
    kind: ResourceType,
    path: string,
    url: string,
    content: string)

  /** The form's state: the dialog starts closed, with `pdf` chosen and every text empty. */
  class ResourceForm {
    var isDialogOpen: bool
    var name: string
    var kind: ResourceType
    var path: string
    var url: string
    var content: string

    function State(): FormState
      reads this
    {
      FormState(isDialogOpen, name, kind, path, url, content)
    }

    constructor ()
      ensures State() == FormState(false, "", Pdf, "", "", "")
    {
      isDialogOpen := false;
      name := "";
      kind := Pdf;
      path := "";
      url := "";
      content := "";
    }

    /** The two "Add Resource" buttons. */
    method OpenDialog()
      modifies this
      ensures State() == old(State()).(isDialogOpen := true)
    {
      isDialogOpen := true;
    }

    /** The dialog's close control. */
    method CloseDialog()
      modifies this
      ensures State() == old(State()).(isDialogOpen := false)
    {
      isDialogOpen := false;
    }

    /** Typing into one text input replaces that input's text and nothing else. */
    method Type(input: Input, text: string)
      modifies this
      ensures input == NameInput ==> State() == old(State()).(name := text)
      ensures input == PathInput ==> State() == old(State()).(path := text)
      ensures input == UrlInput ==> State() == old(State()).(url := text)
      ensures input == ContentInput ==> State() == old(State()).(content := text)
    {
      match input
      case NameInput => name := text;
      case PathInput => path := text;
      case UrlInput => url := text;
      case ContentInput => content := text;
    }

    /** The type select; the texts already typed are kept. */
    method ChooseKind(k: ResourceType)
      modifies this
      ensures State() == old(State()).(kind := k)
    {
      kind := k;
    }

    /**
     * `handleAddResource`. When the name is not blank and a subject is
     * active, the resource built by `DraftOf` goes to the store stamped with
     * `id` and `createdAt`, the four texts are cleared (the type is kept)
     * and the dialog closes; otherwise neither the form nor the store
     * changes.
     */
    method AddResource(store: Store.AppStore, id: string, createdAt: int)
      modifies this, store
      ensures CanAdd(old(name), old(store.activeSubject)) ==>
        && store.State() == old(store.State()).(subjects := Store.AddResourceTo(old(store.subjects),
             Store.NewResource(DraftOf(old(name), old(kind), old(path), old(url), old(content), old(store.activeSubject).value.id), id, createdAt)))
        && State() == FormState(false, "", old(kind), "", "", "")
      ensures Listed(store.activeSubject) == Listed(old(store.activeSubject))
      ensures !CanAdd(old(name), old(store.activeSubject)) ==>
        store.State() == old(store.State()) && State() == old(State())
    {
      if CanAdd(name, store.activeSubject) {
        var draft := DraftOf(name, kind, path, url, content, store.activeSubject.value.id);
        store.AddResource(draft, id, createdAt);
        name := "";
        path := "";
        url := "";
        content := "";
        isDialogOpen := false;
      }
    }
  }

  /**
   * A resource added while its subject is in the store's subject list lands
   * at the end of that subject's resources, with the fields the form
   * supplied.
   */
  lemma AddedResourceIsStored(subjects: seq<Subject>, i: nat, d: Store.ResourceDraft, id: string, createdAt: int)
    requires i < |subjects| && subjects[i].id == d.subjectId
    ensures var out := Store.AddResourceTo(subjects, Store.NewResource(d, id, createdAt));
      var added := out[i].resources[|out[i].resources| - 1];
      && |out[i].resources| == |subjects[i].resources| + 1
      && out[i].resources[..|subjects[i].resources|] == subjects[i].resources
      && added.id == id && added.name == d.name && added.kind == d.kind && added.subjectId == subjects[i].id
  {
    var out := Store.AddResourceTo(subjects, Store.NewResource(d, id, createdAt));
    assert out[i] == subjects[i].(resources := subjects[i].resources + [Store.NewResource(d, id, createdAt)]);
  }

  /**
   * As written, the page does not show a resource it has just added: with
   * sample subject "1" open, adding a resource to it puts the resource in
   * the store while the page's list, read from the snapshot, stays empty.
   */
  lemma StaleListOmitsAddedResource(d: Store.ResourceDraft, id: string, createdAt: int)
    requires d.subjectId == "1"
    ensures var active := Some(Store.DefaultSubjects()[0]);
      var r := Store.NewResource(d, id, createdAt);
      && Store.AddResourceTo(Store.DefaultSubjects(), r)[0].resources == [r]
      && Listed(active) == Some([])
      && Shown(Store.AddResourceTo(Store.DefaultSubjects(), r), active) == Some([r])
  {
    var subjects := Store.DefaultSubjects();
    var r := Store.NewResource(d, id, createdAt);
    var out := Store.AddResourceTo(subjects, r);
    assert subjects[0].id == "1";
    KeepsIds(subjects, r);
    FindUnique(out, 0);
  }

  /** Adding a resource keeps every subject's id, so unique ids stay unique. */
  lemma KeepsIds(subjects: seq<Subject>, r: Resource)
    ensures Keys(Store.AddResourceTo(subjects, r), SubjectId) == Keys(subjects, SubjectId)
    ensures UniqueKeys(subjects, SubjectId) ==> UniqueKeys(Store.AddResourceTo(subjects, r), SubjectId)
  {
    var out := Store.AddResourceTo(subjects, r);
    forall i | 0 <= i < |subjects|
      ensures Keys(out, SubjectId)[i] == Keys(subjects, SubjectId)[i]
    {
      assert Keys(out, SubjectId)[i] == SubjectId(out[i]);
      assert Keys(subjects, SubjectId)[i] == SubjectId(subjects[i]);
    }
  }

  /**
   * As intended, the list of the active subject shows an added resource
   * at its end, after the ones it showed before.
   */
  lemma AddedResourceIsShown(subjects: seq<Subject>, active: Subject, d: Store.ResourceDraft, id: string, createdAt: int)
    requires UniqueKeys(subjects, SubjectId)
    requires active.id == d.subjectId && active.id in Keys(subjects, SubjectId)
    ensures var r := Store.NewResource(d, id, createdAt);
      && Shown(subjects, Some(active)).Some?
      && Shown(Store.AddResourceTo(subjects, r), Some(active)) == Some(Shown(subjects, Some(active)).value + [r])
  {
    var r := Store.NewResource(d, id, createdAt);
    var out := Store.AddResourceTo(subjects, r);
    var i :| 0 <= i < |subjects| && Keys(subjects, SubjectId)[i] == active.id;
    FindUnique(subjects, i);
    KeepsIds(subjects, r);
    FindUnique(out, i);
  }

  /** A resource added through the form opens exactly the attachment of its type, and a note or other resource opens nothing. */
  lemma AddedResourceOpens(name: string, kind: ResourceType, path: string, url: string, content: string,
                           subjectId: string, id: string, createdAt: int)
    ensures var r := Store.NewResource(DraftOf(name, kind, path, url, content, subjectId), id, createdAt);
      Store.OpenTarget(r) == if kind == Pdf && path != "" then Some(path)
                             else if kind == Link && url != "" then Some(url)
                             else None
  {
  }
}
