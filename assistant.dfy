/**
 * The study assistant: sending a message appends the user's message and
 * then one reply to the chat history. Without an API key the reply asks for
 * one; otherwise it is composed from the selected subject.
 */
module Assistant {
  import opened Wrappers
  import opened Strings
  import opened Sequences
  import opened Types
  import Store

  /** `subjects.find(s => s.id === selected)?.name || ''`. */
  function SubjectName(subjects: seq<Subject>, selected: string): (name: string)
    ensures (forall i :: 0 <= i < |subjects| ==> subjects[i].id != selected) ==> name == ""
    ensures forall i :: (0 <= i < |subjects| && subjects[i].id == selected
      && (forall j :: 0 <= j < i ==> subjects[j].id != selected)) ==> name == subjects[i].name
  {
    FindIsFirst(subjects, SubjectId, selected);
    match Find(subjects, SubjectId, selected)
    case None => ""
    case Some(s) => s.name
  }

  const NoKeyReply: string := "Please set your AI API key in the settings first to use the AI assistant."
  const Preamble: string := "I'll help you with your question about "
  const ComputerScienceAdvice: string := "Based on computer science principles, I would suggest looking into algorithms and data structures for this problem."
  const MathematicsAdvice: string := "From a mathematical perspective, we could approach this using calculus or linear algebra concepts."
  const GenericAdvice: string := "I'd be happy to help you with this question. Could you provide more details?"

  /** What the reply is about: the subject's name, or "your studies" when there is none. */
  function Topic(subject: string): (t: string)
    ensures t != ""
    ensures subject != "" ==> t == subject
    ensures subject == "" ==> t == "your studies"
  {
    if subject == "" then "your studies" else subject
  }

  /** The subject-specific second paragraph. */
  function Advice(subject: string): string {
    if subject == "Computer Science" then ComputerScienceAdvice
    else if subject == "Mathematics" then MathematicsAdvice
    else GenericAdvice
  }

  /** The parts of a concatenation can be read back from it. */
  lemma Parts(a: string, b: string, c: string)
    ensures (a + b + c)[..|a|] == a
    ensures (a + b + c)[|a|..|a| + |b|] == b
    ensures (a + b + c)[|a| + |b|..] == c
  {
    assert (a + b + c)[..|a|] == (a + b)[..|a|];
    assert (a + b + c)[|a|..|a| + |b|] == (a + b)[|a|..];
  }

  lemma Associative(a: string, b: string, c: string)
    ensures a + b + c == a + (b + c)
  {
  }

  /** The simulated reply: the preamble naming the topic, a blank line, and the advice chosen by subject. */
  function Reply(subject: string): (r: string)
    ensures |r| > |Preamble| + |Topic(subject)|
    ensures r[..|Preamble|] == Preamble
    ensures r[|Preamble|..|Preamble| + |Topic(subject)|] == Topic(subject)
    ensures r[|Preamble| + |Topic(subject)|..] == ".\n\n" + Advice(subject)
  {
    var rest := ".\n\n" + Advice(subject);
    Parts(Preamble, Topic(subject), rest);
    Preamble + Topic(subject) + rest
  }

  /** Only the two known subjects get their own advice; every other one, and none, gets the generic one. */
  lemma AdviceBySubject(subject: string)
    ensures Advice(subject) == ComputerScienceAdvice <==> subject == "Computer Science"
    ensures Advice(subject) == MathematicsAdvice <==> subject == "Mathematics"
    ensures Advice(subject) == GenericAdvice <==> subject != "Computer Science" && subject != "Mathematics"
  {
    assert |ComputerScienceAdvice| == 115 && |MathematicsAdvice| == 98 && |GenericAdvice| == 76;
  }

  /**
   * The messages one send appends, oldest first: the user's message with
   * the subject's name as context, then the reply. Without an API key the
   * reply is the fixed request for one, with no context; otherwise it is
   * `Reply` with the same context.
   */
  function Exchange(message: string, subject: string, apiKey: string, userId: string, userTime: int, replyId: string, replyTime: int): (e: seq<ChatMessage>)
    ensures |e| == 2
    ensures e[0].role == User && e[0].content == message && e[0].subjectContext == Some(subject)
    ensures e[1].role == Assistant
    ensures apiKey == "" ==> e[1].content == NoKeyReply && e[1].subjectContext.None?
    ensures apiKey != "" ==> e[1].content == Reply(subject) && e[1].subjectContext == e[0].subjectContext
  {
    var user := Store.NewMessage(Store.MessageDraft(message, User, Some(subject)), userId, userTime);
    var reply :=
      if apiKey == "" then Store.MessageDraft(NoKeyReply, Assistant, None)
      else Store.MessageDraft(Reply(subject), Assistant, Some(subject));
    [user, Store.NewMessage(reply, replyId, replyTime)]
  }

  /** The reply as `handleSendMessage` builds it: the preamble, then the advice appended by subject. */
  method ComposeReply(subject: string) returns (response: string)
    ensures response == Reply(subject)
  {
    response := Preamble + Topic(subject) + ".\n\n";
    if subject == "Computer Science" {
      response := response + ComputerScienceAdvice;
    } else if subject == "Mathematics" {
      response := response + MathematicsAdvice;
    } else {
      response := response + GenericAdvice;
    }
    Associative(Preamble + Topic(subject), ".\n\n", Advice(subject));
  }

  datatype AssistantState = AssistantState(message: string, selectedSubject: string, loading: bool)

  /** The page's state: the text being typed, the selected subject's id and the loading flag. */
  class AssistantPage {
    var message: string
    var selectedSubject: string
    var loading: bool

    function State(): AssistantState
      reads this
    {
      AssistantState(message, selectedSubject, loading)
    }

    /** The selection starts on the active subject, or on none. */
    constructor (activeSubject: Option<Subject>)
      ensures State() == AssistantState("", if activeSubject.Some? then activeSubject.value.id else "", false)
    {
      message := "";
      selectedSubject := if activeSubject.Some? then activeSubject.value.id else "";
      loading := false;
    }

    method Type(text: string)
      modifies this
      ensures State() == old(State()).(message := text)
    {
      message := text;
    }

    method SelectSubject(id: string)
      modifies this
      ensures State() == old(State()).(selectedSubject := id)
    {
      selectedSubject := id;
    }

    /**
     * `handleSendMessage`. A blank message changes nothing. Otherwise the
     * chat history grows by `Exchange` of the message, the selected
     * subject's name and the key, and the input is cleared; the loading
     * flag is off again when the reply is in.
     */
    method SendMessage(store: Store.AppStore, userId: string, userTime: int, replyId: string, replyTime: int)
      modifies this, store
      ensures IsBlank(old(message)) ==> store.State() == old(store.State()) && State() == old(State())
      ensures !IsBlank(old(message)) ==>
        && store.State() == old(store.State()).(chatHistory := old(store.chatHistory) +
             Exchange(old(message), SubjectName(old(store.subjects), old(selectedSubject)), old(store.apiKey), userId, userTime, replyId, replyTime))
        && State() == old(State()).(message := "", loading := if old(store.apiKey) == "" then old(loading) else false)
    {
      TrimEmptyIffBlank(message);
      if Trim(message) == "" {
        return;
      }
      var subject := SubjectName(store.subjects, selectedSubject);
      Converse(store, subject, userId, userTime, replyId, replyTime);
    }

    /** `handleKeyDown`: Enter without Shift sends the message; every other key leaves both states alone. */
    method KeyDown(store: Store.AppStore, isEnter: bool, shift: bool, userId: string, userTime: int, replyId: string, replyTime: int)
      modifies this, store
      ensures !(isEnter && !shift) || IsBlank(old(message)) ==> store.State() == old(store.State()) && State() == old(State())
      ensures isEnter && !shift && !IsBlank(old(message)) ==>
        && store.State() == old(store.State()).(chatHistory := old(store.chatHistory) +
             Exchange(old(message), SubjectName(old(store.subjects), old(selectedSubject)), old(store.apiKey), userId, userTime, replyId, replyTime))
        && State() == old(State()).(message := "", loading := if old(store.apiKey) == "" then old(loading) else false)
    {
      if isEnter && !shift {
        SendMessage(store, userId, userTime, replyId, replyTime);
      }
    }

    /** The part of `handleSendMessage` after the guard, for the subject's name `subject`. */
    method Converse(store: Store.AppStore, subject: string, userId: string, userTime: int, replyId: string, replyTime: int)
      modifies this, store
      ensures store.State() == old(store.State()).(chatHistory := old(store.chatHistory) +
        Exchange(old(message), subject, old(store.apiKey), userId, userTime, replyId, replyTime))
      ensures State() == old(State()).(message := "", loading := if old(store.apiKey) == "" then old(loading) else false)
    {
      ghost var history := store.chatHistory;
      ghost var exchange := Exchange(message, subject, store.apiKey, userId, userTime, replyId, replyTime);
      store.AddChatMessage(Store.MessageDraft(message, User, Some(subject)), userId, userTime);
      if store.apiKey == "" {
        store.AddChatMessage(Store.MessageDraft(NoKeyReply, Assistant, None), replyId, replyTime);
        assert store.chatHistory == history + exchange;
        message := "";
        return;
      }
      loading := true;
      var response := ComposeReply(subject);
      store.AddChatMessage(Store.MessageDraft(response, Assistant, Some(subject)), replyId, replyTime);
      assert store.chatHistory == history + exchange;
      loading := false;
      message := "";
    }
  }
}
