/**
 * What one text reply does to one chat's dialogue state, flow by flow: the
 * specification the engine's reply handlers are proved against.
 */
module Flows {
  import opened Maybe
  import opened BotTypes
  import opened Menus

  /** The state to keep (`None`: the entry is deleted) and the effects, in order. */
  datatype Reaction = Reaction(next: Option<State>, effects: seq<Effect>)

  /** The message after the catalog call: a confirmation only on `success: true`. */
  function Report(request: Request, subjectName: string, command: Command, outcome: Outcome): (e: Effect)
    ensures e.Confirm? <==> outcome == Succeeded
  {
    if outcome == Succeeded then Confirm(request, subjectName) else Error(SaveFailed(command))
  }

  /** A state kept after a reply: well formed, in the same flow, and as it was or one step further. */
  predicate KeepsOrAdvances(st: State, next: State) {
    WellFormed(next) && next.command == st.command && (next == st || next.step == st.step + 1)
  }

  /** `handleAddSubject`: step 1 keeps the name, step 2 saves the subject. */
  function AddSubjectReply(st: State, text: string, outcome: Outcome): (r: Reaction)
    requires WellFormed(st) && st.command == AddSubject
    ensures r.next.Some? ==> KeepsOrAdvances(st, r.next.value)
    ensures r.next.None? <==> st.step == TerminalStep(AddSubject)
    ensures r.effects != []
  {
    if st.step == 1 then
      Reaction(Some(st.(subjectName := Some(text), step := 2)), [Prompt(AskSubjectDescription)])
    else if st.step == 2 then
      var request := CreateSubject(st.subjectName.value, text);
      Reaction(None, [Finalize(request), Report(request, st.subjectName.value, AddSubject, outcome)])
    else
      Reaction(Some(st), [])
  }

  /** Step 1 of addcontent and upload: the subject number, checked against the captured list. */
  function SubjectStep(st: State, text: string, next: PromptKind): (r: Reaction)
    requires WellFormed(st) && st.command != AddSubject && st.step == 1
    ensures r.next.Some? && KeepsOrAdvances(st, r.next.value)
    ensures r.next.value == st <==> r.effects == [Reject(InvalidSubjectNumber)]
    ensures r.next.value != st ==> r.effects == [Prompt(next)] && r.next.value.selectedSubject.value in st.subjects
  {
    match SelectSubject(st.subjects, text)
    case None => Reaction(Some(st), [Reject(InvalidSubjectNumber)])
    case Some(index) => Reaction(Some(st.(selectedSubject := Some(st.subjects[index]), step := 2)), [Prompt(next)])
  }

  /** Step 2 of addcontent and upload: the content type, looked up in the flow's menu. */
  function TypeStep(st: State, text: string, menu: map<string, ContentType>, next: PromptKind): (r: Reaction)
    requires WellFormed(st) && st.command != AddSubject && st.step == 2
    requires menu == TypeMenu(st.command)
    ensures r.next.Some? && KeepsOrAdvances(st, r.next.value)
    ensures r.next.value == st <==> r.effects == [Reject(InvalidContentType)]
    ensures r.next.value != st ==> r.effects == [Prompt(next)]
  {
    match LookupType(menu, text)
    case None => Reaction(Some(st), [Reject(InvalidContentType)])
    case Some(ctype) => Reaction(Some(st.(contentType := Some(ctype), step := 3)), [Prompt(next)])
  }

  /** Step 3 of addcontent and upload: the title. */
  function TitleStep(st: State, text: string, next: PromptKind): (r: Reaction)
    requires WellFormed(st) && st.command != AddSubject && st.step == 3
    ensures r.next.Some? && KeepsOrAdvances(st, r.next.value) && r.next.value.step == 4
    ensures r.next.value.title == Some(text) && r.effects == [Prompt(next)]
  {
    Reaction(Some(st.(title := Some(text), step := 4)), [Prompt(next)])
  }

  /** `handleAddContent`: subject, type, title, then the description that saves the content. */
  function AddContentReply(st: State, text: string, outcome: Outcome): (r: Reaction)
    requires WellFormed(st) && st.command == AddContent
    ensures r.next.Some? ==> KeepsOrAdvances(st, r.next.value)
    ensures r.next.None? <==> st.step == TerminalStep(AddContent)
    ensures r.effects != []
  {
    if st.step == 1 then SubjectStep(st, text, ChooseContentType)
    else if st.step == 2 then TypeStep(st, text, AddContentTypes, AskContentTitle)
    else if st.step == 3 then TitleStep(st, text, AskContentDescription)
    else if st.step == 4 then
      var subject := st.selectedSubject.value;
      var request := CreateContent(subject.id, st.contentType.value, st.title.value, text);
      Reaction(None, [Finalize(request), Report(request, subject.name, AddContent, outcome)])
    else
      Reaction(Some(st), [])
  }

  /**
   * The upload flow's `message` handler. At step 4 the status message is sent
   * and awaited first; when that send fails, the handler's outer catch reports
   * an error and deletes the state without calling the catalog.
   */
  function UploadReply(st: State, text: string, outcome: Outcome, statusSent: bool): (r: Reaction)
    requires WellFormed(st) && st.command == Upload
    ensures r.next.Some? ==> KeepsOrAdvances(st, r.next.value)
    ensures r.next.None? <==> st.step == TerminalStep(Upload)
    ensures r.effects != []
  {
    if st.step == 1 then SubjectStep(st, text, ChooseUploadType)
    else if st.step == 2 then TypeStep(st, text, UploadTypes, AskFileTitle)
    else if st.step == 3 then TitleStep(st, text, AskFileDescription)
    else if st.step == 4 then
      if !statusSent then
        Reaction(None, [UploadStatus, Error(UploadFlowFailed)])
      else
        var subject := st.selectedSubject.value;
        var request := UploadContent(subject.id, st.contentType.value, st.title.value, text, st.file.value);
        Reaction(None, [UploadStatus, Finalize(request), Report(request, subject.name, Upload, outcome)])
    else
      Reaction(Some(st), [])
  }

  /**
   * A non-empty text reply to a chat that holds `st`. Exactly one of the two
   * `message` handlers acts on it, chosen by the state's command. The reply
   * keeps the state well formed and in the same flow, either leaves it as it
   * was or advances it by one step, and deletes it exactly at the terminal step.
   */
  function Reply(st: State, text: string, outcome: Outcome, statusSent: bool): (r: Reaction)
    requires WellFormed(st) && text != ""
    ensures r.next.Some? ==> WellFormed(r.next.value) && r.next.value.command == st.command
    ensures r.next.Some? ==> r.next.value == st || r.next.value.step == st.step + 1
    ensures r.next.None? <==> st.step == TerminalStep(st.command)
  {
    match st.command
    case AddSubject => AddSubjectReply(st, text, outcome)
    case AddContent => AddContentReply(st, text, outcome)
    case Upload => UploadReply(st, text, outcome, statusSent)
  }

  /** The menu of the second step for the flow. */
  function TypeMenu(command: Command): map<string, ContentType> {
    if command == Upload then UploadTypes else AddContentTypes
  }

  /**
   * A reply is rejected exactly when it is a bad subject number at step 1 or a
   * bad type key at step 2 of addcontent or upload; a rejected reply leaves the
   * state as it was and only sends the matching re-prompt.
   */
  lemma RejectedReplyChangesNothing(st: State, text: string, outcome: Outcome, statusSent: bool)
    requires WellFormed(st) && text != ""
    ensures var r := Reply(st, text, outcome, statusSent);
            (r.next == Some(st)) <==>
              (st.command != AddSubject && st.step == 1 && SelectSubject(st.subjects, text).None?)
              || (st.command != AddSubject && st.step == 2 && LookupType(TypeMenu(st.command), text).None?)
    ensures var r := Reply(st, text, outcome, statusSent);
            r.next == Some(st) ==>
              r.effects == [Reject(if st.step == 1 then InvalidSubjectNumber else InvalidContentType)]
  {
  }

  /**
   * Subject selection: the reply is accepted exactly when it reads as a number
   * k with 1 <= k <= |subjects|, and then selects `subjects[k - 1]` of the list
   * captured when the flow started and moves to step 2.
   */
  lemma SubjectSelection(st: State, text: string, outcome: Outcome, statusSent: bool)
    requires WellFormed(st) && text != "" && st.command != AddSubject && st.step == 1
    ensures var r := Reply(st, text, outcome, statusSent);
            match JsParseInt.ParseIntPrefix(text)
            case Some(k) =>
              if 1 <= k <= |st.subjects| then
                r.next == Some(st.(selectedSubject := Some(st.subjects[k - 1]), step := 2))
              else r.next == Some(st)
            case None => r.next == Some(st)
  {
    SelectSubjectMeaning(st.subjects, text);
  }

  /**
   * Type selection is an exact-key lookup: addcontent takes "1" to "5" as video,
   * file, topic, quiz and tips; upload takes "1" as video and "2" or "3" as file.
   */
  lemma TypeSelection(st: State, text: string, outcome: Outcome, statusSent: bool)
    requires WellFormed(st) && text != "" && st.command != AddSubject && st.step == 2
    ensures var r := Reply(st, text, outcome, statusSent);
            if text in TypeMenu(st.command) then
              r.next == Some(st.(contentType := Some(TypeMenu(st.command)[text]), step := 3))
            else r.next == Some(st)
    ensures st.command == Upload ==>
            var r := Reply(st, text, outcome, statusSent);
            r.next.Some? ==> r.next.value.contentType.None? || r.next.value.contentType.value in {Video, File}
  {
  }

  /** The title step takes any non-empty reply as the title. */
  lemma TitleAlwaysAccepted(st: State, text: string, outcome: Outcome, statusSent: bool)
    requires WellFormed(st) && text != "" && st.command != AddSubject && st.step == 3
    ensures Reply(st, text, outcome, statusSent).next == Some(st.(title := Some(text), step := 4))
  {
  }

  /** The number of catalog calls among the effects. */
  function Finalizations(effects: seq<Effect>): (n: nat)
    ensures n <= |effects|
    ensures n == 0 <==> forall i :: 0 <= i < |effects| ==> !effects[i].Finalize?
  {
    if effects == [] then 0
    else (if effects[0].Finalize? then 1 else 0) + Finalizations(effects[1..])
  }

  /**
   * A reply at the terminal step makes exactly one catalog call whatever the
   * catalog then answers; only an upload whose status message could not be
   * sent ends without one. Replies at other steps make no call.
   */
  lemma TerminalReplyFinalizesOnce(st: State, text: string, outcome: Outcome, statusSent: bool)
    requires WellFormed(st) && text != ""
    ensures var r := Reply(st, text, outcome, statusSent);
            Finalizations(r.effects) ==
              if st.step == TerminalStep(st.command) && (st.command != Upload || statusSent) then 1 else 0
  {
    var r := Reply(st, text, outcome, statusSent);
    if st.step != TerminalStep(st.command) {
      NonTerminalReplyEffects(st, text, outcome, statusSent);
      NoFinalizations(r.effects);
    } else if st.command == AddSubject {
      var request := CreateSubject(st.subjectName.value, text);
      assert r.effects == [Finalize(request), Report(request, st.subjectName.value, AddSubject, outcome)];
      FinalizationsPair(request, r.effects[1]);
    } else if st.command == AddContent {
      var subject := st.selectedSubject.value;
      var request := CreateContent(subject.id, st.contentType.value, st.title.value, text);
      assert r.effects == [Finalize(request), Report(request, subject.name, AddContent, outcome)];
      FinalizationsPair(request, r.effects[1]);
    } else if !statusSent {
      assert r.effects == [UploadStatus, Error(UploadFlowFailed)];
      NoFinalizations(r.effects);
    } else {
      var subject := st.selectedSubject.value;
      var request := UploadContent(subject.id, st.contentType.value, st.title.value, text, st.file.value);
      assert r.effects == [UploadStatus] + [Finalize(request), Report(request, subject.name, Upload, outcome)];
      FinalizationsPair(request, r.effects[2]);
      FinalizationsAppend([UploadStatus], r.effects[1..]);
    }
  }

  /** Before the terminal step a reply sends at most one message and makes no catalog call. */
  lemma NonTerminalReplyEffects(st: State, text: string, outcome: Outcome, statusSent: bool)
    requires WellFormed(st) && text != "" && st.step != TerminalStep(st.command)
    ensures var r := Reply(st, text, outcome, statusSent);
            |r.effects| <= 1 && forall i :: 0 <= i < |r.effects| ==> !r.effects[i].Finalize?
  {
    if st.command == AddSubject {
      assert Reply(st, text, outcome, statusSent) == AddSubjectReply(st, text, outcome);
    } else if st.command == AddContent {
      assert Reply(st, text, outcome, statusSent) == AddContentReply(st, text, outcome);
    } else {
      assert Reply(st, text, outcome, statusSent) == UploadReply(st, text, outcome, statusSent);
    }
  }

  lemma FinalizationsPair(request: Request, after: Effect)
    requires !after.Finalize?
    ensures Finalizations([Finalize(request), after]) == 1
  {
    assert [Finalize(request), after][1..] == [after];
  }

  lemma NoFinalizations(effects: seq<Effect>)
    requires forall i :: 0 <= i < |effects| ==> !effects[i].Finalize?
    ensures Finalizations(effects) == 0
  {
  }

  lemma {:induction false} FinalizationsAppend(a: seq<Effect>, b: seq<Effect>)
    ensures Finalizations(a + b) == Finalizations(a) + Finalizations(b)
  {
    if a == [] {
      assert a + b == b;
    } else {
      assert (a + b)[1..] == a[1..] + b;
      FinalizationsAppend(a[1..], b);
    }
  }

  /**
   * The catalog call of a finished flow carries exactly the collected fields,
   * with the terminal reply as the description.
   */
  lemma FinalizeCarriesCollectedFields(st: State, text: string, outcome: Outcome, statusSent: bool)
    requires WellFormed(st) && text != ""
    ensures var r := Reply(st, text, outcome, statusSent);
            forall e | e in r.effects && e.Finalize? ::
              st.step == TerminalStep(st.command) &&
              match st.command
              case AddSubject => e.request == CreateSubject(st.subjectName.value, text)
              case AddContent =>
                e.request == CreateContent(st.selectedSubject.value.id, st.contentType.value, st.title.value, text)
              case Upload =>
                e.request == UploadContent(st.selectedSubject.value.id, st.contentType.value,
                                           st.title.value, text, st.file.value)
  {
  }

  /** The selected subject of a finished content flow is one of the subjects listed to the admin. */
  lemma FinalizedSubjectWasListed(st: State, text: string, outcome: Outcome, statusSent: bool)
    requires WellFormed(st) && text != "" && st.command != AddSubject
    ensures var r := Reply(st, text, outcome, statusSent);
            forall e | e in r.effects && e.Finalize? ::
              exists s | s in st.subjects :: s.id == e.request.subjectId
  {
  }

  /** The example dialogue: a name, then a description, saves exactly that subject and ends the flow. */
  lemma AddSubjectDialogue(name: string, description: string, outcome: Outcome)
    requires name != "" && description != ""
    ensures var first := Reply(StartAddSubject(), name, outcome, true);
            first.next.Some? &&
            var second := Reply(first.next.value, description, outcome, true);
            second.next.None? && Finalizations(first.effects + second.effects) == 1
            && second.effects[0] == Finalize(CreateSubject(name, description))
  {
  }
}
