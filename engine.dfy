/**
 * The bot's event handlers over the shared `userStates` map, one method per
 * inbound event. Each handler is atomic: the catalog calls it awaits are given
 * as their outcomes.
 */
module Engine {
  import opened Maybe
  import opened BotTypes
  import opened Menus
  import opened Flows

  /** The map after a reply: the entry replaced by `next`, or deleted when `next` is `None`. */
  function Store(states: map<ChatId, State>, chat: ChatId, next: Option<State>): (r: map<ChatId, State>)
    ensures r - {chat} == states - {chat}
    ensures chat in r <==> next.Some?
    ensures next.Some? ==> r[chat] == next.value
  {
    if next.None? then states - {chat} else states[chat := next.value]
  }

  /** `Buffer.concat(chunks)`: the chunks' bytes, one after another. */
  function Concat(chunks: seq<seq<Byte>>): (r: seq<Byte>)
    ensures chunks != [] ==> |chunks[0]| <= |r| && r[..|chunks[0]|] == chunks[0]
    ensures chunks != [] ==> |chunks[|chunks| - 1]| <= |r| && r[|r| - |chunks[|chunks| - 1]|..] == chunks[|chunks| - 1]
  {
    if chunks == [] then [] else chunks[0] + Concat(chunks[1..])
  }

  /** Concatenating two runs of chunks is concatenating their concatenations. */
  lemma {:induction false} ConcatAppend(a: seq<seq<Byte>>, b: seq<seq<Byte>>)
    ensures Concat(a + b) == Concat(a) + Concat(b)
  {
    if a == [] {
      assert a + b == b;
    } else {
      assert (a + b)[1..] == a[1..] + b;
      ConcatAppend(a[1..], b);
    }
  }

  /** One more chunk read appends its bytes to what was read before. */
  lemma ConcatNext(chunks: seq<seq<Byte>>, i: nat)
    requires i < |chunks|
    ensures Concat(chunks[..i + 1]) == Concat(chunks[..i]) + chunks[i]
  {
    assert chunks[..i + 1] == chunks[..i] + [chunks[i]];
    assert [chunks[i]][1..] == [];
    ConcatAppend(chunks[..i], [chunks[i]]);
  }

  /** The download loop: each chunk of the stream appended in arrival order. */
  method ReadFile(chunks: seq<seq<Byte>>) returns (buffer: seq<Byte>)
    ensures buffer == Concat(chunks)
  {
    buffer := [];
    var i := 0;
    while i < |chunks|
      invariant 0 <= i <= |chunks|
      invariant buffer == Concat(chunks[..i])
    {
      ConcatNext(chunks, i);
      buffer := buffer + chunks[i];
      i := i + 1;
    }
    assert chunks[..i] == chunks;
  }

  class DialogueEngine {
    /** `userStates`: the dialogue state of each chat that has one. */
    var states: map<ChatId, State>

    /** Only the admin chat ever holds a state, and every state held is reachable. */
    ghost predicate Valid()
      reads this
    {
      forall chat | chat in states :: IsAdmin(chat) && WellFormed(states[chat])
    }

    /** The map is empty when the bot starts. */
    constructor ()
      ensures Valid() && states == map[]
    {
      states := map[];
    }

    /** `/addsubject`: the admin's entry is overwritten with a fresh addsubject state. */
    method OnAddSubject(chat: ChatId) returns (out: seq<Effect>)
      requires Valid()
      modifies this
      ensures Valid()
      ensures !IsAdmin(chat) ==> states == old(states) && out == [Refuse(CommandAdminOnly)]
      ensures IsAdmin(chat) ==>
                states == old(states)[chat := StartAddSubject()] && out == [Prompt(AskSubjectName)]
    {
      if !IsAdmin(chat) {
        out := [Refuse(CommandAdminOnly)];
        return;
      }
      states := states[chat := StartAddSubject()];
      out := [Prompt(AskSubjectName)];
    }

    /**
     * `/addcontent`, given the result of fetching the subjects: only a non-empty
     * list starts the flow, overwriting the admin's entry; otherwise the entry
     * is left as it was.
     */
    method OnAddContent(chat: ChatId, fetch: Fetch) returns (out: seq<Effect>)
      requires Valid()
      modifies this
      ensures Valid()
      ensures !IsAdmin(chat) ==> states == old(states) && out == [Refuse(CommandAdminOnly)]
      ensures IsAdmin(chat) && fetch.FetchFailed? ==>
                states == old(states) && out == [Error(FetchSubjectsFailed)]
      ensures IsAdmin(chat) && fetch == Fetched([]) ==> states == old(states) && out == [Error(NoSubjects)]
      ensures IsAdmin(chat) && fetch.Fetched? && fetch.subjects != [] ==>
                states == old(states)[chat := StartAddContent(fetch.subjects)]
                && out == [Prompt(ChooseSubject(AddContent, SubjectMenu(fetch.subjects)))]
    {
      if !IsAdmin(chat) {
        out := [Refuse(CommandAdminOnly)];
        return;
      }
      match fetch
      case FetchFailed =>
        out := [Error(FetchSubjectsFailed)];
      case Fetched(subjects) =>
        if |subjects| == 0 {
          out := [Error(NoSubjects)];
          return;
        }
        var list := RenderSubjectList(subjects);
        states := states[chat := StartAddContent(subjects)];
        out := [Prompt(ChooseSubject(AddContent, list))];
    }

    /** `/upload` only tells the admin to send a file; it never touches the map. */
    method OnUploadCommand(chat: ChatId) returns (out: seq<Effect>)
      ensures out == if IsAdmin(chat) then [Prompt(SendFile)] else [Refuse(CommandAdminOnly)]
    {
      if !IsAdmin(chat) {
        out := [Refuse(CommandAdminOnly)];
        return;
      }
      out := [Prompt(SendFile)];
    }

    /**
     * A document from the admin: the file is read, the subjects are fetched, and
     * a non-empty list starts an upload flow holding the file, overwriting the
     * admin's entry. A failed read or fetch, or an empty list, leaves the entry
     * as it was.
     */
    method OnDocument(chat: ChatId, download: Download, fileName: string, fetch: Fetch)
      returns (out: seq<Effect>)
      requires Valid()
      modifies this
      ensures Valid()
      ensures !IsAdmin(chat) ==> states == old(states) && out == [Refuse(FileAdminOnly)]
      ensures IsAdmin(chat) && (download.DownloadFailed? || fetch.FetchFailed?) ==>
                states == old(states) && out == [Error(FileProcessingFailed)]
      ensures IsAdmin(chat) && download.Downloaded? && fetch == Fetched([]) ==>
                states == old(states) && out == [Error(NoSubjects)]
      ensures IsAdmin(chat) && download.Downloaded? && fetch.Fetched? && fetch.subjects != [] ==>
                states == old(states)[chat := StartUpload(fetch.subjects, FileData(Concat(download.chunks), fileName))]
                && out == [Prompt(ChooseSubject(Upload, SubjectMenu(fetch.subjects)))]
    {
      if !IsAdmin(chat) {
        out := [Refuse(FileAdminOnly)];
        return;
      }
      if download.DownloadFailed? {
        out := [Error(FileProcessingFailed)];
        return;
      }
      var buffer := ReadFile(download.chunks);
      if fetch.FetchFailed? {
        out := [Error(FileProcessingFailed)];
        return;
      }
      var subjects := fetch.subjects;
      if |subjects| == 0 {
        out := [Error(NoSubjects)];
        return;
      }
      var list := RenderSubjectList(subjects);
      states := states[chat := StartUpload(subjects, FileData(buffer, fileName))];
      out := [Prompt(ChooseSubject(Upload, list))];
    }

    /**
     * A text message. Without a state for the chat, or without text, nothing
     * happens; otherwise the handler of the state's flow takes the reply. Only
     * the chat's own entry can change.
     */
    method OnText(chat: ChatId, text: string, outcome: Outcome, statusSent: bool) returns (out: seq<Effect>)
      requires Valid()
      modifies this
      ensures Valid()
      ensures states - {chat} == old(states) - {chat}
      ensures chat !in old(states) || text == "" ==> states == old(states) && out == []
      ensures !IsAdmin(chat) ==> states == old(states) && out == []
      ensures chat in old(states) && text != "" ==>
                var r := Reply(old(states)[chat], text, outcome, statusSent);
                out == r.effects && states == Store(old(states), chat, r.next)
    {
      out := [];
      if chat !in states || text == "" {
        return;
      }
      var st := states[chat];
      if st.command == AddSubject {
        out := HandleAddSubject(chat, text, outcome);
      } else if st.command == AddContent {
        out := HandleAddContent(chat, text, outcome);
      } else {
        out := HandleUploadReply(chat, text, outcome, statusSent);
      }
    }

    /** `handleAddSubject`. */
    method HandleAddSubject(chat: ChatId, text: string, outcome: Outcome) returns (out: seq<Effect>)
      requires Valid() && chat in states && states[chat].command == AddSubject
      modifies this
      ensures Valid()
      ensures var r := AddSubjectReply(old(states)[chat], text, outcome);
              out == r.effects && states == Store(old(states), chat, r.next)
    {
      var st := states[chat];
      out := [];
      if st.step == 1 {
        st := st.(subjectName := Some(text));
        st := st.(step := 2);
        states := states[chat := st];
        out := [Prompt(AskSubjectDescription)];
      } else if st.step == 2 {
        var description := text;
        var request := CreateSubject(st.subjectName.value, description);
        out := [Finalize(request)];
        if outcome == Succeeded {
          out := out + [Confirm(request, st.subjectName.value)];
        } else {
          out := out + [Error(SaveFailed(AddSubject))];
        }
        states := states - {chat};
      }
    }

    /** Step 1 of addcontent and upload: `state.selectedSubject = state.subjects[subjectIndex]`. */
    method AcceptSubject(chat: ChatId, text: string, next: PromptKind) returns (out: seq<Effect>)
      requires Valid() && chat in states && states[chat].command != AddSubject && states[chat].step == 1
      modifies this
      ensures Valid()
      ensures var r := SubjectStep(old(states)[chat], text, next);
              out == r.effects && states == Store(old(states), chat, r.next)
    {
      var st := states[chat];
      var index := SelectSubject(st.subjects, text);
      if index.None? {
        out := [Reject(InvalidSubjectNumber)];
        return;
      }
      st := st.(selectedSubject := Some(st.subjects[index.value]));
      st := st.(step := 2);
      states := states[chat := st];
      out := [Prompt(next)];
    }

    /** Step 2 of addcontent and upload: `state.contentType = typeMap[text]`. */
    method AcceptType(chat: ChatId, text: string, menu: map<string, ContentType>, next: PromptKind)
      returns (out: seq<Effect>)
      requires Valid() && chat in states && states[chat].command != AddSubject && states[chat].step == 2
      requires menu == TypeMenu(states[chat].command)
      modifies this
      ensures Valid()
      ensures var r := TypeStep(old(states)[chat], text, menu, next);
              out == r.effects && states == Store(old(states), chat, r.next)
    {
      var st := states[chat];
      var ctype := LookupType(menu, text);
      if ctype.None? {
        out := [Reject(InvalidContentType)];
        return;
      }
      st := st.(contentType := ctype);
      st := st.(step := 3);
      states := states[chat := st];
      out := [Prompt(next)];
    }

    /** Step 3 of addcontent and upload: the title is stored as it is. */
    method AcceptTitle(chat: ChatId, text: string, next: PromptKind) returns (out: seq<Effect>)
      requires Valid() && chat in states && states[chat].command != AddSubject && states[chat].step == 3
      modifies this
      ensures Valid()
      ensures var r := TitleStep(old(states)[chat], text, next);
              out == r.effects && states == Store(old(states), chat, r.next)
    {
      var st := states[chat];
      st := st.(title := Some(text));
      st := st.(step := 4);
      states := states[chat := st];
      out := [Prompt(next)];
    }

    /** `handleAddContent`. */
    method HandleAddContent(chat: ChatId, text: string, outcome: Outcome) returns (out: seq<Effect>)
      requires Valid() && chat in states && states[chat].command == AddContent
      modifies this
      ensures Valid()
      ensures var r := AddContentReply(old(states)[chat], text, outcome);
              out == r.effects && states == Store(old(states), chat, r.next)
    {
      var st := states[chat];
      out := [];
      if st.step == 1 {
        out := AcceptSubject(chat, text, ChooseContentType);
      } else if st.step == 2 {
        out := AcceptType(chat, text, AddContentTypes, AskContentTitle);
      } else if st.step == 3 {
        out := AcceptTitle(chat, text, AskContentDescription);
      } else if st.step == 4 {
        var description := text;
        var subject := st.selectedSubject.value;
        var request := CreateContent(subject.id, st.contentType.value, st.title.value, description);
        out := [Finalize(request)];
        if outcome == Succeeded {
          out := out + [Confirm(request, subject.name)];
        } else {
          out := out + [Error(SaveFailed(AddContent))];
        }
        states := states - {chat};
      }
    }

    /** The upload flow's `message` handler, outer catch included. */
    method HandleUploadReply(chat: ChatId, text: string, outcome: Outcome, statusSent: bool)
      returns (out: seq<Effect>)
      requires Valid() && chat in states && states[chat].command == Upload
      modifies this
      ensures Valid()
      ensures var r := UploadReply(old(states)[chat], text, outcome, statusSent);
              out == r.effects && states == Store(old(states), chat, r.next)
    {
      var st := states[chat];
      out := [];
      if st.step == 1 {
        out := AcceptSubject(chat, text, ChooseUploadType);
      } else if st.step == 2 {
        out := AcceptType(chat, text, UploadTypes, AskFileTitle);
      } else if st.step == 3 {
        out := AcceptTitle(chat, text, AskFileDescription);
      } else if st.step == 4 {
        var description := text;
        out := [UploadStatus];
        if !statusSent {
          out := out + [Error(UploadFlowFailed)];
          states := states - {chat};
          return;
        }
        var subject := st.selectedSubject.value;
        var request := UploadContent(subject.id, st.contentType.value, st.title.value, description, st.file.value);
        out := out + [Finalize(request)];
        if outcome == Succeeded {
          out := out + [Confirm(request, subject.name)];
        } else {
          out := out + [Error(SaveFailed(Upload))];
        }
        states := states - {chat};
      }
    }
  }
}
