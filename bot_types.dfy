/**
 * The entities of the admin bot's dialogue: chats, the subjects fetched from the
 * catalog, the per-chat dialogue state, the requests a finished flow sends to the
 * catalog and the outbound effects of one handled event.
 */
module BotTypes {
  import opened Maybe

  /** A Telegram chat id. */
  type ChatId = int

  /** `ADMIN_ID`: the one chat the admin commands and file uploads are served to. */
  const AdminId: ChatId := 6056498996

  /** `chatId.toString() === ADMIN_ID`: the decimal forms agree exactly when the ids do. */
  predicate IsAdmin(chat: ChatId) {
    chat == AdminId
  }

  type Byte = bv8

  /** A subject document as listed by the catalog; the bot reads its `_id` and `name`. */
  datatype Subject = Subject(id: string, name: string)

  datatype ContentType = Video | File | Topic | Quiz | Tips

  /** The `command` field of a dialogue state. */
  datatype Command = AddSubject | AddContent | Upload

  /** The received document: its bytes (`fileBuffer`) and its `file_name`. */
  datatype FileData = FileData(bytes: seq<Byte>, name: string)

  /**
   * One chat's dialogue state, with the fields of the source's state object;
   * a field the source has not set yet is `None`. `subjects` is the list fetched
   * when the flow started (empty for addsubject, which never sets it), and
   * `title` is `contentTitle` in addcontent and `fileTitle` in upload.
   */
  datatype State = State(
    command: Command,
    step: int,
    subjects: seq<Subject>,
    subjectName: Option<string>,
    selectedSubject: Option<Subject>,
    contentType: Option<ContentType>,
    title: Option<string>,
    file: Option<FileData>)

  /** The step whose reply finishes the flow. */
  function TerminalStep(command: Command): nat {
    if command == AddSubject then 2 else 4
  }

  /**
   * The states the flows can reach: addsubject stays within steps 1 and 2 and
   * holds the name from step 2 on; addcontent and upload stay within steps 1 to
   * 4 over a non-empty captured list, a field collected at step k being set
   * exactly from step k + 1 on, the selected subject taken from the captured
   * list, and an upload holding its file and a type that is video or file.
   */
  predicate WellFormed(st: State) {
    match st.command
    case AddSubject =>
      (st.step == 1 || st.step == 2)
      && (st.subjectName.Some? <==> st.step == 2)
      && st.subjects == [] && st.selectedSubject.None? && st.contentType.None?
      && st.title.None? && st.file.None?
    case AddContent =>
      CollectsContent(st) && st.file.None?
    case Upload =>
      CollectsContent(st) && st.file.Some?
      && (st.contentType.Some? ==> st.contentType.value == Video || st.contentType.value == File)
  }

  /** The shape addcontent and upload share. */
  predicate CollectsContent(st: State) {
    1 <= st.step <= 4 && |st.subjects| > 0 && st.subjectName.None?
    && (st.selectedSubject.Some? <==> st.step >= 2)
    && (st.selectedSubject.Some? ==> st.selectedSubject.value in st.subjects)
    && (st.contentType.Some? <==> st.step >= 3)
    && (st.title.Some? <==> st.step == 4)
  }

  /** `{ command: 'addsubject', step: 1 }`. */
  function StartAddSubject(): (st: State)
    ensures WellFormed(st) && st.step == 1 && st.command == AddSubject
  {
    State(AddSubject, 1, [], None, None, None, None, None)
  }

  /** `{ command: 'addcontent', step: 1, subjects }`. */
  function StartAddContent(subjects: seq<Subject>): (st: State)
    requires |subjects| > 0
    ensures WellFormed(st) && st.step == 1 && st.command == AddContent && st.subjects == subjects
  {
    State(AddContent, 1, subjects, None, None, None, None, None)
  }

  /** `{ command: 'upload', step: 1, fileBuffer, fileName, subjects }`. */
  function StartUpload(subjects: seq<Subject>, file: FileData): (st: State)
    requires |subjects| > 0
    ensures WellFormed(st) && st.step == 1 && st.command == Upload
    ensures st.subjects == subjects && st.file == Some(file)
  {
    State(Upload, 1, subjects, None, None, None, None, Some(file))
  }

  /** What a finished flow asks the catalog service to store. */
  datatype Request =
    | CreateSubject(name: string, description: string)
    | CreateContent(subjectId: string, ctype: ContentType, title: string, description: string)
    | UploadContent(subjectId: string, ctype: ContentType, title: string, description: string, file: FileData)

  /** How a catalog call ended: `success: true`, `success: false`, or the call threw. */
  datatype Outcome = Succeeded | Declined | Threw

  /** The subject list request: the array the catalog returned, or a failure. */
  datatype Fetch = Fetched(subjects: seq<Subject>) | FetchFailed

  /** The document stream: the chunks it delivered, or a failure while reading it. */
  datatype Download = Downloaded(chunks: seq<seq<Byte>>) | DownloadFailed

  /** What the bot asks for next. `ChooseSubject` carries the numbered subject list it shows. */
  datatype PromptKind =
    | AskSubjectName | AskSubjectDescription
    | ChooseSubject(command: Command, list: string)
    | ChooseContentType | ChooseUploadType
    | AskContentTitle | AskContentDescription
    | AskFileTitle | AskFileDescription
    | SendFile

  datatype RejectKind = InvalidSubjectNumber | InvalidContentType

  datatype RefuseKind = CommandAdminOnly | FileAdminOnly

  datatype ErrorKind =
    | NoSubjects | FetchSubjectsFailed | FileProcessingFailed
    | SaveFailed(command: Command) | UploadFlowFailed

  /**
   * One outbound effect of a handled event, in order: a message sent (or, for
   * the end of an upload, an edit of the status message), or the catalog call a
   * finished flow makes.
   */
  datatype Effect =
    | Prompt(prompt: PromptKind)
    | Reject(reject: RejectKind)
    | Refuse(refuse: RefuseKind)
    | UploadStatus
    | Finalize(request: Request)
    | Confirm(request: Request, subjectName: string)
    | Error(error: ErrorKind)
}
