# Admin bot dialogue engine

A model of the per-chat dialogue state machine of the Mechanical Aspirants admin
bot (`deepseek_javascript_20251020_7a8afb.js`). The bot keeps one dialogue state
per chat in the `userStates` map and runs three multi-step flows:

- **addsubject** — `/addsubject`, then the name (step 1), then the description
  (step 2), which saves the subject;
- **addcontent** — `/addcontent` fetches the subjects; the reply picks a subject
  by its listed number (step 1), a type from the five-entry menu (step 2), the
  title (step 3) and the description (step 4), which saves the content;
- **upload** — a document from the admin is read and the subjects fetched; then
  the same four steps, with a three-entry type menu in which "2" and "3" both
  mean *file*, and the file goes with the final request.

Modules:

- `Maybe` (`maybe.dfy`): the optional value used for unset fields and NaN.
- `JsParseInt` (`js_parse_int.dfy`): `parseInt` as the bot uses it (leading
  white space, optional sign, leading decimal digits, NaN when there are none)
  and the decimal rendering of the listed subject numbers, with their round trip.
- `BotTypes` (`bot_types.dfy`): chats and the admin check, subjects, content
  types, the dialogue state record, the requests a finished flow sends, the
  catalog outcomes and the abstract outbound effects; `WellFormed` says which
  states the flows can reach.
- `Menus` (`menus.dfy`): the subject-number validator, the numbered subject
  list (built by a loop, as `subjects.forEach` builds it), and the two
  content-type maps.
- `Flows` (`flows.dfy`): the specification of one text reply on one state
  (`Reply`) and the properties proved of it.
- `Engine` (`engine.dfy`): the class `DialogueEngine` with the `states` map and
  one method per inbound event; the reply handlers update the state record and
  the map step by step as the source does, and are proved to do what `Reply`
  specifies. `Valid()` — only the admin chat holds a state and every held state
  is well formed — is kept by every method.

Each catalog call is an input: `Fetch` (the subject array or a failure),
`Download` (the document's chunks or a failure), `Outcome` (`success: true`,
`success: false`, or the call threw) and `statusSent` (whether the awaited
"Uploading file" status message was sent). Outbound messages are effect tokens
(`Prompt`, `Reject`, `Refuse`, `UploadStatus`, `Finalize`, `Confirm`, `Error`).

Exactly one of the two `message` handlers (lines 141 and 321) acts on a text
reply: the first only for addsubject and addcontent states, the second only for
upload states, and neither creates a state of the other's kind; `OnText`
therefore dispatches on the state's command.

The state is deleted after the terminal step whatever the catalog answers,
including when the call throws (lines 241, 316 and 424). A message without text
is ignored and the state is kept (line 146). The requests carry only the fields
the bot sends: the bot sends neither `createdBy` nor `uploadedBy`, which the
backend fills in itself (`backend/deepseek_javascript_20251020_da0aeb.js`, lines
216 and 250).

## Model

| member | source | states |
|---|---|---|
| JsParseInt.TrimStart | deepseek_javascript_20251020_7a8afb.js:249 | the text `parseInt` reads is a suffix of the reply after only white space, and does not start with white space |
| JsParseInt.LeadingDigits | deepseek_javascript_20251020_7a8afb.js:249 | the digits read form the longest all-digit prefix: the next character, if any, is not a digit |
| JsParseInt.LeadingDigitsStopAtNonDigit | deepseek_javascript_20251020_7a8afb.js:249 | digits followed by text that does not start with a digit are read up to exactly their end |
| JsParseInt.TrimStartSkips | deepseek_javascript_20251020_7a8afb.js:249 | a prefix made only of white space is skipped entirely |
| JsParseInt.Decimal | deepseek_javascript_20251020_7a8afb.js:105 | the number shown in front of a listed subject is a non-empty digit string with no leading zero |
| JsParseInt.DecimalValue | deepseek_javascript_20251020_7a8afb.js:105 | the digits shown for a number have that number as value |
| JsParseInt.ParseDecimal | deepseek_javascript_20251020_7a8afb.js:249 | round trip: a number in decimal followed by anything not starting with a digit parses back to that number |
| JsParseInt.ParseIntPrefix | deepseek_javascript_20251020_7a8afb.js:249 | a number is read only when something other than white space is present, and it is negative only when that text starts with '-' |
| JsParseInt.ParseTrimmed | deepseek_javascript_20251020_7a8afb.js:249 | once the white space is gone, a number is read only from non-empty text, and it is negative only after a leading '-' |
| JsParseInt.ParseAfterSign | deepseek_javascript_20251020_7a8afb.js:249 | after a leading sign, only the text behind the sign is read for digits |
| JsParseInt.ParseNegativeDecimal | deepseek_javascript_20251020_7a8afb.js:249 | a leading minus sign negates the number read |
| JsParseInt.ParseSkipsWhitespace | deepseek_javascript_20251020_7a8afb.js:249 | leading white space never changes what is read |
| JsParseInt.ParseNaN | deepseek_javascript_20251020_7a8afb.js:249-250 | the result is NaN exactly when no digit follows the white space and the optional sign |
| JsParseInt.ParseLettersIsNaN | deepseek_javascript_20251020_7a8afb.js:249-250 | "abc" reads as NaN |
| JsParseInt.ParseSignAloneIsNaN | deepseek_javascript_20251020_7a8afb.js:249-250 | a lone "+" reads as NaN |
| BotTypes.StartAddSubject | deepseek_javascript_20251020_7a8afb.js:81 | the state `/addsubject` stores is at step 1 of addsubject and well formed |
| BotTypes.StartAddContent | deepseek_javascript_20251020_7a8afb.js:108-112 | the state `/addcontent` stores is at step 1, holds the fetched list, and is well formed |
| BotTypes.StartUpload | deepseek_javascript_20251020_7a8afb.js:198-204 | the state a document starts is at step 1, holds the list and the file, and is well formed |
| Menus.SelectSubject | deepseek_javascript_20251020_7a8afb.js:249-250 | an accepted subject reply always gives an index inside the list |
| Menus.SelectSubjectMeaning | deepseek_javascript_20251020_7a8afb.js:249-250 | a subject reply is accepted exactly when it reads as k with 1 <= k <= number of subjects, and then gives index k - 1 |
| Menus.MenuLine | deepseek_javascript_20251020_7a8afb.js:105 | a listed line starts with a digit other than 0 (the subject's 1-based number) and ends with the subject's name and a line break |
| Menus.SubjectMenu | deepseek_javascript_20251020_7a8afb.js:103-106 | the list is empty exactly when there are no subjects |
| Menus.SubjectMenuPrefix | deepseek_javascript_20251020_7a8afb.js:103-106 | the list built for the first subjects is the start of the list built for all of them |
| Menus.SubjectMenuListsEach | deepseek_javascript_20251020_7a8afb.js:103-106 | the list shows every subject's numbered line, right after the lines of the subjects before it |
| Menus.RenderSubjectList | deepseek_javascript_20251020_7a8afb.js:103-106 | the loop builds the list of numbered lines, one per subject in order |
| Menus.ShownNumberSelects | deepseek_javascript_20251020_7a8afb.js:104-106 | replying with the number shown for a subject selects that subject |
| Menus.MenuLineSelects | deepseek_javascript_20251020_7a8afb.js:105 | replying with a whole listed line selects the subject on that line |
| Menus.ZeroRejected | deepseek_javascript_20251020_7a8afb.js:250 | "0" is rejected for every list |
| Menus.PastEndRejected | deepseek_javascript_20251020_7a8afb.js:250 | the number one past the last listed subject is rejected |
| Menus.LettersRejected | deepseek_javascript_20251020_7a8afb.js:250 | "abc" is rejected for every list |
| Menus.TwoSubjectsOutOfRange | deepseek_javascript_20251020_7a8afb.js:249-253 | with two subjects, "0" and "3" are rejected |
| Menus.TwoSubjectsFirst | deepseek_javascript_20251020_7a8afb.js:249-255 | with two subjects, "1" selects index 0 |
| Menus.LookupType | deepseek_javascript_20251020_7a8afb.js:270-276 | with the addcontent menu a type reply is accepted exactly for "1" to "5"; with the upload menu exactly for "1" to "3", and then the type is video or file |
| Menus.AddContentTypeAccepts | deepseek_javascript_20251020_7a8afb.js:270 | addcontent accepts exactly "1" to "5" |
| Menus.AddContentTypesOneKeyEach | deepseek_javascript_20251020_7a8afb.js:270 | the five addcontent keys name five different types |
| Menus.UploadTypeIsVideoOrFile | deepseek_javascript_20251020_7a8afb.js:350 | upload accepts exactly "1", "2", "3" and only yields video or file |
| Menus.UploadFileAlias | deepseek_javascript_20251020_7a8afb.js:350 | upload keys "2" and "3" both mean file |
| Flows.Report | deepseek_javascript_20251020_7a8afb.js:232-239 | the bot confirms exactly when the catalog answered `success: true` |
| Flows.AddSubjectReply | deepseek_javascript_20251020_7a8afb.js:215-243 | a reply to addsubject keeps the state well formed, leaves it or moves it one step, deletes it exactly at step 2, and always answers |
| Flows.SubjectStep | deepseek_javascript_20251020_7a8afb.js:247-267 | the state stays as it was exactly when the invalid-number message is sent; otherwise the next prompt is sent and the subject selected comes from the captured list, at step 2 |
| Flows.TypeStep | deepseek_javascript_20251020_7a8afb.js:268-282 | the state stays as it was exactly when the invalid-type message is sent; otherwise the next prompt is sent at step 3, and the state stays well formed (an upload's type is video or file) |
| Flows.TitleStep | deepseek_javascript_20251020_7a8afb.js:283-289 | any reply becomes the title, the state moves to step 4 and stays well formed, and the next prompt is sent |
| Flows.AddContentReply | deepseek_javascript_20251020_7a8afb.js:246-318 | a reply to addcontent keeps the state well formed, leaves it or moves it one step, deletes it exactly at step 4, and always answers |
| Flows.UploadReply | deepseek_javascript_20251020_7a8afb.js:321-431 | a reply to an upload keeps the state well formed, leaves it or moves it one step, deletes it exactly at step 4 (the outer catch included), and always answers |
| Flows.Reply | deepseek_javascript_20251020_7a8afb.js:141-159 | a reply keeps the state well formed and in its flow, leaves it as it was or advances it by exactly one step, and deletes it exactly at the terminal step |
| Flows.RejectedReplyChangesNothing | deepseek_javascript_20251020_7a8afb.js:250-253 | a reply leaves the state unchanged exactly when it is a bad subject number at step 1 or a bad type key at step 2, and then only the re-prompt is sent |
| Flows.SubjectSelection | deepseek_javascript_20251020_7a8afb.js:249-257 | an in-range number k selects subjects[k - 1] of the captured list and moves to step 2; anything else leaves the state unchanged |
| Flows.TypeSelection | deepseek_javascript_20251020_7a8afb.js:270-280 | a menu key stores its type and moves to step 3, anything else leaves the state unchanged; an upload's type is video or file |
| Flows.TitleAlwaysAccepted | deepseek_javascript_20251020_7a8afb.js:283-287 | any non-empty reply at step 3 becomes the title and moves to step 4 |
| Flows.TerminalReplyFinalizesOnce | deepseek_javascript_20251020_7a8afb.js:290-316 | the terminal reply makes exactly one catalog call (none only when the upload status message failed); other replies make none |
| Flows.NonTerminalReplyEffects | deepseek_javascript_20251020_7a8afb.js:247-287 | a reply before the terminal step sends at most one message and makes no catalog call |
| Flows.FinalizeCarriesCollectedFields | deepseek_javascript_20251020_7a8afb.js:295-300 | the catalog call carries exactly the collected fields with the reply as description |
| Flows.FinalizedSubjectWasListed | deepseek_javascript_20251020_7a8afb.js:255 | the subject id sent belongs to a subject of the list shown to the admin |
| Flows.AddSubjectDialogue | deepseek_javascript_20251020_7a8afb.js:215-243 | a name then a description save exactly that subject, once, and end the flow |
| Engine.Store | deepseek_javascript_20251020_7a8afb.js:257 | storing a state sets exactly that chat's entry, storing none deletes it, and every other chat's entry is untouched |
| Engine.Concat | deepseek_javascript_20251020_7a8afb.js:182 | the joined buffer starts with the first chunk's bytes and ends with the last chunk's |
| Engine.ConcatAppend | deepseek_javascript_20251020_7a8afb.js:182 | concatenating two runs of chunks is concatenating their concatenations |
| Engine.ConcatNext | deepseek_javascript_20251020_7a8afb.js:176-182 | reading one more chunk appends exactly its bytes to what was read before |
| Engine.ReadFile | deepseek_javascript_20251020_7a8afb.js:176-182 | the download loop yields the chunks' bytes in arrival order |
| Engine.DialogueEngine.constructor | deepseek_javascript_20251020_7a8afb.js:14 | the map starts empty |
| Engine.DialogueEngine.OnAddSubject | deepseek_javascript_20251020_7a8afb.js:73-83 | a non-admin is refused with the map unchanged; the admin's entry is overwritten with a fresh addsubject state |
| Engine.DialogueEngine.OnAddContent | deepseek_javascript_20251020_7a8afb.js:86-119 | refusal for a non-admin; a failed fetch or an empty list leaves the map unchanged with an error; a non-empty list overwrites the admin's entry |
| Engine.DialogueEngine.OnUploadCommand | deepseek_javascript_20251020_7a8afb.js:122-138 | `/upload` only answers (refusal or instructions) and never touches the map |
| Engine.DialogueEngine.OnDocument | deepseek_javascript_20251020_7a8afb.js:162-212 | refusal for a non-admin; a failed read or fetch or an empty list leaves the map unchanged; otherwise an upload state holding the file overwrites the admin's entry |
| Engine.DialogueEngine.OnText | deepseek_javascript_20251020_7a8afb.js:141-159 | no state or no text changes nothing; a non-admin chat changes nothing; other chats' entries are untouched; otherwise the map and effects are those `Reply` specifies |
| Engine.DialogueEngine.HandleAddSubject | deepseek_javascript_20251020_7a8afb.js:215-243 | the in-place updates of `handleAddSubject` do what `AddSubjectReply` specifies |
| Engine.DialogueEngine.AcceptSubject | deepseek_javascript_20251020_7a8afb.js:247-267 | the subject step sets the selected subject and step 2 in place, or rejects and changes nothing, as `SubjectStep` specifies; `Valid()` is kept |
| Engine.DialogueEngine.AcceptType | deepseek_javascript_20251020_7a8afb.js:268-282 | the type step stores the looked-up type and step 3 in place, or rejects and changes nothing, as `TypeStep` specifies; `Valid()` is kept |
| Engine.DialogueEngine.AcceptTitle | deepseek_javascript_20251020_7a8afb.js:283-289 | the title step stores the reply as title and step 4, as `TitleStep` specifies; `Valid()` is kept |
| Engine.DialogueEngine.HandleAddContent | deepseek_javascript_20251020_7a8afb.js:246-318 | the in-place updates of `handleAddContent` do what `AddContentReply` specifies |
| Engine.DialogueEngine.HandleUploadReply | deepseek_javascript_20251020_7a8afb.js:321-431 | the in-place updates of the upload handler, outer catch included, do what `UploadReply` specifies |

## Left out

- `/start` and `/stats` (lines 29-70): they answer without touching any state.
- Message wording, emoji and Telegram calls: outbound messages are effect
  tokens; the end of an upload is an edit of the status message in the source
  and a `Confirm` or `Error` token here.
- Upload progress edits (lines 391-397): they come from asynchronous callbacks
  with floating-point rounding and no ordering between edits.
- The HTTP calls and the backends: each call is an input outcome; what the
  catalog stores, and who it records as creator, is not part of this model.
- The document stream itself: its chunks (or its failure) are an input.
- Interleaving across `await` points, e.g. a second reply arriving while a save
  is in flight: each handler runs as one atomic step.
- Dispatch inside the Telegram library: the command patterns are unanchored and
  command texts also reach the `message` handlers; commands and replies are
  separate events here.
- The outer catch at lines 154-158: every property the first `message` handler
  reads is set in a well-formed state, so nothing in it can throw in the model.
- JsParseInt.ParseIntPrefix: reads "0x…" as decimal 0 where JavaScript reads a
  hexadecimal number, and uses unbounded integers where JavaScript uses doubles
  (any number too large for a double is also far past the subject list).
- Menus.LookupType: a finite map with exactly the listed keys; the source's
  object literals also answer inherited property names such as "toString".
- A document without a `file_name`: the name is always a string here.
