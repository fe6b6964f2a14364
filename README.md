# DocuPilot office bridge — a Dafny model

DocuPilot is an Office add-in. A chat agent writes Office.js scripts for Excel, Word or PowerPoint, and the
task pane runs them inside the host. This project models the deterministic core of that loop:

- **The server-side bridge.** A correlation store maps a correlation id to a task, whose status goes
  `pending → executing → completed | failed`. Beside it sit:
  - a backup result cache;
  - a five-minute time-to-live sweep;
  - a pre-dispatch gate that warns about or blocks complex and risky scripts;
  - listing of pending tasks and submission of results by id;
  - the HTTP routing of submissions, with a legacy one-shot result map.

  `src/lib/office/executor.ts` carries an identical copy of the gate, at lines 33-141. Both copies are
  modelled by the one `Complexity` module.
- **The task-pane protocol.** This covers:
  - the 32-bit string fingerprint;
  - the retry coordinator, capped at three attempts;
  - deduplication of executed code and of processed tasks;
  - the push-to-poll fail-over counter;
  - the two simplified server-sent-events parsers (section 9.2 of the WHATWG HTML Living Standard);
  - the transcript reducers for messages, todos and task updates.
- **Error handling.** The error classifier, the hint table, cause and fix-suggestion rules, and the feedback
  texts. Also the extraction, removal and normalisation of hidden code blocks, and the report index capped
  at 1000 entries.
- **Mappers, stores and validators.** The SDK-message mapper, the session list kept in local storage, the
  sidebar's session handling, and the host-to-tool table. Also the input schemas: the A1 address check, the
  enumerations and the integer bounds. Each schema is a datatype plus a validity predicate.
- **Code generators.** Excel range, worksheet, table and chart; Word document, paragraph and table;
  PowerPoint slide, shape and table. Each template is a list of lines joined by line breaks. The parts that
  depend on parameters are separate functions, with their defaults, mappings and escapes.
- **The file API.** Upload validation and naming, the recovery of original names in the listing, and the
  delete path guard. Node's `path.join` and `path.normalize` are modelled on path segments.
- **Test tooling.** The office-skills test runner, its logger, the error collector and analyzer, and the
  markdown parser of the test-case generator.

## Modelling choices

- **State.** State the source updates in place is a `class`. Its `map`/`seq` fields are reassigned by
  methods whose `ensures` give the whole new state. This applies to:
  - the bridge store;
  - the legacy result route;
  - the retry, deduplication and push-channel state;
  - the report stores kept in local storage;
  - the sidebar;
  - the test executor and logger;
  - the error collector.
- **Loops.** A loop in the source is a `while` loop, specified by a function of its inputs. The function's
  properties are lemmas.
- **Effects passed in as parameters.**
  - Time (`Date.now`), UUIDs and randomness.
  - `JSON.parse`, passed as a partial function from text to a JSON value.
  - The file-system answers.
  - The answers of the remote Office host.
- **Waiting.** Waiting for a result is two explicit steps on the store: `ResultArrives` and `TimeoutFires`.
- **Regular expressions.** Each one is a hand-written scanner with a declarative specification and a lemma
  joining the two.
- **Where the system's description and the code disagree, the model follows the code.** The exception is a
  bug listed under Findings. There the as-written code is a member of its own with a lemma that exhibits the
  bug, and the rest of the model is built on the corrected definition. Rows that depend on a corrected
  definition say so with "corrected:".
  - The execution timeout is `60000 * 5` ms, although its message says sixty seconds.
  - Both SSE parsers keep only the last `event:` line of a frame, unlike the standard. The use-chat parser
    also keeps only the last `data:` line. The test-runner parser concatenates the `data:` lines without
    separators.
  - The delete guard compares strings, not paths. See Findings.

## Model

| member | source | states |
|---|---|---|
| Tools.ToolsForHost | src/lib/office/tools.ts:34-48 | the common tools come first and in order, then every tool name of the host's table in table order, and nothing else |
| Tools.ToolsPerHost | src/lib/office/tools.ts:41-47 | excel, word and powerpoint each give nine names; any other host type gets exactly the three common tools |
| Tools.ExcelTableShape | src/lib/office/tools.ts:4-11 | the Excel table has six tools, each named `office_excel_…` |
| Tools.WordTableShape | src/lib/office/tools.ts:14-21 | the Word table has six tools, each named `office_word_…` |
| Tools.PowerPointTableShape | src/lib/office/tools.ts:24-31 | the PowerPoint table has six tools, each named `office_ppt_…` |
| Tools.FindTool | src/lib/office/tools.ts:53 | the index found holds the name and every earlier entry differs from it; past-the-end means no entry has it |
| Tools.ToolDescription | src/lib/office/tools.ts:51-55 | an unknown name is returned as is; a known name gives the description of its first entry |
| Tools.DescriptionsPresent | src/lib/office/tools.ts:4-31 | every tool of the three host tables has a non-empty description |
| MessageMapper.TextOf | src/lib/message-mapper.ts:46 | a text field counts exactly when it is a non-empty string, and then it is that string |
| MessageMapper.FindTyped | src/lib/message-mapper.ts:45 | the index found is the first block of the type; none found means no block has it |
| MessageMapper.AssistantMessage | src/lib/message-mapper.ts:40-72 | a missing or empty content list shows nothing; a first text block with text is shown as an assistant message; an action message comes from the first tool call, never from TodoWrite, and carries its name and input |
| MessageMapper.StreamMessage | src/lib/message-mapper.ts:75-96 | only `content_block_delta` events show anything; the result is streaming, non-empty and without metadata; it is an assistant message exactly for a `text_delta` with text, otherwise a thought |
| MessageMapper.ErrorsText | src/lib/message-mapper.ts:109 | the error text is never empty, and missing or empty errors give 执行出错 |
| MessageMapper.ResultMessage | src/lib/message-mapper.ts:99-113 | a successful result with text is shown as an assistant message, an `error…` subtype as an error with the joined errors, and nothing else is shown |
| MessageMapper.MapSdkMessage | src/lib/message-mapper.ts:27-118 | a shown message is never empty and is streaming exactly for stream events; `system/init` gives the initialised status; unknown types show nothing |
| MessageMapper.FormatToolResult | src/lib/message-mapper.ts:123-141 | strings pass through, a truthy `error` gives 错误: …, a present `success` gives 执行成功/执行失败, other objects and arrays are pretty-printed, other values go through `String` |
| SessionStorage.Decoded | src/lib/session-storage.ts:17-39 | no window, no key or an empty text load as no sessions; a stored array loads as that list; anything else (invalid JSON, not an array) loads as no sessions |
| SessionStorage.Without | src/lib/session-storage.ts:63 | the kept sessions are exactly those of the list whose id differs |
| SessionStorage.WithoutConcat | src/lib/session-storage.ts:63 | filtering keeps the order of the sessions it keeps |
| SessionStorage.WithoutAbsent | src/lib/session-storage.ts:63 | deleting an id that no session has leaves the list unchanged |
| SessionStorage.FindIndex | src/lib/session-storage.ts:72 | the index found is the first session with the id; none found means no session has it |
| SessionStorage.Find | src/lib/session-storage.ts:88 | a session found is in the list and has the id; nothing found means no session has it |
| SessionStorage.Upserted | src/lib/session-storage.ts:70-81 | the list grows by one exactly when the id is new, and then the session is appended; otherwise one entry that had the id is replaced |
| SessionStorage.UpsertThenFind | src/lib/session-storage.ts:70-89 | after an upsert, looking the id up finds the session just written |
| SessionStorage.UpsertKeepsOthers | src/lib/session-storage.ts:70-89 | an upsert does not change what is found for any other id |
| SessionStorage.LegacySession | src/lib/session-storage.ts:95-112 | the legacy id is returned exactly when a window exists and the key holds a non-empty text |
| SessionStorage.LocalStore.constructor | src/lib/session-storage.ts:17-18 | a store starts with the given window flag and contents |
| SessionStorage.LocalStore.LoadSessions | src/lib/session-storage.ts:17-39 | the loaded list is the decoded storage content |
| SessionStorage.LocalStore.SaveSessions | src/lib/session-storage.ts:44-56 | it succeeds exactly when a window exists and the write is accepted, and only then the key holds the written text; otherwise storage is unchanged |
| SessionStorage.LocalStore.DeleteSession | src/lib/session-storage.ts:61-65 | on success the stored list is the old one without the id, and it loads back as that list when the codec round-trips |
| SessionStorage.LocalStore.UpsertSession | src/lib/session-storage.ts:70-81 | on success the stored list is the upserted old list; with a round-tripping codec it loads back as that list and finds the session under its id |
| SessionStorage.LocalStore.GetSession | src/lib/session-storage.ts:86-89 | the result is the first loaded session with the id, or nothing |
| SessionStorage.LocalStore.MigrateLegacySession | src/lib/session-storage.ts:95-112 | it returns the legacy id and does not remove the legacy key |
| SessionStorage.LocalStore.ClearAllSessions | src/lib/session-storage.ts:117-129 | with a window, the key is removed and nothing else; the store then loads as empty |
| ToolResultRoute.FreshLegacy | src/app/api/tool-result/route.ts:12-21 | exactly the entries at most five minutes old stay, with their values |
| ToolResultRoute.ErrorOf | src/app/api/tool-result/route.ts:41 | an error is carried exactly when `result.error` is present, and its message is the submitted one |
| ToolResultRoute.ToExecutionResult | src/app/api/tool-result/route.ts:38-43 | success follows the truthiness of `result.success`; data is `result.data` and the timestamp is the current time |
| ToolResultRoute.ExecutionView | src/app/api/tool-result/route.ts:85-90 | each pending task is listed as a JSON object |
| ToolResultRoute.ExecutionViewFields | src/app/api/tool-result/route.ts:85-90 | a listing row reads back as the task's correlation id, host, code and (when set) description |
| ToolResultRoute.ViewField | src/app/api/tool-result/route.ts:85-90 | a listing row has exactly the four members, and no other key is found in it |
| ToolResultRoute.Views | src/app/api/tool-result/route.ts:85 | one listing row per pending entry, in order |
| ToolResultRoute.ToolResultRoute.constructor | src/app/api/tool-result/route.ts:9 | the legacy map starts empty, beside the shared bridge store |
| ToolResultRoute.ToolResultRoute.CleanupOldResults | src/app/api/tool-result/route.ts:12-21 | after the sweep the map is the old map without the entries older than five minutes |
| ToolResultRoute.ToolResultRoute.Post | src/app/api/tool-result/route.ts:23-75 | an unreadable body or `result` gives 500 with the thrown message; a falsy correlation id gives 400; an `mcp_tool` result whose id is a string naming a registered task marks that task completed or failed by its success, appends the stamped result to the result events and keeps it as the backup; any other `mcp_tool` id changes no bridge state; other results are stored in the legacy map under the id as submitted (the number 5 and the string "5" are different keys), which is then swept; the task order, waiting calls, task events and listeners never change |
| ToolResultRoute.ToolResultRoute.Get | src/app/api/tool-result/route.ts:77-113 | `pending_executions` lists the pending tasks and changes nothing; a missing id gives 400; a legacy result stored under the query string itself is returned once and removed; otherwise `found: false` |
| ToolResultRoute.LegacyStoredSurvives | src/app/api/tool-result/route.ts:56-62 | a result stored just now survives the sweep that follows it |
| ToolResultRoute.NonStringIdUnread | src/app/api/tool-result/route.ts:56-59 | a legacy result stored under a number, boolean, array or object id is never found by a read, which always looks up a string |
| ToolResultRoute.NonStringIdNotDelivered | src/app/api/tool-result/route.ts:45 | an `mcp_tool` submission whose id is not a string reaches no bridge task |
| ToolResultRoute.ListingIsPending | src/app/api/tool-result/route.ts:82-91 | every pending task appears in the listing |
| ToolResultRoute.ListingOnlyPending | src/app/api/tool-result/route.ts:82-91 | every listing row is a pending task |
| PosixPath.ResolvedNormal | src/app/api/files/delete/route.ts:30 | `path.normalize` leaves no empty or `.` segment, and no `..` in an absolute path |
| PosixPath.ResolveNames | src/app/api/files/delete/route.ts:30 | normalising keeps plain names as they are |
| PosixPath.ResolveAppend | src/app/api/files/delete/route.ts:30 | normalising a path in two parts resolves the second against what the first leaves |
| PosixPath.NormalizeAbsolute | src/app/api/files/delete/route.ts:30 | an absolute path made of names is already normal |
| PosixPath.JoinNames | src/app/api/files/upload/route.ts:48 | `path.join(root, n1, …, nk)` onto an absolute root of names is `root/n1/…/nk` |
| PosixPath.JoinTail | src/app/api/files/delete/route.ts:20-27 | joining a last argument that may contain separators is the normalised text `root/n1/…/nk/tail` |
| PosixPath.ExtnameOfName | src/app/api/files/upload/route.ts:25 | `path.extname` of `stem.ext` with a non-empty stem is `.ext` |
| PosixPath.ExtnameOfPlainName | src/app/api/files/upload/route.ts:25 | a name without a `.`, or whose only `.` comes first, has no extension |
| FilesApi.SanitizeChar | src/app/api/files/upload/route.ts:60 | a character becomes only safe characters, as many as it has UTF-16 code units |
| FilesApi.Sanitize | src/app/api/files/upload/route.ts:60 | the result has only safe characters and as many characters as the name has UTF-16 code units |
| FilesApi.SanitizeAppend | src/app/api/files/upload/route.ts:60 | the replacement works per character: sanitising a concatenation concatenates the sanitised parts |
| FilesApi.SanitizeBmp | src/app/api/files/upload/route.ts:60 | on a name without astral characters, each character outside `[a-zA-Z0-9._-]` becomes one `_`, the others stay in place, the length is kept |
| FilesApi.SanitizeAstral | src/app/api/files/upload/route.ts:60 | a character outside the Basic Multilingual Plane (an emoji) becomes `__`, one `_` per surrogate, as the pattern has no `u` flag |
| FilesApi.SanitizeSafe | src/app/api/files/upload/route.ts:60 | the result has only safe characters, and the name is left alone exactly when it already had only safe ones |
| FilesApi.StoredNameIsSegment | src/app/api/files/upload/route.ts:59-62 | the stored name `<timestamp>_<sanitised>` is one path segment, never `.` or `..`, whatever the uploaded name |
| FilesApi.Upload | src/app/api/files/upload/route.ts:6-84 | no file, an extension outside the list and a size over 10 MiB are refused with 400 in that order; an accepted file is written at the joined upload path and the reply carries the stored name, the original name, the size and the relative path |
| FilesApi.UploadSizeLimit | src/app/api/files/upload/route.ts:33-40 | a file of exactly 10 MiB is accepted and one byte more is refused |
| FilesApi.UploadExtensionCase | src/app/api/files/upload/route.ts:25 | the extension is lower-cased first, so `.PDF` passes as `.pdf` |
| FilesApi.UploadLowersAccented | src/app/api/files/upload/route.ts:25-30 | the extension is lower-cased with accented capitals too, so `x.ÉXE` is refused as `.éxe` |
| FilesApi.UploadRefusesExe | src/app/api/files/upload/route.ts:20-31 | an `.exe` file is refused |
| FilesApi.UploadNeedsExtension | src/app/api/files/upload/route.ts:25-26 | a name without an extension, or a hidden name like `.pdf`, has the empty extension and is refused |
| FilesApi.ReplyPathPlace | src/app/api/files/upload/route.ts:81-83 | the reply path is under the session's `uploads` when a session id is given, under `temp_uploads` exactly when none is, and ends with the stored name |
| FilesApi.SessionUploadDir | src/app/api/files/upload/route.ts:47-48 | with a session id the upload directory is `<root>/workspace/sessions/<id>/uploads` |
| FilesApi.TempUploadDir | src/app/api/files/upload/route.ts:49-50 | without one it is `<root>/workspace/temp_uploads` |
| FilesApi.UploadWritesIntoSession | src/app/api/files/upload/route.ts:47-82 | the file is written at `<root>/workspace/sessions/<id>/uploads/<fileId>`, which is the reply's relative path below the root |
| FilesApi.UploadWritesIntoTemp | src/app/api/files/upload/route.ts:49-83 | without a session id the file is written at `<root>/workspace/temp_uploads/<fileId>`, the reply's relative path below the root |
| FilesApi.OriginalName | src/app/api/files/list/route.ts:32 | the shown name is a suffix of the stored name (one leading digits-and-`_` prefix is removed) |
| FilesApi.ListFiles | src/app/api/files/list/route.ts:6-44 | no session id gives 400; a missing directory an empty list; otherwise one row per entry in `readdir` order with its id, shown name, size and relative path |
| FilesApi.ListRecoversName | src/app/api/files/list/route.ts:32 | the listed name of a stored file is its sanitised upload name, even when that name itself starts with digits and `_` |
| FilesApi.ListedUpload | src/app/api/files/list/route.ts:34-40 | a listed upload shows the upload's `fileId` and `path`; its `fileName` equals the uploaded name exactly when that name had only safe characters |
| FilesApi.GuardStricter | src/app/api/files/delete/route.ts:30-32 | what the corrected guard admits, the written guard admits too |
| FilesApi.GuardConfines | src/app/api/files/delete/route.ts:29-37 | a path the corrected guard admits has the session directory's segments as a prefix of its own |
| FilesApi.DeletePathText | src/app/api/files/delete/route.ts:20-27 | below a root of names, the delete path is the normalised text `<root>/workspace/sessions/<id>/uploads/<fileId>` |
| FilesApi.SiblingResolves | src/app/api/files/delete/route.ts:20-30 | the file id `../../<other>/uploads/<name>` climbs back to `sessions` and into the other session's uploads |
| FilesApi.SiblingPath | src/app/api/files/delete/route.ts:20-30 | that file id leads to the named file of the other session |
| FilesApi.GuardAsWrittenAdmitsSibling | src/app/api/files/delete/route.ts:30-32 | for session `<id>`, the written `startsWith` guard admits a file of session `<id><tail>`, which the corrected guard refuses |
| FilesApi.SessionDirOfNames | src/app/api/files/delete/route.ts:31 | below a root of names, the compared directory is `<root>/workspace/sessions/<id>` |
| FilesApi.DeletePathOfNames | src/app/api/files/delete/route.ts:20-31 | a plain file id's delete path is that file in the session's uploads |
| FilesApi.GuardAdmitsOwnFile | src/app/api/files/delete/route.ts:20-37 | with plain names for root, session and file, both guards admit the path |
| FilesApi.Delete | src/app/api/files/delete/route.ts:6-57 | 400 exactly when a parameter is missing, 403 exactly when the corrected guard refuses, 404 exactly when the admitted path does not exist; only a 200 removes a path, and exactly that one |
| FilesApi.DeleteRemovesOne | src/app/api/files/delete/route.ts:39-46 | a successful delete removed one existing path, and it lies below the session directory |
| FilesApi.DeleteFindsUpload | src/app/api/files/delete/route.ts:20-27 | the delete path of a stored name is where the upload wrote it |
| FilesApi.GuardAdmitsUpload | src/app/api/files/delete/route.ts:30-32 | the guard admits every stored name |
| FilesApi.DeleteAfterUpload | src/app/api/files/delete/route.ts:6-57 | a file the upload stored in a session can be deleted again by its `fileId` |
| Sidebar.AreMessagesEqual | src/components/Sidebar.tsx:19-32 | the loop answers true exactly when both lists have the same length and agree position by position on id, content, role and streaming |
| Sidebar.SameMessagesReflexive | src/components/Sidebar.tsx:19-32 | every list equals itself |
| Sidebar.SameMessagesSymmetric | src/components/Sidebar.tsx:19-32 | the comparison is symmetric |
| Sidebar.SameMessagesTransitive | src/components/Sidebar.tsx:19-32 | the comparison is transitive |
| Sidebar.Collapse | src/components/Sidebar.tsx:383 | collapsing white-space runs never lengthens the text, leaves no two spaces in a row and no other white space, and keeps a non-blank first and last character |
| Sidebar.CollapseTidy | src/components/Sidebar.tsx:383 | text already tidy is left as it is |
| Sidebar.Cleaned | src/components/Sidebar.tsx:383 | the cleaned message is tidy and neither starts nor ends with white space |
| Sidebar.Title | src/components/Sidebar.tsx:381-391 | a cleaned message of at most 20 characters is the title; a longer one is cut to 20 and gets `...` |
| Sidebar.TitleOfShortTitle | src/components/Sidebar.tsx:381-391 | a short title is its own title |
| Sidebar.UserMessages | src/components/Sidebar.tsx:214 | exactly the user messages are kept |
| Sidebar.Resynced | src/components/Sidebar.tsx:199-226 | a session whose messages already agree is returned unchanged; otherwise it takes the chat messages and the new timestamp, and the title of its first user message when the title is due, keeping its ids |
| Sidebar.SyncSessions | src/components/Sidebar.tsx:198-231 | only the sessions with the active id are resynced; the others and the order are kept |
| Sidebar.WithBackendId | src/components/Sidebar.tsx:94-109 | the active sessions take the back-end id, or none for an empty id; the others are kept |
| Sidebar.NewSession | src/components/Sidebar.tsx:35-42 | a new session is named `Chat <id>` after its clock id and starts without messages or back-end id |
| Sidebar.InitialSessions | src/components/Sidebar.tsx:71-84 | the stored sessions when there are any, otherwise one new session carrying the legacy id; never empty |
| Sidebar.WithoutDistinctNonEmpty | src/components/Sidebar.tsx:256-265 | with distinct ids, closing one of at least two sessions leaves some open |
| Sidebar.SidebarState.constructor | src/components/Sidebar.tsx:71-127 | the first render opens the initial sessions and makes the first one active, with nothing loaded or synced yet |
| Sidebar.MarkOf | src/components/Sidebar.tsx:162-172 | a session's load mark records its id, its message count and the id of its last message, exactly when it has one |
| Sidebar.NoMarkUnmatched | src/components/Sidebar.tsx:124 | the initial mark matches no session, so the first switch always loads |
| Sidebar.SidebarState.OnInitialize | src/components/Sidebar.tsx:136-153 | the first run marks the sidebar initialised and, when the first session has messages, loads them and remembers them as synced; later runs change nothing |
| Sidebar.SidebarState.OnActiveSessionLoad | src/components/Sidebar.tsx:156-178 | before initialisation, or when the active session's mark is the last one loaded, nothing changes; otherwise its messages are loaded and remembered as synced and loaded |
| Sidebar.SidebarState.OnSessionIdChange | src/components/Sidebar.tsx:94-109 | the active sessions take the new back-end id, the list is saved, and the active tab stays |
| Sidebar.SidebarState.OnChatMessages | src/components/Sidebar.tsx:183-232 | before initialisation, or for chat messages equal to the last synced ones, nothing changes; otherwise the active session is resynced, the list saved and the messages remembered |
| Sidebar.SidebarState.CreateNewChat | src/components/Sidebar.tsx:244-254 | a new tab named `Chat <n+1>` is appended, saved and made active |
| Sidebar.SidebarState.CloseChat | src/components/Sidebar.tsx:256-265 | the last tab is never closed; otherwise the tab goes, and closing the active tab activates the first remaining one; the unchecked read fails exactly when no tab remains, which distinct ids rule out |
| Sidebar.SidebarState.SelectHistory | src/components/Sidebar.tsx:267-286 | an open session is activated; a stored one is appended, saved and activated; an unknown id changes nothing |
| Sidebar.SidebarState.DeleteHistory | src/components/Sidebar.tsx:288-312 | the session is deleted from storage and from the tabs; the active tab moves to the first remaining one, or a new session replaces the last tab and is saved |
| Sidebar.AgeOf | src/components/Sidebar.tsx:356-378 | the label is chosen by the thresholds of one minute, hour, day and week, and the number shown is the floor of the elapsed units; an unreadable date falls through to the date |
| Sidebar.AgeMonotone | src/components/Sidebar.tsx:365-374 | an older timestamp never gets a finer label |
| Sidebar.TimestampLabel | src/components/Sidebar.tsx:356-378 | a time a week or more ago (or unreadable) shows the date label |
| Sidebar.Preview | src/components/Sidebar.tsx:340-341 | the preview is never empty and at most 50 characters, and a non-empty last message starts with it |
| Sidebar.Closed | src/components/Sidebar.tsx:323-326 | exactly the stored sessions whose id is not open |
| Sidebar.WithMessages | src/components/Sidebar.tsx:334 | exactly the sessions with messages, never more often than before |
| Sidebar.NotAfterTotal | src/components/Sidebar.tsx:335-338 | `NotAfter`: the timestamp order is total |
| Sidebar.Insert | src/components/Sidebar.tsx:335-338 | inserting adds exactly the session |
| Sidebar.InsertSorted | src/components/Sidebar.tsx:335-338 | inserting keeps the list newest first |
| Sidebar.SortNewestFirst | src/components/Sidebar.tsx:335-338 | sorting is a permutation |
| Sidebar.SortNewestFirstSorted | src/components/Sidebar.tsx:335-338 | the sorted list is newest first |
| Sidebar.ToItems | src/components/Sidebar.tsx:339-352 | one history item per session, in order |
| Sidebar.HistoryItems | src/components/Sidebar.tsx:315-353 | nothing while the panel is closed, otherwise the items of the history sessions |
| Sidebar.HistoryContents | src/components/Sidebar.tsx:315-353 | the history is newest first and holds exactly the sessions with messages that are open, or stored and not open; every preview is short and non-empty |
| CodeExecutor.ParseHost | src/lib/office/code-executor.ts:13 | a parsed host prints back to the text it came from; only `word`, `excel` and `powerpoint` parse |
| CodeExecutor.ParseTypeName | src/lib/office/code-executor.ts:18 | a parsed type prints back to its name; a name no type prints to does not parse |
| CodeExecutor.ParseOwnName | src/lib/office/code-executor.ts:18 | every one of the six type names parses back to its type |
| CodeExecutor.HostAt | src/lib/office/code-executor.ts:47 | a host found at `i` is the text of that host name, ending inside the string |
| CodeExecutor.BlockAt | src/lib/office/code-executor.ts:47 | a block starting at `i` has a body that ends at a `-->`, and the block ends just past it |
| CodeExecutor.NextBlock | src/lib/office/code-executor.ts:47-51 | the block found starts at or after `from` and is a block at that position |
| CodeExecutor.NextBlockLeftmost | src/lib/office/code-executor.ts:47-51 | no block starts between `from` and the one found, so each `exec` takes the leftmost match |
| CodeExecutor.ExtractStep | src/lib/office/code-executor.ts:51-56 | with no further block extraction ends; otherwise it yields the next block and resumes at its end |
| CodeExecutor.Trimmed | src/lib/office/code-executor.ts:54 | one block per block, each with its code trimmed |
| CodeExecutor.TrimmedAppend | src/lib/office/code-executor.ts:52-55 | trimming distributes over a push |
| CodeExecutor.ExtractLoopStep | src/lib/office/code-executor.ts:51-56 | one `exec` step adds the trimmed next block and moves past it |
| CodeExecutor.ExtractHiddenOfficeCode | src/lib/office/code-executor.ts:46-71 | the loop returns every block in document order, with its host and trimmed code |
| CodeExecutor.RemoveStep | src/lib/office/code-executor.ts:76-78 | removal keeps the text before the next block, drops the block and goes on after it |
| CodeExecutor.ConcatAppend | src/lib/office/code-executor.ts:76-78 | the text, visible text and hidden blocks of pieces distribute over concatenation |
| CodeExecutor.PiecesUnfold | src/lib/office/code-executor.ts:76-78 | the pieces from `from` are the visible text before the next block, the block, and the pieces after it |
| CodeExecutor.ConcatPair | src/lib/office/code-executor.ts:76-78 | the text, visible text and hidden blocks of two pieces |
| CodeExecutor.PiecesStep | src/lib/office/code-executor.ts:76-78 | a visible piece and a hidden one contribute their text in front of the rest |
| CodeExecutor.PiecesLossless | src/lib/office/code-executor.ts:46-78 | the visible and hidden pieces reassemble the text exactly |
| CodeExecutor.RemoveKeepsVisible | src/lib/office/code-executor.ts:76-78 | `RemoveHiddenOfficeCode`: removal keeps exactly the text outside the blocks, in order |
| CodeExecutor.ExtractYieldsHidden | src/lib/office/code-executor.ts:46-56 | extraction yields exactly the blocks removal deletes, in order |
| CodeExecutor.RawIsBlock | src/lib/office/code-executor.ts:47 | every match opens with `<!--` and closes with `-->` |
| CodeExecutor.HiddenPiecesAreBlocks | src/lib/office/code-executor.ts:77 | every removed piece opens with `<!--` and closes with `-->` |
| CodeExecutor.NoMarkerNoBlocks | src/lib/office/code-executor.ts:46-78 | text without `<!--` is left unchanged and yields no block |
| CodeExecutor.ClassificationOrder | src/lib/office/code-executor.ts:83-134 | `ParseOfficeError`: one of the four Office.js codes decides its own type and keeps the code; else a NetworkError name or a message containing `network` gives NetworkError; else UnknownError; classified errors always carry a message and no stack |
| CodeExecutor.LastIndexOfChar | src/lib/office/code-executor.ts:190 | the position found holds the character and no later one in range does; none found means none holds it |
| CodeExecutor.FirstClosingFence | src/lib/office/code-executor.ts:191 | the fence found is a closing fence and none starts earlier; none found means none exists |
| CodeExecutor.StripClosingFence | src/lib/office/code-executor.ts:191 | stripping the closing fence leaves a prefix of the code |
| CodeExecutor.LastLineEnd | src/lib/office/code-executor.ts:194 | the position found is the last place in range where `$` matches under the `m` flag, the end of the text or just before `\n`, `\r`, U+2028 or U+2029; none found means `$` matches nowhere in range |
| CodeExecutor.EllipsisLineAt | src/lib/office/code-executor.ts:194 | the end found is that of the longest match of `^\s*\.\.\.\s*$` at `i`, with every kind of line break ending a line; none found means no match starts at `i` |
| CodeExecutor.NoDotUnchanged | src/lib/office/code-executor.ts:194 | `DropEllipsisLines`: a text without a dot passes through the placeholder removal unchanged |
| CodeExecutor.CarriageReturnEndsPlaceholder | src/lib/office/code-executor.ts:194 | a placeholder ended by a carriage return is removed up to it, so `"...\rx"` keeps only `"\rx"` |
| CodeExecutor.NewlineRun | src/lib/office/code-executor.ts:204 | the run is all newlines and is maximal |
| CodeExecutor.CollapseNewlines | src/lib/office/code-executor.ts:204 | collapsing keeps the first character and maps the empty text to itself |
| CodeExecutor.CollapseNoTriple | src/lib/office/code-executor.ts:204 | after collapsing, no three newlines are in a row |
| CodeExecutor.SubstringNoTriple | src/lib/office/code-executor.ts:204 | a slice of text without three newlines in a row has none either |
| CodeExecutor.TrimCollapsedShape | src/lib/office/code-executor.ts:204 | collapsed and trimmed text has no triple newline and no white space at either end |
| CodeExecutor.NormalizedShape | src/lib/office/code-executor.ts:186-206 | `NormalizeOfficeCode`: normalised code never holds three newlines in a row and has no white space at either end |
| CodeExecutor.ManyLinesKeepEscapes | src/lib/office/code-executor.ts:198-201 | text with three or more real lines is not unescaped |
| CodeExecutor.PushCapped | src/lib/office/code-executor.ts:149-161 | a push ends with the new entry, grows the index by at most one, and keeps it within 1000 |
| CodeExecutor.ReportStore.constructor | src/lib/office/code-executor.ts:139-148 | the store starts with no reports and no index |
| CodeExecutor.ReportStore.SaveErrorReport | src/lib/office/code-executor.ts:139-171 | the report is stored under its key; a readable or absent index gets the new entry, and past 1000 loses its oldest entry and that entry's report; an unreadable index stays; the index stays within 1000 |
| CodeExecutor.ReportStore.IndexedReports | src/lib/office/code-executor.ts:387-392 | at most one stored report per index entry |
| CodeExecutor.ReportStore.GetErrorReports | src/lib/office/code-executor.ts:378-400 | the indexed reports that exist, sorted newest first; nothing without a readable index |
| CodeExecutor.ReportStore.ClearErrorReports | src/lib/office/code-executor.ts:406-422 | a readable index loses all its reports and itself; otherwise nothing changes |
| CodeExecutor.KeysOfMembers | src/lib/office/code-executor.ts:412-415 | the removed keys are exactly the keys of the index entries |
| CodeExecutor.SortNewestFirst | src/lib/office/code-executor.ts:394-396 | sorting is a permutation |
| CodeExecutor.SortNewestFirstSorted | src/lib/office/code-executor.ts:394-396 | newest first, a permutation, and stable for equal times |
| CodeExecutor.ExecuteOfficeCodeBlocks | src/lib/office/code-executor.ts:353-372 | one result per block, in order, each the executor's result for that block, failures included |
| Complexity.LastOccurrence | src/lib/office/mcp-server.ts:112 | an occurrence found starts at or after `lo` and ends at or before `hi` |
| Complexity.LineEnd | src/lib/office/mcp-server.ts:113 | no line terminator lies between `from` and the line end found |
| Complexity.BodyClearAt | src/lib/office/mcp-server.ts:110 | a `body.clear()` match at `i` ends after `i` within the text |
| Complexity.InsertParagraphStartAt | src/lib/office/mcp-server.ts:111 | a match at `i` ends after `i` within the text |
| Complexity.InsertFieldTocAt | src/lib/office/mcp-server.ts:112 | a match at `i` ends after `i` within the text |
| Complexity.SearchInsertAt | src/lib/office/mcp-server.ts:113 | a match at `i` ends after `i` within the text |
| Complexity.ShadingAt | src/lib/office/mcp-server.ts:114 | a match at `i` ends after `i` within the text |
| Complexity.RiskyMatchAt | src/lib/office/mcp-server.ts:109-115 | a match of a table pattern at `i` ends after `i` within the text |
| Complexity.RiskySearch | src/lib/office/mcp-server.ts:140-141 | the match found is a match of the pattern, and none starts earlier; none found means none exists |
| Complexity.TestWithLastIndex | src/lib/office/mcp-server.ts:141 | a global pattern's `test` resets `lastIndex` to 0 on failure and leaves it inside the text on success |
| Complexity.FreshTestAgrees | src/lib/office/mcp-server.ts:141 | with `lastIndex` at 0, `test` is the stateless search |
| Complexity.StaleTestOnlyMisses | src/lib/office/mcp-server.ts:141 | a left-over `lastIndex` can only hide a match, never invent one |
| Complexity.StaleLastIndexMissesRiskyCall | src/lib/office/mcp-server.ts:109-141 | checking one script leaves the `body.clear()` pattern at `lastIndex` 14, so a shorter script that calls `body.clear()` is not flagged |
| Complexity.CountMeaningful | src/lib/office/mcp-server.ts:126-131 | no more meaningful lines than lines |
| Complexity.InsertCallAt | src/lib/office/mcp-server.ts:133 | an `.insert<Upper><letters>(` match at `i` ends after `i` within the text |
| Complexity.SyncCallsZeroIff | src/lib/office/mcp-server.ts:136-162 | no `context.sync()` is counted exactly when the text does not contain one |
| Complexity.IssueTexts | src/lib/office/mcp-server.ts:122 | one issue text per issue, in order |
| Complexity.SuggestionTexts | src/lib/office/mcp-server.ts:123 | one suggestion text per issue, index-aligned with the issues |
| Complexity.MatchedApis | src/lib/office/mcp-server.ts:140-147 | only patterns that match are listed, at most one per pattern |
| Complexity.MatchedApisComplete | src/lib/office/mcp-server.ts:140-147 | a pattern is listed exactly when it matches |
| Complexity.RiskyIssues | src/lib/office/mcp-server.ts:143 | one risky-API issue per matched pattern, in order |
| Complexity.ScanUpToMatched | src/lib/office/mcp-server.ts:140-147 | after `k` table entries the loop holds one issue per matching pattern among them |
| Complexity.ScanRiskyApis | src/lib/office/mcp-server.ts:140-147 | the loop over the table ends in the state of all five entries |
| Complexity.CheckCodeComplexity | src/lib/office/mcp-server.ts:121-191 | corrected: each pattern searches the whole script; the check is the assessment, and its issues and suggestions are paired |
| Complexity.AssessWellFormed | src/lib/office/mcp-server.ts:121-191 | `Assess`: every assessment has paired issues and suggestions |
| Complexity.DecideWellFormed | src/lib/office/mcp-server.ts:149-177 | the threshold rules keep issues and suggestions paired |
| Complexity.BlockImpliesWarn | src/lib/office/mcp-server.ts:149-150 | a blocked script is always also warned about |
| Complexity.Decision | src/lib/office/mcp-server.ts:149-150 | warn exactly when more than 30 meaningful lines, more than 5 inserts or a risky match; block exactly when more than 80 lines or more than 15 inserts |
| Complexity.BodyClearFlagged | src/lib/office/mcp-server.ts:110-143 | a script containing `body.clear()` draws that issue and a warning |
| Complexity.DecideIssues | src/lib/office/mcp-server.ts:139-177 | the issues are the risky ones followed by the threshold ones |
| Complexity.RiskyIssuesExact | src/lib/office/mcp-server.ts:140-147 | the issues start with one entry per matching pattern, in table order, and an entry is present exactly for the patterns that match |
| Complexity.ThresholdNotRisky | src/lib/office/mcp-server.ts:152-177 | no threshold issue is a risky-API issue |
| Complexity.DecideThresholds | src/lib/office/mcp-server.ts:152-177 | each threshold issue is present exactly when its threshold is crossed |
| Complexity.ThresholdMembership | src/lib/office/mcp-server.ts:152-177 | which threshold issues are listed, condition by condition |
| Complexity.ThresholdIssuesExact | src/lib/office/mcp-server.ts:152-177 | too many lines (>30), too many inserts (>5), no sync call, too many syncs (>3) and no return validation are each reported exactly when they hold |
| Complexity.IssuesPaired | src/lib/office/mcp-server.ts:139-177 | issues and suggestions always have the same length |
| Complexity.MetricLines | src/lib/office/mcp-server.ts:200-205 | the metrics block is ten lines |
| Complexity.WarningListsIssues | src/lib/office/mcp-server.ts:196-218 | `FormatComplexityWarning`: the warning lists every issue as a `- ` line after the heading, then the metrics, then the numbered suggestions |
| Complexity.IssueLineAt | src/lib/office/mcp-server.ts:199 | the `k`-th issue line is `- ` and the issue |
| Complexity.MetricLineAt | src/lib/office/mcp-server.ts:200-205 | the `k`-th metrics line follows the issues |
| Complexity.SuggestionLineAt | src/lib/office/mcp-server.ts:207 | the `k`-th suggestion line is numbered `k+1` |
| Bridge.SweptPending | src/lib/office/mcp-server.ts:77-85 | the sweep keeps exactly the pending entries at most five minutes old, unchanged |
| Bridge.SweptResults | src/lib/office/mcp-server.ts:87-91 | the sweep keeps exactly the results at most five minutes old, unchanged |
| Bridge.KeepFreshStep | src/lib/office/mcp-server.ts:81-85 | one more step of the sweep over the insertion order |
| Bridge.SweepOrder | src/lib/office/mcp-server.ts:81-85 | the sweep loop deletes exactly the expired pending entries and keeps the order of the rest |
| Bridge.SweptEqual | src/lib/office/mcp-server.ts:81-85 | a map holding exactly the fresh entries of the old one is the swept map |
| Bridge.KeepFreshMembers | src/lib/office/mcp-server.ts:81-85 | `KeepFresh`: the kept order is duplicate-free and names exactly the fresh pending ids |
| Bridge.WithoutMembers | src/lib/office/mcp-server.ts:341-342 | deleting an id from the order keeps it duplicate-free and removes exactly that id |
| Bridge.EnlistKeeps | src/lib/office/mcp-server.ts:301-307 | setting a pending entry keeps the order duplicate-free and naming exactly the pending ids |
| Bridge.SweepKeeps | src/lib/office/mcp-server.ts:77-92 | the sweep keeps the order naming exactly the pending ids |
| Bridge.FirstPendingFrom | src/lib/office/mcp-server.ts:455-464 | the position found holds a pending entry and none before it does; none found means none is pending |
| Bridge.PendingEntries | src/lib/office/mcp-server.ts:502-512 | only pending entries are listed, each with its id |
| Bridge.PendingEntriesComplete | src/lib/office/mcp-server.ts:502-512 | every pending entry is listed |
| Bridge.Take | src/lib/office/mcp-server.ts:372 | `slice(0, n)` keeps the first `n` elements, or all of them |
| Bridge.Outcome | src/lib/office/mcp-server.ts:347-413 | a success answers with the success text, a failure with the failure text |
| Bridge.FailureTextContents | src/lib/office/executor.ts:296-330 | the failure text names the error type, embeds the fix hint of exactly that type, holds the failed code and the caller's request |
| Bridge.FailureTemplateContents | src/lib/office/mcp-server.ts:388-413 | `FailureTemplate`: the failure template holds the type, the message, the code, the hint and the request |
| Bridge.ErrorTypeFallback | src/lib/office/executor.ts:302-303 | the type shown is the error's own, or `UnknownError` exactly when the error or its type is missing |
| Bridge.ReadTaskWarningIff | src/lib/office/executor.ts:270-279 | a success without data warns about a read task exactly when the trimmed description contains 读取, 获取 or 查看; other successes without data get the no-data hint |
| Bridge.AdviceTips | src/lib/office/executor.ts:283-289 | the advice ends with at most the first three suggestions, numbered from 1 |
| Bridge.SuccessAdvice | src/lib/office/mcp-server.ts:352-374 | a success answer carries the data note, and the advice exactly when the script was warned about |
| Bridge.BridgeStore.constructor | src/lib/office/mcp-server.ts:47-73 | the store starts empty, with no events, listeners or waiting calls |
| Bridge.BridgeStore.CleanupExpired | src/lib/office/mcp-server.ts:77-92 | every pending entry and result older than five minutes goes, whatever its status; nothing else changes |
| Bridge.BridgeStore.SweepPending | src/lib/office/mcp-server.ts:81-85 | the pending half of the sweep; nothing else changes |
| Bridge.BridgeStore.SweepResults | src/lib/office/mcp-server.ts:87-91 | the results half of the sweep; nothing else changes |
| Bridge.BridgeStore.ExecuteCode | src/lib/office/mcp-server.ts:282-315 | corrected: the gate searches each script afresh; a blocked script is answered with the warning and the store is left as it was; otherwise the store is swept, the task stored as pending, the new-task event emitted and the call waits |
| Bridge.BridgeStore.Enqueue | src/lib/office/executor.ts:193-214 | sweep, then the pending entry, the new-task event and the waiting call |
| Bridge.BridgeStore.GetPendingExecution | src/lib/office/mcp-server.ts:455-464 | the first pending entry in insertion order is flipped to executing and returned; with none, nothing changes |
| Bridge.BridgeStore.GetAllPendingExecutions | src/lib/office/mcp-server.ts:502-512 | exactly the pending entries, in insertion order; nothing changes |
| Bridge.BridgeStore.SubmitExecutionResult | src/lib/office/mcp-server.ts:472-497 | an unknown id returns false and changes nothing; a known one gets completed or failed, the stamped result is emitted and then stored as backup, overwriting an earlier one |
| Bridge.BridgeStore.ResultArrives | src/lib/office/mcp-server.ts:322-342 | the `once` listener hears only the first result event for its id emitted after the call began to wait; that event deletes both the pending and the result entry for the id, and the call answers with its outcome |
| Bridge.FirstHeardUnique | src/lib/office/mcp-server.ts:337 | a `once` listener hears at most one event: the first one for its id since it subscribed |
| Bridge.EarlierEventUnheard | src/lib/office/mcp-server.ts:337 | an event emitted before the call subscribed is never heard |
| Bridge.BridgeStore.TimeoutFires | src/lib/office/mcp-server.ts:318-327 | after 300000 ms only the pending entry is deleted, the backup result stays, and the call answers with the timeout text |
| Bridge.BridgeStore.OnNewTask | src/lib/office/mcp-server.ts:520-526 | the callback is added to the new-task listeners; nothing else changes |
| Bridge.BridgeStore.OffNewTask | src/lib/office/mcp-server.ts:527 | the returned function removes one instance of the callback; nothing else changes |
| Bridge.RemoveLast | src/lib/office/mcp-server.ts:527 | removing a present listener drops exactly one instance; an absent one changes nothing |
| Bridge.AnswerTextHeads | src/lib/office/mcp-server.ts:287-431 | `AnswerText`: each kind of answer opens with its own heading: the blocked warning, the success line with its data note, the failure banner or the timeout banner |
| ErrorPatterns.Pattern | src/lib/office/error-patterns.ts:17-119 | every one of the six table entries has five examples and four common causes |
| ErrorPatterns.LookupPattern | src/lib/office/error-patterns.ts:128 | exactly the six type names have an entry, and each names its own type's entry |
| ErrorPatterns.CauseLines | src/lib/office/error-patterns.ts:148 | the cause block is never empty, falling back to the generic line without causes |
| ErrorPatterns.ContainsInLine | src/lib/office/error-patterns.ts:142-154 | an item on one line of the hint occurs in the joined hint |
| ErrorPatterns.PatternTextComplete | src/lib/office/error-patterns.ts:142-154 | the hint text of an entry holds its description, every cause and every example |
| ErrorPatterns.FixHintComplete | src/lib/office/error-patterns.ts:127-155 | `GetFixHint`: the fix hint of a known type holds its description, every common cause and every example |
| ErrorPatterns.FixHintUnknown | src/lib/office/error-patterns.ts:130-140 | a name that is not an error type gets the fixed generic text |
| ErrorPatterns.LookupUnknown | src/lib/office/error-patterns.ts:128-130 | a name that is not an error type has no entry |
| ErrorPatterns.FixHintKnown | src/lib/office/error-patterns.ts:142-154 | the fix hint of a known type is the text of its entry |
| ErrorPatterns.HintText | src/lib/office/error-patterns.ts:142-154 | the entry's text holds its description, every cause and every example |
| ErrorPatterns.CauseTexts | src/lib/office/error-patterns.ts:163-204 | one text per cause, in order |
| ErrorPatterns.CommonCauses | src/lib/office/error-patterns.ts:197-201 | the fallback causes are the entry's four common causes |
| ErrorPatterns.InferInvalidArgument | src/lib/office/error-patterns.ts:165-178 | on the lower-cased message each of the groups name/名称, range/地址 and value/值 adds its cause exactly when it is mentioned, without repeats |
| ErrorPatterns.InferInvalidReference | src/lib/office/error-patterns.ts:181-188 | a worksheet/工作表 mention and a null/undefined mention each add their cause, and only those |
| ErrorPatterns.InferRulesOrCommon | src/lib/office/error-patterns.ts:197-204 | `InferErrorCauses`: the rule causes are returned when any rule fired; otherwise the table's common causes |
| ErrorPatterns.InferApiNotFound | src/lib/office/error-patterns.ts:191-194 | a missing API always yields exactly its two causes |
| ErrorPatterns.InferFallback | src/lib/office/error-patterns.ts:197-202 | the types without rules get the four common causes |
| ErrorPatterns.FixTexts | src/lib/office/error-patterns.ts:214-262 | one text per suggestion, in order |
| ErrorPatterns.TryCatchLast | src/lib/office/error-patterns.ts:258-260 | the try-catch suggestion is present exactly when the code lacks `try` or `catch`, and then it comes last |
| ErrorPatterns.InvalidReferenceFixes | src/lib/office/error-patterns.ts:228-239 | one suggestion per missing marker among `.load(`, `getItemOrNullObject` and `isNullObject`, and only those |
| ErrorPatterns.GeneralExceptionFixes | src/lib/office/error-patterns.ts:247-256 | a sync suggestion exactly when the code has no `context.sync()`, a split suggestion exactly when it is longer than 500 characters |
| ErrorPatterns.InvalidArgumentFixes | src/lib/office/error-patterns.ts:218-225 | a suggestion for `.getItem(` and one for `InsertLocation`, each exactly when the code contains it |
| ErrorPatterns.TryCatchTextUnique | src/lib/office/error-patterns.ts:214-264 | the try-catch advice text is the text of no other suggestion |
| ErrorPatterns.CodeFixSuggestionsTryCatch | src/lib/office/error-patterns.ts:214-264 | `generateCodeFixSuggestions` gives one text per suggestion; the try-catch advice closes the list exactly when the code lacks `try` or `catch`, and is absent otherwise |
| FeedbackBuilder.MatchesFrom | src/lib/office/error-feedback-builder.ts:31-40 | every match starts with the prefix and has at least one more character |
| FeedbackBuilder.MatchPosition | src/lib/office/error-feedback-builder.ts:31-40 | each match is the prefix at some position followed by the longest run of word characters after it |
| FeedbackBuilder.DistinctKeepsRank | src/lib/office/error-feedback-builder.ts:43 | removing duplicates keeps the host order of the list |
| FeedbackBuilder.UsedApisShape | src/lib/office/error-feedback-builder.ts:27-44 | `ExtractUsedApis`: the list is duplicate-free, every entry starts with `Excel.`, `Word.` or `PowerPoint.`, and the Excel entries come first, then Word, then PowerPoint |
| FeedbackBuilder.CodePart | src/lib/office/error-feedback-builder.ts:71-73 | the code line is present exactly when the error has a non-empty code |
| FeedbackBuilder.StackPart | src/lib/office/error-feedback-builder.ts:75-80 | the stack block is present exactly when the error has a non-empty stack |
| FeedbackBuilder.PartsContain | src/lib/office/error-feedback-builder.ts:64-117 | each part occurs in the assembled feedback |
| FeedbackBuilder.Grow | src/lib/office/error-feedback-builder.ts:64-117 | appending keeps what the text contains |
| FeedbackBuilder.InPart | src/lib/office/error-feedback-builder.ts:64-117 | what a part contains the whole text contains |
| FeedbackBuilder.FeedbackContents | src/lib/office/error-feedback-builder.ts:55-118 | `BuildErrorFeedback`: the feedback holds `retryCount/maxRetries`, the error's message, the trimmed code, the API list (or 无法识别) and the fix hint of the error's type verbatim, and the code line and stack exactly when the error has them |
| FeedbackBuilder.FeedbackWithContents | src/lib/office/error-feedback-builder.ts:64-117 | the same for any hint text |
| FeedbackBuilder.StackContents | src/lib/office/error-feedback-builder.ts:75-80 | the stack block holds the stack |
| FeedbackBuilder.HeaderContents | src/lib/office/error-feedback-builder.ts:64-69 | the header holds the attempt count and the message |
| FeedbackBuilder.EnvContents | src/lib/office/error-feedback-builder.ts:84-94 | the environment part holds the trimmed code and the API list |
| FeedbackBuilder.FinalMessageContents | src/lib/office/error-feedback-builder.ts:123-131 | `BuildFinalErrorMessage`: the final message holds the number of attempts and the last error's message |
| FeedbackBuilder.FinalSlots | src/lib/office/error-feedback-builder.ts:128-130 | both slots of the final message occur in it |
| UseChat.ToInt32 | src/lib/use-chat.ts:476 | the result is in the signed 32-bit range and congruent to the input modulo 2^32 |
| UseChat.ToInt32Shift | src/lib/use-chat.ts:475-476 | the 32-bit result depends only on the input modulo 2^32 |
| UseChat.HashOf | src/lib/use-chat.ts:471-480 | the fingerprint of a sequence of UTF-16 code units is a signed 32-bit integer, 0 for no units |
| UseChat.AstralHashesSurrogates | src/lib/use-chat.ts:474-476 | an astral character is hashed as its high then low surrogate, not as its scalar value |
| UseChat.HashOfPolynomial | src/lib/use-chat.ts:473-477 | wrapping at every step equals wrapping the exact `31`-polynomial of the code units once |
| UseChat.HashCode | src/lib/use-chat.ts:471-480 | the loop over the UTF-16 code units (`charCodeAt`) computes the text of the fingerprint of the text's code units; the empty text gives `0` |
| UseChat.Frames | src/lib/use-chat.ts:904 | splitting at blank lines gives at least one piece |
| UseChat.FramesRebuild | src/lib/use-chat.ts:904-907 | the complete frames and the remainder, joined again, are the buffer, and the remainder holds no frame separator |
| UseChat.ScanStep | src/lib/use-chat.ts:915-921 | one more line of the scan |
| UseChat.ScanLineCases | src/lib/use-chat.ts:916-920 | an `event:` line sets the trimmed type, else a `data:` line the trimmed data, else nothing changes |
| UseChat.LastWith | src/lib/use-chat.ts:915-921 | the index found is the last line with the prefix; none found means no line has it |
| UseChat.PrefixesExclusive | src/lib/use-chat.ts:916-918 | no line starts with both `event:` and `data:` |
| UseChat.LastLineWins | src/lib/use-chat.ts:915-921 | the last `event:` line sets the type and the last `data:` line the data, with `message` and the empty data by default |
| UseChat.ChunkEventCases | src/lib/use-chat.ts:909-929 | a frame yields an event exactly when it is not blank and its last `data:` value is non-empty and parses; the type is the last `event:` value or `message` |
| UseChat.EventsOf | src/lib/use-chat.ts:909-929 | at most one event per frame |
| UseChat.ScanChunk | src/lib/use-chat.ts:912-921 | the loop over a frame's lines computes the scan of those lines |
| UseChat.ParseChunk | src/lib/use-chat.ts:909-929 | the loop body computes the frame's event |
| UseChat.EventsOfStep | src/lib/use-chat.ts:909-929 | one more frame adds its event, if any |
| UseChat.ParseSseBuffer | src/lib/use-chat.ts:902-933 | the events of the complete frames in order, and the unfinished rest of the buffer |
| UseChat.AfterFailure | src/lib/use-chat.ts:547-655 | a failure with an error under 3 retries counts one more retry and asks for it; otherwise the block is given up with its count and forgotten; counts stay within 3, other blocks are untouched |
| UseChat.ThreeRetriesThenGiveUp | src/lib/use-chat.ts:547-553 | a fresh block failing four times is retried three times and then given up |
| UseChat.RetryState.constructor | src/lib/use-chat.ts:17-60 | no block has a counter |
| UseChat.RetryState.OnFailure | src/lib/use-chat.ts:547-655 | a failure updates the counters and decides as described above |
| UseChat.RetryState.OnSuccess | src/lib/use-chat.ts:656-660 | a success forgets the block's counter |
| UseChat.RetryState.Clear | src/lib/use-chat.ts:447-452 | clearing the messages drops every counter |
| UseChat.OnBlockResult | src/lib/use-chat.ts:542-660 | a success forgets the counter; a failure either shows the retry notice and sends the feedback prompt, or posts the final message |
| UseChat.FirstOccurrences | src/lib/use-chat.ts:529-540 | the positions let through lie at or after `from` |
| UseChat.FirstOccurrencesOrdered | src/lib/use-chat.ts:529-540 | the positions let through are increasing |
| UseChat.FirstOccurrencesDistinct | src/lib/use-chat.ts:529-540 | the keys let through were not seen before and are pairwise distinct |
| UseChat.FirstOccurrencesCover | src/lib/use-chat.ts:529-540 | every key not seen before is let through at some position |
| UseChat.Fingerprints | src/lib/use-chat.ts:530 | one fingerprint per block, in order |
| UseChat.OccurrenceStep | src/lib/use-chat.ts:529-540 | one turn of the skip-if-seen loop on the keys |
| UseChat.SkipTurn | src/lib/use-chat.ts:529-540 | a seen block is skipped; a new one is kept and its fingerprint recorded |
| UseChat.SkipDone | src/lib/use-chat.ts:529-540 | at the end the kept blocks are the fresh ones and every fingerprint is recorded |
| UseChat.SkipSeen | src/lib/use-chat.ts:529-540 | the loop keeps exactly the blocks whose fingerprint was not seen before or earlier in the message, and records every fingerprint |
| UseChat.CodeRunGuard.constructor | src/lib/use-chat.ts:468 | no fingerprint has been run |
| UseChat.CodeRunGuard.Admit | src/lib/use-chat.ts:529-540 | the blocks run are the fresh ones, and every fingerprint is recorded |
| UseChat.TaskDedupe.constructor | src/lib/use-chat.ts:71 | no task id has been seen |
| UseChat.TaskDedupe.Admit | src/lib/use-chat.ts:87-93 | a task runs exactly when its id was not seen, and the id is recorded |
| UseChat.TaskDedupe.LoadingStopped | src/lib/use-chat.ts:78-82 | when loading stops every id is forgotten |
| UseChat.RunningNoticeRecognised | src/lib/use-chat.ts:100-105 | the running notice shown for a task is recognised by the later filters |
| UseChat.ClearRunning | src/lib/use-chat.ts:155-161 | after a success every running notice is dropped and every other entry kept |
| UseChat.MarkRepairing | src/lib/use-chat.ts:161-171 | after a failure every running notice says the code is being repaired; other entries are unchanged |
| UseChat.PostedResultAsRead | src/lib/use-chat.ts:136-152 | the tool-result route reads back the posted success, data and the error's fields |
| UseChat.RunJsonFields | src/lib/use-chat.ts:142-150 | the posted result holds success, data and the error |
| UseChat.RunJsonData | src/lib/use-chat.ts:144 | the posted data is the run's result |
| UseChat.RunJsonError | src/lib/use-chat.ts:145-150 | the posted error is present exactly when the run failed with one |
| UseChat.ErrorJsonShape | src/lib/use-chat.ts:145-150 | the error object's members in order, optional ones left out when absent |
| UseChat.LookupPastOptional | src/lib/use-chat.ts:145-150 | an absent optional member does not hide a later one |
| UseChat.ErrorJsonFields | src/lib/use-chat.ts:145-150 | the error object carries the type name, code, message and stack |
| UseChat.ErrorJsonCode | src/lib/use-chat.ts:147 | the error object's code is the error's code |
| UseChat.ErrorJsonMessage | src/lib/use-chat.ts:148 | the error object's message is the error's message |
| UseChat.ErrorJsonStack | src/lib/use-chat.ts:149 | the error object's stack is the error's stack |
| UseChat.ErrorStep | src/lib/use-chat.ts:231-252 | an error counts one more attempt; falls back to polling exactly at 3 attempts, otherwise reconnects after the fixed delay |
| UseChat.ThirdErrorFallsBack | src/lib/use-chat.ts:198-252 | from a fresh connection two errors reconnect and the third falls back |
| UseChat.PushChannel.constructor | src/lib/use-chat.ts:195-198 | pushing is on and no attempt counted |
| UseChat.PushChannel.OnOpen | src/lib/use-chat.ts:206-210 | an opened connection resets the counter |
| UseChat.PushChannel.OnError | src/lib/use-chat.ts:231-252 | a connection error counts and then reconnects or switches to polling; pushing stays on exactly when it reconnects |
| UseChat.PushChannel.OnSetupError | src/lib/use-chat.ts:253-257 | a failed set-up switches to polling at once |
| UseChat.SameOrContainedShape | src/lib/use-chat.ts:668-675 | `SameOrContained`: the match is symmetric, holds of a text and itself exactly when it is not blank, and never holds of a blank text |
| UseChat.MergeFinal | src/lib/use-chat.ts:735-757 | a complete message with nothing streaming either appends one entry or rewrites only the last entry under its id |
| UseChat.MergeKeepsIds | src/lib/use-chat.ts:735-757 | the merge keeps every old entry's id in place |
| UseChat.IdsKept | src/lib/use-chat.ts:735-757 | appending or rewriting the last entry under its id keeps the old ids |
| UseChat.MergeFinalKeepsLonger | src/lib/use-chat.ts:735-757 | no entry is added exactly when the last entry has the same role and a matching text, and then the longer normalised text is kept |
| UseChat.FindById | src/lib/use-chat.ts:681 | the index found holds the id and none before it does; none found means the id is absent |
| UseChat.AppendChunk | src/lib/use-chat.ts:683-687 | entries with the id are changed, the others kept, the ids unchanged |
| UseChat.Finalize | src/lib/use-chat.ts:717-721 | the streaming entry takes the complete message and stops streaming; the others are kept |
| UseChat.ApplyMessage | src/lib/use-chat.ts:677-759 | a message adds at most one entry, keeps the old ids, a piece leaves something streaming and a complete message keeps the streaming id |
| UseChat.ApplyPiece | src/lib/use-chat.ts:677-710 | a streamed piece extends the streaming entry or adds one, and something streams afterwards |
| UseChat.ApplyComplete | src/lib/use-chat.ts:711-758 | a complete message overwrites the streaming entry, is appended, or is merged, keeping the streaming id |
| UseChat.StreamingPieceExtends | src/lib/use-chat.ts:680-688 | a piece of the streaming entry's role is appended to its text and nothing else changes |
| UseChat.FindByIdFirst | src/lib/use-chat.ts:681 | the first entry with the id is found |
| UseChat.Complete | src/lib/use-chat.ts:893-897 | the stream ended: the transcript is kept and nothing streams |
| UseChat.OnMessage | src/lib/use-chat.ts:513-761 | a complete assistant message loses its hidden blocks from its text, the blocks not run before are handed out, and the message is applied |
| UseChat.OrElse | src/lib/use-chat.ts:800 | the first value when it is a non-empty string, else the second |
| UseChat.FirstTaskList | src/lib/use-chat.ts:786 | the index found is the first task list; none found means there is none |
| UseChat.UpsertTaskList | src/lib/use-chat.ts:785-825 | the first task list takes the new todos and the title falls back to its own, then 任务规划; without one a task list is appended |
| UseChat.FirstTaskListAt | src/lib/use-chat.ts:786 | the first task-list entry is found |
| UseChat.CountTaskListsUpdate | src/lib/use-chat.ts:792-805 | replacing an entry by one of the same kind keeps the number of task lists |
| UseChat.UpsertKeepsOneTaskList | src/lib/use-chat.ts:785-825 | with at most one task list before, exactly one after |
| UseChat.CountPositive | src/lib/use-chat.ts:786 | a task-list entry makes the count positive |
| UseChat.CountZero | src/lib/use-chat.ts:786 | no task-list entry means a count of zero |
| UseChat.CountTwo | src/lib/use-chat.ts:786 | two task-list entries mean a count of at least two |
| UseChat.OnTodos | src/lib/use-chat.ts:764-828 | a missing or empty list changes nothing; otherwise the panel shows the todos and the task list is upserted |
| UseChat.UpdateTodos | src/lib/use-chat.ts:837-841 | only todos with the id change, and only in status, result and error |
| UseChat.UpdateTodosIdempotent | src/lib/use-chat.ts:837-841 | the same update twice is the same as once |
| UseChat.NewestTaskList | src/lib/use-chat.ts:847-848 | the index found is the last task list carrying tasks; none found means there is none |
| UseChat.UpdateNewestTaskList | src/lib/use-chat.ts:844-865 | the backward loop computes the task update |
| UseChat.NewestTaskListAt | src/lib/use-chat.ts:847-848 | the newest task list is found |
| UseChat.NewestTaskListNone | src/lib/use-chat.ts:847-848 | without a task list carrying tasks none is found |
| UseChat.TaskUpdateNewestOnly | src/lib/use-chat.ts:830-866 | a task update changes only the newest task list, and in it only the todos with the id |
| UseChat.TaskUpdateFindsUpsertedList | src/lib/use-chat.ts:764-866 | after a todos event leaves one task list, a task update changes that entry |
| TestRun.StripOneSpace | tests/office-skills/test-runner/TestExecutor.ts:23-26 | the value of a `data:` line is the text after the prefix less at most one leading space, and it is a suffix of the line |
| TestRun.ScanLineCases | tests/office-skills/test-runner/TestExecutor.ts:19-27 | an `event:` line replaces the frame's type, a `data:` line adds its value, any other line changes nothing |
| TestRun.FrameData | tests/office-skills/test-runner/TestExecutor.ts:18-28 | a frame's data is every `data:` value of its lines in order, concatenated with nothing between them |
| TestRun.FrameType | tests/office-skills/test-runner/TestExecutor.ts:18-28 | a frame's type is that of its last `event:` line, and "message" when it has none |
| TestRun.ChunkEventCases | tests/office-skills/test-runner/TestExecutor.ts:16-36 | a frame yields an event exactly when it is not blank, its concatenated data is non-empty and the data parses; the event carries that type and value |
| TestRun.EventsOfAppend | tests/office-skills/test-runner/TestExecutor.ts:15-37 | frames are decoded independently: the events of two runs of frames are the events of each, concatenated |
| TestRun.BadFrameSkipped | tests/office-skills/test-runner/TestExecutor.ts:30-35 | an unparsable frame between two runs of frames is skipped and nothing else is lost |
| TestRun.ScanChunk | tests/office-skills/test-runner/TestExecutor.ts:18-28 | the line loop of one frame computes the frame's type and data as specified |
| TestRun.ParseChunk | tests/office-skills/test-runner/TestExecutor.ts:16-36 | the body of the frame loop yields the frame's event or nothing, as specified |
| TestRun.ParseSseBuffer | tests/office-skills/test-runner/TestExecutor.ts:11-39 | the events are those of the complete frames in order and the rest is the segment after the last blank-line separator |
| TestRun.PassesDiffer | tests/office-skills/test-runner/TestExecutor.ts:135-185 | the pass over the leftover buffer differs from the streaming pass only on text deltas, which it drops |
| TestRun.CollectContent | tests/office-skills/test-runner/TestExecutor.ts:145-153 | the loop over an assistant message's content keeps the text of each text item, in order |
| TestRun.CollectMessage | tests/office-skills/test-runner/TestExecutor.ts:135-159 | the pieces of one event are the delta text of a stream event, the texts of an assistant message and the text of a result |
| TestRun.CollectPieces | tests/office-skills/test-runner/TestExecutor.ts:135-159 | the loop over the parsed events collects the pieces of each event of type `message`, in order, and skips the others |
| TestRun.SplitOff | tests/office-skills/test-runner/TestExecutor.ts:13-14 | a clean frame followed by the separator splits off first, whatever follows it |
| TestRun.SplitPiecesClean | tests/office-skills/test-runner/TestExecutor.ts:13-14 | every piece of a split but the last holds no separator |
| TestRun.SplitJoin | tests/office-skills/test-runner/TestExecutor.ts:13-14 | clean frames and a last piece without a separator, joined by the separator, split back into themselves |
| TestRun.ReadMore | tests/office-skills/test-runner/TestExecutor.ts:126-127 | a read appends the decoded chunk to the buffer |
| TestRun.ReadSplit | tests/office-skills/test-runner/TestExecutor.ts:132-133 | parsing the buffer moves its complete frames to the frames consumed and leaves the rest as the buffer |
| TestRun.FramedInvariant | tests/office-skills/test-runner/TestExecutor.ts:122-162 | nothing read is lost: the frames consumed and the buffer make up the stream so far, and every consumed frame is clean |
| TestRun.StreamFramed | tests/office-skills/test-runner/TestExecutor.ts:122-162 | however the stream is cut into reads, the frames consumed and the buffer left are those of splitting the whole text |
| TestRun.ReadWhole | tests/office-skills/test-runner/TestExecutor.ts:122-162 | the read loop parses every complete frame of the whole text exactly once, in order |
| TestRun.ChunkingIrrelevant | tests/office-skills/test-runner/TestExecutor.ts:122-162 | the pieces collected do not depend on where the reads cut the stream |
| TestRun.PreviewIsPrefix | tests/office-skills/test-runner/TestExecutor.ts:128-130 | the preview is the start of the stream, and all of it while it is shorter than 4000 characters |
| TestRun.PreviewBounded | tests/office-skills/test-runner/TestExecutor.ts:128-130 | the preview is shorter than 4000 characters plus the longest chunk: it passes the limit only by the chunk that reached it |
| TestRun.LeftoverHasNoFrame | tests/office-skills/test-runner/TestExecutor.ts:165-167 | a buffer with no separator holds no complete frame |
| TestRun.StreamPiecesWhole | tests/office-skills/test-runner/TestExecutor.ts:165-185 | the pass after the stream ends adds nothing, so an unterminated last frame is dropped |
| TestRun.ReadChunk | tests/office-skills/test-runner/TestExecutor.ts:124-161 | one read buffers and previews the chunk and consumes the complete frames, as specified |
| TestRun.ReadStream | tests/office-skills/test-runner/TestExecutor.ts:122-185 | the read loop and the leftover pass produce the pieces of the whole text and its preview |
| TestRun.HostCodesMembers | tests/office-skills/test-runner/TestExecutor.ts:189-190 | the codes kept are the non-empty codes of the blocks for the test's host |
| TestRun.GeneratedCodeCases | tests/office-skills/test-runner/TestExecutor.ts:187-191 | the generated code is empty exactly when no block for the host has code, and otherwise contains every such code, each once |
| TestRun.OtherHostsIgnored | tests/office-skills/test-runner/TestExecutor.ts:189 | blocks for another host never reach the generated code |
| TestRun.PostFacts | tests/office-skills/test-runner/TestExecutor.ts:77-105 | the loop posts until an ok or sub-500 response or three posts, waits once per thrown post and keeps the last response and the last error |
| TestRun.NoResponseAllThrew | tests/office-skills/test-runner/TestExecutor.ts:77-109 | with no response at all every post threw, so the error thrown is the last post's and never the fallback message |
| TestRun.StoppedStays | tests/office-skills/test-runner/TestExecutor.ts:97-99 | once the loop has broken out further turns change nothing |
| TestRun.PostWithRetry | tests/office-skills/test-runner/TestExecutor.ts:77-105 | the posting loop returns the response, last error, number of posts and number of waits of the specification |
| TestRun.RequestErrorCases | tests/office-skills/test-runner/TestExecutor.ts:107-113 | the request fails exactly when there is no response or the last one is not ok; an ok response is the last post's answer |
| TestRun.LastAnswerStops | tests/office-skills/test-runner/TestExecutor.ts:97 | an ok response stops the loop, so an ok last answer belongs to the last post made |
| TestRun.VerdictCases | tests/office-skills/test-runner/TestExecutor.ts:205-262 | a test passes exactly when the request succeeds, the reply has code and the code runs; a failure carries an error, a failed request a NetworkError, missing code the no-code message; the code is recorded exactly when the request succeeded, trimmed |
| TestRun.PassedHadBlock | tests/office-skills/test-runner/TestExecutor.ts:205-206 | a passing test had a block for its own host with non-empty code |
| TestRun.LogsCases | tests/office-skills/test-runner/TestExecutor.ts:58-284 | a case logs its start first and its completion last, the error line after it exactly when it failed, and at most one line between them: the report save, the missing-code warning or the report-post warning |
| TestRun.CountsCover | tests/office-skills/test-runner/TestExecutor.ts:322-328 | when every result passed or failed the two counts add up to the total and none is skipped |
| TestRun.ResultsOfAt | tests/office-skills/test-runner/TestExecutor.ts:311-332 | the i-th result of the suite is the i-th case run in its own environment |
| TestRun.SuiteCounts | tests/office-skills/test-runner/TestExecutor.ts:291-340 | a suite never skips: total is the number of cases and passed plus failed equals it |
| TestRun.SameObservation | tests/office-skills/test-runner/TestExecutor.ts:187-251 | the verdict and the logs look at the code and the preview only when the request got through |
| TestRun.Request | tests/office-skills/test-runner/TestExecutor.ts:77-113 | the posting loop and the checks after it return the error the request throws, if any, as specified |
| TestRun.ReadCode | tests/office-skills/test-runner/TestExecutor.ts:115-191 | reading the reply and taking the host's code returns the specified code and preview |
| TestRun.TestExecutor.constructor | tests/office-skills/test-runner/TestExecutor.ts:46-52 | the session id is `test-` and the clock, and the logger is fresh and empty |
| TestRun.TestExecutor.SaveReport | tests/office-skills/test-runner/TestExecutor.ts:265-281 | a failed request's report is saved under its key with the logged line and the index the logger keeps |
| TestRun.TestExecutor.ExecuteTestCase | tests/office-skills/test-runner/TestExecutor.ts:57-286 | returns the specified result and appends exactly the specified log lines; the one report storage receives the runner's report when the request fails and the code executor's report when the generated code fails in Office, and is otherwise unchanged |
| TestRun.RunSave | src/lib/office/code-executor.ts:139-171 | the code executor's save on the runner's storage: the report is stored, a readable index ends with an entry naming the host and grows by one until it holds 1000 entries, and an unreadable index is left alone |
| TestRun.TestExecutor.SaveRunReport | src/lib/office/code-executor.ts:139-171 | the storage after the code executor's save is the one `RunSave` gives |
| TestRun.FailedRunSaves | tests/office-skills/test-runner/TestExecutor.ts:207-211 | a case whose request gets through and whose code fails in Office leaves that run's report, with the normalised code, in storage, and one more index entry |
| TestRun.PassedSavesNothing | tests/office-skills/test-runner/TestExecutor.ts:204-211 | a passing case leaves the reports and the index as they were |
| TestRun.TestExecutor.RequestFailed | tests/office-skills/test-runner/TestExecutor.ts:253-282 | a failed request fails the test with a NetworkError and saves an error report |
| TestRun.TestExecutor.ReplyRead | tests/office-skills/test-runner/TestExecutor.ts:115-251 | after a good response the reply is read, the code taken, run and judged, the warnings logged where the source logs them, and a failed run's report saved into the shared storage |
| TestRun.TestExecutor.RunCode | tests/office-skills/test-runner/TestExecutor.ts:206-242 | with code present the result is the verdict on that code: passed exactly when the run succeeds, failed with the run's error otherwise; the only line logged is the warning for a failed test-report post; and the storage gains the run's report exactly when the run fails with an error |
| TestRun.TestExecutor.Tally | tests/office-skills/test-runner/TestExecutor.ts:322-327 | the three counters after one more result are the numbers of passed, failed and skipped results with it |
| TestRun.TestExecutor.RunCase | tests/office-skills/test-runner/TestExecutor.ts:313-328 | one suite turn reports the position to the progress callback, runs the case and counts its status |
| TestRun.TestExecutor.RunAll | tests/office-skills/test-runner/TestExecutor.ts:311-332 | the suite loop runs every case in order, reports each position and total, and counts the statuses |
| TestRun.TestExecutor.ExecuteTestSuite | tests/office-skills/test-runner/TestExecutor.ts:291-340 | the results are the cases' in order, each announced to the progress callback as its position and the total first, and the summary counts the statuses |
| TestLog.EntryDeterminesLevel | tests/office-skills/test-runner/TestLogger.ts:18-40 | a log line determines its level and message: two lines with the same stamp are equal only when both agree |
| TestLog.CompleteLines | tests/office-skills/test-runner/TestLogger.ts:52-60 | `logTestComplete` logs one INFO line, then one ERROR line exactly when the result carries an error |
| TestLog.Appended | tests/office-skills/test-runner/TestLogger.ts:91-100 | a missing index starts empty, a readable one gets the entry pushed at its end, an unreadable one makes the save throw |
| TestLog.TestLogger.constructor | tests/office-skills/test-runner/TestLogger.ts:11-13 | the logger keeps its session id and starts with no lines |
| TestLog.TestLogger.Info | tests/office-skills/test-runner/TestLogger.ts:18-22 | appends exactly one INFO line with the message |
| TestLog.TestLogger.Error | tests/office-skills/test-runner/TestLogger.ts:27-31 | appends exactly one ERROR line with the message |
| TestLog.TestLogger.Warn | tests/office-skills/test-runner/TestLogger.ts:36-40 | appends exactly one WARN line with the message |
| TestLog.TestLogger.LogTestStart | tests/office-skills/test-runner/TestLogger.ts:45-47 | appends the one INFO line announcing the test's id and name |
| TestLog.TestLogger.LogTestComplete | tests/office-skills/test-runner/TestLogger.ts:52-60 | appends the completion lines of the result |
| TestLog.TestLogger.SaveErrorReport | tests/office-skills/test-runner/TestLogger.ts:84-106 | the report is stored under its key first; the entry is pushed onto the index with no length limit and an INFO line logged; when the index cannot be read the report stays stored, the index is unchanged and an ERROR line is logged |
| TestLog.TestLogger.ExportLogs | tests/office-skills/test-runner/TestLogger.ts:111-113 | the export joins the lines with newlines; a single line is exported as itself |
| TestLog.TestLogger.ClearLogs | tests/office-skills/test-runner/TestLogger.ts:118-120 | no lines remain |
| TestLog.ExportHoldsEveryLine | tests/office-skills/test-runner/TestLogger.ts:111-113 | the export contains every logged line |
| TestLog.GetErrorReports | tests/office-skills/test-runner/TestLogger.ts:125-146 | the reports are those of the index entries in index order, skipping entries whose report is gone, and none when the index is missing or unreadable |
| TestLog.ClearErrorReports | tests/office-skills/test-runner/TestLogger.ts:151-167 | with a readable index every indexed report and the index itself are removed and nothing else; otherwise nothing changes |
| TestLog.SavedReportListedLast | tests/office-skills/test-runner/TestLogger.ts:84-146 | a report saved under a new key is listed last, after everything listed before |
| TestLog.SameStampListedTwice | tests/office-skills/test-runner/TestLogger.ts:87-100 | two reports with the same timestamp share a key, so saving both lists the second one twice and the first not at all |
| Collector.ReadIndex | tests/office-skills/error-analysis/ErrorCollector.ts:153-160 | a missing or unparsable index reads as empty, a list as itself, and JSON that is not a list as unusable |
| Collector.PushCapped | tests/office-skills/error-analysis/ErrorCollector.ts:19-32 | the new entry ends the index; below 1000 entries it is simply appended, otherwise the oldest entry is dropped, so a bounded index stays bounded |
| Collector.SaveErrorReport | tests/office-skills/error-analysis/ErrorCollector.ts:13-38 | the report is stored under its key; a readable index gets the entry and past 1000 entries loses its oldest entry and that entry's report; an unusable index leaves the index as it was |
| Collector.SavedIsIndexed | tests/office-skills/error-analysis/ErrorCollector.ts:15-26 | the entry just pushed is in the index after the cap, under the report's key |
| Collector.GetAllReports | tests/office-skills/error-analysis/ErrorCollector.ts:43-62 | the listing is the stored reports the index names, sorted by parsed timestamp, newest first |
| Collector.AllReportsNewestFirst | tests/office-skills/error-analysis/ErrorCollector.ts:43-62 | `AllReports`: the listing is ordered newest first, is a permutation of the indexed stored reports, and keeps index order among equal times |
| Collector.Filter | tests/office-skills/error-analysis/ErrorCollector.ts:68 | the filtered listing holds exactly the reports that pass the test and is no longer than the input |
| Collector.GetReportsByHost | tests/office-skills/error-analysis/ErrorCollector.ts:67-69 | exactly the listed reports of the given host |
| Collector.GetReportsByErrorType | tests/office-skills/error-analysis/ErrorCollector.ts:74-76 | exactly the listed reports of the given error type |
| Collector.GetReportsByTimeRange | tests/office-skills/error-analysis/ErrorCollector.ts:81-86 | exactly the listed reports whose time lies within the range, both ends included |
| Collector.ClearAllReports | tests/office-skills/error-analysis/ErrorCollector.ts:91-102 | with a usable index every indexed report and then the index are removed and nothing else; JSON that is not a list changes nothing |
| Collector.ErrorTypes | tests/office-skills/error-analysis/ErrorCollector.ts:132 | the error type of each report, in order |
| Collector.HostTypes | tests/office-skills/error-analysis/ErrorCollector.ts:135 | the host of each report, in order |
| Collector.CountSince | tests/office-skills/error-analysis/ErrorCollector.ts:138-144 | the number of reports no older than the cut-off is at most the number of reports |
| Collector.CountSinceMonotone | tests/office-skills/error-analysis/ErrorCollector.ts:139-143 | a later cut-off never counts more reports |
| Collector.Count | tests/office-skills/error-analysis/ErrorCollector.ts:118-147 | the counting loop gives the total, the per-type and per-host counts, and the reports of the last 24 hours and the last 7 days |
| Collector.GetStatistics | tests/office-skills/error-analysis/ErrorCollector.ts:115-148 | the statistics are those counted over the listing |
| Collector.StatisticsConsistent | tests/office-skills/error-analysis/ErrorCollector.ts:118-145 | the per-type and per-host counts each add up to the total, each type's count is its number of reports, and the last day's count is within the last week's |
| Analyzer.CategoryOfId | tests/office-skills/error-analysis/ErrorAnalyzer.ts:339-346 | `ExtractCategory`: the category of an id `host-number-name` whose host and number hold no dash is the whole name, dashes included |
| Analyzer.CategoryUnknown | tests/office-skills/error-analysis/ErrorAnalyzer.ts:342-345 | an id with fewer than two dashes has the category "unknown" |
| Analyzer.WithId | tests/office-skills/error-analysis/ErrorAnalyzer.ts:121 | the reports kept have a non-empty test id |
| Analyzer.Ids | tests/office-skills/error-analysis/ErrorAnalyzer.ts:95 | the test ids of the reports that have one, in order |
| Analyzer.Categories | tests/office-skills/error-analysis/ErrorAnalyzer.ts:121-124 | the category of each report with a test id, in report order |
| Analyzer.GroupWithId | tests/office-skills/error-analysis/ErrorAnalyzer.ts:201-209 | the grouping loop groups exactly the reports with a test id by key, skipping the others |
| Analyzer.IdsMembers | tests/office-skills/error-analysis/ErrorAnalyzer.ts:95 | the ids listed are exactly the non-empty ids of the reports |
| Analyzer.WithIdMembers | tests/office-skills/error-analysis/ErrorAnalyzer.ts:121 | every report with an id is kept and no other |
| Analyzer.DistinctCount | tests/office-skills/error-analysis/ErrorAnalyzer.ts:95 | the size of the set of ids is the length of their duplicate-free list |
| Analyzer.EarliestTime | tests/office-skills/error-analysis/ErrorAnalyzer.ts:102 | the earliest time is no later than any report's and is some report's |
| Analyzer.LatestTime | tests/office-skills/error-analysis/ErrorAnalyzer.ts:103 | the latest time is no earlier than any report's and is some report's |
| Analyzer.GenerateSummary | tests/office-skills/error-analysis/ErrorAnalyzer.ts:84-106 | no reports give zero counts and an empty range; otherwise the number of reports, the number of distinct non-empty ids, and the range from the earliest to the latest report |
| Analyzer.TopsOf | tests/office-skills/error-analysis/ErrorAnalyzer.ts:141-146 | one top entry per message group, in group order |
| Analyzer.GenerateStatistics | tests/office-skills/error-analysis/ErrorAnalyzer.ts:111-156 | the loop counts the reports per error type, per category of the reports with an id, and per message, then keeps the ten most frequent messages |
| Analyzer.CategoryCounts | tests/office-skills/error-analysis/ErrorAnalyzer.ts:121-124 | the category counts add up to the number of reports with an id, each category counted as often as it occurs |
| Analyzer.TopErrorsOrdered | tests/office-skills/error-analysis/ErrorAnalyzer.ts:141-148 | the top list holds at most ten messages, most frequent first |
| Analyzer.TopErrorOf | tests/office-skills/error-analysis/ErrorAnalyzer.ts:127-146 | a top entry counts the reports with its message, at least one, and lists their distinct non-empty ids without repetition |
| Analyzer.Messages | tests/office-skills/error-analysis/ErrorAnalyzer.ts:172 | the message of each report, in order |
| Analyzer.Frequent | tests/office-skills/error-analysis/ErrorAnalyzer.ts:211-212 | exactly the groups with at least three reports, in order |
| Analyzer.FrequencyPatterns | tests/office-skills/error-analysis/ErrorAnalyzer.ts:216-224 | one HighFrequency pattern per frequent test id, in order |
| Analyzer.IdentifyPatterns | tests/office-skills/error-analysis/ErrorAnalyzer.ts:161-227 | the three type filters, the grouping loop and the loop pushing frequent test ids give the specified patterns |
| Analyzer.TypePatternFound | tests/office-skills/error-analysis/ErrorAnalyzer.ts:164-198 | a type pattern is produced exactly when that type occurs; it counts the reports of the type, names their distinct non-empty ids and quotes the messages of at most the first three |
| Analyzer.HighFrequencyShape | tests/office-skills/error-analysis/ErrorAnalyzer.ts:211-214 | at most five frequent test ids, most reports first, each with a non-empty id, at least three reports and exactly the reports of that id |
| Analyzer.FrequentGroup | tests/office-skills/error-analysis/ErrorAnalyzer.ts:201-212 | a frequent group has a non-empty id, at least three reports and exactly that id's reports |
| Analyzer.AdvisePatterns | tests/office-skills/error-analysis/ErrorAnalyzer.ts:237-267 | the loop over the patterns pushes the advice of each pattern that has advice, in order |
| Analyzer.AdviseCategories | tests/office-skills/error-analysis/ErrorAnalyzer.ts:271-281 | the loop over the category counts pushes advice for each category with at least five errors, in order |
| Analyzer.GenerateRecommendations | tests/office-skills/error-analysis/ErrorAnalyzer.ts:232-287 | advice per pattern, then per busy category, then the stable sort by priority, as specified |
| Analyzer.RecommendationsRanked | tests/office-skills/error-analysis/ErrorAnalyzer.ts:283-286 | `Rank`: high comes before medium before low, the list is a permutation of the pattern and category advice, and advice of one priority keeps the order it was produced in |
| Analyzer.CategoryAdviceFor | tests/office-skills/error-analysis/ErrorAnalyzer.ts:271-281 | exactly the categories with at least five errors get advice, with their count |
| Analyzer.CategoryRecommended | tests/office-skills/error-analysis/ErrorAnalyzer.ts:271-281 | a category is recommended with a count exactly when that many reports with an id, at least five, fall into it |
| Analyzer.CategoryAdviceNotPattern | tests/office-skills/error-analysis/ErrorAnalyzer.ts:237-281 | category advice never coincides with pattern advice |
| Analyzer.AdviceDetermines | tests/office-skills/error-analysis/ErrorAnalyzer.ts:238-266 | the advice names its error type and its count: the three areas differ and the count is carried |
| Analyzer.FrequencyPatternsNamed | tests/office-skills/error-analysis/ErrorAnalyzer.ts:218 | a frequent-test pattern's name starts with `HighFrequency:` |
| Analyzer.PatternOfKind | tests/office-skills/error-analysis/ErrorAnalyzer.ts:164-218 | `Patterns`: the only pattern named after one of the three error types is that type's pattern |
| Analyzer.AdviceNotInCategories | tests/office-skills/error-analysis/ErrorAnalyzer.ts:238-281 | no category advice is the advice for one of the three error types |
| Analyzer.TypeAdvised | tests/office-skills/error-analysis/ErrorAnalyzer.ts:237-267 | the advice for one of the three error types is recommended with count n exactly when n reports, at least one, have that type |
| Analyzer.AdviceOfMember | tests/office-skills/error-analysis/ErrorAnalyzer.ts:237-267 | a pattern that has advice contributes it |
| Analyzer.AreasOf | tests/office-skills/error-analysis/ErrorAnalyzer.ts:318-331 | one area per category group, in group order |
| Analyzer.IdentifyProblematicAreas | tests/office-skills/error-analysis/ErrorAnalyzer.ts:292-334 | the grouping loop over reports with an id, the loop building areas and the sort give the specified areas |
| Analyzer.AreasShape | tests/office-skills/error-analysis/ErrorAnalyzer.ts:318-333 | areas come with most errors first; each counts exactly its category's reports, at least one, and its top messages are at most five, most frequent first, each with its number of occurrences |
| Analyzer.TopMessages | tests/office-skills/error-analysis/ErrorAnalyzer.ts:320-323 | the top messages of an area are the five most frequent, with their counts |
| Analyzer.Analyze | tests/office-skills/error-analysis/ErrorAnalyzer.ts:57-63 | the analysis is the summary, statistics, patterns, recommendations and areas of the reports |
| Analyzer.AnalyzeAll | tests/office-skills/error-analysis/ErrorAnalyzer.ts:54-64 | the analysis of every listed report |
| Analyzer.AnalyzeByHost | tests/office-skills/error-analysis/ErrorAnalyzer.ts:69-79 | the analysis of the listed reports of one host |
| Analyzer.PatternAdviceMembers | tests/office-skills/error-analysis/ErrorAnalyzer.ts:237-267 | a recommendation is pattern advice exactly when some pattern's advice is it |
| Analyzer.AdviceNotCategory | tests/office-skills/error-analysis/ErrorAnalyzer.ts:237-281 | no advice for a pattern is ever a category recommendation |
| Analyzer.AdvisedOnlyIfFound | tests/office-skills/error-analysis/ErrorAnalyzer.ts:237-267 | advice for one of the three error types with count n is recommended only when n reports, at least one, have that type |
| Analyzer.AdvisedIfFound | tests/office-skills/error-analysis/ErrorAnalyzer.ts:237-267 | when n reports, at least one, have one of the three error types, its advice with count n is recommended |
| TestCaseGen.NextHeading | tests/office-skills/scripts/generate-test-cases.ts:47 | the first `## ` heading at or after a position, and no heading before it |
| TestCaseGen.Pieces | tests/office-skills/scripts/generate-test-cases.ts:47 | the split has at least one piece and no piece holds a heading after its first character |
| TestCaseGen.NonBlank | tests/office-skills/scripts/generate-test-cases.ts:47 | the pieces kept are non-blank pieces of the split, in order |
| TestCaseGen.SectionsShape | tests/office-skills/scripts/generate-test-cases.ts:47 | every section is non-blank and holds no `## ` heading after its first character |
| TestCaseGen.FirstLine | tests/office-skills/scripts/generate-test-cases.ts:50-51 | the first line of a section is its title line however the section goes on |
| TestCaseGen.CategoryOfTemplateTitle | tests/office-skills/scripts/generate-test-cases.ts:51 | a title ending in 模板 names the category before it, trimmed |
| TestCaseGen.CategoryOfPlainTitle | tests/office-skills/scripts/generate-test-cases.ts:51 | a clean title not ending in 模板 is the category as it stands |
| TestCaseGen.Pending | tests/office-skills/scripts/generate-test-cases.ts:64-71 | a flush pushes the pending template exactly when it has a name and at least one code line |
| TestCaseGen.Finish | tests/office-skills/scripts/generate-test-cases.ts:65-69 | one finished template per pushed one, code joined by newlines and trimmed |
| TestCaseGen.SectionTemplatesNamed | tests/office-skills/scripts/generate-test-cases.ts:49-96 | every template of a section carries the section's category and a non-empty name |
| TestCaseGen.CollectRun | tests/office-skills/scripts/generate-test-cases.ts:84-86 | while collecting, text lines are appended one by one and nothing else changes |
| TestCaseGen.BlockRun | tests/office-skills/scripts/generate-test-cases.ts:62-86 | a heading with a fenced block flushes the pending template and leaves its own pending |
| TestCaseGen.RenderRun | tests/office-skills/scripts/generate-test-cases.ts:58-87 | blocks with names and code leave the last one pending and every earlier one pushed, in document order |
| TestCaseGen.SectionRoundTrip | tests/office-skills/scripts/generate-test-cases.ts:49-96 | a section made of a title line and well-formed blocks yields exactly one template per block, in order, with its name and its code |
| TestCaseGen.CodeBeforeFirstHeading | tests/office-skills/scripts/generate-test-cases.ts:62-86 | code fenced before the first heading is kept and becomes the start of the first template's code |
| TestCaseGen.ParseSection | tests/office-skills/scripts/generate-test-cases.ts:49-96 | the line loop of one section appends exactly the section's templates |
| TestCaseGen.ParseSections | tests/office-skills/scripts/generate-test-cases.ts:49-97 | the loop over the sections yields the templates of each section in order |
| TestCaseGen.ParseTools | tests/office-skills/scripts/generate-test-cases.ts:43-100 | `parseToolsFile` cuts the file into sections and parses each, as specified |
| TestCaseBuild.Number | tests/office-skills/scripts/generate-test-cases.ts:110 | the position is written with at least three digits |
| TestCaseBuild.NumberReadsBack | tests/office-skills/scripts/generate-test-cases.ts:110 | the zero-padded number reads back as the one-based position |
| TestCaseBuild.Dashed | tests/office-skills/scripts/generate-test-cases.ts:110 | every run of white space becomes one dash, so the slug holds no white space and is no longer than the name |
| TestCaseBuild.DashedPlain | tests/office-skills/scripts/generate-test-cases.ts:110 | a name without white space is its own slug |
| TestCaseBuild.TestIdCategory | tests/office-skills/scripts/generate-test-cases.ts:110 | the error analyser reads a generated id back as the slug of the template name, not the template's category |
| TestCaseBuild.IdNumber | tests/office-skills/scripts/generate-test-cases.ts:110 | the second dash-separated field of an id is its number |
| TestCaseBuild.TestIdsDistinct | tests/office-skills/scripts/generate-test-cases.ts:110 | ids of different positions differ whatever the names |
| TestCaseBuild.Get | tests/office-skills/scripts/generate-test-cases.ts:340 | a record lookup misses exactly when no entry has the key |
| TestCaseBuild.GetLast | tests/office-skills/scripts/generate-test-cases.ts:142-337 | a key's value is the one its last entry gives |
| TestCaseBuild.GetAppend | tests/office-skills/scripts/generate-test-cases.ts:142-337 | entries listed later overwrite the keys they list |
| TestCaseBuild.GetWithout | tests/office-skills/scripts/generate-test-cases.ts:340 | removing one key leaves every other lookup as it was |
| TestCaseBuild.UserInputIn | tests/office-skills/scripts/generate-test-cases.ts:339-340 | the prompt is never empty |
| TestCaseBuild.UnlistedPrompt | tests/office-skills/scripts/generate-test-cases.ts:340 | a name neither key of which the table lists gets the generic prompt |
| TestCaseBuild.HostKeyFirst | tests/office-skills/scripts/generate-test-cases.ts:339-340 | the host-specific entry wins over the bare name |
| TestCaseBuild.UserInput | tests/office-skills/scripts/generate-test-cases.ts:141-341 | `generateUserInput` with the host key spelled as the table spells it never returns an empty prompt |
| TestCaseBuild.PptKeysIgnored | tests/office-skills/scripts/generate-test-cases.ts:339-340 | as written, removing a `ppt:` entry never changes a PowerPoint prompt |
| TestCaseBuild.PptKeysUsed | tests/office-skills/scripts/generate-test-cases.ts:300-340 | with the table's own prefix, a `ppt:` entry is the PowerPoint prompt |
| TestCaseBuild.PptTableEntry | tests/office-skills/scripts/generate-test-cases.ts:304 | the table lists a `ppt:` prompt for the table template |
| TestCaseBuild.InputsLastWins | tests/office-skills/scripts/generate-test-cases.ts:249-332 | a name listed twice takes the later value |
| TestCaseBuild.ExpectedBehaviorIn | tests/office-skills/scripts/generate-test-cases.ts:368-369 | the expected behaviour is never empty |
| TestCaseBuild.CategoryKeyFirst | tests/office-skills/scripts/generate-test-cases.ts:368-369 | the category-qualified entry wins over the bare name |
| TestCaseBuild.UnlistedBehavior | tests/office-skills/scripts/generate-test-cases.ts:369 | a name neither key of which the table lists gets the generic behaviour |
| TestCaseBuild.ExpectedBehavior | tests/office-skills/scripts/generate-test-cases.ts:346-370 | `generateExpectedBehavior` never returns an empty text |
| TestCaseBuild.ExcelTableBehavior | tests/office-skills/scripts/generate-test-cases.ts:357 | an Excel table template is expected to turn the range into a table |
| TestCaseBuild.ValidationSteps | tests/office-skills/scripts/generate-test-cases.ts:375-382 | exactly four steps, the three fixed checks and then one naming the test |
| TestCaseBuild.DeterminePriority | tests/office-skills/scripts/generate-test-cases.ts:387-402 | high exactly when the category is listed or the name contains one of the keywords, otherwise medium, never low |
| TestCaseBuild.FileTablesUsed | tests/office-skills/scripts/generate-test-cases.ts:113-116 | corrected: with the PowerPoint keys read under `ppt`; with the generator's own tables a case's prompt and behaviour are those of the two generators |
| TestCaseBuild.GenerateTestCase | tests/office-skills/scripts/generate-test-cases.ts:105-136 | corrected: with the PowerPoint keys read under `ppt`; the case built from a template at a position, as specified |
| TestCaseBuild.CaseBuilt | tests/office-skills/scripts/generate-test-cases.ts:105-136 | corrected: with the PowerPoint keys read under `ppt`; every field of a case is drawn from its template and position, the description is the prompt, and the priority is set and never low |
| TestCaseBuild.Cases | tests/office-skills/scripts/generate-test-cases.ts:417-419 | one case per template |
| TestCaseBuild.CasesAt | tests/office-skills/scripts/generate-test-cases.ts:417-419 | the case at each position is built from the template there with that index |
| TestCaseBuild.GenerateTestCases | tests/office-skills/scripts/generate-test-cases.ts:417-419 | corrected: with the PowerPoint keys read under `ppt`; the loop builds the case of each template in order |
| TestCaseBuild.IdsDistinct | tests/office-skills/scripts/generate-test-cases.ts:110-419 | the cases of a suite have pairwise different ids |
| TestTypes.ReportKeyIsNotIndexKey | tests/office-skills/test-runner/TestLogger.ts:87-91 | no report key `error-report-<timestamp>` is the index key `error-reports-index`, so saving a report never overwrites the index |
| TestTypes.ReportStorage.constructor | tests/office-skills/test-runner/TestLogger.ts:89-92 | fresh storage holds no reports and no index |
| TestTypes.KeysOf | tests/office-skills/test-runner/TestLogger.ts:134-135 | every key the index names is among its keys |
| TestTypes.Indexed | tests/office-skills/test-runner/TestLogger.ts:134-139 | the reports listed are at most one per index entry |
| TestTypes.IndexedStored | tests/office-skills/test-runner/TestLogger.ts:134-139 | every listed report is stored under some key the index names |
| TestTypes.IndexedUnchanged | tests/office-skills/test-runner/TestLogger.ts:134-139 | writing a key the index does not name changes nothing listed |
| TestTypes.IndexedWithout | tests/office-skills/test-runner/TestLogger.ts:134-139 | removing a key the index does not name changes nothing listed |
| TestTypes.IndexedAppend | tests/office-skills/test-runner/TestLogger.ts:134-139 | an entry appended to the index lists its report after the others, when the report is stored |
| TestTypes.KeysOfMembers | tests/office-skills/test-runner/TestLogger.ts:134-135 | a key is among the index's keys exactly when some entry names it |
| ExcelRangeCodegen.LoadList | src/lib/office/codegen/excel/range-actions.ts:13-15 | the four basic properties first, then `formulas` exactly when formulas are asked for and `numberFormat` exactly when the format is |
| ExcelRangeCodegen.GenerateReadCode | src/lib/office/codegen/excel/range-actions.ts:8-33 | the conditional pushes build the load list of the specification, and the code is its template |
| ExcelRangeCodegen.ReadCodeLoads | src/lib/office/codegen/excel/range-actions.ts:17-32 | the read code addresses the requested range and loads exactly the requested properties |
| ExcelRangeCodegen.ReadSelectionCode | src/lib/office/codegen/excel/range-actions.ts:38-52 | the selected range is loaded with the four basic properties |
| ExcelRangeCodegen.AutoExpand | src/lib/office/codegen/excel/range-actions.ts:63 | expansion is off exactly when `autoExpand` is `false` |
| ExcelRangeCodegen.ColumnCount | src/lib/office/codegen/excel/range-actions.ts:73 | the column count is the first row's length, 0 without rows |
| ExcelRangeCodegen.WriteCode | src/lib/office/codegen/excel/range-actions.ts:57-90 | the code assigns the values as their JSON text |
| ExcelRangeCodegen.WriteCodeResizes | src/lib/office/codegen/excel/range-actions.ts:70-77 | unless `autoExpand` is `false` the code states the data's row and column counts and resizes the range to them |
| ExcelRangeCodegen.WriteWithoutExpand | src/lib/office/codegen/excel/range-actions.ts:70-77 | with `autoExpand: false` the template is seven lines shorter, and leaving it out is the same as `true` |
| ExcelRangeCodegen.UnderlineValue | src/lib/office/codegen/excel/range-actions.ts:107 | a set underline is written `"Single"`, an unset one `"None"` |
| ExcelRangeCodegen.FontSteps | src/lib/office/codegen/excel/range-actions.ts:101-109 | only font statements, none without a font |
| ExcelRangeCodegen.FillSteps | src/lib/office/codegen/excel/range-actions.ts:111-113 | the fill statement is pushed exactly for a non-empty colour |
| ExcelRangeCodegen.BorderSteps | src/lib/office/codegen/excel/range-actions.ts:115-126 | with a style, colour or weight set, the edge list and loop open the block and its end closes it; otherwise nothing |
| ExcelRangeCodegen.TailSteps | src/lib/office/codegen/excel/range-actions.ts:128-138 | only number-format and alignment statements |
| ExcelRangeCodegen.FormatHead | src/lib/office/codegen/excel/range-actions.ts:141-144 | the four lines before the statements: the worksheet and range lookups |
| ExcelRangeCodegen.PushFont | src/lib/office/codegen/excel/range-actions.ts:101-109 | the font pushes produce the font block of the specification |
| ExcelRangeCodegen.PushBorders | src/lib/office/codegen/excel/range-actions.ts:115-126 | the border pushes produce the border block of the specification |
| ExcelRangeCodegen.PushTail | src/lib/office/codegen/excel/range-actions.ts:128-138 | the number-format and alignment pushes produce the tail of the specification |
| ExcelRangeCodegen.GenerateFormatCode | src/lib/office/codegen/excel/range-actions.ts:95-151 | the statements pushed field by field, in the source's order, inside the template |
| ExcelRangeCodegen.FontNameStep | src/lib/office/codegen/excel/range-actions.ts:103 | the name is set exactly when it is a non-empty string |
| ExcelRangeCodegen.FontSizeStep | src/lib/office/codegen/excel/range-actions.ts:104 | the size is set exactly when it is a non-zero number |
| ExcelRangeCodegen.FontBoldItalicSteps | src/lib/office/codegen/excel/range-actions.ts:105-106 | bold and italic are set whenever defined, `false` included |
| ExcelRangeCodegen.FontUnderlineColorSteps | src/lib/office/codegen/excel/range-actions.ts:107-108 | underline is set whenever defined, the colour only when non-empty |
| ExcelRangeCodegen.NumberFormatStep | src/lib/office/codegen/excel/range-actions.ts:128-130 | the number format is set exactly when non-empty |
| ExcelRangeCodegen.AlignmentSteps | src/lib/office/codegen/excel/range-actions.ts:132-138 | each alignment is set exactly when given |
| ExcelRangeCodegen.BorderStyleColorSteps | src/lib/office/codegen/excel/range-actions.ts:121-122 | the border style and colour are set exactly when non-empty |
| ExcelRangeCodegen.BorderWeightStep | src/lib/office/codegen/excel/range-actions.ts:123 | the border weight is set exactly when non-empty |
| ExcelRangeCodegen.FontStepPlanned | src/lib/office/codegen/excel/range-actions.ts:99-138 | a font statement is in the plan exactly when it is in the font block |
| ExcelRangeCodegen.FillStepPlanned | src/lib/office/codegen/excel/range-actions.ts:99-138 | a fill statement is in the plan exactly when it is in the fill block |
| ExcelRangeCodegen.BorderStepPlanned | src/lib/office/codegen/excel/range-actions.ts:99-138 | a border statement is in the plan exactly when it is in the border block |
| ExcelRangeCodegen.TailStepPlanned | src/lib/office/codegen/excel/range-actions.ts:99-138 | a tail statement is in the plan exactly when it is in the tail |
| ExcelRangeCodegen.BorderLoopPlanned | src/lib/office/codegen/excel/range-actions.ts:117-125 | the border loop and its end are emitted exactly when a style, colour or weight is set |
| ExcelRangeCodegen.AlignmentSpelling | src/lib/office/codegen/excel/range-actions.ts:133-137 | alignments are spelled in lower case |
| ExcelRangeCodegen.FormatCodeHasSteps | src/lib/office/codegen/excel/range-actions.ts:145 | every planned statement reaches the generated code |
| ExcelRangeCodegen.ClearMethod | src/lib/office/codegen/excel/range-actions.ts:157-160 | the clear call names the requested part, `all` by default |
| ExcelRangeCodegen.ClearCode | src/lib/office/codegen/excel/range-actions.ts:156-171 | the code clears the requested part of the addressed range |
| ExcelRangeCodegen.CopyMethod | src/lib/office/codegen/excel/range-actions.ts:177-180 | the copy type names the requested kind, `all` by default |
| ExcelRangeCodegen.CopyCodeAsWritten | src/lib/office/codegen/excel/range-actions.ts:182-192 | as written, the source range is the receiver of `copyFrom` |
| ExcelRangeCodegen.CopyAsWrittenReversed | src/lib/office/codegen/excel/range-actions.ts:188 | as written the copy writes the destination's cells onto the source, never onto a distinct destination |
| ExcelRangeCodegen.CopyCode | src/lib/office/codegen/excel/range-actions.ts:176-193 | corrected: the destination range receives the copy |
| ExcelRangeCodegen.CopyCodeTransfers | src/lib/office/codegen/excel/range-actions.ts:188 | the corrected call reads the source and writes the destination |
| ExcelRangeCodegen.ShiftValue | src/lib/office/codegen/excel/range-actions.ts:202-209 | down and right map to insert directions, up and left to delete directions |
| ExcelRangeCodegen.SchemaShiftsMatch | src/lib/office/codegen/excel/range-actions.ts:202-207 | the shifts the schema offers for an insert or a delete select directions of that kind |
| ExcelRangeCodegen.Operation | src/lib/office/codegen/excel/range-actions.ts:210 | `insert(...)` for an insert and `delete(...)` for a delete, with the mapped direction |
| ExcelRangeCodegen.InsertDeleteCode | src/lib/office/codegen/excel/range-actions.ts:198-221 | the addressed range is inserted or deleted with the mapped direction |
| ExcelWorksheetCodegen.ListCode | src/lib/office/codegen/excel/worksheet-actions.ts:8-27 | the code loads name, id, position and visibility of every sheet and reports them with their count |
| ExcelWorksheetCodegen.AddPositionType | src/lib/office/codegen/excel/worksheet-actions.ts:37-39 | the position type is the requested position, `end` when none is given |
| ExcelWorksheetCodegen.AddBranches | src/lib/office/codegen/excel/worksheet-actions.ts:37-81 | the branch is decided by the position type: `before` and `after` refer to a sheet, `start` and `end` do not |
| ExcelWorksheetCodegen.ExistingGuard | src/lib/office/codegen/excel/worksheet-actions.ts:44-55 | the sixteen lines both branches open with, refusing an existing name |
| ExcelWorksheetCodegen.ReferenceSteps | src/lib/office/codegen/excel/worksheet-actions.ts:57-66 | the reference-sheet steps appear only in the `before`/`after` branch |
| ExcelWorksheetCodegen.AddRefusesExisting | src/lib/office/codegen/excel/worksheet-actions.ts:32-111 | both branches open by refusing a name already taken, with 工作表已存在, and then add the sheet at the chosen position type |
| ExcelWorksheetCodegen.AddLooksUpReference | src/lib/office/codegen/excel/worksheet-actions.ts:57-66 | the `before`/`after` branch looks the reference sheet up and fails on a missing one, looking up the empty name when none is given |
| ExcelWorksheetCodegen.DeleteCode | src/lib/office/codegen/excel/worksheet-actions.ts:116-138 | the code deletes the sheet, or fails with 工作表不存在 when no sheet has that name |
| ExcelWorksheetCodegen.RenameCode | src/lib/office/codegen/excel/worksheet-actions.ts:143-166 | the code renames the sheet found under the old name, or fails when there is none |
| ExcelWorksheetCodegen.ExistsCode | src/lib/office/codegen/excel/worksheet-actions.ts:171-183 | the code reports whether the lookup found a sheet, without failing |
| ExcelWorksheetCodegen.ActivateCode | src/lib/office/codegen/excel/worksheet-actions.ts:188-210 | the code activates the sheet, or fails with 工作表不存在 when there is none |
| ExcelWorksheetCodegen.CopyPositionType | src/lib/office/codegen/excel/worksheet-actions.ts:216 | the copy goes before the source only when asked, after it otherwise |
| ExcelWorksheetCodegen.CopyCode | src/lib/office/codegen/excel/worksheet-actions.ts:215-243 | the code copies the source sheet next to itself at the chosen side, names the copy, and fails with 源工作表不存在 when the source is missing |
| ExcelTableCodegen.TableChecked | src/lib/office/codegen/excel/table-actions.ts:43-54 | a template opening with the table guard looks the table up and fails with 表格不存在 on a missing table before anything else |
| ExcelTableCodegen.TableName | src/lib/office/codegen/excel/table-actions.ts:14 | a given non-empty name is used, otherwise `Table` and the clock reading |
| ExcelTableCodegen.TableNameClock | src/lib/office/codegen/excel/table-actions.ts:14 | a given name makes the clock irrelevant; without one, two different readings name two different tables |
| ExcelTableCodegen.StyleLine | src/lib/office/codegen/excel/table-actions.ts:24 | the style line is empty exactly when no style is given |
| ExcelTableCodegen.CreateNamesTable | src/lib/office/codegen/excel/table-actions.ts:8-34 | the range becomes a table with the header flag and the chosen name; the style slot is blank exactly when no style is given |
| ExcelTableCodegen.CreateStyled | src/lib/office/codegen/excel/table-actions.ts:24 | with a style, its line sets the table style |
| ExcelTableCodegen.HeaderLines | src/lib/office/codegen/excel/table-actions.ts:59-62 | the header slot holds the header-row load when headers are read, else one blank line |
| ExcelTableCodegen.ReadHeaders | src/lib/office/codegen/excel/table-actions.ts:39-73 | reading fails on a missing table, and otherwise loads and returns the header row unless `includeHeaders` is `false` |
| ExcelTableCodegen.ReadWithoutHeaders | src/lib/office/codegen/excel/table-actions.ts:59-68 | `includeHeaders: false` drops the header load and blanks the `headers` field; leaving it out is the same as `true` |
| ExcelTableCodegen.IndexParam | src/lib/office/codegen/excel/table-actions.ts:84 | the index as a number when given, `null` otherwise |
| ExcelTableCodegen.AddRowCode | src/lib/office/codegen/excel/table-actions.ts:78-108 | the code fails on a missing table, and otherwise adds the row at the index, or at the end for `null` |
| ExcelTableCodegen.AddColumnCode | src/lib/office/codegen/excel/table-actions.ts:113-140 | the code fails on a missing table, and otherwise appends the named column |
| ExcelTableCodegen.ColumnAfterTable | src/lib/office/codegen/excel/table-actions.ts:150-171 | the table guard comes first and the column guard after it |
| ExcelTableCodegen.SortCode | src/lib/office/codegen/excel/table-actions.ts:145-184 | the code fails on a missing column and otherwise sorts on the column's index in the requested direction |
| ExcelTableCodegen.FilterCode | src/lib/office/codegen/excel/table-actions.ts:189-227 | the code fails on a missing column and otherwise turns the auto-filter on for the whole table |
| ExcelTableCodegen.FilterIgnoresCriteria | src/lib/office/codegen/excel/table-actions.ts:189-227 | the criteria never reach the generated code |
| ExcelTableCodegen.DeleteCode | src/lib/office/codegen/excel/table-actions.ts:232-254 | the code deletes the table, or fails when there is none of that name |
| ExcelChartCodegen.ChartPlace | src/lib/office/codegen/excel/chart-actions.ts:14 | the given position, or (200, 100) when none is given |
| ExcelChartCodegen.TitleLine | src/lib/office/codegen/excel/chart-actions.ts:29 | the title line is empty exactly when no title is given |
| ExcelChartCodegen.CreatePlacesChart | src/lib/office/codegen/excel/chart-actions.ts:8-39 | the chart is built from the range with the chart type as an `Excel.ChartType` member and placed at the chosen position; the title slot is blank exactly when there is no title |
| ExcelChartCodegen.CreateTitled | src/lib/office/codegen/excel/chart-actions.ts:29 | with a title, its line sets the chart title |
| ExcelChartCodegen.CreateDefaultPosition | src/lib/office/codegen/excel/chart-actions.ts:14-28 | without a position the chart goes to (200, 100) |
| ExcelChartCodegen.CreateSchemaType | src/lib/office/codegen/excel/chart-actions.ts:23 | a chart type the schema accepts reads back as itself and is embedded under its own name |
| ExcelChartCodegen.DataLines | src/lib/office/codegen/excel/chart-actions.ts:53-56 | the data slot holds the new range and `setData` when a range is given, else one blank line |
| ExcelChartCodegen.UpdateCode | src/lib/office/codegen/excel/chart-actions.ts:44-64 | the code looks up the chart by its id |
| ExcelChartCodegen.UpdateSetsData | src/lib/office/codegen/excel/chart-actions.ts:53-56 | an update re-points the chart at the new range exactly when one is given, and otherwise is the update without a range |
| ExcelChartCodegen.SetTitleCode | src/lib/office/codegen/excel/chart-actions.ts:69-85 | the code sets the title of the chart with that id |
| ExcelChartCodegen.DeleteCode | src/lib/office/codegen/excel/chart-actions.ts:90-104 | the code deletes the chart with that id and reports the id |
| WordDocumentCodegen.MaxLength | src/lib/office/codegen/word/document-actions.ts:12 | a given non-zero length is used, otherwise 10000 |
| WordDocumentCodegen.MaxLengthDefault | src/lib/office/codegen/word/document-actions.ts:12 | an absent or zero length means 10000 characters |
| WordDocumentCodegen.ReadCode | src/lib/office/codegen/word/document-actions.ts:8-36 | the code cuts a body longer than the maximum to that many characters and marks it truncated |
| WordDocumentCodegen.TruncatedBounds | src/lib/office/codegen/word/document-actions.ts:20-23 | `Truncated`: a body no longer than the maximum comes back whole; a longer one is its first maximum characters plus the 15-character marker |
| WordDocumentCodegen.ReadSelectionCode | src/lib/office/codegen/word/document-actions.ts:41-61 | the code loads the selection's text and style and five font properties |
| WordDocumentCodegen.Flag | src/lib/office/codegen/word/document-actions.ts:74-75 | only an explicit `true` turns an option on |
| WordDocumentCodegen.SearchCode | src/lib/office/codegen/word/document-actions.ts:66-99 | the code searches for the text with its quotes escaped and both options off unless set |
| WordDocumentCodegen.SearchDefaults | src/lib/office/codegen/word/document-actions.ts:74-75 | leaving the options out is the same as turning them off |
| WordDocumentCodegen.ReplaceSteps | src/lib/office/codegen/word/document-actions.ts:120-132 | the replacement slot has seven lines in either branch |
| WordDocumentCodegen.ReplaceScope | src/lib/office/codegen/word/document-actions.ts:104-140 | with `replaceAll` the code replaces every match; otherwise only the first, when there is one |
| WordDocumentCodegen.ClearCode | src/lib/office/codegen/word/document-actions.ts:145-156 | the code empties the body with `body.clear()` |
| WordDocumentCodegen.ClearIsRisky | src/lib/office/codegen/word/document-actions.ts:149 | the complexity gate flags the clear script for its high-risk `body.clear()` and warns about it |
| WordParagraphCodegen.UnderlineType | src/lib/office/codegen/word/paragraph-actions.ts:203 | `single` for a set underline, `none` otherwise |
| WordParagraphCodegen.Texts | src/lib/office/codegen/word/paragraph-actions.ts:188-213 | one statement text per planned step, on the given target |
| WordParagraphCodegen.FontSteps | src/lib/office/codegen/word/paragraph-actions.ts:196-206 | only font statements, none without a font |
| WordParagraphCodegen.SpacingStepsAsWritten | src/lib/office/codegen/word/paragraph-actions.ts:208-213 | as written, the spacing block pushes only spacing statements |
| WordParagraphCodegen.SpacingSteps | src/lib/office/codegen/word/paragraph-actions.ts:208-213 | corrected, the spacing block pushes only spacing statements, each under its own name |
| WordParagraphCodegen.SpacingSwapped | src/lib/office/codegen/word/paragraph-actions.ts:210-211 | as written, the space requested before a paragraph is set after it, and the space after is set before it |
| WordParagraphCodegen.SpacingFollowsNames | src/lib/office/codegen/word/paragraph-actions.ts:210-211 | corrected, `spaceBefore` comes from `spacing.before` and `spaceAfter` from `spacing.after`, each exactly when defined |
| WordParagraphCodegen.LineSpacingStep | src/lib/office/codegen/word/paragraph-actions.ts:212 | the line spacing is set exactly when defined |
| WordParagraphCodegen.PushFont | src/lib/office/codegen/word/paragraph-actions.ts:196-206 | the font pushes produce the font block of the specification |
| WordParagraphCodegen.PushSpacing | src/lib/office/codegen/word/paragraph-actions.ts:208-213 | the spacing pushes produce the corrected spacing block |
| WordParagraphCodegen.GenerateFormatCode | src/lib/office/codegen/word/paragraph-actions.ts:185-216 | corrected: each spacing goes to the property of its own name; the pushed statements joined by a line break and two spaces |
| WordParagraphCodegen.PlanHead | src/lib/office/codegen/word/paragraph-actions.ts:188-194 | a step of neither the font nor the spacing block is planned exactly when the style or alignment push makes it |
| WordParagraphCodegen.StyleAlignmentSteps | src/lib/office/codegen/word/paragraph-actions.ts:188-194 | the style is set exactly when it is a non-empty string, the alignment exactly when given |
| WordParagraphCodegen.FontBoldStep | src/lib/office/codegen/word/paragraph-actions.ts:200 | bold is set whenever defined, `false` included |
| WordParagraphCodegen.FontItalicStep | src/lib/office/codegen/word/paragraph-actions.ts:201 | italic is set whenever defined, `false` included |
| WordParagraphCodegen.FontUnderlineStep | src/lib/office/codegen/word/paragraph-actions.ts:202-204 | underline is set whenever defined |
| WordParagraphCodegen.FontValueSteps | src/lib/office/codegen/word/paragraph-actions.ts:198-199 | the name needs a non-empty string and the size a non-zero number |
| WordParagraphCodegen.FontColorStep | src/lib/office/codegen/word/paragraph-actions.ts:205 | the colour is set exactly when non-empty |
| WordParagraphCodegen.FontStepPlanned | src/lib/office/codegen/word/paragraph-actions.ts:185-216 | a font step is planned exactly when the font block pushes it |
| WordParagraphCodegen.SpacingStepPlanned | src/lib/office/codegen/word/paragraph-actions.ts:185-216 | a spacing step is planned exactly when the spacing block pushes it |
| WordParagraphCodegen.FormatSlot | src/lib/office/codegen/word/paragraph-actions.ts:13 | without a format the slot holds no statement |
| WordParagraphCodegen.SlotIsSnippet | src/lib/office/codegen/word/paragraph-actions.ts:20 | the slot line is exactly the joined snippet behind two spaces |
| WordParagraphCodegen.InsertFormats | src/lib/office/codegen/word/paragraph-actions.ts:8-42 | corrected: each spacing goes to the property of its own name; the paragraph goes into the body at the lower-cased location with its quotes escaped, and each planned formatter follows it; without a format the slot is blank |
| WordParagraphCodegen.IndexChecked | src/lib/office/codegen/word/paragraph-actions.ts:62-67 | every index-based template rejects an index outside the paragraph list with 段落索引越界 before anything else |
| WordParagraphCodegen.InsertAtCode | src/lib/office/codegen/word/paragraph-actions.ts:47-80 | the code checks the index, then inserts next to that paragraph at the lower-cased location |
| WordParagraphCodegen.FormatParagraphApplies | src/lib/office/codegen/word/paragraph-actions.ts:85-115 | corrected: each spacing goes to the property of its own name; the code checks the index, then applies every planned formatter to that paragraph |
| WordParagraphCodegen.DeleteCode | src/lib/office/codegen/word/paragraph-actions.ts:120-143 | the code checks the index, then deletes that paragraph |
| WordParagraphCodegen.GetCode | src/lib/office/codegen/word/paragraph-actions.ts:148-180 | the code checks the index, then reports that paragraph's text, style and font |
| WordTableCodegen.Location | src/lib/office/codegen/word/table-actions.ts:15-23 | the given location lower-cased, `end` when none is given |
| WordTableCodegen.SchemaLocations | src/lib/office/codegen/word/table-actions.ts:15-23 | both schema locations become lower-case location members, and the default is `end` |
| WordTableCodegen.DataLines | src/lib/office/codegen/word/table-actions.ts:25-33 | the data slot holds the data and a fill loop when data is given, else one blank line |
| WordTableCodegen.StyleLine | src/lib/office/codegen/word/table-actions.ts:35 | the style line is empty exactly when no style is given |
| WordTableCodegen.CreateInsertsTable | src/lib/office/codegen/word/table-actions.ts:8-58 | the table is inserted with its size at the lower-cased location; given data is filled in by a loop bounded by both dimensions, and without data the slot is blank |
| WordTableCodegen.CreateStyle | src/lib/office/codegen/word/table-actions.ts:35 | the style slot is blank exactly when no style is given, and sets the style otherwise |
| WordTableCodegen.FillBounded | src/lib/office/codegen/word/table-actions.ts:28-32 | creation never writes outside the table it made and writes every data cell that fits |
| WordTableCodegen.IndexChecked | src/lib/office/codegen/word/table-actions.ts:71-76 | every index-based template rejects a table index outside the table list with 表格索引越界 before anything else |
| WordTableCodegen.ReadCode | src/lib/office/codegen/word/table-actions.ts:63-88 | the code checks the index, then reports that table's values and size |
| WordTableCodegen.WriteCode | src/lib/office/codegen/word/table-actions.ts:93-128 | the code checks the index, then writes every cell of the data, unbounded by the table's size |
| WordTableCodegen.Placement | src/lib/office/codegen/word/table-actions.ts:153 | `start` exactly for index 0, `after` for any other |
| WordTableCodegen.InsertRowCode | src/lib/office/codegen/word/table-actions.ts:133-161 | the code checks the index, then inserts one row at the start or after |
| WordTableCodegen.InsertColumnCode | src/lib/office/codegen/word/table-actions.ts:166-194 | the code checks the index, then adds one column at the start or after |
| WordTableCodegen.RowWrappedColumnFlat | src/lib/office/codegen/word/table-actions.ts:153-186 | a row's values are wrapped once more than a column's; both take the same placement for the same index |
| WordTableCodegen.DeleteRowCode | src/lib/office/codegen/word/table-actions.ts:199-227 | the code checks the table index, not the row index, then deletes that row |
| WordTableCodegen.DeleteColumnCode | src/lib/office/codegen/word/table-actions.ts:232-259 | the code checks the table index, then deletes one column |
| WordTableCodegen.DeleteTableCode | src/lib/office/codegen/word/table-actions.ts:313-336 | the code checks the index, then deletes that table |
| WordTableCodegen.CellTexts | src/lib/office/codegen/word/table-actions.ts:270-281 | one statement text per planned cell step |
| WordTableCodegen.PushCellFont | src/lib/office/codegen/word/table-actions.ts:276-281 | the font pushes produce the cell font block of the specification |
| WordTableCodegen.CellFormatters | src/lib/office/codegen/word/table-actions.ts:270-281 | the formatter list is the shading and then the font block |
| WordTableCodegen.CellStepsPresent | src/lib/office/codegen/word/table-actions.ts:272-281 | each statement is emitted exactly when its field is present: non-empty colours, a non-zero size, a defined bold |
| WordTableCodegen.CellFontPlanned | src/lib/office/codegen/word/table-actions.ts:270-281 | a font step is planned exactly when the font block pushes it; the shading comes only from the fill |
| WordTableCodegen.CellFontValues | src/lib/office/codegen/word/table-actions.ts:278-280 | the size needs a non-zero number, bold only to be defined, the colour a non-empty string |
| WordTableCodegen.CellBordersIgnored | src/lib/office/codegen/word/table-actions.ts:264-308 | the borders never change the emitted statements |
| WordTableCodegen.FormatCellApplies | src/lib/office/codegen/word/table-actions.ts:264-308 | the code checks the table index, addresses the cell, and carries every planned statement |
| PptSlideCodegen.IndexChecked | src/lib/office/codegen/powerpoint/slide-actions.ts:37-42 | every index-based template rejects a slide index outside the slide list with 幻灯片索引越界 before anything else |
| PptSlideCodegen.SlideSelected | src/lib/office/codegen/powerpoint/slide-actions.ts:44 | every single-slide template selects the checked slide |
| PptSlideCodegen.ListCode | src/lib/office/codegen/powerpoint/slide-actions.ts:8-25 | the code reports the number of slides and every slide's index and id |
| PptSlideCodegen.ReadCode | src/lib/office/codegen/powerpoint/slide-actions.ts:30-79 | the code checks the index, selects that slide and collects the text of text boxes and geometric shapes only |
| PptSlideCodegen.AddCode | src/lib/office/codegen/powerpoint/slide-actions.ts:84-106 | the code appends a slide |
| PptSlideCodegen.AddIgnoresParams | src/lib/office/codegen/powerpoint/slide-actions.ts:84-106 | neither the layout nor the insertion point changes the code: the slide always goes at the end |
| PptSlideCodegen.DeleteCode | src/lib/office/codegen/powerpoint/slide-actions.ts:111-133 | the code checks the index, then deletes that slide |
| PptSlideCodegen.DuplicateAddsBlank | src/lib/office/codegen/powerpoint/slide-actions.ts:138-168 | duplicating checks the index, then only appends a blank slide with a note; past the check the code is the same whichever slide was named |
| PptSlideCodegen.MoveCode | src/lib/office/codegen/powerpoint/slide-actions.ts:173-183 | moving always reports failure with the unsupported message |
| PptSlideCodegen.MoveIgnoresIndices | src/lib/office/codegen/powerpoint/slide-actions.ts:173-183 | the code never depends on the indices |
| PptShapeCodegen.VerticalMember | src/lib/office/codegen/powerpoint/shape-actions.ts:322-327 | the three schema names map to their lower-case members, and anything else maps to `top` |
| PptShapeCodegen.VerticalMemberLowers | src/lib/office/codegen/powerpoint/shape-actions.ts:322-327 | every schema vertical alignment maps to its own lower-cased name |
| PptShapeCodegen.TextTexts | src/lib/office/codegen/powerpoint/shape-actions.ts:299-328 | one statement per planned text step, in order |
| PptShapeCodegen.PushFont | src/lib/office/codegen/powerpoint/shape-actions.ts:299-317 | the font pushes build exactly the planned font steps |
| PptShapeCodegen.PushLayout | src/lib/office/codegen/powerpoint/shape-actions.ts:318-328 | the alignment pushes build exactly the planned layout steps |
| PptShapeCodegen.GenerateTextFormatCode | src/lib/office/codegen/powerpoint/shape-actions.ts:296-331 | the result is the planned statements joined by a line break and two spaces |
| PptShapeCodegen.FontStepsPresent | src/lib/office/codegen/powerpoint/shape-actions.ts:299-314 | size needs a non-zero number and colour a non-empty string; bold and italic are pushed whenever defined |
| PptShapeCodegen.UnderlineStep | src/lib/office/codegen/powerpoint/shape-actions.ts:308-311 | underline is pushed whenever defined, `false` included |
| PptShapeCodegen.FontNameStep | src/lib/office/codegen/powerpoint/shape-actions.ts:315-317 | the font name is pushed exactly when it is a non-empty string |
| PptShapeCodegen.AlignmentSteps | src/lib/office/codegen/powerpoint/shape-actions.ts:318-328 | each alignment is pushed exactly when it is given |
| PptShapeCodegen.ShapeTexts | src/lib/office/codegen/powerpoint/shape-actions.ts:339-350 | one statement per planned shape step, in order |
| PptShapeCodegen.GenerateShapeFormatCode | src/lib/office/codegen/powerpoint/shape-actions.ts:336-353 | the result is the planned statements joined by a line break and two spaces |
| PptShapeCodegen.ShapeStepsPresent | src/lib/office/codegen/powerpoint/shape-actions.ts:339-350 | the fill needs a non-empty colour, the line colour a non-empty string and the weight a non-zero number |
| PptShapeCodegen.Box | src/lib/office/codegen/powerpoint/shape-actions.ts:14 | a default replaces a missing width or height only |
| PptShapeCodegen.TextSlot | src/lib/office/codegen/powerpoint/shape-actions.ts:15 | no format gives no statements |
| PptShapeCodegen.PlacedHas | src/lib/office/codegen/powerpoint/shape-actions.ts:30-39 | the declaration, both sizes and every format statement appear in the placed template |
| PptShapeCodegen.AddTextBoxPlaced | src/lib/office/codegen/powerpoint/shape-actions.ts:8-48 | the code checks the index, adds a text box with the quotes of its text escaped, sized 300 by 100 unless given, followed by every planned format statement |
| PptShapeCodegen.TextBoxDefaults | src/lib/office/codegen/powerpoint/shape-actions.ts:14 | without a size the text box is 300 by 100; a given size, zero included, is kept |
| PptShapeCodegen.SizeParams | src/lib/office/codegen/powerpoint/shape-actions.ts:59 | the size suffix is empty exactly when the width or the height is missing or zero |
| PptShapeCodegen.AddImageCode | src/lib/office/codegen/powerpoint/shape-actions.ts:53-96 | the code checks the index and places the image at the position |
| PptShapeCodegen.ImageSized | src/lib/office/codegen/powerpoint/shape-actions.ts:82-86 | the top line carries no size exactly when the width or the height is missing or zero |
| PptShapeCodegen.ShapeMember | src/lib/office/codegen/powerpoint/shape-actions.ts:108-119 | a known shape type maps to its member; any other becomes a rectangle |
| PptShapeCodegen.ShapeMembers | src/lib/office/codegen/powerpoint/shape-actions.ts:108-119 | the map covers every schema shape type, renames ellipse and star, and maps unknown names to rectangles |
| PptShapeCodegen.ShapeSlot | src/lib/office/codegen/powerpoint/shape-actions.ts:120 | no format gives no statements |
| PptShapeCodegen.AddShapePlaced | src/lib/office/codegen/powerpoint/shape-actions.ts:101-153 | the code checks the index and adds the mapped shape, sized 200 by 200 unless given, followed by every planned format statement |
| PptShapeCodegen.ShapeFound | src/lib/office/codegen/powerpoint/shape-actions.ts:176-177 | every by-id template checks the slide index and then looks the shape up on that slide |
| PptShapeCodegen.UpdateTextCode | src/lib/office/codegen/powerpoint/shape-actions.ts:158-187 | the code looks the shape up and sets its text with the quotes escaped |
| PptShapeCodegen.FormatShapeApplies | src/lib/office/codegen/powerpoint/shape-actions.ts:192-223 | the code looks the shape up and applies every planned statement to it |
| PptShapeCodegen.MoveShapeCode | src/lib/office/codegen/powerpoint/shape-actions.ts:228-259 | the code sets the shape's left and top coordinates |
| PptShapeCodegen.MoveIgnoresSize | src/lib/office/codegen/powerpoint/shape-actions.ts:233 | the position's width and height never change the code |
| PptShapeCodegen.DeleteShapeCode | src/lib/office/codegen/powerpoint/shape-actions.ts:264-291 | the code checks the index, looks the shape up and deletes it |
| PptTableCodegen.TableSize | src/lib/office/codegen/powerpoint/table-actions.ts:37-38 | a missing or zero width becomes 600 and a missing or zero height 300 |
| PptTableCodegen.ValuesLines | src/lib/office/codegen/powerpoint/table-actions.ts:39 | the values take two lines when data is given and one blank line otherwise |
| PptTableCodegen.CreateSized | src/lib/office/codegen/powerpoint/table-actions.ts:8-50 | the code checks the index and adds a table of the given size at the position, 600 by 300 unless given; the values are passed exactly when data is given |
| PptTableCodegen.CreateIgnoresStyle | src/lib/office/codegen/powerpoint/table-actions.ts:8-50 | the style never changes the code |
| PptTableCodegen.TableFound | src/lib/office/codegen/powerpoint/table-actions.ts:72-73 | every by-id template checks the slide index and then looks the shape up on that slide |
| PptTableCodegen.ReadCode | src/lib/office/codegen/powerpoint/table-actions.ts:55-109 | the code looks the shape up and refuses one that is not a table |
| PptTableCodegen.WriteCode | src/lib/office/codegen/powerpoint/table-actions.ts:114-153 | the code looks the shape up and writes every cell of the data |
| PptTableCodegen.CellTexts | src/lib/office/codegen/powerpoint/table-actions.ts:167-176 | one statement per planned cell step, in order |
| PptTableCodegen.PushCellFont | src/lib/office/codegen/powerpoint/table-actions.ts:171-176 | the font pushes build exactly the planned font steps |
| PptTableCodegen.CellFormatters | src/lib/office/codegen/powerpoint/table-actions.ts:165-176 | the formatter list is the planned fill and then the font block |
| PptTableCodegen.CellStepsPresent | src/lib/office/codegen/powerpoint/table-actions.ts:167-176 | each statement is emitted exactly when its field is present and truthy, or defined for bold |
| PptTableCodegen.CellFontPlanned | src/lib/office/codegen/powerpoint/table-actions.ts:167-176 | a font step is planned exactly when the font block pushes it; the fill comes only from the fill |
| PptTableCodegen.CellFontValues | src/lib/office/codegen/powerpoint/table-actions.ts:173-175 | the size needs a non-zero number, bold only to be defined, the colour a non-empty string |
| PptTableCodegen.CellBordersIgnored | src/lib/office/codegen/powerpoint/table-actions.ts:158-204 | the schema's borders never change the emitted statements |
| PptTableCodegen.FormatCellApplies | src/lib/office/codegen/powerpoint/table-actions.ts:158-204 | the code checks the index, addresses the cell of the table shape and carries every planned statement |
| PptTableCodegen.DeleteTableCode | src/lib/office/codegen/powerpoint/table-actions.ts:209-236 | the code checks the index, looks the shape up and deletes it |
| ExcelSchemas.CellEnd | src/lib/office/schemas/excel-schemas.ts:10 | a scanned cell reference is capital letters followed by digits, and the scan stops at the last digit |
| ExcelSchemas.MatchesA1Spec | src/lib/office/schemas/excel-schemas.ts:9-11 | the scanner accepts exactly one cell reference, or two joined by a colon |
| ExcelSchemas.SingleCellAccepted | src/lib/office/schemas/excel-schemas.ts:10 | `A1` and `AB12` are valid addresses |
| ExcelSchemas.CellPairAccepted | src/lib/office/schemas/excel-schemas.ts:10 | `A1:B10` is a valid address |
| ExcelSchemas.LowerCaseRejected | src/lib/office/schemas/excel-schemas.ts:10 | lower-case column letters are rejected |
| ExcelSchemas.AbsoluteRejected | src/lib/office/schemas/excel-schemas.ts:10 | absolute `$` references are rejected |
| ExcelSchemas.SheetPrefixRejected | src/lib/office/schemas/excel-schemas.ts:10 | a sheet-qualified address is rejected |
| ExcelSchemas.IncompleteRejected | src/lib/office/schemas/excel-schemas.ts:10 | a dangling colon and a reference without a row number are rejected |
| ExcelSchemas.ParseHorizontal | src/lib/office/schemas/excel-schemas.ts:31 | exactly the four horizontal alignment names are accepted, each as itself |
| ExcelSchemas.ParseVertical | src/lib/office/schemas/excel-schemas.ts:32 | exactly the three vertical alignment names are accepted, each as itself |
| ExcelSchemas.ParseClearTarget | src/lib/office/schemas/excel-schemas.ts:68 | exactly contents, formats and all are accepted |
| ExcelSchemas.ParseCopyKind | src/lib/office/schemas/excel-schemas.ts:76 | exactly all, values and formats are accepted |
| ExcelSchemas.ParseInsertShift | src/lib/office/schemas/excel-schemas.ts:83 | exactly down and right are accepted |
| ExcelSchemas.ParseDeleteShift | src/lib/office/schemas/excel-schemas.ts:90 | exactly up and left are accepted |
| ExcelSchemas.ShiftsDisjoint | src/lib/office/schemas/excel-schemas.ts:83-90 | an insert shift is never a delete shift, nor the other way round |
| ExcelSchemas.ParseChartType | src/lib/office/schemas/excel-schemas.ts:209-212 | exactly the listed chart type names are accepted, each as itself |
| ExcelSchemas.ChartTypesAccepted | src/lib/office/schemas/excel-schemas.ts:209-212 | there are ten distinct chart types, and each is accepted under its own name |
| ExcelSchemas.RangeActionName | src/lib/office/schemas/excel-schemas.ts:35-92 | every range action's discriminator is one of the union's names |
| ExcelSchemas.RangeActionsExactly | src/lib/office/schemas/excel-schemas.ts:35-92 | the range union has eight distinct discriminators, and each names an action |
| ExcelSchemas.CopyNeedsAddresses | src/lib/office/schemas/excel-schemas.ts:72-78 | a copy action is valid exactly when both its source and destination addresses are in A1 notation |
| ExcelSchemas.ChartCreateNeedsAddress | src/lib/office/schemas/excel-schemas.ts:206-218 | chart creation is valid exactly when its data range is in A1 notation |
| WordSchemas.DocumentActionName | src/lib/office/schemas/word-schemas.ts:9-43 | every document action's discriminator is one of the union's names |
| WordSchemas.DocumentActionsExactly | src/lib/office/schemas/word-schemas.ts:9-43 | the document union has five distinct discriminators, and each names an action |
| WordSchemas.ParseAlignment | src/lib/office/schemas/word-schemas.ts:49 | exactly the four paragraph alignment names are accepted, each as itself |
| WordSchemas.ParseInsertLocation | src/lib/office/schemas/word-schemas.ts:70 | exactly the five insert locations are accepted |
| WordSchemas.ParseRelativeLocation | src/lib/office/schemas/word-schemas.ts:79 | exactly Before and After are accepted |
| WordSchemas.RelativeWithinInsert | src/lib/office/schemas/word-schemas.ts:70-79 | every relative location is an insert location, and Start, End and Replace are not relative locations |
| WordSchemas.ParseTableLocation | src/lib/office/schemas/word-schemas.ts:127 | exactly Start and End are accepted |
| WordSchemas.TableActionName | src/lib/office/schemas/word-schemas.ts:120-188 | every table action's discriminator is one of the union's names |
| WordSchemas.TableActionNamesDistinct | src/lib/office/schemas/word-schemas.ts:120-188 | the table union has nine distinct discriminators |
| WordSchemas.TableActionsExactly | src/lib/office/schemas/word-schemas.ts:120-188 | each of the nine discriminators names an action |
| PptSchemas.NegativeSlideIndexRejected | src/lib/office/schemas/ppt-schemas.ts:17-44 | every indexed slide action rejects a negative index, both move indices included |
| PptSchemas.ParseVerticalAlignment | src/lib/office/schemas/ppt-schemas.ts:65 | exactly Top, Middle and Bottom are accepted |
| PptSchemas.ParseShapeType | src/lib/office/schemas/ppt-schemas.ts:101 | exactly the eight shape types are accepted, each as itself |
| PptSchemas.TableBounds | src/lib/office/schemas/ppt-schemas.ts:167-197 | creation needs a non-negative slide index and at least one row and one column; formatting a cell needs non-negative coordinates |
| Str.LowerChar | src/app/api/files/upload/route.ts:25 | `toLowerCase` on one character: an ASCII capital gains 32 and other ASCII is kept; a non-ASCII character stays non-ASCII, so only an ASCII letter lowers to an ASCII small letter |
| Str.ToLower | src/app/api/files/upload/route.ts:25 | `toLowerCase` keeps the length and lowers every character by `LowerChar`, which covers the capitals of ASCII, Latin-1, basic Greek and basic Cyrillic |
| Str.LowerAccented | src/app/api/files/upload/route.ts:25 | accented Latin capitals are lowered too: `.ÉXE` becomes `.éxe` |
| Str.TrimStart | src/lib/office/code-executor.ts:54 | the leading half of `trim()`: the result is a suffix of the text, what it drops is all white space, and it does not start with white space |
| Str.TrimEnd | src/lib/office/code-executor.ts:54 | the trailing half of `trim()`: the result is a prefix of the text, what it drops is all white space, and it does not end with white space |
| Str.Split | tests/office-skills/error-analysis/ErrorAnalyzer.ts:341 | `split` always returns at least one piece |
| Str.IndexOfFrom | src/lib/office/error-patterns.ts:169-176 | `indexOf` from a position: the occurrence found is the first at or after it; none found means none exists there |
| Str.NatToString | tests/office-skills/scripts/generate-test-cases.ts:110 | `String(n)` of a natural number is a non-empty run of digits |
| Str.IntToString | src/lib/use-chat.ts:478 | `toString()` of an integer is non-empty and starts with `-` exactly when the integer is negative |
| Str.PadZero | tests/office-skills/scripts/generate-test-cases.ts:110 | `padStart(width, '0')`: the text ends the result, which has the width unless the text is already longer |
| Str.EscapeQuotes | src/lib/office/codegen/word/document-actions.ts:73 | `replace(/"/g, '\\"')` never shortens the text |
| Str.EscapeQuotesRoundTrip | src/lib/office/codegen/word/document-actions.ts:73 | on text without backslashes, reading the escaped text back as a string literal gives the text again |
| Json.Get | src/app/api/tool-result/route.ts:26 | a property read finds only a member of an object under that key |
| Json.Quote | src/lib/office/codegen/excel/range-actions.ts:62 | `JSON.stringify` of a string is quoted and holds no raw line break |
| Json.EscapeString | src/lib/office/codegen/excel/range-actions.ts:62 | the escaped body of a JSON string holds no raw line break |
| Json.Stringify | src/lib/office/codegen/excel/range-actions.ts:62 | `JSON.stringify` without indentation prints a value on one line |
| Json.StringArray | src/lib/office/codegen/excel/range-actions.ts:21 | a list of texts becomes a JSON array with one item per text |
| PosixPath.Normalize | src/app/api/files/delete/route.ts:30 | `path.normalize` never returns the empty text |
| PosixPath.Join | src/app/api/files/upload/route.ts:62 | `path.join` never returns the empty text |
| PosixPath.Extname | src/app/api/files/upload/route.ts:25 | `path.extname` is empty or a `.` followed by no `.` or `/`, and it ends the last segment of the path |
| PosixPath.LastSegment | src/app/api/files/upload/route.ts:25 | the last segment holds no `/` and ends the path once trailing slashes are dropped |
| PosixPath.TrimSlashes | src/app/api/files/upload/route.ts:25 | trailing slashes are dropped: a prefix that does not end with `/`, followed only by slashes |
| PosixPath.LastIndexOf | src/app/api/files/upload/route.ts:25 | `lastIndexOf`: the position found holds the character and no later one does; none found means none holds it |
| Sorting.SortDesc | tests/office-skills/error-analysis/ErrorAnalyzer.ts:147 | `sort((a, b) => key(b) - key(a))` returns a permutation of the list |
| Sorting.Take | tests/office-skills/error-analysis/ErrorAnalyzer.ts:148 | `slice(0, n)` keeps the first `n` elements, or all of them when there are fewer |
| Tally.Bump | tests/office-skills/error-analysis/ErrorAnalyzer.ts:118 | counting one more occurrence of a key, starting from 0 for a new one, adds at most one new key |

## Left out

- **Waiting and timers.** The Promise and EventEmitter wait, `setTimeout` and `setInterval`, and the 100 ms
  polling fallback (`src/lib/office/mcp-server.ts:322-338`, `src/lib/office/executor.ts:220-253`) are out.
  Arrival and timeout are the explicit steps `ResultArrives` and `TimeoutFires`. Delays, such as the 500 ms
  pause between fetch attempts, are not modelled.
- **Singletons.** The `globalThis` singletons are one store object passed to every operation.
- **Network.** All `fetch`, `EventSource` and `ReadableStream` loops are out, for lack of a network model.
  In use-chat this covers the `sendMessage` streaming loop, the polling loop, the result POST and the
  test-report POST. Only the parsers, counters and reducers they drive are modelled.
- **use-chat events.** The `session`, `session_invalid` and `office_action` events only store values
  received from the network, so they are out.
- **Running an Office script.** `executeOfficeCode`'s `AsyncFunction` call, `getOfficeVersion` and the
  `navigator` and `Office` globals run foreign code. The executor is a parameter, and the host version and
  user agent are inputs.
- **The `debugInfo` field** of an execution error is carried through unread, so it is not modelled.
- **Regular expressions.** There is no regular-expression engine. Each pattern the core uses is a
  hand-written scanner.
- **JSON.** `JSON.parse` is a parameter. `JSON.stringify` is modelled for the values the core builds, both plain (`Json.Stringify`) and with two-space indentation (`Json.PrettyPrint`). `exportReportsAsJSON` (`tests/office-skills/error-analysis/ErrorCollector.ts:107-110`) is out, because the JSON encoding of stored reports is abstracted (see Storage).
- **Floats.** `errorRate` is out: the summary's constant, the per-area division at
  `tests/office-skills/error-analysis/ErrorAnalyzer.ts:328` and the test suite's rate. Progress percentages
  are out too.
- **Locale.** `toLocaleString` and `toLocaleDateString` are out. In the sidebar, a timestamp older than
  seven days is labelled with its date, which is an input.
- **Reports with emoji.** `generateMarkdownReport` (`tests/office-skills/error-analysis/ErrorAnalyzer.ts:351-416`)
  formats numbers with `toFixed` and adds emoji, so it is out.
- **Console output.** `logSessionSummary`, the console reports of `analyze-errors.ts`, and
  `generateTestSuite`/`main` of the generator are console and file output.
- **Storage.** `localStorage` is a `map<string, string>`, and the JSON encoding of stored reports is
  abstracted.
- **File system.** `existsSync`, `readdir`, `stat`, `mkdir`, `writeFile` and `unlink` are out. Their answers
  are inputs, and the effect on the upload directory is a set of names.
- **Progress callback.** `onProgress` in the test suite is modelled as the sequence of the calls it
  receives.
- **Schemas.** zod itself is out. Each schema is a datatype whose required fields are constructor
  arguments, plus a validity predicate for the refinements (A1 addresses, integer bounds, enumerations).
- Tally.Of keeps counted keys in order of first appearance. A JavaScript object lists integer-like keys
  first, and string keys are the only ones the core counts.
- ToolResultRoute.ToExecutionResult coerces `success` to a boolean. A non-boolean `success` is not
  represented.
- TestRun.TestExecutor.ExecuteTestSuite states only a prefix of the logs, the suite's opening line. The
  lines that each case logs are not listed one by one.
- ExcelWorksheetCodegen.AddCode: its two branches are stated through the lemmas beside it, not in its own
  `ensures`.
- **Fractional numbers.** Every number is an `int`, so a fraction such as a 10.5 pt font size cannot be represented, and `Codegen.Num` prints integers only. The `z.number()` fields without `.int()` are affected: `src/lib/office/schemas/word-schemas.ts:14`, `:52`, `:59-61`, `:78`, `:86`, `:93`, `:99`, `:110`, `:116`, `:124-125`, `:134-186`; `src/lib/office/schemas/excel-schemas.ts:16`, `:168`, `:214-215`; `src/lib/office/schemas/ppt-schemas.ts:25`, `:51-54`, `:58`, `:74`, `:154`, `:160`. So are the members that print them: `ExcelRangeCodegen.StepText`, `ExcelChartCodegen.SetPosition`, `ExcelTableCodegen.IndexParam`, `WordParagraphCodegen.StepText`, `WordParagraphCodegen.Item`, `WordParagraphCodegen.OutOfRange`, `WordTableCodegen.InsertTable`, `WordTableCodegen.CellStepText`, `WordTableCodegen.RowAt`, `WordTableCodegen.CellAt`, `WordTableCodegen.DeleteColumns`, `WordTableCodegen.OutOfRange`, `WordDocumentCodegen.TooLong`, `PptShapeCodegen.TextStepText`, `PptShapeCodegen.ShapeStepText`, `PptShapeCodegen.BoxLines`, `PptShapeCodegen.SizeParams`, `PptShapeCodegen.ImageTop`, `PptShapeCodegen.AddImageSteps`, `PptShapeCodegen.MoveShapeCode`, `PptTableCodegen.CreateHead`, `PptTableCodegen.CellStepText`, `PptSlideCodegen.Item`, and the JSON numbers (`Json.JNum`). For integer values the printed text is the source's.
- **UTF-16 lengths.** A `string` is a sequence of Unicode scalars, while JavaScript's `length`, `slice` and `substring` count UTF-16 code units. The fingerprint (`UseChat.HashCode`) and the file-name replacement (`FilesApi.Sanitize`) are modelled on code units through `Str.CodeUnits`. The length tests and cuts listed below are not.
- Sidebar.Title: the 20-character test and cut count scalars. The source counts code units, so a title with astral characters is cut earlier there, and its cut can split a surrogate pair.
- Sidebar.Preview: the 50-character cut counts scalars, where the source counts code units.
- ErrorPatterns.GeneralExceptionFixes: the "longer than 500" test counts scalars, where the source counts code units.
- UseChat.MergeFinal: the "longer normalised text" comparison counts scalars, where the source compares code-unit lengths.
- UseChat.MergeFinalKeepsLonger: states the same comparison on scalar counts.
- TestRun.PreviewIsPrefix: the 4000-character limit on the response preview counts scalars, where the source counts code units.
- TestRun.PreviewBounded: the same 4000-character limit, on scalar counts.
- TestRun.NoCodeText: the 200-character cut of the preview counts scalars, where the source counts code units, and the source's cut can split a surrogate pair.
- Complexity.CheckCodeComplexity: models the corrected, stateless search. The source's `g`-flag patterns keep `lastIndex` from one check to the next; that is `Complexity.TestWithLastIndex` under Findings.
- Bridge.BridgeStore.ExecuteCode: runs the corrected gate, so the model's server carries no `lastIndex` from one script to the next. The source's server does (see Findings).
- WordParagraphCodegen.GenerateFormatCode: builds on the corrected `SpacingSteps`. The source swaps `spaceBefore` and `spaceAfter`; that is `WordParagraphCodegen.SpacingStepsAsWritten` under Findings.
- WordParagraphCodegen.InsertFormats: builds on the corrected spacing steps (see Findings).
- WordParagraphCodegen.FormatParagraphApplies: builds on the corrected spacing steps (see Findings).
- TestCaseBuild.FileTablesUsed: builds on the corrected `ppt` key prefix. The source looks the PowerPoint prompts up under `powerpoint:`; that is `TestCaseBuild.UserInputAsWritten` under Findings.
- TestCaseBuild.GenerateTestCase: builds on the corrected `ppt` key prefix (see Findings).
- TestCaseBuild.CaseBuilt: builds on the corrected `ppt` key prefix (see Findings).
- TestCaseBuild.GenerateTestCases: builds on the corrected `ppt` key prefix (see Findings).
- **Flattened edge cases.** `ToolResultRoute.ErrorOf` drops error fields that are not strings. Keys such as `constructor` or `toString` are plain keys of a Dafny `map`, but JavaScript finds them on the object prototype in the hint table of `GetFixHint`, `shapeTypeMap` and `errorsByType`. A message's `streaming` flag is a `bool`, so `undefined` and `false` are one value. `timeOf` is a total function from a timestamp to an integer, so an unparseable date (`NaN`) neither breaks the sort comparator nor makes `toISOString` throw.
- Bridge.BridgeStore.TimeoutFires: does not require that no result event was heard. In the source the timer and the `once` listener race and the first one to fire clears the other; in the model the environment chooses which of `ResultArrives` and `TimeoutFires` happens.
- Str.ToLower: JavaScript's `toLowerCase` applies Unicode's full lower-case mapping. The model covers the one-to-one capitals of ASCII, Latin-1, basic Greek and basic Cyrillic (`Str.LowerChar`); other capitals, such as the Latin Extended letters and accented Greek, are left as they are. The mappings that change the length (`İ`) or depend on context (final `σ`) are not modelled. `FilesApi.Upload` and `TestCaseBuild.Slug` use it.
- FilesApi.Upload: accepting or refusing a file does not depend on the gap, because every allowed extension is ASCII and no non-ASCII capital lowers to an ASCII letter. The refusal text shows the extension as `Str.ToLower` gives it, so a capital outside the covered ranges stays a capital there.
- TestCaseBuild.Slug: a template name with a capital outside the covered ranges keeps it in the test id.
- **Object identity.** The legacy result map is keyed by the JSON value of `correlationId`, compared by value. A JavaScript `Map` compares object keys by reference. Reads look a key up by string, so no read can tell the two apart.
- **Shared report storage.** `CodeExecutor.ReportStore` and `TestTypes.ReportStorage` model the same `localStorage` keys (`error-report-<ts>`, `error-reports-index`). `TestRun.TestExecutor.ExecuteTestCase` threads one `TestTypes.ReportStorage` through both writers: the report that `executeOfficeCode` saves on a failed run, and the one the logger saves when the request fails.
- FilesApi.ListFiles: the `uploadTime` member of each row comes from `stat`'s modification time, an input the model does not have, so it is not in the row.
- FilesApi.Delete: a `fileId` of `.` or `..` resolves to a directory and makes `unlink` fail with a 500. The model's file system is a set of paths, so it answers 404 (or 200 for a listed path) instead.
- **Sidebar refs.** `sessionsRef` always mirrors `sessions`, so the session-switch effect reads `sessions`. `loadMessages` belongs to the chat hook: the effects return the messages they hand to it.

## Findings

| source | as written | input that shows it | evidently intended | confidence | as-written member | corrected member |
|---|---|---|---|---|---|---|
| src/lib/office/codegen/excel/range-actions.ts:188 | `sourceRange.copyFrom(destinationRange, …)`: the source range receives the destination's cells | copy with source `A1` and destination `B1`: `A1` is overwritten with `B1` | the destination receives the source: `destinationRange.copyFrom(sourceRange, …)` | high; not executed | ExcelRangeCodegen.CopyCodeAsWritten, with ExcelRangeCodegen.CopyAsWrittenReversed | ExcelRangeCodegen.CopyCode, with ExcelRangeCodegen.CopyCodeTransfers |
| src/lib/office/mcp-server.ts:109-141 | the module-level `RISKY_APIS` patterns carry the `g` flag and are used with `test`, so each keeps its `lastIndex` from the previous script | check `x;body.clear()`, then `body.clear()`: the second check starts at index 14 and misses the call | every check searches the whole script, as a pattern without `g` would | high; not executed | Complexity.TestWithLastIndex, with Complexity.StaleLastIndexMissesRiskyCall | Complexity.RiskySearch, with Complexity.FreshTestAgrees |
| src/lib/office/codegen/word/paragraph-actions.ts:210-211 | `spacing.before` is written to `spaceAfter`, and `spacing.after` to `spaceBefore` | format with `spacing: {before: 12}`: the generated code sets `spaceAfter = 12` | each field is written to the property of its own name | high; not executed | WordParagraphCodegen.SpacingStepsAsWritten, with WordParagraphCodegen.SpacingSwapped | WordParagraphCodegen.SpacingSteps, with WordParagraphCodegen.SpacingFollowsNames |
| src/app/api/files/delete/route.ts:30-32 | the path guard uses string `startsWith` against the session directory, without a separator | session `a` with file id `../../ab/uploads/x`: the path resolves into session `ab` and passes the guard | only paths below the session directory pass: the directory followed by `/` | high; not executed | FilesApi.GuardAsWritten, with FilesApi.GuardAsWrittenAdmitsSibling | FilesApi.Guard, with FilesApi.GuardConfines |
| tests/office-skills/scripts/generate-test-cases.ts:339-340 | the host-specific key is `powerpoint:<name>`, but the table spells its PowerPoint keys `ppt:<name>`, so they are never read | the PowerPoint template `创建表格`: its `ppt:创建表格` prompt is never chosen | the host-specific key uses the table's prefix `ppt` | medium; not executed | TestCaseBuild.UserInputAsWritten, with TestCaseBuild.PptKeysIgnored | TestCaseBuild.UserInput, with TestCaseBuild.PptKeysUsed |
