# Chat and flow-chart assistant: a Dafny model of its core

The application is a browser chat client for a Gemini model. A user writes a
message and may attach files or paste an image. The AI service sends the
message, with the cleaned conversation history, to a regular model. That model
can ask to switch to a search-grounded model, whose answer gets numbered
citation markers. Conversations are saved in a side list and titled by a
second model. A flow-chart editor keeps its own copy of the active chart's
nodes and edges, and it sends change requests to the model as a function call.
It retries failed attempts and keeps a capped list of versions for rollback.

The model has one Dafny module per core source file, plus two shared modules.

- `Js` holds the JavaScript built-ins the code relies on: optional values,
  truthiness, `||`, `startsWith`/`endsWith`/`includes`, ASCII `toLowerCase`,
  `slice`, `split`, `join`, `filter` and `map` as prefix-recursive functions,
  and number-to-string.
- `FlowModel` holds the node, edge and chart records and the colour table that
  `FlowChart.jsx` and `FlowChartEditor.jsx` share.

There are two kinds of module:

- **Pure code** is modelled as datatypes, functions and lemmas: history
  cleaning, part conversion, citation sorting and splicing, titles, icons and
  read modes.
- **Loops** (`extractThoughtsAndText`, `addCitations`, the citation-marker
  loop, `handlePaste`, `processFilesForAI`) are methods with loop invariants.
  Each is proved equal to a specification function of its inputs.

The React hooks and the context provider change state step by step, so each
is a class whose fields are the hook's state:

- `ChatHistory.ChatSession` for `useChatHistory`;
- `FileUpload.Uploader` for `useFileUpload`;
- `FlowChartStore.Store` for the flow-chart context;
- `FlowChartEditor.Editor` for the editor component.

Each `set...` call becomes a field assignment. An asynchronous callback becomes
a separate method that the caller runs later.

Values the code captures in a closure are modelled as captured, not re-read,
with two exceptions named below:

- `handleAiRequest`'s `finally` tests the `aiLoading` of the render that
  started the attempt, which is always false past the guard. The flag is
  therefore cleared after every attempt, including one that schedules a retry.
- The deferred `saveAIChangeToHistory` is the first exception. As written, it
  records the nodes and edges from before the AI change (see Findings). The
  editor models the intended save, which records the AI's nodes and edges. The
  captured save appears only in `DeferredSaveAsWritten` and
  `Editor.ApplyFunctionCallAsWritten`.
- The retry is the second exception. The source's timer runs the
  `handleAiRequest` of the render that started the request. The model's retry
  is a new `Editor.HandleAiRequest` call, which reads the current fields (see
  "## Left out").
- The title callback of `saveChatHistory` patches the list by the index the new
  chat had when it was saved.
- `isStillOnSameChat` compares the captured context with the state it was just
  captured from, so it always holds.

Outside services are parameters of the operations that use them:

- the Gemini calls: `api`, `summarize`;
- file reading: `read`, `dataUrl`;
- URL parsing: `hostname`;
- the clock and generated ids: `now`, `genId`.

## Model

| member | source | states |
|---|---|---|
| Js.OrElse | src/components/FlowChart.jsx:11 | `a \|\| b` on optional strings gives `a` exactly when `a` is a non-empty string, else `b` |
| Js.SpliceAt | src/services/AIService.js:81 | the insertion is placed at the position `slice` reads, with the text before it and after it kept unchanged |
| Js.SecondField | src/hooks/useFileUpload.js:85 | `split(c)[1]` exists exactly when `c` occurs; it is the text between the first and second separator (or to the end) |
| Js.RemoveIndex | src/hooks/useChatHistory.js:40 | filtering out index `k` removes exactly that element when `k` is in range, and nothing otherwise |
| AIService.CleanEntry | src/services/AIService.js:11-16 | the role is kept; a part survives exactly when it comes from `allParts` (or `parts` when `allParts` is missing) and has text, inline data or a thought signature, and it survives as many times as it occurs there |
| AIService.CleanHistory | src/services/AIService.js:10-18 | every sent turn has parts, and every part it keeps qualifies; every turn that has parts after cleaning is sent; the turns stay in history order |
| AIService.CleanHistoryCounts | src/services/AIService.js:10-18 | a cleaned turn with parts is sent as many times as it occurs in the history, and one without parts never |
| AIService.CleanEntryKeepsOrder | src/services/AIService.js:14-16 | cleaning keeps a turn's parts in their original order |
| AIService.EmptyAllPartsDropsEntry | src/services/AIService.js:14-17 | a turn whose `allParts` is present but empty is dropped even when its `parts` has text, since an empty array is truthy |
| AIService.ConvertPart | src/services/AIService.js:112-117 | a text part becomes text only, an inline-data part inline data only, and any other part passes through unchanged |
| AIService.BuildContents | src/services/AIService.js:121-130 | one turn per cleaned history turn (same role, non-empty), each part the conversion of the cleaned part at the same position, then one user turn with the converted new parts |
| AIService.SentHistoryPartsAreWireParts | src/services/AIService.js:11-31 | every history part sent is non-empty text alone, inline data alone, or a part with neither that carries a thought signature |
| AIService.ExtractThoughtsAndText | src/services/AIService.js:20-46 | all parts are kept for the history; the thought texts are listed in order; the other texts are concatenated in order |
| AIService.ThoughtsAndAnswersPartition | src/services/AIService.js:33-40 | every text part is either a thought or an answer, never both |
| AIService.InsertByEnd | src/services/AIService.js:56-58 | inserting into a descending list keeps it descending by `endIndex ?? 0` and adds exactly the one element |
| AIService.SortByEndDesc | src/services/AIService.js:56-58 | the sorted supports are in descending `endIndex ?? 0` order and are a permutation of the input |
| AIService.FilterSortedDesc | src/services/AIService.js:60-64 | skipping supports keeps the rest in descending order |
| AIService.SpliceAll | src/services/AIService.js:79-82 | applying the insertions in turn never shortens the text |
| AIService.SpliceAllKeepsOriginal | src/services/AIService.js:81 | every original character survives, in order, in the text with insertions |
| AIService.SpliceAllKeepsPrefix | src/services/AIService.js:55-58 | insertions at or after position `k` leave the first `k` characters unchanged |
| AIService.SpliceAllLandsAfterOriginalPrefix | src/services/AIService.js:55-58 | when applied from the largest position down, each insertion lands right after the original prefix of its length; earlier insertions never shift later ones, which is what the sort is for |
| AIService.LinkEdits | src/services/AIService.js:66-82 | each linked support gives one insertion at its end index: a space and its links joined by ", " |
| AIService.SpliceLinks | src/services/AIService.js:60-83 | the loop's text equals applying the link insertions of exactly the supports with an end index, chunk indices and at least one chunk URI |
| AIService.AddCitations | src/services/AIService.js:48-86 | without supports or chunks the text is unchanged; otherwise it is the descending-order splice of every support's links |
| AIService.SourcesOf | src/services/AIService.js:175-181 | every listed source has a URI |
| AIService.MarkerEdits | src/services/AIService.js:185-186 | the `j`-th cited support gets marker `<cite>j+1</cite>` at its end index |
| AIService.CitationsOf | src/services/AIService.js:188-191 | the `j`-th cited support gets citation id `j + 1` with its sources |
| AIService.SpliceMarkers | src/services/AIService.js:155-196 | the loop's citations and marked text are those of exactly the supports that have an end index, chunk indices and a source with a URI, numbered from 1 |
| AIService.InsertCitationMarkers | src/services/AIService.js:154-196 | without supports or chunks the text is unchanged and the citations are null; otherwise the citations and markers belong to the cited supports in descending end-index order |
| AIService.CitationsNumberedFromLargestEnd | src/services/AIService.js:155-196 | citation ids are 1, 2, ... with no gaps; each citation has at least one source and every source a URI; id 1 goes to a support with the largest end index |
| AIService.PickedEditsOrdered | src/services/AIService.js:56-64 | insertions at the end indices of the supports that were picked are in bounds and in non-increasing position order |
| AIService.MarkersLandInOriginalText | src/services/AIService.js:155-196 | with every end index inside the text, each marker lands right after the original prefix up to its end index, and the original text survives |
| AIService.LinksLandInOriginalText | src/services/AIService.js:55-83 | the same for the links of `addCitations` |
| AIService.NoUriNoLinks | src/services/AIService.js:68-79 | when no chunk has a URI there are no links, and the text comes back unchanged |
| AIService.SearchResponse | src/services/AIService.js:150-213 | a search answer is a success marked as searched, with its thoughts (null when there are none), all parts, and marked text and citations as the marker step defines them |
| AIService.GenerateResponse | src/services/AIService.js:109-370 | see the list after this table |
| AIService.TitleEntriesAreTextOnly | src/services/AIService.js:90-94 | every summarised turn is a user or model turn whose parts are text only |
| AIService.TitleEntry | src/services/AIService.js:92-94 | a turn keeps its role and, in order, one text-only part per text part it has, holding that part's text |
| AIService.TitleHistory | src/services/AIService.js:90-95 | each summarised turn is a user or model turn with at least one part, all text only; every user or model turn with text is included; the turns keep their order and their multiplicity |
| AIService.GenerateTitle | src/services/AIService.js:88-107 | the summariser sees the text-only history; its title is returned, or "Untitled Chat" when it fails |
| FlowModel.Merge | src/FlowChartContext.jsx:40-44 | every key present in the update wins, every other key is kept, and the update time is `now` |
| FlowModel.MergeIdempotent | src/FlowChartContext.jsx:40-44 | applying the same update twice at the same time equals applying it once |
| FlowModel.NewChart | src/FlowChartContext.jsx:24-29 | an `id` in the data replaces the generated one; both timestamps are `now`; the other keys come from the data |
| FlowModel.ColorOfIsTableLookup | src/components/FlowChart.jsx:12-17 | the colour chain is a lookup of five known types with purple as the default; purple exactly for an unknown or missing type |
| FlowModel.TypeFieldFirst | src/components/FlowChart.jsx:11 | `node.type` when it is a non-empty string, else `node.data?.type` |
| FlowModel.DataTypeFirst | src/components/FlowChartEditor.jsx:221 | `node.data?.type` when it is a non-empty string, else `node.type` |
| FlowModel.TypeReadingsDiffer | src/components/FlowChart.jsx:11 | the view and the editor colour a node added as a start node differently: purple in the view, green in the editor |
| FlowChartView.NodesWithColors | src/components/FlowChart.jsx:20-31 | one node per input node, in order; only the style changes; style keys outside the overlay are kept; the background is the colour of the node's type (read `type` first) and the padding is 10px; missing nodes give none |
| FlowChartView.ViewEdges | src/components/FlowChart.jsx:37 | the chart's edges, or none when they are missing |
| FlowChartView.NodesWithColorsIdempotent | src/components/FlowChart.jsx:20-31 | colouring nodes that are already coloured changes nothing |
| FlowChartStore.FindIndex | src/FlowChartContext.jsx:20 | the first chart with the given id, and only when there is one |
| FlowChartStore.Find | src/FlowChartContext.jsx:20 | a found chart is the first in the list that has the id; nothing is found exactly when no chart has the id |
| FlowChartStore.UpdateCharts | src/FlowChartContext.jsx:38-46 | same number of charts; each chart with the id is merged with the update, every other chart is unchanged |
| FlowChartStore.UpdateChartsEffect | src/FlowChartContext.jsx:37-47 | updating an id that no chart has changes nothing; each matching chart carries the new time and the new nodes |
| FlowChartStore.RemoveCharts | src/FlowChartContext.jsx:58 | exactly the charts with other ids remain, in their order and each as many times as before |
| FlowChartStore.ActiveAfterDelete | src/FlowChartContext.jsx:59-62 | deleting the active chart makes the first remaining chart active (none when none remains), never the deleted id; otherwise the active id is unchanged |
| FlowChartStore.Store.constructor | src/FlowChartContext.jsx:15-17 | no charts, no active id, editor closed |
| FlowChartStore.Store.ActiveFlowChart | src/FlowChartContext.jsx:20 | the first chart whose id is the active id, or none, including when the active id dangles |
| FlowChartStore.Store.CreateFlowChart | src/FlowChartContext.jsx:23-34 | appends the new chart, with equal timestamps, and makes its id active |
| FlowChartStore.Store.UpdateFlowChart | src/FlowChartContext.jsx:37-47 | the charts become the update of the old charts; the active id and the editor flag do not change |
| FlowChartStore.Store.UpdateActiveFlowChart | src/FlowChartContext.jsx:50-54 | updates the active chart when the active id is a non-empty string; otherwise nothing changes |
| FlowChartStore.Store.DeleteFlowChart | src/FlowChartContext.jsx:57-63 | the charts with that id go, and the active id moves as `ActiveAfterDelete` says |
| FlowChartStore.Store.SetActiveFlowChart | src/FlowChartContext.jsx:66-68 | any id is accepted, whether or not a chart has it; nothing else changes |
| FlowChartStore.Store.OpenEditor | src/FlowChartContext.jsx:71-73 | the editor is open; nothing else changes |
| FlowChartStore.Store.CloseEditor | src/FlowChartContext.jsx:75-77 | the editor is closed; nothing else changes |
| FlowChartStore.Store.HandleAIModification | src/FlowChartContext.jsx:80-88 | with an active id, the active chart is updated and the number of charts is unchanged; without one, exactly one new chart is appended and made active |
| FlowChartStore.CreatedChartIsActive | src/FlowChartContext.jsx:20-34 | a created chart is the one then reported as active, unless an earlier chart has the same id |
| FlowChartStore.DanglingActiveFindsNothing | src/FlowChartContext.jsx:20 | an active id that no chart has finds no chart |
| FlowChartEditor.PushCapped | src/components/FlowChartEditor.jsx:104-113 | the new version comes last; the versions after the current one are dropped; the oldest is dropped when the list would exceed 20; the cap of 20 is kept; from before the first version the list holds just the new one |
| FlowChartEditor.PushCappedKeepsVersionsUpToCurrent | src/components/FlowChartEditor.jsx:104-113 | from a valid position, every version up to the current one is kept in order before the new one, except the oldest when the list is full |
| FlowChartEditor.ReactFlowType | src/components/FlowChartEditor.jsx:155-162 | "start" maps to "input", "end" to "output", and every other type to "default" |
| FlowChartEditor.GetNodeColor | src/components/FlowChartEditor.jsx:186-203 | a string or a node gives the colour of its type; `undefined` throws (no colour) |
| FlowChartEditor.EditorStyle | src/components/FlowChartEditor.jsx:224-235 | the style has the node's own keys plus the nine editor keys; each of the nine has the editor's value (the type's colour, white text, a 2px white border, 8px radius, 12px padding, weight 500, 14px font, 120px minimum width, centred text); the node's other keys keep their values |
| FlowChartEditor.Enhance | src/components/FlowChartEditor.jsx:220-236 | only the node's style changes, as `EditorStyle` states |
| FlowChartEditor.EnhancedNodesAsWritten | src/components/FlowChartEditor.jsx:219-237 | the render throws exactly when some node has neither `data.type` nor `type`; otherwise it draws what `EnhancedNodes` draws |
| FlowChartEditor.EnhancedNodes | src/components/FlowChartEditor.jsx:219-237 | one node per node, in order, each drawn in the colour of its type (read `data.type` first), with a missing type drawn purple |
| FlowChartEditor.UntypedNodeStopsRender | src/components/FlowChartEditor.jsx:186-224 | a node with neither type key makes the written render throw |
| FlowChartEditor.UntypedNodeIsPurple | src/components/FlowChartEditor.jsx:200 | the corrected render draws such a node in the default purple |
| FlowChartEditor.Decide | src/components/FlowChartEditor.jsx:303-436 | an attempt retries exactly when fewer than 3 retries were made and the model gave no function call, reading the call failed, or the request threw a retryable error; the delay is 1 s per retry made so far plus one |
| FlowChartEditor.AtMostFourAttempts | src/components/FlowChartEditor.jsx:303-430 | whatever the attempts meet, a request makes at most four attempts in all |
| FlowChartEditor.AlwaysRetryableFailure | src/components/FlowChartEditor.jsx:415-430 | a service that always fails with a retryable error gets exactly four attempts, 6 s of waiting in all |
| FlowChartEditor.DecideAsWritten | src/components/FlowChartEditor.jsx:706 | a request started from the button (the click event as the count) never schedules a retry; one started with a number decides as `Decide` |
| FlowChartEditor.ButtonSendSkipsEchoAndRetry | src/components/FlowChartEditor.jsx:695-706 | a send from the button neither echoes the input nor retries a text-only answer; the Enter key does both |
| FlowChartEditor.ReplyTo | src/components/FlowChartEditor.jsx:370-435 | a reply is given exactly when the attempt does not retry; a function call is reported with success metadata and the history length; a communication error with the attempt number |
| FlowChartEditor.DeferredSaveAsWritten | src/components/FlowChartEditor.jsx:360-362 | the newest version holds the nodes and edges from before the AI change, after the versions up to the current one; it never equals the history the intended save gives for nodes that differ |
| FlowChartEditor.DeferredSaveRecordsOldVersion | src/components/FlowChartEditor.jsx:360-362 | from one saved version of an empty chart, an AI change that adds a node is recorded as a second copy of the empty chart |
| FlowChartEditor.Editor.constructor | src/components/FlowChartEditor.jsx:29-40 | the editor starts with the active chart's nodes and edges, unmodified, with an empty input, chat and history |
| FlowChartEditor.Editor.SyncWithActiveChart | src/components/FlowChartEditor.jsx:46-63 | the active chart's nodes and edges replace the local copy, which is then unmodified; an empty history gets that version as its first when the chart has any node or edge; without an active chart nothing changes |
| FlowChartEditor.Editor.SaveChanges | src/components/FlowChartEditor.jsx:84-92 | only with an active chart and unsaved changes are the nodes and edges written to the store, after which the changes count as saved |
| FlowChartEditor.Editor.SaveAIChangeToHistory | src/components/FlowChartEditor.jsx:103-117 | the current nodes and edges become the newest version, which is current; the history stays valid and capped |
| FlowChartEditor.Editor.AddChatMessage | src/components/FlowChartEditor.jsx:120-129 | appends exactly one message; nothing else changes |
| FlowChartEditor.Editor.RollbackToState | src/components/FlowChartEditor.jsx:132-142 | a saved version's nodes and edges are restored and it becomes current, the editor is marked modified and one rollback message is added; any other index changes nothing |
| FlowChartEditor.Editor.HandleClose | src/components/FlowChartEditor.jsx:145-150 | the editor closes; with unsaved changes and an active chart, the nodes and edges are written to it and the changes count as saved; otherwise the charts and the modified flag are unchanged; the editor's nodes, edges, histories and input stay as they were |
| FlowChartEditor.Editor.AddNode | src/components/FlowChartEditor.jsx:153-183 | appends one node with the React Flow type, the label "New " + type, the application type in its data and the type's colour; the editor is modified |
| FlowChartEditor.Editor.HandleNewFlowChart | src/components/FlowChartEditor.jsx:206-216 | one new empty chart is created and made active, and the editor is emptied |
| FlowChartEditor.Editor.SaveCapturedToHistory | src/components/FlowChartEditor.jsx:103-117 | the captured save as written: the nodes and edges it was given become the newest version and it is current; nothing else changes |
| FlowChartEditor.Editor.ApplyFunctionCallAsWritten | src/components/FlowChartEditor.jsx:349-367 | as written, the newest recorded version is the one from before the call, so when the call changes the nodes the current version does not hold the nodes shown |
| FlowChartEditor.Editor.ApplyFunctionCall | src/components/FlowChartEditor.jsx:349-367 | the call's nodes and edges (empty when missing) replace the editor's; the version they form is recorded as the current one; the active chart takes the call's arguments |
| FlowChartEditor.Editor.EchoInput | src/components/FlowChartEditor.jsx:310-312 | the input is echoed as the user's message on the first attempt only |
| FlowChartEditor.Editor.Conclude | src/components/FlowChartEditor.jsx:370-435 | a reply is added and the input is cleared, or nothing happens when the attempt retries |
| FlowChartEditor.Editor.HandleAiRequest | src/components/FlowChartEditor.jsx:303-443 | see the list after this table |
| ChatHistory.WithHistoryAt | src/hooks/useChatHistory.js:69-75 | only the chat at the index gets the new history and keeps its title; the others are unchanged |
| ChatHistory.WithTitleAt | src/hooks/useChatHistory.js:97-101 | only the chat at the index gets the title and keeps its history; an index past the list changes nothing |
| ChatHistory.IndexAfterDelete | src/hooks/useChatHistory.js:43-50 | deleting the viewed chat gives -1; deleting an earlier one moves the index down by one; deleting a later one keeps it |
| ChatHistory.DeleteKeepsViewedChat | src/hooks/useChatHistory.js:40-50 | deleting another chat leaves the same chat at the adjusted index |
| ChatHistory.StillOnSameChatAlways | src/hooks/useChatHistory.js:55-65 | the "still on the same chat" test compares the state with a copy of itself, so it always holds |
| ChatHistory.DeleteBeforeTitleLeavesChatUntitled | src/hooks/useChatHistory.js:83-100 | when a chat is deleted before a new chat's title arrives, the title is written past the list, and the new chat keeps "..." |
| ChatHistory.DeleteBeforeTitleRetitlesNextChat | src/hooks/useChatHistory.js:83-100 | when another chat is saved in between, it receives the first chat's title, and the first chat stays "..." |
| ChatHistory.ChatSession.constructor | src/hooks/useChatHistory.js:5-9 | empty history, no saved chats, not on a saved chat, index -1, not loading |
| ChatHistory.ChatSession.UpdateHistory | src/hooks/useChatHistory.js:13-15 | the history is replaced; nothing else changes |
| ChatHistory.ChatSession.AddToHistory | src/hooks/useChatHistory.js:17-19 | one entry is appended to the history; nothing else changes |
| ChatHistory.ChatSession.SetLoading | src/hooks/useChatHistory.js:118 | the exported `setLoading` sets the loading flag to the given value; nothing else changes |
| ChatHistory.ChatSession.CreateChat | src/hooks/useChatHistory.js:21-27 | a fresh, unsaved, not-loading conversation; the saved chats are untouched |
| ChatHistory.ChatSession.LoadChat | src/hooks/useChatHistory.js:29-35 | the given chat is viewed at the given index; the session is consistent exactly when the index points into the list |
| ChatHistory.ChatSession.DeleteChat | src/hooks/useChatHistory.js:37-51 | the chat at the index goes and the others stay in order; deleting the viewed chat starts a fresh one, deleting an earlier one moves the index down; the session stays consistent |
| ChatHistory.ChatSession.SaveChatHistory | src/hooks/useChatHistory.js:53-106 | a viewed chat gets the new history in place; an unsaved conversation is appended as "..." and becomes the viewed chat, and its index is handed to the title step |
| ChatHistory.ChatSession.ApplyGeneratedTitle | src/hooks/useChatHistory.js:94-105 | the chat at the captured index, if there still is one, takes the generated title (or "Untitled Chat"); nothing else changes |
| FileUtils.GetFileIcon | src/utils/fileUtils.js:3-47 | a listed key gives its own icon; every other string gives the default page icon, which is never empty |
| FileUtils.SomeEndsWithIff | src/utils/fileUtils.js:78 | the recursive test holds exactly when one of the extensions is a suffix |
| FileUtils.ReadModeIgnoresCase | src/utils/fileUtils.js:77-78 | the read mode does not depend on the case of the file name |
| FileUtils.TextExtensionsAreSupported | src/utils/fileUtils.js:50-66 | every text extension is also an accepted file type |
| FileUtils.SupportedExtensionsHaveIcons | src/utils/fileUtils.js:3-58 | every accepted extension after the image entry has its own icon |
| FileUtils.ImageKindGetsDefaultIcon | src/utils/fileUtils.js:47 | the icon of the attachment kind "image" is the default one |
| FileUtils.FileKindGetsDefaultIcon | src/utils/fileUtils.js:47 | the icon of the attachment kind "file" is the default one |
| FileUtils.ReadsAsText | src/utils/fileUtils.js:77-78 | a file is read as text exactly when its MIME type starts with `text/` or its lower-cased name ends with one of the text extensions |
| FileUtils.UpperCaseSourceReadsAsText | src/utils/fileUtils.js:77-79 | an upper-case source-file name is read as text |
| FileUpload.Selected | src/hooks/useFileUpload.js:11-31 | the kind is "image" exactly for an image MIME type, else "file"; exactly images carry a preview, their data URL |
| FileUpload.FirstImageIndex | src/hooks/useFileUpload.js:44-48 | the first clipboard item with an image type, or none when no item has one |
| FileUpload.PastedFrom | src/hooks/useFileUpload.js:44-67 | exactly the first image item's file is added when it has one, and nothing otherwise |
| FileUpload.PastedImageName | src/hooks/useFileUpload.js:55-58 | a pasted image is named after the time and its MIME subtype, with kind "image" |
| FileUpload.PartFor | src/hooks/useFileUpload.js:82-105 | an image is sent as inline data cut from its preview, with the file's MIME type; another file as its contents between a header and a footer naming it; an unreadable file as a placeholder naming it |
| FileUpload.PayloadOfDataUrl | src/hooks/useFileUpload.js:85 | cutting a Base64 data URL at its comma gives back the payload |
| FileUpload.FileTextHoldsContent | src/hooks/useFileUpload.js:97 | a file's contents can be cut back out of its text part |
| FileUpload.Uploader.constructor | src/hooks/useFileUpload.js:5 | no attachments |
| FileUpload.Uploader.HandleFileSelect | src/hooks/useFileUpload.js:7-38 | the picked files are appended in order, each classified by `Selected`; every image keeps a preview |
| FileUpload.Uploader.HandlePaste | src/hooks/useFileUpload.js:40-69 | the default paste is prevented exactly when some item is an image; only what `PastedFrom` gives is added; no clipboard data changes nothing |
| FileUpload.Uploader.RemoveFile | src/hooks/useFileUpload.js:71-73 | only the attachment at the index goes, and the others stay in order |
| FileUpload.Uploader.ClearFiles | src/hooks/useFileUpload.js:75-77 | no attachments remain |
| FileUpload.Uploader.ProcessFilesForAI | src/hooks/useFileUpload.js:79-109 | one part per attachment, in selection order, each as `PartFor` states; an image's inline data is cut from its own preview |

`AIService.GenerateResponse` states:

- with search forced, the contents go to the search model;
- otherwise they go to the regular model, and a `use_search_model` call sends
  the same contents to the search model;
- any thrown error becomes a failure with its message;
- a regular answer is not marked as searched and carries its function calls.

`FlowChartEditor.Editor.HandleAiRequest` states:

- a blank input or a request in flight changes nothing;
- otherwise the returned decision is `Decide`'s;
- the chat gains the echo on the first attempt and then the reply `ReplyTo`
  gives;
- the input is cleared exactly when the attempt does not retry;
- a function call applies as `ApplyFunctionCall` states;
- the loading flag ends cleared.

## Left out

- The Gemini calls, `FileReader` and `new URL(...).hostname` are parameters of the operations that use them. Which model, system instruction, tool declaration or thinking configuration is sent is not modelled.
- The clock and `Math.random` are parameters. One `now` value stands for every `Date.now()` or `new Date()` in an operation, and node positions are integers.
- Timers (`setTimeout`) and React re-rendering are not modelled. A deferred callback is a separate method the caller runs later. The editor's sync effect runs only when a caller invokes `SyncWithActiveChart`. In the source it re-runs when the active chart changes and also when the length of the version history changes (src/components/FlowChartEditor.jsx:63), so a save that grows the history also reloads the chart's nodes and edges and clears `isModified`. A caller of the model invokes it after either event.
- Strings are sequences of code points rather than UTF-16 units. `toLowerCase` lowers ASCII letters only, and `trim` knows only the ASCII white space, the no-break space, the byte-order mark and the line and paragraph separators, not the other Unicode spaces.
- Records are modelled with typed fields that are present or absent. Keys set to `undefined`, extra keys and values of the wrong type are not modelled.
- FileUtils.GetFileIcon: the lookup `iconMap[fileType]` would also find inherited object properties such as `constructor`; the model treats them as unlisted.
- FileUpload.PartFor: a preview without a comma gives `undefined` inline data in the source; the model sends the empty string.
- AIService.SortByEndDesc: its contract states order and permutation but not the stability of the source's sort for supports with equal keys.
- ChatHistory.ChatSession.DeleteChat: the session is proved consistent only for non-negative indices, which are the ones the sidebar passes.
- AIService.AddCitations: a response without `candidates` makes `response.candidates[0]?.` throw a TypeError (src/services/AIService.js:50-51); the model takes the grounding metadata as optional input and does not model that throw.
- AIService.AddCitations: `new URL(uri)` throws on a malformed URI (src/services/AIService.js:71); the model's `hostname` parameter is total, so that throw is not modelled.
- FlowChartEditor.Editor.HandleAiRequest: a retry is modelled as a fresh call that reads the editor's current input, loading flag and active chart. The source's `setTimeout(() => handleAiRequest(retryCount + 1), ...)` (src/components/FlowChartEditor.jsx:387, 400 and 431) runs the handler captured when the request started. That handler re-sends the old input and updates the chart that was active then, even if during the delay the user cleared the input or switched charts. The model does not capture that difference.
- Console logging, `usageMetadata`, the prompt text built with `JSON.stringify`, and `addCitations`' own `response.text()` call are not modelled. `addCitations` takes the text as input.
- The flow-chart function schema (src/components/FlowChartEditor.jsx:240-300) is not modelled. Its arguments are taken as a partial chart record.
- The editor's MiniMap colour, React Flow's `onConnect`/`onNodesChange`/`onEdgesChange`, and the auto-save timer (FlowChartEditor.jsx:95-100) are not modelled.
- The `addNode` default argument `'process'` is not modelled: the type is always passed.
- Calling `e.stopPropagation()` in `deleteChat` is not modelled.
- The presentation components, the landing page and `FlowChartManager.jsx` are not part of this model.

## Findings

| source | as written | input that shows it | evidently intended | confidence | as-written member | corrected member |
|---|---|---|---|---|---|---|
| src/components/FlowChartEditor.jsx:706 (with 303-312, 385, 398, 427) | the send button attaches `handleAiRequest` directly, so the click event becomes `retryCount` | type "add a start node" and click Send; `retryCount === 0` and `retryCount < 3` are both false for the event | a button send starts at attempt 0, like the Enter key: the input is echoed and up to 3 retries follow | high (not executed) | FlowChartEditor.DecideAsWritten, FlowChartEditor.ButtonSendSkipsEchoAndRetry | FlowChartEditor.Decide, FlowChartEditor.Editor.HandleAiRequest |
| src/components/FlowChartEditor.jsx:103-117, 360-362 | the deferred save calls the `saveAIChangeToHistory` captured when the request started, so it records the nodes and edges from before the AI change | history `[S0]` at index 0; the AI returns one new node; the history becomes `[S0, S0]` | the history becomes `[S0, S1]`, where `S1` holds the AI's nodes and edges | medium (not executed) | FlowChartEditor.DeferredSaveAsWritten, FlowChartEditor.Editor.ApplyFunctionCallAsWritten | FlowChartEditor.Editor.ApplyFunctionCall |
| src/components/FlowChartEditor.jsx:186-192, 219-224 | `enhancedNodes` passes `node.data?.type \|\| node.type` to `getNodeColor`; when both are missing that is `undefined`, and `nodeOrType.type` throws | a chart saved with a node that has no `type` and no `data.type` | the node is drawn in the default purple, as `FlowChart.jsx` draws it | medium (not executed) | FlowChartEditor.EnhancedNodesAsWritten, FlowChartEditor.UntypedNodeStopsRender | FlowChartEditor.EnhancedNodes, FlowChartEditor.UntypedNodeIsPurple |
