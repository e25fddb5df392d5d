# Local RAG-SLM client controller, in Dafny

This project models the client-side controller of the Local RAG-SLM web
front end. That is the state and event handlers of the `Home` component, and
the prompt-template menu (`PromptSelector`). The controller uploads documents
into named collections, keeps a cached list of documents and collection names,
and runs a chat loop against the backend. In that loop the user's message is
appended optimistically and rolled back when the request fails.

The model does no I/O. Each backend round-trip is an `Outcome` value passed
to the handler: `Success(payload)`, or `Failure(detail)` where `detail` is the
optional `detail` string of the error response. The clock (`Date.now()`) is
passed in as a `nat` too.

Each asynchronous handler is split at its `await`:

- a `Begin…` method runs the synchronous part, up to and including the
  request;
- a `Complete…` method takes the outcome;
- a method without a prefix (`Upload`, `Delete`, `SendMessage`,
  `FetchDocuments`) runs both, one handler finishing before the next starts.

Every backend call the controller issues is appended to the `requests` field,
so "no request is made" and "both lists are refetched exactly once" are
statements about that log. The `fetchDocuments()` and `fetchCollections()`
calls that the upload and delete handlers do not await run their synchronous
part at once. So a successful upload or delete leaves `loading` true and
`GetDocuments, GetCollections` at the end of the log. Their completion is a
separate `CompleteFetch…` call.

Every state-changing method gives the whole new state as
`State() == old(State()).(field := …)`, so every field it does not mention is
unchanged. Notices (toasts) are returned as `Notice` values and never feed
back into state.

Modules:

- `Text` (text.dfy): ASCII `trim`, `toLowerCase`, `lastIndexOf`, one-argument
  `substring`, and decimal numerals with their inverse.
- `Backend` (backend.dfy): outcomes, request and response records, notices,
  and the `detail || generic` error text.
- `FileType` (file_type.dfy): the upload file-type check.
- `Session` (session.dfy): session ids.
- `Chat` (chat.dfy): messages, the collection filter, the send-enable rule,
  and the shape of the history.
- `App` (app.dfy): class `Home`.
- `Prompts` (prompts.dfy): the template list, its fallback and class
  `PromptSelector`.

In these places the model follows the code as written:

- A blank collection field is sent as it is. The code only initialises the
  field to `"default"` and resets it to `"default"` after a successful upload.
- Clearing the chat makes `session_<now>`. The new id differs from the
  previous one only when the clock reading differs. `SessionIdInjective`
  proves exactly that, and nothing stronger.
- Error notices show the backend's `detail` only when it is present and
  non-empty (JavaScript `||`). A failed delete never shows it.
- `sessionId` is `null` until the mount effect runs.

## Model

| member | source | states |
|---|---|---|
| Text.Trim | frontend/src/App.js:122 | the trimmed string is no longer than the original and neither starts nor ends with (ASCII) whitespace |
| Text.TrimRemovesOnlyEnds | frontend/src/App.js:122 | `trim` removes whitespace at the two ends only: the result is a contiguous part of the original, and everything before and after it is (ASCII) whitespace |
| Text.BlankIffAllSpace | frontend/src/App.js:122 | trimming gives the empty string exactly when every character is (ASCII) whitespace, the empty query included |
| Text.IsBlank | frontend/src/App.js:122 | `!query.trim()` holds exactly when every character of the query is whitespace |
| Text.LastIndexOf | frontend/src/App.js:69 | the result is -1 or an index holding the character, and no later index holds it (so -1 means the character does not occur) |
| Text.SubstringFrom | frontend/src/App.js:69 | one-argument `substring` returns a suffix of the string: the whole string for a start at or below 0, exactly `|s| - start` characters for a start inside the string, and `""` for a start at or past the end |
| Text.ToLower | frontend/src/App.js:69 | lower-casing keeps the length and maps each character by ASCII `toLowerCase` |
| Text.Decimal | frontend/src/App.js:154 | the rendered clock value is a non-empty string of digits with no leading zero except "0" |
| Text.ParseDecimalOfDecimal | frontend/src/App.js:154 | reading the decimal numeral back gives the original number (round trip) |
| Text.DecimalInjective | frontend/src/App.js:154 | distinct numbers render to distinct numerals, and equal numbers to equal ones |
| Backend.ErrorText | frontend/src/App.js:103 | the notice is the backend's detail when it is present and non-empty, else the generic message; it is never empty when the generic message is not |
| FileType.AllowedIffEndsWithExtension | frontend/src/App.js:67-73 | a file is accepted exactly when its name ends, ignoring ASCII case, with ".pdf", ".docx" or ".txt"; a dot-less name, compared whole, is never accepted |
| FileType.LastDotStartsSuffix | frontend/src/App.js:69 | when a name ends with a dot followed by dot-free text, `lastIndexOf('.')` is the position of that dot |
| FileType.ExtensionOfSuffix | frontend/src/App.js:69 | such a name's extracted extension is that suffix, lower-cased |
| FileType.LowerKeepsDots | frontend/src/App.js:69 | lower-casing neither creates nor removes a dot at any position |
| FileType.Extension | frontend/src/App.js:69 | the extension is the lower-cased suffix of the name from its last dot; for a name without a dot it is the whole name lower-cased; it starts with a dot exactly when the name contains one, and has no later dot |
| FileType.IsAllowedFile | frontend/src/App.js:68-70 | an accepted name contains a dot and is at least four characters long |
| FileType.AcceptedEndsWithExtension | frontend/src/App.js:68-70 | every accepted name ends, ignoring case, with ".pdf", ".docx" or ".txt" |
| FileType.EndsWithExtensionAccepted | frontend/src/App.js:68-70 | every name ending, ignoring case, with a listed extension is accepted |
| FileType.AcceptsUpperCaseExtension | frontend/src/App.js:68-70 | "report.v2.PDF" is accepted |
| FileType.RejectsOtherExtension | frontend/src/App.js:68-70 | "notes.md" is rejected |
| FileType.RejectsNameWithoutDot | frontend/src/App.js:68-70 | "pdf" (no dot) is rejected |
| Session.SessionId | frontend/src/App.js:39 | an id is "session_" followed by decimal digits only |
| Session.ClockOfSessionId | frontend/src/App.js:154 | the clock reading can be read back from the id it produced |
| Session.SessionIdInjective | frontend/src/App.js:152-156 | two ids are equal exactly when the clock readings they were made from are equal |
| Chat.CollectionFilter | frontend/src/App.js:132 | the request's collection is null exactly when the filter is "all"; otherwise it is the filter verbatim |
| Chat.SendEnabled | frontend/src/App.js:267 | the send button is enabled exactly when no reply is pending, at least one document exists and the query has a non-whitespace character |
| Chat.EnabledSendIsNotBlank | frontend/src/App.js:267 | an enabled send button means the handler's blank check passes |
| Chat.UserMessage | frontend/src/App.js:124 | the user message has role user, the raw untrimmed query as content, and no sources |
| Chat.AssistantMessage | frontend/src/App.js:136-140 | the assistant message has role assistant, the response's answer as content and its sources verbatim |
| Chat.DropLast | frontend/src/App.js:146 | `slice(0, -1)` removes exactly the last message, and leaves an empty history empty |
| Chat.TranscriptAppendTurn | frontend/src/App.js:121-150 | appending a user message and then an assistant message to a completed history gives a completed history |
| Chat.SendKeepsShape | frontend/src/App.js:124-127 | sending from a completed history leaves a completed history plus one pending user message |
| Chat.ReplyKeepsShape | frontend/src/App.js:136-141 | the assistant reply after a pending user message gives a completed history |
| Chat.RollbackKeepsShape | frontend/src/App.js:142-146 | dropping the pending user message gives a completed history |
| Chat.RollbackUndoesSend | frontend/src/App.js:125-146 | dropping the last message after the optimistic append restores the history exactly |
| App.UploadedText | frontend/src/App.js:96 | the upload success notice starts with the uploaded file name and ends with the chunk count in decimal followed by " chunks indexed)" |
| App.Home.constructor | frontend/src/App.js:21-33 | the initial field values: empty lists, no file, collection "default", flags false, empty query, no session id, filter "all", no requests |
| App.Home.Mount | frontend/src/App.js:35-40 | mounting starts one documents fetch and one collections fetch and sets the session id from the clock; nothing else changes |
| App.Home.BeginFetchDocuments | frontend/src/App.js:42-45 | `loading` is raised and one documents request is issued; nothing else changes |
| App.Home.CompleteFetchDocuments | frontend/src/App.js:45-52 | success replaces the cached documents with the response list (`[]` when absent); failure keeps them and shows the error; `loading` is false either way |
| App.Home.FetchDocuments | frontend/src/App.js:42-53 | a whole fetch issues one request, leaves `loading` false, changes `documents` only on success, and shows an error notice exactly on failure |
| App.Home.BeginFetchCollections | frontend/src/App.js:55-57 | one collections request is issued; nothing else changes |
| App.Home.CompleteFetchCollections | frontend/src/App.js:57-61 | success replaces the cached names with the response list (`[]` when absent); failure changes nothing and shows nothing |
| App.Home.ChooseFile | frontend/src/App.js:64-76 | an accepted file becomes `selectedFile`; a rejected file only raises the "only PDF, DOCX, TXT" notice; no file changes nothing |
| App.Home.EditCollection | frontend/src/App.js:323 | typing sets the collection field to the text as typed |
| App.Home.BeginUpload | frontend/src/App.js:78-94 | with no selected file, no request and no state change; otherwise `uploading` is raised and the file is posted with the collection text verbatim |
| App.Home.CompleteUpload | frontend/src/App.js:96-106 | success clears the file, resets the collection to "default" and refetches documents and collections once each; failure keeps the form and shows the detail-or-generic text; `uploading` is false either way |
| App.Home.Upload | frontend/src/App.js:78-107 | a whole upload: no file means no change at all; success resets the form and issues post, documents fetch and collections fetch in that order; failure changes only the request log; the notice is "Please select a file", the success text or the detail-or-generic text accordingly |
| App.Home.BeginDelete | frontend/src/App.js:109-111 | one delete request for the given id is issued; nothing else changes |
| App.Home.CompleteDelete | frontend/src/App.js:112-118 | success refetches documents and collections once each; failure changes nothing, with no local removal, and shows the generic text |
| App.Home.Delete | frontend/src/App.js:109-119 | a whole delete never changes the cached documents or collections itself; it refetches both on success, issues nothing more on failure, and notices success or the generic failure text |
| App.Home.EditQuery | frontend/src/App.js:260 | typing sets the query to the text as typed |
| App.Home.SelectCollection | frontend/src/App.js:190 | choosing a filter entry sets `selectedCollection` to it |
| App.Home.BeginSend | frontend/src/App.js:121-134 | a blank query changes nothing; otherwise the raw query is appended as a user message, the query is cleared, `chatLoading` is raised, and the request carries the pre-clear query, the mapped filter and the current session id; the history shape is kept (the steps after the blank check are `App.Home.Dispatch`) |
| App.Home.Dispatch | frontend/src/App.js:124-134 | for a query already known not to be blank: the user message is appended, the query cleared, `chatLoading` raised and the chat request logged, with every other field unchanged; an idle transcript becomes a transcript with one pending user message |
| App.Home.CompleteSend | frontend/src/App.js:136-149 | success appends the assistant message with its answer and sources; failure drops the last message and shows the detail-or-generic text; `chatLoading` is false either way; the history shape is kept |
| App.Home.SendMessage | frontend/src/App.js:121-150 | a whole send: success gives `old ++ [user, assistant]` (two more messages, in that order); failure gives the old history exactly and the detail-or-generic notice; blank changes nothing and shows nothing |
| App.Home.ClearChat | frontend/src/App.js:152-156 | the history becomes empty and the session id becomes "session_" plus the clock value, in one step; nothing else changes |
| Prompts.PromptsAfterFetch | frontend/src/components/PromptSelector.js:18-31 | a success gives the response's list verbatim (`[]` when absent), every failure gives the fallback, and no error escapes |
| Prompts.Fallback | frontend/src/components/PromptSelector.js:24-30 | five named entries; the first inserts the empty string and every other one a non-empty text |
| Prompts.MenuShown | frontend/src/components/PromptSelector.js:36 | the menu renders exactly when the list is non-empty |
| Prompts.FailedFetchShowsFallback | frontend/src/components/PromptSelector.js:22-30 | after a failure the menu is shown with exactly five entries in order, the first being "Chat (Default)" with empty content |
| Prompts.MenuHiddenIff | frontend/src/components/PromptSelector.js:36 | the menu is hidden exactly when a successful fetch gave an absent or empty list |
| Prompts.PromptSelector.constructor | frontend/src/components/PromptSelector.js:15 | the list starts empty, so the menu starts hidden |
| Prompts.PromptSelector.FetchPrompts | frontend/src/components/PromptSelector.js:17-34 | the fetch sets `prompts` to the list for its outcome; after a failure the menu shows five items |
| Prompts.PromptSelector.SelectPrompt | frontend/src/components/PromptSelector.js:48-51 | choosing an item passes exactly that item's content; "Chat (Default)" from the fallback passes "" |

## Left out

- HTTP: the axios calls, the multipart form encoding and the backend base URL are not modelled. Each round-trip is an outcome parameter, and the request log records what was sent.
- `toast` and `console`: they have no effect on state. Notices are returned as values. The success text of an upload is modelled, but the rendering of toasts is not.
- Overlapping handlers: two sends in flight, a clear during a send, and refresh fetches racing each other are concurrency and are not modelled. The composed methods assume one handler finishes before the next starts. The `Begin`/`Complete` steps are total, so they can be called in any order, but the history-shape guarantees are stated only for the sequential order.
- `Date.now()` is a parameter. The model does not claim that two clears give different ids.
- Unicode: `trim` uses the six ASCII whitespace characters only, and `toLowerCase` maps only `A`–`Z`.
- Response fields of the wrong JSON type (say a non-string `detail` or a non-array `documents`), and an upload receipt without `filename` or `chunks`, are not modelled.
- A chat reply without `answer` is not modelled. The source would then append an assistant message whose content is `undefined`; in the model `ChatReply.answer` is always a string.
- Rendering: JSX, styling, the router, icons, the `(file_size / 1024).toFixed(1)` size display, the `key` props and the disabled state of the inputs and the upload button are not modelled. `App.Home.Upload` instead assumes that no upload is in flight, which is what the upload button's `uploading` condition (line 334) ensures. The send-enable rule at line 267 is modelled.
- A `PromptSelector` whose `apiUrl` changes fetches again; `FetchPrompts` models each such fetch. A stale response arriving after a newer one is concurrency and is not modelled.
- The collection list is what the backend returns. The client never derives it from the documents, so no invariant ties the two caches together.
