# WorkChat interaction core, modelled in Dafny

WorkChat is a browser client for a retrieval-augmented chat assistant, with a page that manages
the document store behind it. This project models the parts of it that hold logic rather than
layout:

- **The chat page** (`Chat` module). The page keeps a message log, a pending query, the text box
  and the selected category. Sending sets the pending query. An effect then appends the human
  message, clears the text box and posts the conversation. Every reply settles the exchange with
  exactly one `"ai"` message: the server's answer, or the fallback text
  `"An error has occured. Please try again!"`. A predicate decides when a message lists its sources.
- **The files page** (`Files` module). The page keeps the cached file list, the upload counter
  `{total, done}` and a staleness flag. A stale list is refreshed once. Each settled upload bumps
  `done`. A counter with `done == total` marks the list stale again. Delete filters the list
  optimistically.
- **The server's request shaping** (`Server` and `Sources` modules). `process_chat` validates
  the conversation and extracts the query and history. The retrieved documents are grouped by
  title, and the groups are ranked by their best score with a stable sort. `frontend_handler`
  chooses between a static file and the single-page-app fallback.
- **The breadcrumb trail** (`Breadcrumbs` module). The URL path is cut into segments, and the
  segments become crumb labels.

`Wrappers` (Option, Result), `Seqs` (filter, subsequence, concatenation) and `Text` (letter case,
and the regular-expression search used by the sources predicate) are shared helpers.

Both React components are classes whose fields are their `useState` values. Each handler and
effect that changes state is a method whose postcondition equates the new state with a pure
transition of the old one (`State() == Sent(old(State()))`); `Files.FilesPage.OnRunIndexerClick`
changes no state and may modify nothing. The lemmas are proved about those transitions. The
network is an input: each method that settles a request whose outcome the page reads takes the
reply (a success envelope, a failure envelope, or a transport fault).
`Files.FilesPage.OnUploadSettled` takes none, because the page ignores an upload's outcome.
Requests the code issues are out-parameters.

Where the code departs from what a reader might expect, the model follows the code:

- Assistant messages carry the role `"ai"`, not `"assistant"`.
- A second non-empty send while a request is pending is not rejected. Changing the query re-runs
  the submit effect (`SendWhilePendingIsAccepted`, `OverlappingSendsBreakPairs`). The "one
  exchange at a time" rule is therefore a precondition of the session lemmas, not a guarantee.
- Clearing the log while a request is pending is not ignored. The late reply then lands in the
  empty log (`ClearWhilePending`).
- The initial counter `{NaN, NaN}` never reads as complete, because `NaN == NaN` is false. The
  first listing comes from the stale flag's initial `true` alone. The model writes the sentinel
  as `NoBatch`.

## Model

| member | source | states |
|---|---|---|
| `Chat.AiMessage` | client/src/components/chats/Chat.tsx:72-92 | the settled reply is one `"ai"` message; a success envelope with a body gives its `response` and `sources`; every other envelope and every fault gives exactly the fallback text with no sources |
| `Chat.ShowSources` | client/src/components/chats/Chat.tsx:154-155 | a message that lists its sources has non-empty sources (the phrase test is stated by `Chat.NotFoundAnswerHidesSources`, `Chat.PhraseDotIsWildcard` and `Chat.OtherAnswersShowSources`) |
| `Chat.Exchange` | client/src/components/chats/Chat.tsx:42-97 | any exchange, pending or not, leaves the log as it was or appends exactly `[human text, ai reply]`, and keeps the category |
| `Chat.EmptySendChangesNothing` | client/src/components/chats/Chat.tsx:237-240 | clicking send with an empty text box leaves log, query, input and category unchanged |
| `Chat.SendWhilePendingIsAccepted` | client/src/components/chats/Chat.tsx:235-244 | a non-empty send while a query is pending replaces the query; nothing rejects it |
| `Chat.EmptyQuerySubmitsNothing` | client/src/components/chats/Chat.tsx:43-46 | the submit effect on an empty query changes nothing and posts nothing |
| `Chat.SubmitAppendsHumanMessage` | client/src/components/chats/Chat.tsx:49-68 | a pending query appends exactly one `"human"` message with the text box's content and clears the box; the request's `chats` is the earlier log plus that message, and its `category` is the selection (or null) |
| `Chat.SettleAppendsOneAiMessage` | client/src/components/chats/Chat.tsx:72-96 | a settled request appends exactly one `AiMessage(reply)` and clears the query; input and category are unchanged |
| `Chat.ClearEmptiesLog` | client/src/components/chats/Chat.tsx:217-219 | clear empties the log and touches nothing else |
| `Chat.CategoryChangeTouchesOnlyCategory` | client/src/components/chats/Chat.tsx:122-124 | a category change replaces the category and touches nothing else |
| `Chat.ExchangeAppendsPair` | client/src/components/chats/Chat.tsx:42-97 | from an idle page, an empty send leaves the log as it was; a non-empty send settled by any reply appends the human message, then the ai message, and leaves the page idle with an empty text box |
| `Chat.RunKeepsPairs` | client/src/components/chats/Chat.tsx:42-97 | if every exchange settles before the next action, any session of sends, clears and category changes keeps the page idle and the log a sequence of human/ai pairs |
| `Chat.RunKeepsOfferedCategory` | client/src/components/chats/Chat.tsx:14-27 | when every pick is none or one of the three picker options, the selection stays none or one of those options through any session |
| `Chat.SessionLogIsEven` | client/src/components/chats/Chat.tsx:42-97 | such a session, from a fresh page, leaves a log of even length |
| `Chat.OverlappingSendsBreakPairs` | client/src/components/chats/Chat.tsx:42-97 | two sends with different texts before the first reply put two human messages in a row |
| `Chat.ClearWhilePending` | client/src/components/chats/Chat.tsx:85-96 | a reply arriving after a clear is the only message in the log |
| `Chat.HelloExchange` | client/src/components/chats/Chat.tsx:59-80 | sending "hello" with no category posts `{category: null, chats: [human "hello"]}`; the answer "hi" gives the log `[human "hello", ai "hi"]` |
| `Chat.FallbackHidesSources` | client/src/components/chats/Chat.tsx:154-155 | the fallback message never lists sources |
| `Chat.NotFoundAnswerHidesSources` | client/src/components/chats/Chat.tsx:154-155 | an answer containing the "unable to find any information" phrase, in any ASCII letter case and with any text around it, does not list its sources |
| `Chat.PhraseDotIsWildcard` | client/src/components/chats/Chat.tsx:155 | the phrase is a regular expression: its `.` may be any single UTF-16 code unit (a character below U+10000) except a line terminator and U+0130, and the sources are still hidden |
| `Chat.OtherAnswersShowSources` | client/src/components/chats/Chat.tsx:154-155 | a message with non-empty sources whose content does not match the phrase lists them |
| `Chat.ChatPage.constructor` | client/src/components/chats/Chat.tsx:30-34 | empty log, empty query, empty text box, no category |
| `Chat.ChatPage.OnInputChange` | client/src/components/chats/Chat.tsx:230-232 | the text box takes the typed text |
| `Chat.ChatPage.OnSendClick` | client/src/components/chats/Chat.tsx:237-243 | new state is `Sent` of the old: ignored when the box is empty, else the box's text becomes the query |
| `Chat.ChatPage.SubmitEffect` | client/src/components/chats/Chat.tsx:42-70 | the new state and the request posted are `Submitted` of the old state |
| `Chat.ChatPage.OnSettled` | client/src/components/chats/Chat.tsx:71-96 | new state is `Settled` of the old: one ai message appended, query cleared |
| `Chat.ChatPage.OnClearClick` | client/src/components/chats/Chat.tsx:217-219 | new state is the old with an empty log |
| `Chat.ChatPage.OnCategoryChange` | client/src/components/chats/Chat.tsx:122-124 | new state is the old with the new category |
| `Files.InitialState` | client/src/components/files/FilesPage.tsx:65-68 | the page starts with an empty list and marked stale; the sentinel counter is not complete, even after a bump; the counter's effect on mount changes nothing |
| `Files.FreshListIsNotRefreshed` | client/src/components/files/FilesPage.tsx:72-74 | the refresh effect on a fresh list changes nothing |
| `Files.RefreshOutcome` | client/src/components/files/FilesPage.tsx:85-92 | a stale refresh replaces the list with the body of a success envelope, keeps it on a failure envelope or a fault, and always clears the stale flag |
| `Files.EmptyPickChangesNothing` | client/src/components/files/FilesPage.tsx:136-140 | picking no file changes nothing |
| `Files.BatchStartResetsCounter` | client/src/components/files/FilesPage.tsx:141-144 | picking n > 0 files sets the counter to `{n, 0}` and does not mark the list stale |
| `Files.BatchAccounting` | client/src/components/files/FilesPage.tsx:162-170 | after k of a batch's n uploads settle, in any outcome, the counter is `{n, k}` (so done ≤ total), the list is unchanged, and the list is marked stale exactly when k = n |
| `Files.ThreeFileBatch` | client/src/components/files/FilesPage.tsx:70-100 | three settled uploads give `{3, 3}` and a stale list; a failed refresh then keeps the old list and clears the flag |
| `Files.DeleteFiltersByName` | client/src/components/files/FilesPage.tsx:224 | delete removes every entry with the name, keeps every other entry as often as it occurred and in order, and leaves counter and flag alone |
| `Files.UploadRequests` | client/src/components/files/FilesPage.tsx:147-171 | the loop issues exactly one upload per picked file, in order |
| `Files.FilesPage.constructor` | client/src/components/files/FilesPage.tsx:65-68 | empty list, no batch, stale |
| `Files.FilesPage.RefreshEffect` | client/src/components/files/FilesPage.tsx:70-93 | a listing request, `GET /api/v1/files/list`, is issued exactly when the list is stale; new state is `Refreshed` of the old |
| `Files.FilesPage.CompletionEffect` | client/src/components/files/FilesPage.tsx:95-100 | a counter with `done == total` marks the list stale; nothing else changes |
| `Files.FilesPage.OnFilesPicked` | client/src/components/files/FilesPage.tsx:134-172 | new state is `BatchStarted` of the old for the number of picked files; one upload request, `POST /api/v1/files/upload`, per file, in order |
| `Files.FilesPage.OnUploadSettled` | client/src/components/files/FilesPage.tsx:170 | done grows by one, then the counter's effect runs |
| `Files.FilesPage.OnDeleteClick` | client/src/components/files/FilesPage.tsx:222-243 | the list is filtered at once and one delete request, `POST /api/v1/files/<name>/delete`, is issued, with no rollback |
| `Files.FilesPage.OnRunIndexerClick` | client/src/components/files/FilesPage.tsx:185-203 | issues the indexer request, `POST /api/v1/indexer/run`; it may modify nothing, so list, counter and flag are unchanged |
| `Server.ProcessChat` | server/main.py:313-323 | an empty conversation fails with 400 "Invalid chat query"; otherwise the query is the last message's content and the history is drawn from the messages before it |
| `Server.History` | server/main.py:320-323 | the history has exactly as many entries as the earlier messages with a known role and non-empty content |
| `Server.HistoryFromEarlier` | server/main.py:320-323 | the history is a subsequence of the (role, content) pairs of the earlier messages; it holds only known roles with non-empty content, every such earlier message, and exactly as many entries as there are such messages, so it is exactly those messages in order |
| `Server.AnswerBody` | server/main.py:409-415 | the answer body carries the chain's response and the grouped sources ranked: a permutation, non-increasing by best score, with groups tied at any best score in dictionary order |
| `Server.FrontendHandler` | server/main.py:418-426 | a static file is served exactly when the path is non-empty and exists, and it is the requested path; otherwise `index.html` |
| `Server.FrontendServesExisting` | server/main.py:420-426 | when `index.html` exists, every served file exists |
| `Sources.IndexOfKey` | server/main.py:341 | the dictionary lookup: the first entry with the key, or the end when there is none |
| `Sources.AppendScore` | server/main.py:338-341 | the `defaultdict` append keeps every existing key in place, appends the score to the entry holding the key and leaves every other entry's scores alone, adds an entry `(key, [score])` at the end exactly when the key is new, and adds one score in total |
| `Sources.Grouped` | server/main.py:335-341 | the dictionary after the loop has at most one entry per document, and at least one when a document was retrieved |
| `Sources.GroupSources` | server/main.py:335-341 | the loop builds one entry per distinct `("document", title)` of the retrieved documents; each entry's scores are that title's scores in retrieval order and are non-empty; the entries hold one score per document |
| `Sources.GroupedMatchesReference` | server/main.py:335-341 | the dictionary lists the distinct keys in first-appearance order, each with exactly its documents' scores |
| `Sources.KeysOfDistinct` | server/main.py:339-341 | the first-appearance keys are distinct and are exactly the documents' keys |
| `Sources.GroupedTotal` | server/main.py:338-341 | the scores across all entries number the retrieved documents |
| `Sources.GroupedFacts` | server/main.py:335-341 | the facts of `GroupSources`, about the dictionary itself |
| `Sources.MaxScore` | server/main.py:346 | `max` of a non-empty list is one of its elements and is at least every element |
| `Sources.InsertByRank` | server/main.py:344-348 | one insertion step keeps every group and adds the new one (multiset) |
| `Sources.SortedByRank` | server/main.py:344-348 | the ranked list is a permutation of the groups |
| `Sources.SortedByRankNonIncreasing` | server/main.py:344-348 | the ranked list is non-increasing by each group's best score |
| `Sources.SortedByRankStable` | server/main.py:344-348 | groups tied at any best score keep their dictionary order, which is first-appearance order |
| `Sources.SourcesMetadata` | server/main.py:335-348 | `sources_metadata_items` is a permutation of the grouped entries, non-increasing by best score, with ties in dictionary order |
| `Breadcrumbs.Split` | client/src/components/Header.tsx:26 | `split('/')` gives at least one piece, and no piece holds the separator |
| `Breadcrumbs.SplitJoin` | client/src/components/Header.tsx:26 | joining the pieces with the separator gives back the string |
| `Breadcrumbs.PathSegments` | client/src/components/Header.tsx:26 | every segment is non-empty and holds no '/' |
| `Breadcrumbs.PathSegmentsSpellPath` | client/src/components/Header.tsx:26 | the segments, in order, concatenate to the path after its first character with every '/' removed; they are the non-empty pieces between slashes |
| `Breadcrumbs.RootPathHasNoSegments` | client/src/components/Header.tsx:26 | "/" and "" give no segment |
| `Breadcrumbs.FilesPathSegments` | client/src/components/Header.tsx:26 | "/files" gives ["files"] |
| `Breadcrumbs.Capitalized` | client/src/components/NavbarBreadcrumbs.tsx:42 | keeps the length; the first character is upper-cased and every other character lower-cased |
| `Breadcrumbs.CapitalizedIdempotent` | client/src/components/NavbarBreadcrumbs.tsx:42 | capitalising twice is capitalising once |
| `Breadcrumbs.Crumbs` | client/src/components/NavbarBreadcrumbs.tsx:30-46 | 2 + max(0, n − 1) crumbs; first "WorkChat"; then all values but the last, in order, and none for one value or none; last the final value capitalised, or "Home" when values are absent or empty |
| `Breadcrumbs.HeaderCrumbs` | client/src/components/NavbarBreadcrumbs.tsx:34-38 | for the header's segments, every middle crumb is non-empty and holds no '/' |
| `Breadcrumbs.RootPathCrumbs` | client/src/components/NavbarBreadcrumbs.tsx:41-45 | the path "/" shows "WorkChat", "Home" |
| `Breadcrumbs.FilesPathCrumbs` | client/src/components/NavbarBreadcrumbs.tsx:41-45 | the path "/files" shows "WorkChat", "Files" |
| `Text.Lower` | client/src/components/chats/Chat.tsx:155 | `toLowerCase` keeps the length and lowers each character |
| `Text.Upper` | client/src/components/NavbarBreadcrumbs.tsx:42 | `toUpperCase` keeps the length and raises each character |
| `Text.ContainsMatch` | client/src/components/chats/Chat.tsx:155 | `match` is non-null: a match needs a text at least as long as the pattern, and the empty pattern matches every text |
| `Text.LiteralOccurrenceMatches` | client/src/components/chats/Chat.tsx:155 | a text containing the pattern literally matches it |
| `Text.WildcardMatchesAnyCharacter` | client/src/components/chats/Chat.tsx:155 | a `.` in the pattern matches any character below U+10000 (one UTF-16 code unit) except a line terminator and U+0130, in the lowered text |

## Left out

- Rendering: all MUI layout and styling, the route table of `App.tsx`, and the auto-scroll
  effect (Chat.tsx:37-40). They are presentation only.
- HTTP and JSON: `fetch`, response parsing, the `NODE_ENV` base-URL choice and the
  `User-Agent` header. Replies enter as inputs; `Files.Endpoint` records each request's method and path.
- Float and date formatting: `readableFileSize`, the locale date string and `toFixed(5)` on
  scores.
- Concurrency: real interleavings of requests are not modelled. Completions are discrete events.
  `Chat.Exchange` settles an exchange before the next action. `Files.BatchAccounting` covers one
  batch whose uploads settle before another batch starts. Overlapping batches are not
  modelled: late completions of an old batch would bump the new batch's `done`.
- React update batching and effect scheduling: the refresh is one step. So the model cannot show
  the case where a batch completes while a listing request is in flight. There the flag is
  already true, so the refresh effect would not run again.
- Server glue: configuration and client construction, the Azure Search retriever, the LangChain
  chain, the 429 rate-limit mapping, the style-guide text, and the list, delete, upload, indexer,
  status and header endpoints. These are thin SDK wrappers or need the `prompts` module, which is
  not part of this model. The retrieved documents and the chain's answer are parameters of
  `Server.AnswerBody`.
- Search scores are integers. The code only compares them and takes their maximum.
- Server.FrontendHandler: file existence is an abstract predicate over the requested path.
  `pathlib` joining is not modelled, including absolute paths and `..`.
- Chat.ChatPage.OnCategoryChange: accepts any category. The picker offers only
  `Chat.CategoryOptions` or none; the model does not enforce that on the handler, and
  `Chat.RunKeepsOfferedCategory` states what follows when the picks are offered ones.
- Text.Lower: models case over the ASCII letters only. JavaScript's full Unicode case mapping can
  change a string's length, for example "ß".toUpperCase() is "SS".
- Text.Upper: same ASCII-only case model as `Text.Lower`.
- Text.ContainsMatch: strings are sequences of Unicode characters, not UTF-16 code units. A
  character at or above U+10000 is two code units in JavaScript, which one `.` (no `u` flag)
  does not cover, while here a `.` facing it matches it. The wildcard lemmas therefore require a
  character below U+10000.
- Chat.PhraseDotIsWildcard: excludes U+0130 (İ). JavaScript lowers it to the two code units
  U+0069 U+0307, so the `.` takes the `i` and the next literal fails; the ASCII `Text.Lower`
  keeps it as one character. Every other character below U+10000 lowers to one code unit.
- Text.WildcardMatchesAnyCharacter: excludes U+0130 for the same reason.
- Breadcrumbs.Capitalized: length is preserved only under the ASCII case model. Strings are
  sequences of characters, not UTF-16 code units.
- Malformed success envelopes: a chat body whose `response` field is missing is not modelled.
  Neither is a listing success envelope without a `body`. The server always sends both.
