# ResQ-Her assistant controllers in Dafny

ResQ-Her is a personal-safety web application. Two of its screens talk to
a FastAPI backend:

- the **Law Bot** page keeps a chat transcript, sends each question to
  `/api/law_bot`, and primes the legal knowledge base once through
  `/api/load_legal_data` when it mounts;
- the **SOS** page turns a few keywords into a formal distress message
  through `/api/expand_message` and shows it as a preview.

This project models those two page controllers and the backend logic that
shapes their requests: guards, context and sources assembly, prompt
templates, and the knowledge-store reload. Each asynchronous handler is
modelled as two pure transitions: the synchronous part up to its `await`,
which returns the new state and the request it issues, and the part that
runs when the `fetch` settles. The settled outcome is a parameter:
`Reply<T>` is either `Responded(status, body)` or `Thrown(error)`, and a
body that does not decode stands for `.json()` throwing. The model client,
the embedding model and MongoDB are opaque. What they produced is passed
in as `Generation` / `Encoding` values, and the stored collection is a
sequence.

Modules:

- `Strings` (strings.dfy): ECMAScript `trim` and Python `strip`. Both are
  one generic `Trim` over an explicit whitespace set (`IsJsSpace`,
  `IsPySpace`). `IsTrimOf` is an independent reference definition, and
  `Trim` is proved to be its unique witness. Also Python `str.join`.
- `Http` (http.dfy): the base-URL truthiness test, `Reply<T>`, and `Step`.
- `LawBot` (law_bot.dfy): `handleSend`, `loadLegalData` and the mount
  effect.
- `LawBotPage` (law_bot_page.dfy): the Law Bot page over any sequence of
  edit / send / settle / primed events.
- `Sos` (sos.dfy), `SosPage` (sos_page.dfy): `handleSendSOS`, alone and
  over event sequences.
- `Backend` (backend.dfy): `load_legal_data`, `law_bot` and
  `expand_message`.
- `EndToEnd` (end_to_end.dfy): both pages wired to the endpoints they call.

Some facts about the code as written that shape the model:

- The Law Bot page keeps no error state. A failed question appends the
  apology and clears `isLoading`, exactly as a successful one clears it.
- Without a base URL, a Law Bot question appends the user turn only; no
  bot message follows.
- A failed priming call leaves the page state unchanged.
- The three pages are separate components that share no state.
- The therapy page has no request handler, so nothing of it is modelled.

## Model

| member | source | states |
|---|---|---|
| Strings.IsJsSpace | frontend/src/app/sos/page.tsx:26 | the characters ECMAScript `trim` removes: the WhiteSpace code points (tab, VT, FF, space, NBSP, ZWNBSP and the Zs spaces) and the LineTerminator code points |
| Strings.IsPySpace | backend/main.py:228 | the characters Python `str.strip()` removes, those for which `str.isspace` holds, including the separators 0x1C-0x1F and NEL but not ZWNBSP |
| Strings.WhitespaceSetsDiffer | backend/main.py:163 | the two sets differ (NEL is Python-only, ZWNBSP ECMAScript-only) while agreeing on space, tab and line breaks |
| Strings.Trim | frontend/src/app/sos/page.tsx:26 | the trimmed string meets the reference definition: it is a slice of the input, everything cut away on both sides is whitespace, and it neither starts nor ends with whitespace |
| Strings.TrimOfUnique | frontend/src/app/sos/page.tsx:26 | the reference definition of trimming has exactly one solution for each input, so `Trim` is fully specified by it |
| Strings.TrimEmptyIff | frontend/src/app/law-bot/page.tsx:65 | an input trims to the empty string exactly when every character is whitespace (both directions) |
| Strings.TrimIdempotent | frontend/src/app/sos/page.tsx:26 | trimming an already trimmed string changes nothing |
| Strings.Join | backend/main.py:204 | the join's length is the sum of the parts' lengths plus one separator between each neighbouring pair, and a single part is joined to itself |
| Strings.JoinAppend | backend/main.py:204 | appending a part to a non-empty list appends the separator and then that part to the join, so with the one-part case the join is the parts in order with the separator between neighbours |
| Strings.JoinEmptyIff | backend/main.py:204-206 | with a non-empty separator, the join is empty exactly when there are no parts or a single empty part |
| Http.Configured | frontend/src/app/law-bot/page.tsx:32 | JavaScript truthiness of the build-time base URL: an unset and an empty value are both "not configured" |
| LawBot.PrimeStart | frontend/src/app/law-bot/page.tsx:30-39 | priming sends a request exactly when the base is not yet primed and the base URL is set, and changes no state |
| LawBot.PrimeDone | frontend/src/app/law-bot/page.tsx:40-48 | the primed flag becomes true exactly on an ok status, is otherwise unchanged and is never cleared, and nothing else changes |
| LawBot.PrimeOnceAfterSuccess | frontend/src/app/law-bot/page.tsx:31-42 | after a successful priming call, asking to prime again sends nothing |
| LawBot.Mount | frontend/src/app/law-bot/page.tsx:52-60 | after mount the transcript is exactly the welcome bubble with id 0, nothing is loading or primed, and one priming request is sent exactly when the base URL is set |
| LawBot.Submit | frontend/src/app/law-bot/page.tsx:63-83 | a blank input or a request in flight leaves the state unchanged and sends nothing; otherwise the untrimmed user turn is appended, the input is cleared, the primed flag is kept, and the same text is sent when (and only when) the base URL is set, which is also when loading stays on |
| LawBot.Answer | frontend/src/app/law-bot/page.tsx:85-110 | exactly one bot bubble is appended and earlier ones are untouched; it carries the answer and its sources for an ok decodable reply, and the fixed apology with no sources otherwise; loading ends and the input and primed flag are kept |
| LawBot.HandleSend | frontend/src/app/law-bot/page.tsx:63-111 | a rejected submit changes nothing and sends nothing; an accepted one ends not loading with the input cleared, appends the user turn and, only when the base URL is set, one bot turn, and sends the untrimmed input only then |
| LawBot.FailureTextIsFixed | frontend/src/app/law-bot/page.tsx:100-107 | every failed reply, whatever its status or error, leaves the same state, whose new bubble is the fixed apology |
| LawBotPage.Boot | frontend/src/app/law-bot/page.tsx:52-60 | the mounted page shows only the welcome bubble, nothing is in flight, and priming is in flight exactly when the base URL is set |
| LawBotPage.Apply | frontend/src/app/law-bot/page.tsx:172-184 | one event of a visit: edits are ignored while the input is disabled during loading, a send runs the submit step, and a settlement or priming reply runs its completion step |
| LawBotPage.ApplyKeeps | frontend/src/app/law-bot/page.tsx:63-111 | one event keeps the loading flag equal to "a question is in flight", keeps the old transcript as a prefix of the new one, and never unprimes |
| LawBotPage.RunKeeps | frontend/src/app/law-bot/page.tsx:63-111 | over any event sequence the loading flag tracks the outstanding question, the transcript only grows by appending, and a primed base stays primed |
| LawBotPage.SingleFlight | frontend/src/app/law-bot/page.tsx:65 | a submit while a question is in flight changes nothing and issues no second request |
| LawBotPage.WelcomeStaysFirst | frontend/src/app/law-bot/page.tsx:55-59 | whatever happens during a visit, the welcome bubble stays the first message |
| LawBotPage.PrimedForGood | frontend/src/app/law-bot/page.tsx:31-42 | after a successful priming, no later event unprimes the base and priming would send nothing |
| Sos.MessageToSend | frontend/src/app/sos/page.tsx:26 | the payload is the fixed default when the keywords are all whitespace, and otherwise the trim of the keywords; it is never empty and never has whitespace at either end |
| Sos.MessageToSendIdempotent | frontend/src/app/sos/page.tsx:26 | normalising an already normalised payload changes nothing |
| Sos.SendStart | frontend/src/app/sos/page.tsx:21-36 | a press while loading changes nothing and sends nothing; otherwise the preview becomes the placeholder, the send time is cleared, the keywords are kept, and the normalised keywords are sent (with loading staying on) exactly when the base URL is set |
| Sos.SendDone | frontend/src/app/sos/page.tsx:46-69 | loading ends and the keywords are kept; an ok decodable reply sets the preview to the expanded text and records the send time, and anything else shows the fixed failure sentence and leaves the send time alone |
| Sos.HandleSendSos | frontend/src/app/sos/page.tsx:21-70 | while loading, nothing changes; otherwise the send ends not loading with the keywords untouched, a send time exists exactly when the base URL is set and the request succeeded, and the preview is the expanded text, the failure sentence, or the placeholder when nothing was sent |
| Sos.FailureTextIsFixed | frontend/src/app/sos/page.tsx:64-66 | every failed reply, whatever its status or error, leaves the same state |
| SosPage.Apply | frontend/src/app/sos/page.tsx:90-131 | one event of a visit: edits are ignored while the textarea is disabled during loading, either send control runs the start step, and a settlement runs the completion step |
| SosPage.RunKeepsInv | frontend/src/app/sos/page.tsx:23-30 | over any event sequence, loading is on exactly while a request is outstanding, and meanwhile the preview is the placeholder and there is no send time |
| SosPage.VisitKeepsInv | frontend/src/app/sos/page.tsx:16-19 | every page reachable from the first render satisfies that invariant |
| SosPage.SingleFlight | frontend/src/app/sos/page.tsx:23 | a press while a request is outstanding changes nothing and issues no second request |
| Backend.ZipDocs | backend/main.py:119-124 | the documents pair each chunk with its embedding, in order, and stop at the shorter list |
| Backend.LoadLegalData | backend/main.py:106-137 | a missing database or embedding model, or a failed embedding, is a 500 with the fixed or wrapped detail and leaves the store untouched; otherwise the store is replaced by the zipped documents, the old contents are gone, and the inserted count is reported, except that nothing to insert leaves the store cleared and is a 500 wrapping the empty-insert error |
| Backend.OneDocumentPerChunk | backend/main.py:115-128 | with one embedding per chunk, the store afterwards holds exactly the chunks' texts in chunk order, and the count equals the number of chunks (an empty chunk list is the 500) |
| Backend.LoadTwiceIsLoadOnce | backend/main.py:126-128 | reloading the same chunks a second time leaves the same store and response, because the collection is cleared first |
| Backend.Retrieve | backend/main.py:201-203 | the retrieved texts are those of the first two stored documents (fewer if the store has fewer), in store order |
| Backend.Context | backend/main.py:204-207 | the join is replaced by the fixed fallback sentence exactly when the texts are none or one empty text; otherwise the context is their separator join, which is then non-empty |
| Backend.EmptyTextFallback | backend/main.py:201-207 | a store whose only document has an empty text gives the fallback context while the sources are `[""]` |
| Backend.LawBotPrompt | backend/main.py:219 | the prompt starts with the context header, then the context, then the question header, and ends with the question |
| Backend.PlanLawBot | backend/main.py:184-224 | a missing database, model or API key is a 500 with the fixed detail; otherwise the sources are at most the first two stored texts in order, the context is built from exactly those sources, and the model is called with the fixed system instruction and the templated prompt |
| Backend.LawBot | backend/main.py:174-233 | a guard failure is returned unchanged; a generated answer is returned stripped, with exactly the retrieved texts as sources; any other failure is a 500 whose detail wraps the exception message |
| Backend.LawBotGuardFirst | backend/main.py:184-185 | without the embedding model or the key, the result is the same 500 whatever the question, the model output and the store contents |
| Backend.ExpandPrompt | backend/main.py:149-155 | the prompt is exactly the fixed preamble followed by the keywords as received |
| Backend.PlanExpand | backend/main.py:143-160 | an unset or empty API key is a 500 with the fixed detail; otherwise the model is called with the fixed preamble plus the keywords |
| Backend.Expand | backend/main.py:140-170 | a key failure is the fixed 500; a generated text is returned stripped, labelled with the model name, and never has whitespace at either end; a client API error and any other failure are 500s with their own detail prefixes |
| Backend.EmptyKeyGuards | backend/main.py:184 | an empty API key is refused by the `expand_message` guard (line 143) but passes the `law_bot` guard |
| EndToEnd.ServeLawBot | backend/main.py:227-233 | the page gets a decodable payload exactly when the endpoint succeeded, and that payload carries the same answer and sources |
| EndToEnd.ServeExpand | backend/main.py:162-170 | the page gets a decodable payload exactly when the endpoint succeeded, and that payload carries the same expanded text and model name |
| EndToEnd.AskTheBackend | frontend/src/app/law-bot/page.tsx:78-107 | a question sent against the real endpoint adds two bubbles; the bot bubble is the stripped model answer with the first stored texts as sources, or the fixed apology whenever the backend fails, including when a prerequisite is missing |
| EndToEnd.AlertTheBackend | frontend/src/app/sos/page.tsx:38-66 | an alert sent against the real endpoint carries the normalised keywords; the preview is the stripped model text with the send time set, or the failure sentence with no send time whenever the backend fails, including a missing or empty key |

Observed in the code:

- `law_bot` checks `GEMINI_API_KEY is None`, but `expand_message` checks
  `not GEMINI_API_KEY`. So an empty key passes only the first guard (see
  `Backend.EmptyKeyGuards`).
- The fallback sentence replaces the context when the retrieved texts are
  `[]` or `[""]`. In the second case the returned `sources` is `[""]`, not
  empty (see `Backend.EmptyTextFallback`). So "fallback implies no sources"
  holds only when no stored text is empty.

## Left out

- Rendering, styling, navigation, authentication (Clerk) and the therapy
  page: presentation only, with no handler logic.
- `fetch`, JSON decoding, React state scheduling and stale closures. Each
  handler is an atomic start transition plus an atomic completion
  transition whose outcome is a parameter. A JSON body with missing
  fields is not modelled. Such a body either decodes into the typed
  response or counts as a decoding failure.
- `Date.now()` ids and the `Date` in `lastSentTime`. These are abstract
  integers passed in as `now` / `later`.
- Console logging, `alert`, and the mock dispatch log on the SOS page:
  side effects with no effect on state.
- The Gemini client, SentenceTransformer embeddings and MongoDB I/O are
  opaque. Their outputs are parameters (`Generation`, `Encoding`, the
  stored document sequence). A MongoDB failure during `delete_many` /
  `insert_many` is not modelled, apart from `insert_many` refusing an empty
  document list.
- Backend startup and shutdown hooks, CORS middleware and the root
  endpoint: configuration and I/O. Their results appear only as the
  `Server` record (database present, model loaded, API key).
- The response `message` / `note` strings of `load_legal_data`. The model
  reports only the inserted count that the message formats.
- Cancellation after unmount, retries and timeouts: the code has none.
