# text2db-demo chat core, modelled in Dafny

The chat API of this demo forwards a user's request to a hosted assistant,
streams the assistant's answer back, runs the SQL the assistant asks for, and
pushes status events to any connected viewer. Three pieces of sequential logic
in it are modelled and verified here:

- **Database handler**: `executeQuery` rewrites `:name` placeholders into
  positional `$k` markers. `queryDatabase` refuses statements that mention a
  data-changing keyword. (`database_handler.dfy`, module `DatabaseHandler`)
- **Streaming tool-call assembler**: handlers for the assistant stream's
  `textDelta`, `toolCallDelta`, `end` and `error` events. Two closure variables
  hold the call being assembled. (`chat_route.dfy`, module `ChatRoute`)
- **Status listener registry**: `GET` subscribes a listener, `cancel` removes
  it, and `broadcastStatus` fans an event out and prunes the listeners whose
  delivery fails. (`status_registry.dfy`, module `StatusRegistry`)

`common.dfy` (module `Common`) holds `Option`, `Result`, a small JSON value
type and the decimal rendering of numbers.

Collaborators the model cannot see are function-valued parameters:

- the Postgres driver (`sql.query`, `pool.query`): returns rows or an error
  message;
- `JSON.parse`: returns a value or the text of the error it throws;
- `JSON.stringify`.

The listener id that `GET` draws from `Math.random` is a parameter.

A stream controller is a `Channel`: a flag saying whether the channel is open,
plus the frames it has been handed. `enqueue` succeeds exactly when the flag is
set.

Two design points of the model:

- **Binding order.** The values are bound in the parameter object's key order,
  not in the order the placeholders appear. The model proves the binding
  correct when the caller's key order equals the first-occurrence order of the
  identifiers. When all values differ, it also proves the converse. A concrete
  query shows two values bound swapped.
- **One registry.** The two status files each create their own `subscribers`
  Map, at app/api/chat/status/route.js:4 and app/utils/statusBroadcast.js:1. As
  written, a listener added by `GET` is never reached by `broadcastStatus`. The
  model keeps one `Registry` class that holds both operations, which is the
  evident intent.

Three facts of the code that the model follows:

- The end-of-stream test is on `functionArgsBuffer.trim()`, not on an empty
  buffer.
- The streaming route sends the assembled SQL to the pool directly, without
  the keyword guard.
- The streaming route's tool arguments are `{ sql, values }`. The database
  handler takes `{ query, parameters }`.

## Model

| member | source | states |
|---|---|---|
| DatabaseHandler.WordLength | app/api/chat/database-handler.js:13 | `[\w]+` takes the longest run of word characters: every character it takes is a word character, and the next one is not |
| DatabaseHandler.Tokenize | app/api/chat/database-handler.js:13 | the left-to-right, non-overlapping matches of `/:([\w]+)/g`, each becoming a placeholder token, with every other character as a literal token. It is a definition; `TokenizeRoundTrip` and `TokenizeMatches` state its properties |
| DatabaseHandler.TokenizeRoundTrip | app/api/chat/database-handler.js:13 | joining the spellings of the scanned tokens back together gives exactly the query text |
| DatabaseHandler.TokenizeMatches | app/api/chat/database-handler.js:13 | the placeholders found are the regex's global matches: each is `:` plus a non-empty identifier that cannot be extended, and no colon left as text is followed by a word character |
| DatabaseHandler.ScanWord | app/api/chat/database-handler.js:13 | the scan for `[\w]+` stops at the first character that is not a word character, and every character it passes over is a word character |
| DatabaseHandler.RewriteStep | app/api/chat/database-handler.js:14-18 | one replace callback: an unseen identifier gets the next number and the counter advances; a seen one reuses its number; its marker is emitted; a literal character is copied. It is a definition; `FirstOccurrenceNumbering` and `RewritingExtends` state its properties |
| DatabaseHandler.RewriteTokens | app/api/chat/database-handler.js:11-19 | the callbacks in match order, from `paramCount = 1` and an empty `paramMap`. It is the specification `ProcessQuery` is proved against; the lemmas below state its properties |
| DatabaseHandler.ProcessQuery | app/api/chat/database-handler.js:11-19 | the replace loop, updating `paramMap` and `paramCount` step by step, computes exactly the specified rewriting of the query |
| DatabaseHandler.FirstOccurrenceNumbering | app/api/chat/database-handler.js:11-19 | the identifier that is k-th among the distinct identifiers, in first-occurrence order, gets marker k; only identifiers of the query are in `paramMap`; `paramCount - 1` is the number of distinct identifiers |
| DatabaseHandler.MarkersWithoutGaps | app/api/chat/database-handler.js:11-17 | the marker numbers in use are exactly 1 … `paramCount - 1`, and each belongs to one identifier |
| DatabaseHandler.RewritingExtends | app/api/chat/database-handler.js:14-17 | scanning further never removes or renumbers an identifier already numbered |
| DatabaseHandler.ProcessedIsSubstitution | app/api/chat/database-handler.js:13-19 | the processed query keeps every literal character and replaces every placeholder, first or repeated, by the one marker its identifier has in the final map |
| DatabaseHandler.RewriteQueryMeaning | app/api/chat/database-handler.js:11-19 | for a whole query: the tokens spell the query; the output is that substitution; the markers follow first-occurrence rank; the count equals the number of distinct identifiers |
| DatabaseHandler.NoPlaceholdersNoChange | app/api/chat/database-handler.js:13 | a text without placeholders is passed on unchanged |
| DatabaseHandler.Marker | app/api/chat/database-handler.js:15 | the text `$` followed by the decimal number. It is a definition; `MarkerInjective` states its property |
| DatabaseHandler.MarkerInjective | app/api/chat/database-handler.js:15 | different numbers give different `$k` markers |
| DatabaseHandler.ParamValues | app/api/chat/database-handler.js:22 | one value per key of `parameters`, in key-enumeration order; each is that key's value |
| DatabaseHandler.BindsWhenKeysInFirstOccurrenceOrder | app/api/chat/database-handler.js:14-22 | if the keys are enumerated in first-occurrence order of the identifiers, `$k` receives the value of the identifier numbered k, and there are as many values as markers |
| DatabaseHandler.KeysInFirstOccurrenceOrderWhenBound | app/api/chat/database-handler.js:14-22 | with pairwise different values, a correct binding forces the key order to be the first-occurrence order |
| DatabaseHandler.KeyOrderMisbinds | app/api/chat/database-handler.js:22 | `:b:a` with parameters `{a: 1, b: 2}` binds `$1` (b) to a's value, so the binding is wrong |
| DatabaseHandler.ExecuteQuery | app/api/chat/database-handler.js:9-31 | the database receives the rewritten text and the key-ordered values; rows are returned unchanged; a driver error becomes "Database query failed: " + its message |
| DatabaseHandler.ToLower | app/api/chat/database-handler.js:40 | a string of the same length, with each ASCII capital letter replaced by its small letter and every other character kept. It is a definition; `RejectedIffSomeKeyword` and `GuardIgnoresCase` state what follows from it |
| DatabaseHandler.Contains | app/api/chat/database-handler.js:41-45 | `includes`: the word occurs at some position of the text. It is a definition |
| DatabaseHandler.IsRejected | app/api/chat/database-handler.js:40-45 | the guard's disjunction of five `includes` tests on the lower-cased statement. It is a definition; `RejectedIffSomeKeyword` and `RejectsAnyLetterCase` state what it decides |
| DatabaseHandler.RejectedIffSomeKeyword | app/api/chat/database-handler.js:40-45 | the guard refuses a statement exactly when some stretch of the original text lower-cases to one of drop, truncate, delete, update, insert; this is the converse of `RejectsAnyLetterCase` |
| DatabaseHandler.RejectsAnyLetterCase | app/api/chat/database-handler.js:40-45 | a forbidden keyword in any mix of letter cases, anywhere in the statement, gets it refused |
| DatabaseHandler.GuardIgnoresCase | app/api/chat/database-handler.js:40 | under the model's ASCII case mapping, a statement and its upper-cased form receive the same verdict. This is false in the source for some non-ASCII letters: `SELECT 'ınsert'` (dotless ı) passes the guard, and its upper-cased form `SELECT 'INSERT'` is refused |
| DatabaseHandler.RejectsEmbeddedKeyword | app/api/chat/database-handler.js:40-45 | a statement with a forbidden keyword written in small letters anywhere inside it, between any two texts, is refused |
| DatabaseHandler.RejectsUpdatedAtColumn | app/api/chat/database-handler.js:41-45 | the filter is lexical: a SELECT that reads a column `updated_at` is refused |
| DatabaseHandler.QueryDatabase | app/api/chat/database-handler.js:36-55 | a refused statement fails with "Only SELECT operations are allowed", whatever the database would do; otherwise the serialised rows are returned, or the database error prefixed "Query execution failed: Database query failed: " |
| ChatRoute.Trim | app/api/chat/route.js:96 | `trim()`: the text without its leading and trailing JavaScript white space, written as two counts. Its properties are in `TrimEmptyIffBlank` |
| ChatRoute.TrimEmptyIffBlank | app/api/chat/route.js:96 | `s.trim()` is empty exactly when every character of `s` is JavaScript white space |
| ChatRoute.Next | app/api/chat/route.js:93-115 | the `toolCallDelta` handler as a transition of the two variables. A blank or missing name keeps the current name, or sets `query_database` when there is none; a new name replaces the name and empties the buffer; the arguments (missing as "") are appended. It is a definition; the lemmas below and `OnToolCallDelta` state its properties |
| ChatRoute.Run | app/api/chat/route.js:88-116 | the handler applied to the deltas in arrival order. It is a definition; its properties are in `NameAfterRun`, `BufferAfterRun`, `NewCallDiscardsHistory` and `ContinuationsAppend` |
| ChatRoute.NameAfterRun | app/api/chat/route.js:96-111 | after any sequence of deltas the current name is the last name a delta gave; if deltas arrived without any name, it is `query_database`; before any delta it is null |
| ChatRoute.BufferAfterRun | app/api/chat/route.js:94-115 | the buffer is the concatenation, in arrival order, of the arguments (missing as "") of the deltas since the last one that named a different function |
| ChatRoute.NewCallDiscardsHistory | app/api/chat/route.js:106-111 | a delta naming a function other than the current one leaves a state that does not depend on anything that came before it |
| ChatRoute.ContinuationsAppend | app/api/chat/route.js:96-105 | deltas with a missing or blank name, or with the current name, keep the name and append their arguments to the buffer without a reset |
| ChatRoute.Complete | app/api/chat/route.js:121-158 | something is done at the end exactly when the name is `query_database` and the buffer is not all white space. For such a call: a parse failure becomes `ParseFailed` with the parser's error text, and a `null` result becomes `ParseFailed` with the destructuring error. Otherwise the query runs exactly when the parsed `sql` is truthy, using the parsed `sql` and `values`, and nothing is done when it is falsy. Every `ParseFailed` comes from one of those two causes |
| ChatRoute.Report | app/api/chat/route.js:130-155 | the lines the end handler writes: the executed query, its values and the rows, or "Database error: " and the message, or the parse error line, or nothing when no call was recognised or `sql` was falsy. It is a definition; `OnEnd` states that the response gains exactly these lines |
| ChatRoute.NoCallWithoutArguments | app/api/chat/route.js:122 | if the deltas carried only white-space arguments, nothing is parsed or executed at the end |
| ChatRoute.OtherToolNeverRuns | app/api/chat/route.js:122 | a call last named as another function never reaches the database |
| ChatRoute.TwoFragmentCall | app/api/chat/route.js:88-116 | a first delta naming `query_database` followed by an unnamed delta assemble one `query_database` call whose buffer is the two fragments joined, and that buffer is not blank when the first fragment does not start with white space |
| ChatRoute.ContinuationExample | app/api/chat/route.js:88-116 | the fragments `{"sql":` (named `query_database`) and `"SELECT 1"}` (unnamed) assemble one `query_database` call with the non-blank arguments `{"sql":"SELECT 1"}`, which the end handler goes on to parse |
| ChatRoute.ToolCallStream.constructor | app/api/chat/route.js:45-46 | assembly starts with no name and an empty buffer, and nothing has been written |
| ChatRoute.ToolCallStream.OnTextDelta | app/api/chat/route.js:83-87 | the text fragment is appended to the response in arrival order; the call state is untouched |
| ChatRoute.ToolCallStream.OnToolCallDelta | app/api/chat/route.js:88-116 | a blank name keeps the current name, or defaults it to `query_database`; a new name adopts it and empties the buffer; the same name appends; the buffer gains exactly the delta's arguments |
| ChatRoute.ToolCallStream.OnEnd | app/api/chat/route.js:117-163 | the response gains exactly the report of the end decision (query results, database error, parse error, or nothing), and the writer is closed |
| ChatRoute.ToolCallStream.OnError | app/api/chat/route.js:164-168 | the stream error's message is written and the writer is closed |
| Common.Field | app/api/chat/route.js:127 | property access on a parsed value: a value is found only when the object has a field with that key, and when the object has such a field a value is found. Which duplicate wins is stated by `FieldLastWins` |
| Common.FieldLastWins | app/api/chat/route.js:127 | of several fields with the same key, the value of the last one is read, as `JSON.parse` keeps the last duplicate |
| Common.Truthy | app/api/chat/route.js:130 | JavaScript truthiness of a property read: `undefined`, `null`, `false`, `0` and `""` are falsy. It is a definition |
| StatusRegistry.SseFrame | app/utils/statusBroadcast.js:5 | the server-sent event `data: <json>` followed by a blank line. It is a definition |
| StatusRegistry.Broadcast | app/utils/statusBroadcast.js:10-17 | the registry after one broadcast: the open listeners, each handed the frame once. It is the specification `BroadcastStatus` is proved against; its properties are in the lemmas below |
| StatusRegistry.BroadcastPrunesExactlyFailures | app/utils/statusBroadcast.js:10-17 | after a broadcast the registry is the old one minus exactly the listeners whose delivery failed; every remaining listener got the same frame, once |
| StatusRegistry.BroadcastReachesOpenListeners | app/utils/statusBroadcast.js:10-17 | the number of successful deliveries equals the number of open listeners |
| StatusRegistry.SecondBroadcastKeepsSurvivors | app/utils/statusBroadcast.js:10-17 | a second broadcast prunes nobody and reaches exactly the survivors of the first |
| StatusRegistry.ThreeListenersOneClosed | app/utils/statusBroadcast.js:10-17 | with three listeners and one closed, a broadcast leaves two, and the next broadcast reaches the same two |
| StatusRegistry.ConnectedMessage | app/api/chat/status/route.js:16-20 | the JSON text of `{ type: 'connected', message: 'SSE connection established', clients }`. It is a definition |
| StatusRegistry.Subscribed | app/api/chat/status/route.js:13-21 | the registry with `id` set to an open channel that holds the `connected` frame, whose count includes `id`. It is a definition; `SubscribeReportsSize` states its properties |
| StatusRegistry.Cancelled | app/api/chat/status/route.js:23-26 | the registry without `id`. It is a definition; `CancelRemovesOnlyThatListener` states its properties |
| StatusRegistry.Disconnected | app/utils/statusBroadcast.js:11-16 | the client behind `id` went away: its channel is closed, so the next `enqueue` throws, and it stays registered. It is a definition; `BroadcastDropsDisconnected` states what follows |
| StatusRegistry.BroadcastDropsDisconnected | app/utils/statusBroadcast.js:11-16 | a listener whose client went away is removed by the next broadcast, and every other open listener still gets the frame |
| StatusRegistry.SubscribeReportsSize | app/api/chat/status/route.js:13-21 | subscribing adds the id; the new listener alone was sent a `connected` event whose `clients` is the registry size counting it; others are unchanged |
| StatusRegistry.SubscriberReceivesNextBroadcast | app/api/chat/status/route.js:13-21 | with one shared registry, a new listener receives the next broadcast right after its `connected` frame |
| StatusRegistry.CancelRemovesOnlyThatListener | app/api/chat/status/route.js:23-26 | cancel removes exactly that id, leaves the other listeners as they were, and a second cancel changes nothing |
| StatusRegistry.Registry.constructor | app/utils/statusBroadcast.js:1 | the registry starts empty |
| StatusRegistry.Registry.Subscribe | app/api/chat/status/route.js:9-22 | the registry becomes the specified registration of `id` |
| StatusRegistry.Registry.Cancel | app/api/chat/status/route.js:23-26 | the registry becomes the old one without `id` |
| StatusRegistry.Registry.Disconnect | app/utils/statusBroadcast.js:11-16 | the environment closes the channel of `id`; the registry becomes the specified `Disconnected` state, so a later broadcast takes the delete branch |
| StatusRegistry.Registry.BroadcastStatus | app/utils/statusBroadcast.js:3-18 | the loop serialises the event once as `data: <json>\n\n`, attempts every listener present at the start, and ends with exactly the specified broadcast result |

## Left out

- The OpenAI thread and run calls, the event-emitter wiring, the response headers and the top-level error handler of app/api/chat/route.js (lines 49-82, 170-189): foreign SDK calls. The events are the handler methods' inputs.
- The polling protocol variant and the feeding of tool results back into the run are not part of this route: the route ends the turn after running the query.
- `JSON.parse`, `JSON.stringify`, the Postgres pool and `sql.query` are oracle parameters. JSON numbers are integers, because floating point is not modelled.
- `TextEncoder` bytes, `ReadableStream`/`TransformStream` mechanics and `console` logging are transport and diagnostics. Strings stand for the encoded chunks.
- Aliasing is not modelled: a stream controller is a value held in the registry, not a shared object.
- Map iteration order in `broadcastStatus` is not modelled, because each delivery's outcome depends only on its own channel.
- Concurrency between requests and the interleaving of the asynchronous `end` handler with other events are not modelled. The model processes events one at a time.
- `Math.random` id generation (app/api/chat/status/route.js:7): the id is a parameter.
- `paramMap` is a Dafny map. Inherited JavaScript object keys such as `constructor` or `toString`, which the source would treat as already seen, are not modelled.
- The parameter object is an ordered list of distinct keys. The rule that `Object.keys` lists integer-like keys first, in numeric order, is not modelled.
- DatabaseHandler.ToLower and DatabaseHandler.ToUpper map only ASCII letters. The Unicode case mappings of `toLowerCase`/`toUpperCase` are not modelled. `IsRejected` still decides as the source does, because the only non-ASCII letters that lower-case to ASCII are U+0130 (İ, which becomes `i` plus a combining dot) and U+212A (the Kelvin sign, which becomes `k`), and neither can complete a keyword.
- DatabaseHandler.GuardIgnoresCase holds only for the ASCII mapping. In JavaScript, `"ı".toUpperCase()` is `"I"` and `"ſ".toUpperCase()` is `"S"`, while `toLowerCase` leaves both unchanged. So `SELECT 'ınsert'` passes the guard at app/api/chat/database-handler.js:40-45, and its upper-cased form `SELECT 'INSERT'` is refused.
- The `TypeError`s thrown for a missing `query` argument or a missing `toolCallDelta.function` are not modelled. Such inputs are outside the model's types.
- A missing `parameters` argument is not modelled. `Object.keys(undefined)` at app/api/chat/database-handler.js:22 throws before the `try` of `executeQuery`, so `queryDatabase` fails with "Query execution failed: Cannot convert undefined or null to object", with one prefix instead of two. The tool declaration makes `parameters` required. In the model the parameter object is always present.
- The browser UI, app/api/query/route.js, and the schema and tool-declaration constants are not part of this model: they contain no logic of the core.
