# Trip-planning chat backend: a Dafny model

This project models the request-handling core of a small Express backend for an
AI travel assistant, in two revisions:

- `src/server.js` (current) has two handlers:
  - `POST /api/chat` validates the request and reads the user's chat history.
    It filters out malformed rows and sends a system prompt, the history and the
    new message to the language model. It then splits the model's text into a
    visible reply and a trailing JSON object of suggestions. Finally it logs the
    user row and the assistant row.
  - `POST /api/create-draft-route` takes the six top-rated attractions and
    creates a draft trip seeded from the first one. It then inserts one point
    per attraction, numbered by position.
- `server.js` (earlier) has only the chat handler, with the system prompt
  written inline.

Module layout:

- `JsValues` (`js_values.dfy`): the JavaScript semantics the handlers rely on.
  These are JSON values plus `undefined`, truthiness (`!x`, `x || y`), `trim`,
  `lastIndexOf`, and `slice` with negative indices.
- `ChatPipeline` (`chat_pipeline.dfy`): the chat handler's logic, which both
  revisions share word for word. It covers the history window, the filter, the
  message list, the reply/suggestions split, and `ChatTurn`, one whole request
  as a function.
- `DraftRoute` (`draft_route.dfy`): the rows the draft route writes and the
  specification of its loop.
- `Server` (`server.dfy`): class `Backend` for `src/server.js`. It holds the
  `chat_history`, `trips` and `points` tables as sequence fields that its
  methods append to.
- `LegacyServer` (`legacy_server.dfy`): class `Backend` for `server.js`, with
  the `chat_history` table only.
- `Http` and `Wrappers`: the response type and `Option`.

The outside world enters as parameters:

- The model call is `llm: seq<ChatMessage> -> Completion`.
- `JSON.parse` is `parse: string -> Option<Value>`, where `None` means it throws.
- The outcome of each database call is a boolean or an `Option` argument.

Every lemma about the reply split holds for every possible parser.

Behaviour sometimes attributed to this system but absent from this code is not
modelled. The code:

- takes the OLDEST ten history rows, not the most recent ten, because
  `limit(10)` follows an ascending sort;
- logs the user row only after generation, together with the assistant row;
- has no `create_trip` action, no inference of city or trip length, and no
  attraction list in the prompt;
- picks the draft route's attractions from the whole catalogue, with no city
  filter.

## Model

| member | source | states |
|---|---|---|
| `JsValues.TrimStart` | src/server.js:78 | The result is the longest suffix of the input that does not start with whitespace. Everything removed is whitespace. |
| `JsValues.TrimEnd` | src/server.js:78 | The result is the longest prefix of the input that does not end with whitespace. Everything removed is whitespace. |
| `JsValues.Trim` | src/server.js:78 | `trim()` never lengthens the text. A non-empty result neither starts nor ends with whitespace. |
| `JsValues.TrimUnpadded` | src/server.js:78 | Trimming text that has no whitespace at either end returns it unchanged. |
| `JsValues.TrimIdempotent` | src/server.js:78 | Trimming twice gives the same result as trimming once. |
| `JsValues.LastIndexOf` | src/server.js:74 | `lastIndexOf('{')` returns the position of a `{` with no `{` after it, or -1 when the text has no `{`. |
| `JsValues.SliceFrom` | src/server.js:75 | `slice(start)` is a suffix. A non-negative start drops that many characters; a negative start keeps the last `-start` characters. Both are clamped to the text. |
| `JsValues.SliceUpTo` | src/server.js:78 | `slice(0, end)` is a prefix. A non-negative end keeps that many characters; a negative end drops the last `-end` characters. Both are clamped to the text. |
| `ChatPipeline.UserTurns` | src/server.js:39 | `.eq('user_id', user_id)` keeps exactly the rows of that user, and no more rows than the table holds. |
| `ChatPipeline.UserTurnsCounts` | src/server.js:36-39 | Each of the user's rows is selected exactly as many times as the table holds it, and rows of other users never are. |
| `ChatPipeline.UserTurnsAppend` | src/server.js:36-41 | Selecting a user's rows distributes over appending to the table, so new rows land after the old ones. |
| `ChatPipeline.FetchHistory` | src/server.js:36-41 | The history read returns at most 10 rows. They are the user's first (oldest) `min(10, n)` rows in table order, projected to `role` and `message`. |
| `ChatPipeline.HistoryWindowFreezes` | server.js:35-40 | Once a user has 10 rows, later appends never change the history the model sees, because the window is the oldest ten. |
| `ChatPipeline.FilterHistory` | src/server.js:43-50 | The filtered history is an order-preserving subsequence of the fetched rows. It contains exactly the rows that are non-null, have a string `message` and have role `'user'` or `'assistant'`, and it is no longer than its input. |
| `ChatPipeline.FilterHistoryCounts` | src/server.js:43-50 | Each kept row appears exactly as many times as it was fetched, and a dropped row never appears. |
| `ChatPipeline.FilterHistoryAppend` | server.js:42-49 | Filtering distributes over concatenation: each row is kept or dropped on its own, in place. |
| `ChatPipeline.Messages` | src/server.js:52-59 | The list has length `\|filtered\| + 2`. Element 0 is the system prompt. The last element is `{role:'user', content: message}`. Each element in between is the matching filtered row mapped to `{role, content}`, in order. |
| `ChatPipeline.SentMessagesSanitized` | server.js:35-64 | At most 12 messages reach the model. Every history entry between the ends has role `'user'` or `'assistant'` and string content, and is a stored row of this user. |
| `ChatPipeline.RawResponse` | src/server.js:69 | The raw text is never empty. It is the completion's content when that is a non-empty string. When the content is null or empty it is exactly `'Ошибка генерации'`. |
| `ChatPipeline.GetSuggestions` | src/server.js:77 | Reading `parsed.suggestions` throws (None) exactly when `parsed` is `null` or `undefined`. On an object with the key it gives that property. On any other value it gives `undefined`. |
| `ChatPipeline.SplitReply` | src/server.js:69-81 | The split never throws and never lengthens the text. The reply is either the raw text or the trimmed text before the last `{`. The suggestions are `[]` or a truthy value, and when they are not `[]` the reply is the trimmed prefix. |
| `ChatPipeline.LastBraceSplit` | src/server.js:74-78 | When `{` occurs last at the position where `prefix` ends, `lastIndexOf` finds it there. The JSON part is the text from that brace on, and `slice(0, jsonStart)` is `prefix`. |
| `ChatPipeline.SplitParsedObject` | src/server.js:73-78 | When the text from the last `{` parses to an object, the reply is the trimmed text before that brace. The suggestions are the object's `suggestions` when truthy, else `[]`. |
| `ChatPipeline.SplitUnparsable` | src/server.js:73-81 | When the text from the last `{` does not parse, the reply is the whole raw text and the suggestions are `[]`. No exception escapes. |
| `ChatPipeline.SplitParsedNull` | src/server.js:76-81 | When that text parses to `null`, reading `.suggestions` throws and is caught, so the reply is the raw text and the suggestions are `[]`. The real `JSON.parse` never returns `null` here, so this path only shows the catch covers it. |
| `ChatPipeline.TrailingCharacterDropped` | server.js:79-83 | With no `{` in the text, `slice(-1)` is the last character. If that character alone parses (to a non-null value), the reply is the rest of the text trimmed, strictly shorter than the raw text. |
| `ChatPipeline.NoBraceUnparsable` | server.js:79-86 | With no `{` in a non-empty text whose last character does not parse, the reply is the whole text and the suggestions are `[]`. |
| `ChatPipeline.ChatTurn` | src/server.js:28-93 | The status is 400 exactly when `user_id` or `message` is falsy, with the missing-fields error. A 500 carries the generation error. Only a 200 logs rows: exactly two, the user row with the message first and then the assistant row whose `message` is the reply sent. |
| `ChatPipeline.ChatStatusFollowsModel` | src/server.js:63-91 | A valid request gets a 500 with the generation error and logs nothing exactly when the model call throws. Otherwise it gets a 200. |
| `ChatPipeline.ChatRepliesBeforeBrace` | src/server.js:63-88 | When the model's text is `prefix + "{" + rest`, `rest` has no `{`, and `"{" + rest` parses to an object: the response is 200, the reply is `trim(prefix)` with the object's truthy `suggestions` (else `[]`), and the logged assistant row holds `trim(prefix)`. |
| `ChatPipeline.ChatRepliesWholeText` | src/server.js:63-88 | Given the same shape of text where `"{" + rest` does not parse, the response is 200 with the whole text and `[]`, and the logged assistant row holds the whole text. |
| `Server.Backend.Chat` | src/server.js:28-93 | The response is that of `ChatTurn` on the table as it was. The table only grows. An invalid request changes nothing. On success the two logged rows are appended in order unless the insert fails. |
| `Server.Backend.CreateDraftRoute` | src/server.js:95-155 | A falsy `user_id` gets a 400. A failed or empty attraction query gets a 500 and creates no trip, and so does a failed trip insert, which returns the database's message. Otherwise exactly one draft trip is appended, seeded from the first of at most six attractions. The points appended are the planned ones minus the failed inserts, and the table invariant is kept. |
| `Server.Backend.InsertPoints` | src/server.js:134-148 | The loop appends, in order, the point for every attraction whose insert does not fail. It goes on past failures. |
| `DraftRoute.TopAttractions` | src/server.js:104-112 | At most six attractions are used, and they are the first `min(6, n)` rows of the query, in its order. |
| `DraftRoute.FirstPhoto` | src/server.js:121 | `photos?.[0]` is `undefined` on null or undefined photos. It is the first element of a non-empty array, `undefined` for an empty one, and the first character of a non-empty string. |
| `DraftRoute.DraftTrip` | src/server.js:115-127 | The trip is a draft with 0 likes and 0 comments and the title `'Маршрут от AI'`. Its country is the first attraction's country when truthy, else `'Не указана'`, so it is never blank. Its `photo_url` is the first attraction's first photo when truthy, else null. |
| `DraftRoute.Planned` | src/server.js:134-148 | One point is planned per attraction. |
| `DraftRoute.PlannedPoints` | src/server.js:139-147 | Point `i` belongs to the trip and has `order = i`. It copies `name`, `latitude` and `longitude`, and sets `how_to_get` to `working_status` or `''` and `impressions` to `description` or `''`. |
| `DraftRoute.PlannedSnoc` | src/server.js:134-148 | Planning one more attraction appends exactly its point. |
| `DraftRoute.Committed` | src/server.js:137-147 | The points written are never more than those attempted. |
| `DraftRoute.CommittedMembers` | src/server.js:137-147 | A point is written exactly when it was attempted and its insert did not fail. |
| `DraftRoute.CommittedSnoc` | src/server.js:134-148 | One loop iteration appends the point for attraction `i` unless its insert fails. |
| `DraftRoute.CommittedAll` | src/server.js:134-148 | When no insert fails, every planned point is written, in order. |
| `DraftRoute.CommittedPoints` | src/server.js:134-148 | Every point written belongs to the new trip, has an order below the number of attractions, and is not a failed insert. Every attraction whose insert succeeds has its point written, even after earlier failures. |
| `DraftRoute.CommittedKeepsOrder` | src/server.js:134-148 | Dropping failed inserts keeps the remaining points in their relative order. |
| `DraftRoute.CommittedOrdersIncrease` | src/server.js:134-148 | The orders of the points written strictly increase. They follow input order and never repeat. |
| `DraftRoute.DraftKeepsTablesValid` | src/server.js:115-148 | Creating a draft keeps the tables consistent. Trip ids stay row positions, and every point written refers to an existing trip. |
| `LegacyServer.Backend.Chat` | server.js:27-98 | A falsy `user_id` or `message` gets a 400 and nothing is read or written. Otherwise the response is that of `ChatTurn` with the inline prompt. The history table only grows, by the user row and then the assistant row holding the reply, unless the insert fails. |

## Left out

- Supabase, OpenAI and Express are not modelled as such. The database client,
  the completion call, routing, `express.json`, CORS, the `console.log` calls
  and `app.listen` are I/O. Their results are method parameters, and inserts
  are appends to sequence fields.
- `JSON.parse` is a parameter, not an implementation. No lemma depends on how
  it parses.
- The prompt texts are not modelled. The imported `assistantPrompt`
  (`./prompts/assistant.js`) and the inline prompt of `server.js` are opaque
  strings given to the constructors.
- Row order is assumed to be table order. The model takes "ordered by
  `created_at`" to mean insertion order. The two rows of one insert can share a
  timestamp, and the database may return such ties in either order.
- The attractions query's sort by rating is done by the database. The handler
  receives the rows already in that order.
- Trip ids are modelled as row positions in `trips`, where the database assigns
  its own keys. Columns the handlers do not set are not modelled.
- Strings are sequences of Unicode scalar values, whereas JavaScript indexes
  UTF-16 code units. `lastIndexOf('{')` agrees on both. `slice(-1)` on text
  ending in a character outside the Basic Multilingual Plane would take half a
  surrogate pair in JavaScript.
- Numbers are reals. `JSON.parse` yields `-0` for the text `-0`; it becomes
  `Num(0.0)`, which is falsy like `-0`, so no behaviour is lost. JSON cannot
  produce NaN.
- `GetSuggestions` covers only the `suggestions` property. It throws on a
  parsed `null` and gives `undefined` on every other value except an object
  that has that key. Inherited properties (an array's methods, say) are not
  modelled; none of them is named `suggestions`.
- A trip insert that reports no error but returns no row makes `trip.id`
  throw. That case, and the handler's `'Ошибка сервера'` fallback message,
  are not modelled.
- Async sequencing is not modelled: each handler runs as one sequential method.
  There is no concurrency between requests.
