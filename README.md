# Chat agent conversation log, in Dafny

A model of the chat agent of a small conversational backend (`src/index.ts`).
Each conversation is served by one `ChatAgent` object that owns an append-only
SQL table `history(id, role, content, timestamp)`. A chat turn stores the
user's message, reads the whole history back ordered by timestamp, prepends a
fixed system persona, asks a text-generation model for a reply, stores the
reply and returns it. The agent's `fetch` accepts only POST, takes the message
from the JSON body and turns any thrown error into a 500. The worker's
top-level `fetch` routes by path and method: the HTML page, the favicon, the
chat API (forwarded to the agent named `"default"`) or 404.

Files:

- `wrappers.dfy` (module `Wrappers`): `Option` (SQL NULL, absent values) and `Result` (a value or a thrown error's description).
- `history.dfy` (module `History`): the table (`Absent` or `Present(rows)`), `CREATE TABLE IF NOT EXISTS`, the `ORDER BY timestamp ASC` query as a stable sort, the projection to `{role, content}`, and `getHistory`.
- `turn.dfy` (module `Turn`): the context window, the reply selection, and one turn as a value (`ChatEffect`). It also holds the lemmas about one turn and about a sequence of turns.
- `agent.dfy` (module `Agent`): the class `ChatAgent` with `EnsureTable`, `Insert`, `Chat` and `Fetch`. Each method is proved to have exactly the effect its specification function gives (`ChatEffect`, `FetchEffect`).
- `router.dfy` (module `Router`): the routing table and the worker's `fetch`.

How the outside world appears in the model:

- The model call is a function parameter `infer: AiRequest -> Outcome`. An outcome is `Returned(AiResult(response, serialized))` or `Threw(description)`. `response` is the text of the `response` field when there is one. `serialized` stands for `JSON.stringify` of the whole result, and `description` for `String(e)`.
- `Date.now()` readings are the parameters `userTime` and `replyTime`.
- A storage error is the parameter `fault`. It names which of the three SQL statements of a turn throws: the user insert, the history read or the reply insert.
- `request.json()` is the `Payload` it produces: a parse error, an array, or any other value given by its `String(...)` text.

Two behaviours of the code that the model keeps:

- The code never rejects an empty message. Nothing in the model does either.
- A turn is not atomic. If the reply insert (or the history read) throws, the user's row stays and no reply row is written (`ChatEffect`, `FetchEffect`).

## Model

| member | source | states |
|---|---|---|
| `History.CreateIfNotExists` | src/index.ts:17-26 | the table exists afterwards; an existing table keeps all its rows; a table created now is empty |
| `History.CreateIfNotExistsIdempotent` | src/index.ts:17-26 | running the creation statement twice has the effect of running it once |
| `History.OrderByTimestamp` | src/index.ts:29 | the query returns the same rows (as a multiset) in non-decreasing timestamp order, one of the orders `ORDER BY timestamp ASC` allows (that ties keep insertion order is shown only for an already ordered log, by `History.OrderOfSortedLog`) |
| `History.InsertByTimestamp` | src/index.ts:29 | inserting one row into a timestamp-ordered list keeps it ordered and adds exactly that row |
| `History.OrderOfSortedLog` | src/index.ts:29 | on rows already stored in timestamp order, the query returns them unchanged, in insertion order |
| `History.StrictOrderIsUnique` | src/index.ts:29 | with a strictly increasing clock, every result the ORDER BY may return is the log in insertion order |
| `History.TiesAdmitEitherOrder` | src/index.ts:29 | two rows with the same timestamp may come back in either order |
| `History.Project` | src/index.ts:29-30 | the projection keeps length and order and keeps exactly role and content of each row |
| `History.ProjectSnoc` | src/index.ts:29-30 | projecting a log with one more row gives the old projection plus that row's entry |
| `History.GetHistory` | src/index.ts:28-31 | getHistory is the projection of some admissible timestamp ordering of the stored rows |
| `History.HistoryOfSortedLog` | src/index.ts:28-31 | when rows were stored in timestamp order, getHistory returns exactly the stored rows, projected, in insertion order |
| `Turn.ContextWindow` | src/index.ts:43-47 | the context is one longer than the history, starts with the system persona, then the history entries in order |
| `Turn.SelectReply` | src/index.ts:54 | the reply is the `response` text when truthy, otherwise the serialised result; an empty `response` falls back to the serialisation |
| `Turn.Reply` | src/index.ts:49-57 | a returned result gives the selected reply; a thrown error gives "Error: " followed by its description |
| `Turn.ChatEffect` | src/index.ts:33-66 | a fault-free turn succeeds and appends exactly the user row, then the assistant row holding the returned reply; the reply is computed from the model's answer to the built context; a failing insert or read ends the turn with that error, keeping only the rows already stored |
| `Turn.ChatKeepsEarlierRows` | src/index.ts:33-66 | no turn changes or removes an earlier row; it adds at most two; a successful turn's last row is the assistant row with the returned reply |
| `Turn.InferenceFailureContained` | src/index.ts:55-65 | when the model throws, the turn still succeeds, stores "Error: " + description as the assistant row and returns it |
| `Turn.AppendKeepsSorted` | src/index.ts:35-38 | appending a row whose timestamp is not earlier than the last keeps the log in timestamp order |
| `Turn.HistoryAfterAppend` | src/index.ts:35-41 | with a clock that never goes backwards, the history the model's query returns right after an insert is the old log projected, then the new row (ties in insertion order, the model's choice among the orders SQL allows) |
| `Turn.ContextIsWholeLog` | src/index.ts:35-53 | with a clock that never goes backwards and the model's tie order, the model is asked, under the fixed model name, with the system message, then every stored row in order, ending with the user message just stored |
| `Turn.ContextUnderStrictClock` | src/index.ts:29-47 | with a strictly increasing clock, for every order the SQL query may return, the context is the system message, then every stored row in insertion order, ending with the user message just stored |
| `Turn.FirstTurnContext` | src/index.ts:35-47 | on a fresh table the context is exactly the system message and the user's message |
| `Turn.ChatKeepsOrder` | src/index.ts:35-63 | a turn whose clock readings do not go backwards keeps the log in timestamp order, whatever fails |
| `Turn.Conversation` | src/index.ts:33-66 | running turns one after another gives one result per turn |
| `Turn.ConversationShape` | src/index.ts:33-66 | after k fault-free turns, the old rows are unchanged and exactly 2k rows follow: turn i's user message at 2i, its returned reply at 2i + 1 |
| `Turn.ShapeAfterFirstTurn` | src/index.ts:33-66 | the positions recorded by the later turns shift by the two rows of the first turn |
| `Turn.ConversationAlternates` | src/index.ts:33-66 | if the log alternates user and assistant rows, it still does after any number of fault-free turns |
| `Turn.AlternatingWhenRecorded` | src/index.ts:35-63 | an alternating log followed by whole recorded turns alternates |
| `Turn.ChatKeepsClock` | src/index.ts:35-63 | whatever fails, a turn whose clock readings do not go backwards leaves the log ordered and no later than any reading taken after its reply |
| `Turn.ChatKeepsStrictClock` | src/index.ts:35-63 | the same for a clock that never repeats: the log stays strictly ordered and earlier than the next reading |
| `Turn.ConversationKeepsOrder` | src/index.ts:33-66 | a run of turns whose clock never goes backwards leaves the log in timestamp order, whatever fails |
| `Turn.ConversationKeepsStrictOrder` | src/index.ts:33-66 | a run of turns with a clock that never repeats leaves the log strictly ordered, whatever fails |
| `Turn.ConversationHistory` | src/index.ts:28-66 | after a run of turns whose clock never goes backwards, getHistory returns every stored row in insertion order (ties in the model's insertion order); after k fault-free turns that is the old history and 2k more messages, turn i's message at 2i and its returned reply at 2i + 1 |
| `Turn.ConversationHistoryUnderStrictClock` | src/index.ts:28-66 | after a run of turns with a clock that never repeats, every order the SQL query may return is the stored log in insertion order |
| `Agent.MessageOf` | src/index.ts:74-75 | an array body gives its first element, or no message when empty; any other body gives its string form |
| `Agent.FetchEffect` | src/index.ts:68-86 | non-POST gives 405 and leaves the log alone; an unparseable body gives 500 and leaves the log alone; the status is always 200, 405 or 500; 200 exactly when a POST with a parseable body meets no storage error, and then the body is the turn's reply (the model's answer to the built context, or the error text when the model throws) and the rows are exactly the turn's; a POST whose turn meets a storage error gets 500 with `{error}` holding that error's description and keeps exactly the rows the turn stored before failing; every 500 carries an `{error}` object |
| `Agent.ChatAgent.constructor` | src/index.ts:11-15 | the new agent's table exists; a table already in storage is kept with all its rows |
| `Agent.ChatAgent.EnsureTable` | src/index.ts:17-26 | the table exists afterwards and an existing one is left unchanged |
| `Agent.ChatAgent.Insert` | src/index.ts:35-38 | the table's rows afterwards are the old rows plus the inserted row |
| `Agent.ChatAgent.Chat` | src/index.ts:33-66 | the returned result and the rows afterwards are exactly those of `ChatEffect` on the rows before |
| `Agent.ChatAgent.Fetch` | src/index.ts:68-86 | the response and the rows afterwards are exactly those of `FetchEffect` on the rows before |
| `Router.RouteOf` | src/index.ts:246-274 | `/` and `/index.html` select the page, `/favicon.ico` the favicon, POST to `/api/chat` the agent named "default", everything else (GET to `/api/chat` too) not found; exactly one route per request |
| `Router.StaticResponse` | src/index.ts:247-274 | the status tells the handler apart: 200 exactly for the page (the only text/html response, with the HTML body), 204 with no body and no Content-Type exactly for the favicon, otherwise 404 "Not Found" as text/plain |
| `Router.ForwardedRequestsArePosts` | src/index.ts:257 | a request forwarded to the agent never gets the agent's 405 |
| `Router.WorkerFetch` | src/index.ts:243-275 | requests not routed to the chat API are answered without touching the conversation; chat API requests get the agent's `FetchEffect` response and log |

## Left out

- The HTML, CSS and browser script of the page: the page is the body marker `HtmlPage`.
- The model call itself: it is the parameter `infer`, a function from request to outcome. The real call is asynchronous and may answer differently each time; the model fixes one answer per request.
- `JSON.stringify`, `String(e)` and `request.json()`: their results are given as data (`serialized`, `description`, `Payload`), not computed.
- The `response` field of a model result is modelled as text or absent. A non-text truthy value (a number, an object) would be returned as is and is not modelled. Neither is `JSON.stringify` returning `undefined`.
- Array elements of the request body are modelled as text. A non-text first element is not modelled.
- An empty array body gives no message. The model stores it as SQL NULL content (`None`) and goes on with the turn, as a storage binding of `undefined` would.
- The `id` column and `AUTOINCREMENT`: the id is never read. Insertion order is the order of the row sequence.
- SQL engine semantics beyond the three statements used. A storage failure is only which statement throws and its description (`Fault`). A failure of the constructor's table creation is not modelled.
- `Date.now()`: the timestamps are parameters. The ordering lemmas assume a clock that never goes backwards (`ClockAfter`).
- Durable Object lookup and forwarding (`idFromName`, `get`, `stub.fetch`) and the try/catch around them: `WorkerFetch` calls the given agent directly. So a lookup failure answered with 500 is not modelled.
- Interleaving of turns: the object can take a second request while one turn awaits the model call, so another user row may land between a turn's two rows. The model assumes turns do not interleave (`Conversation` runs them one after another); `Turn.ConversationShape` and `Turn.ConversationAlternates` depend on that assumption.
- HTTP headers other than Content-Type, and the default status text. The Content-Type of the 405 and 404 text responses is the runtime's default for a string body (`text/plain;charset=UTF-8`); the code sets none itself.
- `OrderByTimestamp`, `GetHistory`, `ChatEffect`: among rows with equal timestamps the model's query keeps insertion order, which is one of the orders SQL allows, not the only one. So `Turn.HistoryAfterAppend` and `Turn.ContextIsWholeLog` describe that choice when timestamps tie; `Turn.ContextUnderStrictClock` holds for every order under a strictly increasing clock.

## Findings

| source | as written | input that shows it | evidently intended | confidence | as-written member | corrected member |
|---|---|---|---|---|---|---|
| src/index.ts:29 | history is read with `ORDER BY timestamp ASC` only, so rows stored in the same millisecond come back in an order SQL does not fix | a turn whose model call throws within the same millisecond stores the user row and the assistant row with equal timestamps; the history may then list the reply before the question | the log read back in insertion order (`ORDER BY timestamp, id`) | low, not executed | `History.TiesAdmitEitherOrder` | `History.OrderByTimestamp` |
