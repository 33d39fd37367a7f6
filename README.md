# Documind usage quota gate, in Dafny

This project models the one piece of decision logic of the Documind web
application (PDF tools plus a chat with documents): the daily usage quota
gate and the request flows built on it, plus the file-selection list of the
upload widget.

- `usage_limit.dfy` (module `UsageLimit`): the `logs` table is a sequence of
  usage events held by a `UsageLog` object, and `LogUsage` appends to it.
  `CheckUsageLimit` is the gate. It is a read-only function of the log, the
  caller's identity, the action type, the start of the current UTC day, and
  what the store answers to each count query (`StoreReply`: the count, no
  count, or an error). A logged-in user has two disjoint daily pools: the AI
  chat (limit 3) and everything else (limit 5). A guest is known only by
  network address and gets one pool per address across all actions, which
  allows while it is empty. The gate fails closed without an identity. It
  fails open when the first count query errors.
- `usage_route.dfy` (module `UsageRoute`): the `GET /api/user/usage` snapshot,
  a pure function of two gate counts.
- `ai_chat_route.dfy` (module `AiChatRoute`): the `POST /api/ai-chat` flow,
  as an imperative method over the usage log and the `chat_history` table.
  The steps run in this order:
  1. derive the client address and call the gate (429 on denial);
  2. check the message (400);
  3. read the uploaded PDF's text (400 if it cannot be read);
  4. build the prompt;
  5. try seven models in order until one gives non-empty text (500 with the
     last thrown error otherwise);
  6. save two history rows for a logged-in user;
  7. log one usage event.
  The fallback loop is the method `TryModels`, proved against `FirstAnswer`
  and `LastThrown`. `Respond` states the reply as a function.
- `file_uploader.dfy` (module `FileUploader`): the class `Uploader` holds the
  selected files, the error lines and the calls made to `onFilesSelected`.
  `OnDrop` and `RemoveFile` update them.
- `headers.dfy`, `strings.dfy`, `wrappers.dfy`: the client address taken from
  `x-forwarded-for` (shared by both routes), a first-index-of helper, and
  `Option`.

The model follows the code where it differs from the stated policy ("one
guest credit, shared by every action"):

- A guest is counted through a second, address-wide query. This happens only
  when the action type is not the default `"all"`. Whether the first query
  errors is still decided by that query, which filters by action.
- An error on the second query is ignored: its count is null, and the call is
  allowed with count 0.
- A guest called with the default action type `"all"` keeps the limit 0. That
  guest is denied whenever the count is answered, even at count 0
  (lib/usage-limit.ts:4, 42, 72-74; `CheckUsageLimit`'s sixth ensures). No
  caller in the repository passes `"all"`.
- A user id or address is tested by JavaScript truthiness. An empty user id
  is therefore treated as a guest (`Truthy`).
- The denial message for a logged-in user is "Daily AI limit reached (3/3).",
  not a general limit message.

## Model

| member | source | states |
|---|---|---|
| `Headers.FirstField` | app/api/ai-chat/route.ts:18 | the result is a prefix of the header with no comma in it, and it ends at the header's first comma when there is one |
| `Headers.ClientIp` | app/api/ai-chat/route.ts:18 | the address is never empty. It is the header's first field when that field is non-empty, and "unknown" when the header is missing or its first field is empty |
| `Headers.ClientIpOfHeader` | app/api/user/usage/route.ts:11 | for a header `prefix,rest` where `prefix` has no comma, the address is `prefix`, or "unknown" when `prefix` is empty |
| `UsageLimit.StartOfDay` | lib/usage-limit.ts:6-7 | the start of the UTC day is a multiple of 86,400,000 ms at or before `now`, less than a day earlier |
| `UsageLimit.Count` | lib/usage-limit.ts:9-34 | the count a query returns never exceeds the number of logged events |
| `UsageLimit.CountIsMatchingPositions` | lib/usage-limit.ts:9-34 | the count equals the number of log positions whose event passes every filter of the query: since the start of day, the identity, and the action |
| `UsageLimit.CountSnoc` | lib/usage-limit.ts:79-86 | appending one event raises a count by one when the event matches the query, and leaves it unchanged otherwise |
| `UsageLimit.CountOnlyToday` | lib/usage-limit.ts:12 | a query counts the same in the log and in the log's events created at or after the start of day |
| `UsageLimit.CheckUsageLimit` | lib/usage-limit.ts:4-77 | with no identity: deny, count 0. First query errors: allow, count 0. Logged-in user with an answered count: the count is that user's "ai-chat" events today (or, for any other action, their events today whose action is not "ai-chat"), and the call is allowed iff the count is below 3 (or 5). Null count: allow, 0. Guest with an explicit action type: the count is all guest events from that address today, allowed iff it is 0, and an unanswered re-query allows with 0. Guest with the default "all": any answered count denies. The count never exceeds the log's length |
| `UsageLimit.GateSeesOnlyToday` | lib/usage-limit.ts:6-12 | the decision on a log equals the decision on that log's events of today, so events before the start of day never affect it |
| `UsageLimit.UserPoolsAreDisjoint` | lib/usage-limit.ts:24-32 | for a logged-in user, appending an "ai-chat" event never changes a general decision, and appending any other event never changes an "ai-chat" decision |
| `UsageLimit.GuestPoolIsShared` | lib/usage-limit.ts:50-61 | once a guest event from an address is logged today, whatever its action, the next guest call from that address (no user id, or an empty one) is denied for any explicit action type |
| `UsageLimit.UserEventsNeverCountForGuests` | lib/usage-limit.ts:17-18 | appending an event logged under a user id never changes the decision for a guest (no user id, or an empty one) |
| `UsageLimit.DenialIsStable` | lib/usage-limit.ts:50-76 | with answered counts, a denied caller stays denied however many events are logged later |
| `UsageLimit.UsageLog.LogUsage` | lib/usage-limit.ts:79-86 | the log becomes the old log plus exactly one event carrying the given user id, action, details and address; no existing row changes |
| `UsageRoute.Remaining` | app/api/user/usage/route.ts:29 | `remaining` is at most the limit. It is `limit - usage` when usage is within the limit, and 0 otherwise |
| `UsageRoute.Get` | app/api/user/usage/route.ts:6-39 | a thrown error gives 500 "Failed to fetch usage stats". Otherwise: `is_guest` iff there is no user id; limits are 1/1 for a guest and 5/3 for a user; `remaining` is `max(0, limit - usage)`, so it is between 0 and the limit and is 0 iff usage reaches the limit; `usage` is the gate's count for "general" and `ai_usage` its count for "ai-chat". The log is a value, so it is not changed |
| `UsageRoute.GuestUsageIsShared` | app/api/user/usage/route.ts:14-18 | for a guest whose first queries do not fail and whose re-queries get the same answer, `usage` equals `ai_usage`, and both are the address-wide count when that count is answered |
| `UsageRoute.RemainingZeroIffGateDenies` | app/api/user/usage/route.ts:20-29 | with answered counts, `remaining` is 0 exactly when the gate would deny the same caller a general action |
| `AiChatRoute.Prompt` | app/api/ai-chat/route.ts:71-77 | the prompt starts with "User Question: " + message + a blank line. It continues with the document section and the extracted text iff that text is non-empty, and with the helpful-assistant line otherwise |
| `AiChatRoute.FirstAnswer` | app/api/ai-chat/route.ts:79-94 | the position of the first outcome with non-empty text: that outcome has non-empty text and no earlier one does. It is the length of the list when there is none |
| `AiChatRoute.LastThrown` | app/api/ai-chat/route.ts:89-93 | none iff no outcome threw. Otherwise it is the value thrown by an outcome after which no outcome threw |
| `AiChatRoute.TryModels` | app/api/ai-chat/route.ts:68-94 | models are called in list order. The loop stops after the first model that gives non-empty text, and returns that text. It returns "" iff no model gives non-empty text. The last error is the last value thrown among the models actually called |
| `AiChatRoute.FailureMessage` | app/api/ai-chat/route.ts:96-130 | with no error, or a falsy non-Error value, the message is "All models failed. Please check your API Quota.". An Error gives its own message. Another truthy value gives "Failed to generate response" |
| `AiChatRoute.Respond` | app/api/ai-chat/route.ts:12-131 | a denied gate gives 429 with the user or guest limit message, whatever the form holds. Then a missing message gives 400 "Message is required", and an unreadable PDF gives 400. A 200 reply happens iff the request gets past those checks and some model answers; it carries the first non-empty answer. When no model answers, the reply is 500 with the last thrown error's message |
| `AiChatRoute.SuccessfulChatUsesOneCredit` | app/api/ai-chat/route.ts:119-122 | for a logged-in user with answered counts, a successful chat raises the user's AI count for today by exactly one, to at most 3, and leaves the general count unchanged |
| `AiChatRoute.SuccessfulGuestChatExhaustsPool` | app/api/ai-chat/route.ts:119-122 | after a successful guest chat, the next gated request from the same address today is denied whatever its action type (other than "all") |
| `AiChatRoute.ChatHistory.Insert` | app/api/ai-chat/route.ts:101-117 | inserting a history row appends exactly that row |
| `AiChatRoute.Post` | app/api/ai-chat/route.ts:12-132 | the reply is `Respond`'s. The usage log gains exactly one "ai-chat" event (user id, null details, client address) iff the reply is 200, and nothing otherwise. The history gains the user row and then the assistant row, with `docId` defaulting to "general", iff the reply is 200 and there is a session user. No model is called unless the request passes the gate, the message check and the PDF read |
| `FileUploader.Slice` | components/ui/FileUploader.tsx:28 | `slice(0, end)` is a prefix of `min(end, n)` elements, or of `max(n + end, 0)` elements for a negative end |
| `FileUploader.MergeSelection` | components/ui/FileUploader.tsx:28 | the new selection is a prefix of old selection ++ accepted files. For a non-negative `maxFiles` its length is `min(maxFiles, total)`. The old selection stays a prefix when it held at most `maxFiles` files. Everything is kept when it all fits |
| `FileUploader.DropIndex` | components/ui/FileUploader.tsx:47 | for an index in range the result is `files[..i] + files[i+1..]`; an index out of range leaves the list unchanged |
| `FileUploader.SplitJoinCodes` | components/ui/FileUploader.tsx:35 | a non-empty list of codes without commas is recovered from its `", "`-joined text, so the joined line loses no code |
| `FileUploader.ErrorLine` | components/ui/FileUploader.tsx:34-36 | the error line is the file name, then ": ", then the rejection's error codes joined by ", " |
| `FileUploader.ErrorLineCodesReadBack` | components/ui/FileUploader.tsx:33-37 | for a rejection with at least one code and no comma in any code, the codes are recovered from the part of its error line after the name and ": ", so the line loses no code |
| `FileUploader.ErrorLines` | components/ui/FileUploader.tsx:33-37 | there is one error line per rejected file, in rejection order |
| `FileUploader.Uploader.constructor` | components/ui/FileUploader.tsx:16-24 | the defaults are 10 files and 50 * 1024 * 1024 bytes, and the component starts with no files, no errors and no callback calls |
| `FileUploader.Uploader.OnDrop` | components/ui/FileUploader.tsx:26-44 | the selection becomes `MergeSelection` of the old one and the accepted files, and the callback receives exactly that selection. The errors become one line per rejection, or are cleared when nothing was rejected. A selection within a non-negative `maxFiles` stays within it |
| `FileUploader.Uploader.RemoveFile` | components/ui/FileUploader.tsx:46-50 | the selection loses the file at the index, or stays the same for an index out of range. The callback receives the new selection, the errors are untouched, and the bound on the selection size is kept |

## Left out

- The store client, the network and the database's clock. The `logs` and
  `chat_history` tables are in-memory sequences, and the time an event is
  stamped with is the parameter `now`.
- The start of the UTC day is an input of the gate. `StartOfDay` defines it
  from `now` in milliseconds; the JavaScript `Date` API is not modelled.
- Store write failures. An insert that returns an error is ignored by the
  source; in the model every insert appends.
- The check-then-log race between concurrent requests. The model is
  sequential.
- The language-model service, PDF text extraction and the session lookup.
  These are inputs: a function from (model, prompt) to an outcome, the
  `Upload` value, and the user id.
- Exceptions raised by the store client, the session lookup or form parsing.
  For the usage route they are the `failed` flag. For the chat route only the
  error thrown after all models fail is modelled.
- Logging to the console.
- The PDF tool routes, their client library and the chat-history CRUD route
  (`app/api/tools/*`, `lib/ilovepdf.ts`, `app/api/chat/history/route.ts`).
  They are calls into an external service and thin database access, and they
  never call the gate.
- All rendering, navigation and authentication UI, the size formatting and
  compression percentages, which are floating point.
- The drop zone's own accept, size and count decisions: rejections arrive as
  input. `maxSize` is only stored, and the `accept` prop is not modelled.
- `maxFiles` is an integer. The source's number could also be fractional,
  which `slice` would truncate.
- AiChatRoute.Post: no form body is read when the request is denied. The form
  is an input to the model, so this is not observable in it.
