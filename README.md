# A verified model of the companion chat app's core

The app is an AI companion chat. The browser opens a conversation with a companion and sends a
message. The Express server checks the caller and stores the message. It builds a prompt from
the system persona, the stored history and the new message, and asks the Groq chat-completions
API for an answer. The answer comes back either as one JSON completion (`POST /messages`) or as
a server-sent event stream that is relayed to the browser delta by delta
(`POST /messages/stream`). Either way, the answer is stored and the conversation's `updatedAt`
is bumped.

On the client:
- a stream consumer turns the event-stream body back into parsed values;
- React Query reducers keep the cached message lists in step (optimistic insert, rollback,
  upsert of the streaming reply, finalisation);
- the chat screen keeps its own list and decides where the typing indicator goes.

Around these sit the request gates:
- Bearer authentication, the subscription-tier check, the guest gates and the per-address rate
  limiter;
- the premium and daily-message-limit gates;
- the Paddle billing webhook;
- the error type with its two error handlers;
- the model table, the query retry rule, the token storage in `localStorage`, the avatar upload
  filter, and the validation rules and limiter settings of the auth routes.

The model has one Dafny module per source file. Pure logic is written as functions and lemmas.
State that the source changes step by step is a class whose methods carry `modifies` clauses:
- the transcript store (`ChatRelay.ChatBackend`);
- the limiter map (`RateLimiter.Limiter`);
- the user table (`PaddleWebhook.UserTable`);
- the query cache (`ChatCache.QueryCache`);
- the screen's message list (`ChatView.ChatView`);
- `localStorage` (`TokenStorage.AuthStorage`).

Every loop of the source is a method with its invariants, proved against a specification
function:
- the two relay loops against `RelayChunks` and `RelayLines`;
- the client read loops against `ClientChunks` and `ClientLines`;
- the limiter's cleanup loop against `Cleanup`;
- the cache upsert loop against `AfterChunks`.

The module files are:

| file | module | models |
|---|---|---|
| `wrappers.dfy` | `Wrappers` | Option, Result, JavaScript truthiness of optional strings |
| `text.dfy` | `Text` | `trim`, `startsWith`, `split`/`join` on one character, `JSON.stringify` of a string, number rendering |
| `sse_lines.dfy` | `SseLines` | the carry-over line buffer both stream loops use |
| `api_errors.dfy` | `ApiErrors` | `server/src/utils/error.ts` |
| `error_middleware.dfy` | `ErrorMiddleware` | `server/src/middleware/error.middleware.ts` |
| `chat_relay.dfy` | `ChatRelay` | `server/src/routes/chat.routes.ts` |
| `chat_stream_client.dfy` | `ChatStreamClient` | `streamMessage` in `client/src/services/chat-service.ts` |
| `chat_cache.dfy` | `ChatCache` | `client/src/hooks/use-chat.ts` |
| `chat_view.dfy` | `ChatView` | `client/src/components/chat/chat-interface.tsx` |
| `auth_gates.dfy` | `AuthGates` | `authenticate`, `checkSubscription` and the guest gates of `server/src/middleware/auth.middleware.ts` |
| `rate_limiter.dfy` | `RateLimiter` | `rateLimit` of the same file |
| `subscription_gates.dfy` | `SubscriptionGates` | `server/src/middleware/subscription.middleware.ts` |
| `paddle_webhook.dfy` | `PaddleWebhook` | `server/src/controllers/paddle.controller.ts` |
| `groq_models.dfy` | `GroqModels` | `server/src/lib/groq-models.ts` |
| `query_retry.dfy` | `QueryRetry` | `client/src/lib/query-client.ts` |
| `token_storage.dfy` | `TokenStorage` | `client/src/lib/auth.ts` |
| `upload_filter.dfy` | `UploadFilter` | `server/src/middleware/upload.middleware.ts` |
| `auth_validation.dfy` | `AuthValidation` | the validators and limiters of `server/src/routes/auth.routes.ts` |

The outside world enters as parameters:
- the Groq answer (`UpstreamReply`), with the stream as a sequence of already decoded text
  chunks;
- `JSON.parse` and the delta lookup (`extract`, `parse`);
- JWT verification and database lookups;
- the clock (a `clock` field, or `now`/`today` parameters);
- the environment variables (`GroqEnv`).

Several behaviours of the code are kept as written and are stated as lemmas:
- **[DONE] ends only the inner loop.** The upstream `[DONE]` line ends only the loop over the
  current chunk's lines. Reading goes on, and later deltas are relayed after the marker
  (`DoneKeepsReadingChunks`).
- **The browser never sees the final event, or sees the text twice.** The browser stops at the
  first `[DONE]`. So it either never receives the final event, or, when the provider sent no
  `[DONE]`, it accumulates the whole response twice (`StreamBodyAsReceived`,
  `TextDoubledWithoutDone`).
- **The prompt uses the oldest twenty messages.** The history takes the OLDEST twenty messages,
  and it already contains the new user message. A short thread therefore ends with the user turn
  twice, and a full thread leaves the new turn out of the history
  (`PromptRepeatsNewTurn`, `PromptOmitsNewTurnWhenThreadFull`).
- **The two premium checks disagree.** The webhook writes the tier `PREMIUM`, which
  `checkSubscription` does not rank. A premium user passes `requirePremium` but fails
  `checkSubscription('premium')` (`PremiumGatesDisagree`, `UpperCaseTierRanksZero`).
- **A missing customer id matches everyone.** A webhook event without `customer_id` matches
  every user, so the first user in the table is upgraded (`MissingCustomerUpgradesFirstUser`).
- **Exhausted counters are never reset.** A rate-limit counter is dropped only one whole window
  after its reset time. An address that used up its requests stays refused in between
  (`StaleCounterStillRefuses`).

## Model

| member | source | states |
|---|---|---|
| Text.TrimSpec | server/src/routes/chat.routes.ts:330 | `trim()` yields the slice of the line between a whitespace prefix and a whitespace suffix, and that slice neither starts nor ends with whitespace |
| Text.TrimEmptyIffAllWhitespace | client/src/components/chat/chat-interface.tsx:54 | a trimmed string is empty exactly when every character is JavaScript whitespace |
| Text.Split | server/src/routes/chat.routes.ts:326 | `split` yields at least one part; no part holds the separator; joining the parts gives the input back |
| Text.SplitJoin | server/src/routes/chat.routes.ts:326 | splitting the join of separator-free parts gives those parts back |
| Text.JsonQuote | server/src/routes/chat.routes.ts:344 | the JSON string literal is quoted and never contains a line feed, so it cannot break an event line |
| Text.NatToStringRoundTrip | server/src/middleware/auth.middleware.ts:126 | the decimal rendering of a number reads back as that number |
| SseLines.SplitLines | server/src/routes/chat.routes.ts:326-327 | the buffer split is lossless (the terminated lines plus the carried tail are the buffer), and neither a line nor the tail holds a line feed |
| SseLines.SplitLinesUnique | server/src/routes/chat.routes.ts:326-327 | the split is determined by its result: lines and a tail without line feeds split back into themselves |
| SseLines.SplitLinesAfter | server/src/routes/chat.routes.ts:323-327 | text that begins with terminated lines yields those lines first and then the split of what follows, which is the basis for reading chunk by chunk |
| ApiErrors.ConstructorsTable | server/src/utils/error.ts:25-59 | each static constructor yields its status, passes the data through, keeps a given message, and is operational exactly for statuses below 500 (not for internal, not implemented or service unavailable) |
| ApiErrors.NewApiError | server/src/utils/error.ts:6-23 | `new ApiError(status, message)`: no data, operational |
| ApiErrors.BadRequest | server/src/utils/error.ts:25-27 | status 400 with the given message and data, operational |
| ApiErrors.Unauthorized | server/src/utils/error.ts:29-31 | status 401, message defaulting to `Unauthorized`, operational |
| ApiErrors.Forbidden | server/src/utils/error.ts:33-35 | status 403, message defaulting to `Forbidden`, operational |
| ApiErrors.NotFound | server/src/utils/error.ts:37-39 | status 404, message defaulting to `Not Found`, operational |
| ApiErrors.Conflict | server/src/utils/error.ts:41-43 | status 409, message defaulting to `Conflict`, operational |
| ApiErrors.TooManyRequests | server/src/utils/error.ts:45-47 | status 429, message defaulting to `Too Many Requests`, operational |
| ApiErrors.Internal | server/src/utils/error.ts:49-51 | status 500, message defaulting to `Internal Server Error`, not operational |
| ApiErrors.NotImplemented | server/src/utils/error.ts:53-55 | status 501, message defaulting to `Not Implemented`, not operational |
| ApiErrors.ServiceUnavailable | server/src/utils/error.ts:57-59 | status 503, message defaulting to `Service Unavailable`, not operational |
| ApiErrors.Construct | server/src/utils/error.ts:25-59 | the nine static constructors by name; `ConstructorsTable` states the status, message, data and operational flag of each |
| ApiErrors.HandleError | server/src/utils/error.ts:62-121 | success is false; the stack is sent only in development; later rules win: P2002 gives 409, a validation error gives 422 with its field list, an expired or invalid token gives 401; otherwise the status and message fall back to 500 and "Internal Server Error"; a validation error without `errors` makes the handler itself throw |
| ErrorMiddleware.Wrap | server/src/middleware/error.middleware.ts:15-17 | an `ApiError` is kept as is; any other value becomes a 500 with its own message or the default one, and without data |
| ErrorMiddleware.Respond | server/src/middleware/error.middleware.ts:9-31 | success is false; an `ApiError` keeps its message, data and truthy status; a falsy status becomes 500; any other value answers 500 even when it carries its own status; the stack is sent exactly in development |
| ChatRelay.CheckRequest | server/src/routes/chat.routes.ts:180-192 | accepted exactly when the user id, content, conversation id and companion id are all non-empty; otherwise the first missing one is reported, in that order, with 401 or 400 |
| ChatRelay.OwnedBy | server/src/routes/chat.routes.ts:194 | a conversation matches when its id, owner and companion are the request's |
| ChatRelay.FindConversation | server/src/routes/chat.routes.ts:194-195 | the first conversation owned by the caller with that id and companion, or nothing exactly when none matches |
| ChatRelay.Thread | server/src/routes/chat.routes.ts:207-209 | exactly the stored rows of one user's conversation: every row it holds is a stored row of that conversation and user (`ThreadComplete` shows every such stored row is in it, `ThreadAppend` that it keeps store order) |
| ChatRelay.ThreadComplete | server/src/routes/chat.routes.ts:207-209 | no stored row of the conversation and user is left out of the thread |
| ChatRelay.History | server/src/routes/chat.routes.ts:207-211 | the history is the OLDEST rows of the thread, at most twenty of them, in creation order |
| ChatRelay.Turns | server/src/routes/chat.routes.ts:215-218 | one turn per history row, in order: a user turn for a user row, an assistant turn otherwise |
| ChatRelay.ToTurn | server/src/routes/chat.routes.ts:216-217 | a stored user row becomes a user turn and any other row an assistant turn, with the row's content |
| ChatRelay.AssemblePrompt | server/src/routes/chat.routes.ts:213-220 | the system turn first, then each history row's content with its role (never the system role), then the new user turn last; two turns more than the history |
| ChatRelay.PromptBounded | server/src/routes/chat.routes.ts:207-220 | the prompt never has more than 22 turns, however long the thread |
| ChatRelay.ThreadAppend | server/src/routes/chat.routes.ts:197-209 | storing one more row extends the thread by that row exactly when it belongs to the thread, and leaves it as it was otherwise, so the thread is the stored rows filtered in store order |
| ChatRelay.PromptRepeatsNewTurn | server/src/routes/chat.routes.ts:197-220 | while the thread holds fewer than twenty rows, the prompt ends with the new user turn twice |
| ChatRelay.PromptOmitsNewTurnWhenThreadFull | server/src/routes/chat.routes.ts:197-211 | once the thread holds twenty rows, storing the new message leaves the history unchanged |
| ChatRelay.KeyCheck | server/src/routes/chat.routes.ts:26-29 | the call is refused with 500 exactly when no API key is configured |
| ChatRelay.ModelOf | server/src/routes/chat.routes.ts:15 | the model asked for: `GROQ_MODEL` when it is set and non-empty, else `llama-3.1-70b-versatile` |
| ChatRelay.ReplyCheck | server/src/routes/chat.routes.ts:48-55 | only an ok reply with a body passes; a rejected fetch propagates as a plain error; a non-ok status is a 502 naming the status and the body text or status text; a missing body is a 502 |
| ChatRelay.UpstreamErrorMessage | server/src/routes/chat.routes.ts:50 | the 502 message: `Groq API error (<status>): ` followed by the body text, or the status text when the body text is empty |
| ChatRelay.CompletionCheck | server/src/routes/chat.routes.ts:67-71 | a completion passes exactly when it carries string content; a missing content is a 502; an unparsable body throws a `SyntaxError` |
| ChatRelay.Classify | server/src/routes/chat.routes.ts:329-348 | the inner loop's decision for one upstream line: skip it, stop at `data: [DONE]`, or forward a non-empty delta; `ClassifyMeaning` states which lines get which decision |
| ChatRelay.RelayLines | server/src/routes/chat.routes.ts:329-349 | the events written for the complete lines of one chunk, cut off by the end mark at the first `[DONE]`; `RelayChunkLines` is proved to write exactly these and `RelayLinesAppend` splits them over concatenation |
| ChatRelay.RelayChunks | server/src/routes/chat.routes.ts:316-350 | the events written for a whole upstream body read chunk by chunk with the carried buffer, `[DONE]` ending only its own chunk; `RelayStream` is proved to write exactly these and `RelayChunksShape` bounds what they can be |
| ChatRelay.DeltaText | server/src/routes/chat.routes.ts:317-343 | the text `full` accumulates: the contents of the delta events in order, the end mark adding nothing; `DeltaTextAppend` makes it additive and `RelayStream` returns it as `full` |
| ChatRelay.ClassifyMeaning | server/src/routes/chat.routes.ts:329-348 | only a trimmed `data: ` line is acted on; `data: [DONE]` is the end mark; a delta is forwarded exactly when the payload yields a non-empty string, and it is that string |
| ChatRelay.RelayLinesAppend | server/src/routes/chat.routes.ts:329-349 | before any end mark, relaying lines distributes over concatenation |
| ChatRelay.DeltaTextAppend | server/src/routes/chat.routes.ts:343 | the accumulated response of two event sequences is the concatenation of their texts |
| ChatRelay.RelayChunkLines | server/src/routes/chat.routes.ts:329-349 | the inner loop writes exactly the events `RelayLines` specifies and adds exactly their delta text to the response |
| ChatRelay.RelayStream | server/src/routes/chat.routes.ts:316-350 | the read loop writes exactly the events `RelayChunks` specifies for the chunks received, and `full` is the text of the deltas it wrote |
| ChatRelay.RelayLinesShape | server/src/routes/chat.routes.ts:334-345 | every event the inner loop writes is a non-empty delta or the end mark |
| ChatRelay.RelayChunksShape | server/src/routes/chat.routes.ts:319-350 | every event the read loop writes is a non-empty delta or the end mark; the final event is never among them |
| ChatRelay.DoneDropsRestOfChunk | server/src/routes/chat.routes.ts:334-337 | a data line after `[DONE]` in the same chunk is not relayed |
| ChatRelay.DoneKeepsReadingChunks | server/src/routes/chat.routes.ts:319-337 | a data line in the chunk after `[DONE]` is still relayed, after the end mark |
| ChatRelay.Payload | server/src/routes/chat.routes.ts:335-369 | an event's JSON payload has no line feed; it is `[DONE]` exactly for the end mark and an object otherwise |
| ChatRelay.Frame | server/src/routes/chat.routes.ts:335-369 | one `res.write`: `data: `, the payload and a blank line; `WireIsLines` shows each frame is one `data:` line |
| ChatRelay.WireText | server/src/routes/chat.routes.ts:319-370 | the response body: the frames of the written events, in write order; `BrowserReceives` reads it back |
| ChatRelay.ChatBackend.CreateMessage | server/src/routes/chat.routes.ts:197-205 | the new row gets a fresh id and the current time and goes last; nothing else in the store changes |
| ChatRelay.ChatBackend.Touch | server/src/routes/chat.routes.ts:237-240 | the conversation's `updatedAt` becomes the current time, and no timestamp moves backwards |
| ChatRelay.TouchRows | server/src/routes/chat.routes.ts:237-240 | the conversation with the id gets `updatedAt` set to the given time and no other field changed; every other conversation is unchanged |
| ChatRelay.ChatBackend.Request | server/src/routes/chat.routes.ts:222-225 | the upstream request is recorded, and the store is unchanged |
| ChatRelay.ChatBackend.HandleStream | server/src/routes/chat.routes.ts:252-371 | a failed check or a missing conversation is rejected with its error and changes nothing; an accepted request is answered as `StreamAnswered` states |
| ChatRelay.ChatBackend.StreamAccepted | server/src/routes/chat.routes.ts:270-371 | the user's message is stored before the call; a missing key or a failed reply is rejected after that; otherwise the prompt is sent, the relayed events are written, their text is stored as the reply (even when empty), the conversation is bumped, and the body ends with the final event and a second `[DONE]` |
| ChatRelay.ChatBackend.RelayAndStore | server/src/routes/chat.routes.ts:313-370 | the relayed events, then the stored reply with the concatenated deltas, then the bump and the two closing events |
| ChatRelay.ChatBackend.HandleMessage | server/src/routes/chat.routes.ts:179-249 | the same checks as the stream handler, rejecting without any change; an accepted request is answered as `MessageAnswered` states |
| ChatRelay.ChatBackend.MessageAccepted | server/src/routes/chat.routes.ts:197-248 | the user's message is stored first; a missing key, a failed reply or a bad completion is rejected after that; otherwise the completion is stored as the assistant message, the conversation is bumped, and the reply carries the stored row's id, content, time and conversation with role assistant |
| ChatRelay.ChatBackend.StoreAnswer | server/src/routes/chat.routes.ts:227-240 | the assistant row is stored, then the conversation is bumped at the next instant |
| ChatStreamClient.ClientLine | client/src/services/chat-service.ts:91-99 | without trimming, a line stops the read exactly when it is `data: [DONE]`, and yields exactly when it is any other `data: ` line whose payload parses; it yields the parsed value |
| ChatStreamClient.ClientLines | client/src/services/chat-service.ts:90-101 | the values yielded for the complete lines of one chunk, and whether a `data: [DONE]` line ended the generator; `ReadLines` is proved to yield exactly these |
| ChatStreamClient.ClientChunks | client/src/services/chat-service.ts:82-101 | the values the generator yields for the whole body, stopping for good at the first `[DONE]`; `StreamMessage` yields exactly these and `ChunkingIrrelevant` shows they depend only on the joined text |
| ChatStreamClient.ReadLines | client/src/services/chat-service.ts:90-101 | the line loop yields exactly the values `ClientLines` specifies and reports whether it met `[DONE]` |
| ChatStreamClient.StreamMessage | client/src/services/chat-service.ts:59-103 | without a body it throws "No response body"; otherwise it yields exactly the values `ClientChunks` specifies for the chunks read |
| ChatStreamClient.ClientLinesAppend | client/src/services/chat-service.ts:90-101 | reading two runs of lines is reading the first, then the second unless the first met `[DONE]` |
| ChatStreamClient.ChunkingIrrelevant | client/src/services/chat-service.ts:82-101 | what the client yields depends only on the concatenated text, not on where the transport cut it into chunks |
| ChatStreamClient.WireIsLines | server/src/routes/chat.routes.ts:335-369 | the response body is a sequence of line-feed-free lines: a `data:` line and a blank line per event |
| ChatStreamClient.UntilDone | client/src/services/chat-service.ts:93 | the events before the first end mark: a prefix without the end mark, followed by it when there is one, and all events when there is none |
| ChatStreamClient.ClientOnFrames | client/src/services/chat-service.ts:90-101 | reading the server's frames yields the parsed events before the first `[DONE]` and reports whether there was one |
| ChatStreamClient.BrowserReceives | client/src/services/chat-service.ts:82-101 | end to end: whatever the server writes and however it is chunked, the browser yields exactly the events written before the first `[DONE]`, in order |
| ChatStreamClient.StreamBodyAsReceived | server/src/routes/chat.routes.ts:368-369 | once the provider's `[DONE]` has been relayed the browser never sees the final event; without it the browser receives every delta and then the final event |
| ChatStreamClient.UntilDoneAppend | client/src/services/chat-service.ts:93 | the events seen from two runs are those of the first when it holds the end mark, and otherwise the first run followed by those of the second |
| ChatCache.KeysNest | client/src/hooks/use-chat.ts:8-15 | each query key extends the one above it; the companion keys form a separate branch; the message keys of different conversations differ |
| ChatCache.AllKey | client/src/hooks/use-chat.ts:9 | the root key `['chats']` |
| ChatCache.ConversationsKey | client/src/hooks/use-chat.ts:10 | the root key extended by `conversations` |
| ChatCache.ConversationKey | client/src/hooks/use-chat.ts:11 | the conversations key extended by the conversation id |
| ChatCache.MessagesKey | client/src/hooks/use-chat.ts:12 | a conversation's key extended by `messages`; `KeysNest` shows it lies under the conversations key and differs between conversations |
| ChatCache.CompanionsKey | client/src/hooks/use-chat.ts:13 | the root key extended by `companions` |
| ChatCache.CompanionKey | client/src/hooks/use-chat.ts:14 | the companions key extended by the companion id |
| ChatCache.MessagesPage | client/src/hooks/use-chat.ts:36-46 | a page holds at most twenty messages, namely the slice at its offset; a next page is announced exactly when messages remain beyond it, and only after a full page |
| ChatCache.PagesCoverAll | client/src/hooks/use-chat.ts:36-49 | following `nextPage` from page 0 loads every message exactly once, in order |
| ChatCache.AppendOptimistic | client/src/hooks/use-chat.ts:120-123 | the cached list (or an empty one) with the optimistic message last |
| ChatCache.CurrentOr | client/src/hooks/use-chat.ts:122 | `old = []`: the cached list, or the empty list when the key holds nothing |
| ChatCache.Rollback | client/src/hooks/use-chat.ts:127-134 | a remembered list, empty ones included, is restored; without one the current list stays |
| ChatCache.IsStreamingAssistant | client/src/hooks/use-chat.ts:172-174 | the list ends with an assistant entry that is still streaming, which the upsert rewrites instead of appending a new one |
| ChatCache.RollbackUndoesInsert | client/src/hooks/use-chat.ts:106-134 | an optimistic insert followed by a rollback restores the cached list; when nothing was cached, the optimistic message stays behind alone |
| ChatCache.Upsert | client/src/hooks/use-chat.ts:168-195 | the list ends with a streaming assistant entry holding the text so far; an existing one is rewritten in place, otherwise a new one is appended, and the earlier entries are untouched |
| ChatCache.UpsertAgain | client/src/hooks/use-chat.ts:168-195 | a later chunk only rewrites the entry the first chunk created, so the list grows by at most one |
| ChatCache.Finalize | client/src/hooks/use-chat.ts:199-213 | a streaming last entry of either role loses its flag and keeps its content; otherwise the list is unchanged; afterwards the last entry is not streaming |
| ChatCache.FinalizeIdempotent | client/src/hooks/use-chat.ts:199-213 | finalising twice is finalising once |
| ChatCache.AfterChunksStep | client/src/hooks/use-chat.ts:164-195 | one more chunk extends the accumulated text by its content and upserts the new text into the list |
| ChatCache.ReceivedText | client/src/hooks/use-chat.ts:164-166 | `fullResponse` after some chunks: each chunk's `content`, or nothing, appended in order; `ReceivedDeltas` ties it to the server's `full` |
| ChatCache.ChunkText | client/src/hooks/use-chat.ts:166 | `chunk.content || ''`: a chunk's content, or nothing |
| ChatCache.AfterChunks | client/src/hooks/use-chat.ts:164-196 | the cached list after the loop has upserted every chunk: unchanged without chunks, else one streaming assistant entry holding all the text received; `AfterChunksStep` extends it by one chunk and `QueryCache.ApplyChunks` is proved to leave exactly it |
| ChatCache.QueryCache.OptimisticSend | client/src/hooks/use-chat.ts:106-126 | returns the list cached under the conversation's message key and stores it with the optimistic message appended; no other key changes |
| ChatCache.QueryCache.RollbackSend | client/src/hooks/use-chat.ts:127-134 | a remembered list is written back under the message key; otherwise nothing changes |
| ChatCache.QueryCache.StreamMessage | client/src/hooks/use-chat.ts:150-216 | without a conversation, or when the stream throws, it fails and the cache is unchanged; otherwise the result is the accumulated text, and only the message list changes, to the upsert of every chunk followed by finalisation |
| ChatCache.QueryCache.ApplyChunks | client/src/hooks/use-chat.ts:164-196 | the loop accumulates exactly the chunks' text and leaves the list that `AfterChunks` specifies; every other key is untouched |
| ChatCache.QueryCache.PutStreaming | client/src/hooks/use-chat.ts:168-195 | one `setQueryData` call: the list under the key becomes its upsert, and nothing else changes |
| ChatCache.ReceivedDeltas | client/src/hooks/use-chat.ts:166 | over delta events, the hook accumulates exactly the text the server accumulated |
| ChatCache.TextDoubledWithoutDone | client/src/hooks/use-chat.ts:164-166 | when the provider sent no `[DONE]`, the hook's `fullResponse` is the whole response twice over |
| ChatView.MarkLastDone | client/src/components/chat/chat-interface.tsx:82-86 | only the last entry changes, and only its streaming flag is cleared |
| ChatView.DropStreaming | client/src/components/chat/chat-interface.tsx:90 | exactly the entries not flagged as streaming remain |
| ChatView.DropStreamingAppend | client/src/components/chat/chat-interface.tsx:90 | filtering keeps relative order: it distributes over concatenation |
| ChatView.UserEntryOf | client/src/components/chat/chat-interface.tsx:56-62 | the optimistic user message: the given id and content, role user, not streaming |
| ChatView.PendingReply | client/src/components/chat/chat-interface.tsx:64-71 | the pending bot reply: empty content, role assistant, streaming |
| ChatView.ChatView.constructor | client/src/components/chat/chat-interface.tsx:36 | the list starts as the initial messages |
| ChatView.ChatView.SyncInitial | client/src/components/chat/chat-interface.tsx:40-42 | new initial messages replace the list wholesale |
| ChatView.ChatView.BeginSend | client/src/components/chat/chat-interface.tsx:53-74 | whitespace-only content is ignored and changes nothing; otherwise the user message and an empty streaming reply are appended |
| ChatView.ChatView.CompleteSend | client/src/components/chat/chat-interface.tsx:82-86 | the list becomes `MarkLastDone` of the list before |
| ChatView.ChatView.FailSend | client/src/components/chat/chat-interface.tsx:87-91 | the list becomes `DropStreaming` of the list before |
| ChatView.ChatView.HandleSendMessage | client/src/components/chat/chat-interface.tsx:53-92 | whitespace-only content changes nothing; otherwise the insert is followed by the success update, or by the failure filter when the callback rejects |
| ChatView.SendThenComplete | client/src/components/chat/chat-interface.tsx:74-86 | after a successful send the list is the old one plus the user message and the reply, which is no longer streaming |
| ChatView.SendThenFail | client/src/components/chat/chat-interface.tsx:74-90 | after a failed send the user message stays and the pending reply goes, together with every other streaming entry |
| ChatView.Indicators | client/src/components/chat/chat-interface.tsx:168 | one indicator flag per rendered message |
| ChatView.IndicatorOnlyOnLast | client/src/components/chat/chat-interface.tsx:168 | the indicator is on at most one entry: the last one, exactly when streaming and that entry is an assistant message |
| ChatView.IndicatorOnPendingReply | client/src/components/chat/chat-interface.tsx:168 | right after the optimistic insert the indicator is on the pending reply, not on the user message, and only while streaming |
| AuthGates.SplitFirstField | server/src/middleware/auth.middleware.ts:25 | the first space-separated field is the text before the first space, and the rest is the split of what follows |
| AuthGates.BearerToken | server/src/middleware/auth.middleware.ts:20-28 | a missing header or one not starting with `Bearer ` is refused with 401; an accepted token is non-empty, has no space and starts the text after the scheme; every refusal says "No token provided" |
| AuthGates.BearerTokenIsField | server/src/middleware/auth.middleware.ts:25-28 | the token is the first space-separated field after `Bearer ` whenever that field is not empty |
| AuthGates.BearerTokenOf | server/src/middleware/auth.middleware.ts:20-28 | the header `Bearer <t>` yields `t` back |
| AuthGates.BearerTokenIgnoresRest | server/src/middleware/auth.middleware.ts:25 | anything after a second space is ignored |
| AuthGates.DoubleSpaceRefused | server/src/middleware/auth.middleware.ts:25-28 | `Bearer  x` leaves an empty token and is refused |
| AuthGates.FirstFieldIs | server/src/middleware/auth.middleware.ts:25 | the first space-separated field of `t rest` is `t` |
| AuthGates.Authenticate | server/src/middleware/auth.middleware.ts:17-59 | a bad header fails with its 401; a verification error and a rejected user lookup both reach `next(error)` unchanged; a user id with no stored user fails with 401 "User not found"; it succeeds exactly when all three steps pass, carrying the stored user's fields |
| AuthGates.CheckSubscription | server/src/middleware/auth.middleware.ts:61-85 | refused with 403 exactly when the required tier is known and outranks the user's tier (an unknown user tier ranks 0); an unknown required tier never refuses |
| AuthGates.TierRank | server/src/middleware/auth.middleware.ts:67-71 | the hierarchy ranks `free` 0, `premium` 1 and `premium_plus` 2, and no other tier |
| AuthGates.UserTier | server/src/middleware/auth.middleware.ts:64 | the user's tier, `free` without a user or with an empty tier |
| AuthGates.FreeAdmitsAll | server/src/middleware/auth.middleware.ts:61-79 | the tier `free` admits everyone, and a missing user counts as free |
| AuthGates.UpperCaseTierRanksZero | server/src/middleware/auth.middleware.ts:64-73 | a user whose stored tier is `PREMIUM` is refused a `premium` route, while `premium` would pass |
| AuthGates.CheckSubscriptionMonotone | server/src/middleware/auth.middleware.ts:67-73 | a higher-ranked user passes wherever a lower-ranked one does |
| AuthGates.GuestOnly | server/src/middleware/auth.middleware.ts:87-92 | admits exactly a guest user, and refuses everyone else with 403 |
| AuthGates.AuthenticatedOnly | server/src/middleware/auth.middleware.ts:94-99 | refuses exactly a guest user with 403; a request without a user passes |
| AuthGates.GatesPartitionUsers | server/src/middleware/auth.middleware.ts:87-99 | for an authenticated request exactly one of the two gates admits; a request without a user passes only `authenticatedOnly` |
| RateLimiter.CeilSeconds | server/src/middleware/auth.middleware.ts:121 | the milliseconds rounded up to whole seconds, for negative values too |
| RateLimiter.KeyOf | server/src/middleware/auth.middleware.ts:105 | the counter key is the request address, or `unknown` when it has none |
| RateLimiter.Cleanup | server/src/middleware/auth.middleware.ts:107-114 | the counters that survive cleanup: exactly those whose reset time is not before `now - windowMs`; `Limiter.DropExpired` is proved to leave exactly this map |
| RateLimiter.Judge | server/src/middleware/auth.middleware.ts:117-140 | against the surviving counters: a counter at the limit is refused with 429 and a `Retry-After` and the map is unchanged; otherwise the counter (fresh when absent) is incremented and the three headers are sent; `JudgeKeepsCounts` and `Limiter.Count` rest on it |
| RateLimiter.CounterFor | server/src/middleware/auth.middleware.ts:117 | the counter a request is judged by: the stored one, or a fresh one with count 0 resetting one window from now |
| RateLimiter.TooManyMessage | server/src/middleware/auth.middleware.ts:126 | the 429 message, with `Retry-After` rendered as a decimal number |
| RateLimiter.Decide | server/src/middleware/auth.middleware.ts:104-142 | one request is cleanup followed by judgement of the request's key; `DecideSpec` states its effect independently and `Limiter.Handle` is proved equal to it |
| RateLimiter.DecideSpec | server/src/middleware/auth.middleware.ts:104-142 | other addresses' counters survive exactly when their reset time is within one window, and unchanged; a request is refused exactly when its live counter has reached the limit, is then not counted, and gets `Retry-After` equal to the seconds, rounded up, until its reset time; an admitted request adds one (a fresh counter resets one window from now), reports the requests left, and sends `X-RateLimit-Reset` as its reset time in seconds rounded up |
| RateLimiter.CleanupKeepsCounts | server/src/middleware/auth.middleware.ts:110-114 | cleanup only drops counters, so the stored counts stay between 1 and the limit |
| RateLimiter.JudgeKeepsCounts | server/src/middleware/auth.middleware.ts:117-140 | counting keeps every count between 1 and the limit, so the remaining-requests header is never negative |
| RateLimiter.RetryAfterWhileWindowOpen | server/src/middleware/auth.middleware.ts:117-122 | while its window is open, a refused caller is told to wait at least one second |
| RateLimiter.StaleCounterStillRefuses | server/src/middleware/auth.middleware.ts:107-129 | an exhausted counter past its reset time but within one more window still refuses, tells the caller to retry in zero or fewer seconds, and stays as it is |
| RateLimiter.AdmissionsBounded | server/src/middleware/auth.middleware.ts:101-144 | within one counter's lifetime an address is admitted at most `limit - count` more times, and the counter counts exactly the admitted requests |
| RateLimiter.Limiter.constructor | server/src/middleware/auth.middleware.ts:101-102 | a limiter starts with its two settings and an empty map |
| RateLimiter.Limiter.DropExpired | server/src/middleware/auth.middleware.ts:110-114 | the cleanup loop leaves exactly the counters `Cleanup` keeps, and keeps the counts in bounds |
| RateLimiter.Limiter.Count | server/src/middleware/auth.middleware.ts:117-140 | the decision and the new map are those `Judge` specifies |
| RateLimiter.Limiter.Handle | server/src/middleware/auth.middleware.ts:104-143 | the decision and the new map are those `Decide` specifies (cleanup, then judgement), and the counts stay in bounds |
| SubscriptionGates.RequirePremium | server/src/middleware/subscription.middleware.ts:4-29 | passes exactly a signed-in user whose stored status is `premium`; otherwise 401 without a user, 500 when the lookup throws, and 403 with its explanation when no user is stored or the status is anything else |
| SubscriptionGates.DailyCount | server/src/middleware/subscription.middleware.ts:54-65 | counts at most the stored rows |
| SubscriptionGates.DailyCountAppend | server/src/middleware/subscription.middleware.ts:57-65 | a new row counts exactly when it is the same user's, from the user, and from today |
| SubscriptionGates.DailyCountAllMatch | server/src/middleware/subscription.middleware.ts:57-65 | when every row is one of today's user messages, all of them count |
| SubscriptionGates.CheckMessageLimit | server/src/middleware/subscription.middleware.ts:31-81 | 401 without a user; 404 for an unknown user; premium always passes; a failing read is a 500; any other user is refused with 429 and the count once fifty of their messages were sent since midnight, and passes otherwise |
| SubscriptionGates.LimitExceeded | server/src/middleware/subscription.middleware.ts:68-73 | the 429 body: its error, the upgrade message, the limit 50 and the current count |
| SubscriptionGates.FiftyMessagesExhaustAllowance | server/src/middleware/subscription.middleware.ts:67-74 | fifty user messages today refuse a free user's next message, while a premium user with the same history passes |
| SubscriptionGates.RepliesAreFree | server/src/middleware/subscription.middleware.ts:57-65 | stored assistant replies never count against the allowance |
| PaddleWebhook.FirstByPaddleFrom | server/src/controllers/paddle.controller.ts:73-75 | the first user with the given customer id, or the first user at all when the event has no customer id; no earlier user matches |
| PaddleWebhook.FirstByPaddle | server/src/controllers/paddle.controller.ts:73-75 | `findFirst({ where: { paddleUserId: customer_id } })` over the whole table, first row first; `FirstByPaddleFrom` states which row it finds |
| PaddleWebhook.FirstByPaddleIs | server/src/controllers/paddle.controller.ts:73-75 | the first match is determined by the rows up to it |
| PaddleWebhook.ByEmailFrom | server/src/controllers/paddle.controller.ts:81 | a user with that email, or nothing exactly when no user has it |
| PaddleWebhook.CreatedTarget | server/src/controllers/paddle.controller.ts:73-89 | the user an event acts on: the first by Paddle customer id, else the one with the truthy customer email |
| PaddleWebhook.Granting | server/src/controllers/paddle.controller.ts:91 | only the statuses `active` and `trialing` grant premium |
| PaddleWebhook.Linked | server/src/controllers/paddle.controller.ts:83-86 | the user gets the customer id as `paddleUserId`; an undefined id leaves the row as it is, as Prisma skips undefined fields |
| PaddleWebhook.Upgraded | server/src/controllers/paddle.controller.ts:130-137 | status `premium`, tier `PREMIUM`, and the subscription id when one is given; the other fields are kept |
| PaddleWebhook.Downgraded | server/src/controllers/paddle.controller.ts:111-117 | status `free`, tier `FREE`, and no subscription id; the other fields are kept |
| PaddleWebhook.AfterCreated | server/src/controllers/paddle.controller.ts:69-101 | the table after `subscription.created` or `subscription.updated`: a user found only by email is linked to the customer id, and the found user is upgraded when the status grants premium; `CreatedGrantsPremium` and `UserTable.SubscriptionCreated` rest on it |
| PaddleWebhook.AfterCancelled | server/src/controllers/paddle.controller.ts:103-120 | the first user with the customer id is downgraded and nobody else changes; `UserTable.SubscriptionCancelled` is proved to leave exactly it |
| PaddleWebhook.AfterPaymentSucceeded | server/src/controllers/paddle.controller.ts:122-139 | the first user with the customer id is upgraded and nobody else changes; `UserTable.PaymentSucceeded` is proved to leave exactly it |
| PaddleWebhook.Dispatch | server/src/controllers/paddle.controller.ts:43-60 | the `switch`: created and updated share one handler, cancelled and payment succeeded have their own, every other event changes nothing; `DispatchChangesAtMostOne` and `AcknowledgedEventsChangeNothing` state its effect |
| PaddleWebhook.DispatchChangesAtMostOne | server/src/controllers/paddle.controller.ts:43-60 | every event changes at most one user and never an id or email, so emails stay unique |
| PaddleWebhook.UpgradeThenCancel | server/src/controllers/paddle.controller.ts:103-139 | a payment makes the linked user premium (status and tier) with the event's subscription id; a later cancellation puts both back to free and clears the subscription id |
| PaddleWebhook.CreatedGrantsPremium | server/src/controllers/paddle.controller.ts:69-101 | after `subscription.created` the target is premium exactly when the status was active or trialing or it was premium already, and it is linked to the event's customer id |
| PaddleWebhook.RepeatedEventsIdempotent | server/src/controllers/paddle.controller.ts:103-139 | replaying a payment or a cancellation changes nothing more |
| PaddleWebhook.AcknowledgedEventsChangeNothing | server/src/controllers/paddle.controller.ts:43-60 | the paused, resumed and payment-failed events change no user, and a cancellation or payment for an unknown customer id changes nothing |
| PaddleWebhook.MissingCustomerUpgradesFirstUser | server/src/controllers/paddle.controller.ts:122-139 | a payment without a customer id upgrades the first user in the table |
| PaddleWebhook.PremiumGatesDisagree | server/src/controllers/paddle.controller.ts:130-137 | an upgraded user passes `requirePremium` but is refused `checkSubscription('premium')` |
| PaddleWebhook.WebhookGate | server/src/controllers/paddle.controller.ts:22-31 | a missing signature is 401 and a missing secret is 500; the event is processed exactly when both are present |
| PaddleWebhook.UserTable.SubscriptionCreated | server/src/controllers/paddle.controller.ts:69-101 | the table becomes `AfterCreated` of the old table, and emails stay unique |
| PaddleWebhook.UserTable.SubscriptionCancelled | server/src/controllers/paddle.controller.ts:103-120 | the table becomes `AfterCancelled` of the old table |
| PaddleWebhook.UserTable.PaymentSucceeded | server/src/controllers/paddle.controller.ts:122-139 | the table becomes `AfterPaymentSucceeded` of the old table |
| PaddleWebhook.UserTable.Handle | server/src/controllers/paddle.controller.ts:17-67 | a refused gate answers its error and changes nothing; otherwise the answer is `received`; an unsupported event changes nothing; a supported one goes through the switch |
| GroqModels.FindFrom | server/src/lib/groq-models.ts:45-47 | the first model with the id, or nothing exactly when no model has it |
| GroqModels.GetModelById | server/src/lib/groq-models.ts:45-47 | a found model is in the table and has the id; nothing is found exactly when no model has it |
| GroqModels.ModelsFoundById | server/src/lib/groq-models.ts:10-47 | the ids in the table are distinct, so every model is found by its own id |
| GroqModels.GetRecommendedModel | server/src/lib/groq-models.ts:49-57 | `premium` gets the 70B model and every other tier gets Mixtral, both from the table |
| GroqModels.RecommendationResolves | server/src/lib/groq-models.ts:49-57 | a recommendation is found again by its id, and the chat routes' default model is in the table |
| QueryRetry.ShouldRetry | client/src/lib/query-client.ts:7-13 | 401 and 403 are never retried; anything else is retried exactly while fewer than three failures happened |
| QueryRetry.RetryMonotone | client/src/lib/query-client.ts:7-13 | once a query stops being retried, it stays stopped at every later count |
| QueryRetry.ThreeRetries | client/src/lib/query-client.ts:12 | counting from zero failures, an error other than 401 or 403 is retried exactly three times |
| QueryRetry.NeverRetriedWhenRefused | client/src/lib/query-client.ts:9-11 | a 401 or 403 is never retried, at any count |
| UploadFilter.FileFilter | server/src/middleware/upload.middleware.ts:20-37 | a file passes exactly when it has an allowed image type and is at most 5 MiB; the type is checked before the size |
| UploadFilter.SizeBoundary | server/src/middleware/upload.middleware.ts:32-34 | exactly 5 MiB passes and one byte more is refused; an oversized file of the wrong type is refused for its type |
| UploadFilter.HandleUploadError | server/src/middleware/upload.middleware.ts:52-64 | the two known multer codes become their 400 errors; other errors are passed on unchanged; nothing, or an unknown multer code, calls `next()` with nothing |
| AuthValidation.MeasuredLength | server/src/routes/auth.routes.ts:38 | the measured length never exceeds the string's length |
| AuthValidation.MeasuredLengthPlain | server/src/routes/auth.routes.ts:38 | without variation selectors, the measured length is the plain length |
| AuthValidation.HasUpper | server/src/routes/auth.routes.ts:40 | `/[A-Z]/`: some character is an ASCII upper-case letter |
| AuthValidation.HasLower | server/src/routes/auth.routes.ts:42 | `/[a-z]/`: some character is an ASCII lower-case letter |
| AuthValidation.HasDigit | server/src/routes/auth.routes.ts:44 | `/\d/`: some character is an ASCII digit |
| AuthValidation.PasswordErrors | server/src/routes/auth.routes.ts:37-45 | a password is accepted exactly when it is at least 8 long and has an upper-case letter, a lower-case letter and a digit; each message is present exactly when its check fails, and the messages come in chain order (length, upper, lower, digit) |
| AuthValidation.MissingPasswordFailsAll | server/src/routes/auth.routes.ts:37-45 | a missing password fails all four checks, in chain order |
| AuthValidation.PasswordSamples | server/src/routes/auth.routes.ts:37-45 | `Passw0rd` is accepted and `password1` lacks only an upper-case letter |
| AuthValidation.RegisterNameErrors | server/src/routes/auth.routes.ts:46 | a name passes exactly when its trimmed length is 2 to 50; a blank name fails both checks |
| AuthValidation.NameLengthErrors | server/src/routes/auth.routes.ts:46 | the `isLength({ min: 2, max: 50 })` check on the trimmed name: no error when its measured length is 2 to 50, else the validator's default message |
| AuthValidation.RegisterErrors | server/src/routes/auth.routes.ts:37-46 | registration passes exactly when both the password and the name pass |
| AuthValidation.UpdateErrors | server/src/routes/auth.routes.ts:112-127 | absent fields are not checked; the update passes exactly when a present name trims to 2 to 50 and a present password comes with a current password and meets the policy |
| AuthValidation.ShortestNameAccepted | server/src/routes/auth.routes.ts:46 | a two-letter name passes registration |
| AuthValidation.UpdatePolicyMatchesRegister | server/src/routes/auth.routes.ts:114-127 | a new password on update is held to exactly the registration policy |
| TokenStorage.TokenOf | client/src/lib/auth.ts:6-9 | a token is read exactly in a browser where one is stored, and it is the stored one |
| TokenStorage.AuthStorage.GetAuthToken | client/src/lib/auth.ts:6-9 | `getAuthToken` over the current storage: `TokenOf` of its window flag and items; `SetAuthToken` reads back through it |
| TokenStorage.AuthHeaderOf | client/src/lib/auth.ts:33-38 | the header is empty exactly without a non-empty token, and otherwise it is `Bearer ` followed by the stored token |
| TokenStorage.SignedInOf | client/src/lib/auth.ts:27-30 | signed in exactly when a non-empty token is stored, which is exactly when the auth header is non-empty |
| TokenStorage.Without | client/src/lib/auth.ts:19-24 | exactly the given keys are removed, and the other values are kept |
| TokenStorage.CurrentUserOf | client/src/lib/auth.ts:41-46 | no user exactly without a browser or a non-empty stored value; a parsed user is what `JSON.parse` gives |
| TokenStorage.UserJson | client/src/lib/auth.ts:51 | `JSON.stringify` of `{ id, email }`: an object text with both strings quoted; `UserRoundTrip` reads it back |
| TokenStorage.AuthStorage.SetAuthToken | client/src/lib/auth.ts:12-16 | in a browser the token is stored and reads back; elsewhere nothing changes |
| TokenStorage.AuthStorage.RemoveAuthToken | client/src/lib/auth.ts:19-24 | in a browser both tokens are removed and the rest stays |
| TokenStorage.AuthStorage.SetCurrentUser | client/src/lib/auth.ts:49-53 | in a browser the user is stored serialised under `user` |
| TokenStorage.AuthStorage.ClearAuthData | client/src/lib/auth.ts:56-62 | in a browser exactly the two tokens and the user are removed |
| TokenStorage.SetThenGet | client/src/lib/auth.ts:6-16 | a stored token reads back; outside a browser nothing is ever read |
| TokenStorage.RemoveKeepsUser | client/src/lib/auth.ts:19-24 | removing the tokens signs out but keeps the stored user; clearing removes the user too and keeps every other key |
| TokenStorage.HeaderReadsBack | client/src/lib/auth.ts:33-38 | the header the client sends is one from which the server's `authenticate` reads the same token, when the token has no space |
| TokenStorage.UserRoundTrip | client/src/lib/auth.ts:41-53 | a stored user reads back through a `JSON.parse` that inverts the serialisation |
| TokenStorage.IsTokenExpired | client/src/lib/auth.ts:65-73 | a token without a second part, or whose payload does not decode, counts as expired; a payload without `exp` never expires; otherwise it is expired exactly from `exp` seconds on |

## Left out

- Network and transport: `fetch`, `AbortController` and the `close` listener, header flushing,
  and `TextDecoder` are not modelled. The upstream answer is a parameter, and its body is a
  sequence of already decoded text chunks.
- Stream interruptions: a read error in the middle of a stream is not modelled, and neither is a client
  that abandons the stream.
- Stream rejections after the headers: the stream handler sets its status and headers before it
  calls the provider. The model answers a missing key or a failed reply with a rejection. What
  Express then does with a response whose headers are already flushed is not modelled.
- Express routing: how Express routes a thrown error or a rejected promise to the error handler
  is not modelled. Handlers answer with a rejection value instead.
- `JSON.parse`, JWT verification, `atob` and the gates' database reads: these are oracle
  parameters. The model covers the cases where each succeeds, fails or throws, but not their
  internals. This covers the user lookup of `authenticate` and the two lookups and the count of
  the subscription gates.
- ChatRelay.ChatBackend.HandleStream, ChatRelay.ChatBackend.HandleMessage: the Prisma calls of
  the two chat routes always succeed in the model. These are `conversation.findFirst`, both
  `message.create` calls, `message.findMany` and `conversation.update`. In the source each of
  them can reject, which rejects the handler; the model has no such outcome.
- Ids and dates: `Date.now()`-based ids and ISO timestamps are parameters or the backend's
  `clock`. A database id is a natural number, rendered as a quoted decimal string in the final
  event.
- The system prompt: the persona text is kept in the backend's `systemPrompt` constant, set to
  `SYSTEM_PROMPT`. Its wording plays no part in any property.
- The user table as a sequence: it is a sequence rather than a map, because `findFirst` depends
  on row order.
- Webhook database failures: a database failure inside the webhook is not modelled. The source
  answers 500 "Webhook processing failed". The model's table updates cannot fail.
- The rest of the auth routes: email validation and normalisation (`isEmail`, `normalizeEmail`),
  the login, refresh and delete rules, the avatar URL check and `validateRequest` are not
  modelled. Only the password, name and update rules and the two limiters' settings are.
- `express-rate-limit`: only the settings of these limiters are modelled, not the library's
  counting. The project's own `rateLimit` is modelled in full.
- String lengths: JavaScript counts UTF-16 code units, and Dafny strings are sequences of code
  points. `MeasuredLength` drops only the two variation selectors, as the validator does.
- Toasts, logging, invalidation and scrolling: `onSettled` invalidation, the toasts,
  `console.log` and scrolling are not modelled. None of them changes the modelled state.
- The order of screen and cache updates: the screen's `handleSendMessage` and the cache's
  `onMutate` and `mutationFn` are modelled each on its own. Interleavings with other updates
  between their steps are not.
- Fetching the companion: `useStreamMessage` fetches the conversation to learn the companion.
  That request is not modelled, and its failure counts as the stream throwing.
- ChatCache.AppendOptimistic, ChatCache.Upsert, ChatCache.QueryCache.OptimisticSend,
  ChatCache.QueryCache.PutStreaming, ChatCache.QueryCache.ApplyChunks,
  ChatCache.QueryCache.StreamMessage: the cache maps each key to a message list or to nothing.
  `useMessages` stores an infinite-query result (`{ pages, pageParams }`) under the same
  message key, and the list updaters would throw on it, since it is not iterable. The model
  does not represent that state, so these members are proved only for a key that holds a list
  or nothing.
- UploadFilter.FileFilter: the model follows the text of the filter, size test included. Under
  multer the filter runs before the body is read, so `file.size` is undefined there and that
  test never refuses. An oversized file is stopped by the `limits.fileSize` setting instead,
  as `LIMIT_FILE_SIZE`, which `HandleUploadError` maps to its 400.
- Image dimension checking: `validateImageDimensions` and the multer storage setup are not
  modelled.
