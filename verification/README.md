# Conversational backends of the response-generation gateway

This project models the session logic of a small HTTP gateway. The gateway lets a client start a chat and then continue it against one interchangeable backend. Every backend call returns the same six-field `ChatResponse`. Two backends are modelled:

- **Echo**, a testing backend. It keeps two counters, a message number and a chat number. `start` greets with a fixed text. `receive` echoes the message back.
- **OLlama**, a backend that keeps the whole conversation as a role-tagged transcript (`seq<Message>`). It replays the transcript to a completion endpoint on every turn. Configured system prompts are placed before the greeting, and post-introduction prompts after it.

Everything is written as pure functions over immutable state records. Each operation returns the new state together with its response. The OLlama operations also return the completion request they send. The endpoint's answer is an argument (`Upstream`): either a reply message with its `created_at` timestamp, or `Unavailable` for a network error or an unreadable body. So the statements below hold for every possible reply.

Files and modules:

- `chat.dfy` (`Chat`): `ChatResponse`, `Message`, `Option`, `Result` and the failure kinds.
- `decimal.dfy` (`Decimal`): the decimal rendering of the Echo counters, and reading it back.
- `echo.dfy` (`Echo`): the Echo backend, and runs of calls on it.
- `ollama.dfy` (`OLlama`): `initialize`, `sendPrompt`, `start` and `receive` of the OLlama backend.
- `ollama_session.dfy` (`OLlamaSession`): sequences of `receive` calls on the OLlama backend.
- `backends.dfy` (`Backends`): the two-operation backend interface, as a sum type with dispatch.

Two behaviours of the code are easy to misread, and the model keeps them as written:

- After a `start`, Echo replies carry the greeting's chatId plus one. The greeting reads the chat counter before incrementing it (index.ts:135), and replies read it afterwards (index.ts:146). See `Echo.SessionChatId` and `Echo.SampleSession`.
- Only the empty string is dropped from the pre-introduction prompts (index.ts:44, `!!i`). A prompt made of spaces is kept (`OLlama.KeepNonEmpty`).

## Model

| member | source | states |
|---|---|---|
| Decimal.NatToString | index.ts:133-146 | the rendering `${n}` of a counter is non-empty, consists of decimal digits only, starts with "0" exactly when the counter is 0, and is a single digit exactly when the counter is below 10 |
| Decimal.ParseRendered | index.ts:144 | reading back the decimal text of a counter yields the counter, so an id string determines the counter it came from |
| Decimal.RenderingInjective | index.ts:133-135 | two counters render to the same id text exactly when they are equal |
| Decimal.CanonicalRendering | index.ts:133-146 | a text is the rendering of `n` exactly when it is non-empty, all digits, has no leading zero (other than "0" itself) and reads back as `n`, so those conditions fix the id text character for character |
| Echo.Start | index.ts:131-140 | the greeting has the fixed text "welcome to the echo chamber.", names "echo-backend" as character and source, and has no image (null); its id reads back as the unchanged message counter; its chatId reads back as the chat counter before the increment; both are canonical decimal text (no sign, no leading zero), so by `Decimal.CanonicalRendering` they are exactly the counters' renderings; afterwards the chat counter is one larger and the message counter is unchanged |
| Echo.Receive | index.ts:142-151 | the reply's text is the message verbatim, it names "echo-backend" twice and has no image; the message counter grows by exactly one and the reply's id reads back as the new value; the chatId reads back as the current chat counter, which is left unchanged; both are canonical decimal text, so by `Decimal.CanonicalRendering` they are exactly the counters' renderings |
| Echo.RunCounters | index.ts:128-151 | over any sequence of calls, the chat counter grows by exactly the number of `start` calls and the message counter by exactly the number of `receive` calls; neither ever decreases |
| Echo.ReceivesOnly | index.ts:142-151 | in a run of `receive` calls, reply i echoes message i, its id reads back as the starting message counter plus i + 1, and every reply reports the same chatId |
| Echo.SessionChatId | index.ts:131-151 | after a `start`, every reply up to the next `start` reports a chatId one greater than the greeting's |
| Echo.ReplyIdsDistinct | index.ts:144 | no two replies in a run of `receive` calls share an id |
| Echo.SampleSession | index.ts:127-152 | from a fresh backend, start / receive "hi" / start give ids "0", "1", "1" and chatIds "0", "1", "1" |
| OLlama.KeepNonEmpty | index.ts:44 | the kept pre-introduction prompts are all non-empty, hold every non-empty prompt exactly as often as the input does, and keep their relative order (a subsequence of the input) |
| OLlama.KeepNonEmptyUnique | index.ts:44 | any order-preserving selection with those three properties is exactly the filtered list, so the contract of the filter fixes its result |
| OLlama.Initialize | index.ts:35-59 | no transcript exists yet; base URL, model, initial prompt and post-introduction prompts are stored as given (empty post-introduction prompts are not dropped); the pre-introduction prompts are the non-empty ones, in order; the pull request goes to base URL + "api/pull" for the model |
| OLlama.SendPrompt | index.ts:61-96 | before any `start` it is rejected with no request and nothing changes; otherwise it keeps the configuration, sends the old transcript plus a user entry for the message (none for the empty message), leaves that followed by the reply (if one came) as the transcript, and answers with the response mapped from the reply or `UpstreamFailed`; on a failed round trip the transcript is exactly what was sent |
| OLlama.SendPromptSpec | index.ts:61-96 | before any `start` it is rejected and nothing changes; otherwise the request goes to base URL + "api/chat" with the model, streaming off and temperature 1, and carries the old transcript plus a user entry for the message (no entry when the message is empty); on a reply the transcript becomes the sent one plus the reply, and the response has id = chatId = created_at, characterId = model, srcName = "ollama-" + model, imageRelativePath = "" (not null), text = reply content; on a failed round trip the user entry stays in the transcript |
| OLlama.Start | index.ts:98-118 | the greeting request goes to base URL + "api/chat" for the model with streaming off and temperature 1, and is exactly one system entry per kept pre-introduction prompt followed by one user entry with the initial prompt, so it contains no post-introduction prompt; on a reply the transcript is that request, then the reply, then one system entry per post-introduction prompt, with length kept-prompts + 1 + 1 + post-prompts, and the greeting response has id = chatId = created_at, characterId = model, srcName = "ollama-" + model, imageRelativePath = "" and the reply's text; on failure the transcript is the greeting request alone |
| OLlama.Receive | index.ts:120-122 | before `start` it is rejected, sends nothing and changes nothing; after `start` it sends the old transcript plus a user entry for the message (none for the empty message), and the new transcript is exactly that followed by the reply when one came, so the old one is a prefix of it; the response is the same mapping of the reply as for `sendPrompt` (index.ts:85-93); it succeeds exactly when started and answered |
| OLlama.StartDiscardsHistory | index.ts:100-108 | `start` does not depend on any earlier transcript: two backends with the same configuration produce the same request, transcript and response |
| OLlamaSession.ReceiveAppends | index.ts:62-84 | one call on a started transcript appends exactly its user entry (if any) and its reply (if any), and sends the old transcript plus its user entry |
| OLlamaSession.ConverseTranscript | index.ts:61-96 | after any sequence of `receive` calls (with no `start` among them) on a started backend, the transcript is the starting one followed by each call's entries in call order |
| OLlamaSession.ConverseRequests | index.ts:62-78 | call k sends the transcript left by calls 0..k-1 plus its own user entry |
| OLlamaSession.ConverseResponses | index.ts:81-94 | call k of a started conversation succeeds exactly when its reply arrived |
| OLlamaSession.ConverseKeepsPrefix | index.ts:63-84 | `receive` never cuts a started transcript back: until the next `start`, which replaces the transcript outright (index.ts:108), it stays a prefix of every later transcript |
| OLlamaSession.SessionKeepsPreamble | index.ts:98-122 | after a successful `start`, the system prompts, the initial prompt, the greeting and the post-introduction prompts stay at the head of the transcript, in that order, across any sequence of `receive` calls up to the next `start` |
| OLlamaSession.UnstartedRejectsAll | index.ts:61-67 | before any `start`, every call is rejected, sends no request and leaves the backend unchanged |
| OLlamaSession.SampleGreeting | index.ts:35-117 | with prompts ["A", ""], initial "B", post ["C"] and base URL "http://localhost:11434/": the pull request goes to "http://localhost:11434/api/pull" for "neural-chat", the greeting request is [system A, user B], and after `start` the transcript is [system A, user B, reply1, system C] |
| OLlamaSession.SampleSession | index.ts:35-122 | with prompts ["A", ""], initial "B", post ["C"]: the greeting request is [system A, user B]; after `start` the transcript is [system A, user B, reply1, system C]; `receive "D"` sends those four entries plus user D and leaves reply2 at the end |
| Backends.Start | index.ts:21-24 | dispatch keeps the backend kind; Echo always succeeds with a null image; OLlama succeeds exactly when the endpoint answered, reports "" as image, the reply's text and "ollama-" + model as source, and keeps its configuration |
| Backends.Receive | index.ts:21-24 | dispatch keeps the backend kind; Echo always succeeds and echoes the message; OLlama succeeds exactly when started and answered, reports "" as image, the reply's text and "ollama-" + model as source, and keeps its configuration |
| Backends.ServeKeepsBackend | index.ts:279-300 | the backend chosen at start-up keeps its kind over any sequence of calls, and an OLlama backend keeps the configuration it was initialized with |
| Backends.AnswersCarryNoImage | index.ts:85-93 | no successful response of either backend carries an image path: the field is null (Echo) or "" (OLlama) |

## Left out

- CharacterAIBackend (index.ts:156-211): a thin wrapper over an external chat-service library and a remote stateful session. Its only local logic is renaming fields.
- Network I/O. The pull request's response is never inspected, so only the request is modelled. The completion round trip (fetch, then `.json()`) is replaced by the `Upstream` argument. The JSON encoding of the request bodies is not modelled; their fields are.
- Malformed replies. If the body parses but has no `message` field, the source appends `undefined` to the transcript and then throws. The model only covers failures before the reply is appended (`Unavailable`).
- `receive("")` before `start`. The source sends a request without a `messages` field and throws only once the reply arrives. The model rejects the call with `NotStarted` and no request. For a non-empty message the source throws before sending, which matches the model.
- The role of the endpoint's reply message is not checked. Like the source, the model appends the message as it came.
- The HTTP server and routes, command-line and environment parsing and defaults, and `console.log`. The choice of backend at start-up (index.ts:279-300) is represented only by the fixed `Backends.Backend` value.
- The command-line default base URL (index.ts:252) is "http://ollama:11434", without a trailing slash. Joined as at index.ts:52 and index.ts:69 it would give "http://ollama:11434api/pull". This is read from the code, not executed; the model takes the base URL as given and its sample uses a URL that ends in "/".
- Asynchronous interleaving of concurrent calls. Each operation is treated as atomic.
- OLlama.Initialize: the source's `initialize` returns the pull's `fetch` (index.ts:48, 52), and the start-up code awaits it (index.ts:286), so an unreachable server makes `initialize` reject and no backend is served. The model covers only a pull that goes through: it returns the pull request and the initialized state, with no failure path.
- Echo.Start: the counters are unbounded naturals. The source's counters are JavaScript numbers, which stop counting exactly past 2^53 and render in exponent form past 10^21.
- Echo.Receive: same as for Echo.Start, the counters are unbounded naturals rather than JavaScript numbers.
