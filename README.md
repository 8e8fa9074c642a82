# Serverless chat relay: WebSocket handler and chat client, modelled in Dafny

This project models two pieces of a real-time chat relay. A browser client sends prompts over a WebSocket. A Lambda handler authorizes each prompt, asks a retrieval-augmented generation backend, and streams the answer back to the client. A literal `"End"` frame closes each answer.

- **The Lambda handler** (`backend/src/index.ts`), in `auth.dfy` and `router.dfy`:
  - The handler classifies each event by route key: `$connect`, `$disconnect`, `ask`, or anything else.
  - For `ask`, it parses the body and checks the token (`decodeToken`, `authorize`).
  - It then runs `processPrompt`: one backend call, the answer frame, the `"End"` frame, and an upsert of the session row with a 7-day TTL.
  - The module-level `connectionId` and `prompt` are the fields of class `Router.Router`. Every backend call, push and session put the handler makes is appended to its `effects` field. The session query is a read and is not recorded.
  - Each method is proved against a specification function (`Pipeline`, `Handle`). The properties are stated on those functions.
- **The chat client** (`frontend/src/components/App.tsx`), in `chat_client.dfy`:
  - The three state cells `prompt`, `loading` and `conversation` are fields of class `ChatClient.App`.
  - `onMessage`, `sendPrompt` and the input's `onChange` are its methods, each proved against a transition function on `View`.
  - The rendering gives each entry its CSS class and React key, and disables the input while loading.
- **Both sides of the `"End"` protocol**, in `end_of_stream.dfy`: the frames the handler pushes become the messages the client receives.
- `decimal.dfy` models `Number.prototype.toString` on non-negative safe integers (below 2^53); the model itself is unbounded (see "## Left out"). It is used for the `ttl` attribute and for the `'chatmsg' + index` keys. `wrappers.dfy` holds `Option` and `Result`.

Everything outside this code is an input:
- the JWT library's `decode`, the JWKS key lookup and `verify` (an `Auth.Jwt` of three functions);
- `JSON.parse` of the body;
- the backend (a function from request to optional answer);
- whether each push and the put succeed;
- `Date.now()`;
- the AWS region;
- the id token handed to `sendPrompt`.

The model follows the code here:
- An `ask` whose token fails authorization resolves to `undefined`. No acknowledgement is returned on that path.
- A failed backend call, push or put is not caught. The error propagates out of the handler. A failed push also prevents the session write.
- The `ttl` attribute is `Date.now()` plus 604800000, which is milliseconds, not epoch seconds.
- The session lookup is not awaited. The value of `bedrock_sessionid` read at line 127 is modelled as a free input (`World.observedSessionId`). Under JavaScript's run-to-completion semantics the query callback cannot run before line 127, so in practice that value is always `null`. The model keeps it free, which covers both cases. `Router.QueryCallback` states what the callback would assign if it had run.
- `sessionId` is sent when the observed value is *truthy*, so an empty string is omitted too.

## Model

| member | source | states |
|---|---|---|
| `Decimal.DecimalString` | backend/src/index.ts:161 | The numeral of a non-negative integer is non-empty, all digits, and starts with '0' only for zero (the form `toString` gives). |
| `Decimal.ParseDecimalString` | backend/src/index.ts:161 | Reading back the numeral written for the TTL gives the number: the decimal string round-trips. |
| `Auth.DecodeToken` | backend/src/index.ts:46-54 | Succeeds exactly when decode returns a non-null value whose header has a truthy `kid`, and then returns that value. A null value, a missing header or a missing kid gives "Invalid token". A throw from the library propagates as a library error. |
| `Auth.AuthorizeTry` | backend/src/index.ts:57-79 | The outer try block returns true only after a successful decode. It throws exactly when decoding fails or the key lookup rejects. |
| `Auth.Authorize` | backend/src/index.ts:56-85 | Always yields a boolean, because every throw is caught. It is true exactly when the token decodes with a truthy kid, the signing key for that kid is truthy, and verify with that key does not throw. |
| `Router.QueryCallback` | backend/src/index.ts:98-111 | On a successful query with at least one item, the last item's `bedrock_sessionid` remains, even a missing one. On error, a missing page, missing items or no items, the value stays null. |
| `Router.BackendRequest` | backend/src/index.ts:113-129 | The request's text is the prompt, with the fixed knowledge base and model. It carries `sessionId` if and only if the observed session id is truthy, and then that id. |
| `Router.SessionRowFor` | backend/src/index.ts:151-164 | The row targets `bedrock_sessions`, is keyed by the connection, and stores the backend's session id. Its `ttl` is a decimal string that reads back as now + 604800000 ms. |
| `Router.Pipeline` | backend/src/index.ts:87-167 | There is exactly one backend call, carrying the prompt. The backend call, pushes and put made are a prefix of call, answer frame, "End" frame, put. A failed backend call means exactly that call and `BackendFailed`. A failed answer push means the call and that push, then `PushFailed`. A failed "End" push means three calls, then `PushFailed`. A failed put means all four calls, then `PutFailed`. So a failed push means no put. The run succeeds exactly when every call succeeds, and then makes all four calls in that order. A put happens only after both frames went out. Every frame and row is addressed to the given connection. |
| `Router.Handle` | backend/src/index.ts:169-217 | Every event sets the global connectionId. `$connect` sets prompt "Hello!", `$disconnect` sets "Bye!", and an authorized ask sets the body's data; other paths leave prompt unchanged. Non-ask routes make no calls and return the 200 ack. Calls happen if and only if the event is an authorized ask. Undefined is returned exactly for a parsed but unauthorized ask. A throw before any call happens exactly when the body does not parse. An authorized ask does exactly what the pipeline does, and acks exactly when the pipeline succeeded, otherwise rethrows its failure. Every effect targets the event's own connection. |
| `Router.Router.constructor` | backend/src/index.ts:34-35 | The globals start undefined and nothing has been called. |
| `Router.Router.ProcessPrompt` | backend/src/index.ts:87-167 | The awaited step-by-step pipeline, with the request mutated in place, appends exactly `Pipeline`'s calls and reports its failure. |
| `Router.Router.Handler` | backend/src/index.ts:169-217 | After the handler, the globals, the new calls and the completion are exactly `Handle`'s. |
| `ChatClient.AfterMessage` | frontend/src/components/App.tsx:34-49 | "End" clears loading and keeps the conversation. Another message that mentions the gateway timeout changes nothing. Any other message appends exactly one answer entry with its text and keeps loading. The prompt never changes, earlier entries are kept, and at most one entry is added. |
| `ChatClient.AfterKey` | frontend/src/components/App.tsx:56-79 | A key other than Enter changes nothing. Enter sets loading, appends the prompt as a question, and clears the prompt. Earlier entries are kept and at most one is added. |
| `ChatClient.SentOnKey` | frontend/src/components/App.tsx:56-68 | Nothing is sent for other keys. Exactly one `{action: 'ask', data: prompt, token}` is sent on Enter. |
| `ChatClient.AfterEdit` | frontend/src/components/App.tsx:105-107 | Editing the input replaces the prompt and nothing else. |
| `ChatClient.RunKeepsHistory` | frontend/src/components/App.tsx:38-76 | Over any sequence of messages, edits and key presses, the conversation only grows at the end, by at most one entry per input. |
| `ChatClient.LoadingUntilEnd` | frontend/src/components/App.tsx:46-61 | Once loading, the client stays loading (its input disabled) through any inputs until an "End" message arrives. |
| `ChatClient.EntryClass` | frontend/src/components/App.tsx:86 | The class is 'question' exactly for question entries and 'answer' for all others. |
| `ChatClient.ChatKeysDistinct` | frontend/src/components/App.tsx:85-86 | The keys 'chatmsg' + index of different positions are different. |
| `ChatClient.Render` | frontend/src/components/App.tsx:85-99 | There is one paragraph per entry, in order, with the entry's text and class, and the keys are pairwise distinct. The input shows the prompt and is disabled exactly when loading. |
| `ChatClient.App.constructor` | frontend/src/components/App.tsx:26-28 | The component starts with an empty prompt, not loading, and an empty conversation. |
| `ChatClient.App.OnMessage` | frontend/src/components/App.tsx:34-49 | The state cells change exactly as `AfterMessage` says, and nothing is sent. |
| `ChatClient.App.OnChange` | frontend/src/components/App.tsx:105-107 | The state cells change exactly as `AfterEdit` says, and nothing is sent. |
| `ChatClient.App.SendPrompt` | frontend/src/components/App.tsx:56-79 | The state cells change exactly as `AfterKey` says, and the sent messages grow by exactly `SentOnKey`. |
| `EndOfStream.DeliveredScript` | backend/src/index.ts:137-149 | A complete pipeline delivers exactly two messages to its connection: the answer text, then "End". |
| `EndOfStream.CompletedAskEndsTurn` | backend/src/index.ts:131-166 | Suppose a prompt sent with Enter is acknowledged by the handler. Then the backend was asked the typed text. After the pushed frames the client is not loading, and its conversation gained the question and the answer. Two exceptions add only the question: an answer that is itself "End" (taken for the end marker), and an answer mentioning "Endpoint request timed out" (filtered out). |
| `EndOfStream.MissingEndKeepsClientWaiting` | backend/src/index.ts:131-149 | When the "End" frame is not delivered, the client that asked stays loading, whatever non-"End" messages follow. This covers failed authorization, a failed backend call and a failed push. |

## Left out

- AWS SDK calls (Bedrock `RetrieveAndGenerateCommand`, API Gateway `PostToConnectionCommand`, DynamoDB `query`/`putItem`) are network I/O. They are inputs of `World`, and the calls made are recorded as `Effect`s. The session query is a read and is not recorded.
- JWT cryptography, JWKS fetching, key caching and rate limiting belong to foreign libraries. Decode, key lookup and verify outcomes are uninterpreted functions. The configured audience and issuer are part of the `verify` oracle.
- `signingKey.getPublicKey()` throwing is not modelled. If it threw, authorize would catch it and return false.
- Router.QueryCallback: the timing of the unawaited query callback is not modelled. The value read at line 127 is the free input `World.observedSessionId`, so a later ask on the same connection is not shown to resume the earlier session.
- Router.QueryCallback: a low-level DynamoDB item holds attribute-value objects. The model abstracts `bedrock_sessionid` to an optional string.
- Concurrent invocations sharing the module-level `connectionId` and `prompt` are concurrency. Only sequential handler calls are modelled.
- Decimal.DecimalString: JavaScript writes integers of 10^21 and above in exponent form and cannot represent integers above 2^53 exactly; the model's numerals are unbounded plain digits. `Date.now() + 604800000` is far below either limit.
- Logging, environment configuration and `TextEncoder` are left out: payloads are strings, and the region is a parameter.
- A parsed body missing `token` or `data` (passing `undefined` on) is not modelled. The parse oracle yields both fields as strings, or fails.
- A backend response without `output` (a TypeError at line 140) or without `output.text` (an empty answer frame is pushed, then "End" and the put) is not modelled.
- The React machinery is not modelled: re-rendering, hooks, the stale `conversation` captured by a closure, Amplify configuration, `withAuthenticator`, reconnect options and the spinner image.
- `Auth.currentSession` is not modelled. The token is an input of `SendPrompt`. Its awaited fetch, which could reject after `loading` was set, is not modelled.
- Behaviour the code does not have is not modelled: error frames to the client, a guaranteed acknowledgement on every path, and an awaited session lookup.
