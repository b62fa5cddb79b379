# Dust Figma proxy — request resolution

This project models the request-resolution handler of a small gateway. The
gateway lets a Figma plugin ask a Dust assistant for an answer in a single
synchronous HTTP call. The handler exists twice, almost word for word:

- as the serverless `handler` in `api/proxy.js`, with a budget of 4 polling attempts;
- as the Express route `POST /api/proxy` in `server.js`, with a budget of 15.

Each handler does the same steps in order:

1. It validates the request. A missing or empty `prompt` or `assistantId` gives 400.
   A missing API key or workspace id gives 500. Neither case calls the service.
2. It creates a conversation. The creation body carries the prompt and a title of
   the form `"Mockup: " + first 50 characters of the prompt + "..."`.
3. If creation is not ok, it passes the service's status and body text through.
4. It polls the conversation. Each attempt fetches the conversation once. A fetch
   that is not ok is skipped and uses up the attempt. Otherwise the message groups
   are flattened one level, and the agent messages with truthy content are kept.
   If any remain, the last one is returned as `200 {conversation: {...fields, content: [[m]]}}`.
5. If the last attempt fetched a conversation with no answer, it sends
   `408` with debug data: the conversation id, the attempt budget and the
   conversation URL. If the last attempt's fetch was not ok, `continue` skips
   the timeout branch. The loop then ends and the handler sends no response.

The network is an input. The creation call's result is a `CreateResult`. The
answer to the fetch of attempt `k` is `fetch(k)`. Both handlers return the
`Response` they send, or `NoResponse`, together with the list of service calls
they made. "No upstream call" is therefore `calls == []`.

Modules:

- `Wire` (wire.dfy): requests, environment, messages, conversations, service
  answers and calls, response envelopes. JavaScript truthiness of a field is
  "present and not the empty string".
- `Selection` (selection.dfy): `.flat()`, the agent-message filter and the
  choice of the last match.
- `Resolution` (resolution.dfy): the part both files share. It holds the title,
  the creation payload and the envelopes. `Resolve` and `Poll` are the reference
  functions. `Run` is the imperative handler body, proved equal to `Resolve`. Its
  polling `while` loop is the method `PollLoop`, proved equal to `Poll`. The lemmas state what the loop promises.
- `ServerlessHandler` (proxy.dfy): `api/proxy.js`. It adds method dispatch and
  uses a budget of 4. Its 500 body of the catch branch carries a stack trace.
- `ExpressRoute` (server.dfy): the `server.js` route. It uses a budget of 15 and
  no stack trace.

The `Resolution` members cite `api/proxy.js`. The same code is at
`server.js:22-146`, shifted by 5 to 8 lines.

Notes on what the code does:

- A fetch that is not ok never surfaces the upstream status. It is absorbed.
- If the last fetch fails, no response is sent at all.
- Neither file contains a stream-based resolver or a 500 "No agent response found" outcome.

## Model

| member | source | states |
|---|---|---|
| `Selection.Flatten` | api/proxy.js:99 | a message is in the flattened list exactly when it is in one of the conversation's message groups |
| `Selection.Replies` | api/proxy.js:101-103 | the kept messages are exactly the input's messages whose type is `agent_message` and whose content is truthy; none are added |
| `Selection.LastReply` | api/proxy.js:99-108 | an answer, when there is one, is a reply and comes from the flattened conversation |
| `Selection.NoAnswerIffNoReply` | api/proxy.js:99-107 | there is no answer exactly when no flattened message is a reply |
| `Selection.LastReplyIsLast` | api/proxy.js:107-108 | the chosen message stands at a position of the flattened list after which no reply follows: it is the last match, not the first |
| `Selection.LastReplyOfLaterGroup` | api/proxy.js:99-108 | when a later message group holds a reply, its last reply wins; otherwise the earlier groups decide, so order is flattened order |
| `Selection.IsReply` | api/proxy.js:101-103 | a message passes the filter only if its type is `agent_message` and its content is a non-empty string; `Replies` and `LastReplyIsLast` fix which passing message is chosen |
| `Resolution.Payload` | api/proxy.js:43-55 | the creation body carries the prompt as content, the assistant id, no mentions, non-blocking creation, the fixed context `timezone: "Europe/Paris"` and `username: "Figma Plugin User"`, and the title from `Title`; `Run` states that this is the first call of every ready request |
| `Resolution.ConversationUrl` | api/proxy.js:129 | the conversation URL starts with `https://dust.tt/w/` and the workspace id and ends with the conversation id |
| `Resolution.Found` | api/proxy.js:112-117 | the 200 envelope keeps every field of the conversation except `content`, which becomes `[[m]]`; `SuccessIsFirstReply` states which conversation and which `m` |
| `Resolution.TimedOut` | api/proxy.js:124-131 | the 408 envelope carries the timeout error text, the conversation id, `attempts == maxAttempts` and the conversation URL; `TimeoutReportsBudget` and the per-file timeout lemmas state when it is sent |
| `Resolution.Internal` | api/proxy.js:137-141 | the catch branch answers 500 with the internal-error body, with a stack trace exactly when the configuration says so (api/proxy.js yes, server.js:142-145 no) |
| `Resolution.Title` | api/proxy.js:54 | the title starts with `Mockup: ` and ends with `...`; its middle is a prefix of the prompt, equal to the whole prompt when that has at most 50 characters; its length is at most 61, and exactly 61 for prompts of 50 characters or more |
| `Resolution.Poll` | api/proxy.js:77-133 | from attempt `a` the loop makes at most `maxAttempts + 1 - a` fetches, every one of them a fetch of the same conversation in the same workspace with the same key |
| `Resolution.Resolve` | api/proxy.js:14-133 | a request makes at most one creation call plus `maxAttempts` fetches; every call after the first is a fetch, and for a ready request whose conversation was created each of them fetches that created conversation in the configured workspace with the configured API key |
| `Resolution.PollLoop` | api/proxy.js:77-133 | the imperative `while` loop over the attempts computes exactly `Poll` from attempt 1: the same response and the same fetches in the same order |
| `Resolution.Run` | api/proxy.js:17-133 | the imperative handler body computes exactly `Resolve`; missing fields give 400 and missing credentials 500, both with no call; a ready request's first call is the creation with the payload and title; a creation that is not ok passes its status and text through after that single call |
| `Resolution.FirstDecisive` | api/proxy.js:77-133 | the first attempt that ends the loop lies within the budget; every earlier attempt missed and was not the last |
| `Resolution.PollDecided` | api/proxy.js:77-133 | the loop makes exactly one fetch per attempt up to the first decisive attempt; what it sends is that attempt's verdict: 500 for an exception, 200 for a reply, 408 for a reply-less last attempt, nothing for a rejected last fetch |
| `Resolution.FirstReplyWins` | api/proxy.js:107-118 | if attempts before `k` missed and attempt `k` has a reply, the response is the 200 envelope of attempt `k`'s conversation around its last reply, after exactly `k` fetches, with no later attempts |
| `Resolution.SuccessIsFirstReply` | api/proxy.js:107-118 | a 200 conversation body arises only for a ready request and a created conversation; it is the first replying attempt's conversation with every field kept and `content == [[m]]`, where `m` is an agent message with non-empty content |
| `Resolution.TimeoutReportsBudget` | api/proxy.js:121-132 | a 408 timeout body arises only for a ready request with a created conversation; it reports `attempts == maxAttempts`, the conversation id and its URL in the workspace, after exactly `maxAttempts` fetches |
| `Resolution.TimeoutIffBudgetExhausted` | api/proxy.js:93-132 | the 408 is sent if and only if every attempt before the last missed and the last attempt fetched a conversation without a reply |
| `Resolution.UnansweredIffFinalFetchRejected` | api/proxy.js:93-96 | no response is sent if and only if every attempt before the last missed and the last fetch was not ok; all `maxAttempts` fetches were made |
| `Resolution.RejectedFetchCountsAsMiss` | api/proxy.js:77-106 | a fetch that is not ok before the last attempt uses up that attempt on the same counter and counts exactly like a fetched conversation without a reply: two answer sequences that differ only there give the same response and the same fetches |
| `ServerlessHandler.Handler` | api/proxy.js:1-143 | OPTIONS gives 200 with an empty body and any method other than POST gives 405, both with no call; POST gives 400, 500, creation passthrough as in `Run`; at most 1 + 4 calls, every call after the first a fetch of the created conversation with the configured workspace and key; a 408 timeout body reports 4 attempts; POST is exactly `Resolve` with budget 4 and a stack trace in 500 bodies |
| `ServerlessHandler.TimeoutAfterFourAttempts` | api/proxy.js:121-132 | if attempts 1-3 miss and attempt 4 fetches a reply-less conversation, the response is 408 with the error text, the conversation id, 4 attempts and `https://dust.tt/w/<workspace>/conversation/<id>` |
| `ServerlessHandler.RejectedFourthFetchIsUnanswered` | api/proxy.js:93-96 | if attempts 1-3 miss and the fourth fetch is not ok, no response is sent, after one creation and four fetches |
| `ExpressRoute.ProxyRoute` | server.js:21-147 | missing fields give 400 and missing credentials 500, both with no call; a creation that is not ok passes status and text through after that single call; at most 1 + 15 calls, every call after the first a fetch of the created conversation with the configured workspace and key; a 408 timeout body reports 15 attempts; the route is exactly `Resolve` with budget 15 |
| `ExpressRoute.TimeoutAfterFifteenAttempts` | server.js:126-137 | if attempts 1-14 miss and attempt 15 fetches a reply-less conversation, the response is 408 with the error text, the conversation id, 15 attempts and the conversation URL |
| `ExpressRoute.RejectedFifteenthFetchIsUnanswered` | server.js:99-102 | if attempts 1-14 miss and the fifteenth fetch is not ok, no response is sent, after one creation and fifteen fetches |

## Left out

- The HTTP calls to the service and JSON (de)serialisation. The service is a foreign system. Its answers are the `create` and `fetch` inputs, and the request URLs are reduced to the workspace id, API key and conversation id they carry.
- The 2-second `setTimeout` between attempts and all wall-clock latency. The model counts attempts only.
- `console.log` and `console.error`, which have no effect on the response.
- The CORS headers (api/proxy.js:2-4), the `cors()` and `express.json()` middleware, the `/` health route and `app.listen` (server.js:5-18, server.js:149-151). These are transport and bootstrap code. For the same reason, the Express route's handling of OPTIONS and other methods is not modelled.
- The catch branches (api/proxy.js:135-142, server.js:140-146). They are one opaque 500 envelope. Its `message` and `stack` texts are not modelled, only whether a stack is included. The exceptions that lead there are the `CreateThrew` and `FetchThrew` inputs: a call that rejects, or a body without a `conversation` or without a content list. Exceptions from other causes are not modelled. Examples are a non-string truthy `prompt` (`substring` throws), a missing `req.body` in the serverless handler, and a message that is `null`.
- `Wire.Truthy`: only strings and absence are modelled. A field holding a number, object or other non-string value is not represented.
- `Resolution.Title`: the title is cut at 50 `char`s. JavaScript's `substring` counts UTF-16 code units, which differs for characters outside the Basic Multilingual Plane.
- `Selection.Flatten`: the conversation's `content` is a list of lists. `.flat()` on a list that mixes arrays and single message objects is not modelled.
- Conversation and message fields other than `content` and `type` are kept as one opaque map. They are carried through unchanged.
- `Wire.CreateRejected`: its status is not constrained to be outside 200-299. The model takes any such input as a creation that was not ok.
- The stream-based resolver. No streaming or event-parsing code is in `api/proxy.js` or `server.js`, so it is not part of this model.
