# Chat and web-search gateway: a Dafny model

This project models the core of a small HTTP gateway. The gateway forwards chat requests to a language-model provider and web-search requests to a search provider. When the model stops to call the built-in `brave_search` tool, the gateway runs the search itself, appends the tool result to the conversation and asks the model once more.

The modelled core:

- The declaration of the built-in `brave_search` tool (`ClaudeRoute.BraveSearchTool`, src/routes/claude.js:13-32), with its input schema; `ClaudeRoute.MergeTools` puts it first in every request.
- `POST /chat` (`ClaudeRoute.Chat`, and the imperative `ClaudeRoute.ChatHandler` proved equal to it):
  - request validation;
  - the `||` defaults;
  - tool merging;
  - finding the tool-use block;
  - `processBraveSearchToolUse`;
  - extending the conversation;
  - the single resubmission.
- `POST /chat/stream` (`ClaudeRoute.ChatStream` with its loop in `ClaudeRoute.ForwardEvents`):
  - forwarding each provider event as a server-sent event;
  - stopping after a write that finds the response ended;
  - exactly one terminal `done` or `error` event.
- `POST /search` and `POST /search-and-analyze` (`BraveRoute`):
  - the query check before any request;
  - the search payload passed through as it is;
  - the analysis prompt, which numbers the results from 1 and separates them by blank lines.
- The error classification every route's `catch` performs (`ErrorHandler`).

JavaScript values are one datatype (`Js.Value`). Truthiness, `||`, destructuring defaults (which apply only to `undefined`) and property reads (which throw on `null` and `undefined`) follow the language's rules.

The two providers are oracle functions passed in as parameters:

- `ModelOracle`, `StreamOracle` and `SearchOracle` each return a reply or the error thrown.
- Each route's result records every request it sent, so the contracts can speak about call counts and request contents.

`JSON.stringify` is a parameter too (`Js.Serializer`).

Behaviours of the code worth noting:

- Caller tools named like the built-in tool are kept, not rejected (`ClaudeRoute.MergeToolsKeepsDuplicates`).
- An unreadable body on the streaming route becomes an `error` event, not a 400.
- Connection failures are not reported as 503 by the handler as written; the `## Findings` section covers this.
- `src/index.js:6` and `src/index.js:27` mount only the chat router, at `/api/claude`. The router of `src/routes/brave.js` is never mounted, so in the server as written `/search` and `/search-and-analyze` cannot be reached; the model describes them as the router defines them.

## Model

| member | source | states |
|---|---|---|
| Js.NatText | src/routes/brave.js:65 | the text of `index + 1` is a nonempty string of decimal digits, with more than one digit exactly from 10 on and no leading zero for a positive number, as `String(n)` writes it |
| Js.Get | src/routes/claude.js:111 | `v.k` throws exactly when `v` is null or undefined, and then a TypeError; otherwise it is the property, undefined when missing |
| Js.NatTextRoundTrip | src/routes/brave.js:65 | the number printed before each result entry is the decimal text of `index + 1`: reading the digits back gives the number |
| Providers.WebResults | src/routes/claude.js:53-54 | `data.web.results.map` succeeds exactly when `data` and `data.web` are present and `results` is an array, and then yields that array's elements in order; otherwise it throws a TypeError |
| ErrorHandler.HandleErrorAsWritten | src/utils/errorHandler.js:8-47 | the handler as written: every SDK error is answered with `error.status \|\| 500`, the label `error.name \|\| 'APIError'` and the keys `error`, `message`, `request_id`; every other error with 500 `InternalServerError` and the keys `error`, `message`, `details` |
| ErrorHandler.AsWrittenNeverReportsConnectionOrTimeout | src/utils/errorHandler.js:12-39 | as written, every SDK error takes the first branch, so the 503 and 504 responses are never produced; a connection failure without a status gets 500 |
| ErrorHandler.AsWrittenConnectionFailureIs500 | src/utils/errorHandler.js:12-21 | concrete case: the SDK's status-less "Connection error." is answered by the APIError branch, with 500 and error `Error`, where the corrected handler answers 503 |
| ErrorHandler.HandleError | src/utils/errorHandler.js:8-47 | status 504 for a timeout, 503 for a connection error, `error.status \|\| 500` for other SDK errors, 500 otherwise; every body has `error` and `message`; the `error` label is `TimeoutError`, `ConnectionError`, `error.name \|\| 'APIError'` or `InternalServerError` by kind; SDK errors carry exactly `error`, their own `message` and the `request_id` header (undefined when absent); the other kinds carry exactly `error`, their fixed message text and `details`, which is the error's message |
| ErrorHandler.HandleErrorAgreesOutsideConnectionErrors | src/utils/errorHandler.js:12-39 | the corrected handler gives the same response as the one as written exactly when the error is not a connection or timeout error |
| ClaudeRoute.MergeTools | src/routes/claude.js:98-105 | the built-in tool comes first, followed by exactly the caller's tools, in their order |
| ClaudeRoute.MergeToolsKeepsDuplicates | src/routes/claude.js:101-102 | a caller tool named `brave_search` is not removed: the merged list declares the name once more than the caller's list does |
| ClaudeRoute.RequestParams | src/routes/claude.js:85-193 | the parameter keys; model, max_tokens and temperature taken from the body when truthy and the defaults `claude-3-5-sonnet-latest`, 1024 and 0.7 otherwise; messages unchanged; tools merged; `system` present exactly when truthy; `stream: true` present exactly on the streaming route |
| ClaudeRoute.FindToolUseFrom | src/routes/claude.js:113 | `find` returns the first tool-use block, with no earlier one; none when no element is one; it throws a TypeError when a nullish element comes before any tool-use block |
| ClaudeRoute.FindToolUse | src/routes/claude.js:113 | on an array of content, the result is exactly `find`'s first tool-use block (or none, or the callback's TypeError); any other content throws a TypeError; a found position lies inside the array |
| ClaudeRoute.Summaries | src/routes/claude.js:54-58 | the reshaping succeeds exactly when no result is nullish, and then maps each result, in order, to its title, url and description; otherwise it throws a TypeError |
| ClaudeRoute.Normalise | src/routes/claude.js:53-70 | the tool output is exactly one of the success object and the failure object; a failed search gives the failure object with the error's message; success holds exactly when the reply is readable and no result is nullish, and then the results are the provider's in order, the count is their number and the query is kept |
| ClaudeRoute.ProcessBraveSearchToolUse | src/routes/claude.js:35-72 | never throws: the payload is a success or failure object; a search request is made exactly when the tool call and its input are present; the request carries the input's query, and `num_results`, or 3 when it is undefined; the payload is the normalised reply to that request |
| ClaudeRoute.ExtendConversation | src/routes/claude.js:120-136 | the original messages are kept as a prefix; two turns follow: the assistant turn echoes the provider's content verbatim, then a user turn holds the single tool_result for the call's id with the serialised tool output; each new turn has exactly the keys `role` and `content` |
| ClaudeRoute.ExtensionAnswersToolUse | src/routes/claude.js:113-136 | the appended tool_result answers the id of the first tool-use block of the echoed assistant turn |
| ClaudeRoute.ResubmitParams | src/routes/claude.js:139-146 | the second request has exactly the six keys of the resubmission; every key but `messages` is copied from the first request, and `messages` is the extended conversation; on a first request of `/chat` it is that request with only the conversation replaced and `system` made explicit |
| ClaudeRoute.ResubmitChangesOnlyMessages | src/routes/claude.js:139-146 | the second request of `/chat` equals its first request with `messages` replaced by the extended conversation and `system` set to the first request's (undefined when it had none): nothing else changes |
| ClaudeRoute.Chat | src/routes/claude.js:75-154 | at most two provider calls and at most one search; a search only together with a resubmission; a nullish body goes to the error handler; no call at all when the body is unreadable or the messages are invalid (a 400 in the second case); the first call's parameters; when resubmitted, the answer is the reply to the second call; an error from a single call is answered by the error handler |
| ClaudeRoute.AfterFirstReply | src/routes/claude.js:108-150 | after the first reply, the first request stays first, at most one more call and one search follow, and with a resubmission the answer is the second reply |
| ClaudeRoute.AnswerSearchCall | src/routes/claude.js:115-147 | the brave_search branch: exactly two calls; the search request is the tool call's; the second call carries the first's parameters and the original messages, then the echoed content, then a tool_result that answers the call and carries the pretty-printed tool output; both new turns have exactly the keys `role` and `content`; the second request is exactly `ResubmitParams` of the first request's parameters and that conversation, so it has exactly the six keys; the answer is the second reply |
| ClaudeRoute.UnreadableToolUseIsInternalError | src/routes/claude.js:108-113 | on `/chat`, a first reply with a tool-use stop whose content is not an array, or has a nullish block before any tool-use block, is answered 500 `InternalServerError`, after one call and no search |
| ClaudeRoute.ChatWithoutToolUse | src/routes/claude.js:108-111 | a first reply that does not stop for a tool is answered 200 as it is, after one call and no search |
| ClaudeRoute.ChatWithUnknownTool | src/routes/claude.js:111-115 | a tool-use stop without a tool-use block, or naming another tool, returns the first reply as it is, after one call and no search |
| ClaudeRoute.ChatWithBraveSearch | src/routes/claude.js:111-147 | a brave_search call in the first reply is handled exactly as AnswerSearchCall describes, on the caller's messages and the first request's parameters |
| ClaudeRoute.ChatHandler | src/routes/claude.js:75-154 | the handler built step by step, with `params` updated in place, computes exactly what `Chat` describes: response, provider calls and search requests |
| ClaudeRoute.HandleReply | src/routes/claude.js:108-150 | the part after the first reply, with `message` replaced by the second reply, computes exactly what `AfterFirstReply` describes |
| ClaudeRoute.SseChunk | src/routes/claude.js:201 | a frame reads back as `data: `, then exactly the event's JSON, then a blank line |
| ClaudeRoute.FirstClosed | src/routes/claude.js:203-206 | the first write count at which the response reports itself ended, and none when it never does |
| ClaudeRoute.StreamEvents | src/routes/claude.js:196-216 | the events written: a prefix of the provider's events, in order, then exactly one terminal event; no other terminal event when the provider sent none; the terminal event is `error` with the failure's message exactly when the provider's stream failed and the response was never ended, and `done` otherwise; the stream is cut short exactly when the response ended after an earlier write, and then right after the first write that found it ended |
| ClaudeRoute.ForwardEvents | src/routes/claude.js:199-211 | the loop writes exactly the frames of the events `StreamEvents` describes |
| ClaudeRoute.ChatStream | src/routes/claude.js:157-217 | an unreadable body gives only an `error` frame and no call; invalid messages give the 400 and no call; otherwise one call with the streaming parameters, whose events are forwarded as `StreamEvents` describes |
| BraveRoute.Search | src/routes/brave.js:7-33 | an unreadable body goes to the error handler and an invalid query gives a 400, both with no request; otherwise exactly one search, with the query and `num_results`, or 5 when it is undefined; the payload is sent back unchanged, and an error goes to the error handler |
| BraveRoute.ResultLine | src/routes/brave.js:65-66 | each entry starts with its number, `index + 1`, followed by `. ` |
| BraveRoute.ResultLinesFrom | src/routes/brave.js:65-66 | the entries exist exactly when no result is nullish, one per result, each built from that result at its own index |
| BraveRoute.JoinPlacesLine | src/routes/brave.js:66 | in the joined text each entry stands whole at its offset, in order, with a blank line before the next one |
| BraveRoute.LineInFrame | src/routes/brave.js:64-68 | framing the joined entries keeps the opening, the closing, each entry at its offset and the blank line after each entry but the last; the last entry is followed directly by the closing |
| BraveRoute.JoinLength | src/routes/brave.js:66 | the joined text ends with the last entry: its length is the last entry's offset plus its length |
| BraveRoute.PromptOpensAndCloses | src/routes/brave.js:64-68 | for any results, the prompt opens with the sentence quoting the query and closes with the question; with no results it is exactly these two, since `[].join` is empty |
| BraveRoute.AnalysisPrompt | src/routes/brave.js:64-68 | the prompt exists exactly when no result is nullish; otherwise the entry's property read throws a TypeError |
| BraveRoute.PromptListsResult | src/routes/brave.js:64-68 | the prompt opens with the sentence that quotes the query, closes with the question, and holds the numbered entry of every result at its place between them, with a blank line after each entry but the last and the closing right after the last |
| BraveRoute.SearchAndAnalyze | src/routes/brave.js:36-93 | an unreadable body goes to the error handler and an invalid query gives a 400, both with no request; one search with the query and count; a failed search, an unreadable payload or a nullish result goes to the error handler with no model call; otherwise exactly one model call, with the model (default `claude-3-7-sonnet-20250219`), max_tokens (default 300) and the prompt as the only user message; the answer is `{search_results, claude_analysis}` with the search payload unchanged, or the error handler's response |
| BraveRoute.MalformedPayloadIsInternalError | src/routes/brave.js:58-66 | a search payload without an array at `web.results`, or with a nullish result, is answered 500 `InternalServerError` with no model call |

## Left out

- Network and HTTP wiring are not modelled: the Express router, headers, API keys from the environment, the SSE response headers and `res.end()`. The providers are oracle parameters.
- `JSON.stringify` is a parameter (`Js.Serializer`); its output format is not modelled.
- Numbers are `real`: NaN and the infinities are not represented.
- TypeError texts follow the engine's wording only loosely; the messages are the model's own.
- Properties inherited from `Object.prototype` are not modelled: a property read finds only own fields.
- Not modelled at all: the `GET /models` list, `src/index.js`, the standalone search server and the example and test scripts.
- Asynchronous timing is not modelled: each provider call is one step, and its result depends only on the request.
- `console.error` logging is left out.
- ClaudeRoute.ChatStream: `res.writableEnded` is a parameter `closed(n)`, read after the `n`-th write. A response ended by some other means between two writes is represented only through that flag.
- The routes use the corrected `ErrorHandler.HandleError`; the handler as written is `ErrorHandler.HandleErrorAsWritten`.

## Findings

| source | as written | input that shows it | evidently intended | confidence | as-written member | corrected member |
|---|---|---|---|---|---|---|
| src/utils/errorHandler.js:12-39 | `instanceof APIError` is tested first. In the Anthropic SDK, `APIConnectionError` extends `APIError` and `APIConnectionTimeoutError` extends `APIConnectionError`, so the later branches are dead | a network failure reaching the provider (`APIConnectionError`, no status, message "Connection error.") is answered 500 with error "Error" instead of 503 "ConnectionError"; a timeout likewise gets 500 instead of 504 | 503 for connection errors and 504 for timeouts, as the branches say: test the most specific class first | not executed; depends on the SDK's class hierarchy | ErrorHandler.AsWrittenConnectionFailureIs500 | ErrorHandler.HandleError |
