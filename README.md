# Synthetic MCP traffic generator, modelled in Dafny

This project models `CallerScript` in `caller-script.ts`. This class is the
traffic generator of the empower-mcp repository. It fires JSON-RPC (MCP)
requests at a server, one at a time. Each call goes over plain HTTP or over
an SSE session, chosen at random. After each call it arms a one-shot timer,
and the delay breathes with the hour and the weekday. The model has seven parts:

- **Interval model** (`interval.dfy`, module `Interval`). The seasonal
  multiplier, the jitter and the one-second floor are pure functions over
  reals. Hour, weekday and the `Math.random()` draw are parameters; a draw
  is a `Unit`, a real in [0, 1).
- **Configuration** (`settings.dfy`, module `Settings`). It holds the
  defaults set by the constructor and the shallow merge done by `updateConfig`.
- **Requests** (`requests.dfy`, module `Requests`). It holds the weighted
  catalogue, `getRandomItem`, `shouldUseSSE`, the kind-to-method mapping
  with its error, the `params` shape and the request envelope.
- **Direct transport** (`http_transport.dfy`, module `HttpTransport`). It
  decodes the reply of `sendMcpRequestHttp`. A reply with a non-2xx status
  fails. A body that starts with `"event: message\ndata: "` is decoded from
  its `split("data: ")[1]` segment. Any other body is decoded whole.
  `JSON.parse` is a parameter `parse: string -> Option<Json>`.
- **Session-id scan** (`session_scan.dfy`, module `SessionScan`). The
  regular expression `"sessionId":\s*"([^"]+)"` is written out as
  functions. The `for` loop with `break` over the lines of a message
  (`ExtractSessionId`) is proved equal to them.
- **Streaming transport** (`sse_transport.dfy`, module `SseTransport`).
  The closure flags of one `sendMcpRequestSSE` call form one value,
  `Attempt`. The callbacks (open, message, error, timeout) are one `Step`
  function over `Event`s. The class `SseAttempt` keeps those flags as
  mutable fields, and each of its handler methods is proved to match `Step`.
- **Driver** (`caller_script.dfy`, module `Caller`). The class
  `CallerScript` has the fields `config`, `requestId` and `intervalId`.
  A timer is a handle, not time. The ghost set `live` holds the timers that
  are armed and have neither fired nor been cleared. The ghost sequence
  `issued` holds every request id handed out.

`common.dfy` holds Option/Result and the JavaScript string operations the
source uses (`startsWith`, `indexOf`, `includes`, `split`, first-occurrence
`replace`). `json.dfy` holds JSON values and JavaScript truthiness.

Several behaviours of the code are easy to misread. The model follows the code as written:

- The start-up handshake goes through `sendMcpRequest`, so it uses SSE or
  HTTP at random. It is not always HTTP (`caller-script.ts:163`, `:323-331`).
- `updateConfig` reschedules when both hold: the patch supplies a truthy
  `baseIntervalMs`, and `intervalId` is set (`caller-script.ts:454`). The
  value need not differ from the old one. `intervalId` also stays set after
  its timer has fired and while that call is still in flight, because
  nothing nulls the handle when the timer fires.
- `stop()` during an in-flight call does not end the loop. The callback
  re-arms when the call completes (`StopDuringInFlightCall`).
- Once a session id is known, the SSE handler POSTs the request again on
  every message until a response arrives. The code has no "already sent"
  flag (`EveryMessageReposts`).
- The session id is found by textual scanning, line by line. The message
  is not parsed as JSON for this.

## Model

| member | source | states |
|---|---|---|
| `Common.StartsWith` | caller-script.ts:196 | `startsWith(prefix)`: the prefix occurs at index 0, so the text is the prefix followed by the rest |
| `Common.IndexOf` | caller-script.ts:197 | `indexOf(pat, from)`: the first occurrence at or after `from`; None exactly when there is none |
| `Common.Includes` | caller-script.ts:241 | `includes(pat)` holds exactly when the pattern occurs somewhere |
| `Common.SecondSegment` | caller-script.ts:197 | `split(sep)[1]`: present exactly when `sep` occurs; the text from just after the first `sep` up to the next `sep` or the end, containing no `sep` |
| `Common.ReplaceFirst` | caller-script.ts:255 | `replace` with a string pattern: only the first occurrence is replaced; `s` is unchanged when the pattern does not occur |
| `Common.Lines` | caller-script.ts:239 | `split("\n")`: at least one line, and no line contains a newline |
| `Common.JoinLinesOfLines` | caller-script.ts:239 | splitting into lines loses nothing: joining them with newlines gives the text back |
| `Interval.TimeMultiplier` | caller-script.ts:343-354 | 0.7 for hours 9-17, 0.9 for hours 18-22, 1.5 for any other hour |
| `Interval.DayMultiplier` | caller-script.ts:356-364 | 0.8 for days 1-5 (Monday to Friday), 1.3 for any other day |
| `Interval.SeasonalMultiplier` | caller-script.ts:338-367 | the multiplier is the time factor times the day factor, and lies in [0.56, 1.95] |
| `Interval.SeasonalMultiplierTable` | caller-script.ts:343-366 | the six values the multiplier takes, one per time band and day kind |
| `Interval.RandomJitterWindow` | caller-script.ts:371 | with a draw in [0, 1) and a positive amount j, the jitter lies in [-j, j); it is 0 when j is 0 |
| `Interval.JitterFactor` | caller-script.ts:371 | `(Math.random() - 0.5) * 2`: in [-1, 1), negative exactly when the draw is below 0.5 and 0 exactly at 0.5 |
| `Interval.RandomJitter` | caller-script.ts:371 | `(Math.random() - 0.5) * 2 * jitterAmount`: 0 at the midpoint draw or with no jitter; for a positive amount, negative below the midpoint and positive above it |
| `Interval.UnclampedJitter` | caller-script.ts:372 | `baseValue + randomJitter` before the clamp: the base itself without jitter; for positive base and jitter, below the base exactly when the draw is below 0.5 |
| `Interval.AddJitter` | caller-script.ts:369-373 | never below 1000; either 1000 or the unclamped value; exactly max(1000, base) with 0 % jitter; for j = pct/100*base > 0, the unclamped value lies in [base-j, base+j) |
| `Interval.NextInterval` | caller-script.ts:375-379 | the delay is the jittered seasonal interval (base times multiplier), and never below 1000 |
| `Interval.NextIntervalWithoutJitter` | caller-script.ts:369-379 | with 0 % jitter and a seasonal interval of at least 1000, the delay is exactly base times multiplier |
| `Interval.NextIntervalWindow` | caller-script.ts:369-379 | with positive base and jitter, the delay is at least s-j, and below s+j unless it is the 1000 floor |
| `Interval.TuesdayMorningExample` | caller-script.ts:375-379 | Tuesday 10:00, base 30000, no jitter: exactly 16800 |
| `Settings.PortText` | caller-script.ts:85 | `PORT \|\| 3000`: a set, non-empty PORT is used as it is; an unset or empty PORT gives "3000" |
| `Settings.DefaultConfig` | caller-script.ts:82-90 | the defaults: base 30000 ms, jitter 30 %, SSE usage 25 %, and the `/mcp` and `/sse` URLs on localhost at that port |
| `Settings.Merge` | caller-script.ts:451 | every field the patch supplies takes the patch's value; every other field keeps its old value |
| `Settings.SuppliesBaseInterval` | caller-script.ts:454 | `newConfig.baseIntervalMs` is truthy: the property is present and its number is truthy in JavaScript's sense, so 0 does not count |
| `Settings.MergeLaws` | caller-script.ts:451 | merging an empty patch is the identity; merging the same patch twice equals merging it once |
| `Requests.Catalogue` | caller-script.ts:40-80 | `availableItems`: 18 entries, each with a name and an `args` property |
| `Requests.CatalogueWeights` | caller-script.ts:40-80 | 18 entries: 8 tools, 6 resources, 4 prompts; every entry's kind is one of the three known kinds |
| `Requests.RandomIndex` | caller-script.ts:334 | `floor(r*len)`: a valid index i with i <= r*len < i+1 |
| `Requests.RandomIndexCovers` | caller-script.ts:334 | every index is drawn by some r in [0, 1), namely r = i/len |
| `Requests.RandomItem` | caller-script.ts:333-336 | the item drawn is an entry of the catalogue, and its kind is known |
| `Requests.ShouldUseSse` | caller-script.ts:175-177 | `Math.random() * 100 < sseUsagePercent` holds exactly when the draw is below the usage fraction |
| `Requests.ShouldUseSseBounds` | caller-script.ts:175-177 | SSE is chosen exactly when r < pct/100; never at 0 %, always at 100 % |
| `Requests.MethodForType` | caller-script.ts:381-392 | succeeds exactly for tool, resource and prompt (tools/call, resources/read, prompts/get); any other kind is `UnknownType(kind)` |
| `Requests.MethodForTypeInverse` | caller-script.ts:381-392 | the mapping is one-to-one: `MethodForType(k) == Ok(m)` if and only if `TypeForMethod(m) == Some(k)` |
| `Requests.ParamsFor` | caller-script.ts:425-428 | resource: exactly the keys uri = "empower://"+name and name; any other kind: exactly the keys name and arguments = args, or {} |
| `Requests.ResourceUriRoundTrip` | caller-script.ts:427 | stripping "empower://" from a resource request's uri gives back the resource name |
| `Requests.RequestJson` | caller-script.ts:18-23 | the serialised request carries a truthy jsonrpc, its id and its method |
| `Requests.IsResponseTo` | caller-script.ts:282-285 | a message that answers request `id` is an object with a truthy `jsonrpc` and an `id` equal to `id` |
| `Requests.AnswersSerialisedRequest` | caller-script.ts:282-285 | the test `data.id === request.id` compares with the id the request was serialised with: a message answers the request exactly when its `jsonrpc` is truthy and its `id` equals the serialised `id` |
| `Requests.InitializeParams` | caller-script.ts:153-160 | the `initialize` params: exactly the keys protocolVersion ("2024-11-05"), capabilities ({}) and clientInfo (name "caller-script-client", version "1.0.0") |
| `Requests.CheckInitializeReply` | caller-script.ts:163-171 | the handshake connects exactly when the reply is not `null` and its `error` is not truthy; a `null` reply fails with `NullReply`, because reading `.error` of null throws; a truthy `error` fails with `InitializeFailed`, carrying that error |
| `HttpTransport.IsOk` | caller-script.ts:189 | `response.ok`: a 2xx status, that is a status whose hundreds digit is 2 |
| `HttpTransport.FirstMarkerOfFrame` | caller-script.ts:196-197 | in a framed body, the first "data: " starts at index 15 |
| `HttpTransport.PayloadText` | caller-script.ts:195-202 | a framed body yields its `split("data: ")[1]` segment; any other body yields itself |
| `HttpTransport.ParseReply` | caller-script.ts:198-202 | succeeds exactly when the text parses, with the parsed value; otherwise `UndecodableBody` |
| `HttpTransport.DecodeReply` | caller-script.ts:189-202 | a non-2xx status is `HttpStatus(status)` whatever the body; a 2xx reply is the parse of its payload text |
| `HttpTransport.PayloadOfFrame` | caller-script.ts:196-197 | the decoded text of a framed body is everything after the prefix, up to the next "data: " or the end |
| `HttpTransport.FramedAndBareAgree` | caller-script.ts:195-202 | a JSON text without "data: " decodes the same, at any status, bare or wrapped in the frame prefix |
| `SessionScan.MatchAt` | caller-script.ts:242 | a match at p starts with `"sessionId":`, and its capture is non-empty and has no quote |
| `SessionScan.MatchAtShape` | caller-script.ts:242 | every match has the pattern's shape: at p stand `"sessionId":`, a run of `\s` characters and the capture between quotes |
| `SessionScan.FirstMatchFrom` | caller-script.ts:242 | the leftmost match position: it matches, no earlier position matches, and no position matches when none is found |
| `SessionScan.MatchAtEmbedded` | caller-script.ts:242 | `"sessionId":`, white space, a quote, a quote-free non-empty id and a quote match at p, with the id as capture |
| `SessionScan.LineSessionId` | caller-script.ts:241-244 | a line yields an id exactly when the pattern matches somewhere in it; the id is non-empty and has no quote |
| `SessionScan.LineSessionIdIsLeftmost` | caller-script.ts:242-244 | the id a line yields is the capture at the leftmost position where the pattern matches |
| `SessionScan.EmbeddedIdIsFound` | caller-script.ts:242-244 | a line with `"sessionId":`, white space and a quoted id, after quote-free text, yields exactly that id |
| `SessionScan.MatchNeedsKey` | caller-script.ts:241-243 | a line the pattern matches contains "sessionId", so the `includes` pre-test never hides a match |
| `SessionScan.SessionIdIn` | caller-script.ts:240-249 | the result is the id of some line; it is None exactly when no line has one |
| `SessionScan.SessionIdInIsFirst` | caller-script.ts:240-249 | the id found is that of the first line that has an id: no earlier line has one |
| `SessionScan.SessionIdOfNone` | caller-script.ts:239-249 | a message yields no id exactly when none of its lines has one |
| `SessionScan.SessionIdOf` | caller-script.ts:239-249 | an id found in a message comes from the first line of `data.split("\n")` that has an id; it is non-empty and has no quote |
| `SessionScan.ExtractSessionId` | caller-script.ts:239-249 | the loop over the lines with `break` returns the id of the first line that has one |
| `SseTransport.MessagesUrl` | caller-script.ts:255-257 | the POST target is the SSE URL with its first "/sse" removed (the URL unchanged when it has none), plus "/messages?sessionId=" and the id |
| `SseTransport.MessagesUrlOfDefault` | caller-script.ts:255-257 | with the default SSE URL of caller-script.ts:86 and a port without "/", the target is `http://localhost:PORT/messages?sessionId=` and the id |
| `SseTransport.Begin` | caller-script.ts:205-227 | a fresh attempt is pending, with no session and no POST; if `new EventSource` throws, it is rejected with `ConnectFailed` (lines 315-319) |
| `SseTransport.ScanForSession` | caller-script.ts:237 | the scan runs only while no id is known and the data is non-empty; a known id is kept |
| `SseTransport.Settle` | caller-script.ts:272-274 | `clearTimeout(timeout); cleanup();` and settling: stream and timer closed, the outcome set, everything else as it was; settling a pending attempt with a rejection or a fallback keeps the invariant |
| `SseTransport.Correlate` | caller-script.ts:279-292 | a decodable message that answers this request resolves the attempt with it, closing the stream and the timer, unless a response has arrived; otherwise nothing changes; keeps the invariant |
| `SseTransport.OnMessage` | caller-script.ts:234-303 | the session id becomes the scan's result; with a session and no response, one POST to `MessagesUrl` is recorded, and a failed POST rejects with `SendFailed`; keeps the invariant |
| `SseTransport.OnOpen` | caller-script.ts:229-232 | only marks the connection as established; outcome, session and POSTs are unchanged |
| `SseTransport.OnError` | caller-script.ts:305-314 | before a response, falls back to HTTP and closes stream and timer; otherwise changes nothing |
| `SseTransport.OnTimeout` | caller-script.ts:219-224 | before a response, rejects with `SseTimeout` and closes the stream; the timer is spent either way |
| `SseTransport.Step` | caller-script.ts:229-314 | every event keeps the attempt invariant: pending exactly while stream and timer are live; resolved only with a response to its own id; every POST went to the one session found |
| `SseTransport.Run` | caller-script.ts:229-314 | any sequence of events keeps the attempt invariant |
| `SseTransport.AttemptResult` | caller-script.ts:212-319 | a settled attempt gives exactly one result: `resolve(data)` gives the response, `reject` gives its failure, and after a fallback it is the direct transport's result |
| `SseTransport.SettledIsFinal` | caller-script.ts:212-224 | once settled, no event changes the attempt: later messages, errors and the timeout have no effect |
| `SseTransport.RunAfterSettled` | caller-script.ts:212-224 | once settled, no sequence of events changes the attempt |
| `SseTransport.RunAppend` | caller-script.ts:229-314 | running two sequences of events one after the other is running their concatenation |
| `SseTransport.SettlesAtMostOnce` | caller-script.ts:280-314 | the outcome reached after some events is the outcome after any further events |
| `SseTransport.SessionIdIsStable` | caller-script.ts:237-249 | once a session id is known, no sequence of events changes it |
| `SseTransport.MessageResolvesIff` | caller-script.ts:253-292 | a message resolves a pending attempt if and only if its POST (if any) succeeds and it decodes to a response to this id; it resolves with that response |
| `SseTransport.ResolvesOnlyWithOwnResponse` | caller-script.ts:280-292 | only a message resolves; it does so with its decoded value, which is a response to the request id |
| `SseTransport.DispatchFailureRejects` | caller-script.ts:253-277 | a failed POST rejects with `SendFailed`, not a fallback |
| `SseTransport.StreamErrorFallsBack` | caller-script.ts:305-314 | a stream error while pending falls back to HTTP |
| `SseTransport.TimeoutRejects` | caller-script.ts:219-224 | the timeout while pending rejects with `SseTimeout` |
| `SseTransport.FallbackIsDirectOutcome` | caller-script.ts:312 | after a stream error the caller receives exactly the direct transport's decoded reply |
| `SseTransport.EveryMessageReposts` | caller-script.ts:252-277 | with a session known, each successfully handled message while pending POSTs the request once more to the same URL |
| `SseTransport.QuietRunStaysPending` | caller-script.ts:234-303 | messages that show no session id and no matching response, and opens, leave the attempt pending with no session |
| `SseTransport.QuietAttemptTimesOut` | caller-script.ts:219-224 | an attempt that sees no session id and no response ends with `SseTimeout` when the timer fires |
| `SseTransport.SseAttempt.constructor` | caller-script.ts:205-227 | the closure state starts as `Begin` says |
| `SseTransport.SseAttempt.Finish` | caller-script.ts:212-217 | clears the timer, closes the stream and settles |
| `SseTransport.SseAttempt.HandleOpen` | caller-script.ts:229-232 | the state afterwards is `OnOpen` of the state before |
| `SseTransport.SseAttempt.HandleMessage` | caller-script.ts:234-303 | the state afterwards is `OnMessage` of the state before while the stream is open, and unchanged once it is closed |
| `SseTransport.SseAttempt.ScanMessage` | caller-script.ts:237-250 | only the session id changes, to the result of the scan |
| `SseTransport.SseAttempt.DispatchMessage` | caller-script.ts:253-277 | with a session and no response, records one POST; a failed POST settles as `Rejected(SendFailed)` and ends the handler; otherwise nothing changes |
| `SseTransport.SseAttempt.CorrelateMessage` | caller-script.ts:279-295 | the state afterwards is `Correlate` of the state before |
| `SseTransport.SseAttempt.HandleError` | caller-script.ts:305-314 | the state afterwards is `OnError` of the state before |
| `SseTransport.SseAttempt.HandleTimeout` | caller-script.ts:219-224 | the state afterwards is `OnTimeout` of the state before |
| `Caller.IncreasingIsUnique` | caller-script.ts:423 | ids that grow step by step grow overall, so no id occurs twice |
| `Caller.CallerScript.AtMostOneTimer` | caller-script.ts:120-144 | at most one timer is pending, and it is the one `intervalId` names |
| `Caller.CallerScript.IdsAreUnique` | caller-script.ts:151 | the ids issued so far strictly increase, and the next id differs from all of them |
| `Caller.CallerScript.constructor` | caller-script.ts:82-90 | default config, no timer, `requestId` = 1, no ids issued |
| `Caller.CallerScript.NextRequestId` | caller-script.ts:423 | post-increment: returns the old counter, adds 1, and records the id as issued |
| `Caller.CallerScript.InitializeRequest` | caller-script.ts:146-163 | the handshake request takes the next id, with method "initialize" and the fixed client info; its transport is drawn like any other call's |
| `Caller.CallerScript.CallRequest` | caller-script.ts:420-429 | a known kind gives the request with the next id, the mapped method and `ParamsFor`; an unknown kind fails without using up an id |
| `Caller.CallerScript.ExecuteRandomCall` | caller-script.ts:407-433 | draws an item and a transport, and builds the request for that item with the next id |
| `Caller.CallerScript.ScheduleNextCall` | caller-script.ts:120-136 | clears the old timer and arms exactly one new one, with a fresh handle and `NextInterval` of the current config |
| `Caller.CallerScript.Stop` | caller-script.ts:138-144 | no timer pending and `intervalId` null, whatever the state before, so it is idempotent |
| `Caller.CallerScript.TimerFires` | caller-script.ts:132-135 | the pending timer fires: it is no longer pending, and `intervalId` still names it |
| `Caller.CallerScript.RunTimerCallback` | caller-script.ts:132-135 | when the pending timer fires, the callback makes the call for the drawn item with the next id (counter + 1) over the drawn transport, then arms exactly one new timer with `NextInterval` and a fresh handle |
| `Caller.CallerScript.UpdateConfig` | caller-script.ts:450-459 | the config becomes the merge; the timer is re-armed (the old one cancelled) only if `intervalId` was set and the patch gives a truthy base interval; otherwise timers are untouched |
| `Caller.CallerScript.Start` | caller-script.ts:92-118 | the handshake request takes the first id; a failed handshake issues only that id, makes no call and leaves the timers as they were; a connected one makes the call for the drawn item with the next id and arms one timer with `NextInterval` |
| `Caller.StopDuringInFlightCall` | caller-script.ts:132-144 | `stop()` between the pending timer firing and its call completing still leaves a timer pending afterwards |

## Left out

- Network I/O (`fetch`, `EventSource`) is not modelled. Its observable
  results are parameters: the HTTP status and body, the success of each
  POST to `/messages`, whether `new EventSource` threw, and the order of
  stream events.
- FallbackIsDirectOutcome: covers only a fallback `fetch` that answered.
  A `fetch` that rejects (caller-script.ts:180) has no `HttpReply`, and
  its rejection passes straight to the caller.
- Real time is not modelled. `setTimeout`/`clearTimeout` are handles, and
  the 45 s timeout and the timer firing are events.
- `Math.random()` is a parameter in [0, 1), and so is the wall clock
  (`getHours`, `getDay`).
- `JSON.parse` and `JSON.stringify` are not modelled. Parsing is an
  abstract partial function. Serialising is the JSON value the request
  stands for.
- IEEE-754 rounding is not modelled: numbers are exact reals (`Math.floor`
  is the real floor). NaN is not a value, so truthiness of a number is
  "non-zero".
- Concurrency is not modelled. Each SSE message is handled to completion
  before the next event. In the source, the handler awaits the POST, so a
  second message could interleave.
- Logging is not modelled: console output, `getEmojiForType`
  (caller-script.ts:394-405), timestamps, and the success/failure report of
  a call (lines 435-446). The outcome of a call never changes the driver's
  state.
- The catch-all at caller-script.ts:296-301 is not modelled. Every step it
  guards either cannot throw or has its own inner `catch`.
- A patch whose property is present but `undefined` is not modelled. Such
  a property overwrites the field in the source. In `ConfigPatch`, `None`
  means the property was left out.
- The CLI entry point, its signal handlers and `process.exit`
  (caller-script.ts:467-488) are not modelled.
- index.ts, resources/plant-symptoms.ts, tools/get-plants.ts and
  instrument.mjs are not part of this model. They are server-side
  registration glue, a static resource, a fetch wrapper and tracing setup.
