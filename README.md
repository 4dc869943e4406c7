# fetch-trace, modelled in Dafny

fetch-trace times one HTTP(S) request phase by phase. It reports `dns`, `connect`, `tls`, `ttfb`
and `ttlb` to caller-supplied hooks, plus `timeout` and `error` when the request fails. Its command
line follows redirects hop after hop.

This project models two parts of it:

- **The trace session of `fetchTrace`** (src/fetchTrace.ts).
  - The defaults it applies to the request options.
  - The `emitEvent` fan-out to the hooks.
  - The closure state that the transport's callbacks update: `dnsTime`, the armed timer, the
    abort listener, the chunk buffer, the emitted events and the settled promise.
- **The redirect walker `runCli`** (src/cli.ts).
  - Scheme defaulting.
  - The bounded redirect loop.
  - The redirect rule.
  - The trailing-slash display strip.
  - The progress labels.

Files:

- `trace_events.dfy`
  - `Wrappers` holds the `Option` type.
  - `TraceEvents` holds the event kinds and `EmitEvent`, with the reference definition
    `Expected` of what each hook must receive.
  - It also holds a left-to-right scan `Run` of an event stream, proved sound against
    position-based ordering predicates (`WellOrdered`, `Chronological`).
- `fetch_trace.dfy`: `FetchTrace`
  - The defaults.
  - The pure session state `Session` and its invariant `Inv`.
  - One transition function per callback (`After…`), with the guard `Enabled` and the run
    function `Replay`.
  - The class `TraceSession`. Its fields are the closure variables. Each callback is a method whose
    new state is the matching transition of the old state, and each keeps `Valid()` (the invariant).
- `cli.dfy`: `Cli`
  - The walk as functions: `Hops` is the URLs that get traced; `Visits` is every value
    `currentUrl` takes.
  - The imperative `RunCli`, with its `while` loop, is proved equal to that walk.
- `scenarios.dfy`: `TraceScenarios`, concrete callback orders that mirror the repository's tests,
  each with the events and the settlement it produces.

Time is an abstract, non-decreasing natural-number clock. A callback that reads `performance.now()`
carries that reading `now`, and an event's value is `now - start`. `SocketAssigned`, `DataArrived`
and `SignalAborted` read no clock and carry no reading.

Whether a socket is fresh or taken from a pool is decided by the agent (the `agent` option or
Node's global agent). The model leaves that choice free: it is the `connecting` flag of the
`SocketAssigned` callback.

The transport (the `http`/`https` modules, sockets, the agent) is not modelled. It is the caller of
the `TraceSession` methods, and each method's guard says when the transport can call it:

- the source must have that listener registered;
- the request must have been issued;
- for socket and response callbacks, the promise must not have settled yet, because
  `req.destroy()` ran or the exchange ended.

The guards also contain the transport facts that the timeline relies on:

- `lookup` comes before `connect`;
- `connect` comes once;
- `secureConnect` comes only on a TLS socket and after `connect`;
- the response comes only after the connection phases.

In `runCli`, two things are function parameters:

- a hop's trace is an oracle `trace(i, u)` that returns the status and the `location` header of
  the `i`-th trace of the run, on URL `u`; a URL visited twice may be answered differently each time;
- `new URL(location, base)` is the uninterpreted function `resolve`.

## Model

| member | source | states |
|---|---|---|
| TraceEvents.KindHandler | src/fetchTrace.ts:28-36 | the `switch` picks a per-kind hook, never the multiplexed `on` |
| TraceEvents.KindOf | src/fetchTrace.ts:13-22 | the event kind each member of `FetchTraceHooks` is named after; `on` alone has none |
| TraceEvents.KindHandlerNamed | src/fetchTrace.ts:28-36 | the `switch` sends each kind to the hook named after it (`KindOf`), and a kind's hook is that hook and no other |
| TraceEvents.EmitEvent | src/fetchTrace.ts:26-37 | one call to `on` (if registered) comes first with `(event, ms, error)`. One call to the kind's own hook (if registered) comes last: `onError` gets the error, every other hook gets `ms`. No other hook is called and no hook is called twice |
| TraceEvents.Dispatched | src/fetchTrace.ts:26-37 | the hook calls of a whole trace: one `emitEvent` per emitted event, in emission order; `DispatchIsExact` relates it to `Expected` |
| TraceEvents.EmitEventReaches | src/fetchTrace.ts:26-37 | what one `emitEvent` delivers to any hook `h` is exactly the reference `Expected(h, [e])`, or nothing when `h` is absent |
| TraceEvents.DispatchIsExact | src/fetchTrace.ts:26-37 | over a whole trace, every registered hook receives exactly `Expected`: `on` gets every event and a per-kind hook gets just the events of the kind it is named after (`KindOf`, independent of the `switch`). Each event arrives once and in emission order. An absent hook receives nothing |
| TraceEvents.RunFlags | src/fetchTrace.ts:75-134 | the scan's flags are exactly "this kind occurs in the stream"; `pending` means the stream ends in `dns`; `last` is the last event's time |
| TraceEvents.RunSound | src/fetchTrace.ts:75-134 | a stream the scan accepts, with no dangling `dns`, has these properties:<br>• each phase and `timeout` occurs at most once<br>• `dns` is immediately followed by `connect`<br>• dns < connect < tls < ttfb < ttlb in emission order<br>• times never decrease |
| FetchTrace.TimeoutOf | src/fetchTrace.ts:24-46 | `?? DEFAULT_TIMEOUT_MS`: 30000 only when the timeout is missing, so an explicit 0 is kept |
| FetchTrace.MethodOf | src/fetchTrace.ts:72 | `\|\| 'GET'`: a missing or empty method becomes GET; any other method is kept |
| FetchTrace.ClientFor | src/fetchTrace.ts:53 | the https client is chosen iff the protocol is `https:` |
| FetchTrace.Issuable | src/fetchTrace.ts:71-74 | `client.request` accepts the request iff the protocol is `http:` or `https:` (an `ftp:` URL gets the http client, which refuses it) and the method is a non-empty HTTP token |
| FetchTrace.DefaultIssuable | src/fetchTrace.ts:72 | the default GET is accepted over both http and https |
| FetchTrace.BodyOf | src/fetchTrace.ts:136-138 | a body is written iff it is present and non-empty, and it is written unchanged |
| FetchTrace.Concat | src/fetchTrace.ts:83 | `Buffer.concat`: the chunks joined in arrival order; its properties are `ConcatAppend` and `ConcatLength` |
| FetchTrace.ConcatAppend | src/fetchTrace.ts:79-83 | `Buffer.concat` of two runs of chunks is the one body followed by the other |
| FetchTrace.ConcatLength | src/fetchTrace.ts:83 | the body's length is the sum of the chunk lengths |
| FetchTrace.Started | src/fetchTrace.ts:44-58 | the state when the call returns (lines 44-58, 71-74, 94-107). A request is issued iff the signal is not already aborted and the request is `Issuable`; it carries the chosen client, the defaulted method and the written body. The promise is pending iff a request was issued: an aborted signal gives AbortError, a refused request InvalidRequest. The timer is armed iff a request was issued, the listener iff also a signal exists. No events, an empty buffer, and every clock variable at the start |
| FetchTrace.StartedKeeps | src/fetchTrace.ts:44-107 | the invariant holds once the call returns (or throws) |
| FetchTrace.Enabled | src/fetchTrace.ts:75-134 | when each callback can come: the socket, lookup, connect and TLS listeners (109-128) and the response, data and end listeners (75-91) only while the promise is pending and in connection order; the timer (94) and the abort listener (100-106) only while armed; the `error` listener (130) whenever a request was issued. Its consequences are `NextKeeps`, `AfterSettlement` and `AbortedUpFront` |
| FetchTrace.AfterSocket | src/fetchTrace.ts:109-113 | the socket is recorded as fresh or reused; nothing is emitted. It keeps the invariant by `NextKeeps` |
| FetchTrace.AfterLookup | src/fetchTrace.ts:115-118 | `dnsTime` moves to the reading; nothing is emitted (`LookupsKeepLast`, `NextKeeps`) |
| FetchTrace.AfterConnect | src/fetchTrace.ts:120-123 | `dns` (from `dnsTime`) then `connect` (from the reading) are appended; kept by `ConnectKeeps` |
| FetchTrace.AfterSecureConnect | src/fetchTrace.ts:125-127 | `tls` is appended; kept by `SecureConnectKeeps` |
| FetchTrace.AfterResponse | src/fetchTrace.ts:75-77 | the head is recorded, the buffer starts empty, `ttfb` is appended; kept by `ResponseKeeps` |
| FetchTrace.AfterData | src/fetchTrace.ts:79 | the chunk is appended to the buffer (`FeedsAccumulate`, `NextKeeps`) |
| FetchTrace.AfterEnd | src/fetchTrace.ts:80-91 | cleanup, `ttlb`, resolve with the status, the `location` header and the body; kept by `EndKeeps`. It resolves for every status: see Findings |
| FetchTrace.ResponseConstructible | src/fetchTrace.ts:83-87 | the statuses `new Response` accepts with a body: 200-599 except the null-body statuses 204, 205 and 304 |
| FetchTrace.AfterEndAsWritten | src/fetchTrace.ts:80-91 | the callback as written: for a status `new Response` refuses, only `cleanup()` takes effect (`EndAsWrittenStrands`) |
| FetchTrace.AfterTimeout | src/fetchTrace.ts:94-99 | cleanup, `timeout`, reject with TimeoutError; kept by `TimeoutKeeps` |
| FetchTrace.AfterAbort | src/fetchTrace.ts:101-105 | cleanup, reject with AbortError, no event (`SettlingCallbacks`, `NextKeeps`) |
| FetchTrace.AfterError | src/fetchTrace.ts:130-134 | cleanup, `error` with the cause, reject with it unless already settled; kept by `ErrorKeeps` |
| FetchTrace.ConnectKeeps | src/fetchTrace.ts:120-123 | `connect` (emit `dns` then `connect`) keeps the invariant |
| FetchTrace.SecureConnectKeeps | src/fetchTrace.ts:125-127 | `secureConnect` (emit `tls`) keeps the invariant |
| FetchTrace.ResponseKeeps | src/fetchTrace.ts:75-77 | the response callback (fresh buffer, emit `ttfb`) keeps the invariant |
| FetchTrace.EndKeeps | src/fetchTrace.ts:80-91 | `end` (cleanup, `ttlb`, resolve) keeps the invariant |
| FetchTrace.TimeoutKeeps | src/fetchTrace.ts:94-99 | the timer (cleanup, `timeout`, reject) keeps the invariant |
| FetchTrace.ErrorKeeps | src/fetchTrace.ts:130-134 | `error` (cleanup, `error`, reject) keeps the invariant, also when it comes after settlement |
| FetchTrace.NextKeeps | src/fetchTrace.ts:75-134 | every enabled callback keeps the invariant |
| FetchTrace.NextSettlesOnce | src/fetchTrace.ts:90-133 | one callback only appends events, and a settled promise keeps its settlement |
| FetchTrace.SettlingCallbacks | src/fetchTrace.ts:80-134 | `end`, the timer, the abort listener and `error` each settle the promise and leave the timer and listener disarmed:<br>• `end` resolves with the status, the header and the concatenated chunks<br>• on a live session the timer rejects with TimeoutError<br>• on a live session abort rejects with AbortError; abort emits nothing<br>• on a live session `error` rejects with its own cause |
| FetchTrace.AfterSettlement | src/fetchTrace.ts:130-134 | after settlement, only a late `error` can still come. It emits its event and leaves the settlement alone |
| FetchTrace.ReplayKeeps | src/fetchTrace.ts:55-140 | along any run of callbacks, the invariant holds and events are only appended. The first settlement is final |
| FetchTrace.EndAsWrittenStrands | src/fetchTrace.ts:80-91 | as written, an `end` whose status `new Response` refuses does not settle the promise and emits no `ttlb`. The timer is cleared and the listener detached, so neither the timer nor the abort can settle it later; only a transport `error` still could |
| FetchTrace.NoContentLeftPending | src/fetchTrace.ts:80-91 | a reachable session answered with 204: as written, `end` leaves the promise pending with the timer cleared, while `AfterEnd` resolves with status 204 and an empty body |
| FetchTrace.RefusedUpFront | src/fetchTrace.ts:71-74 | a request `client.request` refuses rejects with InvalidRequest, issues nothing, emits nothing, and leaves no callback that can ever run |
| FetchTrace.AbortedUpFront | src/fetchTrace.ts:49-51 | an already-aborted signal gives AbortError with no request, no events, and no callback that can ever run |
| FetchTrace.EventsWellOrdered | src/fetchTrace.ts:75-134 | in every reachable state the events are in phase order (as `RunSound`) and in time order |
| FetchTrace.PhasesFollowSocket | src/fetchTrace.ts:109-127 | a reused socket gives no `dns`, `connect` or `tls`. `tls` occurs iff `secureConnect` ran, and only over https. `dns` occurs iff `connect` does |
| FetchTrace.EventsTellOutcome | src/fetchTrace.ts:80-99 | `ttlb` occurs iff the promise resolved; `timeout` occurs iff it rejected with TimeoutError. A settled session has no armed timer or listener |
| FetchTrace.LookupsKeepLast | src/fetchTrace.ts:115-118 | a run of lookups only moves `dnsTime` (and the clock) to the latest one |
| FetchTrace.DnsIsLastLookup | src/fetchTrace.ts:115-123 | `dns` is the last lookup's time minus the start, or `dnsTime`'s initial value (the start, line 56) minus the start when no lookup ran. It is emitted just before `connect` |
| FetchTrace.FeedsAccumulate | src/fetchTrace.ts:79 | `data` callbacks append their chunks in arrival order and change nothing else |
| FetchTrace.BodyInArrivalOrder | src/fetchTrace.ts:75-91 | after the response callback, chunks and then `end` resolve with the status, the `location` header and the chunks concatenated in arrival order (whose length `ConcatLength` gives) |
| FetchTrace.TraceSession.constructor | src/fetchTrace.ts:44-107 | the state right after the call: the initial `Started` state, which satisfies the invariant, and the timeout default |
| FetchTrace.TraceSession.Emit | src/fetchTrace.ts:26-37 | the event is appended to the emitted stream (its hook calls are `Dispatched`) |
| FetchTrace.TraceSession.Cleanup | src/fetchTrace.ts:60-69 | afterwards no timer is armed and no listener is attached; a second call changes nothing |
| FetchTrace.TraceSession.AssignSocket | src/fetchTrace.ts:109-113 | records a fresh or reused socket and keeps the invariant |
| FetchTrace.TraceSession.Lookup | src/fetchTrace.ts:115-118 | moves `dnsTime` to now and keeps the invariant |
| FetchTrace.TraceSession.SocketConnect | src/fetchTrace.ts:120-123 | emits `dns` then `connect` and keeps the invariant |
| FetchTrace.TraceSession.SecureConnect | src/fetchTrace.ts:125-127 | emits `tls` and keeps the invariant |
| FetchTrace.TraceSession.ResponseHeaders | src/fetchTrace.ts:75-77 | records the head, starts an empty buffer, emits `ttfb` and keeps the invariant |
| FetchTrace.TraceSession.Data | src/fetchTrace.ts:79 | appends the chunk and keeps the invariant |
| FetchTrace.TraceSession.End | src/fetchTrace.ts:80-91 | cleans up, emits `ttlb`, resolves with the concatenated body and keeps the invariant. It follows the corrected `AfterEnd`, which resolves for every status: see Findings |
| FetchTrace.TraceSession.TimerFires | src/fetchTrace.ts:94-99 | cleans up, emits `timeout`, rejects with TimeoutError and keeps the invariant |
| FetchTrace.TraceSession.AbortSignal | src/fetchTrace.ts:100-107 | cleans up, rejects with AbortError, emits nothing and keeps the invariant |
| FetchTrace.TraceSession.RequestError | src/fetchTrace.ts:130-134 | cleans up, emits `error` with the cause, rejects with it unless already settled, and keeps the invariant |
| Cli.ExitCode | src/cli.ts:94-97 | exit status 1 exactly on the usage path and on the over-limit path |
| Cli.IncludesIffMatch | src/cli.ts:12 | `includes` is true iff the pattern occurs at some position, not only at the start |
| Cli.WithScheme | src/cli.ts:11-14 | `http://` is prefixed iff `://` occurs nowhere in the argument; the result always contains `://` |
| Cli.Displayed | src/cli.ts:23 | `replace(/\/$/, '')`: one trailing `/` is removed if present; otherwise the string is kept |
| Cli.Includes | src/cli.ts:12 | `includes`, searching from the front; `IncludesIffMatch` gives its meaning |
| Cli.DisplayedStripsOnce | src/cli.ts:82 | only one slash goes: a URL ending in `//` is shown ending in `/` |
| Cli.NextLabel | src/cli.ts:59-67 | the label after `dns`, `connect`, `tls` or `ttfb` is the next phase. `ttlb`, `timeout` and `error` start no label |
| Cli.Progress | src/cli.ts:39 | every hop's labels start with `dns` |
| Cli.Rank | src/cli.ts:39-67 | a label's position in the phase order dns, connect, tls, ttfb, ttlb; below 5 iff it is one of them |
| Cli.Kinds | src/cli.ts:50 | the event kinds the `on` hook receives, one per event, in order |
| Cli.ProgressAscends | src/cli.ts:39-67 | for every event stream the scan accepts (every reachable session's, by `Inv`), the labels shown are phases, in phase order, each at most once, and the last one is the phase after the furthest one reached |
| Cli.ProgressOverFreshTls | src/cli.ts:39-67 | a fresh https connection shows dns, connect, tls, ttfb, ttlb in order |
| Cli.ProgressOverReusedSocket | src/cli.ts:39-67 | a reused socket shows `dns` and then `ttlb` |
| Cli.IsRedirect | src/cli.ts:77-78 | a redirect is a 3xx status with a non-empty `location`; a 3xx without one is final |
| Cli.Follow | src/cli.ts:81 | the next URL is `resolve` of the redirect's `location` against the URL just traced |
| Cli.Hops | src/cli.ts:25-92 | the URLs traced, the `i`-th one answered by the `i`-th trace; its shape is `HopsChain` |
| Cli.Visits | src/cli.ts:25-92 | every value `currentUrl` takes; its relation to `Hops` is `VisitsExtendHops` |
| Cli.Exhausted | src/cli.ts:94 | `redirectCount >= MAX_REDIRECTS` after the loop: every one of the budgeted traces ran and answered with a redirect. `RunCli` proves the over-limit error iff this |
| Cli.HopsChain | src/cli.ts:25-92 | the walk starts at the given URL and runs at most `budget` traces. Hop `i` is answered by trace number `hop + i`. Every hop but the last was a redirect to the next hop; the last was final unless the budget ran out |
| Cli.VisitsExtendHops | src/cli.ts:80-97 | the URLs printed are the traced ones, plus exactly one untraced target when the bound triggers. The bound triggers iff `budget + 1` URLs are visited |
| Cli.ExhaustedStep | src/cli.ts:80-84 | following a redirect passes the question "does the bound trigger" on to its target, with one trace fewer |
| Cli.HopsExtend | src/cli.ts:25-92 | only the bound cuts a walk short: a walk with a smaller budget is a prefix of one with a larger budget, and equal to it when it ended on a final reply |
| Cli.RunCli | src/cli.ts:4-98 | see the list below this table |
| Cli.FollowRedirects | src/cli.ts:23-97 | the loop alone, from a scheme-defaulted URL: the last four items of that list |
| Cli.WalkEnds | src/cli.ts:94-97 | when the loop stops on the bound, exactly `MAX_REDIRECTS` URLs were traced, all answered by redirects, and one more target was printed; when it stops on a final reply, the URLs traced are all the URLs visited |
| TraceScenarios.SecureHandshake | tests/http-https.test.ts:20-34 | a fresh https connection emits dns, connect, tls in that order |
| TraceScenarios.SecureBody | tests/basic.test.ts:30-35 | after the handshake, the response head emits `ttfb` and two chunks are buffered in arrival order; the whole state is given |
| TraceScenarios.FreshHttps | tests/basic.test.ts:30-35 | a fresh https exchange emits dns < connect < tls < ttfb < ttlb and resolves with the concatenated body |
| TraceScenarios.PlainHttp | tests/http-https.test.ts:4-18 | plain http emits no `tls`. A 301 with `location` is resolved, not followed |
| TraceScenarios.ReusedSocket | tests/socket-reuse.test.ts:17-30 | a reused socket emits only `ttfb` and `ttlb` |
| TraceScenarios.NoLookup | src/fetchTrace.ts:56-123 | connecting without a lookup reports `dns` as 0 |
| TraceScenarios.TimedOut | tests/error-handling.test.ts:49-67 | the timer emits `timeout` and rejects with TimeoutError; no `error` event is emitted |
| TraceScenarios.Refused | src/fetchTrace.ts:130-134 | a transport error emits `error` with its cause and rejects with it |
| TraceScenarios.AbortedBeforehand | tests/error-handling.test.ts:23-34 | an already-aborted signal rejects with AbortError, issues no request and emits no event |
| TraceScenarios.PostWithBody | tests/post-requests.test.ts:4-12 | the method and the body are handed to the transport as given |
| TraceScenarios.AbortedMidway | tests/error-handling.test.ts:36-47 | aborting mid-exchange rejects with AbortError; the abort itself emits no event, so the events are those emitted before it |
| TraceScenarios.UnsupportedProtocol | src/fetchTrace.ts:53-74 | an `ftp:` URL rejects with InvalidRequest, issues no request and emits no event |
| TraceScenarios.InvalidMethod | src/fetchTrace.ts:71-74 | a method that is not an HTTP token rejects the same way |

What `Cli.RunCli` states:

- The usage path is taken iff the argument is missing or empty.
- Otherwise the URLs traced are exactly the walk `Hops` from the scheme-defaulted URL with
  `MAX_REDIRECTS` = 10 traces. So at most 10 traces run, and the 11th URL is never traced.
- The URL lines printed are every visited URL, each displayed.
- The run ends with the over-limit error iff all 10 traces answered with redirects.
- A finished run's reply is the last trace's reply, and it is not a redirect.

## Left out

- Node's `http`/`https` transport, sockets, agents and keep-alive pooling. Their callbacks are the
  `TraceSession` methods, and the transport facts the timeline depends on are written into `Enabled`.
- `performance.now()` floating-point times are an abstract natural-number clock that never goes
  backwards. Timing magnitudes (such as "every phase is strictly positive") are not claimed.
- The timer delay is not modelled. `timeoutMs` is computed, but the model does not relate it to when
  `TimerFired` comes; any armed timer may fire at any later reading.
- `setTimeout`, `setInterval` and `AbortSignal` scheduling. The timer and the abort listener are
  guarded transitions (`timerArmed`, `abortArmed`). `clearTimeout`, `removeEventListener` and
  `req.destroy()` are modelled only through their effect: the callback can no longer come.
- `FetchTrace.TraceSession.Cleanup`: whether a signal exists is the flag `hasSignal`. The listener
  function's identity is not modelled.
- `FetchTrace.BodyOf`: only string bodies are modelled. `init.body` may also be a `URLSearchParams`,
  `Blob`, `FormData` or another value `req.write` refuses. Then `req.write(init.body)` at
  src/fetchTrace.ts:137 throws after the request was issued (line 71) and after the timer, the abort
  listener and the socket and `error` listeners were set up (lines 94-134). The executor's throw
  rejects the promise with that TypeError without `cleanup()`, and `req.end()` is never called.
  The connection events still reach the hooks, and the timer later emits `timeout` on the
  already-rejected promise. `Inv` ("the timer is armed iff the promise is pending") and
  `EventsTellOutcome` do not hold on that path.
- Request headers are passed through unchanged and are not modelled. The agent's choice of a fresh
  or pooled socket is left free, as described above.
- What the `Response` object carries beyond the status, the `location` header and the body bytes:
  `statusText` and the other headers. The URL parser `new URL(input)` is left out too.
- `response.text()` decoding and the printed `length` line.
- `Cli.RunCli`: console output, wall times and progress dots are left out. The progress labels are
  `Cli.Progress`; `RunCli` does not return them.
- `Cli.RunCli`: a rejection of `fetchTrace` at src/cli.ts:41 is not caught in the source, and the
  oracle `trace` always returns a reply. The failure path of a hop is not modelled.
- `new URL(location, base)` is the uninterpreted function `resolve`, because it follows the WHATWG
  URL Standard's parser. `process.argv` is the parameter `arg`.
- `FetchTrace.AfterSettlement`: the `error` listener (src/fetchTrace.ts:130-134) is never removed,
  so the code still emits an `error` event for a transport error that comes after the promise
  settled. The settlement itself is unchanged.
- `TraceScenarios.TimedOut`: "a timeout emits no `error` event" is proved only up to the
  rejection. A later transport error is still possible, as the previous item explains.
- `TraceScenarios.AbortedMidway`: "the abort emits nothing" covers the abort listener only. The
  abort calls `req.destroy()`, and the `error` that a destroyed request may still report is emitted
  afterwards, as `FetchTrace.AfterSettlement` states.
- `FetchTrace.AfterEnd`: it resolves for every status. As written, `new Response` throws for 204,
  205 and 304 (a null-body status given a body) and for statuses outside 200-599. The exception is
  uncaught, and `end` then does not settle the promise; see Findings. `FetchTrace.AfterEndAsWritten`
  models the state change; the uncaught exception and the process ending are not modelled.
- `FetchTrace.TraceSession.End`: its new state is `AfterEnd` of the old one, so it has the same gap
  as the previous item: it resolves for every status, including the ones `new Response` refuses.
- `FetchTrace.Started`: of the ways `client.request` can throw, only an unsupported protocol and a
  method that is not an HTTP token are modelled (`Issuable`). Invalid header names or values and an
  agent whose protocol does not match are not. `new URL(input)` at src/fetchTrace.ts:44 throwing on
  an unparsable input is left out with the URL parser.
- `Cli.Follow`: `new URL(location, currentUrl)` at src/cli.ts:81 throws for a `Location` that does
  not parse against the base, which rejects `runCli`'s promise. `resolve` is total, so that path is
  not modelled.
- `TraceEvents.EmitEvent`: hooks are assumed to return normally. A hook that throws skips the hooks
  after it. The exception then leaves the callback that emitted the event, so in `end`, for
  example, `resolve` (src/fetchTrace.ts:90) is skipped.

## Findings

| source | as written | input that shows it | evidently intended | confidence | as-written member | corrected member |
|---|---|---|---|---|---|---|
| src/fetchTrace.ts:80-91 | the `end` listener calls `cleanup()`, then builds `new Response(Buffer.concat(chunks), {status})`. That constructor throws for a null-body status (204, 205, 304) given a body, even an empty one, and for a status outside 200-599. The exception leaves the listener before `ttlb` and `resolve`. Thrown inside an EventEmitter listener, it is an uncaught exception, which by default ends the Node process. If the process survives, `end` has not settled the promise, and the timer and the abort listener are already gone, so only a later transport `error` could still settle it | a GET answered `204 No Content` over a reused socket (`FetchTrace.NoContentLeftPending`) | emit `ttlb` and resolve with the status and an empty body, as `FetchTrace.AfterEnd` does for every status (`FetchTrace.SettlingCallbacks`, `FetchTrace.BodyInArrivalOrder`) | not executed | FetchTrace.AfterEndAsWritten | FetchTrace.AfterEnd |
