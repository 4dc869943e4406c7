/**
  One call of `fetchTrace` (src/fetchTrace.ts): the defaults it applies to the
  request options and the callback-driven session that turns transport events
  into trace events and settles the returned promise at most once.

  Time is an abstract millisecond clock that never goes backwards: a callback
  that reads `performance.now()` carries the reading `now`, while the socket
  assignment, a data chunk and the abort carry none. The transport is not modelled; its
  callbacks are the methods of `TraceSession`, each guarded by the condition
  under which the source has that callback registered and the transport can
  still deliver it.
 */
module FetchTrace {
  import opened Wrappers
  import opened TraceEvents

  const DEFAULT_TIMEOUT_MS: int := 30000

  type Byte = b: int | 0 <= b < 256

  /** `http` or `https`, the module whose `request` issues the call. */
  datatype Client = Http | Https

  /** An `AbortSignal` as the call finds it. */
  datatype Signal = Signal(aborted: bool)

  /** The fields of `init` that the session uses; `None` is a field left undefined (or null). */
  datatype RequestInit = RequestInit(timeout: Option<int>, verb: Option<string>, body: Option<string>, signal: Option<Signal>)

  /** What is handed to the transport: the client, the method and the body written before `req.end()`. */
  datatype Request = Request(client: Client, verb: string, body: Option<string>)

  /** Whether `req.on('socket')` has run yet, and what it saw. */
  datatype SocketState = Unassigned | Reused | Connecting

  /** The resolved `Response`: status, its `location` header when present, and the body bytes. */
  datatype TraceResponse = TraceResponse(status: int, location: Option<string>, body: seq<Byte>)

  /** Why the promise rejected; `InvalidRequest` is the TypeError `client.request` throws for a URL
      protocol the client does not serve or a method that is not an HTTP token. */
  datatype Reason = AbortError | TimeoutError | InvalidRequest | TransportFailure(cause: Cause)

  /** How the returned promise settled. */
  datatype Outcome = Resolved(response: TraceResponse) | Rejected(reason: Reason)

  /** `init?.timeout ?? DEFAULT_TIMEOUT_MS`: only a missing timeout takes the default, so 0 is kept. */
  function TimeoutOf(timeout: Option<int>): (ms: int)
    ensures timeout.None? ==> ms == DEFAULT_TIMEOUT_MS
    ensures timeout.Some? ==> ms == timeout.value
  {
    match timeout
    case None => DEFAULT_TIMEOUT_MS
    case Some(t) => t
  }

  /** `init?.method || 'GET'`: a missing or empty method becomes GET. */
  function MethodOf(verb: Option<string>): (m: string)
    ensures m != ""
    ensures verb.Some? && verb.value != "" ==> m == verb.value
    ensures verb.None? || verb.value == "" ==> m == "GET"
  {
    if verb.Some? && verb.value != "" then verb.value else "GET"
  }

  /** `url.protocol === 'https:' ? https : http`. */
  function ClientFor(protocol: string): (c: Client)
    ensures c == Https <==> protocol == "https:"
    ensures c == Http <==> protocol != "https:"
  {
    if protocol == "https:" then Https else Http
  }

  /** A character allowed in an HTTP token (a method name, for one). */
  predicate IsTokenChar(ch: char)
  {
    || 'a' <= ch <= 'z' || 'A' <= ch <= 'Z' || '0' <= ch <= '9'
    || ch in "!#$%&'*+-.^_`|~"
  }

  predicate IsToken(s: string)
  {
    |s| > 0 && forall i :: 0 <= i < |s| ==> IsTokenChar(s[i])
  }

  /** `client.request` accepts the call: the client chosen by `ClientFor` serves only its own protocol
      (`http` refuses everything but `http:`, since every other protocol picks it), and the method must
      be a token. Otherwise it throws before the callback, the timer or the listener exist. */
  predicate Issuable(protocol: string, verb: string)
  {
    (protocol == "http:" || protocol == "https:") && IsToken(verb)
  }

  /** The default method is a token, so a default request over either protocol is issued. */
  lemma DefaultIssuable()
    ensures Issuable("http:", MethodOf(None)) && Issuable("https:", MethodOf(None))
  {
    assert forall i :: 0 <= i < 3 ==> IsTokenChar("GET"[i]);
  }

  /** `if (init?.body) req.write(init.body)`: only a present, non-empty body is written. */
  function BodyOf(body: Option<string>): (written: Option<string>)
    ensures written.Some? <==> body.Some? && body.value != ""
    ensures written.Some? ==> written == body
  {
    if body.Some? && body.value != "" then body else None
  }

  /** `Buffer.concat(chunks)`. */
  function Concat(chunks: seq<seq<Byte>>): seq<Byte>
    decreases |chunks|
  {
    if chunks == [] then [] else Concat(chunks[..|chunks| - 1]) + chunks[|chunks| - 1]
  }

  /** Concatenation keeps arrival order: the body of two runs of chunks is the one body followed by the other. */
  lemma {:induction false} ConcatAppend(a: seq<seq<Byte>>, b: seq<seq<Byte>>)
    ensures Concat(a + b) == Concat(a) + Concat(b)
    decreases |b|
  {
    if b == [] {
      assert a + b == a;
    } else {
      var b' := b[..|b| - 1];
      assert (a + b)[..|a + b| - 1] == a + b';
      assert (a + b)[|a + b| - 1] == b[|b| - 1];
      ConcatAppend(a, b');
    }
  }

  /** The body holds every byte of every chunk: its length is the sum of the chunk lengths. */
  function TotalLength(chunks: seq<seq<Byte>>): nat
    decreases |chunks|
  {
    if chunks == [] then 0 else TotalLength(chunks[..|chunks| - 1]) + |chunks[|chunks| - 1]|
  }

  lemma {:induction false} ConcatLength(chunks: seq<seq<Byte>>)
    ensures |Concat(chunks)| == TotalLength(chunks)
    decreases |chunks|
  {
    if chunks != [] {
      ConcatLength(chunks[..|chunks| - 1]);
    }
  }

  /** What the response callback receives before any body: the status code and the `location` header. */
  datatype Head = Head(status: int, location: Option<string>)

  /** How far the transport has got: the socket `req.on('socket')` saw, whether that socket's `connect`
      and `secureConnect` callbacks have run, and the response head once the response callback has run. */
  datatype Exchange = Exchange(socket: SocketState, connected: bool, secured: bool, head: Option<Head>)

  /**
    One `fetchTrace` call at one moment: what it computed up front (`request` is `None` when it threw
    before issuing one), the latest clock reading, the closure variables (`dnsTime`; `timerArmed` is
    `timeoutId !== null`, `abortArmed` is `abortListener !== null`; `chunks`), what the transport has
    delivered, every event emitted so far and the settled promise, if any.
   */
  datatype Session = Session(
    request: Option<Request>, hasSignal: bool, start: nat, clock: nat,
    dnsTime: nat, timerArmed: bool, abortArmed: bool, exchange: Exchange,
    chunks: seq<seq<Byte>>, events: seq<Emitted>, outcome: Option<Outcome>)

  /** The request goes out over TLS. */
  predicate OverTls(c: Session)
  {
    c.request.Some? && c.request.value.client == Https
  }

  /** Issued and not yet settled: only then does the transport deliver socket and response callbacks
      (after a timeout or an abort `req.destroy()` has run, after an error or `end` the exchange is over). */
  predicate Live(c: Session)
  {
    c.request.Some? && c.outcome.None?
  }

  /** The connection phases a response needs are done: a socket was assigned and, when it was a fresh
      one, it connected and, over TLS, finished its handshake. */
  predicate ConnectionReady(c: Session)
  {
    && c.exchange.socket != Unassigned
    && (c.exchange.socket == Connecting ==> c.exchange.connected && (OverTls(c) ==> c.exchange.secured))
  }

  /** The response the session resolves with once the body has ended. */
  function Response(h: Head, chunks: seq<seq<Byte>>): TraceResponse
  {
    TraceResponse(h.status, h.location, Concat(chunks))
  }

  /** What holds between callbacks. The events are checked through their scan (`Run`), whose
      soundness against the position-based properties is `RunSound`. */
  ghost predicate Inv(c: Session)
  {
    var s := Run(c.events);
    && c.start <= c.dnsTime <= c.clock
    // a call that threw up front did nothing at all
    && (c.request.None? ==>
          && c.events == [] && c.exchange == Exchange(Unassigned, false, false, None)
          && (c.outcome == Some(Rejected(AbortError)) || c.outcome == Some(Rejected(InvalidRequest))))
    // cleanup happens exactly when the promise settles
    && (c.timerArmed <==> c.outcome.None?)
    && (c.abortArmed <==> c.outcome.None? && c.hasSignal)
    // the events so far are accepted by the scan and are no later than the clock
    && s.ok && !s.pending && c.start + s.last <= c.clock
    // connection phases only on a fresh socket, TLS only over https, a response only after them
    && (c.exchange.connected ==> c.exchange.socket == Connecting)
    && (c.exchange.secured ==> c.exchange.connected && OverTls(c))
    && (c.exchange.head.Some? ==> ConnectionReady(c))
    && (c.exchange.head.None? ==> c.chunks == [])
    && (c.outcome.None? && !c.exchange.connected && c.exchange.head.None? ==> c.events == [])
    // which events have been emitted
    && (s.dns <==> c.exchange.connected)
    && (s.connect <==> c.exchange.connected)
    && (s.tls <==> c.exchange.secured)
    && (s.ttfb <==> c.exchange.head.Some?)
    && (s.ttlb <==> c.outcome.Some? && c.outcome.value.Resolved?)
    && (s.timeout <==> c.outcome == Some(Rejected(TimeoutError)))
    // a resolved promise carries the status, the header and the body in arrival order
    && (c.outcome.Some? && c.outcome.value.Resolved? ==>
          c.exchange.head.Some? && c.outcome.value.response == Response(c.exchange.head.value, c.chunks))
  }

  /** Lines 44-58, 71-74 and 94-107: the state right after the call returns its promise. An aborted
      signal throws first; a request `client.request` refuses rejects the promise from inside its
      executor; otherwise the request is out, the timer is armed and, with a signal, so is the listener. */
  function Started(protocol: string, init: RequestInit, now: nat): (c: Session)
    ensures c.request.Some? <==>
      !(init.signal.Some? && init.signal.value.aborted) && Issuable(protocol, MethodOf(init.verb))
    ensures c.request.Some? ==> c.request.value == Request(ClientFor(protocol), MethodOf(init.verb), BodyOf(init.body))
    ensures c.outcome.None? <==> c.request.Some?
    ensures init.signal.Some? && init.signal.value.aborted ==> c.outcome == Some(Rejected(AbortError))
    ensures c.timerArmed <==> c.request.Some?
    ensures c.abortArmed <==> c.request.Some? && init.signal.Some?
    ensures c.start == c.clock == c.dnsTime == now && c.events == [] && c.chunks == []
  {
    var aborted := init.signal.Some? && init.signal.value.aborted;
    var req := Request(ClientFor(protocol), MethodOf(init.verb), BodyOf(init.body));
    var issued := !aborted && Issuable(protocol, req.verb);
    Session(
      if issued then Some(req) else None,
      init.signal.Some?, now, now, now, issued, issued && init.signal.Some?,
      Exchange(Unassigned, false, false, None), [], [],
      if aborted then Some(Rejected(AbortError)) else if !issued then Some(Rejected(InvalidRequest)) else None)
  }

  /** Every callback the transport, the timer or the signal can deliver to a session. */
  datatype Callback =
    | SocketAssigned(connecting: bool)
    | LookupDone(now: nat)
    | SocketConnected(now: nat)
    | TlsReady(now: nat)
    | ResponseArrived(now: nat, head: Head)
    | DataArrived(chunk: seq<Byte>)
    | ResponseEnded(now: nat)
    | TimerFired(now: nat)
    | SignalAborted
    | RequestFailed(now: nat, err: Cause)

  /** The callback is registered in state `c` and the transport can deliver it now; a time reading
      is never earlier than the last one. */
  predicate Enabled(c: Session, cb: Callback)
  {
    match cb
    case SocketAssigned(_) => Live(c) && c.exchange.socket == Unassigned
    case LookupDone(now) =>
      Live(c) && c.exchange.socket == Connecting && !c.exchange.connected && c.clock <= now
    case SocketConnected(now) =>
      Live(c) && c.exchange.socket == Connecting && !c.exchange.connected && c.clock <= now
    case TlsReady(now) =>
      && Live(c) && c.exchange.socket == Connecting && c.exchange.connected && OverTls(c)
      && !c.exchange.secured && c.clock <= now
    case ResponseArrived(now, _) => Live(c) && c.exchange.head.None? && ConnectionReady(c) && c.clock <= now
    case DataArrived(_) => Live(c) && c.exchange.head.Some?
    case ResponseEnded(now) => Live(c) && c.exchange.head.Some? && c.clock <= now
    case TimerFired(now) => c.timerArmed && c.clock <= now
    case SignalAborted => c.abortArmed
    case RequestFailed(now, _) => c.request.Some? && c.clock <= now
  }

  /** Lines 109-113: a socket that is not `connecting` is reused and gets no phase listeners. */
  function AfterSocket(c: Session, connecting: bool): Session
  {
    c.(exchange := c.exchange.(socket := if connecting then Connecting else Reused))
  }

  /** Lines 115-118: remember the time of the latest lookup; nothing is emitted. */
  function AfterLookup(c: Session, now: nat): Session
  {
    c.(clock := now, dnsTime := now)
  }

  /** Lines 120-123: emit `dns` from the last lookup (the start time when none ran), then `connect`. */
  function AfterConnect(c: Session, now: nat): Session
    requires c.start <= c.dnsTime && c.start <= now
  {
    c.(clock := now, exchange := c.exchange.(connected := true),
       events := c.events + [Emitted(Dns, c.dnsTime - c.start, None), Emitted(Connect, now - c.start, None)])
  }

  /** Lines 125-127: emit `tls`. */
  function AfterSecureConnect(c: Session, now: nat): Session
    requires c.start <= now
  {
    c.(clock := now, exchange := c.exchange.(secured := true), events := c.events + [Emitted(Tls, now - c.start, None)])
  }

  /** Lines 75-77: a fresh, empty chunk buffer, then `ttfb`. */
  function AfterResponse(c: Session, now: nat, head: Head): Session
    requires c.start <= now
  {
    c.(clock := now, exchange := c.exchange.(head := Some(head)), chunks := [],
       events := c.events + [Emitted(Ttfb, now - c.start, None)])
  }

  /** Line 79: the chunk is appended to the buffer. */
  function AfterData(c: Session, chunk: seq<Byte>): Session
  {
    c.(chunks := c.chunks + [chunk])
  }

  /** Lines 80-91: cleanup, `ttlb`, then resolve with the status, the header and the concatenated body.
      This resolves for every status; for the ones `new Response` refuses, see `AfterEndAsWritten`. */
  function AfterEnd(c: Session, now: nat): Session
    requires c.start <= now && c.exchange.head.Some?
  {
    c.(clock := now, timerArmed := false, abortArmed := false,
       events := c.events + [Emitted(Ttlb, now - c.start, None)],
       outcome := Some(Resolved(Response(c.exchange.head.value, c.chunks))))
  }

  /** `new Response(body, {status})` accepts the status: it lies in 200-599 and, since
      `Buffer.concat` always yields a body (empty or not), it is not one of the null-body statuses
      204, 205 and 304. */
  predicate ResponseConstructible(status: int)
  {
    200 <= status <= 599 && status != 204 && status != 205 && status != 304
  }

  /** Lines 80-91 as written: when the constructor throws, the exception leaves the `end` callback
      after `cleanup()` and before `ttlb` and `resolve`. */
  function AfterEndAsWritten(c: Session, now: nat): Session
    requires c.start <= now && c.exchange.head.Some?
  {
    if ResponseConstructible(c.exchange.head.value.status) then AfterEnd(c, now)
    else c.(clock := now, timerArmed := false, abortArmed := false)
  }

  /** Lines 94-99: cleanup, destroy the request, `timeout`, reject with TimeoutError. */
  function AfterTimeout(c: Session, now: nat): Session
    requires c.start <= now
  {
    c.(clock := now, timerArmed := false, abortArmed := false,
       events := c.events + [Emitted(Timeout, now - c.start, None)], outcome := Some(Rejected(TimeoutError)))
  }

  /** Lines 101-105: cleanup, destroy the request, reject with AbortError; nothing is emitted. */
  function AfterAbort(c: Session): Session
  {
    c.(timerArmed := false, abortArmed := false, outcome := Some(Rejected(AbortError)))
  }

  /** Lines 130-134: cleanup, `error` carrying `err`, reject with `err`. The listener is never removed,
      so a late error still emits its event, while the promise keeps its first settlement. */
  function AfterError(c: Session, now: nat, err: Cause): Session
    requires c.start <= now
  {
    c.(clock := now, timerArmed := false, abortArmed := false,
       events := c.events + [Emitted(Error, now - c.start, Some(err))],
       outcome := if c.outcome.None? then Some(Rejected(TransportFailure(err))) else c.outcome)
  }

  /** The state after one callback. */
  function Next(c: Session, cb: Callback): Session
    requires c.start <= c.dnsTime <= c.clock && Enabled(c, cb)
  {
    match cb
    case SocketAssigned(connecting) => AfterSocket(c, connecting)
    case LookupDone(now) => AfterLookup(c, now)
    case SocketConnected(now) => AfterConnect(c, now)
    case TlsReady(now) => AfterSecureConnect(c, now)
    case ResponseArrived(now, head) => AfterResponse(c, now, head)
    case DataArrived(chunk) => AfterData(c, chunk)
    case ResponseEnded(now) => AfterEnd(c, now)
    case TimerFired(now) => AfterTimeout(c, now)
    case SignalAborted => AfterAbort(c)
    case RequestFailed(now, err) => AfterError(c, now, err)
  }

  // Each callback keeps the invariant.

  lemma ConnectKeeps(c: Session, now: nat)
    requires Inv(c) && Enabled(c, SocketConnected(now))
    ensures Inv(AfterConnect(c, now))
  {
    var dns := Emitted(Dns, c.dnsTime - c.start, None);
    var conn := Emitted(Connect, now - c.start, None);
    RunConsistent(c.events);
    var d := AfterConnect(c, now);
    assert Run(d.events) == Step(Step(Run(c.events), dns), conn) by {
      assert d.events == c.events + [dns] + [conn];
      RunSnoc(c.events, dns);
      RunSnoc(c.events + [dns], conn);
    }
  }

  lemma SecureConnectKeeps(c: Session, now: nat)
    requires Inv(c) && Enabled(c, TlsReady(now))
    ensures Inv(AfterSecureConnect(c, now))
  {
    var e := Emitted(Tls, now - c.start, None);
    RunConsistent(c.events);
    var d := AfterSecureConnect(c, now);
    assert Run(d.events) == Step(Run(c.events), e) by {
      assert d.events == c.events + [e];
      RunSnoc(c.events, e);
    }
  }

  lemma ResponseKeeps(c: Session, now: nat, head: Head)
    requires Inv(c) && Enabled(c, ResponseArrived(now, head))
    ensures Inv(AfterResponse(c, now, head))
  {
    var e := Emitted(Ttfb, now - c.start, None);
    RunConsistent(c.events);
    var d := AfterResponse(c, now, head);
    assert Run(d.events) == Step(Run(c.events), e) by {
      assert d.events == c.events + [e];
      RunSnoc(c.events, e);
    }
  }

  lemma EndKeeps(c: Session, now: nat)
    requires Inv(c) && Enabled(c, ResponseEnded(now))
    ensures Inv(AfterEnd(c, now))
  {
    var e := Emitted(Ttlb, now - c.start, None);
    RunConsistent(c.events);
    var d := AfterEnd(c, now);
    assert Run(d.events) == Step(Run(c.events), e) by {
      assert d.events == c.events + [e];
      RunSnoc(c.events, e);
    }
  }

  lemma TimeoutKeeps(c: Session, now: nat)
    requires Inv(c) && Enabled(c, TimerFired(now))
    ensures Inv(AfterTimeout(c, now))
  {
    var e := Emitted(Timeout, now - c.start, None);
    RunConsistent(c.events);
    var d := AfterTimeout(c, now);
    assert Run(d.events) == Step(Run(c.events), e) by {
      assert d.events == c.events + [e];
      RunSnoc(c.events, e);
    }
  }

  /** An `error` event changes nothing the scan tracks but the time, whether or not the promise
      has settled already. */
  lemma ErrorKeeps(c: Session, now: nat, err: Cause)
    requires Inv(c) && Enabled(c, RequestFailed(now, err))
    ensures Inv(AfterError(c, now, err))
  {
    var e := Emitted(Error, now - c.start, Some(err));
    var d := AfterError(c, now, err);
    assert Run(d.events) == Run(c.events).(last := e.ms) by {
      assert d.events == c.events + [e];
      RunSnoc(c.events, e);
    }
    assert d.exchange == c.exchange && d.chunks == c.chunks && d.request == c.request;
    if c.outcome.None? {
      assert d.outcome == Some(Rejected(TransportFailure(err)));
    } else {
      assert d.outcome == c.outcome;
    }
  }

  /** The invariant holds from the start and after every enabled callback. */
  lemma StartedKeeps(protocol: string, init: RequestInit, now: nat)
    ensures Inv(Started(protocol, init, now))
  {
  }

  lemma NextKeeps(c: Session, cb: Callback)
    requires Inv(c) && Enabled(c, cb)
    ensures Inv(Next(c, cb))
  {
    match cb
    case SocketConnected(now) => ConnectKeeps(c, now);
    case TlsReady(now) => SecureConnectKeeps(c, now);
    case ResponseArrived(now, head) => ResponseKeeps(c, now, head);
    case ResponseEnded(now) => EndKeeps(c, now);
    case TimerFired(now) => TimeoutKeeps(c, now);
    case RequestFailed(now, err) => ErrorKeeps(c, now, err);
    case _ =>
  }

  // Runs of callbacks.

  /** The state after a run of callbacks, or `None` when one of them comes while it is not enabled. */
  function Replay(c: Session, cbs: seq<Callback>): Option<Session>
    decreases |cbs|
  {
    if cbs == [] then Some(c)
    else if c.start <= c.dnsTime <= c.clock && Enabled(c, cbs[0]) then Replay(Next(c, cbs[0]), cbs[1..])
    else None
  }

  lemma {:induction false} ReplayAppend(c: Session, a: seq<Callback>, b: seq<Callback>)
    ensures Replay(c, a + b) == if Replay(c, a).Some? then Replay(Replay(c, a).value, b) else None
    decreases |a|
  {
    if a == [] {
      assert a + b == b;
    } else {
      assert (a + b)[0] == a[0];
      assert (a + b)[1..] == a[1..] + b;
      if c.start <= c.dnsTime <= c.clock && Enabled(c, a[0]) {
        ReplayAppend(Next(c, a[0]), a[1..], b);
      }
    }
  }

  /** A run followed by one more callback. */
  lemma ReplaySnoc(c: Session, a: seq<Callback>, cb: Callback)
    ensures Replay(c, a + [cb]) ==
      if Replay(c, a).Some? && Replay(c, a).value.start <= Replay(c, a).value.dnsTime <= Replay(c, a).value.clock
         && Enabled(Replay(c, a).value, cb)
      then Some(Next(Replay(c, a).value, cb)) else None
  {
    ReplayAppend(c, a, [cb]);
  }

  /** One callback only appends events, and a settled promise stays as it settled. */
  lemma NextSettlesOnce(c: Session, cb: Callback)
    requires Inv(c) && Enabled(c, cb)
    ensures c.events <= Next(c, cb).events
    ensures c.outcome.Some? ==> Next(c, cb).outcome == c.outcome
  {
  }

  /** Only `end`, the timer, the abort listener and `error` settle the promise, and each of them
      leaves the timer disarmed and the abort listener detached. */
  lemma SettlingCallbacks(c: Session, cb: Callback)
    requires Inv(c) && Enabled(c, cb)
    requires cb.ResponseEnded? || cb.TimerFired? || cb.SignalAborted? || cb.RequestFailed?
    ensures Next(c, cb).outcome.Some?
    ensures !Next(c, cb).timerArmed && !Next(c, cb).abortArmed
    ensures cb.ResponseEnded? ==> Next(c, cb).outcome == Some(Resolved(Response(c.exchange.head.value, c.chunks)))
    ensures c.outcome.None? && cb.TimerFired? ==> Next(c, cb).outcome == Some(Rejected(TimeoutError))
    ensures c.outcome.None? && cb.SignalAborted? ==> Next(c, cb).outcome == Some(Rejected(AbortError))
    ensures c.outcome.None? && cb.RequestFailed? ==> Next(c, cb).outcome == Some(Rejected(TransportFailure(cb.err)))
    ensures cb.SignalAborted? ==> Next(c, cb).events == c.events
  {
  }

  /** Once the promise has settled, the only callback left is a late `error`: its `error` event is
      still emitted, since that listener is never removed, but the settlement stays as it was. */
  lemma AfterSettlement(c: Session, cb: Callback)
    requires Inv(c) && c.outcome.Some? && Enabled(c, cb)
    ensures cb.RequestFailed?
    ensures Next(c, cb).events == c.events + [Emitted(Error, cb.now - c.start, Some(cb.err))]
    ensures Next(c, cb).outcome == c.outcome
  {
  }

  /** Lines 80-91 as written: a response whose status `new Response` refuses is not settled by
      `end`. `cleanup()` has already cleared the timer and detached the abort listener, so neither of
      them can settle it later; neither `ttlb` nor `resolve` is reached. */
  lemma EndAsWrittenStrands(c: Session, now: nat)
    requires Inv(c) && Enabled(c, ResponseEnded(now)) && !ResponseConstructible(c.exchange.head.value.status)
    ensures AfterEndAsWritten(c, now).outcome.None?
    ensures !AfterEndAsWritten(c, now).timerArmed && !AfterEndAsWritten(c, now).abortArmed
    ensures forall t :: !Enabled(AfterEndAsWritten(c, now), TimerFired(t))
    ensures !Enabled(AfterEndAsWritten(c, now), SignalAborted)
    ensures AfterEndAsWritten(c, now).events == c.events
  {
  }

  /** A GET over a reused socket answered with 204 No Content: as written, `end` leaves the promise
      pending with the timer cleared, while `AfterEnd` resolves with the status and an empty body. */
  lemma NoContentLeftPending()
    ensures var c := Next(Next(Started("http:", RequestInit(None, None, None, None), 0), SocketAssigned(false)),
                          ResponseArrived(1, Head(204, None)));
      && Inv(c) && Enabled(c, ResponseEnded(2))
      && AfterEndAsWritten(c, 2).outcome.None? && !AfterEndAsWritten(c, 2).timerArmed
      && AfterEnd(c, 2).outcome == Some(Resolved(TraceResponse(204, None, [])))
  {
    var c0 := Started("http:", RequestInit(None, None, None, None), 0);
    assert IsToken("GET") by { assert forall i :: 0 <= i < 3 ==> IsTokenChar("GET"[i]); }
    StartedKeeps("http:", RequestInit(None, None, None, None), 0);
    NextKeeps(c0, SocketAssigned(false));
    NextKeeps(Next(c0, SocketAssigned(false)), ResponseArrived(1, Head(204, None)));
  }

  /** Along any run from a state that satisfies the invariant, the invariant holds, events are only
      ever appended, and a promise that has settled keeps its first settlement. */
  lemma {:induction false} ReplayKeeps(c: Session, cbs: seq<Callback>)
    requires Inv(c)
    ensures Replay(c, cbs).Some? ==>
      && Inv(Replay(c, cbs).value)
      && c.events <= Replay(c, cbs).value.events
      && (c.outcome.Some? ==> Replay(c, cbs).value.outcome == c.outcome)
    decreases |cbs|
  {
    if cbs != [] && Enabled(c, cbs[0]) {
      NextKeeps(c, cbs[0]);
      NextSettlesOnce(c, cbs[0]);
      ReplayKeeps(Next(c, cbs[0]), cbs[1..]);
    }
  }

  /** Lines 71-74: a request `client.request` refuses rejects at once, with no event, and leaves
      nothing registered that a callback could reach. */
  lemma RefusedUpFront(protocol: string, init: RequestInit, now: nat, cb: Callback)
    requires !(init.signal.Some? && init.signal.value.aborted) && !Issuable(protocol, MethodOf(init.verb))
    ensures Started(protocol, init, now).request.None?
    ensures Started(protocol, init, now).events == []
    ensures Started(protocol, init, now).outcome == Some(Rejected(InvalidRequest))
    ensures !Enabled(Started(protocol, init, now), cb)
  {
  }

  /** Lines 49-51: an aborted signal throws before anything exists, so no callback can ever run. */
  lemma AbortedUpFront(protocol: string, init: RequestInit, now: nat, cb: Callback)
    requires init.signal.Some? && init.signal.value.aborted
    ensures Started(protocol, init, now).request.None?
    ensures Started(protocol, init, now).events == []
    ensures Started(protocol, init, now).outcome == Some(Rejected(AbortError))
    ensures !Enabled(Started(protocol, init, now), cb)
  {
  }

  // What the invariant says about the events.

  /** The events are in phase order and in time order. */
  lemma EventsWellOrdered(c: Session)
    requires Inv(c)
    ensures WellOrdered(c.events) && Chronological(c.events)
  {
    RunSound(c.events);
  }

  /** A reused socket reports no `dns`, `connect` or `tls`; `tls` is reported exactly when the
      socket's `secureConnect` ran, which only happens over https; `dns` and `connect` come together. */
  lemma PhasesFollowSocket(c: Session)
    requires Inv(c)
    ensures c.exchange.socket != Connecting ==> !Has(c.events, Dns) && !Has(c.events, Connect) && !Has(c.events, Tls)
    ensures Has(c.events, Tls) <==> c.exchange.secured
    ensures Has(c.events, Tls) ==> OverTls(c)
    ensures Has(c.events, Dns) <==> Has(c.events, Connect)
  {
    RunFlags(c.events);
  }

  /** The events tell how the promise settled: `ttlb` iff it resolved, `timeout` iff it was rejected
      with TimeoutError; and once it has settled, the timer and the abort listener are gone. */
  lemma EventsTellOutcome(c: Session)
    requires Inv(c)
    ensures Has(c.events, Ttlb) <==> c.outcome.Some? && c.outcome.value.Resolved?
    ensures Has(c.events, Timeout) <==> c.outcome == Some(Rejected(TimeoutError))
    ensures c.outcome.Some? ==> !c.timerArmed && !c.abortArmed
  {
    RunFlags(c.events);
  }

  // The `dns` value and the body.

  /** One `lookup` callback per time reading. */
  function Lookups(ts: seq<nat>): (cbs: seq<Callback>)
    ensures |cbs| == |ts| && forall i :: 0 <= i < |ts| ==> cbs[i] == LookupDone(ts[i])
  {
    seq(|ts|, i requires 0 <= i < |ts| => LookupDone(ts[i]))
  }

  /** Time readings that never go back and start no earlier than `from`. */
  predicate Ascending(from: nat, ts: seq<nat>)
  {
    forall i, j :: 0 <= i <= j < |ts| ==> from <= ts[i] <= ts[j]
  }

  /** Lookups only move `dnsTime` (and the clock) to the latest one. */
  lemma {:induction false} LookupsKeepLast(c: Session, ts: seq<nat>)
    requires c.start <= c.dnsTime <= c.clock && Live(c) && c.exchange.socket == Connecting && !c.exchange.connected
    requires Ascending(c.clock, ts)
    ensures Replay(c, Lookups(ts)) == Some(if ts == [] then c else c.(clock := ts[|ts| - 1], dnsTime := ts[|ts| - 1]))
    decreases |ts|
  {
    if ts != [] {
      var c' := AfterLookup(c, ts[0]);
      assert Lookups(ts)[1..] == Lookups(ts[1..]);
      assert Ascending(c'.clock, ts[1..]) by {
        forall i, j | 0 <= i <= j < |ts[1..]| ensures c'.clock <= ts[1..][i] <= ts[1..][j] {
          assert ts[1..][i] == ts[i + 1] && ts[1..][j] == ts[j + 1];
        }
      }
      LookupsKeepLast(c', ts[1..]);
    }
  }

  /** Lines 56 and 115-123: the `dns` value is the last lookup's time minus the start, or the initial
      `dnsTime` minus the start when no lookup ran, and it is emitted right before `connect`. */
  lemma DnsIsLastLookup(c: Session, ts: seq<nat>, now: nat)
    requires c.start <= c.dnsTime <= c.clock && Live(c) && c.exchange.socket == Connecting && !c.exchange.connected
    requires Ascending(c.clock, ts) && c.clock <= now && (ts != [] ==> ts[|ts| - 1] <= now)
    ensures var r := Replay(c, Lookups(ts) + [SocketConnected(now)]);
      && r.Some?
      && r.value.events == c.events + [Emitted(Dns, (if ts == [] then c.dnsTime else ts[|ts| - 1]) - c.start, None),
                                        Emitted(Connect, now - c.start, None)]
  {
    LookupsKeepLast(c, ts);
    ReplaySnoc(c, Lookups(ts), SocketConnected(now));
  }

  /** One `data` callback per chunk. */
  function Feeds(chunks: seq<seq<Byte>>): (cbs: seq<Callback>)
    ensures |cbs| == |chunks| && forall i :: 0 <= i < |chunks| ==> cbs[i] == DataArrived(chunks[i])
  {
    seq(|chunks|, i requires 0 <= i < |chunks| => DataArrived(chunks[i]))
  }

  /** `data` callbacks append their chunks to the buffer in arrival order and change nothing else. */
  lemma {:induction false} FeedsAccumulate(c: Session, chunks: seq<seq<Byte>>)
    requires c.start <= c.dnsTime <= c.clock && Live(c) && c.exchange.head.Some?
    ensures Replay(c, Feeds(chunks)) == Some(c.(chunks := c.chunks + chunks))
    decreases |chunks|
  {
    if chunks == [] {
      assert c.chunks + chunks == c.chunks;
    } else {
      var c' := AfterData(c, chunks[0]);
      assert Feeds(chunks)[1..] == Feeds(chunks[1..]);
      FeedsAccumulate(c', chunks[1..]);
      assert c.chunks + [chunks[0]] + chunks[1..] == c.chunks + chunks;
    }
  }

  /** Lines 75-91: after the response callback, `data` chunks and then `end` resolve the promise with
      the status, the header and the chunks concatenated in arrival order, and emit just `ttlb`. */
  lemma BodyInArrivalOrder(c: Session, chunks: seq<seq<Byte>>, now: nat)
    requires c.start <= c.dnsTime <= c.clock <= now && Live(c) && c.exchange.head.Some? && c.chunks == []
    ensures Replay(c, Feeds(chunks) + [ResponseEnded(now)]) == Some(AfterEnd(c.(chunks := chunks), now))
    ensures AfterEnd(c.(chunks := chunks), now).outcome ==
      Some(Resolved(TraceResponse(c.exchange.head.value.status, c.exchange.head.value.location, Concat(chunks))))
  {
    var m := c.(chunks := chunks);
    assert c.chunks + chunks == chunks;
    FeedsAccumulate(c, chunks);
    assert Enabled(m, ResponseEnded(now));
    ReplaySnoc(c, Feeds(chunks), ResponseEnded(now));
  }

  /**
    The closure of one `fetchTrace` call: the constants it computes, the variables its callbacks
    update, the events emitted through `emitEvent` and the settled promise. Each callback is one
    method; its guard is `Enabled` and its new state is the matching `After…` function of the old one.
   */
  class TraceSession {
    const hooks: set<Handler>
    const start: nat
    const timeoutMs: int
    const hasSignal: bool
    /** The request handed to the transport; `None` when the call threw before issuing one. */
    const request: Option<Request>

    /** The latest clock reading any callback has observed. */
    ghost var clock: nat
    var dnsTime: nat
    var timerArmed: bool
    var abortArmed: bool
    var exchange: Exchange
    var chunks: seq<seq<Byte>>
    var events: seq<Emitted>
    var outcome: Option<Outcome>

    ghost function State(): Session
      reads this
    {
      Session(request, hasSignal, start, clock, dnsTime, timerArmed, abortArmed, exchange, chunks, events, outcome)
    }

    ghost predicate Valid()
      reads this
    {
      Inv(State())
    }

    /** Every hook call made so far. */
    ghost function Invocations(): seq<Invocation>
      reads this
    {
      Dispatched(hooks, events)
    }

    constructor (protocol: string, init: RequestInit, hooks: set<Handler>, now: nat)
      ensures Valid()
      ensures State() == Started(protocol, init, now)
      ensures this.hooks == hooks && timeoutMs == TimeoutOf(init.timeout)
    {
      this.hooks := hooks;
      start := now;
      clock := now;
      dnsTime := now;
      timeoutMs := TimeoutOf(init.timeout);
      hasSignal := init.signal.Some?;
      exchange := Exchange(Unassigned, false, false, None);
      chunks, events := [], [];
      if init.signal.Some? && init.signal.value.aborted {
        request := None;
        timerArmed, abortArmed := false, false;
        outcome := Some(Rejected(AbortError));
      } else if !Issuable(protocol, MethodOf(init.verb)) {
        request := None;
        timerArmed, abortArmed := false, false;
        outcome := Some(Rejected(InvalidRequest));
      } else {
        request := Some(Request(ClientFor(protocol), MethodOf(init.verb), BodyOf(init.body)));
        timerArmed := true;
        abortArmed := init.signal.Some?;
        outcome := None;
      }
      new;
      StartedKeeps(protocol, init, now);
    }

    /** `emitEvent`: the event is delivered to the hooks (see `Invocations`). */
    method Emit(kind: EventType, ms: nat, error: Option<Cause>)
      modifies this`events
      ensures events == old(events) + [Emitted(kind, ms, error)]
    {
      events := events + [Emitted(kind, ms, error)];
    }

    /** `cleanup`: disarm the timer and detach the abort listener; on a second call there is nothing left to do. */
    method Cleanup()
      requires abortArmed ==> hasSignal
      modifies this`timerArmed, this`abortArmed
      ensures !timerArmed && !abortArmed
      ensures !old(timerArmed) && !old(abortArmed) ==> timerArmed == old(timerArmed) && abortArmed == old(abortArmed)
    {
      if timerArmed {
        timerArmed := false;
      }
      if abortArmed && hasSignal {
        abortArmed := false;
      }
    }

    method AssignSocket(connecting: bool)
      requires Valid() && Enabled(State(), SocketAssigned(connecting))
      modifies this`exchange
      ensures State() == AfterSocket(old(State()), connecting)
      ensures Valid()
    {
      ghost var c0 := State();
      exchange := exchange.(socket := if connecting then Connecting else Reused);
      assert State() == AfterSocket(c0, connecting);
      NextKeeps(c0, SocketAssigned(connecting));
    }

    method Lookup(now: nat)
      requires Valid() && Enabled(State(), LookupDone(now))
      modifies this`clock, this`dnsTime
      ensures State() == AfterLookup(old(State()), now)
      ensures Valid()
    {
      ghost var c0 := State();
      clock := now;
      dnsTime := now;
      assert State() == AfterLookup(c0, now);
      NextKeeps(c0, LookupDone(now));
    }

    method SocketConnect(now: nat)
      requires Valid() && Enabled(State(), SocketConnected(now))
      modifies this`clock, this`exchange, this`events
      ensures State() == AfterConnect(old(State()), now)
      ensures Valid()
    {
      ghost var c0 := State();
      clock := now;
      Emit(Dns, dnsTime - start, None);
      Emit(Connect, now - start, None);
      exchange := exchange.(connected := true);
      assert State() == AfterConnect(c0, now);
      ConnectKeeps(c0, now);
    }

    method SecureConnect(now: nat)
      requires Valid() && Enabled(State(), TlsReady(now))
      modifies this`clock, this`exchange, this`events
      ensures State() == AfterSecureConnect(old(State()), now)
      ensures Valid()
    {
      ghost var c0 := State();
      clock := now;
      Emit(Tls, now - start, None);
      exchange := exchange.(secured := true);
      assert State() == AfterSecureConnect(c0, now);
      SecureConnectKeeps(c0, now);
    }

    method ResponseHeaders(now: nat, head: Head)
      requires Valid() && Enabled(State(), ResponseArrived(now, head))
      modifies this`clock, this`exchange, this`chunks, this`events
      ensures State() == AfterResponse(old(State()), now, head)
      ensures Valid()
    {
      ghost var c0 := State();
      clock := now;
      exchange := exchange.(head := Some(head));
      chunks := [];
      Emit(Ttfb, now - start, None);
      assert State() == AfterResponse(c0, now, head);
      ResponseKeeps(c0, now, head);
    }

    method Data(chunk: seq<Byte>)
      requires Valid() && Enabled(State(), DataArrived(chunk))
      modifies this`chunks
      ensures State() == AfterData(old(State()), chunk)
      ensures Valid()
    {
      ghost var c0 := State();
      chunks := chunks + [chunk];
      assert State() == AfterData(c0, chunk);
      NextKeeps(c0, DataArrived(chunk));
    }

    method End(now: nat)
      requires Valid() && Enabled(State(), ResponseEnded(now))
      modifies this`clock, this`timerArmed, this`abortArmed, this`events, this`outcome
      ensures State() == AfterEnd(old(State()), now)
      ensures Valid()
    {
      ghost var c0 := State();
      Cleanup();
      clock := now;
      var response := Response(exchange.head.value, chunks);
      Emit(Ttlb, now - start, None);
      outcome := Some(Resolved(response));
      assert State() == AfterEnd(c0, now);
      EndKeeps(c0, now);
    }

    method TimerFires(now: nat)
      requires Valid() && Enabled(State(), TimerFired(now))
      modifies this`clock, this`timerArmed, this`abortArmed, this`events, this`outcome
      ensures State() == AfterTimeout(old(State()), now)
      ensures Valid()
    {
      ghost var c0 := State();
      Cleanup();
      clock := now;
      Emit(Timeout, now - start, None);
      outcome := Some(Rejected(TimeoutError));
      assert State() == AfterTimeout(c0, now);
      TimeoutKeeps(c0, now);
    }

    method AbortSignal()
      requires Valid() && Enabled(State(), SignalAborted)
      modifies this`timerArmed, this`abortArmed, this`outcome
      ensures State() == AfterAbort(old(State()))
      ensures Valid()
    {
      ghost var c0 := State();
      Cleanup();
      outcome := Some(Rejected(AbortError));
      assert State() == AfterAbort(c0);
      NextKeeps(c0, SignalAborted);
    }

    method RequestError(now: nat, err: Cause)
      requires Valid() && Enabled(State(), RequestFailed(now, err))
      modifies this`clock, this`timerArmed, this`abortArmed, this`events, this`outcome
      ensures State() == AfterError(old(State()), now, err)
      ensures Valid()
    {
      ghost var c0 := State();
      Cleanup();
      clock := now;
      Emit(Error, now - start, Some(err));
      if outcome.None? {
        outcome := Some(Rejected(TransportFailure(err)));
      }
      assert State() == AfterError(c0, now, err);
      ErrorKeeps(c0, now, err);
    }
  }
}
