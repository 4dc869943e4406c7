/**
  Concrete runs of `TraceSession`, one per situation the repository's tests set up: each drives the
  callbacks in the order the transport delivers them and states the events emitted and how the
  promise settled. The clock starts at 0, so every event carries the reading it was emitted at.
 */
module TraceScenarios {
  import opened Wrappers
  import opened TraceEvents
  import opened FetchTrace

  const NoOptions := RequestInit(None, None, None, None)

  /** A fresh HTTPS connection up to the end of the handshake: lookup, connect and TLS, in that order. */
  method SecureHandshake() returns (t: TraceSession)
    ensures fresh(t) && t.Valid() && t.hooks == {OnDns, OnConnect, OnTls, OnTtfb, OnTtlb}
    ensures t.State() == Session(Some(Request(Https, "GET", None)), false, 0, 20, 5, true, false,
                                 Exchange(Connecting, true, true, None), [],
                                 [Emitted(Dns, 5, None), Emitted(Connect, 10, None), Emitted(Tls, 20, None)], None)
  {
    DefaultIssuable();
    t := new TraceSession("https:", NoOptions, {OnDns, OnConnect, OnTls, OnTtfb, OnTtlb}, 0);
    t.AssignSocket(true);
    t.Lookup(5);
    t.SocketConnect(10);
    t.SecureConnect(20);
  }

  /** That exchange continued: first byte, then two chunks of body, buffered in arrival order. */
  method SecureBody() returns (t: TraceSession)
    ensures fresh(t) && t.Valid() && t.hooks == {OnDns, OnConnect, OnTls, OnTtfb, OnTtlb}
    ensures t.State() == Session(Some(Request(Https, "GET", None)), false, 0, 30, 5, true, false,
                                 Exchange(Connecting, true, true, Some(Head(200, None))), [[104], [105]],
                                 [Emitted(Dns, 5, None), Emitted(Connect, 10, None), Emitted(Tls, 20, None),
                                  Emitted(Ttfb, 30, None)], None)
  {
    t := SecureHandshake();
    t.ResponseHeaders(30, Head(200, None));
    t.Data([104]);
    t.Data([105]);
  }

  /** The rest of that exchange: the last byte resolves with the concatenated body. */
  method FreshHttps() returns (events: seq<Emitted>, outcome: Option<Outcome>)
    ensures events == [Emitted(Dns, 5, None), Emitted(Connect, 10, None), Emitted(Tls, 20, None),
                       Emitted(Ttfb, 30, None), Emitted(Ttlb, 40, None)]
    ensures outcome == Some(Resolved(TraceResponse(200, None, [104, 105])))
  {
    var t := SecureBody();
    t.End(40);
    assert Concat([[104], [105]]) == [104, 105] by {
      assert [[104], [105]][..1] == [[104]];
      assert [[104]][..0] == [];
    }
    events, outcome := t.events, t.outcome;
  }

  /** Plain HTTP has no handshake, so no `tls` event. */
  method PlainHttp() returns (events: seq<Emitted>, outcome: Option<Outcome>)
    ensures events == [Emitted(Dns, 2, None), Emitted(Connect, 3, None), Emitted(Ttfb, 7, None), Emitted(Ttlb, 8, None)]
    ensures outcome == Some(Resolved(TraceResponse(301, Some("/next"), [])))
  {
    DefaultIssuable();
    var t := new TraceSession("http:", NoOptions, {}, 0);
    t.AssignSocket(true);
    t.Lookup(2);
    t.SocketConnect(3);
    t.ResponseHeaders(7, Head(301, Some("/next")));
    t.End(8);
    events, outcome := t.events, t.outcome;
  }

  /** A socket taken from the agent's pool is already connected: only `ttfb` and `ttlb` are emitted. */
  method ReusedSocket() returns (events: seq<Emitted>, outcome: Option<Outcome>)
    ensures events == [Emitted(Ttfb, 4, None), Emitted(Ttlb, 6, None)]
    ensures outcome == Some(Resolved(TraceResponse(200, None, [1])))
  {
    DefaultIssuable();
    var t := new TraceSession("https:", NoOptions, {OnDns, OnConnect, OnTls}, 0);
    t.AssignSocket(false);
    t.ResponseHeaders(4, Head(200, None));
    t.Data([1]);
    assert t.chunks == [[1]];
    t.End(6);
    assert Concat([[1]]) == [1] by { assert [[1]][..0] == []; }
    events, outcome := t.events, t.outcome;
  }

  /** Connecting to an IP address skips the lookup: `dns` reports 0. */
  method NoLookup() returns (events: seq<Emitted>)
    ensures events == [Emitted(Dns, 0, None), Emitted(Connect, 9, None)]
  {
    DefaultIssuable();
    var t := new TraceSession("http:", NoOptions, {}, 0);
    t.AssignSocket(true);
    t.SocketConnect(9);
    events := t.events;
  }

  /** The timer fires before the response: a `timeout` event and a TimeoutError. That nothing later
      settles again is `NextSettlesOnce` and `ReplayKeeps`. */
  method TimedOut() returns (events: seq<Emitted>, outcome: Option<Outcome>)
    ensures events == [Emitted(Dns, 1, None), Emitted(Connect, 2, None), Emitted(Timeout, 50, None)]
    ensures outcome == Some(Rejected(TimeoutError))
  {
    DefaultIssuable();
    var t := new TraceSession("http:", RequestInit(Some(50), None, None, None), {}, 0);
    t.AssignSocket(true);
    t.Lookup(1);
    t.SocketConnect(2);
    t.TimerFires(50);
    events, outcome := t.events, t.outcome;
  }

  /** The connection is refused: an `error` event carrying the cause, and the promise rejects with it. */
  method Refused() returns (events: seq<Emitted>, outcome: Option<Outcome>)
    ensures events == [Emitted(Error, 3, Some(Cause("ECONNREFUSED")))]
    ensures outcome == Some(Rejected(TransportFailure(Cause("ECONNREFUSED"))))
  {
    DefaultIssuable();
    var t := new TraceSession("http:", NoOptions, {OnError}, 0);
    t.AssignSocket(true);
    t.RequestError(3, Cause("ECONNREFUSED"));
    events, outcome := t.events, t.outcome;
  }

  /** A signal that is already aborted rejects at once: no request, no events. */
  method AbortedBeforehand() returns (events: seq<Emitted>, outcome: Option<Outcome>, issued: bool)
    ensures events == [] && outcome == Some(Rejected(AbortError)) && !issued
  {
    var t := new TraceSession("https:", RequestInit(None, None, None, Some(Signal(true))), {OnDns}, 0);
    events, outcome, issued := t.events, t.outcome, t.request.Some?;
  }

  /** A POST with a body: the method and the body are handed to the transport as given. */
  method PostWithBody() returns (issued: Option<Request>, timeoutMs: int)
    ensures issued == Some(Request(Https, "POST", Some("{}"))) && timeoutMs == DEFAULT_TIMEOUT_MS
  {
    var t := new TraceSession("https:", RequestInit(None, Some("POST"), Some("{}"), None), {}, 0);
    issued, timeoutMs := t.request, t.timeoutMs;
  }

  /** An `ftp:` URL picks the `http` client, which refuses it: the promise rejects with no request
      issued and no events. */
  method UnsupportedProtocol() returns (events: seq<Emitted>, outcome: Option<Outcome>, issued: bool)
    ensures events == [] && outcome == Some(Rejected(InvalidRequest)) && !issued
  {
    var t := new TraceSession("ftp:", NoOptions, {OnError}, 0);
    events, outcome, issued := t.events, t.outcome, t.request.Some?;
  }

  /** A method with a space in it is not a token: refused the same way. */
  method InvalidMethod() returns (outcome: Option<Outcome>, issued: bool)
    ensures outcome == Some(Rejected(InvalidRequest)) && !issued
  {
    assert !IsTokenChar("GET /"[3]);
    var t := new TraceSession("https:", RequestInit(None, Some("GET /"), None, None), {}, 0);
    outcome, issued := t.outcome, t.request.Some?;
  }

  /** Aborting while the exchange is under way rejects with an AbortError; the abort itself emits
      nothing (a later `error` from the destroyed request would still emit one, see `AfterSettlement`). */
  method AbortedMidway() returns (events: seq<Emitted>, outcome: Option<Outcome>)
    ensures events == [Emitted(Dns, 1, None), Emitted(Connect, 2, None)]
    ensures outcome == Some(Rejected(AbortError))
  {
    DefaultIssuable();
    var t := new TraceSession("http:", RequestInit(None, None, None, Some(Signal(false))), {}, 0);
    t.AssignSocket(true);
    t.Lookup(1);
    t.SocketConnect(2);
    t.AbortSignal();
    events, outcome := t.events, t.outcome;
  }
}
