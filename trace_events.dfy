/** The usual optional-value wrapper. */
module Wrappers {
  datatype Option<+T> = None | Some(value: T)
}

/**
  The events a trace reports and the fan-out that delivers each of them to the
  caller's hooks (`emitEvent` in src/fetchTrace.ts).
 */
module TraceEvents {
  import opened Wrappers

  /** The seven kinds of `EventType`. */
  datatype EventType = Dns | Connect | Tls | Ttfb | Ttlb | Timeout | Error

  /** The string literal the source uses for each kind. */
  function EventName(e: EventType): string
  {
    match e
    case Dns => "dns"
    case Connect => "connect"
    case Tls => "tls"
    case Ttfb => "ttfb"
    case Ttlb => "ttlb"
    case Timeout => "timeout"
    case Error => "error"
  }

  /** The identity of a transport failure: the `err` object a request's error callback receives. */
  datatype Cause = Cause(code: string)

  /** The optional members of `FetchTraceHooks`; a caller registers any subset of them. */
  datatype Handler = On | OnDns | OnConnect | OnTls | OnTtfb | OnTtlb | OnTimeout | OnError

  /** What a handler is called with: `on` gets the triple, `onError` the error, the others the elapsed time. */
  datatype Argument =
    | Multiplexed(event: EventType, ms: nat, error: Option<Cause>)
    | Millis(ms: nat)
    | Failure(error: Option<Cause>)

  /** One call of one hook. */
  datatype Invocation = Invocation(handler: Handler, arg: Argument)

  /** One event as `emitEvent` receives it. */
  datatype Emitted = Emitted(kind: EventType, ms: nat, error: Option<Cause>)

  /** The per-kind hook that the `switch` of `emitEvent` selects for a kind. */
  function KindHandler(e: EventType): (h: Handler)
    ensures h != On
  {
    match e
    case Dns => OnDns
    case Connect => OnConnect
    case Tls => OnTls
    case Ttfb => OnTtfb
    case Ttlb => OnTtlb
    case Timeout => OnTimeout
    case Error => OnError
  }

  /** The kind a member of `FetchTraceHooks` is named after (`onDns` for `dns`, …); `on` has none. */
  function KindOf(h: Handler): (k: Option<EventType>)
    ensures k.None? <==> h == On
  {
    match h
    case On => None
    case OnDns => Some(Dns)
    case OnConnect => Some(Connect)
    case OnTls => Some(Tls)
    case OnTtfb => Some(Ttfb)
    case OnTtlb => Some(Ttlb)
    case OnTimeout => Some(Timeout)
    case OnError => Some(Error)
  }

  /** The `switch` sends each kind to the hook named after it, and only to that one. */
  lemma KindHandlerNamed(h: Handler, e: EventType)
    ensures KindOf(KindHandler(e)) == Some(e)
    ensures KindHandler(e) == h <==> KindOf(h) == Some(e)
  {
  }

  /** `emitEvent(hooks, event, ms, error)`: the hook calls it makes, in order. Hooks absent from
      `hooks` are skipped by the optional calls `hooks?.on?.(…)`; no hooks at all is the empty set. */
  function EmitEvent(hooks: set<Handler>, e: EventType, ms: nat, error: Option<Cause>): (calls: seq<Invocation>)
    ensures |calls| == (if On in hooks then 1 else 0) + (if KindHandler(e) in hooks then 1 else 0)
    ensures On in hooks ==> calls[0] == Invocation(On, Multiplexed(e, ms, error))
    ensures KindHandler(e) in hooks ==>
      calls[|calls| - 1].handler == KindHandler(e) &&
      calls[|calls| - 1].arg == (if e == Error then Failure(error) else Millis(ms))
    ensures forall i :: 0 <= i < |calls| ==> calls[i].handler in hooks && (calls[i].handler == On || calls[i].handler == KindHandler(e))
    ensures forall i, j :: 0 <= i < j < |calls| ==> calls[i].handler != calls[j].handler
  {
    var multiplexed := if On in hooks then [Invocation(On, Multiplexed(e, ms, error))] else [];
    var perKind := if KindHandler(e) !in hooks then []
                   else if e == Error then [Invocation(OnError, Failure(error))]
                   else [Invocation(KindHandler(e), Millis(ms))];
    multiplexed + perKind
  }

  /** All hook calls made while a trace emits `evs`, one `emitEvent` per event, in order. */
  function Dispatched(hooks: set<Handler>, evs: seq<Emitted>): seq<Invocation>
    decreases |evs|
  {
    if evs == [] then []
    else
      var e := evs[|evs| - 1];
      Dispatched(hooks, evs[..|evs| - 1]) + EmitEvent(hooks, e.kind, e.ms, e.error)
  }

  /** The arguments handler `h` received, in order, in a list of calls. */
  function ArgsTo(h: Handler, calls: seq<Invocation>): seq<Argument>
    decreases |calls|
  {
    if calls == [] then []
    else ArgsTo(h, calls[..|calls| - 1]) + (if calls[|calls| - 1].handler == h then [calls[|calls| - 1].arg] else [])
  }

  /** Reference definition of what a registered handler should see: `on` every event, a
      per-kind hook exactly the events of the kind it is named after, each once and in emission order. */
  function Expected(h: Handler, evs: seq<Emitted>): seq<Argument>
    decreases |evs|
  {
    if evs == [] then []
    else
      var e := evs[|evs| - 1];
      var mine := if h == On then [Multiplexed(e.kind, e.ms, e.error)]
                  else if KindOf(h) == Some(e.kind) then [if e.kind == Error then Failure(e.error) else Millis(e.ms)]
                  else [];
      Expected(h, evs[..|evs| - 1]) + mine
  }

  lemma {:induction false} ArgsToAppend(h: Handler, a: seq<Invocation>, b: seq<Invocation>)
    ensures ArgsTo(h, a + b) == ArgsTo(h, a) + ArgsTo(h, b)
    decreases |b|
  {
    if b == [] {
      assert a + b == a;
    } else {
      var b' := b[..|b| - 1];
      assert (a + b)[..|a + b| - 1] == a + b';
      assert (a + b)[|a + b| - 1] == b[|b| - 1];
      ArgsToAppend(h, a, b');
    }
  }

  lemma ArgsToSingle(h: Handler, c: Invocation)
    ensures ArgsTo(h, [c]) == (if c.handler == h then [c.arg] else [])
  {
    assert [c][..0] == [];
  }

  /** The calls one `emitEvent` makes reach `h` exactly as `Expected` says for that one event. */
  lemma EmitEventReaches(hooks: set<Handler>, h: Handler, e: Emitted)
    ensures ArgsTo(h, EmitEvent(hooks, e.kind, e.ms, e.error)) == (if h in hooks then Expected(h, [e]) else [])
  {
    var m := if On in hooks then [Invocation(On, Multiplexed(e.kind, e.ms, e.error))] else [];
    var p := if KindHandler(e.kind) !in hooks then []
             else if e.kind == Error then [Invocation(OnError, Failure(e.error))]
             else [Invocation(KindHandler(e.kind), Millis(e.ms))];
    var arg := if e.kind == Error then Failure(e.error) else Millis(e.ms);
    var mine := if h == On then [Multiplexed(e.kind, e.ms, e.error)]
                else if h == KindHandler(e.kind) then [arg]
                else [];
    assert Expected(h, [e]) == mine by {
      assert [e][..0] == [];
      KindHandlerNamed(h, e.kind);
    }
    assert EmitEvent(hooks, e.kind, e.ms, e.error) == m + p;
    ArgsToAppend(h, m, p);
    assert ArgsTo(h, m) == if On in hooks && h == On then [Multiplexed(e.kind, e.ms, e.error)] else [] by {
      if m != [] { ArgsToSingle(h, m[0]); }
    }
    assert ArgsTo(h, p) == if KindHandler(e.kind) in hooks && h == KindHandler(e.kind) then [arg] else [] by {
      if p != [] { ArgsToSingle(h, p[0]); }
    }
  }

  /** The fan-out is exact over a whole trace: every registered hook receives precisely the
      arguments of `Expected`, each event once and in emission order; an absent hook receives nothing. */
  lemma {:induction false} DispatchIsExact(hooks: set<Handler>, h: Handler, evs: seq<Emitted>)
    ensures ArgsTo(h, Dispatched(hooks, evs)) == (if h in hooks then Expected(h, evs) else [])
    decreases |evs|
  {
    if evs != [] {
      var init, e := evs[..|evs| - 1], evs[|evs| - 1];
      var before, now := Dispatched(hooks, init), EmitEvent(hooks, e.kind, e.ms, e.error);
      assert Dispatched(hooks, evs) == before + now;
      assert ArgsTo(h, before + now) == ArgsTo(h, before) + ArgsTo(h, now) by {
        ArgsToAppend(h, before, now);
      }
      assert ArgsTo(h, before) == (if h in hooks then Expected(h, init) else []) by {
        DispatchIsExact(hooks, h, init);
      }
      assert ArgsTo(h, now) == (if h in hooks then Expected(h, [e]) else []) by {
        EmitEventReaches(hooks, h, e);
      }
      ExpectedSnoc(h, evs);
    }
  }

  /** `Expected` over a stream is `Expected` over all but the last event, then over the last one. */
  lemma ExpectedSnoc(h: Handler, evs: seq<Emitted>)
    requires evs != []
    ensures Expected(h, evs) == Expected(h, evs[..|evs| - 1]) + Expected(h, [evs[|evs| - 1]])
  {
    assert [evs[|evs| - 1]][..0] == [];
  }

  // Properties of the stream of events of one trace, stated over positions.

  ghost predicate Has(evs: seq<Emitted>, k: EventType)
  {
    exists i :: 0 <= i < |evs| && evs[i].kind == k
  }

  ghost predicate AtMostOnce(evs: seq<Emitted>, k: EventType)
  {
    forall i, j :: 0 <= i < |evs| && 0 <= j < |evs| && evs[i].kind == k && evs[j].kind == k ==> i == j
  }

  /** Every `a` event comes before every `b` event. */
  ghost predicate Precedes(evs: seq<Emitted>, a: EventType, b: EventType)
  {
    forall i, j :: 0 <= i < |evs| && 0 <= j < |evs| && evs[i].kind == a && evs[j].kind == b ==> i < j
  }

  /** `dns` and `connect` always come as an adjacent pair, `dns` first. */
  ghost predicate DnsPairedWithConnect(evs: seq<Emitted>)
  {
    && (forall j :: 0 <= j < |evs| && evs[j].kind == Connect ==> 0 < j && evs[j - 1].kind == Dns)
    && (forall i :: 0 <= i < |evs| && evs[i].kind == Dns ==> i + 1 < |evs| && evs[i + 1].kind == Connect)
  }

  /** Elapsed times never decrease along the stream. */
  ghost predicate Chronological(evs: seq<Emitted>)
  {
    forall i, j :: 0 <= i < j < |evs| ==> evs[i].ms <= evs[j].ms
  }

  /** The ordering facts of a trace: each phase and `timeout` at most once, `dns` right before
      `connect`, and `dns` < `connect` < `tls` < `ttfb` < `ttlb` in emission order. */
  ghost predicate WellOrdered(evs: seq<Emitted>)
  {
    && AtMostOnce(evs, Dns) && AtMostOnce(evs, Connect) && AtMostOnce(evs, Tls)
    && AtMostOnce(evs, Ttfb) && AtMostOnce(evs, Ttlb) && AtMostOnce(evs, Timeout)
    && DnsPairedWithConnect(evs)
    && Precedes(evs, Dns, Connect) && Precedes(evs, Connect, Tls) && Precedes(evs, Connect, Ttfb)
    && Precedes(evs, Tls, Ttfb) && Precedes(evs, Ttfb, Ttlb)
  }

  // The same facts, checked by a left-to-right scan that keeps a few flags.

  /** What a scan of a stream has seen so far; `pending` means the last event was `dns`. */
  datatype Scan = Scan(ok: bool, dns: bool, connect: bool, tls: bool, ttfb: bool, ttlb: bool,
                       timeout: bool, pending: bool, last: nat)

  /** May `e` come next? */
  predicate Allowed(s: Scan, e: Emitted)
  {
    && s.last <= e.ms
    && (s.pending <==> e.kind == Connect)
    && match e.kind
       case Dns => !s.dns && !s.ttfb
       case Connect => true
       case Tls => s.connect && !s.tls && !s.ttfb
       case Ttfb => !s.ttfb
       case Ttlb => s.ttfb && !s.ttlb
       case Timeout => !s.timeout
       case Error => true
  }

  function Step(s: Scan, e: Emitted): Scan
  {
    Scan(s.ok && Allowed(s, e),
         s.dns || e.kind == Dns, s.connect || e.kind == Connect, s.tls || e.kind == Tls,
         s.ttfb || e.kind == Ttfb, s.ttlb || e.kind == Ttlb, s.timeout || e.kind == Timeout,
         e.kind == Dns, e.ms)
  }

  function Run(evs: seq<Emitted>): Scan
    decreases |evs|
  {
    if evs == [] then Scan(true, false, false, false, false, false, false, false, 0)
    else Step(Run(evs[..|evs| - 1]), evs[|evs| - 1])
  }

  lemma RunSnoc(evs: seq<Emitted>, e: Emitted)
    ensures Run(evs + [e]) == Step(Run(evs), e)
  {
    assert (evs + [e])[..|evs|] == evs;
  }

  /** A scan that accepted its input only ever records flags in this combination. */
  ghost predicate Consistent(s: Scan)
  {
    s.ok ==>
      && (s.connect ==> s.dns) && (s.tls ==> s.connect) && (s.ttlb ==> s.ttfb)
      && (s.pending ==> s.dns && !s.connect && !s.tls && !s.ttfb && !s.ttlb)
  }

  lemma {:induction false} RunConsistent(evs: seq<Emitted>)
    ensures Consistent(Run(evs))
    decreases |evs|
  {
    if evs != [] {
      RunConsistent(evs[..|evs| - 1]);
    }
  }

  /** The scan's flags say exactly which kinds occur. */
  lemma {:induction false} RunFlags(evs: seq<Emitted>)
    ensures Run(evs).dns <==> Has(evs, Dns)
    ensures Run(evs).connect <==> Has(evs, Connect)
    ensures Run(evs).tls <==> Has(evs, Tls)
    ensures Run(evs).ttfb <==> Has(evs, Ttfb)
    ensures Run(evs).ttlb <==> Has(evs, Ttlb)
    ensures Run(evs).timeout <==> Has(evs, Timeout)
    ensures Run(evs).pending <==> evs != [] && evs[|evs| - 1].kind == Dns
    ensures evs != [] ==> Run(evs).last == evs[|evs| - 1].ms
    decreases |evs|
  {
    if evs != [] {
      var init, e := evs[..|evs| - 1], evs[|evs| - 1];
      RunFlags(init);
      assert evs == init + [e];
      HasSnoc(init, e);
    }
  }

  lemma HasSnoc(evs: seq<Emitted>, e: Emitted)
    ensures forall k :: Has(evs + [e], k) <==> Has(evs, k) || e.kind == k
  {
    forall k | Has(evs + [e], k) ensures Has(evs, k) || e.kind == k {
      var i :| 0 <= i < |evs + [e]| && (evs + [e])[i].kind == k;
      if i < |evs| { assert evs[i].kind == k; }
    }
    forall k | Has(evs, k) ensures Has(evs + [e], k) {
      var i :| 0 <= i < |evs| && evs[i].kind == k;
      assert (evs + [e])[i].kind == k;
    }
    assert (evs + [e])[|evs|] == e;
  }

  /** An accepted stream is chronological and bounded by its last time. */
  lemma {:induction false} RunChronological(evs: seq<Emitted>)
    requires Run(evs).ok
    ensures Chronological(evs)
    ensures forall i :: 0 <= i < |evs| ==> evs[i].ms <= Run(evs).last
    decreases |evs|
  {
    if evs != [] {
      var init, e := evs[..|evs| - 1], evs[|evs| - 1];
      assert evs == init + [e];
      RunChronological(init);
      if init != [] { RunFlags(init); }
      assert forall i :: 0 <= i < |init| ==> evs[i] == init[i];
    }
  }

  lemma {:induction false} RunAtMostOnce(evs: seq<Emitted>, k: EventType)
    requires Run(evs).ok && k != Error
    ensures AtMostOnce(evs, k)
    decreases |evs|
  {
    if evs != [] {
      var init, e := evs[..|evs| - 1], evs[|evs| - 1];
      assert evs == init + [e];
      RunAtMostOnce(init, k);
      RunFlags(init);
      RunConsistent(init);
      assert forall i :: 0 <= i < |init| ==> evs[i] == init[i];
    }
  }

  /** The pairs that `WellOrdered` orders. */
  predicate OrderedPair(a: EventType, b: EventType)
  {
    (a, b) in {(Dns, Connect), (Connect, Tls), (Connect, Ttfb), (Tls, Ttfb), (Ttfb, Ttlb)}
  }

  lemma {:induction false} RunPrecedes(evs: seq<Emitted>, a: EventType, b: EventType)
    requires Run(evs).ok && OrderedPair(a, b)
    ensures Precedes(evs, a, b)
    decreases |evs|
  {
    if evs != [] {
      var init, e := evs[..|evs| - 1], evs[|evs| - 1];
      assert evs == init + [e];
      RunPrecedes(init, a, b);
      RunFlags(init);
      RunConsistent(init);
      assert e.kind == a ==> !Has(init, b);
      assert forall i :: 0 <= i < |init| ==> evs[i] == init[i];
    }
  }

  lemma {:induction false} RunConnectAfterDns(evs: seq<Emitted>)
    requires Run(evs).ok
    ensures forall j :: 0 <= j < |evs| && evs[j].kind == Connect ==> 0 < j && evs[j - 1].kind == Dns
    decreases |evs|
  {
    if evs != [] {
      var init, e := evs[..|evs| - 1], evs[|evs| - 1];
      assert evs == init + [e];
      RunConnectAfterDns(init);
      RunFlags(init);
      assert forall i :: 0 <= i < |init| ==> evs[i] == init[i];
    }
  }

  lemma {:induction false} RunDnsBeforeConnect(evs: seq<Emitted>)
    requires Run(evs).ok
    ensures forall i :: 0 <= i < |evs| - 1 && evs[i].kind == Dns ==> evs[i + 1].kind == Connect
    decreases |evs|
  {
    if evs != [] {
      var init, e := evs[..|evs| - 1], evs[|evs| - 1];
      assert evs == init + [e];
      RunDnsBeforeConnect(init);
      RunFlags(init);
      assert forall i :: 0 <= i < |init| ==> evs[i] == init[i];
    }
  }

  /** The scan is sound: a stream it accepts, ending in no dangling `dns`, has every ordering
      property of `WellOrdered` and is chronological. */
  lemma RunSound(evs: seq<Emitted>)
    requires Run(evs).ok && !Run(evs).pending
    ensures WellOrdered(evs) && Chronological(evs)
  {
    RunAtMostOnce(evs, Dns);
    RunAtMostOnce(evs, Connect);
    RunAtMostOnce(evs, Tls);
    RunAtMostOnce(evs, Ttfb);
    RunAtMostOnce(evs, Ttlb);
    RunAtMostOnce(evs, Timeout);
    RunPrecedes(evs, Dns, Connect);
    RunPrecedes(evs, Connect, Tls);
    RunPrecedes(evs, Connect, Ttfb);
    RunPrecedes(evs, Tls, Ttfb);
    RunPrecedes(evs, Ttfb, Ttlb);
    RunConnectAfterDns(evs);
    RunDnsBeforeConnect(evs);
    RunFlags(evs);
    RunChronological(evs);
  }
}
