/**
  `runCli` (src/cli.ts): read the URL argument, default its scheme, then trace
  hop after hop, following redirects until a final response or until
  `MAX_REDIRECTS` redirects have been followed.

  A hop's trace is the oracle `trace(i, u)`: the status and the `location` header
  of the response the `i`-th call of `fetchTrace`, on URL `u`, resolves with, so a
  URL visited twice may be answered differently each time. Resolving a `Location`
  value against the current URL (`new URL(location, base)`) is the opaque
  function `resolve`.
 */
module Cli {
  import opened Wrappers
  import opened TraceEvents

  const MAX_REDIRECTS: nat := 10

  /** What one hop's trace tells the walker: the status and `response.headers.get('location')`. */
  datatype Reply = Reply(status: int, location: Option<string>)

  /** How a run ends: the usage message (exit 1), the final response of the last hop, or the
      over-limit error (exit 1). `traced` are the URLs handed to `fetchTrace`, `shown` the URL lines
      printed, in order. */
  datatype CliResult =
    | Usage
    | Finished(final: Reply, traced: seq<string>, shown: seq<string>)
    | TooManyRedirects(traced: seq<string>, shown: seq<string>)

  /** The process exit status: `process.exit(1)` on usage and over-limit, a normal exit otherwise. */
  function ExitCode(r: CliResult): (code: int)
    ensures code == 1 <==> !r.Finished?
  {
    if r.Finished? then 0 else 1
  }

  // Strings.

  /** `p` occurs in `s` at position `i`. */
  predicate MatchesAt(s: string, p: string, i: int)
  {
    0 <= i && i + |p| <= |s| && s[i..i + |p|] == p
  }

  /** `s.includes(p)`, searching from the front. */
  function Includes(s: string, p: string): bool
    decreases |s|
  {
    if |s| < |p| then false
    else if s[..|p|] == p then true
    else Includes(s[1..], p)
  }

  /** The search finds `p` exactly when it occurs somewhere in `s`, not only at the start. */
  lemma {:induction false} IncludesIffMatch(s: string, p: string)
    ensures Includes(s, p) <==> exists i :: MatchesAt(s, p, i)
    decreases |s|
  {
    if |s| < |p| {
    } else if s[..|p|] == p {
      assert MatchesAt(s, p, 0);
    } else {
      IncludesIffMatch(s[1..], p);
      if exists i :: MatchesAt(s[1..], p, i) {
        var i :| MatchesAt(s[1..], p, i);
        assert s[1..][i..i + |p|] == s[i + 1..i + 1 + |p|];
        assert MatchesAt(s, p, i + 1);
      }
      assert !MatchesAt(s, p, 0) by {
        assert s[0..|p|] == s[..|p|];
      }
      if exists i :: MatchesAt(s, p, i) {
        var i :| MatchesAt(s, p, i);
        assert s[1..][i - 1..i - 1 + |p|] == s[i..i + |p|];
        assert MatchesAt(s[1..], p, i - 1);
      }
    }
  }

  const SchemeSeparator := "://"

  /** Lines 11-14: `http://` is prefixed exactly when `://` occurs nowhere in the argument. */
  function WithScheme(url: string): (r: string)
    ensures Includes(r, SchemeSeparator)
    ensures (exists i :: MatchesAt(url, SchemeSeparator, i)) ==> r == url
    ensures (forall i :: !MatchesAt(url, SchemeSeparator, i)) ==> r == "http://" + url
  {
    IncludesIffMatch(url, SchemeSeparator);
    if Includes(url, SchemeSeparator) then url
    else
      var r := "http://" + url;
      assert r[4..7] == SchemeSeparator;
      IncludesIffMatch(r, SchemeSeparator);
      assert MatchesAt(r, SchemeSeparator, 4);
      r
  }

  /** `s.replace(/\/$/, '')`: at most one trailing `/` is dropped. */
  function Displayed(s: string): (r: string)
    ensures |s| > 0 && s[|s| - 1] == '/' ==> r + "/" == s
    ensures !(|s| > 0 && s[|s| - 1] == '/') ==> r == s
  {
    if |s| > 0 && s[|s| - 1] == '/' then s[..|s| - 1] else s
  }

  /** Only one slash goes: a URL ending in `//` is shown ending in `/`. */
  lemma DisplayedStripsOnce(s: string)
    requires |s| >= 2 && s[|s| - 1] == '/' && s[|s| - 2] == '/'
    ensures Displayed(s) == s[..|s| - 1]
    ensures |Displayed(s)| > 0 && Displayed(s)[|Displayed(s)| - 1] == '/'
    ensures Displayed(Displayed(s)) == s[..|s| - 2]
  {
  }

  /** The line printed for each URL. */
  function DisplayAll(urls: seq<string>): (lines: seq<string>)
    ensures |lines| == |urls| && forall i :: 0 <= i < |urls| ==> lines[i] == Displayed(urls[i])
  {
    seq(|urls|, i requires 0 <= i < |urls| => Displayed(urls[i]))
  }

  // Progress labels.

  /** The labels a fresh connection walks through, in order. */
  const Phases: seq<string> := ["dns", "connect", "tls", "ttfb", "ttlb"]

  /** Lines 59-67: the label `showProgress` starts after the `on` hook sees `e`. */
  function NextLabel(e: EventType): (r: Option<string>)
    ensures r.Some? <==> EventName(e) in Phases[..4]
    ensures r.Some? ==> exists i :: 0 <= i < 4 && Phases[i] == EventName(e) && Phases[i + 1] == r.value
    ensures e == Ttlb || e == Timeout || e == Error ==> r.None?
  {
    match e
    case Dns => assert Phases[0] == "dns" && Phases[1] == "connect"; Some("connect")
    case Connect => assert Phases[1] == "connect" && Phases[2] == "tls"; Some("tls")
    case Tls => assert Phases[2] == "tls" && Phases[3] == "ttfb"; Some("ttfb")
    case Ttfb => assert Phases[3] == "ttfb" && Phases[4] == "ttlb"; Some("ttlb")
    case _ => None
  }

  /** Line 39 and lines 59-67: every progress label one hop shows, in order, starting from `dns`. */
  function Progress(kinds: seq<EventType>): (labels: seq<string>)
    ensures |labels| >= 1 && labels[0] == Phases[0]
    decreases |kinds|
  {
    if kinds == [] then [Phases[0]]
    else
      var labels := Progress(kinds[..|kinds| - 1]);
      match NextLabel(kinds[|kinds| - 1])
      case Some(l) => labels + [l]
      case None => labels
  }

  /** A fresh connection over https shows every phase label in order. */
  lemma ProgressOverFreshTls()
    ensures Progress([Dns, Connect, Tls, Ttfb, Ttlb]) == Phases
  {
    assert [Dns, Connect, Tls, Ttfb, Ttlb][..4] == [Dns, Connect, Tls, Ttfb];
    assert [Dns, Connect, Tls, Ttfb][..3] == [Dns, Connect, Tls];
    assert [Dns, Connect, Tls][..2] == [Dns, Connect];
    assert [Dns, Connect][..1] == [Dns];
    assert [Dns][..0] == [];
  }

  /** A reused socket reports only `ttfb` and `ttlb`: the `dns` label shown first is followed
      directly by `ttlb`, the label started after `ttfb`. */
  lemma ProgressOverReusedSocket()
    ensures Progress([Ttfb, Ttlb]) == [Phases[0], Phases[4]]
  {
    assert [Ttfb, Ttlb][..1] == [Ttfb];
    assert [Ttfb][..0] == [];
  }

  /** Where a label stands in `Phases` (5 for a label that is not one). */
  function Rank(name: string): (k: nat)
    ensures k < 5 <==> name in Phases
    ensures k < 5 ==> Phases[k] == name
  {
    if name == Phases[0] then 0
    else if name == Phases[1] then 1
    else if name == Phases[2] then 2
    else if name == Phases[3] then 3
    else if name == Phases[4] then 4
    else 5
  }

  /** The kind of each event, in order: what the `on` hook is called with. */
  function Kinds(evs: seq<Emitted>): (kinds: seq<EventType>)
    ensures |kinds| == |evs| && forall i :: 0 <= i < |evs| ==> kinds[i] == evs[i].kind
  {
    seq(|evs|, i requires 0 <= i < |evs| => evs[i].kind)
  }

  /** The furthest connection phase a scan has seen: -1 before any, 3 once `ttfb` came. */
  function Reached(s: Scan): int
  {
    if s.ttfb then 3 else if s.tls then 2 else if s.connect then 1 else if s.dns then 0 else -1
  }

  /** Each label stands further along `Phases` than the one before it. */
  predicate Ascends(labels: seq<string>)
  {
    forall i, j :: 0 <= i < j < |labels| ==> Rank(labels[i]) < Rank(labels[j])
  }

  lemma AscendsSnoc(labels: seq<string>, next: string)
    requires |labels| > 0 && Ascends(labels) && Rank(labels[|labels| - 1]) < Rank(next)
    ensures Ascends(labels + [next])
  {
    var all := labels + [next];
    forall i, j | 0 <= i < j < |all| ensures Rank(all[i]) < Rank(all[j]) {
      if j == |labels| && i < |labels| - 1 {
        assert Rank(labels[i]) < Rank(labels[|labels| - 1]);
      }
    }
  }

  /** For the events of one trace, in any order the scan accepts (every reachable session's events,
      by `Inv`), the labels shown are phases in the order of `Phases`, each at most once, and the one
      shown last is the phase after the furthest one reached. */
  lemma {:induction false} ProgressAscends(evs: seq<Emitted>)
    requires Run(evs).ok
    ensures var labels := Progress(Kinds(evs));
      && (forall i :: 0 <= i < |labels| ==> labels[i] in Phases)
      && Ascends(labels)
      && Rank(labels[|labels| - 1]) == Reached(Run(evs)) + 1
    decreases |evs|
  {
    if evs != [] {
      var init, e := evs[..|evs| - 1], evs[|evs| - 1];
      var s0, s1 := Run(init), Run(evs);
      assert s1 == Step(s0, e);
      assert Kinds(evs)[..|evs| - 1] == Kinds(init) && Kinds(evs)[|evs| - 1] == e.kind;
      var before, labels := Progress(Kinds(init)), Progress(Kinds(evs));
      assert s0.ok && Consistent(s0) && Allowed(s0, e) by { RunConsistent(init); }
      ProgressAscends(init);
      assert Rank(before[|before| - 1]) == Reached(s0) + 1;
      LabelRank(s0, e);
      if NextLabel(e.kind).Some? {
        var next := NextLabel(e.kind).value;
        assert labels == before + [next];
        assert Rank(next) == Reached(s1) + 1 && Rank(before[|before| - 1]) < Rank(next);
        assert Ascends(labels) by { AscendsSnoc(before, next); }
      } else {
        assert labels == before && Reached(s1) == Reached(s0);
      }
    }
  }

  /** An event that starts a label reaches a phase beyond every one reached before it, and the
      label stands right after that phase; any other event reaches nothing new. */
  lemma LabelRank(s: Scan, e: Emitted)
    requires s.ok && Consistent(s) && Allowed(s, e)
    ensures NextLabel(e.kind).Some? ==>
      Reached(s) < Reached(Step(s, e)) && Rank(NextLabel(e.kind).value) == Reached(Step(s, e)) + 1
    ensures NextLabel(e.kind).None? ==> Reached(Step(s, e)) == Reached(s)
  {
  }

  // Redirects.

  /** Lines 77-78: a 3xx status with a present, non-empty `location`; a 3xx without one is final. */
  predicate IsRedirect(r: Reply)
  {
    300 <= r.status < 400 && r.location.Some? && r.location.value != ""
  }

  /** Line 81: the URL that the redirect answered by trace number `hop` leads to. */
  function Follow(url: string, trace: (nat, string) -> Reply, resolve: (string, string) -> string, hop: nat): string
    requires IsRedirect(trace(hop, url))
  {
    resolve(trace(hop, url).location.value, url)
  }

  /** The URLs traced from `url`, the `hop`-th trace of the run, with `budget` traces left: stop after
      a reply that is not a redirect, or when the budget is spent. */
  function Hops(url: string, trace: (nat, string) -> Reply, resolve: (string, string) -> string, hop: nat, budget: nat): seq<string>
    decreases budget
  {
    if budget == 0 then []
    else if IsRedirect(trace(hop, url)) then [url] + Hops(Follow(url, trace, resolve, hop), trace, resolve, hop + 1, budget - 1)
    else [url]
  }

  /** Every value `currentUrl` takes, from `url` on: the traced URLs and, when the budget runs out
      on a redirect, the target that is printed but never traced. */
  function Visits(url: string, trace: (nat, string) -> Reply, resolve: (string, string) -> string, hop: nat, budget: nat): seq<string>
    decreases budget
  {
    if budget > 0 && IsRedirect(trace(hop, url)) then [url] + Visits(Follow(url, trace, resolve, hop), trace, resolve, hop + 1, budget - 1)
    else [url]
  }

  /** The walk ran every one of its `budget` traces and each of them answered with a redirect. */
  predicate Exhausted(url: string, trace: (nat, string) -> Reply, resolve: (string, string) -> string, hop: nat, budget: nat)
  {
    var hops := Hops(url, trace, resolve, hop, budget);
    |hops| == budget && (budget > 0 ==> IsRedirect(trace(hop + budget - 1, hops[budget - 1])))
  }

  /** The walk in terms of hops: it starts at `url`, never runs more than `budget` traces, each hop
      but the last was answered with a redirect to the next one, and the last one with a final
      response unless the budget ran out. */
  lemma {:induction false} HopsChain(url: string, trace: (nat, string) -> Reply, resolve: (string, string) -> string, hop: nat, budget: nat)
    ensures var hops := Hops(url, trace, resolve, hop, budget);
      && |hops| <= budget
      && (budget > 0 ==> |hops| > 0 && hops[0] == url)
      && (forall i :: 0 <= i < |hops| - 1 ==>
            IsRedirect(trace(hop + i, hops[i])) && hops[i + 1] == Follow(hops[i], trace, resolve, hop + i))
      && (0 < |hops| < budget ==> !IsRedirect(trace(hop + |hops| - 1, hops[|hops| - 1])))
    decreases budget
  {
    if budget > 0 && IsRedirect(trace(hop, url)) {
      var next := Follow(url, trace, resolve, hop);
      HopsChain(next, trace, resolve, hop + 1, budget - 1);
      var rest := Hops(next, trace, resolve, hop + 1, budget - 1);
      var hops := [url] + rest;
      assert forall i :: 0 < i < |hops| ==> hops[i] == rest[i - 1];
    }
  }

  /** The bound triggers iff every one of the `budget` traced replies was a redirect; the URLs
      printed are the traced ones plus, exactly then, the one redirect target left untraced. */
  lemma {:induction false} VisitsExtendHops(url: string, trace: (nat, string) -> Reply, resolve: (string, string) -> string, hop: nat, budget: nat)
    requires budget > 0
    ensures var hops := Hops(url, trace, resolve, hop, budget);
      && |hops| > 0
      && Visits(url, trace, resolve, hop, budget) ==
           hops + (if Exhausted(url, trace, resolve, hop, budget)
                   then [Follow(hops[|hops| - 1], trace, resolve, hop + |hops| - 1)] else [])
      && (Exhausted(url, trace, resolve, hop, budget) <==> |Visits(url, trace, resolve, hop, budget)| == budget + 1)
    decreases budget
  {
    if IsRedirect(trace(hop, url)) {
      var next := Follow(url, trace, resolve, hop);
      if budget > 1 {
        var rest := Hops(next, trace, resolve, hop + 1, budget - 1);
        var hops := [url] + rest;
        assert Hops(url, trace, resolve, hop, budget) == hops;
        assert Visits(url, trace, resolve, hop, budget) == [url] + Visits(next, trace, resolve, hop + 1, budget - 1);
        assert Exhausted(url, trace, resolve, hop, budget) <==> Exhausted(next, trace, resolve, hop + 1, budget - 1) by {
          ExhaustedStep(url, trace, resolve, hop, budget);
        }
        VisitsExtendHops(next, trace, resolve, hop + 1, budget - 1);
        assert hops[|hops| - 1] == rest[|rest| - 1];
      } else {
        assert Visits(next, trace, resolve, hop + 1, 0) == [next];
      }
    }
  }

  /** Only the bound cuts a walk short: with a larger budget the walk goes on from where the smaller
      one stopped, and a walk that ended on a final reply stays the same walk. */
  lemma {:induction false} HopsExtend(url: string, trace: (nat, string) -> Reply, resolve: (string, string) -> string,
                                      hop: nat, small: nat, large: nat)
    requires small <= large
    ensures Hops(url, trace, resolve, hop, small) <= Hops(url, trace, resolve, hop, large)
    ensures !Exhausted(url, trace, resolve, hop, small) ==> Hops(url, trace, resolve, hop, small) == Hops(url, trace, resolve, hop, large)
    decreases small
  {
    if small > 0 && IsRedirect(trace(hop, url)) {
      var next := Follow(url, trace, resolve, hop);
      HopsExtend(next, trace, resolve, hop + 1, small - 1, large - 1);
      ExhaustedStep(url, trace, resolve, hop, small);
    }
  }

  /** Lines 4-98. `arg` is `process.argv[2]`; `trace(i, u)` is what the `i`-th call of `fetchTrace`
      in the run answers for `u`. */
  method RunCli(arg: Option<string>, trace: (nat, string) -> Reply, resolve: (string, string) -> string) returns (r: CliResult)
    ensures r.Usage? <==> arg.None? || arg.value == ""
    ensures !r.Usage? ==> r.traced == Hops(WithScheme(arg.value), trace, resolve, 0, MAX_REDIRECTS)
    ensures !r.Usage? ==> r.shown == DisplayAll(Visits(WithScheme(arg.value), trace, resolve, 0, MAX_REDIRECTS))
    ensures !r.Usage? ==> (r.TooManyRedirects? <==> Exhausted(WithScheme(arg.value), trace, resolve, 0, MAX_REDIRECTS))
    ensures r.Finished? ==> |r.traced| > 0 && r.final == trace(|r.traced| - 1, r.traced[|r.traced| - 1]) && !IsRedirect(r.final)
  {
    if arg.None? || arg.value == "" {
      return Usage;
    }
    var url := arg.value;
    if !Includes(url, SchemeSeparator) {
      url := "http://" + url;
    }
    assert url == WithScheme(arg.value) by {
      IncludesIffMatch(arg.value, SchemeSeparator);
    }
    r := FollowRedirects(url, trace, resolve);
  }

  /** Lines 25-97: the redirect loop from `url`, which prints its first line up front, then one line
      per redirect followed; it ends on a final response or after `MAX_REDIRECTS` redirects. */
  method FollowRedirects(url: string, trace: (nat, string) -> Reply, resolve: (string, string) -> string) returns (r: CliResult)
    ensures !r.Usage?
    ensures r.traced == Hops(url, trace, resolve, 0, MAX_REDIRECTS)
    ensures r.shown == DisplayAll(Visits(url, trace, resolve, 0, MAX_REDIRECTS))
    ensures r.TooManyRedirects? <==> Exhausted(url, trace, resolve, 0, MAX_REDIRECTS)
    ensures r.Finished? ==> |r.traced| > 0 && r.final == trace(|r.traced| - 1, r.traced[|r.traced| - 1]) && !IsRedirect(r.final)
  {
    var currentUrl := url;
    var redirectCount := 0;
    var traced: seq<string> := [];
    var shown := [Displayed(currentUrl)];
    var final: Option<Reply> := None;
    ghost var visits := Visits(currentUrl, trace, resolve, redirectCount, MAX_REDIRECTS - redirectCount);
    assert traced + visits == visits;
    while redirectCount < MAX_REDIRECTS
      invariant 0 <= redirectCount <= MAX_REDIRECTS && |traced| == redirectCount
      invariant traced + Visits(currentUrl, trace, resolve, redirectCount, MAX_REDIRECTS - redirectCount) == visits
      invariant shown == DisplayAll(traced + [currentUrl])
      decreases MAX_REDIRECTS - redirectCount
    {
      var reply := trace(redirectCount, currentUrl);
      ghost var url0, traced0, count0 := currentUrl, traced, redirectCount;
      traced := traced + [currentUrl];
      if IsRedirect(reply) {
        var nextUrl := resolve(reply.location.value, currentUrl);
        ghost var shown0 := shown;
        shown := shown + [Displayed(nextUrl)];
        ShownStep(traced, nextUrl, shown0, shown);
        currentUrl := nextUrl;
        redirectCount := redirectCount + 1;
        RedirectStep(url0, currentUrl, trace, resolve, count0, redirectCount, traced0, traced, visits);
      } else {
        final := Some(reply);
        FinalStep(url0, trace, resolve, count0, traced0, traced, visits);
        break;
      }
    }
    WalkEnds(url, currentUrl, trace, resolve, traced, visits, redirectCount >= MAX_REDIRECTS);
    if redirectCount >= MAX_REDIRECTS {
      return TooManyRedirects(traced, shown);
    }
    return Finished(final.value, traced, shown);
  }

  /** Printing the line for a redirect target keeps the lines printed those of the URLs visited. */
  lemma ShownStep(visited: seq<string>, next: string, shown: seq<string>, shown': seq<string>)
    requires shown == DisplayAll(visited) && shown' == shown + [Displayed(next)]
    ensures shown' == DisplayAll(visited + [next])
  {
  }

  lemma AppendAssoc(a: seq<string>, b: seq<string>, c: seq<string>)
    ensures (a + b) + c == a + (b + c)
  {
  }

  /** Following a redirect with traces left: the walk from the target continues the walk from here. */
  lemma RedirectStep(url: string, next: string, trace: (nat, string) -> Reply, resolve: (string, string) -> string,
                     hop: nat, hop': nat, traced: seq<string>, traced': seq<string>, visits: seq<string>)
    requires hop < MAX_REDIRECTS && hop' == hop + 1
    requires IsRedirect(trace(hop, url)) && next == Follow(url, trace, resolve, hop)
    requires traced' == traced + [url] && traced + Visits(url, trace, resolve, hop, MAX_REDIRECTS - hop) == visits
    ensures traced' + Visits(next, trace, resolve, hop', MAX_REDIRECTS - hop') == visits
  {
    var v := Visits(next, trace, resolve, hop', MAX_REDIRECTS - hop');
    assert Visits(url, trace, resolve, hop, MAX_REDIRECTS - hop) == [url] + v;
    AppendAssoc(traced, [url], v);
  }

  /** A final response with traces left ends the walk at the URL just traced, the last one traced. */
  lemma FinalStep(url: string, trace: (nat, string) -> Reply, resolve: (string, string) -> string,
                  hop: nat, traced: seq<string>, traced': seq<string>, visits: seq<string>)
    requires hop < MAX_REDIRECTS && !IsRedirect(trace(hop, url))
    requires |traced| == hop && traced' == traced + [url] && traced + Visits(url, trace, resolve, hop, MAX_REDIRECTS - hop) == visits
    ensures traced' == visits && |traced'| <= MAX_REDIRECTS
    ensures trace(|traced'| - 1, traced'[|traced'| - 1]) == trace(hop, url)
  {
    assert Visits(url, trace, resolve, hop, MAX_REDIRECTS - hop) == [url];
  }

  /** How the loop's exit state answers the walk's questions: after a final reply the URLs traced are
      the walk and it was not exhausted; after `MAX_REDIRECTS` redirects they are all but the last
      URL printed, which is the one redirect target left untraced, and the walk was exhausted. */
  lemma WalkEnds(url: string, last: string, trace: (nat, string) -> Reply, resolve: (string, string) -> string,
                 traced: seq<string>, visits: seq<string>, exhausted: bool)
    requires visits == Visits(url, trace, resolve, 0, MAX_REDIRECTS)
    requires exhausted ==> |traced| == MAX_REDIRECTS && traced + Visits(last, trace, resolve, MAX_REDIRECTS, MAX_REDIRECTS - MAX_REDIRECTS) == visits
    requires !exhausted ==> traced == visits && |traced| <= MAX_REDIRECTS
    ensures traced == Hops(url, trace, resolve, 0, MAX_REDIRECTS)
    ensures exhausted <==> Exhausted(url, trace, resolve, 0, MAX_REDIRECTS)
    ensures exhausted ==> visits == traced + [last]
  {
    VisitsExtendHops(url, trace, resolve, 0, MAX_REDIRECTS);
    var hops := Hops(url, trace, resolve, 0, MAX_REDIRECTS);
    if exhausted {
      assert visits == traced + [last];
      assert visits[..MAX_REDIRECTS] == traced;
      assert visits[..MAX_REDIRECTS] == hops;
    }
  }

  /** A redirect with traces left passes the question of exhaustion on to its target. */
  lemma ExhaustedStep(url: string, trace: (nat, string) -> Reply, resolve: (string, string) -> string, hop: nat, budget: nat)
    requires budget > 0 && IsRedirect(trace(hop, url))
    ensures Exhausted(url, trace, resolve, hop, budget) <==> Exhausted(Follow(url, trace, resolve, hop), trace, resolve, hop + 1, budget - 1)
  {
    var rest := Hops(Follow(url, trace, resolve, hop), trace, resolve, hop + 1, budget - 1);
    if budget > 1 && |rest| == budget - 1 {
      assert ([url] + rest)[budget - 1] == rest[budget - 2];
    }
  }
}
