/** What holds of every run of the rate limiter, however its requests interleave. */
module LimiterTheorems {
  import opened Common
  import opened RateLimiter
  import opened LimiterRuns
  import opened LimiterInvariant
  import opened LimiterSteps

  /** The state a run from an empty server ends in. */
  ghost function After(cfg: Routes, start: Time, run: seq<Label>): State
    requires Legal(cfg, Init(start), run)
  {
    Exec(cfg, Init(start), run)
  }

  // ---- Ownership of a counter's lifetime ----

  /** A counter without a deadline belongs to exactly one call in flight, the one whose INCR opened
      its window, unless the DEL of an earlier owner has failed or that INCR has lost its reply. */
  lemma CounterOwnership(cfg: Routes, start: Time, run: seq<Label>, k: string) returns (c: nat)
    requires Legal(cfg, Init(start), run)
    requires var s := After(cfg, start, run); k in s.db && s.db[k].deadline == None && k !in s.stranded
    ensures var s := After(cfg, start, run);
            && c < |s.calls| && s.calls[c].Owns(k)
            && (forall d: nat :: d < |s.calls| && s.calls[d].Owns(k) ==> d == c)
            && k in s.windows && s.windows[k] != [] && Current(s, k) != []
            && Current(s, k)[0] == Req(c, s.calls[c].stage)
  {
    Reachable(cfg, start, run);
    var s := After(cfg, start, run);
    AtCounter(s, k);
    assert Unset(s, k) && OpenerOwns(s, k);
    c := Current(s, k)[0].call;
    assert Owned(s, c, k);
    forall d: nat | d < |s.calls| && s.calls[d].Owns(k) ensures d == c {
      assert Owned(s, d, k);
    }
  }

  /** A failure after which a counter may be left without a deadline. */
  predicate Strands(l: Label) {
    (l.StepDel? && l.fails) || (l.StepIncr? && l.f == Unacked)
  }

  ghost predicate NothingStrands(run: seq<Label>) {
    forall i :: 0 <= i < |run| ==> !Strands(run[i])
  }

  lemma {:induction false} NoneStranded(cfg: Routes, s: State, run: seq<Label>)
    requires Legal(cfg, s, run) && NothingStrands(run)
    ensures Exec(cfg, s, run).stranded == s.stranded
    decreases |run|
  {
    if run != [] {
      forall i | 0 <= i < |run[1..]| ensures !Strands(run[1..][i]) {
        assert !Strands(run[i + 1]);
      }
      assert !Strands(run[0]);
      NoneStranded(cfg, Apply(cfg, s, run[0]), run[1..]);
    }
  }

  /** When every request has been answered, no DEL has failed and no INCR has lost its reply, no counter
      lives for ever. */
  lemma AtRestAllExpire(cfg: Routes, start: Time, run: seq<Label>, k: string)
    requires Legal(cfg, Init(start), run) && NothingStrands(run)
    requires var s := After(cfg, start, run); (forall c :: 0 <= c < |s.calls| ==> s.calls[c].Answered?) && k in s.db
    ensures After(cfg, start, run).db[k].deadline.Some?
  {
    NoneStranded(cfg, Init(start), run);
    if After(cfg, start, run).db[k].deadline == None {
      var c := CounterOwnership(cfg, start, run, k);
    }
  }

  /** The owner's EXPIRE finds its own counter and gives it a life of exactly one expiry from then on,
      leaving the count and every other counter alone. */
  lemma OwnerArmsItsCounter(cfg: Routes, start: Time, run: seq<Label>, c: nat)
    requires Legal(cfg, Init(start), run)
    requires var s := After(cfg, start, run);
             Enabled(s, StepExpire(c, false)) && ExpiryOf(cfg, s.calls[c].path, s.calls[c].stage) > 0
    ensures var s := After(cfg, start, run);
            var key := KeyOf(s.calls[c].path, s.calls[c].stage, s.calls[c].addr);
            var expiry := ExpiryOf(cfg, s.calls[c].path, s.calls[c].stage);
            && key in s.db && s.db[key].deadline == None
            && Apply(cfg, s, StepExpire(c, false)).db == s.db[key := Counter(s.db[key].count, Some(s.now + expiry))]
  {
    Reachable(cfg, start, run);
    AtOwner(cfg, After(cfg, start, run), c);
  }

  /** A deadline, once set, is never moved: it stays until it has passed and a new window begins. */
  lemma DeadlineIsFinal(cfg: Routes, start: Time, run: seq<Label>, l: Label, k: string)
    requires Legal(cfg, Init(start), run)
    requires var s := After(cfg, start, run); Enabled(s, l) && k in s.db && s.db[k].deadline.Some?
    ensures var s := After(cfg, start, run);
            var s' := Apply(cfg, s, l);
            && k in s'.db
            && (s'.db[k].deadline == s.db[k].deadline
                || (s.db[k].deadline.value <= s.now && |WindowsOf(s', k)| == |WindowsOf(s, k)| + 1))
  {
    Reachable(cfg, start, run);
    var s := After(cfg, start, run);
    if l.StepExpire? || l.StepDel? {
      AtOwner(cfg, s, l.c);
    }
  }

  // ---- Counting a window ----

  /** All hits of `k` are under one rule. */
  ghost predicate OneRule(s: State, k: string, limit: int, expiry: Time) {
    forall q :: q in s.hits && s.hits[q].key == k ==> s.hits[q].limit == limit && s.hits[q].expiry == expiry
  }

  /** The check that made this hit does not turn its request away. */
  predicate Passes(h: Hit) {
    !h.result.exceeded
  }

  ghost function WindowHits(s: State, k: string, w: nat): set<Req> {
    set q | q in s.hits && s.hits[q].key == k && s.hits[q].window == w
  }

  ghost function WindowPasses(s: State, k: string, w: nat): set<Req> {
    set q | q in s.hits && s.hits[q].key == k && s.hits[q].window == w && Passes(s.hits[q])
  }

  ghost function FirstHits(s: State, k: string, w: nat, n: nat): set<Req> {
    set q | q in s.hits && s.hits[q].key == k && s.hits[q].window == w && s.hits[q].rank < n
  }

  /** The first `n` requests of a window are `n` requests. */
  lemma FirstOfWindow(s: State, k: string, w: nat, n: nat)
    requires HistoryOk(s) && k in s.windows && w < |s.windows[k]| && n <= |s.windows[k][w]|
    ensures |FirstHits(s, k, w, n)| == n
  {
    var ws := s.windows[k][w];
    var first := FirstHits(s, k, w, n);
    var f := (r: int) => if 0 <= r < |ws| then ws[r] else Req(0, Global);
    var g := (q: Req) => if q in s.hits then s.hits[q].rank else 0;
    forall r | r in Below(n) ensures f(r) in first && g(f(r)) == r {
      assert s.windows[k][w][r] in s.hits;
    }
    forall q | q in first ensures g(q) in Below(n) && f(g(q)) == q {
      AtHit(s, q);
    }
    hide HistoryOk, FirstHits;
    PairedSize(Below(n), first, f, g);
  }

  lemma AtReply(s: State, q: Req)
    requires RepliesOk(s) && q in s.hits
    ensures var h := s.hits[q]; h.reply == h.rank + 1 && h.result == Judge(h.limit, h.rank + 1)
  {
  }

  lemma WindowPassesAre(s: State, k: string, w: nat, limit: nat, expiry: Time)
    requires HistoryOk(s) && RepliesOk(s) && k in s.windows && w < |s.windows[k]|
    requires limit > 0 && OneRule(s, k, limit, expiry)
    ensures var n := |s.windows[k][w]|;
            && |WindowHits(s, k, w)| == n
            && |WindowPasses(s, k, w)| == (if n < limit - 1 then n else limit - 1)
  {
    var n := |s.windows[k][w]|;
    var m := if n < limit - 1 then n else limit - 1;
    FirstOfWindow(s, k, w, n);
    FirstOfWindow(s, k, w, m);
    forall q | q in s.hits ensures HitPlaced(s.windows, q, s.hits[q]) {
      AtHit(s, q);
    }
    forall q | q in s.hits ensures s.hits[q].result == Judge(s.hits[q].limit, s.hits[q].rank + 1) {
      AtReply(s, q);
    }
    hide HistoryOk, RepliesOk;
    assert WindowHits(s, k, w) == FirstHits(s, k, w, n);
    assert WindowPasses(s, k, w) == FirstHits(s, k, w, m);
  }

  /** While a counter lives its INCRs reply 1, 2, 3, ... to the requests of the window in turn; a check
      reports what is left of the limit and turns its request away when nothing is; so of `n` checks
      exactly the first `limit - 1` let their request pass, or all of them if there are fewer. */
  lemma WindowExact(cfg: Routes, start: Time, run: seq<Label>, k: string, w: nat, limit: nat, expiry: Time)
    requires Legal(cfg, Init(start), run) && limit > 0
    requires var s := After(cfg, start, run);
             k in s.windows && w < |s.windows[k]| && OneRule(s, k, limit, expiry)
    ensures var s := After(cfg, start, run);
            var n := |WindowHits(s, k, w)|;
            && n == |s.windows[k][w]|
            && |WindowPasses(s, k, w)| == (if n < limit - 1 then n else limit - 1)
            && forall r :: 0 <= r < n ==>
                 var q := s.windows[k][w][r];
                 && q in WindowHits(s, k, w)
                 && s.hits[q].reply == r + 1
                 && s.hits[q].result == LimitResult(if r + 1 < limit then limit - (r + 1) else 0, limit <= r + 1)
  {
    Reachable(cfg, start, run);
    var s := After(cfg, start, run);
    WindowPassesAre(s, k, w, limit, expiry);
    forall r | 0 <= r < |s.windows[k][w]|
      ensures var q := s.windows[k][w][r];
              && q in WindowHits(s, k, w)
              && s.hits[q].reply == r + 1
              && s.hits[q].result == LimitResult(if r + 1 < limit then limit - (r + 1) else 0, limit <= r + 1)
    {
      var q := s.windows[k][w][r];
      assert q in s.hits && s.hits[q].rank == r;
      AtReply(s, q);
    }
  }

  // ---- Any interval of one expiry ----

  ghost function PassesWithin(s: State, k: string, from: Time, to: Time): set<Req> {
    set q | q in s.hits && s.hits[q].key == k && from <= s.hits[q].time <= to && Passes(s.hits[q])
  }

  /** Hits of one key with a whole window between theirs are more than an expiry apart. */
  lemma WindowsApart(s: State, k: string, limit: int, expiry: Time, p: Req, q: Req)
    requires HistoryOk(s) && TimingOk(s) && k in s.windows && k !in s.spoiled && OneRule(s, k, limit, expiry)
    requires p in s.hits && q in s.hits && s.hits[p].key == k && s.hits[q].key == k
    ensures s.hits[p].window + 1 < s.hits[q].window ==> s.hits[p].time + expiry < s.hits[q].time
  {
    AtHit(s, q);
    assert Separated(s, k);
    var between := s.hits[p].window + 1;
    if between < s.hits[q].window {
      assert s.windows[k][between] != [];
      var m := s.windows[k][between][0];
      assert m in s.hits && s.hits[m].window == between && s.hits[m].rank == 0 && s.hits[m].key == k;
      assert s.hits[p].time < s.hits[m].time;
      assert s.hits[m].time + s.hits[m].expiry <= s.hits[q].time;
    }
  }

  ghost predicate NoneEarlier(s: State, passes: set<Req>, first: Req)
    requires first in s.hits && forall q :: q in passes ==> q in s.hits
  {
    forall q :: q in passes ==> s.hits[first].window <= s.hits[q].window
  }

  /** One of `passes` is in the earliest window among them. */
  lemma FirstWindow(s: State, passes: set<Req>) returns (first: Req)
    requires passes != {} && forall q :: q in passes ==> q in s.hits
    ensures first in passes && NoneEarlier(s, passes, first)
    decreases |passes|
  {
    var one :| one in passes;
    var rest := passes - {one};
    if rest == {} {
      assert passes == {one};
      first := one;
    } else {
      var other := FirstWindow(s, rest);
      assert passes == rest + {one};
      if s.hits[other].window < s.hits[one].window {
        first := other;
      } else {
        first := one;
      }
    }
  }

  lemma PassesInTwoWindows(s: State, k: string, limit: int, expiry: Time, from: Time, to: Time, first: Req)
    requires HistoryOk(s) && TimingOk(s) && k in s.windows && k !in s.spoiled && OneRule(s, k, limit, expiry)
    requires to <= from + expiry && first in PassesWithin(s, k, from, to)
    requires NoneEarlier(s, PassesWithin(s, k, from, to), first)
    ensures var w := s.hits[first].window;
            PassesWithin(s, k, from, to) <= WindowPasses(s, k, w) + WindowPasses(s, k, w + 1)
  {
    forall q | q in PassesWithin(s, k, from, to) ensures s.hits[q].window <= s.hits[first].window + 1 {
      WindowsApart(s, k, limit, expiry, first, q);
    }
  }

  lemma PassesOfWindow(s: State, k: string, w: nat, limit: nat, expiry: Time)
    requires HistoryOk(s) && RepliesOk(s) && limit > 0 && OneRule(s, k, limit, expiry)
    ensures |WindowPasses(s, k, w)| <= limit - 1
  {
    if k in s.windows && w < |s.windows[k]| {
      WindowPassesAre(s, k, w, limit, expiry);
    } else {
      forall q | q in s.hits ensures HitPlaced(s.windows, q, s.hits[q]) {
        AtHit(s, q);
      }
      assert WindowPasses(s, k, w) == {};
    }
  }

  lemma BoundWithin(s: State, k: string, limit: nat, expiry: Time, from: Time, to: Time)
    requires HistoryOk(s) && RepliesOk(s) && TimingOk(s) && k !in s.spoiled && OneRule(s, k, limit, expiry)
    requires limit > 0 && to <= from + expiry
    ensures |PassesWithin(s, k, from, to)| <= 2 * (limit - 1)
  {
    hide HistoryOk, RepliesOk, TimingOk, OneRule, WindowPasses;
    var passes := PassesWithin(s, k, from, to);
    if passes != {} {
      var first := FirstWindow(s, passes);
      AtHit(s, first);
      PassesInTwoWindows(s, k, limit, expiry, from, to, first);
      hide PassesWithin;
      var w := s.hits[first].window;
      SubsetSize(passes, WindowPasses(s, k, w) + WindowPasses(s, k, w + 1));
      PassesOfWindow(s, k, w, limit, expiry);
      PassesOfWindow(s, k, w + 1, limit, expiry);
    }
  }

  // ---- Requests let through ----

  /** The request has been handed on to the next handler. */
  predicate Admitted(cfg: Routes, call: Call) {
    call.Answered? && Respond(cfg, call.path, call.verdict).Next?
  }

  /** A request that is let through was let through by every check it was counted by. */
  lemma AdmittedPasses(cfg: Routes, s: State, c: nat, stage: Stage)
    requires CallsOk(cfg, s) && c < |s.calls| && Admitted(cfg, s.calls[c]) && Req(c, stage) in s.hits
    ensures Passes(s.hits[Req(c, stage)])
  {
    AtCall(cfg, s, c);
    assert Counted(cfg, s.calls[c], stage) && s.calls[c].verdict.Passed?;
    var r := if stage == Global then s.calls[c].verdict.all else s.calls[c].verdict.ip;
    assert Counted(cfg, s.calls[c], stage) && ResultOf(cfg, s, c, s.calls[c].path, stage, r);
  }

  /** Requests with a hit each among `hits` are no more than the hits. */
  lemma {:induction false} NoMoreCalls(calls: set<nat>, hits: set<Req>)
    requires forall c :: c in calls ==> Req(c, Global) in hits || Req(c, PerAddr) in hits
    ensures |calls| <= |hits|
    decreases |calls|
  {
    if calls != {} {
      var c :| c in calls;
      var q := if Req(c, Global) in hits then Req(c, Global) else Req(c, PerAddr);
      NoMoreCalls(calls - {c}, hits - {q});
    }
  }

  ghost predicate CountedWithin(s: State, q: Req, k: string, from: Time, to: Time) {
    q in s.hits && s.hits[q].key == k && from <= s.hits[q].time <= to
  }

  /** The requests let through that had increased the counter `k` within the interval. */
  ghost function AdmittedWithin(cfg: Routes, s: State, k: string, from: Time, to: Time): set<nat> {
    set c: nat | c < |s.calls| && Admitted(cfg, s.calls[c])
                 && (CountedWithin(s, Req(c, Global), k, from, to) || CountedWithin(s, Req(c, PerAddr), k, from, to))
  }

  lemma AdmittedAreFewer(cfg: Routes, s: State, k: string, from: Time, to: Time)
    requires CallsOk(cfg, s)
    ensures |AdmittedWithin(cfg, s, k, from, to)| <= |PassesWithin(s, k, from, to)|
  {
    var calls, hits := AdmittedWithin(cfg, s, k, from, to), PassesWithin(s, k, from, to);
    forall c | c in calls ensures Req(c, Global) in hits || Req(c, PerAddr) in hits {
      var stage := if CountedWithin(s, Req(c, Global), k, from, to) then Global else PerAddr;
      AdmittedPasses(cfg, s, c, stage);
    }
    NoMoreCalls(calls, hits);
  }

  /** In no stretch of time of one expiry do more than `2 * (limit - 1)` checks of a counter let their
      request pass, as long as it has always been given its deadline; so no more requests are let
      through. */
  lemma AtMostTwoWindows(cfg: Routes, start: Time, run: seq<Label>, k: string, limit: nat, expiry: Time,
                         from: Time, to: Time)
    requires Legal(cfg, Init(start), run) && limit > 0
    requires var s := After(cfg, start, run); k !in s.spoiled && OneRule(s, k, limit, expiry)
    requires to <= from + expiry
    ensures var s := After(cfg, start, run);
            |AdmittedWithin(cfg, s, k, from, to)| <= |PassesWithin(s, k, from, to)| <= 2 * (limit - 1)
  {
    Reachable(cfg, start, run);
    hide HistoryOk, RepliesOk, TimingOk, CallsOk, OwnersOk, CountersOk, OneRule, PassesWithin, AdmittedWithin;
    BoundWithin(After(cfg, start, run), k, limit, expiry, from, to);
    AdmittedAreFewer(cfg, After(cfg, start, run), k, from, to);
  }

  // ---- Rules and keys ----

  /** The configuration has this limit for the route, and this expiry, a missing one reading as zero. */
  predicate RuleIs(cfg: Routes, path: string, stage: Stage, limit: nat, expiry: Time) {
    match stage
    case Global =>
      && Limits(cfg.allLimits, path) && limit == cfg.allLimits[path]
      && expiry == if path in cfg.allExpiries then cfg.allExpiries[path] else 0
    case PerAddr =>
      && Limits(cfg.ipLimits, path) && limit == cfg.ipLimits[path]
      && expiry == if path in cfg.ipExpiries then cfg.ipExpiries[path] else 0
  }

  lemma RuleOfRoute(cfg: Routes, path: string, stage: Stage, limit: nat, expiry: Time)
    requires RuleIs(cfg, path, stage, limit, expiry)
    ensures limit == LimitOf(cfg, path, stage) > 0 && expiry == ExpiryOf(cfg, path, stage)
  {
  }

  /** Every request comes from a peer. */
  ghost predicate FromPeers(s: State) {
    forall c :: 0 <= c < |s.calls| ==> PeerAddr(s.calls[c].addr)
  }

  /** A call's business with the counter of this path, stage and, for a per-address counter, address. */
  predicate OnRoute(call: Call, path: string, stage: Stage, addr: string) {
    call.path == path && (stage == PerAddr ==> call.addr == addr)
  }

  lemma HitRoute(cfg: Routes, s: State, q: Req)
    requires Inv(cfg, s) && q in s.hits
    ensures q.call < |s.calls| && HitOf(cfg, s.calls[q.call], q.stage, s.hits[q])
    ensures s.hits[q].limit > 0
    ensures Counted(cfg, s.calls[q.call], q.stage)
  {
    AtCall(cfg, s, q.call);
    CountedHasLimit(cfg, s, q.call, q.stage);
  }

  lemma CountedHasLimit(cfg: Routes, s: State, c: nat, stage: Stage)
    requires c < |s.calls| && CallOk(cfg, s, c, s.calls[c]) && Counted(cfg, s.calls[c], stage)
    ensures LimitOf(cfg, s.calls[c].path, stage) > 0
  {
  }

  /** The hits of a key are those of one route: same path, same stage and, for a per-address counter,
      same address. */
  lemma KeyIsRoute(cfg: Routes, s: State, q: Req, path: string, stage: Stage, addr: string)
    requires Inv(cfg, s) && FromPeers(s) && q in s.hits
    requires stage == Global || PeerAddr(addr)
    ensures s.hits[q].key == KeyOf(path, stage, addr)
       <==> q.stage == stage && OnRoute(s.calls[q.call], path, stage, addr)
  {
    HitRoute(cfg, s, q);
    var call := s.calls[q.call];
    var a := if q.stage.Global? then "all" else call.addr;
    var b := if stage.Global? then "all" else addr;
    KeysNeverCollide(call.path, path, a, b);
    PeersAreNotAll(call.addr);
    if stage == PerAddr {
      PeersAreNotAll(addr);
    }
    hide PeerAddr, KeyFor;
  }

  lemma RouteHasOneRule(cfg: Routes, s: State, path: string, stage: Stage, addr: string)
    requires Inv(cfg, s) && FromPeers(s)
    requires stage == Global || PeerAddr(addr)
    ensures OneRule(s, KeyOf(path, stage, addr), LimitOf(cfg, path, stage), ExpiryOf(cfg, path, stage))
  {
    forall q | q in s.hits && s.hits[q].key == KeyOf(path, stage, addr)
      ensures s.hits[q].limit == LimitOf(cfg, path, stage) && s.hits[q].expiry == ExpiryOf(cfg, path, stage)
    {
      KeyIsRoute(cfg, s, q, path, stage, addr);
      HitRoute(cfg, s, q);
    }
  }

  /** The requests for a route let through that were counted by this limit within the interval. */
  ghost function AdmittedOn(cfg: Routes, s: State, path: string, stage: Stage, addr: string, from: Time, to: Time)
    : set<nat>
  {
    set c: nat | c < |s.calls| && Admitted(cfg, s.calls[c]) && OnRoute(s.calls[c], path, stage, addr)
                 && Req(c, stage) in s.hits && from <= s.hits[Req(c, stage)].time <= to
  }

  lemma RouteCallsAreCounted(cfg: Routes, s: State, path: string, stage: Stage, addr: string, from: Time, to: Time)
    requires Inv(cfg, s)
    ensures |AdmittedOn(cfg, s, path, stage, addr, from, to)|
         <= |AdmittedWithin(cfg, s, KeyOf(path, stage, addr), from, to)|
  {
    var on := AdmittedOn(cfg, s, path, stage, addr, from, to);
    var within := AdmittedWithin(cfg, s, KeyOf(path, stage, addr), from, to);
    forall c | c in on ensures c in within {
      HitRoute(cfg, s, Req(c, stage));
      assert CountedWithin(s, Req(c, stage), KeyOf(path, stage, addr), from, to);
    }
    SubsetSize(on, within);
  }

  /** The bound as an operator would put it. Of the requests for a limited route, from one peer if the
      limit is per address, no more than `2 * (limit - 1)` that are counted within any stretch of its
      expiry are let through. */
  lemma RouteBound(cfg: Routes, start: Time, run: seq<Label>, path: string, stage: Stage, addr: string,
                   limit: nat, expiry: Time, from: Time, to: Time)
    requires Legal(cfg, Init(start), run) && RuleIs(cfg, path, stage, limit, expiry)
    requires stage == Global || PeerAddr(addr)
    requires var s := After(cfg, start, run); FromPeers(s) && KeyOf(path, stage, addr) !in s.spoiled
    requires to <= from + expiry
    ensures |AdmittedOn(cfg, After(cfg, start, run), path, stage, addr, from, to)| <= 2 * (limit - 1)
  {
    Reachable(cfg, start, run);
    RuleOfRoute(cfg, path, stage, limit, expiry);
    var k := KeyOf(path, stage, addr);
    hide Inv, KeyOf, LimitOf, ExpiryOf, OneRule, AdmittedOn, AdmittedWithin, PassesWithin, FromPeers, PeerAddr, OnRoute;
    RouteHasOneRule(cfg, After(cfg, start, run), path, stage, addr);
    AtMostTwoWindows(cfg, start, run, k, limit, expiry, from, to);
    RouteCallsAreCounted(cfg, After(cfg, start, run), path, stage, addr, from, to);
  }

  /** The requests of one window that are let through. */
  ghost function AdmittedOfWindow(cfg: Routes, s: State, k: string, w: nat): set<nat> {
    set c: nat | c < |s.calls| && Admitted(cfg, s.calls[c])
                 && (Req(c, Global) in WindowHits(s, k, w) || Req(c, PerAddr) in WindowHits(s, k, w))
  }

  /** The limit of `stage` is the route's only one. */
  predicate OnlyLimit(cfg: Routes, path: string, stage: Stage) {
    if stage == Global then Limits(cfg.allLimits, path) && !Limits(cfg.ipLimits, path)
    else !Limits(cfg.allLimits, path) && Limits(cfg.ipLimits, path)
  }

  /** Every request of the window has been answered, and no command of it has failed. */
  ghost predicate AllAnswered(s: State, k: string, w: nat) {
    forall q :: q in WindowHits(s, k, w) ==>
      q.call < |s.calls| && s.calls[q.call].Answered? && !s.calls[q.call].verdict.Broken?
  }

  /** With no other limit to stop it, an answered request is let through as its one check says. */
  lemma OneLimitDecides(cfg: Routes, s: State, q: Req)
    requires Inv(cfg, s) && q in s.hits && Passes(s.hits[q])
    requires q.call < |s.calls| && OnlyLimit(cfg, s.calls[q.call].path, q.stage)
    requires s.calls[q.call].Answered? && !s.calls[q.call].verdict.Broken?
    ensures Admitted(cfg, s.calls[q.call])
  {
    AtCall(cfg, s, q.call);
    var call := s.calls[q.call];
    assert Req(q.call, q.stage) == q;
    assert Counted(cfg, call, q.stage) && !call.verdict.Bypassed?;
    assert ResultOf(cfg, s, q.call, call.path, Global, call.verdict.all);
    assert ResultOf(cfg, s, q.call, call.path, PerAddr, call.verdict.ip);
  }

  /** A window lets through at most `limit - 1` requests, and exactly so many, or all if there are
      fewer, when they have all been answered, without errors, and no other limit stops them. */
  lemma WindowAdmits(cfg: Routes, start: Time, run: seq<Label>, path: string, stage: Stage, addr: string,
                     limit: nat, expiry: Time, w: nat)
    requires Legal(cfg, Init(start), run) && RuleIs(cfg, path, stage, limit, expiry)
    requires stage == Global || PeerAddr(addr)
    requires var (s, k) := (After(cfg, start, run), KeyOf(path, stage, addr));
             FromPeers(s) && k in s.windows && w < |s.windows[k]|
    ensures var (s, k) := (After(cfg, start, run), KeyOf(path, stage, addr));
            var (n, most) := (|s.windows[k][w]|, limit - 1);
            && |AdmittedOfWindow(cfg, s, k, w)| <= most
            && (OnlyLimit(cfg, path, stage) && AllAnswered(s, k, w) ==>
                  |AdmittedOfWindow(cfg, s, k, w)| == if n < most then n else most)
  {
    Reachable(cfg, start, run);
    var s, k := After(cfg, start, run), KeyOf(path, stage, addr);
    RuleOfRoute(cfg, path, stage, limit, expiry);
    RouteHasOneRule(cfg, s, path, stage, addr);
    WindowPassesAre(s, k, w, limit, expiry);
    WindowAdmitsFewer(cfg, s, k, w);
    if OnlyLimit(cfg, path, stage) && AllAnswered(s, k, w) {
      WindowAdmitsAll(cfg, s, path, stage, addr, w);
    }
  }

  lemma WindowAdmitsFewer(cfg: Routes, s: State, k: string, w: nat)
    requires CallsOk(cfg, s)
    ensures |AdmittedOfWindow(cfg, s, k, w)| <= |WindowPasses(s, k, w)|
  {
    var calls, hits := AdmittedOfWindow(cfg, s, k, w), WindowPasses(s, k, w);
    forall c | c in calls ensures Req(c, Global) in hits || Req(c, PerAddr) in hits {
      AdmittedPasses(cfg, s, c, if Req(c, Global) in WindowHits(s, k, w) then Global else PerAddr);
    }
    NoMoreCalls(calls, hits);
  }

  lemma WindowAdmitsAll(cfg: Routes, s: State, path: string, stage: Stage, addr: string, w: nat)
    requires Inv(cfg, s) && FromPeers(s) && (stage == Global || PeerAddr(addr))
    requires OnlyLimit(cfg, path, stage) && AllAnswered(s, KeyOf(path, stage, addr), w)
    ensures var k := KeyOf(path, stage, addr); |AdmittedOfWindow(cfg, s, k, w)| == |WindowPasses(s, k, w)|
  {
    var k := KeyOf(path, stage, addr);
    var calls, hits := AdmittedOfWindow(cfg, s, k, w), WindowPasses(s, k, w);
    var f := (c: nat) => Req(c, stage);
    var g := (q: Req) => q.call;
    forall q | q in hits ensures g(q) in calls && f(g(q)) == q {
      assert q in WindowHits(s, k, w);
      KeyIsRoute(cfg, s, q, path, stage, addr);
      OneLimitDecides(cfg, s, q);
    }
    forall c | c in calls ensures f(c) in hits && g(f(c)) == c {
      var q := if Req(c, Global) in WindowHits(s, k, w) then Req(c, Global) else Req(c, PerAddr);
      KeyIsRoute(cfg, s, q, path, stage, addr);
      AdmittedPasses(cfg, s, c, stage);
    }
    hide Inv, FromPeers, PeerAddr, AdmittedOfWindow, WindowPasses;
    PairedSize(calls, hits, f, g);
  }

  /** A failure after which a window may not end when it should. */
  predicate Spoils(l: Label) {
    (l.StepExpire? && l.fails) || (l.StepIncr? && l.f == Unacked)
  }

  /** No key is spoiled in a run where no EXPIRE fails, no INCR loses its reply, and limited routes have
      positive expiries. */
  lemma {:induction false} UnspoiledRun(cfg: Routes, s: State, run: seq<Label>)
    requires Inv(cfg, s) && Legal(cfg, s, run) && s.spoiled == {}
    requires forall i :: 0 <= i < |run| ==> !Spoils(run[i])
    requires forall path, stage :: LimitOf(cfg, path, stage) > 0 ==> ExpiryOf(cfg, path, stage) > 0
    ensures Exec(cfg, s, run).spoiled == {}
    decreases |run|
  {
    if run != [] {
      var l := run[0];
      assert !Spoils(l);
      if l.StepExpire? {
        AtCall(cfg, s, l.c);
      }
      forall i | 0 <= i < |run[1..]| ensures !Spoils(run[1..][i]) {
        assert !Spoils(run[i + 1]);
      }
      StepKeeps(cfg, s, l);
      UnspoiledRun(cfg, Apply(cfg, s, l), run[1..]);
    }
  }

  // ---- Verdicts ----

  /** A request that is let through was counted, under the limit, by every limit its route has, and
      one that is turned away was counted at or over one of them; the figures reported are what is
      left of the limit, and never negative. */
  lemma VerdictsAreJust(cfg: Routes, start: Time, run: seq<Label>, c: nat)
    requires Legal(cfg, Init(start), run)
    requires var s := After(cfg, start, run);
             c < |s.calls| && s.calls[c].Answered? && (s.calls[c].verdict.Passed? || s.calls[c].verdict.TooMany?)
    ensures var s := After(cfg, start, run);
            var call := s.calls[c];
            && (forall stage :: LimitOf(cfg, call.path, stage) > 0 <==> Req(c, stage) in s.hits)
            && (call.verdict.Passed? <==>
                  forall stage :: Req(c, stage) in s.hits ==>
                    s.hits[Req(c, stage)].rank + 1 < LimitOf(cfg, call.path, stage))
            && (forall stage :: Req(c, stage) in s.hits ==>
                  var r := if stage == Global then call.verdict.all else call.verdict.ip;
                  var left := LimitOf(cfg, call.path, stage) - (s.hits[Req(c, stage)].rank + 1);
                  r.Some? && r.value.remaining == if left > 0 then left else 0)
  {
    Reachable(cfg, start, run);
    var s := After(cfg, start, run);
    AtCall(cfg, s, c);
    var call := s.calls[c];
    forall stage
      ensures LimitOf(cfg, call.path, stage) > 0 <==> Req(c, stage) in s.hits
    {
      var r := if stage == Global then call.verdict.all else call.verdict.ip;
      assert ResultOf(cfg, s, c, call.path, stage, r);
      assert Req(c, stage) in s.hits <==> Counted(cfg, call, stage);
    }
    forall stage | Req(c, stage) in s.hits
      ensures s.hits[Req(c, stage)].result == Judge(LimitOf(cfg, call.path, stage), s.hits[Req(c, stage)].rank + 1)
    {
      AtReply(s, Req(c, stage));
    }
    assert ResultOf(cfg, s, c, call.path, Global, call.verdict.all);
    assert ResultOf(cfg, s, c, call.path, PerAddr, call.verdict.ip);
  }

  // ---- Responses ----

  /** A step at which a check of call `c` fails. */
  predicate FailsFor(l: Label, c: nat) {
    (l.StepIncr? && l.c == c && l.f != NoFault) || (l.StepExpire? && l.c == c && l.fails)
  }

  ghost predicate HasFailed(run: seq<Label>, c: nat) {
    exists i :: 0 <= i < |run| && FailsFor(run[i], c)
  }

  /** The call is on its way to an error, or has reported one. */
  predicate Broke(s: State, c: nat) {
    c < |s.calls| && (s.calls[c].Dropping? || (s.calls[c].Answered? && s.calls[c].verdict.Broken?))
  }

  lemma BrokeStep(cfg: Routes, s: State, l: Label, c: nat)
    requires Enabled(s, l)
    ensures Broke(Apply(cfg, s, l), c) <==> Broke(s, c) || FailsFor(l, c)
  {
    hide LimitOf, ExpiryOf, KeyOf, Count, WindowsOf, Judge, Incr;
  }

  lemma {:induction false} BrokeByFailure(cfg: Routes, s: State, run: seq<Label>, c: nat)
    requires Legal(cfg, s, run)
    ensures Broke(Exec(cfg, s, run), c) <==> Broke(s, c) || HasFailed(run, c)
    decreases |run|
  {
    if run != [] {
      hide Apply, Enabled, FailsFor, Broke;
      BrokeStep(cfg, s, run[0], c);
      BrokeByFailure(cfg, Apply(cfg, s, run[0]), run[1..], c);
      FailedFrom(run, c);
    }
  }

  lemma FailedFrom(run: seq<Label>, c: nat)
    requires run != []
    ensures HasFailed(run, c) <==> FailsFor(run[0], c) || HasFailed(run[1..], c)
  {
    hide FailsFor;
    if i :| 0 <= i < |run[1..]| && FailsFor(run[1..][i], c) {
      assert FailsFor(run[i + 1], c);
    }
    if i :| 0 <= i < |run| && FailsFor(run[i], c) {
      assert i > 0 ==> FailsFor(run[1..][i - 1], c);
    }
  }

  /** The reply the call got from the counter of `stage`; one if it has asked none. */
  ghost function ReplyTo(s: State, c: nat, stage: Stage): int {
    if Req(c, stage) in s.hits then s.hits[Req(c, stage)].reply else 1
  }

  /** What clients get, over every interleaving and with any commands failing. A request is answered 500
      without headers exactly if a check of it has failed. Otherwise it was counted by exactly the
      limits its path has in the two tables; it is handed on exactly if the replies were all below
      them, and answered 429 if not; and the headers are those limits and what is left of them. */
  lemma ResponsesAreJust(cfg: Routes, start: Time, run: seq<Label>, c: nat)
    requires Legal(cfg, Init(start), run)
    requires var s := After(cfg, start, run); c < |s.calls| && s.calls[c].Answered?
    ensures var s := After(cfg, start, run);
            var path := s.calls[c].path;
            var response := Respond(cfg, path, s.calls[c].verdict);
            var (n, m) := (ReplyTo(s, c, Global), ReplyTo(s, c, PerAddr));
            var below := (Limits(cfg.allLimits, path) ==> n < cfg.allLimits[path])
                         && (Limits(cfg.ipLimits, path) ==> m < cfg.ipLimits[path]);
            if HasFailed(run, c) then response == Status(500, map[])
            else
              && (Req(c, Global) in s.hits <==> Limits(cfg.allLimits, path))
              && (Req(c, PerAddr) in s.hits <==> Limits(cfg.ipLimits, path))
              && (response.Next? <==> below)
              && (response.Status? ==> response.code == 429)
              && Tells(response.headers, GlobalLimit, GlobalRemaining, cfg.allLimits, path, n)
              && Tells(response.headers, IPLimit, IPRemaining, cfg.ipLimits, path, m)
  {
    Reachable(cfg, start, run);
    BrokeByFailure(cfg, Init(start), run, c);
    var s := After(cfg, start, run);
    var verdict := s.calls[c].verdict;
    if !verdict.Broken? {
      ResultsAreLeft(cfg, s, c);
      hide Inv;
    }
  }

  /** The results a call has recorded, in terms of the tables. */
  lemma ResultsAreLeft(cfg: Routes, s: State, c: nat)
    requires Inv(cfg, s) && c < |s.calls| && s.calls[c].Answered? && !s.calls[c].verdict.Broken?
    ensures var path := s.calls[c].path;
            var (g, p) := (Limits(cfg.allLimits, path), Limits(cfg.ipLimits, path));
            && (Req(c, Global) in s.hits <==> g) && (Req(c, PerAddr) in s.hits <==> p)
            && (s.calls[c].verdict.Bypassed? ==> !g && !p)
            && (!s.calls[c].verdict.Bypassed? ==>
                  s.calls[c].verdict == Decide(
                    if g then Some(Left(cfg.allLimits[path], ReplyTo(s, c, Global))) else None,
                    if p then Some(Left(cfg.ipLimits[path], ReplyTo(s, c, PerAddr))) else None))
  {
    AtCall(cfg, s, c);
    var call := s.calls[c];
    RouteOf(cfg, call.path, call.addr);
    forall stage | Req(c, stage) in s.hits
      ensures s.hits[Req(c, stage)].result == Left(LimitOf(cfg, call.path, stage), ReplyTo(s, c, stage))
    {
      AtReply(s, Req(c, stage));
    }
    assert Req(c, Global) in s.hits <==> Counted(cfg, call, Global);
    assert Req(c, PerAddr) in s.hits <==> Counted(cfg, call, PerAddr);
    hide HistoryOk, CountersOk, RepliesOk, OwnersOk, TimingOk, CallsOk;
    if !call.verdict.Bypassed? {
      assert ResultOf(cfg, s, c, call.path, Global, call.verdict.all);
      assert ResultOf(cfg, s, c, call.path, PerAddr, call.verdict.ip);
    }
  }

  // ---- Two counters, one total ----

  /** Requests for `path` that have increased the counter of `stage`. */
  ghost function CountedCalls(cfg: Routes, s: State, path: string, stage: Stage): set<nat> {
    set c: nat | c < |s.calls| && s.calls[c].path == path && Counted(cfg, s.calls[c], stage)
  }

  /** Requests between their two increments, or stopped there by an error. */
  ghost function Between(cfg: Routes, s: State, path: string): set<nat> {
    set c: nat | c < |s.calls| && s.calls[c].path == path
                 && Counted(cfg, s.calls[c], Global) && !Counted(cfg, s.calls[c], PerAddr)
  }

  ghost function KeyHits(s: State, k: string): set<Req> {
    set q | q in s.hits && s.hits[q].key == k
  }

  /** The increments of all per-address counters of `path`, address by address. */
  ghost function SumOverAddresses(s: State, path: string, addrs: set<string>): nat
    decreases |addrs|
  {
    if addrs == {} then 0
    else
      var a :| a in addrs;
      |KeyHits(s, KeyFor(path, a))| + SumOverAddresses(s, path, addrs - {a})
  }

  ghost function Addresses(s: State, path: string): set<string> {
    set c: nat | c < |s.calls| && s.calls[c].path == path :: s.calls[c].addr
  }

  /** Requests for `path` from `addrs` that have increased their address's counter. */
  ghost function CountedFrom(cfg: Routes, s: State, path: string, addrs: set<string>): set<nat> {
    set c: nat | c < |s.calls| && s.calls[c].path == path
                 && Counted(cfg, s.calls[c], PerAddr) && s.calls[c].addr in addrs
  }

  lemma KeyHitsAreCalls(cfg: Routes, s: State, path: string, stage: Stage, addr: string)
    requires Inv(cfg, s) && FromPeers(s) && (stage == Global || PeerAddr(addr))
    ensures |KeyHits(s, KeyOf(path, stage, addr))|
         == if stage == Global then |CountedCalls(cfg, s, path, Global)| else |CountedFrom(cfg, s, path, {addr})|
  {
    var calls := if stage == Global then CountedCalls(cfg, s, path, Global) else CountedFrom(cfg, s, path, {addr});
    var f := (c: nat) => Req(c, stage);
    var g := (q: Req) => q.call;
    var hits := KeyHits(s, KeyOf(path, stage, addr));
    forall q | q in hits ensures g(q) in calls && f(g(q)) == q {
      KeyIsRoute(cfg, s, q, path, stage, addr);
      HitRoute(cfg, s, q);
    }
    forall c | c in calls ensures f(c) in hits && g(f(c)) == c {
      AtCall(cfg, s, c);
      KeyIsRoute(cfg, s, f(c), path, stage, addr);
    }
    hide Inv, FromPeers, PeerAddr, KeyHits, CountedCalls, CountedFrom;
    PairedSize(calls, hits, f, g);
  }

  lemma SplitCounted(cfg: Routes, s: State, path: string, addrs: set<string>, a: string)
    requires a in addrs
    ensures |CountedFrom(cfg, s, path, addrs)|
         == |CountedFrom(cfg, s, path, {a})| + |CountedFrom(cfg, s, path, addrs - {a})|
  {
    var one, rest := CountedFrom(cfg, s, path, {a}), CountedFrom(cfg, s, path, addrs - {a});
    assert CountedFrom(cfg, s, path, addrs) == one + rest && one !! rest;
  }

  lemma {:induction false} SumIsCounted(cfg: Routes, s: State, path: string, addrs: set<string>)
    requires Inv(cfg, s) && FromPeers(s) && (forall a :: a in addrs ==> PeerAddr(a))
    ensures SumOverAddresses(s, path, addrs) == |CountedFrom(cfg, s, path, addrs)|
    decreases |addrs|
  {
    if addrs == {} {
      assert CountedFrom(cfg, s, path, addrs) == {};
    } else {
      var a :| a in addrs && SumOverAddresses(s, path, addrs) ==
                |KeyHits(s, KeyFor(path, a))| + SumOverAddresses(s, path, addrs - {a});
      hide Inv, FromPeers, PeerAddr, CountedFrom, KeyHits;
      KeyHitsAreCalls(cfg, s, path, PerAddr, a);
      SumIsCounted(cfg, s, path, addrs - {a});
      SplitCounted(cfg, s, path, addrs, a);
    }
  }

  /** Whoever has increased the second counter has increased the first. */
  lemma PassedBoth(cfg: Routes, s: State, path: string)
    requires CallsOk(cfg, s)
    requires LimitOf(cfg, path, Global) > 0 && LimitOf(cfg, path, PerAddr) > 0
    ensures |CountedCalls(cfg, s, path, Global)|
         == |CountedFrom(cfg, s, path, Addresses(s, path))| + |Between(cfg, s, path)|
  {
    var global, between := CountedCalls(cfg, s, path, Global), Between(cfg, s, path);
    var from := CountedFrom(cfg, s, path, Addresses(s, path));
    forall c | c in from ensures c in global {
      AtCall(cfg, s, c);
    }
    assert global == from + between && from !! between;
  }

  /** On a route with both limits the global counter has been increased as often as all its address
      counters together, but for the requests that are between the two or were stopped there. */
  lemma TwoCounterConservation(cfg: Routes, start: Time, run: seq<Label>, path: string)
    requires Legal(cfg, Init(start), run)
    requires FromPeers(After(cfg, start, run))
    requires LimitOf(cfg, path, Global) > 0 && LimitOf(cfg, path, PerAddr) > 0
    ensures var s := After(cfg, start, run);
            |KeyHits(s, KeyFor(path, "all"))|
            == SumOverAddresses(s, path, Addresses(s, path)) + |Between(cfg, s, path)|
  {
    Reachable(cfg, start, run);
    var s := After(cfg, start, run);
    KeyHitsAreCalls(cfg, s, path, Global, "");
    SumIsCounted(cfg, s, path, Addresses(s, path));
    PassedBoth(cfg, s, path);
    hide Inv, FromPeers, KeyHits, SumOverAddresses, CountedCalls, CountedFrom, Between;
  }
}
