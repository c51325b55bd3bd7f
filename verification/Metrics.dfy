/** Request metrics: a gauge of active requests, counters by labels and a histogram, kept by a
    middleware around every request. */
module Metrics {
  import opened Common
  import Writer = ResponseWriter

  type Family<!K> = map<K, nat>

  datatype RequestLabels = RequestLabels(verb: string, path: string, status: int)

  datatype RouteLabels = RouteLabels(verb: string, path: string)

  function Value<K>(m: Family<K>, k: K): nat {
    if k in m then m[k] else 0
  }

  function Inc<K>(m: Family<K>, k: K): Family<K> {
    m[k := Value(m, k) + 1]
  }

  datatype Registry = Registry(
    requestsTotal: Family<RequestLabels>,
    requestDuration: Family<RouteLabels>, // observations of each histogram
    activeRequests: int,
    errorsTotal: Family<int>)

  /** What the wrapped handler does: it writes its response, or part of it, and returns or panics. */
  datatype Handler = Handler(ops: seq<Writer.Op>, panics: bool)

  /** The status of a response as its receiver sees it: that of its header, or 200 if there is none. */
  function HeaderStatus(sent: seq<Writer.Event>): int {
    if sent != [] && sent[0].HeaderSent? then sent[0].code else 200
  }

  /** The registry after one request with nobody else around. */
  function Served(r: Registry, verb: string, path: string, handler: Handler): Registry {
    if handler.panics then r
    else
      var status := Writer.StatusOf(handler.ops);
      r.(requestsTotal := Inc(r.requestsTotal, RequestLabels(verb, path, status)),
         requestDuration := Inc(r.requestDuration, RouteLabels(verb, path)),
         errorsTotal := if status >= 400 then Inc(r.errorsTotal, status) else r.errorsTotal)
  }

  class Collector {
    var requestsTotal: Family<RequestLabels>
    var requestDuration: Family<RouteLabels>
    var activeRequests: int
    var errorsTotal: Family<int>

    constructor ()
      ensures Value() == Registry(map[], map[], 0, map[])
    {
      requestsTotal, requestDuration, activeRequests, errorsTotal := map[], map[], 0, map[];
    }

    ghost function Value(): Registry
      reads this
    {
      Registry(requestsTotal, requestDuration, activeRequests, errorsTotal)
    }

    /** The client gets what the handler wrote, under one header, the first; nothing if it wrote
        nothing. The status that is counted is the one in that header. The decrement of the gauge is
        deferred: it happens however the handler ends. */
    method Middleware(u: Writer.Underlying, verb: string, path: string, handler: Handler)
      requires u.sent == []
      modifies this, u
      ensures Value() == Served(old(Value()), verb, path, handler)
      ensures u.sent == if handler.ops == [] then []
                        else [Writer.HeaderSent(if handler.ops[0].WriteHeader? then handler.ops[0].code else 200)]
                             + Writer.Bodies(handler.ops)
      ensures !handler.panics ==>
                var status := HeaderStatus(u.sent);
                && requestsTotal == Inc(old(requestsTotal), RequestLabels(verb, path, status))
                && errorsTotal == (if status >= 400 then Inc(old(errorsTotal), status) else old(errorsTotal))
      ensures handler.panics ==> Value() == old(Value())
    {
      activeRequests := activeRequests + 1;
      var rw := Writer.ServeThrough(u, 0, handler.ops);
      if handler.panics {
        activeRequests := activeRequests - 1;
        return;
      }
      var status := rw.statusCode;
      requestsTotal := Inc(requestsTotal, RequestLabels(verb, path, status));
      requestDuration := Inc(requestDuration, RouteLabels(verb, path));
      if status >= 400 {
        errorsTotal := Inc(errorsTotal, status);
      }
      activeRequests := activeRequests - 1;
    }
  }

  // ---- Concurrent requests ----

  /** `status` is what the wrapper remembers, `sent` what the client has got. */
  datatype Call =
    | Serving(verb: string, path: string)
    | Counting(verb: string, path: string, status: int, sent: seq<Writer.Event>)
    | Observing(verb: string, path: string, status: int, sent: seq<Writer.Event>)
    | Judging(verb: string, path: string, status: int, sent: seq<Writer.Event>)
    | Leaving(verb: string, path: string, sent: seq<Writer.Event>, panicked: bool)
    | Gone(verb: string, path: string, sent: seq<Writer.Event>, panicked: bool)
  {
    /** The handler has returned, and the request has been counted. */
    predicate Counted() {
      Observing? || Judging? || ((Leaving? || Gone?) && !panicked)
    }
  }

  datatype State = State(registry: Registry, calls: seq<Call>)

  datatype Label =
    | Arrive(verb: string, path: string)
    | Finish(c: nat, handler: Handler)
    | StepTotal(c: nat)
    | StepObserve(c: nat)
    | StepError(c: nat)
    | Leave(c: nat)

  predicate Enabled(s: State, l: Label) {
    match l
    case Arrive(_, _) => true
    case Finish(c, _) => c < |s.calls| && s.calls[c].Serving?
    case StepTotal(c) => c < |s.calls| && s.calls[c].Counting?
    case StepObserve(c) => c < |s.calls| && s.calls[c].Observing?
    case StepError(c) => c < |s.calls| && s.calls[c].Judging?
    case Leave(c) => c < |s.calls| && s.calls[c].Leaving?
  }

  function Init(): State {
    State(Registry(map[], map[], 0, map[]), [])
  }

  function Apply(s: State, l: Label): State
    requires Enabled(s, l)
  {
    var r := s.registry;
    match l
    case Arrive(verb, path) =>
      State(r.(activeRequests := r.activeRequests + 1), s.calls + [Serving(verb, path)])
    case Finish(c, handler) =>
      var call := s.calls[c];
      var x := Writer.Run(Writer.Fresh(), handler.ops);
      s.(calls := s.calls[c := if handler.panics then Leaving(call.verb, call.path, x.sent, true)
                               else Counting(call.verb, call.path, x.status, x.sent)])
    case StepTotal(c) =>
      var Counting(verb, path, status, sent) := s.calls[c];
      State(r.(requestsTotal := Inc(r.requestsTotal, RequestLabels(verb, path, status))),
            s.calls[c := Observing(verb, path, status, sent)])
    case StepObserve(c) =>
      var Observing(verb, path, status, sent) := s.calls[c];
      State(r.(requestDuration := Inc(r.requestDuration, RouteLabels(verb, path))),
            s.calls[c := if status >= 400 then Judging(verb, path, status, sent) else Leaving(verb, path, sent, false)])
    case StepError(c) =>
      var Judging(verb, path, status, sent) := s.calls[c];
      State(r.(errorsTotal := Inc(r.errorsTotal, status)), s.calls[c := Leaving(verb, path, sent, false)])
    case Leave(c) =>
      var Leaving(verb, path, sent, panicked) := s.calls[c];
      State(r.(activeRequests := r.activeRequests - 1), s.calls[c := Gone(verb, path, sent, panicked)])
  }

  ghost predicate Legal(s: State, run: seq<Label>)
    decreases |run|
  {
    run == [] || (Enabled(s, run[0]) && Legal(Apply(s, run[0]), run[1..]))
  }

  function Exec(s: State, run: seq<Label>): State
    requires Legal(s, run)
    decreases |run|
  {
    if run == [] then s else Exec(Apply(s, run[0]), run[1..])
  }

  /** A request that nobody interrupts, step by step from its arrival to its end. */
  function Alone(s: State, verb: string, path: string, handler: Handler): State {
    var c := |s.calls|;
    var s1 := Apply(Apply(s, Arrive(verb, path)), Finish(c, handler));
    if handler.panics then Apply(s1, Leave(c))
    else
      var s2 := Apply(Apply(s1, StepTotal(c)), StepObserve(c));
      Apply(if s2.calls[c].Judging? then Apply(s2, StepError(c)) else s2, Leave(c))
  }

  /** It leaves the registry as the middleware's method does, and its client the same response. */
  lemma RequestAlone(s: State, verb: string, path: string, handler: Handler)
    ensures var s' := Alone(s, verb, path, handler);
            && s'.registry == Served(s.registry, verb, path, handler)
            && s'.calls == s.calls + [Gone(verb, path,
                 if handler.ops == [] then []
                 else [Writer.HeaderSent(if handler.ops[0].WriteHeader? then handler.ops[0].code else 200)]
                      + Writer.Bodies(handler.ops),
                 handler.panics)]
  {
    Writer.OneHeaderFirst(handler.ops);
    hide Writer.Run, Writer.Bodies;
  }

  // ---- Counting calls and summing families ----

  /** How many of the calls are `p`? */
  function Count(calls: seq<Call>, p: Call -> bool): nat {
    if calls == [] then 0 else (if p(calls[0]) then 1 else 0) + Count(calls[1..], p)
  }

  lemma {:induction false} CountAppend(calls: seq<Call>, call: Call, p: Call -> bool)
    ensures Count(calls + [call], p) == Count(calls, p) + (if p(call) then 1 else 0)
  {
    if calls == [] {
      assert [call][1..] == [];
    } else {
      assert (calls + [call])[1..] == calls[1..] + [call];
      CountAppend(calls[1..], call, p);
    }
  }

  lemma {:induction false} CountUpdate(calls: seq<Call>, c: nat, call: Call, p: Call -> bool)
    requires c < |calls|
    ensures Count(calls[c := call], p) + (if p(calls[c]) then 1 else 0) == Count(calls, p) + (if p(call) then 1 else 0)
    decreases |calls|
  {
    if c > 0 {
      assert calls[c := call][1..] == calls[1..][c - 1 := call];
      CountUpdate(calls[1..], c - 1, call, p);
    }
  }

  /** The sum of a family over the labels that are `p`. */
  ghost function Sum<K(!new)>(m: Family<K>, p: K -> bool): nat
    decreases |m|
  {
    if m == map[] then 0
    else
      var k :| k in m;
      (if p(k) then m[k] else 0) + Sum(m - {k}, p)
  }

  lemma {:induction false} SumWithout<K(!new)>(m: Family<K>, p: K -> bool, k: K)
    requires k in m
    ensures Sum(m, p) == (if p(k) then m[k] else 0) + Sum(m - {k}, p)
    decreases |m|
  {
    var j :| j in m && Sum(m, p) == (if p(j) then m[j] else 0) + Sum(m - {j}, p);
    if j != k {
      SumWithout(m - {j}, p, k);
      SumWithout(m - {k}, p, j);
      assert m - {j} - {k} == m - {k} - {j};
    }
  }

  lemma SumInc<K(!new)>(m: Family<K>, p: K -> bool, k: K)
    ensures Sum(Inc(m, k), p) == Sum(m, p) + (if p(k) then 1 else 0)
  {
    SumWithout(Inc(m, k), p, k);
    if k in m {
      SumWithout(m, p, k);
      assert Inc(m, k) - {k} == m - {k};
    } else {
      assert Inc(m, k) - {k} == m;
    }
  }

  // ---- Conservation ----

  function Active(): Call -> bool {
    (call: Call) => !call.Gone?
  }

  function OfRoute(route: RouteLabels): RequestLabels -> bool {
    (k: RequestLabels) => k.verb == route.verb && k.path == route.path
  }

  function OfStatus(status: int): RequestLabels -> bool {
    (k: RequestLabels) => k.status == status
  }

  /** Counted, not yet observed. */
  function Unobserved(route: RouteLabels): Call -> bool {
    (call: Call) => call.Observing? && call.verb == route.verb && call.path == route.path
  }

  /** Counted with this status, not yet through the errors counter. */
  function Unjudged(status: int): Call -> bool {
    (call: Call) => (call.Observing? || call.Judging?) && HeaderStatus(call.sent) == status
  }

  /** Counted, for a response that went out under these labels. */
  function AnsweredAs(k: RequestLabels): Call -> bool {
    (call: Call) =>
      call.Counted() && call.verb == k.verb && call.path == k.path && HeaderStatus(call.sent) == k.status
  }

  /** What the wrapper remembers is what the client was told. */
  predicate Honest(call: Call) {
    call.Counting? || call.Observing? || call.Judging? ==> call.status == HeaderStatus(call.sent)
  }

  ghost predicate Conserves(s: State, k: RequestLabels, route: RouteLabels, status: int) {
    var r := s.registry;
    && r.activeRequests == Count(s.calls, Active())
    && Value(r.requestsTotal, k) == Count(s.calls, AnsweredAs(k))
    && Sum(r.requestsTotal, OfRoute(route)) == Value(r.requestDuration, route) + Count(s.calls, Unobserved(route))
    && (if status >= 400 then
          Sum(r.requestsTotal, OfStatus(status)) == Value(r.errorsTotal, status) + Count(s.calls, Unjudged(status))
        else status !in r.errorsTotal)
    && (forall c :: 0 <= c < |s.calls| ==> Honest(s.calls[c]))
    && (forall c :: 0 <= c < |s.calls| && s.calls[c].Judging? ==> s.calls[c].status >= 400)
  }

  lemma ArriveConserves(s: State, l: Label, k: RequestLabels, route: RouteLabels, status: int)
    requires Conserves(s, k, route, status) && l.Arrive?
    ensures Conserves(Apply(s, l), k, route, status)
  {
    var call := Serving(l.verb, l.path);
    CountAppend(s.calls, call, Active());
    CountAppend(s.calls, call, AnsweredAs(k));
    CountAppend(s.calls, call, Unobserved(route));
    CountAppend(s.calls, call, Unjudged(status));
  }

  lemma FinishIsHonest(s: State, c: nat, handler: Handler)
    requires Enabled(s, Finish(c, handler))
    ensures var call := Apply(s, Finish(c, handler)).calls[c];
            Honest(call) && (call.Leaving? <==> handler.panics) && (call.Leaving? || call.Counting?)
            && (call.Leaving? ==> call.panicked)
  {
    Writer.HeaderIsFirst(handler.ops);
    hide Writer.Run;
  }

  lemma TotalConserves(s: State, c: nat, k: RequestLabels, route: RouteLabels, status: int)
    requires Conserves(s, k, route, status) && Enabled(s, StepTotal(c))
    ensures Conserves(Apply(s, StepTotal(c)), k, route, status)
  {
    var call := Apply(s, StepTotal(c)).calls[c];
    CountUpdate(s.calls, c, call, Active());
    CountUpdate(s.calls, c, call, AnsweredAs(k));
    CountUpdate(s.calls, c, call, Unobserved(route));
    CountUpdate(s.calls, c, call, Unjudged(status));
    var labels := RequestLabels(call.verb, call.path, call.status);
    SumInc(s.registry.requestsTotal, OfRoute(route), labels);
    SumInc(s.registry.requestsTotal, OfStatus(status), labels);
  }

  lemma StepConserves(s: State, l: Label, k: RequestLabels, route: RouteLabels, status: int)
    requires Conserves(s, k, route, status) && Enabled(s, l)
    ensures Conserves(Apply(s, l), k, route, status)
  {
    if l.Arrive? {
      ArriveConserves(s, l, k, route, status);
    } else if l.StepTotal? {
      TotalConserves(s, l.c, k, route, status);
    } else {
      var call := Apply(s, l).calls[l.c];
      if l.Finish? {
        FinishIsHonest(s, l.c, l.handler);
      }
      CountUpdate(s.calls, l.c, call, Active());
      CountUpdate(s.calls, l.c, call, AnsweredAs(k));
      CountUpdate(s.calls, l.c, call, Unobserved(route));
      CountUpdate(s.calls, l.c, call, Unjudged(status));
      hide Writer.Run, Sum;
    }
  }

  lemma {:induction false} RunConserves(s: State, run: seq<Label>, k: RequestLabels, route: RouteLabels, status: int)
    requires Conserves(s, k, route, status) && Legal(s, run)
    ensures Conserves(Exec(s, run), k, route, status)
    decreases |run|
  {
    if run != [] {
      StepConserves(s, run[0], k, route, status);
      RunConserves(Apply(s, run[0]), run[1..], k, route, status);
    }
  }

  /** Over every interleaving, panics included: the gauge is the number of requests in flight, each
      counter of requests is the number of requests that ended that way, the requests of a route
      exceed its histogram's observations only by those between the two updates, and those of an
      error status exceed its error counter only by those still on the way to it. */
  lemma MetricsConservation(run: seq<Label>, k: RequestLabels, route: RouteLabels, status: int)
    requires Legal(Init(), run)
    ensures Conserves(Exec(Init(), run), k, route, status)
  {
    RunConserves(Init(), run, k, route, status);
  }

  lemma {:induction false} CountNone(calls: seq<Call>, p: Call -> bool)
    requires forall call :: call in calls ==> !p(call)
    ensures Count(calls, p) == 0
  {
    if calls != [] {
      CountNone(calls[1..], p);
    }
  }

  /** When no request is in flight the gauge is zero and the books are balanced. */
  lemma BalancedAtRest(run: seq<Label>, route: RouteLabels, status: int)
    requires Legal(Init(), run)
    requires forall call :: call in Exec(Init(), run).calls ==> call.Gone?
    ensures var r := Exec(Init(), run).registry;
            && r.activeRequests == 0
            && Sum(r.requestsTotal, OfRoute(route)) == Value(r.requestDuration, route)
            && Value(r.errorsTotal, status) == if status >= 400 then Sum(r.requestsTotal, OfStatus(status)) else 0
  {
    var calls := Exec(Init(), run).calls;
    MetricsConservation(run, RequestLabels("", "", 0), route, status);
    CountNone(calls, Active());
    CountNone(calls, Unobserved(route));
    CountNone(calls, Unjudged(status));
  }
}
