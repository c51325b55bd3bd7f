/** Requests that come one after the other are runs of the interleaved limiter too, and among them is
    one that reaches the bound: a limit hands on twice as many requests as one window does. */
module LimiterSharpness {
  import opened Common
  import opened RateLimiter
  import opened LimiterRuns
  import opened LimiterInvariant
  import opened LimiterSteps
  import opened LimiterTheorems
  import opened LimiterMishaps
  import opened LimiterAlone

  // ---- Steps one after the other ----

  lemma {:induction false} ExecJoin(cfg: Routes, s: State, run: seq<Label>, more: seq<Label>)
    requires Legal(cfg, s, run) && Legal(cfg, Exec(cfg, s, run), more)
    ensures Legal(cfg, s, run + more)
    ensures Exec(cfg, s, run + more) == Exec(cfg, Exec(cfg, s, run), more)
    decreases |run|
  {
    if run == [] {
      assert run + more == more;
    } else {
      assert (run + more)[1..] == run[1..] + more;
      ExecJoin(cfg, Apply(cfg, s, run[0]), run[1..], more);
    }
  }

  /** `run` takes `s` to `s'`. */
  ghost predicate Leads(cfg: Routes, s: State, run: seq<Label>, s': State) {
    Legal(cfg, s, run) && Exec(cfg, s, run) == s'
  }

  lemma Extend(cfg: Routes, s: State, run: seq<Label>, s': State, l: Label) returns (longer: seq<Label>)
    requires Leads(cfg, s, run, s') && Enabled(s', l)
    ensures Leads(cfg, s, longer, Apply(cfg, s', l))
  {
    ExecJoin(cfg, s, run, [l]);
    longer := run + [l];
  }

  lemma OneCheckIsARun(cfg: Routes, s: State, run: seq<Label>, s': State, c: nat) returns (longer: seq<Label>)
    requires Leads(cfg, s, run, s') && c < |s'.calls| && s'.calls[c].Counting?
    ensures Leads(cfg, s, longer, OneCheck(cfg, s', c, NO_FAULTS, NO_FAULTS))
  {
    hide Leads, Apply;
    longer := Extend(cfg, s, run, s', StepOf(s', c, NO_FAULTS, NO_FAULTS));
    var s1 := Advance(cfg, s', c, NO_FAULTS, NO_FAULTS);
    if s1.calls[c].Arming? {
      longer := Extend(cfg, s, longer, s1, StepOf(s1, c, NO_FAULTS, NO_FAULTS));
      var s2 := Advance(cfg, s1, c, NO_FAULTS, NO_FAULTS);
      if s2.calls[c].Dropping? {
        longer := Extend(cfg, s, longer, s2, StepOf(s2, c, NO_FAULTS, NO_FAULTS));
      }
    }
  }

  /** What one request does when nobody is about and nothing fails. */
  function Visited(cfg: Routes, s: State, path: string, v: Visit): State {
    Alone(cfg, s.(now := v.now), path, v.addr, NO_FAULTS, NO_FAULTS)
  }

  lemma VisitIsARun(cfg: Routes, s: State, path: string, v: Visit) returns (run: seq<Label>)
    requires s.now <= v.now
    ensures Leads(cfg, s, run, Visited(cfg, s, path, v))
  {
    var c, s1 := |s.calls|, s.(now := v.now);
    assert Leads(cfg, s, [], s);
    run := Extend(cfg, s, [], s, Tick(v.now));
    assert Apply(cfg, s, Tick(v.now)) == s1;
    run := Extend(cfg, s, run, s1, Arrive(path, v.addr));
    var s2 := Apply(cfg, s1, Arrive(path, v.addr));
    hide Leads, Apply;
    if s2.calls[c].Counting? {
      run := OneCheckIsARun(cfg, s, run, s2, c);
      var s3 := OneCheck(cfg, s2, c, NO_FAULTS, NO_FAULTS);
      if s3.calls[c].Counting? {
        run := OneCheckIsARun(cfg, s, run, s3, c);
      }
    }
  }

  // ---- What the others see of it ----

  /** No other call has moved, and no counter has missed its deadline. */
  ghost predicate Quietly(s: State, s': State, c: nat) {
    && |s'.calls| == |s.calls| && s'.now == s.now && s'.spoiled == s.spoiled
    && forall d :: 0 <= d < |s.calls| && d != c ==> s'.calls[d] == s.calls[d]
  }

  /** Every limit of the path has an expiry. */
  predicate Expires(cfg: Routes, path: string) {
    (LimitOf(cfg, path, Global) > 0 ==> ExpiryOf(cfg, path, Global) > 0)
    && (LimitOf(cfg, path, PerAddr) > 0 ==> ExpiryOf(cfg, path, PerAddr) > 0)
  }

  /** A call in the middle of a check that its path asks for. */
  predicate InCheck(cfg: Routes, call: Call, path: string) {
    (call.Counting? || call.Arming?) && call.path == path && LimitOf(cfg, path, call.stage) > 0
  }

  lemma AdvanceQuietly(cfg: Routes, s: State, c: nat, path: string)
    requires c < |s.calls| && InCheck(cfg, s.calls[c], path) && Expires(cfg, path)
    ensures var s' := Advance(cfg, s, c, NO_FAULTS, NO_FAULTS);
            Quietly(s, s', c) && (InCheck(cfg, s'.calls[c], path) || s'.calls[c].Answered?)
  {
    hide LimitOf, ExpiryOf, KeyOf, Count, WindowsOf, Judge, Incr, Expire;
  }

  lemma OneCheckQuietly(cfg: Routes, s: State, c: nat, path: string)
    requires c < |s.calls| && s.calls[c].Counting? && InCheck(cfg, s.calls[c], path) && Expires(cfg, path)
    ensures var s' := OneCheck(cfg, s, c, NO_FAULTS, NO_FAULTS);
            Quietly(s, s', c) && (InCheck(cfg, s'.calls[c], path) || s'.calls[c].Answered?)
  {
    hide Advance, Expires;
    AdvanceQuietly(cfg, s, c, path);
    var s1 := Advance(cfg, s, c, NO_FAULTS, NO_FAULTS);
    if s1.calls[c].Arming? {
      AdvanceQuietly(cfg, s1, c, path);
    }
  }

  lemma VisitedQuietly(cfg: Routes, s: State, path: string, v: Visit)
    requires Expires(cfg, path)
    ensures var s' := Visited(cfg, s, path, v);
            s'.now == v.now && s'.spoiled == s.spoiled && |s'.calls| == |s.calls| + 1 && s.calls <= s'.calls
  {
    var c, s1 := |s.calls|, s.(now := v.now);
    var s2 := Apply(cfg, s1, Arrive(path, v.addr));
    assert s2.calls[c] == Enter(cfg, path, v.addr);
    hide Expires, OneCheck, LimitOf;
    if s2.calls[c].Counting? {
      OneCheckQuietly(cfg, s2, c, path);
      var s3 := OneCheck(cfg, s2, c, NO_FAULTS, NO_FAULTS);
      if s3.calls[c].Counting? {
        OneCheckQuietly(cfg, s3, c, path);
      }
    }
  }

  // ---- Any number of requests ----

  /** The instants are in order. */
  predicate InTime(from: Time, visits: seq<Visit>)
    decreases |visits|
  {
    visits == [] || (from <= visits[0].now && InTime(visits[0].now, visits[1..]))
  }

  /** The call has been answered, with this response. */
  predicate Got(cfg: Routes, call: Call, path: string, v: Visit, r: Response) {
    call.Answered? && call.path == path && call.addr == v.addr && Respond(cfg, path, call.verdict) == r
  }

  /** Requests for a path, one after the other and without failures, are a run of the interleaved
      limiter, in which each gets the response it gets from the limiter that serves them one by one. */
  lemma {:induction false} ServedIsARun(cfg: Routes, s: State, path: string, visits: seq<Visit>)
    returns (run: seq<Label>, s': State)
    requires InTime(s.now, visits) && Expires(cfg, path)
    ensures Leads(cfg, s, run, s')
    ensures s'.spoiled == s.spoiled && s'.now == if visits == [] then s.now else visits[|visits| - 1].now
    ensures |s'.calls| == |s.calls| + |visits| && s.calls <= s'.calls
    ensures forall i :: 0 <= i < |visits| ==>
              Got(cfg, s'.calls[|s.calls| + i], path, visits[i], ServeAll(cfg, s.db, path, visits)[i])
    decreases |visits|
  {
    if visits == [] {
      run, s' := [], s;
    } else {
      var v, s1 := visits[0], Visited(cfg, s, path, visits[0]);
      var first := VisitIsARun(cfg, s, path, v);
      VisitedQuietly(cfg, s, path, v);
      HandleAlone(cfg, s.(now := v.now), path, v.addr, NO_FAULTS, NO_FAULTS);
      hide Handle, Alone, Expires;
      var rest;
      rest, s' := ServedIsARun(cfg, s1, path, visits[1..]);
      ExecJoin(cfg, s, first, rest);
      run := first + rest;
    }
  }

  // ---- The bound is reached ----

  /** A path with one limit asks one counter. */
  lemma OneStage(cfg: Routes, db: Counters, path: string, stage: Stage, addr: string, now: Time,
                 limit: nat, expiry: Time)
    requires RuleIs(cfg, path, stage, limit, expiry) && OnlyLimit(cfg, path, stage)
    ensures Handle(cfg, db, path, addr, now, NO_FAULTS, NO_FAULTS).0
         == CheckLimit(db, KeyOf(path, stage, addr), limit, expiry, now, NO_FAULTS).0
  {
    RuleOfRoute(cfg, path, stage, limit, expiry);
    RouteOf(cfg, path, addr);
    hide CheckLimit, KeyFor, KeyOf, RuleIs;
  }

  /** A visit to it: what it gets, and what becomes of the counter. */
  lemma OneLimitVisit(cfg: Routes, db: Counters, path: string, stage: Stage, addr: string, now: Time,
                      limit: nat, expiry: Time)
    requires RuleIs(cfg, path, stage, limit, expiry) && OnlyLimit(cfg, path, stage) && expiry > 0 && addr != "all"
    requires var k := KeyOf(path, stage, addr); Alive(db, k, now) ==> db[k].count > 0
    ensures var (db', v) := Handle(cfg, db, path, addr, now, NO_FAULTS, NO_FAULTS);
            var k := KeyOf(path, stage, addr);
            && k in db'
            && db'[k] == (if Alive(db, k, now) then Counter(db[k].count + 1, db[k].deadline)
                          else Counter(1, Some(now + expiry)))
            && (Respond(cfg, path, v).Next? <==> NextCount(db, k, now) < limit)
  {
    OneStage(cfg, db, path, stage, addr, now, limit, expiry);
    HandleAnswers(cfg, db, path, addr, now, NO_FAULTS, NO_FAULTS);
    KeyAll(path, addr);
    RouteOf(cfg, path, addr);
    CountGrows(db, KeyOf(path, stage, addr), limit, expiry, now);
    hide KeyFor, KeyOf, Handle, Respond, CheckLimit, NextCount;
  }

  lemma CountGrows(db: Counters, key: string, limit: int, expiry: Time, now: Time)
    requires expiry > 0
    requires Alive(db, key, now) ==> db[key].count > 0
    ensures var db' := CheckLimit(db, key, limit, expiry, now, NO_FAULTS).0;
            && key in db'
            && db'[key] == (if Alive(db, key, now) then Counter(db[key].count + 1, db[key].deadline)
                            else Counter(1, Some(now + expiry)))
  {
  }

  /** `limit - 1` requests at once, and as many again when their window ends. */
  function TwoBatches(addr: string, start: Time, limit: nat, expiry: Time): (vs: seq<Visit>)
    requires limit > 0
    ensures |vs| == 2 * (limit - 1)
  {
    seq(2 * (limit - 1), i => Visit(addr, if i < limit - 1 then start else start + expiry))
  }

  /** The counter after the first `i` of them. */
  predicate CountIs(db: Counters, k: string, start: Time, limit: nat, expiry: Time, i: nat) {
    if i == 0 then k !in db
    else if i < limit then k in db && db[k] == Counter(i, Some(start + expiry))
    else k in db && db[k] == Counter(i - (limit - 1), Some(start + expiry + expiry))
  }

  lemma CountGoesOn(db: Counters, db': Counters, k: string, start: Time, limit: nat, expiry: Time, i: nat)
    requires expiry > 0 && i < 2 * (limit - 1) && CountIs(db, k, start, limit, expiry, i)
    ensures var now := if i < limit - 1 then start else start + expiry;
            && NextCount(db, k, now) < limit
            && (Alive(db, k, now) ==> db[k].count > 0)
            && (k in db' && db'[k] == (if Alive(db, k, now) then Counter(db[k].count + 1, db[k].deadline)
                                       else Counter(1, Some(now + expiry))) ==>
                  CountIs(db', k, start, limit, expiry, i + 1))
  {
  }

  lemma {:induction false} BatchesPass(cfg: Routes, db: Counters, path: string, stage: Stage, addr: string, start: Time,
                                       limit: nat, expiry: Time, i: nat)
    requires RuleIs(cfg, path, stage, limit, expiry) && OnlyLimit(cfg, path, stage) && expiry > 0 && addr != "all"
    requires limit > 0 && i <= 2 * (limit - 1) && CountIs(db, KeyOf(path, stage, addr), start, limit, expiry, i)
    ensures var left := TwoBatches(addr, start, limit, expiry)[i..];
            forall j :: 0 <= j < |left| ==> ServeAll(cfg, db, path, left)[j].Next?
    decreases 2 * (limit - 1) - i
  {
    var left := TwoBatches(addr, start, limit, expiry)[i..];
    if left != [] {
      var db' := Handle(cfg, db, path, addr, left[0].now, NO_FAULTS, NO_FAULTS).0;
      hide Handle, Respond, RuleIs, OnlyLimit, KeyOf, CountIs, Alive, NextCount;
      CountGoesOn(db, db', KeyOf(path, stage, addr), start, limit, expiry, i);
      OneLimitVisit(cfg, db, path, stage, addr, left[0].now, limit, expiry);
      assert left[1..] == TwoBatches(addr, start, limit, expiry)[i + 1..];
      BatchesPass(cfg, db', path, stage, addr, start, limit, expiry, i + 1);
    }
  }

  lemma {:induction false} BatchesInTime(addr: string, start: Time, limit: nat, expiry: Time, i: nat, from: Time)
    requires limit > 0 && expiry > 0 && i <= 2 * (limit - 1)
    requires from <= if i < limit then start else start + expiry
    ensures InTime(from, TwoBatches(addr, start, limit, expiry)[i..])
    decreases 2 * (limit - 1) - i
  {
    var left := TwoBatches(addr, start, limit, expiry)[i..];
    if left != [] {
      assert left[1..] == TwoBatches(addr, start, limit, expiry)[i + 1..];
      BatchesInTime(addr, start, limit, expiry, i + 1, left[0].now);
    }
  }

  /** A run makes no hits before it starts. */
  lemma {:induction false} HitsLater(cfg: Routes, s: State, run: seq<Label>, q: Req)
    requires Legal(cfg, s, run)
    requires q in Exec(cfg, s, run).hits && q !in s.hits
    ensures s.now <= Exec(cfg, s, run).hits[q].time
    decreases |run|
  {
    if run != [] {
      var s1 := Apply(cfg, s, run[0]);
      if q in s1.hits {
        HitsKept(cfg, s1, run[1..], q, s.now);
      } else {
        HitsLater(cfg, s1, run[1..], q);
      }
    }
  }

  lemma {:induction false} HitsKept(cfg: Routes, s: State, run: seq<Label>, q: Req, from: Time)
    requires Legal(cfg, s, run) && from <= s.now && q in s.hits && from <= s.hits[q].time
    ensures q in Exec(cfg, s, run).hits && from <= Exec(cfg, s, run).hits[q].time
    decreases |run|
  {
    if run != [] {
      HitsKept(cfg, Apply(cfg, s, run[0]), run[1..], q, from);
    }
  }

  /** Every limit with an expiry can be made to hand on `2 * (limit - 1)` requests within one expiry, so
      the bound on what it hands on is the best there is. */
  lemma BoundIsReached(cfg: Routes, start: Time, path: string, stage: Stage, addr: string, limit: nat, expiry: Time)
    returns (run: seq<Label>)
    requires RuleIs(cfg, path, stage, limit, expiry) && OnlyLimit(cfg, path, stage) && expiry > 0 && PeerAddr(addr)
    ensures Legal(cfg, Init(start), run)
    ensures var s := After(cfg, start, run);
            && FromPeers(s) && KeyOf(path, stage, addr) !in s.spoiled
            && |AdmittedOn(cfg, s, path, stage, addr, start, start + expiry)| == 2 * (limit - 1)
  {
    PeersAreNotAll(addr);
    RuleOfRoute(cfg, path, stage, limit, expiry);
    OnlyExpiry(cfg, path, stage);
    var visits := TwoBatches(addr, start, limit, expiry);
    assert visits[0..] == visits;
    BatchesInTime(addr, start, limit, expiry, 0, start);
    BatchesPass(cfg, map[], path, stage, addr, start, limit, expiry, 0);
    var s;
    run, s := ServedIsARun(cfg, Init(start), path, visits);
    hide RuleIs, KeyOf, LimitOf, ExpiryOf, OnlyLimit, PeerAddr;
    GotIsAdmitted(cfg, s, path, addr, visits);
    AllAreAdmitted(cfg, start, run, path, stage, addr, expiry);
  }

  lemma GotIsAdmitted(cfg: Routes, s: State, path: string, addr: string, visits: seq<Visit>)
    requires |s.calls| == |visits|
    requires forall i :: 0 <= i < |visits| ==> visits[i].addr == addr && ServeAll(cfg, map[], path, visits)[i].Next?
    requires forall i :: 0 <= i < |visits| ==>
               Got(cfg, s.calls[0 + i], path, visits[i], ServeAll(cfg, map[], path, visits)[i])
    ensures forall call :: call in s.calls ==> call.path == path && call.addr == addr && Admitted(cfg, call)
  {
    forall c | 0 <= c < |s.calls|
      ensures s.calls[c].path == path && s.calls[c].addr == addr && Admitted(cfg, s.calls[c])
    {
      assert Got(cfg, s.calls[0 + c], path, visits[c], ServeAll(cfg, map[], path, visits)[c]);
    }
    hide Respond;
  }

  lemma AllAreAdmitted(cfg: Routes, start: Time, run: seq<Label>, path: string, stage: Stage, addr: string,
                       expiry: Time)
    requires Legal(cfg, Init(start), run) && OnlyLimit(cfg, path, stage)
    requires var s := After(cfg, start, run);
             && s.now <= start + expiry
             && forall call :: call in s.calls ==> call.path == path && call.addr == addr && Admitted(cfg, call)
    ensures var s := After(cfg, start, run);
            |AdmittedOn(cfg, s, path, stage, addr, start, start + expiry)| == |s.calls|
  {
    var s := After(cfg, start, run);
    var on := AdmittedOn(cfg, s, path, stage, addr, start, start + expiry);
    forall c | c in Below(|s.calls|) ensures c in on {
      assert s.calls[c] in s.calls;
      VisitorIsAdmitted(cfg, start, run, path, stage, addr, expiry, c);
    }
    assert on == Below(|s.calls|);
  }

  lemma OnlyExpiry(cfg: Routes, path: string, stage: Stage)
    requires OnlyLimit(cfg, path, stage) && ExpiryOf(cfg, path, stage) > 0
    ensures Expires(cfg, path)
  {
  }

  lemma VisitorIsAdmitted(cfg: Routes, start: Time, run: seq<Label>, path: string, stage: Stage, addr: string,
                          expiry: Time, c: nat)
    requires Legal(cfg, Init(start), run) && OnlyLimit(cfg, path, stage)
    requires var s := After(cfg, start, run);
             && s.now <= start + expiry
             && c < |s.calls| && Admitted(cfg, s.calls[c]) && s.calls[c].path == path && s.calls[c].addr == addr
    ensures c in AdmittedOn(cfg, After(cfg, start, run), path, stage, addr, start, start + expiry)
  {
    var s := After(cfg, start, run);
    ResponsesAreJust(cfg, start, run, c);
    assert Req(c, stage) in s.hits;
    Reachable(cfg, start, run);
    AtHit(s, Req(c, stage));
    HitsLater(cfg, Init(start), run, Req(c, stage));
  }
}
