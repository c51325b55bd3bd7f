/** What becomes of a limit whose counter does not expire as it should: one that is stranded without a
    deadline, and one that is deleted by its own EXPIRE. */
module LimiterMishaps {
  import opened Common
  import opened RateLimiter
  import opened LimiterRuns
  import opened LimiterInvariant
  import opened LimiterSteps
  import opened LimiterTheorems

  // ---- A stranded counter ----

  /** From `s` to `s'` the counter `k` has been stranded throughout: it is still there and in the same
      window, and whoever was counted in the meantime came after those counted before. */
  ghost predicate StillStranded(s: State, s': State, k: string) {
    && k in s.db && k in s'.db && k in s.windows && k in s'.windows
    && k in s'.stranded
    && |s'.windows[k]| == |s.windows[k]|
    && s.db[k].count <= s'.db[k].count
    && (forall q :: q in s.hits ==> q in s'.hits && s'.hits[q] == s.hits[q])
    && (forall q :: q in s'.hits && q !in s.hits && s'.hits[q].key == k ==>
          s'.hits[q].window == |s.windows[k]| - 1 && s.db[k].count <= s'.hits[q].rank)
  }

  lemma StrandedFacts(cfg: Routes, s: State, k: string)
    requires Inv(cfg, s) && k in s.stranded
    ensures k in s.db && s.db[k].deadline == None && k in s.windows && s.windows[k] != [] && Current(s, k) != []
    ensures s.db[k].count == |Current(s, k)|
  {
    AtCounter(s, k);
  }

  lemma StrandedIncr(cfg: Routes, s: State, c: nat, f: Fault, k: string)
    requires Inv(cfg, s) && Enabled(s, StepIncr(c, f)) && f != Dropped && k in s.stranded
    ensures StillStranded(s, DoIncr(cfg, s, c, f), k)
  {
    StrandedFacts(cfg, s, k);
    FreshHit(cfg, s, c);
    hide Inv;
  }

  lemma StrandedStep(cfg: Routes, s: State, l: Label, k: string)
    requires Inv(cfg, s) && Enabled(s, l) && k in s.stranded
    ensures StillStranded(s, Apply(cfg, s, l), k)
  {
    if l.StepIncr? && l.f != Dropped {
      StrandedIncr(cfg, s, l.c, l.f, k);
    } else {
      StrandedFacts(cfg, s, k);
      if l.StepExpire? || l.StepDel? {
        AtOwner(cfg, s, l.c);
      }
    }
    hide Inv;
  }

  lemma StrandedAgain(s: State, s1: State, s2: State, k: string)
    requires StillStranded(s, s1, k) && StillStranded(s1, s2, k)
    ensures StillStranded(s, s2, k)
  {
  }

  lemma {:induction false} StrandedForGood(cfg: Routes, s: State, run: seq<Label>, k: string)
    requires Inv(cfg, s) && Legal(cfg, s, run) && k in s.stranded
    ensures StillStranded(s, Exec(cfg, s, run), k)
    decreases |run|
  {
    if run == [] {
      StrandedFacts(cfg, s, k);
    } else {
      hide Inv, StillStranded, Apply, Enabled;
      StepKeeps(cfg, s, run[0]);
      StrandedStep(cfg, s, run[0], k);
      var s1 := Apply(cfg, s, run[0]);
      assert k in s1.stranded by {
        StillThere(s, s1, k);
      }
      StrandedForGood(cfg, s1, run[1..], k);
      StrandedAgain(s, s1, Exec(cfg, s, run), k);
    }
  }

  lemma StillThere(s: State, s': State, k: string)
    requires StillStranded(s, s', k)
    ensures k in s'.stranded
  {
  }

  /** Checks of `k` made between the two states that let their request pass. */
  ghost function LaterPasses(s: State, s': State, k: string): set<Req> {
    set q | q in s'.hits && q !in s.hits && s'.hits[q].key == k && Passes(s'.hits[q])
  }

  /** Requests counted by `k` between the two states and let through. */
  ghost function LaterAdmitted(cfg: Routes, s: State, s': State, k: string): set<nat> {
    set c: nat | c < |s'.calls| && Admitted(cfg, s'.calls[c])
                 && ((Req(c, Global) in s'.hits && Req(c, Global) !in s.hits && s'.hits[Req(c, Global)].key == k)
                     || (Req(c, PerAddr) in s'.hits && Req(c, PerAddr) !in s.hits && s'.hits[Req(c, PerAddr)].key == k))
  }

  lemma LaterAdmittedAreFewer(cfg: Routes, s: State, s': State, k: string)
    requires CallsOk(cfg, s')
    ensures |LaterAdmitted(cfg, s, s', k)| <= |LaterPasses(s, s', k)|
  {
    var calls, hits := LaterAdmitted(cfg, s, s', k), LaterPasses(s, s', k);
    forall c | c in calls ensures Req(c, Global) in hits || Req(c, PerAddr) in hits {
      var global := Req(c, Global) in s'.hits && Req(c, Global) !in s.hits && s'.hits[Req(c, Global)].key == k;
      AdmittedPasses(cfg, s', c, if global then Global else PerAddr);
    }
    NoMoreCalls(calls, hits);
  }

  /** Where in the window the later passes are. */
  lemma LaterPass(cfg: Routes, s: State, s': State, k: string, limit: nat, expiry: Time, q: Req)
    requires Inv(cfg, s') && StillStranded(s, s', k) && q in LaterPasses(s, s', k)
    requires limit > 0 && OneRule(s', k, limit, expiry)
    ensures s'.hits[q].window == |s'.windows[k]| - 1 && s'.hits[q].rank < |Current(s', k)|
    ensures s.db[k].count <= s'.hits[q].rank < limit - 1
  {
    AtReply(s', q);
    AtHit(s', q);
    hide Inv;
  }

  lemma MiddleOfWindow(s: State, k: string, w: nat, from: nat, to: nat)
    requires HistoryOk(s) && k in s.windows && w < |s.windows[k]| && from <= to <= |s.windows[k][w]|
    ensures |FirstHits(s, k, w, to) - FirstHits(s, k, w, from)| == to - from
  {
    FirstOfWindow(s, k, w, from);
    FirstOfWindow(s, k, w, to);
    var early, late := FirstHits(s, k, w, from), FirstHits(s, k, w, to);
    assert early <= late;
    hide FirstHits, HistoryOk;
    assert |late| == |late - early| + |early| by {
      assert late == (late - early) + early;
    }
  }

  lemma LaterPassesAreFew(cfg: Routes, s: State, s': State, k: string, limit: nat, expiry: Time)
    requires Inv(cfg, s) && Inv(cfg, s') && k in s.stranded && StillStranded(s, s', k)
    requires limit > 0 && OneRule(s', k, limit, expiry)
    ensures var left := limit - 1 - s.db[k].count;
            |LaterPasses(s, s', k)| <= if left > 0 then left else 0
  {
    StrandedFacts(cfg, s, k);
    StrandedFacts(cfg, s', k);
    assert HistoryOk(s');
    hide Inv, HistoryOk;
    var w, count, n := |s'.windows[k]| - 1, s.db[k].count, s'.db[k].count;
    var m := if n < limit - 1 then n else limit - 1;
    var later := LaterPasses(s, s', k);
    var middle := if count < m then FirstHits(s', k, w, m) - FirstHits(s', k, w, count) else {};
    forall q | q in later ensures q in middle {
      LaterPass(cfg, s, s', k, limit, expiry, q);
    }
    hide LaterPasses, StillStranded, OneRule;
    SubsetSize(later, middle);
    if count < m {
      MiddleOfWindow(s', k, w, count, m);
    }
  }

  lemma NobodysCounter(cfg: Routes, s: State, k: string)
    requires Inv(cfg, s) && k in s.stranded
    ensures forall d: nat :: d < |s.calls| ==> !s.calls[d].Owns(k)
  {
  }

  /** The INCR that creates a counter strands it if its reply is lost: the request is answered with an
      error, and there is a counter without a deadline that no call owns. */
  lemma LostReplyStrands(cfg: Routes, start: Time, run: seq<Label>, c: nat)
    requires Legal(cfg, Init(start), run) && Enabled(After(cfg, start, run), StepIncr(c, Unacked))
    ensures var s := After(cfg, start, run);
            var s' := Apply(cfg, s, StepIncr(c, Unacked));
            var call := s.calls[c];
            var key := KeyOf(call.path, call.stage, call.addr);
            && s'.calls[c] == Answered(call.path, call.addr, Broken(call.stage, true))
            && (!Alive(s.db, key, s.now) ==>
                  && s'.db == s.db[key := Counter(1, None)] && key in s'.stranded
                  && forall d: nat :: d < |s'.calls| ==> !s'.calls[d].Owns(key))
            && (Alive(s.db, key, s.now) ==> s'.stranded == s.stranded && s'.db[key].deadline == s.db[key].deadline)
  {
    Reachable(cfg, start, run);
    var s := After(cfg, start, run);
    var s' := Apply(cfg, s, StepIncr(c, Unacked));
    var key := KeyOf(s.calls[c].path, s.calls[c].stage, s.calls[c].addr);
    StepKeeps(cfg, s, StepIncr(c, Unacked));
    if Alive(s.db, key, s.now) {
      AtCounter(s, key);
    } else {
      NobodysCounter(cfg, s', key);
    }
    hide Inv;
  }

  /** A counter that is stranded never expires and never starts anew: in all time to come it lets
      through no more requests than it had left then, and after those none. */
  lemma StrandedLocks(cfg: Routes, start: Time, run: seq<Label>, more: seq<Label>, k: string, limit: nat, expiry: Time)
    requires Legal(cfg, Init(start), run) && Legal(cfg, After(cfg, start, run), more)
    requires k in After(cfg, start, run).stranded
    requires limit > 0 && OneRule(Exec(cfg, After(cfg, start, run), more), k, limit, expiry)
    ensures var s := After(cfg, start, run);
            var s' := Exec(cfg, s, more);
            && k in s.db && k in s'.db && s'.db[k].deadline == None
            && WindowsOf(s', k) != [] && |WindowsOf(s', k)| == |WindowsOf(s, k)|
            && var left := limit - 1 - s.db[k].count;
               |LaterAdmitted(cfg, s, s', k)| <= |LaterPasses(s, s', k)| <= if left > 0 then left else 0
  {
    Reachable(cfg, start, run);
    var s := After(cfg, start, run);
    var s' := Exec(cfg, s, more);
    ExecKeeps(cfg, s, more);
    StrandedForGood(cfg, s, more, k);
    StrandedFacts(cfg, s, k);
    StrandedFacts(cfg, s', k);
    LaterPassesAreFew(cfg, s, s', k, limit, expiry);
    LaterAdmittedAreFewer(cfg, s, s', k);
  }

  // ---- A limit without an expiry ----

  const NO_FAULTS: Faults := Faults(NoFault, false, false)

  /** Two checks of a counter that was not there, with nobody else about and no failures: the second
      still finds the first one's count exactly if it comes within the expiry. */
  lemma SecondCheck(db: Counters, key: string, limit: int, expiry: Time, now: Time, later: Time)
    requires !Alive(db, key, now) && now <= later
    ensures var (db1, first, _) := CheckLimit(db, key, limit, expiry, now, NO_FAULTS);
            var (_, second, _) := CheckLimit(db1, key, limit, expiry, later, NO_FAULTS);
            && first == Some(Judge(limit, 1))
            && second == Some(Judge(limit, if later < now + expiry then 2 else 1))
  {
  }

  datatype Visit = Visit(addr: string, now: Time)

  /** Requests for one path, one after the other, without failures. */
  function ServeAll(cfg: Routes, db: Counters, path: string, visits: seq<Visit>): (rs: seq<Response>)
    ensures |rs| == |visits|
    decreases |visits|
  {
    if visits == [] then []
    else
      var (db', v) := Handle(cfg, db, path, visits[0].addr, visits[0].now, NO_FAULTS, NO_FAULTS);
      [Respond(cfg, path, v)] + ServeAll(cfg, db', path, visits[1..])
  }

  /** The path has limits, but no entry in the table of expiries, or one that is not positive. */
  ghost predicate Unexpiring(cfg: Routes, path: string) {
    forall stage :: LimitOf(cfg, path, stage) > 0 ==> LimitOf(cfg, path, stage) > 1 && ExpiryOf(cfg, path, stage) <= 0
  }

  ghost predicate NoCounters(db: Counters, path: string) {
    forall who :: KeyFor(path, who) !in db
  }

  lemma CheckLeavesNothing(db: Counters, key: string, limit: int, expiry: Time, now: Time)
    requires key !in db && limit > 1 && expiry <= 0
    ensures CheckLimit(db, key, limit, expiry, now, NO_FAULTS) == (db, Some(LimitResult(limit - 1, false)), true)
  {
    assert db[key := Counter(1, None)] - {key} == db;
  }

  lemma VisitLeavesNothing(cfg: Routes, db: Counters, path: string, v: Visit)
    requires Unexpiring(cfg, path) && NoCounters(db, path)
    ensures var (db', verdict) := Handle(cfg, db, path, v.addr, v.now, NO_FAULTS, NO_FAULTS);
            db' == db && Respond(cfg, path, verdict).Next?
  {
    forall stage | LimitOf(cfg, path, stage) > 0
      ensures var (key, limit) := (KeyOf(path, stage, v.addr), LimitOf(cfg, path, stage));
              CheckLimit(db, key, limit, ExpiryOf(cfg, path, stage), v.now, NO_FAULTS)
              == (db, Some(LimitResult(limit - 1, false)), true)
    {
      CheckLeavesNothing(db, KeyOf(path, stage, v.addr), LimitOf(cfg, path, stage), ExpiryOf(cfg, path, stage), v.now);
    }
    hide CheckLimit, KeyOf, KeyFor, LimitOf, ExpiryOf;
  }

  /** A limit without an expiry limits nothing: every EXPIRE deletes the counter it is meant to arm, and
      of requests that do not overlap none is ever turned away. */
  lemma {:induction false} NoExpiryNoLimit(cfg: Routes, db: Counters, path: string, visits: seq<Visit>)
    requires Unexpiring(cfg, path) && NoCounters(db, path)
    ensures forall i :: 0 <= i < |visits| ==> ServeAll(cfg, db, path, visits)[i].Next?
    decreases |visits|
  {
    if visits != [] {
      VisitLeavesNothing(cfg, db, path, visits[0]);
      NoExpiryNoLimit(cfg, db, path, visits[1..]);
      hide Handle;
    }
  }
}
