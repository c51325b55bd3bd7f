/** A request that nobody interrupts is handled, command by command, as the limiter's own method
    handles it in one go. */
module LimiterAlone {
  import opened Common
  import opened RateLimiter
  import opened LimiterRuns

  /** The next step of call `c`, failing as its stage's faults say. */
  function StepOf(s: State, c: nat, all: Faults, ip: Faults): Label
    requires c < |s.calls|
  {
    match s.calls[c]
    case Counting(_, _, stage, _) => StepIncr(c, if stage.Global? then all.incr else ip.incr)
    case Arming(_, _, stage, _, _) => StepExpire(c, if stage.Global? then all.expire else ip.expire)
    case Dropping(_, _, stage, _) => StepDel(c, if stage.Global? then all.del else ip.del)
    case Answered(_, _, _) => Tick(s.now)
  }

  function Advance(cfg: Routes, s: State, c: nat, all: Faults, ip: Faults): (s': State)
    requires c < |s.calls|
    ensures |s'.calls| == |s.calls| && s'.now == s.now
  {
    Apply(cfg, s, StepOf(s, c, all, ip))
  }

  /** Three steps are enough for one check. */
  function OneCheck(cfg: Routes, s: State, c: nat, all: Faults, ip: Faults): (s': State)
    requires c < |s.calls| && s.calls[c].Counting?
    ensures |s'.calls| == |s.calls| && s'.now == s.now
  {
    var s1 := Advance(cfg, s, c, all, ip);
    if s1.calls[c].Arming? then
      var s2 := Advance(cfg, s1, c, all, ip);
      if s2.calls[c].Dropping? then Advance(cfg, s2, c, all, ip) else s2
    else s1
  }

  /** What the INCR of one check leads to. */
  function AfterIncr(cfg: Routes, call: Call, reply: int, f: Fault): Call
    requires call.Counting?
  {
    var result := Judge(LimitOf(cfg, call.path, call.stage), reply);
    match f
    case Dropped => Answered(call.path, call.addr, Broken(call.stage, false))
    case Unacked => Answered(call.path, call.addr, Broken(call.stage, true))
    case NoFault =>
      if reply == 1 then Arming(call.path, call.addr, call.stage, call.all, result) else Settle(cfg, call, result)
  }

  lemma IncrAlone(cfg: Routes, s: State, c: nat, all: Faults, ip: Faults)
    requires c < |s.calls| && s.calls[c].Counting?
    ensures var call := s.calls[c];
            var f := (if call.stage.Global? then all else ip).incr;
            var db := Incr(s.db, KeyOf(call.path, call.stage, call.addr), s.now);
            var s' := Advance(cfg, s, c, all, ip);
            && s'.db == (if f == Dropped then s.db else db)
            && s'.calls[c] == AfterIncr(cfg, call, db[KeyOf(call.path, call.stage, call.addr)].count, f)
  {
    hide LimitOf, ExpiryOf, KeyOf, Count, WindowsOf, Judge, Settle;
  }

  lemma ExpireAlone(cfg: Routes, s: State, c: nat, all: Faults, ip: Faults)
    requires c < |s.calls| && s.calls[c].Arming?
    ensures var call := s.calls[c];
            var f := (if call.stage.Global? then all else ip).expire;
            var expiry := ExpiryOf(cfg, call.path, call.stage);
            var s' := Advance(cfg, s, c, all, ip);
            && s'.db == (if f then s.db else Expire(s.db, KeyOf(call.path, call.stage, call.addr), expiry, s.now))
            && s'.calls[c] == if f then Dropping(call.path, call.addr, call.stage, call.all)
                              else Settle(cfg, call, call.result)
  {
    hide LimitOf, ExpiryOf, KeyOf, Settle;
  }

  lemma DelAlone(cfg: Routes, s: State, c: nat, all: Faults, ip: Faults)
    requires c < |s.calls| && s.calls[c].Dropping?
    ensures var call := s.calls[c];
            var f := (if call.stage.Global? then all else ip).del;
            var s' := Advance(cfg, s, c, all, ip);
            && s'.db == (if f then s.db else Del(s.db, KeyOf(call.path, call.stage, call.addr)))
            && s'.calls[c] == Answered(call.path, call.addr, Broken(call.stage, true))
  {
    hide KeyOf;
  }

  lemma CheckAlone(cfg: Routes, s: State, c: nat, all: Faults, ip: Faults)
    requires c < |s.calls| && s.calls[c].Counting?
    ensures var call := s.calls[c];
            var f := if call.stage.Global? then all else ip;
            var key := KeyOf(call.path, call.stage, call.addr);
            var (db, result, counted) :=
              CheckLimit(s.db, key, LimitOf(cfg, call.path, call.stage), ExpiryOf(cfg, call.path, call.stage),
                         s.now, f);
            var s' := OneCheck(cfg, s, c, all, ip);
            && s'.db == db
            && s'.calls[c] == if result.Some? then Settle(cfg, call, result.value)
                              else Answered(call.path, call.addr, Broken(call.stage, counted))
  {
    hide Advance, LimitOf, ExpiryOf, KeyOf, Judge;
    IncrAlone(cfg, s, c, all, ip);
    var s1 := Advance(cfg, s, c, all, ip);
    if s1.calls[c].Arming? {
      ExpireAlone(cfg, s1, c, all, ip);
      var s2 := Advance(cfg, s1, c, all, ip);
      if s2.calls[c].Dropping? {
        DelAlone(cfg, s2, c, all, ip);
      }
    }
  }

  /** Arrival and up to two checks. */
  function Alone(cfg: Routes, s: State, path: string, addr: string, all: Faults, ip: Faults): State {
    var c := |s.calls|;
    var s0 := Apply(cfg, s, Arrive(path, addr));
    if !s0.calls[c].Counting? then s0
    else
      var s1 := OneCheck(cfg, s0, c, all, ip);
      if !s1.calls[c].Counting? then s1 else OneCheck(cfg, s1, c, all, ip)
  }

  /** A check of one stage, in the terms of the method: broken, or on to what comes next. */
  function AfterCheck(cfg: Routes, call: Call, result: Option<LimitResult>, counted: bool): Call
    requires call.Counting?
  {
    if result == None then Answered(call.path, call.addr, Broken(call.stage, counted))
    else if call.stage == PerAddr then Answered(call.path, call.addr, Decide(call.all, result))
    else if LimitOf(cfg, call.path, PerAddr) > 0 then Counting(call.path, call.addr, PerAddr, result)
    else Answered(call.path, call.addr, Decide(result, None))
  }

  lemma StageAlone(cfg: Routes, s: State, c: nat, all: Faults, ip: Faults, path: string, addr: string, stage: Stage)
    requires c < |s.calls| && s.calls[c].Counting?
    requires s.calls[c].path == path && s.calls[c].addr == addr && s.calls[c].stage == stage
    ensures var (db, result, counted) :=
              CheckLimit(s.db, KeyOf(path, stage, addr), LimitOf(cfg, path, stage), ExpiryOf(cfg, path, stage), s.now,
                         if stage.Global? then all else ip);
            var s' := OneCheck(cfg, s, c, all, ip);
            s'.db == db && s'.calls[c] == AfterCheck(cfg, s.calls[c], result, counted)
  {
    CheckAlone(cfg, s, c, all, ip);
    hide OneCheck, CheckLimit, LimitOf, ExpiryOf, KeyOf, Decide;
  }

  /** The second check, if the route has one, and the verdict. */
  function Rest(cfg: Routes, db: Counters, path: string, addr: string, now: Time, ip: Faults,
                first: Option<LimitResult>): (Counters, Verdict)
  {
    if LimitOf(cfg, path, PerAddr) <= 0 then (db, Decide(first, None))
    else
      var (db', r, n) :=
        CheckLimit(db, KeyOf(path, PerAddr, addr), LimitOf(cfg, path, PerAddr), ExpiryOf(cfg, path, PerAddr), now, ip);
      (db', if r == None then Broken(PerAddr, n) else Decide(first, r))
  }

  lemma RestAlone(cfg: Routes, s: State, c: nat, all: Faults, ip: Faults, path: string, addr: string,
                  first: Option<LimitResult>)
    requires c < |s.calls|
    requires s.calls[c] == if LimitOf(cfg, path, PerAddr) > 0 then Counting(path, addr, PerAddr, first)
                           else Answered(path, addr, Decide(first, None))
    ensures var s' := if s.calls[c].Counting? then OneCheck(cfg, s, c, all, ip) else s;
            var (db, verdict) := Rest(cfg, s.db, path, addr, s.now, ip, first);
            s'.db == db && s'.calls[c] == Answered(path, addr, verdict)
  {
    if s.calls[c].Counting? {
      StageAlone(cfg, s, c, all, ip, path, addr, PerAddr);
      hide OneCheck, CheckLimit, LimitOf, ExpiryOf, KeyOf, Decide;
    }
  }

  lemma HandleIsRest(cfg: Routes, db: Counters, path: string, addr: string, now: Time, all: Faults, ip: Faults)
    ensures var (l, r) := (LimitOf(cfg, path, Global), LimitOf(cfg, path, PerAddr));
            Handle(cfg, db, path, addr, now, all, ip) ==
            if l == 0 && r == 0 then (db, Bypassed)
            else if l <= 0 then Rest(cfg, db, path, addr, now, ip, None)
            else
              var (db1, r1, n1) := CheckLimit(db, KeyOf(path, Global, addr), l, ExpiryOf(cfg, path, Global), now, all);
              if r1 == None then (db1, Broken(Global, n1)) else Rest(cfg, db1, path, addr, now, ip, r1)
  {
    hide CheckLimit, LimitOf, ExpiryOf, KeyOf, Decide;
  }

  lemma HandleAlone(cfg: Routes, s: State, path: string, addr: string, all: Faults, ip: Faults)
    ensures var s' := Alone(cfg, s, path, addr, all, ip);
            var (db, verdict) := Handle(cfg, s.db, path, addr, s.now, all, ip);
            s'.db == db && |s'.calls| == |s.calls| + 1 && s'.calls[|s.calls|] == Answered(path, addr, verdict)
  {
    var c := |s.calls|;
    var s0 := Apply(cfg, s, Arrive(path, addr));
    HandleIsRest(cfg, s.db, path, addr, s.now, all, ip);
    assert s0.calls[c] == Enter(cfg, path, addr) && s0.db == s.db && s0.now == s.now && |s0.calls| == c + 1;
    assert Enabled(s, Arrive(path, addr));
    hide Handle, Rest, OneCheck, CheckLimit, LimitOf, ExpiryOf, KeyOf, Decide, Apply, Enabled;
    if LimitOf(cfg, path, Global) > 0 {
      StageAlone(cfg, s0, c, all, ip, path, addr, Global);
      var s1 := OneCheck(cfg, s0, c, all, ip);
      var limit, expiry := LimitOf(cfg, path, Global), ExpiryOf(cfg, path, Global);
      var first := CheckLimit(s.db, KeyOf(path, Global, addr), limit, expiry, s.now, all).1;
      if first != None {
        RestAlone(cfg, s1, c, all, ip, path, addr, first);
      }
    } else if !(LimitOf(cfg, path, Global) == 0 && LimitOf(cfg, path, PerAddr) == 0) {
      RestAlone(cfg, s0, c, all, ip, path, addr, None);
    }
  }
}
