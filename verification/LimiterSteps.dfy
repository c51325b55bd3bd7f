/** The limiter's invariant is inductive: one lemma for each part and kind of step. */
module LimiterSteps {
  import opened Common
  import opened RateLimiter
  import opened LimiterRuns
  import opened LimiterInvariant

  lemma AtCall(cfg: Routes, s: State, c: nat)
    requires CallsOk(cfg, s) && c < |s.calls|
    ensures CallOk(cfg, s, c, s.calls[c])
  {
  }

  /** The opener of the current window of a key. */
  lemma AtOpener(s: State, k: string)
    requires HistoryOk(s) && k in s.windows
    ensures s.windows[k] != [] && Current(s, k) != []
    ensures Current(s, k)[0] in s.hits
    ensures var h := s.hits[Current(s, k)[0]];
            h.key == k && h.window == |s.windows[k]| - 1 && h.rank == 0 && h.time <= s.now
  {
    assert s.windows[k][|s.windows[k]| - 1] != [];
    var q := s.windows[k][|s.windows[k]| - 1][0];
    assert q in s.hits;
  }

  // ---- INCR ----

  /** The state after an INCR by call `c` that has been executed, whether or not the reply arrived. */
  ghost predicate Incremented(cfg: Routes, s: State, s': State, c: nat, key: string, q: Req, h: Hit, f: Fault) {
    && c < |s.calls| && s.calls[c].Counting? && q == Req(c, s.calls[c].stage) && q !in s.hits
    && key == KeyOf(s.calls[c].path, s.calls[c].stage, s.calls[c].addr)
    && s' == DoIncr(cfg, s, c, f) && f != Dropped
    && q in s'.hits && h == s'.hits[q]
  }

  lemma IncrHistory(cfg: Routes, s: State, s': State, c: nat, key: string, q: Req, h: Hit, f: Fault)
    requires HistoryOk(s) && Incremented(cfg, s, s', c, key, q, h, f)
    ensures HistoryOk(s')
    ensures h.key == key && h.time == s.now && h.window == |s'.windows[key]| - 1
  {
    var ws := WindowsOf(s, key);
    var ws' := s'.windows[key];
    var alive := Alive(s.db, key, s.now);
    assert ws' == Count(ws, q, alive);
    forall p | p in s'.hits ensures HitPlaced(s'.windows, p, s'.hits[p]) && s'.hits[p].time <= s'.now {
      if p != q {
        assert HitPlaced(s.windows, p, s.hits[p]);
      }
    }
    forall k, w, r | k in s'.windows && 0 <= w < |s'.windows[k]| && 0 <= r < |s'.windows[k][w]|
      ensures var p := s'.windows[k][w][r];
              p in s'.hits && s'.hits[p].key == k && s'.hits[p].window == w && s'.hits[p].rank == r
    {
      if k == key {
        CountAt(ws, q, alive, w, r);
        if w < |ws| && r < |ws[w]| {
          assert s.windows[k][w][r] in s.hits;
        }
      } else {
        assert s.windows[k][w][r] in s.hits;
      }
    }
    forall k, w | k in s'.windows && 0 <= w < |s'.windows[k]| ensures s'.windows[k][w] != [] {
      if k in s.windows && w < |s.windows[k]| {
        assert s.windows[k][w] != [];
      }
    }
  }

  /** Growing the windows adds the new request at the very end and moves nothing. */
  lemma CountAt(ws: seq<seq<Req>>, q: Req, alive: bool, w: int, r: int)
    requires var ws' := Count(ws, q, alive); 0 <= w < |ws'| && 0 <= r < |ws'[w]|
    ensures var ws' := Count(ws, q, alive);
            if w < |ws| && r < |ws[w]| then ws'[w][r] == ws[w][r]
            else ws'[w][r] == q && w == |ws'| - 1 && r == |ws'[w]| - 1
  {
  }

  lemma IncrCounters(cfg: Routes, s: State, s': State, c: nat, key: string, q: Req, h: Hit, f: Fault)
    requires HistoryOk(s) && CountersOk(s) && Incremented(cfg, s, s', c, key, q, h, f)
    ensures CountersOk(s')
    ensures Alive(s.db, key, s.now) ==> s'.db[key].count > 1
    ensures !Alive(s.db, key, s.now) ==> s'.db[key] == Counter(1, None)
  {
    if Alive(s.db, key, s.now) {
      AtOpener(s, key);
    }
  }

  /** Nobody owns a counter that an INCR finds missing; those who own one keep it. */
  lemma IncrOwned(cfg: Routes, s: State, s': State, c: nat, key: string, q: Req, h: Hit, f: Fault, d: nat, k: string)
    requires HistoryOk(s) && CountersOk(s) && Incremented(cfg, s, s', c, key, q, h, f)
    requires d != c && Owned(s, d, k)
    ensures Owned(s', d, k)
  {
    IncrCounters(cfg, s, s', c, key, q, h, f);
    hide HistoryOk, CountersOk;
    if k == key {
      assert Current(s', k)[0] == Current(s, k)[0];
    }
  }

  lemma IncrOpener(cfg: Routes, s: State, s': State, c: nat, key: string, q: Req, h: Hit, f: Fault, k: string)
    requires HistoryOk(s) && CountersOk(s) && OwnersOk(s) && Incremented(cfg, s, s', c, key, q, h, f)
    requires Unset(s', k)
    ensures OpenerOwns(s', k)
  {
    hide HistoryOk, CountersOk, Owned;
    IncrCounters(cfg, s, s', c, key, q, h, f);
    if k != key {
      assert Unset(s, k) && OpenerOwns(s, k);
    } else if Alive(s.db, key, s.now) {
      AtCounter(s, key);
      assert Unset(s, k) && OpenerOwns(s, k);
      assert Current(s', k)[0] == Current(s, k)[0];
    }
  }

  lemma AtCounter(s: State, k: string)
    requires HistoryOk(s) && CountersOk(s) && k in s.db
    ensures k in s.windows && s.windows[k] != [] && Current(s, k) != []
    ensures s.db[k].count == |Current(s, k)|
  {
    AtOpener(s, k);
  }

  lemma IncrOwners(cfg: Routes, s: State, s': State, c: nat, key: string, q: Req, h: Hit, f: Fault)
    requires HistoryOk(s) && CountersOk(s) && OwnersOk(s) && Incremented(cfg, s, s', c, key, q, h, f)
    ensures OwnersOk(s')
  {
    hide HistoryOk, CountersOk, Unset, OpenerOwns;
    IncrCounters(cfg, s, s', c, key, q, h, f);
    forall d: nat, k | d < |s'.calls| && s'.calls[d].Owns(k) ensures Owned(s', d, k) {
      if d != c {
        assert Owned(s, d, k);
        IncrOwned(cfg, s, s', c, key, q, h, f, d, k);
      } else {
        IncrOwns(cfg, s, s', c, key, q, h, f, k);
      }
    }
    forall k | Unset(s', k) ensures OpenerOwns(s', k) {
      IncrOpener(cfg, s, s', c, key, q, h, f, k);
    }
  }

  /** An INCR that finds the counter missing makes its caller the owner. */
  lemma IncrOwns(cfg: Routes, s: State, s': State, c: nat, key: string, q: Req, h: Hit, f: Fault, k: string)
    requires HistoryOk(s) && CountersOk(s) && OwnersOk(s) && Incremented(cfg, s, s', c, key, q, h, f)
    requires s'.calls[c].Owns(k)
    ensures Owned(s', c, k)
  {
    IncrCounters(cfg, s, s', c, key, q, h, f);
    hide HistoryOk, CountersOk;
  }

  lemma IncrTimingElsewhere(cfg: Routes, s: State, s': State, c: nat, key: string, q: Req, h: Hit, f: Fault, k: string)
    requires HistoryOk(s) && TimingOk(s) && Incremented(cfg, s, s', c, key, q, h, f) && h.key == key
    requires k in s'.windows && k !in s'.spoiled && k != key
    ensures k in s'.db && Separated(s', k) && (s'.db[k].deadline.Some? ==> Covers(s', k, s'.db[k].deadline.value))
  {
    hide HistoryOk;
    assert Separated(s, k);
    assert s.db[k].deadline.Some? ==> Covers(s, k, s.db[k].deadline.value);
  }

  lemma IncrTimingFirst(cfg: Routes, s: State, s': State, c: nat, key: string, q: Req, h: Hit, f: Fault)
    requires HistoryOk(s) && Incremented(cfg, s, s', c, key, q, h, f) && key !in s.windows && !Alive(s.db, key, s.now)
    ensures key in s'.db && Separated(s', key) && s'.db[key].deadline == None
  {
    forall p | p in s.hits ensures s.hits[p].key != key {
      AtHit(s, p);
    }
    hide HistoryOk;
  }

  lemma IncrTiming(cfg: Routes, s: State, s': State, c: nat, key: string, q: Req, h: Hit, f: Fault)
    requires HistoryOk(s) && CountersOk(s) && TimingOk(s) && Incremented(cfg, s, s', c, key, q, h, f)
    ensures TimingOk(s')
  {
    IncrHistory(cfg, s, s', c, key, q, h, f);
    if key !in s.windows {
      assert key !in s.db;
      IncrTimingFirst(cfg, s, s', c, key, q, h, f);
    } else if key !in s.spoiled {
      IncrTimingAt(cfg, s, s', c, key, q, h, f);
    }
    hide HistoryOk, CountersOk, Separated, Covers;
    forall k | k in s'.windows && k !in s'.spoiled
      ensures k in s'.db && Separated(s', k) && (s'.db[k].deadline.Some? ==> Covers(s', k, s'.db[k].deadline.value))
    {
      if k != key {
        IncrTimingElsewhere(cfg, s, s', c, key, q, h, f, k);
      }
    }
  }

  /** Every earlier hit in an older window lies before a new one at the same key. */
  ghost predicate Precede(s: State, key: string, window: int) {
    forall p :: p in s.hits && s.hits[p].key == key ==>
      && s.hits[p].window <= window
      && (s.hits[p].window < window ==>
            s.hits[p].time < s.now && (s.hits[p].rank == 0 ==> s.hits[p].time + s.hits[p].expiry <= s.now))
  }

  lemma HitsPrecede(cfg: Routes, s: State, s': State, c: nat, key: string, q: Req, h: Hit, f: Fault)
    requires HistoryOk(s) && CountersOk(s) && TimingOk(s) && Incremented(cfg, s, s', c, key, q, h, f)
    requires key in s.windows && key !in s.spoiled && h.window == |s'.windows[key]| - 1
    ensures Precede(s, key, h.window)
  {
    AtOpener(s, key);
    var opener := Current(s, key)[0];
    var d := s.db[key].deadline;
    assert Separated(s, key);
    assert d.Some? ==> Covers(s, key, d.value);
    forall p | p in s.hits && s.hits[p].key == key
      ensures s.hits[p].window <= h.window
      ensures s.hits[p].window < h.window ==>
                s.hits[p].time < s.now && (s.hits[p].rank == 0 ==> s.hits[p].time + s.hits[p].expiry <= s.now)
    {
      AtHit(s, p);
      hide HistoryOk, CountersOk, TimingOk;
      if s.hits[p].window < s.hits[opener].window {
        assert s.hits[p].time < s.hits[opener].time;
      }
    }
  }

  lemma AtHit(s: State, q: Req)
    requires HistoryOk(s) && q in s.hits
    ensures HitPlaced(s.windows, q, s.hits[q]) && s.hits[q].time <= s.now
  {
  }

  lemma IncrTimingAt(cfg: Routes, s: State, s': State, c: nat, key: string, q: Req, h: Hit, f: Fault)
    requires HistoryOk(s) && CountersOk(s) && TimingOk(s) && Incremented(cfg, s, s', c, key, q, h, f)
    requires key in s.windows && key !in s.spoiled
    ensures Separated(s', key) && (s'.db[key].deadline.Some? ==> Covers(s', key, s'.db[key].deadline.value))
  {
    IncrHistory(cfg, s, s', c, key, q, h, f);
    HitsPrecede(cfg, s, s', c, key, q, h, f);
    AtOpener(s, key);
    assert Separated(s, key);
    assert s.db[key].deadline.Some? ==> Covers(s, key, s.db[key].deadline.value);
    AtCounter(s, key);
    hide HistoryOk, CountersOk, TimingOk;
  }

  /** A call's own facts depend on its own hits only. */
  lemma CallOkFrame(cfg: Routes, s: State, s': State, c: nat, call: Call)
    requires CallOk(cfg, s, c, call)
    requires forall stage :: (Req(c, stage) in s.hits <==> Req(c, stage) in s'.hits)
                             && (Req(c, stage) in s.hits ==> s'.hits[Req(c, stage)] == s.hits[Req(c, stage)])
    ensures CallOk(cfg, s', c, call)
  {
  }

  lemma OthersKeep(cfg: Routes, s: State, s': State, c: nat, next: Call)
    requires CallsOk(cfg, s) && c < |s.calls| && s'.calls == s.calls[c := next]
    requires forall q: Req :: q.call != c ==>
               (q in s.hits <==> q in s'.hits) && (q in s.hits ==> s'.hits[q] == s.hits[q])
    requires CallOk(cfg, s', c, next)
    requires forall q :: q in s'.hits ==> q.call < |s.calls|
    ensures CallsOk(cfg, s')
  {
    forall d: nat | d < |s'.calls| ensures CallOk(cfg, s', d, s'.calls[d]) {
      if d != c {
        AtCall(cfg, s, d);
        CallOkFrame(cfg, s, s', d, s.calls[d]);
      }
    }
  }

  /** The check that is about to increase a counter has not done so before. */
  lemma FreshHit(cfg: Routes, s: State, c: nat)
    requires CallsOk(cfg, s) && c < |s.calls| && s.calls[c].Counting?
    ensures Req(c, s.calls[c].stage) !in s.hits
  {
    AtCall(cfg, s, c);
  }

  lemma IncrCallOk(cfg: Routes, s: State, s': State, c: nat, key: string, q: Req, h: Hit, f: Fault)
    requires Incremented(cfg, s, s', c, key, q, h, f) && CallOk(cfg, s, c, s.calls[c])
    ensures CallOk(cfg, s', c, s'.calls[c])
  {
    assert s'.hits == s.hits[q := h];
  }

  lemma IncrCalls(cfg: Routes, s: State, s': State, c: nat, key: string, q: Req, h: Hit, f: Fault)
    requires CallsOk(cfg, s) && Incremented(cfg, s, s', c, key, q, h, f)
    ensures CallsOk(cfg, s')
  {
    AtCall(cfg, s, c);
    IncrCallOk(cfg, s, s', c, key, q, h, f);
    OthersKeep(cfg, s, s', c, s'.calls[c]);
  }

  /** The server's reply is the request's place in the window. */
  lemma IncrReplies(cfg: Routes, s: State, s': State, c: nat, key: string, q: Req, h: Hit, f: Fault)
    requires HistoryOk(s) && CountersOk(s) && RepliesOk(s) && Incremented(cfg, s, s', c, key, q, h, f)
    ensures RepliesOk(s')
  {
    IncrCounters(cfg, s, s', c, key, q, h, f);
    hide HistoryOk;
    assert s'.hits == s.hits[q := h];
    assert h.reply == s'.db[key].count == |Current(s', key)| == h.rank + 1;
  }

  lemma IncrKeeps(cfg: Routes, s: State, c: nat, f: Fault)
    requires Inv(cfg, s) && Enabled(s, StepIncr(c, f)) && f != Dropped
    ensures Inv(cfg, DoIncr(cfg, s, c, f))
  {
    FreshHit(cfg, s, c);
    var s' := DoIncr(cfg, s, c, f);
    var q := Req(c, s.calls[c].stage);
    var key := KeyOf(s.calls[c].path, s.calls[c].stage, s.calls[c].addr);
    var h := s'.hits[q];
    assert Incremented(cfg, s, s', c, key, q, h, f);
    hide HistoryOk, CountersOk, RepliesOk, OwnersOk, TimingOk, CallsOk, Incremented, DoIncr;
    IncrHistory(cfg, s, s', c, key, q, h, f);
    IncrCounters(cfg, s, s', c, key, q, h, f);
    IncrReplies(cfg, s, s', c, key, q, h, f);
    IncrOwners(cfg, s, s', c, key, q, h, f);
    IncrTiming(cfg, s, s', c, key, q, h, f);
    IncrCalls(cfg, s, s', c, key, q, h, f);
  }

  // ---- Steps that count nothing ----

  /** Call `c` moves on and no counter is increased. */
  ghost predicate Quiet(s: State, s': State, c: nat, next: Call) {
    && c < |s.calls| && s'.calls == s.calls[c := next]
    && s'.now == s.now && s'.hits == s.hits && s'.windows == s.windows
  }

  lemma QuietCalls(cfg: Routes, s: State, s': State, c: nat, next: Call)
    requires CallsOk(cfg, s) && Quiet(s, s', c, next)
    requires CallOk(cfg, s, c, s.calls[c]) ==> CallOk(cfg, s', c, next)
    ensures CallsOk(cfg, s')
  {
    AtCall(cfg, s, c);
    OthersKeep(cfg, s, s', c, next);
  }

  lemma IncrFailKeeps(cfg: Routes, s: State, c: nat)
    requires Inv(cfg, s) && Enabled(s, StepIncr(c, Dropped))
    ensures Inv(cfg, DoIncr(cfg, s, c, Dropped))
  {
    var s' := DoIncr(cfg, s, c, Dropped);
    QuietCalls(cfg, s, s', c, s'.calls[c]);
    QuietOwners(s, s', c, s'.calls[c]);
    QuietTiming(s, s');
  }

  /** Ownership when neither the counters nor the marks change, and `c` owns as before. */
  lemma QuietOwners(s: State, s': State, c: nat, next: Call)
    requires OwnersOk(s) && Quiet(s, s', c, next)
    requires s'.db == s.db && s'.stranded == s.stranded && s.spoiled <= s'.spoiled
    requires forall k :: s.calls[c].Owns(k) <==> next.Owns(k)
    requires next.Arming? || next.Dropping? ==>
               s.calls[c].Owns(KeyOf(next.path, next.stage, next.addr)) && next.stage == s.calls[c].stage
    requires next.Dropping? ==> KeyOf(next.path, next.stage, next.addr) in s'.spoiled
    ensures OwnersOk(s')
  {
    forall d: nat, k | d < |s'.calls| && s'.calls[d].Owns(k) ensures Owned(s', d, k) {
      assert s.calls[d].Owns(k);
      assert Owned(s, d, k);
    }
    forall k | Unset(s', k) ensures OpenerOwns(s', k) {
      assert Unset(s, k) && OpenerOwns(s, k);
    }
  }

  lemma QuietTiming(s: State, s': State)
    requires TimingOk(s) && s'.hits == s.hits && s'.windows == s.windows && s.spoiled <= s'.spoiled
    requires forall k :: k in s.db && k !in s'.spoiled ==> k in s'.db && s'.db[k].deadline == s.db[k].deadline
    ensures TimingOk(s')
  {
    forall k | k in s'.windows && k !in s'.spoiled
      ensures k in s'.db && Separated(s', k) && (s'.db[k].deadline.Some? ==> Covers(s', k, s'.db[k].deadline.value))
    {
      assert Separated(s, k);
      assert s.db[k].deadline.Some? ==> Covers(s, k, s.db[k].deadline.value);
    }
  }

  // ---- EXPIRE and DEL ----

  lemma AtOwner(cfg: Routes, s: State, c: nat)
    requires Inv(cfg, s) && c < |s.calls| && (s.calls[c].Arming? || s.calls[c].Dropping?)
    ensures var key := KeyOf(s.calls[c].path, s.calls[c].stage, s.calls[c].addr);
            var q := Req(c, s.calls[c].stage);
            && Owned(s, c, key)
            && q in s.hits && HitOf(cfg, s.calls[c], s.calls[c].stage, s.hits[q])
            && s.hits[q].window == |s.windows[key]| - 1 && s.hits[q].rank == 0
  {
    var key := KeyOf(s.calls[c].path, s.calls[c].stage, s.calls[c].addr);
    assert s.calls[c].Owns(key);
    AtCall(cfg, s, c);
    AtOpener(s, key);
  }

  lemma ExpireFailKeeps(cfg: Routes, s: State, c: nat)
    requires Inv(cfg, s) && Enabled(s, StepExpire(c, true))
    ensures Inv(cfg, DoExpire(cfg, s, c, true))
  {
    var s' := DoExpire(cfg, s, c, true);
    QuietCalls(cfg, s, s', c, s'.calls[c]);
    QuietOwners(s, s', c, s'.calls[c]);
    QuietTiming(s, s');
  }

  /** The owner gives its counter up: the key gets a deadline, goes away or is stranded. */
  lemma ReleaseOwners(cfg: Routes, s: State, s': State, c: nat, next: Call)
    requires Inv(cfg, s) && Quiet(s, s', c, next) && s.spoiled <= s'.spoiled
    requires s.calls[c].Arming? || s.calls[c].Dropping?
    requires !(next.Arming? || next.Dropping?)
    requires var key := KeyOf(s.calls[c].path, s.calls[c].stage, s.calls[c].addr);
             && (forall k :: k != key ==> (k in s'.db <==> k in s.db) && (k in s.db ==> s'.db[k] == s.db[k])
                                          && (k in s'.stranded <==> k in s.stranded))
             && (key in s'.db && s'.db[key].deadline == None <==> key in s'.stranded)
             && (key in s'.stranded ==> key in s'.spoiled)
    ensures OwnersOk(s')
  {
    var key := KeyOf(s.calls[c].path, s.calls[c].stage, s.calls[c].addr);
    AtOwner(cfg, s, c);
    hide HistoryOk, CountersOk, TimingOk, CallsOk;
    forall d: nat, k | d < |s'.calls| && s'.calls[d].Owns(k) ensures Owned(s', d, k) {
      assert s.calls[d].Owns(k);
      assert Owned(s, d, k);
    }
    forall k | Unset(s', k) ensures OpenerOwns(s', k) {
      assert Unset(s, k) && OpenerOwns(s, k);
    }
  }

  lemma SameHistory(s: State, s': State)
    requires HistoryOk(s) && s'.hits == s.hits && s'.windows == s.windows && s.now <= s'.now
    ensures HistoryOk(s')
  {
  }

  lemma SettleCallOk(cfg: Routes, s: State, s': State, c: nat)
    requires CallsOk(cfg, s) && c < |s.calls| && s.calls[c].Arming? && s'.hits == s.hits
    ensures CallOk(cfg, s', c, Settle(cfg, s.calls[c], s.calls[c].result))
  {
    AtCall(cfg, s, c);
  }

  lemma DropCallOk(cfg: Routes, s: State, s': State, c: nat)
    requires CallsOk(cfg, s) && c < |s.calls| && s.calls[c].Dropping? && s'.hits == s.hits
    ensures CallOk(cfg, s', c, Answered(s.calls[c].path, s.calls[c].addr, Broken(s.calls[c].stage, true)))
  {
    AtCall(cfg, s, c);
  }

  lemma ExpireKeeps(cfg: Routes, s: State, c: nat)
    requires Inv(cfg, s) && Enabled(s, StepExpire(c, false))
    ensures Inv(cfg, DoExpire(cfg, s, c, false))
  {
    hide OwnersOk, TimingOk, CallsOk, CallOk, HistoryOk;
    AtOwner(cfg, s, c);
    var s' := DoExpire(cfg, s, c, false);
    SameHistory(s, s');
    SettleCallOk(cfg, s, s', c);
    QuietCalls(cfg, s, s', c, s'.calls[c]);
    ReleaseOwners(cfg, s, s', c, s'.calls[c]);
    ExpireTiming(cfg, s, c);
  }

  /** A deadline one expiry from now covers the current window. */
  lemma ArmCovers(s: State, k: string, deadline: Time)
    requires HistoryOk(s) && k in s.windows && s.windows[k] != [] && Current(s, k) != []
    requires var q := Current(s, k)[0]; q in s.hits && s.now < deadline && s.now + s.hits[q].expiry <= deadline
    ensures Covers(s, k, deadline)
  {
    forall p | p in s.hits && s.hits[p].key == k && s.hits[p].window == |s.windows[k]| - 1
      ensures s.hits[p].time < deadline
      ensures s.hits[p].rank == 0 ==> s.hits[p].time + s.hits[p].expiry <= deadline
    {
      AtHit(s, p);
    }
  }

  lemma CoversFrame(s: State, s': State, k: string, deadline: Time)
    requires k in s.windows && s'.hits == s.hits && s'.windows == s.windows
    ensures Separated(s, k) ==> Separated(s', k)
    ensures Covers(s, k, deadline) ==> Covers(s', k, deadline)
  {
  }

  lemma ExpireTiming(cfg: Routes, s: State, c: nat)
    requires Inv(cfg, s) && Enabled(s, StepExpire(c, false))
    ensures TimingOk(DoExpire(cfg, s, c, false))
  {
    var s' := DoExpire(cfg, s, c, false);
    var key := KeyOf(s.calls[c].path, s.calls[c].stage, s.calls[c].addr);
    AtOwner(cfg, s, c);
    hide HistoryOk, CountersOk, RepliesOk, OwnersOk, CallsOk, Covers, Separated;
    forall k | k in s'.windows && k !in s'.spoiled
      ensures k in s'.db && Separated(s', k) && (s'.db[k].deadline.Some? ==> Covers(s', k, s'.db[k].deadline.value))
    {
      assert Separated(s, k);
      if k == key {
        ArmCovers(s, k, s'.db[k].deadline.value);
      }
      if s'.db[k].deadline.Some? {
        CoversFrame(s, s', k, s'.db[k].deadline.value);
      } else {
        CoversFrame(s, s', k, 0);
      }
    }
  }

  lemma DelKeeps(cfg: Routes, s: State, c: nat, fails: bool)
    requires Inv(cfg, s) && Enabled(s, StepDel(c, fails))
    ensures Inv(cfg, DoDel(s, c, fails))
  {
    hide OwnersOk, TimingOk, CallsOk, CallOk, HistoryOk;
    AtOwner(cfg, s, c);
    var s' := DoDel(s, c, fails);
    SameHistory(s, s');
    DropCallOk(cfg, s, s', c);
    QuietCalls(cfg, s, s', c, s'.calls[c]);
    ReleaseOwners(cfg, s, s', c, s'.calls[c]);
    QuietTiming(s, s');
  }

  // ---- Time and arrivals ----

  lemma WaitKeeps(cfg: Routes, s: State, l: Label)
    requires Inv(cfg, s) && Enabled(s, l) && (l.Tick? || l.Arrive?)
    ensures Inv(cfg, Apply(cfg, s, l))
  {
    var s' := Apply(cfg, s, l);
    forall d: nat | d < |s'.calls| ensures CallOk(cfg, s', d, s'.calls[d]) {
      if d < |s.calls| {
        AtCall(cfg, s, d);
        CallOkFrame(cfg, s, s', d, s.calls[d]);
      }
    }
    WaitOwners(cfg, s, s');
    QuietTiming(s, s');
    SameHistory(s, s');
  }

  lemma WaitOwners(cfg: Routes, s: State, s': State)
    requires OwnersOk(s) && s.calls <= s'.calls
    requires forall d :: |s.calls| <= d < |s'.calls| ==> !(s'.calls[d].Arming? || s'.calls[d].Dropping?)
    requires s'.db == s.db && s'.windows == s.windows && s'.stranded == s.stranded && s'.spoiled == s.spoiled
    ensures OwnersOk(s')
  {
    forall d: nat, k | d < |s'.calls| && s'.calls[d].Owns(k) ensures Owned(s', d, k) {
      assert s.calls[d].Owns(k);
      assert Owned(s, d, k);
    }
    forall k | Unset(s', k) ensures OpenerOwns(s', k) {
      assert Unset(s, k) && OpenerOwns(s, k);
    }
  }

  lemma StepKeeps(cfg: Routes, s: State, l: Label)
    requires Inv(cfg, s) && Enabled(s, l)
    ensures Inv(cfg, Apply(cfg, s, l))
  {
    hide Inv, DoIncr, DoExpire, DoDel;
    match l
    case Tick(_) => WaitKeeps(cfg, s, l);
    case Arrive(_, _) => WaitKeeps(cfg, s, l);
    case StepIncr(c, f) => if f == Dropped { IncrFailKeeps(cfg, s, c); } else { IncrKeeps(cfg, s, c, f); }
    case StepExpire(c, fails) => if fails { ExpireFailKeeps(cfg, s, c); } else { ExpireKeeps(cfg, s, c); }
    case StepDel(c, fails) => DelKeeps(cfg, s, c, fails);
  }

  lemma {:induction false} ExecKeeps(cfg: Routes, s: State, run: seq<Label>)
    requires Inv(cfg, s) && Legal(cfg, s, run)
    ensures Inv(cfg, Exec(cfg, s, run))
    decreases |run|
  {
    if run != [] {
      StepKeeps(cfg, s, run[0]);
      ExecKeeps(cfg, Apply(cfg, s, run[0]), run[1..]);
    }
  }

  /** Every reachable state satisfies the invariant, whatever the requests, their order, the clock
      and the failures. */
  lemma Reachable(cfg: Routes, start: Time, run: seq<Label>)
    requires Legal(cfg, Init(start), run)
    ensures Inv(cfg, Exec(cfg, Init(start), run))
  {
    ExecKeeps(cfg, Init(start), run);
  }
}
