/** What every interleaving of the limiter's commands keeps. */
module LimiterInvariant {
  import opened Common
  import opened RateLimiter
  import opened LimiterRuns

  /** `hits` and `windows` describe the same history. */
  ghost predicate HistoryOk(s: State) {
    && (forall q :: q in s.hits ==> HitPlaced(s.windows, q, s.hits[q]) && s.hits[q].time <= s.now)
    && (forall k, w, r {:trigger s.windows[k][w][r]} ::
          k in s.windows && 0 <= w < |s.windows[k]| && 0 <= r < |s.windows[k][w]| ==>
          var q := s.windows[k][w][r];
          q in s.hits && s.hits[q].key == k && s.hits[q].window == w && s.hits[q].rank == r)
    && (forall k :: k in s.windows ==> s.windows[k] != [])
    && (forall k, w {:trigger s.windows[k][w]} :: k in s.windows && 0 <= w < |s.windows[k]| ==> s.windows[k][w] != [])
  }

  ghost predicate HitPlaced(windows: map<string, seq<seq<Req>>>, q: Req, h: Hit) {
    && h.key in windows
    && h.window < |windows[h.key]|
    && h.rank < |windows[h.key][h.window]|
    && windows[h.key][h.window][h.rank] == q
  }

  /** The window of `k` that is open, or was last. */
  function Current(s: State, k: string): (ws: seq<Req>)
    requires k in s.windows && s.windows[k] != []
  {
    s.windows[k][|s.windows[k]| - 1]
  }

  /** A counter holds the number of requests of its current window. */
  ghost predicate CountersOk(s: State) {
    forall k :: k in s.db ==> k in s.windows && s.windows[k] != [] && s.db[k].count == |Current(s, k)|
  }

  /** INCR has replied 1, 2, 3, ... to the requests of a window in turn, and each was judged by that. */
  ghost predicate RepliesOk(s: State) {
    forall q :: q in s.hits ==>
      && s.hits[q].reply == s.hits[q].rank + 1
      && s.hits[q].result == Judge(s.hits[q].limit, s.hits[q].reply)
  }

  /** A counter without a deadline belongs to the call that opened its window, or is stranded. */
  ghost predicate OwnersOk(s: State) {
    && (forall c: nat, k :: c < |s.calls| && s.calls[c].Owns(k) ==> Owned(s, c, k))
    && (forall k :: Unset(s, k) ==> OpenerOwns(s, k))
    && (forall k :: k in s.stranded ==> k in s.db && s.db[k].deadline == None && k in s.spoiled)
  }

  /** A counter whose deadline is still to be set. */
  ghost predicate Unset(s: State, k: string) {
    && k in s.db && s.db[k].deadline == None && k !in s.stranded
    && k in s.windows && s.windows[k] != [] && Current(s, k) != []
  }

  ghost predicate OpenerOwns(s: State, k: string)
    requires Unset(s, k)
  {
    var q := Current(s, k)[0];
    q.call < |s.calls| && s.calls[q.call].Owns(k)
  }

  ghost predicate Owned(s: State, c: nat, k: string) {
    && c < |s.calls| && (s.calls[c].Arming? || s.calls[c].Dropping?)
    && Unset(s, k)
    && Current(s, k)[0] == Req(c, s.calls[c].stage)
    && (s.calls[c].Dropping? ==> k in s.spoiled)
  }

  /** Windows of an unspoiled key do not overlap, and each lasts at least its expiry. */
  ghost predicate TimingOk(s: State) {
    forall k :: k in s.windows && k !in s.spoiled ==>
      && k in s.db
      && Separated(s, k)
      && (s.db[k].deadline.Some? ==> Covers(s, k, s.db[k].deadline.value))
  }

  ghost predicate Separated(s: State, k: string)
    requires k in s.windows
  {
    forall q, p :: q in s.hits && p in s.hits && s.hits[q].key == k && s.hits[p].key == k
                   && s.hits[q].window < s.hits[p].window ==>
      && s.hits[q].time < s.hits[p].time
      && (s.hits[q].rank == 0 ==> s.hits[q].time + s.hits[q].expiry <= s.hits[p].time)
  }

  /** The deadline of the current window comes after all its hits, an expiry after the first. */
  ghost predicate Covers(s: State, k: string, deadline: Time)
    requires k in s.windows
  {
    forall q :: q in s.hits && s.hits[q].key == k && s.hits[q].window == |s.windows[k]| - 1 ==>
      && s.hits[q].time < deadline
      && (s.hits[q].rank == 0 ==> s.hits[q].time + s.hits[q].expiry <= deadline)
  }

  // ---- Calls ----

  /** Has the call increased the counter of `stage`? */
  ghost predicate Counted(cfg: Routes, call: Call, stage: Stage) {
    match call
    case Counting(path, _, st, _) => stage == Global && st == PerAddr && LimitOf(cfg, path, Global) > 0
    case Arming(path, _, st, _, _) => stage == st || (stage == Global && LimitOf(cfg, path, Global) > 0)
    case Dropping(path, _, st, _) => stage == st || (stage == Global && LimitOf(cfg, path, Global) > 0)
    case Answered(_, _, Bypassed) => false
    case Answered(_, _, Passed(all, ip)) => if stage == Global then all.Some? else ip.Some?
    case Answered(_, _, TooMany(all, ip)) => if stage == Global then all.Some? else ip.Some?
    case Answered(path, _, Broken(st, counted)) =>
      (stage == st && counted) || (stage == Global && st == PerAddr && LimitOf(cfg, path, Global) > 0)
  }

  /** The hit of one check, in the call's own terms. */
  ghost predicate HitOf(cfg: Routes, call: Call, stage: Stage, h: Hit) {
    && h.key == KeyOf(call.path, stage, call.addr)
    && h.limit == LimitOf(cfg, call.path, stage)
    && h.expiry == ExpiryOf(cfg, call.path, stage)
  }

  /** A recorded result is there exactly if the route has the limit, and is the one of the call's hit. */
  ghost predicate ResultOf(cfg: Routes, s: State, c: nat, path: string, stage: Stage, r: Option<LimitResult>) {
    && (r.Some? <==> LimitOf(cfg, path, stage) > 0)
    && (r.Some? ==> Req(c, stage) in s.hits && r.value == s.hits[Req(c, stage)].result)
  }

  ghost predicate Progress(cfg: Routes, s: State, c: nat, call: Call) {
    match call
    case Counting(path, _, stage, all) =>
      LimitOf(cfg, path, stage) > 0 && if stage == Global then all == None else ResultOf(cfg, s, c, path, Global, all)
    case Arming(path, _, stage, all, result) =>
      && LimitOf(cfg, path, stage) > 0
      && (if stage == Global then all == None else ResultOf(cfg, s, c, path, Global, all))
      && ResultOf(cfg, s, c, path, stage, Some(result))
    case Dropping(path, _, stage, all) =>
      LimitOf(cfg, path, stage) > 0 && if stage == Global then all == None else ResultOf(cfg, s, c, path, Global, all)
    case Answered(path, _, Bypassed) => LimitOf(cfg, path, Global) == 0 && LimitOf(cfg, path, PerAddr) == 0
    case Answered(path, _, Passed(all, ip)) =>
      && ResultOf(cfg, s, c, path, Global, all) && ResultOf(cfg, s, c, path, PerAddr, ip)
      && !(all.Some? && all.value.exceeded) && !(ip.Some? && ip.value.exceeded)
    case Answered(path, _, TooMany(all, ip)) =>
      && ResultOf(cfg, s, c, path, Global, all) && ResultOf(cfg, s, c, path, PerAddr, ip)
      && ((all.Some? && all.value.exceeded) || (ip.Some? && ip.value.exceeded))
    case Answered(path, _, Broken(stage, _)) => LimitOf(cfg, path, stage) > 0
  }

  ghost predicate CallOk(cfg: Routes, s: State, c: nat, call: Call) {
    && Progress(cfg, s, c, call)
    && (forall stage :: Req(c, stage) in s.hits <==> Counted(cfg, call, stage))
    && (forall stage :: Req(c, stage) in s.hits ==> HitOf(cfg, call, stage, s.hits[Req(c, stage)]))
  }

  ghost predicate CallsOk(cfg: Routes, s: State) {
    && (forall c: nat {:trigger CallOk(cfg, s, c, s.calls[c])} :: c < |s.calls| ==> CallOk(cfg, s, c, s.calls[c]))
    && (forall q :: q in s.hits ==> q.call < |s.calls|)
  }

  ghost predicate Inv(cfg: Routes, s: State) {
    && HistoryOk(s)
    && CountersOk(s)
    && RepliesOk(s)
    && OwnersOk(s)
    && TimingOk(s)
    && CallsOk(cfg, s)
  }
}
