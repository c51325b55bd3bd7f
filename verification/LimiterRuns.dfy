/** Any number of requests passing the rate limiter at once, interleaved Redis command by Redis
    command. */
module LimiterRuns {
  import opened Common
  import opened RateLimiter

  datatype Call =
    | Counting(path: string, addr: string, stage: Stage, all: Option<LimitResult>) // INCR is next
    | Arming(path: string, addr: string, stage: Stage, all: Option<LimitResult>, result: LimitResult) // INCR said 1
    | Dropping(path: string, addr: string, stage: Stage, all: Option<LimitResult>) // EXPIRE failed
    | Answered(path: string, addr: string, verdict: Verdict)
  {
    /** The call has seen its INCR create `key` and has not settled the counter's lifetime yet. */
    predicate Owns(key: string) {
      (Arming? || Dropping?) && KeyOf(path, stage, addr) == key
    }
  }

  /** One check of one request. */
  datatype Req = Req(call: nat, stage: Stage)

  /** A successful INCR: the counter, which of its windows, how many came before in that window, and
      what the server replied and the check made of it. */
  datatype Hit = Hit(
    key: string,
    window: nat,
    rank: nat,
    time: Time,
    limit: int,
    expiry: Time,
    reply: int,
    result: LimitResult)

  /** `hits` and `windows` are history: what each INCR found, and for each key the requests of each
      window in the order they were counted. A key is `spoiled` once an EXPIRE on it has failed or
      deleted it, and `stranded` once its counter has no deadline and nobody will set one: the DEL after
      a failed EXPIRE has failed as well, or the INCR that created the counter has lost its reply. */
  datatype State = State(
    now: Time,
    db: Counters,
    calls: seq<Call>,
    hits: map<Req, Hit>,
    windows: map<string, seq<seq<Req>>>,
    spoiled: set<string>,
    stranded: set<string>)

  datatype Label =
    | Tick(to: Time)
    | Arrive(path: string, addr: string)
    | StepIncr(c: nat, f: Fault)
    | StepExpire(c: nat, fails: bool)
    | StepDel(c: nat, fails: bool)

  function Init(now: Time): State {
    State(now, map[], [], map[], map[], {}, {})
  }

  predicate Enabled(s: State, l: Label) {
    match l
    case Tick(to) => s.now <= to
    case Arrive(_, _) => true
    case StepIncr(c, _) => c < |s.calls| && s.calls[c].Counting?
    case StepExpire(c, _) => c < |s.calls| && s.calls[c].Arming?
    case StepDel(c, _) => c < |s.calls| && s.calls[c].Dropping?
  }

  function Enter(cfg: Routes, path: string, addr: string): Call {
    if LimitOf(cfg, path, Global) == 0 && LimitOf(cfg, path, PerAddr) == 0 then Answered(path, addr, Bypassed)
    else if LimitOf(cfg, path, Global) > 0 then Counting(path, addr, Global, None)
    else if LimitOf(cfg, path, PerAddr) > 0 then Counting(path, addr, PerAddr, None)
    else Answered(path, addr, Decide(None, None))
  }

  /** A check has come to a result. */
  function Settle(cfg: Routes, call: Call, result: LimitResult): Call
    requires call.Counting? || call.Arming?
  {
    if call.stage == PerAddr then Answered(call.path, call.addr, Decide(call.all, Some(result)))
    else if LimitOf(cfg, call.path, PerAddr) > 0 then Counting(call.path, call.addr, PerAddr, Some(result))
    else Answered(call.path, call.addr, Decide(Some(result), None))
  }

  function WindowsOf(s: State, key: string): seq<seq<Req>> {
    if key in s.windows then s.windows[key] else []
  }

  /** A counter that is alive goes on with its window; otherwise a new one begins. */
  function Count(ws: seq<seq<Req>>, q: Req, alive: bool): seq<seq<Req>> {
    if alive && ws != [] then ws[|ws| - 1 := ws[|ws| - 1] + [q]] else ws + [[q]]
  }

  function DoIncr(cfg: Routes, s: State, c: nat, f: Fault): State
    requires c < |s.calls| && s.calls[c].Counting?
  {
    var call := s.calls[c];
    if f == Dropped then s.(calls := s.calls[c := Answered(call.path, call.addr, Broken(call.stage, false))])
    else
      var key, limit := KeyOf(call.path, call.stage, call.addr), LimitOf(cfg, call.path, call.stage);
      var q := Req(c, call.stage);
      var db := Incr(s.db, key, s.now);
      var ws := Count(WindowsOf(s, key), q, Alive(s.db, key, s.now));
      var reply := db[key].count;
      var result := Judge(limit, reply);
      var expiry := ExpiryOf(cfg, call.path, call.stage);
      s.(db := db,
         hits := s.hits[q := Hit(key, |ws| - 1, |ws[|ws| - 1]| - 1, s.now, limit, expiry, reply, result)],
         windows := s.windows[key := ws],
         calls := s.calls[c := if f == Unacked then Answered(call.path, call.addr, Broken(call.stage, true))
                               else if reply == 1 then Arming(call.path, call.addr, call.stage, call.all, result)
                               else Settle(cfg, call, result)],
         spoiled := if f == Unacked && reply == 1 then s.spoiled + {key} else s.spoiled,
         stranded := if f == Unacked && reply == 1 then s.stranded + {key} else s.stranded)
  }

  function DoExpire(cfg: Routes, s: State, c: nat, fails: bool): State
    requires c < |s.calls| && s.calls[c].Arming?
  {
    var call := s.calls[c];
    var key, expiry := KeyOf(call.path, call.stage, call.addr), ExpiryOf(cfg, call.path, call.stage);
    if fails then
      s.(calls := s.calls[c := Dropping(call.path, call.addr, call.stage, call.all)], spoiled := s.spoiled + {key})
    else
      s.(db := Expire(s.db, key, expiry, s.now),
         calls := s.calls[c := Settle(cfg, call, call.result)],
         spoiled := if expiry <= 0 then s.spoiled + {key} else s.spoiled)
  }

  function DoDel(s: State, c: nat, fails: bool): State
    requires c < |s.calls| && s.calls[c].Dropping?
  {
    var call := s.calls[c];
    var key := KeyOf(call.path, call.stage, call.addr);
    var calls := s.calls[c := Answered(call.path, call.addr, Broken(call.stage, true))];
    if fails then s.(calls := calls, stranded := s.stranded + {key})
    else s.(calls := calls, db := Del(s.db, key))
  }

  function Apply(cfg: Routes, s: State, l: Label): State
    requires Enabled(s, l)
  {
    match l
    case Tick(to) => s.(now := to)
    case Arrive(path, addr) => s.(calls := s.calls + [Enter(cfg, path, addr)])
    case StepIncr(c, f) => DoIncr(cfg, s, c, f)
    case StepExpire(c, fails) => DoExpire(cfg, s, c, fails)
    case StepDel(c, fails) => DoDel(s, c, fails)
  }

  ghost predicate Legal(cfg: Routes, s: State, run: seq<Label>)
    decreases |run|
  {
    run == [] || (Enabled(s, run[0]) && Legal(cfg, Apply(cfg, s, run[0]), run[1..]))
  }

  function Exec(cfg: Routes, s: State, run: seq<Label>): State
    requires Legal(cfg, s, run)
    decreases |run|
  {
    if run == [] then s else Exec(cfg, Apply(cfg, s, run[0]), run[1..])
  }
}
