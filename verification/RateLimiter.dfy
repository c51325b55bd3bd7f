/** The fixed-window rate limiter: two counters for a route, kept in Redis. */
module RateLimiter {
  import opened Common

  /** A counter and, once Expire has been run on it, the instant it disappears. */
  datatype Counter = Counter(count: nat, deadline: Option<Time>)

  type Counters = map<string, Counter>

  predicate Alive(db: Counters, key: string, now: Time) {
    key in db && (db[key].deadline == None || now < db[key].deadline.value)
  }

  /** INCR creates a missing counter at 1 and never touches the deadline of an existing one. */
  function Incr(db: Counters, key: string, now: Time): Counters {
    if Alive(db, key, now) then db[key := db[key].(count := db[key].count + 1)]
    else db[key := Counter(1, None)]
  }

  /** EXPIRE on a missing key does nothing; a time to live that is not positive deletes the key. */
  function Expire(db: Counters, key: string, ttl: Time, now: Time): Counters {
    if !Alive(db, key, now) then db
    else if ttl <= 0 then db - {key}
    else db[key := db[key].(deadline := Some(now + ttl))]
  }

  function Del(db: Counters, key: string): Counters {
    db - {key}
  }

  datatype LimitResult = LimitResult(remaining: int, exceeded: bool)

  function Judge(limit: int, current: int): LimitResult {
    var remaining := if limit - current < 0 then 0 else limit - current;
    LimitResult(remaining, remaining == 0)
  }

  /** Limits and expiries by path; a missing entry reads as zero. */
  datatype Routes = Routes(
    allLimits: map<string, int>,
    ipLimits: map<string, int>,
    allExpiries: map<string, Time>,
    ipExpiries: map<string, Time>)

  datatype Stage = Global | PerAddr

  function Entry(m: map<string, int>, path: string): int {
    if path in m then m[path] else 0
  }

  function LimitOf(cfg: Routes, path: string, stage: Stage): int {
    Entry(if stage.Global? then cfg.allLimits else cfg.ipLimits, path)
  }

  function ExpiryOf(cfg: Routes, path: string, stage: Stage): Time {
    Entry(if stage.Global? then cfg.allExpiries else cfg.ipExpiries, path)
  }

  function KeyFor(path: string, who: string): string {
    "rl:" + path + ":" + who
  }

  function KeyOf(path: string, stage: Stage, addr: string): string {
    KeyFor(path, if stage.Global? then "all" else addr)
  }

  datatype Verdict =
    | Bypassed
    | Passed(all: Option<LimitResult>, ip: Option<LimitResult>)
    | TooMany(all: Option<LimitResult>, ip: Option<LimitResult>)
    | Broken(stage: Stage, counted: bool) // a command failed, before or after the counter was increased

  function Decide(all: Option<LimitResult>, ip: Option<LimitResult>): Verdict {
    if (all.Some? && all.value.exceeded) || (ip.Some? && ip.value.exceeded) then TooMany(all, ip)
    else Passed(all, ip)
  }

  /** Which commands of one check fail. An INCR may have had its effect all the same; a failed EXPIRE
      or DEL has none. */
  datatype Faults = Faults(incr: Fault, expire: bool, del: bool)

  /** One check with nobody in between: the counters, the result if there is one, and whether the
      counter was increased. */
  function CheckLimit(db: Counters, key: string, limit: int, expiry: Time, now: Time, f: Faults)
    : (Counters, Option<LimitResult>, bool)
  {
    if f.incr == Dropped then (db, None, false)
    else
      var db1 := Incr(db, key, now);
      var result := Judge(limit, db1[key].count);
      if f.incr == Unacked then (db1, None, true)
      else if db1[key].count != 1 then (db1, Some(result), true)
      else if !f.expire then (Expire(db1, key, expiry, now), Some(result), true)
      else (if f.del then db1 else Del(db1, key), None, true)
  }

  /** One request with nobody in between. */
  function Handle(cfg: Routes, db: Counters, path: string, addr: string, now: Time, all: Faults, ip: Faults)
    : (Counters, Verdict)
  {
    var allLimit, ipLimit := LimitOf(cfg, path, Global), LimitOf(cfg, path, PerAddr);
    if allLimit == 0 && ipLimit == 0 then (db, Bypassed)
    else
      var (db1, r1, n1) :=
        if allLimit > 0 then CheckLimit(db, KeyOf(path, Global, addr), allLimit, ExpiryOf(cfg, path, Global), now, all)
        else (db, None, false);
      if allLimit > 0 && r1 == None then (db1, Broken(Global, n1))
      else
        var (db2, r2, n2) :=
          if ipLimit > 0
          then CheckLimit(db1, KeyOf(path, PerAddr, addr), ipLimit, ExpiryOf(cfg, path, PerAddr), now, ip)
          else (db1, None, false);
        if ipLimit > 0 && r2 == None then (db2, Broken(PerAddr, n2))
        else (db2, Decide(r1, r2))
  }

  datatype Header = GlobalLimit | GlobalRemaining | IPLimit | IPRemaining

  /** What the client gets: a status of our own or the next handler's, and the limit headers. */
  datatype Response = Next(headers: map<Header, int>) | Status(code: int, headers: map<Header, int>)

  function Headers(cfg: Routes, path: string, all: Option<LimitResult>, ip: Option<LimitResult>): map<Header, int> {
    (if all.Some? then map[GlobalLimit := LimitOf(cfg, path, Global), GlobalRemaining := all.value.remaining]
     else map[])
    + (if ip.Some? then map[IPLimit := LimitOf(cfg, path, PerAddr), IPRemaining := ip.value.remaining] else map[])
  }

  /** The two headers of one limit, as far as they are set. */
  function HeaderPair(h: Header, limit: int, h': Header, remaining: int): map<Header, int> {
    if limit <= 0 then map[] else if remaining < 0 then map[h := limit] else map[h := limit, h' := remaining]
  }

  function Respond(cfg: Routes, path: string, v: Verdict): Response {
    match v
    case Bypassed => Next(map[])
    case Passed(all, ip) => Next(Headers(cfg, path, all, ip))
    case TooMany(all, ip) => Status(429, Headers(cfg, path, all, ip))
    case Broken(_, _) => Status(500, map[])
  }

  // ---- What the client gets ----

  /** The table has a positive entry for the path. */
  predicate Limits(m: map<string, int>, path: string) {
    path in m && m[path] > 0
  }

  /** What INCR replies, if its reply arrives. */
  function NextCount(db: Counters, key: string, now: Time): int {
    if Alive(db, key, now) then db[key].count + 1 else 1
  }

  /** A check gets no reply to its INCR, or has created the counter and cannot set its deadline. */
  predicate Fails(f: Faults, reply: int) {
    f.incr != NoFault || (reply == 1 && f.expire)
  }

  /** The headers of one limit: both or none, the limit itself and what is left of it. */
  predicate Tells(headers: map<Header, int>, limit: Header, left: Header, m: map<string, int>, path: string, n: int)
  {
    if Limits(m, path) then
      && limit in headers && headers[limit] == m[path]
      && left in headers && headers[left] == if n < m[path] then m[path] - n else 0
    else limit !in headers && left !in headers
  }

  /** The response to a request in terms of the two tables and of the replies to its INCRs, `n` from the
      counter of all and `m` from that of the address: passed on exactly if every check that is made
      succeeds and finds fewer than the limit, refused with 429 exactly if they succeed and one does
      not, and with 500 and no headers exactly if one fails. */
  predicate Answers(cfg: Routes, path: string, n: int, m: int, all: Faults, ip: Faults, response: Response) {
    var failed := (Limits(cfg.allLimits, path) && Fails(all, n)) || (Limits(cfg.ipLimits, path) && Fails(ip, m));
    var below := (Limits(cfg.allLimits, path) ==> n < cfg.allLimits[path])
                 && (Limits(cfg.ipLimits, path) ==> m < cfg.ipLimits[path]);
    && (response.Next? <==> !failed && below)
    && (response.Status? && response.code == 429 <==> !failed && !below)
    && (response.Status? && response.code == 500 <==> failed)
    && (failed ==> response.headers == map[])
    && (!failed ==>
          && Tells(response.headers, GlobalLimit, GlobalRemaining, cfg.allLimits, path, n)
          && Tells(response.headers, IPLimit, IPRemaining, cfg.ipLimits, path, m))
  }

  /** The result of a check that has succeeded. */
  function Left(limit: int, n: int): LimitResult {
    LimitResult(if n < limit then limit - n else 0, limit <= n)
  }

  lemma CheckAnswers(db: Counters, key: string, limit: int, expiry: Time, now: Time, f: Faults)
    ensures var (db', result, _) := CheckLimit(db, key, limit, expiry, now, f);
            var n := NextCount(db, key, now);
            && (result == None <==> Fails(f, n))
            && (result.Some? ==> result.value == Left(limit, n))
            && (forall other, t :: other != key ==> NextCount(db', other, t) == NextCount(db, other, t))
  {
  }

  lemma DecideAnswers(cfg: Routes, path: string, n: int, m: int, all: Faults, ip: Faults)
    requires Limits(cfg.allLimits, path) ==> !Fails(all, n)
    requires Limits(cfg.ipLimits, path) ==> !Fails(ip, m)
    ensures var r1 := if Limits(cfg.allLimits, path) then Some(Left(cfg.allLimits[path], n)) else None;
            var r2 := if Limits(cfg.ipLimits, path) then Some(Left(cfg.ipLimits[path], m)) else None;
            Answers(cfg, path, n, m, all, ip, Respond(cfg, path, Decide(r1, r2)))
  {
    hide Fails;
  }

  lemma HandleAnswers(cfg: Routes, db: Counters, path: string, addr: string, now: Time, all: Faults, ip: Faults)
    requires addr != "all"
    ensures var n, m := NextCount(db, "rl:" + path + ":all", now), NextCount(db, "rl:" + path + ":" + addr, now);
            Answers(cfg, path, n, m, all, ip, Respond(cfg, path, Handle(cfg, db, path, addr, now, all, ip).1))
  {
    var allKey, ipKey := KeyFor(path, "all"), KeyFor(path, addr);
    var n, m := NextCount(db, allKey, now), NextCount(db, ipKey, now);
    RouteOf(cfg, path, addr);
    KeyAll(path, addr);
    var allLimit, ipLimit := LimitOf(cfg, path, Global), LimitOf(cfg, path, PerAddr);
    assert Limits(cfg.allLimits, path) <==> allLimit > 0;
    assert Limits(cfg.ipLimits, path) <==> ipLimit > 0;
    CheckAnswers(db, allKey, allLimit, ExpiryOf(cfg, path, Global), now, all);
    var db1 := if allLimit > 0 then CheckLimit(db, allKey, allLimit, ExpiryOf(cfg, path, Global), now, all).0 else db;
    CheckAnswers(db1, ipKey, ipLimit, ExpiryOf(cfg, path, PerAddr), now, ip);
    var failed := (Limits(cfg.allLimits, path) && Fails(all, n)) || (Limits(cfg.ipLimits, path) && Fails(ip, m));
    if failed {
      assert Handle(cfg, db, path, addr, now, all, ip).1.Broken?;
      hide Handle, CheckLimit, KeyFor, KeyOf, NextCount, Fails, LimitOf;
    } else {
      DecideAnswers(cfg, path, n, m, all, ip);
      hide Answers, Respond, CheckLimit, KeyFor, KeyOf, NextCount, Fails, LimitOf;
    }
  }

  lemma KeyAll(path: string, addr: string)
    ensures KeyFor(path, "all") == "rl:" + path + ":all" && KeyFor(path, addr) == "rl:" + path + ":" + addr
    ensures KeyFor(path, "all") == KeyFor(path, addr) ==> addr == "all"
  {
    assert "rl:" + path + ":" + "all" == "rl:" + path + ":all";
    var n := |"rl:" + path + ":"|;
    assert "all" == KeyFor(path, "all")[n..] && addr == KeyFor(path, addr)[n..];
  }

  /** Which tables and keys the two stages use. */
  lemma RouteOf(cfg: Routes, path: string, addr: string)
    ensures LimitOf(cfg, path, Global) == Entry(cfg.allLimits, path)
    ensures LimitOf(cfg, path, PerAddr) == Entry(cfg.ipLimits, path)
    ensures ExpiryOf(cfg, path, Global) == Entry(cfg.allExpiries, path)
    ensures ExpiryOf(cfg, path, PerAddr) == Entry(cfg.ipExpiries, path)
    ensures KeyOf(path, Global, addr) == KeyFor(path, "all") && KeyOf(path, PerAddr, addr) == KeyFor(path, addr)
  {
  }

  class Limiter {
    const cfg: Routes
    var db: Counters

    constructor (cfg: Routes)
      ensures this.cfg == cfg && db == map[]
    {
      this.cfg, db := cfg, map[];
    }

    method Check(key: string, limit: int, expiry: Time, now: Time, f: Faults) returns (result: Option<LimitResult>)
      modifies this
      ensures var (db', r, _) := CheckLimit(old(db), key, limit, expiry, now, f); db == db' && result == r
      ensures result.Some? ==> result.value.remaining >= 0
    {
      if f.incr != Dropped {
        db := Incr(db, key, now);
      }
      if f.incr != NoFault {
        return None;
      }
      var current := db[key].count;
      var remaining := limit - current;
      if remaining < 0 {
        remaining := 0;
      }
      if current == 1 {
        if f.expire {
          if !f.del {
            db := Del(db, key);
          }
          return None;
        }
        db := Expire(db, key, expiry, now);
      }
      result := Some(LimitResult(remaining, remaining == 0));
    }

    /** The headers are set step by step; a remaining figure below zero stands for none. */
    static method SetHeaders(allLimit: int, allRemaining: int, ipLimit: int, ipRemaining: int)
      returns (headers: map<Header, int>)
      ensures headers == HeaderPair(GlobalLimit, allLimit, GlobalRemaining, allRemaining)
                         + HeaderPair(IPLimit, ipLimit, IPRemaining, ipRemaining)
    {
      headers := map[];
      if allLimit > 0 {
        headers := headers[GlobalLimit := allLimit];
        if allRemaining >= 0 {
          headers := headers[GlobalRemaining := allRemaining];
        }
      }
      if ipLimit > 0 {
        headers := headers[IPLimit := ipLimit];
        if ipRemaining >= 0 {
          headers := headers[IPRemaining := ipRemaining];
        }
      }
    }

    /** The headers are set only after both checks have gone through. */
    method Middleware(path: string, addr: string, now: Time, all: Faults, ip: Faults) returns (response: Response)
      modifies this
      ensures var (db', v) := Handle(cfg, old(db), path, addr, now, all, ip);
              db == db' && response == Respond(cfg, path, v)
      ensures addr != "all" ==>
                var n := NextCount(old(db), "rl:" + path + ":all", now);
                var m := NextCount(old(db), "rl:" + path + ":" + addr, now);
                Answers(cfg, path, n, m, all, ip, response)
    {
      if addr != "all" {
        HandleAnswers(cfg, db, path, addr, now, all, ip);
      }
      hide CheckLimit, LimitOf, ExpiryOf, KeyOf, KeyFor, Entry, Answers, NextCount;
      RouteOf(cfg, path, addr);
      var allLimit, ipLimit := Entry(cfg.allLimits, path), Entry(cfg.ipLimits, path);
      var allExpiry, ipExpiry := Entry(cfg.allExpiries, path), Entry(cfg.ipExpiries, path);
      var allKey, ipKey := KeyFor(path, "all"), KeyFor(path, addr);
      if allLimit == 0 && ipLimit == 0 {
        return Next(map[]);
      }
      var allRemaining, ipRemaining := -1, -1;
      var allExceeded, ipExceeded := false, false;
      if allLimit > 0 {
        var result := Check(allKey, allLimit, allExpiry, now, all);
        if result == None {
          return Status(500, map[]);
        }
        allRemaining, allExceeded := result.value.remaining, result.value.exceeded;
      }
      if ipLimit > 0 {
        var result := Check(ipKey, ipLimit, ipExpiry, now, ip);
        if result == None {
          return Status(500, map[]);
        }
        ipRemaining, ipExceeded := result.value.remaining, result.value.exceeded;
      }
      var headers := SetHeaders(allLimit, allRemaining, ipLimit, ipRemaining);
      if allExceeded || ipExceeded {
        return Status(429, headers);
      }
      response := Next(headers);
    }
  }

  // ---- Keys ----

  predicate Digits(s: string) {
    s != "" && forall i :: 0 <= i < |s| ==> '0' <= s[i] <= '9'
  }

  /** How a host and a port are written: a host with colons of its own goes into brackets. */
  function JoinHostPort(host: string, port: string): string {
    (if ':' in host then "[" + host + "]" else host) + ":" + port
  }

  /** What the server fills in as the address of a TCP peer. */
  ghost predicate PeerAddr(a: string) {
    exists host: string, port :: '[' !in host && ']' !in host && Digits(port) && a == JoinHostPort(host, port)
  }

  lemma SepInside(u: string, x: string, v: string, y: string, sep: char)
    requires u + [sep] + x == v + [sep] + y && |u| < |v|
    ensures sep in x
  {
    var s := u + [sep] + x;
    assert x[|v| - |u| - 1] == s[|v|] == sep;
  }

  /** The text after the last `sep` determines the text before it. */
  lemma LastSplit(u: string, x: string, v: string, y: string, sep: char)
    requires u + [sep] + x == v + [sep] + y && sep !in x && sep !in y
    ensures u == v && x == y
  {
    var s := u + [sep] + x;
    if |u| < |v| {
      SepInside(u, x, v, y, sep);
    } else if |v| < |u| {
      SepInside(v, y, u, x, sep);
    } else {
      assert u == s[..|u|] == v && x == s[|u| + 1..] == y;
    }
  }

  /** A host as written, after a path and a colon: neither can be taken for part of the other. */
  lemma HostSplit(p: string, host: string, q: string, host': string)
    requires '[' !in host && ']' !in host && '[' !in host' && ']' !in host'
    requires var x := if ':' in host then "[" + host + "]" else host;
             var y := if ':' in host' then "[" + host' + "]" else host';
             p + ":" + x == q + ":" + y
    ensures p == q && host == host'
  {
    var x := if ':' in host then "[" + host + "]" else host;
    var y := if ':' in host' then "[" + host' + "]" else host';
    var s := p + ":" + x;
    var last := s[|s| - 1];
    assert ':' in host ==> last == ']';
    assert ':' !in host && host != "" ==> last == host[|host| - 1];
    assert ':' in host' ==> last == ']';
    assert ':' !in host' && host' != "" ==> last == host'[|host'| - 1];
    if ':' in host {
      assert s[..|s| - 1] == (p + ":") + ['['] + host == (q + ":") + ['['] + host';
      LastSplit(p + ":", host, q + ":", host', '[');
      assert p == (p + ":")[..|p|] == (q + ":")[..|q|] == q;
    } else {
      LastSplit(p, host, q, host', ':');
    }
  }

  lemma PeerKeys(p: string, a: string, q: string, b: string)
    requires PeerAddr(a) && PeerAddr(b) && p + ":" + a == q + ":" + b
    ensures p == q && a == b
  {
    var host: string, port :| '[' !in host && ']' !in host && Digits(port) && a == JoinHostPort(host, port);
    var host': string, port' :| '[' !in host' && ']' !in host' && Digits(port') && b == JoinHostPort(host', port');
    var x := if ':' in host then "[" + host + "]" else host;
    var y := if ':' in host' then "[" + host' + "]" else host';
    assert p + ":" + a == (p + ":" + x) + [':'] + port;
    assert q + ":" + b == (q + ":" + y) + [':'] + port';
    LastSplit(p + ":" + x, port, q + ":" + y, port', ':');
    HostSplit(p, host, q, host');
  }

  lemma EndsInDigit(p: string, a: string)
    requires PeerAddr(a)
    ensures var s := p + ":" + a; '0' <= s[|s| - 1] <= '9'
  {
    var host: string, port :| '[' !in host && ']' !in host && Digits(port) && a == JoinHostPort(host, port);
    var s := p + ":" + a;
    assert s[|s| - 1] == port[|port| - 1];
  }

  lemma PeersAreNotAll(a: string)
    requires PeerAddr(a)
    ensures a != "all"
  {
    EndsInDigit("", a);
    assert ("" + ":" + "all")[3] == 'l';
  }

  /** Keys of different counters never collide, whatever the paths: the address of a peer, or the word
      for all of them, can be told from the path it follows. */
  lemma KeysNeverCollide(p: string, q: string, a: string, b: string)
    requires (a == "all" || PeerAddr(a)) && (b == "all" || PeerAddr(b))
    ensures KeyFor(p, a) == KeyFor(q, b) <==> p == q && a == b
  {
    if KeyFor(p, a) == KeyFor(q, b) {
      var s := p + ":" + a;
      assert s == KeyFor(p, a)[3..] == KeyFor(q, b)[3..] == q + ":" + b;
      if a == "all" || b == "all" {
        assert a == "all" ==> s[|s| - 1] == 'l';
        assert b == "all" ==> s[|s| - 1] == 'l';
        if PeerAddr(a) {
          EndsInDigit(p, a);
        }
        if PeerAddr(b) {
          EndsInDigit(q, b);
        }
        assert p == s[..|s| - 4] == (q + ":" + b)[..|s| - 4];
      } else {
        PeerKeys(p, a, q, b);
      }
    }
  }
}
