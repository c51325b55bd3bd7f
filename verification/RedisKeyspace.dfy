/** The Redis commands the token store issues, each atomic at one instant of the server's
    clock. A key is alive strictly before its deadline and counts as absent from then on. */
module RedisKeyspace {
  import opened Common
  import opened Tokens

  datatype Entry = Entry(record: Token, deadline: Time)

  type Keyspace = map<Jwt, Entry>

  predicate Alive(db: Keyspace, key: Jwt, now: Time) {
    key in db && now < db[key].deadline
  }

  /** What a client can see at the instant `now`. */
  function Visible(db: Keyspace, now: Time): map<Jwt, Token> {
    map key | key in db && Alive(db, key, now) :: db[key].record
  }

  function Deliver<T>(value: T, f: Fault): Reply<T> {
    if f == NoFault then Answer(value) else Failed
  }

  function SetNX(db: Keyspace, key: Jwt, record: Token, ttl: Time, now: Time, f: Fault): (Keyspace, Reply<bool>) {
    var free := !Alive(db, key, now);
    (if free && f != Dropped then db[key := Entry(record, now + ttl)] else db, Deliver(free, f))
  }

  function Get(db: Keyspace, key: Jwt, now: Time, f: Fault): Reply<Option<Token>> {
    Deliver(if Alive(db, key, now) then Some(db[key].record) else None, f)
  }

  function Exists(db: Keyspace, key: Jwt, now: Time, f: Fault): Reply<nat> {
    Deliver(if Alive(db, key, now) then 1 else 0, f)
  }

  function Del(db: Keyspace, key: Jwt, now: Time, f: Fault): (Keyspace, Reply<nat>) {
    var found := Alive(db, key, now);
    (if found && f != Dropped then db - {key} else db, Deliver(if found then 1 else 0, f))
  }

  /** The shared server, as a client handle sees it. */
  class Client {
    var db: Keyspace

    constructor ()
      ensures db == map[]
    {
      db := map[];
    }

    method DoSetNX(key: Jwt, record: Token, ttl: Time, now: Time, f: Fault) returns (reply: Reply<bool>)
      modifies this
      ensures (db, reply) == SetNX(old(db), key, record, ttl, now, f)
    {
      var free := !Alive(db, key, now);
      if free && f != Dropped {
        db := db[key := Entry(record, now + ttl)];
      }
      reply := Deliver(free, f);
    }

    method DoDel(key: Jwt, now: Time, f: Fault) returns (reply: Reply<nat>)
      modifies this
      ensures (db, reply) == Del(old(db), key, now, f)
    {
      var found := Alive(db, key, now);
      if found && f != Dropped {
        db := db - {key};
      }
      reply := Deliver(if found then 1 else 0, f);
    }
  }

  /** What clients learn from SETNX and see afterwards. It answers true exactly if nobody could see the
      key, and then the record is visible until its time to live is over; in every other case, and
      under every other key, nobody sees a difference. */
  lemma SetNXSeen(db: Keyspace, key: Jwt, record: Token, ttl: Time, now: Time, f: Fault, later: Time)
    requires now <= later
    ensures var (db', reply) := SetNX(db, key, record, ttl, now, f);
            && (reply == Answer(true) <==> f == NoFault && key !in Visible(db, now))
            && (reply == Failed <==> f != NoFault)
            && Visible(db', later) == (if key !in Visible(db, now) && f != Dropped && later < now + ttl
                                       then Visible(db, later)[key := record]
                                       else Visible(db, later))
  {
    var db' := SetNX(db, key, record, ttl, now, f).0;
    assert forall k :: k != key ==> (k in Visible(db', later) <==> k in Visible(db, later));
  }

  /** Of two SETNX on one key that are both delivered, the second answers true exactly if the record
      that the key held after the first has expired by then. */
  lemma OneSetNXWins(db: Keyspace, key: Jwt, a: Token, b: Token, ttl: Time, ttl': Time, now: Time, later: Time)
    requires now <= later
    ensures var (db', first) := SetNX(db, key, a, ttl, now, NoFault);
            var (_, second) := SetNX(db', key, b, ttl', later, NoFault);
            second == Answer(if first == Answer(true) then now + ttl <= later else later >= db[key].deadline)
  {
  }

  /** What clients learn from DEL and see afterwards. It counts 1 exactly if the key was visible; the
      key is gone for good, unless the command never arrived, and nothing else changes. */
  lemma DelSeen(db: Keyspace, key: Jwt, now: Time, f: Fault, later: Time)
    requires now <= later
    ensures var (db', reply) := Del(db, key, now, f);
            && (reply == Answer(1) <==> f == NoFault && key in Visible(db, now))
            && (reply == Answer(0) <==> f == NoFault && key !in Visible(db, now))
            && Visible(db', later) == (if f == Dropped then Visible(db, later) else Visible(db, later) - {key})
            && (f != Dropped ==> Del(db', key, later, NoFault) == (db', Answer(0)))
  {
  }
}
