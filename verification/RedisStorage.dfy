/** The Redis token store. Each operation is given the instants at which its commands reach the
    server and the clock readings it takes in between. */
module RedisStorage {
  import opened Common
  import opened Tokens
  import opened RedisKeyspace

  /** Instants of one RevokeAndSave: Exists, the reading of the clock for the TTL, and the two
      pipelined commands. */
  datatype PipeTimes = PipeTimes(check: Time, until: Time, del: Time, setnx: Time)

  /** A pipeline either gets all its replies or fails after some prefix of its two commands. */
  datatype PipeFault = Delivered | CutAfter(executed: nat)

  function SaveRefreshToken(db: Keyspace, record: Token, until: Time, at: Time, f: Fault): (Keyspace, Option<Error>) {
    var ttl := record.expiresAt - until;
    if ttl <= 0 then (db, Some(Expired))
    else
      var (db', reply) := SetNX(db, record.token, record, ttl, at, f);
      (db', match reply
            case Failed => Some(Transport)
            case Answer(ok) => if ok then None else Some(AlreadyExists))
  }

  function GetRefreshToken(db: Keyspace, token: Jwt, at: Time, f: Fault): Result<Token, Error> {
    match Get(db, token, at, f)
    case Failed => Err(Transport)
    case Answer(None) => Err(NotFound)
    case Answer(Some(record)) => if record.revoked then Err(Revoked) else Ok(record)
  }

  function RevokeRefreshToken(db: Keyspace, token: Jwt, at: Time, f: Fault): (Keyspace, Option<Error>) {
    var (db', reply) := Del(db, token, at, f);
    (db', match reply
          case Failed => Some(Transport)
          case Answer(deleted) => if deleted == 0 then Some(NotFound) else None)
  }

  function RevokeAndSave(db: Keyspace, oldToken: Jwt, record: Token, t: PipeTimes, f: Fault, p: PipeFault)
    : (Keyspace, Option<Error>)
  {
    match Exists(db, oldToken, t.check, f)
    case Failed => (db, Some(Transport))
    case Answer(found) =>
      if found == 0 then (db, Some(NotFound))
      else if oldToken == record.token then (db, Some(AlreadyExists))
      else
        var ttl := record.expiresAt - t.until;
        if ttl <= 0 then (db, Some(Expired))
        else
          var (db1, del) := Del(db, oldToken, t.del, NoFault);
          var (db2, setnx) := SetNX(db1, record.token, record, ttl, t.setnx, NoFault);
          match p
          case CutAfter(k) => (if k == 0 then db else if k == 1 then db1 else db2, Some(Transport))
          case Delivered =>
            (db2, if del.value == 0 then Some(NotFound)
                  else if !setnx.value then Some(AlreadyExists)
                  else None)
  }

  class Storage {
    const client: Client

    constructor (client: Client)
      ensures this.client == client
    {
      this.client := client;
    }

    method Save(record: Token, until: Time, at: Time, f: Fault) returns (err: Option<Error>)
      modifies client
      ensures (client.db, err) == SaveRefreshToken(old(client.db), record, until, at, f)
    {
      var ttl := record.expiresAt - until;
      if ttl <= 0 {
        return Some(Expired);
      }
      var reply := client.DoSetNX(record.token, record, ttl, at, f);
      match reply {
        case Failed => err := Some(Transport);
        case Answer(ok) => err := if ok then None else Some(AlreadyExists);
      }
    }

    method Revoke(token: Jwt, at: Time, f: Fault) returns (err: Option<Error>)
      modifies client
      ensures (client.db, err) == RevokeRefreshToken(old(client.db), token, at, f)
    {
      var reply := client.DoDel(token, at, f);
      match reply {
        case Failed => err := Some(Transport);
        case Answer(deleted) => err := if deleted == 0 then Some(NotFound) else None;
      }
    }

    /** Exists first, then a pipeline that is sent as one batch but is not a transaction. */
    method Rotate(oldToken: Jwt, record: Token, t: PipeTimes, f: Fault, p: PipeFault) returns (err: Option<Error>)
      modifies client
      ensures (client.db, err) == RevokeAndSave(old(client.db), oldToken, record, t, f, p)
    {
      var found := Exists(client.db, oldToken, t.check, f);
      if found == Failed {
        return Some(Transport);
      }
      if found.value == 0 {
        return Some(NotFound);
      }
      if oldToken == record.token {
        return Some(AlreadyExists);
      }
      var ttl := record.expiresAt - t.until;
      if ttl <= 0 {
        return Some(Expired);
      }
      if p == CutAfter(0) {
        return Some(Transport);
      }
      var del := client.DoDel(oldToken, t.del, NoFault);
      if p == CutAfter(1) {
        return Some(Transport);
      }
      var setnx := client.DoSetNX(record.token, record, ttl, t.setnx, NoFault);
      if p.CutAfter? {
        return Some(Transport);
      }
      if del.value == 0 {
        return Some(NotFound);
      }
      if !setnx.value {
        return Some(AlreadyExists);
      }
      err := None;
    }
  }

  // ---- What the callers are told ----

  lemma SaveAnswers(db: Keyspace, record: Token, until: Time, at: Time, f: Fault)
    ensures var (db', err) := SaveRefreshToken(db, record, until, at, f);
            && err == (if record.expiresAt <= until then Some(Expired)
                       else if f != NoFault then Some(Transport)
                       else if record.token in Visible(db, at) then Some(AlreadyExists)
                       else None)
            && (db' == db <==> record.expiresAt <= until || f == Dropped || record.token in Visible(db, at))
  {
  }

  lemma GetAnswers(db: Keyspace, token: Jwt, at: Time, f: Fault)
    ensures GetRefreshToken(db, token, at, f)
         == if f != NoFault then Err(Transport)
            else if token !in Visible(db, at) then Err(NotFound)
            else if Visible(db, at)[token].revoked then Err(Revoked)
            else Ok(Visible(db, at)[token])
  {
  }

  /** A revocation is acknowledged exactly if the token was visible and the reply arrives; whenever the
      command arrives, nobody sees the token any more, and nothing else changes. */
  lemma RevokeAnswers(db: Keyspace, token: Jwt, at: Time, f: Fault, later: Time)
    requires at <= later
    ensures var (db', err) := RevokeRefreshToken(db, token, at, f);
            && err == (if f != NoFault then Some(Transport)
                       else if token in Visible(db, at) then None
                       else Some(NotFound))
            && Visible(db', later) == (if f == Dropped then Visible(db, later) else Visible(db, later) - {token})
  {
    DelSeen(db, token, at, f, later);
  }

  /** A saved record is exactly what a reader sees from then until its TTL has run out; every other
      key is untouched. */
  lemma SaveThenGet(db: Keyspace, record: Token, until: Time, at: Time, later: Time)
    requires !record.revoked && at <= later
    requires SaveRefreshToken(db, record, until, at, NoFault).1 == None
    ensures var db' := SaveRefreshToken(db, record, until, at, NoFault).0;
            && GetRefreshToken(db', record.token, later, NoFault)
               == (if later < at + (record.expiresAt - until) then Ok(record) else Err(NotFound))
            && Visible(db', later) - {record.token} == Visible(db, later) - {record.token}
  {
  }

  /** With nobody else between its commands, RevokeAndSave succeeds exactly when the old token is
      alive at both its checks, the new one is a different, free key and its time has not run out;
      a reader then finds the new record in place of the old one and all else as it was. */
  lemma RotateAlone(db: Keyspace, oldToken: Jwt, record: Token, t: PipeTimes, later: Time)
    requires t.check <= t.until <= t.del <= t.setnx <= later
    ensures var (db', err) := RevokeAndSave(db, oldToken, record, t, NoFault, Delivered);
            && (err == None <==>
                  && Alive(db, oldToken, t.del)
                  && oldToken != record.token
                  && t.until < record.expiresAt
                  && !Alive(db, record.token, t.setnx))
            && (err == None && later < t.setnx + (record.expiresAt - t.until) ==>
                  Visible(db', later) == (Visible(db, later) - {oldToken})[record.token := record])
  {
  }

  // ---- How far the batch falls short of a transaction ----

  /** RevokeAndSave gets past its checks and sends the batch. */
  predicate Sends(db: Keyspace, oldToken: Jwt, record: Token, t: PipeTimes, f: Fault) {
    f == NoFault && Alive(db, oldToken, t.check) && oldToken != record.token && t.until < record.expiresAt
  }

  /** Del is executed and finds the old token. */
  predicate Removes(db: Keyspace, oldToken: Jwt, t: PipeTimes, p: PipeFault) {
    p != CutAfter(0) && Alive(db, oldToken, t.del)
  }

  /** SetNX is executed and finds the new token's key free. */
  predicate Stores(db: Keyspace, record: Token, t: PipeTimes, p: PipeFault) {
    p != CutAfter(0) && p != CutAfter(1) && !Alive(db, record.token, t.setnx)
  }

  /** For every fault of Exists and every prefix of the batch: which of the two effects there are,
      and that success is reported exactly if the batch was sent, delivered and had both. */
  lemma RotateEffects(db: Keyspace, oldToken: Jwt, record: Token, t: PipeTimes, f: Fault, p: PipeFault)
    ensures var (db', err) := RevokeAndSave(db, oldToken, record, t, f, p);
            var sent := Sends(db, oldToken, record, t, f);
            && db'.Keys == db.Keys
                 - (if sent && Removes(db, oldToken, t, p) then {oldToken} else {})
                 + (if sent && Stores(db, record, t, p) then {record.token} else {})
            && (forall k :: k in db' && !(sent && Stores(db, record, t, p) && k == record.token) ==> db'[k] == db[k])
            && (sent && Stores(db, record, t, p) ==>
                  db'[record.token] == Entry(record, t.setnx + (record.expiresAt - t.until)))
            && (err == None <==>
                  sent && p == Delivered && Removes(db, oldToken, t, p) && Stores(db, record, t, p))
  {
  }

  /** The error of a rotation, kind by kind. */
  lemma RotateAnswers(db: Keyspace, oldToken: Jwt, record: Token, t: PipeTimes, f: Fault, p: PipeFault)
    ensures var err := RevokeAndSave(db, oldToken, record, t, f, p).1;
            var sent := Sends(db, oldToken, record, t, f);
            var (removed, stored) := (Removes(db, oldToken, t, p), Stores(db, record, t, p));
            err == if f != NoFault then Some(Transport)
                   else if oldToken !in Visible(db, t.check) then Some(NotFound)
                   else if oldToken == record.token then Some(AlreadyExists)
                   else if record.expiresAt <= t.until then Some(Expired)
                   else if p != Delivered then Some(Transport)
                   else if !removed then Some(NotFound)
                   else if !stored then Some(AlreadyExists)
                   else None
  {
  }

  /** A refused RevokeAndSave leaves the keyspace as it was exactly if no batch was sent or the part of
      it that was executed had neither effect. */
  lemma RefusedSwap(db: Keyspace, oldToken: Jwt, record: Token, t: PipeTimes, f: Fault, p: PipeFault)
    requires RevokeAndSave(db, oldToken, record, t, f, p).1 != None
    ensures RevokeAndSave(db, oldToken, record, t, f, p).0 == db
       <==> !(Sends(db, oldToken, record, t, f) && (Removes(db, oldToken, t, p) || Stores(db, record, t, p)))
  {
    RotateEffects(db, oldToken, record, t, f, p);
  }

  /** The three ways in which a refused call leaves a trace do occur: the old token expires before Del
      and the new one is stored, the new one is taken and the old one removed, and a cut between the
      two commands leaves neither. */
  lemma TornSwaps(oldToken: Jwt, prev: Token, record: Token, other: Token)
    requires oldToken != record.token && record.expiresAt == 20
    ensures var db := map[oldToken := Entry(prev, 10)];
            RevokeAndSave(db, oldToken, record, PipeTimes(0, 0, 10, 10), NoFault, Delivered)
            == (db[record.token := Entry(record, 30)], Some(NotFound))
    ensures var taken := map[record.token := Entry(other, 20)];
            var db := taken[oldToken := Entry(prev, 10)];
            RevokeAndSave(db, oldToken, record, PipeTimes(0, 0, 0, 0), NoFault, Delivered)
            == (taken, Some(AlreadyExists))
    ensures var db := map[oldToken := Entry(prev, 10)];
            RevokeAndSave(db, oldToken, record, PipeTimes(0, 0, 0, 0), NoFault, CutAfter(1)) == (map[], Some(Transport))
  {
    var taken := map[record.token := Entry(other, 20)];
    assert taken[oldToken := Entry(prev, 10)] - {oldToken} == taken;
  }
}
