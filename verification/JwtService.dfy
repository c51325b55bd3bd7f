/** The token service over any of its three stores, one call at a time. */
module JwtService {
  import opened Common
  import opened Tokens
  import Keyspace = RedisKeyspace
  import Redis = RedisStorage
  import Mock = MockStore
  import Sqlite = SqliteStore

  /** What fails during one call: the lookup, a single write, and of a rotation the Exists and the
      batch on Redis, or one statement of the transaction on SQLite. */
  datatype Faults = Faults(lookup: Fault, write: Fault, check: Fault, pipe: Redis.PipeFault, tx: Sqlite.TxFault)

  const NO_FAULTS := Faults(NoFault, NoFault, NoFault, Redis.Delivered, Sqlite.Clean)

  /** The course of one call: when the signature is checked, when the store is asked for the token,
      the readings for the new pair, the instants of the store's writes, and what fails. */
  datatype Course = Course(
    read: Time,
    lookup: Time,
    readings: Readings,
    until: Time,
    write: Time,
    pipe: Redis.PipeTimes,
    faults: Faults)

  /** A call during which the clock stands still and nothing fails. */
  function At(now: Time): Course {
    Course(now, now, Readings(now, now, now, now, now, now), now, now, Redis.PipeTimes(now, now, now, now), NO_FAULTS)
  }

  /** The contents of whichever store the service was built with. */
  datatype Store =
    | RedisStore(db: Keyspace.Keyspace)
    | MockStore(table: Mock.Table)
    | SqliteStore(rows: seq<Token>)

  function Save(st: Store, record: Token, t: Course): (Store, Option<Error>) {
    match st
    case RedisStore(db) =>
      var (db', err) := Redis.SaveRefreshToken(db, record, t.until, t.write, t.faults.write);
      (RedisStore(db'), err)
    case MockStore(table) =>
      var (table', err) := Mock.Save(table, record);
      (MockStore(table'), err)
    case SqliteStore(rows) =>
      var (rows', err) := Sqlite.Save(rows, record, t.faults.write != NoFault);
      (SqliteStore(rows'), err)
  }

  function Get(st: Store, token: Jwt, t: Course): Result<Token, Error> {
    match st
    case RedisStore(db) => Redis.GetRefreshToken(db, token, t.lookup, t.faults.lookup)
    case MockStore(table) => Mock.Get(table, token)
    case SqliteStore(rows) => if t.faults.lookup != NoFault then Err(Transport) else Sqlite.Find(rows, token)
  }

  function Revoke(st: Store, token: Jwt, t: Course): (Store, Option<Error>) {
    match st
    case RedisStore(db) =>
      var (db', err) := Redis.RevokeRefreshToken(db, token, t.write, t.faults.write);
      (RedisStore(db'), err)
    case MockStore(table) =>
      var (table', err) := Mock.Revoke(table, token);
      (MockStore(table'), err)
    case SqliteStore(rows) =>
      var (rows', err) := Sqlite.Revoke(rows, token, t.faults.write != NoFault);
      (SqliteStore(rows'), err)
  }

  function RevokeAndSave(st: Store, oldToken: Jwt, record: Token, t: Course): (Store, Option<Error>) {
    match st
    case RedisStore(db) =>
      var (db', err) := Redis.RevokeAndSave(db, oldToken, record, t.pipe, t.faults.check, t.faults.pipe);
      (RedisStore(db'), err)
    case MockStore(table) =>
      var (table', err) := Mock.RevokeAndSave(table, oldToken, record);
      (MockStore(table'), err)
    case SqliteStore(rows) =>
      var (rows', err) := Sqlite.RevokeAndSave(rows, oldToken, record, t.faults.tx);
      (SqliteStore(rows'), err)
  }

  /** The pair minted under the identifiers `id` and `id + 1`. */
  function GeneratePair(cfg: Config, user: string, t: Course, id: nat): Pair {
    Pair(AccessToken(cfg, user, t.readings, id), RefreshToken(cfg, user, t.readings, id + 1), AdvertisedTTL(cfg))
  }

  function GenerateTokens(cfg: Config, st: Store, user: string, t: Course, id: nat): (Store, Result<Pair, Error>) {
    var pair := GeneratePair(cfg, user, t, id);
    var (st', err) := Save(st, NewRefreshToken(cfg, user, pair.refresh, t.readings), t);
    (st', if err == None then Ok(pair) else Err(err.value))
  }

  function ValidateRefreshToken(cfg: Config, st: Store, token: Jwt, t: Course): Result<string, Error> {
    match CheckRefreshToken(cfg, token, t.read)
    case Err(e) => Err(e)
    case Ok(user) =>
      match Get(st, token, t)
      case Err(e) => Err(e)
      case Ok(record) => if record.revoked then Err(Revoked) else Ok(user)
  }

  function RefreshTokens(cfg: Config, st: Store, token: Jwt, t: Course, id: nat): (Store, Result<Pair, Error>) {
    match ValidateRefreshToken(cfg, st, token, t)
    case Err(e) => (st, Err(e))
    case Ok(user) =>
      var pair := GeneratePair(cfg, user, t, id);
      var (st', err) := RevokeAndSave(st, token, NewRefreshToken(cfg, user, pair.refresh, t.readings), t);
      (st', if err == None then Ok(pair) else Err(err.value))
  }

  // ---- What the callers are told ----

  /** The store has a record of the token: on Redis one that is alive at this instant. */
  predicate Has(st: Store, token: Jwt, at: Time) {
    match st
    case RedisStore(db) => token in db && at < db[token].deadline
    case MockStore(table) => token in table
    case SqliteStore(rows) => exists i :: 0 <= i < |rows| && rows[i].token == token
  }

  function RecordOf(st: Store, token: Jwt, at: Time): Token
    requires Has(st, token, at)
  {
    match st
    case RedisStore(db) => db[token].record
    case MockStore(table) => table[token]
    case SqliteStore(rows) => Sqlite.Find(rows, token).value
  }

  /** ValidateRefreshToken, on every input and every store. The signature, its life and its kind are
      judged first; for a refresh token signed and current, the store's record decides. */
  lemma ValidateAnswers(cfg: Config, st: Store, token: Jwt, t: Course, user: string)
    ensures var answer := ValidateRefreshToken(cfg, st, token, t);
            && ((forall u, kind :: !SignedNow(cfg, token, t.read, u, kind)) ==> answer == Err(ParseFailed))
            && ((exists u, kind :: kind != RefreshKind && SignedNow(cfg, token, t.read, u, kind)) ==>
                  answer == Err(WrongType))
            && (SignedNow(cfg, token, t.read, user, RefreshKind) ==>
                  answer == if !st.MockStore? && t.faults.lookup != NoFault then Err(Transport)
                            else if !Has(st, token, t.lookup) then Err(NotFound)
                            else if RecordOf(st, token, t.lookup).revoked then Err(Revoked)
                            else Ok(user))
  {
    RefreshCheckIff(cfg, token, t.read, user);
    hide SignedNow, CheckRefreshToken;
  }

  /** RevokeRefreshToken, on every store: acknowledged exactly if the store can be reached and has a
      record of the token, and "not found" if it can be reached and has none. */
  lemma RevokeAnswers(st: Store, token: Jwt, t: Course)
    ensures Revoke(st, token, t).1
         == if !st.MockStore? && t.faults.write != NoFault then Some(Transport)
            else if Has(st, token, t.write) then None
            else Some(NotFound)
  {
  }

  /** After an acknowledged logout nobody gets in with the token, whenever they try; whatever other
      token there is, the store still has what it had. */
  lemma RevokeEnds(cfg: Config, st: Store, token: Jwt, t: Course, t': Course, k: Jwt)
    requires Revoke(st, token, t).1 == None && t.write <= t'.lookup
    ensures var st' := Revoke(st, token, t).0;
            && ValidateRefreshToken(cfg, st', token, t').Err?
            && (k != token ==> Get(st', k, t') == Get(st, k, t'))
  {
    if st.SqliteStore? {
      Sqlite.FindAfterUpdate(st.rows, token, token);
      Sqlite.FindAfterUpdate(st.rows, token, k);
    }
  }

  /** The store has an unrevoked record of the token for the user. */
  predicate Holds(st: Store, token: Jwt, user: string, at: Time) {
    Has(st, token, at) && !RecordOf(st, token, at).revoked && RecordOf(st, token, at).userID == user
  }

  /** When the key of a record saved with this course expires; on the other stores, never. */
  predicate Lasts(st: Store, record: Token, until: Time, at: Time, later: Time) {
    st.RedisStore? ==> at <= later < at + (record.expiresAt - until)
  }

  /** A successful GenerateTokens answers with a pair for the user, under the two new identifiers, and
      the store has the refresh token from then on; what it had of other tokens it still has. If the
      store refuses, its answer is passed on, and no pair is handed out. */
  lemma GenerateStores(cfg: Config, st: Store, user: string, t: Course, id: nat, t': Course, k: Jwt)
    requires t'.faults == NO_FAULTS
    ensures var pair := GeneratePair(cfg, user, t, id);
            var record := NewRefreshToken(cfg, user, pair.refresh, t.readings);
            var (st', result) := GenerateTokens(cfg, st, user, t, id);
            && (result == Ok(pair) || result.Err?)
            && (result.Ok? <==> Save(st, record, t).1 == None)
            && (result.Err? ==> Some(result.error) == Save(st, record, t).1)
            && (result.Ok? && Lasts(st, record, t.until, t.write, t'.lookup) ==>
                  Holds(st', pair.refresh, user, t'.lookup))
            && (result.Ok? && k != pair.refresh ==> Get(st', k, t') == Get(st, k, t'))
  {
    if st.SqliteStore? {
      var record := NewRefreshToken(cfg, user, GeneratePair(cfg, user, t, id).refresh, t.readings);
      Sqlite.FindAfterInsert(st.rows, record, record.token);
      Sqlite.FindAfterInsert(st.rows, record, k);
    }
    hide AccessToken, RefreshToken;
  }

  /** A token that does not validate is refused with the very error, and the store left alone. A
      successful RefreshTokens answers with a pair for the token's user; from then on the old token is
      refused, whenever it is tried, and the new one is in the store. */
  lemma RefreshReplaces(cfg: Config, st: Store, token: Jwt, t: Course, id: nat, t': Course)
    requires t.pipe.del <= t.pipe.setnx && t'.faults == NO_FAULTS
    ensures var (st', result) := RefreshTokens(cfg, st, token, t, id);
            match ValidateRefreshToken(cfg, st, token, t)
            case Err(e) => st' == st && result == Err(e)
            case Ok(user) =>
              var pair := GeneratePair(cfg, user, t, id);
              var record := NewRefreshToken(cfg, user, pair.refresh, t.readings);
              && (result == Ok(pair) || result.Err?)
              && (result.Ok? && Lasts(st, record, t.pipe.until, t.pipe.setnx, t'.lookup) ==>
                    && ValidateRefreshToken(cfg, st', token, t').Err?
                    && Holds(st', pair.refresh, user, t'.lookup))
  {
    var valid := ValidateRefreshToken(cfg, st, token, t);
    if valid.Ok? {
      var record := NewRefreshToken(cfg, valid.value, GeneratePair(cfg, valid.value, t, id).refresh, t.readings);
      hide ValidateRefreshToken;
      var (st', err) := RevokeAndSave(st, token, record, t);
      if err == None && Lasts(st, record, t.pipe.until, t.pipe.setnx, t'.lookup) {
        ReplaceSwaps(st, token, record, t, t');
        NotHeldIsRefused(cfg, st', token, t');
      }
    }
  }

  lemma NotHeldIsRefused(cfg: Config, st: Store, token: Jwt, t: Course)
    requires t.faults == NO_FAULTS
    requires Has(st, token, t.lookup) ==> RecordOf(st, token, t.lookup).revoked
    ensures ValidateRefreshToken(cfg, st, token, t).Err?
  {
  }

  lemma ReplaceSwaps(st: Store, token: Jwt, record: Token, t: Course, t': Course)
    requires t.pipe.del <= t.pipe.setnx && !record.revoked
    requires RevokeAndSave(st, token, record, t).1 == None
    requires Lasts(st, record, t.pipe.until, t.pipe.setnx, t'.lookup)
    ensures var st' := RevokeAndSave(st, token, record, t).0;
            && (Has(st', token, t'.lookup) ==> RecordOf(st', token, t'.lookup).revoked)
            && Holds(st', record.token, record.userID, t'.lookup)
  {
    if st.SqliteStore? {
      Sqlite.RotationReplaces(st.rows, token, record, t.faults.tx, token);
      Sqlite.RotationReplaces(st.rows, token, record, t.faults.tx, record.token);
    }
  }

  /** The store behind the service, by reference. */
  datatype Backend =
    | OnRedis(redis: Redis.Storage)
    | OnMock(mock: Mock.MockRepository)
    | OnSqlite(sqlite: Sqlite.Storage)
  {
    /** The store object itself; a mock store's records are listed by `Records`. */
    ghost function Handle(): object {
      match this
      case OnRedis(s) => s.client
      case OnMock(m) => m
      case OnSqlite(s) => s
    }

    ghost function Records(): set<object>
      reads Handle()
    {
      if OnMock? then set t | t in mock.tokens.Values else {}
    }

    ghost predicate Valid()
      reads Handle(), Records()
    {
      OnMock? ==> mock.Valid()
    }

    ghost function Value(): Store
      reads Handle(), Records()
    {
      match this
      case OnRedis(s) => RedisStore(s.client.db)
      case OnMock(m) => MockStore(m.Contents())
      case OnSqlite(s) => SqliteStore(s.rows)
    }
  }

  class JWTService {
    const cfg: Config
    const storage: Backend

    constructor (cfg: Config, storage: Backend)
      ensures this.cfg == cfg && this.storage == storage
    {
      this.cfg, this.storage := cfg, storage;
    }

    method StoreNew(record: Token, t: Course) returns (err: Option<Error>)
      requires storage.Valid()
      modifies storage.Handle()
      ensures storage.Valid() && (storage.Value(), err) == Save(old(storage.Value()), record, t)
    {
      match storage {
        case OnRedis(s) => err := s.Save(record, t.until, t.write, t.faults.write);
        case OnMock(m) =>
          var entry := new Mock.TokenObject(record);
          err := m.SaveRefreshToken(entry);
        case OnSqlite(s) => err := s.ExecInsert(record, t.faults.write != NoFault);
      }
    }

    method Fetch(token: Jwt, t: Course) returns (record: Result<Token, Error>)
      requires storage.Valid()
      ensures record == Get(storage.Value(), token, t)
    {
      match storage {
        case OnRedis(s) => record := Redis.GetRefreshToken(s.client.db, token, t.lookup, t.faults.lookup);
        case OnMock(m) =>
          var entry, err := m.GetRefreshToken(token);
          record := if entry == null then Err(NotFound) else Ok(entry.AsRecord());
        case OnSqlite(s) =>
          record := if t.faults.lookup != NoFault then Err(Transport) else Sqlite.Find(s.rows, token);
      }
    }

    method Replace(oldToken: Jwt, record: Token, t: Course) returns (err: Option<Error>)
      requires storage.Valid()
      modifies storage.Handle(), storage.Records()
      ensures storage.Valid() && (storage.Value(), err) == RevokeAndSave(old(storage.Value()), oldToken, record, t)
    {
      match storage {
        case OnRedis(s) => err := s.Rotate(oldToken, record, t.pipe, t.faults.check, t.faults.pipe);
        case OnMock(m) =>
          var entry := new Mock.TokenObject(record);
          err := m.RotateRefreshToken(oldToken, entry);
        case OnSqlite(s) => err := s.RotateRefreshToken(oldToken, record, t.faults.tx);
      }
    }

    method Generate(user: string, t: Course, id: nat) returns (pair: Result<Pair, Error>)
      requires storage.Valid()
      modifies storage.Handle()
      ensures storage.Valid()
      ensures (storage.Value(), pair) == GenerateTokens(cfg, old(storage.Value()), user, t, id)
    {
      var minted := GeneratePair(cfg, user, t, id);
      var record := NewRefreshToken(cfg, user, minted.refresh, t.readings);
      var err := StoreNew(record, t);
      pair := if err == None then Ok(minted) else Err(err.value);
    }

    method Validate(token: Jwt, t: Course) returns (user: Result<string, Error>)
      requires storage.Valid()
      ensures user == ValidateRefreshToken(cfg, storage.Value(), token, t)
    {
      user := CheckRefreshToken(cfg, token, t.read);
      if user.Err? {
        return;
      }
      var record := Fetch(token, t);
      if record.Err? {
        return Err(record.error);
      }
      if record.value.revoked {
        return Err(Revoked);
      }
    }

    /** Validates, mints, and only then asks the store to swap the tokens. */
    method Refresh(token: Jwt, t: Course, id: nat) returns (pair: Result<Pair, Error>)
      requires storage.Valid()
      modifies storage.Handle(), storage.Records()
      ensures storage.Valid()
      ensures (storage.Value(), pair) == RefreshTokens(cfg, old(storage.Value()), token, t, id)
    {
      var user := Validate(token, t);
      if user.Err? {
        return Err(user.error);
      }
      var minted := GeneratePair(cfg, user.value, t, id);
      var record := NewRefreshToken(cfg, user.value, minted.refresh, t.readings);
      var err := Replace(token, record, t);
      pair := if err == None then Ok(minted) else Err(err.value);
    }

    method RevokeRefreshToken(token: Jwt, t: Course) returns (err: Option<Error>)
      requires storage.Valid()
      modifies storage.Handle(), storage.Records()
      ensures storage.Valid() && (storage.Value(), err) == Revoke(old(storage.Value()), token, t)
    {
      match storage {
        case OnRedis(s) => err := s.Revoke(token, t.write, t.faults.write);
        case OnMock(m) => err := m.RevokeRefreshToken(token);
        case OnSqlite(s) => err := s.RevokeRefreshToken(token, t.faults.write != NoFault);
      }
    }
  }
}
