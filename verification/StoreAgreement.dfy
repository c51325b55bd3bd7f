/** The three stores behind the service are interchangeable for whoever uses it one call at a time:
    each of them implements a plain set of live tokens. */
module StoreAgreement {
  import opened Common
  import opened Tokens
  import opened JwtService
  import Keyspace = RedisKeyspace
  import Redis = RedisStorage
  import Mock = MockStore
  import Sqlite = SqliteStore

  datatype Event =
    | Generate(user: string, now: Time)
    | Validate(token: Jwt, now: Time)
    | Refresh(token: Jwt, now: Time)
    | Logout(token: Jwt, now: Time)

  datatype Answer = Issued(pair: Pair) | Vouched(user: string) | Acknowledged | Refused(error: Error)

  function Answered(r: Result<Pair, Error>): Answer {
    match r
    case Ok(pair) => Issued(pair)
    case Err(e) => Refused(e)
  }

  /** One whole service call at one instant. */
  function Serve(cfg: Config, st: Store, id: nat, e: Event): (Store, Answer) {
    match e
    case Generate(user, now) =>
      var (st', r) := GenerateTokens(cfg, st, user, At(now), id);
      (st', Answered(r))
    case Validate(token, now) =>
      (st, match ValidateRefreshToken(cfg, st, token, At(now))
           case Ok(user) => Vouched(user)
           case Err(err) => Refused(err))
    case Refresh(token, now) =>
      var (st', r) := RefreshTokens(cfg, st, token, At(now), id);
      (st', Answered(r))
    case Logout(token, now) =>
      var (st', err) := Revoke(st, token, At(now));
      (st', if err == None then Acknowledged else Refused(err.value))
  }

  /** The reference: a token is good if it is in the set and its signature says so. */
  function Spec(cfg: Config, live: set<Jwt>, id: nat, e: Event): (set<Jwt>, Answer) {
    match e
    case Generate(user, now) =>
      var pair := GeneratePair(cfg, user, At(now), id);
      (live + {pair.refresh}, Issued(pair))
    case Validate(token, now) =>
      var checked := CheckRefreshToken(cfg, token, now);
      (live, if checked.Ok? && token in live then Vouched(checked.value) else Refused(NotFound))
    case Refresh(token, now) =>
      var checked := CheckRefreshToken(cfg, token, now);
      if checked.Ok? && token in live then
        var pair := GeneratePair(cfg, checked.value, At(now), id);
        (live - {token} + {pair.refresh}, Issued(pair))
      else (live, Refused(NotFound))
    case Logout(token, now) =>
      (live - {token},
       if token in live && token.Signed? && now < token.claims.expiresAt then Acknowledged else Refused(NotFound))
  }

  /** Stores need not answer as the reference does to the logout of a token that is not live, because
      it was used up before or has expired. */
  predicate Binding(e: Event, expected: Answer) {
    !e.Logout? || expected == Acknowledged
  }

  /** Equal up to the kind of error. */
  predicate Same(a: Answer, b: Answer) {
    a == b || (a.Refused? && b.Refused?)
  }

  /** Who is `k` for, if its record is in the store and not revoked at `now`? */
  predicate Present(st: Store, k: Jwt, now: Time) {
    match st
    case RedisStore(db) => Keyspace.Alive(db, k, now)
    case MockStore(table) => k in table && !table[k].revoked
    case SqliteStore(rows) => Sqlite.Find(rows, k).Ok? && !Sqlite.Find(rows, k).value.revoked
  }

  /** A record of `k` is in the store, whatever its state. */
  predicate Stored(st: Store, k: Jwt) {
    match st
    case RedisStore(db) => k in db
    case MockStore(table) => k in table
    case SqliteStore(rows) => Sqlite.HasRow(rows, k)
  }

  predicate OldId(k: Jwt, id: nat) {
    k.Signed? && k.claims.id < id
  }

  /** The store holds records under old identifiers only; those of a Redis store are unrevoked and
      outlive their tokens, and a table has one row for each token. */
  ghost predicate WellFormed(st: Store, id: nat) {
    && (forall k {:trigger OldId(k, id)} :: Stored(st, k) ==> OldId(k, id))
    && match st
       case RedisStore(db) =>
         forall k: Jwt :: k in db ==> k.Signed? && !db[k].record.revoked && k.claims.expiresAt <= db[k].deadline
       case MockStore(_) => true
       case SqliteStore(rows) => Sqlite.Unique(rows)
  }

  /** Of the tokens that have not expired, the store has exactly the live ones. */
  ghost predicate Implements(st: Store, live: set<Jwt>, id: nat, now: Time) {
    && WellFormed(st, id)
    && (forall k: Jwt {:trigger Present(st, k, now)} {:trigger k in live} ::
          k.Signed? && now < k.claims.expiresAt ==> (k in live <==> Present(st, k, now)))
  }

  // ---- What each store operation does to presence ----

  /** A store's answer is usable exactly for the tokens that are present. */
  lemma GetIsPresence(st: Store, k: Jwt, now: Time, id: nat)
    requires WellFormed(st, id)
    ensures var got := Get(st, k, At(now));
            got.Ok? && !got.value.revoked <==> Present(st, k, now)
  {
  }

  /** A record ready to be stored: of a token the store has not seen, and not yet expired. */
  ghost predicate Storable(st: Store, record: Token, id: nat, now: Time) {
    && !Stored(st, record.token) && OldId(record.token, id + 2)
    && !record.revoked && record.token.claims.expiresAt <= record.expiresAt
    && now < record.expiresAt
  }

  lemma SaveAdds(st: Store, record: Token, id: nat, now: Time)
    requires WellFormed(st, id) && Storable(st, record, id, now)
    ensures var (st', err) := Save(st, record, At(now));
            && err == None && WellFormed(st', id + 2)
            && forall k {:trigger Present(st', k, now)} ::
                 Present(st', k, now) <==> Present(st, k, now) || k == record.token
  {
    if st.SqliteStore? {
      SqlSaveAdds(st.rows, record, id, now);
    }
    var st' := Save(st, record, At(now)).0;
    forall k | Stored(st', k) ensures OldId(k, id + 2) {
      assert Stored(st, k) ==> OldId(k, id);
    }
  }

  lemma SqlSaveAdds(rows: seq<Token>, record: Token, id: nat, now: Time)
    requires WellFormed(SqliteStore(rows), id) && Storable(SqliteStore(rows), record, id, now)
    ensures var st' := SqliteStore(rows + [record]);
            && WellFormed(st', id + 2)
            && forall k {:trigger Present(st', k, now)} ::
                 Present(st', k, now) <==> Present(SqliteStore(rows), k, now) || k == record.token
  {
    var st' := SqliteStore(rows + [record]);
    forall k
      ensures Stored(st', k) ==> OldId(k, id + 2)
      ensures Present(st', k, now) <==> Present(SqliteStore(rows), k, now) || k == record.token
    {
      Sqlite.FindAfterInsert(rows, record, k);
      assert Stored(SqliteStore(rows), k) ==> OldId(k, id);
    }
  }

  lemma RevokeRemoves(st: Store, token: Jwt, id: nat, now: Time)
    requires WellFormed(st, id)
    ensures var st' := Revoke(st, token, At(now)).0;
            && WellFormed(st', id)
            && forall k {:trigger Present(st', k, now)} :: Present(st', k, now) <==> Present(st, k, now) && k != token
  {
    if st.SqliteStore? {
      var st' := Revoke(st, token, At(now)).0;
      forall k
        ensures Stored(st', k) ==> OldId(k, id)
        ensures Present(st', k, now) <==> Present(st, k, now) && k != token
      {
        Sqlite.FindAfterUpdate(st.rows, token, k);
        Sqlite.UpdateKeepsTokens(st.rows, token, k);
        assert Stored(st, k) ==> OldId(k, id);
      }
    }
  }

  lemma SwapReplaces(st: Store, token: Jwt, record: Token, id: nat, now: Time)
    requires WellFormed(st, id) && Storable(st, record, id, now) && Present(st, token, now)
    ensures var (st', err) := RevokeAndSave(st, token, record, At(now));
            && err == None && WellFormed(st', id + 2)
            && forall k {:trigger Present(st', k, now)} ::
                 Present(st', k, now) <==> (Present(st, k, now) && k != token) || k == record.token
  {
    if st.SqliteStore? {
      var rows := st.rows;
      RevokeRemoves(st, token, id, now);
      Sqlite.UpdateKeepsTokens(rows, token, record.token);
      SqlSaveAdds(Sqlite.MarkRevoked(rows, token), record, id, now);
    }
    var st' := RevokeAndSave(st, token, record, At(now)).0;
    forall k | Stored(st', k) ensures OldId(k, id + 2) {
      assert Stored(st, k) ==> OldId(k, id);
    }
  }

  /** Why only Redis decides a race. Two calls that have both found a token valid swap it one after
      the other: the second is refused by Redis, where the first has deleted the token, and succeeds
      in the other stores, which find it though it is revoked. */
  lemma SecondSwap(st: Store, token: Jwt, first: Token, second: Token, id: nat, now: Time)
    requires WellFormed(st, id) && Present(st, token, now)
    requires Storable(st, first, id, now) && Storable(st, second, id, now) && first.token != second.token
    ensures var (st1, err1) := RevokeAndSave(st, token, first, At(now));
            var (_, err2) := RevokeAndSave(st1, token, second, At(now));
            err1 == None && err2 == if st.RedisStore? then Some(NotFound) else None
  {
    if st.SqliteStore? {
      var rows := Sqlite.MarkRevoked(st.rows, token);
      Sqlite.UpdateKeepsTokens(st.rows, token, first.token);
      Sqlite.UpdateKeepsTokens(st.rows, token, token);
      Sqlite.UpdateKeepsTokens(st.rows, token, second.token);
      Sqlite.FindAfterInsert(rows, first, token);
      Sqlite.FindAfterInsert(rows, first, second.token);
    }
  }

  lemma RevokeAcknowledges(st: Store, token: Jwt, now: Time)
    ensures Present(st, token, now) ==> Revoke(st, token, At(now)).1 == None
  {
  }

  // ---- One call ----

  /** Time passing takes nothing away from a store that the signatures do not take away as well. */
  lemma TimePasses(st: Store, live: set<Jwt>, id: nat, now: Time, later: Time)
    requires Implements(st, live, id, now) && now <= later
    ensures Implements(st, live, id, later)
  {
    forall k: Jwt | k.Signed? && later < k.claims.expiresAt
      ensures k in live <==> Present(st, k, later)
    {
      assert k in live <==> Present(st, k, now);
    }
  }

  lemma MintedIsStorable(cfg: Config, st: Store, user: string, id: nat, now: Time)
    requires cfg.refreshTTL > 0 && WellFormed(st, id)
    ensures var pair := GeneratePair(cfg, user, At(now), id);
            Storable(st, NewRefreshToken(cfg, user, pair.refresh, At(now).readings), id, now)
  {
    var k := GeneratePair(cfg, user, At(now), id).refresh;
    RecordCoversToken(cfg, user, At(now).readings, id + 1);
    assert !OldId(k, id);
  }

  /** Where the stores may differ: Redis forgets a token it revokes, so it refuses a second logout
      that the other two acknowledge. */
  lemma SecondLogout(cfg: Config, st: Store, id: nat, token: Jwt, now: Time, later: Time)
    requires Serve(cfg, st, id, Logout(token, now)).1 == Acknowledged
    ensures var st' := Serve(cfg, st, id, Logout(token, now)).0;
            Serve(cfg, st', id + 2, Logout(token, later)).1
            == if st.RedisStore? then Refused(NotFound) else Acknowledged
  {
    if st.SqliteStore? {
      Sqlite.UpdateKeepsTokens(st.rows, token, token);
    }
  }

  /** A store that implements the set of live tokens answers as the set does, and goes on
      implementing it. */
  lemma ServeSimulates(cfg: Config, st: Store, live: set<Jwt>, id: nat, e: Event)
    requires cfg.refreshTTL > 0 && Implements(st, live, id, e.now)
    ensures var (st', answer) := Serve(cfg, st, id, e);
            var (live', expected) := Spec(cfg, live, id, e);
            && Implements(st', live', id + 2, e.now)
            && (Binding(e, expected) ==> Same(answer, expected))
  {
    hide WellFormed, Present, Storable, Save, Get, Revoke, RevokeAndSave, GeneratePair, NewRefreshToken;
    var now := e.now;
    match e
    case Generate(user, _) =>
      MintedIsStorable(cfg, st, user, id, now);
      SaveAdds(st, NewRefreshToken(cfg, user, GeneratePair(cfg, user, At(now), id).refresh, At(now).readings), id, now);
      RecordIsOf(cfg, user, GeneratePair(cfg, user, At(now), id).refresh, now);
    case Validate(token, _) =>
      GetIsPresence(st, token, now, id);
      WellFormedGrows(st, id);
      CheckedIsUnexpired(cfg, token, now);
    case Refresh(token, _) =>
      GetIsPresence(st, token, now, id);
      WellFormedGrows(st, id);
      CheckedIsUnexpired(cfg, token, now);
      var checked := CheckRefreshToken(cfg, token, now);
      if checked.Ok? && token in live {
        var k := GeneratePair(cfg, checked.value, At(now), id).refresh;
        MintedIsStorable(cfg, st, checked.value, id, now);
        RecordIsOf(cfg, checked.value, k, now);
        SwapReplaces(st, token, NewRefreshToken(cfg, checked.value, k, At(now).readings), id, now);
      }
    case Logout(token, _) =>
      RevokeRemoves(st, token, id, now);
      RevokeAcknowledges(st, token, now);
      WellFormedGrows(Revoke(st, token, At(now)).0, id);
  }

  lemma RecordIsOf(cfg: Config, user: string, k: Jwt, now: Time)
    ensures NewRefreshToken(cfg, user, k, At(now).readings).token == k
  {
  }

  lemma WellFormedGrows(st: Store, id: nat)
    requires WellFormed(st, id)
    ensures WellFormed(st, id + 2)
  {
    forall k | Stored(st, k) ensures OldId(k, id + 2) {
      assert OldId(k, id);
    }
  }

  lemma CheckedIsUnexpired(cfg: Config, token: Jwt, now: Time)
    ensures CheckRefreshToken(cfg, token, now).Ok? ==> token.Signed? && now < token.claims.expiresAt
  {
  }

  // ---- Whole histories ----

  /** The answers to a history of calls, each under fresh identifiers. */
  function Answers(cfg: Config, st: Store, id: nat, es: seq<Event>): (r: seq<Answer>)
    ensures |r| == |es|
    decreases |es|
  {
    if es == [] then []
    else
      var (st', answer) := Serve(cfg, st, id, es[0]);
      [answer] + Answers(cfg, st', id + 2, es[1..])
  }

  function SpecAnswers(cfg: Config, live: set<Jwt>, id: nat, es: seq<Event>): (r: seq<Answer>)
    ensures |r| == |es|
    decreases |es|
  {
    if es == [] then []
    else
      var (live', answer) := Spec(cfg, live, id, es[0]);
      [answer] + SpecAnswers(cfg, live', id + 2, es[1..])
  }

  predicate InOrder(es: seq<Event>) {
    forall i, j :: 0 <= i < j < |es| ==> es[i].now <= es[j].now
  }

  /** Same success and, on success, the same tokens or user, wherever the reference is binding. */
  predicate Agree(es: seq<Event>, expected: seq<Answer>, a: seq<Answer>, b: seq<Answer>)
    requires |expected| == |a| == |b| == |es|
  {
    forall i :: 0 <= i < |es| && Binding(es[i], expected[i]) ==> Same(a[i], b[i])
  }

  lemma {:induction false} HistorySimulates(cfg: Config, st: Store, live: set<Jwt>, id: nat, es: seq<Event>)
    requires cfg.refreshTTL > 0 && InOrder(es)
    requires es != [] ==> Implements(st, live, id, es[0].now)
    ensures var expected := SpecAnswers(cfg, live, id, es); Agree(es, expected, Answers(cfg, st, id, es), expected)
    decreases |es|
  {
    if es != [] {
      ServeSimulates(cfg, st, live, id, es[0]);
      var st' := Serve(cfg, st, id, es[0]).0;
      var live' := Spec(cfg, live, id, es[0]).0;
      if |es| > 1 {
        TimePasses(st', live', id + 2, es[0].now, es[1].now);
      }
      HistorySimulates(cfg, st', live', id + 2, es[1..]);
    }
  }

  const EMPTY_STORES: seq<Store> := [RedisStore(map[]), MockStore(map[]), SqliteStore([])]

  ghost predicate StoresAgree(cfg: Config, es: seq<Event>) {
    forall a, b :: a in EMPTY_STORES && b in EMPTY_STORES ==>
      Agree(es, SpecAnswers(cfg, {}, 0, es), Answers(cfg, a, 0, es), Answers(cfg, b, 0, es))
  }

  /** On every history of calls the three stores give the same answers as a plain set of live
      tokens, exactly when refresh tokens live for a positive time. With no time to live Redis
      refuses to store a token that the other two accept. */
  lemma StoresAgreeIff(cfg: Config)
    ensures (forall es :: InOrder(es) ==> StoresAgree(cfg, es)) <==> cfg.refreshTTL > 0
    ensures cfg.refreshTTL > 0 ==>
              forall es, st :: InOrder(es) && st in EMPTY_STORES ==>
                var expected := SpecAnswers(cfg, {}, 0, es); Agree(es, expected, Answers(cfg, st, 0, es), expected)
  {
    if cfg.refreshTTL > 0 {
      forall es, st | InOrder(es) && st in EMPTY_STORES
        ensures var expected := SpecAnswers(cfg, {}, 0, es); Agree(es, expected, Answers(cfg, st, 0, es), expected)
      {
        HistorySimulates(cfg, st, {}, 0, es);
      }
    } else {
      var es := [Generate("", 0)];
      NoLifeNoAgreement(cfg, es);
    }
  }

  lemma NoLifeNoAgreement(cfg: Config, es: seq<Event>)
    requires cfg.refreshTTL <= 0 && es == [Generate("", 0)]
    ensures InOrder(es) && !StoresAgree(cfg, es)
  {
    var a, b := EMPTY_STORES[0], EMPTY_STORES[1];
    assert Answers(cfg, a, 0, es)[0] == Serve(cfg, a, 0, es[0]).1;
    assert Answers(cfg, b, 0, es)[0] == Serve(cfg, b, 0, es[0]).1;
    assert !Same(Answers(cfg, a, 0, es)[0], Answers(cfg, b, 0, es)[0]);
  }
}
