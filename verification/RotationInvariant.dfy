/** What every step of every interleaving keeps. */
module RotationInvariant {
  import opened Common
  import opened Tokens
  import opened RedisKeyspace
  import opened RedisStorage
  import opened Rotation

  /** A refresh token this service has signed, for a user it was asked to serve. */
  ghost predicate Minted(cfg: Config, s: State, k: Jwt) {
    && k.Signed? && k.alg == HS256 && k.secret == cfg.secret
    && k.claims.tokenType == RefreshKind
    && k.claims.id < s.nextId
    && k.claims.subject in s.users
  }

  ghost predicate RecordOk(cfg: Config, s: State, record: Token) {
    && Minted(cfg, s, record.token)
    && record.userID == record.token.claims.subject
    && !record.revoked
    && record.token.claims.expiresAt <= record.expiresAt
  }

  /** Stored and consumed keys partition the keys ever written. */
  ghost predicate LedgerOk(cfg: Config, s: State) {
    && s.db.Keys !! s.consumer.Keys
    && s.db.Keys + s.consumer.Keys == s.writer.Keys
    && (forall k :: k in s.writer ==> Minted(cfg, s, k) && s.writer[k] < |s.calls|)
    && (forall k :: k in s.consumer ==> s.consumer[k] < |s.calls|)
    && (forall k :: k in s.db ==>
          && RecordOk(cfg, s, s.db[k].record)
          && s.db[k].record.token == k
          && k.claims.expiresAt <= s.db[k].deadline)
  }

  ghost predicate Wrote(s: State, c: nat, k: Jwt) { k in s.writer && s.writer[k] == c }

  ghost predicate Consumed(s: State, c: nat, k: Jwt) { k in s.consumer && s.consumer[k] == c }

  ghost predicate SameUser(a: Jwt, b: Jwt) {
    a.Signed? && b.Signed? && a.claims.subject == b.claims.subject
  }

  /** The other half of a pair: an access token of this service for the same user, under an
      identifier of its own, and the lifetime the caller is told. */
  ghost predicate AccessOk(cfg: Config, pair: Pair, user: string) {
    && pair.access.Signed? && pair.access.alg == HS256 && pair.access.secret == cfg.secret
    && pair.access.claims.tokenType == AccessKind
    && pair.access.claims.subject == user
    && (pair.refresh.Signed? ==> pair.access.claims.id != pair.refresh.claims.id)
    && pair.refreshTTL == AdvertisedTTL(cfg)
  }

  /** A token about to be stored: minted, nobody has stored it, for the user of the one it replaces. */
  ghost predicate PendingOk(cfg: Config, s: State, token: Jwt, pair: Pair, record: Token) {
    && RecordOk(cfg, s, record)
    && record.token == pair.refresh
    && record.token !in s.writer
    && token in s.writer
    && SameUser(token, record.token)
    && AccessOk(cfg, pair, record.userID)
  }

  ghost predicate CallOk(cfg: Config, s: State, c: nat, call: Call) {
    match call
    case Generating(user, since) => user in s.users && since <= s.now
    case Validating(_, since) => since <= s.now
    case Rotating(_, since) => since <= s.now
    case Checked(token, user, since) =>
      since <= s.now && token in s.writer && token.Signed? && token.claims.subject == user && user in s.users
    case Confirmed(token, pair, record, since) =>
      since <= s.now && PendingOk(cfg, s, token, pair, record)
    case Swapping(token, pair, record, ttl, deleted) =>
      && PendingOk(cfg, s, token, pair, record)
      && record.expiresAt <= s.now + ttl && ttl > 0
      && (deleted ==> Consumed(s, c, token))
    case Revoking(_) => true
    case Finished(Generated(user, pair)) =>
      && Wrote(s, c, pair.refresh) && pair.refresh.Signed? && pair.refresh.claims.subject == user
      && AccessOk(cfg, pair, user)
    case Finished(Validated(user)) => user in s.users
    case Finished(Rotated(prev, pair)) =>
      && Consumed(s, c, prev) && Wrote(s, c, pair.refresh) && SameUser(prev, pair.refresh)
      && AccessOk(cfg, pair, pair.refresh.claims.subject)
    case Finished(LostRace(prev, orphan)) => Wrote(s, c, orphan)
    case Finished(Retired(token)) => Consumed(s, c, token)
    case Finished(Refused(_)) => true
  }

  ghost predicate CallsOk(cfg: Config, s: State) {
    forall c: nat {:trigger CallOk(cfg, s, c, s.calls[c])} :: c < |s.calls| ==> CallOk(cfg, s, c, s.calls[c])
  }

  ghost predicate PendingDistinct(s: State) {
    forall c: nat, d: nat ::
      c < |s.calls| && d < |s.calls| && c != d && s.calls[c].Pending() && s.calls[d].Pending() ==>
      s.calls[c].record.token != s.calls[d].record.token
  }

  /** The call whose SetNX stored `k` reports it. */
  ghost predicate Reports(call: Call, k: Jwt) {
    call.Finished? &&
    match call.outcome
    case Generated(_, pair) => pair.refresh == k
    case Rotated(_, pair) => pair.refresh == k
    case LostRace(_, orphan) => orphan == k
    case _ => false
  }

  /** The call whose Del removed `k` is still swapping or has succeeded. */
  ghost predicate OwnsUp(call: Call, k: Jwt) {
    match call
    case Swapping(token, _, _, _, deleted) => deleted && token == k
    case Finished(Rotated(prev, _)) => prev == k
    case Finished(Retired(token)) => token == k
    case _ => false
  }

  /** As long as no command has failed, every key ever written or removed is owned up to. */
  ghost predicate AccountsOk(s: State) {
    !s.faulty ==>
      && (forall k :: k in s.writer && s.writer[k] < |s.calls| ==> Reports(s.calls[s.writer[k]], k))
      && (forall k :: k in s.consumer && s.consumer[k] < |s.calls| ==> OwnsUp(s.calls[s.consumer[k]], k))
  }

  ghost predicate Inv(cfg: Config, s: State) {
    && LedgerOk(cfg, s)
    && CallsOk(cfg, s)
    && PendingDistinct(s)
    && AccountsOk(s)
  }

  ghost predicate Extends(m: map<Jwt, nat>, m': map<Jwt, nat>) {
    forall k :: k in m ==> k in m' && m'[k] == m[k]
  }

  /** History only grows. */
  ghost predicate Grows(s: State, s': State) {
    && s.now <= s'.now
    && s.nextId <= s'.nextId
    && s.users <= s'.users
    && Extends(s.writer, s'.writer)
    && Extends(s.consumer, s'.consumer)
  }

  lemma CallOkGrows(cfg: Config, s: State, s': State, c: nat, call: Call)
    requires CallOk(cfg, s, c, call) && Grows(s, s')
    requires call.Pending() ==> call.record.token !in s'.writer
    ensures CallOk(cfg, s', c, call)
  {
  }

  /** The three things a command can do to the keyspace, and what history makes of them. */
  lemma CommitSame(s: State, c: nat, f: Fault)
    ensures Commit(s, c, s.db, f) == s.(faulty := s.faulty || f != NoFault)
  {
    assert s.db.Keys - s.db.Keys == {};
    assert s.writer + (map k | k in s.db.Keys - s.db.Keys :: c) == s.writer;
    assert s.consumer + (map k | k in s.db.Keys - s.db.Keys :: c) == s.consumer;
  }

  lemma CommitInsert(s: State, c: nat, k: Jwt, e: Entry, f: Fault)
    requires k !in s.db
    ensures Commit(s, c, s.db[k := e], f)
         == s.(db := s.db[k := e], writer := s.writer[k := c], faulty := s.faulty || f != NoFault)
  {
    var db := s.db[k := e];
    assert db.Keys - s.db.Keys == {k} && s.db.Keys - db.Keys == {};
    assert s.writer + (map x | x in db.Keys - s.db.Keys :: c) == s.writer[k := c];
    assert s.consumer + (map x | x in s.db.Keys - db.Keys :: c) == s.consumer;
  }

  lemma CommitDelete(s: State, c: nat, k: Jwt, f: Fault)
    requires k in s.db
    ensures Commit(s, c, s.db - {k}, f)
         == s.(db := s.db - {k}, consumer := s.consumer[k := c], faulty := s.faulty || f != NoFault)
  {
    var db := s.db - {k};
    assert db.Keys - s.db.Keys == {} && s.db.Keys - db.Keys == {k};
    assert s.writer + (map x | x in db.Keys - s.db.Keys :: c) == s.writer;
    assert s.consumer + (map x | x in s.db.Keys - db.Keys :: c) == s.consumer[k := c];
  }

  /** No call but `c` holds `k` as its unstored token. */
  ghost predicate HeldByNoOther(s: State, c: nat, k: Jwt) {
    forall d: nat :: d < |s.calls| && d != c && s.calls[d].Pending() ==> s.calls[d].record.token != k
  }

  /** Call `c` moves on to `next`; history has grown, by storing the keys in `stored` only. */
  ghost predicate Moves(cfg: Config, s: State, s': State, c: nat, next: Call, stored: set<Jwt>) {
    && c < |s.calls| && s'.calls == s.calls[c := next]
    && Grows(s, s')
    && (s.faulty ==> s'.faulty)
    && CallOk(cfg, s', c, next)
    && s'.writer.Keys == s.writer.Keys + stored
    && (forall k :: k in stored ==> HeldByNoOther(s, c, k))
    && (next.Pending() ==> HeldByNoOther(s, c, next.record.token))
  }

  /** Facts about one call, in a form that names the call. */
  lemma AtCall(cfg: Config, s: State, c: nat)
    requires CallsOk(cfg, s) && c < |s.calls|
    ensures CallOk(cfg, s, c, s.calls[c])
  {
  }

  lemma MovesKeepsCalls(cfg: Config, s: State, s': State, c: nat, next: Call, stored: set<Jwt>)
    requires CallsOk(cfg, s) && PendingDistinct(s) && Moves(cfg, s, s', c, next, stored)
    ensures CallsOk(cfg, s') && PendingDistinct(s')
  {
    forall d: nat | d < |s'.calls|
      ensures CallOk(cfg, s', d, s'.calls[d])
    {
      if d != c {
        AtCall(cfg, s, d);
        CallOkGrows(cfg, s, s', d, s.calls[d]);
      }
    }
  }

  /** What the invariant says about the call `c`. */
  lemma InvAtCall(cfg: Config, s: State, c: nat)
    requires Inv(cfg, s) && c < |s.calls|
    ensures CallOk(cfg, s, c, s.calls[c])
    ensures s.calls[c].Pending() ==>
              HeldByNoOther(s, c, s.calls[c].record.token) && s.calls[c].record.token !in s.db
  {
    AtCall(cfg, s, c);
  }

  /** What the invariant says about the key `k`. */
  lemma InvAtKey(cfg: Config, s: State, k: Jwt)
    requires Inv(cfg, s)
    ensures k in s.writer <==> k in s.db || k in s.consumer
    ensures !(k in s.db && k in s.consumer)
    ensures k in s.writer ==> Minted(cfg, s, k)
    ensures k in s.db ==>
              && RecordOk(cfg, s, s.db[k].record)
              && s.db[k].record.token == k
              && k.claims.expiresAt <= s.db[k].deadline
  {
    assert k in s.writer ==> Minted(cfg, s, k);
  }
}
