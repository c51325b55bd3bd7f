/** What holds of every run of the interleaved service over Redis: any number of calls, in any
    order, on any tokens, with expiry, revocation and failing commands in between. */
module RotationTheorems {
  import opened Common
  import opened Tokens
  import opened RedisKeyspace
  import opened RedisStorage
  import opened Rotation
  import opened RotationInvariant
  import opened RotationSteps

  /** The state a run from an empty server ends in. */
  ghost function After(cfg: Config, start: Time, run: seq<Label>): State
    requires Legal(cfg, Init(start), run)
  {
    Exec(cfg, Init(start), run)
  }

  lemma {:induction false} ExecSplit(cfg: Config, s: State, run: seq<Label>, more: seq<Label>)
    requires Legal(cfg, s, run + more)
    ensures Legal(cfg, s, run) && Legal(cfg, Exec(cfg, s, run), more)
    ensures Exec(cfg, s, run + more) == Exec(cfg, Exec(cfg, s, run), more)
    decreases |run|
  {
    if run == [] {
      assert run + more == more;
    } else {
      assert (run + more)[1..] == run[1..] + more;
      ExecSplit(cfg, Apply(cfg, s, run[0]), run[1..], more);
    }
  }

  // ---- Single use ----

  /** The call has succeeded by using up `token`: it rotated or revoked it. */
  ghost predicate Spent(call: Call, token: Jwt) {
    call.Finished? &&
    match call.outcome
    case Rotated(prev, _) => prev == token
    case Retired(t) => t == token
    case _ => false
  }

  /** Of all RefreshTokens and RevokeRefreshToken calls that name one token, at most one succeeds. */
  lemma SingleUse(cfg: Config, start: Time, run: seq<Label>, token: Jwt, c: nat, d: nat)
    requires Legal(cfg, Init(start), run)
    requires var s := After(cfg, start, run);
             c < |s.calls| && d < |s.calls| && Spent(s.calls[c], token) && Spent(s.calls[d], token)
    ensures c == d
  {
    Reachable(cfg, start, run);
    var s := After(cfg, start, run);
    InvAtCall(cfg, s, c);
    InvAtCall(cfg, s, d);
  }

  /** A spent token is gone for good: in no later state is it stored, so nothing can revive it. */
  lemma SpentForGood(cfg: Config, start: Time, run: seq<Label>, more: seq<Label>, token: Jwt, c: nat)
    requires Legal(cfg, Init(start), run + more)
    requires Legal(cfg, Init(start), run)
    requires var s := After(cfg, start, run); c < |s.calls| && Spent(s.calls[c], token)
    ensures token !in After(cfg, start, run + more).db
  {
    ExecSplit(cfg, Init(start), run, more);
    Reachable(cfg, start, run);
    Reachable(cfg, start, run + more);
    var s := After(cfg, start, run);
    InvAtCall(cfg, s, c);
    ExecKeeps(cfg, s, more);
    InvAtKey(cfg, After(cfg, start, run + more), token);
  }

  /** While no command fails, a token that was stored and is gone was used up by a call that is still
      swapping it or has succeeded: once all calls have returned, exactly one has. */
  lemma SomeoneWins(cfg: Config, start: Time, run: seq<Label>, token: Jwt) returns (c: nat)
    requires Legal(cfg, Init(start), run)
    requires var s := After(cfg, start, run);
             !s.faulty && Quiescent(s) && token in s.writer && token !in s.db
    ensures var s := After(cfg, start, run); c < |s.calls| && Spent(s.calls[c], token)
  {
    Reachable(cfg, start, run);
    var s := After(cfg, start, run);
    InvAtKey(cfg, s, token);
    ConsumerOfKey(cfg, s, token);
    c := s.consumer[token];
  }

  // ---- Session chains ----

  ghost predicate RotatedTo(call: Call, a: Jwt, b: Jwt) {
    call.Finished? && call.outcome.Rotated? && call.outcome.prev == a && call.outcome.pair.refresh == b
  }

  /** Some RefreshTokens call took `a` and returned `b`. */
  ghost predicate Link(s: State, a: Jwt, b: Jwt) {
    exists c: nat :: c < |s.calls| && RotatedTo(s.calls[c], a, b)
  }

  ghost predicate Chain(s: State, ts: seq<Jwt>) {
    ts != [] && forall i :: 0 <= i < |ts| - 1 ==> Link(s, ts[i], ts[i + 1])
  }

  lemma LinkFacts(cfg: Config, s: State, a: Jwt, b: Jwt) returns (c: nat)
    requires Inv(cfg, s) && Link(s, a, b)
    ensures c < |s.calls| && RotatedTo(s.calls[c], a, b)
    ensures Consumed(s, c, a) && Wrote(s, c, b) && SameUser(a, b)
  {
    c :| c < |s.calls| && RotatedTo(s.calls[c], a, b);
    InvAtCall(cfg, s, c);
  }

  /** A token has at most one successor and at most one predecessor. */
  lemma LinksAreUnique(cfg: Config, start: Time, run: seq<Label>, a: Jwt, b: Jwt, a': Jwt, b': Jwt)
    requires Legal(cfg, Init(start), run)
    requires var s := After(cfg, start, run); Link(s, a, b) && Link(s, a', b')
    ensures a == a' <==> b == b'
  {
    Reachable(cfg, start, run);
    var s := After(cfg, start, run);
    var c := LinkFacts(cfg, s, a, b);
    var d := LinkFacts(cfg, s, a', b');
  }

  /** Two chains from one token are one chain, followed for a while. */
  lemma {:induction false} ChainsAgree(cfg: Config, start: Time, run: seq<Label>, ts: seq<Jwt>, us: seq<Jwt>)
    requires Legal(cfg, Init(start), run)
    requires var s := After(cfg, start, run); Chain(s, ts) && Chain(s, us)
    requires ts[0] == us[0] && |ts| <= |us|
    ensures ts == us[..|ts|]
    decreases |ts|
  {
    if |ts| > 1 {
      var n := |ts| - 1;
      var s := After(cfg, start, run);
      var front, frontU := ts[..n], us[..n];
      ChainsAgree(cfg, start, run, front, us);
      assert ts[n - 1] == front[n - 1] == us[n - 1];
      assert Link(s, ts[n - 1], ts[n - 1 + 1]) && Link(s, us[n - 1], us[n - 1 + 1]);
      LinksAreUnique(cfg, start, run, ts[n - 1], ts[n], us[n - 1], us[n]);
    }
  }

  /** At most one token of a session is present in the store: only the last of a chain can be. */
  lemma OneLivePerChain(cfg: Config, start: Time, run: seq<Label>, ts: seq<Jwt>, us: seq<Jwt>)
    requires Legal(cfg, Init(start), run)
    requires var s := After(cfg, start, run); Chain(s, ts) && Chain(s, us) && ts[0] == us[0]
    requires var s := After(cfg, start, run); ts[|ts| - 1] in s.db && us[|us| - 1] in s.db
    ensures ts == us
    ensures forall i :: 0 <= i < |ts| - 1 ==> ts[i] !in After(cfg, start, run).db
  {
    Reachable(cfg, start, run);
    var s := After(cfg, start, run);
    InnerAreSpent(cfg, s, ts);
    InnerAreSpent(cfg, s, us);
    if |ts| <= |us| {
      ChainsAgree(cfg, start, run, ts, us);
    } else {
      ChainsAgree(cfg, start, run, us, ts);
    }
  }

  lemma InnerAreSpent(cfg: Config, s: State, ts: seq<Jwt>)
    requires Inv(cfg, s) && Chain(s, ts)
    ensures forall i :: 0 <= i < |ts| - 1 ==> ts[i] !in s.db
  {
    forall i | 0 <= i < |ts| - 1 ensures ts[i] !in s.db {
      var c := LinkFacts(cfg, s, ts[i], ts[i + 1]);
      InvAtKey(cfg, s, ts[i]);
    }
  }

  lemma {:induction false} ChainUser(cfg: Config, s: State, ts: seq<Jwt>, i: nat)
    requires Inv(cfg, s) && Chain(s, ts) && i < |ts| && ts[0].Signed?
    ensures SameUser(ts[0], ts[i])
  {
    if i > 0 {
      hide Inv;
      ChainUser(cfg, s, ts, i - 1);
      assert Link(s, ts[i - 1], ts[i - 1 + 1]);
      var c := LinkFacts(cfg, s, ts[i - 1], ts[i]);
    }
  }

  /** Every token of a chain is for the user of the GenerateTokens call that began it. */
  lemma ChainKeepsUser(cfg: Config, start: Time, run: seq<Label>, ts: seq<Jwt>, c: nat, user: string, i: nat)
    requires Legal(cfg, Init(start), run)
    requires var s := After(cfg, start, run);
             Chain(s, ts) && c < |s.calls| && s.calls[c].Finished?
             && s.calls[c].outcome.Generated? && s.calls[c].outcome.user == user
             && s.calls[c].outcome.pair.refresh == ts[0]
    requires i < |ts|
    ensures ts[i].Signed? && ts[i].claims.subject == user
  {
    Reachable(cfg, start, run);
    var s := After(cfg, start, run);
    InvAtCall(cfg, s, c);
    ChainUser(cfg, s, ts, i);
  }

  // ---- Users and kinds ----

  /** The users GenerateTokens was called for in a run. */
  ghost predicate CalledFor(run: seq<Label>, user: string) {
    exists i :: 0 <= i < |run| && run[i] == ArriveGenerate(user)
  }

  lemma {:induction false} UsersOfRun(cfg: Config, s: State, run: seq<Label>, user: string)
    requires Legal(cfg, s, run)
    ensures user in Exec(cfg, s, run).users <==> user in s.users || CalledFor(run, user)
    decreases |run|
  {
    if run != [] {
      var s' := Apply(cfg, s, run[0]);
      UsersOfRun(cfg, s', run[1..], user);
      if CalledFor(run[1..], user) {
        var i :| 0 <= i < |run[1..]| && run[1..][i] == ArriveGenerate(user);
        assert run[i + 1] == ArriveGenerate(user);
      }
      if CalledFor(run, user) {
        var i :| 0 <= i < |run| && run[i] == ArriveGenerate(user);
        assert i > 0 ==> run[1..][i - 1] == ArriveGenerate(user);
      }
    }
  }

  /** No session out of thin air: whoever ValidateRefreshToken vouches for, and whoever a stored
      token is for, GenerateTokens was called for that user. */
  lemma UsersAreGenuine(cfg: Config, start: Time, run: seq<Label>, c: nat, user: string, k: Jwt)
    requires Legal(cfg, Init(start), run)
    ensures var s := After(cfg, start, run);
            && (c < |s.calls| && s.calls[c] == Finished(Validated(user)) ==> CalledFor(run, user))
            && (k in s.db ==> CalledFor(run, s.db[k].record.userID))
  {
    Reachable(cfg, start, run);
    var s := After(cfg, start, run);
    UsersOfRun(cfg, Init(start), run, user);
    if c < |s.calls| {
      InvAtCall(cfg, s, c);
    }
    InvAtKey(cfg, s, k);
    if k in s.db {
      UsersOfRun(cfg, Init(start), run, s.db[k].record.userID);
    }
  }

  /** Token kinds never mix: a stored key is a signed refresh token whose subject is the user of
      its record, it passes as an access token at no time, and no access token is stored. */
  lemma KindsNeverMix(cfg: Config, start: Time, run: seq<Label>, k: Jwt, t: Time)
    requires Legal(cfg, Init(start), run)
    requires k in After(cfg, start, run).db
    ensures k.Signed? && k.claims.tokenType == RefreshKind
    ensures var record := After(cfg, start, run).db[k].record;
            record.token == k && record.userID == k.claims.subject && !record.revoked
    ensures ValidateAccessToken(cfg, k, t).Err?
  {
    Reachable(cfg, start, run);
    InvAtKey(cfg, After(cfg, start, run), k);
  }

  /** A token of any other kind is inert: no lookup accepts it and no revocation finds it. */
  lemma OtherKindsAreInert(cfg: Config, start: Time, run: seq<Label>, l: Label)
    requires Legal(cfg, Init(start), run)
    requires var s := After(cfg, start, run);
             Enabled(s, l) && (l.StepLookup? || l.StepRevoke?)
             && !(s.calls[l.c].token.Signed? && s.calls[l.c].token.claims.tokenType == RefreshKind)
    ensures var s := After(cfg, start, run);
            var s' := Apply(cfg, s, l);
            && s'.db == s.db && s'.calls[l.c].Finished? && s'.calls[l.c].outcome.Refused?
            && (l.StepRevoke? && l.f == NoFault ==> s'.calls[l.c].outcome.error == NotFound)
  {
    var s := After(cfg, start, run);
    if l.StepRevoke? {
      Reachable(cfg, start, run);
      InvAtKey(cfg, s, s.calls[l.c].token);
      assert s.calls[l.c].token !in s.db;
    }
    hide Inv, After;
  }

  /** Whatever pair a call returns, both halves are signed by this service for one user, each as its
      own kind; after a refresh that user is the subject of the token that was handed in. */
  lemma PairsAreForOneUser(cfg: Config, start: Time, run: seq<Label>, c: nat)
    requires Legal(cfg, Init(start), run)
    requires var s := After(cfg, start, run);
             c < |s.calls| && s.calls[c].Finished? && (s.calls[c].outcome.Generated? || s.calls[c].outcome.Rotated?)
    ensures var outcome := After(cfg, start, run).calls[c].outcome;
            var refresh := outcome.pair.refresh;
            && refresh.Signed? && refresh.secret == cfg.secret && refresh.claims.tokenType == RefreshKind
            && AccessOk(cfg, outcome.pair, refresh.claims.subject)
            && (outcome.Generated? ==> refresh.claims.subject == outcome.user)
            && (outcome.Rotated? ==> SameUser(outcome.prev, refresh))
  {
    Reachable(cfg, start, run);
    var s := After(cfg, start, run);
    InvAtCall(cfg, s, c);
    InvAtKey(cfg, s, s.calls[c].outcome.pair.refresh);
  }

  // ---- Lifetime ----

  /** Issued, not used up, and within its signed life at the instant `read`. */
  ghost predicate Usable(s: State, k: Jwt, read: Time) {
    && k in s.writer && k !in s.consumer
    && k.Signed? && k.claims.issuedAt <= read < k.claims.expiresAt
  }

  /** ValidateRefreshToken accepts a token exactly when it is usable at the instant the signature is
      checked and its key is still alive at the lookup. The second condition only matters for a
      lookup that comes after the signed expiry: the key's own deadline is never earlier, so up to
      that expiry every usable token is accepted, for its own user. */
  lemma AcceptedWhileLive(cfg: Config, start: Time, run: seq<Label>, c: nat, read: Time)
    requires Legal(cfg, Init(start), run)
    requires var s := After(cfg, start, run);
             Enabled(s, StepLookup(c, read, NoFault)) && s.calls[c].Validating?
    ensures var s := After(cfg, start, run);
            var k := s.calls[c].token;
            var answer := Apply(cfg, s, StepLookup(c, read, NoFault)).calls[c];
            && answer.Finished?
            && (answer.outcome.Validated? <==> Usable(s, k, read) && Alive(s.db, k, s.now))
            && (answer.outcome.Validated? ==> answer.outcome.user == k.claims.subject)
            && (Usable(s, k, read) && s.now < k.claims.expiresAt ==> answer.outcome.Validated?)
  {
    Reachable(cfg, start, run);
    var s := After(cfg, start, run);
    InvAtKey(cfg, s, s.calls[c].token);
  }

  // ---- Accounting ----

  ghost predicate Quiescent(s: State) {
    forall c :: 0 <= c < |s.calls| ==> s.calls[c].Finished?
  }

  ghost function Generates(s: State): set<nat> {
    set c: nat | c < |s.calls| && s.calls[c].Finished? && s.calls[c].outcome.Generated?
  }

  ghost function Rotates(s: State): set<nat> {
    set c: nat | c < |s.calls| && s.calls[c].Finished? && s.calls[c].outcome.Rotated?
  }

  ghost function Losers(s: State): set<nat> {
    set c: nat | c < |s.calls| && s.calls[c].Finished? && s.calls[c].outcome.LostRace?
  }

  ghost function Retires(s: State): set<nat> {
    set c: nat | c < |s.calls| && s.calls[c].Finished? && s.calls[c].outcome.Retired?
  }

  ghost function LiveKeys(s: State): set<Jwt> {
    set k | k in s.db && Alive(s.db, k, s.now)
  }

  ghost function ExpiredKeys(s: State): set<Jwt> {
    set k | k in s.db && !Alive(s.db, k, s.now)
  }

  /** The key a finished call stored, and the key it used up. */
  ghost function StoredBy(call: Call): Jwt {
    match call
    case Finished(Generated(_, pair)) => pair.refresh
    case Finished(Rotated(_, pair)) => pair.refresh
    case Finished(LostRace(_, orphan)) => orphan
    case _ => Malformed("")
  }

  ghost function UsedBy(call: Call): Jwt {
    match call
    case Finished(Rotated(prev, _)) => prev
    case Finished(Retired(token)) => token
    case _ => Malformed("")
  }

  lemma WriterOfKey(cfg: Config, s: State, k: Jwt)
    requires Inv(cfg, s) && Quiescent(s) && !s.faulty && k in s.writer
    ensures var c := s.writer[k];
            c in Generates(s) + Rotates(s) + Losers(s) && c < |s.calls| && StoredBy(s.calls[c]) == k
  {
    InvAtKey(cfg, s, k);
    assert Reports(s.calls[s.writer[k]], k);
  }

  lemma ConsumerOfKey(cfg: Config, s: State, k: Jwt)
    requires Inv(cfg, s) && Quiescent(s) && !s.faulty && k in s.consumer
    ensures var c := s.consumer[k];
            c in Rotates(s) + Retires(s) && c < |s.calls| && UsedBy(s.calls[c]) == k
  {
    assert s.consumer[k] < |s.calls|;
    assert OwnsUp(s.calls[s.consumer[k]], k);
  }

  lemma WritersCount(cfg: Config, s: State)
    requires Inv(cfg, s) && Quiescent(s) && !s.faulty
    ensures |s.writer| == |Generates(s)| + |Rotates(s)| + |Losers(s)|
  {
    hide Inv;
    var all := Generates(s) + Rotates(s) + Losers(s);
    var back := (c: nat) => if c < |s.calls| then StoredBy(s.calls[c]) else Malformed("");
    forall k | k in s.writer ensures s.writer[k] in all && back(s.writer[k]) == k {
      WriterOfKey(cfg, s, k);
    }
    forall c | c in all ensures back(c) in s.writer && s.writer[back(c)] == c {
      InvAtCall(cfg, s, c);
    }
    BijectionSize(s.writer, all, back);
  }

  lemma ConsumersCount(cfg: Config, s: State)
    requires Inv(cfg, s) && Quiescent(s) && !s.faulty
    ensures |s.consumer| == |Rotates(s)| + |Retires(s)|
  {
    hide Inv;
    var all := Rotates(s) + Retires(s);
    var back := (c: nat) => if c < |s.calls| then UsedBy(s.calls[c]) else Malformed("");
    forall k | k in s.consumer ensures s.consumer[k] in all && back(s.consumer[k]) == k {
      ConsumerOfKey(cfg, s, k);
    }
    forall c | c in all ensures back(c) in s.consumer && s.consumer[back(c)] == c {
      InvAtCall(cfg, s, c);
    }
    BijectionSize(s.consumer, all, back);
  }

  lemma StoreSizes(cfg: Config, s: State)
    requires LedgerOk(cfg, s)
    ensures |LiveKeys(s)| + |ExpiredKeys(s)| == |s.writer| - |s.consumer|
  {
    hide Minted, RecordOk;
    assert |s.db.Keys + s.consumer.Keys| == |s.db.Keys| + |s.consumer.Keys|;
    assert LiveKeys(s) + ExpiredKeys(s) == s.db.Keys && LiveKeys(s) !! ExpiredKeys(s);
  }

  /** Once every call has returned and no command has failed, keys ever stored are one for each
      successful GenerateTokens, one for each successful RefreshTokens and one for each RefreshTokens
      that lost its race after Exists; keys removed are one for each success that used one up; and
      what is left in the store, alive or expired, is the difference. */
  lemma KeyAccounting(cfg: Config, start: Time, run: seq<Label>)
    requires Legal(cfg, Init(start), run)
    requires var s := After(cfg, start, run); Quiescent(s) && !s.faulty
    ensures var s := After(cfg, start, run);
            && |s.writer| == |Generates(s)| + |Rotates(s)| + |Losers(s)|
            && |s.consumer| == |Rotates(s)| + |Retires(s)|
            && |LiveKeys(s)| + |ExpiredKeys(s)| == |Generates(s)| + |Losers(s)| - |Retires(s)|
  {
    Reachable(cfg, start, run);
    var s := After(cfg, start, run);
    StoreSizes(cfg, s);
    hide LedgerOk, CallsOk, PendingDistinct, AccountsOk;
    hide Quiescent, LiveKeys, ExpiredKeys, Generates, Rotates, Losers, Retires;
    WritersCount(cfg, s);
    ConsumersCount(cfg, s);
  }
}
