/** Several refreshes of one token at once: how each of them ends, over every interleaving of what
    they and everybody else still do. */
module RotationRaces {
  import opened Common
  import opened Tokens
  import opened RedisKeyspace
  import opened RedisStorage
  import opened Rotation
  import opened RotationInvariant
  import opened RotationSteps
  import opened RotationTheorems
  import opened RotationAlone
  import Service = JwtService

  /** A command of call `c` fails at this step. */
  predicate Harms(l: Label, c: nat) {
    match l
    case StepSave(d, _, _, f) => d == c && f != NoFault
    case StepLookup(d, _, f) => d == c && f != NoFault
    case StepCheck(d, _, f) => d == c && f != NoFault
    case StepPipeDel(d, _, f) => d == c && f != NoFault
    case StepPipeSet(d, f) => d == c && f != NoFault
    case StepRevoke(d, f) => d == c && f != NoFault
    case _ => false
  }

  /** No command of call `c` fails; those of other calls may. */
  ghost predicate Unharmed(run: seq<Label>, c: nat) {
    forall i :: 0 <= i < |run| ==> !Harms(run[i], c)
  }

  /** The call whose turn it is. */
  predicate IsStepOf(l: Label, c: nat) {
    match l
    case StepSave(d, _, _, _) => d == c
    case StepLookup(d, _, _) => d == c
    case StepCheck(d, _, _) => d == c
    case StepPipeDel(d, _, _) => d == c
    case StepPipeSet(d, _) => d == c
    case StepRevoke(d, _) => d == c
    case _ => false
  }

  // ---- What a step does to a key and to another call ----

  /** `k` has not been stored again: its entry is as it was, or gone. */
  ghost predicate EntryKept(s: State, s': State, k: Jwt) {
    s.now <= s'.now && k in s'.writer && (k in s'.db ==> k in s.db && s'.db[k] == s.db[k])
  }

  /** Call `c` has not moved, and no key has been used up in its name. */
  ghost predicate CallKept(s: State, s': State, c: nat, k: Jwt) {
    && c < |s.calls| && c < |s'.calls| && s'.calls[c] == s.calls[c]
    && (Consumed(s', c, k) ==> Consumed(s, c, k))
  }

  lemma CommitKeeps(s: State, m: nat, db: Keyspace, f: Fault, c: nat, k: Jwt)
    requires k in s.writer
    ensures var s' := Commit(s, m, db, f);
            && s'.db == db && s'.now == s.now && s'.calls == s.calls && k in s'.writer
            && (c != m && Consumed(s', c, k) ==> Consumed(s, c, k))
  {
  }

  lemma SaveKept(cfg: Config, s: State, m: nat, r: Readings, until: Time, f: Fault, c: nat, k: Jwt)
    requires Inv(cfg, s) && Enabled(s, StepSave(m, r, until, f)) && k in s.writer
    ensures var s' := Save(cfg, s, m, r, until, f);
            EntryKept(s, s', k) && (c != m && c < |s.calls| ==> CallKept(s, s', c, k))
  {
    hide Inv, Commit, Mint;
    var user := s.calls[m].user;
    MintUnwritten(cfg, s, user, r);
    var record := NewRefreshToken(cfg, user, Mint(cfg, s, user, r).refresh, r);
    CommitKeeps(s.(nextId := s.nextId + 2), m, SaveRefreshToken(s.db, record, until, s.now, f).0, f, c, k);
  }

  lemma MintUnwritten(cfg: Config, s: State, user: string, r: Readings)
    requires Inv(cfg, s)
    ensures Mint(cfg, s, user, r).refresh !in s.writer
  {
    assert !Minted(cfg, s, Mint(cfg, s, user, r).refresh);
  }

  /** A step that issues a reading command. */
  lemma ReadKept(cfg: Config, s: State, l: Label, m: nat, c: nat, k: Jwt)
    requires Enabled(s, l) && (l.StepLookup? || l.StepCheck?) && l.c == m && k in s.writer
    ensures var s' := Apply(cfg, s, l);
            EntryKept(s, s', k) && (c != m && c < |s.calls| ==> CallKept(s, s', c, k))
  {
    hide Commit, CheckRefreshToken, Mint, NewRefreshToken, Looked;
    if l.StepLookup? {
      var checked := CheckRefreshToken(cfg, s.calls[m].token, l.read);
      CommitKeeps(s, m, s.db, if checked.Err? then NoFault else l.f, c, k);
    } else {
      CommitKeeps(s.(nextId := s.nextId + 2), m, s.db, l.f, c, k);
    }
  }

  lemma DelKept(cfg: Config, s: State, m: nat, until: Time, f: Fault, c: nat, k: Jwt)
    requires Enabled(s, StepPipeDel(m, until, f)) && k in s.writer
    ensures var s' := PipeDel(s, m, until, f);
            EntryKept(s, s', k) && (c != m && c < |s.calls| ==> CallKept(s, s', c, k))
  {
    hide Commit;
    CommitKeeps(s, m, Del(s.db, s.calls[m].token, s.now, f).0, f, c, k);
  }

  lemma PendingIsNew(cfg: Config, s: State, c: nat)
    requires Inv(cfg, s) && c < |s.calls| && s.calls[c].Pending()
    ensures s.calls[c].record.token !in s.writer && s.calls[c].record.token !in s.db
    ensures s.calls[c].token in s.writer
  {
    InvAtCall(cfg, s, c);
  }

  lemma SetKept(cfg: Config, s: State, m: nat, f: Fault, c: nat, k: Jwt)
    requires Inv(cfg, s) && Enabled(s, StepPipeSet(m, f)) && k in s.writer
    ensures var s' := PipeSet(s, m, f);
            EntryKept(s, s', k) && (c != m && c < |s.calls| ==> CallKept(s, s', c, k))
  {
    hide Inv, Commit;
    PendingIsNew(cfg, s, m);
    CommitKeeps(s, m, SetNX(s.db, s.calls[m].record.token, s.calls[m].record, s.calls[m].ttl, s.now, f).0, f, c, k);
  }

  lemma RevokeKept(cfg: Config, s: State, m: nat, f: Fault, c: nat, k: Jwt)
    requires Enabled(s, StepRevoke(m, f)) && k in s.writer
    ensures var s' := Revoke(s, m, f);
            EntryKept(s, s', k) && (c != m && c < |s.calls| ==> CallKept(s, s', c, k))
  {
    hide Commit;
    CommitKeeps(s, m, RevokeRefreshToken(s.db, s.calls[m].token, s.now, f).0, f, c, k);
  }

  /** A key that was ever written is never stored again, and only a call's own step moves the call or
      uses up a key in its name. */
  lemma StepKept(cfg: Config, s: State, l: Label, c: nat, k: Jwt)
    requires Inv(cfg, s) && Enabled(s, l) && k in s.writer
    ensures var s' := Apply(cfg, s, l);
            EntryKept(s, s', k) && (!IsStepOf(l, c) && c < |s.calls| ==> CallKept(s, s', c, k))
  {
    hide Inv, Save, Lookup, Check, PipeDel, PipeSet, Revoke;
    match l
    case StepSave(m, r, until, f) => SaveKept(cfg, s, m, r, until, f, c, k);
    case StepLookup(m, _, _) => ReadKept(cfg, s, l, m, c, k);
    case StepCheck(m, _, _) => ReadKept(cfg, s, l, m, c, k);
    case StepPipeDel(m, until, f) => DelKept(cfg, s, m, until, f, c, k);
    case StepPipeSet(m, f) => SetKept(cfg, s, m, f, c, k);
    case StepRevoke(m, f) => RevokeKept(cfg, s, m, f, c, k);
    case _ =>
  }

  // ---- The fate of one refresh ----

  /** Nobody can see the key any more. */
  ghost predicate Gone(s: State, k: Jwt) {
    k in s.writer && !Alive(s.db, k, s.now)
  }

  /** A refresh of `token` that has passed Exists and minted `pair`, from then on: it has used up the
      token exactly if its Del found it, which it then reports as success; if not, the token is gone.
      Only if it has been `harmed` by a failing command of its own may it not know. */
  ghost predicate Fated(s: State, c: nat, token: Jwt, pair: Pair, record: Token, harmed: bool) {
    && c < |s.calls| && token in s.writer
    && match s.calls[c]
       case Confirmed(t, p, r, _) => t == token && p == pair && r == record && !Consumed(s, c, token)
       case Swapping(t, p, r, _, deleted) =>
         && t == token && p == pair && r == record
         && (deleted <==> Consumed(s, c, token))
         && (!deleted ==> Gone(s, token))
       case Finished(Rotated(t, p)) => t == token && p == pair && Consumed(s, c, token)
       case Finished(LostRace(t, orphan)) =>
         t == token && orphan == record.token && !Consumed(s, c, token) && Gone(s, token)
       case Finished(Refused(e)) => (e == Expired && !Consumed(s, c, token)) || (e == Transport && harmed)
       case _ => false
  }

  lemma FatedKept(s: State, s': State, c: nat, token: Jwt, pair: Pair, record: Token, harmed: bool)
    requires Fated(s, c, token, pair, record, harmed)
    requires EntryKept(s, s', token) && CallKept(s, s', c, token) && Extends(s.consumer, s'.consumer)
    ensures Fated(s', c, token, pair, record, harmed)
  {
    assert Consumed(s, c, token) ==> Consumed(s', c, token);
    hide Consumed;
  }

  lemma FatedWaits(cfg: Config, s: State, l: Label, c: nat, token: Jwt, pair: Pair, record: Token, harmed: bool)
    requires Inv(cfg, s) && Enabled(s, l) && Fated(s, c, token, pair, record, harmed) && !IsStepOf(l, c)
    ensures Fated(Apply(cfg, s, l), c, token, pair, record, harmed)
  {
    assert token in s.writer && c < |s.calls|;
    hide Inv, Apply, Enabled, IsStepOf, Fated, EntryKept, CallKept, Extends;
    StepKept(cfg, s, l, c, token);
    StepKeeps(cfg, s, l);
    FatedKept(s, Apply(cfg, s, l), c, token, pair, record, harmed);
  }

  lemma FatedDel(cfg: Config, s: State, c: nat, until: Time, f: Fault, token: Jwt, pair: Pair, record: Token)
    requires Inv(cfg, s) && Fated(s, c, token, pair, record, false) && Enabled(s, StepPipeDel(c, until, f))
    ensures Fated(PipeDel(s, c, until, f), c, token, pair, record, f != NoFault)
  {
    hide Inv;
    if record.expiresAt > until && Alive(s.db, token, s.now) && f == NoFault {
      CommitDelete(s, c, token, f);
    } else {
      CommitSame(s, c, f);
    }
    hide Commit;
  }

  lemma FatedSet(cfg: Config, s: State, c: nat, f: Fault, token: Jwt, pair: Pair, record: Token)
    requires Inv(cfg, s) && Fated(s, c, token, pair, record, false) && Enabled(s, StepPipeSet(c, f))
    ensures Fated(PipeSet(s, c, f), c, token, pair, record, f != NoFault)
  {
    hide Inv, Commit;
    PendingIsNew(cfg, s, c);
    if f == Dropped {
      CommitSame(s, c, f);
    } else {
      CommitInsert(s, c, record.token, Entry(record, s.now + s.calls[c].ttl), f);
    }
  }

  /** A call that has not finished has not been harmed, and a harmed one may do all that others may. */
  lemma FatedAnyway(s: State, c: nat, token: Jwt, pair: Pair, record: Token, harmed: bool, harmed': bool)
    requires Fated(s, c, token, pair, record, harmed)
    requires !s.calls[c].Finished? || (harmed ==> harmed')
    ensures Fated(s, c, token, pair, record, harmed')
  {
  }

  lemma FatedCall(s: State, c: nat, token: Jwt, pair: Pair, record: Token, harmed: bool)
    requires Fated(s, c, token, pair, record, harmed)
    ensures c < |s.calls| && (s.calls[c].Confirmed? || s.calls[c].Swapping? || s.calls[c].Finished?)
  {
  }

  lemma FatedStep(cfg: Config, s: State, l: Label, c: nat, token: Jwt, pair: Pair, record: Token, harmed: bool)
    requires Inv(cfg, s) && Enabled(s, l) && Fated(s, c, token, pair, record, harmed)
    ensures Fated(Apply(cfg, s, l), c, token, pair, record, harmed || Harms(l, c))
  {
    hide Inv, Fated, Save, Lookup, Check, PipeDel, PipeSet, Revoke;
    FatedCall(s, c, token, pair, record, harmed);
    var s' := Apply(cfg, s, l);
    if !IsStepOf(l, c) {
      FatedWaits(cfg, s, l, c, token, pair, record, harmed);
      FatedAnyway(s', c, token, pair, record, harmed, harmed || Harms(l, c));
    } else {
      assert (l.StepPipeDel? || l.StepPipeSet?) && l.c == c;
      FatedAnyway(s, c, token, pair, record, harmed, false);
      if l.StepPipeDel? {
        FatedDel(cfg, s, c, l.until, l.f, token, pair, record);
      } else {
        FatedSet(cfg, s, c, l.f, token, pair, record);
      }
      FatedAnyway(s', c, token, pair, record, Harms(l, c), harmed || Harms(l, c));
    }
  }

  /** Whatever everybody else does meanwhile, and whatever fails. */
  lemma {:induction false} FatedRun(cfg: Config, s: State, run: seq<Label>, c: nat,
                                    token: Jwt, pair: Pair, record: Token, harmed: bool)
    requires Inv(cfg, s) && Legal(cfg, s, run) && Fated(s, c, token, pair, record, harmed)
    ensures Fated(Exec(cfg, s, run), c, token, pair, record, harmed || !Unharmed(run, c))
    decreases |run|
  {
    if run == [] {
      assert Unharmed(run, c);
    } else {
      hide Inv, Fated, Apply, Enabled, Harms;
      FatedStep(cfg, s, run[0], c, token, pair, record, harmed);
      StepKeeps(cfg, s, run[0]);
      UnharmedFrom(run, c);
      FatedRun(cfg, Apply(cfg, s, run[0]), run[1..], c, token, pair, record, harmed || Harms(run[0], c));
    }
  }

  lemma UnharmedFrom(run: seq<Label>, c: nat)
    requires run != []
    ensures Unharmed(run, c) <==> !Harms(run[0], c) && Unharmed(run[1..], c)
  {
    hide Harms;
    if Unharmed(run, c) {
      forall i | 0 <= i < |run[1..]| ensures !Harms(run[1..][i], c) {
        assert !Harms(run[i + 1], c);
      }
    }
    if !Harms(run[0], c) && Unharmed(run[1..], c) {
      forall i | 0 <= i < |run| ensures !Harms(run[i], c) {
        assert i > 0 ==> !Harms(run[1..][i - 1], c);
      }
    }
  }

  // ---- Races ----

  /** Two refreshes of one live token, both past their Exists. */
  ghost predicate Racing(s: State, c: nat, d: nat) {
    && c < |s.calls| && d < |s.calls| && c != d
    && s.calls[c].Confirmed? && s.calls[d].Confirmed?
    && s.calls[c].token == s.calls[d].token
    && Alive(s.db, s.calls[c].token, s.now)
  }

  /** How a refresh that was `Confirmed` may have ended in the state `s`. */
  ghost predicate EndsWell(s: State, c: nat, before: Call, harmed: bool)
    requires before.Confirmed?
  {
    c < |s.calls| && s.calls[c].Finished? &&
    match s.calls[c].outcome
    case Rotated(prev, pair) => prev == before.token && pair == before.pair && Consumed(s, c, prev)
    case LostRace(prev, orphan) =>
      prev == before.token && orphan == before.record.token && !Consumed(s, c, prev) && Gone(s, prev)
    case Refused(e) => (e == Expired && !Consumed(s, c, before.token)) || (e == Transport && harmed)
    case _ => false
  }

  lemma FatedEnds(s: State, c: nat, before: Call, harmed: bool)
    requires before.Confirmed? && Fated(s, c, before.token, before.pair, before.record, harmed)
    requires c < |s.calls| && s.calls[c].Finished?
    ensures EndsWell(s, c, before, harmed)
  {
  }

  /** Two refreshes that have both found a token, over every interleaving of all that still happens.
      Each that has returned has swapped the token, which its own Del removed, for its own new one; or
      has been told that it is not found, and then its Del removed nothing and the token is gone; or
      that the new one expired before the batch could be sent; or, only if a command of its own
      failed, that the store cannot be reached. Not both have succeeded. One that lost lost to somebody
      else's Del, unless the token expired meanwhile; and with nobody else about, nothing failing and
      nothing expiring one of the two succeeds and the other one loses. */
  lemma RaceOutcome(cfg: Config, start: Time, run: seq<Label>, more: seq<Label>, c: nat, d: nat)
    requires Legal(cfg, Init(start), run) && Racing(After(cfg, start, run), c, d)
    requires Legal(cfg, After(cfg, start, run), more)
    requires var s' := Exec(cfg, After(cfg, start, run), more);
             c < |s'.calls| && d < |s'.calls| && s'.calls[c].Finished? && s'.calls[d].Finished?
    ensures var s := After(cfg, start, run);
            var s' := Exec(cfg, s, more);
            var token := s.calls[c].token;
            && EndsWell(s', c, s.calls[c], !Unharmed(more, c)) && EndsWell(s', d, s.calls[d], !Unharmed(more, d))
            && !(s'.calls[c].outcome.Rotated? && s'.calls[d].outcome.Rotated?)
            && (s'.calls[c].outcome.LostRace? && s'.now < s.db[token].deadline ==>
                  token in s'.consumer && s'.consumer[token] != c)
            && (s'.now < s.db[token].deadline
                && !s'.calls[c].outcome.Refused? && !s'.calls[d].outcome.Refused?
                && (token in s'.consumer ==> s'.consumer[token] in {c, d}) ==>
                  (s'.calls[c].outcome.Rotated? <==> s'.calls[d].outcome.LostRace?))
  {
    Reachable(cfg, start, run);
    var s := After(cfg, start, run);
    var s' := Exec(cfg, s, more);
    hide Inv;
    RacerIsFated(cfg, s, c, d);
    FatedRun(cfg, s, more, c, s.calls[c].token, s.calls[c].pair, s.calls[c].record, false);
    FatedRun(cfg, s, more, d, s.calls[d].token, s.calls[d].pair, s.calls[d].record, false);
    hide Fated;
    FatedEnds(s', c, s.calls[c], !Unharmed(more, c));
    FatedEnds(s', d, s.calls[d], !Unharmed(more, d));
    ExecKeeps(cfg, s, more);
    InvAtKey(cfg, s', s.calls[c].token);
    EntryStaysOver(cfg, s, more, s.calls[c].token);
    hide Unharmed, Racing;
  }

  lemma RacerIsFated(cfg: Config, s: State, c: nat, d: nat)
    requires Inv(cfg, s) && Racing(s, c, d)
    ensures var (x, y) := (s.calls[c], s.calls[d]);
            && Fated(s, c, x.token, x.pair, x.record, false) && Fated(s, d, y.token, y.pair, y.record, false)
            && x.token in s.writer
  {
    InvAtKey(cfg, s, s.calls[c].token);
    hide Inv;
  }

  lemma {:induction false} EntryStaysOver(cfg: Config, s: State, run: seq<Label>, k: Jwt)
    requires Inv(cfg, s) && Legal(cfg, s, run) && k in s.writer
    ensures var s' := Exec(cfg, s, run);
            s.now <= s'.now && (k in s'.db ==> k in s.db && s'.db[k] == s.db[k])
    decreases |run|
  {
    if run != [] {
      hide Inv, Apply, Enabled;
      StepKeeps(cfg, s, run[0]);
      StepKept(cfg, s, run[0], 0, k);
      EntryStaysOver(cfg, Apply(cfg, s, run[0]), run[1..], k);
    }
  }

  // ---- Orphans ----

  ghost predicate Returns(call: Call, k: Jwt) {
    call.Finished? && (call.outcome.Generated? || call.outcome.Rotated?) && call.outcome.pair.refresh == k
  }

  /** In every reachable state: the new token of a refresh that lost its race has been stored by that
      call and is in the store still, unless somebody used it up; yet no call has ever returned it,
      and no other loser has left it behind. */
  lemma OrphanIsNobodys(cfg: Config, start: Time, run: seq<Label>, c: nat, d: nat)
    requires Legal(cfg, Init(start), run)
    requires var s := After(cfg, start, run);
             c < |s.calls| && d < |s.calls| && s.calls[c].Finished? && s.calls[c].outcome.LostRace?
    ensures var s := After(cfg, start, run);
            var orphan := s.calls[c].outcome.orphan;
            && Wrote(s, c, orphan) && (orphan in s.db || orphan in s.consumer)
            && !Returns(s.calls[d], orphan)
            && (d != c && s.calls[d].Finished? && s.calls[d].outcome.LostRace? ==> s.calls[d].outcome.orphan != orphan)
  {
    Reachable(cfg, start, run);
    var s := After(cfg, start, run);
    InvAtCall(cfg, s, c);
    InvAtCall(cfg, s, d);
    InvAtKey(cfg, s, s.calls[c].outcome.orphan);
  }

  // ---- Races do happen ----

  lemma {:induction false} ExecJoin(cfg: Config, s: State, run: seq<Label>, more: seq<Label>)
    requires Legal(cfg, s, run) && Legal(cfg, Exec(cfg, s, run), more)
    ensures Legal(cfg, s, run + more)
    ensures Exec(cfg, s, run + more) == Exec(cfg, Exec(cfg, s, run), more)
    decreases |run|
  {
    if run == [] {
      assert run + more == more;
    } else {
      assert (run + more)[1..] == run[1..] + more;
      ExecJoin(cfg, Apply(cfg, s, run[0]), run[1..], more);
    }
  }

  /** One more step. */
  lemma Extend(cfg: Config, s: State, run: seq<Label>, l: Label)
    requires Legal(cfg, s, run) && Enabled(Exec(cfg, s, run), l)
    ensures Legal(cfg, s, run + [l]) && Exec(cfg, s, run + [l]) == Apply(cfg, Exec(cfg, s, run), l)
  {
    ExecJoin(cfg, s, run, [l]);
  }

  lemma TwoSteps(cfg: Config, s: State, a: Label, b: Label)
    requires Enabled(s, a) && Enabled(Apply(cfg, s, a), b)
    ensures Legal(cfg, s, [a, b]) && Exec(cfg, s, [a, b]) == Apply(cfg, Apply(cfg, s, a), b)
  {
    hide Apply, Enabled;
    assert [a][1..] == [];
    assert Legal(cfg, s, [a]) && Exec(cfg, s, [a]) == Apply(cfg, s, a);
    Extend(cfg, s, [a], b);
    assert [a] + [b] == [a, b];
  }

  /** A token that ValidateRefreshToken accepts now. */
  ghost predicate Good(cfg: Config, s: State, token: Jwt) {
    Inv(cfg, s) && Usable(s, token, s.now) && Alive(s.db, token, s.now)
  }

  lemma GoodIsValid(cfg: Config, s: State, token: Jwt)
    requires Good(cfg, s, token)
    ensures var t := Service.At(s.now);
            Service.ValidateRefreshToken(cfg, Service.RedisStore(s.db), token, t) == Ok(token.claims.subject)
  {
    InvAtKey(cfg, s, token);
  }

  /** Call `c` has passed its Exists, and nothing else has changed. */
  ghost predicate Armed(cfg: Config, s: State, s': State, token: Jwt) {
    && |s'.calls| == |s.calls| + 1 && s.calls <= s'.calls
    && s'.now == s.now && s'.db == s.db && Inv(cfg, s')
    && var call := s'.calls[|s.calls|];
       call.Confirmed? && call.token == token && call.record.expiresAt == s.now + cfg.refreshTTL && call.since == s.now
  }

  /** A new refresh of a good token can get past its Exists. */
  lemma CanArm(cfg: Config, s: State, token: Jwt) returns (run: seq<Label>)
    requires Good(cfg, s, token)
    ensures Legal(cfg, s, run) && Armed(cfg, s, Exec(cfg, s, run), token)
  {
    hide Inv, Apply;
    var c, t := |s.calls|, Service.At(s.now);
    var s1 := Apply(cfg, s, ArriveRotate(token));
    ArriveDoes(cfg, s, token);
    run := [ArriveRotate(token)];
    assert Exec(cfg, s, run) == s1;
    GoodIsValid(cfg, s, token);
    LookupDoes(cfg, s1, c, t);
    var l2 := StepLookup(c, t.read, t.faults.lookup);
    Extend(cfg, s, run, l2);
    run := run + [l2];
    var s2 := Exec(cfg, s, run);
    CheckDoes(cfg, s2, c, t);
    var l3 := StepCheck(c, t.readings, t.faults.check);
    StepKeeps(cfg, s, ArriveRotate(token));
    StepKeeps(cfg, s1, l2);
    InvAtKey(cfg, s2, token);
    MintUnwritten(cfg, s2, token.claims.subject, t.readings);
    Extend(cfg, s, run, l3);
    StepKeeps(cfg, s2, l3);
    run := run + [l3];
  }

  lemma ArriveDoes(cfg: Config, s: State, token: Jwt)
    ensures var s1 := Apply(cfg, s, ArriveRotate(token));
            s1 == s.(calls := s.calls + [Rotating(token, s.now)])
  {
  }

  /** A race of two: `c` swaps the token first, `d` comes too late. */
  ghost predicate Raced(s: State, s': State, token: Jwt, c: nat, d: nat) {
    && c < |s'.calls| && d < |s'.calls| && c != d
    && s'.calls[c].Finished? && s'.calls[c].outcome.Rotated? && s'.calls[c].outcome.prev == token
    && s'.calls[d].Finished? && s'.calls[d].outcome.LostRace? && s'.calls[d].outcome.prev == token
    && s'.calls[d].outcome.orphan in s'.db && s'.calls[c].outcome.pair.refresh in s'.db
  }

  /** Both are past their Exists, with new tokens that have not expired. */
  ghost predicate ReadyToRace(s: State, token: Jwt, c: nat, d: nat) {
    && Racing(s, c, d) && s.calls[c].token == token
    && s.calls[c].since <= s.now < s.calls[c].record.expiresAt
    && s.calls[d].since <= s.now < s.calls[d].record.expiresAt
  }

  /** The winner's pipeline. */
  lemma FirstSwaps(cfg: Config, s: State, token: Jwt, c: nat, d: nat)
    requires Inv(cfg, s) && ReadyToRace(s, token, c, d)
    ensures var run := [StepPipeDel(c, s.now, NoFault), StepPipeSet(c, NoFault)];
            && Legal(cfg, s, run)
            && var s' := Exec(cfg, s, run);
               && Inv(cfg, s') && s'.now == s.now
               && s'.calls == s.calls[c := Finished(Rotated(token, s.calls[c].pair))]
               && token !in s'.db && s.calls[c].record.token in s'.db
  {
    hide Inv, Apply;
    PendingIsNew(cfg, s, c);
    DelDoes(cfg, s, c, s.now, NoFault);
    var s1 := Apply(cfg, s, StepPipeDel(c, s.now, NoFault));
    StepKeeps(cfg, s, StepPipeDel(c, s.now, NoFault));
    SetDoes(cfg, s1, c, NoFault);
    StepKeeps(cfg, s1, StepPipeSet(c, NoFault));
    TwoSteps(cfg, s, StepPipeDel(c, s.now, NoFault), StepPipeSet(c, NoFault));
  }

  /** The loser's. */
  lemma SecondSwaps(cfg: Config, s: State, token: Jwt, d: nat)
    requires Inv(cfg, s) && d < |s.calls| && s.calls[d].Confirmed? && s.calls[d].token == token && token !in s.db
    requires s.calls[d].since <= s.now < s.calls[d].record.expiresAt
    ensures var run := [StepPipeDel(d, s.now, NoFault), StepPipeSet(d, NoFault)];
            && Legal(cfg, s, run)
            && var s' := Exec(cfg, s, run);
               && s'.calls == s.calls[d := Finished(LostRace(token, s.calls[d].record.token))]
               && s'.db == s.db[s.calls[d].record.token := Entry(s.calls[d].record, s.calls[d].record.expiresAt)]
  {
    hide Inv, Apply;
    PendingIsNew(cfg, s, d);
    DelDoes(cfg, s, d, s.now, NoFault);
    var s1 := Apply(cfg, s, StepPipeDel(d, s.now, NoFault));
    SetDoes(cfg, s1, d, NoFault);
    TwoSteps(cfg, s, StepPipeDel(d, s.now, NoFault), StepPipeSet(d, NoFault));
  }

  lemma StillGood(cfg: Config, s: State, s': State, token: Jwt)
    requires Good(cfg, s, token) && Armed(cfg, s, s', token)
    ensures Good(cfg, s', token)
  {
    InvAtKey(cfg, s', token);
    hide Inv;
  }

  lemma ArmedTwice(cfg: Config, s: State, s1: State, s2: State, token: Jwt)
    requires cfg.refreshTTL > 0 && Good(cfg, s, token) && Armed(cfg, s, s1, token) && Armed(cfg, s1, s2, token)
    ensures Inv(cfg, s2) && ReadyToRace(s2, token, |s.calls|, |s.calls| + 1)
  {
    hide Inv, Usable;
    assert s2.calls[|s.calls|] == s1.calls[|s.calls|];
  }

  lemma CanArmTwo(cfg: Config, s: State, token: Jwt) returns (run: seq<Label>)
    requires cfg.refreshTTL > 0 && Good(cfg, s, token)
    ensures Legal(cfg, s, run)
    ensures var s' := Exec(cfg, s, run); Inv(cfg, s') && ReadyToRace(s', token, |s.calls|, |s.calls| + 1)
  {
    hide Inv, Good, Armed, ReadyToRace, Exec, Legal;
    var first := CanArm(cfg, s, token);
    var s1 := Exec(cfg, s, first);
    StillGood(cfg, s, s1, token);
    var second := CanArm(cfg, s1, token);
    ArmedTwice(cfg, s, s1, Exec(cfg, s1, second), token);
    ExecJoin(cfg, s, first, second);
    run := first + second;
  }

  lemma CanSwapTwo(cfg: Config, s: State, token: Jwt, c: nat, d: nat) returns (run: seq<Label>)
    requires Inv(cfg, s) && ReadyToRace(s, token, c, d)
    ensures Legal(cfg, s, run) && Raced(s, Exec(cfg, s, run), token, c, d)
  {
    hide Inv, Exec, Legal;
    FirstSwaps(cfg, s, token, c, d);
    var one := [StepPipeDel(c, s.now, NoFault), StepPipeSet(c, NoFault)];
    var s1 := Exec(cfg, s, one);
    SecondSwaps(cfg, s1, token, d);
    var two := [StepPipeDel(d, s1.now, NoFault), StepPipeSet(d, NoFault)];
    ExecJoin(cfg, s, one, two);
    run := one + two;
    PairIsRecord(cfg, s, c);
  }

  /** From every reachable state, any token that would be accepted can be raced for: two refreshes of
      it can both get past their Exists, and then one swaps it and the other leaves an orphan. */
  lemma AnyTokenCanRace(cfg: Config, start: Time, run: seq<Label>, token: Jwt)
    returns (arming: seq<Label>, swapping: seq<Label>)
    requires cfg.refreshTTL > 0 && Legal(cfg, Init(start), run)
    requires var s := After(cfg, start, run); Usable(s, token, s.now) && Alive(s.db, token, s.now)
    ensures var s := After(cfg, start, run);
            var c := |s.calls|;
            && Legal(cfg, s, arming)
            && var s' := Exec(cfg, s, arming);
               && Racing(s', c, c + 1) && s'.calls[c].token == token
               && Legal(cfg, s', swapping)
               && Raced(s', Exec(cfg, s', swapping), token, c, c + 1)
  {
    Reachable(cfg, start, run);
    var s := After(cfg, start, run);
    assert Good(cfg, s, token);
    hide Inv, Good, Usable, Alive, After, Exec, Legal, Raced;
    arming := CanArmTwo(cfg, s, token);
    swapping := CanSwapTwo(cfg, Exec(cfg, s, arming), token, |s.calls|, |s.calls| + 1);
  }

  lemma PairIsRecord(cfg: Config, s: State, c: nat)
    requires Inv(cfg, s) && c < |s.calls| && s.calls[c].Confirmed?
    ensures s.calls[c].pair.refresh == s.calls[c].record.token
  {
    InvAtCall(cfg, s, c);
  }

  /** And there is such a state: the token a first GenerateTokens returns would be accepted. */
  lemma FirstTokenIsGood(cfg: Config, user: string) returns (run: seq<Label>, token: Jwt)
    requires cfg.refreshTTL > 0
    ensures Legal(cfg, Init(SECOND - 1), run)
    ensures var s := After(cfg, SECOND - 1, run); Usable(s, token, s.now) && Alive(s.db, token, s.now)
  {
    var now := SECOND - 1;
    var r := Service.At(now).readings;
    var s0 := Init(now);
    var s1 := Apply(cfg, s0, ArriveGenerate(user));
    var l := StepSave(0, r, now, NoFault);
    run := [ArriveGenerate(user), l];
    token := Mint(cfg, s1, user, r).refresh;
    var record := NewRefreshToken(cfg, user, token, r);
    CommitInsert(s1.(nextId := 2), 0, token, Entry(record, record.expiresAt), NoFault);
    TwoSteps(cfg, s0, ArriveGenerate(user), l);
  }
}
