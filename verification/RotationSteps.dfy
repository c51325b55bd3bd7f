/** The invariant is inductive: one lemma for each kind of step. */
module RotationSteps {
  import opened Common
  import opened Tokens
  import opened RedisKeyspace
  import opened RedisStorage
  import opened Rotation
  import opened RotationInvariant

  ghost predicate SignedFor(k: Jwt, record: Token, user: string) {
    k.Signed? && k.claims.subject == user && record.token == k && k.claims.expiresAt <= record.expiresAt
  }

  lemma MintIsFresh(cfg: Config, s: State, s': State, c: nat, user: string, r: Readings)
    requires Inv(cfg, s) && user in s.users && r.refreshExp <= r.expires
    requires s'.nextId == s.nextId + 2 && s'.users == s.users
    ensures var k := Mint(cfg, s, user, r).refresh;
            && k !in s.writer && k !in s.db
            && RecordOk(cfg, s', NewRefreshToken(cfg, user, k, r))
            && HeldByNoOther(s, c, k)
            && SignedFor(k, NewRefreshToken(cfg, user, k, r), user)
            && AccessOk(cfg, Mint(cfg, s, user, r), user) && NewRefreshToken(cfg, user, k, r).userID == user
  {
    var k := Mint(cfg, s, user, r).refresh;
    RecordCoversToken(cfg, user, r, s.nextId + 1);
    assert !Minted(cfg, s, k);
    forall d: nat | d < |s.calls| && s.calls[d].Pending()
      ensures s.calls[d].record.token != k
    {
      AtCall(cfg, s, d);
    }
  }

  /** The ledger and the accounts after each of the three kinds of command. */
  lemma SameLedger(cfg: Config, s: State, s': State)
    requires LedgerOk(cfg, s) && Grows(s, s') && |s.calls| <= |s'.calls|
    requires s'.db == s.db && s'.writer == s.writer && s'.consumer == s.consumer
    ensures LedgerOk(cfg, s')
  {
  }

  lemma StoreLedger(cfg: Config, s: State, s': State, c: nat, k: Jwt, e: Entry)
    requires LedgerOk(cfg, s) && Grows(s, s') && c < |s.calls| == |s'.calls|
    requires k !in s.writer && s'.writer == s.writer[k := c]
    requires s'.db == s.db[k := e] && s'.consumer == s.consumer
    requires RecordOk(cfg, s', e.record) && e.record.token == k && k.claims.expiresAt <= e.deadline
    ensures LedgerOk(cfg, s')
  {
    forall x | x in s'.writer ensures Minted(cfg, s', x) && s'.writer[x] < |s'.calls| {
      assert x != k ==> Minted(cfg, s, x);
    }
  }

  lemma RemoveLedger(cfg: Config, s: State, s': State, c: nat, k: Jwt)
    requires LedgerOk(cfg, s) && Grows(s, s') && c < |s.calls| == |s'.calls|
    requires k in s.db && s'.db == s.db - {k} && s'.consumer == s.consumer[k := c] && s'.writer == s.writer
    ensures LedgerOk(cfg, s')
  {
  }

  /** History after a step of `c`: whatever is new in it is the work of `c`, and owned up to. */
  ghost predicate WrittenBy(s: State, s': State, c: nat, next: Call) {
    forall k :: k in s'.writer ==>
      (k in s.writer && s'.writer[k] == s.writer[k]) || (s'.writer[k] == c && Reports(next, k))
  }

  ghost predicate RemovedBy(s: State, s': State, c: nat, next: Call) {
    forall k :: k in s'.consumer ==>
      (k in s.consumer && s'.consumer[k] == s.consumer[k]) || (s'.consumer[k] == c && OwnsUp(next, k))
  }

  lemma MoveAccounts(s: State, s': State, c: nat, next: Call)
    requires AccountsOk(s) && c < |s.calls| && s'.calls == s.calls[c := next] && (s.faulty ==> s'.faulty)
    requires !s'.faulty ==> WrittenBy(s, s', c, next) && RemovedBy(s, s', c, next)
    requires !s'.faulty ==> forall k :: !Reports(s.calls[c], k) && (OwnsUp(s.calls[c], k) ==> OwnsUp(next, k))
    ensures AccountsOk(s')
  {
  }

  /** A step that leaves the keyspace alone. */
  lemma StayKeeps(cfg: Config, s: State, s': State, c: nat, next: Call)
    requires Inv(cfg, s) && Moves(cfg, s, s', c, next, {})
    requires s'.db == s.db && s'.writer == s.writer && s'.consumer == s.consumer
    requires s'.faulty || !(s.calls[c].Finished? || s.calls[c].Swapping?)
    ensures Inv(cfg, s')
  {
    MovesKeepsCalls(cfg, s, s', c, next, {});
    SameLedger(cfg, s, s');
    MoveAccounts(s, s', c, next);
  }

  /** A step that stores a fresh token. */
  lemma StoreKeeps(cfg: Config, s: State, s': State, c: nat, next: Call, k: Jwt, e: Entry)
    requires Inv(cfg, s) && Moves(cfg, s, s', c, next, {k})
    requires k !in s.writer && s'.writer == s.writer[k := c]
    requires s'.db == s.db[k := e] && s'.consumer == s.consumer
    requires RecordOk(cfg, s', e.record) && e.record.token == k && k.claims.expiresAt <= e.deadline
    requires !s'.faulty ==> Reports(next, k)
    requires !s.calls[c].Finished?
    requires !s'.faulty && s.calls[c].Swapping? && s.calls[c].deleted ==> OwnsUp(next, s.calls[c].token)
    ensures Inv(cfg, s')
  {
    MovesKeepsCalls(cfg, s, s', c, next, {k});
    StoreLedger(cfg, s, s', c, k, e);
    MoveAccounts(s, s', c, next);
  }

  /** A step that removes a stored token. */
  lemma RemoveKeeps(cfg: Config, s: State, s': State, c: nat, next: Call, k: Jwt)
    requires Inv(cfg, s) && Moves(cfg, s, s', c, next, {})
    requires k in s.db && s'.db == s.db - {k} && s'.consumer == s.consumer[k := c] && s'.writer == s.writer
    requires !s'.faulty ==> OwnsUp(next, k)
    requires !(s.calls[c].Finished? || s.calls[c].Swapping?)
    ensures Inv(cfg, s')
  {
    MovesKeepsCalls(cfg, s, s', c, next, {});
    RemoveLedger(cfg, s, s', c, k);
    MoveAccounts(s, s', c, next);
  }

  /** A step that moves no call: time passes, or a call arrives. */
  lemma WaitKeeps(cfg: Config, s: State, s': State)
    requires Inv(cfg, s) && Grows(s, s') && s'.faulty == s.faulty
    requires s'.db == s.db && s'.writer == s.writer && s'.consumer == s.consumer
    requires s'.calls == s.calls ||
             (|s.calls| < |s'.calls| && s'.calls == s.calls + [s'.calls[|s.calls|]]
              && CallOk(cfg, s', |s.calls|, s'.calls[|s.calls|]) && !s'.calls[|s.calls|].Pending())
    ensures Inv(cfg, s')
  {
    hide LedgerOk, CallOk;
    forall d: nat | d < |s'.calls|
      ensures CallOk(cfg, s', d, s'.calls[d])
    {
      if d < |s.calls| {
        AtCall(cfg, s, d);
        PendingUnwritten(cfg, s, d);
        CallOkGrows(cfg, s, s', d, s.calls[d]);
      }
    }
    SameLedger(cfg, s, s');
    WaitAccounts(cfg, s, s');
  }

  lemma WaitAccounts(cfg: Config, s: State, s': State)
    requires LedgerOk(cfg, s) && AccountsOk(s) && s'.faulty == s.faulty
    requires s'.writer == s.writer && s'.consumer == s.consumer && s.calls <= s'.calls
    ensures AccountsOk(s')
  {
  }

  lemma PendingUnwritten(cfg: Config, s: State, c: nat)
    requires CallsOk(cfg, s) && c < |s.calls|
    ensures s.calls[c].Pending() ==> s.calls[c].record.token !in s.writer
  {
    AtCall(cfg, s, c);
  }

  lemma SaveStores(cfg: Config, s: State, c: nat, r: Readings, until: Time, f: Fault)
    requires Inv(cfg, s) && Enabled(s, StepSave(c, r, until, f))
    requires until < r.expires + cfg.refreshTTL && f != Dropped
    ensures Inv(cfg, Save(cfg, s, c, r, until, f)) && Extends(s.consumer, Save(cfg, s, c, r, until, f).consumer)
  {
    hide LedgerOk, CallsOk, PendingDistinct, AccountsOk, Commit, Minted, RecordOk, AccessOk, Mint;
    InvAtCall(cfg, s, c);
    var user := s.calls[c].user;
    var k := Mint(cfg, s, user, r).refresh;
    var record := NewRefreshToken(cfg, user, k, r);
    var s1 := s.(nextId := s.nextId + 2);
    MintIsFresh(cfg, s, s1, c, user, r);
    var e := Entry(record, s.now + (record.expiresAt - until));
    CommitInsert(s1, c, k, e, f);
    var s' := Save(cfg, s, c, r, until, f);
    RecordOkGrows(cfg, s1, s', record);
    StoreKeeps(cfg, s, s', c, s'.calls[c], k, e);
  }

  lemma SaveKeeps(cfg: Config, s: State, c: nat, r: Readings, until: Time, f: Fault)
    requires Inv(cfg, s) && Enabled(s, StepSave(c, r, until, f))
    ensures Inv(cfg, Save(cfg, s, c, r, until, f)) && Extends(s.consumer, Save(cfg, s, c, r, until, f).consumer)
  {
    hide LedgerOk, CallsOk, PendingDistinct, AccountsOk, Commit, Minted, RecordOk, AccessOk, Mint;
    if until < r.expires + cfg.refreshTTL && f != Dropped {
      SaveStores(cfg, s, c, r, until, f);
    } else {
      CommitSame(s.(nextId := s.nextId + 2), c, f);
      var s' := Save(cfg, s, c, r, until, f);
      StayKeeps(cfg, s, s', c, s'.calls[c]);
    }
  }

  lemma RecordOkGrows(cfg: Config, s: State, s': State, record: Token)
    requires RecordOk(cfg, s, record) && s.nextId <= s'.nextId && s.users <= s'.users
    ensures RecordOk(cfg, s', record)
  {
  }

  lemma CheckedToken(cfg: Config, token: Jwt, read: Time)
    ensures var user := CheckRefreshToken(cfg, token, read);
            user.Ok? ==> token.Signed? && token.claims.subject == user.value
  {
  }

  lemma LookupKeeps(cfg: Config, s: State, c: nat, read: Time, f: Fault)
    requires Inv(cfg, s) && Enabled(s, StepLookup(c, read, f))
    ensures Inv(cfg, Lookup(cfg, s, c, read, f)) && Extends(s.consumer, Lookup(cfg, s, c, read, f).consumer)
  {
    hide LedgerOk, CallsOk, PendingDistinct, AccountsOk, Commit, Minted, CheckRefreshToken;
    var token := s.calls[c].token;
    InvAtKey(cfg, s, token);
    MintedForUser(cfg, s, token);
    CheckedToken(cfg, token, read);
    var checked := CheckRefreshToken(cfg, token, read);
    CommitSame(s, c, if checked.Err? then NoFault else f);
    var s' := Lookup(cfg, s, c, read, f);
    StayKeeps(cfg, s, s', c, Looked(s, s.calls[c], checked, f));
  }

  lemma MintedForUser(cfg: Config, s: State, k: Jwt)
    ensures Minted(cfg, s, k) ==> k.claims.subject in s.users
  {
  }

  lemma CheckKeeps(cfg: Config, s: State, c: nat, r: Readings, f: Fault)
    requires Inv(cfg, s) && Enabled(s, StepCheck(c, r, f))
    ensures Inv(cfg, Check(cfg, s, c, r, f)) && Extends(s.consumer, Check(cfg, s, c, r, f).consumer)
  {
    hide LedgerOk, CallsOk, PendingDistinct, AccountsOk, Commit, Minted, RecordOk, AccessOk, Mint, NewRefreshToken;
    InvAtCall(cfg, s, c);
    var s1 := s.(nextId := s.nextId + 2);
    CommitSame(s1, c, f);
    var s' := Check(cfg, s, c, r, f);
    MintIsFresh(cfg, s, s', c, s.calls[c].user, r);
    StayKeeps(cfg, s, s', c, s'.calls[c]);
  }

  lemma PipeDelKeeps(cfg: Config, s: State, c: nat, until: Time, f: Fault)
    requires Inv(cfg, s) && Enabled(s, StepPipeDel(c, until, f))
    ensures Inv(cfg, PipeDel(s, c, until, f)) && Extends(s.consumer, PipeDel(s, c, until, f).consumer)
  {
    hide LedgerOk, CallsOk, PendingDistinct, AccountsOk, Commit, Minted, RecordOk, AccessOk;
    InvAtCall(cfg, s, c);
    var token := s.calls[c].token;
    InvAtKey(cfg, s, token);
    if s.calls[c].record.expiresAt - until > 0 && f != Dropped && Alive(s.db, token, s.now) {
      CommitDelete(s, c, token, f);
      var s' := PipeDel(s, c, until, f);
      RecordOkGrows(cfg, s, s', s.calls[c].record);
      RemoveKeeps(cfg, s, s', c, s'.calls[c], token);
    } else {
      CommitSame(s, c, f);
      var s' := PipeDel(s, c, until, f);
      RecordOkGrows(cfg, s, s', s.calls[c].record);
      StayKeeps(cfg, s, s', c, s'.calls[c]);
    }
  }

  lemma PipeSetKeeps(cfg: Config, s: State, c: nat, f: Fault)
    requires Inv(cfg, s) && Enabled(s, StepPipeSet(c, f))
    ensures Inv(cfg, PipeSet(s, c, f)) && Extends(s.consumer, PipeSet(s, c, f).consumer)
  {
    hide LedgerOk, CallsOk, PendingDistinct, AccountsOk, Commit, Minted, AccessOk;
    InvAtCall(cfg, s, c);
    var record := s.calls[c].record;
    if f == Dropped {
      CommitSame(s, c, f);
      var s' := PipeSet(s, c, f);
      StayKeeps(cfg, s, s', c, s'.calls[c]);
    } else {
      var e := Entry(record, s.now + s.calls[c].ttl);
      CommitInsert(s, c, record.token, e, f);
      var s' := PipeSet(s, c, f);
      RecordOkGrows(cfg, s, s', record);
      StoreKeeps(cfg, s, s', c, s'.calls[c], record.token, e);
    }
  }

  lemma RevokeKeeps(cfg: Config, s: State, c: nat, f: Fault)
    requires Inv(cfg, s) && Enabled(s, StepRevoke(c, f))
    ensures Inv(cfg, Revoke(s, c, f)) && Extends(s.consumer, Revoke(s, c, f).consumer)
  {
    hide LedgerOk, CallsOk, PendingDistinct, AccountsOk, Commit, Minted, AccessOk;
    var token := s.calls[c].token;
    InvAtKey(cfg, s, token);
    if f != Dropped && Alive(s.db, token, s.now) {
      CommitDelete(s, c, token, f);
      var s' := Revoke(s, c, f);
      RemoveKeeps(cfg, s, s', c, s'.calls[c], token);
    } else {
      CommitSame(s, c, f);
      var s' := Revoke(s, c, f);
      StayKeeps(cfg, s, s', c, s'.calls[c]);
    }
  }

  lemma StepKeeps(cfg: Config, s: State, l: Label)
    requires Inv(cfg, s) && Enabled(s, l)
    ensures Inv(cfg, Apply(cfg, s, l)) && Extends(s.consumer, Apply(cfg, s, l).consumer)
  {
    hide Inv, Save, Lookup, Check, PipeDel, PipeSet, Revoke;
    match l
    case Tick(_) => WaitKeeps(cfg, s, Apply(cfg, s, l));
    case ArriveGenerate(_) => WaitKeeps(cfg, s, Apply(cfg, s, l));
    case ArriveValidate(_) => WaitKeeps(cfg, s, Apply(cfg, s, l));
    case ArriveRotate(_) => WaitKeeps(cfg, s, Apply(cfg, s, l));
    case ArriveRevoke(_) => WaitKeeps(cfg, s, Apply(cfg, s, l));
    case StepSave(c, r, until, f) => SaveKeeps(cfg, s, c, r, until, f);
    case StepLookup(c, read, f) => LookupKeeps(cfg, s, c, read, f);
    case StepCheck(c, r, f) => CheckKeeps(cfg, s, c, r, f);
    case StepPipeDel(c, until, f) => PipeDelKeeps(cfg, s, c, until, f);
    case StepPipeSet(c, f) => PipeSetKeeps(cfg, s, c, f);
    case StepRevoke(c, f) => RevokeKeeps(cfg, s, c, f);
  }

  /** A run keeps the invariant and forgets no key that has been used up. */
  lemma {:induction false} ExecKeeps(cfg: Config, s: State, run: seq<Label>)
    requires Inv(cfg, s) && Legal(cfg, s, run)
    ensures Inv(cfg, Exec(cfg, s, run)) && Extends(s.consumer, Exec(cfg, s, run).consumer)
    decreases |run|
  {
    if run != [] {
      StepKeeps(cfg, s, run[0]);
      ExecKeeps(cfg, Apply(cfg, s, run[0]), run[1..]);
    }
  }

  /** Every reachable state satisfies the invariant, whatever the calls, their order, the clock
      and the failures. */
  lemma Reachable(cfg: Config, start: Time, run: seq<Label>)
    requires Legal(cfg, Init(start), run)
    ensures Inv(cfg, Exec(cfg, Init(start), run))
  {
    ExecKeeps(cfg, Init(start), run);
  }
}
