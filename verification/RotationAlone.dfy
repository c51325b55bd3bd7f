/** The interleaved model and the one-call-at-a-time model are of the same service: a RefreshTokens
    call that nobody interrupts does, command by command, what the service does in one go, whatever
    time its steps take and whichever of its commands fail. */
module RotationAlone {
  import opened Common
  import opened Tokens
  import opened RedisKeyspace
  import opened RedisStorage
  import opened Rotation
  import RotationInvariant
  import Service = JwtService

  /** Time passes until `to`, and then `l` happens, if it can. */
  function StepAt(cfg: Config, s: State, to: Time, l: Label): State {
    var s1 := if Enabled(s, Tick(to)) then Apply(cfg, s, Tick(to)) else s;
    if Enabled(s1, l) then Apply(cfg, s1, l) else s1
  }

  /** A pipeline that is cut short fails at the first command that is not executed, or at the last. */
  function DelFault(p: PipeFault): Fault {
    if p == CutAfter(0) then Dropped else NoFault
  }

  function SetFault(p: PipeFault): Fault {
    if p == Delivered then NoFault else if p == CutAfter(1) then Dropped else Unacked
  }

  /** The two steps of the pipeline. */
  function Piped(cfg: Config, s: State, c: nat, t: Service.Course): State {
    StepAt(cfg, StepAt(cfg, s, t.pipe.del, StepPipeDel(c, t.pipe.until, DelFault(t.faults.pipe))),
           t.pipe.setnx, StepPipeSet(c, SetFault(t.faults.pipe)))
  }

  /** Call `c` takes the course `t`. */
  function Alone(cfg: Config, s: State, c: nat, t: Service.Course): State {
    var s1 := StepAt(cfg, s, t.lookup, StepLookup(c, t.read, t.faults.lookup));
    var s2 := StepAt(cfg, s1, t.pipe.check, StepCheck(c, t.readings, t.faults.check));
    Piped(cfg, s2, c, t)
  }

  /** The instants are in program order. */
  predicate InOrder(from: Time, t: Service.Course) {
    && from <= t.read <= t.lookup
    && t.readings.Between(t.lookup, t.pipe.check)
    && t.pipe.check <= t.pipe.until <= t.pipe.del <= t.pipe.setnx
  }

  /** Call `c` has moved on to `next`, and the keyspace is `db`. */
  ghost predicate Did(s: State, s': State, c: nat, db: Keyspace, next: Call) {
    c < |s.calls| && s'.calls == s.calls[c := next] && s'.db == db && s'.now == s.now
  }

  lemma CommitFields(s: State, c: nat, db: Keyspace, f: Fault)
    ensures var s' := Commit(s, c, db, f);
            s'.db == db && s'.now == s.now && s'.calls == s.calls && s'.nextId == s.nextId
  {
  }

  lemma LookupDoes(cfg: Config, s: State, c: nat, t: Service.Course)
    requires c < |s.calls| && s.calls[c].Rotating? && s.calls[c].since <= t.read <= t.lookup == s.now
    ensures var token := s.calls[c].token;
            var s' := Apply(cfg, s, StepLookup(c, t.read, t.faults.lookup));
            && s'.nextId == s.nextId
            && Did(s, s', c, s.db, match Service.ValidateRefreshToken(cfg, Service.RedisStore(s.db), token, t)
                                   case Err(e) => Finished(Refused(e))
                                   case Ok(user) => Checked(token, user, s.now))
  {
    hide Commit, CheckRefreshToken;
    var checked := CheckRefreshToken(cfg, s.calls[c].token, t.read);
    CommitFields(s, c, s.db, if checked.Err? then NoFault else t.faults.lookup);
  }

  /** A GenerateTokens call is one command: its step does what the service does. */
  lemma GenerateAlone(cfg: Config, s: State, c: nat, t: Service.Course)
    requires Enabled(s, StepSave(c, t.readings, t.until, t.faults.write)) && t.write == s.now
    ensures var user := s.calls[c].user;
            var s' := Apply(cfg, s, StepSave(c, t.readings, t.until, t.faults.write));
            var (store, result) := Service.GenerateTokens(cfg, Service.RedisStore(s.db), user, t, s.nextId);
            && Service.RedisStore(s'.db) == store
            && s'.calls == s.calls[c := Finished(match result
                                                 case Ok(pair) => Generated(user, pair)
                                                 case Err(e) => Refused(e))]
  {
    hide Commit, AccessToken, RefreshToken, NewRefreshToken;
    var user := s.calls[c].user;
    var record := NewRefreshToken(cfg, user, Mint(cfg, s, user, t.readings).refresh, t.readings);
    CommitFields(s.(nextId := s.nextId + 2), c, SaveRefreshToken(s.db, record, t.until, s.now, t.faults.write).0,
                 t.faults.write);
  }

  /** And so are ValidateRefreshToken and RevokeRefreshToken. */
  lemma ValidateAlone(cfg: Config, s: State, c: nat, t: Service.Course)
    requires Enabled(s, StepLookup(c, t.read, t.faults.lookup)) && s.calls[c].Validating? && t.lookup == s.now
    ensures var s' := Apply(cfg, s, StepLookup(c, t.read, t.faults.lookup));
            && s'.db == s.db
            && s'.calls == s.calls[c := Finished(
                 match Service.ValidateRefreshToken(cfg, Service.RedisStore(s.db), s.calls[c].token, t)
                 case Ok(user) => Validated(user)
                 case Err(e) => Refused(e))]
  {
    hide Commit, CheckRefreshToken;
    var checked := CheckRefreshToken(cfg, s.calls[c].token, t.read);
    CommitFields(s, c, s.db, if checked.Err? then NoFault else t.faults.lookup);
  }

  lemma RevokeAlone(cfg: Config, s: State, c: nat, t: Service.Course)
    requires Enabled(s, StepRevoke(c, t.faults.write)) && t.write == s.now
    ensures var token := s.calls[c].token;
            var s' := Apply(cfg, s, StepRevoke(c, t.faults.write));
            var (store, err) := Service.Revoke(Service.RedisStore(s.db), token, t);
            && Service.RedisStore(s'.db) == store
            && s'.calls == s.calls[c := Finished(if err == None then Retired(token) else Refused(err.value))]
  {
    hide Commit;
    CommitFields(s, c, RevokeRefreshToken(s.db, s.calls[c].token, s.now, t.faults.write).0, t.faults.write);
  }

  /** Exists, and what is decided by it. */
  function AfterCheck(s: State, token: Jwt, pair: Pair, record: Token, f: Fault): Call {
    match Exists(s.db, token, s.now, f)
    case Failed => Finished(Refused(Transport))
    case Answer(found) =>
      if found == 0 then Finished(Refused(NotFound))
      else if token == record.token then Finished(Refused(AlreadyExists))
      else Confirmed(token, pair, record, s.now)
  }

  lemma CheckDoes(cfg: Config, s: State, c: nat, t: Service.Course)
    requires c < |s.calls| && s.calls[c].Checked? && t.readings.Between(s.calls[c].since, s.now)
    ensures var Checked(token, user, _) := s.calls[c];
            var pair := Service.GeneratePair(cfg, user, t, s.nextId);
            var record := NewRefreshToken(cfg, user, pair.refresh, t.readings);
            Did(s, Apply(cfg, s, StepCheck(c, t.readings, t.faults.check)), c, s.db,
                AfterCheck(s, token, pair, record, t.faults.check))
  {
    hide Commit, NewRefreshToken, RefreshToken, AccessToken;
    CommitFields(s.(nextId := s.nextId + 2), c, s.db, t.faults.check);
  }

  lemma DelDoes(cfg: Config, s: State, c: nat, until: Time, f: Fault)
    requires c < |s.calls| && s.calls[c].Confirmed? && s.calls[c].since <= until <= s.now && f != Unacked
    ensures var Confirmed(token, pair, record, _) := s.calls[c];
            var s' := Apply(cfg, s, StepPipeDel(c, until, f));
            var ttl := record.expiresAt - until;
            if ttl <= 0 then Did(s, s', c, s.db, Finished(Refused(Expired)))
            else Did(s, s', c, Del(s.db, token, s.now, f).0,
                     if f != NoFault then Finished(Refused(Transport))
                     else Swapping(token, pair, record, ttl, Alive(s.db, token, s.now)))
  {
    hide Commit;
    CommitFields(s, c, Del(s.db, s.calls[c].token, s.now, f).0, f);
  }

  lemma SetDoes(cfg: Config, s: State, c: nat, f: Fault)
    requires c < |s.calls| && s.calls[c].Swapping?
    ensures var Swapping(token, pair, record, ttl, deleted) := s.calls[c];
            Did(s, Apply(cfg, s, StepPipeSet(c, f)), c, SetNX(s.db, record.token, record, ttl, s.now, f).0,
                Finished(if f != NoFault then Refused(Transport)
                         else if !deleted then LostRace(token, record.token)
                         else if Alive(s.db, record.token, s.now) then Refused(AlreadyExists)
                         else Rotated(token, pair)))
  {
    hide Commit;
    var Swapping(token, pair, record, ttl, deleted) := s.calls[c];
    CommitFields(s, c, SetNX(s.db, record.token, record, ttl, s.now, f).0, f);
  }

  /** A finished call stays as it is. */
  lemma FinishedStays(cfg: Config, s: State, c: nat, to: Time, l: Label)
    requires c < |s.calls| && s.calls[c].Finished?
    requires (l.StepCheck? || l.StepPipeDel? || l.StepPipeSet?) && l.c == c
    ensures var s' := StepAt(cfg, s, to, l);
            s'.db == s.db && s'.calls == s.calls && s'.now == if s.now <= to then to else s.now
  {
  }

  lemma PipedStays(cfg: Config, s: State, c: nat, t: Service.Course)
    requires c < |s.calls| && s.calls[c].Finished?
    ensures Piped(cfg, s, c, t).db == s.db && Piped(cfg, s, c, t).calls == s.calls
  {
    hide StepAt;
    var l := StepPipeDel(c, t.pipe.until, DelFault(t.faults.pipe));
    FinishedStays(cfg, s, c, t.pipe.del, l);
    FinishedStays(cfg, StepAt(cfg, s, t.pipe.del, l), c, t.pipe.setnx, StepPipeSet(c, SetFault(t.faults.pipe)));
  }

  /** What the caller of RefreshTokens is told. */
  ghost predicate Tells(call: Call, token: Jwt, result: Result<Pair, Error>) {
    call.Finished? &&
    match call.outcome
    case Rotated(prev, pair) => prev == token && result == Ok(pair)
    case LostRace(prev, _) => prev == token && result == Err(NotFound)
    case Refused(e) => result == Err(e)
    case _ => false
  }

  lemma PipedDoes(cfg: Config, s: State, c: nat, t: Service.Course)
    requires c < |s.calls| && s.calls[c].Confirmed? && s.calls[c].since <= t.pipe.until
    requires s.now <= t.pipe.del && t.pipe.until <= t.pipe.del <= t.pipe.setnx
    requires s.calls[c].token != s.calls[c].record.token
    requires t.faults.check == NoFault && Alive(s.db, s.calls[c].token, t.pipe.check)
    ensures var Confirmed(token, pair, record, _) := s.calls[c];
            var s' := Piped(cfg, s, c, t);
            var (db, err) := RevokeAndSave(s.db, token, record, t.pipe, t.faults.check, t.faults.pipe);
            && s'.db == db && c < |s'.calls|
            && Tells(s'.calls[c], token, if err == None then Ok(pair) else Err(err.value))
  {
    hide Apply;
    var s1 := s.(now := t.pipe.del);
    assert Apply(cfg, s, Tick(t.pipe.del)) == s1 by {
      TickDoes(cfg, s, t.pipe.del);
    }
    DelDoes(cfg, s1, c, t.pipe.until, DelFault(t.faults.pipe));
    var s2 := StepAt(cfg, s, t.pipe.del, StepPipeDel(c, t.pipe.until, DelFault(t.faults.pipe)));
    if s2.calls[c].Finished? {
      FinishedStays(cfg, s2, c, t.pipe.setnx, StepPipeSet(c, SetFault(t.faults.pipe)));
    } else {
      TickDoes(cfg, s2, t.pipe.setnx);
      SetDoes(cfg, s2.(now := t.pipe.setnx), c, SetFault(t.faults.pipe));
    }
  }

  lemma TickDoes(cfg: Config, s: State, to: Time)
    requires s.now <= to
    ensures Apply(cfg, s, Tick(to)) == s.(now := to)
  {
  }

  /** The call's answer and the keyspace it leaves are those of the service, for every course of
      instants in program order and every combination of failing commands. */
  lemma RefreshAlone(cfg: Config, s: State, c: nat, t: Service.Course)
    requires c < |s.calls| && s.calls[c].Rotating? && s.now <= t.lookup && InOrder(s.calls[c].since, t)
    ensures var s' := Alone(cfg, s, c, t);
            var token := s.calls[c].token;
            var (store, result) := Service.RefreshTokens(cfg, Service.RedisStore(s.db), token, t, s.nextId);
            && Service.RedisStore(s'.db) == store
            && c < |s'.calls| && Tells(s'.calls[c], token, result)
  {
    hide Apply, NewRefreshToken, Service.GeneratePair, Service.ValidateRefreshToken, Piped;
    var token := s.calls[c].token;
    TickDoes(cfg, s, t.lookup);
    LookupDoes(cfg, s.(now := t.lookup), c, t);
    var s1 := StepAt(cfg, s, t.lookup, StepLookup(c, t.read, t.faults.lookup));
    var s2 := StepAt(cfg, s1, t.pipe.check, StepCheck(c, t.readings, t.faults.check));
    if s1.calls[c].Finished? {
      FinishedStays(cfg, s1, c, t.pipe.check, StepCheck(c, t.readings, t.faults.check));
    } else {
      TickDoes(cfg, s1, t.pipe.check);
      CheckDoes(cfg, s1.(now := t.pipe.check), c, t);
    }
    if s2.calls[c].Finished? {
      PipedStays(cfg, s2, c, t);
    } else {
      PipedDoes(cfg, s2, c, t);
    }
  }
}
