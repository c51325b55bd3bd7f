/** Any number of service calls over one Redis server, interleaved command by command.

    A call advances in steps, each of which issues at most one store command. What it does
    locally in between (read the clock, mint a pair, build a record) commutes with everybody
    else's steps, so it is folded into the step that issues its next command: the instants it
    read are arbitrary, in program order, between its previous command and now. */
module Rotation {
  import opened Common
  import opened Tokens
  import opened RedisKeyspace
  import opened RedisStorage

  datatype Outcome =
    | Generated(user: string, pair: Pair)
    | Validated(user: string)
    | Rotated(prev: Jwt, pair: Pair)
    | LostRace(prev: Jwt, orphan: Jwt) // RefreshTokens answered NotFound: Exists saw `prev`, Del did not
    | Retired(token: Jwt)
    | Refused(error: Error)

  datatype Call =
    | Generating(user: string, since: Time)
    | Validating(token: Jwt, since: Time)
    | Rotating(token: Jwt, since: Time)
    | Checked(token: Jwt, user: string, since: Time)                          // token validated
    | Confirmed(token: Jwt, pair: Pair, record: Token, since: Time)           // Exists said 1
    | Swapping(token: Jwt, pair: Pair, record: Token, ttl: Time, deleted: bool) // Del executed
    | Revoking(token: Jwt)
    | Finished(outcome: Outcome)
  {
    /** The call holds a minted refresh token that it has not stored yet. */
    predicate Pending() { Confirmed? || Swapping? }
  }

  /** `writer` and `consumer` are history: which call's SetNX stored a key, whose Del removed it.
      `users` are those GenerateTokens was called for, `faulty` whether a command ever failed. */
  datatype State = State(
    now: Time,
    db: Keyspace,
    calls: seq<Call>,
    nextId: nat,
    writer: map<Jwt, nat>,
    consumer: map<Jwt, nat>,
    users: set<string>,
    faulty: bool)

  datatype Label =
    | Tick(to: Time)
    | ArriveGenerate(user: string)
    | ArriveValidate(token: Jwt)
    | ArriveRotate(token: Jwt)
    | ArriveRevoke(token: Jwt)
    | StepSave(c: nat, r: Readings, until: Time, f: Fault)
    | StepLookup(c: nat, read: Time, f: Fault)
    | StepCheck(c: nat, r: Readings, f: Fault)
    | StepPipeDel(c: nat, until: Time, f: Fault)
    | StepPipeSet(c: nat, f: Fault)
    | StepRevoke(c: nat, f: Fault)

  function Init(now: Time): State {
    State(now, map[], [], 0, map[], map[], {}, false)
  }

  predicate Enabled(s: State, l: Label) {
    match l
    case Tick(to) => s.now <= to
    case ArriveGenerate(_) => true
    case ArriveValidate(_) => true
    case ArriveRotate(_) => true
    case ArriveRevoke(_) => true
    case StepSave(c, r, until, _) =>
      c < |s.calls| && s.calls[c].Generating? && r.Between(s.calls[c].since, until) && until <= s.now
    case StepLookup(c, read, _) =>
      c < |s.calls| && (s.calls[c].Validating? || s.calls[c].Rotating?) && s.calls[c].since <= read <= s.now
    case StepCheck(c, r, _) =>
      c < |s.calls| && s.calls[c].Checked? && r.Between(s.calls[c].since, s.now)
    case StepPipeDel(c, until, f) =>
      c < |s.calls| && s.calls[c].Confirmed? && s.calls[c].since <= until <= s.now && f != Unacked
    case StepPipeSet(c, _) => c < |s.calls| && s.calls[c].Swapping?
    case StepRevoke(c, _) => c < |s.calls| && s.calls[c].Revoking?
  }

  /** The store command of one step has been issued: record the new keyspace and who changed it. */
  function Commit(s: State, c: nat, db: Keyspace, f: Fault): State {
    s.(db := db,
       writer := s.writer + (map k | k in db.Keys - s.db.Keys :: c),
       consumer := s.consumer + (map k | k in s.db.Keys - db.Keys :: c),
       faulty := s.faulty || f != NoFault)
  }

  function Goto(s: State, c: nat, call: Call): State
    requires c < |s.calls|
  {
    s.(calls := s.calls[c := call])
  }

  function Mint(cfg: Config, s: State, user: string, r: Readings): Pair {
    Pair(AccessToken(cfg, user, r, s.nextId), RefreshToken(cfg, user, r, s.nextId + 1), AdvertisedTTL(cfg))
  }

  function Save(cfg: Config, s: State, c: nat, r: Readings, until: Time, f: Fault): State
    requires c < |s.calls| && s.calls[c].Generating?
  {
    var user := s.calls[c].user;
    var pair := Mint(cfg, s, user, r);
    var record := NewRefreshToken(cfg, user, pair.refresh, r);
    var (db, err) := SaveRefreshToken(s.db, record, until, s.now, f);
    Goto(Commit(s.(nextId := s.nextId + 2), c, db, f), c,
         Finished(if err == None then Generated(user, pair) else Refused(err.value)))
  }

  /** ValidateRefreshToken, alone or as the first half of RefreshTokens. */
  function Looked(s: State, call: Call, checked: Result<string, Error>, f: Fault): Call
    requires call.Validating? || call.Rotating?
  {
    match checked
    case Err(e) => Finished(Refused(e))
    case Ok(user) =>
      match GetRefreshToken(s.db, call.token, s.now, f)
      case Err(e) => Finished(Refused(e))
      case Ok(record) =>
        if record.revoked then Finished(Refused(Error.Revoked))
        else if call.Validating? then Finished(Validated(user))
        else Checked(call.token, user, s.now)
  }

  function Lookup(cfg: Config, s: State, c: nat, read: Time, f: Fault): State
    requires c < |s.calls| && (s.calls[c].Validating? || s.calls[c].Rotating?)
  {
    var checked := CheckRefreshToken(cfg, s.calls[c].token, read);
    Goto(Commit(s, c, s.db, if checked.Err? then NoFault else f), c, Looked(s, s.calls[c], checked, f))
  }

  function Check(cfg: Config, s: State, c: nat, r: Readings, f: Fault): State
    requires c < |s.calls| && s.calls[c].Checked?
  {
    var Checked(token, user, _) := s.calls[c];
    var pair := Mint(cfg, s, user, r);
    var record := NewRefreshToken(cfg, user, pair.refresh, r);
    var s' := Commit(s.(nextId := s.nextId + 2), c, s.db, f);
    match Exists(s.db, token, s.now, f)
    case Failed => Goto(s', c, Finished(Refused(Transport)))
    case Answer(found) =>
      if found == 0 then Goto(s', c, Finished(Refused(NotFound)))
      else if token == record.token then Goto(s', c, Finished(Refused(AlreadyExists)))
      else Goto(s', c, Confirmed(token, pair, record, s.now))
  }

  function PipeDel(s: State, c: nat, until: Time, f: Fault): State
    requires c < |s.calls| && s.calls[c].Confirmed?
  {
    var Confirmed(token, pair, record, _) := s.calls[c];
    var ttl := record.expiresAt - until;
    if ttl <= 0 then Goto(s, c, Finished(Refused(Expired)))
    else
      var (db, reply) := Del(s.db, token, s.now, f);
      match reply
      case Failed => Goto(Commit(s, c, db, f), c, Finished(Refused(Transport)))
      case Answer(deleted) => Goto(Commit(s, c, db, f), c, Swapping(token, pair, record, ttl, deleted != 0))
  }

  function PipeSet(s: State, c: nat, f: Fault): State
    requires c < |s.calls| && s.calls[c].Swapping?
  {
    var Swapping(token, pair, record, ttl, deleted) := s.calls[c];
    var (db, reply) := SetNX(s.db, record.token, record, ttl, s.now, f);
    Goto(Commit(s, c, db, f), c,
         Finished(match reply
                  case Failed => Refused(Transport)
                  case Answer(ok) =>
                    if !deleted then LostRace(token, record.token)
                    else if !ok then Refused(AlreadyExists)
                    else Rotated(token, pair)))
  }

  function Revoke(s: State, c: nat, f: Fault): State
    requires c < |s.calls| && s.calls[c].Revoking?
  {
    var token := s.calls[c].token;
    var (db, err) := RevokeRefreshToken(s.db, token, s.now, f);
    Goto(Commit(s, c, db, f), c, Finished(if err == None then Retired(token) else Refused(err.value)))
  }

  function Apply(cfg: Config, s: State, l: Label): State
    requires Enabled(s, l)
  {
    match l
    case Tick(to) => s.(now := to)
    case ArriveGenerate(user) => s.(calls := s.calls + [Generating(user, s.now)], users := s.users + {user})
    case ArriveValidate(token) => s.(calls := s.calls + [Validating(token, s.now)])
    case ArriveRotate(token) => s.(calls := s.calls + [Rotating(token, s.now)])
    case ArriveRevoke(token) => s.(calls := s.calls + [Revoking(token)])
    case StepSave(c, r, until, f) => Save(cfg, s, c, r, until, f)
    case StepLookup(c, read, f) => Lookup(cfg, s, c, read, f)
    case StepCheck(c, r, f) => Check(cfg, s, c, r, f)
    case StepPipeDel(c, until, f) => PipeDel(s, c, until, f)
    case StepPipeSet(c, f) => PipeSet(s, c, f)
    case StepRevoke(c, f) => Revoke(s, c, f)
  }

  /** Every label of the run is enabled when its turn comes. */
  ghost predicate Legal(cfg: Config, s: State, run: seq<Label>)
    decreases |run|
  {
    run == [] || (Enabled(s, run[0]) && Legal(cfg, Apply(cfg, s, run[0]), run[1..]))
  }

  function Exec(cfg: Config, s: State, run: seq<Label>): State
    requires Legal(cfg, s, run)
    decreases |run|
  {
    if run == [] then s else Exec(cfg, Apply(cfg, s, run[0]), run[1..])
  }
}
