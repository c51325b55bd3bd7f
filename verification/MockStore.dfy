/** The in-memory token store: a map of pointers, so a record handed out by Get is the stored one. */
module MockStore {
  import opened Common
  import opened Tokens

  type Table = map<Jwt, Token>

  function Save(m: Table, record: Token): (Table, Option<Error>) {
    if record.token in m then (m, Some(AlreadyExists)) else (m[record.token := record], None)
  }

  function Get(m: Table, token: Jwt): Result<Token, Error> {
    if token in m then Ok(m[token]) else Err(NotFound)
  }

  function Revoke(m: Table, token: Jwt): (Table, Option<Error>) {
    if token in m then (m[token := m[token].(revoked := true)], None) else (m, Some(NotFound))
  }

  function RevokeAndSave(m: Table, oldToken: Jwt, record: Token): (Table, Option<Error>) {
    var (m', err) := Revoke(m, oldToken);
    if err != None then (m, err) else Save(m', record)
  }

  class TokenObject {
    var userID: string
    var token: Jwt
    var revoked: bool
    var createdAt: Time
    var expiresAt: Time

    constructor (record: Token)
      ensures AsRecord() == record
    {
      userID, token, revoked := record.userID, record.token, record.revoked;
      createdAt, expiresAt := record.createdAt, record.expiresAt;
    }

    function AsRecord(): Token
      reads this
    {
      Token(userID, token, revoked, createdAt, expiresAt)
    }
  }

  class MockRepository {
    var tokens: map<Jwt, TokenObject>

    /** Every entry is stored under its own token, so different keys hold different objects. */
    ghost predicate Valid()
      reads this, tokens.Values
      ensures Valid() ==>
                forall j, k :: j in tokens && k in tokens && j != k ==> tokens[j] != tokens[k]
    {
      forall k :: k in tokens ==> tokens[k].token == k
    }

    ghost function Contents(): Table
      reads this, tokens.Values
    {
      map k | k in tokens :: tokens[k].AsRecord()
    }

    constructor ()
      ensures Valid() && Contents() == map[]
    {
      tokens := map[];
    }

    /** Stores the caller's own object, unless its token is taken. */
    method SaveRefreshToken(t: TokenObject) returns (err: Option<Error>)
      requires Valid()
      modifies this
      ensures Valid()
      ensures err == if t.token in old(tokens) then Some(AlreadyExists) else None
      ensures tokens == if err == None then old(tokens)[t.token := t] else old(tokens)
      ensures (Contents(), err) == Save(old(Contents()), t.AsRecord())
    {
      if t.token in tokens {
        return Some(AlreadyExists);
      }
      tokens := tokens[t.token := t];
      assert Contents() == old(Contents())[t.token := t.AsRecord()];
      err := None;
    }

    /** Hands out the stored object itself. */
    method GetRefreshToken(token: Jwt) returns (t: TokenObject?, err: Option<Error>)
      requires Valid()
      ensures token in tokens ==> t == tokens[token] && err == None
      ensures token !in tokens ==> t == null && err == Some(NotFound)
    {
      if token !in tokens {
        return null, Some(NotFound);
      }
      return tokens[token], None;
    }

    /** Writes the revoked flag of one object; its other fields and every other object stay as
        they are, and so does the map. */
    method RevokeRefreshToken(token: Jwt) returns (err: Option<Error>)
      requires Valid()
      modifies this, (if token in tokens then {tokens[token]} else {})`revoked
      ensures Valid() && tokens == old(tokens)
      ensures err == if token in tokens then None else Some(NotFound)
      ensures token in tokens ==> tokens[token].revoked
      ensures (Contents(), err) == Revoke(old(Contents()), token)
    {
      if token !in tokens {
        return Some(NotFound);
      }
      var t := tokens[token];
      t.revoked := true;
      tokens := tokens[token := t];
      assert Contents() == old(Contents())[token := old(t.AsRecord()).(revoked := true)];
      err := None;
    }

    /** Not a transaction: when the save is refused, the old token has been revoked already. */
    method RotateRefreshToken(oldToken: Jwt, t: TokenObject) returns (err: Option<Error>)
      requires Valid()
      modifies this, (if oldToken in tokens then {tokens[oldToken]} else {})`revoked
      ensures Valid()
      ensures err == if oldToken !in old(tokens) then Some(NotFound)
                     else if old(t.token) in old(tokens) then Some(AlreadyExists)
                     else None
      ensures oldToken in old(tokens) ==> old(tokens)[oldToken].revoked
      ensures tokens == if err == None then old(tokens)[t.token := t] else old(tokens)
      ensures (Contents(), err) == RevokeAndSave(old(Contents()), oldToken, old(t.AsRecord()))
    {
      err := RevokeRefreshToken(oldToken);
      if err != None {
        return;
      }
      err := SaveRefreshToken(t);
    }
  }

  datatype Op = OpSave(record: Token) | OpRevoke(token: Jwt) | OpRotate(oldToken: Jwt, record: Token)

  function Apply(m: Table, op: Op): Table {
    match op
    case OpSave(record) => Save(m, record).0
    case OpRevoke(token) => Revoke(m, token).0
    case OpRotate(oldToken, record) => RevokeAndSave(m, oldToken, record).0
  }

  function Run(m: Table, ops: seq<Op>): Table
    decreases |ops|
  {
    if ops == [] then m else Run(Apply(m, ops[0]), ops[1..])
  }

  ghost predicate Keyed(m: Table) {
    forall k :: k in m ==> m[k].token == k
  }

  /** Every record of `m` is still there, as it was or revoked. */
  ghost predicate Preserves(m: Table, m': Table) {
    forall k :: k in m ==> k in m' && (m'[k] == m[k] || m'[k] == m[k].(revoked := true))
  }

  lemma ApplyPreserves(m: Table, op: Op)
    requires Keyed(m)
    ensures Keyed(Apply(m, op)) && Preserves(m, Apply(m, op))
  {
  }

  lemma PreservesAgain(a: Table, b: Table, c: Table)
    requires Preserves(a, b) && Preserves(b, c)
    ensures Preserves(a, c)
  {
    forall k | k in a ensures k in c && (c[k] == a[k] || c[k] == a[k].(revoked := true)) {
      assert k in b;
    }
  }

  /** Over every run no key vanishes, no revocation is undone, nothing else about a record changes
      and every entry stays under its own token. */
  lemma {:induction false} RunIsMonotone(m: Table, ops: seq<Op>)
    requires Keyed(m)
    ensures Keyed(Run(m, ops)) && Preserves(m, Run(m, ops))
    decreases |ops|
  {
    if ops != [] {
      hide Keyed, Preserves, Apply;
      ApplyPreserves(m, ops[0]);
      RunIsMonotone(Apply(m, ops[0]), ops[1..]);
      PreservesAgain(m, Apply(m, ops[0]), Run(m, ops));
    }
  }

  /** A refused rotation changes the table exactly when the old token was there unrevoked, which
      then is revoked with nothing to replace it. */
  lemma RefusedRotation(m: Table, oldToken: Jwt, record: Token)
    requires RevokeAndSave(m, oldToken, record).1 != None
    ensures var m' := RevokeAndSave(m, oldToken, record).0;
            && (m' != m <==> oldToken in m && !m[oldToken].revoked)
            && (m' != m ==> m' == m[oldToken := m[oldToken].(revoked := true)])
  {
    if oldToken in m && m[oldToken].revoked {
      assert m[oldToken := m[oldToken].(revoked := true)] == m;
    }
  }
}
