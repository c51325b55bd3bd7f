/** The SQLite token store: a table with a unique token column, and a transaction around the
    rotation. Any statement may fail. */
module SqliteStore {
  import opened Common
  import opened Tokens

  /** Which statement of a transaction fails, if any. */
  datatype TxFault = Clean | AtBegin | AtUpdate | AtInsert | AtCommit

  predicate HasRow(rows: seq<Token>, token: Jwt) {
    exists i :: 0 <= i < |rows| && rows[i].token == token
  }

  ghost predicate Unique(rows: seq<Token>) {
    forall i, j :: 0 <= i < j < |rows| ==> rows[i].token != rows[j].token
  }

  /** UPDATE tokens SET revoked=1 WHERE token=?, over the first `n` rows. */
  function Updated(rows: seq<Token>, token: Jwt, n: nat): (r: seq<Token>)
    requires n <= |rows|
    ensures |r| == |rows|
  {
    seq(|rows|, i requires 0 <= i < |rows| =>
      if i < n && rows[i].token == token then rows[i].(revoked := true) else rows[i])
  }

  function MarkRevoked(rows: seq<Token>, token: Jwt): seq<Token> {
    Updated(rows, token, |rows|)
  }

  function Find(rows: seq<Token>, token: Jwt): (r: Result<Token, Error>)
    ensures r.Ok? <==> HasRow(rows, token)
    ensures r.Ok? ==> r.value in rows && r.value.token == token
    ensures r.Err? ==> r.error == NotFound
  {
    if rows == [] then Err(NotFound)
    else if rows[0].token == token then Ok(rows[0])
    else
      var r := Find(rows[1..], token);
      assert HasRow(rows[1..], token) ==> HasRow(rows, token) by {
        if i :| 0 <= i < |rows[1..]| && rows[1..][i].token == token {
          assert rows[i + 1].token == token;
        }
      }
      assert HasRow(rows, token) ==> HasRow(rows[1..], token) by {
        if i :| 0 <= i < |rows| && rows[i].token == token {
          assert rows[1..][i - 1].token == token;
        }
      }
      r
  }

  function Save(rows: seq<Token>, record: Token, fails: bool): (seq<Token>, Option<Error>) {
    if fails then (rows, Some(Transport))
    else if HasRow(rows, record.token) then (rows, Some(AlreadyExists))
    else (rows + [record], None)
  }

  function Revoke(rows: seq<Token>, token: Jwt, fails: bool): (seq<Token>, Option<Error>) {
    if fails then (rows, Some(Transport))
    else if HasRow(rows, token) then (MarkRevoked(rows, token), None)
    else (rows, Some(NotFound))
  }

  /** The error a rotation reports, judged on the table it started from. */
  function RotationError(rows: seq<Token>, oldToken: Jwt, record: Token, f: TxFault): Option<Error> {
    if f == AtBegin || f == AtUpdate then Some(Transport)
    else if !HasRow(rows, oldToken) then Some(NotFound)
    else if f == AtInsert then Some(Transport)
    else if HasRow(rows, record.token) then Some(AlreadyExists)
    else if f == AtCommit then Some(Transport)
    else None
  }

  /** All or nothing. */
  function RevokeAndSave(rows: seq<Token>, oldToken: Jwt, record: Token, f: TxFault): (seq<Token>, Option<Error>) {
    var err := RotationError(rows, oldToken, record, f);
    (if err == None then MarkRevoked(rows, oldToken) + [record] else rows, err)
  }

  class Storage {
    var rows: seq<Token>

    constructor ()
      ensures rows == []
    {
      rows := [];
    }

    method ExecUpdate(token: Jwt) returns (affected: nat)
      modifies this
      ensures rows == MarkRevoked(old(rows), token)
      ensures affected > 0 <==> HasRow(old(rows), token)
    {
      affected := 0;
      var before := rows;
      var i := 0;
      while i < |rows|
        invariant 0 <= i <= |rows| == |before|
        invariant rows == Updated(before, token, i)
        invariant affected > 0 <==> exists j :: 0 <= j < i && before[j].token == token
      {
        if rows[i].token == token {
          rows := rows[i := rows[i].(revoked := true)];
          affected := affected + 1;
        }
        i := i + 1;
      }
    }

    method ExecInsert(record: Token, fails: bool) returns (err: Option<Error>)
      modifies this
      ensures (rows, err) == Save(old(rows), record, fails)
      ensures err == if fails then Some(Transport)
                     else if HasRow(old(rows), record.token) then Some(AlreadyExists)
                     else None
      ensures rows == if err == None then old(rows) + [record] else old(rows)
    {
      if fails {
        return Some(Transport);
      }
      if exists i :: 0 <= i < |rows| && rows[i].token == record.token {
        return Some(AlreadyExists);
      }
      rows := rows + [record];
      err := None;
    }

    method RevokeRefreshToken(token: Jwt, fails: bool) returns (err: Option<Error>)
      modifies this
      ensures (rows, err) == Revoke(old(rows), token, fails)
      ensures err == if fails then Some(Transport) else if HasRow(old(rows), token) then None else Some(NotFound)
      ensures err != None ==> rows == old(rows)
    {
      if fails {
        return Some(Transport);
      }
      var affected := ExecUpdate(token);
      if affected == 0 {
        assert rows == old(rows);
        return Some(NotFound);
      }
      err := None;
    }

    /** Works on the table in place and, unless it gets to commit, puts back what it found. */
    method RotateRefreshToken(oldToken: Jwt, record: Token, f: TxFault) returns (err: Option<Error>)
      modifies this
      ensures (rows, err) == RevokeAndSave(old(rows), oldToken, record, f)
      ensures err != None ==> rows == old(rows)
    {
      if f == AtBegin {
        return Some(Transport);
      }
      var snapshot := rows;
      err := RevokeRefreshToken(oldToken, f == AtUpdate);
      if err != None {
        rows := snapshot;
        return;
      }
      UpdateKeepsTokens(snapshot, oldToken, record.token);
      err := ExecInsert(record, f == AtInsert);
      if err != None {
        rows := snapshot;
        return;
      }
      if f == AtCommit {
        rows := snapshot;
        return Some(Transport);
      }
    }
  }

  lemma UpdateKeepsTokens(rows: seq<Token>, token: Jwt, other: Jwt)
    ensures HasRow(MarkRevoked(rows, token), other) <==> HasRow(rows, other)
  {
    var rows' := MarkRevoked(rows, token);
    assert forall i :: 0 <= i < |rows| ==> rows'[i].token == rows[i].token;
  }

  /** The row of a key, in a table that has only one. */
  lemma {:induction false} FindIs(rows: seq<Token>, i: nat)
    requires Unique(rows) && i < |rows|
    ensures Find(rows, rows[i].token) == Ok(rows[i])
    decreases i
  {
    if i > 0 {
      FindIs(rows[1..], i - 1);
    }
  }

  /** What a reader sees of any key after an update. */
  lemma {:induction false} FindAfterUpdate(rows: seq<Token>, token: Jwt, k: Jwt)
    ensures Find(MarkRevoked(rows, token), k)
         == match Find(rows, k)
            case Err(e) => Err(e)
            case Ok(row) => Ok(if k == token then row.(revoked := true) else row)
    decreases |rows|
  {
    if rows != [] {
      assert MarkRevoked(rows, token)[1..] == MarkRevoked(rows[1..], token);
      FindAfterUpdate(rows[1..], token, k);
    }
  }

  lemma {:induction false} FindAfterInsert(rows: seq<Token>, record: Token, k: Jwt)
    ensures Find(rows + [record], k)
         == if HasRow(rows, k) then Find(rows, k)
            else if k == record.token then Ok(record)
            else Err(NotFound)
    decreases |rows|
  {
    if rows == [] {
      assert [record][1..] == [];
    } else {
      assert (rows + [record])[1..] == rows[1..] + [record];
      FindAfterInsert(rows[1..], record, k);
      assert HasRow(rows, k) <==> rows[0].token == k || HasRow(rows[1..], k) by {
        assert Find(rows, k).Ok? <==> rows[0].token == k || Find(rows[1..], k).Ok?;
      }
    }
  }

  /** What a reader of `k` should find once `oldToken` has been replaced by `record`. */
  function Rotated(rows: seq<Token>, oldToken: Jwt, record: Token, k: Jwt): Result<Token, Error> {
    if k == record.token then Ok(record)
    else
      match Find(rows, k)
      case Ok(row) => Ok(if k == oldToken then row.(revoked := true) else row)
      case Err(e) => Err(e)
  }

  /** A rotation on any error leaves the table as it was, in particular when it would replace a token
      by itself. It succeeds exactly when nothing fails, the old token has a row and the new one has
      none, and then there is one new row. */
  lemma RotationIsAtomic(rows: seq<Token>, oldToken: Jwt, record: Token, f: TxFault)
    requires Unique(rows)
    ensures var (rows', err) := RevokeAndSave(rows, oldToken, record, f);
            && (err != None ==> rows' == rows)
            && (err == None <==> f == Clean && HasRow(rows, oldToken) && !HasRow(rows, record.token))
            && (oldToken == record.token ==> err != None)
            && (err == None ==> |rows'| == |rows| + 1)
            && Unique(rows')
  {
    UpdateKeepsTokens(rows, oldToken, record.token);
  }

  /** The error of a rotation, kind by kind: the statements run in order, and the first one that fails or
      finds no row, or a row in its way, decides. */
  lemma RotationAnswers(rows: seq<Token>, oldToken: Jwt, record: Token, f: TxFault)
    ensures var err := RevokeAndSave(rows, oldToken, record, f).1;
            var (hadOld, hadNew) := (HasRow(rows, oldToken), HasRow(rows, record.token));
            && (err == Some(NotFound) <==> f != AtBegin && f != AtUpdate && !hadOld)
            && (err == Some(AlreadyExists) <==> (f == Clean || f == AtCommit) && hadOld && hadNew)
            && (err == Some(Transport) <==>
                  f == AtBegin || f == AtUpdate || (f == AtInsert && hadOld) || (f == AtCommit && hadOld && !hadNew))
            && (err == None <==> f == Clean && hadOld && !hadNew)
  {
  }

  /** After a successful rotation the old row's flag is set, the new record is there, and the rows of
      all other tokens are untouched. */
  lemma RotationReplaces(rows: seq<Token>, oldToken: Jwt, record: Token, f: TxFault, k: Jwt)
    requires RevokeAndSave(rows, oldToken, record, f).1 == None
    ensures Find(RevokeAndSave(rows, oldToken, record, f).0, k) == Rotated(rows, oldToken, record, k)
  {
    FindAfterUpdate(rows, oldToken, k);
    FindAfterInsert(MarkRevoked(rows, oldToken), record, k);
    UpdateKeepsTokens(rows, oldToken, k);
  }

  datatype Op =
    | OpSave(record: Token, fails: bool)
    | OpRevoke(token: Jwt, fails: bool)
    | OpRotate(oldToken: Jwt, record: Token, f: TxFault)

  function Apply(rows: seq<Token>, op: Op): seq<Token> {
    match op
    case OpSave(record, fails) => Save(rows, record, fails).0
    case OpRevoke(token, fails) => Revoke(rows, token, fails).0
    case OpRotate(oldToken, record, f) => RevokeAndSave(rows, oldToken, record, f).0
  }

  function Run(rows: seq<Token>, ops: seq<Op>): seq<Token>
    decreases |ops|
  {
    if ops == [] then rows else Run(Apply(rows, ops[0]), ops[1..])
  }

  /** No run, failing or not, stores a token twice. */
  lemma {:induction false} RunStaysUnique(rows: seq<Token>, ops: seq<Op>)
    requires Unique(rows)
    ensures Unique(Run(rows, ops))
    decreases |ops|
  {
    if ops != [] {
      if ops[0].OpRotate? {
        RotationIsAtomic(rows, ops[0].oldToken, ops[0].record, ops[0].f);
      }
      RunStaysUnique(Apply(rows, ops[0]), ops[1..]);
    }
  }
}
