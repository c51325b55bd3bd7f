/** Registration and login over a store of users keyed by name. */
module Users {
  import opened Common

  type Bytes = seq<bv8>

  datatype User = User(id: string, name: Bytes, password: Bytes, createdAt: Time)

  datatype Error = InvalidName | WeakPassword | HashFailed | UserAlreadyExists | UserNotFound | InvalidCredentials

  /** Lengths are counted in bytes. */
  predicate ValidName(name: Bytes) {
    3 <= |name| <= 20
  }

  predicate ValidPassword(password: Bytes) {
    8 <= |password| <= 16
  }

  type Table = map<Bytes, User>

  /** `hashed` is what the hasher makes of the password, if it succeeds. */
  function CreateUser(m: Table, name: Bytes, password: Bytes, hashed: Option<Bytes>, id: string, now: Time)
    : (Table, Result<User, Error>)
  {
    if !ValidName(name) then (m, Err(InvalidName))
    else if !ValidPassword(password) then (m, Err(WeakPassword))
    else if hashed == None then (m, Err(HashFailed))
    else
      var user := User(id, name, hashed.value, now);
      if name in m then (m, Err(UserAlreadyExists)) else (m[name := user], Ok(user))
  }

  function LoginUser(m: Table, name: Bytes, password: Bytes, compare: (Bytes, Bytes) -> bool): Result<string, Error> {
    if !ValidName(name) then Err(InvalidName)
    else if !ValidPassword(password) then Err(WeakPassword)
    else if name !in m then Err(UserNotFound)
    else if !compare(m[name].password, password) then Err(InvalidCredentials)
    else Ok(m[name].id)
  }

  class MockStorage {
    var users: Table

    constructor ()
      ensures users == map[]
    {
      users := map[];
    }

    method Create(user: User) returns (err: Option<Error>)
      modifies this
      ensures err == if user.name in old(users) then Some(UserAlreadyExists) else None
      ensures users == if err == None then old(users)[user.name := user] else old(users)
    {
      if user.name in users {
        return Some(UserAlreadyExists);
      }
      users := users[user.name := user];
      err := None;
    }

    method FindByName(name: Bytes) returns (user: Result<User, Error>)
      ensures user == if name in users then Ok(users[name]) else Err(UserNotFound)
    {
      if name in users {
        return Ok(users[name]);
      }
      user := Err(UserNotFound);
    }
  }

  class UserService {
    const storage: MockStorage

    constructor (storage: MockStorage)
      ensures this.storage == storage
    {
      this.storage := storage;
    }

    method Register(name: Bytes, password: Bytes, hashed: Option<Bytes>, id: string, now: Time)
      returns (result: Result<User, Error>)
      modifies storage
      ensures (storage.users, result) == CreateUser(old(storage.users), name, password, hashed, id, now)
    {
      if !ValidName(name) {
        return Err(InvalidName);
      }
      if !ValidPassword(password) {
        return Err(WeakPassword);
      }
      if hashed == None {
        return Err(HashFailed);
      }
      var user := User(id, name, hashed.value, now);
      var err := storage.Create(user);
      result := if err == None then Ok(user) else Err(err.value);
    }

    method Login(name: Bytes, password: Bytes, compare: (Bytes, Bytes) -> bool) returns (id: Result<string, Error>)
      ensures id == LoginUser(storage.users, name, password, compare)
    {
      if !ValidName(name) {
        return Err(InvalidName);
      }
      if !ValidPassword(password) {
        return Err(WeakPassword);
      }
      var user := storage.FindByName(name);
      if user.Err? {
        return Err(user.error);
      }
      if !compare(user.value.password, password) {
        return Err(InvalidCredentials);
      }
      id := Ok(user.value.id);
    }
  }

  // ---- Whole runs ----

  /** An attempt to register. */
  datatype Attempt = Attempt(name: Bytes, password: Bytes, hashed: Option<Bytes>, id: string, now: Time) {
    /** Good enough to be stored, if the name is free. */
    predicate Acceptable() {
      ValidName(name) && ValidPassword(password) && hashed.Some?
    }
  }

  function Apply(m: Table, a: Attempt): Table {
    CreateUser(m, a.name, a.password, a.hashed, a.id, a.now).0
  }

  function Exec(m: Table, run: seq<Attempt>): Table
    decreases |run|
  {
    if run == [] then m else Exec(Apply(m, run[0]), run[1..])
  }

  /** The first acceptable attempt for a name. */
  function Winner(run: seq<Attempt>, name: Bytes): (w: Option<Attempt>)
    ensures w.Some? ==> w.value in run && w.value.name == name && w.value.Acceptable()
    decreases |run|
  {
    if run == [] then None
    else if run[0].name == name && run[0].Acceptable() then Some(run[0])
    else Winner(run[1..], name)
  }

  function UserOf(a: Attempt): User
    requires a.hashed.Some?
  {
    User(a.id, a.name, a.hashed.value, a.now)
  }

  lemma {:induction false} ExecStores(m: Table, run: seq<Attempt>, name: Bytes)
    ensures var m' := Exec(m, run);
            var w := Winner(run, name);
            if name in m then name in m' && m'[name] == m[name]
            else (name in m' <==> w.Some?) && (w.Some? ==> m'[name] == UserOf(w.value))
    decreases |run|
  {
    if run != [] {
      ExecStores(Apply(m, run[0]), run[1..], name);
    }
  }

  /** Over every run a name belongs to its first acceptable registration, for good: stored users
      never change and are the only ones of their name, which has 3 to 20 bytes. */
  lemma FirstComeForGood(run: seq<Attempt>, more: seq<Attempt>, name: Bytes)
    ensures var m := Exec(map[], run);
            && (name in m ==> m[name].name == name && 3 <= |name| <= 20)
            && (name in m ==> name in Exec(m, more) && Exec(m, more)[name] == m[name])
  {
    ExecStores(map[], run, name);
    ExecStores(Exec(map[], run), more, name);
  }

  /** A registration succeeds exactly when it is acceptable and the first such of its name: names
      stay unique. */
  lemma RegistersIff(run: seq<Attempt>, a: Attempt)
    ensures CreateUser(Exec(map[], run), a.name, a.password, a.hashed, a.id, a.now).1
         == if |a.name| < 3 || 20 < |a.name| then Err(InvalidName)
            else if |a.password| < 8 || 16 < |a.password| then Err(WeakPassword)
            else if a.hashed == None then Err(HashFailed)
            else if Winner(run, a.name) == None then Ok(User(a.id, a.name, a.hashed.value, a.now))
            else Err(UserAlreadyExists)
  {
    ExecStores(map[], run, a.name);
  }

  /** Login, on every input: names and passwords of the wrong length are refused as such before anybody
      is looked up; otherwise it yields an identifier exactly when the one successful registration of
      the name stored a hash that the hasher accepts for the password, and it is that user's. */
  lemma LoginIff(run: seq<Attempt>, name: Bytes, password: Bytes, compare: (Bytes, Bytes) -> bool)
    ensures var w := Winner(run, name);
            LoginUser(Exec(map[], run), name, password, compare) ==
            if |name| < 3 || 20 < |name| then Err(InvalidName)
            else if |password| < 8 || 16 < |password| then Err(WeakPassword)
            else if w == None then Err(UserNotFound)
            else if compare(w.value.hashed.value, password) then Ok(w.value.id)
            else Err(InvalidCredentials)
  {
    ExecStores(map[], run, name);
  }

  // ---- The mock hasher ----

  /** The bytes of "hashed_". */
  const PREFIX: Bytes := [0x68, 0x61, 0x73, 0x68, 0x65, 0x64, 0x5f]

  function MockHash(password: Bytes): Bytes {
    PREFIX + password
  }

  function MockCompare(): (Bytes, Bytes) -> bool {
    (hashed: Bytes, password: Bytes) => hashed == MockHash(password)
  }

  /** With the mock hasher, login succeeds exactly with the password registered. */
  lemma MockLoginIff(run: seq<Attempt>, name: Bytes, password: Bytes)
    requires forall a :: a in run ==> a.hashed == Some(MockHash(a.password))
    ensures LoginUser(Exec(map[], run), name, password, MockCompare()).Ok?
       <==> (Winner(run, name).Some? && Winner(run, name).value.password == password)
  {
    LoginIff(run, name, password, MockCompare());
    if w :| Winner(run, name) == Some(w) {
      assert MockHash(w.password)[|PREFIX|..] == w.password;
      assert MockHash(password)[|PREFIX|..] == password;
    }
  }
}
