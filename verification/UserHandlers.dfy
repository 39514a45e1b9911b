/** SqliteUserStorage and the handlers above it, statement by statement. */
module UserHandlers {
  import opened Domain
  import opened Schema
  import opened Sqlite
  import opened Engine
  import opened UnitOfWork
  import opened UserStore

  class SqliteUserStorage {
    const db: Database
    const mutex: RecursiveMutex

    constructor (db: Database, mutex: RecursiveMutex)
      ensures this.db == db && this.mutex == mutex
    {
      this.db, this.mutex := db, mutex;
    }

    method FindById(me: nat, id: Int32) returns (threw: bool, found: Option<User>)
      requires mutex.AvailableTo(me)
      modifies db`attempts, mutex
      ensures mutex.owner == old(mutex.owner) && mutex.depth == old(mutex.depth)
      ensures db.attempts >= old(db.attempts) && threw == !db.Quiet(old(db.attempts))
      ensures !threw ==> found == FindUserById(db.conn.tables, id)
      ensures !threw ==> (forall user :: found == Some(user) <==> IsRow(db.conn.tables, id, user))
      ensures !threw ==> (found == None <==> id !in db.conn.tables.users)
    {
      mutex.Lock(me);
      threw := db.Query();
      found := if id in db.conn.tables.users then Some(LoadUser(db.conn.tables, id)) else None;
      mutex.Unlock(me);
    }

    method FindByEmail(me: nat, email: string) returns (threw: bool, found: Option<User>)
      requires mutex.AvailableTo(me)
      modifies db`attempts, mutex
      ensures mutex.owner == old(mutex.owner) && mutex.depth == old(mutex.depth)
      ensures db.attempts >= old(db.attempts) && threw == !db.Quiet(old(db.attempts))
      ensures !threw ==> found == UserStore.FindByEmail(db.conn.tables, email)
      ensures !threw ==> (found == None <==> forall i :: i in db.conn.tables.users ==> db.conn.tables.users[i].email != email)
    {
      mutex.Lock(me);
      threw := db.Query();
      var row := SelectUserId(db.conn.tables, email);
      found := if row.Some? then Some(LoadUser(db.conn.tables, row.value)) else None;
      mutex.Unlock(me);
    }

    /** All or nothing. Constraint stands for EmailAlreadyRegisteredError, Other for an
        exception; `id` is what the caller's user is given on success. */
    method Add(me: nat, user: User) returns (error: Option<SqlError>, id: Int32)
      requires mutex.AvailableTo(me)
      modifies db, mutex
      ensures mutex.owner == old(mutex.owner) && mutex.depth == old(mutex.depth)
      ensures db.attempts >= old(db.attempts)
      ensures error == None ==>
                db.Quiet(old(db.attempts)) && db.conn.frames == old(db.conn.frames)
                && AddUser(old(db.conn.tables), user) == Ok((db.conn.tables, id))
      ensures error.Some? ==> db.conn == old(db.conn)
      ensures error == Some(Constraint) || (error.Some? && db.Quiet(old(db.attempts))) ==>
                AddUser(old(db.conn.tables), user) == Err(error.value)
    {
      mutex.Lock(me);
      error, id := AddGuarded(user);
      mutex.Unlock(me);
    }

    method AddGuarded(user: User) returns (error: Option<SqlError>, id: Int32)
      modifies db
      ensures db.attempts >= old(db.attempts)
      ensures error == None ==>
                db.Quiet(old(db.attempts)) && db.conn.frames == old(db.conn.frames)
                && AddUser(old(db.conn.tables), user) == Ok((db.conn.tables, id))
      ensures error.Some? ==> db.conn == old(db.conn)
      ensures error == Some(Constraint) || (error.Some? && db.Quiet(old(db.attempts))) ==>
                AddUser(old(db.conn.tables), user) == Err(error.value)
    {
      ghost var before := db.conn;
      id := user.id;
      var guard := SavepointGuard.Open(db, "users_add");
      if guard == null {
        return Some(Other), id;
      }
      var rowId;
      error, rowId := InsertRow(user);
      GuardBrackets(before, db.conn.tables, "users_add");
      assert db.conn == Savepoint(before, "users_add").(tables := db.conn.tables);
      if error == None {
        id := GetInt(rowId);
        var threw := guard.Release();
        error := if threw then Some(Other) else None;
      }
      guard.Destroy();
    }

    /** The prepared INSERT: binding may throw, and so may the statement; `rowId` is
        `getLastInsertRowid` after it. */
    method InsertRow(user: User) returns (error: Option<SqlError>, rowId: int)
      modifies db
      ensures db.attempts >= old(db.attempts) && db.conn.frames == old(db.conn.frames)
      ensures error == None ==>
                db.Quiet(old(db.attempts)) && AddUser(old(db.conn.tables), user) == Ok((db.conn.tables, GetInt(rowId)))
      ensures error == Some(Constraint) || (error.Some? && db.Quiet(old(db.attempts))) ==>
                AddUser(old(db.conn.tables), user) == Err(error.value)
    {
      var bound := BindPassword(user.password);
      if bound.Err? {
        return Some(bound.error), 0;
      }
      var row := UserRow(user.email, bound.value, ToInt(user.verification));
      rowId := NextRowId(db.conn.tables.users.Keys);
      error := db.Exec(OnTables(t =>
        match InsertUser(t, row)
        case Err(e) => Err(e)
        case Ok((t1, _)) => Ok(t1)));
    }
  }

  class RegisterUserHandler {
    const storage: SqliteUserStorage

    constructor (storage: SqliteUserStorage)
      ensures this.storage == storage
    {
      this.storage := storage;
    }

    /** A registration either is durable and reported with its id, or changed nothing; the
        mutex and the frames end as they began. `hash` is the hasher's answer. */
    method Execute(me: nat, email: string, hash: Option<Bytes>) returns (r: RegisterResult)
      requires storage.mutex.AvailableTo(me)
      modifies storage.db, storage.mutex
      ensures storage.mutex.owner == old(storage.mutex.owner) && storage.mutex.depth == old(storage.mutex.depth)
      ensures storage.db.attempts >= old(storage.db.attempts)
      ensures storage.db.conn.frames == old(storage.db.conn.frames)
      ensures var (t, one) := Register(old(storage.db.conn.tables), email, hash);
              && (r.Registered? ==> storage.db.conn.frames == [] && r == one && storage.db.conn.tables == t)
              && (!r.Registered? ==> storage.db.conn == old(storage.db.conn))
              && (r.RegisterThrew? && storage.db.Quiet(old(storage.db.attempts)) ==> old(storage.db.conn.frames) != [] || r == one)
              && (!r.RegisterThrew? ==> r == one)
      ensures r.Registered? && |hash.value| <= INT_MAX ==>
                UserStore.FindByEmail(storage.db.conn.tables, email) == Some(User(r.id, email, hash.value, PASSWORD))
    {
      RegisterStores(storage.db.conn.tables, email, hash);
      var uow := SqliteStorageUoW.Open(storage.db, storage.mutex, me);
      if uow == null {
        return RegisterThrew;
      }
      ghost var base := storage.db.conn.tables;
      var error, id := Some(Other), 0;
      if hash.Some? {
        var user := User(0, "", [], PASSWORD);
        user := user.(email := email);
        user := user.(password := hash.value);
        error, id := storage.Add(me, user);
        r := if error == None then Registered(id) else if error == Some(Constraint) then EmailTaken else RegisterThrew;
      } else {
        r := NotHashed;
      }
      var threw := Conclude(uow, storage, r.Registered?, r.RegisterThrew?, base);
      if threw {
        r := RegisterThrew;
      }
    }
  }

  class AuthUserViaGoogleHandler {
    const storage: SqliteUserStorage

    constructor (storage: SqliteUserStorage)
      ensures this.storage == storage
    {
      this.storage := storage;
    }

    /** `keyEmail` is the key handler's answer. The user is looked up before the unit of work
        is opened; with no other thread in between, the outcome is the handler's effect. */
    method Execute(me: nat, keyEmail: Option<string>) returns (r: GoogleResult)
      requires storage.mutex.AvailableTo(me)
      modifies storage.db, storage.mutex
      ensures storage.mutex.owner == old(storage.mutex.owner) && storage.mutex.depth == old(storage.mutex.depth)
      ensures storage.db.attempts >= old(storage.db.attempts)
      ensures storage.db.conn.frames == old(storage.db.conn.frames)
      ensures var (t, one) := SignIn(old(storage.db.conn.tables), keyEmail);
              && (r.SignedUp? ==> storage.db.conn.frames == [] && r == one && storage.db.conn.tables == t)
              && (!r.SignedUp? ==> storage.db.conn == old(storage.db.conn))
              && (r.GoogleThrew? && storage.db.Quiet(old(storage.db.attempts)) ==> old(storage.db.conn.frames) != [] || r == one)
              && (!r.GoogleThrew? ==> r == one)
      ensures r.SignedUp? ==>
                UserStore.FindByEmail(storage.db.conn.tables, keyEmail.value) == Some(User(r.id, keyEmail.value, [], GOOGLE))
    {
      SignInStores(storage.db.conn.tables, keyEmail);
      if keyEmail.None? {
        return KeyRejected;
      }
      var email := keyEmail.value;
      var lookupThrew, existing := storage.FindByEmail(me, email);
      if lookupThrew {
        return GoogleThrew;
      }
      if existing.Some? {
        return AlreadyRegistered(existing.value.id);
      }
      var uow := SqliteStorageUoW.Open(storage.db, storage.mutex, me);
      if uow == null {
        return GoogleThrew;
      }
      ghost var base := storage.db.conn.tables;
      var user := User(0, "", [], PASSWORD);
      user := user.(email := email);
      user := user.(verification := GOOGLE);
      var error, id := storage.Add(me, user);
      r := if error == None then SignedUp(id) else if error == Some(Constraint) then Refused else GoogleThrew;
      var threw := Conclude(uow, storage, r.SignedUp?, r.GoogleThrew?, base);
      if threw {
        r := GoogleThrew;
      }
    }
  }

  /** How both handlers leave their unit of work: `commit` after a successful `add`,
      `rollback` after a reported error, neither when an exception is already on its way;
      then the unit's destruction. */
  method Conclude(uow: SqliteStorageUoW, storage: SqliteUserStorage, added: bool, throwing: bool, ghost base: Db)
    returns (threw: bool)
    requires uow.db == storage.db && uow.mutex == storage.mutex && uow.Valid() && uow.active
    requires uow.mutex.depth > 0 && Consistent(uow.Snapshot(), base, uow.mutex.depth - 1)
    requires !(added && throwing) && (!added ==> storage.db.conn.tables == base)
    modifies uow, storage.db, storage.mutex
    ensures storage.mutex.depth == old(storage.mutex.depth) - 1
    ensures storage.mutex.owner == if storage.mutex.depth == 0 then None else old(storage.mutex.owner)
    ensures storage.db.conn.frames == []
    ensures storage.db.conn.tables == if threw then base else old(storage.db.conn.tables)
    ensures if throwing then threw && storage.db.attempts == old(storage.db.attempts)
            else threw == storage.db.fault(old(storage.db.attempts)) && storage.db.attempts == old(storage.db.attempts) + 1
  {
    threw := throwing;
    if added {
      threw := uow.Commit();
    } else if !throwing {
      threw := uow.Rollback();
    }
    uow.Destroy();
  }

  class LoginUserHandler {
    const storage: SqliteUserStorage

    constructor (storage: SqliteUserStorage)
      ensures this.storage == storage
    {
      this.storage := storage;
    }

    /** `verify` is the hasher's verification of the command's raw password. */
    method Execute(me: nat, email: string, verify: Bytes -> bool) returns (threw: bool, userId: Option<Int32>)
      requires storage.mutex.AvailableTo(me)
      modifies storage.db`attempts, storage.mutex
      ensures storage.mutex.owner == old(storage.mutex.owner) && storage.mutex.depth == old(storage.mutex.depth)
      ensures threw == !storage.db.Quiet(old(storage.db.attempts))
      ensures !threw ==> userId == Login(UserStore.FindByEmail(storage.db.conn.tables, email), verify)
      ensures !threw ==> forall id: Int32 :: userId == Some(id) <==> LogsIn(storage.db.conn.tables, email, verify, id)
    {
      var user;
      threw, user := storage.FindByEmail(me, email);
      userId := None;
      if threw || user.None? {
        return;
      }
      var passwordValid := verify(user.value.password);
      if passwordValid {
        userId := Some(user.value.id);
      }
    }
  }
}
