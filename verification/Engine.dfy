/** The objects the storages are built on: a database connection whose commands may throw, a
    recursive mutex, and the guard that brackets work in a savepoint. */
module Engine {
  import opened Domain
  import opened Schema
  import opened Sqlite

  type Command = Connection<Db> -> Result<Connection<Db>>

  /** A statement that only touches the tables. */
  function OnTables(effect: Db -> Result<Db>): Command {
    (c: Connection<Db>) =>
      match effect(c.tables)
      case Err(e) => Err(e)
      case Ok(t) => Ok(c.(tables := t))
  }

  /** `fault` is an arbitrary plan of which commands throw for reasons outside the model,
      counted by `attempts`. Commands issued by destructors are not subject to it. */
  class Database {
    const fault: nat -> bool
    var conn: Connection<Db>
    var attempts: nat

    constructor (fault: nat -> bool)
      ensures this.fault == fault && attempts == 0 && conn == Connection(EMPTY, [])
    {
      this.fault := fault;
      attempts := 0;
      conn := Connection(EMPTY, []);
    }

    /** No command since `start` was made to throw by the plan. */
    ghost predicate Quiet(start: nat)
      reads this
    {
      forall i :: start <= i < attempts ==> !fault(i)
    }

    method Exec(command: Command) returns (error: Option<SqlError>)
      modifies this
      ensures attempts == old(attempts) + 1
      ensures error == if fault(old(attempts)) then Some(Other)
                       else if command(old(conn)).Err? then Some(command(old(conn)).error)
                       else None
      ensures conn == if error.None? then command(old(conn)).value else old(conn)
    {
      var strike := fault(attempts);
      attempts := attempts + 1;
      if strike {
        return Some(Other);
      }
      match command(conn)
      case Err(e) => return Some(e);
      case Ok(c) =>
        conn := c;
        return None;
    }

    /** One step of a SELECT. */
    method Query() returns (threw: bool)
      modifies `attempts
      ensures attempts == old(attempts) + 1 && threw == fault(old(attempts))
    {
      threw := fault(attempts);
      attempts := attempts + 1;
    }

    /** A command issued by a destructor, which ignores its failure. */
    method ExecIgnoringErrors(command: Command) returns (ok: bool)
      modifies `conn
      ensures ok == command(old(conn)).Ok?
      ensures conn == if ok then command(old(conn)).value else old(conn)
    {
      match command(conn)
      case Err(_) => return false;
      case Ok(c) =>
        conn := c;
        return true;
    }
  }

  /** `std::recursive_mutex`. A thread that would have to wait is not modelled here: callers
      come when the mutex is free or already theirs. */
  class RecursiveMutex {
    var owner: Option<nat>
    var depth: nat

    constructor ()
      ensures owner == None && depth == 0
    {
      owner, depth := None, 0;
    }

    ghost predicate AvailableTo(me: nat)
      reads this
    {
      if depth == 0 then owner == None else owner == Some(me)
    }

    method Lock(me: nat)
      requires AvailableTo(me)
      modifies this
      ensures owner == Some(me) && depth == old(depth) + 1
    {
      owner, depth := Some(me), depth + 1;
    }

    method Unlock(me: nat)
      requires owner == Some(me) && depth > 0
      modifies this
      ensures depth == old(depth) - 1
      ensures owner == if depth == 0 then None else Some(me)
    {
      depth := depth - 1;
      if depth == 0 {
        owner := None;
      }
    }
  }

  class SavepointGuard {
    const db: Database
    const name: string
    var released: bool

    constructor (db: Database, name: string)
      ensures this.db == db && this.name == name && !released
    {
      this.db, this.name, released := db, name, false;
    }

    /** The source's constructor: no guard comes into being if SAVEPOINT throws. */
    static method Open(db: Database, name: string) returns (guard: SavepointGuard?)
      modifies db
      ensures db.attempts == old(db.attempts) + 1
      ensures (guard == null) == db.fault(old(db.attempts))
      ensures guard == null ==> db.conn == old(db.conn)
      ensures guard != null ==>
                && fresh(guard) && guard.db == db && guard.name == name && !guard.released
                && db.conn == Savepoint(old(db.conn), name)
    {
      var error := db.Exec(c => Ok(Savepoint(c, name)));
      if error.Some? {
        return null;
      }
      guard := new SavepointGuard(db, name);
    }

    method Release() returns (threw: bool)
      modifies this, db
      ensures old(released) ==> !threw && released && unchanged(db)
      ensures !old(released) ==>
                && db.attempts == old(db.attempts) + 1
                && threw == (db.fault(old(db.attempts)) || Sqlite.Release(old(db.conn), name).Err?)
                && released == !threw
                && db.conn == if threw then old(db.conn) else Sqlite.Release(old(db.conn), name).value
    {
      if released {
        return false;
      }
      var error := db.Exec(c => Sqlite.Release(c, name));
      if error.Some? {
        return true;
      }
      released := true;
      return false;
    }

    method Destroy()
      modifies db
      ensures db.attempts == old(db.attempts)
      ensures db.conn == if released then old(db.conn) else UndoGuard(old(db.conn), name)
    {
      if released {
        return;
      }
      var ok := db.ExecIgnoringErrors(c => RollbackTo(c, name));
      if ok {
        ok := db.ExecIgnoringErrors(c => Sqlite.Release(c, name));
      }
    }
  }

  /** Whatever its body did to the tables, a guard still innermost undoes it on destruction
      and keeps it on release. */
  lemma GuardBrackets(c: Connection<Db>, t: Db, name: string)
    ensures var inside := Savepoint(c, name).(tables := t);
            UndoGuard(inside, name) == c && Sqlite.Release(inside, name) == Ok(c.(tables := t))
  {
  }
}
