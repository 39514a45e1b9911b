/** SqliteStorageUoW: a transaction and a hold on the storage's mutex that end together. */
module UnitOfWork {
  import opened Domain
  import opened Schema
  import opened Sqlite
  import opened Engine

  // ----- As a value -----

  /** `tx` is the owned transaction object, with its own "committed" flag; `depth` is how
      often the thread holds the mutex. */
  datatype Unit = Unit(
    conn: Connection<Db>, depth: nat, ownsLock: bool, tx: Option<bool>, active: bool, committed: bool)

  /** The constructor: the lock first, then BEGIN. When BEGIN throws, only the lock has been
      built, and its destructor gives the mutex back. */
  function OpenUnit(conn: Connection<Db>, depth: nat, throws: bool): Option<Unit> {
    if throws || Begin(conn).Err? then None
    else Some(Unit(Begin(conn).value, depth + 1, true, Some(false), true, false))
  }

  /** `_tx.reset()`: an uncommitted transaction object issues ROLLBACK. */
  function ResetTx(u: Unit): Unit {
    u.(conn := if u.tx == Some(false) then UndoTransaction(u.conn) else u.conn, tx := None)
  }

  function Unlocked(u: Unit): Unit
    requires u.ownsLock ==> u.depth > 0
  {
    if u.ownsLock then u.(depth := u.depth - 1, ownsLock := false) else u
  }

  datatype Called = Called(unit: Unit, threw: bool)

  function CommitUnit(u: Unit, throws: bool): Called
    requires u.ownsLock ==> u.depth > 0
  {
    if !u.active || u.tx.None? then Called(u, false)
    else if throws || u.tx == Some(true) || Commit(u.conn).Err? then Called(u, true)
    else Called(Unlocked(ResetTx(u.(conn := Commit(u.conn).value, tx := Some(true))).(committed := true, active := false)), false)
  }

  function RollbackUnit(u: Unit, throws: bool): Called
    requires u.ownsLock ==> u.depth > 0
  {
    if !u.active || u.tx.None? then Called(u, false)
    else if throws || u.tx == Some(true) || Rollback(u.conn).Err? then Called(u, true)
    else Called(Unlocked(ResetTx(u.(conn := Rollback(u.conn).value)).(committed := false, active := false)), false)
  }

  /** The destructor's body, then its members in reverse order of declaration: `_tx`, and
      only then `_lock`. */
  function DestroyUnit(u: Unit): Unit
    requires u.ownsLock ==> u.depth > 0
  {
    Unlocked(ResetTx(if u.active then ResetTx(u).(active := false, committed := false) else u))
  }

  /** What may happen to a unit between construction and destruction. Work is done only
      while the unit is active; it may leave tables however it likes. */
  datatype Call = Work(tables: Db) | TryCommit(throws: bool) | TryRollback(throws: bool)

  function Perform(u: Unit, call: Call): Unit
    requires u.ownsLock ==> u.depth > 0
  {
    match call
    case Work(t) => if u.active then u.(conn := u.conn.(tables := t)) else u
    case TryCommit(throws) => CommitUnit(u, throws).unit
    case TryRollback(throws) => RollbackUnit(u, throws).unit
  }

  /** The transaction is open exactly while the unit is active, and then the lock is held. */
  ghost predicate Consistent(u: Unit, base: Db, depth: nat) {
    && u.depth == depth + (if u.ownsLock then 1 else 0)
    && u.ownsLock == u.active
    && u.tx == (if u.active then Some(false) else None)
    && u.conn.frames == if u.active then [Begun(base)] else []
  }

  function PerformAll(u: Unit, calls: seq<Call>): (r: Unit)
    requires u.ownsLock ==> u.depth > 0
    ensures r.ownsLock ==> r.depth > 0
    decreases |calls|
  {
    if calls == [] then u else PerformAll(Perform(u, calls[0]), calls[1..])
  }

  lemma StaysConsistent(u: Unit, call: Call, base: Db, depth: nat)
    requires Consistent(u, base, depth)
    ensures Consistent(Perform(u, call), base, depth)
  {
  }

  /** What the calls make durable, read off the calls alone: the tables as the last work
      before the first successful commit left them, provided no successful rollback came
      earlier. */
  function Outcome(base: Db, tables: Db, calls: seq<Call>): Db
    decreases |calls|
  {
    if calls == [] then base
    else match calls[0]
         case Work(t) => Outcome(base, t, calls[1..])
         case TryCommit(throws) => if throws then Outcome(base, tables, calls[1..]) else tables
         case TryRollback(throws) => if throws then Outcome(base, tables, calls[1..]) else base
  }

  /** After an ending call nothing more happens to a unit. */
  lemma {:induction false} InactiveIsInert(u: Unit, calls: seq<Call>, base: Db, depth: nat)
    requires Consistent(u, base, depth) && !u.active
    ensures PerformAll(u, calls) == u
    decreases |calls|
  {
    if calls != [] {
      assert Perform(u, calls[0]) == u;
      InactiveIsInert(u, calls[1..], base, depth);
    }
  }

  /** Any life of a unit of work: whatever is called, in whatever order, whatever throws,
      in every state on the way the lock is held while the transaction is open; at the end
      no transaction is open, the mutex is held as often as before, and the durable tables
      are the outcome. */
  lemma {:induction false} EveryLifeEnds(u: Unit, calls: seq<Call>, base: Db, depth: nat)
    requires Consistent(u, base, depth)
    ensures var last := PerformAll(u, calls);
            var after := DestroyUnit(last);
            && Consistent(last, base, depth)
            && after.conn.frames == [] && after.depth == depth && !after.ownsLock
            && after.conn.Durable() == if u.active then Outcome(base, u.conn.tables, calls) else u.conn.tables
    decreases |calls|
  {
    if !u.active {
      InactiveIsInert(u, calls, base, depth);
    } else if calls != [] {
      StaysConsistent(u, calls[0], base, depth);
      EveryLifeEnds(Perform(u, calls[0]), calls[1..], base, depth);
    }
  }

  /** From the constructor on: a unit that could not be opened has changed nothing, and one
      that could leads such a life. */
  lemma UnitsAreAtomic(conn: Connection<Db>, depth: nat, throws: bool, calls: seq<Call>)
    ensures match OpenUnit(conn, depth, throws)
            case None => throws || conn.frames != []
            case Some(u) =>
              var after := DestroyUnit(PerformAll(u, calls));
              && !throws && conn.frames == [] && after.conn.frames == [] && after.depth == depth
              && after.conn.Durable() == Outcome(conn.tables, conn.tables, calls)
  {
    var start := OpenUnit(conn, depth, throws);
    if start.Some? {
      EveryLifeEnds(start.value, calls, conn.tables, depth);
    }
  }

  // ----- As an object -----

  class SqliteStorageUoW {
    const db: Database
    const mutex: RecursiveMutex
    const me: nat
    var ownsLock: bool
    var tx: Option<bool>
    var active: bool
    var committed: bool

    constructor (db: Database, mutex: RecursiveMutex, me: nat)
      ensures this.db == db && this.mutex == mutex && this.me == me
      ensures ownsLock && tx == Some(false) && active && !committed
    {
      this.db, this.mutex, this.me := db, mutex, me;
      ownsLock, tx, active, committed := true, Some(false), true, false;
    }

    ghost predicate Valid()
      reads this, mutex
    {
      ownsLock ==> mutex.owner == Some(me) && mutex.depth > 0
    }

    ghost function Snapshot(): Unit
      reads this, db, mutex
    {
      Unit(db.conn, mutex.depth, ownsLock, tx, active, committed)
    }

    /** The source's constructor, which throws when BEGIN does. */
    static method Open(db: Database, mutex: RecursiveMutex, me: nat) returns (unit: SqliteStorageUoW?)
      requires mutex.AvailableTo(me)
      modifies db, mutex
      ensures db.attempts == old(db.attempts) + 1
      ensures var start := OpenUnit(old(db.conn), old(mutex.depth), db.fault(old(db.attempts)));
              if unit == null then
                start.None? && db.conn == old(db.conn)
                && mutex.depth == old(mutex.depth) && mutex.owner == old(mutex.owner)
              else
                && fresh(unit) && unit.db == db && unit.mutex == mutex && unit.me == me
                && unit.Valid() && start == Some(unit.Snapshot())
    {
      mutex.Lock(me);
      var error := db.Exec(c => Begin(c));
      if error.Some? {
        mutex.Unlock(me);
        return null;
      }
      unit := new SqliteStorageUoW(db, mutex, me);
    }

    method Commit() returns (threw: bool)
      requires Valid()
      modifies this, db, mutex
      ensures Valid()
      ensures Called(Snapshot(), threw) == CommitUnit(old(Snapshot()), db.fault(old(db.attempts)))
      ensures db.attempts == old(db.attempts) + if old(active && tx == Some(false)) then 1 else 0
      ensures mutex.owner == if old(ownsLock) && !ownsLock && mutex.depth == 0 then None else old(mutex.owner)
    {
      if !active || tx.None? {
        return false;
      }
      if tx.value {
        return true;
      }
      var error := db.Exec(c => Sqlite.Commit(c));
      if error.Some? {
        return true;
      }
      tx := Some(true);
      Reset();
      committed := true;
      active := false;
      if ownsLock {
        mutex.Unlock(me);
        ownsLock := false;
      }
      return false;
    }

    method Rollback() returns (threw: bool)
      requires Valid()
      modifies this, db, mutex
      ensures Valid()
      ensures Called(Snapshot(), threw) == RollbackUnit(old(Snapshot()), db.fault(old(db.attempts)))
      ensures db.attempts == old(db.attempts) + if old(active && tx == Some(false)) then 1 else 0
      ensures mutex.owner == if old(ownsLock) && !ownsLock && mutex.depth == 0 then None else old(mutex.owner)
    {
      if !active || tx.None? {
        return false;
      }
      if tx.value {
        return true;
      }
      var error := db.Exec(c => Sqlite.Rollback(c));
      if error.Some? {
        return true;
      }
      Reset();
      committed := false;
      active := false;
      if ownsLock {
        mutex.Unlock(me);
        ownsLock := false;
      }
      return false;
    }

    method Destroy()
      requires Valid()
      modifies this, db, mutex
      ensures Valid()
      ensures Snapshot() == DestroyUnit(old(Snapshot()))
      ensures db.attempts == old(db.attempts)
      ensures mutex.owner == if old(ownsLock) && mutex.depth == 0 then None else old(mutex.owner)
    {
      if active {
        Reset();
        active := false;
        committed := false;
      }
      Reset();
      if ownsLock {
        mutex.Unlock(me);
        ownsLock := false;
      }
    }

    method Reset()
      modifies `tx, db
      ensures tx == None && db.attempts == old(db.attempts)
      ensures db.conn == if old(tx) == Some(false) then UndoTransaction(old(db.conn)) else old(db.conn)
    {
      if tx == Some(false) {
        var _ := db.ExecIgnoringErrors(c => Sqlite.Rollback(c));
      }
      tx := None;
    }
  }
}
