/** PostPluginOptionsHandler and GetPluginOptionsHandler over the SQLite storage. */
module PluginHandlers {
  import opened Domain
  import opened Schema
  import opened Sqlite
  import opened Engine
  import opened UnitOfWork
  import opened PluginStorage
  import PluginStore

  class PostPluginOptionsHandler {
    const storage: SqlitePluginOptionStorage

    constructor (storage: SqlitePluginOptionStorage)
      ensures this.storage == storage
    {
      this.storage := storage;
    }

    /** Failure-atomic, whichever command throws: either the whole POST is in the tables
        and durable, or the connection is exactly as it was; in both cases no frame is left
        open that was not open before and the mutex is held as before. Without injected
        faults it throws only inside someone else's transaction or when the POST itself
        cannot be done. */
    method Execute(me: nat, cmd: PluginStore.PostCommand) returns (threw: bool)
      requires storage.mutex.AvailableTo(me)
      modifies storage.db, storage.mutex
      ensures storage.mutex.owner == old(storage.mutex.owner) && storage.mutex.depth == old(storage.mutex.depth)
      ensures storage.db.attempts >= old(storage.db.attempts)
      ensures !threw ==>
                && storage.db.Quiet(old(storage.db.attempts))
                && old(storage.db.conn.frames) == [] == storage.db.conn.frames
                && PluginStore.Post(old(storage.db.conn.tables), cmd) == Ok(storage.db.conn.Durable())
      ensures threw ==> storage.db.conn == old(storage.db.conn)
      ensures threw && storage.db.Quiet(old(storage.db.attempts)) ==>
                old(storage.db.conn.frames) != [] || PluginStore.Post(old(storage.db.conn.tables), cmd).Err?
    {
      var uow := SqliteStorageUoW.Open(storage.db, storage.mutex, me);
      if uow == null {
        return true;
      }
      threw := FindAndUpdate(me, cmd);
      threw := Conclude(uow, threw, old(storage.db.conn.tables));
    }

    /** `commit` unless something threw before it, then the unit's destruction on the way
        out. */
    method Conclude(uow: SqliteStorageUoW, failed: bool, ghost base: Db) returns (threw: bool)
      requires uow.db == storage.db && uow.mutex == storage.mutex && uow.Valid()
      requires uow.mutex.depth > 0 && Consistent(uow.Snapshot(), base, uow.mutex.depth - 1) && uow.active
      modifies uow, storage.db, storage.mutex
      ensures storage.mutex.depth == old(storage.mutex.depth) - 1
      ensures storage.mutex.owner == if storage.mutex.depth == 0 then None else old(storage.mutex.owner)
      ensures storage.db.conn.frames == []
      ensures storage.db.conn.tables == if threw then base else old(storage.db.conn.tables)
      ensures if failed then threw && storage.db.attempts == old(storage.db.attempts)
              else threw == storage.db.fault(old(storage.db.attempts)) && storage.db.attempts == old(storage.db.attempts) + 1
    {
      threw := failed;
      if !threw {
        threw := uow.Commit();
      }
      uow.Destroy();
    }

    /** The read-modify-write between `beginWork` and `commit`. */
    method FindAndUpdate(me: nat, cmd: PluginStore.PostCommand) returns (threw: bool)
      requires storage.mutex.AvailableTo(me)
      modifies storage.db, storage.mutex
      ensures storage.mutex.owner == old(storage.mutex.owner) && storage.mutex.depth == old(storage.mutex.depth)
      ensures storage.db.attempts >= old(storage.db.attempts)
      ensures !threw ==>
                && storage.db.Quiet(old(storage.db.attempts))
                && storage.db.conn.frames == old(storage.db.conn.frames)
                && PluginStore.Post(old(storage.db.conn.tables), cmd) == Ok(storage.db.conn.tables)
      ensures threw ==> storage.db.conn == old(storage.db.conn)
      ensures threw && storage.db.Quiet(old(storage.db.attempts)) ==>
                PluginStore.Post(old(storage.db.conn.tables), cmd).Err?
    {
      var existing;
      threw, existing := storage.FindByUserIdAndName(me, cmd.GetKey());
      if threw {
        return;
      }
      var po := PluginOptions(0, 0, "", false, false, map[]);
      if existing.Some? {
        po := existing.value;
      } else {
        po := po.(userId := cmd.userId);
        po := po.(pluginName := cmd.pluginName);
      }
      po := po.(enabled := cmd.enabled);
      po := po.(favorite := cmd.favorite);
      po := po.(fields := cmd.fields);
      var error := storage.Update(me, po);
      threw := error.Some?;
    }
  }

  class GetPluginOptionsHandler {
    const storage: SqlitePluginOptionStorage

    constructor (storage: SqlitePluginOptionStorage)
      ensures this.storage == storage
    {
      this.storage := storage;
    }

    /** The stored option, or None for GetPluginOptionsNotFountError. */
    method Execute(me: nat, key: Key) returns (threw: bool, found: Option<PluginOptions>)
      requires storage.mutex.AvailableTo(me)
      modifies storage.db`attempts, storage.mutex
      ensures storage.mutex.owner == old(storage.mutex.owner) && storage.mutex.depth == old(storage.mutex.depth)
      ensures threw == !storage.db.Quiet(old(storage.db.attempts))
      ensures !threw ==> found == PluginStore.FindByKey(storage.db.conn.tables, key)
    {
      threw, found := storage.FindByUserIdAndName(me, key);
    }
  }
}
