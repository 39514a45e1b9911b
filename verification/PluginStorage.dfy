/** SqlitePluginOptionStorage and the handlers above it, statement by statement. A result
    with an error stands for a thrown exception; every destructor C++ would run on the way
    out is called explicitly. */
module PluginStorage {
  import opened Domain
  import opened Schema
  import opened Sqlite
  import opened Engine
  import opened UnitOfWork
  import PluginStore

  class SqlitePluginOptionStorage {
    const db: Database
    const mutex: RecursiveMutex

    constructor (db: Database, mutex: RecursiveMutex)
      ensures this.db == db && this.mutex == mutex
    {
      this.db, this.mutex := db, mutex;
    }

    method FindById(me: nat, id: Int32) returns (threw: bool, found: Option<PluginOptions>)
      requires mutex.AvailableTo(me)
      modifies db`attempts, mutex
      ensures mutex.owner == old(mutex.owner) && mutex.depth == old(mutex.depth)
      ensures db.attempts >= old(db.attempts) && threw == !db.Quiet(old(db.attempts))
      ensures !threw ==> found == PluginStore.FindById(db.conn.tables, id)
    {
      mutex.Lock(me);
      found := None;
      threw := db.Query();
      var row := if id in db.conn.tables.options then Some(id as int) else None;
      if !threw {
        threw, found := LoadOneOption(row);
      }
      mutex.Unlock(me);
    }

    method FindByUserIdAndName(me: nat, key: Key) returns (threw: bool, found: Option<PluginOptions>)
      requires mutex.AvailableTo(me)
      modifies db`attempts, mutex
      ensures mutex.owner == old(mutex.owner) && mutex.depth == old(mutex.depth)
      ensures db.attempts >= old(db.attempts) && threw == !db.Quiet(old(db.attempts))
      ensures !threw ==> found == PluginStore.FindByKey(db.conn.tables, key)
    {
      mutex.Lock(me);
      found := None;
      threw := db.Query();
      if !threw {
        threw, found := LoadOneOption(SelectOptionId(db.conn.tables, key));
      }
      mutex.Unlock(me);
    }

    method LoadOneOption(row: Option<int>) returns (threw: bool, found: Option<PluginOptions>)
      requires row.Some? ==> row.value in db.conn.tables.options
      modifies db`attempts
      ensures db.attempts >= old(db.attempts) && threw == !db.Quiet(old(db.attempts))
      ensures !threw ==> found == if row.None? then None else Some(PluginStore.LoadOne(db.conn.tables, row.value))
    {
      if row.None? {
        return false, None;
      }
      var po := PluginStore.LoadRow(db.conn.tables, row.value);
      var fields;
      threw, fields := LoadFields(po.id);
      found := Some(po.(fields := fields));
    }

    method LoadFields(optionId: Int32) returns (threw: bool, out: map<string, string>)
      modifies db`attempts
      ensures db.attempts >= old(db.attempts) && threw == !db.Quiet(old(db.attempts))
      ensures !threw ==> out == SelectFields(db.conn.tables, optionId)
    {
      threw, out := StepThrough(SelectFields(db.conn.tables, optionId));
    }

    /** The loop over a statement's rows, which come in any order. */
    method StepThrough(rows: map<string, string>) returns (threw: bool, out: map<string, string>)
      modifies db`attempts
      ensures db.attempts >= old(db.attempts) && threw == !db.Quiet(old(db.attempts))
      ensures !threw ==> out == rows
    {
      var rest := rows.Keys;
      out := map[];
      threw := db.Query();
      while !threw && rest != {}
        invariant db.attempts > old(db.attempts) && threw == !db.Quiet(old(db.attempts))
        invariant rest <= rows.Keys && out.Keys == rows.Keys - rest
        invariant forall k :: k in out ==> out[k] == rows[k]
        decreases !threw, |rest|
      {
        var key :| key in rest;
        out := out[key := rows[key]];
        rest := rest - {key};
        threw := db.Query();
      }
    }

    method UpsertAndGetId(po: PluginOptions) returns (error: Option<SqlError>, optionId: Int32)
      modifies db
      ensures db.attempts >= old(db.attempts) && db.conn.frames == old(db.conn.frames)
      ensures error == None ==>
                db.Quiet(old(db.attempts))
                && PluginStore.UpsertAndGetId(old(db.conn.tables), po) == Ok((db.conn.tables, optionId))
      ensures error.Some? && db.Quiet(old(db.attempts)) ==>
                PluginStore.UpsertAndGetId(old(db.conn.tables), po) == Err(error.value)
    {
      optionId := 0;
      var row := PluginStore.ToRow(po);
      if po.id > 0 {
        error := db.Exec(OnTables(t => UpsertById(t, po.id, row)));
        return error, po.id;
      }
      error := db.Exec(OnTables(t => Ok(UpsertByKey(t, row))));
      if error.Some? {
        return;
      }
      var threw := db.Query();
      if threw {
        return Some(Other), 0;
      }
      match SelectOptionId(db.conn.tables, po.GetKey())
      case None => return None, 0;
      case Some(id) => return None, GetInt(id);
    }

    /** All or nothing: the whole update, or the connection exactly as it was, open frames
        included. Without injected faults it throws just when, and just what, the update
        itself does. */
    method Update(me: nat, po: PluginOptions) returns (error: Option<SqlError>)
      requires mutex.AvailableTo(me)
      modifies db, mutex
      ensures mutex.owner == old(mutex.owner) && mutex.depth == old(mutex.depth)
      ensures db.attempts >= old(db.attempts)
      ensures error == None ==>
                db.Quiet(old(db.attempts)) && db.conn.frames == old(db.conn.frames)
                && PluginStore.Update(old(db.conn.tables), po) == Ok(db.conn.tables)
      ensures error.Some? ==> db.conn == old(db.conn)
      ensures error.Some? && db.Quiet(old(db.attempts)) ==>
                PluginStore.Update(old(db.conn.tables), po) == Err(error.value)
    {
      mutex.Lock(me);
      error := UpdateGuarded(po);
      mutex.Unlock(me);
    }

    method UpdateGuarded(po: PluginOptions) returns (error: Option<SqlError>)
      modifies db
      ensures db.attempts >= old(db.attempts)
      ensures error == None ==>
                db.Quiet(old(db.attempts)) && db.conn.frames == old(db.conn.frames)
                && PluginStore.Update(old(db.conn.tables), po) == Ok(db.conn.tables)
      ensures error.Some? ==> db.conn == old(db.conn)
      ensures error.Some? && db.Quiet(old(db.attempts)) ==>
                PluginStore.Update(old(db.conn.tables), po) == Err(error.value)
    {
      ghost var before := db.conn;
      var guard := SavepointGuard.Open(db, "plugin_options_update");
      if guard == null {
        return Some(Other);
      }
      error := UpdateInside(po);
      GuardBrackets(before, db.conn.tables, "plugin_options_update");
      assert db.conn == Savepoint(before, "plugin_options_update").(tables := db.conn.tables);
      if error == None {
        var threw := guard.Release();
        error := if threw then Some(Other) else None;
      }
      guard.Destroy();
    }

    /** The statements between opening the guard and releasing it. */
    method UpdateInside(po: PluginOptions) returns (error: Option<SqlError>)
      modifies db
      ensures db.attempts >= old(db.attempts) && db.conn.frames == old(db.conn.frames)
      ensures error == None ==>
                db.Quiet(old(db.attempts))
                && PluginStore.Update(old(db.conn.tables), po) == Ok(db.conn.tables)
      ensures error.Some? && db.Quiet(old(db.attempts)) ==>
                PluginStore.Update(old(db.conn.tables), po) == Err(error.value)
    {
      var optionId;
      error, optionId := UpsertAndGetId(po);
      if error.Some? {
        return;
      }
      if optionId <= 0 {
        return Some(Other);
      }
      ghost var t1 := db.conn.tables;
      error := db.Exec(OnTables(t => Ok(DeleteFields(t, optionId))));
      if error == None {
        error := InsertFields(optionId, po.fields, t1);
      }
    }

    /** The insert loop, in any order, after the delete from `t1`: it never meets a duplicate
        key. */
    method InsertFields(optionId: Int32, fields: map<string, string>, ghost t1: Db) returns (error: Option<SqlError>)
      requires db.conn.tables == DeleteFields(t1, optionId)
      modifies db
      ensures db.attempts >= old(db.attempts) && db.conn.frames == old(db.conn.frames)
      ensures error == None ==>
                db.Quiet(old(db.attempts)) && PluginStore.Inserted(t1, optionId, fields, db.conn.tables)
      ensures error.Some? && db.Quiet(old(db.attempts)) ==>
                error == Some(Constraint) && fields != map[] && optionId !in t1.options
    {
      var rest := fields.Keys;
      error := None;
      while error == None && rest != {}
        invariant rest <= fields.Keys
        invariant db.attempts >= old(db.attempts) && db.conn.frames == old(db.conn.frames)
        invariant error == None ==> db.Quiet(old(db.attempts))
        invariant error == None ==> PluginStore.Inserted(t1, optionId, fields - rest, db.conn.tables)
        invariant error.Some? && db.Quiet(old(db.attempts)) ==>
            error == Some(Constraint) && fields != map[] && optionId !in t1.options
        decreases error == None, |rest|
      {
        var key :| key in rest;
        var value := fields[key];
        PluginStore.InsertOne(t1, optionId, fields - rest, db.conn.tables, key, value);
        error := db.Exec(OnTables(t => InsertField(t, optionId, key, value)));
        assert fields - (rest - {key}) == (fields - rest)[key := value];
        rest := rest - {key};
      }
      assert error == None ==> fields - rest == fields;
    }
  }
}
