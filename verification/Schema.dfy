/** The three tables, their declared constraints, and the SQL statements the storages run.
    Each statement returns the next tables or the error that leaves them as they were. */
module Schema {
  import opened Domain

  datatype OptionRow = OptionRow(userId: Int32, pluginName: string, enabled: int, favorite: int)
  {
    function GetKey(): Key { Key(userId, pluginName) }
  }

  datatype UserRow = UserRow(email: string, password: Bytes, verification: int)

  /** Map keys are the primary keys: `plugin_options.id`, `users.id`, and
      `plugin_option_fields(option_id, key)`, whose rows are grouped by option. */
  datatype Tables = Tables(
    options: map<int, OptionRow>, fields: map<int, map<string, string>>, users: map<int, UserRow>)

  predicate SameKey(options: map<int, OptionRow>, i: int, j: int) {
    i in options && j in options && options[i].GetKey() == options[j].GetKey()
  }

  predicate SameEmail(users: map<int, UserRow>, i: int, j: int) {
    i in users && j in users && users[i].email == users[j].email
  }

  /** The remaining constraints: UNIQUE(user_id, plugin_name), FOREIGN KEY(option_id) and
      UNIQUE email. */
  ghost predicate Constraints(t: Tables) {
    && (forall i, j :: SameKey(t.options, i, j) ==> i == j)
    && t.fields.Keys <= t.options.Keys
    && (forall i, j :: SameEmail(t.users, i, j) ==> i == j)
  }

  /** The contents of a database: the statements below take and return only these, so each
      of them keeps every constraint. */
  type Db = t: Tables | Constraints(t) witness Tables(map[], map[], map[])

  const EMPTY: Db := Tables(map[], map[], map[])

  // ----- Row ids -----

  lemma EmptyOrMember(ids: set<int>)
    ensures ids == {} || exists m :: m in ids
  {
    if forall m :: m !in ids {
      assert ids == {};
    }
  }

  lemma {:induction false} HasLargest(ids: set<int>, member: int)
    requires member in ids
    ensures exists m :: m in ids && forall k :: k in ids ==> k <= m
    decreases ids
  {
    if k :| k in ids && k > member {
      HasLargest(ids - {member}, k);
      var m :| m in ids - {member} && forall j :: j in ids - {member} ==> j <= m;
      assert forall j :: j in ids ==> j == member || j in ids - {member};
    }
  }

  /** The id SQLite gives a row inserted without one. */
  function NextRowId(ids: set<int>): (r: int)
    ensures r !in ids
    ensures ids == {} ==> r == 1
    ensures ids != {} ==> r - 1 in ids && forall k :: k in ids ==> k < r
  {
    if ids == {} then 1
    else
      assert exists m :: m in ids && forall k :: k in ids ==> k <= m by {
        EmptyOrMember(ids);
        var member :| member in ids;
        HasLargest(ids, member);
      }
      var m :| m in ids && forall k :: k in ids ==> k <= m;
      m + 1
  }

  // ----- plugin_options and plugin_option_fields -----

  /** SELECT id ... WHERE user_id = ? AND plugin_name = ? LIMIT 1. UNIQUE makes it the only
      such row. */
  function SelectOptionId(t: Db, key: Key): (r: Option<int>)
    ensures r.Some? ==> r.value in t.options
    ensures forall i :: i in t.options ==> (t.options[i].GetKey() == key <==> r == Some(i))
  {
    if exists i :: i in t.options && t.options[i].GetKey() == key then
      assert forall i, j | i in t.options && j in t.options && t.options[i].GetKey() == key && t.options[j].GetKey() == key ::
          SameKey(t.options, i, j);
      var i :| i in t.options && t.options[i].GetKey() == key;
      assert forall j :: j in t.options && t.options[j].GetKey() == key ==> SameKey(t.options, i, j);
      Some(i)
    else None
  }

  /** Writing a row keeps the constraints when no other row has its key. */
  lemma OptionRowFits(t: Db, id: int, row: OptionRow)
    requires SelectOptionId(t, row.GetKey()) in {None, Some(id)}
    ensures Constraints(t.(options := t.options[id := row]))
  {
    var options := t.options[id := row];
    forall i, j | SameKey(options, i, j)
      ensures i == j
    {
      assert i != id && j != id ==> SameKey(t.options, i, j);
    }
  }

  /** After one row is written, its key finds it, a key it had before finds nothing, and
      every other key finds what it did. */
  lemma SelectAfterWrite(t: Db, t': Db, id: int, row: OptionRow, key: Key)
    requires t'.options == t.options[id := row]
    ensures SelectOptionId(t', key) ==
            if key == row.GetKey() then Some(id)
            else if SelectOptionId(t, key) == Some(id) then None
            else SelectOptionId(t, key)
  {
  }

  /** INSERT ... ON CONFLICT(id) DO UPDATE: another row with the same key is a conflict the
      clause does not cover. */
  function UpsertById(t: Db, id: int, row: OptionRow): Result<Db> {
    if SelectOptionId(t, row.GetKey()) !in {None, Some(id)} then Err(Constraint)
    else
      OptionRowFits(t, id, row);
      Ok(t.(options := t.options[id := row]))
  }

  /** INSERT ... ON CONFLICT(user_id, plugin_name) DO UPDATE of the two flags */
  function UpsertByKey(t: Db, row: OptionRow): Db {
    match SelectOptionId(t, row.GetKey())
    case Some(i) =>
      var updated := t.options[i].(enabled := row.enabled, favorite := row.favorite);
      OptionRowFits(t, i, updated);
      t.(options := t.options[i := updated])
    case None =>
      OptionRowFits(t, NextRowId(t.options.Keys), row);
      t.(options := t.options[NextRowId(t.options.Keys) := row])
  }

  /** DELETE ... WHERE option_id = ? */
  function DeleteFields(t: Db, id: int): Db {
    t.(fields := t.fields - {id})
  }

  /** SELECT key, value ... WHERE option_id = ? */
  function SelectFields(t: Db, id: int): map<string, string> {
    if id in t.fields then t.fields[id] else map[]
  }

  function InsertField(t: Db, id: int, key: string, value: string): Result<Db> {
    if key in SelectFields(t, id) || id !in t.options then Err(Constraint)
    else Ok(t.(fields := t.fields[id := SelectFields(t, id)[key := value]]))
  }

  predicate FieldRow(t: Db, id: int, key: string, value: string) {
    id in t.fields && key in t.fields[id] && t.fields[id][key] == value
  }

  /** An INSERT of a field row fails exactly on its primary or foreign key, and otherwise
      adds that row and no other. */
  lemma InsertFieldIff(t: Db, id: int, key: string, value: string)
    ensures InsertField(t, id, key, value).Err? <==> id !in t.options || exists v :: FieldRow(t, id, key, v)
    ensures InsertField(t, id, key, value).Ok? ==>
              var t' := InsertField(t, id, key, value).value;
              && t'.options == t.options && t'.users == t.users
              && forall i, k, v :: FieldRow(t', i, k, v) <==> FieldRow(t, i, k, v) || (i == id && k == key && v == value)
  {
    if id in t.fields && key in t.fields[id] {
      assert FieldRow(t, id, key, t.fields[id][key]);
    }
  }

  // ----- users -----

  /** SELECT ... WHERE email = ? LIMIT 1 */
  function SelectUserId(t: Db, email: string): (r: Option<int>)
    ensures r.Some? ==> r.value in t.users
    ensures forall i :: i in t.users ==> (t.users[i].email == email <==> r == Some(i))
  {
    if exists i :: i in t.users && t.users[i].email == email then
      assert forall i, j | i in t.users && j in t.users && t.users[i].email == email && t.users[j].email == email ::
          SameEmail(t.users, i, j);
      var i :| i in t.users && t.users[i].email == email;
      assert forall j :: j in t.users && t.users[j].email == email ==> SameEmail(t.users, i, j);
      Some(i)
    else None
  }

  lemma UserRowFits(t: Db, id: int, row: UserRow)
    requires SelectUserId(t, row.email) == None
    ensures Constraints(t.(users := t.users[id := row]))
  {
    var users := t.users[id := row];
    forall i, j | SameEmail(users, i, j)
      ensures i == j
    {
      assert i != id && j != id ==> SameEmail(t.users, i, j);
    }
  }

  /** INSERT INTO users(email, password, verification_method); the second result is
      `last_insert_rowid`. */
  function InsertUser(t: Db, row: UserRow): Result<(Db, int)> {
    if SelectUserId(t, row.email).Some? then Err(Constraint)
    else
      var id := NextRowId(t.users.Keys);
      UserRowFits(t, id, row);
      Ok((t.(users := t.users[id := row]), id))
  }
}
