/** The plugin-option finders and `update` as functions of the tables, and what they mean:
    a map from (user id, plugin name) to the stored option. */
module PluginStore {
  import opened Domain
  import opened Schema

  function Flag(b: bool): int { if b then 1 else 0 }

  function ToRow(po: PluginOptions): OptionRow {
    OptionRow(po.userId, po.pluginName, Flag(po.enabled), Flag(po.favorite))
  }

  // ----- Reading -----

  /** The fields are looked up under the id as `getInt` returned it. */
  function LoadOne(t: Db, id: int): PluginOptions
    requires id in t.options
  {
    LoadRow(t, id).(fields := SelectFields(t, LoadRow(t, id).id))
  }

  /** The part of an option that its own row holds. */
  function LoadRow(t: Db, id: int): PluginOptions
    requires id in t.options
  {
    var row := t.options[id];
    PluginOptions(GetInt(id), row.userId, row.pluginName, row.enabled != 0, row.favorite != 0, map[])
  }

  function FindById(t: Db, id: Int32): Option<PluginOptions> {
    if id in t.options then Some(LoadOne(t, id)) else None
  }

  function FindByKey(t: Db, key: Key): Option<PluginOptions> {
    match SelectOptionId(t, key)
    case None => None
    case Some(i) => Some(LoadOne(t, i))
  }

  // ----- Writing -----

  /** `upsertAndGetId`: the new tables and the id as an `int`. */
  function UpsertAndGetId(t: Db, po: PluginOptions): Result<(Db, Int32)> {
    if po.id > 0 then
      match UpsertById(t, po.id, ToRow(po))
      case Err(e) => Err(e)
      case Ok(t1) => Ok((t1, po.id))
    else
      var t1 := UpsertByKey(t, ToRow(po));
      match SelectOptionId(t1, po.GetKey())
      case None => Ok((t1, 0))
      case Some(i) => Ok((t1, GetInt(i)))
  }

  /** Option `id` owns exactly these field rows; other options' rows are as they were. */
  function ReplaceFields(t: Db, id: int, fields: map<string, string>): Db
    requires fields != map[] ==> id in t.options
  {
    var cleared := DeleteFields(t, id);
    if fields == map[] then cleared else cleared.(fields := cleared.fields[id := fields])
  }

  /** The insert loop has put in `done` so far, starting from tables that had `t1` before the
      delete. */
  ghost predicate Inserted(t1: Db, id: int, done: map<string, string>, t: Db) {
    (done != map[] ==> id in t1.options) && t == ReplaceFields(t1, id, done)
  }

  /** One pass of the loop: no duplicate key is ever met. */
  lemma InsertOne(t1: Db, id: int, done: map<string, string>, t: Db, key: string, value: string)
    requires Inserted(t1, id, done, t) && key !in done
    ensures match InsertField(t, id, key, value)
            case Ok(t') => Inserted(t1, id, done[key := value], t')
            case Err(e) => e == Constraint && id !in t1.options
  {
  }

  /** `update`, in whatever order the fields are inserted: the tables it leaves, or the error
      it throws after its guard has put everything back. */
  function Update(t: Db, po: PluginOptions): Result<Db> {
    match UpsertAndGetId(t, po)
    case Err(e) => Err(e)
    case Ok((t1, id)) =>
      if id <= 0 then Err(Other)
      else if po.fields != map[] && id !in t1.options then Err(Constraint)
      else Ok(ReplaceFields(t1, id, po.fields))
  }

  // ----- What the tables mean -----

  /** No stored id is lost when it is read back as an `int`. */
  ghost predicate IdsInRange(t: Db) {
    forall i :: i in t.options ==> 1 <= i <= INT_MAX
  }

  /** `po` is what row `i` and its field rows say. */
  ghost predicate IsRow(t: Db, i: int, po: PluginOptions) {
    && i in t.options && po.id == GetInt(i) && po.GetKey() == t.options[i].GetKey()
    && (po.enabled <==> t.options[i].enabled != 0) && (po.favorite <==> t.options[i].favorite != 0)
    && po.fields == if po.id in t.fields then t.fields[po.id] else map[]
  }

  /** Both finders read off the rows: by key exactly the option of the row with that key, by
      id exactly the option of the row with that id. */
  lemma FindersReadRows(t: Db, key: Key, id: Int32, po: PluginOptions)
    ensures FindByKey(t, key) == Some(po) <==> exists i :: IsRow(t, i, po) && po.GetKey() == key
    ensures FindById(t, id) == Some(po) <==> IsRow(t, id, po)
    ensures FindByKey(t, key).None? <==> forall i :: i in t.options ==> t.options[i].GetKey() != key
    ensures FindById(t, id).None? <==> id !in t.options
  {
    if FindByKey(t, key) == Some(po) {
      assert IsRow(t, SelectOptionId(t, key).value, po);
    }
  }

  /** Both finders tell the same story: an option found by key is found whole by its id; one
      found by id carries that id and is found whole by its key; and a key or an id that
      finds nothing is in no row. */
  lemma FindersAgree(t: Db, key: Key)
    requires IdsInRange(t)
    ensures FindByKey(t, key).Some? ==>
              var po := FindByKey(t, key).value;
              po.GetKey() == key && po.id in t.options && FindById(t, po.id) == Some(po)
    ensures FindByKey(t, key).None? ==>
              forall id: Int32 :: FindById(t, id).Some? ==> FindById(t, id).value.GetKey() != key
  {
  }

  lemma FoundByIdIsFoundByKey(t: Db, id: Int32)
    requires IdsInRange(t)
    ensures match FindById(t, id)
            case Some(po) => po.id == id && FindByKey(t, po.GetKey()) == Some(po)
            case None => id !in t.options
  {
    if id in t.options {
      assert SelectOptionId(t, t.options[id].GetKey()) == Some(id as int);
    }
  }

  /** The id under which `update` stores an option. */
  function AssignedId(t: Db, po: PluginOptions): int {
    if po.id > 0 then po.id
    else match SelectOptionId(t, po.GetKey())
         case Some(i) => i
         case None => NextRowId(t.options.Keys)
  }

  /** Whichever branch the upsert takes, the option's row ends under its assigned id and no
      other row moves. */
  lemma UpsertLands(t: Db, po: PluginOptions)
    ensures var id := AssignedId(t, po);
            match UpsertAndGetId(t, po)
            case Err(_) => po.id > 0 && SelectOptionId(t, po.GetKey()).Some? && SelectOptionId(t, po.GetKey()) != Some(po.id)
            case Ok((t1, got)) =>
              t1 == t.(options := t.options[id := ToRow(po)]) && got == GetInt(id)
              && (po.id > 0 ==> SelectOptionId(t, po.GetKey()) in {None, Some(po.id as int)})
  {
    if po.id <= 0 {
      var t1 := UpsertByKey(t, ToRow(po));
      var id := AssignedId(t, po);
      assert t1.options[id] == ToRow(po);
      assert SelectOptionId(t1, po.GetKey()) == Some(id);
    }
  }

  /** Exactly when `update` goes through: an option with an id may not take another row's
      key, and one without may not need an id beyond the range of `int`. */
  lemma UpdateSucceedsIff(t: Db, po: PluginOptions)
    requires IdsInRange(t)
    ensures Update(t, po).Ok? <==>
            if po.id > 0 then FindByKey(t, po.GetKey()).Some? ==> FindByKey(t, po.GetKey()).value.id == po.id
            else FindByKey(t, po.GetKey()).Some? || NextRowId(t.options.Keys) <= INT_MAX
    ensures Update(t, po).Err? ==> Update(t, po) == Err(if po.id > 0 then Constraint else Other)
  {
    UpsertLands(t, po);
    var id := AssignedId(t, po);
    assert 1 <= id <= INT_MAX + 1;
  }

  /** The id a successful `update` uses is one `int` can hold. */
  lemma AssignedIdFits(t: Db, po: PluginOptions)
    requires IdsInRange(t) && Update(t, po).Ok?
    ensures 1 <= AssignedId(t, po) <= INT_MAX
  {
  }

  /** What a successful `update` does to the rows. */
  lemma UpdateLands(t: Db, po: PluginOptions)
    requires IdsInRange(t) && Update(t, po).Ok?
    ensures var t' := Update(t, po).value;
            var id := AssignedId(t, po);
            && t'.options == t.options[id := ToRow(po)]
            && t'.users == t.users
            && SelectFields(t', id) == po.fields
            && (forall i :: i != id ==> SelectFields(t', i) == SelectFields(t, i))
  {
    UpsertLands(t, po);
    AssignedIdFits(t, po);
    var id := AssignedId(t, po);
    var t1 := t.(options := t.options[id := ToRow(po)]);
    assert UpsertAndGetId(t, po) == Ok((t1, id));
  }

  /** A successful `update` seen through the finder, key by key: its own key now finds the
      option; a key its row had before finds nothing; every other key finds what it did. */
  lemma UpdateRefines(t: Db, po: PluginOptions, key: Key)
    requires IdsInRange(t) && Update(t, po).Ok?
    ensures var t' := Update(t, po).value;
            var id := AssignedId(t, po);
            var before := FindByKey(t, key);
            && 1 <= id <= INT_MAX
            && FindByKey(t', key) ==
               if key == po.GetKey() then Some(po.(id := id))
               else if before.Some? && before.value.id == id then None
               else before
  {
    AssignedIdFits(t, po);
    UpdateLands(t, po);
    var t' := Update(t, po).value;
    var id := AssignedId(t, po);
    SelectAfterWrite(t, t', id, ToRow(po), key);
  }

  /** No `update`, with whatever id, takes a stored id out of the range of `int`: the first
      id past it reads back as non-positive, is refused, and leaves no row. */
  lemma UpdateKeepsRange(t: Db, po: PluginOptions)
    requires IdsInRange(t)
    ensures Update(t, po).Ok? ==> IdsInRange(Update(t, po).value)
    ensures po.id <= 0 && AssignedId(t, po) > INT_MAX ==>
              UpsertAndGetId(t, po).Ok? && UpsertAndGetId(t, po).value.1 < 0 && Update(t, po) == Err(Other)
  {
    UpsertLands(t, po);
    if Update(t, po).Ok? {
      AssignedIdFits(t, po);
      UpdateLands(t, po);
    }
  }

  // ----- POST -----

  datatype PostCommand = PostCommand(
    userId: Int32, pluginName: string, enabled: bool, favorite: bool, fields: map<string, string>)
  {
    function GetKey(): Key { Key(userId, pluginName) }
  }

  /** The option POST hands to `update`: the one it found, or a fresh one with id 0. */
  function Merge(found: Option<PluginOptions>, cmd: PostCommand): PluginOptions {
    var po := match found
              case Some(existing) => existing
              case None => PluginOptions(0, cmd.userId, cmd.pluginName, false, false, map[]);
    po.(enabled := cmd.enabled, favorite := cmd.favorite, fields := cmd.fields)
  }

  /** The committed effect of one POST. */
  function Post(t: Db, cmd: PostCommand): Result<Db> {
    Update(t, Merge(FindByKey(t, cmd.GetKey()), cmd))
  }

  /** A POST fails on its own account only when it needs a new id and none is left; in
      particular never on a constraint. */
  lemma PostSucceedsIff(t: Db, cmd: PostCommand)
    requires IdsInRange(t)
    ensures Post(t, cmd).Ok? <==> FindByKey(t, cmd.GetKey()).Some? || NextRowId(t.options.Keys) <= INT_MAX
    ensures Post(t, cmd).Ok? || Post(t, cmd) == Err(Other)
  {
    FindersAgree(t, cmd.GetKey());
    var po := Merge(FindByKey(t, cmd.GetKey()), cmd);
    UpdateSucceedsIff(t, po);
    UpsertLands(t, po);
  }

  /** What a successful POST stores, seen through the finder: its own key finds exactly what
      was posted, under the id it had or the next free one; every other key finds what it
      did. */
  lemma PostRefines(t: Db, cmd: PostCommand, key: Key)
    requires IdsInRange(t) && Post(t, cmd).Ok?
    ensures IdsInRange(Post(t, cmd).value) && Post(t, cmd).value.users == t.users
    ensures var before := FindByKey(t, key);
            var id := if before.Some? then before.value.id as int else NextRowId(t.options.Keys);
            FindByKey(Post(t, cmd).value, key) ==
            if key == cmd.GetKey()
            then Some(PluginOptions(GetInt(id), cmd.userId, cmd.pluginName, cmd.enabled, cmd.favorite, cmd.fields))
            else before
  {
    FindersAgree(t, cmd.GetKey());
    FindersAgree(t, key);
    var po := Merge(FindByKey(t, cmd.GetKey()), cmd);
    AssignedIdFits(t, po);
    UpdateLands(t, po);
    UpdateKeepsRange(t, po);
    UpdateRefines(t, po, key);
  }

  /** The row a successful POST writes, with its flags as 1 and 0, and that it is the only
      one. */
  lemma PostWritesRow(t: Db, cmd: PostCommand)
    requires IdsInRange(t) && Post(t, cmd).Ok?
    ensures var row := OptionRow(cmd.userId, cmd.pluginName, if cmd.enabled then 1 else 0, if cmd.favorite then 1 else 0);
            var id := if FindByKey(t, cmd.GetKey()).Some? then FindByKey(t, cmd.GetKey()).value.id as int
                      else NextRowId(t.options.Keys);
            Post(t, cmd).value.options == t.options[id := row]
  {
    FindersAgree(t, cmd.GetKey());
    UpdateLands(t, Merge(FindByKey(t, cmd.GetKey()), cmd));
  }
}
