/** Over every run of POST and GET, the SQLite and the in-memory plugin storage give the same
    answers up to the option's id, exactly as long as the row ids last. */
module PluginEquivalence {
  import opened Domain
  import opened Schema
  import opened PluginStore
  import opened History
  import opened MemoryPlugins

  datatype Request = PostRequest(post: PostCommand) | GetRequest(key: Key)

  /** What a client sees, with the option's id left out. */
  datatype Answer = Stored | Failed | Found(option: Option<PluginOptions>)

  function WithoutId(found: Option<PluginOptions>): Option<PluginOptions> {
    match found
    case None => None
    case Some(po) => Some(po.(id := 0))
  }

  // ----- Runs -----

  function SqliteAfter(requests: seq<Request>): Db {
    if requests == [] then EMPTY
    else
      var t, last := SqliteAfter(requests[..|requests| - 1]), requests[|requests| - 1];
      if last.PostRequest? then Apply(t, Posting(last.post)) else t
  }

  function MemoryAfter(requests: seq<Request>): Memory {
    if requests == [] then EMPTY_MEMORY
    else
      var m, last := MemoryAfter(requests[..|requests| - 1]), requests[|requests| - 1];
      if last.PostRequest? then MemoryPlugins.Post(m, last.post) else m
  }

  function SqliteAnswer(t: Db, request: Request): Answer {
    match request
    case PostRequest(cmd) => if PluginStore.Post(t, cmd).Ok? then Stored else Failed
    case GetRequest(key) => Found(WithoutId(FindByKey(t, key)))
  }

  function MemoryAnswer(m: Memory, request: Request): Answer {
    match request
    case PostRequest(_) => Stored
    case GetRequest(key) => Found(WithoutId(Lookup(m, key)))
  }

  ghost predicate SameAnswer(requests: seq<Request>, i: nat)
    requires i < |requests|
  {
    SqliteAnswer(SqliteAfter(requests[..i]), requests[i]) == MemoryAnswer(MemoryAfter(requests[..i]), requests[i])
  }

  /** The different user and plugin pairs that are posted. */
  function PostedKeys(requests: seq<Request>): set<Key> {
    if requests == [] then {}
    else
      var before, last := PostedKeys(requests[..|requests| - 1]), requests[|requests| - 1];
      if last.PostRequest? then before + {last.post.GetKey()} else before
  }

  // ----- The two stores side by side -----

  ghost predicate Mirror(t: Db, m: Memory, posted: set<Key>) {
    && IdsInRange(t) && |posted| == NextRowId(t.options.Keys) - 1
    && (forall key :: WithoutId(FindByKey(t, key)) == WithoutId(Lookup(m, key)))
    && (forall key :: key in posted <==> FindByKey(t, key).Some?)
  }

  /** Row ids are handed out without gaps: one more row, one more id. */
  lemma NextAfter(ids: set<int>)
    ensures NextRowId(ids + {NextRowId(ids)}) == NextRowId(ids) + 1
  {
  }

  lemma PostKeepsMirror(t: Db, m: Memory, posted: set<Key>, cmd: PostCommand)
    requires Mirror(t, m, posted) && |posted + {cmd.GetKey()}| <= INT_MAX
    ensures PluginStore.Post(t, cmd).Ok?
    ensures Mirror(PluginStore.Post(t, cmd).value, MemoryPlugins.Post(m, cmd), posted + {cmd.GetKey()})
  {
    assert cmd.GetKey() in posted ==> posted + {cmd.GetKey()} == posted;
    PostSucceedsIff(t, cmd);
    PostKeepsIds(t, cmd);
    var t', m' := PluginStore.Post(t, cmd).value, MemoryPlugins.Post(m, cmd);
    forall key
      ensures WithoutId(FindByKey(t', key)) == WithoutId(Lookup(m', key))
      ensures key in posted + {cmd.GetKey()} <==> FindByKey(t', key).Some?
    {
      PostMirrorsKey(t, m, posted, cmd, key);
    }
  }

  lemma PostMirrorsKey(t: Db, m: Memory, posted: set<Key>, cmd: PostCommand, key: Key)
    requires Mirror(t, m, posted) && PluginStore.Post(t, cmd).Ok?
    ensures var t', m' := PluginStore.Post(t, cmd).value, MemoryPlugins.Post(m, cmd);
            && WithoutId(FindByKey(t', key)) == WithoutId(Lookup(m', key))
            && (FindByKey(t', key).Some? <==> key in posted || key == cmd.GetKey())
  {
    FindersAgree(t, cmd.GetKey());
    assert WithoutId(FindByKey(t, cmd.GetKey())) == WithoutId(Lookup(m, cmd.GetKey()));
    PostRefines(t, cmd, key);
    MemoryPostRefines(m, cmd, key);
  }

  lemma PostKeepsIds(t: Db, cmd: PostCommand)
    requires IdsInRange(t) && PluginStore.Post(t, cmd).Ok?
    ensures IdsInRange(PluginStore.Post(t, cmd).value)
    ensures NextRowId(PluginStore.Post(t, cmd).value.options.Keys)
            == NextRowId(t.options.Keys) + if FindByKey(t, cmd.GetKey()).Some? then 0 else 1
  {
    PostRefines(t, cmd, cmd.GetKey());
    FindersAgree(t, cmd.GetKey());
    var po := Merge(FindByKey(t, cmd.GetKey()), cmd);
    UpdateLands(t, po);
    var keys, keys' := t.options.Keys, PluginStore.Post(t, cmd).value.options.Keys;
    assert keys' == keys + {AssignedId(t, po)};
    if FindByKey(t, cmd.GetKey()).Some? {
      assert keys' == keys;
    } else {
      NextAfter(keys);
    }
  }

  /** What POST does in memory, seen through the finder. */
  lemma MemoryPostRefines(m: Memory, cmd: PostCommand, key: Key)
    requires Lookup(m, cmd.GetKey()).Some? ==> Lookup(m, cmd.GetKey()).value.GetKey() == cmd.GetKey()
    ensures WithoutId(Lookup(MemoryPlugins.Post(m, cmd), key)) ==
            if key == cmd.GetKey()
            then Some(PluginOptions(0, cmd.userId, cmd.pluginName, cmd.enabled, cmd.favorite, cmd.fields))
            else WithoutId(Lookup(m, key))
  {
    StoreRefines(m, Merge(Lookup(m, cmd.GetKey()), cmd), key);
  }

  // ----- Whole runs -----

  lemma {:induction false} PostedKeysGrow(requests: seq<Request>)
    requires requests != []
    ensures PostedKeys(requests[..|requests| - 1]) <= PostedKeys(requests)
    ensures |PostedKeys(requests[..|requests| - 1])| <= |PostedKeys(requests)| <= |PostedKeys(requests[..|requests| - 1])| + 1
  {
    var before, last := PostedKeys(requests[..|requests| - 1]), requests[|requests| - 1];
    if last.PostRequest? && last.post.GetKey() in before {
      assert PostedKeys(requests) == before;
    }
  }

  lemma {:induction false} RunsMirror(requests: seq<Request>)
    requires |PostedKeys(requests)| <= INT_MAX
    ensures Mirror(SqliteAfter(requests), MemoryAfter(requests), PostedKeys(requests))
  {
    if requests != [] {
      var before, last := requests[..|requests| - 1], requests[|requests| - 1];
      PostedKeysGrow(requests);
      RunsMirror(before);
      if last.PostRequest? {
        PostKeepsMirror(SqliteAfter(before), MemoryAfter(before), PostedKeys(before), last.post);
      }
    }
  }

  lemma {:induction false} PrefixKeys(requests: seq<Request>, i: nat)
    requires i <= |requests|
    ensures |PostedKeys(requests[..i])| <= |PostedKeys(requests)|
  {
    if i == |requests| {
      assert requests[..i] == requests;
    } else {
      var before := requests[..|requests| - 1];
      assert before[..i] == requests[..i];
      PrefixKeys(before, i);
      PostedKeysGrow(requests);
    }
  }

  /** The storages answer alike while ids last... */
  lemma AnswersAgree(requests: seq<Request>, i: nat)
    requires |PostedKeys(requests)| <= INT_MAX && i < |requests|
    ensures SameAnswer(requests, i)
  {
    var before := requests[..i];
    PrefixKeys(requests, i);
    RunsMirror(before);
    match requests[i]
    case GetRequest(_) =>
    case PostRequest(cmd) =>
      PrefixKeys(requests, i + 1);
      assert requests[..i + 1][..i] == before;
      PostKeepsMirror(SqliteAfter(before), MemoryAfter(before), PostedKeys(before), cmd);
  }

  /** ...and the first new key beyond them tells them apart. */
  lemma {:induction false} AnswersPart(requests: seq<Request>) returns (i: nat)
    requires |PostedKeys(requests)| > INT_MAX
    ensures i < |requests| && !SameAnswer(requests, i)
  {
    var before, last := requests[..|requests| - 1], requests[|requests| - 1];
    if |PostedKeys(before)| > INT_MAX {
      i := AnswersPart(before);
      assert before[..i] == requests[..i];
    } else {
      i := |before|;
      RunsMirror(before);
      PostedKeysGrow(requests);
      assert last.post.GetKey() !in PostedKeys(before);
      PostSucceedsIff(SqliteAfter(before), last.post);
    }
  }

  /** Every answer of a run is the same from both storages if and only if it posts at most
      2^31-1 different user and plugin pairs. */
  lemma AnswersAgreeIff(requests: seq<Request>)
    ensures (forall i :: 0 <= i < |requests| ==> SameAnswer(requests, i)) <==> |PostedKeys(requests)| <= INT_MAX
  {
    if |PostedKeys(requests)| <= INT_MAX {
      forall i | 0 <= i < |requests|
        ensures SameAnswer(requests, i)
      {
        AnswersAgree(requests, i);
      }
    } else {
      var i := AnswersPart(requests);
    }
  }

  // ----- The index by id -----

  function LastPost(requests: seq<Request>): Option<PostCommand> {
    if requests == [] then None
    else
      var last := requests[|requests| - 1];
      if last.PostRequest? then Some(last.post) else LastPost(requests[..|requests| - 1])
  }

  ghost predicate NoIds(m: Memory) {
    forall key :: Lookup(m, key).Some? ==> Lookup(m, key).value.id == 0 && Lookup(m, key).value.GetKey() == key
  }

  /** The in-memory storage never hands out an id, so its index by id holds the latest
      option posted for anyone, under id 0, and nothing else, while what it finds by user
      and plugin carries that user and plugin. */
  lemma {:induction false} IdIndexCollapses(requests: seq<Request>)
    ensures NoIds(MemoryAfter(requests))
    ensures MemoryAfter(requests).byId ==
            match LastPost(requests)
            case None => map[]
            case Some(cmd) =>
              map[0 as Int32 := PluginOptions(0, cmd.userId, cmd.pluginName, cmd.enabled, cmd.favorite, cmd.fields)]
  {
    if requests != [] {
      var before, last := requests[..|requests| - 1], requests[|requests| - 1];
      IdIndexCollapses(before);
      if last.PostRequest? {
        PostKeepsNoIds(MemoryAfter(before), last.post);
      }
    }
  }

  lemma PostKeepsNoIds(m: Memory, cmd: PostCommand)
    requires NoIds(m)
    ensures NoIds(MemoryPlugins.Post(m, cmd))
  {
    var po := Merge(Lookup(m, cmd.GetKey()), cmd);
    forall key
      ensures Lookup(Store(m, po), key).Some? ==> Lookup(Store(m, po), key).value.id == 0 && Lookup(Store(m, po), key).value.GetKey() == key
    {
      StoreRefines(m, po, key);
    }
  }
}
