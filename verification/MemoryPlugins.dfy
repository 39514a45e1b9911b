/** InMemoryPluginOptionStorage: two maps, one of them keyed by a printed string. */
module MemoryPlugins {
  import opened Domain
  import opened MemoryUnitOfWork
  import PluginStore

  // ----- The printed key -----

  function Digit(d: nat): char
    requires d < 10
  {
    '0' + d as char
  }

  function Digits(n: nat): (s: string)
    ensures |s| > 0 && forall i :: 0 <= i < |s| ==> '0' <= s[i] <= '9'
  {
    if n < 10 then [Digit(n)] else Digits(n / 10) + [Digit(n % 10)]
  }

  /** `std::to_string` of an integer */
  function ToString(n: int): string {
    if n < 0 then "-" + Digits(-n) else Digits(n)
  }

  function UserNameKey(key: Key): string {
    ToString(key.userId) + ":" + key.pluginName
  }

  lemma {:induction false} DigitsInjective(n: nat, m: nat)
    requires Digits(n) == Digits(m)
    ensures n == m
  {
    var s, t := Digits(n), Digits(m);
    assert s[|s| - 1] == t[|t| - 1] && s[..|s| - 1] == t[..|t| - 1];
    if n >= 10 && m >= 10 {
      assert s[..|s| - 1] == Digits(n / 10) && t[..|t| - 1] == Digits(m / 10);
      DigitsInjective(n / 10, m / 10);
    }
  }

  lemma ToStringInjective(n: int, m: int)
    requires ToString(n) == ToString(m)
    ensures n == m
  {
    var s, t := ToString(n), ToString(m);
    assert s[0] == t[0];
    if n < 0 {
      assert s[1..] == Digits(-n) && t[1..] == Digits(-m);
      DigitsInjective(-n, -m);
    } else {
      DigitsInjective(n, m);
    }
  }

  lemma NoColon(n: int, i: nat)
    requires i < |ToString(n)|
    ensures ToString(n)[i] != ':'
  {
  }

  /** No two pairs print alike, whatever the sign of the id and however many colons the name
      has: the number ends at the first one. */
  lemma UserNameKeyInjective(a: Key, b: Key)
    ensures UserNameKey(a) == UserNameKey(b) <==> a == b
  {
    if UserNameKey(a) == UserNameKey(b) {
      var s, m, n := UserNameKey(a), |ToString(a.userId)|, |ToString(b.userId)|;
      assert s[m] == ':' == s[n];
      if m < n {
        NoColon(b.userId, m);
      } else if n < m {
        NoColon(a.userId, n);
      }
      assert s[..m] == ToString(a.userId) && s[..n] == ToString(b.userId);
      ToStringInjective(a.userId, b.userId);
      assert s[m + 1..] == a.pluginName && s[n + 1..] == b.pluginName;
    }
  }

  // ----- As a value -----

  datatype Memory = Memory(byId: map<Int32, PluginOptions>, byUserIdAndName: map<string, PluginOptions>)

  const EMPTY_MEMORY := Memory(map[], map[])

  function Lookup(m: Memory, key: Key): Option<PluginOptions> {
    var name := UserNameKey(key);
    if name in m.byUserIdAndName then Some(m.byUserIdAndName[name]) else None
  }

  function Store(m: Memory, po: PluginOptions): Memory {
    Memory(m.byId[po.id := po], m.byUserIdAndName[UserNameKey(po.GetKey()) := po])
  }

  /** The string-keyed map is a map from pairs. */
  lemma StoreRefines(m: Memory, po: PluginOptions, key: Key)
    ensures Lookup(Store(m, po), key) == if key == po.GetKey() then Some(po) else Lookup(m, key)
  {
    UserNameKeyInjective(key, po.GetKey());
  }

  /** POST over this storage, which cannot fail. */
  function Post(m: Memory, cmd: PluginStore.PostCommand): Memory {
    Store(m, PluginStore.Merge(Lookup(m, cmd.GetKey()), cmd))
  }

  // ----- As an object -----

  class InMemoryPluginOptionStorage {
    var byId: map<Int32, PluginOptions>
    var byUserIdAndName: map<string, PluginOptions>

    constructor ()
      ensures Contents() == EMPTY_MEMORY
    {
      byId, byUserIdAndName := map[], map[];
    }

    ghost function Contents(): Memory
      reads this
    {
      Memory(byId, byUserIdAndName)
    }

    static method MakeUserNameKey(userId: Int32, name: string) returns (key: string)
      ensures key == UserNameKey(Key(userId, name))
    {
      key := "";
      key := key + ToString(userId);
      key := key + [':'];
      key := key + name;
    }

    method FindById(id: Int32) returns (found: Option<PluginOptions>)
      ensures found == if id in Contents().byId then Some(Contents().byId[id]) else None
    {
      found := if id in byId then Some(byId[id]) else None;
    }

    method FindByUserIdAndName(userId: Int32, name: string) returns (found: Option<PluginOptions>)
      ensures found == Lookup(Contents(), Key(userId, name))
    {
      var key := MakeUserNameKey(userId, name);
      found := if key in byUserIdAndName then Some(byUserIdAndName[key]) else None;
    }

    method Update(po: PluginOptions)
      modifies this
      ensures Contents() == Store(old(Contents()), po)
    {
      byId := byId[po.id := po];
      var key := MakeUserNameKey(po.userId, po.pluginName);
      byUserIdAndName := byUserIdAndName[key := po];
    }

    method BeginWork() returns (unit: InMemoryStorageUoW)
      ensures fresh(unit) && unit.Snapshot() == OPENED
    {
      unit := new InMemoryStorageUoW();
    }

    /** PostPluginOptionsHandler over this storage */
    method ExecutePost(cmd: PluginStore.PostCommand)
      modifies this
      ensures Contents() == Post(old(Contents()), cmd)
    {
      var uow := BeginWork();
      var existing := FindByUserIdAndName(cmd.userId, cmd.pluginName);
      var po := PluginOptions(0, 0, "", false, false, map[]);
      if existing.Some? {
        po := existing.value;
      } else {
        po := po.(userId := cmd.userId);
        po := po.(pluginName := cmd.pluginName);
      }
      po := po.(enabled := cmd.enabled);
      po := po.(favorite := cmd.favorite);
      po := po.(fields := cmd.fields);
      Update(po);
      uow.Commit();
      uow.Destroy();
    }
  }
}
