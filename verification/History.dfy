/** Committed work as a list of effects, and what the store is after any such list. */
module History {
  import opened Domain
  import opened Schema
  import opened PluginStore
  import opened UserStore

  /** What a unit of work that commits has done. */
  datatype Effect =
    | Posting(post: PostCommand)
    | Adding(user: User)
  {
    predicate Succeeds(t: Db) {
      match this
      case Posting(cmd) => Post(t, cmd).Ok?
      case Adding(user) => AddUser(t, user).Ok?
    }
  }

  /** An effect that does not succeed is rolled back. */
  function Apply(t: Db, effect: Effect): Db {
    match effect
    case Posting(cmd) => if Post(t, cmd).Ok? then Post(t, cmd).value else t
    case Adding(user) => if AddUser(t, user).Ok? then AddUser(t, user).value.0 else t
  }

  /** The effects one at a time, from an empty database. */
  function Replay(effects: seq<Effect>): Db {
    if effects == [] then EMPTY else Apply(Replay(effects[..|effects| - 1]), effects[|effects| - 1])
  }

  lemma ReplayGrows(effects: seq<Effect>, i: nat)
    requires i < |effects|
    ensures Replay(effects[..i + 1]) == Apply(Replay(effects[..i]), effects[i])
  {
    assert effects[..i + 1][..i] == effects[..i];
  }

  lemma {:induction false} ApplyKeepsIds(t: Db, effect: Effect)
    requires IdsInRange(t) && UserIdsPositive(t)
    ensures IdsInRange(Apply(t, effect)) && UserIdsPositive(Apply(t, effect))
  {
    match effect
    case Posting(cmd) =>
      if Post(t, cmd).Ok? {
        PostRefines(t, cmd, cmd.GetKey());
      }
    case Adding(user) =>
      if AddUser(t, user).Ok? {
        AddRefines(t, user, user.email);
      }
  }

  /** In every state reachable from the empty database, option ids are in 1..2^31-1 and user
      row ids are positive. */
  lemma {:induction false} ReplayKeepsIds(effects: seq<Effect>)
    ensures IdsInRange(Replay(effects)) && UserIdsPositive(Replay(effects))
  {
    if effects != [] {
      ReplayKeepsIds(effects[..|effects| - 1]);
      ApplyKeepsIds(Replay(effects[..|effects| - 1]), effects[|effects| - 1]);
    }
  }

  // ----- Plugin options -----

  /** The last POST for a key that succeeded. */
  function LatestPost(effects: seq<Effect>, key: Key): Option<PostCommand> {
    if effects == [] then None
    else
      var before, last := effects[..|effects| - 1], effects[|effects| - 1];
      if last.Posting? && last.post.GetKey() == key && last.Succeeds(Replay(before)) then Some(last.post)
      else LatestPost(before, key)
  }

  /** After any history, a lookup finds the flags and fields of the latest successful POST
      for that user and plugin, or nothing when there was none. */
  lemma {:induction false} LookupFindsLatestPost(effects: seq<Effect>, key: Key)
    ensures match LatestPost(effects, key)
            case None => FindByKey(Replay(effects), key) == None
            case Some(cmd) =>
              && FindByKey(Replay(effects), key).Some?
              && var po := FindByKey(Replay(effects), key).value;
                 po == PluginOptions(po.id, key.userId, key.pluginName, cmd.enabled, cmd.favorite, cmd.fields)
  {
    if effects != [] {
      var before, last := effects[..|effects| - 1], effects[|effects| - 1];
      LookupFindsLatestPost(before, key);
      ReplayKeepsIds(before);
      LookupAfter(Replay(before), last, key);
    }
  }

  /** One effect seen through the option finder. */
  lemma LookupAfter(t: Db, effect: Effect, key: Key)
    requires IdsInRange(t)
    ensures var before, after := FindByKey(t, key), FindByKey(Apply(t, effect), key);
            if effect.Posting? && effect.Succeeds(t) && effect.post.GetKey() == key then
              && after.Some?
              && after.value == PluginOptions(after.value.id, key.userId, key.pluginName,
                                              effect.post.enabled, effect.post.favorite, effect.post.fields)
              && (before.Some? ==> after.value.id == before.value.id)
            else after == before
  {
    match effect
    case Posting(cmd) =>
      if Post(t, cmd).Ok? {
        PostRefines(t, cmd, key);
      }
    case Adding(user) =>
      if AddUser(t, user).Ok? {
        AddRefines(t, user, user.email);
        SameOptionsSameLookup(t, Apply(t, effect), key);
      }
  }

  lemma SameOptionsSameLookup(t: Db, t': Db, key: Key)
    requires t'.options == t.options && t'.fields == t.fields
    ensures FindByKey(t', key) == FindByKey(t, key)
  {
  }

  /** Once a key has an id it keeps it. */
  lemma {:induction false} OptionIdsAreStable(effects: seq<Effect>, i: nat, key: Key)
    requires i <= |effects| && FindByKey(Replay(effects[..i]), key).Some?
    ensures FindByKey(Replay(effects), key).Some?
    ensures FindByKey(Replay(effects), key).value.id == FindByKey(Replay(effects[..i]), key).value.id
  {
    if i == |effects| {
      assert effects[..i] == effects;
    } else {
      var before := effects[..|effects| - 1];
      assert before[..i] == effects[..i];
      OptionIdsAreStable(before, i, key);
      ReplayKeepsIds(before);
      LookupAfter(Replay(before), effects[|effects| - 1], key);
    }
  }

  // ----- Users -----

  /** One effect seen through the user finder: a found user stays as it is. */
  lemma UserAfter(t: Db, effect: Effect, email: string)
    requires IdsInRange(t) && FindByEmail(t, email).Some?
    ensures FindByEmail(Apply(t, effect), email) == FindByEmail(t, email)
  {
    match effect
    case Posting(cmd) =>
      if Post(t, cmd).Ok? {
        PostRefines(t, cmd, cmd.GetKey());
        var i := SelectUserId(t, email).value;
        assert Apply(t, effect).users[i].email == email;
      }
    case Adding(user) =>
      if AddUser(t, user).Ok? {
        AddRefines(t, user, email);
        AddSucceedsIff(t, user);
      }
  }

  /** A user once found is found with the same id, password bytes and verification method
      after every later history. */
  lemma {:induction false} UsersAreStable(effects: seq<Effect>, i: nat, email: string)
    requires i <= |effects| && FindByEmail(Replay(effects[..i]), email).Some?
    ensures FindByEmail(Replay(effects), email) == FindByEmail(Replay(effects[..i]), email)
  {
    if i == |effects| {
      assert effects[..i] == effects;
    } else {
      var before := effects[..|effects| - 1];
      assert before[..i] == effects[..i];
      UsersAreStable(before, i, email);
      ReplayKeepsIds(before);
      UserAfter(Replay(before), effects[|effects| - 1], email);
    }
  }

  /** After a successful registration, in every later state, the email finds the registered
      user with the bytes and the method it was registered with, and logging in succeeds
      exactly when the hasher accepts the password against those bytes, with the registered
      id. */
  lemma LoginAfterRegistration(effects: seq<Effect>, i: nat, email: string, hash: Bytes, verify: Bytes -> bool)
    requires i < |effects| && |hash| <= INT_MAX
    requires effects[i] == Adding(User(0, email, hash, PASSWORD)) && effects[i].Succeeds(Replay(effects[..i]))
    ensures var (t', registered) := Register(Replay(effects[..i]), email, Some(hash));
            && registered.Registered? && t' == Replay(effects[..i + 1])
            && FindByEmail(Replay(effects), email) == Some(User(registered.id, email, hash, PASSWORD))
            && Login(FindByEmail(Replay(effects), email), verify) == if verify(hash) then Some(registered.id) else None
  {
    ReplayGrows(effects, i);
    AddRefines(Replay(effects[..i]), effects[i].user, email);
    PasswordRoundTrip(hash);
    UsersAreStable(effects, i + 1, email);
  }

  /** The same for a Google sign-up, whose empty password survives the round trip: the
      hasher is asked about the empty password and nothing else. */
  lemma LoginAfterSignUp(effects: seq<Effect>, i: nat, email: string, verify: Bytes -> bool)
    requires i < |effects|
    requires effects[i] == Adding(User(0, email, [], GOOGLE)) && effects[i].Succeeds(Replay(effects[..i]))
    ensures var (t', signedUp) := SignIn(Replay(effects[..i]), Some(email));
            && signedUp.SignedUp? && t' == Replay(effects[..i + 1])
            && FindByEmail(Replay(effects), email) == Some(User(signedUp.id, email, [], GOOGLE))
            && Login(FindByEmail(Replay(effects), email), verify) == if verify([]) then Some(signedUp.id) else None
  {
    ReplayGrows(effects, i);
    AddSucceedsIff(Replay(effects[..i]), effects[i].user);
    AddRefines(Replay(effects[..i]), effects[i].user, email);
    PasswordRoundTrip([]);
    UsersAreStable(effects, i + 1, email);
  }

  /** Some effect of the history added the email. */
  predicate Added(effects: seq<Effect>, email: string) {
    effects != [] &&
    var before, last := effects[..|effects| - 1], effects[|effects| - 1];
    Added(before, email) || (last.Adding? && last.user.email == email && last.Succeeds(Replay(before)))
  }

  /** An email finds somebody exactly when some effect of the history added it. */
  lemma {:induction false} FoundIffAdded(effects: seq<Effect>, email: string)
    ensures FindByEmail(Replay(effects), email).Some? <==> Added(effects, email)
  {
    if effects != [] {
      var before := effects[..|effects| - 1];
      FoundIffAdded(before, email);
      ReplayKeepsIds(before);
      FoundAfter(Replay(before), effects[|effects| - 1], email);
    }
  }

  lemma {:induction false} AddedSomewhere(effects: seq<Effect>, email: string)
    requires Added(effects, email)
    ensures exists i :: 0 <= i < |effects| && effects[i].Adding? && effects[i].user.email == email
  {
    var n := |effects| - 1;
    if Added(effects[..n], email) {
      AddedSomewhere(effects[..n], email);
      var i :| 0 <= i < n && effects[..n][i].Adding? && effects[..n][i].user.email == email;
      assert effects[i].Adding? && effects[i].user.email == email;
    } else {
      assert effects[n].Adding? && effects[n].user.email == email;
    }
  }

  lemma FoundAfter(t: Db, effect: Effect, email: string)
    requires IdsInRange(t)
    ensures FindByEmail(Apply(t, effect), email).Some? <==>
            FindByEmail(t, email).Some? || (effect.Adding? && effect.user.email == email && effect.Succeeds(t))
  {
    match effect
    case Posting(cmd) =>
      if Post(t, cmd).Ok? {
        PostRefines(t, cmd, cmd.GetKey());
        SameUsersSameFind(t, Apply(t, effect), email);
      }
    case Adding(user) =>
      if AddUser(t, user).Ok? {
        AddRefines(t, user, email);
      }
  }

  lemma SameUsersSameFind(t: Db, t': Db, email: string)
    requires t'.users == t.users
    ensures FindByEmail(t', email) == FindByEmail(t, email)
  {
    var i := SelectUserId(t, email);
    assert i.Some? ==> t'.users[i.value].email == email;
  }

  /** An id that finds a user finds the same one, whole, after every later history, posts
      included. */
  lemma {:induction false} UsersAreStableById(effects: seq<Effect>, i: nat, id: Int32)
    requires i <= |effects| && FindUserById(Replay(effects[..i]), id).Some?
    ensures FindUserById(Replay(effects), id) == FindUserById(Replay(effects[..i]), id)
  {
    if i == |effects| {
      assert effects[..i] == effects;
    } else {
      var before := effects[..|effects| - 1];
      assert before[..i] == effects[..i];
      UsersAreStableById(before, i, id);
      ReplayKeepsIds(before);
      UserRowsStay(Replay(before), effects[|effects| - 1]);
    }
  }

  lemma UserRowsStay(t: Db, effect: Effect)
    requires IdsInRange(t)
    ensures forall i :: i in t.users ==> i in Apply(t, effect).users && Apply(t, effect).users[i] == t.users[i]
  {
    match effect
    case Posting(cmd) =>
      if Post(t, cmd).Ok? {
        PostRefines(t, cmd, cmd.GetKey());
      }
    case Adding(_) =>
  }

  /** As long as row ids fit `int`, both user finders agree on everybody after every history,
      posts included. */
  lemma UserFindersAgreeAlways(effects: seq<Effect>, email: string, id: Int32)
    requires NextRowId(Replay(effects).users.Keys) - 1 <= INT_MAX
    ensures var t := Replay(effects);
            && (match FindByEmail(t, email)
                case Some(user) => user.email == email && FindUserById(t, user.id) == Some(user)
                case None => forall i: Int32 :: FindUserById(t, i).Some? ==> FindUserById(t, i).value.email != email)
            && (match FindUserById(t, id)
                case Some(user) => user.id == id && FindByEmail(t, user.email) == Some(user)
                case None => id !in t.users)
  {
    ReplayKeepsIds(effects);
    UserFindersAgree(Replay(effects), email, id);
  }
}
