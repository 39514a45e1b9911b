/** InMemoryUserStorage: two indexes of the same users and a counter of ids. */
module MemoryUsers {
  import opened Domain
  import opened MemoryUnitOfWork
  import UserStore

  // ----- As a value -----

  datatype Users = Users(byId: map<Int32, User>, byEmail: map<string, User>, lastId: Int32)

  const NOBODY := Users(map[], map[], 0)

  function FindById(m: Users, id: Int32): Option<User> {
    if id in m.byId then Some(m.byId[id]) else None
  }

  function FindByEmail(m: Users, email: string): Option<User> {
    if email in m.byEmail then Some(m.byEmail[email]) else None
  }

  /** The counter is a C++ `int`; past its largest value it wraps around here. */
  function NextId(m: Users): Int32 { GetInt(m.lastId + 1) }

  function Save(m: Users, user: User): Users {
    m.(byId := m.byId[user.id := user], byEmail := m.byEmail[user.email := user])
  }

  /** `add`; None for EmailAlreadyRegisteredError. */
  function Add(m: Users, user: User): Option<(Users, Int32)> {
    if user.email in m.byEmail then None
    else Some((Save(m.(lastId := NextId(m)), user.(id := NextId(m))), NextId(m)))
  }

  // ----- The two indexes -----

  /** Both indexes hold the same users, each under its own id and email, and no id is past
      the counter. */
  ghost predicate Agree(m: Users) {
    && m.lastId >= 0
    && (forall id :: id in m.byId ==>
          m.byId[id].id == id <= m.lastId && FindByEmail(m, m.byId[id].email) == Some(m.byId[id]))
    && (forall email :: email in m.byEmail ==>
          m.byEmail[email].email == email && FindById(m, m.byEmail[email].id) == Some(m.byEmail[email]))
  }

  datatype Operation = Adding(user: User) | Updating(user: User)

  /** A failed `add` changes nothing. */
  function Perform(m: Users, op: Operation): Users {
    match op
    case Adding(user) => if Add(m, user).Some? then Add(m, user).value.0 else m
    case Updating(user) => Save(m, user)
  }

  /** An `add` has an id left; an `update` gives a known id no other email, a known email no
      other id, and no id past the counter. */
  predicate InOrder(m: Users, op: Operation) {
    match op
    case Adding(user) => user.email in m.byEmail || m.lastId < INT_MAX
    case Updating(user) =>
      && (FindById(m, user.id).Some? ==> FindById(m, user.id).value.email == user.email)
      && (FindByEmail(m, user.email).Some? ==> FindByEmail(m, user.email).value.id == user.id)
      && user.id <= m.lastId
  }

  /** One operation keeps the indexes together exactly when it is in order. */
  lemma OperationKeepsAgreementIff(m: Users, op: Operation)
    requires Agree(m)
    ensures Agree(Perform(m, op)) <==> InOrder(m, op)
  {
    match op
    case Adding(user) => AddKeepsAgreementIff(m, user);
    case Updating(user) => UpdateKeepsAgreementIff(m, user);
  }

  lemma AddKeepsAgreementIff(m: Users, user: User)
    requires Agree(m)
    ensures Agree(Perform(m, Adding(user))) <==> InOrder(m, Adding(user))
  {
    var m' := Perform(m, Adding(user));
    if user.email !in m.byEmail && m.lastId == INT_MAX {
      assert m'.lastId < 0;
    }
  }

  lemma UpdateKeepsAgreementIff(m: Users, user: User)
    requires Agree(m)
    ensures Agree(Perform(m, Updating(user))) <==> InOrder(m, Updating(user))
  {
    var m' := Perform(m, Updating(user));
    if Agree(m') {
      assert user.id in m'.byId;
      if user.id in m.byId {
        var known := m.byId[user.id].email;
        assert known in m'.byEmail;
      }
      if user.email in m.byEmail {
        var known := m.byEmail[user.email].id;
        assert known in m'.byId;
      }
    }
  }

  /** After an `update` in order both finders return the updated user, password and all, and
      everybody else is found as before. */
  lemma UpdateIsFound(m: Users, user: User, id: Int32, email: string)
    requires Agree(m) && InOrder(m, Updating(user))
    ensures var m' := Perform(m, Updating(user));
            && FindById(m', id) == (if id == user.id then Some(user) else FindById(m, id))
            && FindByEmail(m', email) == (if email == user.email then Some(user) else FindByEmail(m, email))
            && m'.lastId == m.lastId
  {
  }

  /** An `add` of a taken email changes nothing; any other is found by its email and under
      the next id, and everybody else as before. */
  lemma AddIsFound(m: Users, user: User, id: Int32, email: string)
    requires Agree(m) && InOrder(m, Adding(user))
    ensures var m', added := Perform(m, Adding(user)), user.(id := GetInt(m.lastId + 1));
            if FindByEmail(m, user.email).Some? then m' == m
            else
              && FindById(m', id) == (if id == m.lastId + 1 then Some(added) else FindById(m, id))
              && FindByEmail(m', email) == (if email == user.email then Some(added) else FindByEmail(m, email))
              && m'.lastId == m.lastId + 1
  {
  }

  function After(operations: seq<Operation>): Users {
    if operations == [] then NOBODY
    else Perform(After(operations[..|operations| - 1]), operations[|operations| - 1])
  }

  predicate AllInOrder(operations: seq<Operation>) {
    operations == [] ||
    (AllInOrder(operations[..|operations| - 1])
     && InOrder(After(operations[..|operations| - 1]), operations[|operations| - 1]))
  }

  /** The indexes agree after each operation of the run. */
  ghost predicate AllAgree(operations: seq<Operation>) {
    Agree(After(operations)) && (operations != [] ==> AllAgree(operations[..|operations| - 1]))
  }

  /** The indexes agree all along a run of adds, failed ones among them, and updates exactly
      when every operation of the run was in order. */
  lemma {:induction false} RunsAgreeIff(operations: seq<Operation>)
    ensures AllAgree(operations) <==> AllInOrder(operations)
  {
    if operations != [] {
      var before := operations[..|operations| - 1];
      RunsAgreeIff(before);
      if AllAgree(before) {
        OperationKeepsAgreementIff(After(before), operations[|operations| - 1]);
      }
    }
  }

  /** More than the source promises: the ids are 1..lastId. */
  ghost predicate NoGaps(m: Users) {
    forall id :: id in m.byId <==> 1 <= id <= m.lastId
  }

  /** An `update` is for a user who exists. */
  predicate OfExisting(m: Users, op: Operation) {
    op.Updating? ==> op.user.id in m.byId
  }

  predicate AllOfExisting(operations: seq<Operation>) {
    operations == [] ||
    (AllOfExisting(operations[..|operations| - 1])
     && OfExisting(After(operations[..|operations| - 1]), operations[|operations| - 1]))
  }

  /** In a run in order, the ids come without gaps as long as updates are for users who
      exist, and the first one that is not leaves a gap or an id outside. */
  lemma OperationLeavesNoGapsIff(m: Users, op: Operation)
    requires Agree(m) && NoGaps(m) && InOrder(m, op)
    ensures NoGaps(Perform(m, op)) <==> OfExisting(m, op)
  {
    var m' := Perform(m, op);
    if op.Updating? && op.user.id !in m.byId {
      assert op.user.id in m'.byId && op.user.id < 1;
    }
  }

  lemma {:induction false} RunsLeaveNoGaps(operations: seq<Operation>)
    requires AllInOrder(operations) && AllOfExisting(operations)
    ensures NoGaps(After(operations))
  {
    if operations != [] {
      var before := operations[..|operations| - 1];
      RunsLeaveNoGaps(before);
      RunsAgreeIff(before);
      OperationLeavesNoGapsIff(After(before), operations[|operations| - 1]);
    }
  }

  // ----- Handlers over this storage -----

  /** RegisterUserHandler. Rolling back has nothing to undo: a failed `add` changed nothing. */
  function Register(m: Users, email: string, hash: Option<Bytes>): (Users, UserStore.RegisterResult) {
    if hash.None? then (m, UserStore.NotHashed)
    else match Add(m, UserStore.NewUser(email, hash.value, PASSWORD))
         case Some((m1, id)) => (m1, UserStore.Registered(id))
         case None => (m, UserStore.EmailTaken)
  }

  /** AuthUserViaGoogleHandler */
  function SignIn(m: Users, keyEmail: Option<string>): (Users, UserStore.GoogleResult) {
    if keyEmail.None? then (m, UserStore.KeyRejected)
    else match FindByEmail(m, keyEmail.value)
         case Some(user) => (m, UserStore.AlreadyRegistered(user.id))
         case None =>
           match Add(m, UserStore.NewUser(keyEmail.value, [], GOOGLE))
           case Some((m1, id)) => (m1, UserStore.SignedUp(id))
           case None => (m, UserStore.Refused)
  }

  /** What a registration and a sign-up store here. */
  lemma HandlersStore(m: Users, email: string, hash: Option<Bytes>)
    ensures var (m', r) := Register(m, email, hash);
            && (!r.Registered? ==> m' == m)
            && (r.Registered? ==> FindByEmail(m', email) == Some(User(r.id, email, hash.value, PASSWORD)))
    ensures var (m', r) := SignIn(m, Some(email));
            && (!r.SignedUp? ==> m' == m)
            && (r.SignedUp? ==> FindByEmail(m', email) == Some(User(r.id, email, [], GOOGLE)))
  {
  }

  // ----- As an object -----

  class InMemoryUserStorage {
    var byId: map<Int32, User>
    var byEmail: map<string, User>
    var lastId: Int32

    constructor ()
      ensures Contents() == NOBODY
    {
      byId, byEmail, lastId := map[], map[], 0;
    }

    ghost function Contents(): Users
      reads this
    {
      Users(byId, byEmail, lastId)
    }

    method FindUserById(id: Int32) returns (found: Option<User>)
      ensures found == FindById(Contents(), id)
    {
      found := if id in byId then Some(byId[id]) else None;
    }

    method FindUserByEmail(email: string) returns (found: Option<User>)
      ensures found == FindByEmail(Contents(), email)
    {
      found := if email in byEmail then Some(byEmail[email]) else None;
    }

    /** `added` is false for EmailAlreadyRegisteredError; `id` is the caller's user's id
        afterwards. */
    method AddUser(user: User) returns (added: bool, id: Int32)
      modifies this
      ensures added == Add(old(Contents()), user).Some?
      ensures if added then Add(old(Contents()), user) == Some((Contents(), id))
              else Contents() == old(Contents()) && id == user.id
    {
      if user.email in byEmail {
        return false, user.id;
      }
      id := GenerateId();
      var saved := user.(id := id);
      byId := byId[saved.id := saved];
      byEmail := byEmail[saved.email := saved];
      added := true;
    }

    method Update(user: User)
      modifies this
      ensures Contents() == Perform(old(Contents()), Updating(user))
    {
      byId := byId[user.id := user];
      byEmail := byEmail[user.email := user];
    }

    method GenerateId() returns (id: Int32)
      modifies `lastId
      ensures id == lastId == NextId(old(Contents()))
    {
      lastId := GetInt(lastId + 1);
      id := lastId;
    }

    method ExecuteRegister(email: string, hash: Option<Bytes>) returns (r: UserStore.RegisterResult)
      modifies this
      ensures (Contents(), r) == Register(old(Contents()), email, hash)
      ensures r.Registered? ==> FindByEmail(Contents(), email) == Some(User(r.id, email, hash.value, PASSWORD))
    {
      var uow := new InMemoryStorageUoW();
      if hash.None? {
        uow.Rollback();
        uow.Destroy();
        return UserStore.NotHashed;
      }
      var user := User(0, "", [], PASSWORD);
      user := user.(email := email);
      user := user.(password := hash.value);
      var added, id := AddUser(user);
      if added {
        uow.Commit();
      } else {
        uow.Rollback();
      }
      uow.Destroy();
      r := if added then UserStore.Registered(id) else UserStore.EmailTaken;
    }

    method ExecuteSignIn(keyEmail: Option<string>) returns (r: UserStore.GoogleResult)
      modifies this
      ensures (Contents(), r) == SignIn(old(Contents()), keyEmail)
    {
      if keyEmail.None? {
        return UserStore.KeyRejected;
      }
      var existing := FindUserByEmail(keyEmail.value);
      if existing.Some? {
        return UserStore.AlreadyRegistered(existing.value.id);
      }
      var uow := new InMemoryStorageUoW();
      var user := User(0, "", [], PASSWORD);
      user := user.(email := keyEmail.value);
      user := user.(verification := GOOGLE);
      var added, id := AddUser(user);
      if added {
        uow.Commit();
      } else {
        uow.Rollback();
      }
      uow.Destroy();
      r := if added then UserStore.SignedUp(id) else UserStore.Refused;
    }
  }
}
