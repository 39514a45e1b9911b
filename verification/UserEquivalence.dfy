/** Over every run of registrations, sign-ins and logins, the SQLite and the in-memory user
    storage give the same answers, equal ids included. */
module UserEquivalence {
  import opened Domain
  import opened Schema
  import opened UserStore
  import MemoryUsers

  /** With the answers of the hasher and of the key handler. */
  datatype Request =
    | RegisterRequest(email: string, hash: Option<Bytes>)
    | GoogleRequest(keyEmail: Option<string>)
    | LoginRequest(loginEmail: string, verify: Bytes -> bool)

  datatype Answer =
    | Registration(register: RegisterResult)
    | GoogleSignIn(google: GoogleResult)
    | LoggedIn(userId: Option<Int32>)

  function SqliteStep(t: Db, request: Request): (Db, Answer) {
    match request
    case RegisterRequest(email, hash) => var (t1, r) := Register(t, email, hash); (t1, Registration(r))
    case GoogleRequest(keyEmail) => var (t1, r) := SignIn(t, keyEmail); (t1, GoogleSignIn(r))
    case LoginRequest(email, verify) => (t, LoggedIn(Login(FindByEmail(t, email), verify)))
  }

  function MemoryStep(m: MemoryUsers.Users, request: Request): (MemoryUsers.Users, Answer) {
    match request
    case RegisterRequest(email, hash) => var (m1, r) := MemoryUsers.Register(m, email, hash); (m1, Registration(r))
    case GoogleRequest(keyEmail) => var (m1, r) := MemoryUsers.SignIn(m, keyEmail); (m1, GoogleSignIn(r))
    case LoginRequest(email, verify) => (m, LoggedIn(Login(MemoryUsers.FindByEmail(m, email), verify)))
  }

  function SqliteAfter(requests: seq<Request>): Db {
    if requests == [] then EMPTY
    else SqliteStep(SqliteAfter(requests[..|requests| - 1]), requests[|requests| - 1]).0
  }

  function MemoryAfter(requests: seq<Request>): MemoryUsers.Users {
    if requests == [] then MemoryUsers.NOBODY
    else MemoryStep(MemoryAfter(requests[..|requests| - 1]), requests[|requests| - 1]).0
  }

  // ----- One request -----

  ghost predicate SameFinds(t: Db, m: MemoryUsers.Users) {
    forall email :: FindByEmail(t, email) == MemoryUsers.FindByEmail(m, email)
  }

  /** The counters march together too: a failed `add` consumes no id in either. */
  ghost predicate Mirror(t: Db, m: MemoryUsers.Users) {
    && SameFinds(t, m) && UserIdsPositive(t)
    && m.lastId == GetInt(NextRowId(t.users.Keys) - 1)
  }

  /** A registration's hash has a length that an `int` can say, or its email is taken and
      the length, cut to an `int`, is at least not negative. */
  predicate Fits(t: Db, request: Request) {
    match request
    case RegisterRequest(email, Some(hash)) => |hash| <= INT_MAX || (FindByEmail(t, email).Some? && GetInt(|hash|) >= 0)
    case _ => true
  }

  /** Both print the next id alike, wrapped or not. */
  lemma NextIds(ids: set<int>)
    ensures GetInt(GetInt(NextRowId(ids) - 1) + 1) == GetInt(NextRowId(ids))
    ensures NextRowId(ids + {NextRowId(ids)}) == NextRowId(ids) + 1
  {
  }

  lemma AddKeepsMirror(t: Db, m: MemoryUsers.Users, user: User)
    requires Mirror(t, m) && FindByEmail(t, user.email).None? && |user.password| <= INT_MAX
    ensures AddUser(t, user).Ok? && MemoryUsers.Add(m, user).Some?
    ensures AddUser(t, user).value.1 == MemoryUsers.Add(m, user).value.1
    ensures Mirror(AddUser(t, user).value.0, MemoryUsers.Add(m, user).value.0)
  {
    assert MemoryUsers.FindByEmail(m, user.email).None?;
    AddSucceedsIff(t, user);
    NextIds(t.users.Keys);
    var t', m' := AddUser(t, user).value.0, MemoryUsers.Add(m, user).value.0;
    assert t'.users.Keys == t.users.Keys + {NextRowId(t.users.Keys)};
    forall email
      ensures FindByEmail(t', email) == MemoryUsers.FindByEmail(m', email)
    {
      AddedAlike(t, m, user, email);
    }
  }

  lemma AddedAlike(t: Db, m: MemoryUsers.Users, user: User, email: string)
    requires Mirror(t, m) && AddUser(t, user).Ok? && MemoryUsers.Add(m, user).Some? && |user.password| <= INT_MAX
    ensures AddUser(t, user).value.1 == MemoryUsers.Add(m, user).value.1
    ensures FindByEmail(AddUser(t, user).value.0, email) == MemoryUsers.FindByEmail(MemoryUsers.Add(m, user).value.0, email)
  {
    NextIds(t.users.Keys);
    PasswordRoundTrip(user.password);
    AddRefines(t, user, email);
    assert FindByEmail(t, email) == MemoryUsers.FindByEmail(m, email);
  }

  /** A password too long for an `int` is refused by SQLite or comes back shorter. */
  lemma LongPasswordsShow(t: Db, m: MemoryUsers.Users, user: User)
    requires Mirror(t, m) && FindByEmail(t, user.email).None? && |user.password| > INT_MAX
    ensures MemoryUsers.Add(m, user).Some?
    ensures AddUser(t, user).Ok? ==> !SameFinds(AddUser(t, user).value.0, MemoryUsers.Add(m, user).value.0)
  {
    assert MemoryUsers.FindByEmail(m, user.email).None?;
    PasswordRoundTrip(user.password);
    if AddUser(t, user).Ok? {
      AddRefines(t, user, user.email);
      var t', m' := AddUser(t, user).value.0, MemoryUsers.Add(m, user).value.0;
      assert FindByEmail(t', user.email) != MemoryUsers.FindByEmail(m', user.email);
    }
  }

  ghost predicate StepsAlike(t: Db, m: MemoryUsers.Users, request: Request) {
    && SqliteStep(t, request).1 == MemoryStep(m, request).1
    && SameFinds(SqliteStep(t, request).0, MemoryStep(m, request).0)
  }

  lemma StepKeepsMirrorIff(t: Db, m: MemoryUsers.Users, request: Request)
    requires Mirror(t, m)
    ensures StepsAlike(t, m, request) <==> Fits(t, request)
    ensures Fits(t, request) ==> Mirror(SqliteStep(t, request).0, MemoryStep(m, request).0)
  {
    match request
    case LoginRequest(_, _) =>
    case RegisterRequest(email, hash) =>
      if hash.Some? {
        AddSucceedsIff(t, NewUser(email, hash.value, PASSWORD));
        if FindByEmail(t, email).None? {
          if |hash.value| <= INT_MAX {
            AddKeepsMirror(t, m, NewUser(email, hash.value, PASSWORD));
          } else {
            LongPasswordsShow(t, m, NewUser(email, hash.value, PASSWORD));
          }
        }
      }
    case GoogleRequest(keyEmail) =>
      if keyEmail.Some? && FindByEmail(t, keyEmail.value).None? {
        AddKeepsMirror(t, m, NewUser(keyEmail.value, [], GOOGLE));
      }
  }

  // ----- Whole runs -----

  /** Every request of the run is answered alike, and after each of them both storages find
      the same user under every email. */
  ghost predicate Alike(requests: seq<Request>) {
    requests == [] ||
    (Alike(requests[..|requests| - 1])
     && StepsAlike(SqliteAfter(requests[..|requests| - 1]), MemoryAfter(requests[..|requests| - 1]), requests[|requests| - 1]))
  }

  predicate AllFit(requests: seq<Request>) {
    requests == [] ||
    (AllFit(requests[..|requests| - 1]) && Fits(SqliteAfter(requests[..|requests| - 1]), requests[|requests| - 1]))
  }

  /** The two storages cannot be told apart by any run exactly as long as the
      registrations' hashes fit; all hashes of up to 2^31-1 bytes do. */
  lemma {:induction false} StoragesAreAlikeIff(requests: seq<Request>)
    ensures Alike(requests) <==> AllFit(requests)
    ensures AllFit(requests) ==> Mirror(SqliteAfter(requests), MemoryAfter(requests))
  {
    if requests != [] {
      var before := requests[..|requests| - 1];
      StoragesAreAlikeIff(before);
      if AllFit(before) {
        StepKeepsMirrorIff(SqliteAfter(before), MemoryAfter(before), requests[|requests| - 1]);
      }
    }
  }

  // ----- Looking up by id -----

  lemma AddKeepsAgreement(t: Db, m: MemoryUsers.Users, user: User)
    requires Mirror(t, m) && MemoryUsers.Agree(m) && AddUser(t, user).Ok?
    ensures NextRowId(AddUser(t, user).value.0.users.Keys) == NextRowId(t.users.Keys) + 1
    ensures NextRowId(t.users.Keys) <= INT_MAX ==> MemoryUsers.Agree(MemoryUsers.Perform(m, MemoryUsers.Adding(user)))
  {
    NextIds(t.users.Keys);
    assert AddUser(t, user).value.0.users.Keys == t.users.Keys + {NextRowId(t.users.Keys)};
    MemoryUsers.AddKeepsAgreementIff(m, user);
  }

  lemma StepKeepsAgreement(t: Db, m: MemoryUsers.Users, request: Request)
    requires Mirror(t, m) && Fits(t, request) && MemoryUsers.Agree(m)
    ensures NextRowId(t.users.Keys) <= NextRowId(SqliteStep(t, request).0.users.Keys)
    ensures NextRowId(SqliteStep(t, request).0.users.Keys) - 1 <= INT_MAX ==> MemoryUsers.Agree(MemoryStep(m, request).0)
  {
    var user := match request
                case RegisterRequest(email, Some(hash)) => NewUser(email, hash, PASSWORD)
                case GoogleRequest(Some(email)) => NewUser(email, [], GOOGLE)
                case _ => NewUser("", [], PASSWORD);
    if FindByEmail(t, user.email).None? && |user.password| <= INT_MAX {
      AddSucceedsIff(t, user);
      AddKeepsAgreement(t, m, user);
    }
  }

  lemma {:induction false} RunsKeepAgreement(requests: seq<Request>)
    requires AllFit(requests) && NextRowId(SqliteAfter(requests).users.Keys) - 1 <= INT_MAX
    ensures MemoryUsers.Agree(MemoryAfter(requests))
  {
    if requests != [] {
      var before, last := requests[..|requests| - 1], requests[|requests| - 1];
      StoragesAreAlikeIff(before);
      IdsOnlyGrow(SqliteAfter(before), last);
      RunsKeepAgreement(before);
      StepKeepsAgreement(SqliteAfter(before), MemoryAfter(before), last);
    }
  }

  lemma IdsOnlyGrow(t: Db, request: Request)
    ensures NextRowId(t.users.Keys) <= NextRowId(SqliteStep(t, request).0.users.Keys)
  {
    var t' := SqliteStep(t, request).0;
    assert t'.users.Keys == t.users.Keys || t'.users.Keys == t.users.Keys + {NextRowId(t.users.Keys)};
    NextIds(t.users.Keys);
  }

  /** While row ids fit `int`, the storages also find the same user under every id. */
  lemma SameUsersById(requests: seq<Request>, id: Int32)
    requires AllFit(requests) && NextRowId(SqliteAfter(requests).users.Keys) - 1 <= INT_MAX
    ensures FindUserById(SqliteAfter(requests), id) == MemoryUsers.FindById(MemoryAfter(requests), id)
  {
    StoragesAreAlikeIff(requests);
    RunsKeepAgreement(requests);
    var t, m := SqliteAfter(requests), MemoryAfter(requests);
    assert id in m.byId ==> FindByEmail(t, m.byId[id].email) == MemoryUsers.FindByEmail(m, m.byId[id].email);
    if id in t.users {
      var email := t.users[id].email;
      assert SelectUserId(t, email) == Some(id as int);
      assert FindByEmail(t, email) == MemoryUsers.FindByEmail(m, email);
    }
  }
}
