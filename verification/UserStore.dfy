/** The user finders and `add` as functions of the tables, the encodings they use, and the
    handlers' effect when nothing else runs. */
module UserStore {
  import opened Domain
  import opened Schema

  // ----- Encodings -----

  function ToInt(m: VerificationMethod): int { m as int }

  /** Both casts of `fromInt`: to `std::uint8_t`, then to the enumeration. */
  function FromInt(v: int): VerificationMethod { (v % 256) as VerificationMethod }

  /** Binding a password. Its pointer is never null, so an empty password is an empty blob
      and not NULL; its size is cast to `int`, and a negative size is taken to be refused. */
  function BindPassword(password: Bytes): Result<Bytes> {
    var size := GetInt(|password|);
    if size < 0 then Err(Other) else Ok(password[..size])
  }

  function BlobToVec(blob: Bytes): Bytes {
    var bytes := GetInt(|blob|);
    if bytes <= 0 then [] else blob[..bytes]
  }

  /** A password comes back as it went in exactly when its length is an `int`. */
  lemma PasswordRoundTrip(password: Bytes)
    ensures BindPassword(password).Ok? && BlobToVec(BindPassword(password).value) == password
            <==> |password| <= INT_MAX
  {
  }

  lemma VerificationRoundTrip(m: VerificationMethod)
    ensures FromInt(ToInt(m)) == m
  {
  }

  // ----- Storage -----

  function LoadUser(t: Db, id: int): User
    requires id in t.users
  {
    var row := t.users[id];
    User(GetInt(id), row.email, BlobToVec(row.password), FromInt(row.verification))
  }

  function FindUserById(t: Db, id: Int32): Option<User> {
    if id in t.users then Some(LoadUser(t, id)) else None
  }

  function FindByEmail(t: Db, email: string): Option<User> {
    match SelectUserId(t, email)
    case None => None
    case Some(i) => Some(LoadUser(t, i))
  }

  /** `add`: the tables it leaves and the id it sets, or the error after its guard has put
      everything back. Constraint is the error it turns into EmailAlreadyRegisteredError. */
  function AddUser(t: Db, user: User): Result<(Db, Int32)> {
    match BindPassword(user.password)
    case Err(e) => Err(e)
    case Ok(blob) =>
      match InsertUser(t, UserRow(user.email, blob, ToInt(user.verification)))
      case Err(e) => Err(e)
      case Ok((t1, id)) => Ok((t1, GetInt(id)))
  }

  /** Exactly when `add` goes through, and exactly which error it gives otherwise. */
  lemma AddSucceedsIff(t: Db, user: User)
    ensures AddUser(t, user).Ok? <==> FindByEmail(t, user.email).None? && GetInt(|user.password|) >= 0
    ensures |user.password| <= INT_MAX ==> (AddUser(t, user).Ok? <==> FindByEmail(t, user.email).None?)
    ensures AddUser(t, user) == Err(Constraint) <==> FindByEmail(t, user.email).Some? && GetInt(|user.password|) >= 0
    ensures AddUser(t, user) == Err(Other) <==> GetInt(|user.password|) < 0
  {
  }

  /** A successful `add` seen through the finder: the new email finds the user with the id
      `add` set; every other email finds what it did. */
  lemma AddRefines(t: Db, user: User, email: string)
    requires AddUser(t, user).Ok?
    ensures var (t', id) := AddUser(t, user).value;
            && t'.options == t.options && t'.fields == t.fields
            && FindByEmail(t', email) ==
               if email == user.email
               then Some(user.(id := id, password := BlobToVec(BindPassword(user.password).value)))
               else FindByEmail(t, email)
  {
    var (t', id) := AddUser(t, user).value;
    var row := NextRowId(t.users.Keys);
    assert t'.users[row].email == user.email;
    var before := SelectUserId(t, email);
    if email == user.email {
      assert SelectUserId(t', email) == Some(row);
    } else if before.Some? {
      assert t'.users[before.value].email == email;
    }
  }

  ghost predicate UserIdsPositive(t: Db) {
    forall i :: i in t.users ==> i >= 1
  }

  /** The row a successful `add` leaves, and that it is the only new one. */
  lemma AddedRow(t: Db, user: User)
    requires AddUser(t, user).Ok? && |user.password| <= INT_MAX
    ensures var (t', id) := AddUser(t, user).value;
            var row := NextRowId(t.users.Keys);
            && id == GetInt(row)
            && t' == t.(users := t.users[row := UserRow(user.email, user.password, user.verification as int)])
  {
    assert user.password[..|user.password|] == user.password;
  }

  // ----- What the rows mean -----

  /** `user` is what row `i` says. */
  predicate IsRow(t: Db, i: int, user: User) {
    && i in t.users && user.id == GetInt(i) && user.email == t.users[i].email
    && user.password == BlobToVec(t.users[i].password)
    && user.verification as int == t.users[i].verification % 256
  }

  /** Both finders read off the rows: by email exactly the user of the row with that email,
      by id exactly the user of the row with that id. */
  lemma FindersReadRows(t: Db, email: string, id: Int32, user: User)
    ensures FindByEmail(t, email) == Some(user) <==> exists i :: IsRow(t, i, user) && user.email == email
    ensures FindUserById(t, id) == Some(user) <==> IsRow(t, id, user)
    ensures FindByEmail(t, email).None? <==> forall i :: i in t.users ==> t.users[i].email != email
    ensures FindUserById(t, id).None? <==> id !in t.users
  {
    if FindByEmail(t, email) == Some(user) {
      assert IsRow(t, SelectUserId(t, email).value, user);
    }
  }

  ghost predicate UserIdsInRange(t: Db) {
    forall i :: i in t.users ==> 1 <= i <= INT_MAX
  }

  /** Both finders tell the same story: a user found by email is found whole by its id; a
      user found by id carries that id and is found whole by its email; and an email or an
      id that finds nobody is in no row. */
  lemma UserFindersAgree(t: Db, email: string, id: Int32)
    requires UserIdsInRange(t)
    ensures match FindByEmail(t, email)
            case Some(user) => user.email == email && FindUserById(t, user.id) == Some(user)
            case None => forall i: Int32 :: FindUserById(t, i).Some? ==> FindUserById(t, i).value.email != email
    ensures match FindUserById(t, id)
            case Some(user) => user.id == id && FindByEmail(t, user.email) == Some(user)
            case None => id !in t.users
  {
    if id in t.users {
      assert SelectUserId(t, t.users[id].email) == Some(id as int);
    }
  }

  /** The id `add` hands out finds the new user exactly while row ids fit `int`; unlike the
      plugin storage, `add` does not check it. */
  lemma AddedIdFindsUserIff(t: Db, user: User)
    requires UserIdsPositive(t) && AddUser(t, user).Ok?
    ensures var (t', id) := AddUser(t, user).value;
            FindUserById(t', id).Some? && FindUserById(t', id).value.email == user.email
            <==> NextRowId(t.users.Keys) <= INT_MAX
  {
  }

  // ----- Handlers, one at a time -----

  datatype RegisterResult = Registered(id: Int32) | NotHashed | EmailTaken | RegisterThrew
  datatype GoogleResult = SignedUp(id: Int32) | AlreadyRegistered(id: Int32) | KeyRejected | Refused | GoogleThrew

  function NewUser(email: string, password: Bytes, verification: VerificationMethod): User {
    User(0, email, password, verification)
  }

  /** RegisterUserHandler; `hash` is the hasher's answer, None for its error. */
  function Register(t: Db, email: string, hash: Option<Bytes>): (Db, RegisterResult) {
    if hash.None? then (t, NotHashed)
    else match AddUser(t, NewUser(email, hash.value, PASSWORD))
         case Ok((t1, id)) => (t1, Registered(id))
         case Err(Constraint) => (t, EmailTaken)
         case Err(Other) => (t, RegisterThrew)
  }

  /** AuthUserViaGoogleHandler; `email` is the key handler's answer, None for its error. */
  function SignIn(t: Db, email: Option<string>): (Db, GoogleResult) {
    if email.None? then (t, KeyRejected)
    else match FindByEmail(t, email.value)
         case Some(user) => (t, AlreadyRegistered(user.id))
         case None =>
           match AddUser(t, NewUser(email.value, [], GOOGLE))
           case Ok((t1, id)) => (t1, SignedUp(id))
           case Err(Constraint) => (t, Refused)
           case Err(Other) => (t, GoogleThrew)
  }

  /** LoginUserHandler; `verify` is the hasher's `verify` of the command's password. */
  function Login(found: Option<User>, verify: Bytes -> bool): Option<Int32> {
    if found.None? || !verify(found.value.password) then None else Some(found.value.id)
  }

  // ----- What the handlers answer -----

  /** Every answer of a registration, from the hash and the rows alone. */
  lemma RegisterAnswersIff(t: Db, email: string, hash: Option<Bytes>)
    ensures var r := Register(t, email, hash).1;
            var taken := exists i :: i in t.users && t.users[i].email == email;
            && (r == NotHashed <==> hash == None)
            && (r == RegisterThrew <==> hash.Some? && GetInt(|hash.value|) < 0)
            && (r == EmailTaken <==> hash.Some? && GetInt(|hash.value|) >= 0 && taken)
            && (r.Registered? <==> hash.Some? && GetInt(|hash.value|) >= 0 && !taken)
            && (r.Registered? ==> r.id == GetInt(NextRowId(t.users.Keys)))
  {
  }

  /** What a registration stores: one row, with the password method's byte 0, and nothing
      unless it reports it. */
  lemma RegisterStores(t: Db, email: string, hash: Option<Bytes>)
    ensures var (t', r) := Register(t, email, hash);
            && (!r.Registered? ==> t' == t)
            && (r.Registered? && |hash.value| <= INT_MAX ==>
                  && t' == t.(users := t.users[NextRowId(t.users.Keys) := UserRow(email, hash.value, 0)])
                  && FindByEmail(t', email) == Some(User(r.id, email, hash.value, PASSWORD)))
  {
    if Register(t, email, hash).1.Registered? {
      AddRefines(t, User(0, email, hash.value, PASSWORD), email);
      PasswordRoundTrip(hash.value);
      assert |hash.value| <= INT_MAX ==> hash.value[..|hash.value|] == hash.value;
    }
  }

  /** Every answer of a sign-in that runs alone, from the rows alone. */
  lemma SignInAnswersIff(t: Db, keyEmail: Option<string>)
    ensures var r := SignIn(t, keyEmail).1;
            && (r == KeyRejected <==> keyEmail == None)
            && (r.SignedUp? <==> keyEmail.Some? && forall i :: i in t.users ==> t.users[i].email != keyEmail.value)
            && (r.SignedUp? ==> r.id == GetInt(NextRowId(t.users.Keys)))
            && (forall i :: i in t.users && keyEmail == Some(t.users[i].email) ==> r == AlreadyRegistered(GetInt(i)))
            && r != Refused && r != GoogleThrew
  {
  }

  /** What a sign-in stores: one row, with an empty password and the Google method's byte 1,
      and nothing unless it signs up. */
  lemma SignInStores(t: Db, keyEmail: Option<string>)
    ensures var (t', r) := SignIn(t, keyEmail);
            && (!r.SignedUp? ==> t' == t)
            && (r.SignedUp? ==>
                  && t' == t.(users := t.users[NextRowId(t.users.Keys) := UserRow(keyEmail.value, [], 1)])
                  && FindByEmail(t', keyEmail.value) == Some(User(r.id, keyEmail.value, [], GOOGLE)))
  {
    if SignIn(t, keyEmail).1.SignedUp? {
      AddRefines(t, User(0, keyEmail.value, [], GOOGLE), keyEmail.value);
      PasswordRoundTrip([]);
    }
  }

  /** A login is told an id exactly when a row has its email and the hasher accepts the bytes
      stored there, and the id is that row's; otherwise it is told nothing. */
  lemma LoginMeans(t: Db, email: string, verify: Bytes -> bool, id: Int32)
    ensures Login(FindByEmail(t, email), verify) == Some(id) <==> LogsIn(t, email, verify, id)
  {
  }

  ghost predicate LogsIn(t: Db, email: string, verify: Bytes -> bool, id: Int32) {
    exists i :: i in t.users && t.users[i].email == email && verify(BlobToVec(t.users[i].password)) && id == GetInt(i)
  }
}
