/** Any number of threads running the handlers at once over one connection, one database
    command or mutex operation at a time. Each thread brings the mutex of the storage it
    works on; the theorems are in Serialisability. */
module Interleaving {
  import opened Domain
  import opened Schema
  import opened Sqlite
  import opened PluginStore
  import opened UserStore
  import opened History

  datatype Command =
    | PostCmd(post: PostCommand)
    | GetCmd(key: Key)
    | RegisterCmd(email: string, hash: Option<Bytes>)
    | GoogleCmd(keyEmail: Option<string>)
    | LoginCmd(loginEmail: string, verify: Bytes -> bool)

  datatype Response =
    | Posted | PostThrew
    | Got(found: Option<PluginOptions>) | GetThrew
    | RegisterDone(register: RegisterResult)
    | GoogleDone(google: GoogleResult)
    | LoggedIn(userId: Option<Int32>) | LoginThrew
  {
    /** The responses that report a committed change. */
    predicate Wins() {
      Posted? || (RegisterDone? && register.Registered?) || (GoogleDone? && google.SignedUp?)
    }
  }

  /** The response that stands for an exception leaving `execute`. */
  function Threw(cmd: Command): Response {
    match cmd
    case PostCmd(_) => PostThrew
    case GetCmd(_) => GetThrew
    case RegisterCmd(_, _) => RegisterDone(RegisterThrew)
    case GoogleCmd(_) => GoogleDone(GoogleThrew)
    case LoginCmd(_, _) => LoginThrew
  }

  /** The user a registration or sign-in adds. */
  function AddedUser(cmd: Command): User {
    match cmd
    case RegisterCmd(email, Some(hash)) => NewUser(email, hash, PASSWORD)
    case GoogleCmd(Some(email)) => NewUser(email, [], GOOGLE)
    case _ => NewUser("", [], PASSWORD)
  }

  function EffectOf(cmd: Command): Effect {
    if cmd.PostCmd? then Posting(cmd.post) else Adding(AddedUser(cmd))
  }

  const UPDATE_GUARD := "plugin_options_update"
  const ADD_GUARD := "users_add"

  /** Inside the unit of work, with the nested lock_guard of a finder or writer given back. */
  datatype Exit =
    | EnterUpdate(po: PluginOptions)
    | CommitTx(resp: Response)
    | RollbackTx(resp: Response)
    | ResetTx(resp: Response)            // ~Transaction, if uncommitted

  /** Inside POST's find and update, under their lock_guard. */
  datatype PostStep =
    | FindRow
    | FindFields(po: PluginOptions)
    | OpenGuard(po: PluginOptions)
    | UpsertRow(po: PluginOptions)
    | SelectId(po: PluginOptions)
    | DeleteRows(po: PluginOptions, id: Int32)
    | InsertOneField(po: PluginOptions, id: Int32, rest: set<string>)

  /** Inside `add`, under its lock_guard. */
  datatype AddStep = OpenAddGuard | InsertRow

  /** Where a thread is: the name says what it does next. */
  datatype Pc =
    | Start
    | LookRow                            // a lookup under the storage's own lock_guard
    | LookFields(po: PluginOptions)
    | LeaveLookup                        // Google only: nobody found
    | StartAdd
    | OpenTx
    | EnterFind
    | EnterAdd
    | At(exit: Exit)
    | InPost(post: PostStep)
    | InAdd(add: AddStep)
    | ReleaseGuard(name: string, resp: Response)
    | UndoTheGuard(name: string, next: Exit)      // ~SavepointGuard
    | LeaveInner(next: Exit)                      // give back the nested lock_guard
    | Leave(resp: Response)
    | Done(resp: Response)

  /** How often a thread at `pc` holds its mutex. */
  function Depth(pc: Pc): nat {
    match pc
    case Start => 0
    case StartAdd => 0
    case Done(_) => 0
    case InPost(_) => 2
    case InAdd(_) => 2
    case ReleaseGuard(_, _) => 2
    case UndoTheGuard(_, _) => 2
    case LeaveInner(_) => 2
    case _ => 1
  }

  datatype LockUse = Keep | Acquire | Release

  /** One move of one thread: where it goes, what it does to the connection and to its
      mutex, and the effect it commits, if it does. */
  datatype Turn = Turn(pc: Pc, conn: Connection<Db>, lock: LockUse, logged: Option<Effect>)

  function Go(pc: Pc, conn: Connection<Db>): Turn { Turn(pc, conn, Keep, None) }

  /** Leaving `update` or `add` by an exception: the guard's destructor, the lock_guard's,
      and then the unit of work's. */
  function Unwind(cmd: Command, name: string): Pc {
    UndoTheGuard(name, ResetTx(Threw(cmd)))
  }

  function NextField(po: PluginOptions, id: Int32, rest: set<string>): Pc {
    if rest == {} then ReleaseGuard(UPDATE_GUARD, Posted) else InPost(InsertOneField(po, id, rest))
  }

  /** Moves of a lookup: GET, login, and Google's check before its unit of work. */
  function LookupTurn(cmd: Command, pc: Pc, conn: Connection<Db>, fault: bool): Turn
    requires pc.LookRow? || pc.LookFields?
  {
    if fault then Go(Leave(Threw(cmd)), conn)
    else if pc.LookFields? then
      Go(Leave(Got(Some(pc.po.(fields := SelectFields(conn.tables, pc.po.id))))), conn)
    else match cmd
         case GetCmd(key) =>
           (match SelectOptionId(conn.tables, key)
            case None => Go(Leave(Got(None)), conn)
            case Some(i) => Go(LookFields(LoadRow(conn.tables, i)), conn))
         case LoginCmd(email, verify) => Go(Leave(LoggedIn(Login(FindByEmail(conn.tables, email), verify))), conn)
         case GoogleCmd(Some(email)) =>
           (match FindByEmail(conn.tables, email)
            case Some(user) => Go(Leave(GoogleDone(AlreadyRegistered(user.id))), conn)
            case None => Go(LeaveLookup, conn))
         case _ => Go(Leave(Threw(cmd)), conn)
  }

  function OpenTurn(cmd: Command, conn: Connection<Db>, fault: bool): Turn {
    if fault || Begin(conn).Err? then Go(Leave(Threw(cmd)), conn)
    else if cmd.PostCmd? then Go(EnterFind, Begin(conn).value)
    else if cmd.RegisterCmd? && cmd.hash.None? then Go(At(RollbackTx(RegisterDone(NotHashed))), Begin(conn).value)
    else Go(EnterAdd, Begin(conn).value)
  }

  /** Moves of the unit of work after its work, and the step into `update`. */
  function ExitTurn(cmd: Command, exit: Exit, conn: Connection<Db>, fault: bool): Turn {
    match exit
    case EnterUpdate(po) => Turn(InPost(OpenGuard(po)), conn, Acquire, None)
    case CommitTx(resp) =>
      if fault || Commit(conn).Err? then Go(At(ResetTx(Threw(cmd))), conn)
      else Turn(Leave(resp), Commit(conn).value, Keep, Some(EffectOf(cmd)))
    case RollbackTx(resp) =>
      if fault || Rollback(conn).Err? then Go(At(ResetTx(Threw(cmd))), conn)
      else Go(At(ResetTx(resp)), Rollback(conn).value)
    case ResetTx(resp) => Go(Leave(resp), UndoTransaction(conn))
  }

  /** Moves of POST inside its find and its update. */
  function PostTurn(post: PostCommand, step: PostStep, conn: Connection<Db>, fault: bool, pick: string): Turn {
    var unwind := Go(Unwind(PostCmd(post), UPDATE_GUARD), conn);
    match step
    case FindRow =>
      if fault then Go(LeaveInner(ResetTx(PostThrew)), conn)
      else (match SelectOptionId(conn.tables, post.GetKey())
            case None => Go(LeaveInner(EnterUpdate(Merge(None, post))), conn)
            case Some(i) => Go(InPost(FindFields(LoadRow(conn.tables, i))), conn))
    case FindFields(po) =>
      if fault then Go(LeaveInner(ResetTx(PostThrew)), conn)
      else Go(LeaveInner(EnterUpdate(Merge(Some(po.(fields := SelectFields(conn.tables, po.id))), post))), conn)
    case OpenGuard(po) =>
      if fault then Go(LeaveInner(ResetTx(PostThrew)), conn)
      else Go(InPost(UpsertRow(po)), Savepoint(conn, UPDATE_GUARD))
    case UpsertRow(po) =>
      if fault then unwind
      else if po.id > 0 then
        (match UpsertById(conn.tables, po.id, ToRow(po))
         case Err(_) => unwind
         case Ok(t) => Go(InPost(DeleteRows(po, po.id)), conn.(tables := t)))
      else Go(InPost(SelectId(po)), conn.(tables := UpsertByKey(conn.tables, ToRow(po))))
    case SelectId(po) =>
      var id := match SelectOptionId(conn.tables, po.GetKey()) case None => 0 case Some(i) => GetInt(i);
      if fault || id <= 0 then unwind else Go(InPost(DeleteRows(po, id)), conn)
    case DeleteRows(po, id) =>
      if fault then unwind
      else Go(NextField(po, id, po.fields.Keys), conn.(tables := DeleteFields(conn.tables, id)))
    case InsertOneField(po, id, rest) =>
      if fault || pick !in po.fields then unwind
      else (match InsertField(conn.tables, id, pick, po.fields[pick])
            case Err(_) => unwind
            case Ok(t) => Go(NextField(po, id, rest - {pick}), conn.(tables := t)))
  }

  /** The responses of `add` itself. */
  function AddResponse(cmd: Command, id: Int32): Response {
    if cmd.RegisterCmd? then RegisterDone(Registered(id)) else GoogleDone(SignedUp(id))
  }

  function TakenResponse(cmd: Command): Response {
    if cmd.RegisterCmd? then RegisterDone(EmailTaken) else GoogleDone(Refused)
  }

  function AddTurn(cmd: Command, step: AddStep, conn: Connection<Db>, fault: bool): Turn {
    match step
    case OpenAddGuard =>
      if fault then Go(LeaveInner(ResetTx(Threw(cmd))), conn)
      else Go(InAdd(InsertRow), Savepoint(conn, ADD_GUARD))
    case InsertRow =>
      if fault then Go(Unwind(cmd, ADD_GUARD), conn)
      else (match AddUser(conn.tables, AddedUser(cmd))
            case Ok((t, id)) => Go(ReleaseGuard(ADD_GUARD, AddResponse(cmd, id)), conn.(tables := t))
            case Err(Constraint) => Go(UndoTheGuard(ADD_GUARD, RollbackTx(TakenResponse(cmd))), conn)
            case Err(Other) => Go(Unwind(cmd, ADD_GUARD), conn))
  }

  function ReleaseTurn(cmd: Command, name: string, resp: Response, conn: Connection<Db>, fault: bool): Turn {
    if fault || Sqlite.Release(conn, name).Err? then Go(Unwind(cmd, name), conn)
    else Go(LeaveInner(CommitTx(resp)), Sqlite.Release(conn, name).value)
  }

  function TakeTurn(cmd: Command, pc: Pc, conn: Connection<Db>, fault: bool, pick: string): Turn {
    match pc
    case Start =>
      if cmd.GoogleCmd? && cmd.keyEmail.None? then Go(Done(GoogleDone(KeyRejected)), conn)
      else Turn(if cmd.PostCmd? || cmd.RegisterCmd? then OpenTx else LookRow, conn, Acquire, None)
    case LookRow => LookupTurn(cmd, pc, conn, fault)
    case LookFields(_) => LookupTurn(cmd, pc, conn, fault)
    case LeaveLookup => Turn(StartAdd, conn, Release, None)
    case StartAdd => Turn(OpenTx, conn, Acquire, None)
    case OpenTx => OpenTurn(cmd, conn, fault)
    case EnterFind => Turn(InPost(FindRow), conn, Acquire, None)
    case EnterAdd => Turn(InAdd(OpenAddGuard), conn, Acquire, None)
    case At(exit) => ExitTurn(cmd, exit, conn, fault)
    case InPost(step) => if cmd.PostCmd? then PostTurn(cmd.post, step, conn, fault, pick) else Go(pc, conn)
    case InAdd(step) => AddTurn(cmd, step, conn, fault)
    case ReleaseGuard(name, resp) => ReleaseTurn(cmd, name, resp, conn, fault)
    case UndoTheGuard(name, next) => Go(LeaveInner(next), UndoGuard(conn, name))
    case LeaveInner(next) => Turn(At(next), conn, Release, None)
    case Leave(resp) => Turn(Done(resp), conn, Release, None)
    case Done(_) => Go(pc, conn)
  }

  /** The commands an injected fault can strike; mutex operations and destructors are not
      among them. */
  predicate Faultable(pc: Pc) {
    match pc
    case LookRow => true
    case LookFields(_) => true
    case OpenTx => true
    case At(exit) => exit.CommitTx? || exit.RollbackTx?
    case InPost(_) => true
    case InAdd(_) => true
    case ReleaseGuard(_, _) => true
    case _ => false
  }

  // ----- The whole system -----

  /** A held recursive mutex. */
  datatype Hold = Hold(owner: nat, depth: nat)

  datatype Entry = Entry(tid: nat, effect: Effect)

  /** `born`, `checked` and `point` are log lengths: at the thread's start, when it left
      Google's check, and when it last moved under its mutex. `faulted` says whether a fault
      has struck it. */
  datatype Thread = Thread(lock: nat, cmd: Command, born: nat, checked: nat, point: nat, faulted: bool, pc: Pc)

  /** `locks` has an entry for each mutex that is held; `log` records commits in order. */
  datatype State = State(conn: Connection<Db>, locks: map<nat, Hold>, threads: seq<Thread>, log: seq<Entry>)

  const INIT: State := State(Connection(EMPTY, []), map[], [], [])

  /** What the scheduler may choose: a new thread, or a move of an old one, with or without
      a fault, and which field the insert loop visits next. */
  datatype Event =
    | Invoke(lock: nat, cmd: Command)
    | Advance(tid: nat, fault: bool, pick: string)

  predicate Enabled(s: State, tid: nat, pick: string) {
    && tid < |s.threads|
    && var th := s.threads[tid];
       && !th.pc.Done?
       && (TakeTurn(th.cmd, th.pc, s.conn, false, pick).lock.Acquire? && th.lock in s.locks ==> s.locks[th.lock].owner == tid)
       && (th.pc.InPost? && th.pc.post.InsertOneField? ==> pick in th.pc.post.rest)
  }

  function UseLock(locks: map<nat, Hold>, lock: nat, tid: nat, use: LockUse): map<nat, Hold> {
    match use
    case Keep => locks
    case Acquire => locks[lock := Hold(tid, if lock in locks then locks[lock].depth + 1 else 1)]
    case Release =>
      if lock !in locks || locks[lock].depth <= 1 then locks - {lock}
      else locks[lock := Hold(tid, locks[lock].depth - 1)]
  }

  /** An event that is not possible leaves the state as it is. */
  function Step(s: State, e: Event): State {
    match e
    case Invoke(lock, cmd) =>
      s.(threads := s.threads + [Thread(lock, cmd, |s.log|, |s.log|, |s.log|, false, Start)])
    case Advance(tid, fault, pick) =>
      if !Enabled(s, tid, pick) then s
      else
        var th := s.threads[tid];
        var turn := TakeTurn(th.cmd, th.pc, s.conn, fault, pick);
        State(
          turn.conn,
          UseLock(s.locks, th.lock, tid, turn.lock),
          s.threads[tid := th.(pc := turn.pc,
                              checked := if th.pc.LeaveLookup? then |s.log| else th.checked,
                              point := if Depth(th.pc) > 0 && turn.lock.Keep? then |s.log| else th.point,
                              faulted := th.faulted || (fault && Faultable(th.pc)))],
          if turn.logged.Some? then s.log + [Entry(tid, turn.logged.value)] else s.log)
  }

  function Run(s: State, events: seq<Event>): State {
    if events == [] then s else Step(Run(s, events[..|events| - 1]), events[|events| - 1])
  }
}
