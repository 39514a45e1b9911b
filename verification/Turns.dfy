/** One thread of the interleaving while it holds the mutex: what the connection looks like
    at every point, and what every single move does to it. */
module Turns {
  import opened Domain
  import opened Schema
  import opened Sqlite
  import opened PluginStore
  import opened UserStore
  import opened History
  import opened Interleaving

  // ----- Responses -----

  /** What a command answers when it runs alone on `t` and nothing throws from outside. */
  function Solo(cmd: Command, t: Db): Response {
    match cmd
    case PostCmd(post) => if Post(t, post).Ok? then Posted else PostThrew
    case GetCmd(key) => Got(FindByKey(t, key))
    case RegisterCmd(email, hash) => RegisterDone(Register(t, email, hash).1)
    case GoogleCmd(keyEmail) => GoogleDone(SignIn(t, keyEmail).1)
    case LoginCmd(email, verify) => LoggedIn(Login(FindByEmail(t, email), verify))
  }

  /** What else a command may answer on `t` among others: an exception, once a fault has
      struck it; or Google's Refused, when the email it had found free is taken by now. */
  ghost predicate Explained(cmd: Command, resp: Response, t: Db, faulted: bool) {
    || resp == Solo(cmd, t)
    || (resp == Threw(cmd) && faulted)
    || (resp == GoogleDone(Refused) && LostRace(cmd, t))
  }

  ghost predicate LostRace(cmd: Command, t: Db) {
    cmd.GoogleCmd? && cmd.keyEmail.Some? && FindByEmail(t, cmd.keyEmail.value).Some?
  }

  // ----- One thread under its mutex -----

  /** `base` is what is committed while the thread holds the mutex. */
  ghost predicate Idle(conn: Connection<Db>, base: Db) {
    conn.frames == [] && conn.tables == base
  }

  ghost predicate InTx(conn: Connection<Db>, base: Db) {
    conn.frames == [Begun(base)]
  }

  ghost predicate InGuard(conn: Connection<Db>, base: Db, name: string) {
    conn.frames == [Begun(base), Saved(name, base)]
  }

  /** The command's effect is complete in the tables and `resp` reports it. */
  ghost predicate Finished(cmd: Command, resp: Response, t: Db, base: Db) {
    && !cmd.GetCmd? && !cmd.LoginCmd?
    && EffectOf(cmd).Succeeds(base) && t == Apply(base, EffectOf(cmd))
    && resp.Wins() && Explained(cmd, resp, base, false)
  }

  ghost predicate Failing(cmd: Command, resp: Response, base: Db, faulted: bool) {
    !resp.Wins() && Explained(cmd, resp, base, faulted)
  }

  /** The option POST hands to `update`. */
  ghost predicate Merged(cmd: Command, po: PluginOptions, base: Db) {
    cmd.PostCmd? && po == Merge(FindByKey(base, cmd.post.GetKey()), cmd.post)
  }

  ghost predicate Adds(cmd: Command) {
    (cmd.RegisterCmd? && cmd.hash.Some?) || (cmd.GoogleCmd? && cmd.keyEmail.Some?)
  }

  ghost predicate RowOf(key: Key, po: PluginOptions, base: Db) {
    SelectOptionId(base, key).Some? && po == LoadRow(base, SelectOptionId(base, key).value)
  }

  ghost predicate AtExit(cmd: Command, exit: Exit, conn: Connection<Db>, base: Db, faulted: bool) {
    match exit
    case EnterUpdate(po) => InTx(conn, base) && conn.tables == base && Merged(cmd, po, base)
    case CommitTx(resp) => InTx(conn, base) && Finished(cmd, resp, conn.tables, base)
    case RollbackTx(resp) => InTx(conn, base) && Failing(cmd, resp, base, faulted)
    case ResetTx(resp) => (InTx(conn, base) || Idle(conn, base)) && Failing(cmd, resp, base, faulted)
  }

  ghost predicate AtPost(cmd: Command, step: PostStep, conn: Connection<Db>, base: Db)
    requires cmd.PostCmd?
  {
    match step
    case FindRow => InTx(conn, base) && conn.tables == base
    case FindFields(po) => InTx(conn, base) && conn.tables == base && RowOf(cmd.post.GetKey(), po, base)
    case OpenGuard(po) => InTx(conn, base) && conn.tables == base && Merged(cmd, po, base)
    case UpsertRow(po) => InGuard(conn, base, UPDATE_GUARD) && conn.tables == base && Merged(cmd, po, base)
    case SelectId(po) =>
      InGuard(conn, base, UPDATE_GUARD) && Merged(cmd, po, base) && po.id <= 0 && conn.tables == UpsertByKey(base, ToRow(po))
    case DeleteRows(po, id) =>
      InGuard(conn, base, UPDATE_GUARD) && Merged(cmd, po, base) && id > 0 && UpsertAndGetId(base, po) == Ok((conn.tables, id))
    case InsertOneField(po, id, rest) =>
      && InGuard(conn, base, UPDATE_GUARD) && Merged(cmd, po, base)
      && rest != {} && SomeInserted(base, po, id, rest, conn.tables)
  }

  ghost predicate AtAdd(step: AddStep, conn: Connection<Db>, base: Db) {
    conn.tables == base && if step.OpenAddGuard? then InTx(conn, base) else InGuard(conn, base, ADD_GUARD)
  }

  /** Every place under the mutex, and how far the connection is from `base` there. */
  ghost predicate Mid(cmd: Command, pc: Pc, conn: Connection<Db>, base: Db, faulted: bool) {
    && (cmd.GoogleCmd? ==> cmd.keyEmail.Some?)
    && match pc
       case LookRow => Idle(conn, base) && (cmd.GetCmd? || cmd.LoginCmd? || cmd.GoogleCmd?)
       case LookFields(po) => Idle(conn, base) && cmd.GetCmd? && RowOf(cmd.key, po, base)
       case LeaveLookup => Idle(conn, base) && cmd.GoogleCmd? && FindByEmail(base, cmd.keyEmail.value).None?
       case OpenTx => Idle(conn, base) && (cmd.PostCmd? || cmd.RegisterCmd? || cmd.GoogleCmd?)
       case EnterFind => InTx(conn, base) && conn.tables == base && cmd.PostCmd?
       case EnterAdd => InTx(conn, base) && conn.tables == base && Adds(cmd)
       case At(exit) => AtExit(cmd, exit, conn, base, faulted)
       case InPost(step) => cmd.PostCmd? && AtPost(cmd, step, conn, base)
       case InAdd(step) => Adds(cmd) && AtAdd(step, conn, base)
       case ReleaseGuard(name, resp) => InGuard(conn, base, name) && Finished(cmd, resp, conn.tables, base)
       case UndoTheGuard(name, next) =>
         InGuard(conn, base, name) && (next.RollbackTx? || next.ResetTx?) && Failing(cmd, next.resp, base, faulted)
       case LeaveInner(next) => AtExit(cmd, next, conn, base, faulted)
       case Leave(_) => Idle(conn, base)
       case _ => false
  }

  /** The upsert is done and the fields outside `rest` are in. */
  ghost predicate SomeInserted(base: Db, po: PluginOptions, id: Int32, rest: set<string>, t: Db) {
    && id > 0 && UpsertAndGetId(base, po).Ok? && rest <= po.fields.Keys
    && var (t1, got) := UpsertAndGetId(base, po).value;
       got == id && Inserted(t1, id, po.fields - rest, t)
  }

  /** What a move under the mutex leaves behind. */
  ghost predicate Follows(cmd: Command, pc: Pc, turn: Turn, base: Db, faulted: bool) {
    match turn
    case Turn(next, conn, lock, logged) =>
      && (logged.None? ==> if Depth(next) > 0 then Mid(cmd, next, conn, base, faulted) else Idle(conn, base))
      && (logged.Some? ==>
            && logged.value == EffectOf(cmd) && logged.value.Succeeds(base)
            && next.Leave? && Idle(conn, Apply(base, EffectOf(cmd))))
      && (next.Leave? ==>
            Explained(cmd, next.resp, base, faulted) && lock.Keep? && (next.resp.Wins() <==> logged.Some?))
      && (next.Done? ==> pc.Leave? && pc.resp == next.resp)
      && Depth(next) == Depth(pc) + (if lock.Acquire? then 1 else if lock.Release? then -1 else 0)
      && (next.StartAdd? ==> Adds(cmd)) && !next.Start?
  }

  lemma LookupFollows(cmd: Command, pc: Pc, conn: Connection<Db>, base: Db, faulted: bool, fault: bool)
    requires pc.LookRow? || pc.LookFields?
    requires Mid(cmd, pc, conn, base, faulted)
    ensures Follows(cmd, pc, LookupTurn(cmd, pc, conn, fault), base, faulted || fault)
  {
  }

  /** An exception is a failing answer once a fault has struck. */
  lemma ThrowingFails(cmd: Command, base: Db)
    requires cmd.GoogleCmd? ==> cmd.keyEmail.Some?
    ensures Failing(cmd, Threw(cmd), base, true)
  {
  }

  /** A move that keeps its holds and the picture. */
  lemma GoFollows(cmd: Command, pc: Pc, next: Pc, conn: Connection<Db>, base: Db, faulted: bool)
    requires Depth(pc) == Depth(next) == 2 && Mid(cmd, next, conn, base, faulted)
    ensures Follows(cmd, pc, Go(next, conn), base, faulted)
  {
  }

  lemma OpenFollows(cmd: Command, conn: Connection<Db>, base: Db, faulted: bool, fault: bool)
    requires Mid(cmd, OpenTx, conn, base, faulted)
    ensures Follows(cmd, OpenTx, OpenTurn(cmd, conn, fault), base, faulted || fault)
  {
  }

  lemma CommitFollows(cmd: Command, resp: Response, conn: Connection<Db>, base: Db, faulted: bool, fault: bool)
    requires Mid(cmd, At(CommitTx(resp)), conn, base, faulted)
    ensures Follows(cmd, At(CommitTx(resp)), ExitTurn(cmd, CommitTx(resp), conn, fault), base, faulted || fault)
  {
  }

  lemma ExitFollows(cmd: Command, exit: Exit, conn: Connection<Db>, base: Db, faulted: bool, fault: bool)
    requires Mid(cmd, At(exit), conn, base, faulted)
    ensures Follows(cmd, At(exit), ExitTurn(cmd, exit, conn, fault), base, faulted || (fault && Faultable(At(exit))))
  {
    match exit
    case CommitTx(resp) => CommitFollows(cmd, resp, conn, base, faulted, fault);
    case RollbackTx(_) => ThrowingFails(cmd, base);
    case _ =>
  }

  // ----- Guards -----

  lemma ReleasedFollows(cmd: Command, name: string, resp: Response, conn: Connection<Db>, base: Db, faulted: bool)
    requires Mid(cmd, ReleaseGuard(name, resp), conn, base, faulted)
    ensures Follows(cmd, ReleaseGuard(name, resp), ReleaseTurn(cmd, name, resp, conn, false), base, faulted)
  {
  }

  /** An exception while a guard is open. */
  lemma UnwindFollows(cmd: Command, pc: Pc, name: string, conn: Connection<Db>, base: Db)
    requires InGuard(conn, base, name) && Depth(pc) == 2 && (cmd.GoogleCmd? ==> cmd.keyEmail.Some?)
    ensures Follows(cmd, pc, Go(Unwind(cmd, name), conn), base, true)
  {
  }

  lemma ReleaseFollows(cmd: Command, name: string, resp: Response, conn: Connection<Db>, base: Db, faulted: bool, fault: bool)
    requires Mid(cmd, ReleaseGuard(name, resp), conn, base, faulted)
    ensures Follows(cmd, ReleaseGuard(name, resp), ReleaseTurn(cmd, name, resp, conn, fault), base, faulted || fault)
  {
    if fault {
      UnwindFollows(cmd, ReleaseGuard(name, resp), name, conn, base);
    } else {
      ReleasedFollows(cmd, name, resp, conn, base, faulted);
    }
  }

  lemma UndoFollows(cmd: Command, name: string, next: Exit, conn: Connection<Db>, base: Db, faulted: bool)
    requires Mid(cmd, UndoTheGuard(name, next), conn, base, faulted)
    ensures Follows(cmd, UndoTheGuard(name, next), Go(LeaveInner(next), UndoGuard(conn, name)), base, faulted)
  {
  }

  // ----- Adding a user -----

  /** Whatever `add` says, the response made of it is one the command may give. */
  lemma AddAnswers(cmd: Command, base: Db)
    requires Adds(cmd)
    ensures match AddUser(base, AddedUser(cmd))
            case Ok((t, id)) => Finished(cmd, AddResponse(cmd, id), t, base)
            case Err(Constraint) => Failing(cmd, TakenResponse(cmd), base, false)
            case Err(Other) => Failing(cmd, Threw(cmd), base, false)
  {
  }

  lemma AddFollows(cmd: Command, step: AddStep, conn: Connection<Db>, base: Db, faulted: bool, fault: bool)
    requires Mid(cmd, InAdd(step), conn, base, faulted)
    ensures Follows(cmd, InAdd(step), AddTurn(cmd, step, conn, fault), base, faulted || fault)
  {
    var turn := AddTurn(cmd, step, conn, fault);
    if fault {
      ThrowingFails(cmd, base);
    } else if step.InsertRow? {
      AddAnswers(cmd, base);
    }
    GoFollows(cmd, InAdd(step), turn.pc, turn.conn, base, faulted || fault);
  }

  // ----- POST, statement by statement -----

  /** When an exception ends POST: a fault struck, or the update it had decided on cannot be
      done on these tables. */
  lemma PostFails(cmd: Command, base: Db, faulted: bool)
    requires cmd.PostCmd? && (faulted || Post(base, cmd.post).Err?)
    ensures Failing(cmd, Threw(cmd), base, faulted)
  {
  }

  /** The find, up to opening the guard of the update. */
  lemma FindKeeps(cmd: Command, step: PostStep, conn: Connection<Db>, base: Db, fault: bool)
    requires cmd.PostCmd? && AtPost(cmd, step, conn, base) && (step.FindRow? || step.FindFields? || step.OpenGuard?)
    ensures var turn := PostTurn(cmd.post, step, conn, fault, "");
            Mid(cmd, turn.pc, turn.conn, base, fault)
  {
  }

  lemma UpsertKeeps(cmd: Command, step: PostStep, conn: Connection<Db>, base: Db, fault: bool)
    requires cmd.PostCmd? && AtPost(cmd, step, conn, base) && (step.UpsertRow? || step.SelectId?)
    ensures var turn := PostTurn(cmd.post, step, conn, fault, "");
            Mid(cmd, turn.pc, turn.conn, base, fault)
  {
    if fault || Post(base, cmd.post).Err? {
      PostFails(cmd, base, fault);
    }
  }

  /** With all its fields in, the update is complete. */
  lemma NextFieldKeeps(cmd: Command, po: PluginOptions, id: Int32, rest: set<string>, conn: Connection<Db>, base: Db)
    requires InGuard(conn, base, UPDATE_GUARD) && Merged(cmd, po, base) && SomeInserted(base, po, id, rest, conn.tables)
    ensures Mid(cmd, NextField(po, id, rest), conn, base, false)
  {
    if rest == {} {
      assert po.fields - rest == po.fields;
      assert Post(base, cmd.post) == Ok(conn.tables);
    }
  }

  lemma DeleteKeeps(cmd: Command, po: PluginOptions, id: Int32, conn: Connection<Db>, base: Db, fault: bool)
    requires cmd.PostCmd? && AtPost(cmd, DeleteRows(po, id), conn, base)
    ensures var turn := PostTurn(cmd.post, DeleteRows(po, id), conn, fault, "");
            Mid(cmd, turn.pc, turn.conn, base, fault)
  {
  }

  lemma InsertKeeps(cmd: Command, po: PluginOptions, id: Int32, rest: set<string>, conn: Connection<Db>, base: Db,
                    fault: bool, pick: string)
    requires cmd.PostCmd? && AtPost(cmd, InsertOneField(po, id, rest), conn, base) && pick in rest
    ensures var turn := PostTurn(cmd.post, InsertOneField(po, id, rest), conn, fault, pick);
            Mid(cmd, turn.pc, turn.conn, base, fault)
  {
    var t1, done := UpsertAndGetId(base, po).value.0, po.fields - rest;
    InsertOne(t1, id, done, conn.tables, pick, po.fields[pick]);
    var inserted := InsertField(conn.tables, id, pick, po.fields[pick]);
    if fault || inserted.Err? {
      assert po.fields != map[];
      PostFails(cmd, base, fault);
    } else {
      assert po.fields - (rest - {pick}) == done[pick := po.fields[pick]];
      NextFieldKeeps(cmd, po, id, rest - {pick}, conn.(tables := inserted.value), base);
    }
  }

  lemma PostKeeps(cmd: Command, step: PostStep, conn: Connection<Db>, base: Db, fault: bool, pick: string)
    requires cmd.PostCmd? && AtPost(cmd, step, conn, base) && (step.InsertOneField? ==> pick in step.rest)
    ensures var turn := PostTurn(cmd.post, step, conn, fault, pick);
            Mid(cmd, turn.pc, turn.conn, base, fault)
  {
    match step
    case UpsertRow(_) => UpsertKeeps(cmd, step, conn, base, fault);
    case SelectId(_) => UpsertKeeps(cmd, step, conn, base, fault);
    case DeleteRows(po, id) => DeleteKeeps(cmd, po, id, conn, base, fault);
    case InsertOneField(po, id, rest) => InsertKeeps(cmd, po, id, rest, conn, base, fault, pick);
    case _ => FindKeeps(cmd, step, conn, base, fault);
  }

  /** A fault earlier on takes nothing away from the picture. */
  lemma FaultedOrNot(cmd: Command, pc: Pc, conn: Connection<Db>, base: Db, fault: bool, faulted: bool)
    requires Mid(cmd, pc, conn, base, fault) && (fault ==> faulted)
    ensures Mid(cmd, pc, conn, base, faulted)
  {
  }

  lemma PostStaysInside(post: PostCommand, step: PostStep, conn: Connection<Db>, fault: bool, pick: string)
    ensures var turn := PostTurn(post, step, conn, fault, pick);
            turn == Go(turn.pc, turn.conn) && Depth(turn.pc) == 2
  {
  }

  lemma PostFollows(cmd: Command, step: PostStep, conn: Connection<Db>, base: Db, faulted: bool, fault: bool, pick: string)
    requires Mid(cmd, InPost(step), conn, base, faulted) && (step.InsertOneField? ==> pick in step.rest)
    ensures Follows(cmd, InPost(step), PostTurn(cmd.post, step, conn, fault, pick), base, faulted || fault)
  {
    PostKeeps(cmd, step, conn, base, fault, pick);
    PostStaysInside(cmd.post, step, conn, fault, pick);
    var turn := PostTurn(cmd.post, step, conn, fault, pick);
    FaultedOrNot(cmd, turn.pc, turn.conn, base, fault, faulted || fault);
    GoFollows(cmd, InPost(step), turn.pc, turn.conn, base, faulted || fault);
  }

  // ----- Every move under the mutex -----

  /** Taking or giving back a hold touches nothing else. */
  lemma LockMoveFollows(cmd: Command, pc: Pc, conn: Connection<Db>, base: Db, faulted: bool)
    requires Mid(cmd, pc, conn, base, faulted)
    requires pc.EnterFind? || pc.EnterAdd? || pc.LeaveInner? || pc.LeaveLookup? || pc.Leave?
    ensures Follows(cmd, pc, TakeTurn(cmd, pc, conn, false, ""), base, faulted)
  {
  }

  lemma TurnFollows(cmd: Command, pc: Pc, conn: Connection<Db>, base: Db, faulted: bool, fault: bool, pick: string)
    requires Mid(cmd, pc, conn, base, faulted) && Depth(pc) > 0
    requires pc.InPost? && pc.post.InsertOneField? ==> pick in pc.post.rest
    ensures Follows(cmd, pc, TakeTurn(cmd, pc, conn, fault, pick), base, faulted || (fault && Faultable(pc)))
  {
    match pc
    case LookRow => LookupFollows(cmd, pc, conn, base, faulted, fault);
    case LookFields(_) => LookupFollows(cmd, pc, conn, base, faulted, fault);
    case OpenTx => OpenFollows(cmd, conn, base, faulted, fault);
    case At(exit) => ExitFollows(cmd, exit, conn, base, faulted, fault);
    case InPost(step) => PostFollows(cmd, step, conn, base, faulted, fault, pick);
    case InAdd(step) => AddFollows(cmd, step, conn, base, faulted, fault);
    case ReleaseGuard(name, resp) => ReleaseFollows(cmd, name, resp, conn, base, faulted, fault);
    case UndoTheGuard(name, next) => UndoFollows(cmd, name, next, conn, base, faulted);
    case _ => LockMoveFollows(cmd, pc, conn, base, faulted);
  }

  /** Only COMMIT commits, and it leads straight to the unlock. */
  lemma CommitTurn(cmd: Command, pc: Pc, conn: Connection<Db>, base: Db, faulted: bool, fault: bool, pick: string)
    requires Mid(cmd, pc, conn, base, faulted) && Depth(pc) > 0
    requires TakeTurn(cmd, pc, conn, fault, pick).logged.Some?
    ensures var turn := TakeTurn(cmd, pc, conn, fault, pick);
            && pc.At? && pc.exit.CommitTx? && turn.pc == Leave(pc.exit.resp) && turn.lock.Keep? && turn.logged == Some(EffectOf(cmd))
            && Mid(cmd, turn.pc, turn.conn, Apply(base, EffectOf(cmd)), faulted || fault)
            && pc.exit.resp.Wins() && Explained(cmd, pc.exit.resp, base, faulted || fault)
  {
  }

  /** A move from outside the mutex: taking it, or an answer that needs no database. */
  lemma OutsideTurn(cmd: Command, pc: Pc, conn: Connection<Db>, fault: bool, pick: string)
    requires pc.Start? || pc.StartAdd?
    ensures var turn := TakeTurn(cmd, pc, conn, fault, pick);
            && turn.conn == conn && turn.logged == None
            && if turn.lock.Acquire? then turn.pc.OpenTx? || turn.pc.LookRow?
               else turn.lock.Keep? && turn.pc == Done(GoogleDone(KeyRejected)) && cmd == GoogleCmd(None)
  {
  }

  /** Taking the free mutex puts a thread at a place the connection is right for. */
  lemma FirstHold(cmd: Command, pc: Pc, conn: Connection<Db>, base: Db, faulted: bool, fault: bool, pick: string)
    requires Idle(conn, base) && (pc.Start? || (pc.StartAdd? && Adds(cmd)))
    ensures var turn := TakeTurn(cmd, pc, conn, fault, pick);
            turn.lock.Acquire? ==> Mid(cmd, turn.pc, turn.conn, base, faulted)
  {
  }

  /** Wherever the owner is, the durable tables are the ones it started from. */
  lemma DurableMeanwhile(cmd: Command, pc: Pc, conn: Connection<Db>, base: Db, faulted: bool)
    requires Mid(cmd, pc, conn, base, faulted)
    ensures conn.Durable() == base
  {
  }
}
