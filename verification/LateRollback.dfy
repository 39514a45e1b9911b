/** The worst a second mutex does: the ROLLBACK that a refused sign-in's transaction object
    issues late ends somebody else's transaction. */
module LateRollback {
  import opened Domain
  import opened Schema
  import opened Sqlite
  import Engine
  import opened PluginStore
  import opened UserStore
  import opened History
  import opened Interleaving
  import opened Serialisability
  import opened Progress
  import opened Walks
  import opened SharedConnection

  // ----- The race -----

  const USER := NewUser(EMAIL, [], GOOGLE)
  const SIGNED: Db := Tables(map[], map[], map[1 := UserRow(EMAIL, [], 1)])
  const COMMITTED: Connection<Db> := Connection(SIGNED, [])
  const BEGUN: Connection<Db> := Connection(SIGNED, [Begun(SIGNED)])

  const WON := GoogleDone(SignedUp(1))
  const LOST := GoogleDone(Refused)

  lemma EmailGetsTaken()
    ensures AddUser(EMPTY, USER) == Ok((SIGNED, 1)) && AddUser(SIGNED, USER) == Err(Constraint)
  {
    assert SIGNED.users[1].email == EMAIL;
  }

  const ADDED := Savepoint(OPEN, ADD_GUARD).(tables := SIGNED)
  const KEPT := OPEN.(tables := SIGNED)

  lemma SignInInserts(t: Db)
    ensures Leads(SIGNER, Local(StartAdd, Connection(t, []), []),
                  Local(InAdd(InsertRow), Savepoint(Connection(t, [Begun(t)]), ADD_GUARD), []))
  {
    var l, begun := Local(StartAdd, Connection(t, []), []), Connection(t, [Begun(t)]);
    Onward(SIGNER, l, l, Local(OpenTx, l.conn, []));
    Onward(SIGNER, l, Local(OpenTx, l.conn, []), Local(EnterAdd, begun, []));
    Onward(SIGNER, l, Local(EnterAdd, begun, []), Local(InAdd(OpenAddGuard), begun, []));
    Onward(SIGNER, l, Local(InAdd(OpenAddGuard), begun, []), Local(InAdd(InsertRow), Savepoint(begun, ADD_GUARD), []));
  }

  lemma WinnerReleases()
    ensures Leads(SIGNER, Local(StartAdd, CLOSED, []), Local(LeaveInner(CommitTx(WON)), KEPT, []))
  {
    var l := Local(StartAdd, CLOSED, []);
    SignInInserts(EMPTY);
    EmailGetsTaken();
    Engine.GuardBrackets(OPEN, SIGNED, ADD_GUARD);
    Onward(SIGNER, l, Local(InAdd(InsertRow), Savepoint(OPEN, ADD_GUARD), []), Local(ReleaseGuard(ADD_GUARD, WON), ADDED, []));
    Onward(SIGNER, l, Local(ReleaseGuard(ADD_GUARD, WON), ADDED, []), Local(LeaveInner(CommitTx(WON)), KEPT, []));
  }

  lemma WinnerLeavesAdd()
    ensures Leads(SIGNER, Local(StartAdd, CLOSED, []), Local(At(CommitTx(WON)), KEPT, []))
  {
    WinnerReleases();
    Onward(SIGNER, Local(StartAdd, CLOSED, []), Local(LeaveInner(CommitTx(WON)), KEPT, []), Local(At(CommitTx(WON)), KEPT, []));
  }

  lemma WinnerSignsUp()
    ensures Leads(SIGNER, Local(StartAdd, CLOSED, []), Local(Done(WON), COMMITTED, [Adding(USER)]))
  {
    var l := Local(StartAdd, CLOSED, []);
    WinnerLeavesAdd();
    Onward(SIGNER, l, Local(At(CommitTx(WON)), KEPT, []), Local(Leave(WON), COMMITTED, [Adding(USER)]));
    Onward(SIGNER, l, Local(Leave(WON), COMMITTED, [Adding(USER)]), Local(Done(WON), COMMITTED, [Adding(USER)]));
  }

  lemma LoserIsRefused()
    ensures Leads(SIGNER, Local(StartAdd, COMMITTED, []), Local(LeaveInner(RollbackTx(LOST)), BEGUN, []))
  {
    var l, refused := Local(StartAdd, COMMITTED, []), UndoTheGuard(ADD_GUARD, RollbackTx(LOST));
    SignInInserts(SIGNED);
    EmailGetsTaken();
    Engine.GuardBrackets(BEGUN, SIGNED, ADD_GUARD);
    Onward(SIGNER, l, Local(InAdd(InsertRow), Savepoint(BEGUN, ADD_GUARD), []), Local(refused, Savepoint(BEGUN, ADD_GUARD), []));
    Onward(SIGNER, l, Local(refused, Savepoint(BEGUN, ADD_GUARD), []), Local(LeaveInner(RollbackTx(LOST)), BEGUN, []));
  }

  /** The loser has rolled back, but its transaction object has yet to issue a ROLLBACK of
      its own. */
  lemma LoserRollsBack()
    ensures Leads(SIGNER, Local(StartAdd, COMMITTED, []), Local(At(ResetTx(LOST)), COMMITTED, []))
  {
    var l := Local(StartAdd, COMMITTED, []);
    LoserIsRefused();
    Onward(SIGNER, l, Local(LeaveInner(RollbackTx(LOST)), BEGUN, []), Local(At(RollbackTx(LOST)), BEGUN, []));
    Onward(SIGNER, l, Local(At(RollbackTx(LOST)), BEGUN, []), Local(At(ResetTx(LOST)), COMMITTED, []));
  }

  lemma LoserEnds()
    ensures Leads(SIGNER, Local(At(ResetTx(LOST)), Savepoint(BEGUN, UPDATE_GUARD), []), Local(Done(LOST), COMMITTED, []))
  {
    var l := Local(At(ResetTx(LOST)), Savepoint(BEGUN, UPDATE_GUARD), []);
    Onward(SIGNER, l, l, Local(Leave(LOST), COMMITTED, []));
    Onward(SIGNER, l, Local(Leave(LOST), COMMITTED, []), Local(Done(LOST), COMMITTED, []));
  }

  const OPTION := PluginOptions(0, 7, "editor", true, false, map[])
  const ROW := OptionRow(7, "editor", 1, 0)
  const STORED: Db := Tables(map[1 := ROW], map[], map[1 := UserRow(EMAIL, [], 1)])
  const WRITTEN: Connection<Db> := Connection(STORED, [])

  lemma PostFinds()
    ensures Leads(WRITER, Local(Start, COMMITTED, []), Local(InPost(FindRow), BEGUN, []))
  {
    var l := Local(Start, COMMITTED, []);
    Onward(WRITER, l, l, Local(OpenTx, COMMITTED, []));
    Onward(WRITER, l, Local(OpenTx, COMMITTED, []), Local(EnterFind, BEGUN, []));
    Onward(WRITER, l, Local(EnterFind, BEGUN, []), Local(InPost(FindRow), BEGUN, []));
  }

  lemma PostFindsNothing()
    ensures Leads(WRITER, Local(Start, COMMITTED, []), Local(At(EnterUpdate(OPTION)), BEGUN, []))
  {
    var l := Local(Start, COMMITTED, []);
    PostFinds();
    assert SelectOptionId(SIGNED, POST.GetKey()) == None;
    Onward(WRITER, l, Local(InPost(FindRow), BEGUN, []), Local(LeaveInner(EnterUpdate(OPTION)), BEGUN, []));
    Onward(WRITER, l, Local(LeaveInner(EnterUpdate(OPTION)), BEGUN, []), Local(At(EnterUpdate(OPTION)), BEGUN, []));
  }

  lemma PostOpensGuard()
    ensures Leads(WRITER, Local(Start, COMMITTED, []), Local(InPost(UpsertRow(OPTION)), Savepoint(BEGUN, UPDATE_GUARD), []))
  {
    var l, open := Local(Start, COMMITTED, []), Local(InPost(OpenGuard(OPTION)), BEGUN, []);
    PostFindsNothing();
    Onward(WRITER, l, Local(At(EnterUpdate(OPTION)), BEGUN, []), open);
    Onward(WRITER, l, open, Local(InPost(UpsertRow(OPTION)), Savepoint(BEGUN, UPDATE_GUARD), []));
  }

  /** Without its transaction POST's statements commit one by one... */
  lemma PostWritesAlone()
    ensures Leads(WRITER, Local(InPost(UpsertRow(OPTION)), COMMITTED, []), Local(ReleaseGuard(UPDATE_GUARD, Posted), WRITTEN, []))
  {
    var l := Local(InPost(UpsertRow(OPTION)), COMMITTED, []);
    assert STORED.options[1] == ROW;
    Onward(WRITER, l, l, Local(InPost(SelectId(OPTION)), WRITTEN, []));
    Onward(WRITER, l, Local(InPost(SelectId(OPTION)), WRITTEN, []), Local(InPost(DeleteRows(OPTION, 1)), WRITTEN, []));
    Onward(WRITER, l, Local(InPost(DeleteRows(OPTION, 1)), WRITTEN, []), Local(ReleaseGuard(UPDATE_GUARD, Posted), WRITTEN, []));
  }

  lemma NoGuardLeft(name: string)
    ensures Sqlite.Release(WRITTEN, name).Err? && UndoGuard(WRITTEN, name) == WRITTEN
  {
  }

  /** ...until RELEASE finds no guard. */
  lemma PostMissesGuard()
    ensures Leads(WRITER, Local(InPost(UpsertRow(OPTION)), COMMITTED, []), Local(UndoTheGuard(UPDATE_GUARD, ResetTx(PostThrew)), WRITTEN, []))
  {
    PostWritesAlone();
    NoGuardLeft(UPDATE_GUARD);
    Onward(WRITER, Local(InPost(UpsertRow(OPTION)), COMMITTED, []),
           Local(ReleaseGuard(UPDATE_GUARD, Posted), WRITTEN, []), Local(UndoTheGuard(UPDATE_GUARD, ResetTx(PostThrew)), WRITTEN, []));
  }

  lemma PostUnwinds()
    ensures Leads(WRITER, Local(InPost(UpsertRow(OPTION)), COMMITTED, []), Local(LeaveInner(ResetTx(PostThrew)), WRITTEN, []))
  {
    PostMissesGuard();
    NoGuardLeft(UPDATE_GUARD);
    Onward(WRITER, Local(InPost(UpsertRow(OPTION)), COMMITTED, []),
           Local(UndoTheGuard(UPDATE_GUARD, ResetTx(PostThrew)), WRITTEN, []), Local(LeaveInner(ResetTx(PostThrew)), WRITTEN, []));
  }

  lemma PostLeavesUpdate()
    ensures Leads(WRITER, Local(InPost(UpsertRow(OPTION)), COMMITTED, []), Local(At(ResetTx(PostThrew)), WRITTEN, []))
  {
    PostUnwinds();
    Onward(WRITER, Local(InPost(UpsertRow(OPTION)), COMMITTED, []),
           Local(LeaveInner(ResetTx(PostThrew)), WRITTEN, []), Local(At(ResetTx(PostThrew)), WRITTEN, []));
  }

  lemma PostThrows()
    ensures Leads(WRITER, Local(InPost(UpsertRow(OPTION)), COMMITTED, []), Local(Done(PostThrew), WRITTEN, []))
  {
    var l := Local(InPost(UpsertRow(OPTION)), COMMITTED, []);
    PostLeavesUpdate();
    Onward(WRITER, l, Local(At(ResetTx(PostThrew)), WRITTEN, []), Local(Leave(PostThrew), WRITTEN, []));
    Onward(WRITER, l, Local(Leave(PostThrew), WRITTEN, []), Local(Done(PostThrew), WRITTEN, []));
  }

  /** A POST and two sign-ins with the same email. */
  function PostAndRace(m: nat, n: nat): seq<Role> {
    [Role(m, WRITER), Role(n, SIGNER), Role(n, SIGNER)]
  }

  const LOG := [Entry(1, Adding(USER))]

  lemma RaceIssued(m: nat, n: nat)
    ensures Possible(PostAndRace(m, n), View(CLOSED, [Start, Start, Start], []))
  {
    BothIssued(m, n);
    Issue(PostAndSignIn(m, n), View(CLOSED, [Start, Start], []), Role(n, SIGNER), PostAndRace(m, n),
          View(CLOSED, [Start, Start, Start], []));
  }

  lemma LoserChecks(m: nat, n: nat)
    ensures Possible(PostAndRace(m, n), View(CLOSED, [Start, Start, StartAdd], []))
  {
    RaceIssued(m, n);
    SignInChecks(CLOSED);
    Walk(PostAndRace(m, n), View(CLOSED, [Start, Start, Start], []), 2, Local(StartAdd, CLOSED, []),
         View(CLOSED, [Start, Start, StartAdd], []));
  }

  lemma BothCheck(m: nat, n: nat)
    ensures Possible(PostAndRace(m, n), View(CLOSED, [Start, StartAdd, StartAdd], []))
  {
    LoserChecks(m, n);
    SignInChecks(CLOSED);
    Walk(PostAndRace(m, n), View(CLOSED, [Start, Start, StartAdd], []), 1, Local(StartAdd, CLOSED, []),
         View(CLOSED, [Start, StartAdd, StartAdd], []));
  }

  lemma WinnerWins(m: nat, n: nat)
    ensures Possible(PostAndRace(m, n), View(COMMITTED, [Start, Done(WON), StartAdd], LOG))
  {
    BothCheck(m, n);
    WinnerSignsUp();
    assert [] + Entries(1, [Adding(USER)]) == LOG;
    Walk(PostAndRace(m, n), View(CLOSED, [Start, StartAdd, StartAdd], []), 1, Local(Done(WON), COMMITTED, [Adding(USER)]),
         View(COMMITTED, [Start, Done(WON), StartAdd], LOG));
  }

  lemma LoserLoses(m: nat, n: nat)
    requires m != n
    ensures Possible(PostAndRace(m, n), View(COMMITTED, [Start, Done(WON), At(ResetTx(LOST))], LOG))
  {
    WinnerWins(m, n);
    LoserRollsBack();
    Walk(PostAndRace(m, n), View(COMMITTED, [Start, Done(WON), StartAdd], LOG), 2, Local(At(ResetTx(LOST)), COMMITTED, []),
         View(COMMITTED, [Start, Done(WON), At(ResetTx(LOST))], LOG));
  }

  lemma PostFollowsRace(m: nat, n: nat)
    requires m != n
    ensures Possible(PostAndRace(m, n),
                     View(Savepoint(BEGUN, UPDATE_GUARD), [InPost(UpsertRow(OPTION)), Done(WON), At(ResetTx(LOST))], LOG))
  {
    var guarded := Savepoint(BEGUN, UPDATE_GUARD);
    LoserLoses(m, n);
    PostOpensGuard();
    Walk(PostAndRace(m, n), View(COMMITTED, [Start, Done(WON), At(ResetTx(LOST))], LOG), 0,
         Local(InPost(UpsertRow(OPTION)), guarded, []),
         View(guarded, [InPost(UpsertRow(OPTION)), Done(WON), At(ResetTx(LOST))], LOG));
  }

  /** The late ROLLBACK ends POST's transaction, guard and all. */
  lemma LoserMeetsPost(m: nat, n: nat)
    requires m != n
    ensures Possible(PostAndRace(m, n), View(COMMITTED, [InPost(UpsertRow(OPTION)), Done(WON), Done(LOST)], LOG))
  {
    PostFollowsRace(m, n);
    LoserEnds();
    Walk(PostAndRace(m, n),
         View(Savepoint(BEGUN, UPDATE_GUARD), [InPost(UpsertRow(OPTION)), Done(WON), At(ResetTx(LOST))], LOG), 2,
         Local(Done(LOST), COMMITTED, []),
         View(COMMITTED, [InPost(UpsertRow(OPTION)), Done(WON), Done(LOST)], LOG));
  }

  lemma PostMeetsLoser(m: nat, n: nat)
    requires m != n
    ensures Possible(PostAndRace(m, n), View(WRITTEN, [Done(PostThrew), Done(WON), Done(LOST)], LOG))
  {
    LoserMeetsPost(m, n);
    PostThrows();
    Walk(PostAndRace(m, n), View(COMMITTED, [InPost(UpsertRow(OPTION)), Done(WON), Done(LOST)], LOG), 0,
         Local(Done(PostThrew), WRITTEN, []), View(WRITTEN, [Done(PostThrew), Done(WON), Done(LOST)], LOG));
  }

  lemma OnlyTheWinnerCommitted()
    ensures Store(LOG) == SIGNED
    ensures FindByKey(STORED, POST.GetKey()).Some? && FindByKey(SIGNED, POST.GetKey()).None?
  {
    assert STORED.options[1] == ROW;
    EmailGetsTaken();
    StoreGrows([], LOG[0]);
    assert Effects([]) == [] && [] + [LOG[0]] == LOG;
  }

  /** The end of the run. */
  ghost predicate PostLostItsGuard(s: State) {
    && AllDone(s) && |s.threads| == 3
    && s.threads[0].cmd == PostCmd(POST) && s.threads[0].pc == Done(PostThrew)
    && (forall i :: 0 <= i < |s.log| ==> s.log[i].tid != 0)
    && FindByKey(s.conn.Durable(), POST.GetKey()).Some? && FindByKey(Store(s.log), POST.GetKey()).None?
  }

  lemma EndShows(s: State, m: nat, n: nat)
    requires Shows(s, PostAndRace(m, n), View(WRITTEN, [Done(PostThrew), Done(WON), Done(LOST)], LOG))
    ensures PostLostItsGuard(s)
  {
    OnlyTheWinnerCommitted();
  }

  /** Atomicity is lost too: over any two mutexes there is a run without faults in which
      everybody returns, a POST throws and has committed nothing, and yet its option is
      durable. */
  lemma FailedPostStaysDurable(m: nat, n: nat) returns (events: seq<Event>)
    requires m != n
    ensures Bring(events, {m, n}) && forall i :: 0 <= i < |events| && events[i].Advance? ==> !events[i].fault
    ensures PostLostItsGuard(Run(INIT, events))
  {
    PostMeetsLoser(m, n);
    events :| Reached(events, PostAndRace(m, n), View(WRITTEN, [Done(PostThrew), Done(WON), Done(LOST)], LOG));
    OnlyBrings(events, PostAndRace(m, n), View(WRITTEN, [Done(PostThrew), Done(WON), Done(LOST)], LOG), {m, n});
    EndShows(Run(INIT, events), m, n);
  }
}
