/** Progress, whoever brings which mutex: nobody is stuck, every move uses up work, and any run
    can be finished, after which no mutex is held and nothing is open. */
module Progress {
  import opened Domain
  import opened Schema
  import opened Sqlite
  import opened Interleaving
  import opened Locks
  import opened Turns
  import opened Serialisability

  /** How many fields a command has to insert. */
  function FieldCount(cmd: Command): nat {
    if cmd.PostCmd? then |cmd.post.fields.Keys| else 0
  }

  function ExitRank(exit: Exit): nat {
    match exit
    case ResetTx(_) => 2
    case RollbackTx(_) => 3
    case CommitTx(_) => 3
    case EnterUpdate(po) => 10 + |po.fields.Keys|
  }

  function PostRank(step: PostStep, fields: nat): nat {
    match step
    case InsertOneField(_, _, rest) => 5 + |rest|
    case DeleteRows(po, _) => 6 + |po.fields.Keys|
    case SelectId(po) => 7 + |po.fields.Keys|
    case UpsertRow(po) => 8 + |po.fields.Keys|
    case OpenGuard(po) => 9 + |po.fields.Keys|
    case FindFields(_) => 12 + fields
    case FindRow => 13 + fields
  }

  /** An upper bound on the moves a thread has left. */
  function Rank(cmd: Command, pc: Pc): nat {
    match pc
    case Done(_) => 0
    case Leave(_) => 1
    case LookFields(_) => 2
    case At(exit) => ExitRank(exit)
    case LeaveInner(next) => 1 + ExitRank(next)
    case UndoTheGuard(_, next) => 2 + ExitRank(next)
    case ReleaseGuard(_, _) => 5
    case InPost(step) => PostRank(step, FieldCount(cmd))
    case InAdd(step) => if step.InsertRow? then 6 else 7
    case EnterAdd => 8
    case EnterFind => 14 + FieldCount(cmd)
    case OpenTx => 15 + FieldCount(cmd)
    case StartAdd => 16 + FieldCount(cmd)
    case LeaveLookup => 17 + FieldCount(cmd)
    case LookRow => 18 + FieldCount(cmd)
    case Start => 19 + FieldCount(cmd)
  }

  lemma FindTurnsCount(cmd: Command, step: PostStep, conn: Connection<Db>, fault: bool)
    requires cmd.PostCmd? && (step.FindRow? || step.FindFields? || step.OpenGuard?)
    ensures Rank(cmd, PostTurn(cmd.post, step, conn, fault, "").pc) < Rank(cmd, InPost(step))
  {
  }

  lemma UpsertTurnsCount(cmd: Command, step: PostStep, conn: Connection<Db>, fault: bool)
    requires cmd.PostCmd? && (step.UpsertRow? || step.SelectId?)
    ensures Rank(cmd, PostTurn(cmd.post, step, conn, fault, "").pc) < Rank(cmd, InPost(step))
  {
  }

  lemma NextFieldRank(cmd: Command, po: PluginOptions, id: Int32, rest: set<string>)
    ensures Rank(cmd, NextField(po, id, rest)) == 5 + |rest|
    ensures Rank(cmd, Unwind(cmd, UPDATE_GUARD)) == 4
  {
  }

  lemma DeleteTurnsCount(cmd: Command, po: PluginOptions, id: Int32, conn: Connection<Db>, fault: bool)
    requires cmd.PostCmd?
    ensures Rank(cmd, PostTurn(cmd.post, DeleteRows(po, id), conn, fault, "").pc) < Rank(cmd, InPost(DeleteRows(po, id)))
  {
    NextFieldRank(cmd, po, id, po.fields.Keys);
  }

  lemma InsertTurnsCount(cmd: Command, po: PluginOptions, id: Int32, rest: set<string>, conn: Connection<Db>, fault: bool, pick: string)
    requires cmd.PostCmd? && pick in rest
    ensures Rank(cmd, PostTurn(cmd.post, InsertOneField(po, id, rest), conn, fault, pick).pc)
              < Rank(cmd, InPost(InsertOneField(po, id, rest)))
  {
  }

  lemma PostTurnsCount(cmd: Command, step: PostStep, conn: Connection<Db>, fault: bool, pick: string)
    requires cmd.PostCmd? && (step.InsertOneField? ==> pick in step.rest)
    ensures Rank(cmd, PostTurn(cmd.post, step, conn, fault, pick).pc) < Rank(cmd, InPost(step))
  {
    match step
    case DeleteRows(po, id) => DeleteTurnsCount(cmd, po, id, conn, fault);
    case InsertOneField(po, id, rest) => InsertTurnsCount(cmd, po, id, rest, conn, fault, pick);
    case UpsertRow(_) => UpsertTurnsCount(cmd, step, conn, fault);
    case SelectId(_) => UpsertTurnsCount(cmd, step, conn, fault);
    case _ => FindTurnsCount(cmd, step, conn, fault);
  }

  lemma AddTurnsCount(cmd: Command, step: AddStep, conn: Connection<Db>, fault: bool)
    ensures Rank(cmd, AddTurn(cmd, step, conn, fault).pc) < Rank(cmd, InAdd(step))
  {
  }

  lemma LookupTurnsCount(cmd: Command, pc: Pc, conn: Connection<Db>, fault: bool)
    requires pc.LookRow? || pc.LookFields?
    ensures Rank(cmd, LookupTurn(cmd, pc, conn, fault).pc) < Rank(cmd, pc)
  {
  }

  lemma UnitTurnsCount(cmd: Command, pc: Pc, conn: Connection<Db>, fault: bool)
    requires pc.OpenTx? || pc.ReleaseGuard?
    ensures Rank(cmd, TakeTurn(cmd, pc, conn, fault, "").pc) < Rank(cmd, pc)
  {
  }

  lemma ExitTurnsCount(cmd: Command, exit: Exit, conn: Connection<Db>, fault: bool)
    ensures Rank(cmd, ExitTurn(cmd, exit, conn, fault).pc) < ExitRank(exit)
  {
  }

  lemma LockTurnsCount(cmd: Command, pc: Pc, conn: Connection<Db>, fault: bool)
    requires pc.Start? || pc.LeaveLookup? || pc.StartAdd? || pc.EnterFind? || pc.EnterAdd?
    ensures Rank(cmd, TakeTurn(cmd, pc, conn, fault, "").pc) < Rank(cmd, pc)
  {
  }

  lemma LeaveTurnsCount(cmd: Command, pc: Pc, conn: Connection<Db>, fault: bool)
    requires pc.UndoTheGuard? || pc.LeaveInner? || pc.Leave?
    ensures Rank(cmd, TakeTurn(cmd, pc, conn, fault, "").pc) < Rank(cmd, pc)
  {
  }

  /** Every possible move, faulty or not, uses up rank. */
  lemma TurnsCount(cmd: Command, pc: Pc, conn: Connection<Db>, fault: bool, pick: string)
    requires !pc.Done? && (pc.InPost? ==> cmd.PostCmd?)
    requires pc.InPost? && pc.post.InsertOneField? ==> pick in pc.post.rest
    ensures Rank(cmd, TakeTurn(cmd, pc, conn, fault, pick).pc) < Rank(cmd, pc)
  {
    match pc
    case InPost(step) => PostTurnsCount(cmd, step, conn, fault, pick);
    case InAdd(step) => AddTurnsCount(cmd, step, conn, fault);
    case LookRow => LookupTurnsCount(cmd, pc, conn, fault);
    case LookFields(_) => LookupTurnsCount(cmd, pc, conn, fault);
    case OpenTx => UnitTurnsCount(cmd, pc, conn, fault);
    case At(exit) => ExitTurnsCount(cmd, exit, conn, fault);
    case ReleaseGuard(_, _) => UnitTurnsCount(cmd, pc, conn, fault);
    case UndoTheGuard(_, _) => LeaveTurnsCount(cmd, pc, conn, fault);
    case LeaveInner(_) => LeaveTurnsCount(cmd, pc, conn, fault);
    case Leave(_) => LeaveTurnsCount(cmd, pc, conn, fault);
    case _ => LockTurnsCount(cmd, pc, conn, fault);
  }

  /** The moves all threads together have left at most. */
  function Work(threads: seq<Thread>): nat {
    if threads == [] then 0
    else Work(threads[..|threads| - 1]) + Rank(threads[|threads| - 1].cmd, threads[|threads| - 1].pc)
  }

  lemma {:induction false} WorkOfOne(threads: seq<Thread>, tid: nat, th: Thread)
    requires tid < |threads| && th.cmd == threads[tid].cmd
    ensures Work(threads[tid := th]) == Work(threads) - Rank(threads[tid].cmd, threads[tid].pc) + Rank(th.cmd, th.pc)
  {
    var last := |threads| - 1;
    var threads' := threads[tid := th];
    if tid == last {
      assert threads'[..last] == threads[..last];
    } else {
      assert threads'[..last] == threads[..last][tid := th];
      WorkOfOne(threads[..last], tid, th);
    }
  }

  /** Work only shrinks, whoever moves and whatever fails. */
  lemma MovesUseUpWork(s: State, tid: nat, fault: bool, pick: string)
    requires Disciplined(s) && Enabled(s, tid, pick)
    ensures Work(Step(s, Advance(tid, fault, pick)).threads) < Work(s.threads)
  {
    var s', th := Step(s, Advance(tid, fault, pick)), s.threads[tid];
    assert Placed(s.threads, s.locks, tid);
    TurnsCount(th.cmd, th.pc, s.conn, fault, pick);
    WorkOfOne(s.threads, tid, s'.threads[tid]);
  }

  ghost predicate AllDone(s: State) {
    forall tid :: 0 <= tid < |s.threads| ==> s.threads[tid].pc.Done?
  }

  /** While somebody is unfinished, somebody can move: the owner of a held mutex, or anyone
      if all are free. */
  lemma SomebodyCanMove(s: State) returns (tid: nat, pick: string)
    requires Disciplined(s) && !AllDone(s)
    ensures Enabled(s, tid, pick)
  {
    pick := "";
    if m :| m in s.locks {
      tid := s.locks[m].owner;
      assert Owned(s.threads, s.locks, m);
    } else {
      tid :| 0 <= tid < |s.threads| && !s.threads[tid].pc.Done?;
    }
    assert Placed(s.threads, s.locks, tid);
    var pc := s.threads[tid].pc;
    if pc.InPost? && pc.post.InsertOneField? {
      pick :| pick in pc.post.rest;
    }
  }

  /** Everybody has returned, every hold on every mutex has been given back and the
      connection has nothing open. */
  ghost predicate AtRest(s: State) {
    AllDone(s) && s.locks == map[] && s.conn.frames == []
  }

  lemma DoneIsAtRest(s: State)
    requires Disciplined(s) && AllDone(s)
    ensures AtRest(s)
  {
    forall m | m in s.locks
      ensures Owned(s.threads, s.locks, m) && Placed(s.threads, s.locks, s.locks[m].owner)
    {
    }
  }

  /** With one mutex the tables are then the commits, one at a time. */
  lemma RestIsSerial(events: seq<Event>, m: nat)
    requires OneMutex(events, m) && AllDone(Run(INIT, events))
    ensures AtRest(Run(INIT, events)) && Run(INIT, events).conn.tables == Store(Run(INIT, events).log)
  {
    RunKeepsDiscipline(events);
    DoneIsAtRest(Run(INIT, events));
    CommittedIsSerial(events, m);
  }

  lemma {:induction false} RunSplits(s: State, first: seq<Event>, second: seq<Event>)
    ensures Run(s, first + second) == Run(Run(s, first), second)
  {
    if second == [] {
      assert first + second == first;
    } else {
      var all, before := first + second, second[..|second| - 1];
      assert all[..|all| - 1] == first + before;
      RunSplits(s, first, before);
    }
  }

  ghost predicate NoNewCommands(events: seq<Event>) {
    forall i :: 0 <= i < |events| ==> events[i].Advance?
  }

  /** The events of a schedule that move a thread. */
  function Moves(s: State, events: seq<Event>): nat {
    if events == [] then 0
    else
      var before, e := events[..|events| - 1], events[|events| - 1];
      Moves(s, before) + if e.Advance? && Enabled(Run(s, before), e.tid, e.pick) then 1 else 0
  }

  /** No endless work: a schedule without new commands, however long and whatever fails in
      it, moves threads no more often than there was work. */
  lemma {:induction false} MovesAreBounded(s: State, events: seq<Event>)
    requires Disciplined(s) && NoNewCommands(events)
    ensures Moves(s, events) + Work(Run(s, events).threads) <= Work(s.threads)
    ensures Disciplined(Run(s, events))
  {
    if events != [] {
      var before, e := events[..|events| - 1], events[|events| - 1];
      MovesAreBounded(s, before);
      StepKeepsDiscipline(Run(s, before), e);
      if Enabled(Run(s, before), e.tid, e.pick) {
        MovesUseUpWork(Run(s, before), e.tid, e.fault, e.pick);
      }
    }
  }

  /** A continuation in which nobody comes and nothing fails. */
  ghost predicate Finishes(s: State, more: seq<Event>) {
    && |more| <= Work(s.threads) && NoNewCommands(more) && (forall i :: 0 <= i < |more| ==> !more[i].fault)
    && AtRest(Run(s, more))
  }

  /** From every state of the discipline, all threads under way can be brought to an end in
      no more moves than their work. */
  lemma {:induction false} CanFinish(s: State) returns (more: seq<Event>)
    requires Disciplined(s)
    ensures Finishes(s, more)
    decreases Work(s.threads)
  {
    if AllDone(s) {
      more := [];
      DoneIsAtRest(s);
    } else {
      var tid, pick := SomebodyCanMove(s);
      var e := Advance(tid, false, pick);
      MovesUseUpWork(s, tid, false, pick);
      StepKeepsDiscipline(s, e);
      var rest := CanFinish(Step(s, e));
      RunSplits(s, [e], rest);
      assert Run(s, [e]) == Step(s, e) by {
        assert [e][..0] == [];
      }
      more := [e] + rest;
    }
  }

  /** Every reachable state can be finished, whoever brings which mutex: no deadlock, no
      endless work, and nothing held or open at the end. */
  lemma EveryRunCanFinish(events: seq<Event>)
    ensures exists more: seq<Event> :: Finishes(Run(INIT, events), more)
    ensures forall more: seq<Event> :: NoNewCommands(more) ==> Moves(Run(INIT, events), more) <= Work(Run(INIT, events).threads)
  {
    RunKeepsDiscipline(events);
    var more := CanFinish(Run(INIT, events));
    forall rest: seq<Event> | NoNewCommands(rest)
      ensures Moves(Run(INIT, events), rest) <= Work(Run(INIT, events).threads)
    {
      MovesAreBounded(Run(INIT, events), rest);
    }
  }
}
