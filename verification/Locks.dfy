/** Lock discipline for any assignment of mutexes to threads: who holds what, where a thread
    can be, and who answers for an open transaction. */
module Locks {
  import opened Domain
  import opened Schema
  import opened Sqlite
  import opened PluginStore
  import opened Interleaving

  function Held(locks: map<nat, Hold>, m: nat, tid: nat): nat {
    if m in locks && locks[m].owner == tid then locks[m].depth else 0
  }

  /** Past BEGIN: the places that only a COMMIT or a ROLLBACK leaves. */
  predicate Inside(pc: Pc) {
    match pc
    case EnterFind => true
    case EnterAdd => true
    case At(_) => true
    case InPost(_) => true
    case InAdd(_) => true
    case ReleaseGuard(_, _) => true
    case UndoTheGuard(_, _) => true
    case LeaveInner(_) => true
    case _ => false
  }

  /** Only POST gets to the find and the update, and the insert loop has a field to insert. */
  predicate WellPlaced(cmd: Command, pc: Pc) {
    match pc
    case EnterFind => cmd.PostCmd?
    case InPost(step) => cmd.PostCmd? && (step.InsertOneField? ==> step.rest != {})
    case At(exit) => exit.EnterUpdate? ==> cmd.PostCmd?
    case LeaveInner(next) => next.EnterUpdate? ==> cmd.PostCmd?
    case UndoTheGuard(_, next) => !next.EnterUpdate?
    case _ => true
  }

  /** What every move does, whatever the connection looks like: depth follows the mutex, and
      whoever is not inside afterwards has touched nothing or left nothing open. */
  ghost predicate Sound(cmd: Command, pc: Pc, conn: Connection<Db>, turn: Turn) {
    && WellPlaced(cmd, turn.pc)
    && Depth(turn.pc) == Depth(pc) + (if turn.lock.Acquire? then 1 else if turn.lock.Release? then -1 else 0)
    && (!Inside(turn.pc) ==> turn.conn.frames == [] || (!Inside(pc) && turn.conn == conn))
  }

  lemma PostTurnIsSound(post: PostCommand, step: PostStep, conn: Connection<Db>, fault: bool, pick: string)
    ensures Sound(PostCmd(post), InPost(step), conn, PostTurn(post, step, conn, fault, pick))
  {
  }

  lemma InsideTurnIsSound(cmd: Command, pc: Pc, conn: Connection<Db>, fault: bool, pick: string)
    requires WellPlaced(cmd, pc) && (pc.At? || pc.InAdd? || pc.ReleaseGuard? || pc.UndoTheGuard? || pc.LeaveInner?)
    ensures Sound(cmd, pc, conn, TakeTurn(cmd, pc, conn, fault, pick))
  {
  }

  lemma OtherTurnIsSound(cmd: Command, pc: Pc, conn: Connection<Db>, fault: bool, pick: string)
    requires WellPlaced(cmd, pc) && (pc.EnterFind? || pc.EnterAdd? || (!Inside(pc) && !pc.Done?))
    ensures Sound(cmd, pc, conn, TakeTurn(cmd, pc, conn, fault, pick))
  {
  }

  lemma TurnIsSound(cmd: Command, pc: Pc, conn: Connection<Db>, fault: bool, pick: string)
    requires WellPlaced(cmd, pc) && !pc.Done?
    ensures Sound(cmd, pc, conn, TakeTurn(cmd, pc, conn, fault, pick))
  {
    if pc.InPost? {
      PostTurnIsSound(cmd.post, pc.post, conn, fault, pick);
    } else if pc.At? || pc.InAdd? || pc.ReleaseGuard? || pc.UndoTheGuard? || pc.LeaveInner? {
      InsideTurnIsSound(cmd, pc, conn, fault, pick);
    } else {
      OtherTurnIsSound(cmd, pc, conn, fault, pick);
    }
  }

  // ----- The invariant -----

  /** A thread holds its mutex as often as its place says. */
  ghost predicate Placed(threads: seq<Thread>, locks: map<nat, Hold>, tid: nat)
    requires tid < |threads|
  {
    var th := threads[tid];
    WellPlaced(th.cmd, th.pc) && Depth(th.pc) == Held(locks, th.lock, tid)
  }

  /** A held mutex is held by a thread that brought it. */
  ghost predicate Owned(threads: seq<Thread>, locks: map<nat, Hold>, m: nat)
    requires m in locks
  {
    locks[m].depth > 0 && locks[m].owner < |threads| && threads[locks[m].owner].lock == m
  }

  ghost predicate SomebodyInside(threads: seq<Thread>) {
    exists tid :: 0 <= tid < |threads| && Inside(threads[tid].pc)
  }

  ghost predicate Disciplined(s: State) {
    && (forall tid :: 0 <= tid < |s.threads| ==> Placed(s.threads, s.locks, tid))
    && (forall m :: m in s.locks ==> Owned(s.threads, s.locks, m))
    && (s.conn.frames != [] ==> SomebodyInside(s.threads))
  }

  lemma MoveKeepsPlaces(s: State, tid: nat, fault: bool, pick: string)
    requires Disciplined(s) && Enabled(s, tid, pick)
    ensures var s' := Step(s, Advance(tid, fault, pick));
            && (forall u :: 0 <= u < |s'.threads| ==> Placed(s'.threads, s'.locks, u))
            && (forall m :: m in s'.locks ==> Owned(s'.threads, s'.locks, m))
  {
    var s', th := Step(s, Advance(tid, fault, pick)), s.threads[tid];
    assert Placed(s.threads, s.locks, tid);
    TurnIsSound(th.cmd, th.pc, s.conn, fault, pick);
    forall u | 0 <= u < |s'.threads|
      ensures Placed(s'.threads, s'.locks, u)
    {
      assert Placed(s.threads, s.locks, u);
    }
  }

  /** Whoever leaves an open transaction leaves nothing open. */
  lemma MoveKeepsSomebody(s: State, tid: nat, fault: bool, pick: string)
    requires Disciplined(s) && Enabled(s, tid, pick)
    ensures var s' := Step(s, Advance(tid, fault, pick));
            s'.conn.frames != [] ==> SomebodyInside(s'.threads)
  {
    var s', th := Step(s, Advance(tid, fault, pick)), s.threads[tid];
    assert Placed(s.threads, s.locks, tid);
    TurnIsSound(th.cmd, th.pc, s.conn, fault, pick);
    if s'.conn.frames != [] {
      if Inside(s'.threads[tid].pc) {
        assert SomebodyInside(s'.threads);
      } else {
        var u :| 0 <= u < |s.threads| && Inside(s.threads[u].pc);
        assert s'.threads[u] == s.threads[u];
      }
    }
  }

  lemma StepKeepsDiscipline(s: State, e: Event)
    requires Disciplined(s)
    ensures Disciplined(Step(s, e))
  {
    var s' := Step(s, e);
    match e
    case Advance(tid, fault, pick) =>
      if Enabled(s, tid, pick) {
        MoveKeepsPlaces(s, tid, fault, pick);
        MoveKeepsSomebody(s, tid, fault, pick);
      }
    case Invoke(_, _) =>
      forall u | 0 <= u < |s'.threads|
        ensures Placed(s'.threads, s'.locks, u)
      {
        assert u < |s.threads| ==> Placed(s.threads, s.locks, u);
      }
      if s'.conn.frames != [] {
        var u :| 0 <= u < |s.threads| && Inside(s.threads[u].pc);
        assert s'.threads[u] == s.threads[u];
      }
  }

  /** The discipline holds after every interleaving, whoever brings which mutex. */
  lemma {:induction false} RunKeepsDiscipline(events: seq<Event>)
    ensures Disciplined(Run(INIT, events))
  {
    if events != [] {
      RunKeepsDiscipline(events[..|events| - 1]);
      StepKeepsDiscipline(Run(INIT, events[..|events| - 1]), events[|events| - 1]);
    }
  }

  /** Whoever brings which mutex, in every reachable state a thread holds its own exactly as
      often as its place says and no other, not at all once it has returned; a held mutex has
      an unfinished owner; and while anything is open some unfinished thread, holding its
      mutex, is there to close it. */
  lemma HoldsMatchPlaces(events: seq<Event>, tid: nat, m: nat)
    requires tid < |Run(INIT, events).threads|
    ensures var s := Run(INIT, events);
            var th := s.threads[tid];
            && Held(s.locks, m, tid) == (if m == th.lock then Depth(th.pc) else 0)
            && (th.pc.Done? ==> Held(s.locks, m, tid) == 0)
            && (m in s.locks ==>
                  && s.locks[m].owner < |s.threads| && !s.threads[s.locks[m].owner].pc.Done?
                  && s.locks[m].depth == Depth(s.threads[s.locks[m].owner].pc))
            && (s.conn.frames != [] ==>
                  exists u :: 0 <= u < |s.threads| && Inside(s.threads[u].pc) && Held(s.locks, s.threads[u].lock, u) > 0)
  {
    RunKeepsDiscipline(events);
    var s := Run(INIT, events);
    assert Placed(s.threads, s.locks, tid);
    if m in s.locks {
      assert Owned(s.threads, s.locks, m);
      assert Placed(s.threads, s.locks, s.locks[m].owner);
    }
    if s.conn.frames != [] {
      var u :| 0 <= u < |s.threads| && Inside(s.threads[u].pc);
      assert Placed(s.threads, s.locks, u);
    }
  }
}
