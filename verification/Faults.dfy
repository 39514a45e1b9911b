/** A command that throws is never swallowed: the thread it struck ends with an exception. */
module Faults {
  import opened Domain
  import opened Schema
  import opened Sqlite
  import opened PluginStore
  import opened UserStore
  import opened Interleaving
  import opened Locks
  import opened Turns
  import opened Serialisability

  /** An exception is on its way out of the command: only destructors and unlocks are left. */
  predicate Throwing(cmd: Command, pc: Pc) {
    match pc
    case UndoTheGuard(_, next) => next == ResetTx(Threw(cmd))
    case LeaveInner(next) => next == ResetTx(Threw(cmd))
    case At(exit) => exit == ResetTx(Threw(cmd))
    case Leave(resp) => resp == Threw(cmd)
    case Done(resp) => resp == Threw(cmd)
    case _ => false
  }

  lemma ThrowingGoesOn(cmd: Command, pc: Pc, conn: Connection<Db>, fault: bool, pick: string)
    requires Throwing(cmd, pc)
    ensures Throwing(cmd, TakeTurn(cmd, pc, conn, fault, pick).pc)
  {
  }

  lemma PostFaultThrows(post: PostCommand, step: PostStep, conn: Connection<Db>, pick: string)
    ensures Throwing(PostCmd(post), PostTurn(post, step, conn, true, pick).pc)
  {
  }

  lemma FaultThrows(cmd: Command, pc: Pc, conn: Connection<Db>, pick: string)
    requires Faultable(pc) && (pc.InPost? ==> cmd.PostCmd?)
    ensures Throwing(cmd, TakeTurn(cmd, pc, conn, true, pick).pc)
  {
    if pc.InPost? {
      PostFaultThrows(cmd.post, pc.post, conn, pick);
    }
  }

  ghost predicate Surfaces(s: State, tid: nat)
    requires tid < |s.threads|
  {
    s.threads[tid].faulted ==> Throwing(s.threads[tid].cmd, s.threads[tid].pc)
  }

  lemma MoveSurfaces(s: State, m: nat, tid: nat, fault: bool, pick: string)
    requires Inv(s, m) && Enabled(s, tid, pick) && Surfaces(s, tid)
    ensures Surfaces(Step(s, Advance(tid, fault, pick)), tid)
  {
    var th := s.threads[tid];
    assert ThreadFine(s, m, tid);
    if th.faulted {
      ThrowingGoesOn(th.cmd, th.pc, s.conn, fault, pick);
    } else if fault && Faultable(th.pc) {
      FaultThrows(th.cmd, th.pc, s.conn, pick);
    }
  }

  lemma StepSurfaces(s: State, m: nat, e: Event, tid: nat)
    requires Inv(s, m) && tid < |Step(s, e).threads|
    requires tid < |s.threads| ==> Surfaces(s, tid)
    ensures Surfaces(Step(s, e), tid)
  {
    if tid < |s.threads| && e.Advance? && e.tid == tid && Enabled(s, tid, e.pick) {
      MoveSurfaces(s, m, tid, e.fault, e.pick);
    }
  }

  lemma {:induction false} RunSurfaces(events: seq<Event>, m: nat, tid: nat)
    requires OneMutex(events, m) && tid < |Run(INIT, events).threads|
    ensures Surfaces(Run(INIT, events), tid)
  {
    if events != [] {
      var before, e := events[..|events| - 1], events[|events| - 1];
      assert OneMutex(before, m);
      RunKeepsInv(before, m);
      if tid < |Run(INIT, before).threads| {
        RunSurfaces(before, m, tid);
      }
      StepSurfaces(Run(INIT, before), m, e, tid);
    }
  }

  /** Each command's answer that reports nothing but an exception. */
  predicate IsException(cmd: Command, resp: Response) {
    match cmd
    case PostCmd(_) => resp.PostThrew?
    case GetCmd(_) => resp.GetThrew?
    case LoginCmd(_, _) => resp.LoginThrew?
    case RegisterCmd(_, _) => resp.RegisterDone? && resp.register.RegisterThrew?
    case GoogleCmd(_) => resp.GoogleDone? && resp.google.GoogleThrew?
  }

  /** So the answer of every finished command is settled: an exception that left nothing
      behind if a fault struck it; otherwise its solo answer on the store of its moment, or
      the loss of Google's race. */
  lemma AnswersAreSettled(events: seq<Event>, m: nat, tid: nat)
    requires OneMutex(events, m) && tid < |Run(INIT, events).threads|
    requires Run(INIT, events).threads[tid].pc.Done?
    ensures var s := Run(INIT, events);
            var th := s.threads[tid];
            if th.faulted then
              && th.pc.resp == Threw(th.cmd) && IsException(th.cmd, th.pc.resp)
              && forall i :: 0 <= i < |s.log| ==> s.log[i].tid != tid
            else
              && th.born <= th.point <= |s.log|
              && var t := Store(s.log[..th.point]);
                 th.pc.resp == Solo(th.cmd, t) || (th.pc.resp == GoogleDone(Refused) && LostRace(th.cmd, t))
  {
    RunSurfaces(events, m, tid);
    EveryAnswerIsSerial(events, m, tid);
  }
}
