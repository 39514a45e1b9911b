/** Google's check happens before its unit of work takes the mutex. What becomes of a sign-in
    whose email is taken in between. */
module Race {
  import opened Domain
  import opened Schema
  import opened Sqlite
  import opened UserStore
  import opened History
  import opened Interleaving
  import opened Locks
  import opened Turns
  import opened Serialisability
  import opened Outcomes
  import opened Faults

  /** The sign-in has found its email free and is on its way to add it, or was refused. */
  predicate PastCheck(pc: Pc) {
    match pc
    case Start => false
    case LookRow => false
    case LookFields(_) => false
    case LeaveLookup => false
    case Leave(resp) => resp == GoogleDone(Refused)
    case Done(resp) => resp == GoogleDone(Refused)
    case _ => true
  }

  ghost predicate FreeWhenChecked(s: State, tid: nat)
    requires tid < |s.threads|
  {
    var th := s.threads[tid];
    th.cmd.GoogleCmd? && th.cmd.keyEmail.Some? && PastCheck(th.pc) ==>
      && th.born <= th.checked <= |s.log|
      && FindByEmail(Store(s.log[..th.checked]), th.cmd.keyEmail.value).None?
  }

  lemma OnlyThroughTheCheck(s: State, tid: nat, fault: bool, pick: string)
    requires Enabled(s, tid, pick) && s.threads[tid].cmd.GoogleCmd? && s.threads[tid].cmd.keyEmail.Some?
    requires PastCheck(TakeTurn(s.threads[tid].cmd, s.threads[tid].pc, s.conn, fault, pick).pc)
    ensures PastCheck(s.threads[tid].pc) || s.threads[tid].pc.LeaveLookup?
  {
  }

  lemma LogOnlyGrows(s: State, e: Event)
    ensures s.log <= Step(s, e).log && |s.threads| <= |Step(s, e).threads|
  {
  }

  lemma CheckFoundNobody(s: State, m: nat, tid: nat)
    requires Inv(s, m) && tid < |s.threads| && s.threads[tid].pc.LeaveLookup?
    ensures s.threads[tid].cmd.GoogleCmd? && s.threads[tid].cmd.keyEmail.Some?
    ensures FindByEmail(Store(s.log), s.threads[tid].cmd.keyEmail.value).None?
  {
    assert ThreadFine(s, m, tid);
  }

  lemma StepKeepsFree(s: State, m: nat, e: Event, tid: nat)
    requires Inv(s, m) && tid < |Step(s, e).threads|
    requires tid < |s.threads| ==> FreeWhenChecked(s, tid)
    ensures FreeWhenChecked(Step(s, e), tid)
  {
    LogOnlyGrows(s, e);
    var s' := Step(s, e);
    if tid < |s.threads| {
      var th := s.threads[tid];
      assert ThreadFine(s, m, tid);
      if e.Advance? && e.tid == tid && Enabled(s, tid, e.pick) && th.cmd.GoogleCmd? && th.cmd.keyEmail.Some? && PastCheck(s'.threads[tid].pc) {
        OnlyThroughTheCheck(s, tid, e.fault, e.pick);
        if th.pc.LeaveLookup? {
          CheckFoundNobody(s, m, tid);
          assert s'.log[..|s.log|] == s.log;
        } else {
          assert s'.log[..th.checked] == s.log[..th.checked];
        }
      } else if th.checked <= |s.log| {
        assert s'.log[..th.checked] == s.log[..th.checked];
      }
    }
  }

  lemma {:induction false} RunKeepsFree(events: seq<Event>, m: nat, tid: nat)
    requires OneMutex(events, m) && tid < |Run(INIT, events).threads|
    ensures FreeWhenChecked(Run(INIT, events), tid)
  {
    if events != [] {
      var before := events[..|events| - 1];
      assert OneMutex(before, m);
      RunKeepsInv(before, m);
      if tid < |Run(INIT, before).threads| {
        RunKeepsFree(before, m, tid);
      }
      StepKeepsFree(Run(INIT, before), m, events[|events| - 1], tid);
    }
  }

  /** Every loser of the check-then-add race: its email was free at its check, taken at its
      point, which is later, and it has changed nothing. */
  lemma LosersWereOvertaken(events: seq<Event>, m: nat, tid: nat)
    requires OneMutex(events, m) && tid < |Run(INIT, events).threads|
    requires Run(INIT, events).threads[tid].pc == Done(GoogleDone(Refused))
    requires Run(INIT, events).threads[tid].cmd.GoogleCmd? && Run(INIT, events).threads[tid].cmd.keyEmail.Some?
    ensures var s := Run(INIT, events);
            var th := s.threads[tid];
            && th.born <= th.checked < th.point <= |s.log|
            && FindByEmail(Store(s.log[..th.checked]), th.cmd.keyEmail.value).None?
            && FindByEmail(Store(s.log[..th.point]), th.cmd.keyEmail.value).Some?
            && forall i :: 0 <= i < |s.log| ==> s.log[i].tid != tid
  {
    RunKeepsFree(events, m, tid);
    EveryAnswerIsSerial(events, m, tid);
    var s := Run(INIT, events);
    var th := s.threads[tid];
    RefusedMeansTaken(th.cmd, Store(s.log[..th.point]), th.faulted);
    if th.point <= th.checked {
      EffectsOfPrefix(s.log, th.point);
      EffectsOfPrefix(s.log, th.checked);
      assert Effects(s.log[..th.checked])[..th.point] == Effects(s.log[..th.point]);
      UsersAreStable(Effects(s.log[..th.checked]), th.point, th.cmd.keyEmail.value);
    }
  }

  lemma RefusedMeansTaken(cmd: Command, t: Db, faulted: bool)
    requires cmd.GoogleCmd? && cmd.keyEmail.Some? && Explained(cmd, GoogleDone(Refused), t, faulted)
    ensures FindByEmail(t, cmd.keyEmail.value).Some?
  {
  }

  // ----- Every overtaken sign-in loses -----

  predicate AddAnswer(resp: Response) {
    resp.GoogleDone? && (resp.google.SignedUp? || resp.google.Refused? || resp.google.GoogleThrew?)
  }

  predicate AddExit(exit: Exit) {
    !exit.EnterUpdate? && AddAnswer(exit.resp)
  }

  /** The places from which a sign-in can only add its user or fail to. */
  predicate OnlyAdds(pc: Pc) {
    match pc
    case StartAdd => true
    case OpenTx => true
    case EnterAdd => true
    case InAdd(_) => true
    case At(exit) => AddExit(exit)
    case LeaveInner(next) => AddExit(next)
    case UndoTheGuard(_, next) => AddExit(next)
    case ReleaseGuard(_, resp) => AddAnswer(resp)
    case Leave(resp) => AddAnswer(resp)
    case Done(resp) => AddAnswer(resp)
    case _ => false
  }

  lemma OnlyAddsGoesOn(cmd: Command, pc: Pc, conn: Connection<Db>, fault: bool, pick: string)
    requires cmd.GoogleCmd? && cmd.keyEmail.Some? && (OnlyAdds(pc) || pc.LeaveLookup?)
    ensures OnlyAdds(TakeTurn(cmd, pc, conn, fault, pick).pc)
  {
  }

  ghost predicate JustChecked(s: State, tid: nat) {
    tid < |s.threads| && s.threads[tid].pc.LeaveLookup?
  }

  /** At some moment of the run the thread had just found nobody under its email. */
  ghost predicate WentPast(events: seq<Event>, tid: nat) {
    JustChecked(Run(INIT, events), tid) || (events != [] && WentPast(events[..|events| - 1], tid))
  }

  ghost predicate Tracked(events: seq<Event>, tid: nat)
    requires tid < |Run(INIT, events).threads|
  {
    var th := Run(INIT, events).threads[tid];
    th.cmd.GoogleCmd? && th.cmd.keyEmail.Some? ==>
      && (WentPast(events, tid) ==> OnlyAdds(th.pc) || th.pc.LeaveLookup?)
      && (PastCheck(th.pc) ==> WentPast(events, tid))
  }

  /** Past the check there is no way back to another answer, and no way there but through
      it. */
  lemma {:induction false} RunIsTracked(events: seq<Event>, tid: nat)
    requires tid < |Run(INIT, events).threads|
    ensures Tracked(events, tid)
  {
    if events != [] {
      var before, e := events[..|events| - 1], events[|events| - 1];
      var s := Run(INIT, before);
      if tid < |s.threads| {
        RunIsTracked(before, tid);
        MoveIsTracked(before, e, tid);
      } else {
        NeverThere(before, tid);
      }
    }
  }

  lemma MoveIsTracked(before: seq<Event>, e: Event, tid: nat)
    requires tid < |Run(INIT, before).threads| && Tracked(before, tid)
    ensures var s' := Step(Run(INIT, before), e);
            var th := s'.threads[tid];
            th.cmd.GoogleCmd? && th.cmd.keyEmail.Some? ==>
              && (WentPast(before, tid) || JustChecked(s', tid) ==> OnlyAdds(th.pc) || th.pc.LeaveLookup?)
              && (PastCheck(th.pc) ==> WentPast(before, tid) || JustChecked(s', tid))
  {
    var s := Run(INIT, before);
    var th := s.threads[tid];
    if e.Advance? && e.tid == tid && Enabled(s, tid, e.pick) && th.cmd.GoogleCmd? && th.cmd.keyEmail.Some? {
      if OnlyAdds(th.pc) || th.pc.LeaveLookup? {
        OnlyAddsGoesOn(th.cmd, th.pc, s.conn, e.fault, e.pick);
      }
      if PastCheck(TakeTurn(th.cmd, th.pc, s.conn, e.fault, e.pick).pc) {
        OnlyThroughTheCheck(s, tid, e.fault, e.pick);
      }
    }
  }

  lemma {:induction false} NeverThere(events: seq<Event>, tid: nat)
    requires tid >= |Run(INIT, events).threads|
    ensures !WentPast(events, tid)
  {
    if events != [] {
      var before := events[..|events| - 1];
      LogOnlyGrows(Run(INIT, before), events[|events| - 1]);
      NeverThere(before, tid);
    }
  }

  /** The race, decided: a sign-in that went past its check and whose email is taken at its
      point gets an error and changes nothing; and, faults aside, Refused is the answer of
      exactly those whose email was free when they checked and taken when they came to add
      it. */
  lemma RaceIsLostIff(events: seq<Event>, m: nat, tid: nat)
    requires OneMutex(events, m) && tid < |Run(INIT, events).threads|
    requires var th := Run(INIT, events).threads[tid]; th.pc.Done? && th.cmd.GoogleCmd? && th.cmd.keyEmail.Some?
    ensures var s := Run(INIT, events);
            var th := s.threads[tid];
            var email := th.cmd.keyEmail.value;
            && th.point <= |s.log| && th.checked <= |s.log|
            && var taken := FindByEmail(Store(s.log[..th.point]), email).Some?;
               && (WentPast(events, tid) && taken ==>
                     && th.pc.resp == GoogleDone(if th.faulted then GoogleThrew else Refused)
                     && forall i :: 0 <= i < |s.log| ==> s.log[i].tid != tid)
               && (!th.faulted ==>
                     (th.pc.resp == GoogleDone(Refused) <==>
                      WentPast(events, tid) && FindByEmail(Store(s.log[..th.checked]), email).None? && taken))
               && (th.pc.resp == GoogleDone(Refused) ==> th.born <= th.checked < th.point)
  {
    RunIsTracked(events, tid);
    AnswersAreSettled(events, m, tid);
    EveryAnswerIsSerial(events, m, tid);
    CheckedBeforeNow(events, tid);
    if Run(INIT, events).threads[tid].pc.resp == GoogleDone(Refused) {
      LosersWereOvertaken(events, m, tid);
    }
  }

  lemma CheckedOrNow(s: State, e: Event, tid: nat)
    requires tid < |s.threads|
    ensures Step(s, e).threads[tid].checked in {s.threads[tid].checked, |s.log|}
  {
  }

  lemma {:induction false} CheckedBeforeNow(events: seq<Event>, tid: nat)
    requires tid < |Run(INIT, events).threads|
    ensures Run(INIT, events).threads[tid].checked <= |Run(INIT, events).log|
  {
    if events != [] {
      var before, e := events[..|events| - 1], events[|events| - 1];
      LogOnlyGrows(Run(INIT, before), e);
      if tid < |Run(INIT, before).threads| {
        CheckedBeforeNow(before, tid);
        CheckedOrNow(Run(INIT, before), e, tid);
      }
    }
  }
}
