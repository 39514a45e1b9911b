/** Answers respect real time: a command that returns before another is issued comes before
    it in the order of commits. What a login is then told. */
module RealTime {
  import opened Domain
  import opened Schema
  import opened UserStore
  import opened History
  import opened Interleaving
  import opened Turns
  import opened Locks
  import opened Serialisability
  import opened Faults
  import opened Outcomes

  /** What a returned command and everybody not yet there look like later on. */
  ghost predicate Later(s: State, s': State) {
    && s.log <= s'.log && |s.threads| <= |s'.threads|
    && (forall tid :: 0 <= tid < |s.threads| && s.threads[tid].pc.Done? ==> s'.threads[tid] == s.threads[tid])
    && (forall tid :: |s.threads| <= tid < |s'.threads| ==> |s.log| <= s'.threads[tid].born)
  }

  lemma StepIsLater(s: State, s': State, e: Event)
    requires Later(s, s')
    ensures Later(s, Step(s', e))
  {
  }

  lemma {:induction false} RunIsLater(events: seq<Event>, k: nat)
    requires k <= |events|
    ensures Later(Run(INIT, events[..k]), Run(INIT, events))
  {
    if k == |events| {
      assert events[..k] == events;
    } else {
      var before := events[..|events| - 1];
      assert before[..k] == events[..k];
      RunIsLater(before, k);
      StepIsLater(Run(INIT, events[..k]), Run(INIT, before), events[|events| - 1]);
    }
  }

  /** Before the k-th event the first command had returned and the second was not yet
      issued. */
  ghost predicate Precedes(events: seq<Event>, k: nat, first: nat, second: nat) {
    && k <= |events|
    && var s := Run(INIT, events[..k]);
       && first < |s.threads| <= second < |Run(INIT, events).threads|
       && s.threads[first].pc.Done?
  }

  /** The moments at which EveryAnswerIsSerial explains two such commands are in that order,
      and what the first one committed is there at the second one's. */
  lemma MomentsRespectRealTime(events: seq<Event>, m: nat, k: nat, first: nat, second: nat)
    requires OneMutex(events, m) && Precedes(events, k, first, second)
    ensures var s := Run(INIT, events);
            && s.threads[first] == Run(INIT, events[..k]).threads[first]
            && s.threads[first].point <= s.threads[second].born <= s.threads[second].point <= |s.log|
            && (s.threads[first].pc.resp.Wins() ==> s.threads[first].point < s.threads[second].point)
  {
    var s, s' := Run(INIT, events[..k]), Run(INIT, events);
    RunIsLater(events, k);
    RunKeepsInv(events[..k], m);
    RunKeepsInv(events, m);
    assert ThreadFine(s, m, first);
    assert ThreadFine(s', m, second);
  }

  /** A commit as a part of the history before a later moment. */
  lemma EntryInHistory(events: seq<Event>, m: nat, i: nat, n: nat)
    requires OneMutex(events, m) && i < n <= |Run(INIT, events).log|
    ensures var log := Run(INIT, events).log;
            var effects := Effects(log[..n]);
            && effects[..i] == Effects(log[..i]) && effects[i] == log[i].effect
            && effects[i].Succeeds(Replay(effects[..i]))
  {
    LogIsAccountedFor(events, m, i);
    EffectsOfPrefix(Run(INIT, events).log, i);
    EffectsOfPrefix(Run(INIT, events).log, n);
  }

  /** What a login is told by a history with a registration or sign-up of its email in it. */
  lemma LoginOnHistory(effects: seq<Effect>, i: nat, cmd: Command, resp: Response, faulted: bool, verify: Bytes -> bool)
    requires i < |effects| && effects[i] == EffectOf(cmd) && effects[i].Succeeds(Replay(effects[..i]))
    requires (cmd.RegisterCmd? && cmd.hash.Some? && |cmd.hash.value| <= INT_MAX) || (cmd.GoogleCmd? && cmd.keyEmail.Some?)
    requires resp.Wins() && Explained(cmd, resp, Replay(effects[..i]), faulted)
    ensures SuccessId(resp).Some?
    ensures Login(FindByEmail(Replay(effects), EmailOf(cmd)), verify)
            == if verify(AddedUser(cmd).password) then SuccessId(resp) else None
  {
    SuccessMeans(cmd, resp, Replay(effects[..i]), faulted);
    if cmd.RegisterCmd? {
      LoginAfterRegistration(effects, i, cmd.email, cmd.hash.value, verify);
    } else {
      LoginAfterSignUp(effects, i, cmd.keyEmail.value, verify);
    }
  }

  /** Under any interleaving, a login issued after a registration of its email was reported
      is told the registered id exactly when the hasher accepts the registered bytes. */
  lemma LoginFollowsRegistration(events: seq<Event>, m: nat, k: nat, register: nat, login: nat)
    requires OneMutex(events, m) && Precedes(events, k, register, login)
    requires var s := Run(INIT, events);
             var r, l := s.threads[register], s.threads[login];
             && r.cmd.RegisterCmd? && r.cmd.hash.Some? && |r.cmd.hash.value| <= INT_MAX
             && r.pc.Done? && r.pc.resp.RegisterDone? && r.pc.resp.register.Registered?
             && l.cmd.LoginCmd? && l.cmd.loginEmail == r.cmd.email && l.pc.Done? && !l.faulted
    ensures var s := Run(INIT, events);
            var r, l := s.threads[register], s.threads[login];
            l.pc.resp == LoggedIn(if l.cmd.verify(r.cmd.hash.value) then Some(r.pc.resp.register.id) else None)
  {
    MomentsRespectRealTime(events, m, k, register, login);
    EveryAnswerIsSerial(events, m, register);
    AnswersAreSettled(events, m, login);
    var s := Run(INIT, events);
    var r, l := s.threads[register], s.threads[login];
    EntryInHistory(events, m, r.point, l.point);
    LoginOnHistory(Effects(s.log[..l.point]), r.point, r.cmd, r.pc.resp, r.faulted, l.cmd.verify);
  }

  /** The same after a Google sign-up: the hasher is asked about the empty password. */
  lemma LoginFollowsSignUp(events: seq<Event>, m: nat, k: nat, signUp: nat, login: nat)
    requires OneMutex(events, m) && Precedes(events, k, signUp, login)
    requires var s := Run(INIT, events);
             var g, l := s.threads[signUp], s.threads[login];
             && g.cmd.GoogleCmd? && g.cmd.keyEmail.Some?
             && g.pc.Done? && g.pc.resp.GoogleDone? && g.pc.resp.google.SignedUp?
             && l.cmd.LoginCmd? && l.cmd.loginEmail == g.cmd.keyEmail.value && l.pc.Done? && !l.faulted
    ensures var s := Run(INIT, events);
            var g, l := s.threads[signUp], s.threads[login];
            l.pc.resp == LoggedIn(if l.cmd.verify([]) then Some(g.pc.resp.google.id) else None)
  {
    MomentsRespectRealTime(events, m, k, signUp, login);
    EveryAnswerIsSerial(events, m, signUp);
    AnswersAreSettled(events, m, login);
    var s := Run(INIT, events);
    var g, l := s.threads[signUp], s.threads[login];
    EntryInHistory(events, m, g.point, l.point);
    LoginOnHistory(Effects(s.log[..l.point]), g.point, g.cmd, g.pc.resp, g.faulted, l.cmd.verify);
  }
}
