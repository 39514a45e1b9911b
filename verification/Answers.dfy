/** The answers of the user commands under any interleaving, read off the commits before each
    one's moment and the rows they left. */
module Answers {
  import opened Domain
  import opened Schema
  import opened UserStore
  import opened History
  import opened Interleaving
  import opened Turns
  import opened Serialisability
  import opened Faults
  import opened Outcomes

  /** One of the first `n` commits added the email. */
  ghost predicate Taken(log: seq<Entry>, n: nat, email: string)
    requires n <= |log|
  {
    exists i :: 0 <= i < n && log[i].effect.Adding? && log[i].effect.user.email == email
  }

  lemma TakenIffFound(events: seq<Event>, m: nat, n: nat, email: string)
    requires OneMutex(events, m) && n <= |Run(INIT, events).log|
    ensures var log := Run(INIT, events).log;
            && (Taken(log, n, email) <==> FindByEmail(Store(log[..n]), email).Some?)
            && (Taken(log, n, email) <==> exists i :: i in Store(log[..n]).users && Store(log[..n]).users[i].email == email)
  {
    var log := Run(INIT, events).log;
    FoundIffAdded(Effects(log[..n]), email);
    if Taken(log, n, email) {
      var i :| 0 <= i < n && log[i].effect.Adding? && log[i].effect.user.email == email;
      LogIsAccountedFor(events, m, i);
      AddedUserIsFound(log, i, n);
    } else if Added(Effects(log[..n]), email) {
      AddedSomewhere(Effects(log[..n]), email);
    }
  }

  /** An unfaulted login is told an id exactly when a row of its moment has its email and the
      hasher accepts the bytes stored there; whoever's email no commit has added is told
      nothing. */
  lemma LoginAnswers(events: seq<Event>, m: nat, tid: nat)
    requires OneMutex(events, m) && tid < |Run(INIT, events).threads|
    requires var th := Run(INIT, events).threads[tid]; th.cmd.LoginCmd? && th.pc.Done? && !th.faulted
    ensures var s := Run(INIT, events);
            var th := s.threads[tid];
            && th.born <= th.point <= |s.log| && th.pc.resp.LoggedIn?
            && (forall id: Int32 :: th.pc.resp.userId == Some(id) <==>
                                    LogsIn(Store(s.log[..th.point]), th.cmd.loginEmail, th.cmd.verify, id))
            && (!Taken(s.log, th.point, th.cmd.loginEmail) ==> th.pc.resp == LoggedIn(None))
  {
    AnswersAreSettled(events, m, tid);
    var s := Run(INIT, events);
    var th := s.threads[tid];
    TakenIffFound(events, m, th.point, th.cmd.loginEmail);
    forall id: Int32
      ensures th.pc.resp.userId == Some(id) <==> LogsIn(Store(s.log[..th.point]), th.cmd.loginEmail, th.cmd.verify, id)
    {
      LoginMeans(Store(s.log[..th.point]), th.cmd.loginEmail, th.cmd.verify, id);
    }
    if th.pc.resp.userId.Some? {
      assert LogsIn(Store(s.log[..th.point]), th.cmd.loginEmail, th.cmd.verify, th.pc.resp.userId.value);
    }
  }

  /** Every answer of an unfaulted registration, by its hash and the commits before its
      moment. */
  lemma RegisterAnswers(events: seq<Event>, m: nat, tid: nat)
    requires OneMutex(events, m) && tid < |Run(INIT, events).threads|
    requires var th := Run(INIT, events).threads[tid]; th.cmd.RegisterCmd? && th.pc.Done? && !th.faulted
    ensures var s := Run(INIT, events);
            var th := s.threads[tid];
            && th.born <= th.point <= |s.log| && th.pc.resp.RegisterDone?
            && var r, hash, taken := th.pc.resp.register, th.cmd.hash, Taken(s.log, th.point, th.cmd.email);
               && (r == NotHashed <==> hash == None)
               && (r == RegisterThrew <==> hash.Some? && GetInt(|hash.value|) < 0)
               && (r == EmailTaken <==> hash.Some? && GetInt(|hash.value|) >= 0 && taken)
               && (r.Registered? <==> hash.Some? && GetInt(|hash.value|) >= 0 && !taken)
               && (r.Registered? ==> r.id == GetInt(NextRowId(Store(s.log[..th.point]).users.Keys)))
  {
    AnswersAreSettled(events, m, tid);
    var s := Run(INIT, events);
    var th := s.threads[tid];
    TakenIffFound(events, m, th.point, th.cmd.email);
    RegisterAnswersIff(Store(s.log[..th.point]), th.cmd.email, th.cmd.hash);
  }

  /** The same for a sign-in; when its email is taken it is told whose it is, or Refused if
      it lost the race for it. */
  lemma SignInAnswers(events: seq<Event>, m: nat, tid: nat)
    requires OneMutex(events, m) && tid < |Run(INIT, events).threads|
    requires var th := Run(INIT, events).threads[tid]; th.cmd.GoogleCmd? && th.pc.Done? && !th.faulted
    ensures var s := Run(INIT, events);
            var th := s.threads[tid];
            && th.born <= th.point <= |s.log| && th.pc.resp.GoogleDone?
            && var r, t := th.pc.resp.google, Store(s.log[..th.point]);
               && (r == KeyRejected <==> th.cmd.keyEmail == None)
               && (r.SignedUp? <==> th.cmd.keyEmail.Some? && !Taken(s.log, th.point, th.cmd.keyEmail.value))
               && (r.SignedUp? ==> r.id == GetInt(NextRowId(t.users.Keys)))
               && (forall i :: i in t.users && th.cmd.keyEmail == Some(t.users[i].email) ==>
                     r == AlreadyRegistered(GetInt(i)) || r == Refused)
  {
    AnswersAreSettled(events, m, tid);
    var s := Run(INIT, events);
    var th := s.threads[tid];
    SignInAnswersIff(Store(s.log[..th.point]), th.cmd.keyEmail);
    if th.cmd.keyEmail.Some? {
      TakenIffFound(events, m, th.point, th.cmd.keyEmail.value);
    }
  }

  /** The user that a reported registration or sign-up speaks of. */
  predicate Reported(cmd: Command, resp: Response, user: User) {
    match cmd
    case RegisterCmd(email, Some(hash)) => |hash| <= INT_MAX && resp == RegisterDone(Registered(user.id)) && user == User(user.id, email, hash, PASSWORD)
    case GoogleCmd(Some(email)) => resp == GoogleDone(SignedUp(user.id)) && user == User(user.id, email, [], GOOGLE)
    case _ => false
  }

  /** Ever after, the committed tables hold the whole user that was reported: under its email,
      and, as long as row ids fit `int`, under its id. */
  lemma ReportedUsersAreStored(events: seq<Event>, m: nat, tid: nat, user: User)
    requires OneMutex(events, m) && tid < |Run(INIT, events).threads|
    requires var th := Run(INIT, events).threads[tid]; th.pc.Done? && Reported(th.cmd, th.pc.resp, user)
    ensures var t := Run(INIT, events).conn.Durable();
            && FindByEmail(t, user.email) == Some(user)
            && (NextRowId(t.users.Keys) - 1 <= INT_MAX ==> FindUserById(t, user.id) == Some(user))
  {
    EveryAnswerIsSerial(events, m, tid);
    CommittedIsSerial(events, m);
    var s := Run(INIT, events);
    var th := s.threads[tid];
    LogIsAccountedFor(events, m, th.point);
    var effects := Effects(s.log);
    assert s.log[..|s.log|] == s.log;
    EffectsOfPrefix(s.log, th.point);
    ReportedOnHistory(effects, th.point, th.cmd, th.pc.resp, th.faulted, user);
    if NextRowId(Replay(effects).users.Keys) - 1 <= INT_MAX {
      UserFindersAgreeAlways(effects, user.email, user.id);
    }
  }

  lemma ReportedOnHistory(effects: seq<Effect>, i: nat, cmd: Command, resp: Response, faulted: bool, user: User)
    requires i < |effects| && effects[i] == EffectOf(cmd) && effects[i].Succeeds(Replay(effects[..i]))
    requires Reported(cmd, resp, user) && Explained(cmd, resp, Replay(effects[..i]), faulted)
    ensures FindByEmail(Replay(effects), user.email) == Some(user)
  {
    SuccessMeans(cmd, resp, Replay(effects[..i]), faulted);
    if cmd.RegisterCmd? {
      LoginAfterRegistration(effects, i, user.email, user.password, _ => true);
    } else {
      LoginAfterSignUp(effects, i, user.email, _ => true);
    }
  }
}
