/** What the interleaving theorems mean to the clients of each storage. */
module Outcomes {
  import opened Domain
  import opened Schema
  import opened PluginStore
  import opened UserStore
  import opened History
  import opened Interleaving
  import opened Locks
  import opened Turns
  import opened Serialisability

  // ----- Plugin options -----

  lemma EffectsOfPrefix(log: seq<Entry>, n: nat)
    requires n <= |log|
    ensures Effects(log[..n]) == Effects(log)[..n]
  {
  }

  /** Whatever else runs, GET answers with the flags and fields of the latest POST for its
      user and plugin committed at some moment of its own lifetime, or not-found if there was
      none; it never shows an uncommitted row. */
  lemma GetAnswersLatestPost(events: seq<Event>, m: nat, tid: nat)
    requires OneMutex(events, m) && tid < |Run(INIT, events).threads|
    requires var th := Run(INIT, events).threads[tid]; th.cmd.GetCmd? && th.pc.Done? && !th.faulted
    ensures var s := Run(INIT, events);
            var th := s.threads[tid];
            && th.born <= th.point <= |s.log|
            && th.pc.resp.Got?
            && match LatestPost(Effects(s.log[..th.point]), th.cmd.key)
               case None => th.pc.resp.found == None
               case Some(post) =>
                 && th.pc.resp.found.Some?
                 && var po := th.pc.resp.found.value;
                    po == PluginOptions(po.id, th.cmd.key.userId, th.cmd.key.pluginName, post.enabled, post.favorite, post.fields)
  {
    EveryAnswerIsSerial(events, m, tid);
    var s := Run(INIT, events);
    var th := s.threads[tid];
    LookupFindsLatestPost(Effects(s.log[..th.point]), th.cmd.key);
  }

  /** Whatever else runs, a POST that no fault strikes fails only when its option is new and
      the ids are used up. */
  lemma PostFailsOnlyWithoutIds(events: seq<Event>, m: nat, tid: nat)
    requires OneMutex(events, m) && tid < |Run(INIT, events).threads|
    requires var th := Run(INIT, events).threads[tid]; th.cmd.PostCmd? && th.pc.Done? && !th.faulted
    ensures var s := Run(INIT, events);
            var th := s.threads[tid];
            th.point <= |s.log| &&
            var t := Store(s.log[..th.point]);
            th.pc.resp == if FindByKey(t, th.cmd.post.GetKey()).Some? || NextRowId(t.options.Keys) <= INT_MAX
                          then Posted else PostThrew
  {
    EveryAnswerIsSerial(events, m, tid);
    var s := Run(INIT, events);
    var th := s.threads[tid];
    ReplayKeepsIds(Effects(s.log[..th.point]));
    PostSucceedsIff(Store(s.log[..th.point]), th.cmd.post);
  }

  /** Committed ids stay in range whatever runs. */
  lemma CommittedIdsInRange(events: seq<Event>, m: nat)
    requires OneMutex(events, m)
    ensures IdsInRange(Run(INIT, events).conn.Durable())
  {
    CommittedIsSerial(events, m);
    ReplayKeepsIds(Effects(Run(INIT, events).log));
  }

  // ----- Users -----

  /** No two commits add the same email. */
  lemma OneUserPerEmail(events: seq<Event>, m: nat, i: nat, j: nat)
    requires OneMutex(events, m) && i < j < |Run(INIT, events).log|
    requires Run(INIT, events).log[i].effect.Adding? && Run(INIT, events).log[j].effect.Adding?
    ensures Run(INIT, events).log[i].effect.user.email != Run(INIT, events).log[j].effect.user.email
  {
    LogIsAccountedFor(events, m, i);
    LogIsAccountedFor(events, m, j);
    var log := Run(INIT, events).log;
    var first, second := log[i].effect.user, log[j].effect.user;
    if first.email == second.email {
      AddedUserIsFound(log, i, j);
      AddSucceedsIff(Store(log[..j]), second);
    }
  }

  /** A user added at `i` is found at every later `n`, under the id `add` reported. */
  lemma AddedUserIsFound(log: seq<Entry>, i: nat, n: nat)
    requires i < n <= |log| && log[i].effect.Adding? && log[i].effect.Succeeds(Store(log[..i]))
    ensures var found := FindByEmail(Store(log[..n]), log[i].effect.user.email);
            found.Some? && found.value.id == AddUser(Store(log[..i]), log[i].effect.user).value.1
  {
    var email := log[i].effect.user.email;
    EffectsOfPrefix(log, i);
    EffectsOfPrefix(log, n);
    var effects := Effects(log[..n]);
    assert effects[..i] == Effects(log[..i]) && effects[i] == log[i].effect;
    ReplayGrows(effects, i);
    AddRefines(Store(log[..i]), log[i].effect.user, email);
    UsersAreStable(effects, i + 1, email);
  }

  /** The id of a successful registration or sign-in, for either kind of success. */
  function SuccessId(resp: Response): Option<Int32> {
    match resp
    case RegisterDone(Registered(id)) => Some(id)
    case GoogleDone(SignedUp(id)) => Some(id)
    case GoogleDone(AlreadyRegistered(id)) => Some(id)
    case _ => None
  }

  function EmailOf(cmd: Command): string {
    match cmd
    case RegisterCmd(email, _) => email
    case GoogleCmd(Some(email)) => email
    case _ => ""
  }

  /** What a success says about the store at its point. */
  lemma SuccessMeans(cmd: Command, resp: Response, t: Db, faulted: bool)
    requires SuccessId(resp).Some? && Explained(cmd, resp, t, faulted)
    ensures if resp.Wins() then
              && EffectOf(cmd) == Adding(AddedUser(cmd)) && AddedUser(cmd).email == EmailOf(cmd)
              && AddUser(t, AddedUser(cmd)).Ok? && SuccessId(resp) == Some(AddUser(t, AddedUser(cmd)).value.1)
            else
              FindByEmail(t, EmailOf(cmd)).Some? && SuccessId(resp) == Some(FindByEmail(t, EmailOf(cmd)).value.id)
  {
  }

  /** Under any interleaving, every registration or sign-in that succeeded returned the id
      under which its email is found in the committed tables now. */
  lemma SuccessesStayFound(events: seq<Event>, m: nat, tid: nat)
    requires OneMutex(events, m) && tid < |Run(INIT, events).threads|
    requires var th := Run(INIT, events).threads[tid]; th.pc.Done? && SuccessId(th.pc.resp).Some?
    ensures var s := Run(INIT, events);
            var th := s.threads[tid];
            var found := FindByEmail(s.conn.Durable(), EmailOf(th.cmd));
            found.Some? && SuccessId(th.pc.resp) == Some(found.value.id)
  {
    EveryAnswerIsSerial(events, m, tid);
    CommittedIsSerial(events, m);
    var s := Run(INIT, events);
    var th := s.threads[tid];
    var t := Store(s.log[..th.point]);
    assert s.log[..|s.log|] == s.log;
    SuccessMeans(th.cmd, th.pc.resp, t, th.faulted);
    if th.pc.resp.Wins() {
      AddedUserIsFound(s.log, th.point, |s.log|);
    } else {
      EffectsOfPrefix(s.log, th.point);
      UsersAreStable(Effects(s.log), th.point, EmailOf(th.cmd));
    }
  }
}
