/** What the one-mutex hypothesis of Serialisability is for. The program gives both storages
    one connection and each its own mutex; two different mutexes break what one guarantees,
    with the commands the program serves and no fault at all. */
module SharedConnection {
  import opened Domain
  import opened Schema
  import opened Sqlite
  import opened PluginStore
  import opened UserStore
  import opened Interleaving
  import opened Turns
  import opened Serialisability
  import opened Walks

  // ----- The commands -----

  const POST := PostCommand(7, "editor", true, false, map[])
  const EMAIL := "a@b"
  const WRITER := PostCmd(POST)
  const SIGNER := GoogleCmd(Some(EMAIL))

  const OPEN: Connection<Db> := Connection(EMPTY, [Begun(EMPTY)])
  const CLOSED: Connection<Db> := Connection(EMPTY, [])

  // ----- A sign-in that meets an open POST -----

  lemma PostBegins()
    ensures Leads(WRITER, Local(Start, CLOSED, []), Local(EnterFind, OPEN, []))
  {
    var l := Local(Start, CLOSED, []);
    Onward(WRITER, l, l, Local(OpenTx, CLOSED, []));
    Onward(WRITER, l, Local(OpenTx, CLOSED, []), Local(EnterFind, OPEN, []));
  }

  lemma SignInChecks(conn: Connection<Db>)
    requires conn.tables == EMPTY
    ensures Leads(SIGNER, Local(Start, conn, []), Local(StartAdd, conn, []))
  {
    var l := Local(Start, conn, []);
    assert FindByEmail(EMPTY, EMAIL) == None;
    Onward(SIGNER, l, l, Local(LookRow, conn, []));
    Onward(SIGNER, l, Local(LookRow, conn, []), Local(LeaveLookup, conn, []));
    Onward(SIGNER, l, Local(LeaveLookup, conn, []), Local(StartAdd, conn, []));
  }

  lemma SignInThrows()
    ensures Leads(SIGNER, Local(StartAdd, OPEN, []), Local(Done(THREW), OPEN, []))
  {
    var l := Local(StartAdd, OPEN, []);
    Onward(SIGNER, l, l, Local(OpenTx, OPEN, []));
    Onward(SIGNER, l, Local(OpenTx, OPEN, []), Local(Leave(THREW), OPEN, []));
    Onward(SIGNER, l, Local(Leave(THREW), OPEN, []), Local(Done(THREW), OPEN, []));
  }

  const THREW := GoogleDone(GoogleThrew)

  function PostAndSignIn(m: nat, n: nat): seq<Role> {
    [Role(m, WRITER), Role(n, SIGNER)]
  }

  lemma NobodyYet()
    ensures Possible([], View(CLOSED, [], []))
  {
    assert Reached([], [], View(CLOSED, [], []));
  }

  lemma BothIssued(m: nat, n: nat)
    ensures Possible(PostAndSignIn(m, n), View(CLOSED, [Start, Start], []))
  {
    NobodyYet();
    Issue([], View(CLOSED, [], []), Role(m, WRITER), [Role(m, WRITER)], View(CLOSED, [Start], []));
    Issue([Role(m, WRITER)], View(CLOSED, [Start], []), Role(n, SIGNER), PostAndSignIn(m, n), View(CLOSED, [Start, Start], []));
  }

  lemma SignInFollowsPost(m: nat, n: nat)
    requires m != n
    ensures Possible(PostAndSignIn(m, n), View(OPEN, [EnterFind, Start], []))
  {
    BothIssued(m, n);
    PostBegins();
    Walk(PostAndSignIn(m, n), View(CLOSED, [Start, Start], []), 0, Local(EnterFind, OPEN, []), View(OPEN, [EnterFind, Start], []));
  }

  /** POST begins; the sign-in finds its email free, takes its own mutex again, and BEGIN
      throws. */
  lemma SignInMeetsPost(m: nat, n: nat)
    requires m != n
    ensures Possible(PostAndSignIn(m, n), View(OPEN, [EnterFind, Done(THREW)], []))
  {
    var roles := PostAndSignIn(m, n);
    SignInFollowsPost(m, n);
    SignInChecks(OPEN);
    Walk(roles, View(OPEN, [EnterFind, Start], []), 1, Local(StartAdd, OPEN, []), View(OPEN, [EnterFind, StartAdd], []));
    SignInThrows();
    Walk(roles, View(OPEN, [EnterFind, StartAdd], []), 1, Local(Done(THREW), OPEN, []), View(OPEN, [EnterFind, Done(THREW)], []));
  }

  // ----- Exactly which sets of mutexes are safe -----

  /** The durable tables are the commits one at a time, and every answer is explained by the
      store of a moment since its command was issued. */
  ghost predicate Serial(s: State) {
    && s.conn.Durable() == Store(s.log)
    && forall tid :: 0 <= tid < |s.threads| && s.threads[tid].pc.Done? ==> AnswerIsSerial(s, tid)
  }

  ghost predicate AnswerIsSerial(s: State, tid: nat)
    requires tid < |s.threads| && s.threads[tid].pc.Done?
  {
    var th := s.threads[tid];
    exists n: nat :: th.born <= n <= |s.log| && Explained(th.cmd, th.pc.resp, Store(s.log[..n]), th.faulted)
  }

  lemma OneMutexIsSerial(events: seq<Event>, m: nat)
    requires OneMutex(events, m)
    ensures Serial(Run(INIT, events))
  {
    CommittedIsSerial(events, m);
    var s := Run(INIT, events);
    forall tid | 0 <= tid < |s.threads| && s.threads[tid].pc.Done?
      ensures AnswerIsSerial(s, tid)
    {
      EveryAnswerIsSerial(events, m, tid);
    }
  }

  /** No store explains an exception from an unfaulted sign-in. */
  lemma SignInNeverThrowsAlone(t: Db)
    ensures !Explained(GoogleCmd(Some(EMAIL)), GoogleDone(GoogleThrew), t, false)
  {
  }

  lemma TwoMutexesAreNotSerial(m: nat, n: nat) returns (events: seq<Event>)
    requires m != n
    ensures Bring(events, {m, n}) && !Serial(Run(INIT, events))
    ensures forall i :: 0 <= i < |events| && events[i].Advance? ==> !events[i].fault
  {
    SignInMeetsPost(m, n);
    events :| Reached(events, PostAndSignIn(m, n), View(OPEN, [EnterFind, Done(THREW)], []));
    OnlyBrings(events, PostAndSignIn(m, n), View(OPEN, [EnterFind, Done(THREW)], []), {m, n});
    var s := Run(INIT, events);
    if AnswerIsSerial(s, 1) {
      var k: nat :| s.threads[1].born <= k <= |s.log| && Explained(s.threads[1].cmd, s.threads[1].pc.resp, Store(s.log[..k]), false);
      SignInNeverThrowsAlone(Store(s.log[..k]));
    }
  }

  lemma AtMostOne(mutexes: set<nat>)
    ensures |mutexes| <= 1 <==> forall m, n :: m in mutexes && n in mutexes ==> m == n
  {
    if m :| m in mutexes {
      var others := mutexes - {m};
      assert mutexes == others + {m};
      assert |others| == 0 || exists n :: n in others;
    }
  }

  /** The hypothesis is exact: all runs over a set of mutexes are serial if and only if there
      is at most one mutex in it. */
  lemma SerialIffOneMutex(mutexes: set<nat>)
    ensures (forall events: seq<Event> :: Bring(events, mutexes) ==> Serial(Run(INIT, events))) <==> |mutexes| <= 1
  {
    AtMostOne(mutexes);
    if |mutexes| <= 1 {
      forall events: seq<Event> | Bring(events, mutexes)
        ensures Serial(Run(INIT, events))
      {
        var m := 0;
        if i :| 0 <= i < |events| && events[i].Invoke? {
          m := events[i].lock;
        }
        OneMutexIsSerial(events, m);
      }
    } else {
      var m, n :| m in mutexes && n in mutexes && m != n;
      var events := TwoMutexesAreNotSerial(m, n);
    }
  }
}
