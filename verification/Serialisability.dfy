/** Threads that all bring the same mutex (the threads of one storage that has its connection
    to itself, or of both storages sharing a mutex) behave as if their commands ran one at a
    time in commit order. */
module Serialisability {
  import opened Domain
  import opened Schema
  import opened Sqlite
  import opened History
  import opened Interleaving
  import opened Locks
  import opened Turns

  // ----- The log as a history -----

  function Effects(log: seq<Entry>): seq<Effect> {
    seq(|log|, i requires 0 <= i < |log| => log[i].effect)
  }

  /** The tables after the logged commits, one at a time, from an empty database. */
  function Store(log: seq<Entry>): Db {
    Replay(Effects(log))
  }

  lemma StoreGrows(log: seq<Entry>, entry: Entry)
    ensures Store(log + [entry]) == Apply(Store(log), entry.effect)
  {
    var effects := Effects(log + [entry]);
    assert effects[..|log|] == Effects(log);
  }

  // ----- The invariant -----

  /** A thread that has its response: the store at its point explains it, and a response
      that reports a change has the log entry to show for it. */
  ghost predicate Settled(log: seq<Entry>, th: Thread, tid: nat)
    requires th.point <= |log|
  {
    (th.pc.Leave? || th.pc.Done?) ==>
      && Explained(th.cmd, th.pc.resp, Store(log[..th.point]), th.faulted)
      && (th.pc.resp.Wins() ==> th.point < |log| && log[th.point] == Entry(tid, EffectOf(th.cmd)))
  }

  ghost predicate ThreadFine(s: State, m: nat, tid: nat)
    requires tid < |s.threads|
  {
    var th := s.threads[tid];
    && th.lock == m
    && th.born <= th.point <= |s.log|
    && Depth(th.pc) == Held(s.locks, m, tid)
    && (th.pc.StartAdd? ==> Adds(th.cmd))
    && Settled(s.log, th, tid)
  }

  /** Every log entry belongs to the one thread that reports it. */
  ghost predicate EntryFine(s: State, i: nat)
    requires i < |s.log|
  {
    var tid := s.log[i].tid;
    && tid < |s.threads|
    && s.threads[tid].point == i
    && (s.threads[tid].pc.Leave? || s.threads[tid].pc.Done?)
    && s.threads[tid].pc.resp.Wins()
  }

  /** The mutex's owner is somewhere on its way from the committed tables; without an owner
      the connection is those tables and nothing is open. */
  ghost predicate ConnFine(s: State, m: nat) {
    if m in s.locks then
      var tid := s.locks[m].owner;
      && tid < |s.threads| && s.locks[m].depth > 0
      && Mid(s.threads[tid].cmd, s.threads[tid].pc, s.conn, Store(s.log), s.threads[tid].faulted)
    else Idle(s.conn, Store(s.log))
  }

  ghost predicate Inv(s: State, m: nat) {
    && s.locks.Keys <= {m}
    && ConnFine(s, m)
    && (forall tid :: 0 <= tid < |s.threads| ==> ThreadFine(s, m, tid))
    && (forall i :: 0 <= i < |s.log| ==> EntryFine(s, i))
  }

  /** A thread that does not move stays as it was, however the log grows. */
  lemma OthersStayFine(s: State, s': State, m: nat, mover: nat)
    requires Inv(s, m) && mover < |s.threads| == |s'.threads|
    requires s.log <= s'.log
    requires forall u :: 0 <= u < |s.threads| && u != mover ==> s'.threads[u] == s.threads[u] && Held(s'.locks, m, u) == Held(s.locks, m, u)
    ensures forall u :: 0 <= u < |s.threads| && u != mover ==> ThreadFine(s', m, u)
  {
    forall u | 0 <= u < |s.threads| && u != mover
      ensures ThreadFine(s', m, u)
    {
      assert ThreadFine(s, m, u);
      var n := s.threads[u].point;
      assert s'.log[..n] == s.log[..n];
    }
  }

  lemma InvokeKeeps(s: State, m: nat, cmd: Command)
    requires Inv(s, m)
    ensures Inv(Step(s, Invoke(m, cmd)), m)
  {
    var s' := Step(s, Invoke(m, cmd));
    var n := |s.threads|;
    assert forall u :: 0 <= u < n ==> s'.threads[u] == s.threads[u];
    forall u | 0 <= u < |s'.threads|
      ensures ThreadFine(s', m, u)
    {
      assert u < n ==> ThreadFine(s, m, u);
      assert m in s.locks ==> s.locks[m].owner < n;
    }
    forall i | 0 <= i < |s'.log|
      ensures EntryFine(s', i)
    {
      assert EntryFine(s, i);
    }
  }

  /** Entries stay with their threads: a thread that has an entry only goes on to return. */
  lemma EntriesStayFine(s: State, s': State, m: nat, mover: nat)
    requires Inv(s, m) && mover < |s.threads| == |s'.threads|
    requires s.log <= s'.log
    requires forall u :: 0 <= u < |s.threads| && u != mover ==> s'.threads[u] == s.threads[u]
    requires s.threads[mover].pc.Leave? ==>
               s'.threads[mover].pc == Done(s.threads[mover].pc.resp) && s'.threads[mover].point == s.threads[mover].point
    requires !s.threads[mover].pc.Done?
    ensures forall i :: 0 <= i < |s.log| ==> EntryFine(s', i)
  {
    forall i | 0 <= i < |s.log|
      ensures EntryFine(s', i)
    {
      assert EntryFine(s, i);
      assert s'.log[i] == s.log[i];
    }
  }

  /** A move of a thread that does not hold the mutex: taking it, when it is free, or an
      answer that needs no database. */
  lemma OutsideMoveKeeps(s: State, m: nat, tid: nat, fault: bool, pick: string)
    requires Inv(s, m) && Enabled(s, tid, pick) && Depth(s.threads[tid].pc) == 0
    ensures Inv(Step(s, Advance(tid, fault, pick)), m)
  {
    var s' := Step(s, Advance(tid, fault, pick));
    assert ThreadFine(s, m, tid);
    assert m in s.locks ==> s.locks[m].owner != tid;
    OthersStayFine(s, s', m, tid);
    EntriesStayFine(s, s', m, tid);
    OutsideMoveConn(s, m, tid, fault, pick);
    OutsideMoverFine(s, m, tid, fault, pick);
  }

  lemma OutsideMoverFine(s: State, m: nat, tid: nat, fault: bool, pick: string)
    requires Inv(s, m) && Enabled(s, tid, pick) && Depth(s.threads[tid].pc) == 0
    ensures ThreadFine(Step(s, Advance(tid, fault, pick)), m, tid)
  {
    assert ThreadFine(s, m, tid);
    OutsideTurn(s.threads[tid].cmd, s.threads[tid].pc, s.conn, fault, pick);
    assert m in s.locks ==> s.locks[m].owner != tid;
  }

  lemma OutsideMoveConn(s: State, m: nat, tid: nat, fault: bool, pick: string)
    requires Inv(s, m) && Enabled(s, tid, pick) && Depth(s.threads[tid].pc) == 0
    ensures ConnFine(Step(s, Advance(tid, fault, pick)), m)
  {
    var s', th := Step(s, Advance(tid, fault, pick)), s.threads[tid];
    assert ThreadFine(s, m, tid);
    if m in s.locks {
      assert s.locks[m].owner != tid;
      assert s'.conn == s.conn && s'.locks == s.locks;
      assert s'.threads[s.locks[m].owner] == s.threads[s.locks[m].owner];
    } else {
      FirstHold(th.cmd, th.pc, s.conn, Store(s.log), th.faulted, fault, pick);
      assert s'.conn == s.conn && s'.log == s.log;
    }
  }

  /** A move under the mutex that commits nothing. */
  lemma QuietMoveKeeps(s: State, m: nat, tid: nat, fault: bool, pick: string)
    requires Inv(s, m) && Enabled(s, tid, pick) && Depth(s.threads[tid].pc) > 0
    requires TakeTurn(s.threads[tid].cmd, s.threads[tid].pc, s.conn, fault, pick).logged.None?
    ensures Inv(Step(s, Advance(tid, fault, pick)), m)
  {
    var s', th := Step(s, Advance(tid, fault, pick)), s.threads[tid];
    assert ThreadFine(s, m, tid);
    TurnFollows(th.cmd, th.pc, s.conn, Store(s.log), th.faulted, fault, pick);
    OthersStayFine(s, s', m, tid);
    EntriesStayFine(s, s', m, tid);
    assert s.log[..|s.log|] == s.log;
    assert ThreadFine(s', m, tid);
  }

  /** The commit itself: the log grows by the thread's effect, at the thread's point, and
      the connection is the grown log's store. */
  ghost predicate Commits(s: State, s': State, tid: nat)
    requires tid < |s.threads|
  {
    var th := s.threads[tid];
    && |s'.threads| == |s.threads| && s'.locks == s.locks
    && s'.log == s.log + [Entry(tid, EffectOf(th.cmd))]
    && (var th' := s'.threads[tid];
        && s'.threads == s.threads[tid := th']
        && th' == th.(pc := th'.pc, point := |s.log|, faulted := th'.faulted) && th'.pc.Leave? && th'.pc.resp.Wins()
        && Explained(th.cmd, th'.pc.resp, Store(s.log), th'.faulted)
        && Mid(th.cmd, th'.pc, s'.conn, Store(s'.log), th'.faulted))
  }

  lemma CommitMove(s: State, m: nat, tid: nat, fault: bool, pick: string)
    requires Inv(s, m) && Enabled(s, tid, pick) && Depth(s.threads[tid].pc) > 0
    requires TakeTurn(s.threads[tid].cmd, s.threads[tid].pc, s.conn, fault, pick).logged.Some?
    ensures s.threads[tid].pc.At? && Commits(s, Step(s, Advance(tid, fault, pick)), tid)
  {
    var th := s.threads[tid];
    assert ThreadFine(s, m, tid);
    CommitTurn(th.cmd, th.pc, s.conn, Store(s.log), th.faulted, fault, pick);
    StoreGrows(s.log, Entry(tid, EffectOf(th.cmd)));
  }

  /** The committing thread still holds the mutex, has its response and its entry. */
  lemma CommitterFine(s: State, s': State, m: nat, tid: nat)
    requires Inv(s, m) && tid < |s.threads| && s.threads[tid].pc.At? && Commits(s, s', tid)
    ensures ThreadFine(s', m, tid) && EntryFine(s', |s.log|) && ConnFine(s', m)
  {
    assert ThreadFine(s, m, tid);
    assert s'.log[..|s.log|] == s.log;
  }

  lemma CommitKeeps(s: State, m: nat, tid: nat, fault: bool, pick: string)
    requires Inv(s, m) && Enabled(s, tid, pick) && Depth(s.threads[tid].pc) > 0
    requires TakeTurn(s.threads[tid].cmd, s.threads[tid].pc, s.conn, fault, pick).logged.Some?
    ensures Inv(Step(s, Advance(tid, fault, pick)), m)
  {
    CommitMove(s, m, tid, fault, pick);
    CommitKeepsInv(s, Step(s, Advance(tid, fault, pick)), m, tid);
  }

  lemma CommitKeepsInv(s: State, s': State, m: nat, tid: nat)
    requires Inv(s, m) && tid < |s.threads| && s.threads[tid].pc.At? && Commits(s, s', tid)
    ensures Inv(s', m)
  {
    CommitterFine(s, s', m, tid);
    OthersStayFine(s, s', m, tid);
    EntriesStayFine(s, s', m, tid);
  }

  /** All events bring mutex `m`. */
  ghost predicate OneMutex(events: seq<Event>, m: nat) {
    forall i :: 0 <= i < |events| && events[i].Invoke? ==> events[i].lock == m
  }

  lemma StepKeepsInv(s: State, m: nat, e: Event)
    requires Inv(s, m) && (e.Invoke? ==> e.lock == m)
    ensures Inv(Step(s, e), m)
  {
    match e
    case Invoke(lock, cmd) => InvokeKeeps(s, m, cmd);
    case Advance(tid, fault, pick) =>
      if Enabled(s, tid, pick) {
        if Depth(s.threads[tid].pc) == 0 {
          OutsideMoveKeeps(s, m, tid, fault, pick);
        } else if TakeTurn(s.threads[tid].cmd, s.threads[tid].pc, s.conn, fault, pick).logged.None? {
          QuietMoveKeeps(s, m, tid, fault, pick);
        } else {
          CommitKeeps(s, m, tid, fault, pick);
        }
      }
  }

  /** The invariant holds after every interleaving. */
  lemma {:induction false} RunKeepsInv(events: seq<Event>, m: nat)
    requires OneMutex(events, m)
    ensures Inv(Run(INIT, events), m)
  {
    if events == [] {
      assert Effects([]) == [];
    } else {
      var before := events[..|events| - 1];
      assert OneMutex(before, m);
      RunKeepsInv(before, m);
      StepKeepsInv(Run(INIT, before), m, events[|events| - 1]);
    }
  }

  // ----- What follows for every interleaving -----

  /** The durable tables are the logged commits applied one at a time, at every moment; and
      a transaction is open only while somebody holds the mutex. */
  lemma CommittedIsSerial(events: seq<Event>, m: nat)
    requires OneMutex(events, m)
    ensures var s := Run(INIT, events);
            s.conn.Durable() == Store(s.log) && (s.conn.frames != [] ==> m in s.locks)
  {
    RunKeepsInv(events, m);
    var s := Run(INIT, events);
    if m in s.locks {
      var th := s.threads[s.locks[m].owner];
      DurableMeanwhile(th.cmd, th.pc, s.conn, Store(s.log), th.faulted);
    }
  }

  /** The log is exactly the reported changes: each entry succeeded where it stands, its
      thread reports it, and no thread has two. */
  lemma LogIsAccountedFor(events: seq<Event>, m: nat, i: nat)
    requires OneMutex(events, m) && i < |Run(INIT, events).log|
    ensures var s := Run(INIT, events);
            && s.log[i].effect.Succeeds(Store(s.log[..i]))
            && s.log[i].tid < |s.threads|
            && (var th := s.threads[s.log[i].tid];
                && s.log[i].effect == EffectOf(th.cmd)
                && (th.pc.Leave? || th.pc.Done?) && th.pc.resp.Wins())
            && forall j :: 0 <= j < |s.log| && s.log[j].tid == s.log[i].tid ==> j == i
  {
    RunKeepsInv(events, m);
    var s := Run(INIT, events);
    EntrySucceeds(s, m, i);
    assert EntryFine(s, i);
    assert ThreadFine(s, m, s.log[i].tid);
    forall j | 0 <= j < |s.log| && s.log[j].tid == s.log[i].tid
      ensures j == i
    {
      assert EntryFine(s, j);
    }
  }

  lemma EntrySucceeds(s: State, m: nat, i: nat)
    requires Inv(s, m) && i < |s.log|
    ensures s.log[i].effect.Succeeds(Store(s.log[..i]))
  {
    assert EntryFine(s, i);
    assert ThreadFine(s, m, s.log[i].tid);
    WinnersSucceed(s.threads[s.log[i].tid], Store(s.log[..i]));
  }

  lemma WinnersSucceed(th: Thread, t: Db)
    requires (th.pc.Leave? || th.pc.Done?) && th.pc.resp.Wins() && Explained(th.cmd, th.pc.resp, t, th.faulted)
    ensures EffectOf(th.cmd).Succeeds(t)
  {
  }

  /** Every finished command answered as if it had run alone at some moment between its
      start and now: on the store of that moment, the answer is its solo answer, or a fault
      struck it, or it is Google's loser. A reported change is the log entry of that very
      moment. */
  lemma EveryAnswerIsSerial(events: seq<Event>, m: nat, tid: nat)
    requires OneMutex(events, m)
    requires tid < |Run(INIT, events).threads| && Run(INIT, events).threads[tid].pc.Done?
    ensures var s := Run(INIT, events);
            var th := s.threads[tid];
            && th.born <= th.point <= |s.log|
            && Explained(th.cmd, th.pc.resp, Store(s.log[..th.point]), th.faulted)
            && (if th.pc.resp.Wins() then th.point < |s.log| && s.log[th.point] == Entry(tid, EffectOf(th.cmd))
                else forall i :: 0 <= i < |s.log| ==> s.log[i].tid != tid)
  {
    RunKeepsInv(events, m);
    var s := Run(INIT, events);
    assert ThreadFine(s, m, tid);
    if !s.threads[tid].pc.resp.Wins() {
      forall i | 0 <= i < |s.log|
        ensures s.log[i].tid != tid
      {
        assert EntryFine(s, i);
      }
    }
  }
}
