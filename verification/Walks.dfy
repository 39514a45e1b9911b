/** Runs of a few threads as they look from outside, put together from what each thread does
    on its own while nobody else holds its mutex. */
module Walks {
  import opened Domain
  import opened Schema
  import opened Sqlite
  import opened History
  import opened Interleaving
  import opened Locks

  datatype Role = Role(lock: nat, cmd: Command)

  /** A state without its bookkeeping. Who holds which mutex is read off the places. */
  datatype View = View(conn: Connection<Db>, pcs: seq<Pc>, log: seq<Entry>)

  ghost predicate Shows(s: State, roles: seq<Role>, v: View) {
    && s.conn == v.conn && s.log == v.log
    && |s.threads| == |roles| == |v.pcs|
    && forall i :: 0 <= i < |roles| ==>
         s.threads[i].lock == roles[i].lock && s.threads[i].cmd == roles[i].cmd && s.threads[i].pc == v.pcs[i] && !s.threads[i].faulted
  }

  ghost function Mutexes(roles: seq<Role>): set<nat> {
    set i | 0 <= i < |roles| :: roles[i].lock
  }

  /** A run without faults of these threads that ends like this. */
  ghost predicate Reached(events: seq<Event>, roles: seq<Role>, v: View) {
    && Shows(Run(INIT, events), roles, v)
    && (forall i :: 0 <= i < |events| && events[i].Advance? ==> !events[i].fault)
    && (forall i :: 0 <= i < |events| && events[i].Invoke? ==> events[i].lock in Mutexes(roles))
  }

  /** Nobody else holds the thread's mutex. */
  ghost predicate Free(roles: seq<Role>, v: View, tid: nat) {
    && tid < |roles| == |v.pcs|
    && forall u :: 0 <= u < |roles| && u != tid && roles[u].lock == roles[tid].lock ==> Depth(v.pcs[u]) == 0
  }

  function Moved(v: View, tid: nat, turn: Turn): View
    requires tid < |v.pcs|
  {
    View(turn.conn, v.pcs[tid := turn.pc], if turn.logged.Some? then v.log + [Entry(tid, turn.logged.value)] else v.log)
  }

  lemma Move(roles: seq<Role>, v: View, tid: nat)
    requires Possible(roles, v) && Free(roles, v, tid) && !Stops(v.pcs[tid])
    ensures Possible(roles, Moved(v, tid, TakeTurn(roles[tid].cmd, v.pcs[tid], v.conn, false, "")))
  {
    var events :| Reached(events, roles, v);
    MoveExtends(events, roles, v, tid);
  }

  lemma MoveExtends(events: seq<Event>, roles: seq<Role>, v: View, tid: nat)
    requires Reached(events, roles, v) && Free(roles, v, tid) && !Stops(v.pcs[tid])
    ensures Reached(events + [Advance(tid, false, "")], roles,
                    Moved(v, tid, TakeTurn(roles[tid].cmd, v.pcs[tid], v.conn, false, "")))
  {
    assert (events + [Advance(tid, false, "")])[..|events|] == events;
    var s := Run(INIT, events);
    RunKeepsDiscipline(events);
    var lock := roles[tid].lock;
    if lock in s.locks {
      assert Owned(s.threads, s.locks, lock);
      assert Placed(s.threads, s.locks, s.locks[lock].owner);
    }
  }

  /** One thread on its own; `log` collects its commits. */
  datatype Local = Local(pc: Pc, conn: Connection<Db>, log: seq<Effect>)

  predicate Stops(pc: Pc) {
    pc.Done? || (pc.InPost? && pc.post.InsertOneField?)
  }

  function Next(cmd: Command, l: Local): Local {
    if Stops(l.pc) then l
    else
      var turn := TakeTurn(cmd, l.pc, l.conn, false, "");
      Local(turn.pc, turn.conn, if turn.logged.Some? then l.log + [turn.logged.value] else l.log)
  }

  function After(cmd: Command, l: Local, n: nat): Local {
    if n == 0 then l else Next(cmd, After(cmd, l, n - 1))
  }

  ghost predicate Leads(cmd: Command, from: Local, to: Local) {
    exists n: nat :: After(cmd, from, n) == to
  }

  lemma Onward(cmd: Command, from: Local, mid: Local, to: Local)
    requires from == mid || Leads(cmd, from, mid)
    requires Next(cmd, mid) == to
    ensures Leads(cmd, from, to)
  {
    var n: nat :| After(cmd, from, n) == mid;
    assert After(cmd, from, n + 1) == to;
  }

  function Entries(tid: nat, effects: seq<Effect>): seq<Entry> {
    seq(|effects|, i requires 0 <= i < |effects| => Entry(tid, effects[i]))
  }

  function Spliced(v: View, tid: nat, l: Local): View
    requires tid < |v.pcs|
  {
    View(l.conn, v.pcs[tid := l.pc], v.log + Entries(tid, l.log))
  }

  /** Some run ends like this. */
  ghost predicate Possible(roles: seq<Role>, v: View) {
    exists events :: Reached(events, roles, v)
  }

  lemma WalkOne(roles: seq<Role>, v: View, tid: nat, l: Local)
    requires Free(roles, v, tid) && Possible(roles, Spliced(v, tid, l))
    ensures Possible(roles, Spliced(v, tid, Next(roles[tid].cmd, l)))
  {
    if !Stops(l.pc) {
      Move(roles, Spliced(v, tid, l), tid);
      NextSplices(roles[tid].cmd, v, tid, l);
    }
  }

  lemma {:induction false} WalkMoves(roles: seq<Role>, v: View, tid: nat, n: nat)
    requires Possible(roles, v) && Free(roles, v, tid)
    ensures Possible(roles, Spliced(v, tid, After(roles[tid].cmd, Local(v.pcs[tid], v.conn, []), n)))
  {
    var start := Local(v.pcs[tid], v.conn, []);
    if n == 0 {
      assert Spliced(v, tid, start) == v;
    } else {
      WalkMoves(roles, v, tid, n - 1);
      WalkOne(roles, v, tid, After(roles[tid].cmd, start, n - 1));
    }
  }

  lemma NextSplices(cmd: Command, v: View, tid: nat, l: Local)
    requires tid < |v.pcs| && !Stops(l.pc)
    ensures Spliced(v, tid, Next(cmd, l)) == Moved(Spliced(v, tid, l), tid, TakeTurn(cmd, l.pc, l.conn, false, ""))
  {
    var turn := TakeTurn(cmd, l.pc, l.conn, false, "");
    if turn.logged.Some? {
      assert Entries(tid, l.log + [turn.logged.value]) == Entries(tid, l.log) + [Entry(tid, turn.logged.value)];
    }
  }

  /** A thread whose mutex nobody else holds can do in a run what it does on its own. */
  lemma Walk(roles: seq<Role>, v: View, tid: nat, to: Local, v': View)
    requires Possible(roles, v) && Free(roles, v, tid)
    requires Leads(roles[tid].cmd, Local(v.pcs[tid], v.conn, []), to)
    requires v' == Spliced(v, tid, to)
    ensures Possible(roles, v')
  {
    var n: nat :| After(roles[tid].cmd, Local(v.pcs[tid], v.conn, []), n) == to;
    WalkMoves(roles, v, tid, n);
  }

  lemma Issue(roles: seq<Role>, v: View, role: Role, roles': seq<Role>, v': View)
    requires Possible(roles, v) && roles' == roles + [role] && v' == v.(pcs := v.pcs + [Start])
    ensures Possible(roles', v')
  {
    var events :| Reached(events, roles, v);
    var longer := events + [Invoke(role.lock, role.cmd)];
    assert longer[..|events|] == events;
    assert Mutexes(roles') == Mutexes(roles) + {role.lock} by {
      assert roles'[|roles|] == role;
      assert forall i :: 0 <= i < |roles| ==> roles'[i] == roles[i];
    }
    assert Reached(longer, roles', v');
  }

  ghost predicate Bring(events: seq<Event>, mutexes: set<nat>) {
    forall i :: 0 <= i < |events| && events[i].Invoke? ==> events[i].lock in mutexes
  }

  lemma OnlyBrings(events: seq<Event>, roles: seq<Role>, v: View, mutexes: set<nat>)
    requires Reached(events, roles, v)
    requires forall i :: 0 <= i < |roles| ==> roles[i].lock in mutexes
    ensures Bring(events, mutexes) && forall i :: 0 <= i < |events| && events[i].Advance? ==> !events[i].fault
  {
  }
}
