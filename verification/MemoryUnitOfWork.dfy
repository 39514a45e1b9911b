/** The unit of work of both in-memory storages: two flags and nothing to undo. */
module MemoryUnitOfWork {
  import opened Domain
  import opened Schema
  import opened Sqlite
  import opened UnitOfWork

  datatype Flags = Flags(active: bool, committed: bool)

  const OPENED := Flags(true, false)

  datatype Ending = Commits | RollsBack

  /** What the first ending call decides, later ones leave alone. */
  function Decided(calls: seq<Ending>): Flags {
    if calls == [] then OPENED else Flags(false, calls[0] == Commits)
  }

  class InMemoryStorageUoW {
    var active: bool
    var committed: bool

    constructor ()
      ensures Snapshot() == OPENED
    {
      active, committed := true, false;
    }

    ghost function Snapshot(): Flags
      reads this
    {
      Flags(active, committed)
    }

    method Commit()
      modifies this
      ensures Snapshot() == After(old(Snapshot()), Commits)
    {
      if !active {
        return;
      }
      committed := true;
      active := false;
    }

    method Rollback()
      modifies this
      ensures Snapshot() == After(old(Snapshot()), RollsBack)
    {
      if !active {
        return;
      }
      committed := false;
      active := false;
    }

    method Destroy()
      modifies this
      ensures Snapshot() == old(Snapshot()).(active := false)
    {
      active := false;
    }
  }

  function After(flags: Flags, call: Ending): Flags {
    if !flags.active then flags else Flags(false, call == Commits)
  }

  function AfterAll(flags: Flags, calls: seq<Ending>): Flags
    decreases |calls|
  {
    if calls == [] then flags else AfterAll(After(flags, calls[0]), calls[1..])
  }

  lemma {:induction false} EndedStaysEnded(flags: Flags, calls: seq<Ending>)
    requires !flags.active
    ensures AfterAll(flags, calls) == flags
    decreases |calls|
  {
    if calls != [] {
      EndedStaysEnded(flags, calls[1..]);
    }
  }

  function AsCall(call: Ending, throws: bool): Call {
    if call == Commits then TryCommit(throws) else TryRollback(throws)
  }

  /** The calls that did not throw; a call that throws leaves the flags alone. */
  function Effective(calls: seq<Ending>, throws: seq<bool>): seq<Ending>
    requires |throws| == |calls|
    decreases |calls|
  {
    if calls == [] then []
    else if throws[0] then Effective(calls[1..], throws[1..])
    else [calls[0]] + Effective(calls[1..], throws[1..])
  }

  function AsCalls(calls: seq<Ending>, throws: seq<bool>): seq<Call>
    requires |throws| == |calls|
    decreases |calls|
  {
    if calls == [] then [] else [AsCall(calls[0], throws[0])] + AsCalls(calls[1..], throws[1..])
  }

  /** Both units of work report the same: after any calls, whichever of them throw on the
      SQLite side, its flags are those the in-memory one has after the calls that did not
      throw. */
  lemma {:induction false} FlagsAgree(u: Unit, calls: seq<Ending>, throws: seq<bool>, base: Db, depth: nat)
    requires |throws| == |calls| && Consistent(u, base, depth)
    ensures var last := PerformAll(u, AsCalls(calls, throws));
            Flags(last.active, last.committed) == AfterAll(Flags(u.active, u.committed), Effective(calls, throws))
    decreases |calls|
  {
    if calls != [] {
      var call, rest := AsCall(calls[0], throws[0]), AsCalls(calls[1..], throws[1..]);
      assert AsCalls(calls, throws)[1..] == rest;
      StaysConsistent(u, call, base, depth);
      FlagsAgree(Perform(u, call), calls[1..], throws[1..], base, depth);
      if !throws[0] {
        assert Effective(calls, throws)[1..] == Effective(calls[1..], throws[1..]);
      }
    }
  }

  /** The first ending call decides the flags of both, and later ones change nothing. */
  lemma FirstCallDecides(calls: seq<Ending>, throws: seq<bool>, conn: Connection<Db>, depth: nat)
    requires |throws| == |calls| && OpenUnit(conn, depth, false).Some?
    ensures AfterAll(OPENED, calls) == Decided(calls)
    ensures var last := PerformAll(OpenUnit(conn, depth, false).value, AsCalls(calls, throws));
            && Flags(last.active, last.committed) == Decided(Effective(calls, throws))
            && Flags(DestroyUnit(last).active, DestroyUnit(last).committed) == Decided(Effective(calls, throws)).(active := false)
  {
    var u := OpenUnit(conn, depth, false).value;
    FlagsAgree(u, calls, throws, conn.tables, depth);
    var effective := Effective(calls, throws);
    if calls != [] {
      EndedStaysEnded(After(OPENED, calls[0]), calls[1..]);
    }
    if effective != [] {
      EndedStaysEnded(After(OPENED, effective[0]), effective[1..]);
    }
  }
}
