/** One SQLite connection: the tables as it sees them and the snapshots taken by its open
    transaction and savepoints. A statement that fails backs out only itself. */
module Sqlite {
  import opened Domain

  datatype Frame<T> =
    | Begun(saved: T)
    | Saved(name: string, saved: T)

  /** frames[0] is the outermost frame. It may be a savepoint: SAVEPOINT outside a
      transaction opens one. */
  datatype Connection<T> = Connection(tables: T, frames: seq<Frame<T>>)
  {
    /** What a restart would find: the tables as the outermost open frame saved them. */
    function Durable(): T {
      if frames == [] then tables else frames[0].saved
    }
  }

  function Begin<T>(c: Connection<T>): Result<Connection<T>> {
    if c.frames == [] then Ok(c.(frames := [Begun(c.tables)])) else Err(Other)
  }

  function Commit<T>(c: Connection<T>): Result<Connection<T>> {
    if c.frames == [] then Err(Other) else Ok(c.(frames := []))
  }

  function Rollback<T>(c: Connection<T>): Result<Connection<T>> {
    if c.frames == [] then Err(Other) else Ok(Connection(c.frames[0].saved, []))
  }

  function Savepoint<T>(c: Connection<T>, name: string): Connection<T> {
    c.(frames := c.frames + [Saved(name, c.tables)])
  }

  /** RELEASE drops the innermost frame of that name and everything inside it. Dropping the
      outermost frame commits. */
  function Release<T>(c: Connection<T>, name: string): Result<Connection<T>> {
    var i := Innermost(c.frames, name);
    if i < 0 then Err(Other) else Ok(c.(frames := c.frames[..i]))
  }

  /** ROLLBACK TO restores the innermost frame of that name and keeps the frame open. */
  function RollbackTo<T>(c: Connection<T>, name: string): Result<Connection<T>> {
    var i := Innermost(c.frames, name);
    if i < 0 then Err(Other) else Ok(Connection(c.frames[i].saved, c.frames[..i + 1]))
  }

  /** SQLite compares savepoint names without regard to ASCII case. */
  predicate Names<T>(f: Frame<T>, name: string) {
    f.Saved? && |f.name| == |name| && forall i :: 0 <= i < |name| ==> Fold(f.name[i]) == Fold(name[i])
  }

  function Fold(c: char): char {
    if 'A' <= c <= 'Z' then c - 'A' + 'a' else c
  }

  function Innermost<T>(frames: seq<Frame<T>>, name: string): (i: int)
    ensures -1 <= i < |frames|
    ensures i >= 0 ==> Names(frames[i], name)
    ensures forall j :: i < j < |frames| ==> !Names(frames[j], name)
  {
    if frames == [] then -1
    else if Names(frames[|frames| - 1], name) then |frames| - 1
    else Innermost(frames[..|frames| - 1], name)
  }

  /** What the transaction commands make durable, and when they fail: COMMIT what the
      connection sees, ROLLBACK nothing, and BEGIN opens the first frame only. */
  lemma TransactionCommands<T>(c: Connection<T>)
    ensures Begin(c).Err? <==> c.frames != []
    ensures Begin(c).Ok? ==> Begin(c).value.tables == c.tables && Begin(c).value.Durable() == c.Durable() && |Begin(c).value.frames| == 1
    ensures Commit(c).Err? <==> c.frames == []
    ensures Commit(c).Ok? ==> Commit(c).value.Durable() == c.tables == Commit(c).value.tables && Commit(c).value.frames == []
    ensures Rollback(c).Err? <==> c.frames == []
    ensures Rollback(c).Ok? ==> Rollback(c).value.Durable() == c.Durable() == Rollback(c).value.tables && Rollback(c).value.frames == []
  {
  }

  /** The savepoint commands act on the innermost frame of their name, whatever lies inside
      it: RELEASE drops it with everything inside and keeps the tables; ROLLBACK TO restores
      what it saved, drops what lies inside, and keeps it; without such a frame both fail. */
  lemma SavepointCommands<T>(t: T, outer: seq<Frame<T>>, name: string, saved: T, inner: seq<Frame<T>>)
    requires forall i :: 0 <= i < |inner| ==> !Names(inner[i], name)
    ensures var frame := [Saved(name, saved)];
            var c := Connection(t, outer + frame + inner);
            && Release(c, name) == Ok(Connection(t, outer))
            && RollbackTo(c, name) == Ok(Connection(saved, outer + frame))
            && Release(Connection(t, inner), name).Err? && RollbackTo(Connection(t, inner), name).Err?
  {
    var all := outer + [Saved(name, saved)] + inner;
    var i := Innermost(all, name);
    assert all[|outer|] == Saved(name, saved);
    assert forall j :: |outer| < j < |all| ==> all[j] == inner[j - |outer| - 1];
    assert i == |outer|;
    assert all[..i] == outer && all[..i + 1] == outer + [Saved(name, saved)];
  }

  // ----- Programs built from guards -----

  /** Client code as a tree of statements, guards, units of work and handlers. The Boolean
      fields say which of the commands a construct issues itself throws. */
  datatype Program<!T> =
    | Skip
    | Statement(effect: T -> Result<T>)
    | Sequence(first: Program<T>, second: Program<T>)
    | CatchAll(body: Program<T>)
    | Guarded(name: string, openThrows: bool, releaseThrows: bool, body: Program<T>)
    | UnitOfWork(beginThrows: bool, commitThrows: bool, body: Program<T>)

  datatype Ending<T> = Ending(state: T, threw: bool)

  /** `~SavepointGuard` of an unreleased guard: the second command runs only if the first
      did not throw, and nothing escapes. */
  function UndoGuard<T>(c: Connection<T>, name: string): Connection<T> {
    match RollbackTo(c, name)
    case Err(_) => c
    case Ok(c1) =>
      match Release(c1, name)
      case Err(_) => c1
      case Ok(c2) => c2
  }

  /** `~Transaction` of an uncommitted transaction: ROLLBACK, ignoring an error. */
  function UndoTransaction<T>(c: Connection<T>): Connection<T> {
    match Rollback(c)
    case Err(_) => c
    case Ok(c1) => c1
  }

  /** Execution on the connection, command by command. */
  function Execute<T>(p: Program<T>, c: Connection<T>): Ending<Connection<T>> {
    match p
    case Skip => Ending(c, false)
    case Statement(effect) =>
      (match effect(c.tables)
       case Err(_) => Ending(c, true)
       case Ok(t) => Ending(c.(tables := t), false))
    case Sequence(first, second) =>
      var e := Execute(first, c);
      if e.threw then e else Execute(second, e.state)
    case CatchAll(body) => Ending(Execute(body, c).state, false)
    case Guarded(name, openThrows, releaseThrows, body) =>
      if openThrows then Ending(c, true)
      else
        var e := Execute(body, Savepoint(c, name));
        if e.threw || releaseThrows then Ending(UndoGuard(e.state, name), true)
        else
          (match Release(e.state, name)
           case Err(_) => Ending(UndoGuard(e.state, name), true)
           case Ok(c1) => Ending(c1, false))
    case UnitOfWork(beginThrows, commitThrows, body) =>
      if beginThrows || Begin(c).Err? then Ending(c, true)
      else
        var e := Execute(body, Begin(c).value);
        if e.threw || commitThrows then Ending(UndoTransaction(e.state), true)
        else
          (match Commit(e.state)
           case Err(_) => Ending(UndoTransaction(e.state), true)
           case Ok(c1) => Ending(c1, false))
  }

  /** What a program means, with no connection and no snapshots: a guard or unit of work has
      its body's effect if nothing throws and none otherwise. A unit of work cannot start
      inside an open transaction. */
  function Meaning<T>(p: Program<T>, t: T, open: bool): Ending<T> {
    match p
    case Skip => Ending(t, false)
    case Statement(effect) =>
      (match effect(t)
       case Err(_) => Ending(t, true)
       case Ok(t') => Ending(t', false))
    case Sequence(first, second) =>
      var e := Meaning(first, t, open);
      if e.threw then e else Meaning(second, e.state, open)
    case CatchAll(body) => Ending(Meaning(body, t, open).state, false)
    case Guarded(_, openThrows, releaseThrows, body) =>
      var e := Meaning(body, t, true);
      if openThrows || e.threw || releaseThrows then Ending(t, true) else e
    case UnitOfWork(beginThrows, commitThrows, body) =>
      var e := Meaning(body, t, true);
      if open || beginThrows || e.threw || commitThrows then Ending(t, true) else e
  }

  /** A frame just pushed is the one its own name finds, whatever names are already open. */
  lemma OwnFrame<T>(frames: seq<Frame<T>>, name: string, saved: T)
    ensures Innermost(frames + [Saved(name, saved)], name) == |frames|
  {
  }

  /** Any program, however deeply its guards nest and whatever names they reuse, inside or
      outside a transaction: the snapshot stack ends as it began and the tables are what the
      stack-free meaning says. */
  lemma {:induction false} GuardsMeanWhatTheySay<T>(p: Program<T>, c: Connection<T>)
    ensures var m := Meaning(p, c.tables, c.frames != []);
            Execute(p, c) == Ending(Connection(m.state, c.frames), m.threw)
    decreases p
  {
    match p
    case Skip =>
    case Statement(_) =>
    case Sequence(first, second) =>
      GuardsMeanWhatTheySay(first, c);
      var e := Execute(first, c);
      if !e.threw {
        GuardsMeanWhatTheySay(second, e.state);
      }
    case CatchAll(body) =>
      GuardsMeanWhatTheySay(body, c);
    case Guarded(name, _, _, body) =>
      var inside := Savepoint(c, name);
      GuardsMeanWhatTheySay(body, inside);
      OwnFrame(c.frames, name, c.tables);
      assert inside.frames[..|c.frames|] == c.frames;
      assert inside.frames[..|c.frames| + 1] == inside.frames;
    case UnitOfWork(_, _, body) =>
      if Begin(c).Ok? {
        GuardsMeanWhatTheySay(body, Begin(c).value);
      }
  }

  /** Run with no transaction open, a program's meaning is durable when it returns; run
      inside one, nothing becomes durable. */
  lemma DurableEffect<T>(p: Program<T>, c: Connection<T>)
    ensures var after := Execute(p, c).state.Durable();
            after == if c.frames == [] then Meaning(p, c.tables, false).state else c.Durable()
  {
    GuardsMeanWhatTheySay(p, c);
  }
}
