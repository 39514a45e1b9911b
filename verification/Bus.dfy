/** MessageBus: handlers of every command type in one map, behind boxes that only remember
    the type of what was put into them. */
module Bus {
  import opened Domain

  /** A command type, and an object some handlers are methods of. */
  type TypeId = nat
  type ObjectId = nat

  /** Contents of a `std::any`, as far as a cast can tell. */
  datatype Tag = SharedCommand(cmd: TypeId) | ExpectedOf(cmd: TypeId)
  datatype Any = Any(tag: Tag, value: int)

  /** What a handler itself does with a command. */
  datatype Outcome = Returns(value: int) | Throws

  /** The lambdas that `registerHandler` stores; each casts to the command type it was made
      for. The second kind holds its object weakly. */
  datatype HandlerFn =
    | Callback(cmd: TypeId, body: int -> Outcome)
    | MethodOf(cmd: TypeId, owner: ObjectId, body: int -> Outcome)

  datatype Invoked = Boxed(result: Any) | BadCast | ObjectExpired | HandlerThrew

  function Run(fn: HandlerFn, value: int): Invoked {
    match fn.body(value)
    case Throws => HandlerThrew
    case Returns(r) => Boxed(Any(ExpectedOf(fn.cmd), r))
  }

  /** `std::invoke(fn, boxedCmd)`: the weak pointer is locked before the command is unboxed. */
  function Invoke(fn: HandlerFn, boxed: Any, expired: set<ObjectId>): Invoked {
    if fn.MethodOf? && fn.owner in expired then ObjectExpired
    else if boxed.tag != SharedCommand(fn.cmd) then BadCast
    else Run(fn, boxed.value)
  }

  datatype CallResult = Result(value: int) | NoHandler | Expired | Failed | CastFailed

  /** `call`: box the command, invoke, unbox the result. */
  function Call(handlers: map<TypeId, HandlerFn>, expired: set<ObjectId>, cmd: TypeId, value: int): CallResult {
    if cmd !in handlers then NoHandler
    else match Invoke(handlers[cmd], Any(SharedCommand(cmd), value), expired)
         case BadCast => CastFailed
         case ObjectExpired => Expired
         case HandlerThrew => Failed
         case Boxed(result) => if result.tag == ExpectedOf(cmd) then Result(result.value) else CastFailed
  }

  // ----- Over every sequence of events -----

  datatype Event =
    | Registered(cmd: TypeId, owner: Option<ObjectId>, body: int -> Outcome)
    | LastOwnerGone(gone: ObjectId)
    | Called(cmd: TypeId, value: int)

  function HandlersAfter(events: seq<Event>): map<TypeId, HandlerFn> {
    if events == [] then map[]
    else
      var before, last := HandlersAfter(events[..|events| - 1]), events[|events| - 1];
      if last.Registered? then before[last.cmd := Stored(last)] else before
  }

  /** The lambda a registration stores. */
  function Stored(registration: Event): HandlerFn
    requires registration.Registered?
  {
    match registration.owner
    case None => Callback(registration.cmd, registration.body)
    case Some(owner) => MethodOf(registration.cmd, owner, registration.body)
  }

  function ExpiredAfter(events: seq<Event>): set<ObjectId> {
    set i | 0 <= i < |events| && events[i].LastOwnerGone? :: events[i].gone
  }

  predicate IsLatestFor(events: seq<Event>, cmd: TypeId, i: nat) {
    && i < |events| && events[i].Registered? && events[i].cmd == cmd
    && forall j :: i < j < |events| && events[j].Registered? ==> events[j].cmd != cmd
  }

  /** What a call should answer, read off the events: the latest registration for its type
      decides, if there is one and its object is still there. */
  ghost predicate Answers(events: seq<Event>, cmd: TypeId, value: int, r: CallResult) {
    if forall i :: 0 <= i < |events| && events[i].Registered? ==> events[i].cmd != cmd then r == NoHandler
    else exists i: nat :: IsLatestFor(events, cmd, i) &&
           if events[i].owner.Some? && exists j :: 0 <= j < |events| && events[j] == LastOwnerGone(events[i].owner.value)
           then r == Expired
           else match events[i].body(value)
                case Throws => r == Failed
                case Returns(v) => r == Result(v)
  }

  /** Each entry of the map is the latest registration for its type, made for that type. */
  lemma {:induction false} HandlersAreLatest(events: seq<Event>, cmd: TypeId)
    ensures cmd !in HandlersAfter(events) ==>
              forall i :: 0 <= i < |events| && events[i].Registered? ==> events[i].cmd != cmd
    ensures cmd in HandlersAfter(events) ==>
              exists i: nat :: IsLatestFor(events, cmd, i) &&
                HandlersAfter(events)[cmd] == Stored(events[i])
  {
    if events != [] {
      var n := |events| - 1;
      var before, last := events[..n], events[n];
      HandlersAreLatest(before, cmd);
      assert forall i :: 0 <= i < n ==> events[i] == before[i];
      if last.Registered? && last.cmd == cmd {
        assert IsLatestFor(events, cmd, n);
      } else if cmd in HandlersAfter(before) {
        var i: nat :| IsLatestFor(before, cmd, i) && HandlersAfter(before)[cmd] == Stored(before[i]);
        assert IsLatestFor(events, cmd, i);
      }
    }
  }

  /** At any point of any sequence of registrations, expiries and calls, no cast ever fails
      and a call answers as the latest registration for its type says. */
  lemma CallsReachLatest(events: seq<Event>, cmd: TypeId, value: int)
    ensures var r := Call(HandlersAfter(events), ExpiredAfter(events), cmd, value);
            r != CastFailed && Answers(events, cmd, value, r)
  {
    HandlersAreLatest(events, cmd);
    var handlers, expired := HandlersAfter(events), ExpiredAfter(events);
    if cmd in handlers {
      var i: nat :| IsLatestFor(events, cmd, i) && handlers[cmd] == Stored(events[i]);
      if events[i].owner.Some? {
        var owner := events[i].owner.value;
        assert owner in expired <==> exists j :: 0 <= j < |events| && events[j] == LastOwnerGone(owner);
      }
    }
  }

  // ----- As an object -----

  /** The bus and the control blocks of the objects its weak pointers name. */
  class MessageBus {
    ghost var events: seq<Event>
    var handlers: map<TypeId, HandlerFn>
    var expired: set<ObjectId>

    ghost predicate Valid()
      reads this
    {
      handlers == HandlersAfter(events) && expired == ExpiredAfter(events)
    }

    constructor ()
      ensures Valid() && events == []
    {
      events, handlers, expired := [], map[], {};
    }

    method RegisterCallback(cmd: TypeId, body: int -> Outcome)
      requires Valid()
      modifies this
      ensures Valid() && events == old(events) + [Registered(cmd, None, body)]
    {
      handlers := handlers[cmd := Callback(cmd, body)];
      events := events + [Registered(cmd, None, body)];
      assert events[..|events| - 1] == old(events);
      ExpiryOnly(old(events), Registered(cmd, None, body));
    }

    method RegisterMethod(cmd: TypeId, owner: ObjectId, body: int -> Outcome)
      requires Valid()
      modifies this
      ensures Valid() && events == old(events) + [Registered(cmd, Some(owner), body)]
    {
      handlers := handlers[cmd := MethodOf(cmd, owner, body)];
      events := events + [Registered(cmd, Some(owner), body)];
      assert events[..|events| - 1] == old(events);
      ExpiryOnly(old(events), Registered(cmd, Some(owner), body));
    }

    /** The last shared pointer to an object is gone. */
    method Expire(gone: ObjectId)
      requires Valid()
      modifies this
      ensures Valid() && events == old(events) + [LastOwnerGone(gone)]
    {
      expired := expired + {gone};
      events := events + [LastOwnerGone(gone)];
      assert events[..|events| - 1] == old(events);
      ExpiryOnly(old(events), LastOwnerGone(gone));
    }

    /** `call`: the answer that the bus's whole past prescribes, and never a failed cast. */
    method CallHandler(cmd: TypeId, value: int) returns (r: CallResult)
      requires Valid()
      ensures r != CastFailed && Answers(events, cmd, value, r)
    {
      CallsReachLatest(events, cmd, value);
      if cmd !in handlers {
        return NoHandler;
      }
      var fn := handlers[cmd];
      var boxedRes := Invoke(fn, Any(SharedCommand(cmd), value), expired);
      match boxedRes
      case Boxed(result) => r := if result.tag == ExpectedOf(cmd) then Result(result.value) else CastFailed;
      case BadCast => r := CastFailed;
      case ObjectExpired => r := Expired;
      case HandlerThrew => r := Failed;
    }
  }

  lemma ExpiryOnly(events: seq<Event>, e: Event)
    ensures ExpiredAfter(events + [e]) == ExpiredAfter(events) + if e.LastOwnerGone? then {e.gone} else {}
  {
    var longer := events + [e];
    assert forall i :: 0 <= i < |events| ==> longer[i] == events[i];
    assert longer[|events|] == e;
  }
}
