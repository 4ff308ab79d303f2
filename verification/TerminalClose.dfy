/**
 * Terminal closure of admission: registrations, closes, shard exits and shutdown
 * requests interleave at the granularity of the registry lock and of single
 * semaphore closures (`ByteAdmission`, `request_shutdown`).
 */
module TerminalClose {
  import opened Base

  /** A call in progress, by what it has left to do. */
  datatype Call =
    | Register(sem: nat)                                        // before the lock
    | RegisterLate(sem: nat)                                    // found the registry closed
    | Close(after: seq<nat>)                                    // before the lock
    | Taken(bytesDone: bool, rest: seq<nat>, after: seq<nat>)   // holds the counts it took
    | CloseAll(rest: seq<nat>, all: seq<nat>)                   // `request_shutdown`'s own loop
    | Returned(promised: seq<nat>, bytes: bool)                 // what it returned with

  /** What a call was made for. */
  datatype Ask = ForRegister(sem: nat) | ForClose | ForShutdown(sems: seq<nat>)

  /** `limited`: the driver has a byte budget, and with it a registry. */
  datatype Admission = Admission(
    limited: bool,
    registryClosed: bool,
    counts: seq<nat>,
    registered: set<nat>,     // history: semaphores that entered the registry or found it closed
    closed: set<nat>,
    bytesClosed: bool,
    asked: seq<Ask>,          // history: what each call was made for
    calls: seq<Call>)

  datatype Event =
    | StartRegister(sem: nat)
    | StartClose                    // also the guard a shard thread drops on its way out
    | StartShutdown(sems: seq<nat>)
    | ShardExits(sem: nat)          // `sem.close()` at the end of `drive`
    | Step(k: nat)

  function SetCall(a: Admission, k: nat, c: Call): Admission
    requires k < |a.calls|
  {
    a.(calls := a.calls[k := c])
  }

  function DoStep(a: Admission, k: nat): Admission
    requires k < |a.calls|
  {
    match a.calls[k]
    case Register(sem) =>
      if a.registryClosed then SetCall(a.(registered := a.registered + {sem}), k, RegisterLate(sem))
      else SetCall(a.(registered := a.registered + {sem}, counts := a.counts + [sem]), k, Returned([], false))
    case RegisterLate(sem) => SetCall(a.(closed := a.closed + {sem}), k, Returned([sem], false))
    case Close(after) => SetCall(a.(registryClosed := true, counts := []), k, Taken(false, a.counts, after))
    case Taken(bytesDone, rest, after) =>
      if !bytesDone then SetCall(a.(bytesClosed := true), k, Taken(true, rest, after))
      else if rest == [] then SetCall(a, k, CloseAll(after, after))
      else SetCall(a.(closed := a.closed + {rest[0]}), k, Taken(true, rest[1..], after))
    case CloseAll(rest, all) =>
      if rest == [] then SetCall(a, k, Returned(all, a.limited))
      else SetCall(a.(closed := a.closed + {rest[0]}), k, CloseAll(rest[1..], all))
    case Returned(_, _) => a
  }

  function Begin(a: Admission, ask: Ask, c: Call): Admission {
    a.(asked := a.asked + [ask], calls := a.calls + [c])
  }

  function Next(a: Admission, e: Event): Admission {
    match e
    case StartRegister(sem) => if a.limited then Begin(a, ForRegister(sem), Register(sem)) else a
    case StartClose => if a.limited then Begin(a, ForClose, Close([])) else a
    case StartShutdown(sems) => Begin(a, ForShutdown(sems), if a.limited then Close(sems) else CloseAll(sems, sems))
    case ShardExits(sem) => a.(closed := a.closed + {sem})
    case Step(k) => if k < |a.calls| then DoStep(a, k) else a
  }

  function Run(limited: bool, events: seq<Event>): Admission
    decreases |events|
  {
    if events == [] then Admission(limited, false, [], {}, {}, false, [], [])
    else Next(Run(limited, events[..|events| - 1]), events[|events| - 1])
  }

  // ---- the invariant ----

  /** The call will still close this semaphore. */
  predicate WillClose(c: Call, sem: nat) {
    match c
    case RegisterLate(x) => x == sem
    case Taken(_, rest, _) => sem in rest
    case _ => false
  }

  ghost predicate SomeoneWillClose(calls: seq<Call>, sem: nat) {
    exists k :: 0 <= k < |calls| && WillClose(calls[k], sem)
  }

  predicate WillCloseBytes(c: Call) {
    c.Taken? && !c.bytesDone
  }

  /** What a call has already achieved. */
  ghost predicate Kept(c: Call, limited: bool, closed: set<nat>, bytesClosed: bool) {
    match c
    case Taken(bytesDone, _, _) => bytesDone ==> bytesClosed
    case CloseAll(rest, all) => (limited ==> bytesClosed) && forall x :: x in all ==> x in closed || x in rest
    case Returned(promised, bytes) => (bytes ==> bytesClosed) && forall x :: x in promised ==> x in closed
    case _ => true
  }

  /** A call is still about what it was made for. */
  predicate About(ask: Ask, c: Call, limited: bool) {
    match c
    case Register(sem) => ask == ForRegister(sem)
    case RegisterLate(sem) => ask == ForRegister(sem)
    case Close(after) => Closes(ask, after)
    case Taken(_, _, after) => Closes(ask, after)
    case CloseAll(_, all) => Closes(ask, all)
    case Returned(promised, bytes) => ask.ForRegister? || (Closes(ask, promised) && bytes == limited)
  }

  predicate Closes(ask: Ask, after: seq<nat>) {
    (ask == ForClose && after == []) || ask == ForShutdown(after)
  }

  ghost predicate Inv(a: Admission) {
    && |a.asked| == |a.calls|
    && (forall k :: 0 <= k < |a.calls| ==> About(a.asked[k], a.calls[k], a.limited))
    && (!a.registryClosed ==> a.registered == set x | x in a.counts)
    && (a.registryClosed ==> a.counts == [])
    && (a.registryClosed ==> forall x :: x in a.registered ==> x in a.closed || SomeoneWillClose(a.calls, x))
    && (a.registryClosed ==> a.bytesClosed || exists k :: 0 <= k < |a.calls| && WillCloseBytes(a.calls[k]))
    && (a.bytesClosed ==> a.registryClosed)
    && (forall k :: 0 <= k < |a.calls| && (a.calls[k].Taken? || a.calls[k].RegisterLate?) ==> a.registryClosed)
    && (forall k :: 0 <= k < |a.calls| ==> Kept(a.calls[k], a.limited, a.closed, a.bytesClosed))
  }

  lemma StartKeepsInv(a: Admission, ask: Ask, c: Call)
    requires Inv(a) && About(ask, c, a.limited)
    requires c.Register? || c.Close? || (c.CloseAll? && !a.limited && c.rest == c.all)
    ensures Inv(Begin(a, ask, c))
  {
    var calls := a.calls + [c];
    assert forall k :: 0 <= k < |a.calls| ==> calls[k] == a.calls[k];
    forall x | SomeoneWillClose(a.calls, x)
      ensures SomeoneWillClose(calls, x)
    {
      var k :| 0 <= k < |a.calls| && WillClose(a.calls[k], x);
      assert WillClose(calls[k], x);
    }
    if k :| 0 <= k < |a.calls| && WillCloseBytes(a.calls[k]) {
      assert WillCloseBytes(calls[k]);
    }
  }

  /** Replacing one call whose remaining closures are done or handed on. */
  lemma SwapKeepsInv(a: Admission, b: Admission, k: nat, c: Call)
    requires Inv(a) && k < |a.calls| && b.calls == a.calls[k := c]
    requires a.closed <= b.closed && (a.bytesClosed ==> b.bytesClosed)
    requires b.registryClosed == a.registryClosed && b.counts == a.counts && b.registered == a.registered
    requires b.asked == a.asked && b.limited == a.limited && About(a.asked[k], c, a.limited)
    requires b.bytesClosed ==> b.registryClosed
    requires c.Taken? || c.RegisterLate? ==> b.registryClosed
    requires Kept(c, b.limited, b.closed, b.bytesClosed)
    requires forall x :: WillClose(a.calls[k], x) ==> x in b.closed || WillClose(c, x)
    requires WillCloseBytes(a.calls[k]) ==> b.bytesClosed || WillCloseBytes(c)
    ensures Inv(b)
  {
    forall x | SomeoneWillClose(a.calls, x)
      ensures x in b.closed || SomeoneWillClose(b.calls, x)
    {
      var j :| 0 <= j < |a.calls| && WillClose(a.calls[j], x);
      assert j != k ==> WillClose(b.calls[j], x);
      assert j == k && WillClose(c, x) ==> WillClose(b.calls[k], x);
    }
    if j :| 0 <= j < |a.calls| && WillCloseBytes(a.calls[j]) {
      assert j != k ==> WillCloseBytes(b.calls[j]);
      assert j == k && WillCloseBytes(c) ==> WillCloseBytes(b.calls[k]);
    }
  }

  lemma RegisterKeepsInv(a: Admission, k: nat)
    requires Inv(a) && k < |a.calls| && a.calls[k].Register?
    ensures Inv(DoStep(a, k))
  {
    var b := DoStep(a, k);
    var sem := a.calls[k].sem;
    if a.registryClosed {
      SwapKeepsInv(a, b.(registered := a.registered), k, RegisterLate(sem));
      assert WillClose(b.calls[k], sem);
    } else {
      SwapKeepsInv(a, b.(registered := a.registered, counts := a.counts), k, Returned([], false));
      assert forall x :: x in b.counts <==> x in a.counts || x == sem;
    }
  }

  /** The first close takes every registered semaphore with it. */
  lemma CloseKeepsInv(a: Admission, k: nat)
    requires Inv(a) && k < |a.calls| && a.calls[k].Close?
    ensures Inv(DoStep(a, k))
  {
    var b := DoStep(a, k);
    assert WillCloseBytes(b.calls[k]);
    forall x | x in b.registered
      ensures x in b.closed || SomeoneWillClose(b.calls, x)
    {
      if a.registryClosed {
        if x !in a.closed {
          var j :| 0 <= j < |a.calls| && WillClose(a.calls[j], x);
          assert WillClose(b.calls[j], x);
        }
      } else {
        assert WillClose(b.calls[k], x);
      }
    }
  }

  lemma HeadOrTail(q: seq<nat>)
    requires q != []
    ensures forall x :: x in q <==> x == q[0] || x in q[1..]
  {
  }

  lemma StepKeepsInv(a: Admission, k: nat)
    requires Inv(a) && k < |a.calls|
    ensures Inv(DoStep(a, k))
  {
    var b := DoStep(a, k);
    assert Kept(a.calls[k], a.limited, a.closed, a.bytesClosed) && About(a.asked[k], a.calls[k], a.limited);
    match a.calls[k]
    case Register(_) => RegisterKeepsInv(a, k);
    case Close(_) => CloseKeepsInv(a, k);
    case RegisterLate(_) => SwapKeepsInv(a, b, k, b.calls[k]);
    case Taken(_, rest, _) =>
      if rest != [] {
        HeadOrTail(rest);
      }
      SwapKeepsInv(a, b, k, b.calls[k]);
    case CloseAll(rest, _) =>
      if rest != [] {
        HeadOrTail(rest);
      }
      SwapKeepsInv(a, b, k, b.calls[k]);
    case Returned(_, _) =>
  }

  lemma {:induction false} RunKeepsInv(limited: bool, events: seq<Event>)
    ensures Inv(Run(limited, events)) && Run(limited, events).limited == limited
    decreases |events|
  {
    if events != [] {
      var a, e := Run(limited, events[..|events| - 1]), events[|events| - 1];
      RunKeepsInv(limited, events[..|events| - 1]);
      match e
      case StartRegister(sem) => if limited { StartKeepsInv(a, ForRegister(sem), Register(sem)); }
      case StartClose => if limited { StartKeepsInv(a, ForClose, Close([])); }
      case StartShutdown(sems) => StartKeepsInv(a, ForShutdown(sems), if limited then Close(sems) else CloseAll(sems, sems));
      case ShardExits(sem) => assert Inv(a.(closed := a.closed + {sem}));
      case Step(k) =>
        if k < |a.calls| {
          StepKeepsInv(a, k);
          StepKeepsLimit(a, k);
        }
    }
  }

  lemma StepKeepsLimit(a: Admission, k: nat)
    requires k < |a.calls|
    ensures DoStep(a, k).limited == a.limited
  {
  }

  /**
   * Closure cannot be escaped: once some close has begun and every call that was
   * started has returned, every semaphore ever registered is closed, and so is
   * the byte semaphore.
   */
  lemma CloseIsInescapable(events: seq<Event>)
    requires var a := Run(true, events);
             a.registryClosed && forall k :: 0 <= k < |a.calls| ==> a.calls[k].Returned?
    ensures var a := Run(true, events);
            a.bytesClosed && a.registered <= a.closed
  {
    RunKeepsInv(true, events);
  }

  /**
   * A shutdown request that has returned, with or without a byte budget, leaves
   * every semaphore it was made for closed, and the byte semaphore and the
   * registry too if there is a budget, even while another caller's close is half
   * done.
   */
  lemma ShutdownReturnsClosed(limited: bool, events: seq<Event>, k: nat, sems: seq<nat>)
    requires var a := Run(limited, events);
             k < |a.calls| && k < |a.asked| && a.asked[k] == ForShutdown(sems) && a.calls[k].Returned?
    ensures var a := Run(limited, events);
            && (forall x :: x in sems ==> x in a.closed)
            && (limited ==> a.registryClosed && a.bytesClosed)
  {
    RunKeepsInv(limited, events);
    var a := Run(limited, events);
    assert Kept(a.calls[k], a.limited, a.closed, a.bytesClosed) && About(a.asked[k], a.calls[k], a.limited);
  }

  lemma Extend(limited: bool, events: seq<Event>, e: Event)
    ensures Run(limited, events + [e]) == Next(Run(limited, events), e)
  {
    assert (events + [e])[..|events|] == events;
  }

  /** A semaphore is registered, and a first close has taken it and stopped there. */
  lemma FirstCloseTakes() returns (events: seq<Event>)
    ensures var a := Run(true, events);
            && a.limited && a.registryClosed && a.counts == [] && a.registered == {0} && a.closed == {}
            && |a.asked| == |a.calls| == 2
  {
    Extend(true, [], StartRegister(0));
    var e := [] + [StartRegister(0)];
    Extend(true, e, Step(0));
    e := e + [Step(0)];
    hide Run;
    assert Run(true, e).counts == [0] && Run(true, e).registered == {0} && |Run(true, e).calls| == 1;
    Extend(true, e, StartClose);
    e := e + [StartClose];
    assert Run(true, e).calls[1] == Close([]);
    Extend(true, e, Step(1));
    events := e + [Step(1)];
  }

  /**
   * The race: a close that comes second finds the registry empty, closes the byte
   * semaphore and returns while registered count semaphores are still open.
   */
  lemma SecondCloseReturnsFirst() returns (events: seq<Event>)
    ensures var a := Run(true, events);
            |a.asked| == |a.calls| == 3 && a.asked[2] == ForClose && a.calls[2].Returned? && 0 in a.registered && 0 !in a.closed
  {
    hide Run;
    var e := FirstCloseTakes();
    Extend(true, e, StartClose);
    e := e + [StartClose];
    Extend(true, e, Step(2));
    e := e + [Step(2)];
    Extend(true, e, Step(2));
    e := e + [Step(2)];
    Extend(true, e, Step(2));
    e := e + [Step(2)];
    Extend(true, e, Step(2));
    events := e + [Step(2)];
  }
}
