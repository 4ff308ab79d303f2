/**
 * The wakeup protocol: producers send and then signal, the driver drains the
 * eventfd and then takes a bounded number of messages. There are no timers here.
 */
module Wakeup {
  import opened Base
  import opened ThreadTrace

  const MAX_BATCH_READS: nat := 64

  /** Where a driver thread is in its turn. */
  datatype Pc =
    | Blocked                       // in `wait_for_events`
    | Draining                      // about to reset the eventfd
    | Taking(budget: TurnBudget)    // in the intake loop
    | Resting(budget: TurnBudget)   // past intake, before deciding whether to block

  /** A queued message is worth the bytes its intake will allocate. */
  datatype Side = Side(queue: seq<nat>, readable: bool, pc: Pc)

  /** A thread that submits: one read, a batch, a cancel or a shutdown request. */
  datatype Producer =
    | Idle
    | Building(handles: seq<nat>, wakes: seq<nat>)
    | Signalling(rest: seq<nat>)
    | Unwinding(handles: seq<nat>, cancelSent: bool)

  datatype System = System(shards: seq<Side>, producers: seq<Producer>)

  datatype Event =
    | Begin(p: nat)
    | Send(p: nat, shard: nat, cost: nat)
    | EndBatch(p: nat)
    | Signal(p: nat)
    | Panic(p: nat)
    | UnwindSend(p: nat)
    | UnwindSignal(p: nat)
    | Wake(i: nat)
    | Drain(i: nat)
    | Take(i: nat)
    | Decide(i: nat, completions: nat, readyCqe: bool, queuedSubmission: bool, submitted: nat)

  function WithProducer(s: System, p: nat, q: Producer): System
    requires p < |s.producers|
  {
    s.(producers := s.producers[p := q])
  }

  function WithSide(s: System, i: nat, side: Side): System
    requires i < |s.shards|
  {
    s.(shards := s.shards[i := side])
  }

  function Enqueue(s: System, i: nat, cost: nat): System
    requires i < |s.shards|
  {
    WithSide(s, i, s.shards[i].(queue := s.shards[i].queue + [cost]))
  }

  function MakeReadable(s: System, i: nat): System
    requires i < |s.shards|
  {
    WithSide(s, i, s.shards[i].(readable := true))
  }

  // ---- producers ----

  /** One eager submission of a batch: sent now, its shard signalled after the batch. */
  function DoSend(s: System, p: nat, shard: nat, cost: nat): System {
    if p >= |s.producers| || shard >= |s.shards| || !s.producers[p].Building? || |s.producers[p].handles| >= MAX_BATCH_READS
    then s
    else
      var b := s.producers[p];
      WithProducer(Enqueue(s, shard, cost), p,
                   Building(b.handles + [shard], if shard in b.wakes then b.wakes else b.wakes + [shard]))
  }

  function DoSignal(s: System, p: nat): System {
    if p >= |s.producers| || !s.producers[p].Signalling? then s
    else if s.producers[p].rest == [] then WithProducer(s, p, Idle)
    else
      var i := s.producers[p].rest[0];
      if i >= |s.shards| then s
      else WithProducer(MakeReadable(s, i), p, Signalling(s.producers[p].rest[1..]))
  }

  /** Unwinding drops the handles built so far: each sends its cancel, then signals. */
  function DoUnwindSend(s: System, p: nat): System {
    if p >= |s.producers| || !s.producers[p].Unwinding? || s.producers[p].cancelSent then s
    else if s.producers[p].handles == [] then WithProducer(s, p, Idle)
    else
      var i := s.producers[p].handles[0];
      if i >= |s.shards| then s
      else WithProducer(Enqueue(s, i, 0), p, Unwinding(s.producers[p].handles, true))
  }

  function DoUnwindSignal(s: System, p: nat): System {
    if p >= |s.producers| || !s.producers[p].Unwinding? || !s.producers[p].cancelSent || s.producers[p].handles == [] then s
    else
      var i := s.producers[p].handles[0];
      if i >= |s.shards| then s
      else WithProducer(MakeReadable(s, i), p, Unwinding(s.producers[p].handles[1..], false))
  }

  // ---- the driver ----

  /** The intake loop, one message at a time; it ends on an empty channel or a spent budget. */
  function DoTake(s: System, i: nat): System {
    if i >= |s.shards| || !s.shards[i].pc.Taking? then s
    else
      var side := s.shards[i];
      var b := side.pc.budget;
      if !b.CanTakeMessage() || side.queue == [] then WithSide(s, i, side.(pc := Resting(b)))
      else
        WithSide(s, i, side.(queue := side.queue[1..],
                             pc := Taking(b.(messages := b.messages + 1,
                                             allocationBytes := b.allocationBytes + side.queue[0]))))
  }

  function DoDecide(s: System, i: nat, completions: nat, readyCqe: bool, queuedSubmission: bool, submitted: nat): System {
    if i >= |s.shards| || !s.shards[i].pc.Resting? then s
    else
      var b := s.shards[i].pc.budget.(completions := completions);
      WithSide(s, i, s.shards[i].(pc := if b.ContinueWithoutWait(readyCqe, queuedSubmission, submitted) then Draining else Blocked))
  }

  function Next(s: System, e: Event): System {
    match e
    case Begin(p) =>
      if p < |s.producers| && s.producers[p].Idle? then WithProducer(s, p, Building([], [])) else s
    case Send(p, shard, cost) => DoSend(s, p, shard, cost)
    case EndBatch(p) =>
      if p < |s.producers| && s.producers[p].Building? then WithProducer(s, p, Signalling(s.producers[p].wakes)) else s
    case Signal(p) => DoSignal(s, p)
    case Panic(p) =>
      if p < |s.producers| && s.producers[p].Building? then WithProducer(s, p, Unwinding(s.producers[p].handles, false)) else s
    case UnwindSend(p) => DoUnwindSend(s, p)
    case UnwindSignal(p) => DoUnwindSignal(s, p)
    case Wake(i) =>
      if i < |s.shards| && s.shards[i].pc.Blocked? then WithSide(s, i, s.shards[i].(pc := Draining)) else s
    case Drain(i) =>
      if i < |s.shards| && s.shards[i].pc.Draining? then
        WithSide(s, i, s.shards[i].(readable := false, pc := Taking(TurnBudget(0, 0, 0))))
      else s
    case Take(i) => DoTake(s, i)
    case Decide(i, completions, readyCqe, queuedSubmission, submitted) =>
      DoDecide(s, i, completions, readyCqe, queuedSubmission, submitted)
  }

  function Run(s: System, events: seq<Event>): System
    decreases |events|
  {
    if events == [] then s else Next(Run(s, events[..|events| - 1]), events[|events| - 1])
  }

  function Init(shards: nat, producers: nat): System {
    System(seq(shards, _ => Side([], false, Blocked)), seq(producers, _ => Idle))
  }

  // ---- the invariant ----

  /** The shards a producer has sent to and not signalled since. */
  predicate Owes(p: Producer, i: nat) {
    match p
    case Idle => false
    case Building(_, wakes) => i in wakes
    case Signalling(rest) => i in rest
    case Unwinding(handles, _) => i in handles
  }

  ghost predicate SomeoneOwes(producers: seq<Producer>, i: nat) {
    exists p :: 0 <= p < |producers| && Owes(producers[p], i)
  }

  /** The driver will not look at its queue again without being woken. */
  predicate AtRest(side: Side) {
    side.pc.Blocked? || (side.pc.Resting? && side.pc.budget.CanTakeMessage())
  }

  predicate Covered(side: Side) {
    AtRest(side) && side.queue != [] ==> side.readable
  }

  /** A half-built batch will signal every shard it holds a handle of, and no other. */
  ghost predicate BatchOk(p: Producer, shards: nat) {
    match p
    case Idle => true
    case Building(handles, wakes) =>
      (forall x :: x in handles <==> x in wakes) && (forall x :: x in wakes ==> x < shards)
    case Signalling(rest) => forall x :: x in rest ==> x < shards
    case Unwinding(handles, _) => forall x :: x in handles ==> x < shards
  }

  ghost predicate Inv(s: System) {
    && (forall i :: 0 <= i < |s.shards| ==> Covered(s.shards[i]) || SomeoneOwes(s.producers, i))
    && (forall p :: 0 <= p < |s.producers| ==> BatchOk(s.producers[p], |s.shards|))
  }

  /** A producer step that keeps its debts, or pays one by making the shard readable. */
  lemma ProducerKeepsInv(s: System, t: System, p: nat, q: Producer, paid: Option<nat>)
    requires Inv(s) && p < |s.producers| && t.producers == s.producers[p := q] && |t.shards| == |s.shards|
    requires BatchOk(q, |s.shards|)
    requires forall i :: 0 <= i < |s.shards| && Owes(s.producers[p], i) && paid != Some(i) ==> Owes(q, i)
    requires forall i :: 0 <= i < |s.shards| ==>
               || t.shards[i] == s.shards[i]
               || (t.shards[i].readable && t.shards[i].pc == s.shards[i].pc)
               || Owes(q, i)
    requires paid.Some? && paid.value < |s.shards| ==> t.shards[paid.value].readable
    ensures Inv(t)
  {
    forall i | 0 <= i < |t.shards|
      ensures Covered(t.shards[i]) || SomeoneOwes(t.producers, i)
    {
      if Owes(q, i) {
        assert Owes(t.producers[p], i);
      } else if !Covered(t.shards[i]) {
        assert t.shards[i] == s.shards[i];
        var k :| 0 <= k < |s.producers| && Owes(s.producers[k], i);
        assert Owes(t.producers[k], i);
      }
    }
  }

  /** A driver step that leaves the side covered. */
  lemma DriverKeepsInv(s: System, i: nat, side: Side)
    requires Inv(s) && i < |s.shards|
    requires Covered(side) || (!Covered(s.shards[i]) && !Covered(side))
    ensures Inv(WithSide(s, i, side))
  {
  }

  lemma InTail(x: nat, q: seq<nat>)
    requires q != [] && x in q && x != q[0]
    ensures x in q[1..]
  {
  }

  lemma TailKeepsBatch(q: seq<nat>)
    requires q != []
    ensures forall x :: x in q[1..] ==> x in q
    ensures forall x :: x in q && x != q[0] ==> x in q[1..]
  {
    forall x | x in q && x != q[0]
      ensures x in q[1..]
    {
      InTail(x, q);
    }
  }

  lemma SendKeepsInv(s: System, p: nat, shard: nat, cost: nat)
    requires Inv(s)
    ensures Inv(DoSend(s, p, shard, cost))
  {
    var t := DoSend(s, p, shard, cost);
    if p < |s.producers| && shard < |s.shards| && s.producers[p].Building? && |s.producers[p].handles| < MAX_BATCH_READS {
      var b, q := s.producers[p], t.producers[p];
      assert BatchOk(b, |s.shards|);
      assert forall x :: x in q.handles <==> x in b.handles || x == shard;
      assert forall x :: x in q.wakes <==> x in b.wakes || x == shard;
      hide Inv, Covered;
      ProducerKeepsInv(s, t, p, q, None);
    }
  }

  lemma SignalKeepsInv(s: System, p: nat)
    requires Inv(s)
    ensures Inv(DoSignal(s, p))
  {
    if p < |s.producers| && s.producers[p].Signalling? {
      var rest := s.producers[p].rest;
      assert BatchOk(s.producers[p], |s.shards|);
      var t := DoSignal(s, p);
      hide Inv, Covered;
      if rest == [] {
        ProducerKeepsInv(s, t, p, Idle, None);
      } else {
        TailKeepsBatch(rest);
        assert rest[0] in rest;
        ProducerKeepsInv(s, t, p, Signalling(rest[1..]), Some(rest[0]));
      }
    }
  }

  lemma UnwindKeepsInv(s: System, p: nat)
    requires Inv(s)
    ensures Inv(DoUnwindSend(s, p)) && Inv(DoUnwindSignal(s, p))
  {
    if p < |s.producers| && s.producers[p].Unwinding? {
      var handles := s.producers[p].handles;
      assert BatchOk(s.producers[p], |s.shards|);
      hide Inv, Covered;
      if handles == [] {
        if !s.producers[p].cancelSent {
          ProducerKeepsInv(s, DoUnwindSend(s, p), p, Idle, None);
        }
      } else {
        TailKeepsBatch(handles);
        assert handles[0] in handles;
        if s.producers[p].cancelSent {
          ProducerKeepsInv(s, DoUnwindSignal(s, p), p, Unwinding(handles[1..], false), Some(handles[0]));
        } else {
          ProducerKeepsInv(s, DoUnwindSend(s, p), p, Unwinding(handles, true), None);
        }
      }
    }
  }

  lemma NextKeepsInv(s: System, e: Event)
    requires Inv(s)
    ensures Inv(Next(s, e))
  {
    match e
    case Begin(p) =>
      if p < |s.producers| && s.producers[p].Idle? {
        ProducerKeepsInv(s, Next(s, e), p, Building([], []), None);
      }
    case Send(p, shard, cost) => SendKeepsInv(s, p, shard, cost);
    case EndBatch(p) =>
      if p < |s.producers| && s.producers[p].Building? {
        assert BatchOk(s.producers[p], |s.shards|);
        ProducerKeepsInv(s, Next(s, e), p, Signalling(s.producers[p].wakes), None);
      }
    case Signal(p) => SignalKeepsInv(s, p);
    case Panic(p) =>
      if p < |s.producers| && s.producers[p].Building? {
        assert BatchOk(s.producers[p], |s.shards|);
        ProducerKeepsInv(s, Next(s, e), p, Unwinding(s.producers[p].handles, false), None);
      }
    case UnwindSend(p) => UnwindKeepsInv(s, p);
    case UnwindSignal(p) => UnwindKeepsInv(s, p);
    case Wake(i) =>
      if i < |s.shards| {
        DriverKeepsInv(s, i, s.shards[i].(pc := Draining));
      }
    case Drain(i) =>
      if i < |s.shards| {
        DriverKeepsInv(s, i, s.shards[i].(readable := false, pc := Taking(TurnBudget(0, 0, 0))));
      }
    case Take(i) =>
      if i < |s.shards| && s.shards[i].pc.Taking? {
        DriverKeepsInv(s, i, DoTake(s, i).shards[i]);
      }
    case Decide(i, completions, readyCqe, queuedSubmission, submitted) =>
      if i < |s.shards| && s.shards[i].pc.Resting? {
        DriverKeepsInv(s, i, Next(s, e).shards[i]);
      }
  }

  lemma {:induction false} RunKeepsInv(s: System, events: seq<Event>)
    requires Inv(s)
    ensures Inv(Run(s, events))
    decreases |events|
  {
    hide Inv, Next;
    if events != [] {
      RunKeepsInv(s, events[..|events| - 1]);
      NextKeepsInv(Run(s, events[..|events| - 1]), events[|events| - 1]);
    }
  }

  /**
   * No wakeup is lost: whenever a driver blocks with a message queued, its
   * eventfd is readable or a producer that sent to it still owes the signal.
   */
  lemma NoLostWakeup(shards: nat, producers: nat, events: seq<Event>, i: nat)
    requires var s := Run(Init(shards, producers), events);
             i < |s.shards| && s.shards[i].pc.Blocked? && s.shards[i].queue != []
    ensures var s := Run(Init(shards, producers), events);
            s.shards[i].readable || SomeoneOwes(s.producers, i)
  {
    hide Run, Next;
    assert Inv(Init(shards, producers));
    RunKeepsInv(Init(shards, producers), events);
  }

  // ---- and the debt is always paid ----

  /** How many steps of its own a producer needs to be done. */
  function Debt(p: Producer): nat {
    match p
    case Idle => 0
    case Building(_, wakes) => 2 * |wakes| + 3
    case Signalling(rest) => |rest| + 1
    case Unwinding(handles, sent) => 2 * |handles| + 1 - (if sent && handles != [] then 1 else 0)
  }

  /** A producer's next step, when it does not submit any more. */
  function Pay(s: System, p: nat): Event
    requires p < |s.producers|
  {
    match s.producers[p]
    case Idle => Begin(p)
    case Building(_, _) => EndBatch(p)
    case Signalling(_) => Signal(p)
    case Unwinding(_, sent) => if sent then UnwindSignal(p) else UnwindSend(p)
  }

  lemma PayPays(s: System, p: nat, i: nat)
    requires Inv(s) && p < |s.producers| && i < |s.shards| && Owes(s.producers[p], i)
    ensures var t := Next(s, Pay(s, p));
            && |t.producers| == |s.producers| && |t.shards| == |s.shards|
            && (t.shards[i].readable || (Owes(t.producers[p], i) && Debt(t.producers[p]) < Debt(s.producers[p])))
  {
    var q := s.producers[p];
    assert BatchOk(q, |s.shards|);
    if q.Signalling? {
      TailKeepsBatch(q.rest);
      assert q.rest[0] in q.rest;
    } else if q.Unwinding? {
      TailKeepsBatch(q.handles);
      assert q.handles[0] in q.handles;
    }
  }

  /** A producer that owes a signal delivers it by finishing what it began. */
  lemma DebtIsPaid(s: System, p: nat, i: nat) returns (events: seq<Event>)
    requires Inv(s) && p < |s.producers| && i < |s.shards| && Owes(s.producers[p], i)
    ensures i < |Run(s, events).shards| && Run(s, events).shards[i].readable
    decreases Debt(s.producers[p])
  {
    hide Inv, Next, Owes;
    var e := Pay(s, p);
    PayPays(s, p, i);
    NextKeepsInv(s, e);
    var t := Next(s, e);
    assert [e][..0] == [] && Run(s, [e]) == t;
    if t.shards[i].readable {
      events := [e];
    } else {
      var rest := DebtIsPaid(t, p, i);
      events := [e] + rest;
      RunAppend(s, [e], rest);
    }
  }

  lemma {:induction false} RunAppend(s: System, a: seq<Event>, b: seq<Event>)
    ensures Run(s, a + b) == Run(Run(s, a), b)
    decreases |b|
  {
    hide Next;
    if b == [] {
      assert a + b == a;
    } else {
      var n := |b| - 1;
      assert (a + b)[..|a + b| - 1] == a + b[..n];
      RunAppend(s, a, b[..n]);
    }
  }

  // ---- messages get through ----

  /** A batch with room sends: the message is last in its shard's queue, and its signal is owed. */
  lemma SendArrives(s: System, p: nat, i: nat, cost: nat)
    requires p < |s.producers| && s.producers[p].Building? && |s.producers[p].handles| < MAX_BATCH_READS && i < |s.shards|
    ensures var t := Next(s, Send(p, i, cost));
            && |t.shards| == |s.shards| && t.shards == s.shards[i := s.shards[i].(queue := s.shards[i].queue + [cost])]
            && |t.producers| == |s.producers| && Owes(t.producers[p], i)
  {
  }

  /** A driver that gets to look takes the message at the head, wherever in its turn it is. */
  lemma HeadIsTaken(s: System, i: nat) returns (events: seq<Event>)
    requires i < |s.shards| && s.shards[i].queue != []
    ensures forall k :: 0 <= k < |events| ==> events[k] in {Wake(i), Drain(i), Take(i)} || events[k].Decide?
    ensures var t := Run(s, events);
            |t.shards| == |s.shards| && t.producers == s.producers && t.shards[i].queue == s.shards[i].queue[1..]
    decreases match s.shards[i].pc
              case Taking(b) => if b.CanTakeMessage() then 0 else 4
              case Draining => 1
              case Blocked => 2
              case Resting(_) => 3
  {
    var pc := s.shards[i].pc;
    var e := match pc
      case Blocked => Wake(i)
      case Draining => Drain(i)
      case Taking(_) => Take(i)
      case Resting(_) => Decide(i, 0, true, false, 0);
    var t := Next(s, e);
    assert [e][..0] == [] && Run(s, [e]) == t;
    if pc.Taking? && pc.budget.CanTakeMessage() {
      events := [e];
    } else {
      var rest := HeadIsTaken(t, i);
      hide Next;
      events := [e] + rest;
      RunAppend(s, [e], rest);
    }
  }
}
