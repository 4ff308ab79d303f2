/** Cancel requests in flight: at most one per pending read. */
module CancelTheorems {
  import opened Base
  import opened Geometry
  import opened LogicalRead
  import opened ShardMachine
  import opened Tokens
  import opened ShardInvariant
  import opened CancelSteps
  import opened ReapSteps
  import opened ShardTheorems
  import opened Frames

  function SqeCancel(x: Sqe): Option<nat> {
    if x.CancelSqe? then Some(x.target) else None
  }

  function OpCancel(x: KernelOp): Option<nat> {
    if x.KCancel? then Some(x.target) else None
  }

  function CqeCancel(x: Cqe): Option<nat> {
    if x.ud >= CANCEL_BIT then Some(x.ud - CANCEL_BIT) else None
  }

  /** Cancels the kernel holds or has answered, by target. */
  function KernelCancels(ops: seq<KernelOp>, cq: seq<Cqe>): multiset<nat> {
    Collect(ops, OpCancel) + Collect(cq, CqeCancel)
  }

  /** Every cancel anywhere on its way, by target. */
  function CancelTokens(s: Shard): multiset<nat> {
    Collect(s.backlog, SqeCancel) + Collect(s.sq, SqeCancel) + KernelCancels(s.ops, s.cq)
  }

  /** The kernel holds no cancel it was not given. */
  ghost predicate CancelsGiven(ops: seq<KernelOp>, cq: seq<Cqe>, accepted: seq<Sqe>) {
    KernelCancels(ops, cq) <= Collect(accepted, SqeCancel)
  }

  predicate SameKernel(s: Shard, t: Shard) {
    t.ops == s.ops && t.cq == s.cq && t.accepted == s.accepted
  }

  lemma AcceptGives(s: Shard)
    requires CancelsGiven(s.ops, s.cq, s.accepted)
    ensures CancelsGiven(DoAcceptOne(s).ops, DoAcceptOne(s).cq, DoAcceptOne(s).accepted)
  {
    if s.sq != [] {
      CollectPush(s.ops, Taken(s.sq[0], s.fds), OpCancel);
      CollectPush(s.accepted, s.sq[0], SqeCancel);
    }
  }

  lemma CompleteGives(s: Shard, op: nat, c: Cqe)
    requires CancelsGiven(s.ops, s.cq, s.accepted) && op < |s.ops|
    requires CqeCancel(c) == OpCancel(s.ops[op])
    ensures CancelsGiven(RemoveAt(s.ops, op), s.cq + [c], s.accepted)
  {
    CollectRemove(s.ops, op, OpCancel);
    CollectPush(s.cq, c, CqeCancel);
  }

  /** A read's completion does not look like a cancel's. */
  lemma ReadIsNoCancel(s: Shard, op: nat, res: int)
    requires Inv(s) && IsRead(s, op)
    ensures CqeCancel(Cqe(s.ops[op].sqe.ud, res)) == OpCancel(s.ops[op])
  {
    hide BlocksOwned, CqesMatch, CreatedOk, Fifo, SendersOk, SqesMatch, CancelsOk, OneTokenEach;
    hide QueueOk, ResultsOk, CostOk, ReadTokens, PhaseOk, StatsOk, FdsOk;
    assert OpMatches(s.ops[op], s.pending, s.requests);
    var id := s.ops[op].sqe.ud;
    assert EntryOk(id, s.pending[id], s.requests[id], s.heap);
  }

  /** Consuming a completion takes nothing else away. */
  lemma PopGives(ops: seq<KernelOp>, cq: seq<Cqe>, accepted: seq<Sqe>)
    requires CancelsGiven(ops, cq, accepted) && cq != []
    ensures CancelsGiven(ops, cq[1..], accepted)
  {
    assert Collect(cq[1..], CqeCancel) <= Collect(cq, CqeCancel);
  }

  lemma RingGives(s: Shard, e: Event)
    requires Inv(s) && CancelsGiven(s.ops, s.cq, s.accepted) && InRings(e)
    ensures var t := Next(s, e); CancelsGiven(t.ops, t.cq, t.accepted)
  {
    hide Inv, CancelsGiven, DoAcceptOne, DoKernelWrite, DoFlushOne, LegalCompletion, Store;
    match e
    case AcceptOne => AcceptGives(s);
    case FlushOne => RequestsLeaveKernel(s, 0, []);
    case KernelWrite(op, data) => RequestsLeaveKernel(s, op, data);
    case CompleteRead(op, res, data) =>
      if IsRead(s, op) && LegalCompletion(s.ops[op], res, data) {
        ReadIsNoCancel(s, op, res);
        CompleteGives(s, op, Cqe(s.ops[op].sqe.ud, res));
        StoreLeavesKernel(s.(ops := RemoveAt(s.ops, op), cq := s.cq + [Cqe(s.ops[op].sqe.ud, res)]), s.ops[op].sqe.ptr, data);
      }
    case CompleteCancel(op, answer) =>
      if op < |s.ops| && s.ops[op].KCancel? {
        CompleteGives(s, op, Cqe(s.ops[op].target + CANCEL_BIT, answer));
      }
  }

  lemma StoreLeavesKernel(s: Shard, ptr: Pointer, data: seq<byte>)
    ensures SameKernel(s, Store(s, ptr, data))
  {
    hide Stored, Mapped;
  }

  lemma RequestsLeaveKernel(s: Shard, op: nat, data: seq<byte>)
    ensures SameKernel(s, DoKernelWrite(s, op, data)) && SameKernel(s, DoFlushOne(s))
  {
    hide Stored, Mapped;
  }

  lemma NextGives(s: Shard, e: Event)
    requires Inv(s) && CancelsGiven(s.ops, s.cq, s.accepted)
    ensures var t := Next(s, e);
            CancelsGiven(t.ops, t.cq, t.accepted)
  {
    hide Inv, CancelsGiven, Next;
    if InRings(e) {
      RingGives(s, e);
    } else if InCallers(e) {
      CallerFrame(s, e);
    } else {
      ThreadFrame(s, e);
      if s.cq != [] {
        PopGives(s.ops, s.cq, s.accepted);
      }
    }
  }

  lemma {:induction false} RunGives(sqCap: nat, events: seq<Event>)
    ensures var t := Run(Init(sqCap), events);
            Inv(t) && CancelsGiven(t.ops, t.cq, t.accepted)
    decreases |events|
  {
    InitInv(sqCap);
    RunKeepsInv(Init(sqCap), events);
    if events == [] {
      assert KernelCancels([], []) == multiset{};
    } else {
      hide Inv, CancelsGiven, Next;
      RunGives(sqCap, events[..|events| - 1]);
      NextGives(Run(Init(sqCap), events[..|events| - 1]), events[|events| - 1]);
    }
  }

  /** Distinct cancels: no target occurs twice. */
  lemma {:induction false} CancelOnce(created: seq<Sqe>, id: nat)
    requires CancelIsLast(created)
    ensures Collect(created, SqeCancel)[id] <= 1
    ensures Collect(created, SqeCancel)[id] == 1 ==> CancelSqe(id) in created
    decreases |created|
  {
    if created != [] {
      var n := |created| - 1;
      assert created == created[..n] + [created[n]];
      CollectPush(created[..n], created[n], SqeCancel);
      CancelOnce(created[..n], id);
      if created[n] == CancelSqe(id) {
        assert CancelSqe(id) !in created[..n];
      }
    }
  }

  /**
   * A pending read never has more than one cancel on its way, and only when the
   * table says so: reads outstanding plus cancels whose read is still pending
   * number at most twice the pending reads.
   */
  lemma OneCancelInFlight(s: Shard, id: nat)
    requires Reachable(s) && id in s.pending
    ensures ReadTokens(s.backlog, s.sq, s.ops, s.cq)[id] == 1
    ensures CancelTokens(s)[id] <= (if id in s.queuedCancels then 1 else 0)
  {
    var sqCap: nat, events: seq<Event> :| s == Run(Init(sqCap), events);
    RunGives(sqCap, events);
    assert CancelsOk(s.pending, s.queuedCancels, s.shuttingDown, s.created);
    assert Fifo(s.created, s.accepted, s.sq, s.backlog);
    assert OneTokenEach(s.backlog, s.sq, s.ops, s.cq, s.pending.Keys);
    hide Inv, Run, Reachable;
    CancelOnce(s.created, id);
    CollectConcat(s.accepted + s.sq, s.backlog, SqeCancel);
    CollectConcat(s.accepted, s.sq, SqeCancel);
    assert CancelTokens(s)[id] <= Collect(s.created, SqeCancel)[id];
  }
}
