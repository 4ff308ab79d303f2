/** What holds of every run of a shard, for every kernel and every caller. */
module ShardTheorems {
  import opened Base
  import opened Geometry
  import opened LogicalRead
  import opened ShardMachine
  import opened Tokens
  import opened ShardInvariant
  import opened CallerSteps
  import opened IntakeSteps
  import opened CancelSteps
  import opened KernelSteps
  import opened ReapSteps

  // ---- every run keeps the invariant ----

  lemma InitInv(sqCap: nat)
    ensures Inv(Init(sqCap))
  {
    hide CostLimit;
    assert FdRefs({}, [], map[]) == {};
  }

  lemma QuietKeepsInv(s: Shard, senders: bool, closed: set<nat>)
    requires Inv(s)
    ensures Inv(s.(senders := senders)) && Inv(s.(closed := closed))
  {
    hide EntriesOk, BlocksOwned, OpsMatch, CqesMatch, FdsOk, CreatedOk, Fifo, SendersOk, SqesMatch, CancelsOk;
    hide QueueOk, ResultsOk, CostOk, OneTokenEach, PhaseOk, StatsOk;
  }

  lemma NextKeepsInv(s: Shard, e: Event)
    requires Inv(s)
    ensures Inv(Next(s, e))
  {
    hide Inv;
    match e
    case SendRead(id, args, stream) => SendReadKeepsInv(s, id, args, stream);
    case SendCancel(target) => if CanSend(s) { SendOtherKeepsInv(s, Cancel(target)); }
    case SendShutdown => if CanSend(s) { SendOtherKeepsInv(s, Shutdown); }
    case DropSenders => QuietKeepsInv(s, false, s.closed);
    case CloseReceiver(receiver) => QuietKeepsInv(s, s.senders, s.closed + {receiver});
    case OpenFile(fd, contents) => OpenFileKeepsInv(s, fd, contents);
    case DropFile(fd) => DropFileKeepsInv(s, fd);
    case RecvRead(block, base, aligns) => RecvReadKeepsInv(s, block, base, aligns);
    case RecvCancel => RecvCancelKeepsInv(s);
    case RecvShutdown(order) => RecvShutdownKeepsInv(s, order);
    case SeeDisconnect => SeeDisconnectKeepsInv(s);
    case FlushOne => FlushKeepsInv(s);
    case SubmitReturned(result, order) => SubmitReturnedKeepsInv(s, result, order);
    case Reap(lateClose, metaOk) => ReapKeepsInv(s, lateClose, metaOk);
    case ExitDrained => ExitDrainedKeepsInv(s);
    case ExitLeaked(order) => ExitLeakedKeepsInv(s, order);
    case AcceptOne => AcceptKeepsInv(s);
    case KernelWrite(op, data) => KernelWriteKeepsInv(s, op, data);
    case CompleteRead(op, res, data) => CompleteReadKeepsInv(s, op, res, data);
    case CompleteCancel(op, answer) => CompleteCancelKeepsInv(s, op, answer);
  }

  lemma {:induction false} RunKeepsInv(s: Shard, events: seq<Event>)
    requires Inv(s)
    ensures Inv(Run(s, events))
    decreases |events|
  {
    hide Inv, Next;
    if events != [] {
      RunKeepsInv(s, events[..|events| - 1]);
      NextKeepsInv(Run(s, events[..|events| - 1]), events[|events| - 1]);
    }
  }

  ghost predicate Reachable(s: Shard) {
    exists sqCap: nat, events: seq<Event> :: s == Run(Init(sqCap), events)
  }

  /** The inductive invariant holds in every reachable state. */
  lemma ReachableInv(s: Shard)
    requires Reachable(s)
    ensures Inv(s)
  {
    hide Inv;
    var sqCap: nat, events: seq<Event> :| s == Run(Init(sqCap), events);
    InitInv(sqCap);
    RunKeepsInv(Init(sqCap), events);
  }

  // ---- kernel ownership ----

  /** A read request names a live buffer that its entry alone owns, past the bytes already confirmed. */
  ghost predicate OwnsWindow(s: Shard, sqe: Sqe)
    requires sqe.ReadSqe?
  {
    && sqe.ud in s.pending && sqe.ud in s.requests
    && var p := s.pending[sqe.ud];
    && p.block == sqe.ptr.block
    && Mapped(s.heap, sqe.ptr, sqe.len)
    && p.pad + p.nread == sqe.ptr.index
    && sqe.ptr.index + sqe.len == p.pad + p.regionLen
    && (forall other :: other in s.pending && other != sqe.ud ==> s.pending[other].block != sqe.ptr.block)
    && sqe.fd in s.fds && s.fds[sqe.fd] == s.requests[sqe.ud].file
  }

  lemma TokenOwnsWindow(s: Shard, sqe: Sqe)
    requires Inv(s) && sqe.ReadSqe? && sqe.ud in s.pending
    requires s.pending[sqe.ud].nread <= s.pending[sqe.ud].regionLen && sqe == ReadSqeOf(s.pending[sqe.ud], sqe.ud)
    ensures OwnsWindow(s, sqe)
  {
    hide OpsMatch, CqesMatch, CreatedOk, Fifo, SendersOk, SqesMatch, CancelsOk, OneTokenEach, EntryOk;
    hide QueueOk, ResultsOk, CostOk, ReadTokens, PhaseOk, StatsOk, FdRefs;
    WindowIsOwned(sqe.ud, s.pending[sqe.ud], s.requests[sqe.ud], s.heap);
  }

  /**
   * The completion is the only reclamation point: no kernel access ever faults,
   * every read request anywhere has its buffer and descriptor alive and its own,
   * each pending read has exactly one request outstanding, and a clean exit
   * leaves none.
   */
  lemma KernelOwnership(s: Shard)
    requires Reachable(s)
    ensures !s.fault
    ensures ReadTokens(s.backlog, s.sq, s.ops, s.cq) == multiset(s.pending.Keys)
    ensures forall i :: 0 <= i < |s.backlog| && s.backlog[i].ReadSqe? ==> OwnsWindow(s, s.backlog[i])
    ensures forall i :: 0 <= i < |s.sq| && s.sq[i].ReadSqe? ==> OwnsWindow(s, s.sq[i])
    ensures forall i :: 0 <= i < |s.ops| && s.ops[i].KRead? ==>
              s.ops[i].sqe.ReadSqe? && OwnsWindow(s, s.ops[i].sqe) && s.ops[i].file == s.requests[s.ops[i].sqe.ud].file
    ensures s.phase.Drained? ==> ReadTokens(s.backlog, s.sq, s.ops, s.cq) == multiset{} && s.heap == map[]
  {
    ReachableInv(s);
    hide EntriesOk, CqesMatch, CreatedOk, Fifo, SendersOk, CancelsOk, OwnsWindow;
    hide QueueOk, ResultsOk, CostOk, ReadTokens, StatsOk, FdsOk, Reachable;
    forall i | 0 <= i < |s.backlog| && s.backlog[i].ReadSqe?
      ensures OwnsWindow(s, s.backlog[i])
    {
      TokenOwnsWindow(s, s.backlog[i]);
    }
    forall i | 0 <= i < |s.sq| && s.sq[i].ReadSqe?
      ensures OwnsWindow(s, s.sq[i])
    {
      TokenOwnsWindow(s, s.sq[i]);
    }
    forall i | 0 <= i < |s.ops| && s.ops[i].KRead?
      ensures s.ops[i].sqe.ReadSqe? && OwnsWindow(s, s.ops[i].sqe)
      ensures s.ops[i].sqe.ud in s.requests && s.ops[i].file == s.requests[s.ops[i].sqe.ud].file
    {
      assert OpMatches(s.ops[i], s.pending, s.requests);
      TokenOwnsWindow(s, s.ops[i].sqe);
    }
  }

  /** Every direct request, first or resubmitted, is block-aligned in offset, address and length. */
  lemma DirectRequestsAligned(s: Shard, sqe: Sqe)
    requires Reachable(s) && sqe.ReadSqe? && (sqe in s.backlog || sqe in s.sq)
    ensures sqe.ud in s.requests && sqe.ptr.block in s.heap
    ensures var align := s.requests[sqe.ud].args.align;
            && align > 0
            && (sqe.off != CURRENT_POSITION ==> sqe.off % align == 0 && sqe.off + sqe.len <= I64_MAX)
            && (s.heap[sqe.ptr.block].base + sqe.ptr.index) % align == 0
            && sqe.len % align == 0 && sqe.len <= MAX_READ_LEN
  {
    hide Reachable, SqesMatch, EntriesOk, EntryOk, BlocksOwned, OpsMatch, CqesMatch, QueueOk, FdsOk, CancelsOk, CreatedOk;
    hide Fifo, SendersOk, PhaseOk, ResultsOk, StatsOk, CostOk, OneTokenEach;
    ReachableInv(s);
    RingRequest(s, sqe);
    EntryIsUsable(sqe.ud, s.pending[sqe.ud], s.requests[sqe.ud], s.heap);
    EntryRequestAligned(sqe.ud, s.pending[sqe.ud], s.requests[sqe.ud], s.heap);
  }

  /** A read request in a ring is the one its entry would build. */
  lemma RingRequest(s: Shard, sqe: Sqe)
    requires SqesMatch(s.backlog, s.pending) && SqesMatch(s.sq, s.pending) && EntriesOk(s.pending, s.requests, s.heap)
    requires sqe.ReadSqe? && (sqe in s.backlog || sqe in s.sq)
    ensures sqe.ud in s.pending && sqe.ud in s.requests
    ensures EntryOk(sqe.ud, s.pending[sqe.ud], s.requests[sqe.ud], s.heap)
    ensures s.pending[sqe.ud].nread <= s.pending[sqe.ud].regionLen
    ensures sqe == ReadSqeOf(s.pending[sqe.ud], sqe.ud)
    ensures s.pending[sqe.ud].align == s.requests[sqe.ud].args.align
  {
    hide AlignedGeometry, Confirmed;
  }

  lemma EntryRequestAligned(id: nat, p: Pending, r: Request, heap: map<nat, Block>)
    requires EntryOk(id, p, r, heap)
    ensures var sqe := ReadSqeOf(p, id);
            && (sqe.off != CURRENT_POSITION ==> sqe.off % p.align == 0 && sqe.off + sqe.len <= I64_MAX)
            && (heap[p.block].base + sqe.ptr.index) % p.align == 0
            && sqe.len % p.align == 0 && sqe.len == p.regionLen - p.nread
  {
    hide AlignedGeometry, Confirmed;
    var base := heap[p.block].base;
    PadAligns(base, p.align);
    MultiplesClosed(base + p.pad, p.nread, p.align);
    MultiplesClosed(p.regionLen, p.nread, p.align);
    if !p.IsStream() {
      MultiplesClosed(p.offset, p.nread, p.align);
    }
  }

  // ---- exact reads, resolved once ----

  /** A success a caller can observe is exactly its range of its file, whatever happened on the way. */
  lemma ObservedReadsAreExact(s: Shard, r: Resolution)
    requires Reachable(s) && r in s.results && r.observed && r.outcome.Ok?
    ensures r.id in s.requests
    ensures var q := s.requests[r.id];
            q.args.offset != CURRENT_POSITION ==> r.outcome.bytes == Pread(q.file, q.args.offset, q.args.len)
  {
    ReachableInv(s);
    assert ResultsOk(s.results, s.requests);
    hide Inv, Reachable;
    assert ResultOk(r, s.requests);
  }

  /** How often the sender of a read was used. */
  function Uses(s: Shard, id: nat): nat {
    Collect(s.results, ResultTag)[id]
  }

  /**
   * Each accepted read's sender is used at most once, and once the thread has
   * left, drained or leaking, exactly once: no receiver waits for ever.
   */
  lemma SendersResolveOnce(s: Shard, id: nat)
    requires Reachable(s)
    ensures Uses(s, id) <= 1
    ensures Uses(s, id) == 1 ==> id in s.requests
    ensures !s.phase.Running? && id in s.requests ==> Uses(s, id) == 1
    ensures s.phase.Running? && id in s.requests ==>
              (Uses(s, id) == 0 <==> id in s.pending || exists i :: 0 <= i < |s.queue| && s.queue[i].Read? && s.queue[i].id == id)
  {
    ReachableInv(s);
    assert SendersOk(s.requests.Keys, s.queue, s.phase, s.pending.Keys, s.results);
    assert PhaseOk(s.phase, s.queue, s.pending, s.shuttingDown);
    hide Inv, Reachable;
    assert multiset(s.requests.Keys)[id] == (if id in s.requests then 1 else 0);
    if id in Collect(s.queue, MsgTag) {
      var i := CollectWitness(s.queue, id, MsgTag);
      assert s.queue[i].Read? && s.queue[i].id == id;
    } else {
      forall i | 0 <= i < |s.queue| && s.queue[i].Read?
        ensures s.queue[i].id != id
      {
        CollectMember(s.queue, i, MsgTag);
      }
    }
  }

  // ---- cancels ----

  /**
   * A cancel is the last request of its operation, in the order requests were
   * queued, which is the order the kernel takes them; it is created at most once,
   * and only for an operation that was cancelled or is draining.
   */
  lemma CancelsComeLast(s: Shard)
    requires Reachable(s)
    ensures CancelIsLast(s.created)
    ensures s.accepted + s.sq + s.backlog == s.created
    ensures s.queuedCancels <= s.pending.Keys && |s.queuedCancels| <= |s.pending|
    ensures forall id :: id in s.pending ==> (id in s.queuedCancels <==> CancelSqe(id) in s.created)
    ensures forall id :: id in s.queuedCancels ==> s.pending[id].cancelRequested || s.shuttingDown
  {
    ReachableInv(s);
    assert CancelsOk(s.pending, s.queuedCancels, s.shuttingDown, s.created);
    assert Fifo(s.created, s.accepted, s.sq, s.backlog);
    hide Inv, Reachable;
    SubsetSize(s.queuedCancels, s.pending.Keys);
  }

  lemma {:induction false} SubsetSize<T>(a: set<T>, b: set<T>)
    requires a <= b
    ensures |a| <= |b|
    decreases a
  {
    if a != {} {
      var x :| x in a;
      SubsetSize(a - {x}, b - {x});
    }
  }

  // ---- accounting and bounded work ----

  /** Conservation of reads, in every state, the leaked ones included. */
  lemma Conservation(s: Shard)
    requires Reachable(s)
    ensures s.stats.submitted == s.stats.delivered + s.stats.orphans + s.stats.inFlight
    ensures s.stats.inFlight == |s.pending|
    ensures s.phase.Drained? ==> s.stats.submitted == s.stats.delivered + s.stats.orphans
  {
    ReachableInv(s);
    assert StatsOk(s.stats, s.pending.Keys);
    assert PhaseOk(s.phase, s.queue, s.pending, s.shuttingDown);
    hide Inv, Reachable;
  }

  /** However the kernel answers, one logical read costs a bounded number of requests. */
  lemma BoundedRequests(s: Shard, id: nat)
    requires Reachable(s) && id in s.requests
    ensures ReadsFor(s.created, id) <= CostLimit(s.requests[id])
    ensures s.requests[id].args.offset == CURRENT_POSITION ==> ReadsFor(s.created, id) <= 1
  {
    ReachableInv(s);
    assert CostOk(s.pending, s.requests, s.created);
    hide Inv, Reachable, RequestBudget;
  }
}
