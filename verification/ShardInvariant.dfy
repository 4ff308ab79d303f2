/** What every reachable shard state satisfies. */
module ShardInvariant {
  import opened Base
  import opened Geometry
  import opened LogicalRead
  import opened ShardMachine
  import opened Tokens

  // ---- read tokens: where the one outstanding request of an entry can be ----

  function SqeTag(x: Sqe): Option<nat> {
    if x.ReadSqe? then Some(x.ud) else None
  }

  function OpTag(x: KernelOp): Option<nat> {
    if x.KRead? && x.sqe.ReadSqe? then Some(x.sqe.ud) else None
  }

  function CqeTag(x: Cqe): Option<nat> {
    if x.ud < CANCEL_BIT then Some(x.ud) else None
  }

  function SqeReads(q: seq<Sqe>): multiset<nat> {
    Collect(q, SqeTag)
  }

  function ReadTokens(backlog: seq<Sqe>, sq: seq<Sqe>, ops: seq<KernelOp>, cq: seq<Cqe>): multiset<nat> {
    SqeReads(backlog) + SqeReads(sq) + Collect(ops, OpTag) + Collect(cq, CqeTag)
  }

  /** Every pending read has exactly one token, and every token is a pending read's. */
  ghost predicate OneTokenEach(backlog: seq<Sqe>, sq: seq<Sqe>, ops: seq<KernelOp>, cq: seq<Cqe>, ids: set<nat>) {
    ReadTokens(backlog, sq, ops, cq) == multiset(ids)
  }

  // ---- entries ----

  ghost predicate EntryOk(id: nat, p: Pending, r: Request, heap: map<nat, Block>) {
    && id < CANCEL_BIT
    && r.args.offset < U64_RANGE && r.args.len < U64_RANGE
    && p.block in heap
    && var bytes := heap[p.block].bytes;
    && p.Shaped(|bytes|) && p.AtBoundary()
    && |bytes| == p.regionLen + p.align - 1 == p.charge
    && p.pad == Pad(heap[p.block].base, p.align)
    && p.fd == r.args.fd && p.want == r.args.len && p.align == r.args.align && p.charge == r.args.charge
    && AlignedGeometry(r.args.offset, r.args.len, r.args.align) == Some(Region(p.offset, p.head, p.regionLen))
    && (p.IsStream() <==> r.args.offset == CURRENT_POSITION)
    && (!p.IsStream() ==> p.offset + p.head == r.args.offset && p.offset % p.align == 0 && Confirmed(p, bytes, r.file))
  }

  ghost predicate EntriesOk(pending: map<nat, Pending>, requests: map<nat, Request>, heap: map<nat, Block>) {
    forall id :: id in pending ==> id in requests && EntryOk(id, pending[id], requests[id], heap)
  }

  /** Buffers are not shared, and a block is live exactly while an entry owns it. */
  ghost predicate BlocksOwned(pending: map<nat, Pending>, heap: map<nat, Block>) {
    && (forall a, b :: a in pending && b in pending && a != b ==> pending[a].block != pending[b].block)
    && (forall k :: k in heap ==> exists id :: id in pending && pending[id].block == k)
  }

  // ---- every token says what its entry says ----

  ghost predicate SqesMatch(q: seq<Sqe>, pending: map<nat, Pending>) {
    forall i :: 0 <= i < |q| && q[i].ReadSqe? ==>
      && q[i].ud in pending
      && pending[q[i].ud].nread <= pending[q[i].ud].regionLen
      && q[i] == ReadSqeOf(pending[q[i].ud], q[i].ud)
  }

  ghost predicate OpMatches(op: KernelOp, pending: map<nat, Pending>, requests: map<nat, Request>) {
    op.KRead? ==>
      && op.sqe.ReadSqe?
      && op.sqe.ud in pending && op.sqe.ud in requests
      && pending[op.sqe.ud].nread <= pending[op.sqe.ud].regionLen
      && op.sqe == ReadSqeOf(pending[op.sqe.ud], op.sqe.ud)
      && op.file == requests[op.sqe.ud].file
  }

  ghost predicate OpsMatch(q: seq<KernelOp>, pending: map<nat, Pending>, requests: map<nat, Request>) {
    forall i :: 0 <= i < |q| ==> OpMatches(q[i], pending, requests)
  }

  ghost predicate CqeMatches(c: Cqe, pending: map<nat, Pending>, requests: map<nat, Request>, heap: map<nat, Block>) {
    c.ud < CANCEL_BIT ==>
      && c.ud in pending && c.ud in requests
      && var p := pending[c.ud];
      && p.block in heap && p.Shaped(|heap[p.block].bytes|)
      && (c.res > 0 ==> p.nread + c.res <= p.regionLen)
      && (!p.IsStream() ==>
            && LegalResult(requests[c.ud].file, p.offset + p.nread, p.regionLen - p.nread, c.res)
            && Filled(p, heap[p.block].bytes, requests[c.ud].file, c.res))
  }

  ghost predicate CqesMatch(q: seq<Cqe>, pending: map<nat, Pending>, requests: map<nat, Request>, heap: map<nat, Block>) {
    forall i :: 0 <= i < |q| ==> CqeMatches(q[i], pending, requests, heap)
  }

  // ---- descriptors ----

  ghost predicate QueueOk(queue: seq<Msg>, requests: map<nat, Request>) {
    forall i :: 0 <= i < |queue| && queue[i].Read? ==>
      && queue[i].id < CANCEL_BIT
      && queue[i].id in requests && requests[queue[i].id].args == queue[i].args
      && (ValidArgs(queue[i].args, true) || ValidArgs(queue[i].args, false))
  }

  /** A descriptor is open exactly while someone holds it, and still names the accepted file. */
  ghost predicate FdsOk(fds: map<nat, seq<byte>>, callerFds: set<nat>, queue: seq<Msg>,
                        pending: map<nat, Pending>, requests: map<nat, Request>) {
    && fds.Keys == FdRefs(callerFds, queue, pending)
    && (forall i :: 0 <= i < |queue| && queue[i].Read? ==>
          queue[i].id in requests && queue[i].args.fd in fds && requests[queue[i].id].file == fds[queue[i].args.fd])
    && (forall id :: id in pending ==>
          id in requests && pending[id].fd in fds && requests[id].file == fds[pending[id].fd])
  }

  // ---- cancels and the order of requests ----

  /** After a cancel for an operation, no further request for it. */
  ghost predicate CancelIsLast(created: seq<Sqe>) {
    forall i, j :: 0 <= i < j < |created| && created[i].CancelSqe? ==>
      && created[j] != created[i]
      && !(created[j].ReadSqe? && created[j].ud == created[i].target)
  }

  ghost predicate CancelsOk(pending: map<nat, Pending>, queuedCancels: set<nat>, shuttingDown: bool, created: seq<Sqe>) {
    && queuedCancels <= pending.Keys
    && (forall id :: id in queuedCancels ==> pending[id].cancelRequested || shuttingDown)
    && (forall id :: id in pending ==> (id in queuedCancels <==> CancelSqe(id) in created))
    && CancelIsLast(created)
  }

  /** Requests only ever name accepted reads that left the queue. */
  ghost predicate CreatedOk(created: seq<Sqe>, queue: seq<Msg>, requests: map<nat, Request>) {
    && (forall i :: 0 <= i < |created| ==> SqeId(created[i]) in requests)
    && (forall i, k :: 0 <= i < |created| && 0 <= k < |queue| && queue[k].Read? ==> SqeId(created[i]) != queue[k].id)
  }

  function SqeId(sqe: Sqe): nat {
    if sqe.ReadSqe? then sqe.ud else sqe.target
  }

  /** The rings are first in, first out: nothing overtakes. */
  ghost predicate Fifo(created: seq<Sqe>, accepted: seq<Sqe>, sq: seq<Sqe>, backlog: seq<Sqe>) {
    created == accepted + sq + backlog
  }

  // ---- senders ----

  function MsgTag(m: Msg): Option<nat> {
    if m.Read? then Some(m.id) else None
  }

  function ResultTag(r: Resolution): Option<nat> {
    Some(r.id)
  }

  function LiveSenders(phase: Phase, ids: set<nat>): set<nat> {
    if phase.Leaked? then {} else ids
  }

  /** Each accepted read's sender is in the queue, in its entry, or used: exactly one of them. */
  ghost predicate SendersOk(accepted: set<nat>, queue: seq<Msg>, phase: Phase, ids: set<nat>, results: seq<Resolution>) {
    multiset(accepted) == Collect(queue, MsgTag) + multiset(LiveSenders(phase, ids)) + Collect(results, ResultTag)
  }

  ghost predicate PhaseOk(phase: Phase, queue: seq<Msg>, pending: map<nat, Pending>, shuttingDown: bool) {
    && (forall id :: id in pending ==> (pending[id].hasSender <==> !phase.Leaked?))
    && (!phase.Running? ==> queue == [] && shuttingDown)
    && (phase.Drained? ==> pending == map[])
  }

  /** A success that a receiver can see is exactly the caller's range of the file. */
  ghost predicate ResultOk(r: Resolution, requests: map<nat, Request>) {
    && r.id in requests
    && var q := requests[r.id];
    r.observed && r.outcome.Ok? && q.args.offset != CURRENT_POSITION ==>
      r.outcome.bytes == Pread(q.file, q.args.offset, q.args.len)
  }

  ghost predicate ResultsOk(results: seq<Resolution>, requests: map<nat, Request>) {
    forall i :: 0 <= i < |results| ==> ResultOk(results[i], requests)
  }

  // ---- accounting ----

  ghost predicate StatsOk(stats: Stats, ids: set<nat>) {
    && stats.submitted == stats.delivered + stats.orphans + stats.inFlight
    && stats.inFlight == |ids|
  }

  // ---- how many read requests one read has cost ----

  function ReadsFor(created: seq<Sqe>, id: nat): nat {
    SqeReads(created)[id]
  }

  ghost predicate CostOk(pending: map<nat, Pending>, requests: map<nat, Request>, created: seq<Sqe>) {
    && (forall id :: id in pending ==>
          && id in requests
          && pending[id].align > 0
          && ReadsFor(created, id) <= RequestBudget(pending[id].regionLen, pending[id].align)
          && (pending[id].IsStream() ==> ReadsFor(created, id) <= 1)
          && ReadsFor(created, id) + Potential(pending[id]) <= RequestBudget(pending[id].regionLen, pending[id].align) + 1)
    && (forall id :: id in requests ==> ReadsFor(created, id) <= CostLimit(requests[id]))
  }

  /** The bound of an accepted read, from its arguments alone. */
  function CostLimit(r: Request): nat {
    if r.args.offset < U64_RANGE && r.args.len < U64_RANGE && r.args.align > 0
       && AlignedGeometry(r.args.offset, r.args.len, r.args.align).Some?
    then
      if r.args.offset == CURRENT_POSITION then 1
      else RequestBudget(AlignedGeometry(r.args.offset, r.args.len, r.args.align).value.regionLen, r.args.align)
    else 0
  }

  // ---- the invariant ----

  ghost predicate Inv(s: Shard) {
    && !s.fault
    && OneTokenEach(s.backlog, s.sq, s.ops, s.cq, s.pending.Keys)
    && EntriesOk(s.pending, s.requests, s.heap)
    && BlocksOwned(s.pending, s.heap)
    && SqesMatch(s.backlog, s.pending)
    && SqesMatch(s.sq, s.pending)
    && OpsMatch(s.ops, s.pending, s.requests)
    && CqesMatch(s.cq, s.pending, s.requests, s.heap)
    && QueueOk(s.queue, s.requests)
    && FdsOk(s.fds, s.callerFds, s.queue, s.pending, s.requests)
    && CancelsOk(s.pending, s.queuedCancels, s.shuttingDown, s.created)
    && CreatedOk(s.created, s.queue, s.requests)
    && Fifo(s.created, s.accepted, s.sq, s.backlog)
    && SendersOk(s.requests.Keys, s.queue, s.phase, s.pending.Keys, s.results)
    && PhaseOk(s.phase, s.queue, s.pending, s.shuttingDown)
    && ResultsOk(s.results, s.requests)
    && StatsOk(s.stats, s.pending.Keys)
    && CostOk(s.pending, s.requests, s.created)
  }
}
