/** Intake, cancels and exits of the driver thread keep the invariant. */
module IntakeSteps {
  import opened Base
  import opened Geometry
  import opened LogicalRead
  import opened ShardMachine
  import opened Tokens
  import opened ShardInvariant
  import opened CallerSteps

  // ---- leaving the queue ----

  lemma PopQueue(queue: seq<Msg>, requests: map<nat, Request>, created: seq<Sqe>, fds: map<nat, seq<byte>>,
                 callerFds: set<nat>, pending: map<nat, Pending>)
    requires queue != [] && QueueOk(queue, requests) && CreatedOk(created, queue, requests)
    requires FdsOk(fds, callerFds, queue, pending, requests)
    ensures QueueOk(queue[1..], requests) && CreatedOk(created, queue[1..], requests)
    ensures FdsCover(fds, callerFds, queue[1..], pending, requests)
    ensures !queue[0].Read? ==> FdsOk(fds, callerFds, queue[1..], pending, requests)
  {
    hide ValidArgs;
    var rest := queue[1..];
    assert forall m :: m in queue <==> m == queue[0] || m in rest;
    assert forall i :: 0 <= i < |rest| ==> rest[i] == queue[i + 1];
    var refs, refs' := FdRefs(callerFds, queue, pending), FdRefs(callerFds, rest, pending);
    assert refs' <= refs;
    if !queue[0].Read? {
      assert refs' == refs;
    }
  }

  lemma HeadToResults(accepted: set<nat>, queue: seq<Msg>, phase: Phase, ids: set<nat>, results: seq<Resolution>, r: Resolution)
    requires SendersOk(accepted, queue, phase, ids, results)
    requires queue != [] && queue[0].Read? && r.id == queue[0].id
    ensures SendersOk(accepted, queue[1..], phase, ids, results + [r])
  {
    CollectPush(results, r, ResultTag);
  }

  lemma HeadDropped(accepted: set<nat>, queue: seq<Msg>, phase: Phase, ids: set<nat>, results: seq<Resolution>)
    requires SendersOk(accepted, queue, phase, ids, results)
    requires queue != [] && !queue[0].Read?
    ensures SendersOk(accepted, queue[1..], phase, ids, results)
  {
  }

  lemma FailurePushed(results: seq<Resolution>, r: Resolution, requests: map<nat, Request>)
    requires ResultsOk(results, requests) && r.id in requests && !r.outcome.Ok?
    ensures ResultsOk(results + [r], requests)
  {
  }

  lemma RejectKeepsInv(s: Shard, outcome: Outcome)
    requires Inv(s) && s.phase.Running? && s.queue != [] && s.queue[0].Read? && !outcome.Ok?
    ensures Inv(Reject(s, outcome))
  {
    hide EntriesOk, BlocksOwned, SqesMatch, OpsMatch, CqesMatch, FdsOk, CancelsOk, CreatedOk, Fifo, SendersOk;
    hide ResultsOk, StatsOk, CostOk, OneTokenEach, FdsCover, FdRefs, ValidArgs;
    var r := Resolution(s.queue[0].id, outcome, s.queue[0].id !in s.closed);
    PopQueue(s.queue, s.requests, s.created, s.fds, s.callerFds, s.pending);
    HeadToResults(s.requests.Keys, s.queue, s.phase, s.pending.Keys, s.results, r);
    FailurePushed(s.results, r, s.requests);
    CloseEstablishesFds(s.fds, s.callerFds, s.queue[1..], s.pending, s.requests);
  }

  // ---- a read becomes an entry ----

  /** A queued read is queued once and is not pending. */
  lemma QueuedOnce(accepted: set<nat>, queue: seq<Msg>, ids: set<nat>, results: seq<Resolution>)
    requires SendersOk(accepted, queue, Running, ids, results)
    requires queue != [] && queue[0].Read?
    ensures queue[0].id !in ids
    ensures forall i :: 1 <= i < |queue| && queue[i].Read? ==> queue[i].id != queue[0].id
    ensures SendersOk(accepted, queue[1..], Running, ids + {queue[0].id}, results)
  {
    var id := queue[0].id;
    assert multiset(accepted)[id] <= 1;
    forall i | 1 <= i < |queue| && queue[i].Read?
      ensures queue[i].id != id
    {
      if queue[i].id == id {
        CollectMember(queue[1..], i - 1, MsgTag);
      }
    }
    SetInsert(ids, id);
  }

  /** The allocation is exactly the charge, and the new entry satisfies its description. */
  lemma NewEntryOk(id: nat, a: Args, file: seq<byte>, heap: map<nat, Block>, block: nat, base: nat)
    requires id < CANCEL_BIT
    requires ValidArgs(a, true) || ValidArgs(a, false)
    ensures GoodAlign(a.align) && AlignedGeometry(a.offset, a.len, a.align).Some?
    ensures var g := AlignedGeometry(a.offset, a.len, a.align).value;
            var p := NewEntry(a, g, block, base);
            && EntryOk(id, p, Request(a, file), heap[block := Block(base, Zeroes(g.regionLen + a.align - 1))])
            && p.nread <= p.regionLen
  {
    var stream := ValidArgs(a, true);
    AcceptedArithmetic(a.offset, a.len, a.align, stream, Limits(None, None));
    GeometryIsLeastSuperset(a.offset, a.len, a.align);
    assert 0 % a.align == 0;
    assert a.align == 1 ==> forall x: nat :: x % 1 == 0;
  }

  /** A new block elsewhere does not matter to an entry. */
  lemma EntryKeepsBlock(id: nat, p: Pending, r: Request, heap: map<nat, Block>, block: nat, b: Block)
    requires EntryOk(id, p, r, heap) && block !in heap
    ensures EntryOk(id, p, r, heap[block := b]) && p.block != block
  {
    hide AlignedGeometry;
  }

  lemma AdmitKeepsEntries(pending: map<nat, Pending>, requests: map<nat, Request>, heap: map<nat, Block>, id: nat, p: Pending, b: Block)
    requires EntriesOk(pending, requests, heap) && BlocksOwned(pending, heap)
    requires id !in pending && id in requests && p.block !in heap
    requires EntryOk(id, p, requests[id], heap[p.block := b])
    ensures EntriesOk(pending[id := p], requests, heap[p.block := b])
    ensures BlocksOwned(pending[id := p], heap[p.block := b])
  {
    hide EntryOk;
    var pending', heap' := pending[id := p], heap[p.block := b];
    forall k | k in pending
      ensures EntryOk(k, pending[k], requests[k], heap') && pending[k].block != p.block
    {
      EntryKeepsBlock(k, pending[k], requests[k], heap, p.block, b);
    }
    forall k | k in heap'
      ensures exists x :: x in pending' && pending'[x].block == k
    {
      if k == p.block {
        assert pending'[id].block == k;
      } else {
        var x :| x in pending && pending[x].block == k;
        assert pending'[x].block == k;
      }
    }
  }

  /** Every entry a token names is still there and unchanged. */
  lemma SqesGrow(q: seq<Sqe>, pending: map<nat, Pending>, id: nat, p: Pending)
    requires SqesMatch(q, pending) && id !in pending
    ensures SqesMatch(q, pending[id := p])
  {
  }

  lemma OpsGrow(q: seq<KernelOp>, pending: map<nat, Pending>, requests: map<nat, Request>, id: nat, p: Pending)
    requires OpsMatch(q, pending, requests) && id !in pending
    ensures OpsMatch(q, pending[id := p], requests)
  {
    forall i | 0 <= i < |q|
      ensures OpMatches(q[i], pending[id := p], requests)
    {
      assert OpMatches(q[i], pending, requests);
    }
  }

  lemma CqesGrow(q: seq<Cqe>, pending: map<nat, Pending>, requests: map<nat, Request>, heap: map<nat, Block>, id: nat, p: Pending, b: Block)
    requires CqesMatch(q, pending, requests, heap) && id !in pending && p.block !in heap
    ensures CqesMatch(q, pending[id := p], requests, heap[p.block := b])
  {
    forall i | 0 <= i < |q|
      ensures CqeMatches(q[i], pending[id := p], requests, heap[p.block := b])
    {
      assert CqeMatches(q[i], pending, requests, heap);
    }
  }

  lemma SqesPush(q: seq<Sqe>, pending: map<nat, Pending>, sqe: Sqe)
    requires SqesMatch(q, pending) && SqesMatch([sqe], pending)
    ensures SqesMatch(q + [sqe], pending)
  {
    assert [sqe][0] == sqe;
  }

  /** Queueing one more request: first in, first out, and one more token if it is a read. */
  lemma PushKeepsOrder(created: seq<Sqe>, accepted: seq<Sqe>, sq: seq<Sqe>, backlog: seq<Sqe>, sqe: Sqe)
    requires Fifo(created, accepted, sq, backlog)
    ensures Fifo(created + [sqe], accepted, sq, backlog + [sqe])
    ensures SqeReads(backlog + [sqe]) == SqeReads(backlog) + (if sqe.ReadSqe? then multiset{sqe.ud} else multiset{})
    ensures SqeReads(created + [sqe]) == SqeReads(created) + (if sqe.ReadSqe? then multiset{sqe.ud} else multiset{})
  {
    CollectPush(backlog, sqe, SqeTag);
    CollectPush(created, sqe, SqeTag);
    hide Collect;
    assert accepted + sq + (backlog + [sqe]) == (accepted + sq + backlog) + [sqe];
  }

  lemma PushReadToken(backlog: seq<Sqe>, sq: seq<Sqe>, ops: seq<KernelOp>, cq: seq<Cqe>, sqe: Sqe)
    requires sqe.ReadSqe?
    ensures ReadTokens(backlog + [sqe], sq, ops, cq) == ReadTokens(backlog, sq, ops, cq) + multiset{sqe.ud}
  {
    CollectPush(backlog, sqe, SqeTag);
  }

  lemma AdmitKeepsFds(fds: map<nat, seq<byte>>, callerFds: set<nat>, queue: seq<Msg>, pending: map<nat, Pending>,
                      requests: map<nat, Request>, p: Pending)
    requires FdsOk(fds, callerFds, queue, pending, requests)
    requires queue != [] && queue[0].Read? && queue[0].id !in pending && p.fd == queue[0].args.fd
    ensures FdsOk(fds, callerFds, queue[1..], pending[queue[0].id := p], requests)
  {
    var rest, pending' := queue[1..], pending[queue[0].id := p];
    assert forall m :: m in queue <==> m == queue[0] || m in rest;
    assert forall i :: 0 <= i < |rest| ==> rest[i] == queue[i + 1];
    var refs, refs' := FdRefs(callerFds, queue, pending), FdRefs(callerFds, rest, pending');
    assert queue[0] in queue && pending'[queue[0].id] == p;
    forall f | f in refs
      ensures f in refs'
    {
      if id :| id in pending && pending[id].fd == f {
        assert pending'[id].fd == f;
      }
    }
    assert refs' <= refs;
  }

  lemma AdmitKeepsCancels(pending: map<nat, Pending>, queuedCancels: set<nat>, shuttingDown: bool, created: seq<Sqe>,
                          queue: seq<Msg>, requests: map<nat, Request>, p: Pending, sqe: Sqe)
    requires CancelsOk(pending, queuedCancels, shuttingDown, created) && CreatedOk(created, queue, requests)
    requires queue != [] && queue[0].Read? && queue[0].id !in pending
    requires sqe.ReadSqe? && sqe.ud == queue[0].id
    ensures CancelsOk(pending[sqe.ud := p], queuedCancels, shuttingDown, created + [sqe])
  {
    assert forall i :: 0 <= i < |created| ==> SqeId(created[i]) != sqe.ud;
    assert forall x :: x in created + [sqe] <==> x in created || x == sqe;
    PushReadKeepsCancelLast(created, sqe);
  }

  lemma PushReadKeepsCancelLast(created: seq<Sqe>, sqe: Sqe)
    requires CancelIsLast(created) && sqe.ReadSqe? && CancelSqe(sqe.ud) !in created
    ensures CancelIsLast(created + [sqe])
  {
    assert forall i :: 0 <= i < |created| && created[i].CancelSqe? ==> created[i] == CancelSqe(created[i].target);
  }

  lemma AdmitKeepsCreated(created: seq<Sqe>, queue: seq<Msg>, requests: map<nat, Request>, sqe: Sqe)
    requires CreatedOk(created, queue, requests)
    requires queue != [] && queue[0].Read? && sqe.ReadSqe? && sqe.ud == queue[0].id && sqe.ud in requests
    requires forall i :: 1 <= i < |queue| && queue[i].Read? ==> queue[i].id != queue[0].id
    ensures CreatedOk(created + [sqe], queue[1..], requests)
  {
    assert forall i :: 0 <= i < |queue[1..]| ==> queue[1..][i] == queue[i + 1];
  }

  lemma QueuedIsUnrequested(created: seq<Sqe>, queue: seq<Msg>, requests: map<nat, Request>)
    requires CreatedOk(created, queue, requests) && queue != [] && queue[0].Read?
    ensures ReadsFor(created, queue[0].id) == 0
  {
    if ReadsFor(created, queue[0].id) > 0 {
      var i := CollectWitness(created, queue[0].id, SqeTag);
    }
  }

  lemma FreshLimit(id: nat, p: Pending, r: Request, heap: map<nat, Block>)
    requires EntryOk(id, p, r, heap)
    ensures 1 <= CostLimit(r) && p.align > 0
  {
    hide AlignedGeometry;
    assert 1 <= RequestBudget(p.regionLen, p.align);
  }

  lemma AdmitKeepsCost(pending: map<nat, Pending>, requests: map<nat, Request>, created: seq<Sqe>, id: nat, p: Pending, sqe: Sqe,
                       heap: map<nat, Block>)
    requires CostOk(pending, requests, created) && ReadsFor(created, id) == 0
    requires id in requests && sqe.ReadSqe? && sqe.ud == id
    requires EntryOk(id, p, requests[id], heap) && p.nread == 0 && p.retries == 0
    ensures CostOk(pending[id := p], requests, created + [sqe])
  {
    CollectPush(created, sqe, SqeTag);
    assert forall k :: k != id ==> ReadsFor(created + [sqe], k) == ReadsFor(created, k);
    assert ReadsFor(created + [sqe], id) == 1;
    assert 1 <= RequestBudget(p.regionLen, p.align);
    FreshEntryCost(p);
    FreshLimit(id, p, requests[id], heap);
    hide ReadsFor, RequestBudget, CostLimit, Potential, EntryOk;
  }

  lemma FreshEntryCost(p: Pending)
    requires p.align > 0 && p.nread == 0 && p.retries == 0
    ensures 1 + Potential(p) <= RequestBudget(p.regionLen, p.align) + 1
  {
  }

  /** An admitted read, field by field. */
  lemma AdmitFields(s: Shard, id: nat, a: Args, g: Region, block: nat, base: nat, t: Shard)
    requires s.queue != [] && a.align > 0 && t == Admit(s, id, a, g, block, base)
    ensures var p := NewEntry(a, g, block, base);
            && t.pending == s.pending[id := p] && t.heap == s.heap[block := Block(base, Zeroes(g.regionLen + a.align - 1))]
            && t.backlog == s.backlog + [ReadSqeOf(p, id)] && t.created == s.created + [ReadSqeOf(p, id)]
    ensures t.queue == s.queue[1..] && t.queuedCancels == s.queuedCancels && t.fds == s.fds && t.results == s.results
    ensures t.stats.submitted == s.stats.submitted + 1 && t.stats.inFlight == s.stats.inFlight + 1
    ensures t.stats.delivered == s.stats.delivered && t.stats.orphans == s.stats.orphans
    ensures t.callerFds == s.callerFds && t.requests == s.requests && t.fault == s.fault
    ensures t.sq == s.sq && t.ops == s.ops && t.cq == s.cq && t.senders == s.senders && t.sqCap == s.sqCap
    ensures t.accepted == s.accepted && t.phase == s.phase && t.shuttingDown == s.shuttingDown
  {
    hide Zeroes, ReadSqeOf;
  }

  lemma AdmitKeepsPhase(queue: seq<Msg>, pending: map<nat, Pending>, shuttingDown: bool, id: nat, p: Pending)
    requires queue != [] && id !in pending && p.hasSender && PhaseOk(Running, queue, pending, shuttingDown)
    ensures PhaseOk(Running, queue[1..], pending[id := p], shuttingDown)
  {
  }

  /** One more read was submitted, and one more is in flight. */
  lemma AdmitKeepsStats(stats: Stats, stats': Stats, ids: set<nat>, id: nat)
    requires StatsOk(stats, ids) && id !in ids
    requires stats'.submitted == stats.submitted + 1 && stats'.inFlight == stats.inFlight + 1
    requires stats'.delivered == stats.delivered && stats'.orphans == stats.orphans
    ensures StatsOk(stats', ids + {id})
  {
  }

  lemma AdmitKeepsTokens(backlog: seq<Sqe>, sq: seq<Sqe>, ops: seq<KernelOp>, cq: seq<Cqe>, ids: set<nat>, sqe: Sqe)
    requires OneTokenEach(backlog, sq, ops, cq, ids) && sqe.ReadSqe? && sqe.ud !in ids
    ensures OneTokenEach(backlog + [sqe], sq, ops, cq, ids + {sqe.ud})
  {
    hide ReadTokens;
    PushReadToken(backlog, sq, ops, cq, sqe);
    SetInsert(ids, sqe.ud);
  }

  /** `t` is `s` after the read at the head of its queue was entered. */
  predicate IsAdmission(s: Shard, t: Shard, a: Args, g: Region, block: nat, base: nat) {
    && s.phase.Running? && s.queue != [] && s.queue[0].Read? && block !in s.heap && a == s.queue[0].args
    && a.align > 0 && a.offset < U64_RANGE && a.len < U64_RANGE && AlignedGeometry(a.offset, a.len, a.align) == Some(g)
    && t == Admit(s, s.queue[0].id, a, g, block, base)
  }

  /** What the admitted read is, and that its id is new to the table. */
  lemma Admitted(s: Shard, t: Shard, a: Args, g: Region, block: nat, base: nat)
    requires Inv(s) && IsAdmission(s, t, a, g, block, base)
    ensures var id, p := s.queue[0].id, NewEntry(a, g, block, base);
            && id in s.requests && id !in s.pending && p.nread <= p.regionLen
            && t.pending == s.pending[id := p] && t.pending.Keys == s.pending.Keys + {id}
            && block in t.heap && t.heap == s.heap[block := t.heap[block]]
            && EntryOk(id, p, s.requests[id], t.heap)
            && SendersOk(s.requests.Keys, t.queue, Running, t.pending.Keys, s.results)
            && forall i :: 1 <= i < |s.queue| && s.queue[i].Read? ==> s.queue[i].id != id
  {
    hide EntriesOk, BlocksOwned, SqesMatch, OpsMatch, CqesMatch, FdsOk, CancelsOk, CreatedOk, Fifo, SendersOk;
    hide ResultsOk, CostOk, ReadTokens, FdsCover, FdRefs, EntryOk, AlignedGeometry, QueueOk, Zeroes, Admit, PhaseOk, StatsOk, OneTokenEach;
    AdmissionFacts(s, block, base);
    AdmitFields(s, s.queue[0].id, a, g, block, base, t);
    QueuedOnce(s.requests.Keys, s.queue, s.pending.Keys, s.results);
  }

  /** Its entry, its buffer and its one request fit the others. */
  lemma AdmittedRings(s: Shard, t: Shard, a: Args, g: Region, block: nat, base: nat)
    requires Inv(s) && IsAdmission(s, t, a, g, block, base)
    ensures OneTokenEach(t.backlog, t.sq, t.ops, t.cq, t.pending.Keys)
    ensures EntriesOk(t.pending, t.requests, t.heap) && BlocksOwned(t.pending, t.heap)
    ensures SqesMatch(t.backlog, t.pending) && SqesMatch(t.sq, t.pending) && OpsMatch(t.ops, t.pending, t.requests)
    ensures CqesMatch(t.cq, t.pending, t.requests, t.heap)
  {
    hide EntriesOk, BlocksOwned, SqesMatch, OpsMatch, CqesMatch, FdsOk, CancelsOk, CreatedOk, Fifo, SendersOk;
    hide ResultsOk, CostOk, ReadTokens, FdsCover, FdRefs, EntryOk, AlignedGeometry, QueueOk, Zeroes, Admit, PhaseOk, StatsOk, OneTokenEach;
    Admitted(s, t, a, g, block, base);
    var id, p := s.queue[0].id, NewEntry(a, g, block, base);
    AdmitFields(s, id, a, g, block, base, t);
    AdmitKeepsTokens(s.backlog, s.sq, s.ops, s.cq, s.pending.Keys, ReadSqeOf(p, id));
    AdmitKeepsEntries(s.pending, s.requests, s.heap, id, p, t.heap[block]);
    AdmitKeepsRings(s, id, p, t.heap[block]);
  }

  /** Its file, its place in the order of requests and its cost fit the others. */
  lemma AdmittedHistory(s: Shard, t: Shard, a: Args, g: Region, block: nat, base: nat)
    requires Inv(s) && IsAdmission(s, t, a, g, block, base)
    ensures QueueOk(t.queue, t.requests) && FdsOk(t.fds, t.callerFds, t.queue, t.pending, t.requests)
    ensures CancelsOk(t.pending, t.queuedCancels, t.shuttingDown, t.created) && CreatedOk(t.created, t.queue, t.requests)
    ensures Fifo(t.created, t.accepted, t.sq, t.backlog) && CostOk(t.pending, t.requests, t.created)
  {
    hide EntriesOk, BlocksOwned, SqesMatch, OpsMatch, CqesMatch, FdsOk, CancelsOk, CreatedOk, Fifo, SendersOk;
    hide ResultsOk, CostOk, ReadTokens, FdsCover, FdRefs, EntryOk, AlignedGeometry, QueueOk, Zeroes, Admit, PhaseOk, StatsOk, OneTokenEach;
    Admitted(s, t, a, g, block, base);
    var id, p := s.queue[0].id, NewEntry(a, g, block, base);
    var sqe := ReadSqeOf(p, id);
    AdmitFields(s, id, a, g, block, base, t);
    hide NewEntry;
    PopQueue(s.queue, s.requests, s.created, s.fds, s.callerFds, s.pending);
    AdmitKeepsFds(s.fds, s.callerFds, s.queue, s.pending, s.requests, p);
    AdmitKeepsCancels(s.pending, s.queuedCancels, s.shuttingDown, s.created, s.queue, s.requests, p, sqe);
    AdmitKeepsCreated(s.created, s.queue, s.requests, sqe);
    PushKeepsOrder(s.created, s.accepted, s.sq, s.backlog, sqe);
    QueuedIsUnrequested(s.created, s.queue, s.requests);
    AdmitKeepsCost(s.pending, s.requests, s.created, id, p, sqe, t.heap);
  }

  /** It is counted. */
  lemma AdmittedStats(s: Shard, t: Shard, a: Args, g: Region, block: nat, base: nat)
    requires Inv(s) && IsAdmission(s, t, a, g, block, base)
    ensures StatsOk(t.stats, t.pending.Keys)
  {
    hide EntriesOk, BlocksOwned, SqesMatch, OpsMatch, CqesMatch, FdsOk, CancelsOk, CreatedOk, Fifo, SendersOk;
    hide ResultsOk, CostOk, ReadTokens, FdsCover, FdRefs, EntryOk, AlignedGeometry, QueueOk, Zeroes, Admit, PhaseOk, StatsOk, OneTokenEach;
    Admitted(s, t, a, g, block, base);
    AdmitFields(s, s.queue[0].id, a, g, block, base, t);
    hide Inv, NewEntry;
    AdmitKeepsStats(s.stats, t.stats, s.pending.Keys, s.queue[0].id);
  }

  /** Its sender moves from the queue to the entry. */
  lemma AdmittedSender(s: Shard, t: Shard, a: Args, g: Region, block: nat, base: nat)
    requires Inv(s) && IsAdmission(s, t, a, g, block, base)
    ensures !t.fault && ResultsOk(t.results, t.requests)
    ensures SendersOk(t.requests.Keys, t.queue, t.phase, t.pending.Keys, t.results)
    ensures PhaseOk(t.phase, t.queue, t.pending, t.shuttingDown)
  {
    hide EntriesOk, BlocksOwned, SqesMatch, OpsMatch, CqesMatch, FdsOk, CancelsOk, CreatedOk, Fifo, SendersOk;
    hide ResultsOk, CostOk, ReadTokens, FdsCover, FdRefs, EntryOk, AlignedGeometry, QueueOk, Zeroes, Admit, PhaseOk, StatsOk, OneTokenEach;
    Admitted(s, t, a, g, block, base);
    var id, p := s.queue[0].id, NewEntry(a, g, block, base);
    AdmitFields(s, id, a, g, block, base, t);
    AdmitKeepsPhase(s.queue, s.pending, s.shuttingDown, id, p);
  }

  /** The read at the head of the queue becomes an entry with one request. */
  lemma AdmittedInv(s: Shard, t: Shard, a: Args, g: Region, block: nat, base: nat)
    requires Inv(s) && IsAdmission(s, t, a, g, block, base)
    ensures Inv(t)
  {
    hide EntriesOk, BlocksOwned, SqesMatch, OpsMatch, CqesMatch, FdsOk, CancelsOk, CreatedOk, Fifo, SendersOk;
    hide ResultsOk, CostOk, ReadTokens, FdsCover, FdRefs, EntryOk, AlignedGeometry, QueueOk, Zeroes, Admit, PhaseOk, StatsOk, OneTokenEach;
    AdmittedRings(s, t, a, g, block, base);
    AdmittedHistory(s, t, a, g, block, base);
    AdmittedSender(s, t, a, g, block, base);
    AdmittedStats(s, t, a, g, block, base);
  }

  lemma AdmitKeepsInv(s: Shard, block: nat, base: nat)
    requires Inv(s) && s.phase.Running? && s.queue != [] && s.queue[0].Read? && block !in s.heap
    ensures var a := s.queue[0].args;
            && a.align > 0 && a.offset < U64_RANGE && a.len < U64_RANGE
            && AlignedGeometry(a.offset, a.len, a.align).Some?
            && Inv(Admit(s, s.queue[0].id, a, AlignedGeometry(a.offset, a.len, a.align).value, block, base))
  {
    assert QueueOk(s.queue, s.requests);
    hide Inv, AlignedGeometry, Admit, EntryOk, Zeroes;
    AdmissionFacts(s, block, base);
    var a := s.queue[0].args;
    var g := AlignedGeometry(a.offset, a.len, a.align).value;
    AdmittedInv(s, Admit(s, s.queue[0].id, a, g, block, base), a, g, block, base);
  }

  lemma AdmissionFacts(s: Shard, block: nat, base: nat)
    requires QueueOk(s.queue, s.requests) && s.queue != [] && s.queue[0].Read?
    ensures var a := s.queue[0].args;
            && a.align > 0 && a.offset < U64_RANGE && a.len < U64_RANGE
            && AlignedGeometry(a.offset, a.len, a.align).Some?
            && var g := AlignedGeometry(a.offset, a.len, a.align).value;
            var p := NewEntry(a, g, block, base);
            && s.queue[0].id in s.requests
            && EntryOk(s.queue[0].id, p, s.requests[s.queue[0].id],
                       s.heap[block := Block(base, Zeroes(g.regionLen + a.align - 1))])
            && p.nread <= p.regionLen
  {
    hide EntryOk, AlignedGeometry;
    var id := s.queue[0].id;
    NewEntryOk(id, s.queue[0].args, s.requests[id].file, s.heap, block, base);
  }

  lemma AdmitKeepsRings(s: Shard, id: nat, p: Pending, b: Block)
    requires SqesMatch(s.backlog, s.pending) && SqesMatch(s.sq, s.pending) && OpsMatch(s.ops, s.pending, s.requests)
    requires CqesMatch(s.cq, s.pending, s.requests, s.heap)
    requires id !in s.pending && p.block !in s.heap && p.nread <= p.regionLen
    ensures var pending := s.pending[id := p];
            && SqesMatch(s.backlog + [ReadSqeOf(p, id)], pending) && SqesMatch(s.sq, pending)
            && OpsMatch(s.ops, pending, s.requests) && CqesMatch(s.cq, pending, s.requests, s.heap[p.block := b])
  {
    hide OpsMatch, CqesMatch;
    SqesGrow(s.backlog, s.pending, id, p);
    SqesGrow(s.sq, s.pending, id, p);
    SqesPush(s.backlog, s.pending[id := p], ReadSqeOf(p, id));
    OpsGrow(s.ops, s.pending, s.requests, id, p);
    CqesGrow(s.cq, s.pending, s.requests, s.heap, id, p, b);
  }

  lemma RecvReadKeepsInv(s: Shard, block: nat, base: nat, aligns: bool)
    requires Inv(s)
    ensures Inv(DoRecvRead(s, block, base, aligns))
  {
    hide Inv, AlignedGeometry;
    if s.phase.Running? && s.queue != [] && s.queue[0].Read? {
      if s.shuttingDown {
        RejectKeepsInv(s, ShuttingDown);
      } else if !aligns {
        RejectKeepsInv(s, CannotAlign);
      } else if block !in s.heap {
        AdmitKeepsInv(s, block, base);
      }
    }
  }
}
