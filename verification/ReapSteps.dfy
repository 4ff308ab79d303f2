/** Consuming a completion keeps the invariant, and with it every run does. */
module ReapSteps {
  import opened Base
  import opened Geometry
  import opened LogicalRead
  import opened ShardMachine
  import opened Tokens
  import opened ShardInvariant
  import opened CallerSteps
  import opened IntakeSteps
  import opened CancelSteps
  import opened KernelSteps

  // ---- the consumed token was the only one ----

  /** Whoever else holds a token, it is not this read's. */
  ghost predicate NoToken(s: Shard, id: nat)
    requires s.cq != []
  {
    && id !in SqeReads(s.backlog) && id !in SqeReads(s.sq)
    && id !in Collect(s.ops, OpTag) && id !in Collect(s.cq[1..], CqeTag)
  }

  lemma PopReadToken(s: Shard)
    requires OneTokenEach(s.backlog, s.sq, s.ops, s.cq, s.pending.Keys)
    requires s.cq != [] && s.cq[0].ud < CANCEL_BIT
    ensures NoToken(s, s.cq[0].ud)
    ensures s.cq[0].ud in s.pending
    ensures ReadTokens(s.backlog, s.sq, s.ops, s.cq[1..]) + multiset{s.cq[0].ud} == multiset(s.pending.Keys)
    ensures ReadTokens(s.backlog, s.sq, s.ops, s.cq[1..]) == multiset(s.pending.Keys - {s.cq[0].ud})
  {
    var id := s.cq[0].ud;
    var rest := ReadTokens(s.backlog, s.sq, s.ops, s.cq[1..]);
    assert multiset(s.pending.Keys)[id] <= 1;
    assert rest + multiset{id} == multiset(s.pending.Keys);
    assert rest[id] == 0;
    var others := multiset(s.pending.Keys - {id});
    forall k: nat
      ensures rest[k] == others[k]
    {
      assert (rest + multiset{id})[k] == multiset(s.pending.Keys)[k];
    }
  }

  lemma SqesIgnore(q: seq<Sqe>, a: map<nat, Pending>, b: map<nat, Pending>, id: nat)
    requires SqesMatch(q, a) && id !in SqeReads(q)
    requires forall k :: k in a && k != id ==> k in b && b[k] == a[k]
    ensures SqesMatch(q, b)
  {
    forall i | 0 <= i < |q| && q[i].ReadSqe?
      ensures q[i].ud != id
    {
      CollectMember(q, i, SqeTag);
    }
  }

  lemma OpsIgnore(q: seq<KernelOp>, a: map<nat, Pending>, b: map<nat, Pending>, requests: map<nat, Request>, id: nat)
    requires OpsMatch(q, a, requests) && id !in Collect(q, OpTag)
    requires forall k :: k in a && k != id ==> k in b && b[k] == a[k]
    ensures OpsMatch(q, b, requests)
  {
    forall i | 0 <= i < |q|
      ensures OpMatches(q[i], b, requests)
    {
      assert OpMatches(q[i], a, requests);
      if q[i].KRead? {
        CollectMember(q, i, OpTag);
      }
    }
  }

  lemma CqesIgnore(q: seq<Cqe>, a: map<nat, Pending>, b: map<nat, Pending>, requests: map<nat, Request>,
                   heap: map<nat, Block>, heap': map<nat, Block>, id: nat)
    requires CqesMatch(q, a, requests, heap) && id !in Collect(q, CqeTag)
    requires forall k :: k in a && k != id ==> k in b && b[k] == a[k]
    requires forall k :: k in a && k != id && a[k].block in heap ==> a[k].block in heap' && heap'[a[k].block] == heap[a[k].block]
    ensures CqesMatch(q, b, requests, heap')
  {
    forall i | 0 <= i < |q|
      ensures CqeMatches(q[i], b, requests, heap')
    {
      assert CqeMatches(q[i], a, requests, heap);
      if q[i].ud < CANCEL_BIT {
        CollectMember(q, i, CqeTag);
      }
    }
  }

  lemma CqesTail(q: seq<Cqe>, pending: map<nat, Pending>, requests: map<nat, Request>, heap: map<nat, Block>)
    requires CqesMatch(q, pending, requests, heap) && q != []
    ensures CqesMatch(q[1..], pending, requests, heap) && CqeMatches(q[0], pending, requests, heap)
  {
    hide CqeMatches;
  }

  // ---- a cancel's own completion ----

  lemma PopCancelToken(s: Shard)
    requires s.cq != [] && s.cq[0].ud >= CANCEL_BIT
    ensures ReadTokens(s.backlog, s.sq, s.ops, s.cq[1..]) == ReadTokens(s.backlog, s.sq, s.ops, s.cq)
  {
  }

  lemma ReapCancelKeepsInv(s: Shard)
    requires Inv(s) && s.cq != [] && s.cq[0].ud >= CANCEL_BIT
    ensures Inv(s.(cq := s.cq[1..], stats := CountCancel(s.stats, s.cq[0].res)))
  {
    hide EntriesOk, BlocksOwned, OpsMatch, CqesMatch, FdsOk, CreatedOk, Fifo, SendersOk, SqesMatch, CancelsOk;
    hide QueueOk, ResultsOk, CostOk, ReadTokens, PhaseOk;
    PopCancelToken(s);
    CqesTail(s.cq, s.pending, s.requests, s.heap);
  }

  // ---- the read goes on ----

  /** The read continues with its confirmed prefix, unless it was cancelled or is draining. */
  lemma ResubmitEntryOk(id: nat, p: Pending, r: Request, heap: map<nat, Block>, pending: map<nat, Pending>,
                        requests: map<nat, Request>, res: int, shuttingDown: bool, fileLen: Option<nat>, open: bool)
    requires EntryOk(id, p, r, heap)
    requires id in pending && pending[id] == p && id in requests && requests[id] == r
    requires CqeMatches(Cqe(id, res), pending, requests, heap)
    requires fileLen.Some? ==> fileLen.value == |r.file|
    requires ReapRead(p, res, shuttingDown, fileLen, heap[p.block].bytes, open).1.Resubmit?
    ensures var q := ReapRead(p, res, shuttingDown, fileLen, heap[p.block].bytes, open).0;
            && EntryOk(id, q, r, heap)
            && q == p.(nread := q.nread, retries := q.retries)
            && !p.cancelRequested && !shuttingDown && !p.IsStream()
  {
    hide ReapRead, AlignedGeometry;
    var bytes := heap[p.block].bytes;
    if p.cancelRequested || shuttingDown || p.IsStream() {
      NoContinuation(p, res, shuttingDown, fileLen, bytes, open);
    } else {
      OpennessOnlyHidesBytes(p, res, shuttingDown, fileLen, bytes);
      ReapIsExact(p, res, shuttingDown, fileLen, bytes, r.file);
    }
  }

  lemma EntryUpdated(pending: map<nat, Pending>, requests: map<nat, Request>, heap: map<nat, Block>, id: nat, q: Pending)
    requires EntriesOk(pending, requests, heap) && BlocksOwned(pending, heap)
    requires id in pending && q.block == pending[id].block && EntryOk(id, q, requests[id], heap)
    ensures EntriesOk(pending[id := q], requests, heap) && BlocksOwned(pending[id := q], heap)
  {
    hide EntryOk;
    var b := pending[id := q];
    forall k | k in heap
      ensures exists x :: x in b && b[x].block == k
    {
      var x :| x in pending && pending[x].block == k;
      assert b[x].block == k;
    }
  }

  lemma UpdateKeepsFds(fds: map<nat, seq<byte>>, callerFds: set<nat>, queue: seq<Msg>, pending: map<nat, Pending>,
                       requests: map<nat, Request>, id: nat, q: Pending)
    requires FdsOk(fds, callerFds, queue, pending, requests) && id in pending && q.fd == pending[id].fd
    ensures FdsOk(fds, callerFds, queue, pending[id := q], requests)
  {
    var b := pending[id := q];
    var before, after := FdRefs(callerFds, queue, pending), FdRefs(callerFds, queue, b);
    forall f | f in before
      ensures f in after
    {
      if k :| k in pending && pending[k].fd == f {
        assert b[k].fd == f;
      }
    }
    assert before == after;
  }

  lemma ResubmitKeepsCancels(pending: map<nat, Pending>, queuedCancels: set<nat>, created: seq<Sqe>, id: nat, q: Pending, sqe: Sqe)
    requires CancelsOk(pending, queuedCancels, false, created)
    requires id in pending && !pending[id].cancelRequested && q.cancelRequested == pending[id].cancelRequested
    requires sqe.ReadSqe? && sqe.ud == id
    ensures CancelsOk(pending[id := q], queuedCancels, false, created + [sqe])
  {
    assert forall x :: x in created + [sqe] <==> x in created || x == sqe;
    PushReadKeepsCancelLast(created, sqe);
  }

  lemma ResubmitKeepsCreated(created: seq<Sqe>, queue: seq<Msg>, requests: map<nat, Request>, sqe: Sqe)
    requires CreatedOk(created, queue, requests) && sqe.ReadSqe? && sqe.ud in requests
    requires forall i :: 0 <= i < |queue| && queue[i].Read? ==> queue[i].id != sqe.ud
    ensures CreatedOk(created + [sqe], queue, requests)
  {
  }

  /** One more request is paid for by potential. */
  lemma ResubmitKeepsCost(pending: map<nat, Pending>, requests: map<nat, Request>, created: seq<Sqe>, id: nat, q: Pending, sqe: Sqe,
                          heap: map<nat, Block>)
    requires CostOk(pending, requests, created) && id in pending && sqe.ReadSqe? && sqe.ud == id
    requires id in requests && EntryOk(id, q, requests[id], heap) && !q.IsStream()
    requires q == pending[id].(nread := q.nread, retries := q.retries)
    requires 1 <= Potential(q) < Potential(pending[id])
    ensures CostOk(pending[id := q], requests, created + [sqe])
  {
    hide RequestBudget, Potential, EntryOk, CostLimit, SqeReads;
    assert forall k :: ReadsFor(created + [sqe], k) == ReadsFor(created, k) + (if k == id then 1 else 0) by {
      CountOneMore(created, sqe);
    }
    CostLimitIs(id, q, requests[id], heap);
  }

  lemma CountOneMore(created: seq<Sqe>, sqe: Sqe)
    requires sqe.ReadSqe?
    ensures forall k :: ReadsFor(created + [sqe], k) == ReadsFor(created, k) + (if k == sqe.ud then 1 else 0)
  {
    CollectPush(created, sqe, SqeTag);
  }

  lemma CostLimitIs(id: nat, p: Pending, r: Request, heap: map<nat, Block>)
    requires EntryOk(id, p, r, heap) && !p.IsStream()
    ensures CostLimit(r) == RequestBudget(p.regionLen, p.align)
  {
    hide RequestBudget, AlignedGeometry;
  }

  /** What a continuation changes. */
  ghost predicate Continues(s: Shard, id: nat, q: Pending) {
    && s.cq != [] && s.cq[0].ud == id && id < CANCEL_BIT
    && id in s.pending && id in s.requests
    && EntryOk(id, q, s.requests[id], s.heap)
    && q == s.pending[id].(nread := q.nread, retries := q.retries)
    && !s.pending[id].cancelRequested && !s.shuttingDown && !q.IsStream()
    && 1 <= Potential(q) < Potential(s.pending[id])
  }

  function Continued(s: Shard, id: nat, q: Pending): Shard
    requires s.cq != [] && q.nread <= q.regionLen
  {
    Push(s.(cq := s.cq[1..], pending := s.pending[id := q]), ReadSqeOf(q, id))
  }

  lemma ContinueKeepsRings(s: Shard, id: nat, q: Pending)
    requires SqesMatch(s.backlog, s.pending) && SqesMatch(s.sq, s.pending) && OpsMatch(s.ops, s.pending, s.requests)
    requires s.cq != [] && CqesMatch(s.cq, s.pending, s.requests, s.heap)
    requires NoToken(s, id) && id in s.pending && q.nread <= q.regionLen
    ensures var pending := s.pending[id := q];
            && SqesMatch(s.backlog + [ReadSqeOf(q, id)], pending) && SqesMatch(s.sq, pending)
            && OpsMatch(s.ops, pending, s.requests) && CqesMatch(s.cq[1..], pending, s.requests, s.heap)
  {
    hide OpsMatch, CqesMatch, Collect;
    var b := s.pending[id := q];
    CqesTail(s.cq, s.pending, s.requests, s.heap);
    SqesIgnore(s.backlog, s.pending, b, id);
    SqesIgnore(s.sq, s.pending, b, id);
    OpsIgnore(s.ops, s.pending, b, s.requests, id);
    CqesIgnore(s.cq[1..], s.pending, b, s.requests, s.heap, s.heap, id);
    SqesPush(s.backlog, b, ReadSqeOf(q, id));
  }

  lemma ContinueKeepsInv(s: Shard, id: nat, q: Pending)
    requires Inv(s) && s.phase.Running? && Continues(s, id, q)
    ensures q.nread <= q.regionLen && Inv(Continued(s, id, q))
  {
    hide EntriesOk, BlocksOwned, OpsMatch, CqesMatch, FdsOk, CreatedOk, Fifo, SendersOk, SqesMatch, CancelsOk;
    hide QueueOk, ResultsOk, CostOk, ReadTokens, EntryOk, NoToken, Potential;
    EntryIsUsable(id, q, s.requests[id], s.heap);
    var sqe := ReadSqeOf(q, id);
    PopReadToken(s);
    assert s.pending[id := q].Keys == s.pending.Keys;
    PushReadToken(s.backlog, s.sq, s.ops, s.cq[1..], sqe);
    ContinueKeepsRings(s, id, q);
    EntryUpdated(s.pending, s.requests, s.heap, id, q);
    UpdateKeepsFds(s.fds, s.callerFds, s.queue, s.pending, s.requests, id, q);
    PendingIsNotQueued(s.requests.Keys, s.queue, s.pending.Keys, s.results, id);
    ResubmitKeepsCancels(s.pending, s.queuedCancels, s.created, id, q, sqe);
    ResubmitKeepsCreated(s.created, s.queue, s.requests, sqe);
    PushKeepsOrder(s.created, s.accepted, s.sq, s.backlog, sqe);
    ResubmitKeepsCost(s.pending, s.requests, s.created, id, q, sqe, s.heap);
  }

  // ---- the read ends ----

  /** What an observer may be sent for this entry. */
  ghost predicate OutcomeOk(id: nat, outcome: Outcome, observed: bool, requests: map<nat, Request>) {
    id in requests && ResultOk(Resolution(id, outcome, observed), requests)
  }

  lemma FinishOutcomeOk(id: nat, p: Pending, r: Request, heap: map<nat, Block>, pending: map<nat, Pending>,
                        requests: map<nat, Request>, res: int, shuttingDown: bool, fileLen: Option<nat>,
                        open: bool, observed: bool)
    requires EntryOk(id, p, r, heap)
    requires id in pending && pending[id] == p && id in requests && requests[id] == r
    requires CqeMatches(Cqe(id, res), pending, requests, heap)
    requires fileLen.Some? ==> fileLen.value == |r.file|
    requires observed ==> open
    requires ReapRead(p, res, shuttingDown, fileLen, heap[p.block].bytes, open).1.Finish?
    ensures OutcomeOk(id, ReapRead(p, res, shuttingDown, fileLen, heap[p.block].bytes, open).1.outcome, observed, requests)
  {
    hide ReapRead, AlignedGeometry;
    if observed && !p.IsStream() {
      ReapIsExact(p, res, shuttingDown, fileLen, heap[p.block].bytes, r.file);
    }
  }

  lemma EntryRemoved(pending: map<nat, Pending>, requests: map<nat, Request>, heap: map<nat, Block>, id: nat)
    requires EntriesOk(pending, requests, heap) && BlocksOwned(pending, heap) && id in pending
    ensures EntriesOk(pending - {id}, requests, heap - {pending[id].block})
    ensures BlocksOwned(pending - {id}, heap - {pending[id].block})
  {
    var b, heap' := pending - {id}, heap - {pending[id].block};
    forall k | k in b
      ensures k in requests && EntryOk(k, b[k], requests[k], heap')
    {
      assert EntryOk(k, pending[k], requests[k], heap);
    }
    forall k | k in heap'
      ensures exists x :: x in b && b[x].block == k
    {
      var x :| x in pending && pending[x].block == k;
      assert x in b && b[x].block == k;
    }
  }

  lemma RemoveKeepsFds(fds: map<nat, seq<byte>>, callerFds: set<nat>, queue: seq<Msg>, pending: map<nat, Pending>,
                       requests: map<nat, Request>, id: nat)
    requires FdsOk(fds, callerFds, queue, pending, requests)
    ensures FdsCover(fds, callerFds, queue, pending - {id}, requests)
  {
  }

  lemma RemoveKeepsCancels(pending: map<nat, Pending>, queuedCancels: set<nat>, shuttingDown: bool, created: seq<Sqe>, id: nat)
    requires CancelsOk(pending, queuedCancels, shuttingDown, created)
    ensures CancelsOk(pending - {id}, queuedCancels - {id}, shuttingDown, created)
  {
    hide CancelIsLast;
  }

  lemma RemoveKeepsCost(pending: map<nat, Pending>, requests: map<nat, Request>, created: seq<Sqe>, id: nat)
    requires CostOk(pending, requests, created)
    ensures CostOk(pending - {id}, requests, created)
  {
    hide ReadsFor, CostLimit, RequestBudget, Potential;
  }

  lemma RemoveKeepsSenders(accepted: set<nat>, queue: seq<Msg>, ids: set<nat>, results: seq<Resolution>, r: Resolution)
    requires SendersOk(accepted, queue, Running, ids, results) && r.id in ids
    ensures SendersOk(accepted, queue, Running, ids - {r.id}, results + [r])
  {
    CollectPush(results, r, ResultTag);
    assert multiset(ids) == multiset(ids - {r.id}) + multiset{r.id};
  }

  lemma ResultPushed(results: seq<Resolution>, r: Resolution, requests: map<nat, Request>)
    requires ResultsOk(results, requests) && ResultOk(r, requests)
    ensures ResultsOk(results + [r], requests)
  {
    hide ResultOk;
  }

  lemma FinishKeepsRings(s: Shard, id: nat)
    requires SqesMatch(s.backlog, s.pending) && SqesMatch(s.sq, s.pending) && OpsMatch(s.ops, s.pending, s.requests)
    requires s.cq != [] && CqesMatch(s.cq, s.pending, s.requests, s.heap)
    requires NoToken(s, id) && id in s.pending && BlocksOwned(s.pending, s.heap)
    ensures var pending := s.pending - {id};
            && SqesMatch(s.backlog, pending) && SqesMatch(s.sq, pending)
            && OpsMatch(s.ops, pending, s.requests)
            && CqesMatch(s.cq[1..], pending, s.requests, s.heap - {s.pending[id].block})
  {
    hide OpsMatch, CqesMatch, Collect, SqesMatch;
    var b := s.pending - {id};
    CqesTail(s.cq, s.pending, s.requests, s.heap);
    SqesIgnore(s.backlog, s.pending, b, id);
    SqesIgnore(s.sq, s.pending, b, id);
    OpsIgnore(s.ops, s.pending, b, s.requests, id);
    CqesIgnore(s.cq[1..], s.pending, b, s.requests, s.heap, s.heap - {s.pending[id].block}, id);
  }

  /** A finished read, field by field. */
  lemma FinishFields(s: Shard, id: nat, outcome: Outcome, t: Shard)
    requires id in s.pending && t == FinishEntry(s, id, outcome)
    ensures t.pending == s.pending - {id} && t.heap == s.heap - {s.pending[id].block}
    ensures t.queuedCancels == s.queuedCancels - {id}
    ensures t.fds == Referenced(s.fds, FdRefs(s.callerFds, s.queue, s.pending - {id}))
    ensures t.results == s.results + [Resolution(id, outcome, id !in s.closed)]
    ensures t.stats.submitted == s.stats.submitted && t.stats.inFlight == s.stats.inFlight - 1
    ensures t.stats.delivered + t.stats.orphans == s.stats.delivered + s.stats.orphans + 1
    ensures t.queue == s.queue && t.callerFds == s.callerFds && t.requests == s.requests && t.fault == s.fault
    ensures t.backlog == s.backlog && t.sq == s.sq && t.ops == s.ops && t.cq == s.cq
    ensures t.created == s.created && t.accepted == s.accepted && t.phase == s.phase && t.shuttingDown == s.shuttingDown
  {
    hide FdRefs, Referenced;
  }

  lemma FinishKeepsInv(s: Shard, closed: set<nat>, outcome: Outcome)
    requires Inv(s) && s.phase.Running? && s.cq != [] && s.cq[0].ud < CANCEL_BIT
    requires OutcomeOk(s.cq[0].ud, outcome, s.cq[0].ud !in closed, s.requests)
    ensures s.cq[0].ud in s.pending
    ensures Inv(FinishEntry(s.(cq := s.cq[1..], closed := closed), s.cq[0].ud, outcome))
  {
    hide EntriesOk, BlocksOwned, OpsMatch, CqesMatch, FdsOk, CreatedOk, Fifo, SendersOk, SqesMatch, CancelsOk;
    hide QueueOk, ResultsOk, CostOk, ReadTokens, NoToken, FdsCover, FdRefs, ResultOk, FinishEntry;
    var id := s.cq[0].ud;
    var r := Resolution(id, outcome, id !in closed);
    PopReadToken(s);
    var popped := s.(cq := s.cq[1..], closed := closed);
    FinishFields(popped, id, outcome, FinishEntry(popped, id, outcome));
    var b := s.pending - {id};
    assert b.Keys == s.pending.Keys - {id};
    FinishKeepsRings(s, id);
    EntryRemoved(s.pending, s.requests, s.heap, id);
    RemoveKeepsFds(s.fds, s.callerFds, s.queue, s.pending, s.requests, id);
    CloseEstablishesFds(s.fds, s.callerFds, s.queue, b, s.requests);
    RemoveKeepsCancels(s.pending, s.queuedCancels, s.shuttingDown, s.created, id);
    RemoveKeepsCost(s.pending, s.requests, s.created, id);
    RemoveKeepsSenders(s.requests.Keys, s.queue, s.pending.Keys, s.results, r);
    ResultPushed(s.results, r, s.requests);
  }

  // ---- the whole step ----

  /** The head completion belongs to a pending entry that satisfies its description. */
  lemma HeadCompletion(s: Shard)
    requires Inv(s) && s.cq != [] && s.cq[0].ud < CANCEL_BIT
    ensures var id := s.cq[0].ud;
            && id in s.pending && id in s.requests
            && EntryOk(id, s.pending[id], s.requests[id], s.heap)
            && CqeMatches(s.cq[0], s.pending, s.requests, s.heap)
            && s.pending[id].fd in s.fds && s.fds[s.pending[id].fd] == s.requests[id].file
  {
    hide BlocksOwned, SqesMatch, OpsMatch, CancelsOk, CreatedOk, Fifo, SendersOk, PhaseOk, ResultsOk, StatsOk, CostOk;
    hide ReadTokens, EntryOk, CqeMatches, NoToken, QueueOk, FdRefs;
    PopReadToken(s);
    CqesTail(s.cq, s.pending, s.requests, s.heap);
  }

  lemma EntryIsUsable(id: nat, p: Pending, r: Request, heap: map<nat, Block>)
    requires EntryOk(id, p, r, heap)
    ensures p.block in heap && p.Shaped(|heap[p.block].bytes|) && p.AtBoundary()
  {
  }

  lemma CqeIsUsable(c: Cqe, pending: map<nat, Pending>, requests: map<nat, Request>, heap: map<nat, Block>)
    requires CqeMatches(c, pending, requests, heap) && c.ud < CANCEL_BIT
    ensures c.ud in pending && (c.res > 0 ==> pending[c.ud].nread + c.res <= pending[c.ud].regionLen)
  {
  }

  lemma ReapReadKeepsInv(s: Shard, lateClose: bool, metaOk: bool)
    requires Inv(s) && s.phase.Running? && s.cq != [] && s.cq[0].ud < CANCEL_BIT
    ensures Inv(DoReap(s, lateClose, metaOk))
  {
    hide Inv, EntryOk, CqeMatches, ReapRead, Potential, FinishEntry, ReadSqeOf;
    HeadCompletion(s);
    var c := s.cq[0];
    var id := c.ud;
    var p, r := s.pending[id], s.requests[id];
    EntryIsUsable(id, p, r, s.heap);
    CqeIsUsable(c, s.pending, s.requests, s.heap);
    var bytes := s.heap[p.block].bytes;
    var fileLen := if metaOk then Some(|s.fds[p.fd]|) else None;
    var open := id !in s.closed;
    var (q, step) := ReapRead(p, c.res, s.shuttingDown, fileLen, bytes, open);
    match step
    case Resubmit =>
      ResubmitEntryOk(id, p, r, s.heap, s.pending, s.requests, c.res, s.shuttingDown, fileLen, open);
      ResubmitSpends(p, c.res, s.shuttingDown, fileLen, bytes, open);
      ContinueKeepsInv(s, id, q);
      assert DoReap(s, lateClose, metaOk) == Continued(s, id, q);
    case Finish(outcome) =>
      var closed := if lateClose then s.closed + {id} else s.closed;
      FinishOutcomeOk(id, p, r, s.heap, s.pending, s.requests, c.res, s.shuttingDown, fileLen, open, id !in closed);
      FinishKeepsInv(s, closed, outcome);
  }

  lemma ReapKeepsInv(s: Shard, lateClose: bool, metaOk: bool)
    requires Inv(s)
    ensures Inv(DoReap(s, lateClose, metaOk))
  {
    hide Inv;
    if s.phase.Running? && s.cq != [] {
      if s.cq[0].ud >= CANCEL_BIT {
        ReapCancelKeepsInv(s);
      } else {
        ReapReadKeepsInv(s, lateClose, metaOk);
      }
    }
  }
}
