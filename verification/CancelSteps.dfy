/** Cancel requests and the two exits keep the invariant. */
module CancelSteps {
  import opened Base
  import opened Geometry
  import opened LogicalRead
  import opened ShardMachine
  import opened Tokens
  import opened ShardInvariant
  import opened CallerSteps
  import opened IntakeSteps

  // ---- entries that differ only in the cancel flag or the sender ----

  predicate Alike(p: Pending, q: Pending) {
    q == p.(cancelRequested := q.cancelRequested, hasSender := q.hasSender)
  }

  ghost predicate AllAlike(a: map<nat, Pending>, b: map<nat, Pending>) {
    a.Keys == b.Keys && forall id :: id in a ==> Alike(a[id], b[id])
  }

  lemma AlikeEntry(id: nat, p: Pending, q: Pending, r: Request, heap: map<nat, Block>)
    requires Alike(p, q) && EntryOk(id, p, r, heap)
    ensures EntryOk(id, q, r, heap)
  {
    hide AlignedGeometry;
  }

  lemma AlikeEntries(a: map<nat, Pending>, b: map<nat, Pending>, requests: map<nat, Request>, heap: map<nat, Block>)
    requires AllAlike(a, b) && EntriesOk(a, requests, heap) && BlocksOwned(a, heap)
    ensures EntriesOk(b, requests, heap) && BlocksOwned(b, heap)
  {
    hide EntryOk;
    forall id | id in b
      ensures id in requests && EntryOk(id, b[id], requests[id], heap)
    {
      AlikeEntry(id, a[id], b[id], requests[id], heap);
    }
    forall k | k in heap
      ensures exists id :: id in b && b[id].block == k
    {
      var id :| id in a && a[id].block == k;
      assert b[id].block == k;
    }
  }

  lemma AlikeSqes(q: seq<Sqe>, a: map<nat, Pending>, b: map<nat, Pending>)
    requires AllAlike(a, b) && SqesMatch(q, a)
    ensures SqesMatch(q, b)
  {
  }

  lemma AlikeOps(q: seq<KernelOp>, a: map<nat, Pending>, b: map<nat, Pending>, requests: map<nat, Request>)
    requires AllAlike(a, b) && OpsMatch(q, a, requests)
    ensures OpsMatch(q, b, requests)
  {
    forall i | 0 <= i < |q|
      ensures OpMatches(q[i], b, requests)
    {
      assert OpMatches(q[i], a, requests);
    }
  }

  lemma AlikeCqes(q: seq<Cqe>, a: map<nat, Pending>, b: map<nat, Pending>, requests: map<nat, Request>, heap: map<nat, Block>)
    requires AllAlike(a, b) && CqesMatch(q, a, requests, heap)
    ensures CqesMatch(q, b, requests, heap)
  {
    forall i | 0 <= i < |q|
      ensures CqeMatches(q[i], b, requests, heap)
    {
      assert CqeMatches(q[i], a, requests, heap);
    }
  }

  lemma AlikeFds(fds: map<nat, seq<byte>>, callerFds: set<nat>, queue: seq<Msg>, a: map<nat, Pending>, b: map<nat, Pending>,
                 requests: map<nat, Request>)
    requires AllAlike(a, b) && FdsOk(fds, callerFds, queue, a, requests)
    ensures FdsOk(fds, callerFds, queue, b, requests)
  {
    assert FdRefs(callerFds, queue, a) == FdRefs(callerFds, queue, b) by {
      forall id | id in a
        ensures a[id].fd == b[id].fd
      {
        assert Alike(a[id], b[id]);
      }
      assert (set id | id in a :: a[id].fd) == (set id | id in b :: b[id].fd);
    }
  }

  lemma AlikeCost(a: map<nat, Pending>, b: map<nat, Pending>, requests: map<nat, Request>, created: seq<Sqe>)
    requires AllAlike(a, b) && CostOk(a, requests, created)
    ensures CostOk(b, requests, created)
  {
    hide ReadsFor, CostLimit, RequestBudget;
  }

  /** All the parts that look at entries, at once. */
  lemma AlikeKeepsOwnership(s: Shard, b: map<nat, Pending>)
    requires Inv(s) && AllAlike(s.pending, b)
    ensures EntriesOk(b, s.requests, s.heap) && BlocksOwned(b, s.heap)
    ensures SqesMatch(s.backlog, b) && SqesMatch(s.sq, b) && OpsMatch(s.ops, b, s.requests)
    ensures CqesMatch(s.cq, b, s.requests, s.heap)
    ensures FdsOk(s.fds, s.callerFds, s.queue, b, s.requests)
    ensures CostOk(b, s.requests, s.created)
  {
    hide EntriesOk, BlocksOwned, SqesMatch, OpsMatch, CqesMatch, FdsOk, CostOk, AllAlike;
    hide QueueOk, CancelsOk, CreatedOk, Fifo, SendersOk, PhaseOk, ResultsOk, StatsOk, OneTokenEach;
    AlikeEntries(s.pending, b, s.requests, s.heap);
    AlikeSqes(s.backlog, s.pending, b);
    AlikeSqes(s.sq, s.pending, b);
    AlikeOps(s.ops, s.pending, b, s.requests);
    AlikeCqes(s.cq, s.pending, b, s.requests, s.heap);
    AlikeFds(s.fds, s.callerFds, s.queue, s.pending, b, s.requests);
    AlikeCost(s.pending, b, s.requests, s.created);
  }

  // ---- queueing a cancel ----

  /** A pending read is not queued any more. */
  lemma PendingIsNotQueued(accepted: set<nat>, queue: seq<Msg>, ids: set<nat>, results: seq<Resolution>, id: nat)
    requires SendersOk(accepted, queue, Running, ids, results) && id in ids
    ensures forall i :: 0 <= i < |queue| && queue[i].Read? ==> queue[i].id != id
  {
    assert multiset(accepted)[id] <= 1;
    forall i | 0 <= i < |queue| && queue[i].Read?
      ensures queue[i].id != id
    {
      CollectMember(queue, i, MsgTag);
    }
  }

  lemma PushCancelToken(backlog: seq<Sqe>, sq: seq<Sqe>, ops: seq<KernelOp>, cq: seq<Cqe>, id: nat)
    ensures ReadTokens(backlog + [CancelSqe(id)], sq, ops, cq) == ReadTokens(backlog, sq, ops, cq)
  {
    CollectPush(backlog, CancelSqe(id), SqeTag);
  }

  lemma PushCancelKeepsCancels(pending: map<nat, Pending>, queuedCancels: set<nat>, shuttingDown: bool, created: seq<Sqe>, id: nat)
    requires CancelsOk(pending, queuedCancels, shuttingDown, created)
    requires id in pending && id !in queuedCancels && (pending[id].cancelRequested || shuttingDown)
    ensures CancelsOk(pending, queuedCancels + {id}, shuttingDown, created + [CancelSqe(id)])
  {
    var c := CancelSqe(id);
    assert forall x :: x in created + [c] <==> x in created || x == c;
    assert forall i :: 0 <= i < |created| ==> created[i] in created;
  }

  lemma PushCancelKeepsCreated(created: seq<Sqe>, queue: seq<Msg>, requests: map<nat, Request>, id: nat)
    requires CreatedOk(created, queue, requests) && id in requests
    requires forall i :: 0 <= i < |queue| && queue[i].Read? ==> queue[i].id != id
    ensures CreatedOk(created + [CancelSqe(id)], queue, requests)
  {
  }

  lemma PushCancelKeepsCost(pending: map<nat, Pending>, requests: map<nat, Request>, created: seq<Sqe>, id: nat)
    requires CostOk(pending, requests, created)
    ensures CostOk(pending, requests, created + [CancelSqe(id)])
  {
    hide CostLimit, RequestBudget, Potential;
    CollectPush(created, CancelSqe(id), SqeTag);
    assert forall k :: ReadsFor(created + [CancelSqe(id)], k) == ReadsFor(created, k);
  }

  lemma QueueCancelKeepsInv(s: Shard, id: nat)
    requires Inv(s) && s.phase.Running? && id in s.pending && id in s.requests
    requires s.pending[id].cancelRequested || s.shuttingDown
    ensures Inv(QueueCancel(s, id))
  {
    if id !in s.queuedCancels {
      hide EntriesOk, BlocksOwned, OpsMatch, CqesMatch, FdsOk, CancelsOk, CreatedOk, Fifo, SendersOk, SqesMatch;
      hide QueueOk, ResultsOk, StatsOk, CostOk, ReadTokens;
      PushCancelToken(s.backlog, s.sq, s.ops, s.cq, id);
      PendingIsNotQueued(s.requests.Keys, s.queue, s.pending.Keys, s.results, id);
      PushCancelKeepsCancels(s.pending, s.queuedCancels, s.shuttingDown, s.created, id);
      PushCancelKeepsCreated(s.created, s.queue, s.requests, id);
      PushCancelKeepsCost(s.pending, s.requests, s.created, id);
      PushKeepsOrder(s.created, s.accepted, s.sq, s.backlog, CancelSqe(id));
      assert SqesMatch([CancelSqe(id)], s.pending) by { CancelMatches(id, s.pending); }
      SqesPush(s.backlog, s.pending, CancelSqe(id));
    }
  }

  lemma CancelMatches(id: nat, pending: map<nat, Pending>)
    ensures SqesMatch([CancelSqe(id)], pending)
  {
  }

  lemma PendingIsAccepted(s: Shard)
    requires EntriesOk(s.pending, s.requests, s.heap)
    ensures s.pending.Keys <= s.requests.Keys
  {
  }

  lemma QueueCancelFrame(s: Shard, id: nat)
    ensures var t := QueueCancel(s, id);
            t == s.(backlog := t.backlog, created := t.created, queuedCancels := s.queuedCancels + {id})
  {
    assert id in s.queuedCancels ==> s.queuedCancels + {id} == s.queuedCancels;
  }

  /** The sweep only ever queues cancels. */
  lemma {:induction false} CancelAllFrame(s: Shard, order: seq<nat>)
    ensures var t := CancelAll(s, order);
            t == s.(backlog := t.backlog, created := t.created, queuedCancels := t.queuedCancels)
    ensures forall k :: k in order || k in s.queuedCancels ==> k in CancelAll(s, order).queuedCancels
    decreases |order|
  {
    if order != [] {
      QueueCancelFrame(s, order[0]);
      hide QueueCancel;
      CancelAllFrame(QueueCancel(s, order[0]), order[1..]);
      assert forall k :: k in order <==> k == order[0] || k in order[1..];
    }
  }

  lemma {:induction false} CancelAllKeepsInv(s: Shard, order: seq<nat>)
    requires Inv(s) && s.phase.Running? && s.shuttingDown
    requires forall k :: k in order ==> k in s.pending
    ensures Inv(CancelAll(s, order))
    decreases |order|
  {
    if order != [] {
      var t := QueueCancel(s, order[0]);
      assert order[0] in s.pending && order[0] in s.requests by {
        assert EntriesOk(s.pending, s.requests, s.heap);
        PendingIsAccepted(s);
      }
      QueueCancelFrame(s, order[0]);
      hide Inv, QueueCancel;
      QueueCancelKeepsInv(s, order[0]);
      assert forall k :: k in order[1..] ==> k in order;
      CancelAllKeepsInv(t, order[1..]);
    }
  }

  // ---- the three ways a sweep or a cancel starts ----

  lemma FlagKeepsCancels(pending: map<nat, Pending>, queuedCancels: set<nat>, shuttingDown: bool, created: seq<Sqe>, id: nat)
    requires CancelsOk(pending, queuedCancels, shuttingDown, created) && id in pending
    ensures CancelsOk(pending[id := pending[id].(cancelRequested := true)], queuedCancels, shuttingDown, created)
  {
    hide CancelIsLast;
  }

  lemma FlagKeepsPhase(phase: Phase, queue: seq<Msg>, pending: map<nat, Pending>, shuttingDown: bool, id: nat)
    requires PhaseOk(phase, queue, pending, shuttingDown) && id in pending && phase.Running?
    ensures PhaseOk(phase, queue, pending[id := pending[id].(cancelRequested := true)], shuttingDown)
  {
  }

  lemma FlagIsAlike(a: map<nat, Pending>, id: nat)
    requires id in a
    ensures AllAlike(a, a[id := a[id].(cancelRequested := true)])
    ensures a[id := a[id].(cancelRequested := true)].Keys == a.Keys
  {
  }

  lemma FlagKeepsInv(s: Shard, id: nat)
    requires Inv(s) && s.phase.Running? && id in s.pending
    ensures Inv(s.(pending := s.pending[id := s.pending[id].(cancelRequested := true)]))
  {
    var b := s.pending[id := s.pending[id].(cancelRequested := true)];
    hide EntriesOk, BlocksOwned, OpsMatch, CqesMatch, FdsOk, CancelsOk, CreatedOk, Fifo, SendersOk, SqesMatch, AllAlike;
    hide QueueOk, ResultsOk, StatsOk, CostOk, OneTokenEach, PhaseOk;
    FlagIsAlike(s.pending, id);
    AlikeKeepsOwnership(s, b);
    FlagKeepsCancels(s.pending, s.queuedCancels, s.shuttingDown, s.created, id);
    FlagKeepsPhase(s.phase, s.queue, s.pending, s.shuttingDown, id);
  }

  lemma PopKeepsInv(s: Shard)
    requires Inv(s) && s.phase.Running? && s.queue != [] && !s.queue[0].Read?
    ensures Inv(s.(queue := s.queue[1..]))
  {
    hide EntriesOk, BlocksOwned, OpsMatch, CqesMatch, FdsOk, CancelsOk, CreatedOk, Fifo, SendersOk, SqesMatch;
    hide QueueOk, ResultsOk, StatsOk, CostOk, OneTokenEach;
    PopQueue(s.queue, s.requests, s.created, s.fds, s.callerFds, s.pending);
    HeadDropped(s.requests.Keys, s.queue, s.phase, s.pending.Keys, s.results);
  }

  lemma ShutdownKeepsInv(s: Shard)
    requires Inv(s)
    ensures Inv(s.(shuttingDown := true))
  {
    hide EntriesOk, BlocksOwned, OpsMatch, CqesMatch, FdsOk, CreatedOk, Fifo, SendersOk, SqesMatch;
    hide QueueOk, ResultsOk, StatsOk, CostOk, OneTokenEach, CancelIsLast;
  }

  lemma RecvCancelKeepsInv(s: Shard)
    requires Inv(s)
    ensures Inv(DoRecvCancel(s))
  {
    if s.phase.Running? && s.queue != [] && s.queue[0].Cancel? {
      var id := s.queue[0].id;
      var t := s.(queue := s.queue[1..]);
      PopKeepsInv(s);
      if id in s.pending {
        assert id in s.requests by {
          assert EntriesOk(s.pending, s.requests, s.heap);
          PendingIsAccepted(s);
        }
        hide Inv;
        FlagKeepsInv(t, id);
        QueueCancelKeepsInv(t.(pending := t.pending[id := t.pending[id].(cancelRequested := true)]), id);
      }
    }
  }

  lemma EnumerationIsPending(order: seq<nat>, ids: set<nat>)
    requires Enumerates(order, ids)
    ensures forall k :: k in order <==> k in ids
  {
    assert forall k :: k in order <==> k in multiset(order);
  }

  lemma SweepKeepsInv(s: Shard, order: seq<nat>)
    requires Inv(s) && s.phase.Running? && Enumerates(order, s.pending.Keys)
    ensures Inv(CancelAll(s.(shuttingDown := true), order))
  {
    hide Inv;
    EnumerationIsPending(order, s.pending.Keys);
    ShutdownKeepsInv(s);
    CancelAllKeepsInv(s.(shuttingDown := true), order);
  }

  lemma RecvShutdownKeepsInv(s: Shard, order: seq<nat>)
    requires Inv(s)
    ensures Inv(DoRecvShutdown(s, order))
  {
    if s.phase.Running? && s.queue != [] && s.queue[0].Shutdown? && Enumerates(order, s.pending.Keys) {
      PopKeepsInv(s);
      hide Inv;
      SweepKeepsInv(s.(queue := s.queue[1..]), order);
    }
  }

  lemma CountersKeepInv(s: Shard, errors: nat, submitErrors: nat)
    requires Inv(s)
    ensures Inv(s.(errors := errors, stats := s.stats.(submitErrors := submitErrors)))
  {
    hide EntriesOk, BlocksOwned, OpsMatch, CqesMatch, FdsOk, CreatedOk, Fifo, SendersOk, SqesMatch, CancelsOk;
    hide QueueOk, ResultsOk, CostOk, OneTokenEach, PhaseOk;
  }

  lemma SubmitReturnedKeepsInv(s: Shard, result: SubmitResult, order: seq<nat>)
    requires Inv(s)
    ensures Inv(DoSubmitReturned(s, result, order))
  {
    hide Inv;
    CountersKeepInv(s, 0, s.stats.submitErrors);
    CountersKeepInv(s, s.errors + 1, s.stats.submitErrors + 1);
    var t := s.(errors := s.errors + 1, stats := s.stats.(submitErrors := s.stats.submitErrors + 1));
    if s.phase.Running? && Enumerates(order, s.pending.Keys) {
      SweepKeepsInv(t, order);
    }
  }

  // ---- exits ----

  /** Dropping the channel uses up exactly the queued senders. */
  lemma {:induction false} DropQueueIds(queue: seq<Msg>, closed: set<nat>)
    ensures Collect(DropQueue(queue, closed), ResultTag) == Collect(queue, MsgTag)
  {
    if queue != [] {
      DropQueueIds(queue[1..], closed);
      if queue[0].Read? {
        var r := Resolution(queue[0].id, ChannelDropped, queue[0].id !in closed);
        CollectConcat([r], DropQueue(queue[1..], closed), ResultTag);
        CollectOne(r, ResultTag);
      } else {
        assert [] + DropQueue(queue[1..], closed) == DropQueue(queue[1..], closed);
      }
    }
  }

  lemma {:induction false} DropQueueFails(queue: seq<Msg>, closed: set<nat>, requests: map<nat, Request>)
    requires QueueOk(queue, requests)
    ensures ResultsOk(DropQueue(queue, closed), requests)
  {
    hide ValidArgs;
    if queue != [] {
      assert forall i :: 0 <= i < |queue[1..]| ==> queue[1..][i] == queue[i + 1];
      DropQueueFails(queue[1..], closed, requests);
    }
  }

  lemma {:induction false} LeakResultIds(order: seq<nat>, closed: set<nat>)
    ensures Collect(LeakResults(order, closed), ResultTag) == multiset(order)
    decreases |order|
  {
    if order != [] {
      var rs := LeakResults(order, closed);
      assert rs[1..] == LeakResults(order[1..], closed);
      LeakResultIds(order[1..], closed);
      assert order == [order[0]] + order[1..];
    }
  }

  lemma ResultsConcat(a: seq<Resolution>, b: seq<Resolution>, requests: map<nat, Request>)
    requires ResultsOk(a, requests) && ResultsOk(b, requests)
    ensures ResultsOk(a + b, requests)
  {
    hide ResultOk;
  }

  lemma DropQueueKeepsFds(fds: map<nat, seq<byte>>, callerFds: set<nat>, queue: seq<Msg>, pending: map<nat, Pending>,
                          requests: map<nat, Request>)
    requires FdsOk(fds, callerFds, queue, pending, requests)
    ensures FdsCover(fds, callerFds, [], pending, requests)
  {
  }

  lemma EmptyQueue(created: seq<Sqe>, queue: seq<Msg>, requests: map<nat, Request>)
    requires CreatedOk(created, queue, requests)
    ensures CreatedOk(created, [], requests) && QueueOk([], requests)
  {
  }

  lemma DrainKeepsSenders(s: Shard)
    requires SendersOk(s.requests.Keys, s.queue, Running, s.pending.Keys, s.results)
    ensures SendersOk(s.requests.Keys, [], Drained, s.pending.Keys, s.results + DropQueue(s.queue, s.closed))
  {
    DropQueueIds(s.queue, s.closed);
    CollectConcat(s.results, DropQueue(s.queue, s.closed), ResultTag);
  }

  lemma ExitDrainedKeepsInv(s: Shard)
    requires Inv(s)
    ensures Inv(DoExitDrained(s))
  {
    if s.phase.Running? && s.shuttingDown && s.pending == map[] && s.backlog == [] {
      hide EntriesOk, BlocksOwned, OpsMatch, CqesMatch, FdsOk, CancelsOk, CreatedOk, Fifo, SqesMatch, FdRefs, FdsCover;
      hide QueueOk, ResultsOk, StatsOk, CostOk, OneTokenEach, SendersOk, DropQueue;
      var dropped := DropQueue(s.queue, s.closed);
      DrainKeepsSenders(s);
      DropQueueFails(s.queue, s.closed, s.requests);
      ResultsConcat(s.results, dropped, s.requests);
      DropQueueKeepsFds(s.fds, s.callerFds, s.queue, s.pending, s.requests);
      CloseEstablishesFds(s.fds, s.callerFds, [], s.pending, s.requests);
      EmptyQueue(s.created, s.queue, s.requests);
    }
  }

  lemma LeakResultsFail(order: seq<nat>, closed: set<nat>, requests: map<nat, Request>)
    requires forall k :: k in order ==> k in requests
    ensures ResultsOk(LeakResults(order, closed), requests)
  {
  }

  lemma LeakKeepsCancels(a: map<nat, Pending>, b: map<nat, Pending>, queuedCancels: set<nat>, created: seq<Sqe>)
    requires CancelsOk(a, queuedCancels, true, created) && a.Keys == b.Keys
    ensures CancelsOk(b, queuedCancels, true, created)
  {
    hide CancelIsLast;
  }

  lemma LeakKeepsSenders(s: Shard, order: seq<nat>)
    requires SendersOk(s.requests.Keys, s.queue, Running, s.pending.Keys, s.results)
    requires Enumerates(order, s.pending.Keys)
    ensures SendersOk(s.requests.Keys, [], Leaked, s.pending.Keys,
                      s.results + LeakResults(order, s.closed) + DropQueue(s.queue, s.closed))
  {
    var leaked, dropped := LeakResults(order, s.closed), DropQueue(s.queue, s.closed);
    LeakResultIds(order, s.closed);
    DropQueueIds(s.queue, s.closed);
    CollectConcat(s.results, leaked, ResultTag);
    CollectConcat(s.results + leaked, dropped, ResultTag);
  }

  lemma LeakKeepsResults(s: Shard, order: seq<nat>)
    requires ResultsOk(s.results, s.requests) && QueueOk(s.queue, s.requests)
    requires Enumerates(order, s.pending.Keys) && s.pending.Keys <= s.requests.Keys
    ensures ResultsOk(s.results + LeakResults(order, s.closed) + DropQueue(s.queue, s.closed), s.requests)
  {
    hide QueueOk, ResultsOk;
    EnumerationIsPending(order, s.pending.Keys);
    LeakResultsFail(order, s.closed, s.requests);
    DropQueueFails(s.queue, s.closed, s.requests);
    ResultsConcat(s.results, LeakResults(order, s.closed), s.requests);
    ResultsConcat(s.results + LeakResults(order, s.closed), DropQueue(s.queue, s.closed), s.requests);
  }

  lemma LeakIsAlike(a: map<nat, Pending>)
    ensures var b := Senderless(a);
            AllAlike(a, b) && b.Keys == a.Keys && PhaseOk(Leaked, [], b, true)
  {
  }

  lemma ExitLeakedKeepsInv(s: Shard, order: seq<nat>)
    requires Inv(s)
    ensures Inv(DoExitLeaked(s, order))
  {
    hide EntriesOk, BlocksOwned, OpsMatch, CqesMatch, FdsOk, CancelsOk, CreatedOk, Fifo, SendersOk, SqesMatch, AllAlike;
    hide QueueOk, ResultsOk, StatsOk, CostOk, OneTokenEach, PhaseOk, FdsCover, FdRefs, DropQueue, LeakResults;
    if s.phase.Running? && s.shuttingDown && !(s.pending == map[] && s.backlog == []) && Enumerates(order, s.pending.Keys) {
      var b := Senderless(s.pending);
      LeakIsAlike(s.pending);
      AlikeKeepsOwnership(s, b);
      LeakKeepsCancels(s.pending, b, s.queuedCancels, s.created);
      PendingIsAccepted(s);
      LeakKeepsSenders(s, order);
      LeakKeepsResults(s, order);
      DropQueueKeepsFds(s.fds, s.callerFds, s.queue, b, s.requests);
      CloseEstablishesFds(s.fds, s.callerFds, [], b, s.requests);
      EmptyQueue(s.created, s.queue, s.requests);
    }
  }
}
