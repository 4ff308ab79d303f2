/** The steps of callers keep the invariant. */
module CallerSteps {
  import opened Base
  import opened Geometry
  import opened LogicalRead
  import opened ShardMachine
  import opened Tokens
  import opened ShardInvariant

  // ---- descriptors ----

  /** Like `FdsOk`, while a descriptor may be open that nobody holds any more. */
  ghost predicate FdsCover(fds: map<nat, seq<byte>>, callerFds: set<nat>, queue: seq<Msg>,
                           pending: map<nat, Pending>, requests: map<nat, Request>) {
    && FdRefs(callerFds, queue, pending) <= fds.Keys
    && (forall i :: 0 <= i < |queue| && queue[i].Read? ==>
          queue[i].id in requests && queue[i].args.fd in fds && requests[queue[i].id].file == fds[queue[i].args.fd])
    && (forall id :: id in pending ==>
          id in requests && pending[id].fd in fds && requests[id].file == fds[pending[id].fd])
  }

  lemma CloseEstablishesFds(fds: map<nat, seq<byte>>, callerFds: set<nat>, queue: seq<Msg>,
                            pending: map<nat, Pending>, requests: map<nat, Request>)
    requires FdsCover(fds, callerFds, queue, pending, requests)
    ensures FdsOk(Referenced(fds, FdRefs(callerFds, queue, pending)), callerFds, queue, pending, requests)
  {
    var refs := FdRefs(callerFds, queue, pending);
    assert Referenced(fds, refs).Keys == refs;
    forall i | 0 <= i < |queue| && queue[i].Read?
      ensures queue[i].args.fd in refs
    {
      assert queue[i] in queue;
    }
  }

  lemma DropFileKeepsFds(fds: map<nat, seq<byte>>, callerFds: set<nat>, queue: seq<Msg>,
                         pending: map<nat, Pending>, requests: map<nat, Request>, fd: nat)
    requires FdsOk(fds, callerFds, queue, pending, requests)
    ensures FdsCover(fds, callerFds - {fd}, queue, pending, requests)
  {
  }

  lemma OpenFileKeepsFds(fds: map<nat, seq<byte>>, callerFds: set<nat>, queue: seq<Msg>,
                         pending: map<nat, Pending>, requests: map<nat, Request>, fd: nat, contents: seq<byte>)
    requires FdsOk(fds, callerFds, queue, pending, requests) && fd !in fds
    ensures FdsOk(fds[fd := contents], callerFds + {fd}, queue, pending, requests)
  {
    assert FdRefs(callerFds + {fd}, queue, pending) == FdRefs(callerFds, queue, pending) + {fd};
  }

  lemma SendKeepsFds(fds: map<nat, seq<byte>>, callerFds: set<nat>, queue: seq<Msg>, pending: map<nat, Pending>,
                     requests: map<nat, Request>, m: Msg, requests': map<nat, Request>)
    requires FdsOk(fds, callerFds, queue, pending, requests)
    requires Extends(requests, requests')
    requires m.Read? ==> m.id in requests' && m.args.fd in fds && requests'[m.id].file == fds[m.args.fd]
    ensures FdsOk(fds, callerFds, queue + [m], pending, requests')
  {
    var refs, refs' := FdRefs(callerFds, queue, pending), FdRefs(callerFds, queue + [m], pending);
    assert forall x :: x in queue + [m] <==> x in queue || x == m;
    assert refs' == refs;
  }

  // ---- accepting a read ----

  ghost predicate Extends(r: map<nat, Request>, r': map<nat, Request>) {
    forall id :: id in r ==> id in r' && r'[id] == r[id]
  }

  lemma EntriesExtend(pending: map<nat, Pending>, r: map<nat, Request>, r': map<nat, Request>, heap: map<nat, Block>)
    requires EntriesOk(pending, r, heap) && Extends(r, r')
    ensures EntriesOk(pending, r', heap)
  {
    hide EntryOk;
  }

  lemma OpsExtend(q: seq<KernelOp>, pending: map<nat, Pending>, r: map<nat, Request>, r': map<nat, Request>)
    requires OpsMatch(q, pending, r) && Extends(r, r')
    ensures OpsMatch(q, pending, r')
  {
    forall i | 0 <= i < |q|
      ensures OpMatches(q[i], pending, r')
    {
      assert OpMatches(q[i], pending, r);
    }
  }

  lemma CqeExtends(c: Cqe, pending: map<nat, Pending>, r: map<nat, Request>, r': map<nat, Request>, heap: map<nat, Block>)
    requires CqeMatches(c, pending, r, heap) && Extends(r, r')
    ensures CqeMatches(c, pending, r', heap)
  {
  }

  lemma CqesExtend(q: seq<Cqe>, pending: map<nat, Pending>, r: map<nat, Request>, r': map<nat, Request>, heap: map<nat, Block>)
    requires CqesMatch(q, pending, r, heap) && Extends(r, r')
    ensures CqesMatch(q, pending, r', heap)
  {
    hide CqeMatches;
    forall i | 0 <= i < |q|
      ensures CqeMatches(q[i], pending, r', heap)
    {
      CqeExtends(q[i], pending, r, r', heap);
    }
  }

  lemma ResultsExtend(results: seq<Resolution>, r: map<nat, Request>, r': map<nat, Request>)
    requires ResultsOk(results, r) && Extends(r, r')
    ensures ResultsOk(results, r')
  {
  }

  lemma SendKeepsQueue(queue: seq<Msg>, m: Msg, r: map<nat, Request>, r': map<nat, Request>)
    requires QueueOk(queue, r) && Extends(r, r')
    requires m.Read? ==>
               && m.id < CANCEL_BIT && m.id in r' && r'[m.id].args == m.args
               && (ValidArgs(m.args, true) || ValidArgs(m.args, false))
    ensures QueueOk(queue + [m], r')
  {
    hide ValidArgs;
  }

  /** A read that is only now accepted has no request yet. */
  lemma FreshIsUnrequested(created: seq<Sqe>, queue: seq<Msg>, r: map<nat, Request>, id: nat)
    requires CreatedOk(created, queue, r) && id !in r
    ensures ReadsFor(created, id) == 0
  {
    if ReadsFor(created, id) > 0 {
      var i := CollectWitness(created, id, SqeTag);
    }
  }

  lemma SendKeepsCreated(created: seq<Sqe>, queue: seq<Msg>, m: Msg, r: map<nat, Request>, r': map<nat, Request>)
    requires CreatedOk(created, queue, r) && Extends(r, r') && (m.Read? ==> m.id !in r)
    ensures CreatedOk(created, queue + [m], r')
  {
  }

  lemma SendKeepsCost(pending: map<nat, Pending>, r: map<nat, Request>, created: seq<Sqe>, queue: seq<Msg>, id: nat, req: Request)
    requires CostOk(pending, r, created) && CreatedOk(created, queue, r) && id !in r
    ensures CostOk(pending, r[id := req], created)
  {
    hide CostLimit, RequestBudget, Potential, ReadsFor;
    FreshIsUnrequested(created, queue, r, id);
  }

  lemma SendKeepsSenders(accepted: set<nat>, queue: seq<Msg>, phase: Phase, ids: set<nat>, results: seq<Resolution>, m: Msg)
    requires SendersOk(accepted, queue, phase, ids, results)
    requires m.Read? ==> m.id !in accepted
    ensures SendersOk(if m.Read? then accepted + {m.id} else accepted, queue + [m], phase, ids, results)
  {
    CollectPush(queue, m, MsgTag);
    if m.Read? {
      SetInsert(accepted, m.id);
    }
  }

  lemma SendReadKeepsInv(s: Shard, id: nat, args: Args, stream: bool)
    requires Inv(s)
    ensures Inv(DoSendRead(s, id, args, stream))
  {
    hide EntriesOk, BlocksOwned, SqesMatch, OpsMatch, CqesMatch, QueueOk, FdsOk, CancelsOk, CreatedOk, Fifo, SendersOk;
    hide ResultsOk, StatsOk, CostOk, OneTokenEach, ValidArgs;
    var t := DoSendRead(s, id, args, stream);
    if t.queue != s.queue {
      var m := Read(id, args);
      assert Extends(s.requests, t.requests);
      assert ValidArgs(args, true) || ValidArgs(args, false);
      assert t.requests.Keys == s.requests.Keys + {id};
      EntriesExtend(s.pending, s.requests, t.requests, s.heap);
      OpsExtend(s.ops, s.pending, s.requests, t.requests);
      CqesExtend(s.cq, s.pending, s.requests, t.requests, s.heap);
      ResultsExtend(s.results, s.requests, t.requests);
      SendKeepsQueue(s.queue, m, s.requests, t.requests);
      SendKeepsFds(s.fds, s.callerFds, s.queue, s.pending, s.requests, m, t.requests);
      SendKeepsCreated(s.created, s.queue, m, s.requests, t.requests);
      SendKeepsCost(s.pending, s.requests, s.created, s.queue, id, t.requests[id]);
      SendKeepsSenders(s.requests.Keys, s.queue, s.phase, s.pending.Keys, s.results, m);
    }
  }

  lemma SendOtherKeepsInv(s: Shard, m: Msg)
    requires Inv(s) && CanSend(s) && !m.Read?
    ensures Inv(s.(queue := s.queue + [m]))
  {
    hide EntriesOk, BlocksOwned, SqesMatch, OpsMatch, CqesMatch, QueueOk, FdsOk, CancelsOk, CreatedOk, Fifo, SendersOk;
    hide ResultsOk, StatsOk, CostOk, OneTokenEach;
    SendKeepsQueue(s.queue, m, s.requests, s.requests);
    SendKeepsFds(s.fds, s.callerFds, s.queue, s.pending, s.requests, m, s.requests);
    SendKeepsCreated(s.created, s.queue, m, s.requests, s.requests);
    SendKeepsSenders(s.requests.Keys, s.queue, s.phase, s.pending.Keys, s.results, m);
  }

  lemma OpenFileKeepsInv(s: Shard, fd: nat, contents: seq<byte>)
    requires Inv(s)
    ensures Inv(DoOpenFile(s, fd, contents))
  {
    hide EntriesOk, BlocksOwned, SqesMatch, OpsMatch, CqesMatch, QueueOk, FdsOk, CancelsOk, CreatedOk, Fifo, SendersOk;
    hide PhaseOk, ResultsOk, StatsOk, CostOk, OneTokenEach;
    if fd !in s.fds {
      OpenFileKeepsFds(s.fds, s.callerFds, s.queue, s.pending, s.requests, fd, contents);
    }
  }

  lemma DropFileKeepsInv(s: Shard, fd: nat)
    requires Inv(s)
    ensures Inv(DoDropFile(s, fd))
  {
    hide EntriesOk, BlocksOwned, SqesMatch, OpsMatch, CqesMatch, QueueOk, FdsOk, CancelsOk, CreatedOk, Fifo, SendersOk;
    hide PhaseOk, ResultsOk, StatsOk, CostOk, OneTokenEach, FdsCover, FdRefs;
    DropFileKeepsFds(s.fds, s.callerFds, s.queue, s.pending, s.requests, fd);
    CloseEstablishesFds(s.fds, s.callerFds - {fd}, s.queue, s.pending, s.requests);
  }

  lemma SeeDisconnectKeepsInv(s: Shard)
    requires Inv(s)
    ensures Inv(DoSeeDisconnect(s))
  {
    hide EntriesOk, BlocksOwned, SqesMatch, OpsMatch, CqesMatch, QueueOk, FdsOk, CreatedOk, Fifo, SendersOk;
    hide ResultsOk, StatsOk, CostOk, OneTokenEach, CancelIsLast;
  }
}
