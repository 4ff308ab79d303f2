/**
 * Permits travel with a read: they are alive exactly while its message or its
 * pending entry is. What a shard holds, and what each of its events releases.
 */
module Permits {
  import opened Base
  import opened Geometry
  import opened LogicalRead
  import opened ShardMachine
  import opened ShardInvariant
  import opened CancelSteps
  import opened IntakeSteps
  import opened ReapSteps
  import opened Frames

  // ---- sums over a table ----

  ghost function Sum(m: map<nat, nat>): nat {
    if m == map[] then 0 else var k :| k in m; m[k] + Sum(m - {k})
  }

  lemma {:induction false} SumRemove(m: map<nat, nat>, k: nat)
    requires k in m
    ensures Sum(m) == m[k] + Sum(m - {k})
    decreases |m|
  {
    var x :| x in m && Sum(m) == m[x] + Sum(m - {x});
    if x != k {
      var rest := m - {x};
      assert rest.Keys == m.Keys - {x} && |rest| == |m| - 1;
      SumRemove(rest, k);
      var other := m - {k};
      assert other.Keys == m.Keys - {k} && |other| == |m| - 1;
      SumRemove(other, x);
      assert rest - {k} == other - {x};
    }
  }

  lemma SumInsert(m: map<nat, nat>, k: nat, v: nat)
    requires k !in m
    ensures Sum(m[k := v]) == Sum(m) + v
  {
    SumRemove(m[k := v], k);
    assert m[k := v] - {k} == m;
  }

  ghost function ChargeOf(pending: map<nat, Pending>): map<nat, nat> {
    map id | id in pending :: pending[id].charge
  }

  ghost function SizeOf(heap: map<nat, Block>): map<nat, nat> {
    map k | k in heap :: |heap[k].bytes|
  }

  /** Bytes of buffer the shard has allocated. */
  ghost function AllocatedBytes(s: Shard): nat {
    Sum(SizeOf(s.heap))
  }

  function QueueReads(queue: seq<Msg>): nat {
    if queue == [] then 0 else (if queue[0].Read? then 1 else 0) + QueueReads(queue[1..])
  }

  function QueueBytes(queue: seq<Msg>): nat {
    if queue == [] then 0 else (if queue[0].Read? then queue[0].args.charge else 0) + QueueBytes(queue[1..])
  }

  /** Count permits held by queued messages and by entries. */
  function HeldCount(s: Shard): nat {
    QueueReads(s.queue) + |s.pending.Keys|
  }

  /** Byte permits held by queued messages and by entries. */
  ghost function HeldBytes(s: Shard): nat {
    QueueBytes(s.queue) + Sum(ChargeOf(s.pending))
  }

  lemma {:induction false} QueueSnoc(queue: seq<Msg>, m: Msg)
    ensures QueueReads(queue + [m]) == QueueReads(queue) + if m.Read? then 1 else 0
    ensures QueueBytes(queue + [m]) == QueueBytes(queue) + if m.Read? then m.args.charge else 0
  {
    if queue == [] {
      assert [m][1..] == [];
      assert queue + [m] == [m];
    } else {
      assert (queue + [m])[1..] == queue[1..] + [m];
      QueueSnoc(queue[1..], m);
    }
  }

  // ---- the allocation is what the permits say ----

  ghost predicate Charged(pending: map<nat, Pending>, heap: map<nat, Block>) {
    && BlocksOwned(pending, heap)
    && forall id :: id in pending ==> pending[id].block in heap && |heap[pending[id].block].bytes| == pending[id].charge
  }

  lemma ChargedWithout(pending: map<nat, Pending>, heap: map<nat, Block>, id: nat)
    requires Charged(pending, heap) && id in pending
    ensures Charged(pending - {id}, heap - {pending[id].block})
  {
    var block := pending[id].block;
    var p, h := pending - {id}, heap - {block};
    forall k | k in h
      ensures exists x :: x in p && p[x].block == k
    {
      var x :| x in pending && pending[x].block == k;
      assert x in p && p[x].block == k;
    }
  }

  lemma EntrySums(pending: map<nat, Pending>, heap: map<nat, Block>, id: nat, block: nat)
    requires id in pending && block in heap
    ensures Sum(SizeOf(heap)) == |heap[block].bytes| + Sum(SizeOf(heap - {block}))
    ensures Sum(ChargeOf(pending)) == pending[id].charge + Sum(ChargeOf(pending - {id}))
  {
    SumRemove(SizeOf(heap), block);
    SumRemove(ChargeOf(pending), id);
    assert SizeOf(heap) - {block} == SizeOf(heap - {block});
    assert ChargeOf(pending) - {id} == ChargeOf(pending - {id});
  }

  /** Every live block is charged to exactly one entry. */
  lemma {:induction false} HeapIsCharged(pending: map<nat, Pending>, heap: map<nat, Block>)
    requires Charged(pending, heap)
    ensures Sum(SizeOf(heap)) == Sum(ChargeOf(pending))
    decreases |pending.Keys|
  {
    if pending == map[] {
      assert SizeOf(heap) == map[] && ChargeOf(pending) == map[];
    } else {
      var id :| id in pending;
      ChargedWithout(pending, heap, id);
      EntrySums(pending, heap, id, pending[id].block);
      assert (pending - {id}).Keys == pending.Keys - {id};
      hide Sum;
      HeapIsCharged(pending - {id}, heap - {pending[id].block});
    }
  }

  lemma EntriesAreCharged(pending: map<nat, Pending>, requests: map<nat, Request>, heap: map<nat, Block>)
    requires EntriesOk(pending, requests, heap) && BlocksOwned(pending, heap)
    ensures Charged(pending, heap)
  {
    forall id | id in pending
      ensures pending[id].block in heap && |heap[pending[id].block].bytes| == pending[id].charge
    {
      assert EntryOk(id, pending[id], requests[id], heap);
    }
  }

  /** Allocated buffer bytes never exceed the byte permits the shard holds. */
  lemma AllocationIsHeld(s: Shard)
    requires Inv(s)
    ensures AllocatedBytes(s) <= HeldBytes(s)
    ensures AllocatedBytes(s) == Sum(ChargeOf(s.pending))
  {
    hide EntriesOk, BlocksOwned, SqesMatch, OpsMatch, CqesMatch, QueueOk, FdsOk, CancelsOk, CreatedOk, Charged, Sum;
    hide Fifo, SendersOk, PhaseOk, ResultsOk, StatsOk, CostOk, OneTokenEach;
    EntriesAreCharged(s.pending, s.requests, s.heap);
    HeapIsCharged(s.pending, s.heap);
  }

  // ---- what an event releases ----

  /** The event gives permits back, or keeps them; it never takes any. */
  ghost predicate Releases(s: Shard, t: Shard) {
    HeldCount(t) <= HeldCount(s) && HeldBytes(t) <= HeldBytes(s)
  }

  lemma PopHoldings(s: Shard, t: Shard)
    requires s.queue != [] && t.queue == s.queue[1..] && t.pending == s.pending
    ensures Releases(s, t)
  {
  }

  lemma AlikeHoldings(a: map<nat, Pending>, b: map<nat, Pending>)
    requires AllAlike(a, b)
    ensures ChargeOf(a) == ChargeOf(b)
  {
    assert forall id :: id in a ==> Alike(a[id], b[id]);
  }

  lemma InsertHoldings(pending: map<nat, Pending>, id: nat, p: Pending)
    requires id !in pending
    ensures |pending[id := p].Keys| == |pending.Keys| + 1
    ensures Sum(ChargeOf(pending[id := p])) == Sum(ChargeOf(pending)) + p.charge
  {
    assert pending[id := p].Keys == pending.Keys + {id};
    assert ChargeOf(pending[id := p]) == ChargeOf(pending)[id := p.charge];
    SumInsert(ChargeOf(pending), id, p.charge);
  }

  lemma AdmitReleases(s: Shard, g: Region, block: nat, base: nat)
    requires s.queue != [] && s.queue[0].Read? && s.queue[0].args.align > 0 && s.queue[0].id !in s.pending
    ensures Releases(s, Admit(s, s.queue[0].id, s.queue[0].args, g, block, base))
  {
    hide Admit, Sum, ChargeOf, Zeroes;
    var id, a := s.queue[0].id, s.queue[0].args;
    AdmitFields(s, id, a, g, block, base, Admit(s, id, a, g, block, base));
    InsertHoldings(s.pending, id, NewEntry(a, g, block, base));
  }

  lemma RejectReleases(s: Shard, outcome: Outcome)
    requires s.queue != [] && s.queue[0].Read?
    ensures Releases(s, Reject(s, outcome))
  {
    hide FdRefs, Referenced;
    PopHoldings(s, Reject(s, outcome));
  }

  lemma SendersOf(s: Shard)
    requires Inv(s)
    ensures SendersOk(s.requests.Keys, s.queue, s.phase, s.pending.Keys, s.results)
  {
    hide EntriesOk, BlocksOwned, SqesMatch, OpsMatch, CqesMatch, QueueOk, FdsOk, CancelsOk, CreatedOk, Fifo, SendersOk;
    hide PhaseOk, ResultsOk, StatsOk, CostOk, OneTokenEach;
  }

  lemma RecvReadReleases(s: Shard, block: nat, base: nat, aligns: bool)
    requires Inv(s)
    ensures Releases(s, DoRecvRead(s, block, base, aligns))
  {
    hide Inv, AlignedGeometry, SendersOk, Admit, Reject, Releases;
    if s.phase.Running? && s.queue != [] && s.queue[0].Read? {
      SendersOf(s);
      QueuedOnce(s.requests.Keys, s.queue, s.pending.Keys, s.results);
      RejectReleases(s, ShuttingDown);
      RejectReleases(s, CannotAlign);
      SameReleases(s, s);
      var a := s.queue[0].args;
      if a.offset < U64_RANGE && a.len < U64_RANGE && AlignedGeometry(a.offset, a.len, a.align).Some? {
        GeometryNeedsAlign(a.offset, a.len, a.align);
        AdmitReleases(s, AlignedGeometry(a.offset, a.len, a.align).value, block, base);
      }
    } else {
      SameReleases(s, s);
    }
  }

  lemma GeometryNeedsAlign(offset: nat, len: nat, align: nat)
    requires offset < U64_RANGE && len < U64_RANGE && AlignedGeometry(offset, len, align).Some?
    ensures align > 0
  {
  }

  lemma QueueCancelTables(s: Shard, id: nat, t: Shard)
    requires t == QueueCancel(s, id)
    ensures t == s.(backlog := t.backlog, created := t.created, queuedCancels := s.queuedCancels + {id})
    ensures t.created == s.created || t.created == s.created + [CancelSqe(id)]
  {
    assert id in s.queuedCancels ==> s.queuedCancels + {id} == s.queuedCancels;
  }

  lemma RecvCancelTables(s: Shard, t: Shard)
    requires s.phase.Running? && s.queue != [] && s.queue[0].Cancel? && t == DoRecvCancel(s)
    ensures var id := s.queue[0].id;
            && t.queue == s.queue[1..] && s.queuedCancels <= t.queuedCancels
            && t.shuttingDown == s.shuttingDown && t.senders == s.senders
            && t.pending == (if id in s.pending then s.pending[id := s.pending[id].(cancelRequested := true)] else s.pending)
            && (t.created == s.created || t.created == s.created + [CancelSqe(id)])
  {
    hide QueueCancel;
    var id := s.queue[0].id;
    if id in s.pending {
      QueueCancelTables(s.(queue := s.queue[1..], pending := s.pending[id := s.pending[id].(cancelRequested := true)]), id, t);
    }
  }

  lemma RecvCancelReleases(s: Shard)
    ensures Releases(s, DoRecvCancel(s))
  {
    if s.phase.Running? && s.queue != [] && s.queue[0].Cancel? {
      hide DoRecvCancel;
      var id, t := s.queue[0].id, DoRecvCancel(s);
      RecvCancelTables(s, t);
      if id in s.pending {
        FlagIsAlike(s.pending, id);
        AlikeHoldings(s.pending, t.pending);
        assert t.pending.Keys == s.pending.Keys;
      }
    }
  }

  lemma RecvShutdownReleases(s: Shard, order: seq<nat>)
    ensures Releases(s, DoRecvShutdown(s, order))
  {
    hide CancelAll, Enumerates;
    if s.queue != [] {
      CancelAllFrame(StartShutdown(s.(queue := s.queue[1..])), order);
    }
  }

  lemma SubmitReturnedReleases(s: Shard, result: SubmitResult, order: seq<nat>)
    ensures Releases(s, DoSubmitReturned(s, result, order))
  {
    hide CancelAll, Enumerates, Releases;
    var u := StartShutdown(CountFailure(s));
    CancelAllFrame(u, order);
    FailureIs(s);
    hide CountFailure, StartShutdown;
    SameReleases(s, s);
    SameReleases(s, s.(errors := 0));
    SameReleases(s, CountFailure(s));
    SameReleases(s, CancelAll(u, order));
  }

  lemma FinishReleases(s: Shard, id: nat, lateClose: bool, outcome: Outcome)
    requires id in s.pending
    ensures Releases(s, FinishEntry(CloseLate(s, id, lateClose), id, outcome))
  {
    hide FdRefs, Referenced;
    var t := FinishEntry(CloseLate(s, id, lateClose), id, outcome);
    assert t.pending == s.pending - {id} && t.queue == s.queue;
    assert t.pending.Keys == s.pending.Keys - {id};
    SumRemove(ChargeOf(s.pending), id);
    assert ChargeOf(t.pending) == ChargeOf(s.pending) - {id};
  }

  lemma ResubmitReleases(s: Shard, id: nat, q: Pending)
    requires id in s.pending && q.nread <= q.regionLen && q.charge == s.pending[id].charge
    ensures Releases(s, Resubmitted(s, id, q))
  {
    var t := Resubmitted(s, id, q);
    assert t.pending == s.pending[id := q] && t.queue == s.queue;
    assert t.pending.Keys == s.pending.Keys;
    assert ChargeOf(t.pending) == ChargeOf(s.pending);
  }

  lemma ReapKeepsCharge(p: Pending, res: int, shuttingDown: bool, fileLen: Option<nat>, buf: seq<byte>, open: bool)
    requires p.Shaped(|buf|) && (res > 0 ==> p.nread + res <= p.regionLen)
    ensures ReapRead(p, res, shuttingDown, fileLen, buf, open).0.charge == p.charge
  {
  }

  lemma ReapEntryReleases(s: Shard, id: nat, res: int, lateClose: bool, metaOk: bool)
    requires id in s.pending
    ensures Releases(s, ReapEntry(s, id, res, lateClose, metaOk))
  {
    hide ReapRead, FinishEntry, Resubmitted, CloseLate, Releases;
    var p := s.pending[id];
    if p.block in s.heap && p.fd in s.fds && p.Shaped(|s.heap[p.block].bytes|) && (res > 0 ==> p.nread + res <= p.regionLen) {
      var fileLen := if metaOk then Some(|s.fds[p.fd]|) else None;
      var r := ReapRead(p, res, s.shuttingDown, fileLen, s.heap[p.block].bytes, id !in s.closed);
      ReapKeepsCharge(p, res, s.shuttingDown, fileLen, s.heap[p.block].bytes, id !in s.closed);
      match r.1
      case Resubmit =>
        if r.0.nread <= r.0.regionLen {
          ResubmitReleases(s, id, r.0);
        } else {
          SameReleases(s, s);
        }
      case Finish(outcome) => FinishReleases(s, id, lateClose, outcome);
    } else {
      SameReleases(s, s.(fault := true));
    }
  }

  lemma SameReleases(s: Shard, t: Shard)
    requires t.queue == s.queue && t.pending == s.pending
    ensures Releases(s, t)
  {
  }

  lemma ReapReleases(s: Shard, lateClose: bool, metaOk: bool)
    ensures Releases(s, DoReap(s, lateClose, metaOk))
  {
    hide ReapEntry, Releases, CountCancel;
    SameReleases(s, s);
    if s.cq != [] {
      var stats := CountCancel(s.stats, s.cq[0].res);
      SameReleases(s, PopCqe(s));
      SameReleases(s, s.(cq := s.cq[1..], stats := stats));
      if s.cq[0].ud in s.pending {
        var t := ReapEntry(PopCqe(s), s.cq[0].ud, s.cq[0].res, lateClose, metaOk);
        ReapEntryReleases(PopCqe(s), s.cq[0].ud, s.cq[0].res, lateClose, metaOk);
        ReleasesChain(s, PopCqe(s), t);
      }
    }
  }

  lemma ReleasesChain(s: Shard, t: Shard, u: Shard)
    requires Releases(s, t) && Releases(t, u)
    ensures Releases(s, u)
  {
    hide HeldCount, HeldBytes;
  }

  lemma ExitReleases(s: Shard, order: seq<nat>)
    ensures Releases(s, DoExitDrained(s)) && Releases(s, DoExitLeaked(s, order))
  {
    hide CloseUnreferenced, LeaveDrained, LeaveLeaked, Enumerates;
    LeaveIs(s, order);
    LeakIsAlike(s.pending);
    var b := Senderless(s.pending);
    AlikeHoldings(s.pending, b);
    hide Senderless, Sum, ChargeOf;
  }

  lemma RingStepReleases(s: Shard, e: Event)
    requires InRings(e)
    ensures Releases(s, Next(s, e))
  {
    hide Next, Releases;
    RingFrame(s, e);
    SameReleases(s, Next(s, e));
  }

  lemma OtherReleases(s: Shard, e: Event)
    requires e.SendCancel? || e.SendShutdown? || e.DropSenders? || e.CloseReceiver? || e.OpenFile? || e.DropFile? || e.SeeDisconnect?
    ensures Releases(s, Next(s, e))
  {
    hide Sum, DoDropFile, DoOpenFile, DoSeeDisconnect, QueueReads, QueueBytes;
    hide DoRecvRead, DoRecvCancel, DoRecvShutdown, DoSubmitReturned, DoReap, DoExitDrained, DoExitLeaked;
    hide DoSendRead, DoAcceptOne, DoFlushOne, DoKernelWrite, DoCompleteRead, DoCompleteCancel;
    if e.SendCancel? {
      QueueSnoc(s.queue, Cancel(e.target));
    } else if e.SendShutdown? {
      QueueSnoc(s.queue, Shutdown);
    } else {
      FilesKeepHoldings(s, e);
    }
  }

  lemma FilesKeepHoldings(s: Shard, e: Event)
    requires e.OpenFile? || e.DropFile? || e.SeeDisconnect? || e.DropSenders? || e.CloseReceiver?
    ensures Next(s, e).queue == s.queue && Next(s, e).pending == s.pending
  {
    hide FdRefs, Referenced;
    hide DoRecvRead, DoRecvCancel, DoRecvShutdown, DoSubmitReturned, DoReap, DoExitDrained, DoExitLeaked;
    hide DoSendRead, DoAcceptOne, DoFlushOne, DoKernelWrite, DoCompleteRead, DoCompleteCancel;
  }

  /** Only sending a read takes permits into the shard. */
  lemma NextReleases(s: Shard, e: Event)
    requires Inv(s) && !e.SendRead?
    ensures Releases(s, Next(s, e))
  {
    hide Inv, Releases, DoRecvShutdown, DoReap, DoExitLeaked, DoSubmitReturned, DoRecvRead, DoRecvCancel, DoSendRead;
    hide DoFlushOne, DoExitDrained, DoAcceptOne, DoKernelWrite, DoCompleteRead, DoCompleteCancel;
    match e
    case RecvRead(block, base, aligns) => RecvReadReleases(s, block, base, aligns);
    case RecvCancel => RecvCancelReleases(s);
    case RecvShutdown(order) => RecvShutdownReleases(s, order);
    case SubmitReturned(result, order) => SubmitReturnedReleases(s, result, order);
    case Reap(lateClose, metaOk) => ReapReleases(s, lateClose, metaOk);
    case ExitDrained => ExitReleases(s, []);
    case ExitLeaked(order) => ExitReleases(s, order);
    case _ =>
      if InRings(e) {
        RingStepReleases(s, e);
      } else {
        OtherReleases(s, e);
      }
  }

  /** A read the shard accepts brings exactly its own permits. */
  lemma SendTakes(s: Shard, id: nat, args: Args, stream: bool)
    ensures var t := DoSendRead(s, id, args, stream);
            if t.queue == s.queue then t == s
            else HeldCount(t) == HeldCount(s) + 1 && HeldBytes(t) == HeldBytes(s) + args.charge
  {
    QueueSnoc(s.queue, Read(id, args));
  }
}
