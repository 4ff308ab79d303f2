/** The steps of the kernel and of the submission path keep the invariant. */
module KernelSteps {
  import opened Base
  import opened Geometry
  import opened LogicalRead
  import opened ShardMachine
  import opened Tokens
  import opened ShardInvariant

  // ---- requests move through the rings ----

  lemma FlushMovesToken(accepted: seq<Sqe>, sq: seq<Sqe>, backlog: seq<Sqe>)
    requires backlog != []
    ensures SqeReads(backlog[1..]) + SqeReads(sq + [backlog[0]]) == SqeReads(backlog) + SqeReads(sq)
    ensures accepted + (sq + [backlog[0]]) + backlog[1..] == accepted + sq + backlog
  {
    CollectPush(sq, backlog[0], SqeTag);
    assert backlog == [backlog[0]] + backlog[1..];
  }

  lemma FlushKeepsInv(s: Shard)
    requires Inv(s)
    ensures Inv(DoFlushOne(s))
  {
    hide EntriesOk, BlocksOwned, OpsMatch, CqesMatch, QueueOk, FdsOk, CancelsOk, CreatedOk, SendersOk, PhaseOk;
    hide ResultsOk, StatsOk, CostOk, Collect;
    if s.phase.Running? && s.backlog != [] && |s.sq| < s.sqCap {
      FlushMovesToken(s.accepted, s.sq, s.backlog);
    }
  }

  /** The kernel resolves the descriptor to the file the read was accepted for. */
  lemma AcceptedOpMatches(s: Shard)
    requires SqesMatch(s.sq, s.pending) && s.sq != []
    requires FdsOk(s.fds, s.callerFds, s.queue, s.pending, s.requests)
    ensures s.sq[0].ReadSqe? ==>
              s.sq[0].fd in s.fds && OpMatches(KRead(s.sq[0], s.fds[s.sq[0].fd]), s.pending, s.requests)
    ensures SqesMatch(s.sq[1..], s.pending)
  {
    hide FdRefs;
  }

  lemma OpsMatchPush(q: seq<KernelOp>, op: KernelOp, pending: map<nat, Pending>, requests: map<nat, Request>)
    requires OpsMatch(q, pending, requests) && OpMatches(op, pending, requests)
    ensures OpsMatch(q + [op], pending, requests)
  {
    hide OpMatches;
  }

  lemma AcceptMovesToken(accepted: seq<Sqe>, sq: seq<Sqe>, backlog: seq<Sqe>, ops: seq<KernelOp>, op: KernelOp, cq: seq<Cqe>)
    requires sq != [] && OpTag(op) == SqeTag(sq[0])
    ensures ReadTokens(backlog, sq[1..], ops + [op], cq) == ReadTokens(backlog, sq, ops, cq)
    ensures (accepted + [sq[0]]) + sq[1..] + backlog == accepted + sq + backlog
  {
    CollectPush(ops, op, OpTag);
    assert sq == [sq[0]] + sq[1..];
  }

  lemma AcceptKeepsInv(s: Shard)
    requires Inv(s)
    ensures Inv(DoAcceptOne(s))
  {
    hide EntriesOk, BlocksOwned, SqesMatch, OpsMatch, CqesMatch, QueueOk, FdsOk, CancelsOk, CreatedOk, SendersOk;
    hide PhaseOk, ResultsOk, StatsOk, CostOk, ReadTokens;
    if s.sq != [] {
      var t := DoAcceptOne(s);
      AcceptedOpMatches(s);
      AcceptMovesToken(s.accepted, s.sq, s.backlog, s.ops, t.ops[|s.ops|], s.cq);
      OpsMatchPush(s.ops, t.ops[|s.ops|], s.pending, s.requests);
    }
  }

  // ---- the kernel completes a cancel ----

  lemma OpsMatchRemove(q: seq<KernelOp>, i: nat, pending: map<nat, Pending>, requests: map<nat, Request>)
    requires OpsMatch(q, pending, requests) && i < |q|
    ensures OpsMatch(RemoveAt(q, i), pending, requests)
  {
    hide OpMatches;
  }

  lemma CqesMatchPush(q: seq<Cqe>, c: Cqe, pending: map<nat, Pending>, requests: map<nat, Request>, heap: map<nat, Block>)
    requires CqesMatch(q, pending, requests, heap) && CqeMatches(c, pending, requests, heap)
    ensures CqesMatch(q + [c], pending, requests, heap)
  {
    hide CqeMatches;
  }

  lemma CompletionMovesToken(backlog: seq<Sqe>, sq: seq<Sqe>, ops: seq<KernelOp>, i: nat, cq: seq<Cqe>, c: Cqe)
    requires i < |ops| && CqeTag(c) == OpTag(ops[i])
    ensures ReadTokens(backlog, sq, RemoveAt(ops, i), cq + [c]) == ReadTokens(backlog, sq, ops, cq)
  {
    CollectRemove(ops, i, OpTag);
    CollectPush(cq, c, CqeTag);
  }

  lemma CompleteCancelKeepsInv(s: Shard, op: nat, answer: int)
    requires Inv(s)
    ensures Inv(DoCompleteCancel(s, op, answer))
  {
    hide EntriesOk, BlocksOwned, SqesMatch, OpsMatch, CqesMatch, QueueOk, FdsOk, CancelsOk, CreatedOk, Fifo, SendersOk;
    hide PhaseOk, ResultsOk, StatsOk, CostOk, ReadTokens;
    var t := DoCompleteCancel(s, op, answer);
    if t != s {
      var c := Cqe(s.ops[op].target + CANCEL_BIT, answer);
      CompletionMovesToken(s.backlog, s.sq, s.ops, op, s.cq, c);
      OpsMatchRemove(s.ops, op, s.pending, s.requests);
      CqesMatchPush(s.cq, c, s.pending, s.requests, s.heap);
    }
  }

  // ---- the kernel stores into a buffer ----

  /** The window of a request lies in its entry's buffer, past the confirmed prefix. */
  lemma WindowIsOwned(id: nat, p: Pending, r: Request, heap: map<nat, Block>)
    requires EntryOk(id, p, r, heap)
    ensures var sqe := ReadSqeOf(p, id);
            && id < CANCEL_BIT
            && sqe.len == p.regionLen - p.nread
            && sqe.ptr.block == p.block
            && p.pad + p.nread == sqe.ptr.index
            && Mapped(heap, sqe.ptr, sqe.len)
  {
    hide AlignedGeometry, Confirmed, Pad;
    assert p.Shaped(|heap[p.block].bytes|);
    assert (p.regionLen - p.nread) % U32_RANGE == p.regionLen - p.nread;
  }

  /** A store past the confirmed prefix leaves the prefix alone. */
  lemma StoreKeepsPrefix(bytes: seq<byte>, at: nat, data: seq<byte>, lo: nat, hi: nat)
    requires at + |data| <= |bytes| && lo <= hi <= at
    ensures |Overwrite(bytes, at, data)| == |bytes|
    ensures Overwrite(bytes, at, data)[lo..hi] == bytes[lo..hi]
    ensures Overwrite(bytes, at, data)[at..at + |data|] == data
  {
    var o := Overwrite(bytes, at, data);
    assert |o| == |bytes|;
    assert forall k :: lo <= k < hi ==> o[k] == bytes[k];
    assert forall k :: 0 <= k < |data| ==> o[at + k] == data[k];
  }

  /** The entry of the operation keeps its confirmed prefix. */
  lemma OwnEntryKept(id: nat, p: Pending, r: Request, heap: map<nat, Block>, data: seq<byte>)
    requires EntryOk(id, p, r, heap) && |data| <= p.regionLen - p.nread
    ensures var b := heap[p.block];
            EntryOk(id, p, r, heap[p.block := Block(b.base, Overwrite(b.bytes, p.pad + p.nread, data))])
  {
    StoreKeepsPrefix(heap[p.block].bytes, p.pad + p.nread, data, p.pad, p.pad + p.nread);
  }

  /** Entries that own other blocks do not see the store. */
  lemma OtherEntryKept(id: nat, p: Pending, r: Request, heap: map<nat, Block>, block: nat, b: Block)
    requires EntryOk(id, p, r, heap) && p.block != block
    ensures EntryOk(id, p, r, heap[block := b])
  {
  }

  lemma OtherCqeKept(c: Cqe, pending: map<nat, Pending>, requests: map<nat, Request>, heap: map<nat, Block>, block: nat, b: Block)
    requires CqeMatches(c, pending, requests, heap)
    requires c.ud < CANCEL_BIT ==> pending[c.ud].block != block
    ensures CqeMatches(c, pending, requests, heap[block := b])
  {
  }

  /** Where the one token of an operation is, no other ring holds one. */
  lemma TokenNowhereElse(s: Shard, op: nat)
    requires OneTokenEach(s.backlog, s.sq, s.ops, s.cq, s.pending.Keys) && IsRead(s, op)
    ensures s.ops[op].sqe.ud !in Collect(s.cq, CqeTag)
  {
    CollectMember(s.ops, op, OpTag);
    var x := s.ops[op].sqe.ud;
    assert multiset(s.pending.Keys)[x] <= 1;
    assert ReadTokens(s.backlog, s.sq, s.ops, s.cq)[x] >= Collect(s.ops, OpTag)[x] + Collect(s.cq, CqeTag)[x];
  }

  lemma CqesKept(q: seq<Cqe>, id: nat, pending: map<nat, Pending>, requests: map<nat, Request>, heap: map<nat, Block>, b: Block)
    requires CqesMatch(q, pending, requests, heap) && BlocksOwned(pending, heap)
    requires id in pending && id !in Collect(q, CqeTag)
    ensures CqesMatch(q, pending, requests, heap[pending[id].block := b])
  {
    forall i | 0 <= i < |q|
      ensures CqeMatches(q[i], pending, requests, heap[pending[id].block := b])
    {
      if q[i].ud < CANCEL_BIT {
        CollectMember(q, i, CqeTag);
        assert q[i].ud != id;
        assert CqeMatches(q[i], pending, requests, heap);
      }
      OtherCqeKept(q[i], pending, requests, heap, pending[id].block, b);
    }
  }

  lemma EntriesKept(id: nat, pending: map<nat, Pending>, requests: map<nat, Request>, heap: map<nat, Block>, data: seq<byte>)
    requires EntriesOk(pending, requests, heap) && BlocksOwned(pending, heap)
    requires id in pending && |data| <= pending[id].regionLen - pending[id].nread
    requires Mapped(heap, Pointer(pending[id].block, pending[id].pad + pending[id].nread), |data|)
    ensures var p := pending[id];
            var b := heap[p.block];
            EntriesOk(pending, requests, heap[p.block := Block(b.base, Overwrite(b.bytes, p.pad + p.nread, data))])
  {
    hide EntryOk;
    var p := pending[id];
    var b := heap[p.block];
    var heap' := heap[p.block := Block(b.base, Overwrite(b.bytes, p.pad + p.nread, data))];
    forall k | k in pending
      ensures k in requests && EntryOk(k, pending[k], requests[k], heap')
    {
      if k == id {
        OwnEntryKept(id, p, requests[id], heap, data);
      } else {
        OtherEntryKept(k, pending[k], requests[k], heap, p.block, heap'[p.block]);
      }
    }
  }

  lemma BlocksKept(pending: map<nat, Pending>, heap: map<nat, Block>, block: nat, b: Block)
    requires BlocksOwned(pending, heap) && block in heap
    ensures BlocksOwned(pending, heap[block := b])
  {
  }

  /** A store through an operation's own pointer never faults and stays in its entry's window. */
  lemma StoreKeepsMemory(s: Shard, op: nat, data: seq<byte>)
    requires EntriesOk(s.pending, s.requests, s.heap) && BlocksOwned(s.pending, s.heap)
    requires OpsMatch(s.ops, s.pending, s.requests) && IsRead(s, op) && |data| <= s.ops[op].sqe.len
    ensures var t := Store(s, s.ops[op].sqe.ptr, data);
            && t == s.(heap := t.heap)
            && EntriesOk(t.pending, t.requests, t.heap) && BlocksOwned(t.pending, t.heap)
  {
    hide EntryOk, BlocksOwned;
    var sqe := s.ops[op].sqe;
    assert OpMatches(s.ops[op], s.pending, s.requests);
    WindowIsOwned(sqe.ud, s.pending[sqe.ud], s.requests[sqe.ud], s.heap);
    EntriesKept(sqe.ud, s.pending, s.requests, s.heap, data);
    BlocksKept(s.pending, s.heap, sqe.ptr.block, Store(s, sqe.ptr, data).heap[sqe.ptr.block]);
  }

  lemma StoreKeepsCqes(s: Shard, op: nat, data: seq<byte>)
    requires Inv(s) && IsRead(s, op) && |data| <= s.ops[op].sqe.len
    ensures CqesMatch(s.cq, s.pending, s.requests, Store(s, s.ops[op].sqe.ptr, data).heap)
  {
    hide EntriesOk, BlocksOwned, SqesMatch, CqesMatch, QueueOk, FdsOk, CancelsOk, CreatedOk, Fifo, SendersOk;
    hide PhaseOk, ResultsOk, StatsOk, CostOk, ReadTokens, OneTokenEach;
    var sqe := s.ops[op].sqe;
    assert OpMatches(s.ops[op], s.pending, s.requests);
    TokenNowhereElse(s, op);
    var t := Store(s, sqe.ptr, data);
    if Mapped(s.heap, sqe.ptr, |data|) {
      CqesKept(s.cq, sqe.ud, s.pending, s.requests, s.heap, t.heap[sqe.ptr.block]);
    }
  }

  lemma KernelWriteKeepsInv(s: Shard, op: nat, data: seq<byte>)
    requires Inv(s)
    ensures Inv(DoKernelWrite(s, op, data))
  {
    if IsRead(s, op) && |data| == s.ops[op].sqe.len {
      StoreKeepsCqes(s, op, data);
      hide EntriesOk, BlocksOwned, SqesMatch, OpsMatch, CqesMatch, QueueOk, FdsOk, CancelsOk, CreatedOk, Fifo, SendersOk;
      hide PhaseOk, ResultsOk, StatsOk, CostOk, ReadTokens, OneTokenEach;
      StoreKeepsMemory(s, op, data);
    }
  }

  // ---- the kernel completes a read ----

  /** The completion it posts is legal for the entry, and the window holds the file's bytes. */
  lemma NewCqeMatches(id: nat, p: Pending, r: Request, heap: map<nat, Block>, pending: map<nat, Pending>,
                      requests: map<nat, Request>, res: int, data: seq<byte>)
    requires EntryOk(id, p, r, heap)
    requires id in pending && pending[id] == p && id in requests && requests[id] == r
    requires LegalCompletion(KRead(ReadSqeOf(p, id), r.file), res, data)
    ensures var b := heap[p.block];
            && |data| <= p.regionLen - p.nread
            && CqeMatches(Cqe(id, res), pending, requests,
                          heap[p.block := Block(b.base, Overwrite(b.bytes, p.pad + p.nread, data))])
  {
    WindowIsOwned(id, p, r, heap);
    if res > 0 {
      StoreKeepsPrefix(heap[p.block].bytes, p.pad + p.nread, data, p.pad, p.pad + p.nread);
    }
  }

  lemma CompletionMatches(s: Shard, op: nat, res: int, data: seq<byte>)
    requires EntriesOk(s.pending, s.requests, s.heap) && OpsMatch(s.ops, s.pending, s.requests)
    requires IsRead(s, op) && LegalCompletion(s.ops[op], res, data)
    ensures var sqe := s.ops[op].sqe;
            && |data| <= sqe.len
            && CqeMatches(Cqe(sqe.ud, res), s.pending, s.requests, Store(s, sqe.ptr, data).heap)
            && CqeTag(Cqe(sqe.ud, res)) == OpTag(s.ops[op])
  {
    hide EntryOk, LegalCompletion, CqeMatches;
    var sqe := s.ops[op].sqe;
    assert OpMatches(s.ops[op], s.pending, s.requests);
    assert EntryOk(sqe.ud, s.pending[sqe.ud], s.requests[sqe.ud], s.heap);
    NewCqeMatches(sqe.ud, s.pending[sqe.ud], s.requests[sqe.ud], s.heap, s.pending, s.requests, res, data);
    WindowIsOwned(sqe.ud, s.pending[sqe.ud], s.requests[sqe.ud], s.heap);
  }

  lemma CompleteReadKeepsInv(s: Shard, op: nat, res: int, data: seq<byte>)
    requires Inv(s)
    ensures Inv(DoCompleteRead(s, op, res, data))
  {
    hide EntriesOk, BlocksOwned, SqesMatch, OpsMatch, CqesMatch, QueueOk, FdsOk, CancelsOk, CreatedOk, Fifo, SendersOk;
    hide PhaseOk, ResultsOk, StatsOk, CostOk, ReadTokens, LegalCompletion, CqeTag, OpTag, CqeMatches, RemoveAt;
    if IsRead(s, op) && LegalCompletion(s.ops[op], res, data) {
      var sqe := s.ops[op].sqe;
      var u := Store(s, sqe.ptr, data);
      CompletionMatches(s, op, res, data);
      StoreKeepsCqes(s, op, data);
      StoreKeepsMemory(s, op, data);
      CompletionMovesToken(s.backlog, s.sq, s.ops, op, s.cq, Cqe(sqe.ud, res));
      OpsMatchRemove(s.ops, op, s.pending, s.requests);
      CqesMatchPush(s.cq, Cqe(sqe.ud, res), s.pending, s.requests, u.heap);
      assert DoCompleteRead(s, op, res, data) == u.(ops := RemoveAt(s.ops, op), cq := s.cq + [Cqe(sqe.ud, res)]);
    }
  }
}
