/** What each kind of step leaves alone: those of the rings, of the thread and of callers. */
module Frames {
  import opened Base
  import opened Geometry
  import opened LogicalRead
  import opened ShardMachine
  import CS = CancelSteps

  // ---- the rings and the kernel ----

  /** Events that only move requests, completions and buffer contents. */
  predicate InRings(e: Event) {
    e.FlushOne? || e.AcceptOne? || e.KernelWrite? || e.CompleteRead? || e.CompleteCancel?
  }

  /** Everything but the rings, the kernel and the buffers is the same. */
  predicate RingsOnly(s: Shard, t: Shard) {
    t == s.(backlog := t.backlog, sq := t.sq, ops := t.ops, cq := t.cq, heap := t.heap, fault := t.fault, accepted := t.accepted)
  }

  lemma StoreInRings(s: Shard, ptr: Pointer, data: seq<byte>)
    ensures RingsOnly(s, Store(s, ptr, data)) && Store(s, ptr, data).backlog == s.backlog
  {
    hide Stored, Mapped;
  }

  lemma ReadInRings(s: Shard, op: nat, res: int, data: seq<byte>)
    ensures RingsOnly(s, DoKernelWrite(s, op, data)) && DoKernelWrite(s, op, data).backlog == s.backlog
    ensures RingsOnly(s, DoCompleteRead(s, op, res, data)) && DoCompleteRead(s, op, res, data).backlog == s.backlog
  {
    hide LegalCompletion, Store;
    if IsRead(s, op) {
      var sqe := s.ops[op].sqe;
      StoreInRings(s, sqe.ptr, data);
      StoreInRings(s.(ops := RemoveAt(s.ops, op), cq := s.cq + [Cqe(sqe.ud, res)]), sqe.ptr, data);
    }
  }

  lemma AcceptInRings(s: Shard)
    ensures RingsOnly(s, DoAcceptOne(s)) && DoAcceptOne(s).backlog == s.backlog
  {
    hide Taken;
  }

  lemma FlushInRings(s: Shard)
    ensures RingsOnly(s, DoFlushOne(s))
  {
  }

  lemma AnswerInRings(s: Shard, op: nat, answer: int)
    ensures RingsOnly(s, DoCompleteCancel(s, op, answer)) && DoCompleteCancel(s, op, answer).backlog == s.backlog
  {
  }

  /** A ring step changes the rings only, and the backlog only by flushing it. */
  lemma RingFrame(s: Shard, e: Event)
    requires InRings(e)
    ensures RingsOnly(s, Next(s, e)) && (!e.FlushOne? ==> Next(s, e).backlog == s.backlog)
  {
    hide DoAcceptOne, DoFlushOne, DoKernelWrite, DoCompleteRead, DoCompleteCancel, RingsOnly;
    match e
    case FlushOne => FlushInRings(s);
    case AcceptOne => AcceptInRings(s);
    case KernelWrite(op, data) => ReadInRings(s, op, 0, data);
    case CompleteRead(op, res, data) => ReadInRings(s, op, res, data);
    case CompleteCancel(op, answer) => AnswerInRings(s, op, answer);
  }

  // ---- the thread ----

  predicate InThread(e: Event) {
    || e.RecvRead? || e.RecvCancel? || e.RecvShutdown? || e.SeeDisconnect? || e.SubmitReturned? || e.Reap?
    || e.ExitDrained? || e.ExitLeaked?
  }

  /** Callers' side, the kernel and what it was given are the same. */
  predicate ThreadOnly(s: Shard, t: Shard) {
    t == s.(queue := t.queue, pending := t.pending, backlog := t.backlog, queuedCancels := t.queuedCancels,
            shuttingDown := t.shuttingDown, errors := t.errors, phase := t.phase, stats := t.stats,
            cq := t.cq, heap := t.heap, fds := t.fds, fault := t.fault, closed := t.closed,
            created := t.created, results := t.results)
  }

  lemma RecvReadInThread(s: Shard, block: nat, base: nat, aligns: bool)
    ensures var t := DoRecvRead(s, block, base, aligns); ThreadOnly(s, t) && t.cq == s.cq && t.phase == s.phase
  {
    hide FdRefs, Referenced, AlignedGeometry, Zeroes, ReadSqeOf;
  }

  lemma CancelInThread(s: Shard)
    ensures var t := DoRecvCancel(s); ThreadOnly(s, t) && t.cq == s.cq && t.phase == s.phase
  {
    hide QueueCancel;
    if s.queue != [] && s.queue[0].Cancel? && s.queue[0].id in s.pending {
      var id := s.queue[0].id;
      CS.QueueCancelFrame(s.(queue := s.queue[1..], pending := s.pending[id := s.pending[id].(cancelRequested := true)]), id);
    }
  }

  lemma SweepsInThread(s: Shard, result: SubmitResult, order: seq<nat>)
    ensures var t := DoRecvShutdown(s, order); ThreadOnly(s, t) && t.cq == s.cq && t.phase == s.phase
    ensures var t := DoSubmitReturned(s, result, order); ThreadOnly(s, t) && t.cq == s.cq && t.phase == s.phase
  {
    hide CancelAll, Enumerates;
    if s.queue != [] {
      CS.CancelAllFrame(StartShutdown(s.(queue := s.queue[1..])), order);
    }
    CS.CancelAllFrame(StartShutdown(CountFailure(s)), order);
    FailureIs(s);
    hide CountFailure, StartShutdown;
  }

  lemma FailureIs(s: Shard)
    ensures var t := StartShutdown(CountFailure(s));
            t == s.(errors := s.errors + 1, stats := t.stats, shuttingDown := true)
    ensures CountFailure(s) == s.(errors := s.errors + 1, stats := CountFailure(s).stats)
  {
  }

  lemma LeaveIs(s: Shard, order: seq<nat>)
    ensures var t := CloseUnreferenced(LeaveDrained(s));
            t == s.(phase := Drained, queue := [], results := t.results, fds := t.fds)
    ensures var t := CloseUnreferenced(LeaveLeaked(s, order));
            && t == s.(phase := Leaked, queue := [], pending := t.pending, results := t.results, fds := t.fds)
            && t.pending == Senderless(s.pending)
  {
    hide FdRefs, Referenced, DropQueue, LeakResults, Senderless;
  }

  lemma ExitsInThread(s: Shard, order: seq<nat>)
    ensures ThreadOnly(s, DoExitDrained(s)) && DoExitDrained(s).cq == s.cq
    ensures ThreadOnly(s, DoExitLeaked(s, order)) && DoExitLeaked(s, order).cq == s.cq
    ensures var t := DoSeeDisconnect(s); ThreadOnly(s, t) && t.cq == s.cq && t.phase == s.phase
  {
    hide CloseUnreferenced, LeaveDrained, LeaveLeaked, Enumerates;
    LeaveIs(s, order);
  }

  lemma EndInThread(s: Shard, id: nat, lateClose: bool, outcome: Outcome)
    requires id in s.pending
    ensures var t := FinishEntry(CloseLate(s, id, lateClose), id, outcome); ThreadOnly(s, t) && t.cq == s.cq && t.phase == s.phase
  {
    hide FdRefs, Referenced;
  }

  lemma ResubmitInThread(s: Shard, id: nat, q: Pending)
    requires q.nread <= q.regionLen
    ensures var t := Resubmitted(s, id, q); ThreadOnly(s, t) && t.cq == s.cq && t.phase == s.phase
  {
    hide ReadSqeOf;
  }

  lemma ReapEntryInThread(s: Shard, id: nat, res: int, lateClose: bool, metaOk: bool)
    requires id in s.pending
    ensures var t := ReapEntry(s, id, res, lateClose, metaOk); ThreadOnly(s, t) && t.cq == s.cq && t.phase == s.phase
  {
    hide ReapRead, FinishEntry, Resubmitted, CloseLate;
    var p := s.pending[id];
    if p.block in s.heap && p.fd in s.fds && p.Shaped(|s.heap[p.block].bytes|) && (res > 0 ==> p.nread + res <= p.regionLen) {
      var fileLen := if metaOk then Some(|s.fds[p.fd]|) else None;
      var r := ReapRead(p, res, s.shuttingDown, fileLen, s.heap[p.block].bytes, id !in s.closed);
      match r.1
      case Resubmit => if r.0.nread <= r.0.regionLen { ResubmitInThread(s, id, r.0); }
      case Finish(outcome) => EndInThread(s, id, lateClose, outcome);
    }
  }

  lemma PopInThread(s: Shard, u: Shard, t: Shard)
    requires s.cq != [] && u == PopCqe(s) && ThreadOnly(u, t)
    ensures ThreadOnly(s, t)
  {
  }

  /** A reap consumes the head of the completion queue, or does nothing. */
  lemma ReapInThread(s: Shard, lateClose: bool, metaOk: bool)
    ensures var t := DoReap(s, lateClose, metaOk);
            ThreadOnly(s, t) && t.phase == s.phase && t.cq == if s.phase.Running? && s.cq != [] then s.cq[1..] else s.cq
  {
    hide ReapEntry, CountCancel;
    if s.cq != [] && s.cq[0].ud in s.pending {
      var u, t := PopCqe(s), ReapEntry(PopCqe(s), s.cq[0].ud, s.cq[0].res, lateClose, metaOk);
      ReapEntryInThread(u, s.cq[0].ud, s.cq[0].res, lateClose, metaOk);
      PopInThread(s, u, t);
    }
  }

  /** A step of the thread changes neither callers' side nor the kernel, and completions only by reaping. */
  lemma ThreadFrame(s: Shard, e: Event)
    requires InThread(e)
    ensures ThreadOnly(s, Next(s, e))
    ensures Next(s, e).cq == if e.Reap? && s.phase.Running? && s.cq != [] then s.cq[1..] else s.cq
    ensures !e.ExitDrained? && !e.ExitLeaked? ==> Next(s, e).phase == s.phase
  {
    hide DoRecvRead, DoRecvCancel, DoRecvShutdown, DoSeeDisconnect, DoSubmitReturned, DoReap, DoExitDrained, DoExitLeaked, ThreadOnly;
    match e
    case RecvRead(block, base, aligns) => RecvReadInThread(s, block, base, aligns);
    case RecvCancel => CancelInThread(s);
    case RecvShutdown(order) => SweepsInThread(s, EnterOk, order);
    case SubmitReturned(result, order) => SweepsInThread(s, result, order);
    case SeeDisconnect => ExitsInThread(s, []);
    case ExitDrained => ExitsInThread(s, []);
    case ExitLeaked(order) => ExitsInThread(s, order);
    case Reap(lateClose, metaOk) => ReapInThread(s, lateClose, metaOk);
  }

  // ---- callers ----

  predicate InCallers(e: Event) {
    e.SendRead? || e.SendCancel? || e.SendShutdown? || e.DropSenders? || e.CloseReceiver? || e.OpenFile? || e.DropFile?
  }

  /** The thread's variables, the rings and the buffers are the same. */
  predicate CallersOnly(s: Shard, t: Shard) {
    t == s.(queue := t.queue, senders := t.senders, fds := t.fds, callerFds := t.callerFds, closed := t.closed, requests := t.requests)
  }

  lemma CallerFrame(s: Shard, e: Event)
    requires InCallers(e)
    ensures CallersOnly(s, Next(s, e))
  {
    hide ValidArgs, FdRefs, Referenced;
    hide DoRecvRead, DoRecvCancel, DoRecvShutdown, DoSeeDisconnect, DoSubmitReturned, DoReap, DoExitDrained, DoExitLeaked;
    hide DoAcceptOne, DoFlushOne, DoKernelWrite, DoCompleteRead, DoCompleteCancel;
  }
}
