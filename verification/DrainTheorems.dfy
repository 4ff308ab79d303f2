/** Shutting down: what draining never does, how it counts down, and that it can finish. */
module DrainTheorems {
  import opened Base
  import opened Geometry
  import opened LogicalRead
  import opened ShardMachine
  import opened Tokens
  import opened ShardInvariant
  import opened CancelSteps
  import opened IntakeSteps
  import opened ReapSteps
  import opened ShardTheorems
  import opened Frames

  /** The event consumes the completion of a read. */
  predicate ReapsRead(s: Shard, e: Event) {
    e.Reap? && s.phase.Running? && s.cq != [] && s.cq[0].ud < CANCEL_BIT
  }

  function ReadsReaped(s: Shard, events: seq<Event>): nat
    decreases |events|
  {
    if events == [] then 0
    else
      var n := |events| - 1;
      ReadsReaped(s, events[..n]) + (if ReapsRead(Run(s, events[..n]), events[n]) then 1 else 0)
  }

  /** No entry and no read request is added, and `gone` entries are. */
  ghost predicate Drains(s: Shard, t: Shard, gone: nat) {
    && t.shuttingDown
    && t.pending.Keys <= s.pending.Keys
    && |t.pending.Keys| + gone == |s.pending.Keys|
    && SqeReads(t.created) == SqeReads(s.created)
  }

  lemma {:induction false} SweepAddsNoReads(s: Shard, order: seq<nat>)
    ensures SqeReads(CancelAll(s, order).created) == SqeReads(s.created)
    decreases |order|
  {
    if order != [] {
      if order[0] !in s.queuedCancels {
        CollectPush(s.created, CancelSqe(order[0]), SqeTag);
      }
      SweepAddsNoReads(QueueCancel(s, order[0]), order[1..]);
    }
  }

  lemma CancelAddsNoReads(s: Shard, id: nat)
    ensures var t := QueueCancel(s, id);
            SqeReads(t.created) == SqeReads(s.created) && t.pending == s.pending && t.shuttingDown == s.shuttingDown
  {
    CollectPush(s.created, CancelSqe(id), SqeTag);
  }

  lemma RecvCancelDrains(s: Shard)
    requires s.shuttingDown
    ensures Drains(s, DoRecvCancel(s), 0)
  {
    hide SqeReads, QueueCancel;
    if s.queue != [] && s.queue[0].Cancel? && s.queue[0].id in s.pending {
      var id := s.queue[0].id;
      var u := s.(queue := s.queue[1..], pending := s.pending[id := s.pending[id].(cancelRequested := true)]);
      CancelAddsNoReads(u, id);
      assert u.pending.Keys == s.pending.Keys;
    }
  }

  /** Reaping a read while draining ends it: one entry fewer, nothing requested. */
  lemma ReapDrains(s: Shard, lateClose: bool, metaOk: bool)
    requires Inv(s) && s.shuttingDown && s.phase.Running? && s.cq != [] && s.cq[0].ud < CANCEL_BIT
    ensures Drains(s, DoReap(s, lateClose, metaOk), 1)
    ensures var t := DoReap(s, lateClose, metaOk);
            && t.cq == s.cq[1..] && t.backlog == s.backlog
            && t.phase == s.phase && t.sqCap == s.sqCap && t.sq == s.sq && t.ops == s.ops
  {
    hide Inv, EntryOk, CqeMatches, ReapRead, SqeReads, FdRefs, Referenced;
    HeadCompletion(s);
    var c := s.cq[0];
    var p := s.pending[c.ud];
    EntryIsUsable(c.ud, p, s.requests[c.ud], s.heap);
    CqeIsUsable(c, s.pending, s.requests, s.heap);
    var fileLen := if metaOk then Some(|s.fds[p.fd]|) else None;
    NoContinuation(p, c.res, true, fileLen, s.heap[p.block].bytes, c.ud !in s.closed);
    var t := DoReap(s, lateClose, metaOk);
    assert t.pending.Keys == s.pending.Keys - {c.ud};
  }

  predicate SameTable(s: Shard, t: Shard) {
    t.pending == s.pending && t.created == s.created && t.shuttingDown == s.shuttingDown
  }

  lemma RecvReadDrains(s: Shard, block: nat, base: nat, aligns: bool)
    requires s.shuttingDown
    ensures Drains(s, DoRecvRead(s, block, base, aligns), 0)
  {
    hide SqeReads, FdRefs, Referenced;
  }

  lemma ReapCancelDrains(s: Shard, e: Event)
    requires s.shuttingDown && e.Reap? && !ReapsRead(s, e)
    ensures Drains(s, Next(s, e), 0)
  {
    hide SqeReads, ReapRead, FdRefs;
  }

  lemma RecvShutdownDrains(s: Shard, order: seq<nat>)
    requires s.shuttingDown
    ensures Drains(s, DoRecvShutdown(s, order), 0)
  {
    hide SqeReads, CancelAll, Enumerates;
    if s.phase.Running? && s.queue != [] && s.queue[0].Shutdown? && Enumerates(order, s.pending.Keys) {
      var u := s.(queue := s.queue[1..], shuttingDown := true);
      CancelAllFrame(u, order);
      SweepAddsNoReads(u, order);
    }
  }

  lemma SubmitReturnedDrains(s: Shard, result: SubmitResult, order: seq<nat>)
    requires s.shuttingDown
    ensures Drains(s, DoSubmitReturned(s, result, order), 0)
  {
    hide SqeReads, CancelAll;
    FailureIs(s);
    hide CountFailure;
  }

  lemma ExitLeakedDrains(s: Shard, order: seq<nat>)
    requires s.shuttingDown
    ensures Drains(s, DoExitLeaked(s, order), 0)
  {
    hide SqeReads, CloseUnreferenced, LeaveLeaked, AllAlike, Enumerates;
    LeaveIs(s, order);
    LeakIsAlike(s.pending);
  }

  lemma SameTableDrains(s: Shard, t: Shard)
    requires s.shuttingDown && SameTable(s, t)
    ensures Drains(s, t, 0)
  {
  }

  lemma OtherStepDrains(s: Shard, e: Event)
    requires (InRings(e) || InCallers(e)) && s.shuttingDown
    ensures Drains(s, Next(s, e), 0)
  {
    hide Next, Drains;
    if InRings(e) {
      RingFrame(s, e);
    } else {
      CallerFrame(s, e);
    }
    SameTableDrains(s, Next(s, e));
  }

  lemma ExitDrainedDrains(s: Shard)
    requires s.shuttingDown
    ensures Drains(s, DoExitDrained(s), 0)
  {
    hide FdRefs, Referenced, DropQueue, SqeReads;
  }

  lemma DrainStep(s: Shard, e: Event)
    requires Inv(s) && s.shuttingDown
    ensures Drains(s, Next(s, e), if ReapsRead(s, e) then 1 else 0)
  {
    hide Inv, Drains, DoRecvShutdown, DoReap, DoExitLeaked, DoSubmitReturned, DoRecvRead, DoSendRead, DoOpenFile, DoDropFile;
    hide DoRecvCancel, DoFlushOne, DoExitDrained, DoAcceptOne, DoKernelWrite, DoCompleteRead, DoCompleteCancel;
    var t := Next(s, e);
    match e
    case RecvRead(block, base, aligns) => RecvReadDrains(s, block, base, aligns);
    case RecvCancel => RecvCancelDrains(s);
    case RecvShutdown(order) => RecvShutdownDrains(s, order);
    case SubmitReturned(result, order) => SubmitReturnedDrains(s, result, order);
    case Reap(lateClose, metaOk) =>
      if ReapsRead(s, e) {
        ReapDrains(s, lateClose, metaOk);
      } else {
        ReapCancelDrains(s, e);
      }
    case ExitLeaked(order) => ExitLeakedDrains(s, order);
    case ExitDrained => ExitDrainedDrains(s);
    case _ =>
      if e.SeeDisconnect? {
        SameTableDrains(s, t);
      } else {
        OtherStepDrains(s, e);
      }
  }

  /**
   * Once draining, no entry and no read request is ever added again, and the
   * entries left are those at the start less one per read completion consumed.
   */
  lemma {:induction false} DrainCountsDown(s: Shard, events: seq<Event>)
    requires Inv(s) && s.shuttingDown
    ensures Drains(s, Run(s, events), ReadsReaped(s, events))
    decreases |events|
  {
    hide Inv, Next, SqeReads;
    if events != [] {
      var n := |events| - 1;
      DrainCountsDown(s, events[..n]);
      RunKeepsInv(s, events[..n]);
      DrainStep(Run(s, events[..n]), events[n]);
    }
  }

  /**
   * After exactly as many read completions as there were entries, and with the
   * backlog flushed, the clean exit is taken.
   */
  lemma DrainedAfterAllCompletions(s: Shard, events: seq<Event>)
    requires Inv(s) && s.shuttingDown
    requires ReadsReaped(s, events) == |s.pending|
    requires Run(s, events).backlog == [] && Run(s, events).phase.Running?
    ensures Next(Run(s, events), ExitDrained).phase.Drained?
  {
    hide Inv, Run, SqeReads;
    DrainCountsDown(s, events);
    assert Run(s, events).pending.Keys == {};
  }

  // ---- a drain can always finish ----

  function Work(s: Shard): nat {
    4 * |s.backlog| + 3 * |s.sq| + 2 * |s.ops| + |s.cq|
  }

  /** A next step that brings a draining shard closer to an empty ring. */
  function Helpful(s: Shard): Event {
    if s.cq != [] then Reap(false, true)
    else if s.ops != [] then
      if s.ops[0].KCancel? then CompleteCancel(0, 0) else CompleteRead(0, -5, [])
    else if s.sq != [] then AcceptOne
    else FlushOne
  }

  lemma KernelHelps(s: Shard)
    requires OpsMatch(s.ops, s.pending, s.requests) && s.cq == [] && s.ops != []
    ensures var t := Next(s, Helpful(s));
            t.phase == s.phase && t.shuttingDown == s.shuttingDown && t.sqCap == s.sqCap && Work(t) < Work(s)
  {
    assert OpMatches(s.ops[0], s.pending, s.requests);
    if s.ops[0].KRead? {
      assert LegalCompletion(s.ops[0], -5, []);
    }
    RingFrame(s, Helpful(s));
    KernelAnswers(s);
    hide Next, OpsMatch;
  }

  lemma KernelAnswers(s: Shard)
    requires s.cq == [] && s.ops != [] && (s.ops[0].KRead? ==> s.ops[0].sqe.ReadSqe? && LegalCompletion(s.ops[0], -5, []))
    ensures var t := Next(s, Helpful(s));
            t.sq == s.sq && |t.ops| == |s.ops| - 1 && |t.cq| == 1
  {
    hide DoCompleteRead, DoCompleteCancel;
    if s.ops[0].KCancel? {
      CancelAnswered(s);
    } else {
      ReadAnswered(s);
    }
  }

  lemma CancelAnswered(s: Shard)
    requires s.ops != [] && s.ops[0].KCancel?
    ensures var t := DoCompleteCancel(s, 0, 0); t.sq == s.sq && |t.ops| == |s.ops| - 1 && |t.cq| == |s.cq| + 1
  {
  }

  lemma ReadAnswered(s: Shard)
    requires s.ops != [] && s.ops[0].KRead? && s.ops[0].sqe.ReadSqe? && LegalCompletion(s.ops[0], -5, [])
    ensures var t := DoCompleteRead(s, 0, -5, []); t.sq == s.sq && |t.ops| == |s.ops| - 1 && |t.cq| == |s.cq| + 1
  {
    hide LegalCompletion, Stored, Mapped;
  }

  lemma SubmitHelps(s: Shard, t: Shard)
    requires s.phase.Running? && s.sqCap > 0 && s.cq == [] && s.ops == [] && Work(s) > 0
    requires t == if s.sq != [] then DoAcceptOne(s) else DoFlushOne(s)
    ensures t.phase == s.phase && t.shuttingDown == s.shuttingDown && t.sqCap == s.sqCap && Work(t) < Work(s)
  {
  }

  lemma ReapHelps(s: Shard)
    requires Inv(s) && s.phase.Running? && s.shuttingDown && s.cq != []
    ensures var t := DoReap(s, false, true);
            t.phase == s.phase && t.shuttingDown == s.shuttingDown && t.sqCap == s.sqCap && Work(t) < Work(s)
  {
    hide Inv, ReapRead, FinishEntry;
    if s.cq[0].ud < CANCEL_BIT {
      hide DoReap;
      ReapDrains(s, false, true);
    }
  }

  lemma HelpfulHelps(s: Shard)
    requires Inv(s) && s.phase.Running? && s.shuttingDown && s.sqCap > 0 && Work(s) > 0
    ensures var t := Next(s, Helpful(s));
            t.phase.Running? && t.shuttingDown && t.sqCap == s.sqCap && Work(t) < Work(s)
  {
    hide EntriesOk, BlocksOwned, SqesMatch, OpsMatch, CqesMatch, QueueOk, FdsOk, CancelsOk, CreatedOk;
    hide Fifo, SendersOk, PhaseOk, ResultsOk, StatsOk, CostOk, OneTokenEach;
    hide DoReap, Work, DoCompleteRead, DoCompleteCancel, DoAcceptOne, DoFlushOne;
    if s.cq != [] {
      ReapHelps(s);
    } else if s.ops != [] {
      KernelHelps(s);
    } else {
      SubmitHelps(s, Next(s, Helpful(s)));
    }
  }

  lemma NothingOutstanding(s: Shard)
    requires Inv(s) && Work(s) == 0
    ensures s.pending == map[]
  {
    assert OneTokenEach(s.backlog, s.sq, s.ops, s.cq, s.pending.Keys);
    hide Inv;
    assert multiset(s.pending.Keys) == multiset{};
    assert forall k :: k in s.pending.Keys ==> k in multiset(s.pending.Keys);
  }

  /** From every draining state some continuation reaches the clean exit: shutdown never wedges itself. */
  lemma DrainCanFinish(s: Shard) returns (events: seq<Event>)
    requires Inv(s) && s.phase.Running? && s.shuttingDown && s.sqCap > 0
    ensures Run(s, events).phase.Drained?
    decreases Work(s)
  {
    hide Inv, Next, Work;
    if Work(s) == 0 {
      NothingOutstanding(s);
      events := [ExitDrained];
      assert events[..0] == [];
      CleanExit(s);
    } else {
      var e := Helpful(s);
      HelpfulHelps(s);
      NextKeepsInv(s, e);
      var rest := DrainCanFinish(Next(s, e));
      events := [e] + rest;
      RunAppend(s, [e], rest);
      assert [e][..0] == [];
    }
  }

  lemma CleanExit(s: Shard)
    requires s.phase.Running? && s.shuttingDown && s.pending == map[] && Work(s) == 0
    ensures Next(s, ExitDrained).phase.Drained?
  {
  }
}
