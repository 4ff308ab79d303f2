/** When failing submissions shut the shard down (`handle_submit_result`). */
module SubmitPolicy {
  import opened Base
  import opened LogicalRead
  import opened ShardMachine
  import opened CancelSteps
  import opened Geometry
  import opened Frames

  datatype Policy = Policy(errors: nat, submitErrors: nat, shuttingDown: bool, sweeps: nat)

  const START: Policy := Policy(0, 0, false, 0)

  function Observe(p: Policy, r: SubmitResult): Policy {
    match r
    case EnterOk => p.(errors := 0)
    case EnterErr(errno) =>
      if errno == Some(EBUSY) || errno == Some(EINTR) then p.(errors := 0)
      else
        var fires := !p.shuttingDown && p.errors + 1 >= MAX_CONSECUTIVE_SUBMIT_ERRORS;
        Policy(p.errors + 1, p.submitErrors + 1, p.shuttingDown || fires, p.sweeps + if fires then 1 else 0)
  }

  function ObserveAll(rs: seq<SubmitResult>): Policy
    decreases |rs|
  {
    if rs == [] then START else Observe(ObserveAll(rs[..|rs| - 1]), rs[|rs| - 1])
  }

  function CountHard(rs: seq<SubmitResult>): nat {
    if rs == [] then 0 else (if rs[0].Hard() then 1 else 0) + CountHard(rs[1..])
  }

  /** The `n` results before position `k` are all hard failures. */
  predicate HardBefore(rs: seq<SubmitResult>, k: nat, n: nat)
    requires k <= |rs|
  {
    n <= k && forall i :: k - n <= i < k ==> rs[i].Hard()
  }

  /** Somewhere in the trace, the last 128 results were all hard failures. */
  ghost predicate Persisted(rs: seq<SubmitResult>) {
    exists k :: 0 <= k <= |rs| && HardBefore(rs, k, MAX_CONSECUTIVE_SUBMIT_ERRORS)
  }

  lemma {:induction false} CountHardSnoc(rs: seq<SubmitResult>, r: SubmitResult)
    ensures CountHard(rs + [r]) == CountHard(rs) + if r.Hard() then 1 else 0
  {
    if rs == [] {
      assert rs + [r] == [r];
      assert [r][1..] == [];
    } else {
      assert (rs + [r])[1..] == rs[1..] + [r];
      CountHardSnoc(rs[1..], r);
    }
  }

  /** The counter is the length of the run of hard failures the trace ends in. */
  lemma {:induction false} CounterIsTrailingRun(rs: seq<SubmitResult>)
    ensures var n := ObserveAll(rs).errors;
            && HardBefore(rs, |rs|, n)
            && (n < |rs| ==> !rs[|rs| - n - 1].Hard())
    decreases |rs|
  {
    if rs != [] {
      var init := rs[..|rs| - 1];
      CounterIsTrailingRun(init);
    }
  }

  /** A persistent failure ends at the last result, or was there before it. */
  lemma PersistedLast(rs: seq<SubmitResult>)
    requires rs != [] && Persisted(rs)
    ensures Persisted(rs[..|rs| - 1]) || HardBefore(rs, |rs|, MAX_CONSECUTIVE_SUBMIT_ERRORS)
  {
    var k :| 0 <= k <= |rs| && HardBefore(rs, k, MAX_CONSECUTIVE_SUBMIT_ERRORS);
    if k < |rs| {
      assert HardBefore(rs[..|rs| - 1], k, MAX_CONSECUTIVE_SUBMIT_ERRORS);
    }
  }

  /**
   * The shard is told to shut down exactly when some 128 results in a row were
   * hard failures: any success, EBUSY or EINTR breaks the run, one sweep is
   * made, and every hard failure is counted.
   */
  lemma {:induction false} ShutdownFiresExactly(rs: seq<SubmitResult>)
    ensures ObserveAll(rs).shuttingDown <==> Persisted(rs)
    ensures ObserveAll(rs).sweeps == if Persisted(rs) then 1 else 0
    ensures ObserveAll(rs).submitErrors == CountHard(rs)
    decreases |rs|
  {
    if rs == [] {
    } else {
      var n := |rs| - 1;
      var init := rs[..n];
      assert rs == init + [rs[n]];
      ShutdownFiresExactly(init);
      CountHardSnoc(init, rs[n]);
      CounterIsTrailingRun(init);
      CounterIsTrailingRun(rs);
      if Persisted(init) {
        var k :| 0 <= k <= |init| && HardBefore(init, k, MAX_CONSECUTIVE_SUBMIT_ERRORS);
        assert HardBefore(rs, k, MAX_CONSECUTIVE_SUBMIT_ERRORS);
      }
      if Persisted(rs) {
        PersistedLast(rs);
      }
      if ObserveAll(rs).errors >= MAX_CONSECUTIVE_SUBMIT_ERRORS {
        assert HardBefore(rs, |rs|, MAX_CONSECUTIVE_SUBMIT_ERRORS);
      }
    }
  }

  /** The shard's own step follows the policy, sweeps when it fires and touches no entry. */
  lemma ShardFollowsPolicy(s: Shard, r: SubmitResult, order: seq<nat>, p: Policy)
    requires s.phase.Running? && Enumerates(order, s.pending.Keys)
    requires p.errors == s.errors && p.submitErrors == s.stats.submitErrors && p.shuttingDown == s.shuttingDown
    ensures var t := DoSubmitReturned(s, r, order);
            var q := Observe(p, r);
            && t.errors == q.errors && t.stats.submitErrors == q.submitErrors && t.shuttingDown == q.shuttingDown
            && t.pending == s.pending && t.heap == s.heap
            && (q.sweeps > p.sweeps ==> s.pending.Keys <= t.queuedCancels)
            && (q.sweeps == p.sweeps ==> t.queuedCancels == s.queuedCancels && t.backlog == s.backlog)
  {
    hide CancelAll;
    CancelAllFrame(StartShutdown(CountFailure(s)), order);
    EnumerationIsPending(order, s.pending.Keys);
  }

  // ---- over every run of a shard ----

  /** The event is a returned submission that the thread handles. */
  predicate Handled(s: Shard, e: Event) {
    && e.SubmitReturned? && s.phase.Running?
    && (Enumerates(e.order, s.pending.Keys)
        || !e.result.Hard() || s.shuttingDown || s.errors + 1 < MAX_CONSECUTIVE_SUBMIT_ERRORS)
  }

  /** The results handled in a run, in order. */
  function Results(s: Shard, events: seq<Event>): seq<SubmitResult>
    decreases |events|
  {
    if events == [] then []
    else
      var init, e := events[..|events| - 1], events[|events| - 1];
      Results(s, init) + if Handled(Run(s, init), e) then [e.result] else []
  }

  /** Nothing is counted, and a shutdown is not taken back. */
  predicate SameErrors(s: Shard, t: Shard) {
    t.errors == s.errors && t.stats.submitErrors == s.stats.submitErrors && (s.shuttingDown ==> t.shuttingDown)
  }

  lemma RecvReadSameErrors(s: Shard, block: nat, base: nat, aligns: bool)
    ensures SameErrors(s, DoRecvRead(s, block, base, aligns))
  {
    hide FdRefs, Referenced, AlignedGeometry, Zeroes, ReadSqeOf;
  }

  lemma MessagesSameErrors(s: Shard, order: seq<nat>)
    ensures SameErrors(s, DoRecvCancel(s)) && SameErrors(s, DoRecvShutdown(s, order)) && SameErrors(s, DoSeeDisconnect(s))
  {
    hide CancelAll, Enumerates;
    if s.queue != [] {
      CancelAllFrame(StartShutdown(s.(queue := s.queue[1..])), order);
    }
  }

  lemma ExitsSameErrors(s: Shard, order: seq<nat>)
    ensures SameErrors(s, DoExitDrained(s)) && SameErrors(s, DoExitLeaked(s, order))
  {
    hide FdRefs, Referenced, DropQueue, LeakResults, Enumerates;
  }

  lemma EndSameErrors(s: Shard, id: nat, lateClose: bool, outcome: Outcome)
    requires id in s.pending
    ensures SameErrors(s, FinishEntry(CloseLate(s, id, lateClose), id, outcome))
  {
    hide FdRefs, Referenced;
  }

  lemma ReapEntrySameErrors(s: Shard, id: nat, res: int, lateClose: bool, metaOk: bool)
    requires id in s.pending
    ensures SameErrors(s, ReapEntry(s, id, res, lateClose, metaOk))
  {
    hide ReapRead, FinishEntry, ReadSqeOf;
    var p := s.pending[id];
    if p.block in s.heap && p.fd in s.fds && p.Shaped(|s.heap[p.block].bytes|) && (res > 0 ==> p.nread + res <= p.regionLen) {
      var fileLen := if metaOk then Some(|s.fds[p.fd]|) else None;
      var r := ReapRead(p, res, s.shuttingDown, fileLen, s.heap[p.block].bytes, id !in s.closed);
      if r.1.Finish? {
        EndSameErrors(s, id, lateClose, r.1.outcome);
      }
    }
  }

  lemma ReapSameErrors(s: Shard, lateClose: bool, metaOk: bool)
    ensures SameErrors(s, DoReap(s, lateClose, metaOk))
  {
    hide ReapEntry;
    CountCancelIs(s.stats, if s.cq != [] then s.cq[0].res else 0);
    hide CountCancel;
    if s.cq != [] && s.cq[0].ud in s.pending {
      ReapEntrySameErrors(PopCqe(s), s.cq[0].ud, s.cq[0].res, lateClose, metaOk);
    }
  }

  lemma CountCancelIs(stats: Stats, res: int)
    ensures CountCancel(stats, res).submitErrors == stats.submitErrors
  {
  }

  lemma OtherSameErrors(s: Shard, e: Event)
    requires !e.SubmitReturned?
    ensures SameErrors(s, Next(s, e))
  {
    hide DoRecvShutdown, DoReap, DoExitLeaked, DoSubmitReturned, DoRecvRead, DoRecvCancel, DoExitDrained, DoSeeDisconnect;
    hide DoSendRead, DoOpenFile, DoDropFile, DoAcceptOne, DoFlushOne, DoKernelWrite, DoCompleteRead, DoCompleteCancel;
    if InRings(e) {
      RingFrame(s, e);
    } else if InCallers(e) {
      CallerFrame(s, e);
    } else {
      hide SameErrors;
      match e
      case RecvRead(block, base, aligns) => RecvReadSameErrors(s, block, base, aligns);
      case RecvCancel => MessagesSameErrors(s, []);
      case RecvShutdown(order) => MessagesSameErrors(s, order);
      case SeeDisconnect => MessagesSameErrors(s, []);
      case Reap(lateClose, metaOk) => ReapSameErrors(s, lateClose, metaOk);
      case ExitDrained => ExitsSameErrors(s, []);
      case ExitLeaked(order) => ExitsSameErrors(s, order);
    }
  }

  /** What a run owes the policy: its counters, and the shutdown once 128 results in a row were hard failures. */
  ghost predicate Follows(s: Shard, rs: seq<SubmitResult>) {
    && s.errors == ObserveAll(rs).errors
    && s.stats.submitErrors == CountHard(rs)
    && (Persisted(rs) ==> s.shuttingDown)
  }

  lemma HandledStep(s: Shard, e: Event)
    requires e.SubmitReturned?
    ensures var t := Next(s, e);
            if !Handled(s, e) then t == s
            else
              && t.errors == (if e.result.Hard() then s.errors + 1 else 0)
              && t.stats.submitErrors == s.stats.submitErrors + (if e.result.Hard() then 1 else 0)
              && (s.shuttingDown ==> t.shuttingDown)
              && (t.errors >= MAX_CONSECUTIVE_SUBMIT_ERRORS ==> t.shuttingDown)
  {
    hide CancelAll, Enumerates;
    CancelAllFrame(StartShutdown(CountFailure(s)), e.order);
  }

  lemma FollowsMore(s: Shard, t: Shard, rs: seq<SubmitResult>, r: SubmitResult)
    requires Follows(s, rs)
    requires t.errors == if r.Hard() then s.errors + 1 else 0
    requires t.stats.submitErrors == s.stats.submitErrors + if r.Hard() then 1 else 0
    requires s.shuttingDown ==> t.shuttingDown
    requires t.errors >= MAX_CONSECUTIVE_SUBMIT_ERRORS ==> t.shuttingDown
    ensures Follows(t, rs + [r])
  {
    var all := rs + [r];
    assert all[..|rs|] == rs;
    CountHardSnoc(rs, r);
    CounterIsTrailingRun(all);
    if Persisted(all) {
      PersistedLast(all);
    }
  }

  /**
   * In every run of a shard, whoever else shuts it down: the counter is the run
   * of hard failures the handled results end in, every hard failure is counted,
   * and once 128 in a row were hard the shard is shutting down.
   */
  lemma {:induction false} RunFollowsPolicy(sqCap: nat, events: seq<Event>)
    ensures Follows(Run(Init(sqCap), events), Results(Init(sqCap), events))
    decreases |events|
  {
    if events != [] {
      var init, e := events[..|events| - 1], events[|events| - 1];
      RunFollowsPolicy(sqCap, init);
      var s, rs := Run(Init(sqCap), init), Results(Init(sqCap), init);
      hide Next, Follows, Handled;
      if e.SubmitReturned? {
        HandledStep(s, e);
        if Handled(s, e) {
          FollowsMore(s, Next(s, e), rs, e.result);
        } else {
          assert rs + [] == rs;
        }
      } else {
        OtherSameErrors(s, e);
        NotHandled(s, e);
        assert rs + [] == rs;
        FollowsSame(s, Next(s, e), rs);
      }
    }
  }

  lemma NotHandled(s: Shard, e: Event)
    requires !e.SubmitReturned?
    ensures !Handled(s, e)
  {
  }

  lemma FollowsSame(s: Shard, t: Shard, rs: seq<SubmitResult>)
    requires Follows(s, rs) && SameErrors(s, t)
    ensures Follows(t, rs)
  {
  }
}
