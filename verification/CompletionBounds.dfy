/**
 * How much can be on its way between the backlog and the completion queue: twice
 * the count permits, and one more for every read cancelled on drop.
 */
module CompletionBounds {
  import opened Base
  import opened Geometry
  import opened LogicalRead
  import opened ShardMachine
  import opened Tokens
  import opened ShardInvariant
  import opened CancelSteps
  import opened IntakeSteps
  import opened ReapSteps
  import opened ShardTheorems
  import opened CancelTheorems
  import opened Permits
  import opened Frames
  import LR = LoopRuns
  import TT = ThreadTrace
  import SC = StaleCancels

  /** How many cancels were ever queued. */
  function CancelsMade(created: seq<Sqe>): nat {
    |Collect(created, SqeCancel)|
  }

  /** How many cancel messages wait in the channel. */
  function CancelMessages(queue: seq<Msg>): nat {
    if queue == [] then 0 else (if queue[0].Cancel? then 1 else 0) + CancelMessages(queue[1..])
  }

  lemma {:induction false} MessagesSnoc(queue: seq<Msg>, m: Msg)
    ensures CancelMessages(queue + [m]) == CancelMessages(queue) + if m.Cancel? then 1 else 0
  {
    if queue == [] {
      assert queue + [m] == [m] && [m][1..] == [];
    } else {
      assert (queue + [m])[1..] == queue[1..] + [m];
      MessagesSnoc(queue[1..], m);
    }
  }

  /** Cancels made, and those still to be made for a message. */
  function Load(s: Shard): nat {
    CancelMessages(s.queue) + CancelsMade(s.created)
  }

  /** After the sweep everything pending is marked; a disconnected shard never sweeps. */
  predicate Swept(s: Shard) {
    s.pending.Keys <= s.queuedCancels || (!s.senders && s.queue == [])
  }

  /** Cancels are made for drop-cancels, `k` so far, and by one sweep. */
  ghost predicate Frugal(s: Shard, n: nat, k: nat) {
    if s.shuttingDown then Load(s) <= n + k && Swept(s) else Load(s) <= k
  }

  /** A step that makes no cancel of its own and leaves a swept shard swept. */
  predicate Thrifty(s: Shard, t: Shard) {
    && Load(t) <= Load(s)
    && t.shuttingDown == s.shuttingDown
    && (s.shuttingDown && Swept(s) ==> Swept(t))
  }

  lemma ThriftyKeeps(s: Shard, t: Shard, n: nat, k: nat)
    requires Frugal(s, n, k) && Thrifty(s, t)
    ensures Frugal(t, n, k)
  {
    hide Load, Swept;
  }

  // ---- steps that touch none of it ----

  predicate SameBooks(s: Shard, t: Shard) {
    && t.queue == s.queue && t.senders == s.senders && t.created == s.created && t.pending == s.pending
    && t.queuedCancels == s.queuedCancels && t.shuttingDown == s.shuttingDown
  }

  lemma SameIsThrifty(s: Shard, t: Shard)
    requires SameBooks(s, t)
    ensures Thrifty(s, t)
  {
    hide CancelMessages, CancelsMade;
  }

  lemma RingStepIsThrifty(s: Shard, e: Event)
    requires InRings(e)
    ensures Thrifty(s, Next(s, e))
  {
    hide Next, Thrifty;
    RingFrame(s, e);
    SameIsThrifty(s, Next(s, e));
  }

  // ---- steps of callers ----

  lemma QueueGrows(s: Shard, e: Event)
    requires InCallers(e)
    ensures var t := Next(s, e);
            && (t.queue == s.queue || (s.senders && exists m: Msg :: t.queue == s.queue + [m] && (m.Cancel? ==> e.SendCancel?)))
            && (!s.senders ==> !t.senders)
  {
    hide ValidArgs, FdRefs, Referenced;
    hide DoRecvRead, DoRecvCancel, DoRecvShutdown, DoSeeDisconnect, DoSubmitReturned, DoReap, DoExitDrained, DoExitLeaked;
    hide DoAcceptOne, DoFlushOne, DoKernelWrite, DoCompleteRead, DoCompleteCancel;
  }

  /** A caller adds at most the message of one drop-cancel. */
  lemma CallerIsFrugal(s: Shard, e: Event, n: nat, k: nat)
    requires Frugal(s, n, k) && InCallers(e)
    ensures Frugal(Next(s, e), n, if e.SendCancel? then k + 1 else k)
  {
    hide Next, CancelMessages, CancelsMade;
    CallerFrame(s, e);
    QueueGrows(s, e);
    var t := Next(s, e);
    if t.queue != s.queue {
      var m :| t.queue == s.queue + [m] && (m.Cancel? ==> e.SendCancel?);
      MessagesSnoc(s.queue, m);
    }
  }

  // ---- steps of the thread ----

  lemma ReadAddsNoCancel(created: seq<Sqe>, sqe: Sqe)
    requires sqe.ReadSqe?
    ensures CancelsMade(created + [sqe]) == CancelsMade(created)
  {
    CollectPush(created, sqe, SqeCancel);
  }

  lemma AdmitIsThrifty(s: Shard, g: Region, block: nat, base: nat)
    requires s.queue != [] && s.queue[0].Read? && s.queue[0].args.align > 0 && !s.shuttingDown
    ensures Thrifty(s, Admit(s, s.queue[0].id, s.queue[0].args, g, block, base))
  {
    hide CancelsMade, Admit, Zeroes;
    var id, a := s.queue[0].id, s.queue[0].args;
    AdmitFields(s, id, a, g, block, base, Admit(s, id, a, g, block, base));
    ReadAddsNoCancel(s.created, ReadSqeOf(NewEntry(a, g, block, base), id));
  }

  lemma RejectIsThrifty(s: Shard, outcome: Outcome)
    requires s.queue != [] && s.queue[0].Read?
    ensures Thrifty(s, Reject(s, outcome))
  {
    hide CancelsMade, FdRefs, Referenced;
  }

  lemma RecvReadIsThrifty(s: Shard, block: nat, base: nat, aligns: bool)
    ensures Thrifty(s, DoRecvRead(s, block, base, aligns))
  {
    hide Thrifty, Admit, Reject, AlignedGeometry;
    SameIsThrifty(s, s);
    if s.queue != [] && s.queue[0].Read? {
      RejectIsThrifty(s, ShuttingDown);
      RejectIsThrifty(s, CannotAlign);
      var a := s.queue[0].args;
      if !s.shuttingDown && a.offset < U64_RANGE && a.len < U64_RANGE && AlignedGeometry(a.offset, a.len, a.align).Some? {
        GeometryNeedsAlign(a.offset, a.len, a.align);
        AdmitIsThrifty(s, AlignedGeometry(a.offset, a.len, a.align).value, block, base);
      }
    }
  }

  lemma FinishIsThrifty(s: Shard, id: nat, lateClose: bool, outcome: Outcome)
    requires id in s.pending
    ensures Thrifty(s, FinishEntry(CloseLate(s, id, lateClose), id, outcome))
  {
    hide CancelsMade, CancelMessages, FinishEntry, FdRefs, Referenced;
    var u := CloseLate(s, id, lateClose);
    FinishFields(u, id, outcome, FinishEntry(u, id, outcome));
    FinishKeepsSenders(u, id, outcome);
  }

  lemma FinishKeepsSenders(s: Shard, id: nat, outcome: Outcome)
    requires id in s.pending
    ensures FinishEntry(s, id, outcome).senders == s.senders
  {
    hide FdRefs, Referenced;
  }

  lemma ResubmitIsThrifty(s: Shard, id: nat, q: Pending)
    requires id in s.pending && q.nread <= q.regionLen
    ensures Thrifty(s, Resubmitted(s, id, q))
  {
    hide CancelsMade, CancelMessages;
    ReadAddsNoCancel(s.created, ReadSqeOf(q, id));
    assert Resubmitted(s, id, q).pending.Keys == s.pending.Keys;
  }

  lemma ReapEntryIsThrifty(s: Shard, id: nat, res: int, lateClose: bool, metaOk: bool)
    requires id in s.pending
    ensures Thrifty(s, ReapEntry(s, id, res, lateClose, metaOk))
  {
    hide ReapRead, FinishEntry, Resubmitted, CloseLate, Thrifty;
    var p := s.pending[id];
    SameIsThrifty(s, s);
    SameIsThrifty(s, s.(fault := true));
    if p.block in s.heap && p.fd in s.fds && p.Shaped(|s.heap[p.block].bytes|) && (res > 0 ==> p.nread + res <= p.regionLen) {
      var fileLen := if metaOk then Some(|s.fds[p.fd]|) else None;
      var r := ReapRead(p, res, s.shuttingDown, fileLen, s.heap[p.block].bytes, id !in s.closed);
      match r.1
      case Resubmit => if r.0.nread <= r.0.regionLen { ResubmitIsThrifty(s, id, r.0); }
      case Finish(outcome) => FinishIsThrifty(s, id, lateClose, outcome);
    }
  }

  lemma PopKeepsBooks(s: Shard, stats: Stats)
    requires s.cq != []
    ensures SameBooks(s, PopCqe(s)) && SameBooks(s, s.(cq := s.cq[1..], stats := stats))
  {
  }

  lemma ReapIsThrifty(s: Shard, lateClose: bool, metaOk: bool)
    ensures Thrifty(s, DoReap(s, lateClose, metaOk))
  {
    hide Thrifty, ReapEntry, PopCqe, SameBooks, CountCancel;
    SameIsThrifty(s, s) by { SameAsItself(s); }
    if s.cq != [] {
      var stats := CountCancel(s.stats, s.cq[0].res);
      PopKeepsBooks(s, stats);
      SameIsThrifty(s, PopCqe(s));
      SameIsThrifty(s, s.(cq := s.cq[1..], stats := stats));
      if s.cq[0].ud in s.pending {
        PopKeepsPending(s);
        ReapEntryIsThrifty(PopCqe(s), s.cq[0].ud, s.cq[0].res, lateClose, metaOk);
        ThriftyChain(s, PopCqe(s), ReapEntry(PopCqe(s), s.cq[0].ud, s.cq[0].res, lateClose, metaOk));
      }
    }
  }

  lemma SameAsItself(s: Shard)
    ensures SameBooks(s, s)
  {
  }

  lemma PopKeepsPending(s: Shard)
    requires s.cq != []
    ensures PopCqe(s).pending == s.pending
  {
  }

  lemma ThriftyChain(s: Shard, t: Shard, u: Shard)
    requires Thrifty(s, t) && Thrifty(t, u)
    ensures Thrifty(s, u)
  {
    hide Load, Swept;
  }

  lemma ExitIsThrifty(s: Shard, order: seq<nat>)
    ensures Thrifty(s, DoExitDrained(s)) && Thrifty(s, DoExitLeaked(s, order))
  {
    hide FdRefs, Referenced, DropQueue, LeakResults, Enumerates, CancelsMade;
    LeakIsAlike(s.pending);
  }

  lemma MadeOneMore(created: seq<Sqe>, id: nat)
    ensures CancelsMade(created + [CancelSqe(id)]) == CancelsMade(created) + 1
  {
    CollectPush(created, CancelSqe(id), SqeCancel);
  }

  /** A cancel message is spent on at most one cancel. */
  lemma RecvCancelIsThrifty(s: Shard)
    ensures Thrifty(s, DoRecvCancel(s))
  {
    SameIsThrifty(s, s);
    if s.phase.Running? && s.queue != [] && s.queue[0].Cancel? {
      var id, t := s.queue[0].id, DoRecvCancel(s);
      hide DoRecvCancel, CancelsMade;
      RecvCancelTables(s, t);
      MadeOneMore(s.created, id);
      assert t.pending.Keys == s.pending.Keys;
    }
  }

  // ---- the sweep ----

  lemma {:induction false} SweepMakes(s: Shard, order: seq<nat>)
    ensures CancelsMade(CancelAll(s, order).created) <= CancelsMade(s.created) + |order|
    decreases |order|
  {
    if order != [] {
      if order[0] !in s.queuedCancels {
        CollectPush(s.created, CancelSqe(order[0]), SqeCancel);
      }
      hide CancelsMade;
      SweepMakesOne(s, order[0]);
      hide QueueCancel;
      SweepMakes(QueueCancel(s, order[0]), order[1..]);
    }
  }

  lemma SweepMakesOne(s: Shard, id: nat)
    ensures CancelsMade(QueueCancel(s, id).created) <= CancelsMade(s.created) + 1
  {
    CollectPush(s.created, CancelSqe(id), SqeCancel);
  }

  lemma OrderSize(order: seq<nat>, ids: set<nat>)
    requires Enumerates(order, ids)
    ensures |order| == |ids| && forall k :: k in ids ==> k in order
  {
    assert |multiset(order)| == |order| && |multiset(ids)| == |ids|;
    assert forall k :: k in ids ==> k in multiset(order);
  }

  /** The one sweep makes a cancel for each pending read at most. */
  lemma SweepIsFrugal(s: Shard, u: Shard, order: seq<nat>, n: nat, k: nat)
    requires Frugal(s, n, k) && !s.shuttingDown && |s.pending.Keys| <= n && Enumerates(order, s.pending.Keys)
    requires CancelMessages(u.queue) <= CancelMessages(s.queue) && u.created == s.created && u.pending == s.pending && u.shuttingDown
    ensures Frugal(CancelAll(u, order), n, k)
  {
    hide CancelAll, CancelsMade, CancelMessages, Enumerates;
    CancelAllFrame(u, order);
    SweepMakes(u, order);
    OrderSize(order, s.pending.Keys);
  }

  /** A second sweep finds everything marked. */
  lemma {:induction false} SweepAgain(s: Shard, order: seq<nat>)
    requires forall k :: k in order ==> k in s.queuedCancels
    ensures CancelAll(s, order) == s
    decreases |order|
  {
    if order != [] {
      assert order[0] in s.queuedCancels;
      SweepAgain(s, order[1..]);
    }
  }

  lemma RecvShutdownIsFrugal(s: Shard, order: seq<nat>, n: nat, k: nat)
    requires Frugal(s, n, k) && |s.pending.Keys| <= n
    ensures Frugal(DoRecvShutdown(s, order), n, k)
  {
    hide CancelAll, CancelsMade, Enumerates;
    if s.phase.Running? && s.queue != [] && s.queue[0].Shutdown? && Enumerates(order, s.pending.Keys) {
      var u := StartShutdown(s.(queue := s.queue[1..]));
      if s.shuttingDown {
        EnumerationIsPending(order, s.pending.Keys);
        SweepAgain(u, order);
      } else {
        SweepIsFrugal(s, u, order, n, k);
      }
    }
  }

  lemma SubmitReturnedIsFrugal(s: Shard, result: SubmitResult, order: seq<nat>, n: nat, k: nat)
    requires Frugal(s, n, k) && |s.pending.Keys| <= n
    ensures Frugal(DoSubmitReturned(s, result, order), n, k)
  {
    hide CancelAll, CancelsMade, CancelMessages, Enumerates;
    FailureIs(s);
    hide CountFailure, StartShutdown;
    if !s.shuttingDown && Enumerates(order, s.pending.Keys) {
      SweepIsFrugal(s, StartShutdown(CountFailure(s)), order, n, k);
    }
  }

  lemma DisconnectIsFrugal(s: Shard, n: nat, k: nat)
    requires Frugal(s, n, k)
    ensures Frugal(DoSeeDisconnect(s), n, k)
  {
    hide CancelsMade, CancelMessages;
  }

  // ---- whole runs ----

  lemma ThreadIsFrugal(s: Shard, e: Event, n: nat, k: nat)
    requires Frugal(s, n, k) && |s.pending.Keys| <= n && InThread(e)
    ensures Frugal(Next(s, e), n, k)
  {
    hide Frugal, Thrifty, DoRecvShutdown, DoReap, DoExitLeaked, DoSubmitReturned, DoRecvRead, DoRecvCancel, DoExitDrained, DoSeeDisconnect;
    var t := Next(s, e);
    match e
    case RecvShutdown(order) => RecvShutdownIsFrugal(s, order, n, k);
    case SubmitReturned(result, order) => SubmitReturnedIsFrugal(s, result, order, n, k);
    case SeeDisconnect => DisconnectIsFrugal(s, n, k);
    case RecvCancel => RecvCancelIsThrifty(s); ThriftyKeeps(s, t, n, k);
    case RecvRead(block, base, aligns) => RecvReadIsThrifty(s, block, base, aligns); ThriftyKeeps(s, t, n, k);
    case Reap(lateClose, metaOk) => ReapIsThrifty(s, lateClose, metaOk); ThriftyKeeps(s, t, n, k);
    case ExitDrained => ExitIsThrifty(s, []); ThriftyKeeps(s, t, n, k);
    case ExitLeaked(order) => ExitIsThrifty(s, order); ThriftyKeeps(s, t, n, k);
  }

  lemma NextIsFrugal(s: Shard, e: Event, n: nat, k: nat)
    requires Frugal(s, n, k) && |s.pending.Keys| <= n
    ensures Frugal(Next(s, e), n, if e.SendCancel? then k + 1 else k)
  {
    hide Frugal, Thrifty, Next;
    if InRings(e) {
      RingStepIsThrifty(s, e);
      ThriftyKeeps(s, Next(s, e), n, k);
    } else if InCallers(e) {
      CallerIsFrugal(s, e, n, k);
    } else {
      ThreadIsFrugal(s, e, n, k);
    }
  }

  lemma {:induction false} RunIsFrugal(sqCap: nat, events: seq<Event>, n: nat)
    requires LR.Within(sqCap, events, n)
    ensures Frugal(Run(Init(sqCap), events), n, LR.Drops(events)) && |Run(Init(sqCap), events).pending| <= n
    decreases |events|
  {
    assert events[..|events|] == events;
    PendingIsHeld(Run(Init(sqCap), events));
    if events == [] {
      assert CancelsMade([]) == 0;
    } else {
      var init := events[..|events| - 1];
      assert forall k :: 0 <= k <= |init| ==> init[..k] == events[..k];
      hide Frugal, Next, HeldCount;
      RunIsFrugal(sqCap, init, n);
      NextIsFrugal(Run(Init(sqCap), init), events[|events| - 1], n, LR.Drops(init));
    }
  }

  lemma PendingIsHeld(s: Shard)
    ensures |s.pending| <= HeldCount(s) && |s.pending| == |s.pending.Keys|
  {
  }

  lemma Smaller(a: multiset<nat>, b: multiset<nat>)
    requires a <= b
    ensures |a| <= |b|
  {
    assert b == a + (b - a);
  }

  /** Cancels on their way were all made once. */
  lemma TokensWereMade(sqCap: nat, events: seq<Event>)
    ensures var s := Run(Init(sqCap), events);
            |CancelTokens(s)| <= CancelsMade(s.created) && |ReadTokens(s.backlog, s.sq, s.ops, s.cq)| == |s.pending|
  {
    RunGives(sqCap, events);
    var s := Run(Init(sqCap), events);
    assert Fifo(s.created, s.accepted, s.sq, s.backlog);
    assert OneTokenEach(s.backlog, s.sq, s.ops, s.cq, s.pending.Keys);
    hide Inv, Run;
    CollectConcat(s.accepted + s.sq, s.backlog, SqeCancel);
    CollectConcat(s.accepted, s.sq, SqeCancel);
    Smaller(CancelTokens(s), Collect(s.created, SqeCancel));
    assert |multiset(s.pending.Keys)| == |s.pending.Keys|;
  }

  /** Requests and completions anywhere between the backlog and the completion queue. */
  function Outstanding(s: Shard): nat {
    |ReadTokens(s.backlog, s.sq, s.ops, s.cq)| + |CancelTokens(s)|
  }

  /**
   * With `n` count permits, what is outstanding never exceeds twice the permits
   * and one more for every read cancelled on drop, stale cancels included.
   */
  lemma CompletionsBounded(sqCap: nat, events: seq<Event>, n: nat)
    requires LR.Within(sqCap, events, n)
    ensures Outstanding(Run(Init(sqCap), events)) <= 2 * n + LR.Drops(events)
  {
    hide Run, ReadTokens, CancelTokens, CancelsMade, CancelMessages, LR.Within, LR.Drops;
    RunIsFrugal(sqCap, events, n);
    TokensWereMade(sqCap, events);
  }

  lemma {:induction false} ReadyAreTokens(cq: seq<Cqe>)
    ensures |Collect(cq, CqeTag)| + |Collect(cq, CqeCancel)| == |cq|
  {
    if cq != [] {
      ReadyAreTokens(cq[1..]);
    }
  }

  /** Completions that are ready are outstanding. */
  lemma ReadyIsOutstanding(s: Shard)
    ensures |s.cq| <= Outstanding(s)
  {
    ReadyAreTokens(s.cq);
    Smaller(Collect(s.cq, CqeTag), ReadTokens(s.backlog, s.sq, s.ops, s.cq));
    Smaller(Collect(s.cq, CqeCancel), CancelTokens(s));
  }

  /**
   * Whatever callers and kernel do, the loop of a ring of `n` slots, within `n`
   * permits and with at most `k` drop-cancels, never has more than `limit` outstanding.
   */
  ghost predicate AlwaysWithin(n: nat, k: nat, limit: nat) {
    forall o: nat -> TT.Choice, log: seq<TT.TurnLog>, drops: nat ::
      LR.IsLoop(log, o, n, drops) && drops <= k ==> Outstanding(Run(Init(n), TT.Flat(log))) <= limit
  }

  /**
   * The bound is exact for the loop: with `n` permits and `k` drop-cancels a limit
   * holds if and only if it is at least `2 * n + k`.
   */
  lemma BoundIsExact(n: nat, k: nat, limit: nat)
    requires n > 0 && n + k <= CANCEL_BIT
    ensures AlwaysWithin(n, k, limit) <==> limit >= 2 * n + k
  {
    hide Run, Outstanding, LR.Within, LR.Drops, TT.TurnsDid, TT.Flat;
    if limit >= 2 * n + k {
      forall o: nat -> TT.Choice, log: seq<TT.TurnLog>, drops: nat | LR.IsLoop(log, o, n, drops) && drops <= k
        ensures Outstanding(Run(Init(n), TT.Flat(log))) <= limit
      {
        CompletionsBounded(n, TT.Flat(log), n);
      }
    } else {
      var o, log := SC.CompletionsReach(n, k);
      ReadyIsOutstanding(Run(Init(n), TT.Flat(log)));
      assert LR.IsLoop(log, o, n, k) && !(Outstanding(Run(Init(n), TT.Flat(log))) <= limit);
    }
  }

  /** The documented limit, twice the permits, holds of the loop if and only if nothing is cancelled on drop. */
  lemma DocumentedBoundHoldsIff(n: nat, k: nat)
    requires n > 0 && n + k <= CANCEL_BIT
    ensures AlwaysWithin(n, k, 2 * n) <==> k == 0
  {
    hide AlwaysWithin;
    BoundIsExact(n, k, 2 * n);
  }
}
