/**
 * The loop drains: once it is shutting down, with callers quiet and a kernel that
 * takes and answers what it is given, every turn makes progress, and the thread
 * leaves cleanly within a number of turns its state tells.
 */
module DrainLoop {
  import opened Base
  import opened Geometry
  import opened LogicalRead
  import opened ShardMachine
  import opened ShardInvariant
  import opened CancelSteps
  import opened IntakeSteps
  import opened ReapSteps
  import opened ShardTheorems
  import opened DrainTheorems
  import opened Permits
  import opened Frames
  import opened ThreadTrace

  // ---- what is left to do ----

  function Unmarked(s: Shard): set<nat> {
    s.pending.Keys - s.queuedCancels
  }

  /** Work of the rings: every request still has to be flushed, accepted, answered and reaped. */
  function RingWork(backlog: nat, sq: nat, ops: nat, cq: nat): nat {
    4 * backlog + 3 * sq + 2 * ops + cq
  }

  /** All the work left: messages to take, cancels a sweep may still make, and the rings. */
  function Left(s: Shard): nat {
    |s.queue| + 5 * |Unmarked(s)| + RingWork(|s.backlog|, |s.sq|, |s.ops|, |s.cq|)
  }

  ghost predicate Draining(s: Shard) {
    Inv(s) && s.phase.Running? && s.shuttingDown && s.sqCap > 0
  }

  /** The step does some of the work, at least `done` of it, and the shard still drains. */
  ghost predicate Lowers(s: Shard, t: Shard, done: nat) {
    Draining(t) && Left(t) + done <= Left(s)
  }

  // ---- callers and the kernel ----

  /** Callers send nothing more. */
  predicate QuietEvent(e: Event) {
    !e.SendRead? && !e.SendCancel? && !e.SendShutdown?
  }

  predicate QuietMoves(moves: seq<Event>) {
    forall i :: 0 <= i < |moves| ==> QuietEvent(moves[i])
  }

  /** The same rings, or less work in them; completions stay until they are reaped. */
  predicate RingsLower(s: Shard, t: Shard) {
    && |s.cq| <= |t.cq|
    && ((t.sq == s.sq && t.ops == s.ops && t.cq == s.cq)
        || RingWork(0, |t.sq|, |t.ops|, |t.cq|) < RingWork(0, |s.sq|, |s.ops|, |s.cq|))
  }

  lemma AcceptLowers(s: Shard)
    ensures RingsLower(s, DoAcceptOne(s))
  {
    hide Taken;
  }

  lemma AnswersLower(s: Shard, op: nat, res: int, data: seq<byte>)
    ensures RingsLower(s, DoCompleteCancel(s, op, res)) && RingsLower(s, DoKernelWrite(s, op, data))
  {
    hide Stored, Mapped;
  }

  lemma CompleteLowers(s: Shard, op: nat, res: int, data: seq<byte>)
    ensures RingsLower(s, DoCompleteRead(s, op, res, data))
  {
    hide LegalCompletion, Stored, Mapped;
  }

  lemma KernelLowers(s: Shard, e: Event)
    requires InRings(e) && !e.FlushOne?
    ensures RingsLower(s, Next(s, e))
  {
    hide RingsLower, DoAcceptOne, DoCompleteRead, DoCompleteCancel, DoKernelWrite;
    match e
    case AcceptOne => AcceptLowers(s);
    case KernelWrite(op, data) => AnswersLower(s, op, 0, data);
    case CompleteRead(op, res, data) => CompleteLowers(s, op, res, data);
    case CompleteCancel(op, answer) => AnswersLower(s, op, answer, []);
  }

  lemma QuietCaller(s: Shard, e: Event)
    requires InCallers(e) && QuietEvent(e)
    ensures Next(s, e).queue == s.queue
  {
    hide FdRefs, Referenced;
    hide DoRecvRead, DoRecvCancel, DoRecvShutdown, DoSeeDisconnect, DoSubmitReturned, DoReap, DoExitDrained, DoExitLeaked;
    hide DoSendRead, DoAcceptOne, DoFlushOne, DoKernelWrite, DoCompleteRead, DoCompleteCancel;
  }

  /** What others do in a quiet moment: the thread's side and the queue stay, the rings only get on. */
  ghost predicate Quieter(s: Shard, t: Shard) {
    && t.queue == s.queue && t.pending == s.pending && t.backlog == s.backlog && t.queuedCancels == s.queuedCancels
    && t.phase == s.phase && t.shuttingDown == s.shuttingDown && t.sqCap == s.sqCap
    && RingsLower(s, t)
  }

  lemma OutsideIsQuieter(s: Shard, e: Event)
    requires Outside(e) && QuietEvent(e)
    ensures Quieter(s, Next(s, e))
  {
    hide Next;
    if InRings(e) {
      RingFrame(s, e);
      KernelLowers(s, e);
    } else {
      CallerFrame(s, e);
      QuietCaller(s, e);
    }
  }

  lemma QuieterChain(s: Shard, t: Shard, u: Shard)
    requires Quieter(s, t) && Quieter(t, u)
    ensures Quieter(s, u)
  {
  }

  lemma {:induction false} MovesAreQuieter(s: Shard, moves: seq<Event>)
    requires QuietMoves(moves)
    ensures Quieter(s, Run(s, Moves(moves)))
    decreases |moves|
  {
    hide Next, Quieter, QuietEvent, Outside;
    if moves == [] {
      NothingIsQuieter(s);
    } else {
      var n := |moves| - 1;
      MovesAreQuieter(s, moves[..n]);
      assert moves[..n + 1] == moves;
      MovesSnoc(moves, n);
      hide Moves, Run;
      if Outside(moves[n]) {
        var t := Run(s, Moves(moves[..n]));
        RunSnoc(s, Moves(moves[..n]), moves[n]);
        OutsideIsQuieter(t, moves[n]);
        QuieterChain(s, t, Next(t, moves[n]));
      }
    }
  }

  lemma NothingIsQuieter(s: Shard)
    ensures Quieter(s, Run(s, []))
  {
  }

  lemma QuieterLowers(s: Shard, t: Shard)
    requires Draining(s) && Quieter(s, t) && Inv(t)
    ensures Lowers(s, t, 0) && (Left(t) == Left(s) ==> t.sq == s.sq && t.ops == s.ops && t.cq == s.cq)
  {
    hide Inv;
  }

  lemma MovesLower(s: Shard, moves: seq<Event>)
    requires Draining(s) && QuietMoves(moves)
    ensures var t := Run(s, Moves(moves)); Quieter(s, t) && Lowers(s, t, 0)
    ensures var t := Run(s, Moves(moves)); Left(t) == Left(s) ==> t.sq == s.sq && t.ops == s.ops && t.cq == s.cq
  {
    hide Run, Moves, Inv, Quieter, Left;
    MovesAreQuieter(s, moves);
    RunKeepsInv(s, Moves(moves));
    QuieterLowers(s, Run(s, Moves(moves)));
  }

  // ---- the thread's own steps ----

  lemma {:induction false} SweepMoves(s: Shard, order: seq<nat>)
    requires forall i :: 0 <= i < |order| ==> order[i] in s.pending
    ensures var t := CancelAll(s, order);
            && |Unmarked(t)| + |t.backlog| == |Unmarked(s)| + |s.backlog| && |t.backlog| >= |s.backlog|
            && t == s.(backlog := t.backlog, created := t.created, queuedCancels := t.queuedCancels)
    decreases |order|
  {
    CancelAllFrame(s, order);
    if order != [] {
      var t := QueueCancel(s, order[0]);
      CancelMoves(s, order[0]);
      QueueCancelFrame(s, order[0]);
      hide QueueCancel, Unmarked;
      SweepMoves(t, order[1..]);
    }
  }

  lemma CancelMoves(s: Shard, id: nat)
    requires id in s.pending
    ensures var t := QueueCancel(s, id);
            |Unmarked(t)| + |t.backlog| == |Unmarked(s)| + |s.backlog| && |t.backlog| >= |s.backlog|
  {
    var t := QueueCancel(s, id);
    if id !in s.queuedCancels {
      assert Unmarked(s) == Unmarked(t) + {id} && id !in Unmarked(t);
    }
  }

  lemma RejectLowers(s: Shard, outcome: Outcome)
    requires s.queue != [] && s.queue[0].Read?
    ensures Left(Reject(s, outcome)) + 1 <= Left(s)
  {
    hide FdRefs, Referenced, Unmarked;
    assert Unmarked(Reject(s, outcome)) == Unmarked(s) by { SameMarks(s, outcome); }
  }

  lemma SameMarks(s: Shard, outcome: Outcome)
    requires s.queue != [] && s.queue[0].Read?
    ensures Unmarked(Reject(s, outcome)) == Unmarked(s)
  {
    hide FdRefs, Referenced;
  }

  lemma RecvReadLowers(s: Shard, block: nat, base: nat, aligns: bool)
    requires s.phase.Running? && s.shuttingDown && s.queue != [] && s.queue[0].Read?
    ensures Left(DoRecvRead(s, block, base, aligns)) + 1 <= Left(s)
  {
    hide Reject, Admit, Left;
    RejectLowers(s, ShuttingDown);
  }

  /** One message is gone, and every other cancel it made is one the sweep need not make. */
  lemma TakenLowers(s: Shard, u: Shard, t: Shard)
    requires s.queue != [] && u.queue == s.queue[1..] && u.backlog == s.backlog && u.sq == s.sq && u.ops == s.ops && u.cq == s.cq
    requires |Unmarked(u)| == |Unmarked(s)| && |Unmarked(t)| + |t.backlog| == |Unmarked(u)| + |u.backlog| && |t.backlog| >= |u.backlog|
    requires t.queue == u.queue && t.sq == u.sq && t.ops == u.ops && t.cq == u.cq
    ensures Left(t) + 1 <= Left(s)
  {
    hide Unmarked;
  }

  lemma Flagged(s: Shard, id: nat) returns (u: Shard)
    requires s.queue != [] && id in s.pending
    ensures u == s.(queue := s.queue[1..], pending := s.pending[id := s.pending[id].(cancelRequested := true)])
    ensures Unmarked(u) == Unmarked(s) && id in u.pending
  {
    u := s.(queue := s.queue[1..], pending := s.pending[id := s.pending[id].(cancelRequested := true)]);
    assert u.pending.Keys == s.pending.Keys;
  }

  lemma RecvCancelLowers(s: Shard)
    requires s.phase.Running? && s.queue != [] && s.queue[0].Cancel?
    ensures Left(DoRecvCancel(s)) + 1 <= Left(s)
  {
    hide QueueCancel, Unmarked, Left;
    var id := s.queue[0].id;
    if id in s.pending {
      var u := Flagged(s, id);
      CancelMoves(u, id);
      QueueCancelFrame(u, id);
      TakenLowers(s, u, QueueCancel(u, id));
    } else {
      var u := s.(queue := s.queue[1..]);
      assert Unmarked(u) == Unmarked(s) by { SameUnmarked(s, u); }
      TakenLowers(s, u, u);
    }
  }

  lemma SameUnmarked(s: Shard, u: Shard)
    requires u.pending.Keys == s.pending.Keys && u.queuedCancels == s.queuedCancels
    ensures Unmarked(u) == Unmarked(s)
  {
  }

  lemma RecvShutdownLowers(s: Shard, order: seq<nat>)
    requires s.phase.Running? && s.queue != [] && s.queue[0].Shutdown? && Enumerates(order, s.pending.Keys)
    ensures Left(DoRecvShutdown(s, order)) + 1 <= Left(s)
  {
    EnumerationIsPending(order, s.pending.Keys);
    hide CancelAll, Enumerates;
    var u := StartShutdown(s.(queue := s.queue[1..]));
    assert Unmarked(u) == Unmarked(s);
    SweepMoves(u, order);
    hide Unmarked;
  }

  /** Taking a message lowers the work, whatever it is. */
  lemma TakeLowers(s: Shard, c: Choice, e: Event)
    requires Draining(s) && s.queue != [] && TakesMessage(s, c, e)
    ensures Lowers(s, Next(s, e), 1)
  {
    hide Inv, Left, DoRecvRead, DoRecvCancel, DoRecvShutdown;
    NextKeepsInv(s, e);
    TakeKeepsDraining(s, e);
    match e
    case RecvRead(block, base, aligns) => RecvReadLowers(s, block, base, aligns);
    case RecvCancel => RecvCancelLowers(s);
    case RecvShutdown(order) => RecvShutdownLowers(s, order);
  }

  lemma TakeKeepsDraining(s: Shard, e: Event)
    requires e.RecvRead? || e.RecvCancel? || e.RecvShutdown? || e.SubmitReturned? || e.Reap? || e.SeeDisconnect?
    requires Draining(s)
    ensures Next(s, e).phase == s.phase && Next(s, e).shuttingDown && Next(s, e).sqCap == s.sqCap
  {
    hide Inv, Next;
    ThreadFrame(s, e);
    DrainStep(s, e);
  }

  lemma DisconnectLowers(s: Shard)
    requires Draining(s)
    ensures Lowers(s, Next(s, SeeDisconnect), 0) && Next(s, SeeDisconnect) == s
  {
    hide Inv;
    DisconnectIs(s);
    hide Next;
  }

  lemma SubmitReturnedLowers(s: Shard, result: SubmitResult, order: seq<nat>)
    requires Draining(s)
    ensures var t := DoSubmitReturned(s, result, order);
            Lowers(s, t, 0) && t.sq == s.sq && t.ops == s.ops && t.cq == s.cq && t.backlog == s.backlog && t.queue == s.queue
            && t.pending == s.pending
  {
    hide Inv, CancelAll;
    SubmitIsNext(s, result, order);
    NextKeepsInv(s, SubmitReturned(result, order));
    FailureIs(s);
    hide CountFailure, Next;
    assert Unmarked(DoSubmitReturned(s, result, order)) == Unmarked(s);
  }

  lemma SubmitIsNext(s: Shard, result: SubmitResult, order: seq<nat>)
    ensures Next(s, SubmitReturned(result, order)) == DoSubmitReturned(s, result, order)
  {
    hide DoSubmitReturned;
  }

  lemma FlushLowers(s: Shard)
    requires Draining(s) && s.backlog != [] && |s.sq| < s.sqCap
    ensures Lowers(s, Next(s, FlushOne), 1)
  {
    hide Inv;
    NextKeepsInv(s, FlushOne);
    RingFrame(s, FlushOne);
    FlushSizes(s);
    hide Next;
    assert Unmarked(Next(s, FlushOne)) == Unmarked(s);
  }

  lemma FlushSizes(s: Shard)
    requires s.phase.Running? && s.backlog != [] && |s.sq| < s.sqCap
    ensures var t := Next(s, FlushOne); |t.backlog| == |s.backlog| - 1 && |t.sq| == |s.sq| + 1 && t.ops == s.ops && t.cq == s.cq
  {
    hide DoAcceptOne, DoKernelWrite, DoCompleteRead, DoCompleteCancel;
  }

  lemma ReapReadMarks(s: Shard, lateClose: bool, metaOk: bool)
    requires Inv(s) && s.shuttingDown && s.phase.Running? && s.cq != [] && s.cq[0].ud < CANCEL_BIT
    ensures var t := DoReap(s, lateClose, metaOk);
            t.queuedCancels == s.queuedCancels - {s.cq[0].ud} && t.pending == s.pending - {s.cq[0].ud} && t.queue == s.queue
  {
    hide Inv, EntryOk, CqeMatches, ReapRead, FdRefs, Referenced;
    HeadCompletion(s);
    var c := s.cq[0];
    var p := s.pending[c.ud];
    EntryIsUsable(c.ud, p, s.requests[c.ud], s.heap);
    CqeIsUsable(c, s.pending, s.requests, s.heap);
    var fileLen := if metaOk then Some(|s.fds[p.fd]|) else None;
    NoContinuation(p, c.res, true, fileLen, s.heap[p.block].bytes, c.ud !in s.closed);
  }

  lemma ReapLowers(s: Shard, lateClose: bool, metaOk: bool)
    requires Draining(s) && s.cq != []
    ensures Lowers(s, Next(s, Reap(lateClose, metaOk)), 1)
  {
    hide Inv, DoReap;
    var t := DoReap(s, lateClose, metaOk);
    ReapIsNext(s, lateClose, metaOk);
    NextKeepsInv(s, Reap(lateClose, metaOk));
    TakeKeepsDraining(s, Reap(lateClose, metaOk));
    hide Next;
    if s.cq[0].ud < CANCEL_BIT {
      ReapDrains(s, lateClose, metaOk);
      ReapReadMarks(s, lateClose, metaOk);
      SubsetSize(Unmarked(t), Unmarked(s));
    } else {
      ReapCancelIs(s, lateClose, metaOk);
      assert Unmarked(t) == Unmarked(s);
    }
  }

  lemma ReapIsNext(s: Shard, lateClose: bool, metaOk: bool)
    ensures Next(s, Reap(lateClose, metaOk)) == DoReap(s, lateClose, metaOk)
  {
    hide DoReap;
  }

  lemma ReapCancelIs(s: Shard, lateClose: bool, metaOk: bool)
    requires s.phase.Running? && s.cq != [] && s.cq[0].ud >= CANCEL_BIT
    ensures var t := DoReap(s, lateClose, metaOk); t == s.(cq := s.cq[1..], stats := t.stats)
  {
    hide CountCancel, ReapEntry;
  }

  // ---- stages ----

  /** In this stretch of choices callers are quiet. */
  ghost predicate QuietFrom(oracle: nat -> Choice, from: nat, to: nat) {
    forall k: nat :: from <= k < to ==> QuietMoves(oracle(k).moves)
  }

  lemma LowersChain(s: Shard, t: Shard, u: Shard, a: nat, b: nat)
    requires Lowers(s, t, a) && Lowers(t, u, b)
    ensures Lowers(s, u, a + b)
  {
    hide Inv, Left;
  }

  /** One round of a stage does one piece of work. */
  lemma WorkLowers(stage: Stage, s: Shard, c: Choice, t: seq<Event>, prev: TurnBudget, left: TurnBudget)
    requires Draining(s) && QuietMoves(c.moves) && Works(stage, s, c, t, prev, left)
    ensures Lowers(s, Run(s, t), 1)
  {
    hide Run, Moves, Draining, Lowers, TakesMessage, Next, Allocates;
    MovesLower(s, c.moves);
    var now := Run(s, Moves(c.moves));
    assert Draining(now) by { LowersDrains(s, now, 0); }
    RunSnoc(s, Moves(c.moves), t[|t| - 1]);
    if stage.Intaking? {
      TakeLowers(now, c, t[|t| - 1]);
    } else {
      ReapLowers(now, c.lateClose, c.metaOk);
    }
    LowersChain(s, now, Run(s, t), 0, 1);
  }

  lemma LowersDrains(s: Shard, t: Shard, done: nat)
    requires Lowers(s, t, done)
    ensures Draining(t) && Left(t) + done <= Left(s)
  {
    hide Draining, Left;
  }

  lemma NothingLowers(s: Shard)
    requires Draining(s)
    ensures Lowers(s, Run(s, []), 0)
  {
    hide Inv;
    NoSteps(s);
    hide Run;
  }

  lemma {:induction false} RoundsLower(stage: Stage, s: Shard, t: seq<Event>, oracle: nat -> Choice, from: nat, n: nat,
                                       start: TurnBudget, left: TurnBudget)
    requires Draining(s) && QuietFrom(oracle, from, from + n) && Rounds(stage, s, t, oracle, from, n, start, left)
    ensures Lowers(s, Run(s, t), n)
    decreases n
  {
    hide Run, Draining, Lowers, Works, QuietMoves;
    if n == 0 {
      assert t == [];
      NothingLowers(s);
    } else {
      var c := oracle(from + n - 1);
      var k: nat, prev: TurnBudget :|
        LastRound(stage, s, t, k, c, prev, left) && Rounds(stage, s, t[..k], oracle, from, n - 1, start, prev);
      RoundsLower(stage, s, t[..k], oracle, from, n - 1, start, prev);
      hide Rounds, LastRound;
      RoundLowers(stage, s, t, k, c, prev, left, n - 1);
    }
  }

  lemma RoundLowers(stage: Stage, s: Shard, t: seq<Event>, k: nat, c: Choice, prev: TurnBudget, left: TurnBudget, done: nat)
    requires LastRound(stage, s, t, k, c, prev, left) && QuietMoves(c.moves) && Lowers(s, Run(s, t[..k]), done)
    ensures Lowers(s, Run(s, t), done + 1)
  {
    hide Run, Draining, Lowers, Works, QuietMoves;
    var u := Run(s, t[..k]);
    LowersDrains(s, u, done);
    WorkLowers(stage, u, c, t[k..], prev, left);
    assert t == t[..k] + t[k..];
    RunAppend(s, t[..k], t[k..]);
    LowersChain(s, u, Run(s, t), done, 1);
  }

  /** The look that finds nothing. */
  lemma IdleLowers(stage: Stage, s: Shard, c: Choice, t: seq<Event>)
    requires Draining(s) && QuietMoves(c.moves) && Idles(stage, s, c, t)
    ensures Lowers(s, Run(s, t), 0)
    ensures stage.Intaking? ==> Run(s, t).queue == []
    ensures stage.Reaping? ==> s.cq == []
  {
    hide Run, Moves, Draining, Lowers, Next;
    MovesLower(s, c.moves);
    var now := Run(s, Moves(c.moves));
    LowersDrains(s, now, 0);
    if stage.Intaking? {
      RunSnoc(s, Moves(c.moves), SeeDisconnect);
      DisconnectLowers(now);
      LowersChain(s, now, Run(s, t), 0, 0);
    }
  }

  /** A stage that had budget did some work, or there was none to do. */
  lemma StageLowers(stage: Stage, s: Shard, t: seq<Event>, oracle: nat -> Choice, from: nat, to: nat,
                    start: TurnBudget, left: TurnBudget)
    requires Draining(s) && QuietFrom(oracle, from, to) && Staged(stage, s, t, oracle, from, to, start, left) && Allows(stage, start)
    ensures Lowers(s, Run(s, t), 0)
    ensures Left(Run(s, t)) == Left(s) ==> if stage.Intaking? then Run(s, t).queue == [] else s.cq == []
  {
    hide Run, Draining, Lowers, QuietMoves, Left, Idles;
    var k: nat, n: nat :|
      && k <= |t|
      && Rounds(stage, s, t[..k], oracle, from, n, start, left)
      && if Allows(stage, left) then Idles(stage, Run(s, t[..k]), oracle(from + n), t[k..]) && to == from + n + 1
         else k == |t| && to == from + n;
    RoundsLower(stage, s, t[..k], oracle, from, n, start, left);
    if Allows(stage, left) {
      if n == 0 {
        assert t[..k] == [];
        NoSteps(s);
      }
      hide Rounds;
      LastLookLowers(stage, s, t, k, n, oracle(from + n));
    } else {
      assert t[..k] == t && n > 0;
      LowersDrains(s, Run(s, t), n);
      WeakerLowers(s, Run(s, t), n);
    }
  }

  lemma LastLookLowers(stage: Stage, s: Shard, t: seq<Event>, k: nat, n: nat, c: Choice)
    requires k <= |t| && Lowers(s, Run(s, t[..k]), n) && Idles(stage, Run(s, t[..k]), c, t[k..]) && QuietMoves(c.moves)
    requires n == 0 ==> Run(s, t[..k]) == s
    ensures Lowers(s, Run(s, t), 0)
    ensures Left(Run(s, t)) == Left(s) ==> if stage.Intaking? then Run(s, t).queue == [] else s.cq == []
  {
    hide Run, Draining, Lowers, QuietMoves, Left, Idles;
    var u := Run(s, t[..k]);
    LowersDrains(s, u, n);
    assert t == t[..k] + t[k..];
    RunAppend(s, t[..k], t[k..]);
    IdleLowers(stage, u, c, t[k..]);
    LowersDrains(u, Run(s, t), 0);
    LowersChain(s, u, Run(s, t), n, 0);
    WeakerLowers(s, Run(s, t), n);
  }

  lemma WeakerLowers(s: Shard, t: Shard, done: nat)
    requires Lowers(s, t, done)
    ensures Lowers(s, t, 0)
  {
    hide Draining, Left;
  }

  lemma {:induction false} FlushesLower(s: Shard, m: nat)
    requires Draining(s) && m <= Flushable(s)
    ensures var t := Run(s, Flushes(m)); Lowers(s, t, m) && |t.sq| == |s.sq| + m && |t.backlog| == |s.backlog| - m && t.sqCap == s.sqCap
    decreases m
  {
    hide Run, Next, Inv, Left;
    if m == 0 {
      assert Flushes(0) == [];
      NoSteps(s);
    } else {
      FlushesLower(s, m - 1);
      var u := Run(s, Flushes(m - 1));
      assert Flushes(m) == Flushes(m - 1) + [FlushOne];
      RunSnoc(s, Flushes(m - 1), FlushOne);
      FlushLowers(u);
      FlushSizes(u);
      RingFrame(u, FlushOne);
    }
  }

  /** A submission lowers the work or had nothing to flush, and nothing moved in the kernel. */
  lemma SubmitsLower(s: Shard, c: Choice, t: seq<Event>, submitted: nat)
    requires Draining(s) && QuietMoves(c.moves) && Submits(s, c, t, submitted)
    ensures Lowers(s, Run(s, t), 0)
    ensures var u := Run(s, t);
            Left(u) == Left(s) ==> Flushable(s) == 0 && u.sq == s.sq && u.ops == s.ops && u.cq == s.cq && u.queue == s.queue
                                   && u.backlog == s.backlog && u.pending == s.pending
  {
    hide Run, Moves, Draining, Lowers, Left, Enumerates, QuietMoves, Flushes, Flushable;
    var flush := Flushes(Flushable(s));
    FlushesLower(s, Flushable(s));
    var ready := Run(s, flush);
    LowersDrains(s, ready, Flushable(s));
    WeakerLowers(s, ready, Flushable(s));
    NoFlushes(s);
    if ready.sq != [] || c.kernelWork {
      MovesLower(ready, c.moves);
      var back := Run(ready, Moves(c.moves));
      LowersDrains(ready, back, 0);
      var e := t[|t| - 1];
      SubmitReturnedLowers(back, e.result, e.order);
      SubmitIsNext(back, e.result, e.order);
      RunAppend(s, flush, Moves(c.moves));
      RunSnoc(s, flush + Moves(c.moves), e);
      var u := Run(s, t);
      LowersDrains(back, u, 0);
      LowersChain(s, ready, back, 0, 0);
      LowersChain(s, back, u, 0, 0);
      QuieterKeeps(ready, back);
    }
  }

  lemma NoFlushes(s: Shard)
    ensures Flushable(s) == 0 ==> Run(s, Flushes(Flushable(s))) == s
  {
    assert Flushes(0) == [];
    NoSteps(s);
    hide Run;
  }

  lemma QuieterKeeps(s: Shard, t: Shard)
    requires Quieter(s, t)
    ensures t.queue == s.queue && t.backlog == s.backlog && t.pending == s.pending
  {
  }

  // ---- turns ----

  /**
   * What the outside owes a draining turn: callers send nothing, the kernel has
   * taken and answered everything by the end of the first submission, and the
   * deadline does not pass.
   */
  ghost predicate Obliges(s: Shard, p: TurnLog, oracle: nat -> Choice) {
    && QuietFrom(oracle, p.from, p.leaveAt + 1)
    && AfterFirst(s, p).sq == [] && AfterFirst(s, p).ops == []
    && !oracle(p.leaveAt).deadline
  }

  /** The kernel's own step: take the next request, or answer the oldest operation. */
  function Answer(s: Shard): Event {
    if s.ops == [] then AcceptOne
    else if s.ops[0].KCancel? then CompleteCancel(0, 0)
    else CompleteRead(0, -5, [])
  }

  lemma AnswerIs(s: Shard)
    requires s.ops != [] && (s.ops[0].KRead? ==> s.ops[0].sqe.ReadSqe? && LegalCompletion(s.ops[0], -5, []))
    ensures var t := Next(s, Answer(s)); t.sq == s.sq && |t.ops| == |s.ops| - 1
  {
    hide DoCompleteRead, DoCompleteCancel, LegalCompletion;
    if s.ops[0].KCancel? {
      CancelAnswered(s);
    } else {
      ReadAnswered(s);
    }
  }

  lemma OldestMatches(s: Shard)
    requires Inv(s) && s.ops != []
    ensures s.ops[0].KRead? ==> s.ops[0].sqe.ReadSqe? && LegalCompletion(s.ops[0], -5, [])
  {
    assert OpMatches(s.ops[0], s.pending, s.requests);
    hide Inv;
  }

  lemma AcceptIs(s: Shard)
    requires s.sq != []
    ensures var t := Next(s, AcceptOne); |t.sq| == |s.sq| - 1 && |t.ops| == |s.ops| + 1
  {
    hide DoCompleteRead, DoCompleteCancel, DoFlushOne;
  }

  /** What the kernel owes it can always give: from every state it can take and answer everything. */
  lemma {:induction false} KernelCanAnswer(s: Shard) returns (moves: seq<Event>)
    requires Inv(s)
    ensures QuietMoves(moves) && var t := Run(s, Moves(moves)); t.sq == [] && t.ops == []
    decreases 2 * |s.sq| + |s.ops|
  {
    hide Inv, Next, LegalCompletion;
    if s.sq == [] && s.ops == [] {
      moves := [];
      NoSteps(s);
    } else {
      var e := Answer(s);
      NextKeepsInv(s, e);
      if s.ops != [] {
        OldestMatches(s);
        AnswerIs(s);
      } else {
        AcceptIs(s);
      }
      var rest := KernelCanAnswer(Next(s, e));
      moves := [e] + rest;
      hide Run, Moves;
      MovesCons(e, rest);
      RunCons(s, e, Moves(rest));
    }
  }

  lemma {:induction false} MovesCons(e: Event, rest: seq<Event>)
    requires Outside(e)
    ensures Moves([e] + rest) == [e] + Moves(rest)
    decreases |rest|
  {
    var moves := [e] + rest;
    var n := |rest|;
    assert moves[..n + 1] == moves && [e][..1] == [e] && [e][..0] == [];
    MovesSnoc(moves, n);
    if n == 0 {
      NoMoves([e]);
    } else {
      assert moves[..n] == [e] + rest[..n - 1] && rest[..n - 1 + 1] == rest;
      MovesCons(e, rest[..n - 1]);
      MovesSnoc(rest, n - 1);
    }
  }

  lemma RunCons(s: Shard, e: Event, rest: seq<Event>)
    ensures Run(s, [e] + rest) == Run(Next(s, e), rest)
  {
    hide Next;
    RunAppend(s, [e], rest);
    assert [e][..0] == [];
  }

  /** No request and no completion anywhere: nothing is pending. */
  lemma NothingPending(s: Shard)
    requires Draining(s) && s.backlog == [] && s.sq == [] && s.ops == [] && s.cq == []
    ensures s.pending == map[]
  {
    hide Inv;
    NothingOutstanding(s);
  }

  lemma NoWorkLeft(s: Shard)
    requires s.queue == [] && s.backlog == [] && s.sq == [] && s.ops == [] && s.cq == [] && s.pending == map[]
    ensures Left(s) == 0
  {
    assert Unmarked(s) == {};
  }

  lemma NoWorkMeans(s: Shard)
    requires Draining(s) && Left(s) == 0
    ensures s.backlog == [] && s.pending == map[]
  {
    hide Draining, RingWork, Unmarked;
    EmptyRings(s);
    hide Left;
    NothingPending(s);
  }

  lemma EmptyRings(s: Shard)
    requires RingWork(|s.backlog|, |s.sq|, |s.ops|, |s.cq|) == 0
    ensures s.backlog == [] && s.sq == [] && s.ops == [] && s.cq == []
  {
    hide Unmarked, RingWork;
    NoRingWork(|s.backlog|, |s.sq|, |s.ops|, |s.cq|);
  }

  lemma NoRingWork(backlog: nat, sq: nat, ops: nat, cq: nat)
    requires RingWork(backlog, sq, ops, cq) == 0
    ensures backlog == sq == ops == cq == 0
  {
  }

  /** The four working parts of a turn. */
  lemma PartsLower(s: Shard, p: TurnLog, oracle: nat -> Choice)
    requires Draining(s) && TurnDid(s, p, oracle) && Obliges(s, p, oracle)
    ensures var u := AfterSecond(s, p); Lowers(s, u, 0) && (Left(u) == Left(s) ==> Left(u) == 0)
  {
    hide Draining, Lowers, Left, Run, Staged, Submits, Leaves, QuietMoves, Flushable;
    var s1, s2, s3, s4 := AfterIntake(s, p), AfterFirst(s, p), AfterReap(s, p), AfterSecond(s, p);
    StageLowers(Intaking, s, p.intake, oracle, p.from, p.reapFrom - 1, TurnBudget(0, 0, 0), p.taken);
    LowersDrains(s, s1, 0);
    SubmitsLower(s1, oracle(p.reapFrom - 1), p.first, p.before);
    LowersDrains(s1, s2, 0);
    StageCount(Intaking, s, p.intake, oracle, p.from, p.reapFrom - 1, TurnBudget(0, 0, 0), p.taken);
    StageLowers(Reaping, s2, p.reap, oracle, p.reapFrom, p.leaveAt - 1, p.taken, p.left);
    LowersDrains(s2, s3, 0);
    SubmitsLower(s3, oracle(p.leaveAt - 1), p.second, p.after);
    LowersDrains(s3, s4, 0);
    LowersChain(s, s1, s2, 0, 0);
    LowersChain(s, s2, s3, 0, 0);
    LowersChain(s, s3, s4, 0, 0);
    if Left(s4) == Left(s) {
      NoRoom(s1);
      NothingPending(s2);
      NoWorkLeft(s2);
    }
  }

  lemma NoRoom(s: Shard)
    requires Draining(s)
    ensures Flushable(s) == 0 && s.sq == [] ==> s.backlog == []
  {
    hide Inv;
  }

  lemma ExitIs(s: Shard)
    requires Draining(s) && s.pending == map[] && s.backlog == []
    ensures Run(s, [ExitDrained]).phase.Drained?
  {
    hide Inv;
    LeaveSteps(s, []);
    hide Run, FdRefs, Referenced, DropQueue;
  }

  /** An obliged turn of a draining loop does some work, or is the last and leaves cleanly. */
  lemma TurnLowers(s: Shard, p: TurnLog, oracle: nat -> Choice)
    requires Draining(s) && TurnDid(s, p, oracle) && Obliges(s, p, oracle)
    ensures var t := Run(s, Whole(p)); t.phase.Drained? || Lowers(s, t, 1)
  {
    hide Draining, Lowers, Left, Run, Staged, Submits;
    PartsLower(s, p, oracle);
    WholeRuns(s, p);
    var u := AfterSecond(s, p);
    LowersDrains(s, u, 0);
    DrainingMeans(u);
    NoSteps(u);
    if u.pending == map[] && u.backlog == [] {
      ExitIs(u);
    } else {
      if Left(u) == 0 {
        NoWorkMeans(u);
      }
      OneLess(s, u);
    }
  }

  lemma DrainingMeans(s: Shard)
    requires Draining(s)
    ensures s.phase.Running? && s.shuttingDown
  {
    hide Inv;
  }

  lemma OneLess(s: Shard, u: Shard)
    requires Lowers(s, u, 0) && Left(u) != Left(s)
    ensures Lowers(s, u, 1)
  {
    hide Draining, Left;
  }

  /** Every turn began while the thread was there, and the outside obliged it. */
  ghost predicate Obliged(s: Shard, log: seq<TurnLog>, oracle: nat -> Choice) {
    forall i :: 0 <= i < |log| ==>
      Run(s, Flat(log[..i])).phase.Running? && Obliges(Run(s, Flat(log[..i])), log[i], oracle)
  }

  /** All but the last turn are again such a run, and the last starts where they end. */
  lemma ButLast(s: Shard, log: seq<TurnLog>, oracle: nat -> Choice)
    requires log != [] && TurnsDid(s, log, oracle)
    ensures var init := log[..|log| - 1]; TurnsDid(s, init, oracle) && TurnDid(Run(s, Flat(init)), log[|log| - 1], oracle)
    ensures Run(s, Flat(log)) == Run(Run(s, Flat(log[..|log| - 1])), Whole(log[|log| - 1]))
  {
    hide Run, Whole, TurnDid;
    var init := log[..|log| - 1];
    assert forall i :: 0 <= i < |init| ==> init[..i] == log[..i];
    RunAppend(s, Flat(init), Whole(log[|log| - 1]));
  }

  lemma ButLastObliged(s: Shard, log: seq<TurnLog>, oracle: nat -> Choice)
    requires log != [] && Obliged(s, log, oracle)
    ensures var init := log[..|log| - 1];
            Obliged(s, init, oracle) && Run(s, Flat(init)).phase.Running? && Obliges(Run(s, Flat(init)), log[|log| - 1], oracle)
  {
    hide Run, Obliges, Flat;
    var init := log[..|log| - 1];
    assert forall i :: 0 <= i < |init| ==> init[..i] == log[..i];
  }

  lemma {:induction false} TurnsLower(s: Shard, log: seq<TurnLog>, oracle: nat -> Choice)
    requires Draining(s) && TurnsDid(s, log, oracle) && Obliged(s, log, oracle)
    ensures var t := Run(s, Flat(log)); t.phase.Drained? || Lowers(s, t, |log|)
    decreases |log|
  {
    hide Draining, Lowers, Run, Whole, TurnDid, Obliges, TurnsDid, Obliged;
    if log == [] {
      NothingLowers(s);
    } else {
      hide Flat;
      var init, p := log[..|log| - 1], log[|log| - 1];
      ButLast(s, log, oracle);
      ButLastObliged(s, log, oracle);
      TurnsLower(s, init, oracle);
      var u := Run(s, Flat(init));
      LowersDrains(s, u, |init|);
      TurnLowers(u, p, oracle);
      if !Run(s, Flat(log)).phase.Drained? {
        LowersChain(s, u, Run(s, Flat(log)), |init|, 1);
      }
    }
  }

  /**
   * From any draining state, every obliged run of the loop is over after at most
   * one turn more than there are pieces of work left, and it ends in the clean exit.
   */
  lemma DrainLoopEnds(s: Shard, log: seq<TurnLog>, oracle: nat -> Choice)
    requires Draining(s) && TurnsDid(s, log, oracle) && Obliged(s, log, oracle)
    ensures |log| <= Left(s) + 1
    ensures |log| == Left(s) + 1 ==> Run(s, Flat(log)).phase.Drained?
    ensures !Run(s, Flat(log)).phase.Running? ==> Run(s, Flat(log)).phase.Drained?
  {
    hide Draining, Left, Run, TurnDid, Obliges, TurnsDid, Obliged, Flat, Lowers;
    TurnsLower(s, log, oracle);
    var t := Run(s, Flat(log));
    if !t.phase.Drained? {
      LowersDrains(s, t, |log|);
      DrainingMeans(t);
    } else if log != [] {
      BeforeLast(s, log, oracle);
    }
  }

  /** Before its last turn the loop had not left, and had done a piece of work in each. */
  lemma BeforeLast(s: Shard, log: seq<TurnLog>, oracle: nat -> Choice)
    requires Draining(s) && TurnsDid(s, log, oracle) && Obliged(s, log, oracle) && log != []
    ensures |log| - 1 <= Left(s)
  {
    hide Draining, Left, Run, TurnDid, Obliges, TurnsDid, Obliged, Flat, Lowers;
    var init := log[..|log| - 1];
    ButLast(s, log, oracle);
    ButLastObliged(s, log, oracle);
    TurnsLower(s, init, oracle);
    LowersDrains(s, Run(s, Flat(init)), |init|);
  }
}
