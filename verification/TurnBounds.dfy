/** The budget of a turn: what its intake may allocate, and exactly when the thread goes to sleep after it. */
module TurnBounds {
  import opened Base
  import opened Geometry
  import opened LogicalRead
  import opened ShardMachine
  import opened ShardInvariant
  import opened CancelSteps
  import opened ShardTheorems
  import opened Permits
  import opened Frames
  import opened ThreadTrace
  import opened ThreadEffects

  // ---- sleeping ----

  /**
   * The thread sleeps after a turn if and only if the turn had room for another
   * message, another allocation and another completion, no completion is ready,
   * and nothing is queued for the kernel or the kernel took nothing in that turn.
   */
  lemma BlocksExactly(s: Shard, p: TurnLog, oracle: nat -> Choice)
    requires TurnDid(s, p, oracle)
    ensures var t := AfterTurn(s, p);
            !p.goOn <==>
              && p.left.messages < TURN_MESSAGES && p.left.allocationBytes < TURN_ALLOCATION_BYTES
              && p.left.completions < TURN_COMPLETIONS
              && t.cq == []
              && ((t.backlog == [] && t.sq == []) || (p.before == 0 && p.after == 0))
  {
    hide Staged, Submits, Leaves, Run;
  }

  // ---- allocating ----

  /** The buffers the entries of a table own. */
  ghost function Buffers(pending: map<nat, Pending>): nat {
    Sum(ChargeOf(pending))
  }

  lemma {:induction false} MovesKeepPending(s: Shard, moves: seq<Event>)
    ensures Run(s, Moves(moves)).pending == s.pending && Run(s, Moves(moves)).phase == s.phase
    decreases |moves|
  {
    hide Next, Outside;
    if moves == [] {
      NoSteps(s);
    } else {
      var n := |moves| - 1;
      MovesKeepPending(s, moves[..n]);
      assert moves[..n + 1] == moves;
      MovesSnoc(moves, n);
      hide Moves, Run;
      if Outside(moves[n]) {
        RunSnoc(s, Moves(moves[..n]), moves[n]);
        OutsideLeavesDriver(Run(s, Moves(moves[..n])), moves[n]);
      }
    }
  }

  lemma RefusedKeeps(s: Shard, t: Shard, outcome: Outcome)
    requires s.queue != [] && s.queue[0].Read? && Refuses(s, t, outcome)
    ensures t.pending == s.pending
  {
  }

  lemma EnteredAdds(s: Shard, t: Shard, block: nat, base: nat)
    requires s.queue != [] && s.queue[0].Read? && Enters(s, t, block, base)
    ensures Buffers(t.pending) == Buffers(s.pending) + s.queue[0].args.charge
  {
    hide Sum, ChargeOf, LeastCover;
    InsertHoldings(s.pending, s.queue[0].id, t.pending[s.queue[0].id]);
  }

  lemma ReadAllocates(s: Shard, block: nat, base: nat, aligns: bool)
    requires Inv(s) && s.phase.Running? && s.queue != [] && s.queue[0].Read? && block !in s.heap
    ensures Buffers(DoRecvRead(s, block, base, aligns).pending) <= Buffers(s.pending) + Allocates(s)
    ensures aligns ==> Buffers(DoRecvRead(s, block, base, aligns).pending) == Buffers(s.pending) + Allocates(s)
  {
    IntakeReadIs(s, block, base, aligns);
    hide Inv, DoRecvRead, Enters, Refuses, Buffers;
    var t := DoRecvRead(s, block, base, aligns);
    if s.shuttingDown {
      RefusedKeeps(s, t, ShuttingDown);
    } else if aligns {
      EnteredAdds(s, t, block, base);
    } else {
      RefusedKeeps(s, t, CannotAlign);
    }
  }

  lemma CancelAllocates(s: Shard)
    requires s.phase.Running? && s.queue != [] && s.queue[0].Cancel?
    ensures Buffers(DoRecvCancel(s).pending) == Buffers(s.pending)
  {
    hide Sum, ChargeOf;
    IntakeCancelIs(s);
    hide DoRecvCancel;
    if s.queue[0].id in s.pending {
      FlagIsAlike(s.pending, s.queue[0].id);
      AlikeHoldings(s.pending, DoRecvCancel(s).pending);
    }
  }

  lemma SweepAllocates(s: Shard, order: seq<nat>)
    requires s.phase.Running? && s.queue != [] && s.queue[0].Shutdown? && Enumerates(order, s.pending.Keys)
    ensures DoRecvShutdown(s, order).pending == s.pending
  {
    IntakeShutdownIs(s, order);
    hide DoRecvShutdown, Cancels, Enumerates;
  }

  /** Taking a message allocates what the budget is charged for it, or nothing if the buffer cannot be aligned. */
  lemma MessageAllocates(s: Shard, c: Choice, e: Event)
    requires Inv(s) && s.phase.Running? && s.queue != [] && TakesMessage(s, c, e)
    ensures Buffers(Next(s, e).pending) <= Buffers(s.pending) + Allocates(s)
    ensures c.aligns ==> Buffers(Next(s, e).pending) == Buffers(s.pending) + Allocates(s)
  {
    hide Inv, Enumerates, DoRecvRead, DoRecvCancel, DoRecvShutdown, Buffers;
    match e
    case RecvRead(block, base, aligns) => ReadAllocates(s, block, base, aligns);
    case RecvCancel => CancelAllocates(s);
    case RecvShutdown(order) => SweepAllocates(s, order);
  }

  lemma OneCharge(s: Shard)
    requires Inv(s) && s.queue != []
    ensures Allocates(s) < U32_RANGE
  {
    hide Inv;
    if s.queue[0].Read? {
      ChargeFits(s);
    }
  }

  lemma WorkAllocates(s: Shard, c: Choice, t: seq<Event>, prev: TurnBudget, left: TurnBudget)
    requires Inv(s) && s.phase.Running? && Works(Intaking, s, c, t, prev, left)
    ensures Run(s, t).phase.Running?
    ensures Buffers(Run(s, t).pending) + prev.allocationBytes <= Buffers(s.pending) + left.allocationBytes
    ensures c.aligns ==> Buffers(Run(s, t).pending) + prev.allocationBytes == Buffers(s.pending) + left.allocationBytes
    ensures left.allocationBytes < TURN_ALLOCATION_BYTES + U32_RANGE
  {
    hide Inv, Run, Moves, Next, TakesMessage, Allocates, Buffers;
    var now := Run(s, Moves(c.moves));
    MovesKeepPending(s, c.moves);
    RunKeepsInv(s, Moves(c.moves));
    RunSnoc(s, Moves(c.moves), t[|t| - 1]);
    MessageAllocates(now, c, t[|t| - 1]);
    OneCharge(now);
    TakenRuns(now, c, t[|t| - 1]);
  }

  lemma TakenRuns(s: Shard, c: Choice, e: Event)
    requires s.queue != [] && TakesMessage(s, c, e)
    ensures Next(s, e).phase == s.phase
  {
    hide Next;
    ThreadFrame(s, e);
  }

  /**
   * Intake of a turn allocates no more than its budget says it did, exactly that
   * if every buffer could be aligned, and overshoots the limit by one read at most.
   */
  lemma {:induction false} IntakeAllocates(s: Shard, t: seq<Event>, oracle: nat -> Choice, from: nat, n: nat,
                                           start: TurnBudget, left: TurnBudget)
    requires Inv(s) && s.phase.Running? && Rounds(Intaking, s, t, oracle, from, n, start, left)
    ensures Run(s, t).phase.Running? && Inv(Run(s, t))
    ensures AllocatedBytes(Run(s, t)) + start.allocationBytes <= AllocatedBytes(s) + left.allocationBytes
    ensures (forall k: nat :: from <= k < from + n ==> oracle(k).aligns) ==>
              AllocatedBytes(Run(s, t)) + start.allocationBytes == AllocatedBytes(s) + left.allocationBytes
    ensures n > 0 ==> left.allocationBytes < TURN_ALLOCATION_BYTES + U32_RANGE
    decreases n
  {
    hide Inv, Run, Works, AllocatedBytes;
    RunKeepsInv(s, t);
    if n == 0 {
      NoSteps(s);
    } else {
      var c := oracle(from + n - 1);
      var k: nat, prev: TurnBudget :|
        LastRound(Intaking, s, t, k, c, prev, left) && Rounds(Intaking, s, t[..k], oracle, from, n - 1, start, prev);
      IntakeAllocates(s, t[..k], oracle, from, n - 1, start, prev);
      hide Rounds;
      assert t == t[..k] + t[k..];
      RunAppend(s, t[..k], t[k..]);
      WorkAllocates(Run(s, t[..k]), c, t[k..], prev, left);
      AllocationIsHeld(Run(s, t[..k]));
      AllocationIsHeld(Run(s, t));
    }
  }
}
