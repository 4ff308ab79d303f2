/**
 * What the driver thread may do, as traces of shard events: which event each
 * part of a turn adds in which state, given what the outside decided, and when
 * each part stops.
 */
module ThreadTrace {
  import opened Base
  import opened Geometry
  import opened LogicalRead
  import opened ShardMachine
  import opened ShardInvariant
  import opened CancelSteps
  import opened IntakeSteps
  import opened ShardTheorems
  import opened Frames

  const TURN_MESSAGES: nat := 64
  const TURN_COMPLETIONS: nat := 64
  const TURN_ALLOCATION_BYTES: nat := 8 * 1024 * 1024

  datatype TurnBudget = TurnBudget(messages: nat, completions: nat, allocationBytes: nat) {
    predicate CanTakeMessage() {
      messages < TURN_MESSAGES && allocationBytes < TURN_ALLOCATION_BYTES
    }

    predicate CanReap() {
      completions < TURN_COMPLETIONS
    }

    predicate ContinueWithoutWait(readyCqe: bool, queuedSubmission: bool, submitted: nat) {
      !CanTakeMessage() || !CanReap() || readyCqe || (queuedSubmission && submitted > 0)
    }
  }

  /** What the outside decides at one point of a turn. */
  datatype Choice = Choice(
    moves: seq<Event>,       // steps of callers and of the kernel
    block: nat, base: nat, aligns: bool,
    lateClose: bool, metaOk: bool,
    kernelWork: bool, result: SubmitResult,
    deadline: bool)

  // ---- the others ----

  /** Events of callers and of the kernel. */
  predicate Outside(e: Event) {
    || e.SendRead? || e.SendCancel? || e.SendShutdown? || e.DropSenders? || e.CloseReceiver? || e.OpenFile? || e.DropFile?
    || e.AcceptOne? || e.KernelWrite? || e.CompleteRead? || e.CompleteCancel?
  }

  function Moves(moves: seq<Event>): seq<Event>
    decreases |moves|
  {
    if moves == [] then []
    else
      var n := |moves| - 1;
      Moves(moves[..n]) + if Outside(moves[n]) then [moves[n]] else []
  }

  lemma NoMoves(moves: seq<Event>)
    ensures Moves(moves[..0]) == []
  {
  }

  lemma MovesSnoc(moves: seq<Event>, i: nat)
    requires i < |moves|
    ensures Moves(moves[..i + 1]) == if Outside(moves[i]) then Moves(moves[..i]) + [moves[i]] else Moves(moves[..i])
  {
    hide Outside;
    assert moves[..i + 1][..i] == moves[..i];
  }

  /** The thread's own variables are as before. */
  predicate SameDriver(s: Shard, t: Shard) {
    && t.pending == s.pending && t.backlog == s.backlog && t.queuedCancels == s.queuedCancels
    && t.shuttingDown == s.shuttingDown && t.errors == s.errors && t.phase == s.phase && t.stats == s.stats
  }

  lemma KernelTakes(s: Shard, e: Event)
    requires InRings(e) && !e.FlushOne?
    ensures |Next(s, e).sq| <= |s.sq|
  {
    hide LegalCompletion, Stored, Mapped;
  }

  /** The thread's own variables change only by its own steps, and nobody else fills its queue. */
  lemma OutsideLeavesDriver(s: Shard, e: Event)
    requires Outside(e)
    ensures SameDriver(s, Next(s, e)) && |Next(s, e).sq| <= |s.sq|
  {
    hide Next;
    if InRings(e) {
      RingFrame(s, e);
      KernelTakes(s, e);
    } else {
      CallerFrame(s, e);
    }
  }

  // ---- runs ----

  lemma NoSteps(s: Shard)
    ensures Run(s, []) == s
  {
  }

  lemma OneStep(s: Shard, e: Event)
    ensures Run(s, [e]) == Next(s, e)
  {
    hide Next;
    assert [e][..0] == [];
    assert Run(s, []) == s;
  }

  lemma RunSnoc(s: Shard, trace: seq<Event>, e: Event)
    ensures Run(s, trace + [e]) == Next(Run(s, trace), e)
  {
    hide Next;
    assert (trace + [e])[..|trace|] == trace;
  }

  // ---- taking one message ----

  /** The event with which the thread takes what is at the head of the queue. */
  predicate TakesMessage(s: Shard, c: Choice, e: Event)
    requires s.queue != []
  {
    match s.queue[0]
    case Read(_, _) => e.RecvRead? && e.block !in s.heap && e.base == c.base && e.aligns == c.aligns
    case Cancel(_) => e == RecvCancel
    case Shutdown => e.RecvShutdown? && Enumerates(e.order, s.pending.Keys)
  }

  /** The bytes it allocates: the charge of a read that is not refused outright. */
  function Allocates(s: Shard): nat
    requires s.queue != []
  {
    if s.queue[0].Read? && !s.shuttingDown then s.queue[0].args.charge else 0
  }

  lemma AdmitTakesHead(s: Shard, g: Region, block: nat, base: nat)
    requires s.queue != [] && s.queue[0].Read? && s.queue[0].args.align > 0
    ensures Admit(s, s.queue[0].id, s.queue[0].args, g, block, base).queue == s.queue[1..]
    ensures forall o :: Reject(s, o).queue == s.queue[1..]
  {
    hide Zeroes, ReadSqeOf, FdRefs, Referenced;
    forall o
      ensures Reject(s, o).queue == s.queue[1..]
    {
    }
  }

  /** Whatever the message, it leaves the queue. */
  lemma ReceiveTakesHead(s: Shard, c: Choice, e: Event)
    requires Inv(s) && s.phase.Running? && s.queue != [] && TakesMessage(s, c, e)
    ensures Next(s, e).queue == s.queue[1..]
  {
    hide Inv, DoRecvRead, DoRecvCancel, DoRecvShutdown, AlignedGeometry;
    match e
    case RecvRead(block, base, aligns) =>
      ReadIsUsable(s);
      ReadTakesHead(s, block, base, aligns);
    case RecvCancel => CancelTakesHead(s);
    case RecvShutdown(order) => ShutdownTakesHead(s, order);
  }

  lemma ReadTakesHead(s: Shard, block: nat, base: nat, aligns: bool)
    requires s.phase.Running? && s.queue != [] && s.queue[0].Read? && block !in s.heap
    requires var a := s.queue[0].args;
             a.align > 0 && a.offset < U64_RANGE && a.len < U64_RANGE && AlignedGeometry(a.offset, a.len, a.align).Some?
    ensures DoRecvRead(s, block, base, aligns).queue == s.queue[1..]
  {
    hide Admit, Reject, AlignedGeometry;
    var a := s.queue[0].args;
    AdmitTakesHead(s, AlignedGeometry(a.offset, a.len, a.align).value, block, base);
  }

  lemma CancelTakesHead(s: Shard)
    requires s.phase.Running? && s.queue != [] && s.queue[0].Cancel?
    ensures DoRecvCancel(s).queue == s.queue[1..]
  {
    hide QueueCancel;
    var id := s.queue[0].id;
    if id in s.pending {
      QueueCancelFrame(s.(queue := s.queue[1..], pending := s.pending[id := s.pending[id].(cancelRequested := true)]), id);
    }
  }

  lemma ShutdownTakesHead(s: Shard, order: seq<nat>)
    requires s.phase.Running? && s.queue != [] && s.queue[0].Shutdown? && Enumerates(order, s.pending.Keys)
    ensures DoRecvShutdown(s, order).queue == s.queue[1..]
  {
    hide CancelAll, Enumerates;
    CancelAllFrame(StartShutdown(s.(queue := s.queue[1..])), order);
  }

  lemma QueueHeadCharge(queue: seq<Msg>, requests: map<nat, Request>)
    requires QueueOk(queue, requests) && queue != [] && queue[0].Read?
    ensures var a := queue[0].args;
            && a.align > 0 && a.offset < U64_RANGE && a.len < U64_RANGE && AlignedGeometry(a.offset, a.len, a.align).Some?
            && a.charge == AlignedGeometry(a.offset, a.len, a.align).value.regionLen + a.align - 1
  {
    hide AlignedGeometry;
    var a := queue[0].args;
    if ValidArgs(a, true) {
      AcceptedArithmetic(a.offset, a.len, a.align, true, Limits(None, None));
    } else {
      AcceptedArithmetic(a.offset, a.len, a.align, false, Limits(None, None));
    }
  }

  /** An accepted read is charged exactly what its intake allocates. */
  lemma ChargeIsAllocation(s: Shard)
    requires QueueOk(s.queue, s.requests) && s.queue != [] && s.queue[0].Read?
    ensures var a := s.queue[0].args;
            && a.align > 0 && a.offset < U64_RANGE && a.len < U64_RANGE && AlignedGeometry(a.offset, a.len, a.align).Some?
            && a.charge == AlignedGeometry(a.offset, a.len, a.align).value.regionLen + a.align - 1
  {
    QueueHeadCharge(s.queue, s.requests);
  }

  lemma ReadIsUsable(s: Shard)
    requires Inv(s) && s.queue != [] && s.queue[0].Read?
    ensures var a := s.queue[0].args;
            && a.align > 0 && a.offset < U64_RANGE && a.len < U64_RANGE && AlignedGeometry(a.offset, a.len, a.align).Some?
            && a.charge == AlignedGeometry(a.offset, a.len, a.align).value.regionLen + a.align - 1
  {
    hide AlignedGeometry, EntriesOk, BlocksOwned, SqesMatch, OpsMatch, CqesMatch, FdsOk, CancelsOk, CreatedOk, Fifo, SendersOk;
    hide PhaseOk, ResultsOk, StatsOk, CostOk, OneTokenEach, QueueOk;
    ChargeIsAllocation(s);
  }

  // ---- bounded intake and bounded reap ----

  datatype Stage = Intaking | Reaping

  predicate Allows(stage: Stage, b: TurnBudget) {
    match stage case Intaking => b.CanTakeMessage() case Reaping => b.CanReap()
  }

  function Spent(stage: Stage, start: TurnBudget, left: TurnBudget): int {
    match stage case Intaking => left.messages - start.messages case Reaping => left.completions - start.completions
  }

  /** One round of a stage that found something to do, and what it cost. */
  ghost predicate Works(stage: Stage, s: Shard, c: Choice, t: seq<Event>, prev: TurnBudget, left: TurnBudget) {
    var moves := Moves(c.moves);
    var now := Run(s, moves);
    && Allows(stage, prev)
    && match stage
       case Intaking =>
         && now.queue != []
         && |t| == |moves| + 1 && t == moves + [t[|moves|]] && TakesMessage(now, c, t[|moves|])
         && left == TurnBudget(prev.messages + 1, prev.completions, prev.allocationBytes + Allocates(now))
       case Reaping =>
         && now.cq != []
         && t == moves + [Reap(c.lateClose, c.metaOk)]
         && left == TurnBudget(prev.messages, prev.completions + 1, prev.allocationBytes)
  }

  /** The look that found nothing. */
  ghost predicate Idles(stage: Stage, s: Shard, c: Choice, t: seq<Event>) {
    var moves := Moves(c.moves);
    match stage
    case Intaking => Run(s, moves).queue == [] && t == moves + [SeeDisconnect]
    case Reaping => Run(s, moves).cq == [] && t == moves
  }

  /** From position `k` on, the trace is one round. */
  ghost predicate LastRound(stage: Stage, s: Shard, t: seq<Event>, k: nat, c: Choice, prev: TurnBudget, left: TurnBudget) {
    k <= |t| && Works(stage, Run(s, t[..k]), c, t[k..], prev, left)
  }

  /** `n` working rounds in a row, one choice each, every one begun with budget left. */
  ghost predicate Rounds(stage: Stage, s: Shard, t: seq<Event>, oracle: nat -> Choice, from: nat, n: nat,
                         start: TurnBudget, left: TurnBudget)
    decreases n
  {
    if n == 0 then t == [] && left == start
    else
      var c := oracle(from + n - 1);
      exists k: nat, prev: TurnBudget ::
        LastRound(stage, s, t, k, c, prev, left) && Rounds(stage, s, t[..k], oracle, from, n - 1, start, prev)
  }

  /** A whole stage: it ends when the budget is spent, or at the first look that finds nothing. */
  ghost predicate Staged(stage: Stage, s: Shard, t: seq<Event>, oracle: nat -> Choice, from: nat, to: nat,
                         start: TurnBudget, left: TurnBudget) {
    exists k: nat, n: nat ::
      && k <= |t|
      && Rounds(stage, s, t[..k], oracle, from, n, start, left)
      && if Allows(stage, left) then Idles(stage, Run(s, t[..k]), oracle(from + n), t[k..]) && to == from + n + 1
         else k == |t| && to == from + n
  }

  lemma RoundsSnoc(stage: Stage, s: Shard, a: seq<Event>, b: seq<Event>, oracle: nat -> Choice, from: nat, n: nat,
                   start: TurnBudget, prev: TurnBudget, left: TurnBudget)
    requires Rounds(stage, s, a, oracle, from, n, start, prev)
    requires Works(stage, Run(s, a), oracle(from + n), b, prev, left)
    ensures Rounds(stage, s, a + b, oracle, from, n + 1, start, left)
  {
    hide Run, Works;
    var t, k := a + b, |a|;
    assert t[..k] == a && t[k..] == b;
    assert LastRound(stage, s, t, k, oracle(from + n), prev, left);
  }

  lemma StageIdle(stage: Stage, s: Shard, a: seq<Event>, b: seq<Event>, oracle: nat -> Choice, from: nat, n: nat,
                  start: TurnBudget, left: TurnBudget)
    requires Rounds(stage, s, a, oracle, from, n, start, left)
    requires Allows(stage, left) && Idles(stage, Run(s, a), oracle(from + n), b)
    ensures Staged(stage, s, a + b, oracle, from, from + n + 1, start, left)
  {
    hide Run, Idles, Allows, Rounds;
    var t, k := a + b, |a|;
    assert t[..k] == a && t[k..] == b;
    assert Rounds(stage, s, t[..k], oracle, from, n, start, left);
  }

  lemma StageSpent(stage: Stage, s: Shard, a: seq<Event>, oracle: nat -> Choice, from: nat, n: nat,
                   start: TurnBudget, left: TurnBudget)
    requires Rounds(stage, s, a, oracle, from, n, start, left) && !Allows(stage, left)
    ensures Staged(stage, s, a, oracle, from, from + n, start, left)
  {
    hide Run, Allows, Rounds;
    assert a[..|a|] == a;
    assert Rounds(stage, s, a[..|a|], oracle, from, n, start, left);
  }

  lemma NoRounds(stage: Stage, s: Shard, oracle: nat -> Choice, from: nat, start: TurnBudget)
    ensures Rounds(stage, s, [], oracle, from, 0, start, start)
  {
  }

  lemma WorkSpends(stage: Stage, s: Shard, c: Choice, t: seq<Event>, prev: TurnBudget, left: TurnBudget)
    requires Works(stage, s, c, t, prev, left)
    ensures Spent(stage, prev, left) == 1
  {
    hide Run, Moves, TakesMessage, Allocates;
  }

  lemma ReapIs(s: Shard, c: Choice)
    ensures Next(s, Reap(c.lateClose, c.metaOk)) == DoReap(s, c.lateClose, c.metaOk)
  {
    hide DoReap;
  }

  /** The rounds of a stage are what its budget counts, and no more than it allows. */
  lemma {:induction false} RoundsCount(stage: Stage, s: Shard, t: seq<Event>, oracle: nat -> Choice, from: nat, n: nat,
                                       start: TurnBudget, left: TurnBudget)
    requires Rounds(stage, s, t, oracle, from, n, start, left)
    ensures Spent(stage, start, left) == n
    ensures stage.Intaking? ==> left.completions == start.completions && left.messages <= start.messages + TURN_MESSAGES
    ensures stage.Reaping? ==> left == start.(completions := left.completions)
    ensures n > 0 ==> left.messages <= TURN_MESSAGES || stage.Reaping?
    ensures n > 0 ==> left.completions <= TURN_COMPLETIONS || stage.Intaking?
    decreases n
  {
    hide Run, Moves, TakesMessage, Allocates;
    if n > 0 {
      var c := oracle(from + n - 1);
      var k: nat, prev: TurnBudget :|
        LastRound(stage, s, t, k, c, prev, left) && Rounds(stage, s, t[..k], oracle, from, n - 1, start, prev);
      RoundsCount(stage, s, t[..k], oracle, from, n - 1, start, prev);
    }
  }

  // ---- a submission ----

  /** How many requests fit into the submission queue now. */
  function Flushable(s: Shard): nat {
    if |s.sq| >= s.sqCap then 0 else Min(|s.backlog|, s.sqCap - |s.sq|)
  }

  function Flushes(n: nat): seq<Event> {
    seq(n, _ => FlushOne)
  }

  /**
   * `submit_ring`: all that fits is flushed; the ring is entered if requests are
   * queued or the kernel has work of its own, and then the result is handled.
   * What is reported as submitted is what the kernel took in that call.
   */
  ghost predicate Submits(s: Shard, c: Choice, t: seq<Event>, submitted: nat) {
    var flush := Flushes(Flushable(s));
    var ready := Run(s, flush);
    var back := Run(ready, Moves(c.moves));
    if ready.sq != [] || c.kernelWork then
      && |t| > 0 && t == flush + Moves(c.moves) + [t[|t| - 1]]
      && t[|t| - 1].SubmitReturned? && t[|t| - 1].result == c.result && Enumerates(t[|t| - 1].order, back.pending.Keys)
      && submitted == (if c.result.EnterOk? then |ready.sq| - |back.sq| else 0)
    else t == flush && submitted == 0
  }

  lemma FlushedAll(s: Shard, sq: nat, backlog: nat, n: nat)
    requires sq == |s.sq| + n && |s.backlog| == backlog + n && (n > 0 ==> sq <= s.sqCap)
    requires backlog == 0 || sq >= s.sqCap
    ensures n == Flushable(s)
  {
  }

  lemma SubmitsNothing(s: Shard, c: Choice)
    requires Run(s, Flushes(Flushable(s))).sq == [] && !c.kernelWork
    ensures Submits(s, c, Flushes(Flushable(s)), 0)
  {
    hide Run, Flushes, Flushable, Moves, Enumerates;
  }

  lemma SubmitsEntered(s: Shard, c: Choice, order: seq<nat>, submitted: nat)
    requires var ready := Run(s, Flushes(Flushable(s)));
             var back := Run(ready, Moves(c.moves));
             && (ready.sq != [] || c.kernelWork)
             && Enumerates(order, back.pending.Keys)
             && submitted == if c.result.EnterOk? then |ready.sq| - |back.sq| else 0
    ensures var ready := Run(s, Flushes(Flushable(s)));
            var t := Flushes(Flushable(s)) + Moves(c.moves) + [SubmitReturned(c.result, order)];
            && Submits(s, c, t, submitted)
            && Run(s, t) == DoSubmitReturned(Run(ready, Moves(c.moves)), c.result, order)
  {
    hide Run, Flushes, Flushable, Moves, Enumerates, DoSubmitReturned;
    var flush, moves, e := Flushes(Flushable(s)), Moves(c.moves), SubmitReturned(c.result, order);
    RunAppend(s, flush, moves);
    RunSnoc(s, flush + moves, e);
    assert (flush + moves + [e])[|flush + moves|] == e;
  }

  // ---- leaving ----

  /** A clean exit when drained, a leaking one when the deadline has passed, else none. */
  ghost predicate Leaves(s: Shard, c: Choice, t: seq<Event>) {
    if s.shuttingDown && s.pending == map[] && s.backlog == [] then t == [ExitDrained]
    else if s.shuttingDown && c.deadline then
      |t| == 1 && t[0].ExitLeaked? && Enumerates(t[0].order, s.pending.Keys)
    else t == []
  }

  // ---- a turn ----

  /** A turn: the trace of each part, the choices it used, and what it ended with. */
  datatype TurnLog = TurnLog(
    from: nat, reapFrom: nat, leaveAt: nat,
    intake: seq<Event>, first: seq<Event>, reap: seq<Event>, second: seq<Event>, leave: seq<Event>,
    taken: TurnBudget, left: TurnBudget, before: nat, after: nat, goOn: bool)

  function Whole(p: TurnLog): seq<Event> {
    p.intake + p.first + p.reap + p.second + p.leave
  }

  /** The states between the parts of a turn. */
  function AfterIntake(s: Shard, p: TurnLog): Shard { Run(s, p.intake) }
  function AfterFirst(s: Shard, p: TurnLog): Shard { Run(AfterIntake(s, p), p.first) }
  function AfterReap(s: Shard, p: TurnLog): Shard { Run(AfterFirst(s, p), p.reap) }
  function AfterSecond(s: Shard, p: TurnLog): Shard { Run(AfterReap(s, p), p.second) }
  function AfterTurn(s: Shard, p: TurnLog): Shard { Run(AfterSecond(s, p), p.leave) }

  /** One turn of the loop, part by part. */
  ghost predicate TurnDid(s: Shard, p: TurnLog, oracle: nat -> Choice) {
    && p.from <= p.reapFrom - 1 && p.reapFrom <= p.leaveAt - 1
    && Staged(Intaking, s, p.intake, oracle, p.from, p.reapFrom - 1, TurnBudget(0, 0, 0), p.taken)
    && Submits(AfterIntake(s, p), oracle(p.reapFrom - 1), p.first, p.before)
    && Staged(Reaping, AfterFirst(s, p), p.reap, oracle, p.reapFrom, p.leaveAt - 1, p.taken, p.left)
    && Submits(AfterReap(s, p), oracle(p.leaveAt - 1), p.second, p.after)
    && Leaves(AfterSecond(s, p), oracle(p.leaveAt), p.leave)
    && var t := AfterTurn(s, p);
       p.goOn == p.left.ContinueWithoutWait(t.cq != [], t.backlog != [] || t.sq != [], p.before + p.after)
  }

  lemma WholeRuns(s: Shard, p: TurnLog)
    ensures Run(s, Whole(p)) == AfterTurn(s, p)
  {
    hide Run;
    RunAppend(s, p.intake, p.first);
    RunAppend(s, p.intake + p.first, p.reap);
    RunAppend(s, p.intake + p.first + p.reap, p.second);
    RunAppend(s, p.intake + p.first + p.reap + p.second, p.leave);
  }

  /** The parts in a row are a turn. */
  lemma TurnIs(s: Shard, p: TurnLog, oracle: nat -> Choice, end: Shard)
    requires p.from <= p.reapFrom - 1 && p.reapFrom <= p.leaveAt - 1
    requires Staged(Intaking, s, p.intake, oracle, p.from, p.reapFrom - 1, TurnBudget(0, 0, 0), p.taken)
    requires Submits(Run(s, p.intake), oracle(p.reapFrom - 1), p.first, p.before)
    requires var s2 := Run(Run(s, p.intake), p.first);
             && Staged(Reaping, s2, p.reap, oracle, p.reapFrom, p.leaveAt - 1, p.taken, p.left)
             && Submits(Run(s2, p.reap), oracle(p.leaveAt - 1), p.second, p.after)
             && Leaves(Run(Run(s2, p.reap), p.second), oracle(p.leaveAt), p.leave)
             && end == Run(Run(Run(s2, p.reap), p.second), p.leave)
    requires p.goOn == p.left.ContinueWithoutWait(end.cq != [], end.backlog != [] || end.sq != [], p.before + p.after)
    ensures TurnDid(s, p, oracle) && Run(s, Whole(p)) == end
  {
    hide Staged, Submits, Leaves, Run;
    WholeRuns(s, p);
  }

  lemma LeaveSteps(s: Shard, order: seq<nat>)
    ensures Run(s, [ExitDrained]) == DoExitDrained(s) && Run(s, [ExitLeaked(order)]) == DoExitLeaked(s, order)
  {
    hide Run, DoExitDrained, DoExitLeaked;
    OneStep(s, ExitDrained);
    OneStep(s, ExitLeaked(order));
  }

  lemma DisconnectIs(s: Shard)
    ensures Next(s, SeeDisconnect) == DoSeeDisconnect(s)
  {
    hide DoSeeDisconnect;
  }

  /** A stage with budget left over ended on an empty queue. */
  lemma StageSawEmpty(stage: Stage, s: Shard, t: seq<Event>, oracle: nat -> Choice, from: nat, to: nat,
                      start: TurnBudget, left: TurnBudget)
    requires Staged(stage, s, t, oracle, from, to, start, left) && Allows(stage, left)
    ensures stage.Intaking? ==>
              var u := Run(s, t); u.queue == [] && (u.phase.Running? && !u.senders ==> u.shuttingDown)
    ensures stage.Reaping? ==> Run(s, t).cq == []
  {
    hide Run, Rounds, Moves;
    var k: nat, n: nat :|
      && k <= |t|
      && Rounds(stage, s, t[..k], oracle, from, n, start, left)
      && Idles(stage, Run(s, t[..k]), oracle(from + n), t[k..]) && to == from + n + 1;
    assert t == t[..k] + t[k..];
    RunAppend(s, t[..k], t[k..]);
    if stage.Intaking? {
      var before, moves := Run(s, t[..k]), Moves(oracle(from + n).moves);
      RunSnoc(before, moves, SeeDisconnect);
      DisconnectIs(Run(before, moves));
    }
  }

  lemma StageCount(stage: Stage, s: Shard, t: seq<Event>, oracle: nat -> Choice, from: nat, to: nat,
                   start: TurnBudget, left: TurnBudget)
    requires Staged(stage, s, t, oracle, from, to, start, left)
    ensures stage.Intaking? ==> left.completions == start.completions
    ensures stage.Reaping? ==> left == start.(completions := left.completions)
  {
    hide Run, Rounds, Idles, Allows;
    var k: nat, n: nat :| k <= |t| && Rounds(stage, s, t[..k], oracle, from, n, start, left);
    RoundsCount(stage, s, t[..k], oracle, from, n, start, left);
  }

  /**
   * The thread goes to sleep only after a turn whose intake ended on an empty
   * channel, with a disconnect noticed, whose reap ended on an empty completion
   * queue, and at whose end none is ready.
   */
  lemma BlocksOnlyWhenEmpty(s: Shard, p: TurnLog, oracle: nat -> Choice)
    requires TurnDid(s, p, oracle) && !p.goOn
    ensures AfterIntake(s, p).queue == []
    ensures AfterIntake(s, p).phase.Running? && !AfterIntake(s, p).senders ==> AfterIntake(s, p).shuttingDown
    ensures AfterReap(s, p).cq == [] && AfterTurn(s, p).cq == []
  {
    hide Staged, Submits, Leaves, Run;
    StageCount(Reaping, AfterFirst(s, p), p.reap, oracle, p.reapFrom, p.leaveAt - 1, p.taken, p.left);
    StageSawEmpty(Intaking, s, p.intake, oracle, p.from, p.reapFrom - 1, TurnBudget(0, 0, 0), p.taken);
    StageSawEmpty(Reaping, AfterFirst(s, p), p.reap, oracle, p.reapFrom, p.leaveAt - 1, p.taken, p.left);
  }

  // ---- whole loops ----

  /** Everything a whole number of turns did. */
  function Flat(log: seq<TurnLog>): seq<Event>
    decreases |log|
  {
    if log == [] then [] else Flat(log[..|log| - 1]) + Whole(log[|log| - 1])
  }

  /** The choice with which the turn after these begins. */
  function NextFrom(log: seq<TurnLog>): nat {
    if log == [] then 0 else log[|log| - 1].leaveAt + 1
  }

  /** Turns one after the other, each beginning where the one before ended. */
  ghost predicate TurnsDid(s: Shard, log: seq<TurnLog>, oracle: nat -> Choice)
    decreases |log|
  {
    log == [] ||
    var init, last := log[..|log| - 1], log[|log| - 1];
    TurnsDid(s, init, oracle) && TurnDid(Run(s, Flat(init)), last, oracle) && last.from == NextFrom(init)
  }

  lemma TurnsSnoc(s: Shard, log: seq<TurnLog>, p: TurnLog, oracle: nat -> Choice)
    requires TurnsDid(s, log, oracle) && TurnDid(Run(s, Flat(log)), p, oracle) && p.from == NextFrom(log)
    ensures TurnsDid(s, log + [p], oracle) && Run(s, Flat(log + [p])) == Run(Run(s, Flat(log)), Whole(p))
  {
    hide TurnDid, Run, Whole;
    assert (log + [p])[..|log|] == log;
    RunAppend(s, Flat(log), Whole(p));
  }
}
