/**
 * The driver thread itself (`drive`, `submit_ring`, `flush_backlog`,
 * `queue_cancel`): its local variables are the fields, its loops are loops, and
 * each method is the part of a turn that `ThreadTrace` describes.
 */
module DriverThread {
  import opened Base
  import opened Geometry
  import opened LogicalRead
  import opened ShardMachine
  import opened ShardInvariant
  import opened CancelSteps
  import opened IntakeSteps
  import opened ReapSteps
  import opened ShardTheorems
  import opened ThreadTrace
  import opened ThreadEffects

  /** The entries whose senders were taken so far. */
  function Silenced(pending: map<nat, Pending>, order: seq<nat>): map<nat, Pending> {
    map id | id in pending :: if id in order then pending[id].(hasSender := false) else pending[id]
  }

  lemma SilenceOneMore(pending: map<nat, Pending>, order: seq<nat>, i: nat)
    requires i < |order| && Enumerates(order, pending.Keys)
    ensures var m := Silenced(pending, order[..i]);
            order[i] in m && Silenced(pending, order[..i + 1]) == m[order[i] := m[order[i]].(hasSender := false)]
  {
    EnumerationIsPending(order, pending.Keys);
    assert order[..i + 1] == order[..i] + [order[i]];
  }

  lemma SilencedEnds(pending: map<nat, Pending>, order: seq<nat>)
    requires Enumerates(order, pending.Keys)
    ensures Silenced(pending, order[..0]) == pending
    ensures Silenced(pending, order) == Senderless(pending)
  {
    EnumerationIsPending(order, pending.Keys);
  }

  lemma NothingLeaked(results: seq<Resolution>, closed: set<nat>)
    ensures results + LeakResults([], closed) == results
  {
  }

  lemma LeakOneMore(order: seq<nat>, i: nat, closed: set<nat>)
    requires i < |order|
    ensures LeakResults(order[..i + 1], closed)
            == LeakResults(order[..i], closed) + [Resolution(order[i], LeakedAtExit, order[i] !in closed)]
  {
  }

  /** Some iteration order of a hash table. */
  method Enumerate(ids: set<nat>) returns (order: seq<nat>)
    ensures Enumerates(order, ids)
  {
    order := [];
    var rest := ids;
    while rest != {}
      invariant rest <= ids && multiset(order) == multiset(ids - rest)
      decreases |rest|
    {
      var id :| id in rest;
      order := order + [id];
      assert ids - (rest - {id}) == (ids - rest) + {id};
      rest := rest - {id};
    }
    assert ids - {} == ids;
  }

  /** An allocator that returns some block not in use. */
  method Allocate(used: set<nat>, hint: nat) returns (block: nat)
    ensures block !in used
  {
    block := hint;
    var rest := used;
    while block in rest
      invariant rest <= used
      invariant forall x :: x in used && x !in rest ==> x < block
      decreases |rest|
    {
      rest := rest - {block};
      block := block + 1;
    }
  }

  class Thread {
    const oracle: nat -> Choice
    var tick: nat
    var world: Shard
    var pending: map<nat, Pending>
    var backlog: seq<Sqe>
    var queuedCancels: set<nat>
    var shuttingDown: bool
    var errors: nat
    var stats: Stats
    var phase: Phase

    /** The shard's state: the thread's variables, and everything else in `world`. */
    function View(): Shard
      reads this
    {
      world.(pending := pending, backlog := backlog, queuedCancels := queuedCancels, shuttingDown := shuttingDown,
             errors := errors, stats := stats, phase := phase)
    }

    constructor (sqCap: nat, oracle: nat -> Choice)
      ensures View() == Init(sqCap) && this.oracle == oracle && tick == 0
    {
      this.oracle := oracle;
      tick, world := 0, Init(sqCap);
      pending, backlog, queuedCancels, shuttingDown, errors := map[], [], {}, false, 0;
      stats, phase := Stats(0, 0, 0, 0, 0, 0, 0, 0), Running;
    }

    method Choose() returns (choice: Choice)
      modifies `tick
      ensures View() == old(View()) && choice == oracle(old(tick)) && tick == old(tick) + 1
    {
      choice := oracle(tick);
      tick := tick + 1;
    }

    /** One event of the others. */
    method Move(e: Event, ghost start: Shard, ghost trace: seq<Event>)
      requires Outside(e) && View() == Run(start, trace)
      modifies `world
      ensures View() == Run(start, trace + [e])
      ensures |world.sq| <= |old(world.sq)|
    {
      OutsideLeavesDriver(View(), e);
      RunSnoc(start, trace, e);
      hide Next, Run;
      world := Next(View(), e);
    }

    /** Callers and the kernel move between two statements of the thread. */
    method Interfere(moves: seq<Event>)
      modifies `world
      ensures View() == Run(old(View()), Moves(moves))
      ensures |world.sq| <= |old(world.sq)|
    {
      hide Next, Run, Outside, Moves;
      ghost var start := View();
      hide View;
      NoSteps(start);
      NoMoves(moves);
      for i := 0 to |moves|
        invariant View() == Run(start, Moves(moves[..i]))
        invariant |world.sq| <= |old(world.sq)|
      {
        MovesSnoc(moves, i);
        if Outside(moves[i]) {
          Move(moves[i], start, Moves(moves[..i]));
        }
      }
      assert moves[..|moves|] == moves;
    }

    // ---- submitting ----

    method FlushHead(ghost start: Shard, ghost n: nat)
      requires phase.Running? && backlog != [] && |world.sq| < world.sqCap && View() == Run(start, Flushes(n))
      modifies `world, `backlog
      ensures View() == Run(start, Flushes(n + 1))
      ensures |world.sq| == |old(world.sq)| + 1 && |backlog| == |old(backlog)| - 1 && world.sqCap == old(world.sqCap)
      ensures world.sq + backlog == old(world.sq) + old(backlog)
    {
      hide Run;
      RunSnoc(start, Flushes(n), FlushOne);
      assert Flushes(n + 1) == Flushes(n) + [FlushOne];
      hide Flushes;
      world := world.(sq := world.sq + [backlog[0]]);
      backlog := backlog[1..];
    }

    /** `flush_backlog`: move requests into the submission queue while they fit. */
    method FlushBacklog()
      requires phase.Running?
      modifies `world, `backlog
      ensures View() == Run(old(View()), Flushes(Flushable(old(View()))))
      ensures world.sq + backlog == old(world.sq) + old(backlog) && |world.sq| >= |old(world.sq)|
      ensures backlog == [] || |world.sq| >= world.sqCap
      ensures |world.sq| > |old(world.sq)| ==> |world.sq| <= world.sqCap
    {
      ghost var n, start := 0, View();
      hide Next, Run, Flushable;
      NoSteps(start);
      assert Flushes(0) == [];
      hide Flushes;
      while backlog != [] && |world.sq| < world.sqCap
        invariant View() == Run(start, Flushes(n))
        invariant world.sqCap == start.sqCap
        invariant n == |world.sq| - |start.sq| == |start.backlog| - |backlog|
        invariant n > 0 ==> |world.sq| <= world.sqCap
        invariant world.sq + backlog == old(world.sq) + old(backlog)
        decreases |backlog|
      {
        FlushHead(start, n);
        n := n + 1;
      }
      FlushedAll(start, |world.sq|, |backlog|, n);
    }

    /** `queue_cancel`. */
    method PushCancel(id: nat)
      modifies `world, `backlog, `queuedCancels
      ensures View() == QueueCancel(old(View()), id)
    {
      if id !in queuedCancels {
        queuedCancels := queuedCancels + {id};
        backlog := backlog + [CancelSqe(id)];
        world := world.(created := world.created + [CancelSqe(id)]);
      }
    }

    /** Cancel every pending read, in whatever order the table yields them. */
    method CancelPending(order: seq<nat>)
      modifies `world, `backlog, `queuedCancels
      ensures View() == CancelAll(old(View()), order)
    {
      hide QueueCancel;
      for i := 0 to |order|
        invariant CancelAll(View(), order[i..]) == CancelAll(old(View()), order)
      {
        assert order[i..][1..] == order[i + 1..];
        PushCancel(order[i]);
      }
    }

    method NoteFailure()
      modifies `errors, `stats
      ensures View() == CountFailure(old(View())) && errors == old(errors) + 1
    {
      stats := stats.(submitErrors := stats.submitErrors + 1);
      errors := errors + 1;
    }

    method BeginDrain()
      modifies `shuttingDown
      ensures View() == StartShutdown(old(View()))
    {
      shuttingDown := true;
    }

    /** `handle_submit_result`, with the sweep its callback makes. */
    method HandleSubmitResult(result: SubmitResult) returns (ghost order: seq<nat>)
      requires phase.Running?
      modifies `world, `backlog, `queuedCancels, `shuttingDown, `errors, `stats
      ensures Enumerates(order, old(pending.Keys)) && View() == DoSubmitReturned(old(View()), result, order)
    {
      hide CancelAll, CountFailure, StartShutdown, Enumerates;
      var ids := Enumerate(pending.Keys);
      order := ids;
      match result
      case EnterOk => errors := 0;
      case EnterErr(errno) =>
        if errno == Some(EBUSY) || errno == Some(EINTR) {
          errors := 0;
        } else {
          NoteFailure();
          if !shuttingDown && errors >= MAX_CONSECUTIVE_SUBMIT_ERRORS {
            BeginDrain();
            CancelPending(ids);
          }
        }
    }

    /** The system call: the kernel moves, then its result is classified. */
    method Enter(c: Choice) returns (ghost order: seq<nat>, submitted: nat)
      requires phase.Running?
      modifies `world, `backlog, `queuedCancels, `shuttingDown, `errors, `stats
      ensures var back := Run(old(View()), Moves(c.moves));
              && Enumerates(order, back.pending.Keys)
              && View() == DoSubmitReturned(back, c.result, order)
              && |back.sq| <= |old(View()).sq|
              && submitted == if c.result.EnterOk? then |old(View()).sq| - |back.sq| else 0
    {
      hide Run, Moves, Enumerates, DoSubmitReturned;
      var queued := |world.sq|;
      Interfere(c.moves);
      submitted := if c.result.EnterOk? then queued - |world.sq| else 0;
      order := HandleSubmitResult(c.result);
    }

    /**
     * `submit_ring`: the single submit path. The system call is skipped when the
     * queue is empty and the kernel has no completion work of its own.
     */
    method SubmitRing() returns (ghost trace: seq<Event>, submitted: nat)
      requires phase.Running?
      modifies `world, `tick, `backlog, `queuedCancels, `shuttingDown, `errors, `stats
      ensures View() == Run(old(View()), trace) && Submits(old(View()), oracle(old(tick)), trace, submitted)
      ensures tick == old(tick) + 1
    {
      hide Run, Flushes, Flushable, Moves, Enumerates, DoSubmitReturned, Submits;
      ghost var start := View();
      FlushBacklog();
      var c := Choose();
      ghost var ready := View();
      submitted := 0;
      trace := Flushes(Flushable(start));
      if world.sq != [] || c.kernelWork {
        ghost var order;
        order, submitted := Enter(c);
        trace := trace + Moves(c.moves) + [SubmitReturned(c.result, order)];
        SubmitsEntered(start, c, order, submitted);
      } else {
        SubmitsNothing(start, c);
      }
    }

    // ---- intake ----

    /** The sender of `id` is used, and files nobody holds any more are closed. */
    method SendAndDrop(id: nat, outcome: Outcome)
      modifies `world
      ensures View() == CloseUnreferenced(Resolve(old(View()), id, outcome))
    {
      world := world.(results := world.results + [Resolution(id, outcome, id !in world.closed)],
                      fds := Referenced(world.fds, FdRefs(world.callerFds, world.queue, pending)));
    }

    /** The head of the queue is refused; its permit goes with the message. */
    method RejectHead(outcome: Outcome)
      requires world.queue != [] && world.queue[0].Read?
      modifies `world
      ensures View() == Reject(old(View()), outcome)
    {
      hide FdRefs, Referenced;
      var id := world.queue[0].id;
      world := world.(queue := world.queue[1..]);
      SendAndDrop(id, outcome);
    }

    /** The buffer moves into the table first; the request is built from the entry. */
    method InsertHead(g: Region, block: nat, base: nat)
      requires world.queue != [] && world.queue[0].Read? && world.queue[0].args.align > 0
      modifies `world, `pending, `backlog, `stats
      ensures View() == Admit(old(View()), old(world.queue[0].id), old(world.queue[0].args), g, block, base)
    {
      var m := world.queue[0];
      var p := NewEntry(m.args, g, block, base);
      var sqe := ReadSqeOf(p, m.id);
      pending := pending[m.id := p];
      stats := stats.(submitted := stats.submitted + 1, inFlight := stats.inFlight + 1);
      backlog := backlog + [sqe];
      world := world.(queue := world.queue[1..],
                      heap := world.heap[block := Block(base, Zeroes(g.regionLen + m.args.align - 1))],
                      created := world.created + [sqe]);
    }

    /** Intake of one read: refuse it while draining, else allocate and enter it if it aligns. */
    method IntakeRead(c: Choice) returns (ghost block: nat, cost: nat)
      requires phase.Running? && world.queue != [] && world.queue[0].Read? && Inv(View())
      modifies `world, `pending, `backlog, `stats
      ensures block !in old(world.heap) && View() == DoRecvRead(old(View()), block, c.base, c.aligns)
      ensures TakesRead(old(View()), View(), block, c.base, c.aligns)
      ensures cost == Allocates(old(View()))
    {
      hide Inv, AlignedGeometry, Admit, Reject, TakesRead;
      var m := world.queue[0];
      var found := Allocate(world.heap.Keys, c.block);
      block, cost := found, 0;
      ReadIsUsable(View());
      IntakeReadIs(View(), block, c.base, c.aligns);
      if shuttingDown {
        RejectHead(ShuttingDown);
      } else {
        var g := AlignedGeometry(m.args.offset, m.args.len, m.args.align).value;
        cost := g.regionLen + m.args.align - 1;
        if c.aligns {
          InsertHead(g, found, c.base);
        } else {
          RejectHead(CannotAlign);
        }
      }
    }

    /** Intake of a cancel. */
    method IntakeCancel()
      requires phase.Running? && world.queue != [] && world.queue[0].Cancel?
      modifies `world, `pending, `backlog, `queuedCancels
      ensures View() == DoRecvCancel(old(View())) && TakesCancel(old(View()), View())
    {
      hide QueueCancel, TakesCancel;
      IntakeCancelIs(View());
      var id := world.queue[0].id;
      world := world.(queue := world.queue[1..]);
      if id in pending {
        pending := pending[id := pending[id].(cancelRequested := true)];
        PushCancel(id);
      }
    }

    /** Intake of a shutdown request. */
    method IntakeShutdown() returns (ghost order: seq<nat>)
      requires phase.Running? && world.queue != [] && world.queue[0].Shutdown?
      modifies `world, `backlog, `queuedCancels, `shuttingDown
      ensures Enumerates(order, old(pending.Keys)) && View() == DoRecvShutdown(old(View()), order)
      ensures Sweeps(old(View()).(queue := old(world.queue)[1..]), View(), Cancels(order, old(queuedCancels)))
    {
      hide CancelAll, Enumerates, Sweeps, Cancels;
      var ids := Enumerate(pending.Keys);
      order := ids;
      IntakeShutdownIs(View(), order);
      world := world.(queue := world.queue[1..]);
      shuttingDown := true;
      CancelPending(ids);
    }

    /** One message, whatever it is. */
    method IntakeOne(c: Choice) returns (ghost e: Event, cost: nat)
      requires phase.Running? && world.queue != [] && Inv(View())
      modifies `world, `pending, `backlog, `queuedCancels, `shuttingDown, `stats
      ensures View() == Next(old(View()), e) && TakesMessage(old(View()), c, e)
      ensures cost == Allocates(old(View()))
    {
      hide Inv, Enumerates, DoRecvRead, DoRecvCancel, DoRecvShutdown;
      cost := 0;
      match world.queue[0]
      case Read(_, _) =>
        ghost var block: nat;
        block, cost := IntakeRead(c);
        e := RecvRead(block, c.base, c.aligns);
      case Cancel(_) =>
        IntakeCancel();
        e := RecvCancel;
      case Shutdown =>
        ghost var order := IntakeShutdown();
        e := RecvShutdown(order);
    }

    /** The channel is empty; a disconnected one starts the shutdown. */
    method SeeEmpty()
      requires phase.Running? && world.queue == []
      modifies `shuttingDown
      ensures View() == Next(old(View()), SeeDisconnect)
    {
      DisconnectIs(View());
      hide Next;
      if !world.senders {
        shuttingDown := true;
      }
    }

    /** The others move, and then one message is taken, or the channel is seen empty. */
    method IntakeNext(prev: TurnBudget) returns (ghost step: seq<Event>, more: bool, left: TurnBudget)
      requires phase.Running? && Inv(View()) && prev.CanTakeMessage()
      modifies `world, `tick, `pending, `backlog, `queuedCancels, `shuttingDown, `stats
      ensures View() == Run(old(View()), step) && Inv(View()) && tick == old(tick) + 1
      ensures if more then Works(Intaking, old(View()), oracle(old(tick)), step, prev, left)
              else left == prev && Idles(Intaking, old(View()), oracle(old(tick)), step)
    {
      hide Inv, Run, Next, Moves, TakesMessage, Allocates;
      ghost var start := View();
      var c := Choose();
      Interfere(c.moves);
      RunKeepsInv(start, Moves(c.moves));
      ghost var now := View();
      more, left := world.queue != [], prev;
      if more {
        ghost var e: Event;
        var cost: nat;
        e, cost := IntakeOne(c);
        left := TurnBudget(prev.messages + 1, prev.completions, prev.allocationBytes + cost);
        step := Moves(c.moves) + [e];
        RunSnoc(start, Moves(c.moves), e);
      } else {
        SeeEmpty();
        step := Moves(c.moves) + [SeeDisconnect];
        RunSnoc(start, Moves(c.moves), SeeDisconnect);
      }
      RunKeepsInv(start, step);
    }

    /** Bounded intake. */
    method Intake() returns (ghost trace: seq<Event>, left: TurnBudget)
      requires phase.Running? && Inv(View())
      modifies `world, `tick, `pending, `backlog, `queuedCancels, `shuttingDown, `stats
      ensures View() == Run(old(View()), trace) && Inv(View())
      ensures Staged(Intaking, old(View()), trace, oracle, old(tick), tick, TurnBudget(0, 0, 0), left) && tick >= old(tick)
    {
      hide Inv, Run, Rounds, Works, Idles, Staged;
      ghost var start, n := View(), 0;
      hide View;
      trace, left := [], TurnBudget(0, 0, 0);
      NoSteps(start);
      NoRounds(Intaking, start, oracle, old(tick), left);
      while left.CanTakeMessage()
        invariant View() == Run(start, trace) && Inv(View()) && tick == old(tick) + n && phase.Running?
        invariant Rounds(Intaking, start, trace, oracle, old(tick), n, TurnBudget(0, 0, 0), left)
        decreases TURN_MESSAGES - left.messages
      {
        ghost var step: seq<Event>, prev := [], left;
        var more: bool;
        step, more, left := IntakeNext(left);
        RunAppend(start, trace, step);
        if !more {
          StageIdle(Intaking, start, trace, step, oracle, old(tick), n, TurnBudget(0, 0, 0), left);
          trace := trace + step;
          return;
        }
        WorkSpends(Intaking, Run(start, trace), oracle(tick - 1), step, prev, left);
        RoundsSnoc(Intaking, start, trace, step, oracle, old(tick), n, TurnBudget(0, 0, 0), prev, left);
        trace, n := trace + step, n + 1;
      }
      StageSpent(Intaking, start, trace, oracle, old(tick), n, TurnBudget(0, 0, 0), left);
    }

    // ---- reap ----

    /** The entry goes, and with it the buffer and the permit. */
    method RemovePending(id: nat)
      requires id in pending
      modifies `world, `pending, `queuedCancels, `stats
      ensures View() == RemoveEntry(old(View()), id)
    {
      var observed := id !in world.closed;
      world := world.(heap := world.heap - {pending[id].block});
      pending := pending - {id};
      stats := stats.(delivered := stats.delivered + (if observed then 1 else 0),
                      orphans := stats.orphans + (if observed then 0 else 1),
                      inFlight := stats.inFlight - 1);
      queuedCancels := queuedCancels - {id};
    }

    /** The final completion: entry, buffer and permit released, result sent, file dropped. */
    method FinishRead(id: nat, outcome: Outcome)
      requires id in pending
      modifies `world, `pending, `queuedCancels, `stats
      ensures View() == FinishEntry(old(View()), id, outcome)
    {
      hide CloseUnreferenced, Resolve, RemoveEntry;
      RemovePending(id);
      SendAndDrop(id, outcome);
    }

    /** The read goes on: the entry is updated and its next request queued. */
    method ContinueRead(id: nat, q: Pending)
      requires id in pending && q.nread <= q.regionLen
      modifies `world, `pending, `backlog
      ensures View() == Resubmitted(old(View()), id, q)
    {
      var sqe := ReadSqeOf(q, id);
      pending := pending[id := q];
      backlog := backlog + [sqe];
      world := world.(created := world.created + [sqe]);
    }

    method NoteLateClose(id: nat, lateClose: bool)
      modifies `world
      ensures View() == CloseLate(old(View()), id, lateClose)
    {
      world := world.(closed := if lateClose then world.closed + {id} else world.closed);
    }

    /** What one read completion does to its entry. */
    method ReapPending(id: nat, res: int, lateClose: bool, metaOk: bool)
      requires id in pending
      requires var p := pending[id];
               && p.block in world.heap && p.fd in world.fds && p.Shaped(|world.heap[p.block].bytes|)
               && (res > 0 ==> p.nread + res <= p.regionLen)
      modifies `world, `pending, `backlog, `queuedCancels, `stats
      ensures View() == ReapEntry(old(View()), id, res, lateClose, metaOk)
    {
      hide FinishEntry, ReapRead, Resubmitted, CloseLate, ReapEntry;
      ReapEntryIs(View(), id, res, lateClose, metaOk);
      var p := pending[id];
      var fileLen := if metaOk then Some(|world.fds[p.fd]|) else None;
      var r := ReapRead(p, res, shuttingDown, fileLen, world.heap[p.block].bytes, id !in world.closed);
      match r.1
      case Resubmit =>
        ContinueRead(id, r.0);
      case Finish(outcome) =>
        NoteLateClose(id, lateClose);
        FinishRead(id, outcome);
    }

    /** The answer to a cancel is counted. */
    method ReapCancel()
      requires phase.Running? && world.cq != [] && world.cq[0].ud >= CANCEL_BIT
      modifies `world, `stats
      ensures View() == old(View()).(cq := old(world.cq)[1..], stats := CountCancel(old(stats), old(world.cq)[0].res))
    {
      hide CountCancel;
      stats := CountCancel(stats, world.cq[0].res);
      world := world.(cq := world.cq[1..]);
    }

    method PopHead()
      requires world.cq != []
      modifies `world
      ensures View() == PopCqe(old(View())) && world == old(world).(cq := old(world.cq)[1..])
    {
      world := world.(cq := world.cq[1..]);
    }

    /** One completion is consumed, of a read or of a cancel. */
    method ReapOne(c: Choice)
      requires phase.Running? && world.cq != [] && Inv(View())
      modifies `world, `pending, `backlog, `queuedCancels, `stats
      ensures View() == DoReap(old(View()), c.lateClose, c.metaOk)
      ensures old(world.cq[0].ud) < CANCEL_BIT ==>
                HasEntry(old(View())) && Completes(old(View()), View(), c.lateClose, c.metaOk)
    {
      hide Inv, ReapEntry, EntryOk, CqeMatches, CountCancel, PopCqe, HasEntry, Completes;
      var cqe := world.cq[0];
      if cqe.ud < CANCEL_BIT {
        ReapReadIs(View(), c.lateClose, c.metaOk);
      }
      if cqe.ud >= CANCEL_BIT {
        ReapCancel();
      } else {
        HeadCompletion(View());
        EntryIsUsable(cqe.ud, pending[cqe.ud], world.requests[cqe.ud], world.heap);
        CqeIsUsable(cqe, pending, world.requests, world.heap);
        PopHead();
        ReapPending(cqe.ud, cqe.res, c.lateClose, c.metaOk);
      }
    }

    /** The others move, and then one completion is consumed, or none is there. */
    method ReapNext(prev: TurnBudget) returns (ghost step: seq<Event>, more: bool, left: TurnBudget)
      requires phase.Running? && Inv(View()) && prev.CanReap()
      modifies `world, `tick, `pending, `backlog, `queuedCancels, `stats
      ensures View() == Run(old(View()), step) && Inv(View()) && tick == old(tick) + 1
      ensures if more then Works(Reaping, old(View()), oracle(old(tick)), step, prev, left)
              else left == prev && Idles(Reaping, old(View()), oracle(old(tick)), step)
    {
      hide Inv, Run, Next, Moves, DoReap;
      ghost var start := View();
      var c := Choose();
      Interfere(c.moves);
      step := Moves(c.moves);
      RunKeepsInv(start, step);
      more, left := world.cq != [], prev;
      if more {
        ghost var now := View();
        ReapOne(c);
        ReapIs(now, c);
        RunSnoc(start, step, Reap(c.lateClose, c.metaOk));
        step := step + [Reap(c.lateClose, c.metaOk)];
        left := TurnBudget(prev.messages, prev.completions + 1, prev.allocationBytes);
        RunKeepsInv(start, step);
      }
    }

    /** Bounded reap. */
    method ReapAll(budget: TurnBudget) returns (ghost trace: seq<Event>, left: TurnBudget)
      requires phase.Running? && Inv(View())
      modifies `world, `tick, `pending, `backlog, `queuedCancels, `stats
      ensures View() == Run(old(View()), trace) && Inv(View())
      ensures Staged(Reaping, old(View()), trace, oracle, old(tick), tick, budget, left) && tick >= old(tick)
    {
      hide Inv, Run, Rounds, Works, Idles, Staged;
      ghost var start, n := View(), 0;
      hide View;
      trace, left := [], budget;
      NoSteps(start);
      NoRounds(Reaping, start, oracle, old(tick), left);
      while left.CanReap()
        invariant View() == Run(start, trace) && Inv(View()) && tick == old(tick) + n && phase.Running?
        invariant Rounds(Reaping, start, trace, oracle, old(tick), n, budget, left)
        decreases TURN_COMPLETIONS - left.completions
      {
        ghost var step: seq<Event>, prev := [], left;
        var more: bool;
        step, more, left := ReapNext(left);
        RunAppend(start, trace, step);
        if !more {
          StageIdle(Reaping, start, trace, step, oracle, old(tick), n, budget, left);
          trace := trace + step;
          return;
        }
        WorkSpends(Reaping, Run(start, trace), oracle(tick - 1), step, prev, left);
        RoundsSnoc(Reaping, start, trace, step, oracle, old(tick), n, budget, prev, left);
        trace, n := trace + step, n + 1;
      }
      StageSpent(Reaping, start, trace, oracle, old(tick), n, budget, left);
    }

    // ---- leaving ----

    /** Fail every stranded caller; the buffers stay where they are. */
    method FailStranded(order: seq<nat>)
      requires Enumerates(order, pending.Keys)
      modifies `world, `pending
      ensures pending == Senderless(old(pending))
      ensures world == old(world).(results := old(world.results) + LeakResults(order, old(world.closed)))
    {
      hide LeakResults, Silenced;
      NothingLeaked(old(world.results), old(world.closed));
      SilencedEnds(pending, order);
      for i := 0 to |order|
        invariant pending == Silenced(old(pending), order[..i])
        invariant world == old(world).(results := old(world.results) + LeakResults(order[..i], old(world.closed)))
      {
        var id := order[i];
        LeakOneMore(order, i, old(world.closed));
        SilenceOneMore(old(pending), order, i);
        pending := pending[id := pending[id].(hasSender := false)];
        SendLeaked(id);
      }
      assert order[..|order|] == order;
    }

    method SendLeaked(id: nat)
      modifies `world
      ensures world == old(world).(results := old(world.results) + [Resolution(id, LeakedAtExit, id !in old(world.closed))])
    {
      world := world.(results := world.results + [Resolution(id, LeakedAtExit, id !in world.closed)]);
    }

    /** Files that nobody holds any more are closed. */
    method CloseFiles()
      modifies `world
      ensures View() == CloseUnreferenced(old(View()))
    {
      world := world.(fds := Referenced(world.fds, FdRefs(world.callerFds, world.queue, pending)));
    }

    /** The receiving end of the channel goes, and with it every queued message. */
    method ExitClean()
      requires phase.Running? && shuttingDown && pending == map[] && backlog == []
      modifies `world, `phase
      ensures View() == DoExitDrained(old(View())) && phase.Drained?
    {
      hide CloseUnreferenced, DropQueue;
      phase := Drained;
      world := world.(queue := [], results := world.results + DropQueue(world.queue, world.closed));
      assert View() == LeaveDrained(old(View()));
      CloseFiles();
    }

    /** Fail the stranded callers, then forget the ring and the buffers. */
    method ExitLeak() returns (ghost order: seq<nat>)
      requires phase.Running? && shuttingDown && !(pending == map[] && backlog == [])
      modifies `world, `pending, `phase
      ensures Enumerates(order, old(pending.Keys)) && View() == DoExitLeaked(old(View()), order) && phase.Leaked?
    {
      hide CloseUnreferenced, DropQueue, LeakResults, Enumerates;
      var ids := Enumerate(pending.Keys);
      order := ids;
      FailStranded(ids);
      phase := Leaked;
      world := world.(queue := [], results := world.results + DropQueue(world.queue, world.closed));
      assert View() == LeaveLeaked(old(View()), ids);
      CloseFiles();
    }

    /** Leave when drained, or leak when the deadline has passed. */
    method ExitCheck() returns (ghost trace: seq<Event>)
      requires phase.Running?
      modifies `world, `tick, `pending, `phase
      ensures View() == Run(old(View()), trace) && Leaves(old(View()), oracle(old(tick)), trace) && tick == old(tick) + 1
      ensures phase.Running? ==> !(shuttingDown && pending == map[] && backlog == [])
      ensures LeavesExactly(old(View()), View(), oracle(old(tick)).deadline)
    {
      hide Run, Next, DoExitDrained, DoExitLeaked, Enumerates;
      ghost var start := View();
      var c := Choose();
      trace := [];
      NoSteps(start);
      if shuttingDown {
        if pending == map[] && backlog == [] {
          ExitClean();
          trace := [ExitDrained];
          LeaveSteps(start, []);
        } else if c.deadline {
          ghost var order := ExitLeak();
          trace := [ExitLeaked(order)];
          LeaveSteps(start, order);
        }
      }
    }

    // ---- the loop ----

    /**
     * One turn of the loop: bounded intake, a submission, a bounded reap, another
     * submission, and the exit check, each exactly as the choices of the outside
     * have it.
     */
    method Turn() returns (ghost p: TurnLog, goOn: bool)
      requires phase.Running? && Inv(View())
      modifies this
      ensures View() == Run(old(View()), Whole(p)) && Inv(View())
      ensures TurnDid(old(View()), p, oracle) && p.goOn == goOn && p.from == old(tick) && tick == p.leaveAt + 1
      ensures phase.Running? ==> !(shuttingDown && pending == map[] && backlog == [])
    {
      hide Inv, Run, Staged, Submits, Leaves, LeavesExactly, View;
      ghost var start, from := View(), tick;
      ghost var intake: seq<Event>, first: seq<Event>, reap: seq<Event>, second: seq<Event>, leave: seq<Event>;
      var taken: TurnBudget, left: TurnBudget, before: nat, after: nat;
      intake, taken := Intake();
      ghost var s1 := View();
      first, before := SubmitRing();
      ghost var s2, reapFrom := View(), tick;
      RunKeepsInv(s1, first);
      reap, left := ReapAll(taken);
      ghost var s3 := View();
      second, after := SubmitRing();
      ghost var s4, leaveAt := View(), tick;
      RunKeepsInv(s3, second);
      leave := ExitCheck();
      RunKeepsInv(s4, leave);
      goOn := GoesOn(left, before + after);
      p := TurnLog(from, reapFrom, leaveAt, intake, first, reap, second, leave, taken, left, before, after, goOn);
      TurnIs(start, p, oracle, View());
    }

    method GoesOn(left: TurnBudget, submitted: nat) returns (goOn: bool)
      ensures goOn == left.ContinueWithoutWait(View().cq != [], View().backlog != [] || View().sq != [], submitted)
    {
      goOn := left.ContinueWithoutWait(world.cq != [], backlog != [] || world.sq != [], submitted);
    }

    /**
     * The loop, for as many turns as one cares to watch: every state it reaches
     * is a reachable state of the shard, each turn is a turn as described, and
     * only an exit ends it.
     */
    method Drive(turns: nat, ghost sqCap: nat) returns (ghost log: seq<TurnLog>)
      requires View() == Init(sqCap) && tick == 0
      modifies this
      ensures View() == Run(Init(sqCap), Flat(log)) && Reachable(View()) && Inv(View())
      ensures TurnsDid(Init(sqCap), log, oracle)
      ensures |log| <= turns && (phase.Running? ==> |log| == turns)
    {
      InitInv(sqCap);
      hide Inv, Run, TurnDid, Whole;
      log := [];
      NoSteps(View());
      assert TurnsDid(Init(sqCap), log, oracle);
      hide TurnsDid;
      var n := 0;
      while n < turns && phase.Running?
        invariant View() == Run(Init(sqCap), Flat(log)) && Inv(View()) && n == |log| <= turns
        invariant TurnsDid(Init(sqCap), log, oracle)
        invariant tick == NextFrom(log)
        decreases turns - n
      {
        ghost var p: TurnLog;
        var goOn: bool;
        p, goOn := Turn();
        TurnsSnoc(Init(sqCap), log, p, oracle);
        log := log + [p];
        n := n + 1;
      }
    }
  }
}
