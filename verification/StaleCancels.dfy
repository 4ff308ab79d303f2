/**
 * "In-flight reads are capped at `entries` and cancels are deduped, keeping total
 * completions within twice that": a cancel that outlives its read is paid for by
 * no permit. With `n` permits, a ring of `n` slots and `k` reads cancelled on drop,
 * the loop can have `2 * n + k` completions ready at once; `CompletionBounds`
 * proves that it is never more.
 */
module StaleCancels {
  import opened Base
  import opened Geometry
  import opened LogicalRead
  import opened ShardMachine
  import opened ShardInvariant
  import opened CancelSteps
  import opened IntakeSteps
  import opened ReapSteps
  import opened ShardTheorems
  import opened Permits
  import opened Frames
  import opened ThreadTrace
  import opened LoopRuns

  const EMPTY_READ: Args := Args(3, 0, 0, 1, 0)

  predicate IsEmptyRead(sqe: Sqe, id: nat) {
    sqe.ReadSqe? && sqe.ud == id && sqe.len == 0 && sqe.off == 0 && sqe.fd == 3
  }

  lemma EmptyReadIsValid()
    ensures ValidArgs(EMPTY_READ, false)
    ensures AlignedGeometry(0, 0, 1) == Some(Region(0, 0, 0))
  {
  }

  /** Between two turns: the thread runs, nothing is queued anywhere, and there is a file to read. */
  ghost predicate Ready(s: Shard, n: nat, k: nat) {
    && Looped(s, n, k) && Idle(s) && s.sqCap == n
  }

  predicate Idle(s: Shard) {
    && s.phase.Running? && !s.shuttingDown && s.senders && s.queue == [] && 3 in s.fds && 3 in s.callerFds
    && s.sq == [] && s.cq == [] && s.backlog == [] && s.queuedCancels == {}
  }

  // ---- putting a turn together ----

  function Saying(moves: seq<Event>): Choice {
    Quiet().(moves := moves)
  }

  /** An oracle that says these things and then nothing. */
  function Oracle(choices: seq<Choice>): nat -> Choice {
    (k: nat) => if k < |choices| then choices[k] else Quiet()
  }

  /** A turn with these parts, whose second submission and exit check find nothing to do. */
  lemma Assemble(s: Shard, o: nat -> Choice, mid: nat, last: nat, intake: seq<Event>, first: seq<Event>, reap: seq<Event>,
                 taken: TurnBudget, left: TurnBudget, submitted: nat) returns (p: TurnLog)
    requires mid + 1 <= last && Staged(Intaking, s, intake, o, 0, mid, TurnBudget(0, 0, 0), taken)
    requires Submits(Run(s, intake), o(mid), first, submitted)
    requires Staged(Reaping, Run(Run(s, intake), first), reap, o, mid + 1, last, taken, left)
    requires o(last) == Quiet() && o(last + 1) == Quiet()
    requires var end := Run(Run(Run(s, intake), first), reap); end.sq == [] && end.backlog == [] && !end.shuttingDown
    ensures TurnDid(s, p, o) && p.from == 0 && Whole(p) == intake + first + reap
    ensures Run(s, Whole(p)) == Run(Run(Run(s, intake), first), reap)
  {
    hide Staged, Submits, Leaves, Run;
    var end := Run(Run(Run(s, intake), first), reap);
    SubmitsIdle(end);
    Stays(end, Quiet());
    var goOn := left.ContinueWithoutWait(end.cq != [], end.backlog != [] || end.sq != [], submitted);
    p := TurnLog(0, mid + 1, last + 1, intake, first, reap, [], [], taken, left, submitted, 0, goOn);
    TurnIs(s, p, o, end);
    assert Whole(p) == intake + first + reap;
  }

  /** One message is taken, after one event of a caller. */
  lemma RunIntake(s: Shard, call: Event, e: Event)
    requires Next(Next(s, call), e).senders
    ensures Run(s, [call]) == Next(s, call)
    ensures Run(s, [call] + [e] + [SeeDisconnect]) == Next(Next(s, call), e)
  {
    hide Next, Run;
    OneStep(s, call);
    RunSnoc(s, [call], e);
    RunSnoc(s, [call] + [e], SeeDisconnect);
    DisconnectIsNothing(Next(Next(s, call), e));
  }

  lemma OneMove(e: Event)
    requires Outside(e)
    ensures Moves([e]) == [e]
  {
    OutsideMoves([e]);
  }

  // ---- a file is opened ----

  lemma Opened(n: nat, s: Shard)
    requires s == Next(Init(n), OpenFile(3, []))
    ensures Idle(s) && s.sqCap == n && s.ops == [] && s.pending == map[] && s.heap == map[] && s.requests == map[]
    ensures HeldCount(Init(n)) == 0
  {
    assert s == Init(n).(fds := map[3 := []], callerFds := {3});
  }

  lemma OpenTurn(n: nat) returns (s: Shard)
    ensures Ready(s, n, 0) && s.ops == [] && s.pending == map[] && s.heap == map[] && s.requests == map[]
  {
    hide Run, Next, Staged, TurnDid, Looped, Drops, Sends, HeldCount, Init;
    var open := OpenFile(3, []);
    var o := Oracle([Saying([open])]);
    s := Next(Init(n), open);
    Opened(n, s);
    NoTurnsYet(n);
    OneMove(open);
    IdleIntake(Init(n), o, open);
    var p := FirstTurn(Init(n), o, [open, SeeDisconnect]);
    assert [open, SeeDisconnect] == [open] + [SeeDisconnect];
    OneCall(open, [SeeDisconnect]);
    LoopTurn(Init(n), p, o, n, 0);
  }

  /** Nothing comes in but what callers did before the look. */
  lemma IdleIntake(s: Shard, o: nat -> Choice, call: Event)
    requires Moves(o(0).moves) == [call] && Next(s, call).queue == [] && Next(s, call).senders
    ensures Staged(Intaking, s, [call, SeeDisconnect], o, 0, 1, TurnBudget(0, 0, 0), TurnBudget(0, 0, 0))
    ensures Run(s, [call, SeeDisconnect]) == Next(s, call)
  {
    hide Run, Next, Moves;
    var none: seq<Event>, look := [], [call, SeeDisconnect];
    assert none + look == look && look == [call] + [SeeDisconnect];
    NoRounds(Intaking, s, o, 0, TurnBudget(0, 0, 0));
    NoSteps(s);
    OneStep(s, call);
    RunSnoc(s, [call], SeeDisconnect);
    DisconnectIsNothing(Next(s, call));
    assert Idles(Intaking, Run(s, none), o(0), look);
    hide Rounds, Staged, Idles;
    StageIdle(Intaking, s, none, look, o, 0, 0, TurnBudget(0, 0, 0), TurnBudget(0, 0, 0));
  }

  lemma FirstTurn(s: Shard, o: nat -> Choice, intake: seq<Event>) returns (p: TurnLog)
    requires Staged(Intaking, s, intake, o, 0, 1, TurnBudget(0, 0, 0), TurnBudget(0, 0, 0))
    requires o(1) == o(2) == o(3) == o(4) == Quiet()
    requires var t := Run(s, intake); t.sq == [] && t.backlog == [] && t.cq == [] && !t.shuttingDown
    ensures TurnDid(s, p, o) && p.from == 0 && Whole(p) == intake && Run(s, Whole(p)) == Run(s, intake)
  {
    hide Run, Staged, Submits, Quiet;
    var t := Run(s, intake);
    SubmitsIdle(t);
    ReapsNone(t, o, 2, TurnBudget(0, 0, 0));
    p := Assemble(s, o, 1, 3, intake, [], [], TurnBudget(0, 0, 0), TurnBudget(0, 0, 0), 0);
    assert intake + [] + [] == intake;
  }

  // ---- a read is admitted and reaches the kernel ----

  lemma SendEmptyIs(s: Shard, id: nat, a: Shard)
    requires Idle(s) && id !in s.requests && id < CANCEL_BIT && a == Next(s, SendRead(id, EMPTY_READ, false))
    ensures a == s.(queue := [Read(id, EMPTY_READ)], requests := s.requests[id := Request(EMPTY_READ, s.fds[3])])
  {
    hide ValidArgs;
    EmptyReadIsValid();
  }

  predicate SameRings(s: Shard, t: Shard) {
    t.sq == s.sq && t.ops == s.ops && t.cq == s.cq
  }

  lemma AdmitEmpty(a: Shard, id: nat, t: Shard)
    requires a.phase.Running? && !a.shuttingDown && a.queue == [Read(id, EMPTY_READ)] && id !in a.heap
    requires t == DoRecvRead(a, id, 0, true)
    ensures t.queue == [] && t.pending.Keys == a.pending.Keys + {id} && t.heap.Keys == a.heap.Keys + {id}
    ensures SameRings(a, t) && t.queuedCancels == a.queuedCancels
    ensures t.requests == a.requests && t.fds == a.fds && t.callerFds == a.callerFds && t.sqCap == a.sqCap
    ensures t.phase == a.phase && t.senders == a.senders && t.shuttingDown == a.shuttingDown
    ensures |t.backlog| == |a.backlog| + 1 && IsEmptyRead(t.backlog[|a.backlog|], id)
  {
    hide AlignedGeometry, Admit, Reject, Zeroes;
    EmptyReadIsValid();
    AdmitFields(a, id, EMPTY_READ, Region(0, 0, 0), id, 0, t);
    var sqe := ReadSqeOf(NewEntry(EMPTY_READ, Region(0, 0, 0), id, 0), id);
    assert t.backlog == a.backlog + [sqe] && IsEmptyRead(sqe, id);
  }

  /** What is left of a state after its one request was flushed and accepted. */
  predicate Accepted(b: Shard, t: Shard)
    requires |b.backlog| == 1
  {
    && t.ops == b.ops + [Taken(b.backlog[0], b.fds)] && t.sq == [] && t.backlog == [] && t.cq == b.cq && t.heap == b.heap
    && RingsOnly(b, t)
  }

  lemma FlushAccept(b: Shard)
    requires b.phase.Running? && b.sqCap > 0 && b.sq == [] && |b.backlog| == 1
    ensures Flushable(b) == 1
    ensures var ready := Run(b, Flushes(1)); ready.sq == b.backlog && Accepted(b, Run(ready, [AcceptOne]))
  {
    hide Next, Accepted;
    var ready := b.(backlog := [], sq := b.backlog);
    assert Flushes(1) == [FlushOne];
    OneStep(b, FlushOne);
    OneStep(ready, AcceptOne);
    hide Run;
    FlushIs(b);
    AcceptIs(b, ready);
  }

  lemma FlushIs(b: Shard)
    requires b.phase.Running? && b.sqCap > 0 && b.sq == [] && |b.backlog| == 1
    ensures Next(b, FlushOne) == b.(backlog := [], sq := b.backlog)
  {
    hide DoAcceptOne, DoKernelWrite, DoCompleteRead, DoCompleteCancel;
  }

  lemma AcceptIs(b: Shard, ready: Shard)
    requires |b.backlog| == 1 && ready == b.(backlog := [], sq := b.backlog)
    ensures Accepted(b, Next(ready, AcceptOne))
  {
    hide Taken, DoFlushOne, DoKernelWrite, DoCompleteRead, DoCompleteCancel;
  }

  /** The submission of one request, with these moves of the kernel after it was accepted. */
  lemma SubmitOne(b: Shard, more: seq<Event>) returns (trace: seq<Event>, submitted: nat)
    requires b.phase.Running? && b.sqCap > 0 && b.sq == [] && |b.backlog| == 1
    requires forall i :: 0 <= i < |more| ==> Outside(more[i]) && InRings(more[i])
    ensures Submits(b, Saying([AcceptOne] + more), trace, submitted) && NoCalls(trace)
    ensures var back := Run(Run(Run(b, Flushes(1)), [AcceptOne]), more); Run(b, trace) == back.(errors := 0)
  {
    hide Run, Flushes, Moves, Submits, Accepted, Flushable;
    var moves := [AcceptOne] + more;
    FlushAccept(b);
    var ready := Run(b, Flushes(1));
    RunAppend(ready, [AcceptOne], more);
    assert ready.phase.Running? by { FlushOneRuns(b); }
    trace, submitted := SubmitSaying(b, 1, ready, moves, Saying(moves));
  }

  lemma FlushOneRuns(b: Shard)
    ensures Run(b, Flushes(1)).phase == b.phase
  {
    assert Flushes(1) == [FlushOne];
    hide Run, Next;
    OneStep(b, FlushOne);
    RingFrame(b, FlushOne);
  }

  lemma FlushesNoCalls(n: nat)
    ensures NoCalls(Flushes(n))
  {
  }

  /** A submission that enters the ring, in which only the kernel moves, and which goes well. */
  lemma SubmitSaying(b: Shard, n: nat, ready: Shard, moves: seq<Event>, c: Choice) returns (trace: seq<Event>, submitted: nat)
    requires c.moves == moves && c.result == EnterOk && Flushable(b) == n && ready == Run(b, Flushes(n))
    requires (ready.sq != [] || c.kernelWork) && ready.phase.Running?
    requires forall i :: 0 <= i < |moves| ==> Outside(moves[i]) && InRings(moves[i])
    ensures Submits(b, c, trace, submitted) && NoCalls(trace)
    ensures Run(b, trace) == Run(ready, moves).(errors := 0)
  {
    hide Run, Flushes, Flushable, Moves, Submits, Outside;
    OutsideMoves(moves);
    FlushesNoCalls(n);
    var back := Run(ready, moves);
    RingsKeepTable(ready, moves);
    KernelTakesMore(ready, moves);
    var order := Ordered(back.pending.Keys);
    submitted := |ready.sq| - |back.sq|;
    SubmitsEntered(b, c, order, submitted);
    trace := Flushes(n) + moves + [SubmitReturned(EnterOk, order)];
    RingsAreNoCalls(moves);
    WentWell(back, order);
  }

  lemma RingsAreNoCalls(moves: seq<Event>)
    requires forall i :: 0 <= i < |moves| ==> InRings(moves[i])
    ensures NoCalls(moves)
  {
  }

  lemma WentWell(s: Shard, order: seq<nat>)
    requires s.phase.Running?
    ensures DoSubmitReturned(s, EnterOk, order) == s.(errors := 0)
  {
  }

  lemma {:induction false} RingsKeepTable(s: Shard, moves: seq<Event>)
    requires forall i :: 0 <= i < |moves| ==> InRings(moves[i])
    ensures var t := Run(s, moves); t.phase == s.phase && t.pending == s.pending && t.queue == s.queue
    decreases |moves|
  {
    hide Next;
    if moves != [] {
      RingsKeepTable(s, moves[..|moves| - 1]);
      RingFrame(Run(s, moves[..|moves| - 1]), moves[|moves| - 1]);
    }
  }

  lemma {:induction false} KernelTakesMore(s: Shard, moves: seq<Event>)
    requires forall i :: 0 <= i < |moves| ==> Outside(moves[i])
    ensures |Run(s, moves).sq| <= |s.sq|
    decreases |moves|
  {
    hide Next, Outside;
    if moves != [] {
      KernelTakesMore(s, moves[..|moves| - 1]);
      OutsideLeavesDriver(Run(s, moves[..|moves| - 1]), moves[|moves| - 1]);
    }
  }

  /** Some order of a set, each element once. */
  lemma {:induction false} Ordered(ids: set<nat>) returns (order: seq<nat>)
    ensures Enumerates(order, ids) && |order| == |ids|
    ensures forall i, j :: 0 <= i < j < |order| ==> order[i] != order[j]
    ensures forall i :: 0 <= i < |order| ==> order[i] in ids
    decreases |ids|
  {
    if ids == {} {
      order := [];
    } else {
      var x :| x in ids;
      var rest := Ordered(ids - {x});
      order := [x] + rest;
      assert ids == (ids - {x}) + {x};
    }
  }

  /** The parts in a row, as one call and what follows it. */
  lemma OneCallTurn(call: Event, e: Event, first: seq<Event>, reap: seq<Event>)
    requires NoCalls(first) && NoCalls(reap) && !e.SendRead? && !e.SendCancel?
    ensures var whole := [call] + [e] + [SeeDisconnect] + first + reap;
            && Drops(whole) == (if call.SendCancel? then 1 else 0)
            && Sends(whole) == if call.SendRead? then 1 else 0
  {
    hide Drops, Sends;
    var rest := [e] + [SeeDisconnect] + first + reap;
    assert NoCalls(rest);
    OneCall(call, rest);
    assert [call] + [e] + [SeeDisconnect] + first + reap == [call] + rest;
  }

  lemma HoldsOnlyEntries(s: Shard)
    requires s.queue == []
    ensures HeldCount(s) == |s.pending.Keys|
  {
  }

  /** A read is taken in: one request waits in the backlog. */
  lemma TakeRead(s: Shard, id: nat, b: Shard)
    requires Idle(s) && id !in s.requests && id < CANCEL_BIT && id !in s.heap
    requires b == Next(Next(s, SendRead(id, EMPTY_READ, false)), RecvRead(id, 0, true))
    ensures var a := Next(s, SendRead(id, EMPTY_READ, false));
            a.queue == [Read(id, EMPTY_READ)] && !a.shuttingDown && a.heap == s.heap
    ensures b.queue == [] && b.senders && b.phase.Running? && !b.shuttingDown && 3 in b.fds && 3 in b.callerFds
    ensures b.sq == [] && b.cq == [] && b.ops == s.ops && b.queuedCancels == {} && b.sqCap == s.sqCap
    ensures b.pending.Keys == s.pending.Keys + {id} && b.heap.Keys == s.heap.Keys + {id}
    ensures b.requests.Keys == s.requests.Keys + {id}
    ensures |b.backlog| == 1 && IsEmptyRead(b.backlog[0], id)
  {
    var a := Next(s, SendRead(id, EMPTY_READ, false));
    SendEmptyIs(s, id, a);
    hide DoRecvRead, DoSendRead, IsEmptyRead;
    assert b == DoRecvRead(a, id, 0, true);
    AdmitEmpty(a, id, b);
  }

  /** What a turn that takes a read leaves: one more operation in the kernel, and otherwise an idle shard. */
  ghost predicate HasRead(s: Shard, t: Shard, id: nat) {
    && Idle(t) && t.sqCap == s.sqCap
    && t.pending.Keys == s.pending.Keys + {id} && t.heap.Keys == s.heap.Keys + {id}
    && t.requests.Keys == s.requests.Keys + {id}
    && |t.ops| == |s.ops| + 1 && t.ops[..|s.ops|] == s.ops
    && t.ops[|s.ops|].KRead? && IsEmptyRead(t.ops[|s.ops|].sqe, id)
  }

  lemma ReadAccepted(s: Shard, b: Shard, back: Shard, id: nat)
    requires |b.backlog| == 1 && IsEmptyRead(b.backlog[0], id) && Accepted(b, back)
    requires b.queue == [] && b.senders && b.phase.Running? && !b.shuttingDown && 3 in b.fds && 3 in b.callerFds
    requires b.sq == [] && b.cq == [] && b.ops == s.ops && b.queuedCancels == {} && b.sqCap == s.sqCap
    requires b.pending.Keys == s.pending.Keys + {id} && b.heap.Keys == s.heap.Keys + {id}
    requires b.requests.Keys == s.requests.Keys + {id}
    ensures HasRead(s, back.(errors := 0), id)
  {
  }

  /** The parts of a turn that takes a read. */
  lemma ReadParts(s: Shard, id: nat, o: nat -> Choice) returns (first: seq<Event>, submitted: nat, t: Shard)
    requires Idle(s) && id !in s.requests && id < CANCEL_BIT && id !in s.heap && s.sqCap > 0
    requires o(0) == Saying([SendRead(id, EMPTY_READ, false)]) && o(1) == Quiet() && o(2) == Saying([AcceptOne])
    ensures var intake := [SendRead(id, EMPTY_READ, false)] + [RecvRead(id, 0, true)] + [SeeDisconnect];
            && Staged(Intaking, s, intake, o, 0, 2, TurnBudget(0, 0, 0), TurnBudget(1, 0, 0))
            && Submits(Run(s, intake), o(2), first, submitted) && NoCalls(first)
            && t == Run(Run(s, intake), first) && HasRead(s, t, id)
  {
    hide Run, Next, Staged, Submits, HasRead, Accepted, Flushes, Idle;
    var call, e := SendRead(id, EMPTY_READ, false), RecvRead(id, 0, true);
    var a := Next(s, call);
    var b := Next(a, e);
    TakeRead(s, id, b);
    OneMove(call);
    RunIntake(s, call, e);
    TakesOne(s, o, [call], e, TurnBudget(1, 0, 0));
    first, submitted := SubmitOne(b, []);
    assert [AcceptOne] + [] == [AcceptOne];
    FlushAccept(b);
    var back := Run(Run(b, Flushes(1)), [AcceptOne]);
    NoSteps(back);
    ReadAccepted(s, b, back, id);
    t := back.(errors := 0);
  }

  /** One turn takes a read and hands it to the kernel. */
  lemma ReadTurn(s: Shard, id: nat, n: nat, k: nat) returns (t: Shard)
    requires Ready(s, n, k) && id !in s.requests && id < CANCEL_BIT && id !in s.heap && |s.pending.Keys| < n
    ensures Ready(t, n, k) && HasRead(s, t, id)
  {
    hide Run, Staged, Submits, TurnDid, HeldCount, Drops, Sends, Looped;
    var call, e := SendRead(id, EMPTY_READ, false), RecvRead(id, 0, true);
    var o := Oracle([Saying([call]), Quiet(), Saying([AcceptOne])]);
    var first, submitted;
    first, submitted, t := ReadParts(s, id, o);
    ReapsNone(t, o, 3, TurnBudget(1, 0, 0));
    var intake := [call] + [e] + [SeeDisconnect];
    NoSteps(t);
    var p := Assemble(s, o, 2, 4, intake, first, [], TurnBudget(1, 0, 0), TurnBudget(1, 0, 0), submitted);
    OneCallTurn(call, e, first, []);
    HoldsOnlyEntries(s);
    LoopTurn(s, p, o, n, k);
  }

  // ---- its cancel is submitted, and the read completes first ----

  lemma TakeCancel(s: Shard, id: nat, b: Shard)
    requires Idle(s) && id in s.pending && b == Next(Next(s, SendCancel(id)), RecvCancel)
    ensures var a := Next(s, SendCancel(id)); a.queue == [Cancel(id)]
    ensures b.queue == [] && b.senders && b.phase.Running? && !b.shuttingDown && 3 in b.callerFds
    ensures b.sq == [] && b.cq == [] && b.ops == s.ops && b.queuedCancels == {id} && b.sqCap == s.sqCap
    ensures b.pending.Keys == s.pending.Keys && b.requests == s.requests && b.backlog == [CancelSqe(id)]
  {
    var a := s.(queue := [Cancel(id)]);
    assert Next(s, SendCancel(id)) == a;
    CancelFields(a, id, b);
  }

  lemma CancelFields(a: Shard, id: nat, t: Shard)
    requires a.phase.Running? && a.queue == [Cancel(id)] && id in a.pending && id !in a.queuedCancels && t == DoRecvCancel(a)
    ensures t.queue == [] && SameRings(a, t) && t.queuedCancels == a.queuedCancels + {id}
    ensures t.pending.Keys == a.pending.Keys && t.requests == a.requests && t.backlog == a.backlog + [CancelSqe(id)]
    ensures t.callerFds == a.callerFds && t.sqCap == a.sqCap && t.phase == a.phase
    ensures t.senders == a.senders && t.shuttingDown == a.shuttingDown
  {
  }

  lemma CompleteFields(s: Shard, i: nat, t: Shard)
    requires i < |s.ops| && s.ops[i].KRead? && s.ops[i].sqe.ReadSqe? && IsEmptyRead(s.ops[i].sqe, s.ops[i].sqe.ud)
    requires t == DoCompleteRead(s, i, 0, [])
    ensures t.ops == RemoveAt(s.ops, i) && t.cq == s.cq + [Cqe(s.ops[i].sqe.ud, 0)] && t.sq == s.sq
  {
    assert LegalCompletion(s.ops[i], 0, []);
    hide LegalCompletion, Stored, Mapped;
  }

  /** The kernel has taken the cancel and answered the read. */
  ghost predicate Answered(s: Shard, t: Shard, id: nat) {
    && t.queue == [] && t.senders && t.phase.Running? && !t.shuttingDown && 3 in t.callerFds
    && t.sq == [] && t.backlog == [] && t.cq == [Cqe(id, 0)] && |t.ops| == |s.ops| && t.queuedCancels == {id}
    && t.sqCap == s.sqCap && t.pending.Keys == s.pending.Keys && t.requests == s.requests
  }

  lemma CancelAccepted(s: Shard, b: Shard, back: Shard, u: Shard, id: nat, i: nat)
    requires |s.ops| == i + 1 && s.ops[i].KRead? && IsEmptyRead(s.ops[i].sqe, id)
    requires b.backlog == [CancelSqe(id)] && Accepted(b, back) && u == Next(back, CompleteRead(i, 0, []))
    requires b.queue == [] && b.senders && b.phase.Running? && !b.shuttingDown && 3 in b.callerFds
    requires b.sq == [] && b.cq == [] && b.ops == s.ops && b.queuedCancels == {id} && b.sqCap == s.sqCap
    requires b.pending.Keys == s.pending.Keys && b.requests == s.requests
    ensures Answered(s, u.(errors := 0), id)
  {
    assert back.ops == s.ops + [KCancel(id)] && back.ops[i] == s.ops[i];
    CompleteFields(back, i, DoCompleteRead(back, i, 0, []));
    RingFrame(back, CompleteRead(i, 0, []));
    hide DoCompleteRead;
  }

  lemma CancelParts(s: Shard, id: nat, i: nat, o: nat -> Choice) returns (first: seq<Event>, submitted: nat, t: Shard)
    requires Idle(s) && id in s.pending && s.sqCap > 0
    requires |s.ops| == i + 1 && s.ops[i].KRead? && IsEmptyRead(s.ops[i].sqe, id)
    requires o(0) == Saying([SendCancel(id)]) && o(1) == Quiet() && o(2) == Saying([AcceptOne] + [CompleteRead(i, 0, [])])
    ensures var intake := [SendCancel(id)] + [RecvCancel] + [SeeDisconnect];
            && Staged(Intaking, s, intake, o, 0, 2, TurnBudget(0, 0, 0), TurnBudget(1, 0, 0))
            && Submits(Run(s, intake), o(2), first, submitted) && NoCalls(first)
            && t == Run(Run(s, intake), first) && Answered(s, t, id)
  {
    hide Run, Next, Staged, Submits, Answered, Accepted, Flushes, Idle, IsEmptyRead;
    var call, e, done := SendCancel(id), RecvCancel, CompleteRead(i, 0, []);
    var a := Next(s, call);
    var b := Next(a, e);
    TakeCancel(s, id, b);
    OneMove(call);
    RunIntake(s, call, e);
    TakesOne(s, o, [call], e, TurnBudget(1, 0, 0));
    first, submitted := SubmitOne(b, [done]);
    FlushAccept(b);
    var back := Run(Run(b, Flushes(1)), [AcceptOne]);
    OneStep(back, done);
    CancelAccepted(s, b, back, Next(back, done), id, i);
    t := Next(back, done).(errors := 0);
  }

  lemma DescriptorStaysOpen(s: Shard)
    requires Inv(s) && 3 in s.callerFds
    ensures 3 in s.fds
  {
    hide EntriesOk, BlocksOwned, SqesMatch, OpsMatch, CqesMatch, QueueOk, CancelsOk, CreatedOk, Fifo, SendersOk;
    hide PhaseOk, ResultsOk, StatsOk, CostOk, OneTokenEach;
  }

  lemma NoBuffers(s: Shard)
    requires Inv(s) && s.pending == map[]
    ensures s.heap == map[]
  {
    hide EntriesOk, SqesMatch, OpsMatch, CqesMatch, QueueOk, FdsOk, CancelsOk, CreatedOk, Fifo, SendersOk;
    hide PhaseOk, ResultsOk, StatsOk, CostOk, OneTokenEach;
  }

  lemma ConsumeFields(s: Shard, id: nat, t: Shard)
    requires Inv(s) && s.phase.Running? && s.cq == [Cqe(id, 0)] && id < CANCEL_BIT && t == DoReap(s, false, true)
    ensures id in s.pending && t.pending == s.pending - {id} && t.queuedCancels == s.queuedCancels - {id}
    ensures t.sq == s.sq && t.ops == s.ops && t.cq == [] && t.backlog == s.backlog && t.queue == s.queue
    ensures t.requests == s.requests && t.callerFds == s.callerFds && t.sqCap == s.sqCap && t.phase == s.phase
    ensures t.senders == s.senders && t.shuttingDown == s.shuttingDown
  {
    hide Inv, EntryOk, CqeMatches, FdRefs, Referenced, AlignedGeometry;
    HeadCompletion(s);
    var p := s.pending[id];
    EntryIsUsable(id, p, s.requests[id], s.heap);
    var bytes := s.heap[p.block].bytes;
    assert t == FinishEntry(CloseLate(PopCqe(s), id, false), id, Ok(Deliver(p, bytes, id !in s.closed)));
  }

  /** The read is over and its cancel is still in the kernel. */
  lemma Consume(s: Shard, t: Shard, u: Shard, id: nat)
    requires Answered(s, t, id) && Inv(t) && s.pending.Keys == {id} && id < CANCEL_BIT && u == Next(t, Reap(false, true))
    ensures Idle(u) && u.sqCap == s.sqCap && u.pending == map[] && u.heap == map[] && u.requests == s.requests && |u.ops| == |s.ops|
  {
    hide Inv, DoReap;
    NextKeepsInv(t, Reap(false, true));
    ConsumeFields(t, id, u);
    assert u.pending.Keys == {};
    DescriptorStaysOpen(u);
    NoBuffers(u);
  }

  /** One turn in which a pending read is cancelled on drop and finishes before its cancel. */
  lemma CancelTurn(s: Shard, id: nat, i: nat, n: nat, k: nat) returns (t: Shard)
    requires Ready(s, n, k) && s.pending.Keys == {id} && id < CANCEL_BIT && n > 0
    requires |s.ops| == i + 1 && s.ops[i].KRead? && IsEmptyRead(s.ops[i].sqe, id)
    ensures Ready(t, n, k + 1) && t.pending == map[] && t.heap == map[] && t.requests == s.requests && |t.ops| == |s.ops|
  {
    hide Run, Next, Staged, Submits, TurnDid, HeldCount, Drops, Sends, Looped, Inv, Answered, IsEmptyRead;
    var call, e, reap := SendCancel(id), RecvCancel, Reap(false, true);
    var o := Oracle([Saying([call]), Quiet(), Saying([AcceptOne] + [CompleteRead(i, 0, [])])]);
    var first, submitted, mid := CancelParts(s, id, i, o);
    var intake := [call] + [e] + [SeeDisconnect];
    LoopedIsReachable(s, n, k);
    RunKeepsInv(s, intake);
    RunKeepsInv(Run(s, intake), first);
    t := Next(mid, reap);
    Consume(s, mid, t, id);
    assert mid.cq != [] by { AnsweredReady(s, mid, id); }
    ReapsOne(mid, o, 3, TurnBudget(1, 0, 0));
    OneStep(mid, reap);
    var p := Assemble(s, o, 2, 5, intake, first, [reap], TurnBudget(1, 0, 0), TurnBudget(1, 1, 0), submitted);
    OneCallTurn(call, e, first, [reap]);
    HoldsOnlyEntries(s);
    LoopTurn(s, p, o, n, k);
  }

  lemma AnsweredReady(s: Shard, t: Shard, id: nat)
    requires Answered(s, t, id)
    ensures t.cq != []
  {
  }

  // ---- piling up cancels, then reads ----

  /** `k` cancels of reads long over are in the kernel, and `m` reads with them. */
  ghost predicate Piled(s: Shard, n: nat, k: nat, m: nat) {
    && Ready(s, n, k) && |s.pending.Keys| == m && |s.ops| == k + m
    && AllBelow(s.requests.Keys, k + m) && AllBelow(s.heap.Keys, k + m) && AllBelow(s.pending.Keys, k + m)
  }

  predicate AllBelow(ids: set<nat>, limit: nat) {
    forall id :: id in ids ==> id < limit
  }

  lemma Below(ids: set<nat>, more: set<nat>, id: nat)
    requires more == ids + {id} && AllBelow(ids, id)
    ensures AllBelow(more, id + 1) && |more| == |ids| + 1
  {
  }

  lemma PileRead(s: Shard, n: nat, k: nat, m: nat) returns (t: Shard)
    requires Piled(s, n, k, m) && m < n && k + m < CANCEL_BIT
    ensures Piled(t, n, k, m + 1) && HasRead(s, t, k + m)
  {
    hide Piled, Ready, HasRead;
    PileIsFresh(s, n, k, m);
    t := ReadTurn(s, k + m, n, k);
    PileGrows(s, t, n, k, m);
  }

  lemma PileIsFresh(s: Shard, n: nat, k: nat, m: nat)
    requires Piled(s, n, k, m)
    ensures Ready(s, n, k) && k + m !in s.requests && k + m !in s.heap && |s.pending.Keys| == m
  {
    hide Ready;
  }

  lemma PileGrows(s: Shard, t: Shard, n: nat, k: nat, m: nat)
    requires Piled(s, n, k, m) && Ready(t, n, k) && HasRead(s, t, k + m)
    ensures Piled(t, n, k, m + 1)
  {
    hide Ready, HasRead, AllBelow;
    var id := k + m;
    ReadAdds(s, t, id);
    Below(s.requests.Keys, t.requests.Keys, id);
    Below(s.pending.Keys, t.pending.Keys, id);
    Below(s.heap.Keys, t.heap.Keys, id);
  }

  lemma ReadAdds(s: Shard, t: Shard, id: nat)
    requires HasRead(s, t, id)
    ensures t.pending.Keys == s.pending.Keys + {id} && t.heap.Keys == s.heap.Keys + {id}
    ensures t.requests.Keys == s.requests.Keys + {id} && |t.ops| == |s.ops| + 1
  {
    hide Idle, IsEmptyRead;
  }

  lemma {:induction false} Pile(n: nat, k: nat) returns (t: Shard)
    requires k <= CANCEL_BIT && n > 0
    ensures Piled(t, n, k, 0)
    decreases k
  {
    hide Ready;
    if k == 0 {
      t := OpenTurn(n);
      assert |t.pending.Keys| == 0;
    } else {
      var s := Pile(n, k - 1);
      t := PileCancel(s, n, k - 1);
    }
  }

  lemma PileCancel(s: Shard, n: nat, k: nat) returns (t: Shard)
    requires Piled(s, n, k, 0) && n > 0 && k < CANCEL_BIT
    ensures Piled(t, n, k + 1, 0)
  {
    hide Ready, Idle, IsEmptyRead;
    var u := PileRead(s, n, k, 0);
    assert s.pending.Keys == {} && u.pending.Keys == {k};
    t := CancelTurn(u, k, k, n, k);
  }

  lemma {:induction false} Fill(n: nat, k: nat, m: nat) returns (t: Shard)
    requires m <= n && n > 0 && k + m <= CANCEL_BIT
    ensures Piled(t, n, k, m)
    decreases m
  {
    hide Piled;
    if m == 0 {
      t := Pile(n, k);
    } else {
      var s := Fill(n, k, m - 1);
      t := PileRead(s, n, k, m - 1);
    }
  }

  // ---- then the shard is told to shut down, and everything completes at once ----

  /** A sweep makes one cancel for each read that has none. */
  lemma {:induction false} SweepQueues(s: Shard, order: seq<nat>)
    requires forall i :: 0 <= i < |order| ==> order[i] !in s.queuedCancels
    requires forall i, j :: 0 <= i < j < |order| ==> order[i] != order[j]
    ensures |CancelAll(s, order).backlog| == |s.backlog| + |order|
    decreases |order|
  {
    if order != [] {
      var t := QueueCancel(s, order[0]);
      assert t.queuedCancels == s.queuedCancels + {order[0]} && |t.backlog| == |s.backlog| + 1;
      hide QueueCancel;
      SweepQueues(t, order[1..]);
    }
  }

  lemma TakeShutdown(s: Shard, order: seq<nat>, b: Shard)
    requires Idle(s) && Enumerates(order, s.pending.Keys) && forall i, j :: 0 <= i < j < |order| ==> order[i] != order[j]
    requires b == Next(Next(s, SendShutdown), RecvShutdown(order))
    ensures var a := Next(s, SendShutdown); a.queue == [Shutdown] && a.pending == s.pending
    ensures b.queue == [] && b.senders && b.phase.Running? && b.shuttingDown && b.sq == [] && b.cq == []
    ensures b.ops == s.ops && b.sqCap == s.sqCap && b.pending == s.pending && |b.backlog| == |order|
  {
    hide CancelAll, Enumerates;
    var a := s.(queue := [Shutdown]);
    assert Next(s, SendShutdown) == a;
    var u := StartShutdown(a.(queue := a.queue[1..]));
    CancelAllFrame(u, order);
    SweepQueues(u, order);
  }

  /** Sizes of the rings, and what a step inside them leaves. */
  predicate Moved(s: Shard, t: Shard, backlog: nat, sq: nat, ops: nat, cq: nat) {
    && |t.backlog| == backlog && |t.sq| == sq && |t.ops| == ops && |t.cq| == cq
    && t.phase == s.phase && t.pending == s.pending && t.queue == s.queue && t.sqCap == s.sqCap && t.shuttingDown == s.shuttingDown
  }

  lemma FlushMoves(s: Shard)
    requires s.phase.Running? && |s.sq| < s.sqCap && s.backlog != []
    ensures Moved(s, Next(s, FlushOne), |s.backlog| - 1, |s.sq| + 1, |s.ops|, |s.cq|)
  {
    RingFrame(s, FlushOne);
    FlushPushes(s);
    hide Next;
  }

  lemma FlushPushes(s: Shard)
    requires s.phase.Running? && |s.sq| < s.sqCap && s.backlog != []
    ensures var t := Next(s, FlushOne); |t.backlog| == |s.backlog| - 1 && |t.sq| == |s.sq| + 1 && t.ops == s.ops && t.cq == s.cq
  {
    hide DoAcceptOne, DoKernelWrite, DoCompleteRead, DoCompleteCancel;
  }

  lemma AcceptMoves(s: Shard)
    requires s.sq != []
    ensures Moved(s, Next(s, AcceptOne), |s.backlog|, |s.sq| - 1, |s.ops| + 1, |s.cq|)
  {
    RingFrame(s, AcceptOne);
    AcceptPushes(s);
    hide Next;
  }

  lemma AcceptPushes(s: Shard)
    requires s.sq != []
    ensures var t := Next(s, AcceptOne); |t.sq| == |s.sq| - 1 && |t.ops| == |s.ops| + 1 && t.cq == s.cq
  {
    hide Taken, DoFlushOne, DoKernelWrite, DoCompleteRead, DoCompleteCancel;
  }

  function Answer(s: Shard): Event
    requires s.ops != []
  {
    if s.ops[0].KCancel? then CompleteCancel(0, 0) else CompleteRead(0, -5, [])
  }

  lemma AnswerMoves(s: Shard)
    requires Inv(s) && s.ops != []
    ensures Moved(s, Next(s, Answer(s)), |s.backlog|, |s.sq|, |s.ops| - 1, |s.cq| + 1)
  {
    hide Inv, Next;
    RingFrame(s, Answer(s));
    AnswerPushes(s);
  }

  lemma AnswerPushes(s: Shard)
    requires Inv(s) && s.ops != []
    ensures var t := Next(s, Answer(s)); t.sq == s.sq && |t.ops| == |s.ops| - 1 && |t.cq| == |s.cq| + 1
  {
    hide Inv, DoCompleteRead, DoCompleteCancel;
    if s.ops[0].KCancel? {
      CancelAnswered(s);
    } else {
      FirstOp(s);
      ReadAnswered(s);
    }
  }

  lemma CancelAnswered(s: Shard)
    requires s.ops != [] && s.ops[0].KCancel?
    ensures var t := DoCompleteCancel(s, 0, 0); t.sq == s.sq && |t.ops| == |s.ops| - 1 && |t.cq| == |s.cq| + 1
  {
  }

  lemma ReadAnswered(s: Shard)
    requires s.ops != [] && s.ops[0].KRead? && s.ops[0].sqe.ReadSqe?
    ensures var t := DoCompleteRead(s, 0, -5, []); t.sq == s.sq && |t.ops| == |s.ops| - 1 && |t.cq| == |s.cq| + 1
  {
    assert LegalCompletion(s.ops[0], -5, []);
    hide LegalCompletion, Stored, Mapped;
  }

  lemma FirstOp(s: Shard)
    requires Inv(s) && s.ops != [] && s.ops[0].KRead?
    ensures s.ops[0].sqe.ReadSqe?
  {
    hide EntriesOk, BlocksOwned, SqesMatch, CqesMatch, QueueOk, FdsOk, CancelsOk, CreatedOk, Fifo, SendersOk;
    hide PhaseOk, ResultsOk, StatsOk, CostOk, OneTokenEach;
    assert OpMatches(s.ops[0], s.pending, s.requests);
  }

  lemma {:induction false} FlushAll(s: Shard, m: nat)
    requires s.phase.Running? && m <= |s.backlog| && |s.sq| + m <= s.sqCap
    ensures Moved(s, Run(s, Flushes(m)), |s.backlog| - m, |s.sq| + m, |s.ops|, |s.cq|)
  {
    hide Next, Run;
    if m == 0 {
      assert Flushes(0) == [];
      NoSteps(s);
    } else {
      FlushAll(s, m - 1);
      assert Flushes(m) == Flushes(m - 1) + [FlushOne];
      RunSnoc(s, Flushes(m - 1), FlushOne);
      FlushMoves(Run(s, Flushes(m - 1)));
    }
  }

  function Accepts(m: nat): seq<Event> {
    seq(m, _ => AcceptOne)
  }

  lemma {:induction false} AcceptAll(s: Shard, m: nat)
    requires m <= |s.sq|
    ensures Moved(s, Run(s, Accepts(m)), |s.backlog|, |s.sq| - m, |s.ops| + m, |s.cq|)
  {
    hide Next, Run;
    if m == 0 {
      assert Accepts(0) == [];
      NoSteps(s);
    } else {
      AcceptAll(s, m - 1);
      assert Accepts(m) == Accepts(m - 1) + [AcceptOne];
      RunSnoc(s, Accepts(m - 1), AcceptOne);
      AcceptMoves(Run(s, Accepts(m - 1)));
    }
  }

  /** The kernel answers `m` of its operations. */
  lemma {:induction false} AnswerSome(s: Shard, m: nat) returns (moves: seq<Event>)
    requires Inv(s) && m <= |s.ops|
    ensures forall i :: 0 <= i < |moves| ==> Outside(moves[i]) && InRings(moves[i])
    ensures Moved(s, Run(s, moves), |s.backlog|, |s.sq|, |s.ops| - m, |s.cq| + m)
  {
    hide Inv, Next, Run;
    moves := [];
    NoSteps(s);
    if m > 0 {
      moves := AnswerSome(s, m - 1);
      var u := Run(s, moves);
      RunKeepsInv(s, moves);
      AnswerMoves(u);
      RunSnoc(s, moves, Answer(u));
      moves := moves + [Answer(u)];
    }
  }

  /** Every permit is used and the sweep makes a cancel for each: all of it goes to the kernel. */
  lemma ShutdownParts(s: Shard, n: nat, o: nat -> Choice) returns (intake: seq<Event>, first: seq<Event>, submitted: nat, t: Shard)
    requires Idle(s) && s.sqCap == n > 0 && |s.pending.Keys| == n
    requires o(0) == Saying([SendShutdown]) && o(1) == Quiet() && o(2) == Saying(Accepts(n))
    ensures Staged(Intaking, s, intake, o, 0, 2, TurnBudget(0, 0, 0), TurnBudget(1, 0, 0))
    ensures Submits(Run(s, intake), o(2), first, submitted) && NoCalls(intake) && NoCalls(first)
    ensures t == Run(Run(s, intake), first)
    ensures t.sq == [] && t.backlog == [] && t.cq == [] && |t.ops| == |s.ops| + n
    ensures t.phase.Running? && t.shuttingDown && t.pending == s.pending
  {
    hide Run, Next, Staged, Submits, Idle, Enumerates, Flushes, Accepts;
    var order := Ordered(s.pending.Keys);
    var call, e := SendShutdown, RecvShutdown(order);
    var b := Next(Next(s, call), e);
    TakeShutdown(s, order, b);
    OneMove(call);
    RunIntake(s, call, e);
    intake := [call] + [e] + [SeeDisconnect];
    TakesOne(s, o, [call], e, TurnBudget(1, 0, 0));
    FlushAll(b, n);
    var ready := Run(b, Flushes(n));
    AcceptAll(ready, n);
    AcceptsAreKernel(n);
    first, submitted := SubmitSaying(b, n, ready, Accepts(n), Saying(Accepts(n)));
    t := Run(ready, Accepts(n)).(errors := 0);
  }

  lemma AcceptsAreKernel(n: nat)
    ensures forall i :: 0 <= i < |Accepts(n)| ==> Outside(Accepts(n)[i]) && InRings(Accepts(n)[i])
  {
  }

  /** The second submission of that turn: the kernel answers everything it has. */
  lemma AnswerParts(s: Shard, m: nat) returns (c: Choice, second: seq<Event>, t: Shard)
    requires Inv(s) && s.phase.Running? && s.sq == [] && s.backlog == [] && s.cq == [] && |s.ops| == m
    ensures Submits(s, c, second, 0) && NoCalls(second) && t == Run(s, second)
    ensures |t.cq| == m && t.sq == [] && t.backlog == [] && t.pending == s.pending && t.phase == s.phase && t.shuttingDown == s.shuttingDown
  {
    hide Run, Inv, Submits;
    var moves := AnswerSome(s, m);
    c := Saying(moves).(kernelWork := true);
    assert Flushable(s) == 0 && Flushes(0) == [];
    NoSteps(s);
    var submitted;
    second, submitted := SubmitSaying(s, 0, s, moves, c);
    t := Run(s, moves).(errors := 0);
    NothingSubmitted(s, c, second, submitted, moves);
  }

  lemma NothingSubmitted(s: Shard, c: Choice, t: seq<Event>, submitted: nat, moves: seq<Event>)
    requires Submits(s, c, t, submitted) && s.sq == [] && Flushable(s) == 0
    ensures submitted == 0
  {
    hide Run, Moves;
    assert Flushes(0) == [];
    NoSteps(s);
  }

  lemma ShutdownTurn(s: Shard, n: nat, k: nat) returns (t: Shard)
    requires Piled(s, n, k, n) && n > 0
    ensures Looped(t, n, k) && |t.cq| == 2 * n + k
  {
    hide Run, Staged, Submits, Leaves, TurnDid, HeldCount, Drops, Sends, Looped, Inv, Idle, Accepts, Saying, Quiet;
    var o0 := Oracle([Saying([SendShutdown]), Quiet(), Saying(Accepts(n))]);
    var intake, first, submitted, mid := ShutdownParts(s, n, o0);
    LoopedIsReachable(s, n, k);
    RunKeepsInv(s, intake);
    RunKeepsInv(Run(s, intake), first);
    var c, second, end := AnswerParts(mid, 2 * n + k);
    t := end;
    var o := Oracle([Saying([SendShutdown]), Quiet(), Saying(Accepts(n)), Quiet(), c]);
    var p := ShutdownLog(s, o0, o, intake, first, submitted, second, mid, end);
    CountsAppend(intake, first);
    CountsAppend(intake + first, second);
    NoCallsCount(intake);
    NoCallsCount(first);
    NoCallsCount(second);
    assert HeldCount(s) <= n by { QueueIsEmpty(s, n, k); HoldsOnlyEntries(s); }
    LoopTurn(s, p, o, n, k);
  }

  lemma QueueIsEmpty(s: Shard, n: nat, k: nat)
    requires Ready(s, n, k)
    ensures s.queue == []
  {
    hide Looped;
  }

  lemma ShutdownLog(s: Shard, o0: nat -> Choice, o: nat -> Choice, intake: seq<Event>, first: seq<Event>, submitted: nat,
                    second: seq<Event>, mid: Shard, end: Shard) returns (p: TurnLog)
    requires Agree(o0, o, 0, 3, 0) && o(3) == Quiet() && o(5) == Quiet()
    requires Staged(Intaking, s, intake, o0, 0, 2, TurnBudget(0, 0, 0), TurnBudget(1, 0, 0))
    requires Submits(Run(s, intake), o0(2), first, submitted) && mid == Run(Run(s, intake), first)
    requires mid.cq == [] && Submits(mid, o(4), second, 0) && end == Run(mid, second)
    requires end.shuttingDown && end.pending != map[]
    ensures TurnDid(s, p, o) && p.from == 0 && Whole(p) == intake + first + second && Run(s, Whole(p)) == end
  {
    hide Run, Staged, Submits, Leaves;
    var left := TurnBudget(1, 0, 0);
    StagedShift(Intaking, s, intake, o0, o, 0, 2, TurnBudget(0, 0, 0), left, 0);
    assert o(2 + 0) == o0(2);
    ReapsNone(mid, o, 3, left);
    NoSteps(mid);
    Stays(end, o(5));
    var goOn := left.ContinueWithoutWait(end.cq != [], end.backlog != [] || end.sq != [], submitted);
    p := TurnLog(0, 3, 5, intake, first, [], second, [], left, left, submitted, 0, goOn);
    TurnIs(s, p, o, end);
    assert Whole(p) == intake + first + second;
  }

  /**
   * With `n` count permits, a ring of `n` slots and `k` reads cancelled on drop, the
   * loop reaches a state in which `2 * n + k` completions are ready at once (ids
   * have 63 bits).
   */
  lemma CompletionsReach(n: nat, k: nat) returns (o: nat -> Choice, log: seq<TurnLog>)
    requires n > 0 && n + k <= CANCEL_BIT
    ensures IsLoop(log, o, n, k) && |Run(Init(n), Flat(log)).cq| == 2 * n + k
  {
    hide Run, IsLoop, Ready, Flat;
    var s := Fill(n, k, n);
    var t := ShutdownTurn(s, n, k);
    o, log :| IsLoop(log, o, n, k) && t == Run(Init(n), Flat(log));
  }
}
