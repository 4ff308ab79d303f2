/**
 * What each step of the driver thread does to the shard, field by field and
 * without reference to how the step is computed: which reads are entered, which
 * are refused, what a completion leads to, whom a cancel or a shutdown reaches.
 */
module ThreadEffects {
  import opened Base
  import opened Geometry
  import opened LogicalRead
  import opened ShardMachine
  import opened ShardInvariant
  import opened IntakeSteps
  import opened CancelSteps
  import opened ReapSteps
  import opened Frames
  import opened ThreadTrace

  // ---- intake of a read ----

  /** The entry of a read just taken: nothing read yet, and the least aligned range around what was asked for. */
  ghost predicate Fresh(p: Pending, a: Args, block: nat, base: nat) {
    && p.nread == 0 && p.retries == 0 && !p.cancelRequested && p.hasSender
    && p.fd == a.fd && p.want == a.len && p.align == a.align > 0 && p.charge == a.charge
    && LeastCover(p.offset, p.regionLen, a.offset, a.len, a.align) && p.offset + p.head == a.offset
    && p.block == block && p.pad < p.align && (base + p.pad) % p.align == 0
  }

  /** The read at the head of the queue is entered: a zeroed buffer, an entry and one request for the whole region. */
  ghost predicate Enters(s: Shard, t: Shard, block: nat, base: nat)
    requires s.queue != [] && s.queue[0].Read?
  {
    var id, a := s.queue[0].id, s.queue[0].args;
    && id !in s.pending && id in t.pending
    && var p := t.pending[id];
    var request := ReadSqe(id, a.fd, Pointer(block, p.pad), p.regionLen, p.offset);
    && Fresh(p, a, block, base)
    && block in t.heap && t.heap[block].base == base
    && |t.heap[block].bytes| == a.charge && (forall i :: 0 <= i < a.charge ==> t.heap[block].bytes[i] == 0)
    && t == s.(queue := s.queue[1..], pending := s.pending[id := p], heap := s.heap[block := t.heap[block]],
               backlog := s.backlog + [request], created := s.created + [request],
               stats := s.stats.(submitted := s.stats.submitted + 1, inFlight := s.stats.inFlight + 1))
  }

  /** It is refused: its sender is used, and nothing is left of it. */
  ghost predicate Refuses(s: Shard, t: Shard, outcome: Outcome)
    requires s.queue != [] && s.queue[0].Read?
  {
    var id := s.queue[0].id;
    t == s.(queue := s.queue[1..], results := s.results + [Resolution(id, outcome, id !in s.closed)], fds := t.fds)
  }

  lemma RejectRefuses(s: Shard, outcome: Outcome)
    requires s.queue != [] && s.queue[0].Read?
    ensures Refuses(s, Reject(s, outcome), outcome)
  {
    hide FdRefs, Referenced;
  }

  lemma GeometryIsFresh(a: Args, block: nat, base: nat)
    requires a.align > 0 && a.offset < U64_RANGE && a.len < U64_RANGE && AlignedGeometry(a.offset, a.len, a.align).Some?
    ensures Fresh(NewEntry(a, AlignedGeometry(a.offset, a.len, a.align).value, block, base), a, block, base)
  {
    GeometryIsLeastSuperset(a.offset, a.len, a.align);
    PadAligns(base, a.align);
    hide AlignedGeometry, AlignedSuperset;
  }

  lemma HeadIsNotPending(s: Shard)
    requires Inv(s) && s.phase.Running? && s.queue != [] && s.queue[0].Read?
    ensures s.queue[0].id !in s.pending && s.queue[0].id < CANCEL_BIT && s.queue[0].id in s.requests
  {
    assert SendersOk(s.requests.Keys, s.queue, s.phase, s.pending.Keys, s.results);
    hide Inv;
    QueuedOnce(s.requests.Keys, s.queue, s.pending.Keys, s.results);
  }

  lemma AdmitIs(s: Shard, id: nat, a: Args, g: Region, block: nat, base: nat)
    requires s.queue != [] && a.align > 0
    ensures var p := NewEntry(a, g, block, base);
            Admit(s, id, a, g, block, base)
            == s.(queue := s.queue[1..], pending := s.pending[id := p],
                  heap := s.heap[block := Block(base, Zeroes(g.regionLen + a.align - 1))],
                  backlog := s.backlog + [ReadSqeOf(p, id)], created := s.created + [ReadSqeOf(p, id)],
                  stats := s.stats.(submitted := s.stats.submitted + 1, inFlight := s.stats.inFlight + 1))
  {
    hide Zeroes, ReadSqeOf;
  }

  lemma FirstRequest(a: Args, g: Region, block: nat, base: nat, id: nat)
    requires a.align > 0 && g.regionLen < U32_RANGE
    ensures var p := NewEntry(a, g, block, base);
            ReadSqeOf(p, id) == ReadSqe(id, a.fd, Pointer(block, p.pad), p.regionLen, p.offset)
  {
  }

  lemma AdmitEnters(s: Shard, block: nat, base: nat)
    requires s.queue != [] && s.queue[0].Read? && s.queue[0].id !in s.pending && block !in s.heap
    requires var a := s.queue[0].args;
             && a.align > 0 && a.offset < U64_RANGE && a.len < U64_RANGE && AlignedGeometry(a.offset, a.len, a.align).Some?
             && a.charge == AlignedGeometry(a.offset, a.len, a.align).value.regionLen + a.align - 1 < U32_RANGE
    ensures var a := s.queue[0].args;
            Enters(s, Admit(s, s.queue[0].id, a, AlignedGeometry(a.offset, a.len, a.align).value, block, base), block, base)
  {
    var id, a := s.queue[0].id, s.queue[0].args;
    GeometryIsFresh(a, block, base);
    var g := AlignedGeometry(a.offset, a.len, a.align).value;
    FirstRequest(a, g, block, base, id);
    AdmitIs(s, id, a, g, block, base);
    hide AlignedGeometry, Fresh, Admit, NewEntry, ReadSqeOf;
    assert Admit(s, id, a, g, block, base).pending[id] == NewEntry(a, g, block, base);
  }

  /**
   * What becomes of the read at the head of the queue: while draining it is
   * refused as such, otherwise it is refused if its buffer cannot be aligned, and
   * entered if it can.
   */
  ghost predicate TakesRead(s: Shard, t: Shard, block: nat, base: nat, aligns: bool)
    requires s.queue != [] && s.queue[0].Read?
  {
    if s.shuttingDown then Refuses(s, t, ShuttingDown)
    else if !aligns then Refuses(s, t, CannotAlign)
    else Enters(s, t, block, base)
  }

  /** Intake of a read is exact. */
  lemma IntakeReadIs(s: Shard, block: nat, base: nat, aligns: bool)
    requires Inv(s) && s.phase.Running? && s.queue != [] && s.queue[0].Read? && block !in s.heap
    ensures TakesRead(s, DoRecvRead(s, block, base, aligns), block, base, aligns)
  {
    hide Inv, AlignedGeometry, Admit, Reject, Refuses, Enters;
    ReadIsUsable(s);
    HeadIsNotPending(s);
    ChargeFits(s);
    if s.shuttingDown {
      RejectRefuses(s, ShuttingDown);
    } else if !aligns {
      RejectRefuses(s, CannotAlign);
    } else {
      AdmitEnters(s, block, base);
    }
  }

  lemma ChargeFits(s: Shard)
    requires Inv(s) && s.queue != [] && s.queue[0].Read?
    ensures s.queue[0].args.charge < U32_RANGE
  {
    assert QueueOk(s.queue, s.requests);
    hide Inv;
    var a := s.queue[0].args;
    if ValidArgs(a, true) {
      AcceptedArithmetic(a.offset, a.len, a.align, true, Limits(None, None));
    } else {
      AcceptedArithmetic(a.offset, a.len, a.align, false, Limits(None, None));
    }
  }

  // ---- intake of a cancel ----

  /** A cancel marks its read, if it is pending, and makes one cancel request unless there was one. */
  ghost predicate TakesCancel(s: Shard, t: Shard)
    requires s.queue != [] && s.queue[0].Cancel?
  {
    var id := s.queue[0].id;
    if id !in s.pending then t == s.(queue := s.queue[1..])
    else
      var made := if id in s.queuedCancels then [] else [CancelSqe(id)];
      t == s.(queue := s.queue[1..], pending := s.pending[id := s.pending[id].(cancelRequested := true)],
              queuedCancels := s.queuedCancels + {id}, backlog := s.backlog + made, created := s.created + made)
  }

  lemma QueueCancelIs(s: Shard, id: nat)
    ensures var made := if id in s.queuedCancels then [] else [CancelSqe(id)];
            QueueCancel(s, id)
            == s.(queuedCancels := s.queuedCancels + {id}, backlog := s.backlog + made, created := s.created + made)
  {
    assert id in s.queuedCancels ==> s.queuedCancels + {id} == s.queuedCancels;
    assert s.backlog + [] == s.backlog && s.created + [] == s.created;
  }

  lemma IntakeCancelIs(s: Shard)
    requires s.phase.Running? && s.queue != [] && s.queue[0].Cancel?
    ensures TakesCancel(s, DoRecvCancel(s))
  {
    hide QueueCancel;
    var id := s.queue[0].id;
    if id in s.pending {
      QueueCancelIs(s.(queue := s.queue[1..], pending := s.pending[id := s.pending[id].(cancelRequested := true)]), id);
    }
  }

  // ---- sweeps ----

  /** The cancels a sweep makes, in its order. */
  function Cancels(order: seq<nat>, marked: set<nat>): seq<Sqe> {
    if order == [] then []
    else (if order[0] in marked then [] else [CancelSqe(order[0])]) + Cancels(order[1..], marked + {order[0]})
  }

  lemma {:induction false} CancelAllIs(s: Shard, order: seq<nat>)
    ensures var made := Cancels(order, s.queuedCancels);
            CancelAll(s, order)
            == s.(queuedCancels := s.queuedCancels + (set id | id in order), backlog := s.backlog + made, created := s.created + made)
    decreases |order|
  {
    if order == [] {
      assert s.queuedCancels + (set id | id in order) == s.queuedCancels;
      assert s.backlog + [] == s.backlog && s.created + [] == s.created;
    } else {
      var t := QueueCancel(s, order[0]);
      QueueCancelIs(s, order[0]);
      hide QueueCancel;
      CancelAllIs(t, order[1..]);
      assert (set id | id in order) == {order[0]} + (set id | id in order[1..]);
      SweptOnce(s.backlog, order, s.queuedCancels);
      SweptOnce(s.created, order, s.queuedCancels);
    }
  }

  lemma SweptOnce(q: seq<Sqe>, order: seq<nat>, marked: set<nat>)
    requires order != []
    ensures var made := if order[0] in marked then [] else [CancelSqe(order[0])];
            q + made + Cancels(order[1..], marked + {order[0]}) == q + Cancels(order, marked)
  {
    var made := if order[0] in marked then [] else [CancelSqe(order[0])];
    var rest := Cancels(order[1..], marked + {order[0]});
    assert Cancels(order, marked) == made + rest;
    hide Cancels;
    Reassociate(q, made, rest);
  }

  lemma Reassociate<T>(a: seq<T>, b: seq<T>, c: seq<T>)
    ensures a + b + c == a + (b + c)
  {
  }

  /** Each unmarked id gets one cancel, and nothing else is made. */
  lemma {:induction false} CancelsOnce(order: seq<nat>, marked: set<nat>, x: Sqe)
    ensures multiset(Cancels(order, marked))[x] == if x.CancelSqe? && x.target in order && x.target !in marked then 1 else 0
    decreases |order|
  {
    if order != [] {
      CancelsOnce(order[1..], marked + {order[0]}, x);
      var made := if order[0] in marked then [] else [CancelSqe(order[0])];
      assert multiset(Cancels(order, marked)) == multiset(made) + multiset(Cancels(order[1..], marked + {order[0]}));
      assert order == [order[0]] + order[1..];
    }
  }

  /** Shutting down reaches every pending read: each is marked, and each that was not gets one cancel request. */
  ghost predicate Sweeps(s: Shard, t: Shard, made: seq<Sqe>) {
    && t == s.(shuttingDown := true, queuedCancels := s.queuedCancels + s.pending.Keys,
               backlog := s.backlog + made, created := s.created + made)
    && forall x :: multiset(made)[x] == if x.CancelSqe? && x.target in s.pending && x.target !in s.queuedCancels then 1 else 0
  }

  lemma SweepIs(s: Shard, order: seq<nat>)
    requires Enumerates(order, s.pending.Keys)
    ensures Sweeps(s, CancelAll(StartShutdown(s), order), Cancels(order, s.queuedCancels))
  {
    hide CancelAll;
    CancelAllIs(StartShutdown(s), order);
    EnumerationIsPending(order, s.pending.Keys);
    InOrder(order, s.pending.Keys);
    hide Enumerates;
    assert (set id | id in order) == s.pending.Keys;
    forall x
      ensures multiset(Cancels(order, s.queuedCancels))[x]
              == if x.CancelSqe? && x.target in s.pending && x.target !in s.queuedCancels then 1 else 0
    {
      CancelsOnce(order, s.queuedCancels, x);
    }
  }

  lemma InOrder(order: seq<nat>, ids: set<nat>)
    requires Enumerates(order, ids)
    ensures forall id :: id in ids <==> id in order
  {
    assert forall id :: id in order <==> id in multiset(order);
    assert forall id :: id in ids <==> id in multiset(ids);
  }

  /** A shutdown message sweeps, and leaves the queue. */
  lemma IntakeShutdownIs(s: Shard, order: seq<nat>)
    requires s.phase.Running? && s.queue != [] && s.queue[0].Shutdown? && Enumerates(order, s.pending.Keys)
    ensures Sweeps(s.(queue := s.queue[1..]), DoRecvShutdown(s, order), Cancels(order, s.queuedCancels))
  {
    hide CancelAll, Sweeps, Enumerates;
    SweepIs(s.(queue := s.queue[1..]), order);
  }

  // ---- reaping ----

  /** The read goes on: one request for all that is left of its region, and nothing else. */
  ghost predicate GoesOn(s: Shard, t: Shard)
    requires s.cq != [] && s.cq[0].ud in s.pending
  {
    var id, res := s.cq[0].ud, s.cq[0].res;
    var p, n := s.pending[id], Reached(s.pending[id], res);
    && n < p.regionLen
    && var rest := ReadSqe(id, p.fd, Pointer(p.block, p.pad + n), p.regionLen - n, p.offset + n);
    t == s.(cq := s.cq[1..], pending := s.pending[id := p.(nread := n, retries := if res > 0 then 0 else p.retries + 1)],
            backlog := s.backlog + [rest], created := s.created + [rest])
  }

  /** The read ends: its entry, buffer and mark go, its sender is used once, and it is counted by whether anyone looked. */
  ghost predicate Ends(s: Shard, t: Shard, outcome: Outcome, lateClose: bool)
    requires s.cq != [] && s.cq[0].ud in s.pending
  {
    var id := s.cq[0].ud;
    var observed := id !in s.closed && !lateClose;
    t == s.(cq := s.cq[1..], pending := s.pending - {id}, heap := s.heap - {s.pending[id].block},
            queuedCancels := s.queuedCancels - {id}, fds := t.fds,
            closed := if lateClose then s.closed + {id} else s.closed,
            results := s.results + [Resolution(id, outcome, observed)],
            stats := s.stats.(inFlight := s.stats.inFlight - 1,
                              delivered := if observed then s.stats.delivered + 1 else s.stats.delivered,
                              orphans := if observed then s.stats.orphans else s.stats.orphans + 1))
  }

  /** What the thread knows of the file when it asks. */
  function Metadata(r: Request, metaOk: bool): Option<nat> {
    if metaOk then Some(|r.file|) else None
  }

  /** The head of the completion queue is a read's, and its entry and buffer are there. */
  ghost predicate HasEntry(s: Shard) {
    && s.cq != [] && s.cq[0].ud in s.pending && s.cq[0].ud in s.requests
    && var p := s.pending[s.cq[0].ud];
    && p.block in s.heap && p.Shaped(|s.heap[p.block].bytes|)
    && (s.cq[0].res > 0 ==> p.nread + s.cq[0].res <= p.regionLen)
    && p.fd in s.fds && s.fds[p.fd] == s.requests[s.cq[0].ud].file
  }

  lemma HeadHasEntry(s: Shard)
    requires Inv(s) && s.cq != [] && s.cq[0].ud < CANCEL_BIT
    ensures HasEntry(s)
  {
    hide Inv, EntryOk, CqeMatches;
    HeadCompletion(s);
    EntryIsUsable(s.cq[0].ud, s.pending[s.cq[0].ud], s.requests[s.cq[0].ud], s.heap);
    CqeIsUsable(s.cq[0], s.pending, s.requests, s.heap);
  }

  /** What the completion at the head has to lead to. */
  ghost predicate Completes(s: Shard, t: Shard, lateClose: bool, metaOk: bool)
    requires HasEntry(s)
  {
    var id, res := s.cq[0].ud, s.cq[0].res;
    var p := s.pending[id];
    if MustGoOn(p, res, s.shuttingDown) then GoesOn(s, t)
    else
      && |t.results| == |s.results| + 1
      && var o := t.results[|s.results|].outcome;
      && Ends(s, t, o, lateClose)
      && Explained(p, res, s.shuttingDown, Metadata(s.requests[id], metaOk), s.heap[p.block].bytes, id !in s.closed, o)
  }

  lemma ResubmittedIs(s: Shard, q: Pending)
    requires s.cq != [] && s.cq[0].ud in s.pending
    requires var p, res := s.pending[s.cq[0].ud], s.cq[0].res;
             && Reached(p, res) < p.regionLen < U32_RANGE
             && q == p.(nread := Reached(p, res), retries := if res > 0 then 0 else p.retries + 1)
    ensures GoesOn(s, Resubmitted(PopCqe(s), s.cq[0].ud, q))
  {
    hide Reached;
  }

  lemma FinishIs(s: Shard, outcome: Outcome, lateClose: bool)
    requires s.cq != [] && s.cq[0].ud in s.pending
    ensures var id := s.cq[0].ud;
            Ends(s, FinishEntry(CloseLate(PopCqe(s), id, lateClose), id, outcome), outcome, lateClose)
  {
    hide FdRefs, Referenced;
  }

  lemma GoesOnHasRoom(p: Pending, res: int, shuttingDown: bool)
    requires p.align > 0 && MustGoOn(p, res, shuttingDown)
    ensures Reached(p, res) < p.regionLen
  {
    hide OffBoundary;
  }

  lemma ReapStaysInRegion(p: Pending, res: int, shuttingDown: bool, fileLen: Option<nat>, buf: seq<byte>, open: bool)
    requires p.Shaped(|buf|) && (res > 0 ==> p.nread + res <= p.regionLen)
    ensures ReapRead(p, res, shuttingDown, fileLen, buf, open).0.nread <= p.regionLen
    ensures ReapRead(p, res, shuttingDown, fileLen, buf, open).0.regionLen == p.regionLen
  {
  }

  /** `ReapEntry` on an entry whose buffer and descriptor are there. */
  lemma ReapEntryIs(s: Shard, id: nat, res: int, lateClose: bool, metaOk: bool)
    requires id in s.pending
    requires var p := s.pending[id];
             && p.block in s.heap && p.fd in s.fds && p.Shaped(|s.heap[p.block].bytes|)
             && (res > 0 ==> p.nread + res <= p.regionLen)
    ensures var p := s.pending[id];
            var fileLen := if metaOk then Some(|s.fds[p.fd]|) else None;
            var r := ReapRead(p, res, s.shuttingDown, fileLen, s.heap[p.block].bytes, id !in s.closed);
            && r.0.nread <= r.0.regionLen
            && ReapEntry(s, id, res, lateClose, metaOk)
               == match r.1
                  case Resubmit => Resubmitted(s, id, r.0)
                  case Finish(outcome) => FinishEntry(CloseLate(s, id, lateClose), id, outcome)
  {
    hide FinishEntry, ReapRead, Resubmitted, CloseLate;
    var p := s.pending[id];
    var fileLen := if metaOk then Some(|s.fds[p.fd]|) else None;
    ReapStaysInRegion(p, res, s.shuttingDown, fileLen, s.heap[p.block].bytes, id !in s.closed);
  }

  /** A read's completion is exact: it leads where its result and its entry say, and nowhere else. */
  lemma ReapReadIs(s: Shard, lateClose: bool, metaOk: bool)
    requires Inv(s) && s.phase.Running? && s.cq != [] && s.cq[0].ud < CANCEL_BIT
    ensures HasEntry(s) && Completes(s, DoReap(s, lateClose, metaOk), lateClose, metaOk)
  {
    HeadHasEntry(s);
    hide Inv, Completes, ReapEntry;
    CompletionIs(s, lateClose, metaOk);
  }

  lemma CompletionIs(s: Shard, lateClose: bool, metaOk: bool)
    requires HasEntry(s)
    ensures Completes(s, ReapEntry(PopCqe(s), s.cq[0].ud, s.cq[0].res, lateClose, metaOk), lateClose, metaOk)
  {
    hide FinishEntry, ReapRead, Resubmitted, CloseLate, Explained, MustGoOn, GoesOn, Ends, Reached, ReapEntry;
    var id, res := s.cq[0].ud, s.cq[0].res;
    ReapEntryIs(PopCqe(s), id, res, lateClose, metaOk);
    var p := s.pending[id];
    var fileLen := Metadata(s.requests[id], metaOk);
    ReapDecides(p, res, s.shuttingDown, fileLen, s.heap[p.block].bytes, id !in s.closed);
    var r := ReapRead(p, res, s.shuttingDown, fileLen, s.heap[p.block].bytes, id !in s.closed);
    if MustGoOn(p, res, s.shuttingDown) {
      GoesOnHasRoom(p, res, s.shuttingDown);
      ResubmittedIs(s, r.0);
    } else {
      FinishIs(s, r.1.outcome, lateClose);
      EndsOnce(s, ReapEntry(PopCqe(s), id, res, lateClose, metaOk), r.1.outcome, lateClose);
    }
  }

  lemma EndsOnce(s: Shard, t: Shard, outcome: Outcome, lateClose: bool)
    requires s.cq != [] && s.cq[0].ud in s.pending && Ends(s, t, outcome, lateClose)
    ensures |t.results| == |s.results| + 1 && t.results[|s.results|].outcome == outcome
  {
  }

  // ---- leaving ----

  /** Cleanly when draining with nothing pending and nothing queued, leaking when the deadline has passed, else not at all. */
  ghost predicate LeavesExactly(s: Shard, t: Shard, deadline: bool) {
    var drained := s.shuttingDown && s.pending == map[] && s.backlog == [];
    && (t.phase.Drained? <==> drained)
    && (t.phase.Leaked? <==> s.shuttingDown && deadline && !drained)
    && (t.phase.Running? ==> t == s)
  }

  /** When the exit check leaves, and how. */
  lemma LeavesIs(s: Shard, c: Choice, trace: seq<Event>)
    requires s.phase.Running? && Leaves(s, c, trace)
    ensures LeavesExactly(s, Run(s, trace), c.deadline)
  {
    hide Run, CloseUnreferenced, LeaveDrained, LeaveLeaked, Enumerates;
    NoSteps(s);
    if s.shuttingDown && s.pending == map[] && s.backlog == [] {
      LeaveSteps(s, []);
      LeaveIs(s, []);
    } else if s.shuttingDown && c.deadline {
      assert trace == [ExitLeaked(trace[0].order)];
      LeaveSteps(s, trace[0].order);
      LeaveIs(s, trace[0].order);
    }
  }
}
