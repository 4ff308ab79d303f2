/**
 * Who is to blame for an error: an errno is the kernel's answer to that very read,
 * or `ECANCELED` for a read that a caller cancelled or a shard told to drain.
 */
module ErrorCauses {
  import opened Base
  import opened Geometry
  import opened LogicalRead
  import opened ShardMachine
  import opened ShardInvariant
  import opened CancelSteps
  import opened ShardTheorems
  import opened Frames
  import opened ThreadEffects
  import opened Outcomes

  /** The kernel answers the read with this result. */
  predicate AnswersRead(s: Shard, e: Event, id: nat, res: int) {
    e.CompleteRead? && e.res == res && IsRead(s, e.op) && s.ops[e.op].sqe.ud == id
  }

  ghost predicate Answered(start: Shard, events: seq<Event>, id: nat, res: int) {
    exists k :: 0 <= k < |events| && AnswersRead(Run(start, events[..k]), events[k], id, res)
  }

  /** Somebody told the shard to drain: a shutdown, the last sender gone, or failing submissions. */
  ghost predicate ToldToDrain(events: seq<Event>) {
    exists e :: e in events && (e.SendShutdown? || e.DropSenders? || (e.SubmitReturned? && e.result.Hard()))
  }

  /** Somebody asked for the read to stop. */
  ghost predicate AskedToStop(events: seq<Event>, id: nat) {
    SendCancel(id) in events || ToldToDrain(events)
  }

  // ---- where what a step leaves comes from ----

  /** Completions, messages, marks and the drain itself all come from somewhere. */
  ghost predicate From(s: Shard, e: Event, t: Shard) {
    && (forall c :: c in t.cq ==> c in s.cq || c.ud >= CANCEL_BIT || AnswersRead(s, e, c.ud, c.res))
    && (forall m :: m in t.queue ==> m in s.queue || m.Read? || (m.Cancel? && e == SendCancel(m.id)) || (m.Shutdown? && e.SendShutdown?))
    && (forall id :: id in t.pending && t.pending[id].cancelRequested ==>
          (id in s.pending && s.pending[id].cancelRequested) || Cancel(id) in s.queue)
    && (t.shuttingDown ==> s.shuttingDown || Shutdown in s.queue || !s.senders || (e.SubmitReturned? && e.result.Hard()))
    && (!t.senders ==> !s.senders || e.DropSenders?)
    && RequestsFrom(s, e, t)
  }

  ghost predicate RequestsFrom(s: Shard, e: Event, t: Shard) {
    forall id :: id in t.requests ==>
      (id in s.requests && t.requests[id] == s.requests[id]) || (e.SendRead? && e.id == id && e.args == t.requests[id].args)
  }

  lemma RingsFrom(s: Shard, e: Event)
    requires InRings(e)
    ensures From(s, e, Next(s, e))
  {
    RingFrame(s, e);
    CqFrom(s, e);
    hide Next;
  }

  lemma CqFrom(s: Shard, e: Event)
    requires InRings(e)
    ensures forall c :: c in Next(s, e).cq ==> c in s.cq || c.ud >= CANCEL_BIT || AnswersRead(s, e, c.ud, c.res)
  {
    hide LegalCompletion, Stored, Mapped, Taken;
  }

  lemma CallersFrom(s: Shard, e: Event)
    requires InCallers(e)
    ensures From(s, e, Next(s, e))
  {
    CallerFrame(s, e);
    CallersQueue(s, e);
    hide Next;
  }

  lemma CallersQueue(s: Shard, e: Event)
    requires InCallers(e)
    ensures var t := Next(s, e);
            && (forall m :: m in t.queue ==> m in s.queue || m.Read? || (m.Cancel? && e == SendCancel(m.id)) || (m.Shutdown? && e.SendShutdown?))
            && (!t.senders ==> !s.senders || e.DropSenders?)
            && RequestsFrom(s, e, t)
  {
    hide ValidArgs, FdRefs, Referenced;
    hide DoRecvRead, DoRecvCancel, DoRecvShutdown, DoSeeDisconnect, DoSubmitReturned, DoReap, DoExitDrained, DoExitLeaked;
    hide DoAcceptOne, DoFlushOne, DoKernelWrite, DoCompleteRead, DoCompleteCancel;
  }

  /** The part of `From` that a step of the thread has to show. */
  ghost predicate ThreadFrom(s: Shard, e: Event, t: Shard) {
    && (t.queue == s.queue || t.queue == [] || (s.queue != [] && t.queue == s.queue[1..]))
    && (forall id :: id in t.pending && t.pending[id].cancelRequested ==>
          (id in s.pending && s.pending[id].cancelRequested) || Cancel(id) in s.queue)
    && (t.shuttingDown ==> s.shuttingDown || Shutdown in s.queue || !s.senders || (e.SubmitReturned? && e.result.Hard()))
  }

  lemma ThreadIsFrom(s: Shard, e: Event)
    requires InThread(e) && ThreadFrom(s, e, Next(s, e))
    ensures From(s, e, Next(s, e))
  {
    hide Next;
    ThreadFrame(s, e);
  }

  lemma RecvReadFrom(s: Shard, e: Event)
    requires Inv(s) && e.RecvRead?
    ensures ThreadFrom(s, e, DoRecvRead(s, e.block, e.base, e.aligns))
  {
    RecvReadIs(s, e.block, e.base, e.aligns);
    hide Inv, DoRecvRead, Enters;
    var t := DoRecvRead(s, e.block, e.base, e.aligns);
    if t != s && !s.shuttingDown && e.aligns {
      EntersFrom(s, e, t);
    }
  }

  lemma EntersFrom(s: Shard, e: Event, t: Shard)
    requires e.RecvRead? && s.queue != [] && s.queue[0].Read? && Enters(s, t, e.block, e.base)
    ensures ThreadFrom(s, e, t)
  {
    hide LeastCover;
  }

  lemma RecvCancelFrom(s: Shard)
    ensures ThreadFrom(s, RecvCancel, DoRecvCancel(s))
  {
    if s.phase.Running? && s.queue != [] && s.queue[0].Cancel? {
      IntakeCancelIs(s);
      hide DoRecvCancel;
      assert s.queue[0] == Cancel(s.queue[0].id) && s.queue[0] in s.queue;
    }
  }

  lemma RecvShutdownFrom(s: Shard, order: seq<nat>)
    ensures ThreadFrom(s, RecvShutdown(order), DoRecvShutdown(s, order))
  {
    if s.phase.Running? && s.queue != [] && s.queue[0].Shutdown? && Enumerates(order, s.pending.Keys) {
      IntakeShutdownIs(s, order);
      hide DoRecvShutdown, Cancels, Enumerates;
      assert s.queue[0] == Shutdown && s.queue[0] in s.queue;
    }
  }

  lemma SubmitReturnedFrom(s: Shard, result: SubmitResult, order: seq<nat>)
    ensures ThreadFrom(s, SubmitReturned(result, order), DoSubmitReturned(s, result, order))
  {
    hide CancelAll, Enumerates;
    CancelAllFrame(StartShutdown(CountFailure(s)), order);
  }

  lemma ReapFrom(s: Shard, lateClose: bool, metaOk: bool)
    requires Inv(s)
    ensures ThreadFrom(s, Reap(lateClose, metaOk), DoReap(s, lateClose, metaOk))
  {
    ReapIs(s, lateClose, metaOk);
    hide Inv, DoReap, CountCancel, HasEntry, Completes;
    if s.phase.Running? && s.cq != [] && s.cq[0].ud < CANCEL_BIT {
      CompletionFrom(s, DoReap(s, lateClose, metaOk), lateClose, metaOk);
    }
  }

  lemma CompletionFrom(s: Shard, t: Shard, lateClose: bool, metaOk: bool)
    requires HasEntry(s) && Completes(s, t, lateClose, metaOk)
    ensures ThreadFrom(s, Reap(lateClose, metaOk), t)
  {
    hide MustGoOn, Explained, Reached;
  }

  lemma ExitsFrom(s: Shard, order: seq<nat>)
    ensures ThreadFrom(s, ExitDrained, DoExitDrained(s)) && ThreadFrom(s, ExitLeaked(order), DoExitLeaked(s, order))
    ensures ThreadFrom(s, SeeDisconnect, DoSeeDisconnect(s))
  {
    hide CloseUnreferenced, LeaveDrained, LeaveLeaked, Enumerates;
    LeaveIs(s, order);
  }

  lemma NextComesFrom(s: Shard, e: Event)
    requires Inv(s)
    ensures From(s, e, Next(s, e))
  {
    hide Inv, From, ThreadFrom;
    if InRings(e) {
      RingsFrom(s, e);
    } else if InCallers(e) {
      CallersFrom(s, e);
    } else {
      ThreadStepFrom(s, e);
      ThreadIsFrom(s, e);
    }
  }

  lemma ThreadStepFrom(s: Shard, e: Event)
    requires Inv(s) && InThread(e)
    ensures ThreadFrom(s, e, Next(s, e))
  {
    hide Inv, ThreadFrom;
    hide DoRecvRead, DoRecvCancel, DoRecvShutdown, DoSeeDisconnect, DoSubmitReturned, DoReap, DoExitDrained, DoExitLeaked;
    match e
    case RecvRead(block, base, aligns) => RecvReadFrom(s, e);
    case RecvCancel => RecvCancelFrom(s);
    case RecvShutdown(order) => RecvShutdownFrom(s, order);
    case SubmitReturned(result, order) => SubmitReturnedFrom(s, result, order);
    case Reap(lateClose, metaOk) => ReapFrom(s, lateClose, metaOk);
    case SeeDisconnect => ExitsFrom(s, []);
    case ExitDrained => ExitsFrom(s, []);
    case ExitLeaked(order) => ExitsFrom(s, order);
  }

  // ---- over runs ----

  /** In a run, completions, messages, marks and the drain go back to events of the run. */
  ghost predicate Sourced(start: Shard, events: seq<Event>, s: Shard) {
    && (forall c :: c in s.cq && c.ud < CANCEL_BIT ==> Answered(start, events, c.ud, c.res))
    && (forall m :: m in s.queue && m.Cancel? ==> SendCancel(m.id) in events)
    && (Shutdown in s.queue || !s.senders || s.shuttingDown ==> ToldToDrain(events))
    && (forall id :: id in s.pending && s.pending[id].cancelRequested ==> SendCancel(id) in events)
    && (forall id :: id in s.requests ==> Sent(events, id, s.requests[id].args))
  }

  /** The read was sent with these arguments. */
  ghost predicate Sent(events: seq<Event>, id: nat, args: Args) {
    exists e :: e in events && e.SendRead? && e.id == id && e.args == args
  }

  lemma AnswerStays(start: Shard, a: seq<Event>, b: seq<Event>, id: nat, res: int)
    requires a <= b && Answered(start, a, id, res)
    ensures Answered(start, b, id, res)
  {
    hide Run, AnswersRead;
    var k :| 0 <= k < |a| && AnswersRead(Run(start, a[..k]), a[k], id, res);
    assert b[..k] == a[..k] && b[k] == a[k];
  }

  lemma DrainStays(a: seq<Event>, b: seq<Event>)
    requires a <= b
    ensures ToldToDrain(a) ==> ToldToDrain(b)
    ensures forall id :: SendCancel(id) in a ==> SendCancel(id) in b
    ensures forall id, args :: Sent(a, id, args) ==> Sent(b, id, args)
  {
    if ToldToDrain(a) {
      var e :| e in a && (e.SendShutdown? || e.DropSenders? || (e.SubmitReturned? && e.result.Hard()));
      assert e in b;
    }
  }

  lemma AnswersSourced(start: Shard, events: seq<Event>, s: Shard, t: Shard)
    requires events != [] && s == Run(start, events[..|events| - 1])
    requires Sourced(start, events[..|events| - 1], s) && From(s, events[|events| - 1], t)
    ensures forall c :: c in t.cq && c.ud < CANCEL_BIT ==> Answered(start, events, c.ud, c.res)
  {
    hide Run, AnswersRead;
    var init, e := events[..|events| - 1], events[|events| - 1];
    forall c | c in t.cq && c.ud < CANCEL_BIT
      ensures Answered(start, events, c.ud, c.res)
    {
      if c in s.cq {
        AnswerStays(start, init, events, c.ud, c.res);
      }
    }
  }

  lemma NextSourced(start: Shard, events: seq<Event>, s: Shard, t: Shard)
    requires events != [] && s == Run(start, events[..|events| - 1])
    requires Sourced(start, events[..|events| - 1], s) && From(s, events[|events| - 1], t)
    ensures Sourced(start, events, t)
  {
    hide Run, AnswersRead, Answered;
    AnswersSourced(start, events, s, t);
    var init, e := events[..|events| - 1], events[|events| - 1];
    DrainStays(init, events);
    assert e in events;
    if e.SendShutdown? || e.DropSenders? || (e.SubmitReturned? && e.result.Hard()) {
      assert ToldToDrain(events);
    }
    forall id | id in t.requests
      ensures Sent(events, id, t.requests[id].args)
    {
      assert id !in s.requests ==> e.SendRead? && e.id == id && e.args == t.requests[id].args;
    }
    hide ToldToDrain, Sent;
  }

  lemma {:induction false} RunIsSourced(sqCap: nat, events: seq<Event>)
    ensures Sourced(Init(sqCap), events, Run(Init(sqCap), events)) && Inv(Run(Init(sqCap), events))
    decreases |events|
  {
    InitInv(sqCap);
    hide Next, Inv;
    RunKeepsInv(Init(sqCap), events);
    if events != [] {
      var init, e := events[..|events| - 1], events[|events| - 1];
      RunIsSourced(sqCap, init);
      hide Sourced, From;
      var u := Run(Init(sqCap), init);
      NextComesFrom(u, e);
      NextSourced(Init(sqCap), events, u, Next(u, e));
    }
  }

  // ---- errors ----

  /** What must have happened in a run for a read to end like this. */
  ghost predicate Justified(start: Shard, events: seq<Event>, id: nat, outcome: Outcome) {
    match outcome
    case Ok(_) => exists res: int :: res >= 0 && Answered(start, events, id, res)
    case OsError(errno) => (errno > 0 && Answered(start, events, id, -errno)) || (errno == ECANCELED && AskedToStop(events, id))
    case UnalignedShortRead =>
      && (exists res: int :: res > 0 && Answered(start, events, id, res))
      && exists args: Args :: args.align > 1 && Sent(events, id, args)
    case MetadataFailed => exists e :: e in events && e.Reap? && !e.metaOk
    case CannotAlign => exists e :: e in events && e.RecvRead? && !e.aligns
    case ShuttingDown => ToldToDrain(events)
    case LeakedAtExit => ToldToDrain(events)
    case ChannelDropped => ToldToDrain(events)
  }

  lemma JustifiedStays(start: Shard, a: seq<Event>, b: seq<Event>, id: nat, outcome: Outcome)
    requires a <= b && Justified(start, a, id, outcome)
    ensures Justified(start, b, id, outcome)
  {
    DrainStays(a, b);
    assert forall e :: e in a ==> e in b;
    forall res: int | Answered(start, a, id, res)
      ensures Answered(start, b, id, res)
    {
      AnswerStays(start, a, b, id, res);
    }
    hide Answered, ToldToDrain, Sent;
  }

  lemma HeadAlign(s: Shard)
    requires Inv(s) && HasEntry(s)
    ensures s.pending[s.cq[0].ud].align == s.requests[s.cq[0].ud].args.align && s.cq[0].ud < CANCEL_BIT
  {
    var id := s.cq[0].ud;
    assert EntryOk(id, s.pending[id], s.requests[id], s.heap);
    hide Inv;
  }

  /** A stopped read was cancelled or is draining; a stranded one is direct and got something. */
  lemma EntryTells(s: Shard)
    requires Inv(s) && HasEntry(s)
    ensures s.cq[0].ud < CANCEL_BIT
    ensures var p, res := s.pending[s.cq[0].ud], s.cq[0].res;
            && (WasStopped(p, res, s.shuttingDown) ==> p.cancelRequested || s.shuttingDown)
            && (Stranded(p, res, s.shuttingDown) ==> res > 0 && s.requests[s.cq[0].ud].args.align > 1)
  {
    HeadAlign(s);
    hide Inv;
    var p := s.pending[s.cq[0].ud];
    if p.align == 1 {
      BufferedNeverStrands(p, s.cq[0].res, s.shuttingDown);
    }
  }

  lemma CompletionJustifies(start: Shard, init: seq<Event>, s: Shard, e: Event, r: Resolution)
    requires Inv(s) && Sourced(start, init, s) && e.Reap? && Caused(s, e, r)
    ensures Justified(start, init + [e], r.id, r.outcome)
  {
    hide Inv, MustGoOn, WasStopped, Stranded, Range, MustSucceed, EndsHere, HasEntry;
    OutcomeTells(s, e, r);
    var res := SourceTells(start, init, s, r.id);
    hide Caused, Explained, Sourced;
    DrainStays(init, init + [e]);
    AnswerStays(start, init, init + [e], r.id, res);
    hide Answered, ToldToDrain;
    assert e in init + [e];
  }

  /** What the completion behind an outcome was. */
  lemma OutcomeTells(s: Shard, e: Event, r: Resolution)
    requires Inv(s) && e.Reap? && Caused(s, e, r)
    ensures s.cq != [] && s.cq[0].ud == r.id && r.id < CANCEL_BIT && r.id in s.pending && r.id in s.requests
    ensures match r.outcome
            case Ok(_) => s.cq[0].res >= 0
            case OsError(errno) => s.cq[0].res == -errno < 0 || (errno == ECANCELED && (s.pending[r.id].cancelRequested || s.shuttingDown))
            case UnalignedShortRead => s.cq[0].res > 0 && s.requests[r.id].args.align > 1
            case MetadataFailed => !e.metaOk
            case _ => false
  {
    EntryTells(s);
    hide Inv, MustGoOn, WasStopped, Stranded, Range;
  }

  /** Where the head completion, the mark and the request of an entry come from. */
  lemma SourceTells(start: Shard, events: seq<Event>, s: Shard, id: nat) returns (res: int)
    requires Sourced(start, events, s) && s.cq != [] && s.cq[0].ud == id < CANCEL_BIT && id in s.pending && id in s.requests
    ensures res == s.cq[0].res && Answered(start, events, id, res)
    ensures s.pending[id].cancelRequested || s.shuttingDown ==> AskedToStop(events, id)
    ensures Sent(events, id, s.requests[id].args)
  {
    hide Answered, ToldToDrain, Sent;
    res := s.cq[0].res;
    assert s.cq[0] in s.cq;
  }

  lemma OtherJustifies(start: Shard, init: seq<Event>, s: Shard, e: Event, r: Resolution)
    requires Sourced(start, init, s) && !e.Reap? && Caused(s, e, r)
    ensures Justified(start, init + [e], r.id, r.outcome)
  {
    hide Answered, Sent;
    DrainStays(init, init + [e]);
    hide ToldToDrain;
    assert e in init + [e];
  }

  /**
   * Over every run, no read ends for no reason. An errno is the kernel's answer to
   * that very read, or `ECANCELED` for one that a caller cancelled or whose shard
   * was told to drain; a success follows an answer that is no error; each of the
   * driver's own errors follows the event it names.
   */
  lemma EveryOutcomeIsJustified(sqCap: nat, events: seq<Event>, r: Resolution)
    requires r in Run(Init(sqCap), events).results
    ensures Justified(Init(sqCap), events, r.id, r.outcome)
  {
    hide Run, Caused, Justified, Init;
    ResultsHaveCauses(sqCap, events);
    assert HasCause(Init(sqCap), events, r);
    var k :| 0 <= k < |events| && Caused(Run(Init(sqCap), events[..k]), events[k], r);
    CauseJustifies(sqCap, events[..k], events[k], r);
    assert events[..k] + [events[k]] <= events;
    JustifiedStays(Init(sqCap), events[..k] + [events[k]], events, r.id, r.outcome);
  }

  lemma CauseJustifies(sqCap: nat, init: seq<Event>, e: Event, r: Resolution)
    requires Caused(Run(Init(sqCap), init), e, r)
    ensures Justified(Init(sqCap), init + [e], r.id, r.outcome)
  {
    hide Run, Caused, Justified, Init, Sourced, Inv;
    RunIsSourced(sqCap, init);
    if e.Reap? {
      CompletionJustifies(Init(sqCap), init, Run(Init(sqCap), init), e, r);
    } else {
      OtherJustifies(Init(sqCap), init, Run(Init(sqCap), init), e, r);
    }
  }

  /**
   * A buffered read that nobody asked to stop, that the kernel never failed and
   * whose buffer was not refused succeeds whenever it ends; what an open receiver
   * sees of it is its range of its file.
   */
  lemma UntroubledReadsSucceed(sqCap: nat, events: seq<Event>, r: Resolution)
    requires r in Run(Init(sqCap), events).results
    requires !AskedToStop(events, r.id)
    requires forall res: int :: Answered(Init(sqCap), events, r.id, res) ==> res >= 0
    requires forall e :: e in events ==> !(e.RecvRead? && !e.aligns) && !(e.Reap? && !e.metaOk)
    requires forall a: Args :: Sent(events, r.id, a) ==> a.align == 1
    ensures r.outcome.Ok?
    ensures var s := Run(Init(sqCap), events);
            && r.id in s.requests
            && (r.observed && s.requests[r.id].args.offset != CURRENT_POSITION ==>
                  r.outcome.bytes == Pread(s.requests[r.id].file, s.requests[r.id].args.offset, s.requests[r.id].args.len))
  {
    hide Answered, Sent, ToldToDrain;
    EveryOutcomeIsJustified(sqCap, events, r);
    hide Run, Init;
    var s := Run(Init(sqCap), events);
    assert Reachable(s);
    hide Reachable, Justified;
    if r.observed {
      ObservedReadsAreExact(s, r);
    } else {
      ResultIsKnown(s, r);
    }
  }

  lemma ResultIsKnown(s: Shard, r: Resolution)
    requires Reachable(s) && r in s.results
    ensures r.id in s.requests
  {
    ReachableInv(s);
    assert ResultsOk(s.results, s.requests);
    hide Inv, Reachable;
    assert ResultOk(r, s.requests);
  }
}
