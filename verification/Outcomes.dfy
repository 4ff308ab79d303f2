/**
 * Why each read ended the way it did: over every run, what each use of a sender
 * was caused by, whom the counters count, and what the kernel or a caller must
 * have done for an error to appear.
 */
module Outcomes {
  import opened Base
  import opened Geometry
  import opened LogicalRead
  import opened ShardMachine
  import opened ShardInvariant
  import opened CancelSteps
  import opened ShardTheorems
  import opened Frames
  import opened ThreadEffects

  // ---- causes ----

  /** A queued read whose channel went away. */
  ghost predicate Dropped(s: Shard, r: Resolution) {
    && r.outcome == ChannelDropped && r.observed == (r.id !in s.closed)
    && exists m :: m in s.queue && m.Read? && m.id == r.id
  }

  /** What makes a sender be used, in which state, with which outcome, and whether anyone saw it. */
  ghost predicate Caused(s: Shard, e: Event, r: Resolution) {
    match e
    case RecvRead(_, _, aligns) =>
      && s.queue != [] && s.queue[0].Read? && s.queue[0].id == r.id && r.observed == (r.id !in s.closed)
      && (s.shuttingDown || !aligns) && r.outcome == if s.shuttingDown then ShuttingDown else CannotAlign
    case Reap(lateClose, metaOk) =>
      && HasEntry(s) && s.cq[0].ud == r.id && r.observed == (r.id !in s.closed && !lateClose)
      && var p, res := s.pending[r.id], s.cq[0].res;
      && !MustGoOn(p, res, s.shuttingDown)
      && Explained(p, res, s.shuttingDown, Metadata(s.requests[r.id], metaOk), s.heap[p.block].bytes, r.id !in s.closed, r.outcome)
    case ExitDrained => s.shuttingDown && Dropped(s, r)
    case ExitLeaked(_) =>
      && s.shuttingDown
      && (Dropped(s, r) || (r.id in s.pending && r.outcome == LeakedAtExit && r.observed == (r.id !in s.closed)))
    case _ => false
  }

  /** The event adds uses of senders only as it causes them. */
  ghost predicate Grows(s: Shard, e: Event, t: Shard) {
    && s.results <= t.results
    && forall i :: |s.results| <= i < |t.results| ==> Caused(s, e, t.results[i])
  }

  /** No sender is used, and nothing is counted but requests and failures. */
  predicate SameLedger(s: Shard, t: Shard) {
    && t.results == s.results
    && t.stats == s.stats.(submitted := t.stats.submitted, inFlight := t.stats.inFlight, submitErrors := t.stats.submitErrors)
  }

  /** Events that use no sender. */
  predicate Mute(e: Event) {
    InRings(e) || InCallers(e) || e.RecvCancel? || e.RecvShutdown? || e.SeeDisconnect? || e.SubmitReturned?
  }

  lemma CancelIsMute(s: Shard)
    ensures SameLedger(s, DoRecvCancel(s))
  {
    if s.phase.Running? && s.queue != [] && s.queue[0].Cancel? {
      IntakeCancelIs(s);
      hide DoRecvCancel;
    }
  }

  lemma SweepsAreMute(s: Shard, result: SubmitResult, order: seq<nat>)
    ensures SameLedger(s, DoRecvShutdown(s, order))
    ensures SameLedger(s, DoSubmitReturned(s, result, order))
  {
    hide CancelAll, Enumerates;
    if s.queue != [] {
      CancelAllFrame(StartShutdown(s.(queue := s.queue[1..])), order);
    }
    CancelAllFrame(StartShutdown(CountFailure(s)), order);
  }

  lemma MuteKeepsLedger(s: Shard, e: Event)
    requires Mute(e)
    ensures SameLedger(s, Next(s, e))
  {
    if InRings(e) {
      hide Next;
      RingFrame(s, e);
    } else if InCallers(e) {
      hide Next;
      CallerFrame(s, e);
    } else {
      hide SameLedger, DoRecvCancel, DoRecvShutdown, DoSubmitReturned;
      match e
      case RecvCancel => CancelIsMute(s);
      case RecvShutdown(order) => SweepsAreMute(s, EnterOk, order);
      case SubmitReturned(result, order) => SweepsAreMute(s, result, order);
      case SeeDisconnect => DisconnectIsMute(s);
    }
  }

  lemma DisconnectIsMute(s: Shard)
    ensures SameLedger(s, DoSeeDisconnect(s))
  {
  }

  // ---- intake ----

  /** A read taken is refused or entered, or the step is not possible. */
  lemma RecvReadIs(s: Shard, block: nat, base: nat, aligns: bool)
    requires Inv(s)
    ensures var t := DoRecvRead(s, block, base, aligns);
            || t == s
            || (s.phase.Running? && s.queue != [] && s.queue[0].Read?
                && if s.shuttingDown then Refuses(s, t, ShuttingDown)
                   else if !aligns then Refuses(s, t, CannotAlign) else Enters(s, t, block, base))
  {
    hide Inv, AlignedGeometry, Admit, Reject, Refuses, Enters;
    if s.phase.Running? && s.queue != [] && s.queue[0].Read? {
      if s.shuttingDown {
        RejectRefuses(s, ShuttingDown);
      } else if block !in s.heap {
        IntakeReadIs(s, block, base, aligns);
      }
    }
  }

  lemma RefusalGrows(s: Shard, block: nat, base: nat, aligns: bool, t: Shard, outcome: Outcome)
    requires s.queue != [] && s.queue[0].Read? && Refuses(s, t, outcome)
    requires (s.shuttingDown || !aligns) && outcome == if s.shuttingDown then ShuttingDown else CannotAlign
    ensures Grows(s, RecvRead(block, base, aligns), t)
  {
  }

  lemma EnteredIsMute(s: Shard, t: Shard, block: nat, base: nat)
    requires s.queue != [] && s.queue[0].Read? && Enters(s, t, block, base)
    ensures SameLedger(s, t)
  {
    hide Fresh;
  }

  lemma RecvReadGrows(s: Shard, block: nat, base: nat, aligns: bool)
    requires Inv(s)
    ensures Grows(s, RecvRead(block, base, aligns), DoRecvRead(s, block, base, aligns))
  {
    RecvReadIs(s, block, base, aligns);
    hide Inv, DoRecvRead, Refuses, Enters, Grows, SameLedger;
    var e, t := RecvRead(block, base, aligns), DoRecvRead(s, block, base, aligns);
    if t == s {
      NothingGrows(s, e);
    } else if s.shuttingDown {
      RefusalGrows(s, block, base, aligns, t, ShuttingDown);
    } else if !aligns {
      RefusalGrows(s, block, base, aligns, t, CannotAlign);
    } else {
      EnteredIsMute(s, t, block, base);
      LedgerGrows(s, e, t);
    }
  }

  lemma LedgerGrows(s: Shard, e: Event, t: Shard)
    requires SameLedger(s, t)
    ensures Grows(s, e, t)
  {
    hide Caused;
  }

  lemma SameResultsGrow(s: Shard, e: Event, t: Shard)
    requires t.results == s.results
    ensures Grows(s, e, t)
  {
    hide Caused;
  }

  lemma NothingGrows(s: Shard, e: Event)
    ensures Grows(s, e, s)
  {
    hide Caused;
  }

  // ---- completions ----

  /** What a reap does: nothing, count the answer to a cancel, or complete a read. */
  lemma ReapIs(s: Shard, lateClose: bool, metaOk: bool)
    requires Inv(s)
    ensures var t := DoReap(s, lateClose, metaOk);
            if !s.phase.Running? || s.cq == [] then t == s
            else if s.cq[0].ud >= CANCEL_BIT then t == s.(cq := s.cq[1..], stats := CountCancel(s.stats, s.cq[0].res))
            else HasEntry(s) && Completes(s, t, lateClose, metaOk)
  {
    hide Inv, CountCancel, Completes, HasEntry, ReapEntry;
    if s.phase.Running? && s.cq != [] && s.cq[0].ud < CANCEL_BIT {
      ReapReadIs(s, lateClose, metaOk);
    }
  }

  lemma GoesOnIsMute(s: Shard, t: Shard)
    requires s.cq != [] && s.cq[0].ud in s.pending && GoesOn(s, t)
    ensures SameLedger(s, t)
  {
    hide Reached;
  }

  lemma EndsLedger(s: Shard, t: Shard, outcome: Outcome, lateClose: bool)
    requires s.cq != [] && s.cq[0].ud in s.pending && Ends(s, t, outcome, lateClose)
    ensures var id := s.cq[0].ud;
            var observed := id !in s.closed && !lateClose;
            && t.results == s.results + [Resolution(id, outcome, observed)]
            && t.stats == s.stats.(inFlight := s.stats.inFlight - 1,
                                   delivered := if observed then s.stats.delivered + 1 else s.stats.delivered,
                                   orphans := if observed then s.stats.orphans else s.stats.orphans + 1)
  {
  }

  lemma CompletionGrows(s: Shard, t: Shard, lateClose: bool, metaOk: bool)
    requires HasEntry(s) && Completes(s, t, lateClose, metaOk)
    ensures Grows(s, Reap(lateClose, metaOk), t)
  {
    hide MustGoOn, Explained, GoesOn, Ends;
    if MustGoOn(s.pending[s.cq[0].ud], s.cq[0].res, s.shuttingDown) {
      GoesOnIsMute(s, t);
      LedgerGrows(s, Reap(lateClose, metaOk), t);
    } else {
      EndsLedger(s, t, t.results[|s.results|].outcome, lateClose);
    }
  }

  lemma ReapGrows(s: Shard, lateClose: bool, metaOk: bool)
    requires Inv(s)
    ensures Grows(s, Reap(lateClose, metaOk), DoReap(s, lateClose, metaOk))
  {
    ReapIs(s, lateClose, metaOk);
    hide Inv, DoReap, CountCancel, HasEntry, Completes, Grows;
    var e, t := Reap(lateClose, metaOk), DoReap(s, lateClose, metaOk);
    if s.phase.Running? && s.cq != [] && s.cq[0].ud < CANCEL_BIT {
      CompletionGrows(s, t, lateClose, metaOk);
    } else {
      SameResultsGrow(s, e, t);
    }
  }

  // ---- exits ----

  lemma {:induction false} DropQueueIs(queue: seq<Msg>, closed: set<nat>)
    ensures forall r :: r in DropQueue(queue, closed) ==>
              && r.outcome == ChannelDropped && r.observed == (r.id !in closed)
              && exists m :: m in queue && m.Read? && m.id == r.id
  {
    if queue != [] {
      DropQueueIs(queue[1..], closed);
      forall r | r in DropQueue(queue, closed)
        ensures r.outcome == ChannelDropped && r.observed == (r.id !in closed)
        ensures exists m :: m in queue && m.Read? && m.id == r.id
      {
        if r in DropQueue(queue[1..], closed) {
          var m :| m in queue[1..] && m.Read? && m.id == r.id;
          assert m in queue;
        } else {
          assert queue[0] in queue;
        }
      }
    }
  }

  lemma LeakResultsAre(order: seq<nat>, closed: set<nat>, ids: set<nat>)
    requires Enumerates(order, ids)
    ensures forall r :: r in LeakResults(order, closed) ==>
              r.outcome == LeakedAtExit && r.observed == (r.id !in closed) && r.id in ids
  {
    EnumerationIsPending(order, ids);
  }

  lemma ExitResults(s: Shard, order: seq<nat>)
    ensures DoExitDrained(s) == s || (s.shuttingDown && DoExitDrained(s).results == s.results + DropQueue(s.queue, s.closed))
    ensures DoExitLeaked(s, order) == s
            || (s.shuttingDown && Enumerates(order, s.pending.Keys)
                && DoExitLeaked(s, order).results == s.results + LeakResults(order, s.closed) + DropQueue(s.queue, s.closed))
    ensures DoExitDrained(s).stats == s.stats && DoExitLeaked(s, order).stats == s.stats
  {
    hide FdRefs, Referenced, DropQueue, LeakResults, Senderless, Enumerates;
  }

  lemma DrainedGrows(s: Shard)
    ensures Grows(s, ExitDrained, DoExitDrained(s))
  {
    ExitResults(s, []);
    DropQueueIs(s.queue, s.closed);
    hide DoExitDrained, DropQueue;
  }

  lemma LeakedGrows(s: Shard, order: seq<nat>)
    ensures Grows(s, ExitLeaked(order), DoExitLeaked(s, order))
  {
    ExitResults(s, order);
    DropQueueIs(s.queue, s.closed);
    hide DoExitLeaked, DropQueue, LeakResults, Enumerates;
    if Enumerates(order, s.pending.Keys) {
      LeakResultsAre(order, s.closed, s.pending.Keys);
    }
  }

  lemma MuteGrows(s: Shard, e: Event)
    requires Mute(e)
    ensures Grows(s, e, Next(s, e))
  {
    hide Next, Caused;
    MuteKeepsLedger(s, e);
  }

  /** Every event of the shard uses senders only as it has cause to. */
  lemma NextGrows(s: Shard, e: Event)
    requires Inv(s)
    ensures Grows(s, e, Next(s, e))
  {
    hide Inv, Grows, DoRecvRead, DoReap, DoExitDrained, DoExitLeaked;
    if Mute(e) {
      MuteGrows(s, e);
    } else {
      match e
      case RecvRead(block, base, aligns) => RecvReadGrows(s, block, base, aligns);
      case Reap(lateClose, metaOk) => ReapGrows(s, lateClose, metaOk);
      case ExitDrained => DrainedGrows(s);
      case ExitLeaked(order) => LeakedGrows(s, order);
    }
  }

  /** Some event of the run caused this use of a sender. */
  ghost predicate HasCause(start: Shard, events: seq<Event>, r: Resolution) {
    exists k :: 0 <= k < |events| && Caused(Run(start, events[..k]), events[k], r)
  }

  lemma CauseStays(start: Shard, events: seq<Event>, r: Resolution)
    requires events != [] && HasCause(start, events[..|events| - 1], r)
    ensures HasCause(start, events, r)
  {
    hide Run, Caused;
    var init := events[..|events| - 1];
    var k :| 0 <= k < |init| && Caused(Run(start, init[..k]), init[k], r);
    assert events[..k] == init[..k] && events[k] == init[k];
  }

  /**
   * Over every run of a shard, every result a sender was used for, the bytes of a
   * success and the errno of a failure included, is the one that some event of the
   * run had to lead to.
   */
  lemma {:induction false} ResultsHaveCauses(sqCap: nat, events: seq<Event>)
    ensures var s := Run(Init(sqCap), events);
            forall i :: 0 <= i < |s.results| ==> HasCause(Init(sqCap), events, s.results[i])
    decreases |events|
  {
    hide Next, Caused, HasCause;
    if events != [] {
      var init, e := events[..|events| - 1], events[|events| - 1];
      ResultsHaveCauses(sqCap, init);
      var u := Run(Init(sqCap), init);
      InitInv(sqCap);
      RunKeepsInv(Init(sqCap), init);
      NextGrows(u, e);
      hide Run, Inv;
      var s := Next(u, e);
      forall i | 0 <= i < |s.results|
        ensures HasCause(Init(sqCap), events, s.results[i])
      {
        if i < |u.results| {
          assert s.results[i] == u.results[i];
          CauseStays(Init(sqCap), events, s.results[i]);
        } else {
          LastCause(Init(sqCap), events, s.results[i]);
        }
      }
    }
  }

  lemma LastCause(start: Shard, events: seq<Event>, r: Resolution)
    requires events != [] && Caused(Run(start, events[..|events| - 1]), events[|events| - 1], r)
    ensures HasCause(start, events, r)
  {
  }
}
