/** Whom the counters of a shard count, over every run. */
module Counters {
  import opened Base
  import opened LogicalRead
  import opened ShardMachine
  import opened ShardInvariant
  import opened ShardTheorems
  import opened Frames
  import opened ThreadEffects
  import opened Outcomes

  // ---- delivered and orphaned ----

  /** The outcome of a read whose final completion was reaped. */
  predicate Completed(outcome: Outcome) {
    outcome.Ok? || outcome.OsError? || outcome.UnalignedShortRead? || outcome.MetadataFailed?
  }

  /** Completed reads whose receiver was, or was not, there to see the result. */
  function Tally(results: seq<Resolution>, observed: bool): nat
    decreases |results|
  {
    if results == [] then 0
    else
      var r := results[|results| - 1];
      Tally(results[..|results| - 1], observed) + if Completed(r.outcome) && r.observed == observed then 1 else 0
  }

  ghost predicate Counted(s: Shard) {
    s.stats.delivered == Tally(s.results, true) && s.stats.orphans == Tally(s.results, false)
  }

  lemma TallySnoc(results: seq<Resolution>, r: Resolution, observed: bool)
    ensures Tally(results + [r], observed) == Tally(results, observed) + if Completed(r.outcome) && r.observed == observed then 1 else 0
  {
    assert (results + [r])[..|results|] == results;
  }

  lemma {:induction false} TallyOthers(a: seq<Resolution>, b: seq<Resolution>, observed: bool)
    requires forall r :: r in b ==> !Completed(r.outcome)
    ensures Tally(a + b, observed) == Tally(a, observed)
    decreases |b|
  {
    if b == [] {
      assert a + b == a;
    } else {
      var n := |b| - 1;
      TallyOthers(a, b[..n], observed);
      assert a + b == (a + b[..n]) + [b[n]];
      TallySnoc(a + b[..n], b[n], observed);
    }
  }

  lemma LedgerCounts(s: Shard, t: Shard)
    requires Counted(s) && SameLedger(s, t)
    ensures Counted(t)
  {
  }

  lemma RefusalCounts(s: Shard, t: Shard, outcome: Outcome)
    requires Counted(s) && s.queue != [] && s.queue[0].Read? && Refuses(s, t, outcome) && !Completed(outcome)
    ensures Counted(t)
  {
    var id := s.queue[0].id;
    TallySnoc(s.results, Resolution(id, outcome, id !in s.closed), true);
    TallySnoc(s.results, Resolution(id, outcome, id !in s.closed), false);
    hide Tally;
  }

  lemma RecvReadCounts(s: Shard, block: nat, base: nat, aligns: bool)
    requires Inv(s) && Counted(s)
    ensures Counted(DoRecvRead(s, block, base, aligns))
  {
    RecvReadIs(s, block, base, aligns);
    hide Inv, DoRecvRead, Refuses, Enters, Counted;
    var t := DoRecvRead(s, block, base, aligns);
    if t != s {
      if s.shuttingDown {
        RefusalCounts(s, t, ShuttingDown);
      } else if !aligns {
        RefusalCounts(s, t, CannotAlign);
      } else {
        EnteredIsMute(s, t, block, base);
        LedgerCounts(s, t);
      }
    }
  }

  lemma EndCounts(s: Shard, t: Shard, outcome: Outcome, lateClose: bool)
    requires Counted(s) && s.cq != [] && s.cq[0].ud in s.pending && Ends(s, t, outcome, lateClose) && Completed(outcome)
    ensures Counted(t)
  {
    EndsLedger(s, t, outcome, lateClose);
    hide Ends, Completed;
    var id := s.cq[0].ud;
    TallySnoc(s.results, Resolution(id, outcome, id !in s.closed && !lateClose), true);
    TallySnoc(s.results, Resolution(id, outcome, id !in s.closed && !lateClose), false);
    hide Tally;
  }

  lemma CompletionCounts(s: Shard, t: Shard, lateClose: bool, metaOk: bool)
    requires Counted(s) && HasEntry(s) && Completes(s, t, lateClose, metaOk)
    ensures Counted(t)
  {
    hide MustGoOn, MustSucceed, Stranded, Range, GoesOn, Ends, Counted;
    if MustGoOn(s.pending[s.cq[0].ud], s.cq[0].res, s.shuttingDown) {
      GoesOnIsMute(s, t);
      LedgerCounts(s, t);
    } else {
      EndCounts(s, t, t.results[|s.results|].outcome, lateClose);
    }
  }

  lemma CountCancelIs(stats: Stats, res: int)
    ensures var t := CountCancel(stats, res);
            && t == stats.(cancelSucceeded := t.cancelSucceeded, cancelNotFound := t.cancelNotFound, cancelAlready := t.cancelAlready)
            && t.cancelSucceeded == stats.cancelSucceeded + (if res == 0 then 1 else 0)
            && t.cancelNotFound == stats.cancelNotFound + (if res == -ENOENT then 1 else 0)
            && t.cancelAlready == stats.cancelAlready + (if res == -EALREADY then 1 else 0)
  {
  }

  lemma ReapCounts(s: Shard, lateClose: bool, metaOk: bool)
    requires Inv(s) && Counted(s)
    ensures Counted(DoReap(s, lateClose, metaOk))
  {
    ReapIs(s, lateClose, metaOk);
    hide Inv, DoReap, HasEntry, Completes;
    if s.phase.Running? && s.cq != [] {
      CountCancelIs(s.stats, s.cq[0].res);
      hide CountCancel;
      if s.cq[0].ud < CANCEL_BIT {
        CompletionCounts(s, DoReap(s, lateClose, metaOk), lateClose, metaOk);
      }
    }
  }

  lemma ExitCounts(s: Shard, order: seq<nat>)
    requires Counted(s)
    ensures Counted(DoExitDrained(s)) && Counted(DoExitLeaked(s, order))
  {
    ExitResults(s, order);
    DropQueueIs(s.queue, s.closed);
    hide DoExitDrained, DoExitLeaked, DropQueue, LeakResults, Enumerates, Tally;
    forall observed
      ensures Tally(s.results + DropQueue(s.queue, s.closed), observed) == Tally(s.results, observed)
    {
      TallyOthers(s.results, DropQueue(s.queue, s.closed), observed);
    }
    if Enumerates(order, s.pending.Keys) {
      LeakResultsAre(order, s.closed, s.pending.Keys);
      forall observed
        ensures Tally(s.results + LeakResults(order, s.closed) + DropQueue(s.queue, s.closed), observed) == Tally(s.results, observed)
      {
        TallyOthers(s.results, LeakResults(order, s.closed), observed);
        TallyOthers(s.results + LeakResults(order, s.closed), DropQueue(s.queue, s.closed), observed);
      }
    }
  }

  lemma NextCounts(s: Shard, e: Event)
    requires Inv(s) && Counted(s)
    ensures Counted(Next(s, e))
  {
    hide Inv, Counted, DoRecvRead, DoReap, DoExitDrained, DoExitLeaked;
    if Mute(e) {
      hide Next;
      MuteKeepsLedger(s, e);
      LedgerCounts(s, Next(s, e));
    } else {
      match e
      case RecvRead(block, base, aligns) => RecvReadCounts(s, block, base, aligns);
      case Reap(lateClose, metaOk) => ReapCounts(s, lateClose, metaOk);
      case ExitDrained => ExitCounts(s, []);
      case ExitLeaked(order) => ExitCounts(s, order);
    }
  }

  lemma {:induction false} RunCounts(s: Shard, events: seq<Event>)
    requires Inv(s) && Counted(s)
    ensures Counted(Run(s, events))
    decreases |events|
  {
    hide Inv, Counted, Next;
    if events != [] {
      var init := events[..|events| - 1];
      RunCounts(s, init);
      RunKeepsInv(s, init);
      NextCounts(Run(s, init), events[|events| - 1]);
    }
  }

  /**
   * In every reachable state `delivered` is the number of completed reads whose
   * result was observed, `orphans` the number of those whose result was not, and
   * with the reads in flight these are all that were ever submitted.
   */
  lemma CountersAreExact(s: Shard)
    requires Reachable(s)
    ensures s.stats.delivered == Tally(s.results, true)
    ensures s.stats.orphans == Tally(s.results, false)
    ensures s.stats.submitted == Tally(s.results, true) + Tally(s.results, false) + |s.pending|
  {
    Conservation(s);
    var sqCap: nat, events: seq<Event> :| s == Run(Init(sqCap), events);
    InitInv(sqCap);
    hide Inv, Run, Reachable;
    RunCounts(Init(sqCap), events);
  }

  // ---- answers to cancels ----

  /** The event consumes the answer to a cancel, and this is the answer. */
  predicate ReapsAnswer(s: Shard, e: Event, res: int) {
    e.Reap? && s.phase.Running? && s.cq != [] && s.cq[0].ud >= CANCEL_BIT && s.cq[0].res == res
  }

  /** How many cancels were answered like this. */
  function Answers(start: Shard, events: seq<Event>, res: int): nat
    decreases |events|
  {
    if events == [] then 0
    else
      var init := events[..|events| - 1];
      Answers(start, init, res) + if ReapsAnswer(Run(start, init), events[|events| - 1], res) then 1 else 0
  }

  /** The counters of cancels move with the answers consumed, and otherwise not. */
  predicate CancelsCounted(s: Shard, e: Event, t: Shard) {
    && t.stats.cancelSucceeded == s.stats.cancelSucceeded + (if ReapsAnswer(s, e, 0) then 1 else 0)
    && t.stats.cancelNotFound == s.stats.cancelNotFound + (if ReapsAnswer(s, e, -ENOENT) then 1 else 0)
    && t.stats.cancelAlready == s.stats.cancelAlready + (if ReapsAnswer(s, e, -EALREADY) then 1 else 0)
  }

  predicate SameCancels(s: Shard, t: Shard) {
    && t.stats.cancelSucceeded == s.stats.cancelSucceeded && t.stats.cancelNotFound == s.stats.cancelNotFound
    && t.stats.cancelAlready == s.stats.cancelAlready
  }

  lemma RecvReadCancels(s: Shard, block: nat, base: nat, aligns: bool)
    requires Inv(s)
    ensures SameCancels(s, DoRecvRead(s, block, base, aligns))
  {
    RecvReadIs(s, block, base, aligns);
    hide Inv, DoRecvRead, Enters;
    var t := DoRecvRead(s, block, base, aligns);
    if t != s && !s.shuttingDown && aligns {
      EnteredIsMute(s, t, block, base);
    }
  }

  lemma CompletionCancels(s: Shard, t: Shard, lateClose: bool, metaOk: bool)
    requires HasEntry(s) && Completes(s, t, lateClose, metaOk)
    ensures SameCancels(s, t)
  {
    hide MustGoOn, Explained, GoesOn, Ends;
    if MustGoOn(s.pending[s.cq[0].ud], s.cq[0].res, s.shuttingDown) {
      GoesOnIsMute(s, t);
    } else {
      EndsLedger(s, t, t.results[|s.results|].outcome, lateClose);
    }
  }

  lemma AnswerCounted(s: Shard, e: Event, t: Shard)
    requires e.Reap? && s.phase.Running? && s.cq != [] && s.cq[0].ud >= CANCEL_BIT
    requires t.stats == CountCancel(s.stats, s.cq[0].res)
    ensures CancelsCounted(s, e, t)
  {
    CountCancelIs(s.stats, s.cq[0].res);
    hide CountCancel;
  }

  lemma NoAnswerCounted(s: Shard, e: Event, t: Shard)
    requires SameCancels(s, t) && (s.phase.Running? && s.cq != [] ==> s.cq[0].ud < CANCEL_BIT)
    ensures CancelsCounted(s, e, t)
  {
  }

  lemma ReapCancels(s: Shard, lateClose: bool, metaOk: bool)
    requires Inv(s)
    ensures CancelsCounted(s, Reap(lateClose, metaOk), DoReap(s, lateClose, metaOk))
  {
    ReapIs(s, lateClose, metaOk);
    hide Inv, DoReap, HasEntry, Completes, CountCancel, CancelsCounted;
    var e, t := Reap(lateClose, metaOk), DoReap(s, lateClose, metaOk);
    if s.phase.Running? && s.cq != [] && s.cq[0].ud >= CANCEL_BIT {
      AnswerCounted(s, e, t);
    } else {
      if s.phase.Running? && s.cq != [] {
        CompletionCancels(s, t, lateClose, metaOk);
      }
      NoAnswerCounted(s, e, t);
    }
  }

  lemma NextCancels(s: Shard, e: Event)
    requires Inv(s)
    ensures CancelsCounted(s, e, Next(s, e))
  {
    hide Inv, DoRecvRead, DoReap, DoExitDrained, DoExitLeaked;
    if Mute(e) {
      hide Next;
      MuteKeepsLedger(s, e);
    } else {
      hide CancelsCounted, SameCancels;
      match e
      case RecvRead(block, base, aligns) =>
        RecvReadCancels(s, block, base, aligns);
        SameIsCounted(s, e, Next(s, e));
      case Reap(lateClose, metaOk) => ReapCancels(s, lateClose, metaOk);
      case ExitDrained => ExitCancels(s, []);
      case ExitLeaked(order) => ExitCancels(s, order);
    }
  }

  lemma SameIsCounted(s: Shard, e: Event, t: Shard)
    requires SameCancels(s, t) && !e.Reap?
    ensures CancelsCounted(s, e, t)
  {
  }

  lemma ExitCancels(s: Shard, order: seq<nat>)
    ensures CancelsCounted(s, ExitDrained, DoExitDrained(s)) && CancelsCounted(s, ExitLeaked(order), DoExitLeaked(s, order))
  {
    ExitResults(s, order);
    hide DoExitDrained, DoExitLeaked;
  }

  lemma ReachedInv(sqCap: nat, events: seq<Event>)
    ensures Inv(Run(Init(sqCap), events))
  {
    InitInv(sqCap);
    hide Inv, Run;
    RunKeepsInv(Init(sqCap), events);
  }

  /** Over every run, each counter of cancels is the number of answers of its kind that were consumed. */
  lemma {:induction false} CancelCountersAreExact(sqCap: nat, events: seq<Event>)
    ensures var t := Run(Init(sqCap), events);
            && t.stats.cancelSucceeded == Answers(Init(sqCap), events, 0)
            && t.stats.cancelNotFound == Answers(Init(sqCap), events, -ENOENT)
            && t.stats.cancelAlready == Answers(Init(sqCap), events, -EALREADY)
    decreases |events|
  {
    hide Next, ReapsAnswer;
    if events != [] {
      var init := events[..|events| - 1];
      CancelCountersAreExact(sqCap, init);
      ReachedInv(sqCap, init);
      hide Inv, Init;
      NextCancels(Run(Init(sqCap), init), events[|events| - 1]);
    }
  }
}
