/** What holds of every run of a whole driver, shards, semaphores and waiters together. */
module AdmissionTheorems {
  import opened Base
  import opened Geometry
  import opened ShardMachine
  import SI = ShardInvariant
  import ST = ShardTheorems
  import CT = CancelTheorems
  import opened Semaphores
  import opened Permits
  import opened Admission
  import opened AdmissionSteps
  import opened AdmissionHandles
  import opened Frames

  // ---- every shard of a driver is a run of its own ----

  ghost predicate ShardStep(s: Shard, t: Shard) {
    t == s || exists e: ShardMachine.Event :: t == ShardMachine.Next(s, e)
  }

  /** Closing is for ever, and a shard that leaves closes its own admission. */
  predicate Closing(s: Shard, count: Sem, t: Shard, after: Sem) {
    && (count.closed ==> after.closed)
    && (s.phase.Running? && !t.phase.Running? ==> after.closed)
  }

  /** The configuration stays, each shard takes at most one step, and closed admission stays closed. */
  ghost predicate OneStep(d: Driver, t: Driver) {
    && t.entries == d.entries && t.limits == d.limits
    && |t.shards| == |d.shards| && |t.counts| == |d.counts|
    && (d.bytes.Some? <==> t.bytes.Some?) && (d.bytes.Some? && d.bytes.value.closed ==> t.bytes.value.closed)
    && (forall i :: 0 <= i < |d.shards| ==> ShardStep(d.shards[i], t.shards[i]))
    && (|d.shards| == |d.counts| ==>
          forall i :: 0 <= i < |d.shards| ==> Closing(d.shards[i], d.counts[i], t.shards[i], t.counts[i]))
  }

  lemma {:induction false} ReleaseKeepsClosed(s: Sem, n: nat)
    ensures Release(s, n).closed == s.closed
    decreases |s.queue|
  {
    if !s.closed && s.queue != [] && n != 0 {
      var w := s.queue[0];
      if w.got + n >= w.need {
        ReleaseKeepsClosed(s.(queue := s.queue[1..], granted := s.granted + [w.(got := w.need)]),
                           if w.need >= w.got then n - (w.need - w.got) else n);
      }
    }
  }

  predicate SameBytes(d: Driver, bytes: Option<Sem>) {
    (d.bytes.Some? <==> bytes.Some?) && (d.bytes.Some? && d.bytes.value.closed ==> bytes.value.closed)
  }

  lemma PutIsStep(d: Driver, i: nat, shard: Shard, count: Sem, bytes: Option<Sem>, e: ShardMachine.Event)
    requires i < |d.shards| == |d.counts|
    requires shard == d.shards[i] || shard == ShardMachine.Next(d.shards[i], e)
    requires SameBytes(d, bytes) && Closing(d.shards[i], d.counts[i], shard, count)
    ensures OneStep(d, Put(d, i, shard, count, bytes))
  {
    hide ShardMachine.Next;
  }

  lemma SendKeepsPhase(s: Shard, id: nat, args: Args, stream: bool)
    ensures DoSendRead(s, id, args, stream).phase == s.phase
  {
    hide ValidArgs;
  }

  lemma AbandonKeepsClosed(s: Sem, k: nat)
    ensures k < |s.queue| ==> AbandonQueued(s, k).closed == s.closed
    ensures k < |s.granted| ==> AbandonGranted(s, k).closed == s.closed
  {
    if k < |s.queue| { ReleaseKeepsClosed(s.(queue := RemoveAt(s.queue, k)), s.queue[k].got); }
    if k < |s.granted| { ReleaseKeepsClosed(s.(granted := RemoveAt(s.granted, k)), s.granted[k].got); }
  }

  lemma SendIsStep(d: Driver, i: nat, count: Sem, bytes: Option<Sem>, id: nat, args: Args, stream: bool)
    requires i < |d.shards| == |d.counts| && SameBytes(d, bytes) && (d.counts[i].closed ==> count.closed)
    ensures OneStep(d, SendWith(d, i, count, bytes, id, args, stream).0)
  {
    hide ShardMachine.Next, DoSendRead, Release, OneStep;
    var e := SendRead(id, args, stream);
    ReleaseKeepsClosed(count, 1);
    if bytes.Some? { ReleaseKeepsClosed(bytes.value, args.charge); }
    SendKeepsPhase(d.shards[i], id, args, stream);
    SendIsNext(d.shards[i], id, args, stream);
    PutIsStep(d, i, d.shards[i], Release(count, 1), ReleaseBytes(bytes, args.charge), e);
    PutIsStep(d, i, DoSendRead(d.shards[i], id, args, stream), count, bytes, e);
  }

  lemma AbandonIsStep(d: Driver, at: Place)
    requires Occupied(d, at)
    ensures OneStep(d, Abandon(d, at))
  {
    hide ShardMachine.Next, Release, AbandonQueued, AbandonGranted;
    match at
    case Unpolled(_) =>
    case CountQueued(i, k) => AbandonKeepsClosed(d.counts[i], k);
    case CountGranted(i, k) => AbandonKeepsClosed(d.counts[i], k);
    case ByteQueued(k) =>
      AbandonKeepsClosed(d.bytes.value, k);
      ReleaseKeepsClosed(d.counts[d.bytes.value.queue[k].shard], 1);
    case ByteGranted(k) =>
      AbandonKeepsClosed(d.bytes.value, k);
      ReleaseKeepsClosed(d.counts[d.bytes.value.granted[k].shard], 1);
  }

  lemma PollIsStep(d: Driver, at: Place)
    requires Occupied(d, at)
    ensures OneStep(d, DoPoll(d, at).0)
  {
    hide ShardMachine.Next, Release, Enqueue, Abandon, SendWith;
    AbandonIsStep(d, at);
    match at
    case Unpolled(_) =>
    case CountQueued(_, _) =>
    case CountGranted(i, k) =>
      var w := d.counts[i].granted[k];
      if d.bytes.None? {
        SendIsStep(d, i, TakeGranted(d.counts[i], k), None, w.id, w.args, w.stream);
      }
    case ByteQueued(_) =>
    case ByteGranted(k) =>
      var w := d.bytes.value.granted[k];
      SendIsStep(d, w.shard, d.counts[w.shard], Some(TakeGranted(d.bytes.value, k)), w.id, w.args, w.stream);
  }

  lemma InShardIsStep(d: Driver, i: nat, e: ShardMachine.Event)
    ensures OneStep(d, DoInShard(d, i, e))
  {
    hide ShardMachine.Next, Release, HeldCount, HeldBytes, OneStep;
    if i < |d.shards| == |d.counts| && !e.SendRead? && !Pinned(d, i, e) {
      var s, t := d.shards[i], ShardMachine.Next(d.shards[i], e);
      if HeldCount(t) <= HeldCount(s) && HeldBytes(t) <= HeldBytes(s) {
        var n, m := HeldCount(s) - HeldCount(t), HeldBytes(s) - HeldBytes(t);
        ReleaseKeepsClosed(d.counts[i], n);
        if d.bytes.Some? { ReleaseKeepsClosed(d.bytes.value, m); }
        var count := Release(d.counts[i], n);
        PutIsStep(d, i, t, if s.phase.Running? && !t.phase.Running? then CloseSem(count) else count, ReleaseBytes(d.bytes, m), e);
      } else {
        Stays(d);
      }
    } else {
      Stays(d);
    }
  }

  lemma Stays(d: Driver)
    ensures OneStep(d, d)
  {
    hide ShardMachine.Next;
  }

  lemma StepAfterId(d: Driver, t: Driver)
    requires OneStep(TakeId(d), t)
    ensures OneStep(d, t)
  {
    hide ShardStep;
  }

  lemma SubmitIsStep(d: Driver, i: nat, args: Args, stream: bool)
    ensures OneStep(d, DoSubmit(d, i, args, stream))
  {
    hide ShardMachine.Next, SendWith, Fits, OneStep;
    if Callable(d, i, args, stream) && Immediate(d, i, args.charge) {
      var bytes := match d.bytes case None => None case Some(b) => Some(Grab(b, args.charge));
      SendIsStep(TakeId(d), i, Grab(d.counts[i], 1), bytes, d.nextId, args, stream);
      StepAfterId(d, DoSubmit(d, i, args, stream));
    } else {
      Stays(d);
    }
  }

  lemma NextIsStep(d: Driver, e: Admission.Event)
    ensures OneStep(d, Admission.Next(d, e))
  {
    hide DoSubmit, DoPoll, Abandon, DoInShard, DoStartClose, DoStepClose, ShardMachine.Next, Fits;
    match e
    case Submit(i, args, stream) => SubmitIsStep(d, i, args, stream);
    case Poll(at) => if Occupied(d, at) { PollIsStep(d, at); }
    case Drop(at) => if Occupied(d, at) { AbandonIsStep(d, at); }
    case InShard(i, event) => InShardIsStep(d, i, event);
    case StartClose(owner) => CloseIsStep(d, owner, 0);
    case StepClose(k) => CloseIsStep(d, None, k);
    case _ =>
  }

  lemma CloseIsStep(d: Driver, owner: Option<nat>, k: nat)
    ensures OneStep(d, DoStartClose(d, owner)) && OneStep(d, DoStepClose(d, k))
  {
    hide ShardMachine.Next, Registered;
  }

  // ---- what every run has ----

  /** A shard that has left has closed its own admission. */
  ghost predicate LeftIsClosed(d: Driver) {
    |d.counts| == |d.shards| && forall i :: 0 <= i < |d.shards| && !d.shards[i].phase.Running? ==> d.counts[i].closed
  }

  ghost predicate ShardsReachable(shards: seq<Shard>) {
    forall i :: 0 <= i < |shards| ==> ST.Reachable(shards[i])
  }

  ghost predicate Configured(d: Driver, entries: nat, shards: nat, limits: Limits) {
    d.entries == entries && d.limits == limits && |d.shards| == shards
  }

  lemma ShardStepReaches(s: Shard, t: Shard)
    requires ST.Reachable(s) && ShardStep(s, t)
    ensures ST.Reachable(t)
  {
    hide ShardMachine.Next;
    if t != s {
      var e :| t == ShardMachine.Next(s, e);
      var sqCap: nat, events: seq<ShardMachine.Event> :| s == ShardMachine.Run(Init(sqCap), events);
      assert (events + [e])[..|events + [e]| - 1] == events;
      assert t == ShardMachine.Run(Init(sqCap), events + [e]);
    }
  }

  lemma StartReachable(sqCap: nat)
    ensures ST.Reachable(Init(sqCap))
  {
    assert Init(sqCap) == ShardMachine.Run(Init(sqCap), []);
  }

  lemma LeftStaysLeft(s: Shard, t: Shard)
    requires ShardStep(s, t) && !s.phase.Running?
    ensures !t.phase.Running?
  {
    hide ShardMachine.Next;
    if t != s {
      var e :| t == ShardMachine.Next(s, e);
      EventStaysLeft(s, e);
    }
  }

  lemma EventStaysLeft(s: Shard, e: ShardMachine.Event)
    requires !s.phase.Running?
    ensures !ShardMachine.Next(s, e).phase.Running?
  {
    hide ShardMachine.Next;
    if InRings(e) {
      RingFrame(s, e);
    } else if InCallers(e) {
      CallerFrame(s, e);
    } else {
      GoneStays(s, e);
    }
  }

  lemma GoneStays(s: Shard, e: ShardMachine.Event)
    requires InThread(e) && !s.phase.Running?
    ensures ShardMachine.Next(s, e) == s
  {
    hide FdRefs, Referenced, DropQueue, LeakResults, Enumerates, ReapEntry, CancelAll, Admit, Reject, AlignedGeometry;
  }

  lemma StepReaches(d: Driver, t: Driver)
    requires OneStep(d, t) && ShardsReachable(d.shards) && LeftIsClosed(d)
    ensures ShardsReachable(t.shards) && LeftIsClosed(t)
  {
    hide ST.Reachable, ShardStep;
    forall i | 0 <= i < |t.shards|
      ensures ST.Reachable(t.shards[i])
    {
      ShardStepReaches(d.shards[i], t.shards[i]);
    }
    assert forall i :: 0 <= i < |t.shards| ==> Closing(d.shards[i], d.counts[i], t.shards[i], t.counts[i]);
  }

  /** In every run of a driver, permits are conserved and every shard is itself a run of a shard. */
  lemma {:induction false} RunFacts(entries: nat, shards: nat, limits: Limits, sqCap: nat, events: seq<Admission.Event>)
    ensures var d := Admission.Run(Start(entries, shards, limits, sqCap), events);
            && Inv(d) && Configured(d, entries, shards, limits) && ShardsReachable(d.shards) && LeftIsClosed(d)
            && Handles(d)
    decreases |events|
  {
    hide Inv, ST.Reachable, Admission.Next, OneStep, LeftIsClosed, ShardsReachable, Handles;
    if events == [] {
      StartInv(entries, shards, limits, sqCap);
      StartHandles(entries, shards, limits, sqCap);
      FreshFacts(entries, shards, limits, sqCap);
    } else {
      RunFacts(entries, shards, limits, sqCap, events[..|events| - 1]);
      var d := Admission.Run(Start(entries, shards, limits, sqCap), events[..|events| - 1]);
      var e := events[|events| - 1];
      NextKeepsInv(d, e);
      NextIsStep(d, e);
      NextKeepsHandles(d, e);
      StepReaches(d, Admission.Next(d, e));
      StepKeepsConfiguration(d, Admission.Next(d, e));
    }
  }

  lemma StepKeepsConfiguration(d: Driver, t: Driver)
    requires OneStep(d, t)
    ensures Configured(t, d.entries, |d.shards|, d.limits)
  {
    hide ShardStep;
  }

  lemma FreshFacts(entries: nat, shards: nat, limits: Limits, sqCap: nat)
    ensures var d := Start(entries, shards, limits, sqCap);
            ShardsReachable(d.shards) && LeftIsClosed(d)
  {
    hide ST.Reachable;
    StartReachable(sqCap);
  }

  // ---- memory ----

  /** Buffer bytes allocated by all shards of a driver. */
  ghost function AllAllocated(shards: seq<Shard>): nat {
    if shards == [] then 0 else AllocatedBytes(shards[0]) + AllAllocated(shards[1..])
  }

  lemma {:induction false} AllocationsAreHeld(shards: seq<Shard>)
    requires forall i :: 0 <= i < |shards| ==> SI.Inv(shards[i])
    ensures AllAllocated(shards) <= SumHeld(shards)
  {
    hide SI.Inv, AllocatedBytes, HeldBytes;
    if shards != [] {
      AllocationIsHeld(shards[0]);
      AllocationsAreHeld(shards[1..]);
    }
  }

  lemma AllocationWithinBudget(d: Driver)
    requires Inv(d) && d.limits.maxInFlight.Some?
    ensures AllAllocated(d.shards) <= d.limits.maxInFlight.value
  {
    hide SI.Inv, CountOk, ByteSem, Resident;
    AllocationsAreHeld(d.shards);
  }

  /**
   * Over every run, with cancels, deferred admission, retirement and leaks, the
   * buffers allocated by all shards of a driver stay within its byte budget.
   */
  lemma MemoryBound(entries: nat, shards: nat, limits: Limits, sqCap: nat, events: seq<Admission.Event>)
    requires limits.maxInFlight.Some?
    ensures AllAllocated(Admission.Run(Start(entries, shards, limits, sqCap), events).shards) <= limits.maxInFlight.value
  {
    hide Inv, AllAllocated, Admission.Run, ShardsReachable, LeftIsClosed;
    RunFacts(entries, shards, limits, sqCap, events);
    AllocationWithinBudget(Admission.Run(Start(entries, shards, limits, sqCap), events));
  }

  // ---- count permits ----

  /** Pending reads with a cancel of theirs still somewhere in the rings or the kernel. */
  function LiveCancels(s: Shard): set<nat> {
    set id | id in s.pending && CT.CancelTokens(s)[id] > 0
  }

  lemma RingLoad(s: Shard)
    requires ST.Reachable(s)
    ensures |SI.ReadTokens(s.backlog, s.sq, s.ops, s.cq)| == |s.pending|
    ensures forall id :: id in s.pending ==> CT.CancelTokens(s)[id] <= 1
    ensures |LiveCancels(s)| <= |s.pending|
  {
    hide ST.Reachable, SI.ReadTokens, CT.CancelTokens, ST.OwnsWindow;
    ST.KernelOwnership(s);
    assert |multiset(s.pending.Keys)| == |s.pending.Keys|;
    forall id | id in s.pending
      ensures CT.CancelTokens(s)[id] <= 1
    {
      CT.OneCancelInFlight(s, id);
    }
    ST.SubsetSize(LiveCancels(s), s.pending.Keys);
  }

  /**
   * Per shard, free, waiter-held, message-held and entry-held count permits add
   * up to `entries` in every state of every run; so at most `entries` reads are
   * pending, and they have at most twice as many live requests between them.
   */
  lemma CountPermitsConserved(entries: nat, shards: nat, limits: Limits, sqCap: nat, events: seq<Admission.Event>, i: nat)
    requires i < shards
    ensures var d := Admission.Run(Start(entries, shards, limits, sqCap), events);
            && |d.shards| == |d.counts| == shards
            && var s := d.shards[i];
            && Resident(d.counts[i]) + Staged(d.bytes, i) + QueueReads(s.queue) + |s.pending| == entries
            && |SI.ReadTokens(s.backlog, s.sq, s.ops, s.cq)| + |LiveCancels(s)| <= 2 * entries
            && forall id :: id in s.pending ==> CT.CancelTokens(s)[id] <= 1
  {
    hide Inv, Admission.Run, SI.ReadTokens, ST.Reachable, LeftIsClosed, LiveCancels, CT.CancelTokens;
    RunFacts(entries, shards, limits, sqCap, events);
    var d := Admission.Run(Start(entries, shards, limits, sqCap), events);
    CountShare(d, i);
    RingLoad(d.shards[i]);
  }

  lemma CountShare(d: Driver, i: nat)
    requires Inv(d) && i < |d.shards|
    ensures |d.counts| == |d.shards|
    ensures Resident(d.counts[i]) + Staged(d.bytes, i) + QueueReads(d.shards[i].queue) + |d.shards[i].pending| == d.entries
  {
    hide SI.Inv, CountSem, ByteSem, Resident, Staged;
    assert CountOk(d, i);
    assert |d.shards[i].pending| == |d.shards[i].pending.Keys|;
  }

  // ---- statistics ----

  /** The snapshot of a driver: its shards' counters, added up. */
  function Totals(shards: seq<Shard>): (nat, nat, nat, int) {
    if shards == [] then (0, 0, 0, 0)
    else
      var s, rest := shards[0].stats, Totals(shards[1..]);
      (s.submitted + rest.0, s.delivered + rest.1, s.orphans + rest.2, s.inFlight + rest.3)
  }

  /** The conservation identity holds of the sums too, leaked reads included. */
  lemma {:induction false} TotalsConserve(shards: seq<Shard>)
    requires ShardsReachable(shards)
    ensures var t := Totals(shards); t.0 == t.1 + t.2 + t.3 && t.3 >= 0
    ensures Totals(shards).3 == 0 <==> forall i :: 0 <= i < |shards| ==> shards[i].pending == map[]
  {
    hide ST.Reachable;
    if shards != [] {
      ST.Conservation(shards[0]);
      TotalsConserve(shards[1..]);
      var rest := shards[1..];
      assert shards[0].stats.inFlight == 0 <==> shards[0].pending == map[];
      assert forall i :: 0 <= i < |rest| ==> rest[i] == shards[i + 1];
      assert forall i :: 1 <= i < |shards| ==> shards[i] == rest[i - 1];
    }
  }

  // ---- no deadlock ----

  /** Every semaphore is open. */
  predicate Open(d: Driver) {
    (forall i :: 0 <= i < |d.counts| ==> !d.counts[i].closed) && (d.bytes.Some? ==> !d.bytes.value.closed)
  }

  /** No message and no entry holds a permit. */
  predicate NothingHeld(d: Driver) {
    forall i :: 0 <= i < |d.shards| ==> HeldCount(d.shards[i]) == 0
  }

  function PollAll(d: Driver, places: seq<Place>): Driver
    decreases |places|
  {
    if places == [] then d
    else if Occupied(d, places[0]) then PollAll(DoPoll(d, places[0]).0, places[1..])
    else PollAll(d, places[1..])
  }

  /** The handle there has both permits, and a poll sends its read. */
  predicate Sends(d: Driver, at: Place) {
    Occupied(d, at) && DoPoll(d, at).1 == Sent
  }

  lemma {:induction false} NoReadsNoBytes(queue: seq<Msg>)
    requires QueueReads(queue) == 0
    ensures QueueBytes(queue) == 0
  {
    if queue != [] {
      NoReadsNoBytes(queue[1..]);
    }
  }

  lemma {:induction false} NothingHeldNoBytes(shards: seq<Shard>)
    requires forall i :: 0 <= i < |shards| ==> HeldCount(shards[i]) == 0
    ensures SumHeld(shards) == 0
  {
    if shards != [] {
      var s := shards[0];
      assert HeldCount(s) == 0;
      NoReadsNoBytes(s.queue);
      assert s.pending.Keys == {};
      assert ChargeOf(s.pending) == map[];
      NothingHeldNoBytes(shards[1..]);
    }
  }

  /** A semaphore whose permits are all inside, and enough for its head, has a granted waiter or none at all. */
  lemma FullSemaphoreServes(s: Sem, total: nat)
    requires SemOk(s) && !s.closed && Resident(s) == total && s.granted == []
    requires forall i :: 0 <= i < |s.queue| ==> s.queue[i].need <= total
    ensures s.queue == [] && s.permits == total
  {
    if s.queue != [] {
      assert s.queue == [s.queue[0]] + s.queue[1..];
      GotsZero(s.queue[1..]);
    }
  }

  /** What a poll may count on: conserved permits, handles of their own, and open admission. */
  ghost predicate Alive(d: Driver) {
    Inv(d) && Handles(d) && LeftIsClosed(d) && Open(d)
  }

  lemma AliveRuns(d: Driver, i: nat)
    requires Alive(d) && i < |d.shards|
    ensures |d.counts| == |d.shards| && d.shards[i].phase.Running? && !d.counts[i].closed
  {
    hide Inv, Handles;
  }

  /** A byte waiter with all its bytes sends its read. */
  lemma ByteGrantedSends(d: Driver, k: nat)
    requires Alive(d) && d.bytes.Some? && k < |d.bytes.value.granted|
    ensures Sends(d, ByteGranted(k))
  {
    hide Alive, Handles, SI.Inv, CountOk, Release, Resident, DoSendRead, ValidArgs;
    var w := d.bytes.value.granted[k];
    ByteWaiterFits(d, k);
    AliveRuns(d, w.shard);
    hide Inv, Put;
    assert Inv(d) && Handles(d) && !d.bytes.value.closed by { AliveParts(d); }
    HandleIsTaken(d, ByteGranted(k), w);
  }

  lemma AliveParts(d: Driver)
    requires Alive(d)
    ensures Inv(d) && Handles(d) && LeftIsClosed(d) && Open(d)
  {
    hide Inv, Handles, LeftIsClosed, Open;
  }

  lemma ByteWaiterFits(d: Driver, k: nat)
    requires Alive(d) && d.bytes.Some? && k < |d.bytes.value.granted|
    ensures var w := d.bytes.value.granted[k]; w.shard < |d.shards| && Fits(d.limits, w.args, w.stream)
  {
    hide Handles, LeftIsClosed, SI.Inv, CountOk, SumHeld, Resident, SemOk, Fits;
    assert ByteWaiter(d.limits, |d.shards|, d.bytes.value.granted[k]);
  }

  /** Where the read of a granted count waiter gets to when nothing else holds bytes. */
  lemma CountGrantedSends(d: Driver, i: nat, k: nat)
    requires Alive(d) && NothingHeld(d)
    requires i < |d.counts| && k < |d.counts[i].granted|
    requires d.bytes.Some? ==> d.bytes.value.queue == [] && d.bytes.value.granted == []
    ensures if d.bytes.None? then Sends(d, CountGranted(i, k))
            else Occupied(d, CountGranted(i, k)) && Sends(DoPoll(d, CountGranted(i, k)).0, ByteGranted(0))
  {
    hide Alive, Inv, Handles, SI.Inv, Release, Resident, HeldCount, HeldBytes, WaitersOf, DoSendRead, ValidArgs, Put, LeftIsClosed;
    AliveParts(d);
    Shape(d);
    AliveRuns(d, i);
    CountWaiterFits(d, i, k);
    var w := d.counts[i].granted[k];
    match d.bytes
    case None => HandleIsTaken(d, CountGranted(i, k), w);
    case Some(b) =>
      FreeBytes(d);
      PollStaysAlive(d, CountGranted(i, k));
      EnqueueGrants(d, i, k);
      ByteGrantedSends(DoPoll(d, CountGranted(i, k)).0, 0);
  }

  lemma CountWaiterFits(d: Driver, i: nat, k: nat)
    requires Inv(d) && i < |d.counts| && k < |d.counts[i].granted|
    ensures var w := d.counts[i].granted[k]; w.shard == i < |d.shards| && Fits(d.limits, w.args, w.stream)
  {
    hide SI.Inv, BytesOk, HeldCount, Resident, SemOk, Fits;
    assert CountOk(d, i);
    assert CountWaiter(d.limits, i, d.counts[i].granted[k]);
  }

  /** With all bytes free, a waiter that queues for them has them at once. */
  lemma EnqueueGrants(d: Driver, i: nat, k: nat)
    requires i < |d.shards| == |d.counts| && k < |d.counts[i].granted| && !d.counts[i].closed && d.bytes.Some?
    requires var b := d.bytes.value;
             && !b.closed && b.granted == [] && d.limits.maxInFlight == Some(b.permits)
             && Fits(d.limits, d.counts[i].granted[k].args, d.counts[i].granted[k].stream)
    ensures var t := DoPoll(d, CountGranted(i, k)).0;
            t.bytes.Some? && |t.bytes.value.granted| == 1
  {
    hide ValidArgs, SendWith, Abandon;
  }

  /** A poll that is not answered with a failure leaves admission as alive as it was. */
  lemma PollStaysAlive(d: Driver, at: Place)
    requires Alive(d) && Occupied(d, at)
    requires at.Unpolled? || (at.CountGranted? && d.bytes.Some?)
    ensures Alive(DoPoll(d, at).0) && DoPoll(d, at).0.shards == d.shards
  {
    hide Inv, Handles, Abandon, SendWith, Enqueue, LeftIsClosed;
    PollKeepsInv(d, at);
    PollKeepsHandles(d, at);
    PollKeepsOpen(d, at);
  }

  lemma PollKeepsOpen(d: Driver, at: Place)
    requires Open(d) && LeftIsClosed(d) && Occupied(d, at)
    requires at.Unpolled? || (at.CountGranted? && d.bytes.Some?)
    ensures var t := DoPoll(d, at).0; Open(t) && LeftIsClosed(t) && t.shards == d.shards
  {
    hide Abandon, SendWith;
  }

  /** With nothing held and no granted byte waiter, nobody waits for bytes and all are free. */
  lemma FreeBytes(d: Driver)
    requires Inv(d) && Open(d) && NothingHeld(d) && d.bytes.Some? && d.bytes.value.granted == []
    ensures d.limits.maxInFlight.Some? && d.bytes.value.queue == [] && d.bytes.value.permits == d.limits.maxInFlight.value
  {
    hide SI.Inv, CountOk, HeldCount, SumHeld, Resident, ValidArgs;
    NothingHeldNoBytes(d.shards);
    FullSemaphoreServes(d.bytes.value, d.limits.maxInFlight.value);
  }

  /** With nothing held and nobody in the byte stage, a shard's count waiters include a granted one. */
  lemma FreeCounts(d: Driver, i: nat)
    requires Inv(d) && Open(d) && NothingHeld(d) && d.entries > 0 && i < |d.counts|
    requires d.bytes.Some? ==> d.bytes.value.queue == [] && d.bytes.value.granted == []
    requires d.counts[i].granted == []
    ensures d.counts[i].queue == [] && d.counts[i].permits == d.entries
  {
    hide SI.Inv, BytesOk, HeldCount, Resident, Fits;
    assert CountOk(d, i);
    FullSemaphoreServes(d.counts[i], d.entries);
  }

  lemma UnpolledAdvances(d: Driver, k: nat)
    requires Alive(d) && NothingHeld(d) && d.entries > 0 && Occupied(d, Unpolled(k))
    requires d.bytes.Some? ==> d.bytes.value.queue == [] && d.bytes.value.granted == []
    requires d.counts[d.unpolled[k].shard].granted == []
    ensures var t, i := DoPoll(d, Unpolled(k)).0, d.unpolled[k].shard;
            && |t.counts| == |d.counts| && |t.counts[i].granted| == 1 && t.bytes == d.bytes
            && Alive(t) && NothingHeld(t)
  {
    hide Alive, Inv, Handles, HeldCount, LeftIsClosed;
    var i := d.unpolled[k].shard;
    AliveParts(d);
    FreeCounts(d, i);
    UnpolledNeedsOne(d, k);
    PollStaysAlive(d, Unpolled(k));
  }

  lemma UnpolledNeedsOne(d: Driver, k: nat)
    requires Inv(d) && Occupied(d, Unpolled(k))
    ensures d.unpolled[k].need == 1
  {
    hide SI.Inv, CountOk, BytesOk, Fits;
  }

  /** Polling these handles, in this order, ends with one sending its read. */
  predicate LeadsToSend(d: Driver, places: seq<Place>, last: Place) {
    Sends(PollAll(d, places), last)
  }

  /**
   * With open semaphores, if anyone waits while no message and no pending read
   * holds a permit, then polling waiters makes one of them send its read:
   * waiters can never hold each other up.
   */
  lemma AdmissionNeverDeadlocks(d: Driver, at: Place)
    requires Alive(d) && NothingHeld(d) && d.entries > 0 && Occupied(d, at)
    ensures exists places: seq<Place>, last: Place :: |places| <= 2 && LeadsToSend(d, places, last)
  {
    hide Alive, Inv, Handles, LeftIsClosed, HeldCount, Sends, DoPoll;
    AliveParts(d);
    if d.bytes.Some? && d.bytes.value.granted != [] {
      ByteGrantedSends(d, 0);
      assert LeadsToSend(d, [], ByteGranted(0));
    } else {
      if d.bytes.Some? {
        FreeBytes(d);
      }
      var i := ShardOf(d, at);
      if d.counts[i].granted != [] {
        var places, last := FromCount(d, i, 0);
        assert LeadsToSend(d, places, last);
      } else {
        FreeCounts(d, i);
        assert at.Unpolled?;
        UnpolledAdvances(d, at.k);
        var t := DoPoll(d, at).0;
        var places, last := FromCount(t, i, 0);
        assert ([at] + places)[1..] == places;
        assert LeadsToSend(d, [at] + places, last);
      }
    }
  }

  /** The shard of a waiter that is not in the byte stage. */
  function ShardOf(d: Driver, at: Place): nat
    requires Occupied(d, at)
  {
    match at
    case CountQueued(i, _) => i
    case CountGranted(i, _) => i
    case _ => WaiterAt(d, at).shard
  }

  lemma FromCount(d: Driver, i: nat, k: nat) returns (places: seq<Place>, last: Place)
    requires Alive(d) && NothingHeld(d)
    requires i < |d.counts| && k < |d.counts[i].granted|
    requires d.bytes.Some? ==> d.bytes.value.queue == [] && d.bytes.value.granted == []
    ensures |places| <= 1 && LeadsToSend(d, places, last)
  {
    hide Alive, HeldCount, Sends, DoPoll;
    CountGrantedSends(d, i, k);
    if d.bytes.None? {
      places, last := [], CountGranted(i, k);
    } else {
      places, last := [CountGranted(i, k)], ByteGranted(0);
      assert places[1..] == [];
      assert PollAll(d, places) == DoPoll(d, CountGranted(i, k)).0;
    }
  }
}
