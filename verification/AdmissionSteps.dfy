/** Every step of admission conserves permits, and what follows for whole drivers. */
module AdmissionSteps {
  import opened Base
  import opened Geometry
  import opened ShardMachine
  import SI = ShardInvariant
  import ST = ShardTheorems
  import opened Semaphores
  import opened Permits
  import opened Admission

  // ---- semaphores inside a driver ----

  lemma ReleaseCount(s: Sem, n: nat, limits: Limits, i: nat)
    requires CountSem(limits, i, s)
    ensures CountSem(limits, i, Release(s, n))
    ensures Resident(Release(s, n)) == Resident(s) + n
  {
    hide Fits;
    ReleaseConserves(s, n);
    ReleaseKeepsAll(s, n, w => CountWaiter(limits, i, w));
  }

  lemma ReleaseByte(s: Sem, n: nat, limits: Limits, shards: nat)
    requires ByteSem(limits, shards, s)
    ensures ByteSem(limits, shards, Release(s, n))
    ensures Resident(Release(s, n)) == Resident(s) + n
    ensures forall j: nat :: WaitersOf(Release(s, n), j) == WaitersOf(s, j)
  {
    hide Fits;
    ReleaseConserves(s, n);
    ReleaseKeepsAll(s, n, w => ByteWaiter(limits, shards, w));
    forall j: nat
      ensures WaitersOf(Release(s, n), j) == WaitersOf(s, j)
    {
      ReleaseKeepsWaiters(s, n, j);
    }
  }

  lemma AllWithout(s: Sem, k: nat, p: Waiter -> bool)
    requires AllWaiters(s, p)
    ensures k < |s.queue| ==> p(s.queue[k]) && AllWaiters(s.(queue := RemoveAt(s.queue, k)), p)
    ensures k < |s.granted| ==> p(s.granted[k]) && AllWaiters(s.(granted := RemoveAt(s.granted, k)), p)
  {
  }

  lemma AbandonCount(s: Sem, k: nat, limits: Limits, i: nat)
    requires CountSem(limits, i, s)
    ensures k < |s.queue| ==>
              var t := AbandonQueued(s, k);
              CountSem(limits, i, t) && Resident(t) == Resident(s)
    ensures k < |s.granted| ==>
              var t := AbandonGranted(s, k);
              CountSem(limits, i, t) && Resident(t) == Resident(s)
  {
    hide Fits, Release;
    AllWithout(s, k, w => CountWaiter(limits, i, w));
    if k < |s.queue| {
      AbandonQueuedConserves(s, k);
      ReleaseKeepsAll(s.(queue := RemoveAt(s.queue, k)), s.queue[k].got, w => CountWaiter(limits, i, w));
    }
    if k < |s.granted| {
      AbandonGrantedConserves(s, k);
      ReleaseKeepsAll(s.(granted := RemoveAt(s.granted, k)), s.granted[k].got, w => CountWaiter(limits, i, w));
    }
  }

  lemma AbandonByteQueued(s: Sem, k: nat, limits: Limits, shards: nat)
    requires ByteSem(limits, shards, s) && k < |s.queue|
    ensures var t := AbandonQueued(s, k);
            && ByteSem(limits, shards, t) && Resident(t) == Resident(s)
            && forall j: nat :: WaitersOf(t, j) + (if s.queue[k].shard == j then 1 else 0) == WaitersOf(s, j)
  {
    hide Fits, Release;
    AllWithout(s, k, w => ByteWaiter(limits, shards, w));
    AbandonQueuedConserves(s, k);
    var u := s.(queue := RemoveAt(s.queue, k));
    ReleaseKeepsAll(u, s.queue[k].got, w => ByteWaiter(limits, shards, w));
    forall j: nat
      ensures WaitersOf(AbandonQueued(s, k), j) + (if s.queue[k].shard == j then 1 else 0) == WaitersOf(s, j)
    {
      OfShardRemove(s.queue, k, j);
      ReleaseKeepsWaiters(u, s.queue[k].got, j);
    }
  }

  lemma AbandonByteGranted(s: Sem, k: nat, limits: Limits, shards: nat)
    requires ByteSem(limits, shards, s) && k < |s.granted|
    ensures var t := AbandonGranted(s, k);
            && ByteSem(limits, shards, t) && Resident(t) == Resident(s)
            && forall j: nat :: WaitersOf(t, j) + (if s.granted[k].shard == j then 1 else 0) == WaitersOf(s, j)
  {
    hide Fits, Release;
    AllWithout(s, k, w => ByteWaiter(limits, shards, w));
    AbandonGrantedConserves(s, k);
    var u := s.(granted := RemoveAt(s.granted, k));
    ReleaseKeepsAll(u, s.granted[k].got, w => ByteWaiter(limits, shards, w));
    forall j: nat
      ensures WaitersOf(AbandonGranted(s, k), j) + (if s.granted[k].shard == j then 1 else 0) == WaitersOf(s, j)
    {
      OfShardRemove(s.granted, k, j);
      ReleaseKeepsWaiters(u, s.granted[k].got, j);
    }
  }

  lemma TakeByte(s: Sem, k: nat, limits: Limits, shards: nat)
    requires ByteSem(limits, shards, s) && k < |s.granted|
    ensures var t := TakeGranted(s, k);
            && ByteSem(limits, shards, t)
            && ByteWaiter(limits, shards, s.granted[k])
            && Resident(t) + s.granted[k].args.charge == Resident(s)
            && forall j: nat :: WaitersOf(t, j) + (if s.granted[k].shard == j then 1 else 0) == WaitersOf(s, j)
  {
    hide Fits;
    AllWithout(s, k, w => ByteWaiter(limits, shards, w));
    TakeGrantedConserves(s, k);
    forall j: nat
      ensures WaitersOf(TakeGranted(s, k), j) + (if s.granted[k].shard == j then 1 else 0) == WaitersOf(s, j)
    {
      OfShardRemove(s.granted, k, j);
    }
  }

  lemma EnqueueByte(s: Sem, w: Waiter, limits: Limits, shards: nat)
    requires ByteSem(limits, shards, s) && !s.closed && ByteWaiter(limits, shards, w)
    ensures var t := Enqueue(s, w);
            && ByteSem(limits, shards, t) && Resident(t) == Resident(s)
            && forall j: nat :: WaitersOf(t, j) == WaitersOf(s, j) + (if w.shard == j then 1 else 0)
  {
    hide Fits;
    EnqueueConserves(s, w);
    forall j: nat
      ensures WaitersOf(Enqueue(s, w), j) == WaitersOf(s, j) + (if w.shard == j then 1 else 0)
    {
      EnqueueAddsWaiter(s, w, j);
    }
  }

  lemma EnqueueCount(s: Sem, w: Waiter, limits: Limits, i: nat)
    requires CountSem(limits, i, s) && !s.closed && CountWaiter(limits, i, w)
    ensures var t := Enqueue(s, w);
            CountSem(limits, i, t) && Resident(t) == Resident(s)
  {
    hide Fits;
    EnqueueConserves(s, w);
  }

  lemma TakeCount(s: Sem, k: nat, limits: Limits, i: nat)
    requires CountSem(limits, i, s) && k < |s.granted|
    ensures var t := TakeGranted(s, k);
            && CountSem(limits, i, t)
            && CountWaiter(limits, i, s.granted[k]) && Resident(t) + 1 == Resident(s)
  {
    hide Fits;
    AllWithout(s, k, w => CountWaiter(limits, i, w));
    TakeGrantedConserves(s, k);
  }

  // ---- sending ----

  /** Permits taken out for a read: one count permit of the shard, and its bytes. */
  ghost predicate InHand(d: Driver, i: nat, count: Sem, bytes: Option<Sem>, charge: nat)
    requires i < |d.shards| == |d.counts|
  {
    && CountSem(d.limits, i, count)
    && Resident(count) + Staged(bytes, i) + 1 == Resident(d.counts[i]) + Staged(d.bytes, i)
    && (forall j: nat :: j != i ==> Staged(bytes, j) == Staged(d.bytes, j))
    && match (d.bytes, bytes)
       case (None, None) => true
       case (Some(a), Some(b)) =>
         ByteSem(d.limits, |d.shards|, b) && Resident(b) + charge == Resident(a)
       case _ => false
  }

  lemma Shape(d: Driver)
    requires Inv(d)
    ensures |d.counts| == |d.shards|
  {
    hide SI.Inv, CountOk, BytesOk;
  }

  /** What the invariant says of one shard and its semaphores. */
  lemma Parts(d: Driver, i: nat)
    requires Inv(d) && i < |d.shards|
    ensures |d.counts| == |d.shards|
    ensures SI.Inv(d.shards[i]) && CountSem(d.limits, i, d.counts[i])
    ensures d.bytes.Some? ==> ByteSem(d.limits, |d.shards|, d.bytes.value)
  {
    hide SI.Inv, HeldCount, HeldBytes, Resident, CountSem, ByteSem, WaitersOf;
    assert CountOk(d, i);
  }

  lemma SendBalances(d: Driver, i: nat, count: Sem, bytes: Option<Sem>, id: nat, args: Args, stream: bool)
    requires Inv(d) && i < |d.shards| && InHand(d, i, count, bytes, args.charge)
    ensures Inv(SendWith(d, i, count, bytes, id, args, stream).0)
  {
    hide Inv, SI.Inv, HeldCount, HeldBytes, DoSendRead, Resident, CountSem, ByteSem, Release, WaitersOf, ShardMachine.Next;
    Parts(d, i);
    var shard := DoSendRead(d.shards[i], id, args, stream);
    SendTakes(d.shards[i], id, args, stream);
    ST.NextKeepsInv(d.shards[i], SendRead(id, args, stream));
    SendIsNext(d.shards[i], id, args, stream);
    if shard.queue == d.shards[i].queue {
      ReleaseCount(count, 1, d.limits, i);
      if bytes.Some? {
        ReleaseByte(bytes.value, args.charge, d.limits, |d.shards|);
      }
      assert Balanced(d, i, d.shards[i], Release(count, 1), ReleaseBytes(bytes, args.charge));
      PutKeepsInv(d, i, d.shards[i], Release(count, 1), ReleaseBytes(bytes, args.charge));
    } else {
      assert Balanced(d, i, shard, count, bytes);
      PutKeepsInv(d, i, shard, count, bytes);
    }
  }

  lemma SendIsNext(s: Shard, id: nat, args: Args, stream: bool)
    ensures ShardMachine.Next(s, SendRead(id, args, stream)) == DoSendRead(s, id, args, stream)
  {
  }

  lemma TakeIdKeepsInv(d: Driver)
    requires Inv(d)
    ensures Inv(TakeId(d))
  {
    hide SI.Inv, HeldCount, HeldBytes, Fits, CountSem, ByteSem, Resident, BytesOk;
    var t := TakeId(d);
    forall j | 0 <= j < |t.shards|
      ensures CountOk(t, j)
    {
      assert CountOk(d, j);
    }
  }

  lemma SubmitKeepsInv(d: Driver, i: nat, args: Args, stream: bool)
    requires Inv(d)
    ensures Inv(DoSubmit(d, i, args, stream))
  {
    hide Inv, SI.Inv, HeldCount, HeldBytes, Fits, SendWith;
    Shape(d);
    if Callable(d, i, args, stream) && Immediate(d, i, args.charge) {
      Parts(d, i);
      TakeIdKeepsInv(d);
      var bytes := match d.bytes case None => None case Some(b) => Some(Grab(b, args.charge));
      assert InHand(TakeId(d), i, Grab(d.counts[i], 1), bytes, args.charge);
      SendBalances(TakeId(d), i, Grab(d.counts[i], 1), bytes, d.nextId, args, stream);
    }
  }

  // ---- leaving ----

  lemma AbandonKeepsInv(d: Driver, at: Place)
    requires Inv(d) && Occupied(d, at)
    ensures Inv(Abandon(d, at))
  {
    hide SI.Inv, HeldCount, HeldBytes, Fits, Resident, CountSem, ByteSem, Release, WaitersOf, AbandonQueued, AbandonGranted;
    match at
    case Unpolled(k) => UnpolledShrinks(d, k);
    case CountQueued(i, k) =>
      assert CountOk(d, i);
      AbandonCount(d.counts[i], k, d.limits, i);
      assert Balanced(d, i, d.shards[i], AbandonQueued(d.counts[i], k), d.bytes);
      PutKeepsInv(d, i, d.shards[i], AbandonQueued(d.counts[i], k), d.bytes);
    case CountGranted(i, k) =>
      assert CountOk(d, i);
      AbandonCount(d.counts[i], k, d.limits, i);
      assert Balanced(d, i, d.shards[i], AbandonGranted(d.counts[i], k), d.bytes);
      PutKeepsInv(d, i, d.shards[i], AbandonGranted(d.counts[i], k), d.bytes);
    case ByteQueued(k) =>
      var b := d.bytes.value;
      var i := b.queue[k].shard;
      assert CountOk(d, i);
      AbandonByteQueued(b, k, d.limits, |d.shards|);
      ReleaseCount(d.counts[i], 1, d.limits, i);
      assert Balanced(d, i, d.shards[i], Release(d.counts[i], 1), Some(AbandonQueued(b, k)));
      PutKeepsInv(d, i, d.shards[i], Release(d.counts[i], 1), Some(AbandonQueued(b, k)));
    case ByteGranted(k) =>
      var b := d.bytes.value;
      var i := b.granted[k].shard;
      assert CountOk(d, i);
      AbandonByteGranted(b, k, d.limits, |d.shards|);
      ReleaseCount(d.counts[i], 1, d.limits, i);
      assert Balanced(d, i, d.shards[i], Release(d.counts[i], 1), Some(AbandonGranted(b, k)));
      PutKeepsInv(d, i, d.shards[i], Release(d.counts[i], 1), Some(AbandonGranted(b, k)));
  }

  // ---- polling ----

  lemma AfterCountKeepsInv(d: Driver, i: nat, k: nat)
    requires Inv(d) && i < |d.shards| && k < |d.counts[i].granted|
    ensures Inv(AfterCount(d, i, k).0)
  {
    hide Inv, SI.Inv, HeldCount, HeldBytes, Fits, Resident, CountSem, ByteSem, Release, WaitersOf, Enqueue, TakeGranted, SendWith;
    Shape(d);
    Parts(d, i);
    TakeCount(d.counts[i], k, d.limits, i);
    var w := d.counts[i].granted[k];
    match d.bytes
    case None =>
      assert InHand(d, i, TakeGranted(d.counts[i], k), None, w.args.charge);
      SendBalances(d, i, TakeGranted(d.counts[i], k), None, w.id, w.args, w.stream);
    case Some(b) =>
      if b.closed {
        hide Abandon;
        AbandonKeepsInv(d, CountGranted(i, k));
      } else {
        var v := Waiter(w.id, i, w.args, w.stream, w.args.charge, 0);
        EnqueueByte(b, v, d.limits, |d.shards|);
        assert Balanced(d, i, d.shards[i], TakeGranted(d.counts[i], k), Some(Enqueue(b, v)));
        PutKeepsInv(d, i, d.shards[i], TakeGranted(d.counts[i], k), Some(Enqueue(b, v)));
      }
  }

  lemma PollUnpolledKeepsInv(d: Driver, k: nat)
    requires Inv(d) && Occupied(d, Unpolled(k)) && !d.counts[d.unpolled[k].shard].closed
    ensures Inv(DoPoll(d, Unpolled(k)).0)
  {
    hide SI.Inv, HeldCount, HeldBytes, Fits, Resident, CountSem, ByteSem, Enqueue;
    var w := d.unpolled[k];
    var i := w.shard;
    assert CountOk(d, i);
    EnqueueCount(d.counts[i], w, d.limits, i);
    assert Balanced(d, i, d.shards[i], Enqueue(d.counts[i], w), d.bytes);
    PutKeepsInv(d, i, d.shards[i], Enqueue(d.counts[i], w), d.bytes);
    var t := Put(d, i, d.shards[i], Enqueue(d.counts[i], w), d.bytes);
    UnpolledShrinks(t, k);
  }

  lemma UnpolledShrinks(d: Driver, k: nat)
    requires Inv(d) && k < |d.unpolled|
    ensures Inv(SetUnpolled(d, RemoveAt(d.unpolled, k)))
  {
    hide SI.Inv, BytesOk, Fits, CountSem, ByteSem, Resident, HeldCount;
    var t := SetUnpolled(d, RemoveAt(d.unpolled, k));
    forall i | 0 <= i < |t.shards|
      ensures CountOk(t, i)
    {
      assert CountOk(d, i);
    }
  }

  lemma PollByteGrantedKeepsInv(d: Driver, k: nat)
    requires Inv(d) && Occupied(d, ByteGranted(k)) && !d.bytes.value.closed
    ensures Inv(DoPoll(d, ByteGranted(k)).0)
  {
    hide SI.Inv, HeldCount, HeldBytes, Fits, Resident, CountSem, ByteSem, TakeGranted, WaitersOf, SendWith;
    var b := d.bytes.value;
    var w := b.granted[k];
    var i := w.shard;
    assert CountOk(d, i);
    TakeByte(b, k, d.limits, |d.shards|);
    assert InHand(d, i, d.counts[i], Some(TakeGranted(b, k)), w.args.charge);
    SendBalances(d, i, d.counts[i], Some(TakeGranted(b, k)), w.id, w.args, w.stream);
  }

  lemma PollKeepsInv(d: Driver, at: Place)
    requires Inv(d) && Occupied(d, at)
    ensures Inv(DoPoll(d, at).0)
  {
    hide Inv, Abandon, AfterCount, SendWith, Enqueue;
    Shape(d);
    AbandonKeepsInv(d, at);
    match at
    case Unpolled(k) =>
      if !d.counts[d.unpolled[k].shard].closed {
        PollUnpolledKeepsInv(d, k);
      }
    case CountQueued(_, _) =>
    case CountGranted(i, k) =>
      if !d.counts[i].closed {
        AfterCountKeepsInv(d, i, k);
      }
    case ByteQueued(_) =>
    case ByteGranted(k) =>
      if !d.bytes.value.closed {
        PollByteGrantedKeepsInv(d, k);
      }
  }

  // ---- shards and closing ----

  lemma CloseKeepsCount(s: Sem, limits: Limits, i: nat)
    requires CountSem(limits, i, s)
    ensures CountSem(limits, i, CloseSem(s))
    ensures Resident(CloseSem(s)) == Resident(s)
  {
  }

  lemma InShardKeepsInv(d: Driver, i: nat, e: ShardMachine.Event)
    requires Inv(d)
    ensures Inv(DoInShard(d, i, e))
  {
    hide Inv, SI.Inv, HeldCount, HeldBytes, Fits, Resident, CountSem, ByteSem, Release, WaitersOf, ShardMachine.Next, CloseSem;
    Shape(d);
    if i < |d.shards| && !e.SendRead? && !Pinned(d, i, e) {
      Parts(d, i);
      var s := d.shards[i];
      ST.NextKeepsInv(s, e);
      NextReleases(s, e);
      var t := ShardMachine.Next(s, e);
      var n, m := HeldCount(s) - HeldCount(t), HeldBytes(s) - HeldBytes(t);
      ReleaseCount(d.counts[i], n, d.limits, i);
      CloseKeepsCount(Release(d.counts[i], n), d.limits, i);
      if d.bytes.Some? {
        ReleaseByte(d.bytes.value, m, d.limits, |d.shards|);
      }
      var count := if s.phase.Running? && !t.phase.Running? then CloseSem(Release(d.counts[i], n)) else Release(d.counts[i], n);
      assert Balanced(d, i, t, count, ReleaseBytes(d.bytes, m));
      PutKeepsInv(d, i, t, count, ReleaseBytes(d.bytes, m));
    }
  }

  lemma CloseCountKeepsInv(d: Driver, i: nat)
    requires Inv(d) && i < |d.counts|
    ensures Inv(d.(counts := d.counts[i := CloseSem(d.counts[i])]))
  {
    hide Inv, SI.Inv, HeldCount, HeldBytes, Fits, Resident, CountSem, ByteSem, WaitersOf, CloseSem;
    Shape(d);
    Parts(d, i);
    CloseKeepsCount(d.counts[i], d.limits, i);
    assert Balanced(d, i, d.shards[i], CloseSem(d.counts[i]), d.bytes);
    PutKeepsInv(d, i, d.shards[i], CloseSem(d.counts[i]), d.bytes);
    assert d.shards[i := d.shards[i]] == d.shards;
  }

  lemma CloseBytesKeepsInv(d: Driver)
    requires Inv(d) && d.bytes.Some?
    ensures Inv(d.(bytes := Some(CloseSem(d.bytes.value))))
  {
    hide SI.Inv, HeldCount, SumHeld, Fits;
    var t := d.(bytes := Some(CloseSem(d.bytes.value)));
    forall i | 0 <= i < |t.shards|
      ensures CountOk(t, i)
    {
      assert CountOk(d, i);
      assert Staged(t.bytes, i) == Staged(d.bytes, i);
    }
  }

  /** Who is closing what does not matter to the permits. */
  lemma ClosersDoNotMatter(d: Driver, taken: bool, closers: seq<Closer>)
    requires Inv(d)
    ensures Inv(d.(taken := taken, closers := closers)) && Inv(d.(closers := closers))
  {
    hide SI.Inv, HeldCount, HeldBytes, Fits, CountSem, ByteSem, Resident, BytesOk;
    var t, u := d.(taken := taken, closers := closers), d.(closers := closers);
    forall j | 0 <= j < |d.shards|
      ensures CountOk(t, j) && CountOk(u, j)
    {
      assert CountOk(d, j);
    }
  }

  lemma StartCloseKeepsInv(d: Driver, owner: Option<nat>)
    requires Inv(d)
    ensures Inv(DoStartClose(d, owner))
  {
    hide Inv, Registered;
    ClosersDoNotMatter(d, true, d.closers + [Closer(owner, true, [])]);
    ClosersDoNotMatter(d, true, d.closers + [Closer(owner, false, if d.taken then [] else Registered(d))]);
  }

  lemma StepCloseKeepsInv(d: Driver, k: nat)
    requires Inv(d)
    ensures Inv(DoStepClose(d, k))
  {
    hide Inv, CloseSem;
    if k < |d.closers| && !d.closers[k].Done() {
      var c := d.closers[k];
      if !c.bytesDone {
        var u := d.(closers := d.closers[k := c.(bytesDone := true)]);
        ClosersDoNotMatter(d, d.taken, u.closers);
        if u.bytes.Some? {
          CloseBytesKeepsInv(u);
        }
      } else {
        var u := d.(closers := d.closers[k := c.(rest := c.rest[1..])]);
        ClosersDoNotMatter(d, d.taken, u.closers);
        if c.rest[0] < |u.counts| {
          CloseCountKeepsInv(u, c.rest[0]);
        }
      }
    }
  }

  lemma DeferKeepsInv(d: Driver, i: nat, args: Args, stream: bool)
    requires Inv(d)
    ensures Inv(DoDefer(d, i, args, stream))
  {
    hide SI.Inv, HeldCount, HeldBytes, Fits, CountSem, ByteSem, Resident, BytesOk;
    var t := DoDefer(d, i, args, stream);
    forall j | 0 <= j < |t.shards|
      ensures CountOk(t, j)
    {
      assert CountOk(d, j);
    }
  }

  lemma NextKeepsInv(d: Driver, e: Admission.Event)
    requires Inv(d)
    ensures Inv(Admission.Next(d, e))
  {
    hide Inv, DoSubmit, DoDefer, DoPoll, Abandon, DoInShard, DoStartClose, DoStepClose;
    match e
    case Submit(i, args, stream) => SubmitKeepsInv(d, i, args, stream);
    case Defer(i, args, stream) => DeferKeepsInv(d, i, args, stream);
    case StartClose(owner) => StartCloseKeepsInv(d, owner);
    case StepClose(k) => StepCloseKeepsInv(d, k);
    case Poll(at) => if Occupied(d, at) { PollKeepsInv(d, at); }
    case Drop(at) => if Occupied(d, at) { AbandonKeepsInv(d, at); }
    case InShard(i, event) => InShardKeepsInv(d, i, event);
    case CloseCount(i) => if i < |d.counts| { CloseCountKeepsInv(d, i); }
    case CloseBytes => if d.bytes.Some? { CloseBytesKeepsInv(d); }
  }

  lemma {:induction false} IdleHoldsNothing(shards: seq<Shard>, sqCap: nat)
    requires forall i :: 0 <= i < |shards| ==> shards[i] == Init(sqCap)
    ensures SumHeld(shards) == 0
  {
    if shards != [] {
      IdleHoldsNothing(shards[1..], sqCap);
      assert ChargeOf(map[]) == map[];
    }
  }

  lemma StartInv(entries: nat, shards: nat, limits: Limits, sqCap: nat)
    ensures Inv(Start(entries, shards, limits, sqCap))
  {
    var d := Start(entries, shards, limits, sqCap);
    ST.InitInv(sqCap);
    hide SI.Inv;
    IdleHoldsNothing(d.shards, sqCap);
  }

  lemma {:induction false} RunKeepsInv(d: Driver, events: seq<Admission.Event>)
    requires Inv(d)
    ensures Inv(Admission.Run(d, events))
    decreases |events|
  {
    hide Inv, Admission.Next;
    if events != [] {
      RunKeepsInv(d, events[..|events| - 1]);
      NextKeepsInv(Admission.Run(d, events[..|events| - 1]), events[|events| - 1]);
    }
  }
}
