/**
 * What a call on the driver comes to, in terms of what the semaphores and shards
 * hold at that moment: which requests are taken at all, when a submission sends
 * its read at once, and what each poll of a waiting handle answers.
 */
module AdmissionCalls {
  import opened Base
  import opened Geometry
  import opened ShardMachine
  import SI = ShardInvariant
  import opened Semaphores
  import opened Permits
  import opened Admission
  import opened AdmissionSteps
  import opened AdmissionHandles
  import opened AdmissionTheorems

  // ---- which requests ----

  /** A request is taken if and only if validation with the limits of the driver accepts it at that charge. */
  lemma FitsIsAccepted(limits: Limits, a: Args, stream: bool)
    requires a.offset < U64_RANGE && a.len < U64_RANGE
    ensures Fits(limits, a, stream) <==>
              && Validate(a.offset, a.len, a.align, stream, limits) == Accepted(a.charge)
              && (stream ==> a.offset == CURRENT_POSITION && a.align == 1)
  {
    hide AlignedGeometry;
  }

  // ---- sending ----

  /** The read is at the end of the shard's queue, with the file it names now, and that is all. */
  ghost predicate Queued(s: Shard, t: Shard, id: nat, args: Args) {
    && args.fd in s.fds
    && t == s.(queue := s.queue + [Read(id, args)], requests := s.requests[id := Request(args, s.fds[args.fd])])
  }

  lemma SendIs(s: Shard, id: nat, args: Args, stream: bool)
    requires SI.Inv(s) && s.phase.Running? && s.senders && args.fd in s.callerFds && id !in s.requests && id < CANCEL_BIT
    requires ValidArgs(args, stream)
    ensures Queued(s, DoSendRead(s, id, args, stream), id, args)
  {
    CallerFilesAreOpen(s);
    hide SI.Inv, ValidArgs;
  }

  lemma QueuedIsLonger(s: Shard, t: Shard, id: nat, args: Args)
    requires Queued(s, t, id, args)
    ensures t.queue != s.queue
  {
    assert |t.queue| == |s.queue| + 1;
  }

  /** With both permits in hand the read is sent, as long as the thread is there. */
  lemma SendWithIs(d: Driver, i: nat, count: Sem, bytes: Option<Sem>, id: nat, args: Args, stream: bool)
    requires i < |d.shards| == |d.counts| && SI.Inv(d.shards[i]) && ValidArgs(args, stream)
    requires d.shards[i].senders && args.fd in d.shards[i].callerFds && id !in d.shards[i].requests && id < CANCEL_BIT
    ensures var (t, r) := SendWith(d, i, count, bytes, id, args, stream);
            && (r == Sent <==> d.shards[i].phase.Running?) && (r == Sent || r == Failed)
            && (r == Sent ==> Queued(d.shards[i], t.shards[i], id, args) && t == Put(d, i, t.shards[i], count, bytes))
  {
    hide SI.Inv, ValidArgs, Release, Queued;
    var s := d.shards[i];
    if s.phase.Running? {
      SendIs(s, id, args, stream);
      QueuedIsLonger(s, DoSendRead(s, id, args, stream), id, args);
    }
  }

  // ---- submitting ----

  /**
   * A call the driver takes: validation accepts it at its charge, ids are left, and
   * the caller holds the file and the driver its end of the channel.
   */
  predicate Acceptable(d: Driver, i: nat, args: Args, stream: bool) {
    && i < |d.shards| && d.nextId < CANCEL_BIT
    && args.offset < U64_RANGE && args.len < U64_RANGE
    && Validate(args.offset, args.len, args.align, stream, d.limits) == Accepted(args.charge)
    && (stream ==> args.offset == CURRENT_POSITION && args.align == 1)
    && args.fd in d.shards[i].callerFds && d.shards[i].senders
  }

  lemma AcceptableIsCallable(d: Driver, i: nat, args: Args, stream: bool)
    requires |d.counts| == |d.shards|
    ensures Acceptable(d, i, args, stream) <==> Callable(d, i, args, stream)
  {
    if args.offset < U64_RANGE && args.len < U64_RANGE {
      FitsIsAccepted(d.limits, args, stream);
      hide Fits, Validate;
    }
  }

  /** Both permits are there at once. */
  predicate FreeNow(d: Driver, i: nat, charge: nat) {
    && i < |d.counts| && !d.counts[i].closed && d.counts[i].permits >= 1
    && (d.bytes.Some? ==> !d.bytes.value.closed && d.bytes.value.permits >= charge)
  }

  /** One count permit and the charge leave their semaphores with the read, under the next id. */
  ghost predicate Submitted(d: Driver, t: Driver, i: nat, args: Args)
    requires FreeNow(d, i, args.charge) && i < |d.shards|
  {
    && |t.shards| == |d.shards| && Queued(d.shards[i], t.shards[i], d.nextId, args)
    && t == d.(nextId := d.nextId + 1, shards := d.shards[i := t.shards[i]],
               counts := d.counts[i := d.counts[i].(permits := d.counts[i].permits - 1)],
               bytes := match d.bytes case None => None case Some(b) => Some(b.(permits := b.permits - args.charge)))
  }

  lemma FreshId(d: Driver, i: nat)
    requires Handles(d) && i < |d.shards|
    ensures d.nextId !in d.shards[i].requests
  {
    hide Waiting, Distinct;
  }

  lemma FreeIsImmediate(d: Driver, i: nat, charge: nat)
    requires i < |d.counts|
    ensures FreeNow(d, i, charge) <==> Immediate(d, i, charge)
  {
  }

  /** The byte semaphore without the charge. */
  function LessBytes(bytes: Option<Sem>, charge: nat): Option<Sem>
    requires bytes.Some? ==> bytes.value.permits >= charge
  {
    match bytes case None => None case Some(b) => Some(Grab(b, charge))
  }

  lemma PutIsSubmitted(d: Driver, t: Driver, i: nat, args: Args)
    requires FreeNow(d, i, args.charge) && i < |d.shards| == |d.counts| && |t.shards| == |d.shards|
    requires Queued(d.shards[i], t.shards[i], d.nextId, args)
    requires t == Put(TakeId(d), i, t.shards[i], Grab(d.counts[i], 1), LessBytes(d.bytes, args.charge))
    ensures Submitted(d, t, i, args)
  {
    hide Queued;
  }

  lemma SubmitSends(d: Driver, i: nat, args: Args, stream: bool)
    requires Callable(d, i, args, stream) && FreeNow(d, i, args.charge)
    ensures DoSubmit(d, i, args, stream)
            == SendWith(TakeId(d), i, Grab(d.counts[i], 1), LessBytes(d.bytes, args.charge), d.nextId, args, stream).0
  {
    hide SendWith, Fits;
  }

  lemma RunsWhenOpen(d: Driver, i: nat)
    requires LeftIsClosed(d) && i < |d.shards| && !d.counts[i].closed
    ensures d.shards[i].phase.Running?
  {
  }

  /**
   * A submission the driver can take sends its read at once if and only if both
   * permits are free; otherwise nothing happens, and the caller waits instead.
   */
  lemma SubmitIs(d: Driver, i: nat, args: Args, stream: bool)
    requires Inv(d) && Handles(d) && LeftIsClosed(d) && i < |d.shards|
    ensures var t := DoSubmit(d, i, args, stream);
            if Acceptable(d, i, args, stream) && FreeNow(d, i, args.charge) then Submitted(d, t, i, args) else t == d
  {
    AcceptableIsCallable(d, i, args, stream);
    FreeIsImmediate(d, i, args.charge);
    hide Acceptable;
    if Acceptable(d, i, args, stream) && FreeNow(d, i, args.charge) {
      SubmitSends(d, i, args, stream);
      Parts(d, i);
      FreshId(d, i);
      RunsWhenOpen(d, i);
      hide Inv, Handles, SendWith, ValidArgs, DoSubmit, Submitted, Grab, LessBytes, LeftIsClosed, SI.Inv, Immediate, Queued, Put;
      SendWithIs(TakeId(d), i, Grab(d.counts[i], 1), LessBytes(d.bytes, args.charge), d.nextId, args, stream);
      var t := DoSubmit(d, i, args, stream);
      PutLength(TakeId(d), i, t.shards[i], Grab(d.counts[i], 1), LessBytes(d.bytes, args.charge));
      PutIsSubmitted(d, t, i, args);
    }
  }

  lemma PutLength(d: Driver, i: nat, shard: Shard, count: Sem, bytes: Option<Sem>)
    requires i < |d.shards| == |d.counts|
    ensures |Put(d, i, shard, count, bytes).shards| == |d.shards|
  {
  }

  /** A deferred submission waits under the next id. */
  lemma DeferIs(d: Driver, i: nat, args: Args, stream: bool)
    requires |d.counts| == |d.shards| && Acceptable(d, i, args, stream)
    ensures var t := DoDefer(d, i, args, stream);
            && Occupied(t, Unpolled(|d.unpolled|)) && TicketAt(t, Unpolled(|d.unpolled|)).id == d.nextId
            && ShardOf(t, Unpolled(|d.unpolled|)) == i
            && t == d.(nextId := d.nextId + 1, unpolled := t.unpolled) && d.unpolled <= t.unpolled
            && |t.unpolled| == |d.unpolled| + 1
  {
    AcceptableIsCallable(d, i, args, stream);
    hide Acceptable, Fits;
  }

  // ---- polling ----

  /** The handle has all its permits but has not been told. */
  predicate HasPermits(d: Driver, at: Place) {
    at.ByteGranted? || (at.CountGranted? && d.bytes.None?)
  }

  /** Some semaphore the handle still depends on is closed. */
  predicate Barred(d: Driver, at: Place)
    requires Occupied(d, at)
  {
    || (d.bytes.Some? && d.bytes.value.closed && (at.CountGranted? || at.ByteQueued? || at.ByteGranted?))
    || (d.counts[ShardOf(d, at)].closed && (at.Unpolled? || at.CountQueued? || at.CountGranted?))
  }

  /** Its shard would take the read now, if it is there. */
  ghost predicate Sendable(d: Driver, w: Waiter) {
    && w.shard < |d.shards| == |d.counts| && SI.Inv(d.shards[w.shard]) && ValidArgs(w.args, w.stream)
    && d.shards[w.shard].senders && w.args.fd in d.shards[w.shard].callerFds
    && w.id !in d.shards[w.shard].requests && w.id < CANCEL_BIT
  }

  lemma GrantedFits(d: Driver, at: Place)
    requires Inv(d) && Handles(d) && Occupied(d, at) && (at.ByteGranted? || at.CountGranted?)
    ensures Sendable(d, WaiterAt(d, at)) && WaiterAt(d, at).shard == ShardOf(d, at)
  {
    var w := WaiterAt(d, at);
    WaiterIsFit(d, at);
    hide Waiting;
    OnlyItsOwn(d, at);
    Parts(d, w.shard);
    hide Inv, SI.Inv, ValidArgs;
    assert TicketOk(d.shards, d.nextId, TicketAt(d, at));
  }

  lemma WaiterIsFit(d: Driver, at: Place)
    requires Inv(d) && Occupied(d, at) && (at.ByteGranted? || at.CountGranted?)
    ensures var w := WaiterAt(d, at);
            w.shard == ShardOf(d, at) < |d.shards| == |d.counts| && ValidArgs(w.args, w.stream)
  {
    hide SI.Inv, HeldCount, Resident, SemOk, ValidArgs, SumHeld;
    if at.CountGranted? {
      assert CountOk(d, at.i);
      assert CountWaiter(d.limits, at.i, d.counts[at.i].granted[at.k]);
    } else {
      assert ByteWaiter(d.limits, |d.shards|, d.bytes.value.granted[at.k]);
    }
  }

  /** The read is sent if its shard is there, and fails otherwise. */
  ghost predicate SentIfThere(d: Driver, w: Waiter, t: Driver, r: PollResult) {
    && w.shard < |d.shards| && (r == Sent <==> d.shards[w.shard].phase.Running?) && (r == Sent || r == Failed)
    && (r == Sent ==> w.shard < |t.shards| && Queued(d.shards[w.shard], t.shards[w.shard], w.id, w.args))
  }

  lemma ByteGrantedIs(d: Driver, k: nat)
    requires Occupied(d, ByteGranted(k)) && !d.bytes.value.closed && Sendable(d, d.bytes.value.granted[k])
    ensures var (t, r) := DoPoll(d, ByteGranted(k)); SentIfThere(d, d.bytes.value.granted[k], t, r)
  {
    hide SendWith, SI.Inv, ValidArgs, Queued, Release, Abandon, TakeGranted;
    var w := d.bytes.value.granted[k];
    SendWithIs(d, w.shard, d.counts[w.shard], Some(TakeGranted(d.bytes.value, k)), w.id, w.args, w.stream);
  }

  lemma CountGrantedIs(d: Driver, i: nat, k: nat)
    requires Occupied(d, CountGranted(i, k)) && !d.counts[i].closed && d.bytes.None?
    requires Sendable(d, d.counts[i].granted[k]) && d.counts[i].granted[k].shard == i
    ensures var (t, r) := DoPoll(d, CountGranted(i, k)); SentIfThere(d, d.counts[i].granted[k], t, r)
  {
    hide SendWith, SI.Inv, ValidArgs, Queued, Release, Abandon, TakeGranted;
    var w := d.counts[i].granted[k];
    SendWithIs(d, i, TakeGranted(d.counts[i], k), None, w.id, w.args, w.stream);
  }

  /** Handles that do not have all their permits yet. */
  lemma UngrantedIs(d: Driver, at: Place)
    requires Occupied(d, at) && !HasPermits(d, at)
    ensures var (t, r) := DoPoll(d, at);
            && (r == Failed <==> Barred(d, at))
            && (r == Waits <==> !Barred(d, at) && (at.CountQueued? || at.ByteQueued?))
            && r != Sent && (r == Waits ==> t == d)
  {
    hide Abandon, Release, SendWith, Enqueue;
  }

  lemma BarredFails(d: Driver, at: Place)
    requires Occupied(d, at) && Barred(d, at)
    ensures DoPoll(d, at).1 == Failed
  {
    hide Abandon, Release, SendWith, Enqueue;
  }

  /**
   * What a poll answers is exact: it fails if and only if a semaphore the handle
   * depends on is closed or its shard has left; it waits if and only if the handle
   * is queued at an open one; it sends if and only if all permits are there and the
   * shard is, and then the read is at the end of that shard's queue.
   */
  lemma PollIs(d: Driver, at: Place)
    requires Occupied(d, at) && LeftIsClosed(d) && Inv(d) && Handles(d)
    ensures ShardOf(d, at) < |d.shards| == |d.counts|
    ensures var (t, r) := DoPoll(d, at);
            var i := ShardOf(d, at);
            && (r == Failed <==> Barred(d, at) || (at.ByteGranted? && !d.shards[i].phase.Running?))
            && (r == Waits <==> !Barred(d, at) && (at.CountQueued? || at.ByteQueued?))
            && (r == Sent <==> !Barred(d, at) && HasPermits(d, at) && d.shards[i].phase.Running?)
            && (r == Waits ==> t == d)
            && (r == Sent ==> i < |t.shards| && Queued(d.shards[i], t.shards[i], WaiterAt(d, at).id, WaiterAt(d, at).args))
  {
    hide Inv, Handles, DoPoll, Queued, LeftIsClosed, Sendable;
    if Barred(d, at) {
      BarredFails(d, at);
    } else if !HasPermits(d, at) {
      UngrantedIs(d, at);
    } else if at.ByteGranted? {
      GrantedFits(d, at);
      ByteGrantedIs(d, at.k);
    } else {
      GrantedFits(d, at);
      CountGrantedIs(d, at.i, at.k);
      RunsWhenOpen(d, at.i);
    }
  }
}
