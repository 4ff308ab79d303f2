/**
 * Closing a whole driver while threads return and callers shut down: what a
 * thread's return guarantees its own handles, what it guarantees others, and what
 * holds once every close has finished.
 */
module AdmissionClosing {
  import opened Base
  import opened Geometry
  import opened ShardMachine
  import ST = ShardTheorems
  import opened Semaphores
  import opened Admission
  import opened AdmissionHandles
  import opened AdmissionTheorems

  // ---- who still has which semaphore to close ----

  /** Some close still has this count semaphore on its list. */
  ghost predicate WillClose(closers: seq<Closer>, i: nat) {
    exists k :: 0 <= k < |closers| && i in closers[k].rest
  }

  ghost predicate CloserOk(d: Driver, c: Closer) {
    && (c.shard.Some? ==> c.shard.value < |d.shards| && !d.shards[c.shard.value].phase.Running?)
    && (c.bytesDone && d.bytes.Some? ==> d.bytes.value.closed)
  }

  /** Every close does its part, and whoever emptied the registry closes or has closed all that was in it. */
  ghost predicate ClosersOk(d: Driver) {
    && |d.counts| == |d.shards|
    && (forall k :: 0 <= k < |d.closers| ==> CloserOk(d, d.closers[k]))
    && (d.taken ==> forall i: nat :: i < |d.counts| ==> d.counts[i].closed || WillClose(d.closers, i))
    && (d.bytes.Some? && d.closers != [] ==> d.taken)
  }

  lemma Untouched(d: Driver, e: Admission.Event)
    requires !e.StartClose? && !e.StepClose?
    ensures Admission.Next(d, e).closers == d.closers && Admission.Next(d, e).taken == d.taken
  {
    hide ShardMachine.Next, DoSendRead, Release, Enqueue, AbandonQueued, AbandonGranted, Fits;
  }

  lemma WillCloseLonger(closers: seq<Closer>, c: Closer, i: nat)
    ensures WillClose(closers, i) ==> WillClose(closers + [c], i)
    ensures i in c.rest ==> WillClose(closers + [c], i)
  {
    var all := closers + [c];
    if WillClose(closers, i) {
      var k :| 0 <= k < |closers| && i in closers[k].rest;
      assert i in all[k].rest;
    }
    if i in c.rest {
      assert i in all[|closers|].rest;
    }
  }

  /** One close takes a step: everyone else's list is as it was. */
  lemma WillCloseStep(closers: seq<Closer>, k: nat, c: Closer, i: nat)
    requires k < |closers| && WillClose(closers, i) && (i in closers[k].rest ==> i in c.rest)
    ensures WillClose(closers[k := c], i)
  {
    var j :| 0 <= j < |closers| && i in closers[j].rest;
    assert i in closers[k := c][j].rest;
  }

  lemma StartKeepsClosers(d: Driver, owner: Option<nat>)
    requires ClosersOk(d)
    ensures ClosersOk(DoStartClose(d, owner))
  {
    var t := DoStartClose(d, owner);
    if t.closers != d.closers {
      var c := t.closers[|d.closers|];
      assert t.closers == d.closers + [c];
      forall k | 0 <= k < |t.closers|
        ensures CloserOk(t, t.closers[k])
      {
        assert k < |d.closers| ==> CloserOk(d, d.closers[k]);
      }
      forall i: nat | t.taken && i < |t.counts|
        ensures t.counts[i].closed || WillClose(t.closers, i)
      {
        WillCloseLonger(d.closers, c, i);
        assert d.bytes.Some? && !d.taken ==> Registered(d)[i] == i;
      }
    }
  }

  lemma StepKeepsClosers(d: Driver, k: nat)
    requires ClosersOk(d)
    ensures ClosersOk(DoStepClose(d, k))
  {
    var t := DoStepClose(d, k);
    if k < |d.closers| && !d.closers[k].Done() {
      var c, e := d.closers[k], t.closers[k];
      assert t.closers == d.closers[k := e];
      forall j | 0 <= j < |t.closers|
        ensures CloserOk(t, t.closers[j])
      {
        assert CloserOk(d, d.closers[j]);
      }
      forall i: nat | t.taken && i < |t.counts|
        ensures t.counts[i].closed || WillClose(t.closers, i)
      {
        if !t.counts[i].closed {
          assert c.bytesDone ==> i != c.rest[0] && c.rest == [c.rest[0]] + c.rest[1..];
          WillCloseStep(d.closers, k, e, i);
        }
      }
    }
  }

  /** Whatever else happens, nothing reopens and nobody comes back. */
  lemma OtherKeepsClosers(d: Driver, t: Driver)
    requires ClosersOk(d) && OneStep(d, t) && t.closers == d.closers && t.taken == d.taken
    ensures ClosersOk(t)
  {
    hide ShardStep;
    assert forall i :: 0 <= i < |d.shards| ==> Closing(d.shards[i], d.counts[i], t.shards[i], t.counts[i]);
    forall k | 0 <= k < |t.closers|
      ensures CloserOk(t, t.closers[k])
    {
      var c := d.closers[k];
      assert CloserOk(d, c);
      if c.shard.Some? {
        LeftStaysLeft(d.shards[c.shard.value], t.shards[c.shard.value]);
      }
    }
  }

  lemma NextKeepsClosers(d: Driver, e: Admission.Event)
    requires ClosersOk(d)
    ensures ClosersOk(Admission.Next(d, e))
  {
    hide ClosersOk, DoStartClose, DoStepClose, OneStep;
    match e
    case StartClose(owner) => StartKeepsClosers(d, owner);
    case StepClose(k) => StepKeepsClosers(d, k);
    case _ =>
      Untouched(d, e);
      NextIsStep(d, e);
      hide Admission.Next;
      OtherKeepsClosers(d, Admission.Next(d, e));
  }

  lemma {:induction false} RunClosers(entries: nat, shards: nat, limits: Limits, sqCap: nat, events: seq<Admission.Event>)
    ensures ClosersOk(Admission.Run(Start(entries, shards, limits, sqCap), events))
    decreases |events|
  {
    hide Admission.Next;
    if events != [] {
      hide ClosersOk;
      RunClosers(entries, shards, limits, sqCap, events[..|events| - 1]);
      NextKeepsClosers(Admission.Run(Start(entries, shards, limits, sqCap), events[..|events| - 1]), events[|events| - 1]);
    }
  }

  /** A thread that has returned stays so. */
  lemma ReturnedStays(d: Driver, e: Admission.Event, i: nat)
    requires Returned(d, i)
    ensures Returned(Admission.Next(d, e), i)
  {
    var k :| 0 <= k < |d.closers| && d.closers[k].shard == Some(i) && d.closers[k].Done();
    if e.StartClose? || e.StepClose? {
      hide Registered;
      assert Admission.Next(d, e).closers[k] == d.closers[k];
    } else {
      Untouched(d, e);
      hide Admission.Next;
    }
  }

  // ---- polls of waiting handles ----

  /** The handle there still has to get its count permit. */
  predicate InCountQueue(at: Place) {
    at.Unpolled? || at.CountQueued?
  }

  /** With bytes closed, a handle fails exactly when its count semaphore is closed or it is past it. */
  lemma PollWithBytesClosed(d: Driver, at: Place)
    requires Occupied(d, at) && d.bytes.Some? && d.bytes.value.closed
    ensures DoPoll(d, at).1 == Failed <==> d.counts[ShardOf(d, at)].closed || !InCountQueue(at)
  {
    hide Release, Abandon, SendWith, Enqueue;
  }

  lemma PollWithoutBytes(d: Driver, at: Place)
    requires Occupied(d, at) && d.bytes.None? && d.counts[ShardOf(d, at)].closed
    ensures DoPoll(d, at).1 == Failed
  {
    hide Release, Abandon, SendWith, Enqueue;
  }

  lemma ReturnedMeans(d: Driver, i: nat)
    requires ClosersOk(d) && LeftIsClosed(d) && Returned(d, i)
    ensures i < |d.shards| == |d.counts| && !d.shards[i].phase.Running? && d.counts[i].closed
    ensures d.bytes.Some? ==> d.bytes.value.closed
  {
    var k :| 0 <= k < |d.closers| && d.closers[k].shard == Some(i) && d.closers[k].Done();
    assert CloserOk(d, d.closers[k]);
  }

  /**
   * Over every run, with closes racing: once the thread of a shard has returned,
   * none of its handles keeps waiting. One that still waits for a permit fails when
   * polled, whatever stage it is in; the sender of every accepted read, queued,
   * pending or leaked, has been used exactly once. A handle of another shard fails,
   * when there is a byte budget, exactly if it is past its count permit or its own
   * count semaphore is closed too.
   */
  lemma HandlesResolve(entries: nat, shards: nat, limits: Limits, sqCap: nat, events: seq<Admission.Event>, i: nat)
    ensures var d := Admission.Run(Start(entries, shards, limits, sqCap), events);
            Returned(d, i) ==>
              && i < |d.shards| == |d.counts| == shards
              && (forall at :: Occupied(d, at) && ShardOf(d, at) == i ==> DoPoll(d, at).1 == Failed)
              && (forall at :: Occupied(d, at) && d.bytes.Some? ==>
                    (DoPoll(d, at).1 == Failed <==> d.counts[ShardOf(d, at)].closed || !InCountQueue(at)))
              && (forall id :: id in d.shards[i].requests ==> ST.Uses(d.shards[i], id) == 1)
  {
    hide Admission.Inv, Handles, Admission.Run, ST.Reachable, DoPoll, ST.Uses, LeftIsClosed, ClosersOk, Returned;
    RunFacts(entries, shards, limits, sqCap, events);
    RunClosers(entries, shards, limits, sqCap, events);
    var d := Admission.Run(Start(entries, shards, limits, sqCap), events);
    if Returned(d, i) {
      ReturnedMeans(d, i);
      forall at | Occupied(d, at)
        ensures ShardOf(d, at) == i ==> DoPoll(d, at).1 == Failed
        ensures d.bytes.Some? ==> (DoPoll(d, at).1 == Failed <==> d.counts[ShardOf(d, at)].closed || !InCountQueue(at))
      {
        if d.bytes.Some? {
          PollWithBytesClosed(d, at);
        } else if ShardOf(d, at) == i {
          PollWithoutBytes(d, at);
        }
      }
      forall id | id in d.shards[i].requests
        ensures ST.Uses(d.shards[i], id) == 1
      {
        ST.SendersResolveOnce(d.shards[i], id);
      }
    }
  }

  // ---- every close over ----

  lemma AllClosed(d: Driver, i: nat)
    requires ClosersOk(d) && d.bytes.Some? && d.closers != [] && i < |d.counts|
    requires forall k :: 0 <= k < |d.closers| ==> d.closers[k].Done()
    ensures d.bytes.value.closed && d.counts[i].closed
  {
    assert d.closers[0].Done() && CloserOk(d, d.closers[0]);
    assert forall k :: 0 <= k < |d.closers| ==> d.closers[k].rest == [];
    assert !WillClose(d.closers, i);
  }

  /**
   * Over every run of a driver with a byte budget: once some close has begun and
   * every close that has begun is over, all admission is closed, and every waiting
   * handle of every shard fails when polled.
   */
  lemma DriverCloses(entries: nat, shards: nat, limits: Limits, sqCap: nat, events: seq<Admission.Event>, at: Place)
    requires var d := Admission.Run(Start(entries, shards, limits, sqCap), events);
             && d.bytes.Some? && d.closers != [] && Occupied(d, at)
             && forall k :: 0 <= k < |d.closers| ==> d.closers[k].Done()
    ensures var d := Admission.Run(Start(entries, shards, limits, sqCap), events);
            && (forall i :: 0 <= i < |d.counts| ==> d.counts[i].closed)
            && DoPoll(d, at).1 == Failed
  {
    hide Admission.Run, DoPoll, ClosersOk;
    RunClosers(entries, shards, limits, sqCap, events);
    var d := Admission.Run(Start(entries, shards, limits, sqCap), events);
    forall i | 0 <= i < |d.counts|
      ensures d.counts[i].closed
    {
      AllClosed(d, i);
    }
    AllClosed(d, ShardOf(d, at));
    PollWithBytesClosed(d, at);
  }

  // ---- and why not earlier ----

  /**
   * The race: when the registry has been emptied by a close that is still at work,
   * the thread of another shard that has left returns after two steps, and every
   * count semaphore is exactly as it was. A handle that queues at an open one waits.
   */
  lemma ThreadReturnsBeforeFirstCloser(d: Driver, i: nat)
    requires d.taken && d.bytes.Some? && i < |d.shards| && !d.shards[i].phase.Running?
    requires forall k :: 0 <= k < |d.closers| ==> d.closers[k].shard != Some(i)
    ensures var t := Admission.Next(Admission.Next(d, StartClose(Some(i))), StepClose(|d.closers|));
            && Returned(t, i) && t.counts == d.counts
            && forall j: nat, k: nat :: Occupied(t, CountQueued(j, k)) && !d.counts[j].closed ==> DoPoll(t, CountQueued(j, k)).1 == Waits
  {
    var u := DoStartClose(d, Some(i));
    assert u.closers == d.closers + [Closer(Some(i), false, [])];
    var t := DoStepClose(u, |d.closers|);
    assert t.closers[|d.closers|] == Closer(Some(i), true, []);
    assert Returned(t, i);
  }
}
