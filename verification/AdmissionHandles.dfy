/** The handles that wait for permits: each is one, with its own id, its file and its way to the shard. */
module AdmissionHandles {
  import opened Base
  import opened Geometry
  import opened LogicalRead
  import opened ShardMachine
  import SI = ShardInvariant
  import opened Semaphores
  import opened Permits
  import opened Admission
  import opened AdmissionSteps
  import opened Frames

  // ---- who waits, after an update ----

  lemma Shifted(h: multiset<Ticket>, a: multiset<Ticket>, b: multiset<Ticket>, c: multiset<Ticket>, d: multiset<Ticket>)
    requires a + b == c + d
    ensures (h + a) + b == (h + c) + d
  {
    forall x
      ensures ((h + a) + b)[x] == ((h + c) + d)[x]
    {
      assert (a + b)[x] == (c + d)[x];
    }
  }

  lemma {:induction false} SumTicketsUpdate(counts: seq<Sem>, i: nat, count: Sem)
    requires i < |counts|
    ensures SumTickets(counts[i := count]) + SemTickets(counts[i]) == SumTickets(counts) + SemTickets(count)
  {
    hide SemTickets;
    if i == 0 {
      assert counts[i := count][1..] == counts[1..];
    } else {
      assert counts[i := count][1..] == counts[1..][i - 1 := count];
      SumTicketsUpdate(counts[1..], i - 1, count);
      Shifted(SemTickets(counts[0]), SumTickets(counts[i := count][1..]), SemTickets(counts[i]), SumTickets(counts[1..]), SemTickets(count));
    }
  }

  lemma Cancelled(a: multiset<Ticket>, b: multiset<Ticket>, c: multiset<Ticket>)
    requires a + c == b + c
    ensures a == b
  {
    assert forall x :: (a + c)[x] == a[x] + c[x] && (b + c)[x] == b[x] + c[x];
  }

  lemma Rebalanced(u: multiset<Ticket>, x: multiset<Ticket>, y: multiset<Ticket>, b: multiset<Ticket>, c: multiset<Ticket>,
                   was: multiset<Ticket>, now: multiset<Ticket>, came: multiset<Ticket>, gone: multiset<Ticket>)
    requires y + was == x + now && was + b + came == now + c + gone
    ensures u + x + b + came == u + y + c + gone
  {
    forall t
      ensures (u + x + b + came)[t] == (u + y + c + gone)[t]
    {
      assert (y + was)[t] == (x + now)[t];
      assert (was + b + came)[t] == (now + c + gone)[t];
    }
  }

  /** `came` entered the semaphores that an update replaced, and `gone` left them. */
  lemma PutBalance(d: Driver, i: nat, shard: Shard, count: Sem, bytes: Option<Sem>, came: multiset<Ticket>, gone: multiset<Ticket>)
    requires i < |d.shards| == |d.counts|
    requires SemTickets(d.counts[i]) + BytesTickets(d.bytes) + came == SemTickets(count) + BytesTickets(bytes) + gone
    ensures Waiting(d) + came == Waiting(Put(d, i, shard, count, bytes)) + gone
  {
    hide SemTickets, BytesTickets, SumTickets, Tickets;
    var t := Put(d, i, shard, count, bytes);
    SumTicketsUpdate(d.counts, i, count);
    Rebalanced(Tickets(d.unpolled), SumTickets(d.counts), SumTickets(t.counts), BytesTickets(d.bytes), BytesTickets(bytes),
               SemTickets(d.counts[i]), SemTickets(count), came, gone);
  }

  lemma PutWaiting(d: Driver, i: nat, shard: Shard, count: Sem, bytes: Option<Sem>, gone: multiset<Ticket>)
    requires i < |d.shards| == |d.counts|
    requires SemTickets(d.counts[i]) + BytesTickets(d.bytes) == SemTickets(count) + BytesTickets(bytes) + gone
    ensures Waiting(d) == Waiting(Put(d, i, shard, count, bytes)) + gone
  {
    hide SemTickets, BytesTickets, Waiting;
    PutBalance(d, i, shard, count, bytes, multiset{}, gone);
  }

  function TicketAt(d: Driver, at: Place): Ticket
    requires Occupied(d, at)
  {
    TicketOf(WaiterAt(d, at))
  }

  function WaiterAt(d: Driver, at: Place): Waiter
    requires Occupied(d, at)
  {
    match at
    case Unpolled(k) => d.unpolled[k]
    case CountQueued(i, k) => d.counts[i].queue[k]
    case CountGranted(i, k) => d.counts[i].granted[k]
    case ByteQueued(k) => d.bytes.value.queue[k]
    case ByteGranted(k) => d.bytes.value.granted[k]
  }

  lemma AbandonLeaves(d: Driver, at: Place)
    requires Occupied(d, at)
    ensures Waiting(d) == Waiting(Abandon(d, at)) + multiset{TicketAt(d, at)}
  {
    hide Release, SemTickets, SumTickets, Tickets, AbandonQueued, AbandonGranted, Waiting, TicketOf, Put;
    match at
    case Unpolled(k) => UnpolledLeaves(d, k);
    case CountQueued(i, k) =>
      AbandonDropsTicket(d.counts[i], k);
      PutWaiting(d, i, d.shards[i], AbandonQueued(d.counts[i], k), d.bytes, multiset{TicketAt(d, at)});
    case CountGranted(i, k) =>
      AbandonDropsTicket(d.counts[i], k);
      PutWaiting(d, i, d.shards[i], AbandonGranted(d.counts[i], k), d.bytes, multiset{TicketAt(d, at)});
    case ByteQueued(k) =>
      var i := d.bytes.value.queue[k].shard;
      AbandonDropsTicket(d.bytes.value, k);
      ReleaseKeepsTickets(d.counts[i], 1);
      PutWaiting(d, i, d.shards[i], Release(d.counts[i], 1), Some(AbandonQueued(d.bytes.value, k)), multiset{TicketAt(d, at)});
    case ByteGranted(k) =>
      var i := d.bytes.value.granted[k].shard;
      AbandonDropsTicket(d.bytes.value, k);
      ReleaseKeepsTickets(d.counts[i], 1);
      PutWaiting(d, i, d.shards[i], Release(d.counts[i], 1), Some(AbandonGranted(d.bytes.value, k)), multiset{TicketAt(d, at)});
  }

  lemma UnpolledLeaves(d: Driver, k: nat)
    requires k < |d.unpolled|
    ensures Waiting(d) == Waiting(SetUnpolled(d, RemoveAt(d.unpolled, k))) + multiset{TicketOf(d.unpolled[k])}
  {
    hide SemTickets, SumTickets, Tickets, TicketOf;
    TicketsRemove(d.unpolled, k);
  }

  // ---- what every waiting handle has ----

  predicate TicketOk(shards: seq<Shard>, nextId: nat, t: Ticket) {
    && t.id < nextId && t.shard < |shards|
    && t.id !in shards[t.shard].requests
    && t.args.fd in shards[t.shard].callerFds && shards[t.shard].senders
  }

  /** No handle occurs twice, and no two share an id. */
  ghost predicate Distinct(m: multiset<Ticket>) {
    && (forall t :: t in m ==> m[t] == 1)
    && (forall t, u :: t in m && u in m && t.id == u.id ==> t == u)
  }

  lemma DistinctFewer(m: multiset<Ticket>, n: multiset<Ticket>)
    requires Distinct(m) && n <= m
    ensures Distinct(n) && forall t :: t in n ==> t in m
  {
    assert forall t :: t in n ==> t in m && n[t] <= m[t];
  }

  lemma DistinctMore(m: multiset<Ticket>, x: Ticket)
    requires Distinct(m) && forall t :: t in m ==> t.id != x.id
    ensures Distinct(m + multiset{x})
  {
    var n := m + multiset{x};
    assert forall t :: t in n <==> t in m || t == x;
    assert forall t :: t != x ==> n[t] == m[t];
  }

  /** Handles have ids of their own, new to their shard; they hold their file and their sender. */
  ghost predicate Handles(d: Driver) {
    && d.nextId <= CANCEL_BIT
    && Distinct(Waiting(d))
    && (forall t :: t in Waiting(d) ==> TicketOk(d.shards, d.nextId, t))
    && (forall i, id :: 0 <= i < |d.shards| && id in d.shards[i].requests ==> id < d.nextId)
  }

  /** Handles may leave; the shards remember the same reads and keep what the others need. */
  lemma FewerHandles(d: Driver, t: Driver)
    requires Handles(d) && Waiting(t) <= Waiting(d) && t.nextId == d.nextId && |t.shards| == |d.shards|
    requires forall i :: 0 <= i < |d.shards| ==> t.shards[i].requests.Keys == d.shards[i].requests.Keys
    requires forall x :: x in Waiting(t) ==>
               x.shard < |t.shards| && x.args.fd in t.shards[x.shard].callerFds && t.shards[x.shard].senders
    ensures Handles(t)
  {
    hide Waiting;
    DistinctFewer(Waiting(d), Waiting(t));
    hide Distinct;
    forall i, id | 0 <= i < |t.shards| && id in t.shards[i].requests
      ensures id < t.nextId
    {
      assert id in d.shards[i].requests;
    }
    forall x | x in Waiting(t)
      ensures TicketOk(t.shards, t.nextId, x)
    {
      assert TicketOk(d.shards, d.nextId, x);
      assert x.id !in d.shards[x.shard].requests.Keys;
    }
  }

  /** The same shards, and no handle that was not there. */
  lemma SameShards(d: Driver, t: Driver)
    requires Handles(d) && Waiting(t) <= Waiting(d) && t.nextId == d.nextId && t.shards == d.shards
    ensures Handles(t)
  {
    hide Waiting;
    forall x | x in Waiting(t)
      ensures x.shard < |t.shards| && x.args.fd in t.shards[x.shard].callerFds && t.shards[x.shard].senders
    {
      assert x in Waiting(d);
      assert TicketOk(d.shards, d.nextId, x);
    }
    FewerHandles(d, t);
  }

  /** One read, whose id no handle has, enters a shard. */
  predicate Enters(s: Shard, t: Shard, id: nat) {
    t.requests.Keys == s.requests.Keys + {id} && t.callerFds == s.callerFds && t.senders == s.senders
  }

  lemma SentKeeps(d: Driver, t: Driver, i: nat, id: nat)
    requires Handles(d) && i < |d.shards| && id < d.nextId
    requires Waiting(t) <= Waiting(d) && t.nextId == d.nextId && |t.shards| == |d.shards|
    requires forall x :: x in Waiting(t) ==> x.id != id
    requires Enters(d.shards[i], t.shards[i], id) && t.shards == d.shards[i := t.shards[i]]
    ensures Handles(t)
  {
    hide Waiting;
    DistinctFewer(Waiting(d), Waiting(t));
    hide Distinct;
    forall x | x in Waiting(t)
      ensures TicketOk(t.shards, t.nextId, x)
    {
      assert TicketOk(d.shards, d.nextId, x);
      assert x.id !in d.shards[x.shard].requests.Keys;
    }
    forall j, k | 0 <= j < |t.shards| && k in t.shards[j].requests
      ensures k < t.nextId
    {
      assert k in d.shards[j].requests.Keys || k == id;
    }
  }

  lemma SendEnters(s: Shard, id: nat, args: Args, stream: bool)
    ensures var t := DoSendRead(s, id, args, stream); t.queue != s.queue ==> Enters(s, t, id)
    ensures CanSend(s) && id !in s.requests && id < CANCEL_BIT && args.fd in s.fds && ValidArgs(args, stream) ==>
              DoSendRead(s, id, args, stream).queue != s.queue
  {
    hide ValidArgs;
    assert |s.queue + [Read(id, args)]| == |s.queue| + 1;
  }

  /** A read that is sent, or fails to be, with its ticket gone. */
  lemma SendWithKeeps(d: Driver, i: nat, count: Sem, bytes: Option<Sem>, id: nat, args: Args, stream: bool, gone: multiset<Ticket>)
    requires Handles(d) && i < |d.shards| == |d.counts| && id < d.nextId
    requires SemTickets(d.counts[i]) + BytesTickets(d.bytes) == SemTickets(count) + BytesTickets(bytes) + gone
    requires forall x :: x in Waiting(d) && x.id == id ==> x in gone
    requires forall x :: x in gone ==> x in Waiting(d)
    ensures Handles(SendWith(d, i, count, bytes, id, args, stream).0)
  {
    hide Handles, SemTickets, Waiting, DoSendRead, Release, Enters;
    var shard := DoSendRead(d.shards[i], id, args, stream);
    SendEnters(d.shards[i], id, args, stream);
    if shard.queue == d.shards[i].queue {
      ReleaseKeepsTickets(count, 1);
      if bytes.Some? {
        ReleaseKeepsTickets(bytes.value, args.charge);
      }
      var t := Put(d, i, d.shards[i], Release(count, 1), ReleaseBytes(bytes, args.charge));
      PutWaiting(d, i, d.shards[i], Release(count, 1), ReleaseBytes(bytes, args.charge), gone);
      assert t.shards == d.shards;
      SameShards(d, t);
    } else {
      var t := Put(d, i, shard, count, bytes);
      PutWaiting(d, i, shard, count, bytes, gone);
      OthersStay(d, Waiting(t), gone, id);
      SentKeeps(d, t, i, id);
    }
  }

  lemma OthersStay(d: Driver, after: multiset<Ticket>, gone: multiset<Ticket>, id: nat)
    requires Handles(d) && Waiting(d) == after + gone
    requires forall x :: x in Waiting(d) && x.id == id ==> x in gone
    ensures forall x :: x in after ==> x.id != id
  {
    hide Waiting;
    forall x | x in after
      ensures x.id != id
    {
      assert x in Waiting(d) && Waiting(d)[x] == after[x] + gone[x];
      assert Waiting(d)[x] == 1;
    }
  }

  // ---- every step ----

  lemma OnlyItsOwn(d: Driver, at: Place)
    requires Handles(d) && Occupied(d, at)
    ensures TicketAt(d, at) in Waiting(d)
    ensures forall x :: x in Waiting(d) && x.id == TicketAt(d, at).id ==> x == TicketAt(d, at)
  {
    hide Waiting, Abandon, TicketAt, Occupied;
    AbandonLeaves(d, at);
  }

  lemma AbandonKeepsHandles(d: Driver, at: Place)
    requires Handles(d) && Occupied(d, at)
    ensures Handles(Abandon(d, at))
  {
    hide Handles, Waiting, Release, AbandonQueued, AbandonGranted, TicketAt;
    AbandonLeaves(d, at);
    AbandonFrame(d, at);
    SameShards(d, Abandon(d, at));
  }

  lemma AbandonFrame(d: Driver, at: Place)
    requires Occupied(d, at)
    ensures Abandon(d, at).shards == d.shards && Abandon(d, at).nextId == d.nextId
  {
    hide Release, AbandonQueued, AbandonGranted;
  }

  lemma AfterCountKeepsHandles(d: Driver, i: nat, k: nat)
    requires Inv(d) && Handles(d) && i < |d.shards| == |d.counts| && k < |d.counts[i].granted|
    ensures Handles(AfterCount(d, i, k).0)
  {
    hide Inv, Handles, Waiting, SemTickets, Enqueue, Abandon, SendWith, TicketOf;
    var at := CountGranted(i, k);
    var w := d.counts[i].granted[k];
    OnlyItsOwn(d, at);
    AbandonDropsTicket(d.counts[i], k);
    match d.bytes
    case None =>
      TicketIds(d, at, w);
      SendWithKeeps(d, i, TakeGranted(d.counts[i], k), None, w.id, w.args, w.stream, multiset{TicketOf(w)});
    case Some(b) =>
      if b.closed {
        AbandonKeepsHandles(d, at);
      } else {
        var v := Waiter(w.id, i, w.args, w.stream, w.args.charge, 0);
        assert TicketOf(v) == TicketOf(w) by { GrantedShard(d, i, k); SameTicket(v, w); }
        EnqueueAddsTicket(b, v);
        PutWaiting(d, i, d.shards[i], TakeGranted(d.counts[i], k), Some(Enqueue(b, v)), multiset{});
        var t := Put(d, i, d.shards[i], TakeGranted(d.counts[i], k), Some(Enqueue(b, v)));
        assert t.shards == d.shards;
        SameShards(d, t);
      }
  }

  lemma SameTicket(v: Waiter, w: Waiter)
    requires v.id == w.id && v.shard == w.shard && v.args == w.args && v.stream == w.stream
    ensures TicketOf(v) == TicketOf(w)
  {
  }

  lemma GrantedShard(d: Driver, i: nat, k: nat)
    requires Inv(d) && i < |d.counts| && k < |d.counts[i].granted|
    ensures d.counts[i].granted[k].shard == i
  {
    hide SI.Inv, BytesOk, Fits, Resident, HeldCount, SemOk;
    assert CountOk(d, i);
    assert CountWaiter(d.limits, i, d.counts[i].granted[k]);
  }

  /** A waiting handle's id is below the next one. */
  lemma TicketIds(d: Driver, at: Place, w: Waiter)
    requires Handles(d) && Occupied(d, at) && WaiterAt(d, at) == w
    ensures w.id < d.nextId && TicketAt(d, at) == TicketOf(w) && TicketOf(w).id == w.id
  {
    OnlyItsOwn(d, at);
    hide Waiting;
    assert TicketOk(d.shards, d.nextId, TicketAt(d, at));
  }

  lemma PollKeepsHandles(d: Driver, at: Place)
    requires Inv(d) && Handles(d) && Occupied(d, at)
    ensures Handles(DoPoll(d, at).0)
  {
    hide Inv, Handles, Waiting, SemTickets, Enqueue, Abandon, SendWith, TicketOf, AfterCount, Tickets;
    AbandonKeepsHandles(d, at);
    match at
    case Unpolled(k) =>
      var w := d.unpolled[k];
      if !d.counts[w.shard].closed {
        EnterQueueKeepsHandles(d, k);
      }
    case CountQueued(_, _) =>
    case CountGranted(i, k) =>
      if !d.counts[i].closed {
        AfterCountKeepsHandles(d, i, k);
      }
    case ByteQueued(_) =>
    case ByteGranted(k) =>
      if !d.bytes.value.closed {
        var w := d.bytes.value.granted[k];
        OnlyItsOwn(d, at);
        TicketIds(d, at, w);
        AbandonDropsTicket(d.bytes.value, k);
        SendWithKeeps(d, w.shard, d.counts[w.shard], Some(TakeGranted(d.bytes.value, k)), w.id, w.args, w.stream, multiset{TicketOf(w)});
      }
  }

  lemma EnterQueueKeepsHandles(d: Driver, k: nat)
    requires Handles(d) && Occupied(d, Unpolled(k)) && !d.counts[d.unpolled[k].shard].closed
    ensures Handles(DoPoll(d, Unpolled(k)).0)
  {
    hide Handles, Enqueue, SemTickets, Waiting, TicketOf, Put, SetUnpolled;
    var w := d.unpolled[k];
    var i := w.shard;
    var mid := Put(d, i, d.shards[i], Enqueue(d.counts[i], w), d.bytes);
    EnqueueAddsTicket(d.counts[i], w);
    PutBalance(d, i, d.shards[i], Enqueue(d.counts[i], w), d.bytes, multiset{TicketOf(w)}, multiset{});
    PutFrame(d, i, d.shards[i], Enqueue(d.counts[i], w), d.bytes);
    UnpolledLeaves(mid, k);
    Cancelled(Waiting(d), Waiting(SetUnpolled(mid, RemoveAt(d.unpolled, k))), multiset{TicketOf(w)});
    UnpolledFrame(mid, RemoveAt(d.unpolled, k));
    SameShards(d, SetUnpolled(mid, RemoveAt(d.unpolled, k)));
  }

  lemma PutFrame(d: Driver, i: nat, shard: Shard, count: Sem, bytes: Option<Sem>)
    requires i < |d.shards| == |d.counts|
    ensures var t := Put(d, i, shard, count, bytes);
            t.unpolled == d.unpolled && t.nextId == d.nextId && (shard == d.shards[i] ==> t.shards == d.shards)
  {
  }

  lemma UnpolledFrame(d: Driver, unpolled: seq<Waiter>)
    ensures SetUnpolled(d, unpolled).shards == d.shards && SetUnpolled(d, unpolled).nextId == d.nextId
  {
  }

  /** Taking the next id keeps every handle; nobody has it yet. */
  lemma TakeIdKeepsHandles(d: Driver)
    requires Handles(d) && d.nextId < CANCEL_BIT
    ensures Handles(TakeId(d)) && forall x :: x in Waiting(d) ==> x.id != d.nextId
  {
    hide Tickets, SumTickets, BytesTickets;
    assert Waiting(TakeId(d)) == Waiting(d);
    forall x | x in Waiting(d)
      ensures TicketOk(d.shards, d.nextId + 1, x) && x.id != d.nextId
    {
      assert TicketOk(d.shards, d.nextId, x);
    }
  }

  lemma SubmitKeepsHandles(d: Driver, i: nat, args: Args, stream: bool)
    requires Handles(d)
    ensures Handles(DoSubmit(d, i, args, stream))
  {
    hide Handles, SendWith, Fits, Tickets, SumTickets;
    if Callable(d, i, args, stream) && Immediate(d, i, args.charge) {
      TakeIdKeepsHandles(d);
      var bytes := match d.bytes case None => None case Some(b) => Some(Grab(b, args.charge));
      assert SemTickets(Grab(d.counts[i], 1)) == SemTickets(d.counts[i]);
      assert BytesTickets(bytes) == BytesTickets(d.bytes);
      SendWithKeeps(TakeId(d), i, Grab(d.counts[i], 1), bytes, d.nextId, args, stream, multiset{});
    }
  }

  /** A handle with the next id joins. */
  lemma OneMoreHandle(d: Driver, t: Driver, x: Ticket)
    requires Handles(d) && d.nextId < CANCEL_BIT && t.nextId == d.nextId + 1 && t.shards == d.shards
    requires Waiting(t) == Waiting(d) + multiset{x} && x.id == d.nextId
    requires x.shard < |d.shards| && x.args.fd in d.shards[x.shard].callerFds && d.shards[x.shard].senders
    ensures Handles(t)
  {
    TakeIdKeepsHandles(d);
    hide Waiting, Distinct;
    DistinctMore(Waiting(d), x);
    forall y | y in Waiting(t)
      ensures TicketOk(t.shards, t.nextId, y)
    {
      assert y == x || y in Waiting(TakeId(d));
    }
  }

  lemma DeferKeepsHandles(d: Driver, i: nat, args: Args, stream: bool)
    requires Handles(d)
    ensures Handles(DoDefer(d, i, args, stream))
  {
    hide Handles, Fits, SumTickets, Tickets, BytesTickets;
    if Callable(d, i, args, stream) {
      var w := Waiter(d.nextId, i, args, stream, 1, 0);
      TicketsConcat(d.unpolled, [w]);
      TicketsOne(w);
      OneMoreHandle(d, DoDefer(d, i, args, stream), TicketOf(w));
    }
  }

  // ---- shards ----

  lemma ShardBooks(s: Shard, e: ShardMachine.Event)
    requires !e.SendRead?
    ensures var t := ShardMachine.Next(s, e);
            && t.requests == s.requests
            && (e.DropSenders? || t.senders == s.senders)
            && (s.callerFds <= t.callerFds || (e.DropFile? && t.callerFds == s.callerFds - {e.fd}))
  {
    hide ShardMachine.Next;
    if InRings(e) {
      RingFrame(s, e);
    } else if InThread(e) {
      ThreadFrame(s, e);
    } else {
      CallerBooks(s, e);
    }
  }

  lemma CallerBooks(s: Shard, e: ShardMachine.Event)
    requires InCallers(e) && !e.SendRead?
    ensures var t := ShardMachine.Next(s, e);
            && t.requests == s.requests
            && (e.DropSenders? || t.senders == s.senders)
            && (s.callerFds <= t.callerFds || (e.DropFile? && t.callerFds == s.callerFds - {e.fd}))
  {
    hide FdRefs, Referenced;
    hide DoRecvRead, DoRecvCancel, DoRecvShutdown, DoSeeDisconnect, DoSubmitReturned, DoReap, DoExitDrained, DoExitLeaked;
    hide DoSendRead, DoAcceptOne, DoFlushOne, DoKernelWrite, DoCompleteRead, DoCompleteCancel;
  }

  lemma InShardKeepsHandles(d: Driver, i: nat, e: ShardMachine.Event)
    requires Handles(d)
    ensures Handles(DoInShard(d, i, e))
  {
    hide Handles, SemTickets, Waiting, ShardMachine.Next, Release, HeldCount, HeldBytes;
    if i < |d.shards| == |d.counts| && !e.SendRead? && !Pinned(d, i, e) {
      var s, t := d.shards[i], ShardMachine.Next(d.shards[i], e);
      if HeldCount(t) <= HeldCount(s) && HeldBytes(t) <= HeldBytes(s) {
        var n, m := HeldCount(s) - HeldCount(t), HeldBytes(s) - HeldBytes(t);
        ReleaseKeepsTickets(d.counts[i], n);
        CloseKeepsTickets(Release(d.counts[i], n));
        if d.bytes.Some? {
          ReleaseKeepsTickets(d.bytes.value, m);
        }
        var count := Release(d.counts[i], n);
        var after := if s.phase.Running? && !t.phase.Running? then CloseSem(count) else count;
        PutWaiting(d, i, t, after, ReleaseBytes(d.bytes, m), multiset{});
        ShardBooks(s, e);
        ShardStepKeepsHandles(d, Put(d, i, t, after, ReleaseBytes(d.bytes, m)), i, e);
      }
    }
  }

  lemma CloseKeepsTickets(s: Sem)
    ensures SemTickets(CloseSem(s)) == SemTickets(s)
  {
  }

  lemma ShardStepKeepsHandles(d: Driver, t: Driver, i: nat, e: ShardMachine.Event)
    requires Handles(d) && i < |d.shards| && !Pinned(d, i, e)
    requires Waiting(t) == Waiting(d) && t.nextId == d.nextId && |t.shards| == |d.shards|
    requires t.shards == d.shards[i := t.shards[i]] && t.shards[i].requests == d.shards[i].requests
    requires e.DropSenders? || t.shards[i].senders == d.shards[i].senders
    requires d.shards[i].callerFds <= t.shards[i].callerFds
             || (e.DropFile? && t.shards[i].callerFds == d.shards[i].callerFds - {e.fd})
    ensures Handles(t)
  {
    hide Waiting;
    forall x | x in Waiting(t)
      ensures x.shard < |t.shards| && x.args.fd in t.shards[x.shard].callerFds && t.shards[x.shard].senders
    {
      assert x in Waiting(d);
      assert TicketOk(d.shards, d.nextId, x);
    }
    FewerHandles(d, t);
  }

  lemma ClosedCountKeepsHandles(d: Driver, t: Driver, i: nat)
    requires Handles(d) && t.shards == d.shards && t.nextId == d.nextId && t.unpolled == d.unpolled && t.bytes == d.bytes
    requires t.counts == if i < |d.counts| then d.counts[i := CloseSem(d.counts[i])] else d.counts
    ensures Handles(t)
  {
    hide Handles, SumTickets, SemTickets, Tickets, CloseSem;
    if i < |d.counts| {
      CloseKeepsTickets(d.counts[i]);
      SumTicketsUpdate(d.counts, i, CloseSem(d.counts[i]));
      Cancelled(SumTickets(t.counts), SumTickets(d.counts), SemTickets(d.counts[i]));
    }
    SameShards(d, t);
  }

  lemma ClosedBytesKeepsHandles(d: Driver, t: Driver)
    requires Handles(d) && t.shards == d.shards && t.nextId == d.nextId && t.unpolled == d.unpolled && t.counts == d.counts
    requires t.bytes == d.bytes || (d.bytes.Some? && t.bytes == Some(CloseSem(d.bytes.value)))
    ensures Handles(t)
  {
    hide Handles, SumTickets, SemTickets, Tickets, CloseSem;
    if d.bytes.Some? {
      CloseKeepsTickets(d.bytes.value);
    }
    SameShards(d, t);
  }

  lemma StepCloseKeepsHandles(d: Driver, k: nat)
    requires Handles(d)
    ensures Handles(DoStepClose(d, k))
  {
    hide Handles, CloseSem;
    var t := DoStepClose(d, k);
    if k < |d.closers| && !d.closers[k].Done() && d.closers[k].bytesDone {
      ClosedCountKeepsHandles(d, t, d.closers[k].rest[0]);
    } else {
      ClosedBytesKeepsHandles(d, t);
    }
  }

  lemma StartCloseKeepsHandles(d: Driver, owner: Option<nat>)
    requires Handles(d)
    ensures Handles(DoStartClose(d, owner))
  {
    hide Handles, Registered;
    ClosedBytesKeepsHandles(d, DoStartClose(d, owner));
  }

  lemma NextKeepsHandles(d: Driver, e: Admission.Event)
    requires Inv(d) && Handles(d)
    ensures Handles(Admission.Next(d, e))
  {
    hide Inv, Handles, DoSubmit, DoDefer, DoPoll, Abandon, DoInShard, DoStartClose, DoStepClose, CloseSem, Occupied;
    match e
    case Submit(i, args, stream) => SubmitKeepsHandles(d, i, args, stream);
    case Defer(i, args, stream) => DeferKeepsHandles(d, i, args, stream);
    case Poll(at) => if Occupied(d, at) { PollKeepsHandles(d, at); }
    case Drop(at) => if Occupied(d, at) { AbandonKeepsHandles(d, at); }
    case InShard(i, event) => InShardKeepsHandles(d, i, event);
    case StartClose(owner) => StartCloseKeepsHandles(d, owner);
    case StepClose(k) => StepCloseKeepsHandles(d, k);
    case CloseCount(i) => ClosedCountKeepsHandles(d, CloseCountOf(d, i), i);
    case CloseBytes => ClosedBytesKeepsHandles(d, CloseBytesOf(d));
  }

  lemma {:induction false} NobodyWaits(counts: seq<Sem>)
    requires forall i :: 0 <= i < |counts| ==> counts[i].queue == [] && counts[i].granted == []
    ensures SumTickets(counts) == multiset{}
  {
    if counts != [] {
      NobodyWaits(counts[1..]);
    }
  }

  lemma StartHandles(entries: nat, shards: nat, limits: Limits, sqCap: nat)
    ensures Handles(Start(entries, shards, limits, sqCap))
  {
    var d := Start(entries, shards, limits, sqCap);
    NobodyWaits(d.counts);
    assert Waiting(d) == multiset{};
  }

  // ---- a handle that has its permits sends its read ----

  lemma CallerFilesAreOpen(s: Shard)
    requires SI.Inv(s)
    ensures s.callerFds <= s.fds.Keys
  {
    hide SI.EntriesOk, SI.BlocksOwned, SI.SqesMatch, SI.OpsMatch, SI.CqesMatch, SI.QueueOk, SI.CancelsOk, SI.CreatedOk, SI.Fifo;
    hide SI.SendersOk, SI.PhaseOk, SI.ResultsOk, SI.StatsOk, SI.CostOk, SI.OneTokenEach;
  }

  /** The shard of a waiting handle takes the read, as long as its thread is there. */
  lemma HandleIsTaken(d: Driver, at: Place, w: Waiter)
    requires Inv(d) && Handles(d) && Occupied(d, at) && w == WaiterAt(d, at) && w.shard < |d.shards|
    requires d.shards[w.shard].phase.Running? && ValidArgs(w.args, w.stream)
    ensures DoSendRead(d.shards[w.shard], w.id, w.args, w.stream).queue != d.shards[w.shard].queue
  {
    hide Inv, SI.Inv, ValidArgs, DoSendRead, Waiting;
    Shape(d);
    Parts(d, w.shard);
    OnlyItsOwn(d, at);
    CallerFilesAreOpen(d.shards[w.shard]);
    assert TicketOk(d.shards, d.nextId, TicketAt(d, at));
    SendEnters(d.shards[w.shard], w.id, w.args, w.stream);
  }
}
