/** A fair counting semaphore: waiters queue, and released permits go to the head first. */
module Semaphores {
  import opened Base
  import opened ShardMachine

  /** A read waiting for permits, with what it will send once it has them. */
  datatype Waiter = Waiter(id: nat, shard: nat, args: Args, stream: bool, need: nat, got: nat)

  /** `granted` waiters have all their permits and have not been polled since. */
  datatype Sem = Sem(permits: nat, closed: bool, queue: seq<Waiter>, granted: seq<Waiter>)

  function NewSem(total: nat): Sem {
    Sem(total, false, [], [])
  }

  function Gots(q: seq<Waiter>): nat {
    if q == [] then 0 else q[0].got + Gots(q[1..])
  }

  /** Permits that are free or reserved for a waiter. */
  function Resident(s: Sem): nat {
    s.permits + Gots(s.queue) + Gots(s.granted)
  }

  datatype TryResult = Acquired | NoPermits | Closed

  /** At once or not at all; never while it is closed. */
  function TryAcquire(s: Sem, n: nat): (r: TryResult)
    ensures r == Acquired <==> !s.closed && s.permits >= n
    ensures r == Closed <==> s.closed
  {
    if s.closed then Closed else if s.permits >= n then Acquired else NoPermits
  }

  function Grab(s: Sem, n: nat): Sem
    requires s.permits >= n
  {
    s.(permits := s.permits - n)
  }

  /** First poll of an acquire: everything at once, or what there is and a place in the queue. */
  function Enqueue(s: Sem, w: Waiter): Sem {
    if s.permits >= w.need then s.(permits := s.permits - w.need, granted := s.granted + [w.(got := w.need)])
    else s.(permits := 0, queue := s.queue + [w.(got := s.permits)])
  }

  /** Permits go to the head of the queue until it is satisfied, then to the next. */
  function Release(s: Sem, n: nat): Sem
    decreases |s.queue|
  {
    if s.closed || s.queue == [] || n == 0 then s.(permits := s.permits + n)
    else
      var w := s.queue[0];
      if w.got + n < w.need then s.(queue := [w.(got := w.got + n)] + s.queue[1..])
      else
        Release(s.(queue := s.queue[1..], granted := s.granted + [w.(got := w.need)]),
                if w.need >= w.got then n - (w.need - w.got) else n)
  }

  /** A queued waiter goes away and gives back what it had. */
  function AbandonQueued(s: Sem, k: nat): Sem
    requires k < |s.queue|
  {
    Release(s.(queue := RemoveAt(s.queue, k)), s.queue[k].got)
  }

  /** A granted waiter goes away and gives back what it had. */
  function AbandonGranted(s: Sem, k: nat): Sem
    requires k < |s.granted|
  {
    Release(s.(granted := RemoveAt(s.granted, k)), s.granted[k].got)
  }

  /** A granted waiter takes its permits along. */
  function TakeGranted(s: Sem, k: nat): Sem
    requires k < |s.granted|
  {
    s.(granted := RemoveAt(s.granted, k))
  }

  function CloseSem(s: Sem): Sem {
    s.(closed := true)
  }

  /** Waiters short of permits only queue while none are free, and only the head holds any. */
  ghost predicate SemOk(s: Sem) {
    && (forall i :: 0 <= i < |s.queue| ==> s.queue[i].got < s.queue[i].need)
    && (forall i :: 0 <= i < |s.granted| ==> s.granted[i].got == s.granted[i].need)
    && (!s.closed && s.queue != [] ==> s.permits == 0)
    && (!s.closed ==> forall i :: 1 <= i < |s.queue| ==> s.queue[i].got == 0)
  }

  lemma {:induction false} GotsConcat(a: seq<Waiter>, b: seq<Waiter>)
    ensures Gots(a + b) == Gots(a) + Gots(b)
  {
    if a == [] {
      assert a + b == b;
    } else {
      assert (a + b)[1..] == a[1..] + b;
      GotsConcat(a[1..], b);
    }
  }

  lemma GotsOne(w: Waiter)
    ensures Gots([w]) == w.got
  {
    assert [w][1..] == [];
  }

  lemma GotsRemove(q: seq<Waiter>, k: nat)
    requires k < |q|
    ensures Gots(q) == Gots(RemoveAt(q, k)) + q[k].got
  {
    hide Gots;
    var a, w, b := q[..k], q[k], q[k + 1..];
    assert q == a + ([w] + b) && RemoveAt(q, k) == a + b;
    GotsConcat(a, [w] + b);
    GotsConcat([w], b);
    GotsConcat(a, b);
    GotsOne(w);
  }

  lemma {:induction false} GotsZero(q: seq<Waiter>)
    requires forall i :: 0 <= i < |q| ==> q[i].got == 0
    ensures Gots(q) == 0
  {
    if q != [] {
      GotsZero(q[1..]);
    }
  }

  /** Queueing and releasing neither create nor lose permits. */
  lemma EnqueueConserves(s: Sem, w: Waiter)
    requires SemOk(s) && !s.closed
    ensures Resident(Enqueue(s, w)) == Resident(s) && SemOk(Enqueue(s, w))
  {
    GotsConcat(s.granted, [w.(got := w.need)]);
    GotsOne(w.(got := w.need));
    GotsConcat(s.queue, [w.(got := s.permits)]);
    GotsOne(w.(got := s.permits));
  }

  lemma {:induction false} ReleaseConserves(s: Sem, n: nat)
    requires SemOk(s)
    ensures Resident(Release(s, n)) == Resident(s) + n && SemOk(Release(s, n))
    ensures Release(s, n).closed == s.closed
    decreases |s.queue|
  {
    if !s.closed && s.queue != [] && n != 0 {
      var w := s.queue[0];
      var rest := s.queue[1..];
      if w.got + n < w.need {
        var v := w.(got := w.got + n);
        assert ([v] + rest)[1..] == rest;
      } else {
        var t := s.(queue := rest, granted := s.granted + [w.(got := w.need)]);
        GotsConcat(s.granted, [w.(got := w.need)]);
        GotsOne(w.(got := w.need));
        GotsZero(rest);
        assert forall i :: 0 <= i < |rest| ==> rest[i] == s.queue[i + 1];
        ReleaseConserves(t, n - (w.need - w.got));
      }
    }
  }

  lemma AbandonQueuedConserves(s: Sem, k: nat)
    requires SemOk(s) && k < |s.queue|
    ensures Resident(AbandonQueued(s, k)) == Resident(s) && SemOk(AbandonQueued(s, k))
    ensures AbandonQueued(s, k).closed == s.closed
  {
    GotsRemove(s.queue, k);
    ReleaseConserves(s.(queue := RemoveAt(s.queue, k)), s.queue[k].got);
  }

  lemma AbandonGrantedConserves(s: Sem, k: nat)
    requires SemOk(s) && k < |s.granted|
    ensures Resident(AbandonGranted(s, k)) == Resident(s) && SemOk(AbandonGranted(s, k))
    ensures AbandonGranted(s, k).closed == s.closed
  {
    GotsRemove(s.granted, k);
    ReleaseConserves(s.(granted := RemoveAt(s.granted, k)), s.granted[k].got);
  }

  lemma TakeGrantedConserves(s: Sem, k: nat)
    requires SemOk(s) && k < |s.granted|
    ensures Resident(TakeGranted(s, k)) + s.granted[k].need == Resident(s) && SemOk(TakeGranted(s, k))
  {
    GotsRemove(s.granted, k);
  }

  // ---- whoever waits, waits for the same thing after a release ----

  /** A property of waiters that does not look at what they have been given. */
  ghost predicate AllWaiters(s: Sem, p: Waiter -> bool) {
    && (forall i :: 0 <= i < |s.queue| ==> p(s.queue[i]))
    && (forall i :: 0 <= i < |s.granted| ==> p(s.granted[i]))
  }

  /** Who waits for what, whatever has been given to it so far. */
  datatype Ticket = Ticket(id: nat, shard: nat, args: Args, stream: bool)

  function TicketOf(w: Waiter): Ticket {
    Ticket(w.id, w.shard, w.args, w.stream)
  }

  function Tickets(q: seq<Waiter>): multiset<Ticket> {
    if q == [] then multiset{} else multiset{TicketOf(q[0])} + Tickets(q[1..])
  }

  function SemTickets(s: Sem): multiset<Ticket> {
    Tickets(s.queue) + Tickets(s.granted)
  }

  lemma {:induction false} TicketsConcat(a: seq<Waiter>, b: seq<Waiter>)
    ensures Tickets(a + b) == Tickets(a) + Tickets(b)
  {
    if a == [] {
      assert a + b == b;
    } else {
      assert (a + b)[1..] == a[1..] + b;
      TicketsConcat(a[1..], b);
    }
  }

  lemma TicketsOne(w: Waiter)
    ensures Tickets([w]) == multiset{TicketOf(w)}
  {
    assert [w][1..] == [];
  }

  lemma TicketsRemove(q: seq<Waiter>, k: nat)
    requires k < |q|
    ensures Tickets(q) == Tickets(RemoveAt(q, k)) + multiset{TicketOf(q[k])}
  {
    hide Tickets, TicketOf;
    var a, w, b := q[..k], q[k], q[k + 1..];
    assert q == a + ([w] + b) && RemoveAt(q, k) == a + b;
    TicketsConcat(a, [w] + b);
    TicketsConcat([w], b);
    TicketsConcat(a, b);
    TicketsOne(w);
  }

  /** The head of the queue is granted: it is still one waiter. */
  lemma GrantKeepsTickets(s: Sem, w: Waiter, v: Waiter)
    requires s.queue != [] && s.queue[0] == w && TicketOf(v) == TicketOf(w)
    ensures SemTickets(s.(queue := s.queue[1..], granted := s.granted + [v])) == SemTickets(s)
    ensures SemTickets(s.(queue := [v] + s.queue[1..])) == SemTickets(s)
  {
    var rest := s.queue[1..];
    assert s.queue == [w] + rest;
    hide Tickets, TicketOf;
    TicketsConcat([w], rest);
    TicketsConcat([v], rest);
    TicketsConcat(s.granted, [v]);
    TicketsOne(w);
    TicketsOne(v);
  }

  /** One step of a release: the head takes what it lacks, or what there is. */
  lemma ReleaseStep(s: Sem, n: nat)
    ensures s.closed || s.queue == [] || n == 0 ==> Release(s, n) == s.(permits := s.permits + n)
    ensures !s.closed && s.queue != [] && n != 0 ==>
              var w := s.queue[0];
              Release(s, n) ==
              if w.got + n < w.need then s.(queue := [w.(got := w.got + n)] + s.queue[1..])
              else Release(s.(queue := s.queue[1..], granted := s.granted + [w.(got := w.need)]),
                           if w.need >= w.got then n - (w.need - w.got) else n)
  {
  }

  /** A release moves waiters along and loses none. */
  lemma {:induction false} ReleaseKeepsTickets(s: Sem, n: nat)
    ensures SemTickets(Release(s, n)) == SemTickets(s)
    decreases |s.queue|
  {
    ReleaseStep(s, n);
    hide Release, Tickets;
    if !s.closed && s.queue != [] && n != 0 {
      var w := s.queue[0];
      GrantKeepsTickets(s, w, w.(got := w.need));
      GrantKeepsTickets(s, w, w.(got := w.got + n));
      hide SemTickets;
      if w.got + n >= w.need {
        ReleaseKeepsTickets(s.(queue := s.queue[1..], granted := s.granted + [w.(got := w.need)]),
                            if w.need >= w.got then n - (w.need - w.got) else n);
      }
    }
  }

  lemma EnqueueAddsTicket(s: Sem, w: Waiter)
    ensures SemTickets(Enqueue(s, w)) == SemTickets(s) + multiset{TicketOf(w)}
  {
    hide Tickets;
    TicketsConcat(s.granted, [w.(got := w.need)]);
    TicketsOne(w.(got := w.need));
    TicketsConcat(s.queue, [w.(got := s.permits)]);
    TicketsOne(w.(got := s.permits));
  }

  lemma AbandonDropsTicket(s: Sem, k: nat)
    ensures k < |s.queue| ==> SemTickets(s) == SemTickets(AbandonQueued(s, k)) + multiset{TicketOf(s.queue[k])}
    ensures k < |s.granted| ==> SemTickets(s) == SemTickets(AbandonGranted(s, k)) + multiset{TicketOf(s.granted[k])}
    ensures k < |s.granted| ==> SemTickets(s) == SemTickets(TakeGranted(s, k)) + multiset{TicketOf(s.granted[k])}
  {
    hide Release, Tickets, TicketOf;
    if k < |s.queue| {
      TicketsRemove(s.queue, k);
      ReleaseKeepsTickets(s.(queue := RemoveAt(s.queue, k)), s.queue[k].got);
    }
    if k < |s.granted| {
      TicketsRemove(s.granted, k);
      ReleaseKeepsTickets(s.(granted := RemoveAt(s.granted, k)), s.granted[k].got);
    }
  }

  /** How many waiters of a shard there are. */
  function OfShard(q: seq<Waiter>, i: nat): nat {
    if q == [] then 0 else (if q[0].shard == i then 1 else 0) + OfShard(q[1..], i)
  }

  function WaitersOf(s: Sem, i: nat): nat {
    OfShard(s.queue, i) + OfShard(s.granted, i)
  }

  lemma {:induction false} OfShardConcat(a: seq<Waiter>, b: seq<Waiter>, i: nat)
    ensures OfShard(a + b, i) == OfShard(a, i) + OfShard(b, i)
  {
    if a == [] {
      assert a + b == b;
    } else {
      assert (a + b)[1..] == a[1..] + b;
      OfShardConcat(a[1..], b, i);
    }
  }

  lemma OfShardOne(w: Waiter, i: nat)
    ensures OfShard([w], i) == if w.shard == i then 1 else 0
  {
    assert [w][1..] == [];
  }

  lemma OfShardRemove(q: seq<Waiter>, k: nat, i: nat)
    requires k < |q|
    ensures OfShard(q, i) == OfShard(RemoveAt(q, k), i) + if q[k].shard == i then 1 else 0
  {
    hide OfShard;
    var a, w, b := q[..k], q[k], q[k + 1..];
    assert q == a + ([w] + b) && RemoveAt(q, k) == a + b;
    OfShardConcat(a, [w] + b, i);
    OfShardConcat([w], b, i);
    OfShardConcat(a, b, i);
    OfShardOne(w, i);
  }

  lemma {:induction false} ReleaseKeepsWaiters(s: Sem, n: nat, i: nat)
    ensures WaitersOf(Release(s, n), i) == WaitersOf(s, i)
    decreases |s.queue|
  {
    if !s.closed && s.queue != [] && n != 0 {
      var w := s.queue[0];
      var rest := s.queue[1..];
      if w.got + n < w.need {
        assert ([w.(got := w.got + n)] + rest)[1..] == rest;
      } else {
        var v := w.(got := w.need);
        OfShardConcat(s.granted, [v], i);
        OfShardOne(v, i);
        ReleaseKeepsWaiters(s.(queue := rest, granted := s.granted + [v]),
                            if w.need >= w.got then n - (w.need - w.got) else n, i);
      }
    }
  }

  lemma EnqueueAddsWaiter(s: Sem, w: Waiter, i: nat)
    ensures WaitersOf(Enqueue(s, w), i) == WaitersOf(s, i) + if w.shard == i then 1 else 0
  {
    OfShardConcat(s.granted, [w.(got := w.need)], i);
    OfShardOne(w.(got := w.need), i);
    OfShardConcat(s.queue, [w.(got := s.permits)], i);
    OfShardOne(w.(got := s.permits), i);
  }

  lemma {:induction false} ReleaseKeepsAll(s: Sem, n: nat, p: Waiter -> bool)
    requires AllWaiters(s, p)
    requires forall w: Waiter, g: nat {:trigger w.(got := g)} :: p(w) ==> p(w.(got := g))
    ensures AllWaiters(Release(s, n), p)
    decreases |s.queue|
  {
    if !s.closed && s.queue != [] && n != 0 {
      var w := s.queue[0];
      var rest := s.queue[1..];
      assert p(w);
      if w.got + n < w.need {
        assert p(w.(got := w.got + n));
      } else {
        var v := w.(got := w.need);
        assert p(v);
        ReleaseKeepsAll(s.(queue := rest, granted := s.granted + [v]),
                        if w.need >= w.got then n - (w.need - w.got) else n, p);
      }
    }
  }
}
