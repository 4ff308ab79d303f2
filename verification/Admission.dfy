/**
 * A whole driver: its shards, one count semaphore per shard, the byte semaphore
 * they share, and the handles that wait for permits (`submit`,
 * `acquire_read_permits`, `ReadHandle::poll` and its drop).
 */
module Admission {
  import opened Base
  import opened Geometry
  import opened ShardMachine
  import SI = ShardInvariant
  import opened Semaphores
  import opened Permits

  datatype Driver = Driver(
    entries: nat,
    limits: Limits,
    shards: seq<Shard>,
    counts: seq<Sem>,
    bytes: Option<Sem>,
    unpolled: seq<Waiter>,
    nextId: nat,
    taken: bool,             // a close has emptied the registry of count semaphores
    closers: seq<Closer>)    // every close begun so far

  /**
   * A close of byte admission, by the guard of a shard's returning thread or by a
   * caller: the byte semaphore first, then the count semaphores it took.
   */
  datatype Closer = Closer(shard: Option<nat>, bytesDone: bool, rest: seq<nat>) {
    predicate Done() { bytesDone && rest == [] }
  }

  /** Where a waiting handle is. */
  datatype Place =
    | Unpolled(k: nat)
    | CountQueued(i: nat, k: nat)
    | CountGranted(i: nat, k: nat)
    | ByteQueued(k: nat)
    | ByteGranted(k: nat)

  datatype Event =
    | Submit(shard: nat, args: Args, stream: bool)
    | Defer(shard: nat, args: Args, stream: bool)
    | Poll(at: Place)
    | Drop(at: Place)
    | InShard(shard: nat, event: ShardMachine.Event)
    | StartClose(owner: Option<nat>)
    | StepClose(k: nat)
    | CloseCount(shard: nat)
    | CloseBytes

  /** What one step of a poll comes to; a real poll goes on while it `Moved`. */
  datatype PollResult = Waits | Moved | Sent | Failed

  function Start(entries: nat, shards: nat, limits: Limits, sqCap: nat): Driver {
    Driver(entries, limits, seq(shards, _ => Init(sqCap)), seq(shards, _ => NewSem(entries)),
           match limits.maxInFlight case None => None case Some(n) => Some(NewSem(n)), [], 1, false, [])
  }

  // ---- small updates ----

  function Put(d: Driver, i: nat, shard: Shard, count: Sem, bytes: Option<Sem>): Driver
    requires i < |d.shards| == |d.counts|
  {
    d.(shards := d.shards[i := shard], counts := d.counts[i := count], bytes := bytes)
  }

  function ReleaseBytes(bytes: Option<Sem>, n: nat): Option<Sem> {
    match bytes case None => None case Some(b) => Some(Release(b, n))
  }

  function SetUnpolled(d: Driver, unpolled: seq<Waiter>): Driver {
    d.(unpolled := unpolled)
  }

  /** A request this driver accepts at all. */
  predicate Fits(limits: Limits, a: Args, stream: bool) {
    && ValidArgs(a, stream)
    && (limits.maxReadLen.Some? ==> a.len <= limits.maxReadLen.value)
    && (limits.maxInFlight.Some? ==> a.charge <= limits.maxInFlight.value)
  }

  /**
   * The message goes to its shard with permits already taken out of both
   * semaphores; when the shard is gone it is dropped and they come back.
   */
  function SendWith(d: Driver, i: nat, count: Sem, bytes: Option<Sem>, id: nat, args: Args, stream: bool): (Driver, PollResult)
    requires i < |d.shards| == |d.counts|
  {
    var shard := DoSendRead(d.shards[i], id, args, stream);
    if shard.queue == d.shards[i].queue then
      (Put(d, i, d.shards[i], Release(count, 1), ReleaseBytes(bytes, args.charge)), Failed)
    else
      (Put(d, i, shard, count, bytes), Sent)
  }

  // ---- submitting ----

  /** Both permits at once, or neither. */
  predicate Immediate(d: Driver, i: nat, charge: nat)
    requires i < |d.counts|
  {
    && TryAcquire(d.counts[i], 1).Acquired?
    && (d.bytes.Some? ==> TryAcquire(d.bytes.value, charge).Acquired?)
  }

  /** Every submission takes the next id; one that reaches the cancel bit is refused. */
  function TakeId(d: Driver): Driver {
    d.(nextId := d.nextId + 1)
  }

  /** The caller holds the file, and the driver its end of the channel. */
  predicate Callable(d: Driver, i: nat, args: Args, stream: bool) {
    && d.nextId < CANCEL_BIT && i < |d.shards| == |d.counts|
    && Fits(d.limits, args, stream) && args.fd in d.shards[i].callerFds && d.shards[i].senders
  }

  function DoSubmit(d: Driver, i: nat, args: Args, stream: bool): Driver {
    if !Callable(d, i, args, stream) || !Immediate(d, i, args.charge) then d
    else
      var bytes := match d.bytes case None => None case Some(b) => Some(Grab(b, args.charge));
      SendWith(TakeId(d), i, Grab(d.counts[i], 1), bytes, d.nextId, args, stream).0
  }

  function DoDefer(d: Driver, i: nat, args: Args, stream: bool): Driver {
    if !Callable(d, i, args, stream) then d
    else SetUnpolled(TakeId(d), d.unpolled + [Waiter(d.nextId, i, args, stream, 1, 0)])
  }

  // ---- polling a waiting handle ----

  predicate Occupied(d: Driver, at: Place) {
    && |d.counts| == |d.shards|
    && match at
       case Unpolled(k) => k < |d.unpolled| && d.unpolled[k].shard < |d.shards|
       case CountQueued(i, k) => i < |d.counts| && k < |d.counts[i].queue|
       case CountGranted(i, k) => i < |d.counts| && k < |d.counts[i].granted|
       case ByteQueued(k) => d.bytes.Some? && k < |d.bytes.value.queue| && d.bytes.value.queue[k].shard < |d.shards|
       case ByteGranted(k) => d.bytes.Some? && k < |d.bytes.value.granted| && d.bytes.value.granted[k].shard < |d.shards|
  }

  /** The handle goes away: everything it holds is given back. */
  function Abandon(d: Driver, at: Place): Driver
    requires Occupied(d, at)
  {
    match at
    case Unpolled(k) => SetUnpolled(d, RemoveAt(d.unpolled, k))
    case CountQueued(i, k) => Put(d, i, d.shards[i], AbandonQueued(d.counts[i], k), d.bytes)
    case CountGranted(i, k) => Put(d, i, d.shards[i], AbandonGranted(d.counts[i], k), d.bytes)
    case ByteQueued(k) =>
      var i := d.bytes.value.queue[k].shard;
      Put(d, i, d.shards[i], Release(d.counts[i], 1), Some(AbandonQueued(d.bytes.value, k)))
    case ByteGranted(k) =>
      var i := d.bytes.value.granted[k].shard;
      Put(d, i, d.shards[i], Release(d.counts[i], 1), Some(AbandonGranted(d.bytes.value, k)))
  }

  /** The count permit in hand: send, or queue for bytes. Count always comes before bytes. */
  function AfterCount(d: Driver, i: nat, k: nat): (Driver, PollResult)
    requires i < |d.shards| == |d.counts| && k < |d.counts[i].granted|
  {
    var w := d.counts[i].granted[k];
    match d.bytes
    case None => SendWith(d, i, TakeGranted(d.counts[i], k), None, w.id, w.args, w.stream)
    case Some(b) =>
      if b.closed then (Abandon(d, CountGranted(i, k)), Failed)
      else
        (Put(d, i, d.shards[i], TakeGranted(d.counts[i], k),
             Some(Enqueue(b, Waiter(w.id, i, w.args, w.stream, w.args.charge, 0)))), Moved)
  }

  function DoPoll(d: Driver, at: Place): (Driver, PollResult)
    requires Occupied(d, at)
  {
    match at
    case Unpolled(k) =>
      var w := d.unpolled[k];
      if d.counts[w.shard].closed then (Abandon(d, at), Failed)
      else
        (SetUnpolled(Put(d, w.shard, d.shards[w.shard], Enqueue(d.counts[w.shard], w), d.bytes), RemoveAt(d.unpolled, k)), Moved)
    case CountQueued(i, k) => if d.counts[i].closed then (Abandon(d, at), Failed) else (d, Waits)
    case CountGranted(i, k) => if d.counts[i].closed then (Abandon(d, at), Failed) else AfterCount(d, i, k)
    case ByteQueued(k) => if d.bytes.value.closed then (Abandon(d, at), Failed) else (d, Waits)
    case ByteGranted(k) =>
      if d.bytes.value.closed then (Abandon(d, at), Failed)
      else
        var w := d.bytes.value.granted[k];
        SendWith(d, w.shard, d.counts[w.shard], Some(TakeGranted(d.bytes.value, k)), w.id, w.args, w.stream)
  }

  // ---- shards ----

  function SumTickets(counts: seq<Sem>): multiset<Ticket> {
    if counts == [] then multiset{} else SemTickets(counts[0]) + SumTickets(counts[1..])
  }

  function BytesTickets(bytes: Option<Sem>): multiset<Ticket> {
    match bytes case None => multiset{} case Some(b) => SemTickets(b)
  }

  /** Every handle that waits for permits, in whatever stage. */
  function Waiting(d: Driver): multiset<Ticket> {
    Tickets(d.unpolled) + SumTickets(d.counts) + BytesTickets(d.bytes)
  }

  /** A waiting handle holds its file and its end of the channel, so these cannot go. */
  ghost predicate Pinned(d: Driver, i: nat, e: ShardMachine.Event) {
    exists t :: t in Waiting(d) && t.shard == i && (e.DropSenders? || (e.DropFile? && t.args.fd == e.fd))
  }

  /** A shard's own event; permits whose message or entry is gone return to their semaphores. */
  ghost function DoInShard(d: Driver, i: nat, e: ShardMachine.Event): Driver {
    if i >= |d.shards| || |d.counts| != |d.shards| || e.SendRead? || Pinned(d, i, e) then d
    else
      var s, t := d.shards[i], ShardMachine.Next(d.shards[i], e);
      if HeldCount(t) > HeldCount(s) || HeldBytes(t) > HeldBytes(s) then d
      else
        var count := Release(d.counts[i], HeldCount(s) - HeldCount(t));
        Put(d, i, t, if s.phase.Running? && !t.phase.Running? then CloseSem(count) else count,
            ReleaseBytes(d.bytes, HeldBytes(s) - HeldBytes(t)))
  }

  /**
   * A close begins: whoever comes first takes every count semaphore out of the
   * registry, a later one finds none. Without a byte budget there is nothing to do.
   * A thread's guard closes once, after its shard has left.
   */
  function DoStartClose(d: Driver, owner: Option<nat>): Driver {
    if owner.Some? && (owner.value >= |d.shards| || d.shards[owner.value].phase.Running?
                       || exists k :: 0 <= k < |d.closers| && d.closers[k].shard == owner) then d
    else if d.bytes.None? then d.(closers := d.closers + [Closer(owner, true, [])])
    else d.(taken := true, closers := d.closers + [Closer(owner, false, if d.taken then [] else Registered(d))])
  }

  /** The count semaphores of all shards, as they were registered. */
  function Registered(d: Driver): seq<nat> {
    seq(|d.counts|, i => i)
  }

  /** One semaphore closes; others move between any two such steps. */
  function DoStepClose(d: Driver, k: nat): Driver {
    if k >= |d.closers| || d.closers[k].Done() then d
    else
      var c := d.closers[k];
      if !c.bytesDone then CloseBytesOf(d.(closers := d.closers[k := c.(bytesDone := true)]))
      else CloseCountOf(d.(closers := d.closers[k := c.(rest := c.rest[1..])]), c.rest[0])
  }

  function CloseCountOf(d: Driver, i: nat): Driver {
    if i < |d.counts| then d.(counts := d.counts[i := CloseSem(d.counts[i])]) else d
  }

  function CloseBytesOf(d: Driver): Driver {
    d.(bytes := match d.bytes case None => None case Some(b) => Some(CloseSem(b)))
  }

  /** The thread of a shard has returned: its guard's close is over. */
  predicate Returned(d: Driver, i: nat) {
    exists k :: 0 <= k < |d.closers| && d.closers[k].shard == Some(i) && d.closers[k].Done()
  }

  ghost function Next(d: Driver, e: Event): Driver {
    match e
    case Submit(i, args, stream) => DoSubmit(d, i, args, stream)
    case Defer(i, args, stream) => DoDefer(d, i, args, stream)
    case StartClose(owner) => DoStartClose(d, owner)
    case StepClose(k) => DoStepClose(d, k)
    case Poll(at) => if Occupied(d, at) then DoPoll(d, at).0 else d
    case Drop(at) => if Occupied(d, at) then Abandon(d, at) else d
    case InShard(i, event) => DoInShard(d, i, event)
    case CloseCount(i) => CloseCountOf(d, i)
    case CloseBytes => CloseBytesOf(d)
  }

  ghost function Run(d: Driver, events: seq<Event>): Driver
    decreases |events|
  {
    if events == [] then d else Next(Run(d, events[..|events| - 1]), events[|events| - 1])
  }

  // ---- the invariant ----

  ghost function SumHeld(shards: seq<Shard>): nat {
    if shards == [] then 0 else HeldBytes(shards[0]) + SumHeld(shards[1..])
  }

  /** Count permits that byte-stage waiters of a shard hold. */
  function Staged(bytes: Option<Sem>, i: nat): nat {
    match bytes case None => 0 case Some(b) => WaitersOf(b, i)
  }

  predicate CountWaiter(limits: Limits, i: nat, w: Waiter) {
    w.shard == i && w.need == 1 && Fits(limits, w.args, w.stream)
  }

  predicate ByteWaiter(limits: Limits, shards: nat, w: Waiter) {
    w.shard < shards && w.need == w.args.charge && Fits(limits, w.args, w.stream)
  }

  ghost predicate CountSem(limits: Limits, i: nat, s: Sem) {
    SemOk(s) && AllWaiters(s, w => CountWaiter(limits, i, w))
  }

  ghost predicate ByteSem(limits: Limits, shards: nat, s: Sem) {
    SemOk(s) && AllWaiters(s, w => ByteWaiter(limits, shards, w))
  }

  ghost predicate CountOk(d: Driver, i: nat)
    requires i < |d.shards| == |d.counts|
  {
    && CountSem(d.limits, i, d.counts[i])
    && Resident(d.counts[i]) + Staged(d.bytes, i) + HeldCount(d.shards[i]) == d.entries
  }

  ghost predicate BytesOk(limits: Limits, shards: seq<Shard>, bytes: Option<Sem>) {
    match bytes
    case None => limits.maxInFlight.None?
    case Some(b) =>
      && limits.maxInFlight.Some?
      && ByteSem(limits, |shards|, b)
      && Resident(b) + SumHeld(shards) == limits.maxInFlight.value
  }

  ghost predicate Inv(d: Driver) {
    && |d.counts| == |d.shards|
    && (forall i :: 0 <= i < |d.shards| ==> SI.Inv(d.shards[i]))
    && (forall i :: 0 <= i < |d.shards| ==> CountOk(d, i))
    && BytesOk(d.limits, d.shards, d.bytes)
    && (forall k :: 0 <= k < |d.unpolled| ==>
          d.unpolled[k].shard < |d.shards| && CountWaiter(d.limits, d.unpolled[k].shard, d.unpolled[k]))
  }

  lemma {:induction false} SumHeldUpdate(shards: seq<Shard>, i: nat, s: Shard)
    requires i < |shards|
    ensures SumHeld(shards[i := s]) + HeldBytes(shards[i]) == SumHeld(shards) + HeldBytes(s)
  {
    hide HeldBytes;
    if i == 0 {
      assert shards[i := s][1..] == shards[1..];
    } else {
      assert shards[i := s][1..] == shards[1..][i - 1 := s];
      SumHeldUpdate(shards[1..], i - 1, s);
    }
  }

  /** What a step has to show about the one shard and the semaphores it touched. */
  ghost predicate Balanced(d: Driver, i: nat, shard: Shard, count: Sem, bytes: Option<Sem>)
    requires i < |d.shards| == |d.counts|
  {
    && SI.Inv(shard)
    && CountSem(d.limits, i, count)
    && Resident(count) + Staged(bytes, i) + HeldCount(shard)
       == Resident(d.counts[i]) + Staged(d.bytes, i) + HeldCount(d.shards[i])
    && (forall j: nat :: j != i ==> Staged(bytes, j) == Staged(d.bytes, j))
    && match (d.bytes, bytes)
       case (None, None) => true
       case (Some(a), Some(b)) =>
         && ByteSem(d.limits, |d.shards|, b)
         && Resident(b) + HeldBytes(shard) == Resident(a) + HeldBytes(d.shards[i])
       case _ => false
  }

  lemma PutKeepsInv(d: Driver, i: nat, shard: Shard, count: Sem, bytes: Option<Sem>)
    requires Inv(d) && i < |d.shards| && Balanced(d, i, shard, count, bytes)
    ensures Inv(Put(d, i, shard, count, bytes))
  {
    hide SI.Inv, HeldCount, HeldBytes, Resident, CountSem, ByteSem, WaitersOf;
    var t := Put(d, i, shard, count, bytes);
    assert CountOk(d, i);
    forall j | 0 <= j < |t.shards|
      ensures CountOk(t, j)
    {
      assert CountOk(d, j);
    }
    SumHeldUpdate(d.shards, i, shard);
  }
}
