/**
 * Drivers that share one byte pool (`SharedReadBudget`): each takes a receipt
 * for its whole byte limit when it starts, and the receipt is refunded when the
 * last thing holding it goes: the driver, a thread, a waiting handle, a queued
 * message or an entry.
 */
module Pool {
  import opened Base
  import opened Geometry
  import opened ShardMachine
  import SI = ShardInvariant
  import opened Semaphores
  import opened Permits
  import opened Admission
  import opened AdmissionSteps
  import opened AdmissionTheorems
  import opened AdmissionClosing

  // ---- the counter ----

  datatype Reserve = Reserved | Misfit | Short

  function Total(receipts: seq<nat>): nat {
    if receipts == [] then 0 else receipts[0] + Total(receipts[1..])
  }

  lemma {:induction false} TotalConcat(a: seq<nat>, b: seq<nat>)
    ensures Total(a + b) == Total(a) + Total(b)
  {
    if a == [] {
      assert a + b == b;
    } else {
      assert (a + b)[1..] == a[1..] + b;
      TotalConcat(a[1..], b);
    }
  }

  lemma TotalRemove(receipts: seq<nat>, k: nat)
    requires k < |receipts|
    ensures Total(RemoveAt(receipts, k)) + receipts[k] == Total(receipts)
  {
    var a, x, b := receipts[..k], [receipts[k]], receipts[k + 1..];
    assert x[1..] == [] && Total(x) == receipts[k];
    hide Total;
    assert receipts == a + (x + b);
    TotalConcat(a, x + b);
    TotalConcat(x, b);
    TotalConcat(a, b);
  }

  /** The pool's counter; `receipts` are the reservations not yet refunded. */
  class SharedBudget {
    const capacity: nat
    var available: nat
    ghost var receipts: seq<nat>

    ghost predicate Valid()
      reads this
    {
      available + Total(receipts) == capacity && forall k :: 0 <= k < |receipts| ==> receipts[k] > 0
    }

    constructor (total: nat)
      ensures Valid() && capacity == available == total && receipts == []
    {
      capacity, available, receipts := total, total, [];
    }

    method TryReserve(bytes: nat) returns (r: Reserve)
      requires Valid()
      modifies this
      ensures Valid()
      ensures r == Misfit <==> bytes == 0 || bytes > capacity
      ensures r == Short <==> 0 < bytes <= capacity && Total(old(receipts)) + bytes > capacity
      ensures receipts == if r == Reserved then old(receipts) + [bytes] else old(receipts)
    {
      if bytes == 0 || bytes > capacity {
        return Misfit;
      }
      if bytes > available {
        return Short;
      }
      TotalConcat(receipts, [bytes]);
      available, receipts, r := available - bytes, receipts + [bytes], Reserved;
    }

    /** The last holder of a receipt is gone. */
    method Refund(bytes: nat, ghost k: nat)
      requires Valid() && k < |receipts| && receipts[k] == bytes
      modifies this
      ensures Valid() && receipts == RemoveAt(old(receipts), k)
      ensures available == old(available) + bytes <= capacity
    {
      TotalRemove(receipts, k);
      available, receipts := available + bytes, RemoveAt(receipts, k);
    }
  }

  /** A pool of no bytes is refused. */
  method NewBudget(total: nat) returns (pool: SharedBudget?)
    ensures pool == null <==> total == 0
    ensures pool != null ==> fresh(pool) && pool.Valid() && pool.capacity == pool.available == total
  {
    pool := null;
    if total > 0 {
      pool := new SharedBudget(total);
    }
  }

  // ---- drivers that share it ----

  /** `user`: the driver value still exists; `refunded`: its receipt was given back. */
  datatype Member = Member(bytes: nat, user: bool, refunded: bool, driver: Driver)

  datatype Shared = Shared(capacity: nat, available: nat, members: seq<Member>)

  datatype Happening =
    | Join(bytes: nat, entries: nat, shards: nat, maxReadLen: Option<nat>, sqCap: nat)
    | Leave(k: nat)
    | Act(k: nat, event: Admission.Event)

  predicate Quiet(s: Sem) {
    s.queue == [] && s.granted == []
  }

  /** No thread, no waiting handle, no message and no entry is left. */
  predicate NothingLeft(d: Driver) {
    && d.unpolled == []
    && (forall i :: 0 <= i < |d.counts| ==> Quiet(d.counts[i]))
    && (d.bytes.Some? ==> Quiet(d.bytes.value))
    && (forall i :: 0 <= i < |d.shards| ==> Returned(d, i) && HeldCount(d.shards[i]) == 0)
  }

  /** Something still holds the driver's receipt. */
  predicate Live(m: Member) {
    m.user || !NothingLeft(m.driver)
  }

  /** Dropping the last holder of a receipt refunds it. */
  function Settle(p: Shared, k: nat, m: Member): Shared
    requires k < |p.members|
  {
    if m.refunded || Live(m) then p.(members := p.members[k := m])
    else p.(available := p.available + m.bytes, members := p.members[k := m.(refunded := true)])
  }

  /** Events that a caller makes through the driver value. */
  predicate NeedsDriver(e: Admission.Event) {
    e.Submit? || e.Defer? || (e.StartClose? && e.owner.None?)
  }

  ghost function Next(p: Shared, h: Happening): Shared {
    match h
    case Join(bytes, entries, shards, maxReadLen, sqCap) =>
      if bytes == 0 || bytes > p.capacity || bytes > p.available then p
      else
        var d := Start(entries, shards, Limits(maxReadLen, Some(bytes)), sqCap);
        p.(available := p.available - bytes, members := p.members + [Member(bytes, true, false, d)])
    case Leave(k) => if k >= |p.members| then p else Settle(p, k, p.members[k].(user := false))
    case Act(k, e) =>
      if k >= |p.members| || (NeedsDriver(e) && !p.members[k].user) then p
      else Settle(p, k, p.members[k].(driver := Admission.Next(p.members[k].driver, e)))
  }

  ghost function Run(p: Shared, happenings: seq<Happening>): Shared
    decreases |happenings|
  {
    if happenings == [] then p
    else Next(Run(p, happenings[..|happenings| - 1]), happenings[|happenings| - 1])
  }

  function Fresh(capacity: nat): Shared {
    Shared(capacity, capacity, [])
  }

  /** Bytes of receipts that something still holds. */
  function LiveReceipts(members: seq<Member>): nat {
    if members == [] then 0 else (if Live(members[0]) then members[0].bytes else 0) + LiveReceipts(members[1..])
  }

  ghost function PoolAllocated(members: seq<Member>): nat {
    if members == [] then 0 else AllAllocated(members[0].driver.shards) + PoolAllocated(members[1..])
  }

  ghost predicate MemberOk(m: Member) {
    && Admission.Inv(m.driver)
    && m.driver.limits.maxInFlight == Some(m.bytes)
    && (m.refunded <==> !Live(m))
    && m.bytes > 0
  }

  ghost predicate Inv(p: Shared) {
    && (forall k :: 0 <= k < |p.members| ==> MemberOk(p.members[k]))
    && p.available + LiveReceipts(p.members) == p.capacity
  }

  // ---- a receipt is refunded once, and nothing revives it ----

  lemma DeadShardStays(d: Driver, i: nat, e: ShardMachine.Event)
    requires Admission.Inv(d) && NothingLeft(d)
    ensures NothingLeft(DoInShard(d, i, e))
  {
    hide Admission.Inv, SI.Inv, ShardMachine.Next, HeldCount, HeldBytes, Returned;
    forall j | 0 <= j < |d.shards|
      ensures Returned(DoInShard(d, i, e), j)
    {
      ReturnedStays(d, InShard(i, e), j);
    }
    Shape(d);
    if i < |d.shards| && !e.SendRead? {
      Parts(d, i);
      NextReleases(d.shards[i], e);
    }
  }

  lemma DeadStaysDead(d: Driver, e: Admission.Event)
    requires Admission.Inv(d) && NothingLeft(d) && !NeedsDriver(e)
    ensures NothingLeft(Admission.Next(d, e))
  {
    hide Admission.Inv, DoInShard, DoPoll, Abandon, HeldCount, Returned;
    forall i | 0 <= i < |d.shards|
      ensures Returned(Admission.Next(d, e), i)
    {
      ReturnedStays(d, e, i);
    }
    match e
    case InShard(i, event) => DeadShardStays(d, i, event);
    case _ =>
  }

  lemma DeadAllocatesNothing(d: Driver)
    requires Admission.Inv(d) && NothingLeft(d)
    ensures AllAllocated(d.shards) == 0
  {
    hide SI.Inv, CountOk, BytesOk, HeldCount;
    NothingHeldNoBytes(d.shards);
    AllocationsAreHeld(d.shards);
  }

  lemma StepKeepsMember(m: Member, e: Admission.Event)
    requires MemberOk(m) && (NeedsDriver(e) ==> m.user)
    ensures var t := m.(driver := Admission.Next(m.driver, e));
            && Admission.Inv(t.driver) && t.driver.limits.maxInFlight == Some(t.bytes) && (t.refunded ==> !Live(t))
  {
    hide Admission.Inv, Admission.Next, NothingLeft, OneStep;
    NextKeepsInv(m.driver, e);
    NextIsStep(m.driver, e);
    StepKeepsConfiguration(m.driver, Admission.Next(m.driver, e));
    if !Live(m) {
      DeadStaysDead(m.driver, e);
    }
  }

  lemma {:induction false} LiveReceiptsUpdate(members: seq<Member>, k: nat, m: Member)
    requires k < |members|
    ensures LiveReceipts(members[k := m]) + (if Live(members[k]) then members[k].bytes else 0)
            == LiveReceipts(members) + (if Live(m) then m.bytes else 0)
  {
    hide Live;
    if k == 0 {
      assert members[k := m][1..] == members[1..];
    } else {
      assert members[k := m][1..] == members[1..][k - 1 := m];
      LiveReceiptsUpdate(members[1..], k - 1, m);
    }
  }

  lemma {:induction false} LiveReceiptsSnoc(members: seq<Member>, m: Member)
    ensures LiveReceipts(members + [m]) == LiveReceipts(members) + if Live(m) then m.bytes else 0
  {
    hide Live;
    if members == [] {
      assert members + [m] == [m] && [m][1..] == [];
    } else {
      assert (members + [m])[1..] == members[1..] + [m];
      LiveReceiptsSnoc(members[1..], m);
    }
  }

  lemma SettleKeepsInv(p: Shared, k: nat, m: Member)
    requires Inv(p) && k < |p.members|
    requires Admission.Inv(m.driver) && m.driver.limits.maxInFlight == Some(m.bytes)
    requires m.bytes == p.members[k].bytes && m.refunded == p.members[k].refunded && (m.refunded ==> !Live(m))
    ensures Inv(Settle(p, k, m))
  {
    hide Admission.Inv, NothingLeft, LiveReceipts;
    assert MemberOk(p.members[k]);
    LiveReceiptsUpdate(p.members, k, m);
    LiveReceiptsUpdate(p.members, k, m.(refunded := true));
  }

  lemma NextKeepsPool(p: Shared, h: Happening)
    requires Inv(p)
    ensures Inv(Next(p, h)) && Next(p, h).capacity == p.capacity
  {
    hide Admission.Inv, Admission.Next, NothingLeft, LiveReceipts, Start;
    match h
    case Join(bytes, entries, shards, maxReadLen, sqCap) =>
      var limits := Limits(maxReadLen, Some(bytes));
      StartInv(entries, shards, limits, sqCap);
      StartLimits(entries, shards, limits, sqCap);
      LiveReceiptsSnoc(p.members, Member(bytes, true, false, Start(entries, shards, limits, sqCap)));
    case Leave(k) =>
      if k < |p.members| {
        assert MemberOk(p.members[k]);
        SettleKeepsInv(p, k, p.members[k].(user := false));
      }
    case Act(k, e) =>
      if k < |p.members| && !(NeedsDriver(e) && !p.members[k].user) {
        assert MemberOk(p.members[k]);
        StepKeepsMember(p.members[k], e);
        SettleKeepsInv(p, k, p.members[k].(driver := Admission.Next(p.members[k].driver, e)));
      }
  }

  lemma StartLimits(entries: nat, shards: nat, limits: Limits, sqCap: nat)
    ensures Start(entries, shards, limits, sqCap).limits == limits
  {
  }

  lemma {:induction false} RunKeepsPool(capacity: nat, happenings: seq<Happening>)
    ensures var p := Run(Fresh(capacity), happenings); Inv(p) && p.capacity == capacity
    decreases |happenings|
  {
    hide Inv, Next;
    if happenings == [] {
      assert Inv(Fresh(capacity)) by { FreshInv(capacity); }
    } else {
      RunKeepsPool(capacity, happenings[..|happenings| - 1]);
      NextKeepsPool(Run(Fresh(capacity), happenings[..|happenings| - 1]), happenings[|happenings| - 1]);
    }
  }

  lemma FreshInv(capacity: nat)
    ensures Inv(Fresh(capacity))
  {
  }

  lemma {:induction false} AllocationsAreReceipted(members: seq<Member>)
    requires forall k :: 0 <= k < |members| ==> MemberOk(members[k])
    ensures PoolAllocated(members) <= LiveReceipts(members)
  {
    hide Admission.Inv, AllAllocated, NothingLeft;
    if members != [] {
      var m := members[0];
      assert MemberOk(m);
      AllocationWithinBudget(m.driver);
      if !Live(m) {
        DeadAllocatesNothing(m.driver);
      }
      AllocationsAreReceipted(members[1..]);
    }
  }

  /**
   * Over every run of any number of drivers joining, reading, retiring and
   * leaking: free capacity plus live receipts is the capacity, and the buffers
   * of all of them together never exceed what is reserved.
   */
  lemma PoolBound(capacity: nat, happenings: seq<Happening>)
    ensures var p := Run(Fresh(capacity), happenings);
            && p.available + LiveReceipts(p.members) == capacity
            && PoolAllocated(p.members) <= capacity - p.available
  {
    hide MemberOk, LiveReceipts, PoolAllocated;
    RunKeepsPool(capacity, happenings);
    AllocationsAreReceipted(Run(Fresh(capacity), happenings).members);
  }

  /**
   * Over every run, a driver that starts gets its receipt if and only if it asks for
   * some bytes and these fit beside the receipts still alive; else nothing changes.
   */
  lemma JoinIs(capacity: nat, happenings: seq<Happening>, h: Happening)
    requires h.Join?
    ensures var p := Run(Fresh(capacity), happenings);
            var t := Next(p, h);
            if h.bytes > 0 && LiveReceipts(p.members) + h.bytes <= capacity then
              && |t.members| == |p.members| + 1 && p.members <= t.members && t.available == p.available - h.bytes
              && t.members[|p.members|].bytes == h.bytes && Live(t.members[|p.members|])
            else t == p
  {
    hide MemberOk, LiveReceipts, Run;
    RunKeepsPool(capacity, happenings);
  }

  /** The whole pool is free exactly when every driver has retired with nothing left behind. */
  lemma PoolIsWholeWhenAllRetired(capacity: nat, happenings: seq<Happening>)
    ensures var p := Run(Fresh(capacity), happenings);
            p.available == capacity <==> forall k :: 0 <= k < |p.members| ==> !Live(p.members[k])
  {
    hide MemberOk, LiveReceipts, Live;
    RunKeepsPool(capacity, happenings);
    NoneLive(Run(Fresh(capacity), happenings).members);
  }

  lemma {:induction false} NoneLive(members: seq<Member>)
    requires forall k :: 0 <= k < |members| ==> MemberOk(members[k])
    ensures LiveReceipts(members) == 0 <==> forall k :: 0 <= k < |members| ==> !Live(members[k])
  {
    hide Live, Admission.Inv;
    if members != [] {
      var rest := members[1..];
      NoneLive(rest);
      assert MemberOk(members[0]);
      assert forall k :: 0 <= k < |rest| ==> rest[k] == members[k + 1];
      assert forall k :: 1 <= k < |members| ==> members[k] == rest[k - 1];
    }
  }
}
