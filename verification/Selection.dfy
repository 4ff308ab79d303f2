/**
 * Which shard a read goes to (`select_read_shard`, `try_read_permits`). The
 * scan runs while other callers use the same semaphores: they may change them
 * before each of its looks, and between its attempts at the count and at the
 * bytes of one shard.
 */
module Selection {
  import opened Base
  import opened ShardMachine
  import opened Semaphores

  /** The semaphores of a driver. */
  datatype Front = Front(counts: seq<Sem>, bytes: Option<Sem>) {
    predicate BytesClosed() { bytes.Some? && bytes.value.closed }

    ghost predicate Ok(shards: nat) {
      && |counts| == shards
      && (forall i :: 0 <= i < |counts| ==> SemOk(counts[i]))
      && (bytes.Some? ==> SemOk(bytes.value))
    }
  }

  /** What the others make of the semaphores before the k-th look. */
  type Others = (nat, Front) -> Front

  /** They keep the semaphores semaphores. */
  ghost predicate Polite(others: Others, shards: nat) {
    forall k: nat, f: Front :: f.Ok(shards) ==> others(k, f).Ok(shards)
  }

  function TryBytes(bytes: Option<Sem>, charge: nat): TryResult {
    match bytes case None => Acquired case Some(b) => TryAcquire(b, charge)
  }

  // ---- one shard ----

  function CountTaken(f: Front, shard: nat): Front
    requires shard < |f.counts| && f.counts[shard].permits >= 1
  {
    f.(counts := f.counts[shard := Grab(f.counts[shard], 1)])
  }

  function CountReturned(f: Front, shard: nat): Front
    requires shard < |f.counts|
  {
    f.(counts := f.counts[shard := Release(f.counts[shard], 1)])
  }

  /**
   * Count first, then, after the others have moved on, bytes: success takes one
   * count permit and the charge and nothing else, a byte error gives the count
   * permit back, and a count error changes nothing.
   */
  ghost predicate Tries(f: Front, shard: nat, charge: nat, between: Front -> Front, r: TryResult, after: Front)
    requires shard < |f.counts|
  {
    var count := f.counts[shard];
    if count.closed then r == Closed && after == f
    else if count.permits == 0 then r == NoPermits && after == f
    else
      var mid := between(f.(counts := f.counts[shard := count.(permits := count.permits - 1)]));
      && shard < |mid.counts|
      && match mid.bytes
         case None => r == Acquired && after == mid
         case Some(b) =>
           if b.closed then r == Closed && after == CountReturned(mid, shard)
           else if b.permits < charge then r == NoPermits && after == CountReturned(mid, shard)
           else r == Acquired && after == mid.(bytes := Some(b.(permits := b.permits - charge)))
  }

  /** Permits taken and given back at once leave no trace, because nobody queues while some are free. */
  lemma GiveBack(f: Front, shard: nat)
    requires shard < |f.counts| && f.Ok(|f.counts|) && TryAcquire(f.counts[shard], 1) == Acquired
    ensures CountReturned(CountTaken(f, shard), shard) == f
  {
    var s := f.counts[shard];
    assert Release(Grab(s, 1), 1) == s;
    assert f.counts[shard := Grab(s, 1)][shard := s] == f.counts;
  }

  // ---- the scan ----

  /** What the j-th look of a scan finds; its own failed attempts change nothing. */
  function Look(now: Front, others: Others, j: nat): Front {
    if j == 0 then others(0, now) else others(j, Look(now, others, j - 1))
  }

  lemma {:induction false} LookIsOk(now: Front, others: Others, j: nat, shards: nat)
    requires now.Ok(shards) && Polite(others, shards)
    ensures Look(now, others, j).Ok(shards)
  {
    if j > 0 {
      LookIsOk(now, others, j - 1, shards);
    }
  }

  /** The shard of the j-th attempt: cyclic order from the cursor. */
  function Turn(start: nat, j: nat, shards: nat): (r: nat)
    requires shards > 0
    ensures r < shards
  {
    (start + j) % shards
  }

  /** What the j-th attempt at a count permit finds; the first look is at the byte semaphore. */
  function Attempt(now: Front, others: Others, start: nat, j: nat, shards: nat): TryResult
    requires shards > 0
  {
    var f := Look(now, others, j + 1);
    if Turn(start, j, shards) < |f.counts| then TryAcquire(f.counts[Turn(start, j, shards)], 1) else Closed
  }

  /** No attempt before the j-th found a free count permit. */
  ghost predicate NoneBefore(now: Front, others: Others, start: nat, j: nat, shards: nat)
    requires shards > 0
  {
    forall l: nat :: l < j ==> Attempt(now, others, start, l, shards) != Acquired
  }

  /** The j-th attempt is the first to find its shard full but open. */
  ghost predicate FirstFull(now: Front, others: Others, start: nat, j: nat, shards: nat)
    requires shards > 0
  {
    && Attempt(now, others, start, j, shards) == NoPermits
    && forall l: nat :: l < j ==> Attempt(now, others, start, l, shards) == Closed
  }

  ghost predicate SomeAttempt(now: Front, others: Others, start: nat, found: TryResult)
    requires |now.counts| > 0
  {
    exists j: nat :: j < |now.counts| && Attempt(now, others, start, j, |now.counts|) == found
  }

  /** How a choice was made: how many looks it took, and the semaphores it left. */
  datatype Choice = Choice(shard: nat, r: TryResult, looks: nat, after: Front)

  /** The simple specification of capacity-aware selection. */
  ghost predicate Chosen(now: Front, others: Others, start: nat, charge: nat, c: Choice)
    requires |now.counts| > 0
  {
    var n := |now.counts|;
    if Look(now, others, 0).BytesClosed() then
      c == Choice(start, Closed, 0, Look(now, others, 0))
    else if SomeAttempt(now, others, start, Acquired) then
      FoundFree(now, others, start, charge, c)
    else
      && c.looks == n + 1 && c.after == Look(now, others, n + 1)
      && if c.after.BytesClosed() || !SomeAttempt(now, others, start, NoPermits) then c.shard == start && c.r == Closed
         else c.r == NoPermits && FoundFull(now, others, start, c.shard)
  }

  /** The shard of the first attempt that found one full but open. */
  ghost predicate FoundFull(now: Front, others: Others, start: nat, shard: nat)
    requires |now.counts| > 0
  {
    exists j: nat :: j < |now.counts| && FirstFull(now, others, start, j, |now.counts|) && shard == Turn(start, j, |now.counts|)
  }

  /** The first attempt that finds a count permit goes on to the bytes. */
  ghost predicate FoundFree(now: Front, others: Others, start: nat, charge: nat, c: Choice)
    requires |now.counts| > 0
  {
    var n := |now.counts|;
    && 1 <= c.looks <= n
    && NoneBefore(now, others, start, c.looks - 1, n)
    && Attempt(now, others, start, c.looks - 1, n) == Acquired
    && c.shard == Turn(start, c.looks - 1, n) < |Look(now, others, c.looks).counts|
    && Tries(Look(now, others, c.looks), c.shard, charge, f => others(c.looks + 1, f), c.r, c.after)
  }

  class Selector {
    var now: Front

    constructor (front: Front)
      ensures now == front
    {
      now := front;
    }

    /** `try_read_permits`, with what the others do between its two attempts. */
    method TryReadPermits(shard: nat, charge: nat, between: Front -> Front) returns (r: TryResult)
      requires shard < |now.counts|
      requires TryAcquire(now.counts[shard], 1) == Acquired ==> shard < |between(CountTaken(now, shard)).counts|
      modifies this
      ensures Tries(old(now), shard, charge, between, r, now)
    {
      r := TryAcquire(now.counts[shard], 1);
      if r == Acquired {
        now := now.(counts := now.counts[shard := Grab(now.counts[shard], 1)]);
        now := between(now);
        r := TryBytes(now.bytes, charge);
        if r != Acquired {
          now := now.(counts := now.counts[shard := Release(now.counts[shard], 1)]);
        } else if now.bytes.Some? {
          now := now.(bytes := Some(Grab(now.bytes.value, charge)));
        }
      }
    }

    /** `select_read_shard`. */
    method SelectReadShard(start: nat, charge: nat, capacityAware: bool, others: Others)
      returns (shard: nat, r: TryResult, ghost looks: nat)
      requires start < |now.counts| && now.Ok(|now.counts|) && Polite(others, |now.counts|)
      modifies this
      ensures shard < |old(now).counts|
      ensures !capacityAware ==>
                && shard == start < |Look(old(now), others, 0).counts|
                && Tries(Look(old(now), others, 0), start, charge, f => others(1, f), r, now)
      ensures capacityAware ==> Chosen(old(now), others, start, charge, Choice(shard, r, looks, now))
    {
      hide SemOk, Release, SomeAttempt, Attempt, NoneBefore, FirstFull, FoundFree, FoundFull, AllClosed;
      var n := |now.counts|;
      ghost var first := now;
      LookIsOk(first, others, 0, n);
      now := others(0, now);
      shard, looks := start, 0;
      if !capacityAware {
        TakenIsOk(now, start, n);
        r := TryReadPermits(start, charge, f => others(1, f));
        return;
      }
      if now.BytesClosed() {
        r := Closed;
        return;
      }
      var waiting: Option<nat> := None;
      ghost var full: nat := 0;
      NothingTried(first, others, start, n);
      var j := 0;
      while j < n
        invariant 0 <= j <= n == |first.counts| && looks == j && now == Look(first, others, j)
        invariant NoneBefore(first, others, start, j, n)
        invariant waiting.None? ==> AllClosed(first, others, start, j, n)
        invariant waiting.Some? ==> full < j && waiting.value == Turn(start, full, n) && FirstFull(first, others, start, full, n)
      {
        LookIsOk(first, others, j + 1, n);
        now := others(j + 1, now);
        looks := j + 1;
        var index := (start + j) % n;
        var count := TryAcquire(now.counts[index], 1);
        AttemptIs(first, others, start, j, n);
        if count == Acquired {
          shard := index;
          TakenIsOk(now, index, n);
          r := TryReadPermits(index, charge, f => others(j + 2, f));
          FreeIsChosen(first, others, start, charge, j, r, now);
          return;
        }
        TriedMore(first, others, start, j, n);
        if count == NoPermits && waiting.None? {
          waiting, full := Some(index), j;
        }
        j := j + 1;
      }
      now := others(n + 1, now);
      looks := n + 1;
      if now.BytesClosed() || waiting.None? {
        NoneIsChosen(first, others, start, charge, waiting.None?);
        r := Closed;
        return;
      }
      shard, r := waiting.value, NoPermits;
      FullIsChosen(first, others, start, charge, full);
    }
  }

  // ---- steps of the scan ----

  ghost predicate AllClosed(now: Front, others: Others, start: nat, j: nat, shards: nat)
    requires shards > 0
  {
    forall l: nat :: l < j ==> Attempt(now, others, start, l, shards) == Closed
  }

  lemma TakenIsOk(f: Front, shard: nat, shards: nat)
    requires f.Ok(shards) && shard < shards
    ensures TryAcquire(f.counts[shard], 1) == Acquired ==> CountTaken(f, shard).Ok(shards)
  {
    if TryAcquire(f.counts[shard], 1) == Acquired {
      assert SemOk(Grab(f.counts[shard], 1));
    }
  }

  lemma NothingTried(now: Front, others: Others, start: nat, shards: nat)
    requires shards > 0
    ensures NoneBefore(now, others, start, 0, shards) && AllClosed(now, others, start, 0, shards)
  {
  }

  lemma AttemptIs(now: Front, others: Others, start: nat, j: nat, shards: nat)
    requires shards > 0 && |Look(now, others, j + 1).counts| == shards
    ensures Attempt(now, others, start, j, shards) == TryAcquire(Look(now, others, j + 1).counts[Turn(start, j, shards)], 1)
  {
    hide Look;
  }

  lemma TriedMore(now: Front, others: Others, start: nat, j: nat, shards: nat)
    requires shards > 0 && NoneBefore(now, others, start, j, shards) && Attempt(now, others, start, j, shards) != Acquired
    ensures NoneBefore(now, others, start, j + 1, shards)
    ensures AllClosed(now, others, start, j, shards) && Attempt(now, others, start, j, shards) == Closed ==>
              AllClosed(now, others, start, j + 1, shards)
    ensures AllClosed(now, others, start, j, shards) && Attempt(now, others, start, j, shards) == NoPermits ==>
              FirstFull(now, others, start, j, shards)
  {
    hide Attempt;
  }

  lemma FreeIsChosen(now: Front, others: Others, start: nat, charge: nat, j: nat, r: TryResult, after: Front)
    requires start < |now.counts| && j < |now.counts|
    requires !Look(now, others, 0).BytesClosed() && NoneBefore(now, others, start, j, |now.counts|)
    requires Attempt(now, others, start, j, |now.counts|) == Acquired
    requires Turn(start, j, |now.counts|) < |Look(now, others, j + 1).counts|
    requires Tries(Look(now, others, j + 1), Turn(start, j, |now.counts|), charge, f => others(j + 2, f), r, after)
    ensures Chosen(now, others, start, charge, Choice(Turn(start, j, |now.counts|), r, j + 1, after))
  {
    hide NoneBefore, Look, Attempt;
  }

  lemma NoneIsChosen(now: Front, others: Others, start: nat, charge: nat, noneOpen: bool)
    requires start < |now.counts|
    requires !Look(now, others, 0).BytesClosed() && NoneBefore(now, others, start, |now.counts|, |now.counts|)
    requires noneOpen ==> AllClosed(now, others, start, |now.counts|, |now.counts|)
    requires noneOpen || Look(now, others, |now.counts| + 1).BytesClosed()
    ensures Chosen(now, others, start, charge, Choice(start, Closed, |now.counts| + 1, Look(now, others, |now.counts| + 1)))
  {
    hide Look, Attempt, NoneBefore, SomeAttempt, FoundFree, FoundFull, AllClosed, FirstFull;
    NothingFound(now, others, start);
    if noneOpen {
      NothingOpen(now, others, start);
    }
  }

  lemma NothingFound(now: Front, others: Others, start: nat)
    requires start < |now.counts| && NoneBefore(now, others, start, |now.counts|, |now.counts|)
    ensures !SomeAttempt(now, others, start, Acquired)
  {
    hide Look, Attempt;
  }

  lemma NothingOpen(now: Front, others: Others, start: nat)
    requires start < |now.counts| && AllClosed(now, others, start, |now.counts|, |now.counts|)
    ensures !SomeAttempt(now, others, start, NoPermits)
  {
    hide Look, Attempt;
  }

  lemma FullWasFound(now: Front, others: Others, start: nat, full: nat)
    requires start < |now.counts| && full < |now.counts| && FirstFull(now, others, start, full, |now.counts|)
    ensures SomeAttempt(now, others, start, NoPermits) && FoundFull(now, others, start, Turn(start, full, |now.counts|))
  {
    hide Look, Attempt;
  }

  lemma FullIsChosen(now: Front, others: Others, start: nat, charge: nat, full: nat)
    requires start < |now.counts| && full < |now.counts|
    requires !Look(now, others, 0).BytesClosed() && !Look(now, others, |now.counts| + 1).BytesClosed()
    requires NoneBefore(now, others, start, |now.counts|, |now.counts|) && FirstFull(now, others, start, full, |now.counts|)
    ensures Chosen(now, others, start, charge,
                   Choice(Turn(start, full, |now.counts|), NoPermits, |now.counts| + 1, Look(now, others, |now.counts| + 1)))
  {
    hide Look, Attempt, Turn, NoneBefore, SomeAttempt, FoundFree, FirstFull, FoundFull;
    FullWasFound(now, others, start, full);
    NothingFound(now, others, start);
  }

  // ---- undisturbed ----

  /** Cyclic order reaches every shard. */
  lemma TurnReaches(start: nat, i: nat, shards: nat) returns (j: nat)
    requires start < shards && i < shards
    ensures j < shards && Turn(start, j, shards) == i
  {
    j := if i >= start then i - start else i + shards - start;
    DivModUnique(start + j, shards, if i >= start then 0 else 1, i);
  }

  /** The place `j` steps on from `start` on a circle of `n`. */
  function Around(start: nat, j: nat, n: nat): nat {
    if start + j < n then start + j else start + j - n
  }

  lemma TurnIsAround(start: nat, j: nat, n: nat)
    requires start < n && j < n
    ensures Turn(start, j, n) == Around(start, j, n)
  {
    DivModUnique(start + j, n, if start + j < n then 0 else 1, Around(start, j, n));
  }

  /** The shard has a count permit to give. */
  predicate FreeAt(now: Front, i: nat) {
    i < |now.counts| && !now.counts[i].closed && now.counts[i].permits >= 1
  }

  /** The shard will have one some day. */
  predicate OpenAt(now: Front, i: nat) {
    i < |now.counts| && !now.counts[i].closed
  }

  /** The bytes are to be had at once. */
  predicate BytesFree(now: Front, charge: nat) {
    now.bytes.Some? ==> !now.bytes.value.closed && now.bytes.value.permits >= charge
  }

  ghost predicate SomeFree(now: Front) {
    exists i: nat :: FreeAt(now, i)
  }

  ghost predicate SomeOpen(now: Front) {
    exists i: nat :: OpenAt(now, i)
  }

  /** Going round from `start`, this is the first shard with a permit. */
  ghost predicate FirstFree(now: Front, start: nat, i: nat)
    requires |now.counts| > 0
  {
    exists j: nat :: j < |now.counts| && i == Around(start, j, |now.counts|) && FreeAt(now, i)
                     && forall l: nat :: l < j ==> !FreeAt(now, Around(start, l, |now.counts|))
  }

  /** Going round from `start`, this is the first shard that is open. */
  ghost predicate FirstOpen(now: Front, start: nat, i: nat)
    requires |now.counts| > 0
  {
    exists j: nat :: j < |now.counts| && i == Around(start, j, |now.counts|) && OpenAt(now, i)
                     && forall l: nat :: l < j ==> !OpenAt(now, Around(start, l, |now.counts|))
  }

  ghost predicate Undisturbed(others: Others) {
    forall k: nat, f: Front :: others(k, f) == f
  }

  lemma {:induction false} LooksAlike(now: Front, others: Others, j: nat)
    requires Undisturbed(others)
    ensures Look(now, others, j) == now
  {
    if j > 0 {
      LooksAlike(now, others, j - 1);
    }
  }

  /** What the j-th attempt finds is the shard whose turn it is. */
  lemma AttemptSees(now: Front, others: Others, start: nat, j: nat)
    requires start < |now.counts| && Undisturbed(others)
    ensures var n := |now.counts|;
            && (Attempt(now, others, start, j, n) == Acquired <==> FreeAt(now, Turn(start, j, n)))
            && (Attempt(now, others, start, j, n) == Closed <==> !OpenAt(now, Turn(start, j, n)))
  {
    hide Look, Turn;
    LooksAlike(now, others, j + 1);
  }

  lemma AttemptsSeeShards(now: Front, others: Others, start: nat)
    requires start < |now.counts| && Undisturbed(others)
    ensures SomeAttempt(now, others, start, Acquired) <==> SomeFree(now)
    ensures !SomeFree(now) ==> (SomeAttempt(now, others, start, NoPermits) <==> SomeOpen(now))
  {
    hide Look, Turn, FreeAt, OpenAt, Attempt;
    var n := |now.counts|;
    if SomeFree(now) {
      var i: nat :| FreeAt(now, i);
      FreeIsOpen(now, i);
      var j := TurnReaches(start, i, n);
      AttemptSees(now, others, start, j);
      assert Attempt(now, others, start, j, n) == Acquired;
    }
    if SomeOpen(now) && !SomeFree(now) {
      var i: nat :| OpenAt(now, i);
      FreeIsOpen(now, i);
      var j := TurnReaches(start, i, n);
      AttemptSees(now, others, start, j);
      assert Attempt(now, others, start, j, n) == NoPermits;
    }
    forall j: nat | j < n
      ensures Attempt(now, others, start, j, n) == Acquired ==> SomeFree(now)
      ensures Attempt(now, others, start, j, n) == NoPermits ==> SomeOpen(now)
    {
      AttemptSees(now, others, start, j);
    }
  }

  lemma FreeIsOpen(now: Front, i: nat)
    ensures FreeAt(now, i) ==> OpenAt(now, i)
    ensures OpenAt(now, i) ==> i < |now.counts|
  {
  }

  /** One count permit of the shard and the bytes are taken, and nothing else. */
  ghost predicate Takes(before: Front, after: Front, shard: nat, charge: nat) {
    && FreeAt(before, shard) && BytesFree(before, charge)
    && var count := before.counts[shard];
    && after.counts == before.counts[shard := count.(permits := count.permits - 1)]
    && after.bytes == match before.bytes case None => None case Some(b) => Some(b.(permits := b.permits - charge))
  }

  lemma UndisturbedTry(f: Front, shard: nat, charge: nat, between: Front -> Front, r: TryResult, after: Front)
    requires shard < |f.counts| && f.Ok(|f.counts|) && Tries(f, shard, charge, between, r, after)
    requires FreeAt(f, shard) && forall g: Front :: between(g) == g
    ensures r == Acquired <==> BytesFree(f, charge)
    ensures r == Closed <==> f.BytesClosed()
    ensures if r == Acquired then Takes(f, after, shard, charge) else after == f
  {
    GiveBack(f, shard);
    hide Release, SemOk;
    assert between(CountTaken(f, shard)) == CountTaken(f, shard);
  }

  /**
   * Undisturbed, the choice is exact, in terms of what the semaphores hold: it
   * admits if and only if some shard has a count permit and the bytes are there;
   * it answers `Closed` if and only if the bytes or all shards are closed; it
   * names the first shard in cyclic order with a permit, or else the first open
   * one. Success takes exactly one permit and the charge; an error changes nothing.
   */
  lemma SelectionIsExact(now: Front, others: Others, start: nat, charge: nat, c: Choice)
    requires start < |now.counts| && now.Ok(|now.counts|) && Undisturbed(others)
    requires Chosen(now, others, start, charge, c)
    ensures c.shard < |now.counts|
    ensures c.r == Acquired <==> SomeFree(now) && BytesFree(now, charge)
    ensures c.r == Closed <==> now.BytesClosed() || !SomeOpen(now)
    ensures c.r != Closed ==> if SomeFree(now) then FirstFree(now, start, c.shard) else FirstOpen(now, start, c.shard)
    ensures if c.r == Acquired then Takes(now, c.after, c.shard, charge) else c.after == now
  {
    hide SomeAttempt, Turn, Look, Tries, Takes, SemOk, SomeFree, SomeOpen, FirstFree, FirstOpen;
    AttemptsSeeShards(now, others, start);
    LooksAlike(now, others, 0);
    LooksAlike(now, others, c.looks);
    FreeMeansOpen(now);
    if !now.BytesClosed() {
      if SomeFree(now) {
        FreeIsFirst(now, others, start, c.looks - 1);
        UndisturbedTry(now, c.shard, charge, f => others(c.looks + 1, f), c.r, c.after);
      } else if c.r == NoPermits {
        WaitingShard(now, others, start, c);
      }
    }
  }

  lemma FreeMeansOpen(now: Front)
    ensures SomeFree(now) ==> SomeOpen(now)
  {
    if SomeFree(now) {
      var i: nat :| FreeAt(now, i);
      assert OpenAt(now, i);
    }
  }

  /** The attempt that found a permit names the first shard that has one. */
  lemma FreeIsFirst(now: Front, others: Others, start: nat, j: nat)
    requires start < |now.counts| && Undisturbed(others) && j < |now.counts|
    requires NoneBefore(now, others, start, j, |now.counts|) && Attempt(now, others, start, j, |now.counts|) == Acquired
    ensures FreeAt(now, Turn(start, j, |now.counts|)) && FirstFree(now, start, Turn(start, j, |now.counts|))
  {
    hide Look, Attempt, FreeAt, Turn, Around;
    AttemptSees(now, others, start, j);
    TurnIsAround(start, j, |now.counts|);
    forall l: nat | l < j
      ensures !FreeAt(now, Around(start, l, |now.counts|))
    {
      assert Attempt(now, others, start, l, |now.counts|) != Acquired;
      AttemptSees(now, others, start, l);
      TurnIsAround(start, l, |now.counts|);
    }
  }

  lemma WaitingShard(now: Front, others: Others, start: nat, c: Choice)
    requires start < |now.counts| && Undisturbed(others)
    requires FoundFull(now, others, start, c.shard)
    ensures c.shard < |now.counts| && FirstOpen(now, start, c.shard)
  {
    hide Look, Attempt, OpenAt, Turn, Around;
    var j: nat :| j < |now.counts| && FirstFull(now, others, start, j, |now.counts|) && c.shard == Turn(start, j, |now.counts|);
    AttemptSees(now, others, start, j);
    TurnIsAround(start, j, |now.counts|);
    forall l: nat | l < j
      ensures !OpenAt(now, Around(start, l, |now.counts|))
    {
      assert Attempt(now, others, start, l, |now.counts|) == Closed;
      AttemptSees(now, others, start, l);
      TurnIsAround(start, l, |now.counts|);
    }
  }
}
