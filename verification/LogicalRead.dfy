/**
 * One logical read: the pending entry, the read request built from it, and what
 * each read completion does to it (`Pending::read_sqe`, `reap_read`,
 * `finish_direct_short_read`, `deliver`).
 */
module LogicalRead {
  import opened Base
  import opened Geometry

  /** A raw pointer: a heap block and an index into it. */
  datatype Pointer = Pointer(block: nat, index: nat)

  /** A submission-queue entry. The kernel sees the pointer and the descriptor only. */
  datatype Sqe =
    | ReadSqe(ud: nat, fd: nat, ptr: Pointer, len: nat, off: nat)
    | CancelSqe(target: nat)

  datatype Pending = Pending(
    block: nat,            // the heap block that `buf` owns
    fd: nat,               // the descriptor that `file` keeps open
    hasSender: bool,       // `done` is still `Some`
    offset: nat,
    nread: nat,
    charge: nat,           // byte permits held by `_permit`
    pad: nat,
    head: nat,
    want: nat,
    regionLen: nat,
    align: nat,
    retries: nat,
    cancelRequested: bool)
  {
    predicate IsStream() { offset == CURRENT_POSITION }

    /** The region lies in the buffer and holds the caller's range. */
    predicate Shaped(bufLen: nat) {
      && align > 0
      && pad + regionLen <= bufLen
      && nread <= regionLen
      && head + want <= regionLen
      && regionLen <= MAX_READ_LEN
      && (!IsStream() ==> offset + regionLen <= I64_MAX)
      && (IsStream() ==> align == 1 && head == 0)
    }

    /** An entry whose read request is outstanding stands at a block boundary. */
    predicate AtBoundary()
      requires align > 0
    {
      && regionLen % align == 0
      && nread % align == 0
      && retries <= MAX_TRANSIENT_RETRIES
      && (nread > 0 ==> nread < head + want)
      && (regionLen == nread ==> nread == 0 && retries == 0)
      && (IsStream() ==> nread == 0)
    }
  }

  /** The one place a read request is built; the length field is 32 bits wide. */
  function ReadSqeOf(p: Pending, id: nat): Sqe
    requires p.nread <= p.regionLen
  {
    ReadSqe(id, p.fd, Pointer(p.block, p.pad + p.nread), (p.regionLen - p.nread) % U32_RANGE, p.offset + p.nread)
  }

  datatype Outcome =
    | Ok(bytes: seq<byte>)
    | OsError(errno: int)
    | UnalignedShortRead
    | MetadataFailed
    | ShuttingDown
    | CannotAlign
    | LeakedAtExit
    | ChannelDropped

  datatype ReapStep = Finish(outcome: Outcome) | Resubmit

  function Avail(p: Pending): nat {
    Min(if p.nread >= p.head then p.nread - p.head else 0, p.want)
  }

  /** The caller's part of the buffer; a closed receiver gets an empty vector. */
  function Deliver(p: Pending, buf: seq<byte>, open: bool): seq<byte>
    requires p.Shaped(|buf|)
  {
    if !open then [] else buf[p.pad + p.head..p.pad + p.head + Avail(p)]
  }

  function FinishDirectShortRead(p: Pending, fileLen: Option<nat>, buf: seq<byte>, open: bool): Outcome
    requires p.Shaped(|buf|)
  {
    match fileLen
    case None => MetadataFailed
    case Some(n) => if p.offset + p.nread < n then UnalignedShortRead else Ok(Deliver(p, buf, open))
  }

  predicate Transient(errno: int) {
    errno == EINTR || errno == EAGAIN
  }

  /** What follows a read completion: the entry afterwards and the next step. */
  function ReapRead(p: Pending, res: int, shuttingDown: bool, fileLen: Option<nat>,
                    buf: seq<byte>, open: bool): (Pending, ReapStep)
    requires p.Shaped(|buf|)
    requires res > 0 ==> p.nread + res <= p.regionLen
  {
    var stop := p.cancelRequested || shuttingDown;
    if res < 0 then
      var err := -res;
      if Transient(err) && !p.IsStream() && p.nread < p.regionLen && stop then
        (p, Finish(OsError(ECANCELED)))
      else if Transient(err) && !p.IsStream() && p.nread < p.regionLen && p.retries < MAX_TRANSIENT_RETRIES then
        (p.(retries := p.retries + 1), Resubmit)
      else
        (p, Finish(OsError(err)))
    else if res == 0 then
      (p, Finish(Ok(Deliver(p, buf, open))))
    else
      var q := p.(nread := p.nread + res, retries := 0);
      if q.IsStream() || q.nread >= q.head + q.want || q.nread >= q.regionLen then
        (q, Finish(Ok(Deliver(q, buf, open))))
      else if stop then
        (q, Finish(OsError(ECANCELED)))
      else if q.align > 1 && q.nread % q.align != 0 then
        (q, Finish(FinishDirectShortRead(q, fileLen, buf, open)))
      else
        (q, Resubmit)
  }

  // ---- the kernel's side of a positioned read ----

  /** A result `pread` may return for `len` bytes at `off`. */
  predicate LegalResult(file: seq<byte>, off: nat, len: nat, res: int) {
    || res < 0
    || (res == 0 && (len == 0 || off >= |file|))
    || (0 < res <= len && off + res <= |file|)
  }

  /** The confirmed prefix of the region holds the file's own bytes. */
  ghost predicate Confirmed(p: Pending, buf: seq<byte>, file: seq<byte>)
    requires p.Shaped(|buf|)
  {
    p.nread > 0 ==>
      && p.offset + p.nread <= |file|
      && buf[p.pad..p.pad + p.nread] == file[p.offset..p.offset + p.nread]
  }

  /** The completed part of the window holds the file's own bytes. */
  ghost predicate Filled(p: Pending, buf: seq<byte>, file: seq<byte>, res: int)
    requires p.Shaped(|buf|)
  {
    res > 0 ==>
      && p.nread + res <= p.regionLen
      && p.offset + p.nread + res <= |file|
      && buf[p.pad + p.nread..p.pad + p.nread + res] == file[p.offset + p.nread..p.offset + p.nread + res]
  }

  /** Confirmed prefix plus completed window is a longer confirmed prefix. */
  lemma ConfirmedGrows(p: Pending, buf: seq<byte>, file: seq<byte>, res: int)
    requires p.Shaped(|buf|) && Confirmed(p, buf, file) && Filled(p, buf, file, res) && res > 0
    requires !p.IsStream()
    ensures Confirmed(p.(nread := p.nread + res, retries := 0), buf, file)
  {
    SlicesJoin(buf, p.pad, file, p.offset, p.nread, res);
  }

  /** Two slices that agree in both their parts agree. */
  lemma SlicesJoin(a: seq<byte>, i: nat, b: seq<byte>, j: nat, m: nat, n: nat)
    requires i + m + n <= |a| && j + m + n <= |b|
    requires m > 0 ==> a[i..i + m] == b[j..j + m]
    requires a[i + m..i + m + n] == b[j + m..j + m + n]
    ensures a[i..i + (m + n)] == b[j..j + (m + n)]
  {
    SliceSplit(a, i, i + m, i + m + n);
    SliceSplit(b, j, j + m, j + m + n);
  }

  /** Delivery of a confirmed prefix hands out file bytes, and as many as it says. */
  lemma DeliveredIsFile(p: Pending, buf: seq<byte>, file: seq<byte>)
    requires p.Shaped(|buf|) && Confirmed(p, buf, file) && !p.IsStream()
    requires p.nread >= p.head + p.want || |file| <= p.offset + p.nread
    ensures Deliver(p, buf, true) == Pread(file, p.offset + p.head, p.want)
  {
    var n := Avail(p);
    if n > 0 {
      SliceOfSlice(buf, p.pad, p.pad + p.nread, p.head, p.head + n);
      SliceOfSlice(file, p.offset, p.offset + p.nread, p.head, p.head + n);
    }
  }

  /** What a completion of a positioned read owes: a sound continuation or an exact result. */
  ghost predicate ReapOwes(p: Pending, r: (Pending, ReapStep), buf: seq<byte>, file: seq<byte>) {
    match r.1
    case Resubmit =>
      && r.0.Shaped(|buf|) && r.0.AtBoundary() && Confirmed(r.0, buf, file) && r.0.nread < r.0.regionLen
      && r.0 == p.(nread := r.0.nread, retries := r.0.retries)
    case Finish(o) => o.Ok? ==> o.bytes == Pread(file, p.offset + p.head, p.want)
  }

  lemma ReapProgressIsExact(p: Pending, res: int, shuttingDown: bool, fileLen: Option<nat>, buf: seq<byte>, file: seq<byte>)
    requires p.Shaped(|buf|) && p.AtBoundary() && !p.IsStream() && res > 0
    requires Confirmed(p, buf, file) && Filled(p, buf, file, res)
    requires fileLen.Some? ==> fileLen.value == |file|
    ensures ReapOwes(p, ReapRead(p, res, shuttingDown, fileLen, buf, true), buf, file)
  {
    hide ReapRead, Range, Confirmed, MustGoOn, MustSucceed, Stranded, WasStopped, EndsHere, Pread, Pending.AtBoundary;
    FilledFits(p, buf, file, res);
    hide Filled;
    ConfirmedGrows(p, buf, file, res);
    ReapDecides(p, res, shuttingDown, fileLen, buf, true);
    if MustGoOn(p, res, shuttingDown) {
      ProgressIsSound(p, res, shuttingDown, |buf|);
    } else if MustSucceed(p, res, shuttingDown, fileLen) {
      RangeIsExact(p, res, shuttingDown, fileLen, buf, file);
    }
  }

  lemma FilledFits(p: Pending, buf: seq<byte>, file: seq<byte>, res: int)
    requires p.Shaped(|buf|) && Filled(p, buf, file, res) && res > 0
    ensures p.nread + res <= p.regionLen
  {
  }

  lemma ProgressIsSound(p: Pending, res: int, shuttingDown: bool, bufLen: nat)
    requires p.Shaped(bufLen) && p.AtBoundary() && res > 0 && p.nread + res <= p.regionLen && MustGoOn(p, res, shuttingDown)
    ensures var q := p.(nread := p.nread + res, retries := 0); q.Shaped(bufLen) && q.AtBoundary() && q.nread < q.regionLen
  {
  }

  /** The bytes of a success are what `pread` owes the caller. */
  lemma RangeIsExact(p: Pending, res: int, shuttingDown: bool, fileLen: Option<nat>, buf: seq<byte>, file: seq<byte>)
    requires p.Shaped(|buf|) && !p.IsStream() && res > 0 && p.nread + res <= p.regionLen
    requires Confirmed(p.(nread := p.nread + res, retries := 0), buf, file)
    requires fileLen.Some? ==> fileLen.value == |file|
    requires MustSucceed(p, res, shuttingDown, fileLen)
    ensures Range(p, p.nread + res, buf) == Pread(file, p.offset + p.head, p.want)
  {
    var q := p.(nread := p.nread + res, retries := 0);
    DeliveredRange(p, q.nread, buf, true);
    hide Deliver, Range, Confirmed, OffBoundary;
    DeliveredIsFile(q, buf, file);
  }

  /**
   * Every completion of a positioned read either keeps the confirmed prefix and
   * asks for the rest, or finishes; a success handed to an open receiver is
   * exactly what `pread` owes the caller.
   */
  lemma ReapIsExact(p: Pending, res: int, shuttingDown: bool, fileLen: Option<nat>, buf: seq<byte>, file: seq<byte>)
    requires p.Shaped(|buf|) && p.AtBoundary() && !p.IsStream()
    requires Confirmed(p, buf, file) && Filled(p, buf, file, res)
    requires LegalResult(file, p.offset + p.nread, p.regionLen - p.nread, res)
    requires fileLen.Some? ==> fileLen.value == |file|
    ensures ReapOwes(p, ReapRead(p, res, shuttingDown, fileLen, buf, true), buf, file)
  {
    if res > 0 {
      ReapProgressIsExact(p, res, shuttingDown, fileLen, buf, file);
    } else if res == 0 {
      if p.regionLen > p.nread {
        DeliveredIsFile(p, buf, file);
      } else {
        assert p.want == 0 && Deliver(p, buf, true) == [];
      }
    }
  }

  /** The step and the entry do not depend on whether the receiver is open. */
  lemma OpennessOnlyHidesBytes(p: Pending, res: int, shuttingDown: bool, fileLen: Option<nat>, buf: seq<byte>)
    requires p.Shaped(|buf|) && (res > 0 ==> p.nread + res <= p.regionLen)
    ensures var a := ReapRead(p, res, shuttingDown, fileLen, buf, true);
            var b := ReapRead(p, res, shuttingDown, fileLen, buf, false);
            && a.0 == b.0
            && match (a.1, b.1)
               case (Resubmit, Resubmit) => true
               case (Finish(x), Finish(y)) => if x.Ok? then y == Ok([]) else y == x
               case _ => false
  {
  }

  // ---- which completion leads where ----

  /** A cancelled or draining read asks for nothing more. */
  predicate Stopped(p: Pending, shuttingDown: bool) {
    p.cancelRequested || shuttingDown
  }

  /** How much of the region is confirmed once this result is in. */
  function Reached(p: Pending, res: int): nat {
    if res > 0 then p.nread + res else p.nread
  }

  /** Progress that neither covers the caller's range nor fills the region. */
  predicate FallsShort(p: Pending, res: int) {
    !p.IsStream() && res > 0 && Reached(p, res) < p.head + p.want && Reached(p, res) < p.regionLen
  }

  /** A failure worth another try: an interruption of a positioned read with room left. */
  predicate Interrupted(p: Pending, res: int) {
    !p.IsStream() && (res == -EINTR || res == -EAGAIN) && p.nread < p.regionLen
  }

  /** The next request would begin inside a block. */
  predicate OffBoundary(p: Pending, res: int)
    requires p.align > 0
  {
    Reached(p, res) % p.align != 0
  }

  /** The file is known to end where the read has come to. */
  predicate EndsHere(p: Pending, res: int, fileLen: Option<nat>) {
    fileLen.Some? && fileLen.value <= p.offset + Reached(p, res)
  }

  predicate MustGoOn(p: Pending, res: int, shuttingDown: bool)
    requires p.align > 0
  {
    && !Stopped(p, shuttingDown)
    && ((FallsShort(p, res) && !OffBoundary(p, res)) || (Interrupted(p, res) && p.retries < MAX_TRANSIENT_RETRIES))
  }

  predicate MustSucceed(p: Pending, res: int, shuttingDown: bool, fileLen: Option<nat>)
    requires p.align > 0
  {
    && res >= 0
    && (FallsShort(p, res) ==> !Stopped(p, shuttingDown) && OffBoundary(p, res) && EndsHere(p, res, fileLen))
  }

  /** The read was stopped where it would otherwise have gone on. */
  predicate WasStopped(p: Pending, res: int, shuttingDown: bool) {
    Stopped(p, shuttingDown) && (FallsShort(p, res) || Interrupted(p, res))
  }

  /** A direct read that cannot go on, with bytes of the file perhaps still ahead. */
  predicate Stranded(p: Pending, res: int, shuttingDown: bool)
    requires p.align > 0
  {
    FallsShort(p, res) && !Stopped(p, shuttingDown) && OffBoundary(p, res)
  }

  /** The bytes of the caller's range among the first `n` of the region. */
  function Range(p: Pending, n: nat, buf: seq<byte>): seq<byte>
    requires p.Shaped(|buf|) && n <= p.regionLen
  {
    if n <= p.head then [] else buf[p.pad + p.head..p.pad + Min(n, p.head + p.want)]
  }

  lemma DeliveredRange(p: Pending, n: nat, buf: seq<byte>, open: bool)
    requires p.Shaped(|buf|) && n <= p.regionLen
    ensures Deliver(p.(nread := n), buf, open) == if open then Range(p, n, buf) else []
    ensures Deliver(p.(nread := n, retries := 0), buf, open) == if open then Range(p, n, buf) else []
  {
  }

  /** The outcome is the one this result has to have, once the read does not go on. */
  predicate Explained(p: Pending, res: int, shuttingDown: bool, fileLen: Option<nat>, buf: seq<byte>, open: bool, outcome: Outcome)
    requires p.Shaped(|buf|) && (res > 0 ==> p.nread + res <= p.regionLen)
  {
    match outcome
    case Ok(bytes) =>
      MustSucceed(p, res, shuttingDown, fileLen) && bytes == if open then Range(p, Reached(p, res), buf) else []
    case OsError(e) => if WasStopped(p, res, shuttingDown) then e == ECANCELED else res < 0 && e == -res
    case UnalignedShortRead => Stranded(p, res, shuttingDown) && fileLen.Some? && !EndsHere(p, res, fileLen)
    case MetadataFailed => Stranded(p, res, shuttingDown) && fileLen.None?
    case _ => false
  }

  /** There is one such outcome at most. */
  lemma ExplainedOnce(p: Pending, res: int, shuttingDown: bool, fileLen: Option<nat>, buf: seq<byte>, open: bool, a: Outcome, b: Outcome)
    requires p.Shaped(|buf|) && (res > 0 ==> p.nread + res <= p.regionLen)
    requires Explained(p, res, shuttingDown, fileLen, buf, open, a) && Explained(p, res, shuttingDown, fileLen, buf, open, b)
    ensures a == b
  {
    hide Range, OffBoundary;
  }

  /**
   * Which completion leads where, for every entry and every result: when the read
   * goes on, when it succeeds and with which bytes, and which error it reports
   * otherwise. `ECANCELED` is made up only for a read that was stopped; every
   * other errno is the kernel's.
   */
  lemma ReapDecides(p: Pending, res: int, shuttingDown: bool, fileLen: Option<nat>, buf: seq<byte>, open: bool)
    requires p.Shaped(|buf|) && (res > 0 ==> p.nread + res <= p.regionLen)
    ensures var (q, step) := ReapRead(p, res, shuttingDown, fileLen, buf, open);
            && (step.Resubmit? <==> MustGoOn(p, res, shuttingDown))
            && q == p.(nread := Reached(p, res), retries := if res > 0 then 0 else if step.Resubmit? then p.retries + 1 else p.retries)
            && (step.Finish? ==> Explained(p, res, shuttingDown, fileLen, buf, open, step.outcome))
  {
    if p.align == 1 {
      assert Reached(p, res) % 1 == 0;
    }
    DeliveredRange(p, Reached(p, res), buf, open);
    hide Deliver, Range;
  }

  /** When each outcome is the one, each condition in terms of the entry and the result alone. */
  lemma OutcomesAreExact(p: Pending, res: int, shuttingDown: bool, fileLen: Option<nat>, buf: seq<byte>, open: bool)
    requires p.Shaped(|buf|) && (res > 0 ==> p.nread + res <= p.regionLen)
    ensures var step := ReapRead(p, res, shuttingDown, fileLen, buf, open).1;
            && (step.Finish? && step.outcome.Ok? <==> MustSucceed(p, res, shuttingDown, fileLen))
            && (step == Finish(MetadataFailed) <==> Stranded(p, res, shuttingDown) && fileLen.None?)
            && (step == Finish(UnalignedShortRead) <==>
                  Stranded(p, res, shuttingDown) && fileLen.Some? && !EndsHere(p, res, fileLen))
            && (step.Finish? && step.outcome.OsError? <==>
                  WasStopped(p, res, shuttingDown) || (res < 0 && !MustGoOn(p, res, shuttingDown)))
            && (res != -ECANCELED ==> (step == Finish(OsError(ECANCELED)) <==> WasStopped(p, res, shuttingDown)))
  {
    ReapDecides(p, res, shuttingDown, fileLen, buf, open);
    hide ReapRead, Range, OffBoundary;
  }

  /** A buffered read never strands. */
  lemma BufferedNeverStrands(p: Pending, res: int, shuttingDown: bool)
    requires p.align == 1
    ensures !Stranded(p, res, shuttingDown)
  {
    assert Reached(p, res) % 1 == 0;
  }

  // ---- bounded work per read ----

  /** How many more read requests the entry can still pay for. */
  function Potential(p: Pending): int
    requires p.align > 0
  {
    (MAX_TRANSIENT_RETRIES + 1) * ((p.regionLen - p.nread) / p.align) - p.retries
  }

  /** The most read requests one logical read may ever cost. */
  function RequestBudget(regionLen: nat, align: nat): nat
    requires align > 0
  {
    var blocks := regionLen / align;
    (MAX_TRANSIENT_RETRIES + 1) * (if blocks == 0 then 1 else blocks)
  }

  lemma BlocksLeft(p: Pending)
    requires p.align > 0 && p.regionLen % p.align == 0 && p.nread % p.align == 0 && p.nread < p.regionLen
    ensures (p.regionLen - p.nread) / p.align >= 1
  {
    MultiplesClosed(p.regionLen, p.nread, p.align);
    if p.regionLen - p.nread < p.align {
      DivModUnique(p.regionLen - p.nread, p.align, 0, p.regionLen - p.nread);
    }
  }

  /** Progress by whole blocks leaves fewer whole blocks. */
  lemma FewerBlocks(region: nat, before: nat, after: nat, align: nat)
    requires align > 0 && region % align == 0 && before % align == 0 && after % align == 0
    requires before < after <= region
    ensures (region - after) / align + 1 <= (region - before) / align
  {
    MultiplesClosed(region, before, align);
    MultiplesClosed(region, after, align);
    var a, b := (region - after) / align, (region - before) / align;
    assert region - after == a * align && region - before == b * align;
    if b <= a {
      MulMonotone(b, a, align);
    }
  }

  lemma MulMonotone(a: int, b: int, d: int)
    requires a <= b && d > 0
    ensures a * d <= b * d
  {
  }

  /** Each continuation strictly spends potential and leaves some. */
  lemma ResubmitSpends(p: Pending, res: int, shuttingDown: bool, fileLen: Option<nat>, buf: seq<byte>, open: bool)
    requires p.Shaped(|buf|) && p.AtBoundary() && (res > 0 ==> p.nread + res <= p.regionLen)
    requires ReapRead(p, res, shuttingDown, fileLen, buf, open).1.Resubmit?
    ensures var q := ReapRead(p, res, shuttingDown, fileLen, buf, open).0;
            && q.regionLen == p.regionLen && q.align == p.align && q.nread < q.regionLen
            && 1 <= Potential(q) < Potential(p)
  {
    var q := ReapRead(p, res, shuttingDown, fileLen, buf, open).0;
    if q.align == 1 {
      assert q.nread % q.align == 0;
    }
    BlocksLeft(q);
    if res > 0 {
      FewerBlocks(p.regionLen, p.nread, q.nread, p.align);
    }
  }

  /** A cancelled or draining read never continues, and a stream never continues. */
  lemma NoContinuation(p: Pending, res: int, shuttingDown: bool, fileLen: Option<nat>, buf: seq<byte>, open: bool)
    requires p.Shaped(|buf|) && (res > 0 ==> p.nread + res <= p.regionLen)
    requires p.cancelRequested || shuttingDown || p.IsStream()
    ensures ReapRead(p, res, shuttingDown, fileLen, buf, open).1.Finish?
  {
  }
}
