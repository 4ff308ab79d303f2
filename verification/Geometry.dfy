/**
 * Block-aligned read geometry and request validation
 * (`aligned_geometry` and the checks of `submit`).
 */
module Geometry {
  import opened Base

  // ---- u64 bit masks as arithmetic on naturals ----

  predicate IsPowerOfTwo(n: nat) {
    n == 1 || (n > 1 && n % 2 == 0 && IsPowerOfTwo(n / 2))
  }

  function BitAnd(x: nat, y: nat): nat {
    if x == 0 || y == 0 then 0 else (x % 2) * (y % 2) + 2 * BitAnd(x / 2, y / 2)
  }

  /** Bitwise complement of a 64-bit word. */
  function Not64(x: nat): nat
    requires x < U64_RANGE
  {
    U64_RANGE - 1 - x
  }

  lemma {:induction false} AndAllOnes(x: nat, range: nat)
    requires IsPowerOfTwo(range) && x < range
    ensures BitAnd(x, range - 1) == x
  {
    if x != 0 {
      assert (range - 1) / 2 == range / 2 - 1 && (range - 1) % 2 == 1;
      AndAllOnes(x / 2, range / 2);
    }
  }

  lemma HalveRemainder(x: nat, half: nat)
    requires half > 0
    ensures x % (2 * half) == 2 * ((x / 2) % half) + x % 2
  {
    var q, r := (x / 2) / half, (x / 2) % half;
    assert x == 2 * (q * half + r) + x % 2;
    assert 2 * (q * half) == q * (2 * half);
    DivModUnique(x, 2 * half, q, 2 * r + x % 2);
  }

  /** Masking off the low bits of a word rounds it down to a multiple. */
  lemma {:induction false} MaskIsFloor(x: nat, align: nat, range: nat)
    requires IsPowerOfTwo(align) && IsPowerOfTwo(range) && align <= range && x < range
    ensures BitAnd(x, range - align) == x - x % align
    decreases align
  {
    if align == 1 {
      AndAllOnes(x, range);
    } else if range == align || x == 0 {
      if range == align {
        DivModUnique(x, align, 0, x);
      } else {
        DivModUnique(0, align, 0, 0);
      }
    } else {
      MaskIsFloor(x / 2, align / 2, range / 2);
      assert (range - align) / 2 == range / 2 - align / 2 && (range - align) % 2 == 0;
      HalveRemainder(x, align / 2);
    }
  }

  lemma DoubleIsPower(a: nat)
    requires IsPowerOfTwo(a)
    ensures IsPowerOfTwo(2 * a)
  {
  }

  lemma {:induction false} ProductOfPowers(a: nat, b: nat)
    requires IsPowerOfTwo(a) && IsPowerOfTwo(b)
    ensures IsPowerOfTwo(a * b)
  {
    if a > 1 {
      var half := a / 2;
      assert a == 2 * half && b > 0;
      ProductOfPowers(half, b);
      DoubleIsPower(half * b);
      assert a * b == 2 * (half * b);
    }
  }

  lemma WordRangeIsPowerOfTwo()
    ensures IsPowerOfTwo(U64_RANGE)
  {
    assert IsPowerOfTwo(0x1_0000);
    ProductOfPowers(0x1_0000, 0x1_0000);
    ProductOfPowers(0x1_0000_0000, 0x1_0000_0000);
  }

  // ---- geometry ----

  datatype Region = Region(kernelOffset: nat, head: nat, regionLen: nat)

  /** `usize::checked_next_multiple_of`. */
  function NextMultiple(n: nat, align: nat): Option<nat>
    requires align > 0
  {
    var r := n % align;
    if r == 0 then Some(n)
    else if n + (align - r) < U64_RANGE then Some(n + (align - r))
    else None
  }

  predicate GoodAlign(align: nat) {
    align != 0 && IsPowerOfTwo(align) && align <= MAX_READ_LEN
  }

  function AlignedGeometry(offset: nat, len: nat, align: nat): Option<Region>
    requires offset < U64_RANGE && len < U64_RANGE
  {
    if align == 0 || !IsPowerOfTwo(align) || align > MAX_READ_LEN then None
    else if align == 1 then Some(Region(offset, 0, len))
    else
      var mask := align - 1;
      var kernelOffset := BitAnd(offset, Not64(mask));
      if kernelOffset > offset then None
      else
        var head := offset - kernelOffset;
        if head + len >= U64_RANGE then None
        else
          match NextMultiple(head + len, align)
          case None => None
          case Some(regionLen) => Some(Region(kernelOffset, head, regionLen))
  }

  lemma KernelOffsetIsFloor(offset: nat, align: nat)
    requires offset < U64_RANGE && GoodAlign(align)
    ensures BitAnd(offset, Not64(align - 1)) == offset - offset % align
  {
    WordRangeIsPowerOfTwo();
    MaskIsFloor(offset, align, U64_RANGE);
  }

  lemma FloorIsMultiple(x: nat, align: nat)
    requires align > 0
    ensures (x - x % align) % align == 0
  {
    DivModUnique(x - x % align, align, x / align, 0);
  }

  lemma NextMultipleIsLeast(n: nat, align: nat)
    requires align > 0 && NextMultiple(n, align).Some?
    ensures var m := NextMultiple(n, align).value;
            n <= m < n + align && m % align == 0 && forall k: nat :: k >= n && k % align == 0 ==> m <= k
  {
    var m := NextMultiple(n, align).value;
    if n % align != 0 {
      DivModUnique(m, align, n / align + 1, 0);
    }
    forall k: nat | k >= n && k % align == 0
      ensures m <= k
    {
      if k < m {
        MultiplesClosed(m, k, align);
        DivModUnique(m - k, align, 0, m - k);
      }
    }
  }

  /** A block-aligned range that contains `[offset, offset + len)`. */
  predicate AlignedSuperset(lo: nat, n: nat, offset: nat, len: nat, align: nat)
    requires align > 0
  {
    lo % align == 0 && n % align == 0 && lo <= offset && offset + len <= lo + n
  }

  /**
   * The geometry is the smallest block-aligned range around the request: it
   * covers it, and every other aligned cover contains it.
   */
  lemma GeometryIsLeastSuperset(offset: nat, len: nat, align: nat)
    requires offset < U64_RANGE && len < U64_RANGE
    requires AlignedGeometry(offset, len, align).Some?
    ensures var g := AlignedGeometry(offset, len, align).value;
            && align > 0
            && g.head == offset - g.kernelOffset
            && g.head < align
            && AlignedSuperset(g.kernelOffset, g.regionLen, offset, len, align)
            && forall lo: nat, n: nat :: AlignedSuperset(lo, n, offset, len, align) ==>
                 lo <= g.kernelOffset && g.kernelOffset + g.regionLen <= lo + n
  {
    var g := AlignedGeometry(offset, len, align).value;
    if align > 1 {
      KernelOffsetIsFloor(offset, align);
      FloorIsMultiple(offset, align);
      NextMultipleIsLeast(g.head + len, align);
    }
    forall lo: nat, n: nat | AlignedSuperset(lo, n, offset, len, align)
      ensures lo <= g.kernelOffset && g.kernelOffset + g.regionLen <= lo + n
    {
      if align > 1 {
        if lo > g.kernelOffset {
          MultiplesClosed(lo, g.kernelOffset, align);
          DivModUnique(lo - g.kernelOffset, align, 0, lo - g.kernelOffset);
        }
        MultiplesClosed(lo, n, align);
        MultiplesClosed(lo + n, g.kernelOffset, align);
      }
    }
  }

  /** For requests inside the caller-visible limits only a bad alignment is refused. */
  lemma GeometryRefusesExactlyBadAlign(offset: nat, len: nat, align: nat)
    requires offset < U64_RANGE && len <= MAX_READ_LEN
    ensures AlignedGeometry(offset, len, align).None? <==> !GoodAlign(align)
  {
    if GoodAlign(align) && align > 1 {
      KernelOffsetIsFloor(offset, align);
    }
  }

  // ---- validation of a request ----

  datatype Limits = Limits(maxReadLen: Option<nat>, maxInFlight: Option<nat>)

  datatype Refusal = ReservedOffset | OffsetTooLarge | LengthTooLarge | BadRange | OverByteBudget

  datatype Verdict = Refused(why: Refusal) | Accepted(charge: nat)

  /** The checks of `submit`, in its order; `stream` is `allow_current_position`. */
  function Validate(offset: nat, len: nat, align: nat, stream: bool, limits: Limits): Verdict
    requires offset < U64_RANGE && len < U64_RANGE
  {
    if !stream && offset == CURRENT_POSITION then Refused(ReservedOffset)
    else if offset != CURRENT_POSITION && offset > I64_MAX then Refused(OffsetTooLarge)
    else if len > MAX_READ_LEN || (limits.maxReadLen.Some? && len > limits.maxReadLen.value) then
      Refused(LengthTooLarge)
    else
      match AlignedGeometry(offset, len, align)
      case None => Refused(BadRange)
      case Some(g) =>
        if g.regionLen > MAX_READ_LEN then Refused(BadRange)
        else if !(stream && offset == CURRENT_POSITION) && g.kernelOffset + g.regionLen > I64_MAX then
          Refused(BadRange)
        else
          var charge := g.regionLen + align - 1;
          if limits.maxInFlight.Some? && charge > limits.maxInFlight.value then Refused(OverByteBudget)
          else Accepted(charge)
  }

  /**
   * Everything the later stages rely on: the aligned end fits a signed file
   * offset, the charge and the length fit 32 bits, and the charge is exactly the
   * buffer that intake allocates.
   */
  lemma AcceptedArithmetic(offset: nat, len: nat, align: nat, stream: bool, limits: Limits)
    requires offset < U64_RANGE && len < U64_RANGE
    requires Validate(offset, len, align, stream, limits).Accepted?
    ensures GoodAlign(align) && AlignedGeometry(offset, len, align).Some?
    ensures var g := AlignedGeometry(offset, len, align).value;
            var charge := Validate(offset, len, align, stream, limits).charge;
            && charge == g.regionLen + align - 1
            && charge < U32_RANGE
            && len <= MAX_READ_LEN
            && g.regionLen <= MAX_READ_LEN
            && (offset != CURRENT_POSITION ==> g.kernelOffset + g.regionLen <= I64_MAX)
            && (offset == CURRENT_POSITION ==> stream)
            && (limits.maxInFlight.Some? ==> charge <= limits.maxInFlight.value)
  {
  }

  /** The least block-aligned range around `[offset, offset + len)`: every other aligned cover contains it. */
  ghost predicate LeastCover(lo: nat, n: nat, offset: nat, len: nat, align: nat)
    requires align > 0
  {
    && AlignedSuperset(lo, n, offset, len, align)
    && forall lo': nat, n': nat :: AlignedSuperset(lo', n', offset, len, align) ==> lo' <= lo && lo + n <= lo' + n'
  }

  lemma CoverIsUnique(lo: nat, n: nat, lo': nat, n': nat, offset: nat, len: nat, align: nat)
    requires align > 0 && LeastCover(lo, n, offset, len, align) && LeastCover(lo', n', offset, len, align)
    ensures lo == lo' && n == n'
  {
    hide AlignedSuperset;
  }

  /** The geometry of an accepted length is the least cover of the request. */
  lemma GeometryIsCover(offset: nat, len: nat, align: nat, lo: nat, n: nat)
    requires offset < U64_RANGE && len <= MAX_READ_LEN && GoodAlign(align) && LeastCover(lo, n, offset, len, align)
    ensures AlignedGeometry(offset, len, align) == Some(Region(lo, offset - lo, n))
  {
    hide IsPowerOfTwo;
    GeometryRefusesExactlyBadAlign(offset, len, align);
    GeometryIsLeastSuperset(offset, len, align);
    var g := AlignedGeometry(offset, len, align).value;
    hide AlignedGeometry, AlignedSuperset;
    CoverIsUnique(lo, n, g.kernelOffset, g.regionLen, offset, len, align);
  }

  lemma CoverExists(offset: nat, len: nat, align: nat) returns (lo: nat, n: nat)
    requires offset < U64_RANGE && len <= MAX_READ_LEN && GoodAlign(align)
    ensures LeastCover(lo, n, offset, len, align)
  {
    hide IsPowerOfTwo;
    GeometryRefusesExactlyBadAlign(offset, len, align);
    GeometryIsLeastSuperset(offset, len, align);
    var g := AlignedGeometry(offset, len, align).value;
    hide AlignedGeometry, AlignedSuperset;
    lo, n := g.kernelOffset, g.regionLen;
  }

  /** The offset is one this call may use. */
  predicate OffsetAllowed(offset: nat, stream: bool) {
    offset <= I64_MAX || (stream && offset == CURRENT_POSITION)
  }

  /** The length is within the kernel's cap and the configured one. */
  predicate LengthAllowed(len: nat, limits: Limits) {
    len <= MAX_READ_LEN && (limits.maxReadLen.Some? ==> len <= limits.maxReadLen.value)
  }

  /** The covering range is one the kernel can read: short enough, and ending at a signed offset unless it is a stream. */
  predicate RangeAllowed(lo: nat, n: nat, offset: nat) {
    n <= MAX_READ_LEN && (offset != CURRENT_POSITION ==> lo + n <= I64_MAX)
  }

  /**
   * Which requests are accepted, and why the others are not: for every offset,
   * length, alignment and limit, with the aligned range given as the least cover
   * of the request.
   */
  lemma ValidateIsExact(offset: nat, len: nat, align: nat, stream: bool, limits: Limits, lo: nat, n: nat)
    requires offset < U64_RANGE && len < U64_RANGE
    requires GoodAlign(align) && len <= MAX_READ_LEN ==> LeastCover(lo, n, offset, len, align)
    ensures var v := Validate(offset, len, align, stream, limits);
            var budget := limits.maxInFlight;
            && (v == Refused(ReservedOffset) <==> offset == CURRENT_POSITION && !stream)
            && (v == Refused(OffsetTooLarge) <==> I64_MAX < offset < CURRENT_POSITION)
            && (v == Refused(LengthTooLarge) <==> OffsetAllowed(offset, stream) && !LengthAllowed(len, limits))
            && (v == Refused(BadRange) <==>
                  && OffsetAllowed(offset, stream) && LengthAllowed(len, limits)
                  && !(GoodAlign(align) && RangeAllowed(lo, n, offset)))
            && (v == Refused(OverByteBudget) <==>
                  && OffsetAllowed(offset, stream) && LengthAllowed(len, limits) && GoodAlign(align) && RangeAllowed(lo, n, offset)
                  && budget.Some? && n + align - 1 > budget.value)
            && (v.Accepted? <==>
                  && OffsetAllowed(offset, stream) && LengthAllowed(len, limits) && GoodAlign(align) && RangeAllowed(lo, n, offset)
                  && (budget.Some? ==> n + align - 1 <= budget.value))
            && (v.Accepted? ==> v.charge == n + align - 1)
  {
    if len <= MAX_READ_LEN {
      GeometryRefusesExactlyBadAlign(offset, len, align);
      if GoodAlign(align) {
        GeometryIsCover(offset, len, align, lo, n);
      }
    }
    hide IsPowerOfTwo, AlignedGeometry, LeastCover;
  }

  /** The read region starts at the first aligned byte of the allocation. */
  function Pad(base: nat, align: nat): (pad: nat)
    requires align > 0
    ensures pad < align
  {
    if base % align == 0 then 0 else align - base % align
  }

  lemma PadAligns(base: nat, align: nat)
    requires align > 0
    ensures (base + Pad(base, align)) % align == 0
  {
    var k := if base % align == 0 then base / align else base / align + 1;
    DivModUnique(base + Pad(base, align), align, k, 0);
  }
}
