/** Constants, byte strings and the few collection helpers every module uses. */
module Base {
  newtype byte = b: int | 0 <= b < 256

  datatype Option<+T> = None | Some(value: T)

  const U32_RANGE: nat := 0x1_0000_0000
  const U64_RANGE: nat := 0x1_0000_0000_0000_0000
  const I64_MAX: nat := 0x7fff_ffff_ffff_ffff

  /** The `user_data` bit that marks the completion of a cancel request. */
  const CANCEL_BIT: nat := 0x8000_0000_0000_0000

  /** The offset that means "read at the file's own position". */
  const CURRENT_POSITION: nat := 0xffff_ffff_ffff_ffff

  /** The kernel's single-read cap. */
  const MAX_READ_LEN: nat := 0x7fff_f000

  const MAX_TRANSIENT_RETRIES: nat := 16
  const MAX_CONSECUTIVE_SUBMIT_ERRORS: nat := 128

  const ENOENT: int := 2
  const EINTR: int := 4
  const EAGAIN: int := 11
  const EBUSY: int := 16
  const EALREADY: int := 114
  const ECANCELED: int := 125

  function Min(a: int, b: int): int {
    if a <= b then a else b
  }

  /** What a caller of `pread` is owed: the bytes of the file inside the range. */
  function Pread(file: seq<byte>, offset: nat, len: nat): (r: seq<byte>)
    ensures |r| <= len
  {
    if offset >= |file| then [] else file[offset..Min(offset + len, |file|)]
  }

  lemma MulAtLeast(k: int, d: int)
    requires k >= 1 && d > 0
    ensures k * d >= d
  {
  }

  /** Quotient and remainder are unique. */
  lemma DivModUnique(x: int, d: int, q: int, r: int)
    requires d > 0
    requires x == q * d + r && 0 <= r < d
    ensures x / d == q && x % d == r
  {
    var q', r' := x / d, x % d;
    assert x == d * q' + r';
    if q' > q {
      MulAtLeast(q' - q, d);
    } else if q' < q {
      MulAtLeast(q - q', d);
    }
  }

  /** Sums and differences of multiples are multiples. */
  lemma MultiplesClosed(a: int, b: int, d: int)
    requires d > 0 && a % d == 0 && b % d == 0
    ensures (a + b) % d == 0 && (a - b) % d == 0
  {
    DivModUnique(a + b, d, a / d + b / d, 0);
    DivModUnique(a - b, d, a / d - b / d, 0);
  }

  lemma SliceOfSlice<T>(s: seq<T>, a: nat, b: nat, c: nat, d: nat)
    requires a <= b <= |s| && c <= d <= b - a
    ensures s[a..b][c..d] == s[a + c..a + d]
  {
    var l, r := s[a..b][c..d], s[a + c..a + d];
    assert |l| == |r|;
    assert forall i :: 0 <= i < |l| ==> l[i] == r[i];
  }

  lemma SliceSplit<T>(s: seq<T>, a: nat, b: nat, c: nat)
    requires a <= b <= c <= |s|
    ensures s[a..c] == s[a..b] + s[b..c]
  {
  }
}
