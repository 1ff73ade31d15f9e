/** Failure-compatible results shared by every module. */
module Wrappers {
  datatype Option<+T> = None | Some(value: T)

  /** A value, or the error of the check that failed. */
  datatype Result<+T, +E> = Success(value: T) | Failure(error: E) {
    predicate IsFailure() { Failure? }

    function PropagateFailure<U>(): Result<U, E>
      requires Failure?
    {
      Failure(error)
    }

    function Extract(): T
      requires Success?
    {
      value
    }
  }

  /** No element occurs twice. */
  ghost predicate Distinct<T>(s: seq<T>) {
    forall i, j :: 0 <= i < j < |s| ==> s[i] != s[j]
  }

  /** A check that either holds or raises. */
  function Need<E>(condition: bool, error: E): Result<(), E> {
    if condition then Success(()) else Failure(error)
  }
}

/** Bytes and the little-endian integers stored in them. */
module Bytes {
  type Byte = b: int | 0 <= b < 256

  function U16(s: seq<Byte>, offset: nat): (v: nat)
    requires offset + 2 <= |s|
    ensures v < 0x1_0000
  {
    s[offset] as int + 0x100 * s[offset + 1] as int
  }

  function U32(s: seq<Byte>, offset: nat): (v: nat)
    requires offset + 4 <= |s|
    ensures v < 0x1_0000_0000
  {
    U16(s, offset) + 0x1_0000 * U16(s, offset + 2)
  }

  function Le16(v: nat): (s: seq<Byte>)
    requires v < 0x1_0000
    ensures |s| == 2
    ensures U16(s, 0) == v
  {
    [v % 0x100, v / 0x100]
  }

  function Le32(v: nat): (s: seq<Byte>)
    requires v < 0x1_0000_0000
    ensures |s| == 4
    ensures U32(s, 0) == v
  {
    var low, high := Le16(v % 0x1_0000), Le16(v / 0x1_0000);
    assert (low + high)[..2] == low && (low + high)[2..] == high;
    low + high
  }

  /** The same number read from a window of a larger buffer. */
  lemma U16Window(s: seq<Byte>, lo: nat, hi: nat, offset: nat)
    requires lo + offset + 2 <= hi <= |s|
    ensures U16(s[lo..hi], offset) == U16(s, lo + offset)
  {
  }

  function Ascii(bytes: seq<Byte>): (s: string)
    ensures |s| == |bytes|
    ensures forall i :: 0 <= i < |s| ==> s[i] == bytes[i] as char
  {
    seq(|bytes|, i requires 0 <= i < |bytes| => bytes[i] as char)
  }
}

/** The few facts about multiplication and division the proofs need. */
module Arithmetic {
  function CeilDiv(n: nat, d: nat): nat
    requires d > 0
  {
    (n + d - 1) / d
  }

  lemma CeilDivCovers(n: nat, d: nat)
    requires d > 0
    ensures n <= CeilDiv(n, d) * d < n + d
    ensures n == 0 ==> CeilDiv(n, d) == 0
  {
  }

  lemma QuotientBelow(i: nat, n: nat, size: nat)
    requires size > 0 && i < n * size
    ensures i / size < n
  {
  }

  lemma MulAtMost(a: int, b: int, c: nat)
    requires a <= b
    ensures a * c <= b * c
  {
  }

  lemma Distribute(a: int, b: int, c: int)
    ensures (a + b) * c == a * c + b * c
  {
  }

  lemma Associate(a: int, b: int, c: int)
    ensures (a * b) * c == a * (b * c)
  {
  }

  lemma Recompose(i: nat, size: nat)
    requires size > 0
    ensures i == (i / size) * size + i % size && i % size < size
  {
  }

  /** Quotient and remainder are the only pair that recompose the number. */
  lemma QuotientIs(i: nat, size: nat, q: nat, r: nat)
    requires r < size && i == q * size + r
    ensures i / size == q && i % size == r
  {
    var q' := i / size;
    Recompose(i, size);
    Distribute(q', 1, size);
    Distribute(q, 1, size);
    if q' < q {
      MulAtMost(q' + 1, q, size);
    } else if q' > q {
      MulAtMost(q + 1, q', size);
    }
  }

  lemma QuotientStep(i: nat, size: nat)
    requires 0 < size <= i
    ensures i / size == (i - size) / size + 1 && i % size == (i - size) % size
  {
    var q, r := (i - size) / size, (i - size) % size;
    Recompose(i - size, size);
    Distribute(q, 1, size);
    QuotientIs(i, size, q + 1, r);
  }

  /** A small block whose size divides the large one, aligned to its own size, stays in one large block. */
  lemma AlignedBlock(offset: nat, small: nat, n: nat, size: nat, k: nat)
    requires small > 0 && n > 0 && size == n * small && offset % small == 0 && k < small
    ensures size > 0
    ensures offset % size + k < size
    ensures (offset + k) / size == offset / size
    ensures (offset + k) % size == offset % size + k
  {
    MulAtMost(1, n, small);
    var m := offset / small;
    var q, r := m / n, m % n;
    Recompose(offset, small);
    Recompose(m, n);
    Distribute(q * n, r, small);
    Associate(q, n, small);
    MulAtMost(r + 1, n, small);
    Distribute(r, 1, small);
    QuotientIs(offset, size, q, r * small);
    QuotientIs(offset + k, size, q, r * small + k);
  }
}
