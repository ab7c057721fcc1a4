/** Embedding an image into the zero-bordered buffer lt0.

    Both scripts copy the n x n image into an (n+K-1) x (n+K-1) buffer through
    the slice lt0[K//2 : -K//2+1, K//2 : -K//2+1]. Python parses -K//2 as
    (-K)//2, a floor division; Dafny's `/` agrees with floor division whenever
    the divisor is positive, so (-K)/2 below is exactly Python's (-K)//2. */
module Padding {
  import opened Tensor

  /** Side of the padded buffer, image_size + K - 1. */
  function PaddedSide(n: nat, K: nat): nat
    requires K >= 1
  {
    n + K - 1
  }

  /** The (start, stop) a Python slice start:stop selects in a sequence of
      length len: negative bounds count from the end, and both are clamped to
      [0, len]. */
  function SliceBounds(len: nat, start: int, stop: int): (b: (nat, nat))
    ensures b.0 <= b.1 <= len
  {
    var lo := if start < 0 then (if len + start < 0 then 0 else len + start)
              else (if start > len then len else start);
    var hi := if stop < 0 then (if len + stop < 0 then 0 else len + stop)
              else (if stop > len then len else stop);
    (lo, if hi < lo then lo else hi)
  }

  /** The embedding slice K//2 : -K//2+1 on one axis of the buffer. */
  function EmbedSlice(n: nat, K: nat): (nat, nat)
    requires K >= 1
  {
    SliceBounds(PaddedSide(n, K), K / 2, (-(K as int)) / 2 + 1)
  }

  /** For every K >= 3 the slice starts at K//2 and holds exactly n entries;
      for K = 1 and K = 2 its stop is 0 and it is empty. */
  lemma EmbedSliceShape(n: nat, K: nat)
    requires K >= 1
    ensures K >= 3 ==> EmbedSlice(n, K) == (K / 2, K / 2 + n)
    ensures K <= 2 ==> EmbedSlice(n, K).0 == EmbedSlice(n, K).1
  {
  }

  /** buf with the len x len region at (off, off) replaced by src. */
  function WriteRegion(buf: Matrix, side: nat, off: nat, len: nat, src: (int, int) -> real): (r: Matrix)
    requires IsMatrix(buf, side, side)
    ensures IsMatrix(r, side, side)
  {
    seq(side, i requires 0 <= i < side => seq(side, j requires 0 <= j < side =>
      if off <= i < off + len && off <= j < off + len then src(i - off, j - off) else buf[i][j]))
  }

  /** Line 124 of Convolutions_Simple.py and line 109 of Convolutions_1.py as
      written: numpy assigns the n x n image to the len x len slice when the
      shapes agree, broadcasts a 1 x 1 image over it, and otherwise raises. */
  function EmbedAsWritten(buf: Matrix, l0: Matrix, n: nat, K: nat): (res: Result<Matrix>)
    requires K >= 1
    requires IsMatrix(buf, PaddedSide(n, K), PaddedSide(n, K)) && IsMatrix(l0, n, n)
    ensures res.Ok? <==> K >= 3 || n <= 1
    ensures res.Err? ==> res.fault == BroadcastError
    ensures res.Ok? ==> IsMatrix(res.value, PaddedSide(n, K), PaddedSide(n, K))
  {
    EmbedSliceShape(n, K);
    var (lo, hi) := EmbedSlice(n, K);
    var len := hi - lo;
    if len == n then Ok(WriteRegion(buf, PaddedSide(n, K), lo, len, (i, j) => At(l0, i, j)))
    else if n == 1 then Ok(WriteRegion(buf, PaddedSide(n, K), lo, len, (i, j) => l0[0][0]))
    else Err(BroadcastError)
  }

  /** The embedding as intended: the image written at offset K//2, for every K >= 1. */
  function Embed(buf: Matrix, l0: Matrix, n: nat, K: nat): (r: Matrix)
    requires K >= 1
    requires IsMatrix(buf, PaddedSide(n, K), PaddedSide(n, K)) && IsMatrix(l0, n, n)
    ensures IsMatrix(r, PaddedSide(n, K), PaddedSide(n, K))
    ensures forall i, j :: 0 <= i < n && 0 <= j < n ==> r[i + K / 2][j + K / 2] == l0[i][j]
    ensures forall i, j :: 0 <= i < PaddedSide(n, K) && 0 <= j < PaddedSide(n, K) && !Interior(n, K, i, j) ==>
      r[i][j] == buf[i][j]
  {
    WriteRegion(buf, PaddedSide(n, K), K / 2, n, (i, j) => At(l0, i, j))
  }

  /** Whether (i, j) is a cell of the image inside the buffer. */
  predicate Interior(n: nat, K: nat, i: int, j: int)
  {
    K / 2 <= i < K / 2 + n && K / 2 <= j < K / 2 + n
  }

  /** Every buffer cell outside the image is zero. */
  predicate BorderZero(buf: Matrix, n: nat, K: nat)
  {
    forall i, j :: 0 <= i < |buf| && 0 <= j < |buf[i]| && !Interior(n, K, i, j) ==> buf[i][j] == 0.0
  }

  /** Lines 108-109 of Convolutions_1.py as intended: a fresh zero buffer with
      the image embedded. */
  function Pad(l0: Matrix, n: nat, K: nat): (r: Matrix)
    requires K >= 1 && IsMatrix(l0, n, n)
    ensures IsMatrix(r, PaddedSide(n, K), PaddedSide(n, K))
    ensures BorderZero(r, n, K)
  {
    Embed(Zeros(PaddedSide(n, K), PaddedSide(n, K)), l0, n, K)
  }

  /** The padded buffer is the image shifted by K//2 and extended by zeros. */
  lemma PadAt(l0: Matrix, n: nat, K: nat, i: int, j: int)
    requires K >= 1 && IsMatrix(l0, n, n)
    ensures At(Pad(l0, n, K), i, j) == At(l0, i - K / 2, j - K / 2)
  {
  }

  /** For K >= 3 the slice assignment succeeds and is the intended embedding. */
  lemma EmbedAsWrittenAgrees(buf: Matrix, l0: Matrix, n: nat, K: nat)
    requires K >= 3
    requires IsMatrix(buf, PaddedSide(n, K), PaddedSide(n, K)) && IsMatrix(l0, n, n)
    ensures EmbedAsWritten(buf, l0, n, K) == Ok(Embed(buf, l0, n, K))
  {
    EmbedSliceShape(n, K);
  }

  /** With K = 1 the slice 0:0 is empty, so a 2 x 2 image cannot be embedded. */
  lemma EmbedAsWrittenFailsForK1()
    ensures EmbedAsWritten(Zeros(2, 2), [[1.0, 2.0], [3.0, 4.0]], 2, 1) == Err(BroadcastError)
  {
  }

  /** With K = 1 the intended padding is no padding at all. */
  lemma PadK1(l0: Matrix, n: nat)
    requires IsMatrix(l0, n, n)
    ensures Pad(l0, n, 1) == l0
  {
    var p := Pad(l0, n, 1);
    forall i | 0 <= i < n
      ensures p[i] == l0[i]
    {
      PadK1Row(l0, n, p, i);
    }
  }

  /** One row of PadK1. */
  lemma PadK1Row(l0: Matrix, n: nat, p: Matrix, i: nat)
    requires IsMatrix(l0, n, n) && p == Pad(l0, n, 1) && i < n
    ensures p[i] == l0[i]
  {
    assert 1 / 2 == 0;
    forall j | 0 <= j < n
      ensures p[i][j] == l0[i][j]
    {
      assert p[i + 1 / 2][j + 1 / 2] == l0[i][j];
    }
  }

  /** Writing the interior of a buffer whose border is zero gives exactly the
      freshly padded image: reusing lt0 across samples is safe. */
  lemma EmbedIntoBorderZero(buf: Matrix, l0: Matrix, n: nat, K: nat)
    requires K >= 1
    requires IsMatrix(buf, PaddedSide(n, K), PaddedSide(n, K)) && IsMatrix(l0, n, n)
    requires BorderZero(buf, n, K)
    ensures Embed(buf, l0, n, K) == Pad(l0, n, K)
    ensures BorderZero(Embed(buf, l0, n, K), n, K)
  {
    var e, p := Embed(buf, l0, n, K), Pad(l0, n, K);
    assert forall i :: 0 <= i < PaddedSide(n, K) ==> e[i] == p[i];
  }
}
