/** Max-pooling of the rectified feature map (Convolutions_Simple.py).

    The n x n map is cut into non-overlapping w x w blocks, P = n / w of them
    along each axis. Each block is read row by row (skimage's view_as_blocks
    reshaped to P x P x w*w); the pooled vector holds the block maxima in
    row-major block order, and for each block the position of its first
    maximum is turned back into absolute (row, col) coordinates by dividing the
    block-local index by a divisor and adding the block's top-left corner. */
module Pooling {
  import opened Tensor

  /** Lines 57-61: the assert image_size % max_pool_size == 0 (a zero window
      already fails in the modulo), then max_pooled_image_size. */
  function PooledSide(n: nat, w: nat): (res: Result<nat>)
    ensures res.Ok? <==> w > 0 && n % w == 0
    ensures res.Ok? ==> res.value * w == n
    ensures w == 0 ==> res == Err(ZeroDivision)
    ensures w > 0 && n % w != 0 ==> res == Err(AssertionFailed)
  {
    if w == 0 then Err(ZeroDivision)
    else if n % w != 0 then Err(AssertionFailed)
    else Ok(n / w)
  }

  // ---------------------------------------------------------------------------
  // Block corners, lines 97-100

  /** np.arange(start, stop, step) for a positive step. */
  function Arange(start: int, stop: int, step: nat): seq<int>
    requires step > 0
    decreases stop - start
  {
    if start >= stop then [] else [start] + Arange(start + step, stop, step)
  }

  lemma {:induction false} ArangeShape(start: int, count: nat, step: nat)
    requires step > 0
    ensures |Arange(start, start + count * step, step)| == count
    ensures forall i :: 0 <= i < count ==> Arange(start, start + count * step, step)[i] == start + i * step
    decreases count
  {
    MulSucc(count - 1, step);
    if count > 0 {
      var next := start + step;
      assert next + (count - 1) * step == start + count * step;
      ArangeShape(next, count - 1, step);
      forall i | 0 < i < count
        ensures Arange(start, start + count * step, step)[i] == start + i * step
      {
        MulSucc(i - 1, step);
      }
    } else {
      assert start + count * step == start;
    }
  }

  /** The P copies of np.arange(0, n, w) listed at line 98. */
  function Copies(n: nat, w: nat, P: nat): seq<seq<int>>
    requires w > 0
  {
    seq(P, _ => Arange(0, n, w))
  }

  /** np.stack(copies, axis=1): entry [i][j] is element i of copy j. */
  function StackColumns(copies: seq<seq<int>>, len: nat): (s: seq<seq<int>>)
    requires forall c :: 0 <= c < |copies| ==> |copies[c]| == len
    ensures IsMatrix(s, len, |copies|)
  {
    seq(len, i requires 0 <= i < len => seq(|copies|, j requires 0 <= j < |copies| => copies[j][i]))
  }

  /** _rows_adder (line 99). */
  function RowsAdder(n: nat, w: nat, P: nat): seq<seq<int>>
    requires w > 0
  {
    StackColumns(Copies(n, w, P), |Arange(0, n, w)|)
  }

  /** _cols_adder (line 100): np.stack(copies, axis=0) is the list of copies itself. */
  function ColsAdder(n: nat, w: nat, P: nat): seq<seq<int>>
    requires w > 0
  {
    Copies(n, w, P)
  }

  /** When w divides n, the adders are P x P and hold the top-left corner
      (i*w, j*w) of block (i, j). */
  lemma AddersAreBlockCorners(n: nat, w: nat, P: nat)
    requires w > 0 && P * w == n
    ensures IsMatrix(RowsAdder(n, w, P), P, P) && IsMatrix(ColsAdder(n, w, P), P, P)
    ensures forall i, j :: 0 <= i < P && 0 <= j < P ==>
      RowsAdder(n, w, P)[i][j] == i * w && ColsAdder(n, w, P)[i][j] == j * w
  {
    ArangeShape(0, P, w);
  }

  // ---------------------------------------------------------------------------
  // Maxima and first arg-maxima of a sequence

  /** np.max of a non-empty sequence. */
  function SeqMax(s: seq<real>): (m: real)
    requires |s| > 0
    ensures m in s
    ensures forall k :: 0 <= k < |s| ==> s[k] <= m
  {
    if |s| == 1 then s[0]
    else
      var m := SeqMax(s[..|s| - 1]);
      if s[|s| - 1] > m then s[|s| - 1] else m
  }

  /** Scan for np.argmax: best is the first maximum of s[..i]. */
  function ArgMaxFrom(s: seq<real>, i: nat, best: nat): (k: nat)
    requires best < i <= |s|
    requires forall j :: 0 <= j < i ==> s[j] <= s[best]
    requires forall j :: 0 <= j < best ==> s[j] < s[best]
    ensures k < |s|
    ensures forall j :: 0 <= j < |s| ==> s[j] <= s[k]
    ensures forall j :: 0 <= j < k ==> s[j] < s[k]
    decreases |s| - i
  {
    if i == |s| then best
    else if s[i] > s[best] then ArgMaxFrom(s, i + 1, i)
    else ArgMaxFrom(s, i + 1, best)
  }

  /** np.argmax of a non-empty sequence: the first position of its maximum. */
  function ArgMax(s: seq<real>): (k: nat)
    requires |s| > 0
    ensures k < |s| && s[k] == SeqMax(s)
    ensures forall j :: 0 <= j < k ==> s[j] < s[k]
  {
    ArgMaxFrom(s, 1, 0)
  }

  // ---------------------------------------------------------------------------
  // The block view and the pooled vector, lines 134-136

  /** Block (i, j) of view_as_blocks(l1, (w, w)), read row by row: element k
      is l1[i*w + k//w][j*w + k%w]. */
  function Block(l1: Matrix, w: nat, i: int, j: int): (b: seq<real>)
    requires w > 0
    ensures |b| == w * w
  {
    seq(w * w, k => At(l1, i * w + k / w, j * w + k % w))
  }

  /** np.max(view, axis=2) */
  function PooledGrid(l1: Matrix, w: nat, P: nat): (g: Matrix)
    requires w > 0
    ensures IsMatrix(g, P, P)
  {
    seq(P, i => seq(P, j => SeqMax(Block(l1, w, i, j))))
  }

  /** l1_max_pooled_raveled (line 135) */
  function Pooled(l1: Matrix, w: nat, P: nat): Vector
    requires w > 0
  {
    Flatten(PooledGrid(l1, w, P))
  }

  /** arg_max_1d = np.argmax(view, axis=2) (line 136) */
  function ArgMaxGrid(l1: Matrix, w: nat, P: nat): (g: seq<seq<int>>)
    requires w > 0
    ensures IsMatrix(g, P, P)
    ensures forall i, j :: 0 <= i < P && 0 <= j < P ==> 0 <= g[i][j] < w * w
  {
    seq(P, i => seq(P, j => ArgMax(Block(l1, w, i, j)) as int))
  }

  /** arg_max_1d // d + _rows_adder (line 137, before the ravel). */
  function RowIndexGrid(l1: Matrix, n: nat, w: nat, P: nat, d: nat): (g: seq<seq<int>>)
    requires w > 0 && d > 0 && P * w == n
    ensures IsMatrix(g, P, P)
  {
    AddersAreBlockCorners(n, w, P);
    var arg := ArgMaxGrid(l1, w, P);
    seq(P, i requires 0 <= i < P => seq(P, j requires 0 <= j < P => arg[i][j] / d + RowsAdder(n, w, P)[i][j]))
  }

  /** arg_max_1d % d + _cols_adder (line 138, before the ravel). */
  function ColIndexGrid(l1: Matrix, n: nat, w: nat, P: nat, d: nat): (g: seq<seq<int>>)
    requires w > 0 && d > 0 && P * w == n
    ensures IsMatrix(g, P, P)
  {
    AddersAreBlockCorners(n, w, P);
    var arg := ArgMaxGrid(l1, w, P);
    seq(P, i requires 0 <= i < P => seq(P, j requires 0 <= j < P => arg[i][j] % d + ColsAdder(n, w, P)[i][j]))
  }

  /** (max_rows[t], max_cols[t]) for every pooled index t, lines 137-138 with
      the unravel divisor d. */
  function MaxCellsBy(l1: Matrix, n: nat, w: nat, P: nat, d: nat): (cells: seq<Cell>)
    requires w > 0 && d > 0 && P * w == n
    ensures |cells| == P * P
  {
    var rows := Flatten(RowIndexGrid(l1, n, w, P, d));
    var cols := Flatten(ColIndexGrid(l1, n, w, P, d));
    FlattenLength(RowIndexGrid(l1, n, w, P, d), P, P);
    FlattenLength(ColIndexGrid(l1, n, w, P, d), P, P);
    seq(P * P, t requires 0 <= t < P * P => Cell(rows[t], cols[t]))
  }

  /** The argmax cells as written: the block-local index is unravelled with
      the constant 2, whatever the window. */
  function MaxCellsAsWritten(l1: Matrix, n: nat, w: nat, P: nat): (cells: seq<Cell>)
    requires w > 0 && P * w == n
    ensures |cells| == P * P
  {
    MaxCellsBy(l1, n, w, P, 2)
  }

  /** The argmax cells as intended: the block-local index unravelled by the
      window size w. */
  function MaxCells(l1: Matrix, n: nat, w: nat, P: nat): (cells: seq<Cell>)
    requires w > 0 && P * w == n
    ensures |cells| == P * P
  {
    MaxCellsBy(l1, n, w, P, w)
  }

  /** The cell of block (i, j): its block-local argmax k, unravelled by d,
      plus the block corner. */
  lemma MaxCellOfBlock(l1: Matrix, n: nat, w: nat, P: nat, d: nat, i: int, j: int)
    requires w > 0 && d > 0 && P * w == n && 0 <= i < P && 0 <= j < P
    ensures i * P + j < P * P && |Block(l1, w, i, j)| > 0
    ensures var k := ArgMax(Block(l1, w, i, j));
      MaxCellsBy(l1, n, w, P, d)[i * P + j] == Cell(k / d + i * w, k % d + j * w)
  {
    RowMajorBounds(i, j, P, P);
    var R, C := RowIndexGrid(l1, n, w, P, d), ColIndexGrid(l1, n, w, P, d);
    AddersAreBlockCorners(n, w, P);
    FlattenAt(R, P, P, i, j);
    FlattenAt(C, P, P, i, j);
    var k := ArgMax(Block(l1, w, i, j));
    assert R[i][j] == k / d + i * w;
    assert C[i][j] == k % d + j * w;
  }

  /** Cell t comes from block (t / P, t % P). */
  lemma MaxCellAt(l1: Matrix, n: nat, w: nat, P: nat, d: nat, t: int)
    requires w > 0 && d > 0 && P * w == n && 0 <= t < P * P
    ensures 0 <= t / P < P && 0 <= t % P < P
    ensures var k := ArgMax(Block(l1, w, t / P, t % P));
      MaxCellsBy(l1, n, w, P, d)[t] == Cell(k / d + (t / P) * w, k % d + (t % P) * w)
  {
    RowMajorSplit(t, P, P);
    MaxCellOfBlock(l1, n, w, P, d, t / P, t % P);
    assert t / P * P + t % P == t;
  }

  /** Pooled value t is the maximum of block (t / P, t % P). */
  lemma PooledAt(l1: Matrix, w: nat, P: nat, t: int)
    requires w > 0 && 0 <= t < P * P
    ensures 0 <= t / P < P && 0 <= t % P < P
    ensures t < |Pooled(l1, w, P)|
    ensures Pooled(l1, w, P)[t] == SeqMax(Block(l1, w, t / P, t % P))
  {
    RowMajorSplit(t, P, P);
    FlattenAt(PooledGrid(l1, w, P), P, P, t / P, t % P);
    assert t / P * P + t % P == t;
  }

  // ---------------------------------------------------------------------------
  // What the argmax cells are

  /** Entry (a, b) of block (i, j). */
  function BlockEntry(l1: Matrix, w: nat, i: int, j: int, a: int, b: int): real
  {
    At(l1, i * w + a, j * w + b)
  }

  /** cell is the first maximum, in row-major order, of block (i, j) of l1,
      and v is that maximum. */
  ghost predicate IsFirstBlockMax(l1: Matrix, w: nat, i: int, j: int, cell: Cell, v: real)
  {
    var a0, b0 := cell.row - i * w, cell.col - j * w;
    && 0 <= a0 < w && 0 <= b0 < w
    && At(l1, cell.row, cell.col) == v
    && (forall a, b :: 0 <= a < w && 0 <= b < w ==> BlockEntry(l1, w, i, j, a, b) <= v)
    && (forall a, b :: 0 <= a < w && 0 <= b < w && (a < a0 || (a == a0 && b < b0)) ==>
          BlockEntry(l1, w, i, j, a, b) < v)
  }

  /** Element a*w + b of a block is entry (a, b) of the block. */
  lemma BlockAt(l1: Matrix, w: nat, i: int, j: int, a: int, b: int)
    requires w > 0 && 0 <= a < w && 0 <= b < w
    ensures 0 <= a * w + b < w * w
    ensures Block(l1, w, i, j)[a * w + b] == BlockEntry(l1, w, i, j, a, b)
  {
    RowMajorBounds(a, b, w, w);
    RowMajorDivMod(a, b, w);
  }

  /** Row-major order on a w x w block is lexicographic order on (row, col). */
  lemma LexBeforeIsEarlier(a: int, b: int, k: int, w: nat)
    requires w > 0 && 0 <= a < w && 0 <= b < w && 0 <= k
    requires a < k / w || (a == k / w && b < k % w)
    ensures a * w + b < k
  {
    var q, r := k / w, k % w;
    assert k == q * w + r;
    if a < q {
      MulSucc(a, w);
      MulLe(a + 1, q, w);
    }
  }

  /** Unravelling the first argmax k of a block by w gives its first maximum. */
  lemma UnravelledArgMaxIsFirstMax(l1: Matrix, w: nat, i: int, j: int)
    requires w > 0
    ensures var k := ArgMax(Block(l1, w, i, j));
      IsFirstBlockMax(l1, w, i, j, Cell(k / w + i * w, k % w + j * w), SeqMax(Block(l1, w, i, j)))
  {
    var blk := Block(l1, w, i, j);
    var k := ArgMax(blk);
    var m := SeqMax(blk);
    RowMajorSplit(k, w, w);
    var ka, kb := k / w, k % w;
    BlockAt(l1, w, i, j, ka, kb);
    assert ka * w + kb == k;
    forall a, b | 0 <= a < w && 0 <= b < w
      ensures BlockEntry(l1, w, i, j, a, b) <= m
      ensures (a < ka || (a == ka && b < kb)) ==> BlockEntry(l1, w, i, j, a, b) < m
    {
      BlockAt(l1, w, i, j, a, b);
      if a < ka || (a == ka && b < kb) {
        LexBeforeIsEarlier(a, b, k, w);
      }
    }
  }

  /** Every argmax cell is the first maximum of its own block and holds the
      pooled value of that block. */
  lemma MaxCellsLocateBlockMaxima(l1: Matrix, n: nat, w: nat, P: nat)
    requires w > 0 && P * w == n
    ensures |Pooled(l1, w, P)| == |MaxCells(l1, n, w, P)| == P * P
    ensures forall t :: 0 <= t < P * P ==>
      IsFirstBlockMax(l1, w, t / P, t % P, MaxCells(l1, n, w, P)[t], Pooled(l1, w, P)[t])
  {
    FlattenLength(PooledGrid(l1, w, P), P, P);
    forall t | 0 <= t < P * P
      ensures IsFirstBlockMax(l1, w, t / P, t % P, MaxCells(l1, n, w, P)[t], Pooled(l1, w, P)[t])
    {
      MaxCellAt(l1, n, w, P, w, t);
      PooledAt(l1, w, P, t);
      UnravelledArgMaxIsFirstMax(l1, w, t / P, t % P);
    }
  }

  /** Different blocks along one axis cover disjoint index ranges. */
  lemma DisjointBlocks(i: int, i': int, w: nat, x: int, y: int)
    requires w > 0 && i != i'
    requires i * w <= x < i * w + w && i' * w <= y < i' * w + w
    ensures x != y
  {
    if i < i' {
      MulSucc(i, w);
      MulLe(i + 1, i', w);
    } else {
      MulSucc(i', w);
      MulLe(i' + 1, i, w);
    }
  }

  /** The argmax cells lie inside the map and no two coincide, one per block,
      so scattering gradients to them never overwrites one with another. */
  lemma MaxCellsDistinctInBounds(l1: Matrix, n: nat, w: nat, P: nat)
    requires w > 0 && P * w == n
    ensures CellsIn(MaxCells(l1, n, w, P), n, n)
    ensures Distinct(MaxCells(l1, n, w, P))
  {
    var cells := MaxCells(l1, n, w, P);
    MaxCellsLocateBlockMaxima(l1, n, w, P);
    forall t | 0 <= t < P * P
      ensures 0 <= cells[t].row < n && 0 <= cells[t].col < n
    {
      RowMajorSplit(t, P, P);
      assert IsFirstBlockMax(l1, w, t / P, t % P, cells[t], Pooled(l1, w, P)[t]);
      RowMajorBounds(t / P, cells[t].row - t / P * w, P, w);
      RowMajorBounds(t % P, cells[t].col - t % P * w, P, w);
    }
    forall s, t | 0 <= s < t < |cells|
      ensures cells[s] != cells[t]
    {
      RowMajorSplit(s, P, P);
      RowMajorSplit(t, P, P);
      assert IsFirstBlockMax(l1, w, s / P, s % P, cells[s], Pooled(l1, w, P)[s]);
      assert IsFirstBlockMax(l1, w, t / P, t % P, cells[t], Pooled(l1, w, P)[t]);
      if s / P != t / P {
        DisjointBlocks(s / P, t / P, w, cells[s].row, cells[t].row);
      } else {
        assert s % P != t % P;
        DisjointBlocks(s % P, t % P, w, cells[s].col, cells[t].col);
      }
    }
  }

  /** With w = 1 every block is a single entry, so pooling is the ravel of l1. */
  lemma WindowOnePooledIsRavel(l1: Matrix, n: nat)
    requires IsMatrix(l1, n, n)
    ensures Pooled(l1, 1, n) == Flatten(l1)
  {
    var g := PooledGrid(l1, 1, n);
    forall i | 0 <= i < n
      ensures g[i] == l1[i]
    {
      forall j | 0 <= j < n
        ensures g[i][j] == l1[i][j]
      {
        var blk := Block(l1, 1, i, j);
        assert blk[0] == At(l1, i, j);
      }
    }
    assert g == l1;
  }

  /** With w = 1 the argmax cell of pooled index t is (t / n, t % n). */
  lemma WindowOneCellAt(l1: Matrix, n: nat, t: int)
    requires 0 <= t < n * n
    ensures MaxCells(l1, n, 1, n)[t] == Cell(t / n, t % n)
  {
    MaxCellAt(l1, n, 1, n, 1, t);
    var k := ArgMax(Block(l1, 1, t / n, t % n));
    assert k == 0;
  }

  /** With w = 1 the argmax cells visit every cell once, in row-major order. */
  lemma WindowOneCellsAreRowMajor(l1: Matrix, n: nat)
    ensures |MaxCells(l1, n, 1, n)| == n * n
    ensures forall t :: 0 <= t < n * n ==> MaxCells(l1, n, 1, n)[t] == Cell(t / n, t % n)
  {
    forall t | 0 <= t < n * n
      ensures MaxCells(l1, n, 1, n)[t] == Cell(t / n, t % n)
    {
      WindowOneCellAt(l1, n, t);
    }
  }

  /** For windows of size 1 and 2 the hard-coded divisor 2 unravels exactly
      like the window size, so the argmax cells as written are the intended ones. */
  lemma AsWrittenAgreesForSmallWindows(l1: Matrix, n: nat, w: nat, P: nat)
    requires (w == 1 || w == 2) && P * w == n
    ensures MaxCellsAsWritten(l1, n, w, P) == MaxCells(l1, n, w, P)
  {
    var asWritten, intended := MaxCellsAsWritten(l1, n, w, P), MaxCells(l1, n, w, P);
    forall t | 0 <= t < P * P
      ensures asWritten[t] == intended[t]
    {
      MaxCellAt(l1, n, w, P, 2, t);
      MaxCellAt(l1, n, w, P, w, t);
      var k := ArgMax(Block(l1, w, t / P, t % P));
      if w == 1 {
        assert k == 0;
      }
      assert k / 2 == k / w && k % 2 == k % w;
    }
  }

  /** With a 3 x 3 window the hard-coded divisor 2 misplaces the maximum: in
      this 3 x 3 map the only block's maximum 1.0 sits at block index 2, i.e.
      (0, 2), but 2 // 2, 2 % 2 points at (1, 0), which holds 0.0. */
  lemma AsWrittenMissesMaxForWindowThree()
    ensures var l1 := [[0.0, 0.0, 1.0], [0.0, 0.0, 0.0], [0.0, 0.0, 0.0]];
      && Pooled(l1, 3, 1) == [1.0]
      && MaxCells(l1, 3, 3, 1) == [Cell(0, 2)]
      && MaxCellsAsWritten(l1, 3, 3, 1) == [Cell(1, 0)]
      && l1[1][0] != Pooled(l1, 3, 1)[0]
  {
    var l1 := [[0.0, 0.0, 1.0], [0.0, 0.0, 0.0], [0.0, 0.0, 0.0]];
    var blk := Block(l1, 3, 0, 0);
    assert blk == [0.0, 0.0, 1.0, 0.0, 0.0, 0.0, 0.0, 0.0, 0.0];
    var m := SeqMax(blk);
    assert m >= blk[2];
    assert m == 1.0;
    var k := ArgMax(blk);
    assert k == 2;
    assert PooledGrid(l1, 3, 1)[0][0] == m;
    assert PooledGrid(l1, 3, 1)[0] == [m];
    assert PooledGrid(l1, 3, 1) == [[m]];
    assert Pooled(l1, 3, 1) == [m];
    MaxCellAt(l1, 3, 3, 1, 3, 0);
    MaxCellAt(l1, 3, 3, 1, 2, 0);
  }

  /** With a 3 x 3 window and the maximum in the bottom row, the hard-coded
      unravel of lines 137-138 points below the map, so the scatter of
      line 159 would index outside dl1. */
  lemma AsWrittenLeavesMapForWindowThree()
    ensures var l1 := [[0.0, 0.0, 0.0], [0.0, 0.0, 0.0], [1.0, 0.0, 0.0]];
      && MaxCells(l1, 3, 3, 1) == [Cell(2, 0)]
      && MaxCellsAsWritten(l1, 3, 3, 1) == [Cell(3, 0)]
      && !CellsIn(MaxCellsAsWritten(l1, 3, 3, 1), 3, 3)
  {
    var l1 := [[0.0, 0.0, 0.0], [0.0, 0.0, 0.0], [1.0, 0.0, 0.0]];
    var blk := Block(l1, 3, 0, 0);
    assert blk == [0.0, 0.0, 0.0, 0.0, 0.0, 0.0, 1.0, 0.0, 0.0];
    var k := ArgMax(blk);
    assert blk[k] >= blk[6];
    assert k == 6;
    MaxCellAt(l1, 3, 3, 1, 3, 0);
    MaxCellAt(l1, 3, 3, 1, 2, 0);
  }


  // ---------------------------------------------------------------------------
  // block_reduce(l1, (w, w), np.max), line 46

  /** The largest of f(0), ..., f(n-1). */
  function MaxOver(n: nat, f: int -> real): (m: real)
    requires n > 0
    ensures forall i :: 0 <= i < n ==> f(i) <= m
    ensures exists i :: 0 <= i < n && f(i) == m
  {
    if n == 1 then f(0)
    else
      var m := MaxOver(n - 1, f);
      if f(n - 1) > m then f(n - 1) else m
  }

  /** Row a of block (i, j), as a function of the column. */
  function BlockRow(l1: Matrix, w: nat, i: int, j: int, a: int): int -> real
  {
    b => BlockEntry(l1, w, i, j, a, b)
  }

  /** The row maxima of block (i, j), as a function of the row. */
  function BlockRowMaxima(l1: Matrix, w: nat, i: int, j: int): int -> real
    requires w > 0
  {
    a => MaxOver(w, BlockRow(l1, w, i, j, a))
  }

  /** block_reduce(l1, (w, w), np.max) when w divides the side: the P x P grid
      of block maxima, each block reduced over its rows and columns. */
  function BlockReduceMax(l1: Matrix, w: nat, P: nat): (g: Matrix)
    requires w > 0
    ensures IsMatrix(g, P, P)
  {
    seq(P, i => seq(P, j => MaxOver(w, BlockRowMaxima(l1, w, i, j))))
  }

  /** The two-dimensional block reduction and the maximum of the raveled
      block agree: both are the largest entry of the block. */
  lemma BlockReduceIsSeqMax(l1: Matrix, w: nat, i: int, j: int)
    requires w > 0
    ensures MaxOver(w, BlockRowMaxima(l1, w, i, j)) == SeqMax(Block(l1, w, i, j))
  {
    RowMaximaBelowSeqMax(l1, w, i, j);
    SeqMaxBelowRowMaxima(l1, w, i, j);
  }

  /** The block reduction is an entry of the raveled block, so at most its maximum. */
  lemma RowMaximaBelowSeqMax(l1: Matrix, w: nat, i: int, j: int)
    requires w > 0
    ensures MaxOver(w, BlockRowMaxima(l1, w, i, j)) <= SeqMax(Block(l1, w, i, j))
  {
    var v := MaxOver(w, BlockRowMaxima(l1, w, i, j));
    var a :| 0 <= a < w && BlockRowMaxima(l1, w, i, j)(a) == v;
    var b :| 0 <= b < w && BlockRow(l1, w, i, j, a)(b) == v;
    BlockAt(l1, w, i, j, a, b);
  }

  /** The maximum of the raveled block is an entry of some row, so at most
      that row's maximum. */
  lemma SeqMaxBelowRowMaxima(l1: Matrix, w: nat, i: int, j: int)
    requires w > 0
    ensures SeqMax(Block(l1, w, i, j)) <= MaxOver(w, BlockRowMaxima(l1, w, i, j))
  {
    var blk := Block(l1, w, i, j);
    var k :| 0 <= k < |blk| && blk[k] == SeqMax(blk);
    BlockEntryBelowRowMaxima(l1, w, i, j, k);
  }

  /** Entry k of the raveled block lies in row k / w, so it is at most that
      row's maximum. */
  lemma BlockEntryBelowRowMaxima(l1: Matrix, w: nat, i: int, j: int, k: int)
    requires w > 0 && 0 <= k < w * w
    ensures Block(l1, w, i, j)[k] <= MaxOver(w, BlockRowMaxima(l1, w, i, j))
  {
    var a, b := k / w, k % w;
    assert 0 <= a < w && 0 <= b < w && a * w + b == k by {
      RowMajorSplit(k, w, w);
    }
    assert Block(l1, w, i, j)[k] == BlockRow(l1, w, i, j, a)(b) by {
      BlockAt(l1, w, i, j, a, b);
    }
    var rowMax := BlockRowMaxima(l1, w, i, j);
    assert BlockRow(l1, w, i, j, a)(b) <= rowMax(a);
    assert rowMax(a) <= MaxOver(w, rowMax);
  }



  /** The pooled vector the evaluation pass computes with block_reduce is the
      one the training step computes from the block view. */
  lemma BlockReduceMatchesPooled(l1: Matrix, w: nat, P: nat)
    requires w > 0
    ensures Flatten(BlockReduceMax(l1, w, P)) == Pooled(l1, w, P)
  {
    var g, h := BlockReduceMax(l1, w, P), PooledGrid(l1, w, P);
    forall i | 0 <= i < P
      ensures g[i] == h[i]
    {
      forall j | 0 <= j < P
        ensures g[i][j] == h[i][j]
      {
        BlockReduceIsSeqMax(l1, w, i, j);
      }
    }
    assert g == h;
  }
}
