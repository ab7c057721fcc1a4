/** Dense real tensors as the training scripts use them: images, feature maps
    and kernels are row-major matrices, weight vectors are sequences. The
    numpy operations the scripts rely on (ravel, reshape, dot, fancy-index
    assignment, in-place axpy) are given here by their index definitions. */
module Tensor {
  import opened Sums

  type Vector = seq<real>
  type Matrix = seq<seq<real>>

  /** The Python exceptions the modelled code can raise. */
  datatype Fault =
    | BroadcastError    // numpy ValueError: array shapes do not match
    | ReshapeError      // numpy ValueError: cannot reshape array of size s into shape (r, c)
    | ZeroDivision      // Python ZeroDivisionError
    | AssertionFailed   // a failed Python assert statement

  datatype Result<T> = Ok(value: T) | Err(fault: Fault)

  predicate IsMatrix<T>(m: seq<seq<T>>, rows: int, cols: int)
  {
    |m| == rows && forall i :: 0 <= i < |m| ==> |m[i]| == cols
  }

  /** Entry (i, j), or zero outside the matrix: the implicit zero extension. */
  function At(m: Matrix, i: int, j: int): real
  {
    if 0 <= i < |m| && 0 <= j < |m[i]| then m[i][j] else 0.0
  }

  /** Entry i, or zero outside the vector. */
  function VAt(v: Vector, i: int): real
  {
    if 0 <= i < |v| then v[i] else 0.0
  }

  /** np.zeros((rows, cols)) */
  function Zeros(rows: nat, cols: nat): (z: Matrix)
    ensures IsMatrix(z, rows, cols)
    ensures AllZero(z)
  {
    seq(rows, i => seq(cols, j => 0.0))
  }

  predicate AllZero(m: Matrix)
  {
    forall i, j :: 0 <= i < |m| && 0 <= j < |m[i]| ==> m[i][j] == 0.0
  }

  // ---------------------------------------------------------------------------
  // Row-major index arithmetic

  lemma MulLe(a: int, b: int, c: int)
    requires a <= b && 0 <= c
    ensures a * c <= b * c
  {
    var d := b - a;
    assert b * c == a * c + d * c;
  }

  lemma MulSucc(a: int, b: int)
    ensures (a + 1) * b == a * b + b
  {
  }

  lemma RowMajorBounds(r: int, c: int, rows: int, cols: int)
    requires 0 <= r < rows && 0 <= c < cols
    ensures 0 <= r * cols + c < rows * cols
  {
    MulLe(r + 1, rows, cols);
    MulLe(0, r, cols);
    MulSucc(r, cols);
  }

  /** Euclidean division has one quotient and one remainder. */
  lemma DivModUnique(k: int, cols: int, q: int, s: int)
    requires 0 < cols && 0 <= s < cols && k == q * cols + s
    ensures k / cols == q && k % cols == s
  {
    var q', s' := k / cols, k % cols;
    assert k == q' * cols + s';
    if q' < q {
      MulSucc(q', cols);
      MulLe(q' + 1, q, cols);
    } else if q' > q {
      MulSucc(q, cols);
      MulLe(q + 1, q', cols);
    }
  }

  lemma RowMajorDivMod(r: int, c: int, cols: int)
    requires 0 <= r && 0 <= c < cols
    ensures (r * cols + c) / cols == r
    ensures (r * cols + c) % cols == c
  {
    DivModUnique(r * cols + c, cols, r, c);
  }

  /** Splitting a row-major index back into (row, col). */
  lemma RowMajorSplit(k: int, rows: int, cols: int)
    requires 0 < cols && 0 <= k < rows * cols
    ensures 0 <= k / cols < rows && 0 <= k % cols < cols
    ensures k == (k / cols) * cols + k % cols
  {
    if k / cols >= rows {
      MulLe(rows, k / cols, cols);
    }
  }

  // ---------------------------------------------------------------------------
  // ravel and reshape

  /** m.ravel(): the rows concatenated in order. */
  function Flatten<T>(m: seq<seq<T>>): seq<T>
  {
    if |m| == 0 then [] else m[0] + Flatten(m[1..])
  }

  lemma {:induction false} FlattenLength<T>(m: seq<seq<T>>, rows: nat, cols: nat)
    requires IsMatrix(m, rows, cols)
    ensures |Flatten(m)| == rows * cols
    decreases rows
  {
    if rows > 0 {
      FlattenLength(m[1..], rows - 1, cols);
      MulSucc(rows - 1, cols);
    }
  }

  /** Entry (r, c) of a matrix sits at index r*cols + c of its ravel. */
  lemma {:induction false} FlattenAt<T>(m: seq<seq<T>>, rows: nat, cols: nat, r: int, c: int)
    requires IsMatrix(m, rows, cols)
    requires 0 <= r < rows && 0 <= c < cols
    ensures r * cols + c < |Flatten(m)|
    ensures Flatten(m)[r * cols + c] == m[r][c]
    decreases r
  {
    FlattenLength(m, rows, cols);
    RowMajorBounds(r, c, rows, cols);
    assert Flatten(m) == m[0] + Flatten(m[1..]);
    if r > 0 {
      FlattenAt(m[1..], rows - 1, cols, r - 1, c);
      MulSucc(r - 1, cols);
    }
  }

  /** v.reshape(rows, cols): row r is the slice v[r*cols .. (r+1)*cols]. */
  function Reshape(v: Vector, rows: nat, cols: nat): (res: Result<Matrix>)
    ensures res.Ok? <==> |v| == rows * cols
    ensures res.Ok? ==> IsMatrix(res.value, rows, cols)
  {
    if |v| != rows * cols then Err(ReshapeError)
    else Ok(seq(rows, r => seq(cols, c => VAt(v, r * cols + c))))
  }

  /** Reshape places v[r*cols + c] at (r, c). */
  lemma ReshapeAt(v: Vector, rows: nat, cols: nat, r: int, c: int)
    requires |v| == rows * cols
    requires 0 <= r < rows && 0 <= c < cols
    ensures r * cols + c < |v|
    ensures Reshape(v, rows, cols).value[r][c] == v[r * cols + c]
  {
    RowMajorBounds(r, c, rows, cols);
  }

  /** Reshaping a raveled matrix to its own shape gives it back. */
  lemma ReshapeFlatten(m: Matrix, rows: nat, cols: nat)
    requires IsMatrix(m, rows, cols)
    ensures Reshape(Flatten(m), rows, cols) == Ok(m)
  {
    FlattenLength(m, rows, cols);
    var w := Reshape(Flatten(m), rows, cols).value;
    forall r | 0 <= r < rows
      ensures w[r] == m[r]
    {
      forall c | 0 <= c < cols
        ensures w[r][c] == m[r][c]
      {
        FlattenAt(m, rows, cols, r, c);
        ReshapeAt(Flatten(m), rows, cols, r, c);
      }
    }
    assert w == m;
  }

  /** Raveling a reshaped vector gives it back. */
  lemma FlattenReshape(v: Vector, rows: nat, cols: nat)
    requires |v| == rows * cols
    ensures Flatten(Reshape(v, rows, cols).value) == v
  {
    var w := Reshape(v, rows, cols).value;
    FlattenLength(w, rows, cols);
    forall k | 0 <= k < |v|
      ensures Flatten(w)[k] == v[k]
    {
      RowMajorSplit(k, rows, cols);
      var r, c := k / cols, k % cols;
      FlattenAt(w, rows, cols, r, c);
      ReshapeAt(v, rows, cols, r, c);
    }
  }

  // ---------------------------------------------------------------------------
  // Vector arithmetic

  /** np.dot of two vectors of equal length. */
  function Dot(u: Vector, v: Vector): real
    requires |u| == |v|
  {
    Sum(|u|, Products(u, v))
  }

  /** The termwise products of two vectors. */
  function Products(u: Vector, v: Vector): int -> real
  {
    i => VAt(u, i) * VAt(v, i)
  }

  /** k * v */
  function Scale(k: real, v: Vector): (r: Vector)
    ensures |r| == |v|
    ensures forall i :: 0 <= i < |v| ==> r[i] == k * v[i]
  {
    seq(|v|, i requires 0 <= i < |v| => k * v[i])
  }

  /** The in-place update v += -eta * d. */
  function Update(v: Vector, eta: real, d: Vector): (r: Vector)
    requires |d| == |v|
    ensures |r| == |v|
    ensures forall i :: 0 <= i < |v| ==> r[i] == v[i] - eta * d[i]
  {
    seq(|v|, i requires 0 <= i < |v| => v[i] + -eta * d[i])
  }

  /** The in-place update m += -eta * d on matrices of one shape. */
  function MatUpdate(m: Matrix, eta: real, d: Matrix, rows: nat, cols: nat): (r: Matrix)
    requires IsMatrix(m, rows, cols) && IsMatrix(d, rows, cols)
    ensures IsMatrix(r, rows, cols)
    ensures forall i, j :: 0 <= i < rows && 0 <= j < cols ==> r[i][j] == m[i][j] - eta * d[i][j]
  {
    seq(rows, i requires 0 <= i < rows => Update(m[i], eta, d[i]))
  }

  /** Dot(k * u, v) == k * Dot(u, v): the dense gradient is linear in its factor. */
  lemma DotScale(k: real, u: Vector, v: Vector)
    requires |u| == |v|
    ensures Dot(Scale(k, u), v) == k * Dot(u, v)
  {
    SumScale(|u|, Products(u, v), Products(Scale(k, u), v), k);
  }

  lemma DotSymmetric(u: Vector, v: Vector)
    requires |u| == |v|
    ensures Dot(u, v) == Dot(v, u)
  {
    SumExt(|u|, Products(u, v), Products(v, u));
  }

  lemma DotZero(u: Vector, v: Vector)
    requires |u| == |v|
    requires forall i :: 0 <= i < |v| ==> v[i] == 0.0
    ensures Dot(u, v) == 0.0
  {
    SumZero(|u|, Products(u, v));
  }

  /** The termwise products scaled by k. */
  function ScaledProducts(u: Vector, v: Vector, k: real): int -> real
  {
    i => k * Products(u, v)(i)
  }

  /** One term of the update: u[i] * (v[i] - eta * d[i]) == u[i] * v[i] + -eta * (u[i] * d[i]). */
  lemma ProductsUpdateAt(u: Vector, v: Vector, eta: real, d: Vector, i: int)
    requires |u| == |v| == |d| && 0 <= i < |u|
    ensures Products(u, Update(v, eta, d))(i) == Products(u, v)(i) + ScaledProducts(u, d, -eta)(i)
  {
    var a, b, e := u[i], v[i], d[i];
    assert Products(u, Update(v, eta, d))(i) == a * (b - eta * e);
    assert Products(u, d)(i) == a * e;
    assert ScaledProducts(u, d, -eta)(i) == -eta * (a * e);
    assert a * (b - eta * e) == a * b + -eta * (a * e);
  }

  lemma ProductsUpdate(u: Vector, v: Vector, eta: real, d: Vector)
    requires |u| == |v| == |d|
    ensures forall i :: 0 <= i < |u| ==>
      Products(u, Update(v, eta, d))(i) == Products(u, v)(i) + ScaledProducts(u, d, -eta)(i)
    ensures forall i :: 0 <= i < |u| ==> ScaledProducts(u, d, -eta)(i) == -eta * Products(u, d)(i)
  {
    forall i | 0 <= i < |u|
      ensures Products(u, Update(v, eta, d))(i) == Products(u, v)(i) + ScaledProducts(u, d, -eta)(i)
      ensures ScaledProducts(u, d, -eta)(i) == -eta * Products(u, d)(i)
    {
      ProductsUpdateAt(u, v, eta, d, i);
    }
  }

  /** A step v += -eta * d shifts the dot product with u by -eta * Dot(u, d). */
  lemma DotUpdate(u: Vector, v: Vector, eta: real, d: Vector)
    requires |u| == |v| == |d|
    ensures Dot(u, Update(v, eta, d)) == Dot(u, v) - eta * Dot(u, d)
  {
    var g := ScaledProducts(u, d, -eta);
    ProductsUpdate(u, v, eta, d);
    SumAdd(|u|, Products(u, v), g, Products(u, Update(v, eta, d)));
    SumScale(|u|, Products(u, d), g, -eta);
    assert Sum(|u|, g) == -eta * Dot(u, d);
  }

  /** A dot product of a vector with itself is a sum of squares. */
  lemma {:induction false} DotSelfNonNegative(u: Vector)
    ensures Dot(u, u) >= 0.0
  {
    SumNonNegative(|u|, Products(u, u));
  }

  lemma {:induction false} SumNonNegative(n: int, f: int -> real)
    requires forall i :: 0 <= i < n ==> f(i) >= 0.0
    ensures Sum(n, f) >= 0.0
    decreases n
  {
    if n > 0 {
      SumNonNegative(n - 1, f);
    }
  }

  // ---------------------------------------------------------------------------
  // Fancy-index assignment m[rows, cols] = vals

  datatype Cell = Cell(row: int, col: int)

  predicate CellsIn(cells: seq<Cell>, rows: int, cols: int)
  {
    forall t :: 0 <= t < |cells| ==> 0 <= cells[t].row < rows && 0 <= cells[t].col < cols
  }

  predicate Distinct(cells: seq<Cell>)
  {
    forall s, t :: 0 <= s < t < |cells| ==> cells[s] != cells[t]
  }

  /** m[cell] = v */
  function Set(m: Matrix, cell: Cell, v: real): Matrix
    requires 0 <= cell.row < |m| && 0 <= cell.col < |m[cell.row]|
  {
    m[cell.row := m[cell.row][cell.col := v]]
  }

  /** m[rows, cols] = vals: writes vals[t] at cells[t], in order. */
  function Scatter(m: Matrix, cells: seq<Cell>, vals: Vector, rows: nat, cols: nat): (r: Matrix)
    requires IsMatrix(m, rows, cols) && CellsIn(cells, rows, cols) && |vals| == |cells|
    ensures IsMatrix(r, rows, cols)
    ensures forall i, j :: 0 <= i < rows && 0 <= j < cols && Cell(i, j) !in cells ==> r[i][j] == m[i][j]
    ensures Distinct(cells) ==> forall t :: 0 <= t < |cells| ==> r[cells[t].row][cells[t].col] == vals[t]
    decreases |cells|
  {
    if |cells| == 0 then m
    else
      var n := |cells| - 1;
      Set(Scatter(m, cells[..n], vals[..n], rows, cols), cells[n], vals[n])
  }

  /** m[rows, cols] = 0 */
  function Clear(m: Matrix, cells: seq<Cell>, rows: nat, cols: nat): (r: Matrix)
    requires IsMatrix(m, rows, cols) && CellsIn(cells, rows, cols)
    ensures IsMatrix(r, rows, cols)
  {
    Scatter(m, cells, seq(|cells|, t => 0.0), rows, cols)
  }

  /** Scattering onto a zero buffer at distinct cells, then clearing the same
      cells, leaves the buffer zero again. */
  lemma ScatterClear(m: Matrix, cells: seq<Cell>, vals: Vector, rows: nat, cols: nat)
    requires IsMatrix(m, rows, cols) && AllZero(m)
    requires CellsIn(cells, rows, cols) && Distinct(cells) && |vals| == |cells|
    ensures AllZero(Clear(Scatter(m, cells, vals, rows, cols), cells, rows, cols))
  {
    var s := Scatter(m, cells, vals, rows, cols);
    var z := Clear(s, cells, rows, cols);
    forall i, j | 0 <= i < |z| && 0 <= j < |z[i]|
      ensures z[i][j] == 0.0
    {
      if Cell(i, j) in cells {
        var t :| 0 <= t < |cells| && cells[t] == Cell(i, j);
        assert z[cells[t].row][cells[t].col] == 0.0;
      }
    }
  }

  /** Clearing distinct cells of a zero buffer leaves it zero. */
  lemma ClearZero(m: Matrix, cells: seq<Cell>, rows: nat, cols: nat)
    requires IsMatrix(m, rows, cols) && AllZero(m)
    requires CellsIn(cells, rows, cols) && Distinct(cells)
    ensures AllZero(Clear(m, cells, rows, cols))
  {
    var z := Clear(m, cells, rows, cols);
    forall i, j | 0 <= i < |z| && 0 <= j < |z[i]|
      ensures z[i][j] == 0.0
    {
      if Cell(i, j) in cells {
        var t :| 0 <= t < |cells| && cells[t] == Cell(i, j);
        assert z[cells[t].row][cells[t].col] == 0.0;
      }
    }
  }

  /** Scattering onto a zero buffer at distinct cells: cell t holds vals[t]
      and every other cell is zero. */
  lemma ScatterOntoZero(m: Matrix, cells: seq<Cell>, vals: Vector, rows: nat, cols: nat)
    requires IsMatrix(m, rows, cols) && AllZero(m)
    requires CellsIn(cells, rows, cols) && Distinct(cells) && |vals| == |cells|
    ensures var r := Scatter(m, cells, vals, rows, cols);
      && (forall t :: 0 <= t < |cells| ==> r[cells[t].row][cells[t].col] == vals[t])
      && (forall i, j :: 0 <= i < rows && 0 <= j < cols && Cell(i, j) !in cells ==> r[i][j] == 0.0)
  {
  }

  /** The same with the values k * v, as dl1[cells] = factor * W2 writes them. */
  lemma ScatterScaledOntoZero(m: Matrix, cells: seq<Cell>, k: real, v: Vector, rows: nat, cols: nat)
    requires IsMatrix(m, rows, cols) && AllZero(m)
    requires CellsIn(cells, rows, cols) && Distinct(cells) && |v| == |cells|
    ensures var r := Scatter(m, cells, Scale(k, v), rows, cols);
      && (forall t :: 0 <= t < |cells| ==> r[cells[t].row][cells[t].col] == k * v[t])
      && (forall i, j :: 0 <= i < rows && 0 <= j < cols && Cell(i, j) !in cells ==> r[i][j] == 0.0)
  {
    ScatterOntoZero(m, cells, Scale(k, v), rows, cols);
  }
}
