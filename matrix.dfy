/**
 * The dense row-major matrix of src/matrix.rs.
 *
 * A matrix owns a flat sequence `data`; logical cell (row, col) lives at
 * flat index `col + row * cols`. Every matrix the constructors build keeps
 * the shape invariant `|data| == rows * cols` (`Valid`). Because a Rust
 * `Matrix` is an owned value that never shares its storage, the in-place
 * writes `set` and `get_mut` are modelled as functions that return the
 * updated value.
 */
module Matrices {
  import opened Wrappers

  datatype Matrix = Matrix(data: seq<real>, rows: nat, cols: nat)
  {
    /** The shape invariant: exactly one storage slot per cell. */
    predicate Valid() { |data| == rows * cols }
  }

  /** A value source handed to `FromIter`: a finite list or an endless generator. */
  datatype Source = Finite(items: seq<real>) | Endless(at: nat -> real)

  /** The source can supply at least `n` values. */
  predicate Yields(src: Source, n: nat) { src.Endless? || n <= |src.items| }

  /** The `k`-th value the source produces. */
  function Item(src: Source, k: nat): real
    requires src.Endless? || k < |src.items|
  {
    if src.Finite? then src.items[k] else src.at(k)
  }

  /** Up to `n` values, in the order the source produces them. */
  function Take(src: Source, n: nat): (r: seq<real>)
    ensures |r| == if Yields(src, n) then n else |src.items|
    ensures forall k :: 0 <= k < |r| ==> r[k] == Item(src, k)
  {
    match src
    case Finite(items) => if n <= |items| then items[..n] else items
    case Endless(at) => seq(n, k requires 0 <= k < n => at(k))
  }

  /** The endless stream of zeros behind `Matrix::new`. */
  const Zeros: Source := Endless((k: nat) => 0.0)

  /** Cell (row, col) of a `rows` x `cols` matrix has a flat index inside the storage. */
  lemma CellInBounds(rows: nat, cols: nat, row: nat, col: nat)
    requires row < rows && col < cols
    ensures col + row * cols < rows * cols
  {
    RowInBounds(rows, cols, row);
  }

  /** Row `row` of a `rows` x `cols` matrix occupies a slice inside the storage. */
  lemma RowInBounds(rows: nat, cols: nat, row: nat)
    requires row < rows
    ensures row * cols + cols == (row + 1) * cols
    ensures (row + 1) * cols <= rows * cols
  {
    var rest: nat := rows - (row + 1);
    calc {
      rows * cols;
    ==
      ((row + 1) + rest) * cols;
    ==  // distributivity
      (row + 1) * cols + rest * cols;
    >=  { assert rest * cols >= 0; }
      (row + 1) * cols;
    }
  }

  /** A valid matrix has no storage exactly when it has no rows or no columns. */
  lemma NoCells(m: Matrix)
    requires m.Valid()
    ensures |m.data| == 0 <==> m.rows == 0 || m.cols == 0
  {
    if m.rows > 0 && m.cols > 0 {
      RowInBounds(m.rows, m.cols, 0);
    }
  }

  /**
   * `Matrix::from_iter`: keeps the first `rows * cols` values of the source,
   * in order; the length assertion fails (None) when the source runs dry.
   */
  function FromIter(rows: nat, cols: nat, src: Source): (r: Option<Matrix>)
    ensures r.Some? <==> Yields(src, rows * cols)
    ensures r.Some? ==> r.value.Valid() && r.value.rows == rows && r.value.cols == cols
    ensures r.Some? ==> forall k :: 0 <= k < rows * cols ==> r.value.data[k] == Item(src, k)
  {
    var data := Take(src, rows * cols);
    if |data| == rows * cols then Some(Matrix(data, rows, cols)) else None
  }

  /** `Matrix::new`: a `rows` x `cols` matrix of zeros. */
  function New(rows: nat, cols: nat): (r: Matrix)
    ensures r.Valid() && r.rows == rows && r.cols == cols
    ensures forall k :: 0 <= k < |r.data| ==> r.data[k] == 0.0
  {
    FromIter(rows, cols, Zeros).value
  }

  /** Where `get`, `get_mut` and `set` look for cell (row, col). */
  function FlatIndex(m: Matrix, row: nat, col: nat): nat { col + row * m.cols }

  /**
   * `Matrix::get`: present exactly when the flat index lies inside the
   * storage. Only the flat index is checked, not each coordinate.
   */
  function Get(m: Matrix, row: nat, col: nat): (r: Option<real>)
    ensures r.Some? <==> FlatIndex(m, row, col) < |m.data|
    ensures r.Some? ==> r.value == m.data[FlatIndex(m, row, col)]
  {
    var k := col + row * m.cols;
    if k < |m.data| then Some(m.data[k]) else None
  }

  /** Every cell inside the shape of a valid matrix can be read. */
  lemma GetInShape(m: Matrix, row: nat, col: nat)
    requires m.Valid() && row < m.rows && col < m.cols
    ensures Get(m, row, col).Some?
  {
    CellInBounds(m.rows, m.cols, row, col);
  }

  /**
   * Because only the flat index is checked, a column past the end of a row
   * reads the next row: `get(row, col + cols) == get(row + 1, col)`.
   */
  lemma GetWrapsToNextRow(m: Matrix, row: nat, col: nat)
    ensures Get(m, row, col + m.cols) == Get(m, row + 1, col)
  {
    RowStep(m, row, col);
  }

  /** Stepping one whole row forward in the flat storage lands in the next row. */
  lemma RowStep(m: Matrix, row: nat, col: nat)
    ensures FlatIndex(m, row, col + m.cols) == FlatIndex(m, row + 1, col)
  {
    assert (row + 1) * m.cols == row * m.cols + m.cols;
  }

  /**
   * `Matrix::get_mut`: the storage slot a mutable reference would point at,
   * under the same rule as `Get`.
   */
  function GetMut(m: Matrix, row: nat, col: nat): (r: Option<nat>)
    ensures r.Some? <==> Get(m, row, col).Some?
    ensures r.Some? ==> r.value == FlatIndex(m, row, col) && Get(m, row, col) == Some(m.data[r.value])
  {
    var k := col + row * m.cols;
    if k < |m.data| then Some(k) else None
  }

  /** A write through a slot obtained from `GetMut`. */
  function Store(m: Matrix, k: nat, v: real): (r: Matrix)
    requires k < |m.data|
    ensures r.rows == m.rows && r.cols == m.cols && |r.data| == |m.data|
    ensures r.data[k] == v
    ensures forall j :: 0 <= j < |m.data| && j != k ==> r.data[j] == m.data[j]
  {
    m.(data := m.data[k := v])
  }

  /**
   * `Matrix::set`: writes `v` at the flat index and returns the previous
   * value; indexing outside the storage panics, hence the precondition.
   */
  function Set(m: Matrix, row: nat, col: nat, v: real): (r: (Matrix, Option<real>))
    requires FlatIndex(m, row, col) < |m.data|
    ensures r.1.Some? && r.1 == Get(m, row, col)
    ensures r.0.rows == m.rows && r.0.cols == m.cols && |r.0.data| == |m.data|
    ensures Get(r.0, row, col) == Some(v)
    ensures forall k :: 0 <= k < |m.data| && k != FlatIndex(m, row, col) ==> r.0.data[k] == m.data[k]
  {
    var k := col + row * m.cols;
    (Matrix(m.data[k := v], m.rows, m.cols), Some(m.data[k]))
  }

  /** Writing back the value `set` returned restores the matrix exactly. */
  lemma SetThenRestore(m: Matrix, row: nat, col: nat, v: real)
    requires FlatIndex(m, row, col) < |m.data|
    ensures Set(Set(m, row, col, v).0, row, col, Set(m, row, col, v).1.value).0 == m
  {
    var k := FlatIndex(m, row, col);
    assert m.data[k := v][k := m.data[k]] == m.data;
  }

  /** Writing a cell's old value back over a `Store` to it restores the matrix exactly. */
  lemma StoreThenRestore(m: Matrix, row: nat, col: nat, v: real)
    requires FlatIndex(m, row, col) < |m.data|
    ensures Set(Store(m, FlatIndex(m, row, col), v), row, col, m.data[FlatIndex(m, row, col)]).0 == m
  {
    var k := FlatIndex(m, row, col);
    assert m.data[k := v][k := m.data[k]] == m.data;
  }

  /**
   * `Matrix::get_row`: absent exactly when the row is past the last one;
   * otherwise the row's cells, left to right.
   */
  function GetRow(m: Matrix, row: nat): (r: Option<seq<real>>)
    requires m.Valid()
    ensures r.None? <==> row >= m.rows
    ensures r.Some? ==> |r.value| == m.cols
    ensures r.Some? ==> forall j :: 0 <= j < m.cols ==> Get(m, row, j) == Some(r.value[j])
  {
    if row < m.rows then
      RowInBounds(m.rows, m.cols, row);
      var start := row * m.cols;
      Some(m.data[start .. start + m.cols])
    else
      None
  }

  /** The first `n` cells of column `col`, read top to bottom with `get(..).unwrap()`. */
  function ColumnPrefix(m: Matrix, col: nat, n: nat): (r: seq<real>)
    requires m.Valid() && col < m.cols && n <= m.rows
    ensures |r| == n
    ensures forall k :: 0 <= k < n ==> Get(m, k, col) == Some(r[k])
  {
    if n == 0 then []
    else
      CellInBounds(m.rows, m.cols, n - 1, col);
      ColumnPrefix(m, col, n - 1) + [Get(m, n - 1, col).value]
  }

  /**
   * `Matrix::get_col`: absent exactly when the column is past the last one;
   * otherwise `rows` cells, the k-th at flat index `col + k * cols`.
   */
  function GetCol(m: Matrix, col: nat): (r: Option<seq<real>>)
    requires m.Valid()
    ensures r.None? <==> col >= m.cols
    ensures r.Some? ==> |r.value| == m.rows
    ensures r.Some? ==> forall k :: 0 <= k < m.rows ==> r.value[k] == m.data[col + k * m.cols]
  {
    if col < m.cols then Some(ColumnPrefix(m, col, m.rows)) else None
  }

  /** `Matrix::get_row_matrix`: a fresh `1 x cols` copy of one row. */
  function GetRowMatrix(m: Matrix, row: nat): (r: Option<Matrix>)
    requires m.Valid()
    ensures r.None? <==> row >= m.rows
    ensures r.Some? ==> r.value.Valid() && r.value.rows == 1 && r.value.cols == m.cols
    ensures r.Some? ==> forall j :: 0 <= j < m.cols ==> Get(r.value, 0, j) == Get(m, row, j)
  {
    match GetRow(m, row)
    case None => None
    case Some(cells) => Some(Matrix(cells, 1, m.cols))
  }

  /** `Matrix::get_col_matrix`: a fresh `rows x 1` copy of one column. */
  function GetColMatrix(m: Matrix, col: nat): (r: Option<Matrix>)
    requires m.Valid()
    ensures r.None? <==> col >= m.cols
    ensures r.Some? ==> r.value.Valid() && r.value.rows == m.rows && r.value.cols == 1
    ensures r.Some? ==> forall k :: 0 <= k < m.rows ==> Get(r.value, k, 0) == Get(m, k, col)
  {
    match GetCol(m, col)
    case None => None
    case Some(cells) =>
      forall k | 0 <= k < m.rows ensures Get(m, k, col) == Some(cells[k]) {
        CellInBounds(m.rows, m.cols, k, col);
      }
      Some(Matrix(cells, m.rows, 1))
  }

  /**
   * `Matrix::sigmoid`: the activation applied cell by cell, keeping the
   * receiver's shape. The numerics of the logistic function are the
   * parameter `sigma`.
   */
  function Sigmoid(m: Matrix, sigma: real -> real): (r: Matrix)
    requires m.Valid()
    ensures r.Valid() && r.rows == m.rows && r.cols == m.cols
    ensures forall k :: 0 <= k < |m.data| ==> r.data[k] == sigma(m.data[k])
  {
    Matrix(seq(|m.data|, k requires 0 <= k < |m.data| => sigma(m.data[k])), m.rows, m.cols)
  }
}
