/**
 * The two allocation-free matrix kernels the forward pass calls at
 * src/neural_network.rs:79-80: `dot_from` and `add_from`. They are not
 * defined in the `Matrix` of src/matrix.rs, so their behaviour is inferred
 * from the forward loop and from the expected values in the tests of
 * src/neural_network.rs. `dot_from` overwrites the receiver with the
 * row-by-column product, each cell summed in increasing index order;
 * `add_from` accumulates another same-shape matrix into it. The in-place
 * activation step at src/neural_network.rs:81 is `Matrices.Sigmoid`, whose
 * result the network writes back into the row.
 */
module Kernels {
  import opened Wrappers
  import opened Matrices
  import opened MatrixOps

  /**
   * The first `n` terms of the dot product of row `row` of `a` with column
   * `col` of `b`, accumulated in increasing index order.
   */
  function DotSum(a: Matrix, b: Matrix, row: nat, col: nat, n: nat): real
    requires a.Valid() && b.Valid() && a.cols == b.rows
    requires row < a.rows && col < b.cols && n <= a.cols
  {
    if n == 0 then 0.0
    else
      CellInBounds(a.rows, a.cols, row, n - 1);
      CellInBounds(b.rows, b.cols, n - 1, col);
      DotSum(a, b, row, col, n - 1) + a.data[(n - 1) + row * a.cols] * b.data[col + (n - 1) * b.cols]
  }

  /** The first `n` rows of the product, laid out row-major. */
  function ProductRows(a: Matrix, b: Matrix, n: nat): (r: seq<real>)
    requires a.Valid() && b.Valid() && a.cols == b.rows && n <= a.rows
    ensures |r| == n * b.cols
  {
    if n == 0 then []
    else ProductRows(a, b, n - 1) + seq(b.cols, col requires 0 <= col < b.cols => DotSum(a, b, n - 1, col, a.cols))
  }

  /** The matrix product `a . b`. */
  function Dot(a: Matrix, b: Matrix): (r: Matrix)
    requires a.Valid() && b.Valid() && a.cols == b.rows
    ensures r.Valid() && r.rows == a.rows && r.cols == b.cols
  {
    Matrix(ProductRows(a, b, a.rows), a.rows, b.cols)
  }

  lemma {:induction false} ProductRowsAt(a: Matrix, b: Matrix, n: nat, row: nat, col: nat)
    requires a.Valid() && b.Valid() && a.cols == b.rows && n <= a.rows
    requires row < n && col < b.cols
    ensures col + row * b.cols < |ProductRows(a, b, n)|
    ensures ProductRows(a, b, n)[col + row * b.cols] == DotSum(a, b, row, col, a.cols)
  {
    CellInBounds(n, b.cols, row, col);
    if row < n - 1 {
      CellInBounds(n - 1, b.cols, row, col);
      ProductRowsAt(a, b, n - 1, row, col);
    } else {
      assert |ProductRows(a, b, n - 1)| == row * b.cols;
    }
  }

  /** Cell (row, col) of the product is the dot product of row `row` of `a` and column `col` of `b`. */
  lemma DotCell(a: Matrix, b: Matrix, row: nat, col: nat)
    requires a.Valid() && b.Valid() && a.cols == b.rows
    requires row < a.rows && col < b.cols
    ensures Get(Dot(a, b), row, col) == Some(DotSum(a, b, row, col, a.cols))
  {
    ProductRowsAt(a, b, a.rows, row, col);
  }

  /**
   * `dot_from(a, b)`: overwrites the receiver with `a . b`. The receiver must
   * already have the product's shape, and keeps it; its old contents do not
   * matter.
   */
  function DotFrom(self: Matrix, a: Matrix, b: Matrix): (r: Matrix)
    requires a.Valid() && b.Valid()
    requires self.rows == a.rows && self.cols == b.cols && a.cols == b.rows
    ensures r.Valid() && r.rows == self.rows && r.cols == self.cols
    ensures forall row, col :: 0 <= row < r.rows && 0 <= col < r.cols ==>
      Get(r, row, col) == Some(DotSum(a, b, row, col, a.cols))
  {
    var r := Dot(a, b);
    forall row, col | 0 <= row < r.rows && 0 <= col < r.cols
      ensures Get(r, row, col) == Some(DotSum(a, b, row, col, a.cols))
    {
      DotCell(a, b, row, col);
    }
    r
  }

  /** `add_from(b)`: accumulates a same-shape `b` into the receiver, cell by cell. */
  function AddFrom(self: Matrix, b: Matrix): (r: Matrix)
    requires self.Valid() && b.Valid() && self.rows == b.rows && self.cols == b.cols
    ensures r.Valid() && r.rows == self.rows && r.cols == self.cols
    ensures forall k :: 0 <= k < |self.data| ==> r.data[k] == self.data[k] + b.data[k]
  {
    Add(self, b)
  }
}
