/**
 * The elementwise operators of src/matrix/ops.rs.
 *
 * Both the owned (`a + b`) and the by-reference (`&a + &b`) forms zip the
 * two data sequences cell by cell into a fresh matrix after asserting that
 * the shapes agree. Matrices are values here, so the two forms are the same
 * function and neither operand can change.
 */
module MatrixOps {
  import opened Matrices

  /** The length of a zip: the shorter of the two sequences. */
  function ZipLength(xs: seq<real>, ys: seq<real>): nat
  {
    if |xs| <= |ys| then |xs| else |ys|
  }

  /** `a + b` and `&a + &b`. */
  function Add(a: Matrix, b: Matrix): (r: Matrix)
    requires a.rows == b.rows && a.cols == b.cols
    ensures r.rows == a.rows && r.cols == a.cols && |r.data| == ZipLength(a.data, b.data)
    ensures a.Valid() && b.Valid() ==> r.Valid()
    ensures forall k :: 0 <= k < |r.data| ==> r.data[k] == a.data[k] + b.data[k]
  {
    var n := ZipLength(a.data, b.data);
    Matrix(seq(n, k requires 0 <= k < n => a.data[k] + b.data[k]), a.rows, a.cols)
  }

  /** `a - b` and `&a - &b`. */
  function Sub(a: Matrix, b: Matrix): (r: Matrix)
    requires a.rows == b.rows && a.cols == b.cols
    ensures r.rows == a.rows && r.cols == a.cols && |r.data| == ZipLength(a.data, b.data)
    ensures a.Valid() && b.Valid() ==> r.Valid()
    ensures forall k :: 0 <= k < |r.data| ==> r.data[k] == a.data[k] - b.data[k]
  {
    var n := ZipLength(a.data, b.data);
    Matrix(seq(n, k requires 0 <= k < n => a.data[k] - b.data[k]), a.rows, a.cols)
  }

  /** Over exact arithmetic, subtracting what was added gives back the original. */
  lemma SubUndoesAdd(a: Matrix, b: Matrix)
    requires a.Valid() && b.Valid() && a.rows == b.rows && a.cols == b.cols
    ensures Sub(Add(a, b), b) == a
  {
    var s := Add(a, b);
    assert Sub(s, b).data == a.data;
  }

  /** And adding back what was subtracted gives back the original. */
  lemma AddUndoesSub(a: Matrix, b: Matrix)
    requires a.Valid() && b.Valid() && a.rows == b.rows && a.cols == b.cols
    ensures Add(Sub(a, b), b) == a
  {
    var d := Sub(a, b);
    assert Add(d, b).data == a.data;
  }

  /** Cellwise addition does not depend on the order of the operands. */
  lemma AddCommutes(a: Matrix, b: Matrix)
    requires a.rows == b.rows && a.cols == b.cols
    ensures Add(a, b) == Add(b, a)
  {
    assert Add(a, b).data == Add(b, a).data;
  }
}
