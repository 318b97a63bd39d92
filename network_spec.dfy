/**
 * The pure meaning of the feed-forward network of src/neural_network.rs:
 * the shape bookkeeping of its parameter tables, the layer-by-layer forward
 * pass, the mean-squared-error cost over a training set, and the one-sided
 * finite-difference slope of that cost with respect to one parameter cell.
 * The class in network.dfy is proved against these definitions.
 */
module NetworkSpec {
  import opened Wrappers
  import opened Matrices
  import opened MatrixOps
  import opened Kernels

  /** The two parameter tables of a network. */
  datatype Table = Weights | Biases

  /** Which table is meant. */
  function Pick(t: Table, weight: seq<Matrix>, bias: seq<Matrix>): seq<Matrix>
  {
    if t == Weights then weight else bias
  }

  /**
   * The shape bookkeeping: layer `i` maps a `1 x weight[i].rows` row to a
   * `1 x weight[i].cols` row, its bias is a single row of that width, and
   * consecutive layers fit together.
   */
  ghost predicate Topology(weight: seq<Matrix>, bias: seq<Matrix>)
  {
    && |weight| == |bias|
    && (forall i :: 0 <= i < |weight| ==>
          weight[i].Valid() && bias[i].Valid() && bias[i].rows == 1 && bias[i].cols == weight[i].cols)
    && (forall i {:trigger weight[i].rows} :: 1 <= i < |weight| ==> weight[i - 1].cols == weight[i].rows)
  }

  /** `x` is a single valid row the first layer can consume. */
  ghost predicate Accepts(weight: seq<Matrix>, x: Matrix)
  {
    x.Valid() && x.rows == 1 && (|weight| > 0 ==> x.cols == weight[0].rows)
  }

  /** The width of the network's output for input row `x`. */
  function OutWidth(weight: seq<Matrix>, x: Matrix): nat
  {
    if |weight| == 0 then x.cols else weight[|weight| - 1].cols
  }

  /**
   * One layer, neuron by neuron: output `col` is the activation of the
   * weighted sum of the input row along column `col` of `w`, plus bias `col`.
   */
  function Layer(a: Matrix, w: Matrix, b: Matrix, sigma: real -> real): (r: Matrix)
    requires a.Valid() && w.Valid() && b.Valid()
    requires a.rows == 1 && a.cols == w.rows && b.rows == 1 && b.cols == w.cols
    ensures r.Valid() && r.rows == 1 && r.cols == w.cols
  {
    Matrix(seq(w.cols, col requires 0 <= col < w.cols => Neuron(a, w, b, sigma, col)), 1, w.cols)
  }

  /**
   * Neuron `col` of a layer: `sigmoid` of its weighted input plus its bias,
   * that is, of cell `col` of the product `a . w` plus cell `col` of `b`.
   */
  function Neuron(a: Matrix, w: Matrix, b: Matrix, sigma: real -> real, col: nat): (r: real)
    requires a.Valid() && w.Valid() && b.Valid()
    requires a.rows == 1 && a.cols == w.rows && b.rows == 1 && b.cols == w.cols && col < w.cols
    ensures Get(Dot(a, w), 0, col).Some? && Get(b, 0, col) == Some(b.data[col])
    ensures r == sigma(Get(Dot(a, w), 0, col).value + Get(b, 0, col).value)
  {
    DotCell(a, w, 0, col);
    sigma(DotSum(a, w, 0, col, a.cols) + b.data[col])
  }

  /**
   * The in-place steps of `forward` on the receiving row `next`
   * (`dot_from`, `add_from`, `sigmoid`) compute exactly one layer.
   */
  lemma LayerInPlace(next: Matrix, a: Matrix, w: Matrix, b: Matrix, sigma: real -> real)
    requires a.Valid() && w.Valid() && b.Valid()
    requires a.rows == 1 && a.cols == w.rows && b.rows == 1 && b.cols == w.cols
    requires next.rows == 1 && next.cols == w.cols
    ensures Sigmoid(AddFrom(DotFrom(next, a, w), b), sigma) == Layer(a, w, b, sigma)
  {
    var r := Sigmoid(AddFrom(DotFrom(next, a, w), b), sigma);
    var l := Layer(a, w, b, sigma);
    forall col | 0 <= col < w.cols
      ensures r.data[col] == l.data[col]
    {
      InPlaceCell(next, a, w, b, sigma, col);
    }
    assert r.data == l.data;
  }

  /** One output cell of the in-place steps of `forward`. */
  lemma InPlaceCell(next: Matrix, a: Matrix, w: Matrix, b: Matrix, sigma: real -> real, col: nat)
    requires a.Valid() && w.Valid() && b.Valid()
    requires a.rows == 1 && a.cols == w.rows && b.rows == 1 && b.cols == w.cols
    requires next.rows == 1 && next.cols == w.cols && col < w.cols
    ensures |Sigmoid(AddFrom(DotFrom(next, a, w), b), sigma).data| == w.cols
    ensures Sigmoid(AddFrom(DotFrom(next, a, w), b), sigma).data[col] == Neuron(a, w, b, sigma, col)
  {
    var d := DotFrom(next, a, w);
    assert Get(d, 0, col) == Some(DotSum(a, w, 0, col, a.cols));
  }

  /** The activation after the first `n` layers, starting from input row `x`. */
  function Propagate(x: Matrix, weight: seq<Matrix>, bias: seq<Matrix>, sigma: real -> real, n: nat): (r: Matrix)
    requires Topology(weight, bias) && Accepts(weight, x) && n <= |weight|
    ensures r.Valid() && r.rows == 1
    ensures r.cols == if n == 0 then x.cols else weight[n - 1].cols
    decreases n
  {
    if n == 0 then x
    else Layer(Propagate(x, weight, bias, sigma, n - 1), weight[n - 1], bias[n - 1], sigma)
  }

  /** The network's output for input row `x`. */
  function Predict(x: Matrix, weight: seq<Matrix>, bias: seq<Matrix>, sigma: real -> real): (r: Matrix)
    requires Topology(weight, bias) && Accepts(weight, x)
    ensures r.Valid() && r.rows == 1 && r.cols == OutWidth(weight, x)
  {
    Propagate(x, weight, bias, sigma, |weight|)
  }

  /**
   * `acts` holds the forward pass of `x` through the tables `ws` and `bs`:
   * `acts[i]` is the activation after the first `i` layers.
   */
  ghost predicate Forwarded(acts: seq<Matrix>, x: Matrix, ws: seq<Matrix>, bs: seq<Matrix>, sigma: real -> real)
  {
    && Topology(ws, bs) && Accepts(ws, x) && |acts| == |ws| + 1
    && forall i {:trigger Propagate(x, ws, bs, sigma, i)} :: 0 <= i <= |ws| ==> acts[i] == Propagate(x, ws, bs, sigma, i)
  }

  /**
   * The activation rows fit the tables: one row more than there are layers,
   * `activation[i]` the single row layer `i` consumes and `activation[i + 1]`
   * the one it produces.
   */
  ghost predicate Wired(weight: seq<Matrix>, bias: seq<Matrix>, activation: seq<Matrix>)
  {
    && Topology(weight, bias)
    && |activation| == |weight| + 1
    && (forall i :: 0 <= i < |activation| ==> activation[i].Valid() && activation[i].rows == 1)
    && (forall i {:trigger weight[i]} :: 0 <= i < |weight| ==>
          activation[i].cols == weight[i].rows && activation[i + 1].cols == weight[i].cols)
  }

  /** Each of the first `n` layers has written its output row from its input row. */
  ghost predicate Chained(weight: seq<Matrix>, bias: seq<Matrix>, activation: seq<Matrix>, sigma: real -> real, n: nat)
    requires Wired(weight, bias, activation) && n <= |weight|
  {
    forall j {:trigger weight[j]} :: 0 <= j < n ==> activation[j + 1] == Layer(activation[j], weight[j], bias[j], sigma)
  }

  /** Rows written layer after layer are the forward pass of the first row. */
  lemma {:induction false} ChainedPropagates(weight: seq<Matrix>, bias: seq<Matrix>, activation: seq<Matrix>, sigma: real -> real, n: nat)
    requires Wired(weight, bias, activation) && n <= |weight| && Chained(weight, bias, activation, sigma, n)
    ensures Accepts(weight, activation[0])
    ensures activation[n] == Propagate(activation[0], weight, bias, sigma, n)
  {
    if n > 0 {
      ChainedPropagates(weight, bias, activation, sigma, n - 1);
      assert activation[n] == Layer(activation[n - 1], weight[n - 1], bias[n - 1], sigma);
    }
  }

  /**
   * A usable training set: as many target rows as input rows, at least one
   * row, inputs as wide as the first layer and targets as wide as the last.
   */
  ghost predicate Dataset(weight: seq<Matrix>, bias: seq<Matrix>, input: Matrix, output: Matrix)
  {
    && Topology(weight, bias)
    && input.Valid() && output.Valid()
    && input.rows == output.rows && input.rows > 0
    && (|weight| > 0 ==> input.cols == weight[0].rows)
    && output.cols == (if |weight| > 0 then weight[|weight| - 1].cols else input.cols)
  }

  /** Row `t` of a matrix as a `1 x cols` matrix: cell `j` is cell (t, j). */
  function RowOf(m: Matrix, t: nat): (r: Matrix)
    requires m.Valid() && t < m.rows
    ensures r.Valid() && r.rows == 1 && r.cols == m.cols
  {
    Matrix(seq(m.cols, j requires 0 <= j < m.cols => m.data[CellIndex(m, t, j)]), 1, m.cols)
  }

  /** The flat index of an in-shape cell, proved to lie inside the storage. */
  function CellIndex(m: Matrix, row: nat, col: nat): (k: nat)
    requires m.Valid() && row < m.rows && col < m.cols
    ensures k == FlatIndex(m, row, col) && k < |m.data|
  {
    CellInBounds(m.rows, m.cols, row, col);
    col + row * m.cols
  }

  /** `get_row_matrix(t).unwrap()` is exactly that row. */
  lemma RowOfIsRowMatrix(m: Matrix, t: nat)
    requires m.Valid() && t < m.rows
    ensures GetRowMatrix(m, t) == Some(RowOf(m, t))
  {
    var r := GetRowMatrix(m, t).value;
    forall j | 0 <= j < m.cols
      ensures r.data[j] == RowOf(m, t).data[j]
    {
      RowOfCell(m, t, j);
    }
    assert r.data == RowOf(m, t).data;
  }

  /** One cell of `RowOfIsRowMatrix`. */
  lemma RowOfCell(m: Matrix, t: nat, j: nat)
    requires m.Valid() && t < m.rows && j < m.cols
    ensures GetRowMatrix(m, t).value.data[j] == RowOf(m, t).data[j]
  {
    assert Get(GetRowMatrix(m, t).value, 0, j) == Get(m, t, j);
  }

  /**
   * Sum of the squared differences of the first `n` entries, in increasing
   * index order; a sum of squares, so never negative.
   */
  function SquaredError(ys: seq<real>, ts: seq<real>, n: nat): (r: real)
    requires n <= |ys| && n <= |ts|
    ensures r >= 0.0
  {
    if n == 0 then 0.0
    else
      SquareFacts(ys[n - 1] - ts[n - 1], 0.0);
      SquaredError(ys, ts, n - 1) + (ys[n - 1] - ts[n - 1]) * (ys[n - 1] - ts[n - 1])
  }

  /** Every one of the first `n` rows in `ys` and `ts` has at least `width` entries. */
  ghost predicate Wide(ys: seq<Matrix>, ts: seq<Matrix>, width: nat, n: nat)
  {
    n <= |ys| && n <= |ts| &&
    forall t :: 0 <= t < n ==> width <= |ys[t].data| && width <= |ts[t].data|
  }

  /** The squared errors of the first `n` rows, accumulated row after row; never negative. */
  function ErrorSum(ys: seq<Matrix>, ts: seq<Matrix>, width: nat, n: nat): (r: real)
    requires Wide(ys, ts, width, n)
    ensures r >= 0.0
  {
    if n == 0 then 0.0
    else ErrorSum(ys, ts, width, n - 1) + SquaredError(ys[n - 1].data, ts[n - 1].data, width)
  }

  /** The network's prediction for every training row, in order. */
  function Predictions(weight: seq<Matrix>, bias: seq<Matrix>, sigma: real -> real, input: Matrix, output: Matrix): (r: seq<Matrix>)
    requires Dataset(weight, bias, input, output)
    ensures |r| == input.rows
    ensures forall t :: 0 <= t < input.rows ==> r[t] == Predict(RowOf(input, t), weight, bias, sigma)
    ensures forall t :: 0 <= t < input.rows ==> |r[t].data| == output.cols
  {
    seq(input.rows, t requires 0 <= t < input.rows => Predict(RowOf(input, t), weight, bias, sigma))
  }

  /** Every target row, in order. */
  function Targets(output: Matrix): (r: seq<Matrix>)
    requires output.Valid()
    ensures |r| == output.rows
    ensures forall t :: 0 <= t < output.rows ==> r[t] == RowOf(output, t)
    ensures forall t :: 0 <= t < output.rows ==> |r[t].data| == output.cols
  {
    seq(output.rows, t requires 0 <= t < output.rows => RowOf(output, t))
  }

  /** After `n` rounds of `cost`, `sum` is the squared error of the first `n` training rows. */
  ghost predicate Tallied(weight: seq<Matrix>, bias: seq<Matrix>, sigma: real -> real, input: Matrix, output: Matrix,
                          sum: real, n: nat)
    requires Dataset(weight, bias, input, output) && n <= input.rows
  {
    var ys, ts := Predictions(weight, bias, sigma, input, output), Targets(output);
    Wide(ys, ts, output.cols, n) && sum == ErrorSum(ys, ts, output.cols, n)
  }

  /** Before the first round of `cost`, the sum is zero. */
  lemma TallyStart(weight: seq<Matrix>, bias: seq<Matrix>, sigma: real -> real, input: Matrix, output: Matrix)
    requires Dataset(weight, bias, input, output)
    ensures Tallied(weight, bias, sigma, input, output, 0.0, 0)
  {
  }

  /** One more round of `cost` adds the squared errors of the next training row. */
  lemma TallyStep(weight: seq<Matrix>, bias: seq<Matrix>, sigma: real -> real, input: Matrix, output: Matrix,
                  sum: real, n: nat, y: Matrix, t: Matrix)
    requires Dataset(weight, bias, input, output) && n < input.rows
    requires Tallied(weight, bias, sigma, input, output, sum, n)
    requires y == Predict(RowOf(input, n), weight, bias, sigma) && t == RowOf(output, n)
    ensures Tallied(weight, bias, sigma, input, output, sum + SquaredError(y.data, t.data, output.cols), n + 1)
  {
    var ys, ts := Predictions(weight, bias, sigma, input, output), Targets(output);
    assert ys[n] == y && ts[n] == t;
    assert Wide(ys, ts, output.cols, n + 1);
  }

  /** After a round for every training row, the mean of the sum is the cost. */
  lemma TallyDone(weight: seq<Matrix>, bias: seq<Matrix>, sigma: real -> real, input: Matrix, output: Matrix, sum: real)
    requires Dataset(weight, bias, input, output)
    requires Tallied(weight, bias, sigma, input, output, sum, input.rows)
    ensures sum / (input.rows as real) == CostOf(weight, bias, sigma, input, output)
  {
  }

  /**
   * The cost: the squared error summed over every training row and output
   * column, divided by the number of training rows.
   */
  function CostOf(weight: seq<Matrix>, bias: seq<Matrix>, sigma: real -> real, input: Matrix, output: Matrix): (r: real)
    requires Dataset(weight, bias, input, output)
    ensures r >= 0.0
  {
    var ys := Predictions(weight, bias, sigma, input, output);
    var ts := Targets(output);
    assert Wide(ys, ts, output.cols, input.rows);
    MeanFacts(ErrorSum(ys, ts, output.cols, input.rows), input.rows as real);
    ErrorSum(ys, ts, output.cols, input.rows) / (input.rows as real)
  }

  // PosMul and SquareFacts take the zero they compare against as a
  // parameter `z`, pinned down by `z + z == z`, instead of the literal
  // `0.0`: with the literal next to a product of two variables Z3 gives up
  // on the nonlinear goal, while the same goal over a variable closes. The
  // callers pass `0.0`.

  /** A product of two numbers above zero is above zero (`z` is zero). */
  lemma PosMul(a: real, b: real, z: real)
    requires z + z == z && a > z && b > z
    ensures a * b > z
  {
  }

  /** A square is never negative, and is positive unless its base is zero (`z` is zero). */
  lemma SquareFacts(d: real, z: real)
    requires z + z == z
    ensures d * d >= z
    ensures d != z ==> d * d > z
  {
    if d > z {
      PosMul(d, d, z);
    } else if d < z {
      PosMul(z - d, z - d, z);
      assert (z - d) * (z - d) == d * d;
    }
  }

  /** Dividing by a positive count keeps a sum non-negative, and gives zero exactly for a zero sum. */
  lemma MeanFacts(x: real, n: real)
    requires n > 0.0
    ensures x >= 0.0 ==> x / n >= 0.0
    ensures x / n == 0.0 <==> x == 0.0
  {
    assert x / n * n == x;
  }

  /** A squared error is never negative, and zero exactly when the first `n` entries agree. */
  lemma {:induction false} SquaredErrorFacts(ys: seq<real>, ts: seq<real>, n: nat)
    requires n <= |ys| && n <= |ts|
    ensures SquaredError(ys, ts, n) >= 0.0
    ensures SquaredError(ys, ts, n) == 0.0 <==> forall j :: 0 <= j < n ==> ys[j] == ts[j]
  {
    if n > 0 {
      SquaredErrorFacts(ys, ts, n - 1);
      SquareFacts(ys[n - 1] - ts[n - 1], 0.0);
    }
  }

  /** Row `t` of `ys` agrees with row `t` of `ts` on the first `width` entries, for every `t < n`. */
  ghost predicate Agree(ys: seq<Matrix>, ts: seq<Matrix>, width: nat, n: nat)
    requires Wide(ys, ts, width, n)
  {
    forall t, j :: 0 <= t < n && 0 <= j < width ==> ys[t].data[j] == ts[t].data[j]
  }

  /** A sum of squared errors is never negative. */
  lemma {:induction false} ErrorSumNonNegative(ys: seq<Matrix>, ts: seq<Matrix>, width: nat, n: nat)
    requires Wide(ys, ts, width, n)
    ensures ErrorSum(ys, ts, width, n) >= 0.0
  {
    if n > 0 {
      ErrorSumNonNegative(ys, ts, width, n - 1);
      SquaredErrorFacts(ys[n - 1].data, ts[n - 1].data, width);
    }
  }

  /** A sum of squared errors is zero exactly when every row agrees. */
  lemma {:induction false} ErrorSumZero(ys: seq<Matrix>, ts: seq<Matrix>, width: nat, n: nat)
    requires Wide(ys, ts, width, n)
    ensures ErrorSum(ys, ts, width, n) == 0.0 <==> Agree(ys, ts, width, n)
  {
    if n > 0 {
      ErrorSumZero(ys, ts, width, n - 1);
      ErrorSumNonNegative(ys, ts, width, n - 1);
      SquaredErrorFacts(ys[n - 1].data, ts[n - 1].data, width);
    }
  }

  /** A mean squared error over `n > 0` rows is never negative. */
  lemma MeanErrorNonNegative(ys: seq<Matrix>, ts: seq<Matrix>, width: nat, n: nat)
    requires Wide(ys, ts, width, n) && n > 0
    ensures ErrorSum(ys, ts, width, n) / (n as real) >= 0.0
  {
    ErrorSumNonNegative(ys, ts, width, n);
    MeanFacts(ErrorSum(ys, ts, width, n), n as real);
  }

  /** A mean squared error over `n > 0` rows is zero exactly when every row agrees. */
  lemma MeanErrorZero(ys: seq<Matrix>, ts: seq<Matrix>, width: nat, n: nat)
    requires Wide(ys, ts, width, n) && n > 0
    ensures ErrorSum(ys, ts, width, n) / (n as real) == 0.0 <==> Agree(ys, ts, width, n)
  {
    ErrorSumZero(ys, ts, width, n);
    MeanFacts(ErrorSum(ys, ts, width, n), n as real);
  }

  /** The cost is never negative. */
  lemma CostNonNegative(weight: seq<Matrix>, bias: seq<Matrix>, sigma: real -> real, input: Matrix, output: Matrix)
    requires Dataset(weight, bias, input, output)
    ensures CostOf(weight, bias, sigma, input, output) >= 0.0
  {
    MeanErrorNonNegative(Predictions(weight, bias, sigma, input, output), Targets(output), output.cols, input.rows);
  }

  /** Predictions agreeing with the targets means every predicted row equals its target row. */
  lemma AgreeMeansExact(weight: seq<Matrix>, bias: seq<Matrix>, sigma: real -> real, input: Matrix, output: Matrix)
    requires Dataset(weight, bias, input, output)
    ensures Wide(Predictions(weight, bias, sigma, input, output), Targets(output), output.cols, input.rows)
    ensures Agree(Predictions(weight, bias, sigma, input, output), Targets(output), output.cols, input.rows) <==>
      forall t, j :: 0 <= t < input.rows && 0 <= j < output.cols ==>
        Predict(RowOf(input, t), weight, bias, sigma).data[j] == RowOf(output, t).data[j]
  {
  }

  /** The cost is zero exactly when the network reproduces every target row. */
  lemma CostZeroIffExact(weight: seq<Matrix>, bias: seq<Matrix>, sigma: real -> real, input: Matrix, output: Matrix)
    requires Dataset(weight, bias, input, output)
    ensures CostOf(weight, bias, sigma, input, output) == 0.0 <==>
      forall t, j :: 0 <= t < input.rows && 0 <= j < output.cols ==>
        Predict(RowOf(input, t), weight, bias, sigma).data[j] == RowOf(output, t).data[j]
  {
    AgreeMeansExact(weight, bias, sigma, input, output);
    MeanErrorZero(Predictions(weight, bias, sigma, input, output), Targets(output), output.cols, input.rows);
  }

  /** One row of one entry: the mean squared error is that entry's squared error. */
  lemma OneCellMean(ys: seq<Matrix>, ts: seq<Matrix>)
    requires Wide(ys, ts, 1, 1)
    ensures var d := ys[0].data[0] - ts[0].data[0];
            ErrorSum(ys, ts, 1, 1) / (1 as real) == d * d
  {
    assert ErrorSum(ys, ts, 1, 1) == 0.0 + SquaredError(ys[0].data, ts[0].data, 1);
    assert SquaredError(ys[0].data, ts[0].data, 1) == 0.0 + (ys[0].data[0] - ts[0].data[0]) * (ys[0].data[0] - ts[0].data[0]);
  }

  /** With one training row and one output column the cost is that cell's squared error. */
  lemma CostOfOneSample(weight: seq<Matrix>, bias: seq<Matrix>, sigma: real -> real, input: Matrix, output: Matrix)
    requires Dataset(weight, bias, input, output) && input.rows == 1 && output.cols == 1
    ensures var d := Predict(RowOf(input, 0), weight, bias, sigma).data[0] - output.data[0];
            CostOf(weight, bias, sigma, input, output) == d * d
  {
    var ys := Predictions(weight, bias, sigma, input, output);
    var ts := Targets(output);
    assert ts[0].data[0] == output.data[0] by {
      assert Get(RowOf(output, 0), 0, 0) == Get(output, 0, 0);
    }
    OneCellMean(ys, ts);
  }

  /** The table `t` with cell `k` of matrix `i` raised by `eps`; nothing else changes. */
  function Nudge(ms: seq<Matrix>, i: nat, k: nat, eps: real): (r: seq<Matrix>)
    requires i < |ms| && k < |ms[i].data|
    ensures |r| == |ms|
    ensures forall j :: 0 <= j < |ms| && j != i ==> r[j] == ms[j]
    ensures r[i].rows == ms[i].rows && r[i].cols == ms[i].cols && |r[i].data| == |ms[i].data|
    ensures r[i].data[k] == ms[i].data[k] + eps
    ensures forall j :: 0 <= j < |ms[i].data| && j != k ==> r[i].data[j] == ms[i].data[j]
  {
    ms[i := Store(ms[i], k, ms[i].data[k] + eps)]
  }

  /** Replacing one matrix by another of the same shape keeps the shape bookkeeping. */
  lemma ReplaceKeepsTopology(weight: seq<Matrix>, bias: seq<Matrix>, t: Table, i: nat, m: Matrix)
    requires Topology(weight, bias) && i < |weight|
    requires m.rows == Pick(t, weight, bias)[i].rows && m.cols == Pick(t, weight, bias)[i].cols && m.Valid()
    ensures t == Weights ==> Topology(weight[i := m], bias)
    ensures t == Weights ==> forall j :: 0 <= j < |weight| ==> weight[i := m][j].rows == weight[j].rows && weight[i := m][j].cols == weight[j].cols
    ensures t == Biases ==> Topology(weight, bias[i := m])
  {
    if t == Weights {
      var w := weight[i := m];
      forall j | 0 <= j < |w| ensures w[j].Valid() && w[j].rows == weight[j].rows && w[j].cols == weight[j].cols {
        if j != i {
          assert w[j] == weight[j];
        }
      }
      assert Topology(w, bias);
    } else {
      var b := bias[i := m];
      forall j | 0 <= j < |b| ensures b[j].Valid() && b[j].rows == bias[j].rows && b[j].cols == bias[j].cols {
        if j != i {
          assert b[j] == bias[j];
        }
      }
      assert Topology(weight, b);
    }
  }

  /** Replacing one matrix by another of the same shape keeps a training set usable. */
  lemma ReshapeFree(weight: seq<Matrix>, bias: seq<Matrix>, t: Table, i: nat, m: Matrix, input: Matrix, output: Matrix)
    requires Dataset(weight, bias, input, output) && i < |weight|
    requires m.rows == Pick(t, weight, bias)[i].rows && m.cols == Pick(t, weight, bias)[i].cols && m.Valid()
    ensures t == Weights ==> Dataset(weight[i := m], bias, input, output)
    ensures t == Biases ==> Dataset(weight, bias[i := m], input, output)
  {
    ReplaceKeepsTopology(weight, bias, t, i, m);
    if t == Weights {
      assert weight[i := m][0].rows == weight[0].rows;
      assert weight[i := m][|weight| - 1].cols == weight[|weight| - 1].cols;
    }
  }

  /** Replacing one matrix by another of the same shape keeps the activation rows fitting the tables. */
  lemma RewireFree(weight: seq<Matrix>, bias: seq<Matrix>, activation: seq<Matrix>, t: Table, i: nat, m: Matrix)
    requires Wired(weight, bias, activation) && i < |weight|
    requires m.rows == Pick(t, weight, bias)[i].rows && m.cols == Pick(t, weight, bias)[i].cols && m.Valid()
    ensures t == Weights ==> Wired(weight[i := m], bias, activation)
    ensures t == Biases ==> Wired(weight, bias[i := m], activation)
  {
    ReplaceKeepsTopology(weight, bias, t, i, m);
  }

  /** Two tables of matrices of the same shapes, one for one. */
  ghost predicate Alike(a: seq<Matrix>, b: seq<Matrix>)
  {
    && |a| == |b|
    && forall i :: 0 <= i < |a| ==> a[i].rows == b[i].rows && a[i].cols == b[i].cols && |a[i].data| == |b[i].data|
  }

  /** The parameter tables with one cell raised by `eps`. */
  function NudgeWeights(weight: seq<Matrix>, bias: seq<Matrix>, t: Table, i: nat, k: nat, eps: real): seq<Matrix>
    requires Topology(weight, bias) && i < |weight| && k < |Pick(t, weight, bias)[i].data|
  {
    if t == Weights then Nudge(weight, i, k, eps) else weight
  }

  function NudgeBiases(weight: seq<Matrix>, bias: seq<Matrix>, t: Table, i: nat, k: nat, eps: real): seq<Matrix>
    requires Topology(weight, bias) && i < |weight| && k < |Pick(t, weight, bias)[i].data|
  {
    if t == Biases then Nudge(bias, i, k, eps) else bias
  }

  /** Raising one parameter keeps the tables' shapes, so the first layer still takes the same rows. */
  lemma NudgeKeepsTopology(weight: seq<Matrix>, bias: seq<Matrix>, t: Table, i: nat, k: nat, eps: real)
    requires Topology(weight, bias) && i < |weight| && k < |Pick(t, weight, bias)[i].data|
    ensures Topology(NudgeWeights(weight, bias, t, i, k, eps), NudgeBiases(weight, bias, t, i, k, eps))
    ensures |weight| > 0 ==> NudgeWeights(weight, bias, t, i, k, eps)[0].rows == weight[0].rows
  {
    var m := Pick(t, weight, bias)[i];
    var n := Store(m, k, m.data[k] + eps);
    assert m.Valid();
    assert n.Valid() by { assert |n.data| == |m.data|; }
    ReplaceKeepsTopology(weight, bias, t, i, n);
    if t == Weights {
      assert NudgeWeights(weight, bias, t, i, k, eps) == weight[i := n];
      assert weight[i := n][0].rows == weight[0].rows;
    } else {
      assert NudgeBiases(weight, bias, t, i, k, eps) == bias[i := n];
    }
  }

  /** The nudged tables still form a usable training set. */
  lemma NudgeKeepsDataset(weight: seq<Matrix>, bias: seq<Matrix>, t: Table, i: nat, k: nat, eps: real, input: Matrix, output: Matrix)
    requires Dataset(weight, bias, input, output)
    requires i < |weight| && k < |Pick(t, weight, bias)[i].data|
    ensures Dataset(NudgeWeights(weight, bias, t, i, k, eps), NudgeBiases(weight, bias, t, i, k, eps), input, output)
  {
    var m := Pick(t, weight, bias)[i];
    var n := Store(m, k, m.data[k] + eps);
    assert m.Valid();
    assert n.Valid() by { assert |n.data| == |m.data|; }
    ReshapeFree(weight, bias, t, i, n, input, output);
    if t == Weights {
      assert NudgeWeights(weight, bias, t, i, k, eps) == weight[i := n];
    } else {
      assert NudgeBiases(weight, bias, t, i, k, eps) == bias[i := n];
    }
  }

  /** The cost once cell `k` of matrix `i` of table `t` has been raised by `eps`; a cost, so never negative. */
  function NudgedCost(weight: seq<Matrix>, bias: seq<Matrix>, sigma: real -> real, input: Matrix, output: Matrix,
                      eps: real, t: Table, i: nat, k: nat): (r: real)
    requires Dataset(weight, bias, input, output)
    requires i < |weight| && k < |Pick(t, weight, bias)[i].data|
    ensures r >= 0.0
  {
    NudgeKeepsDataset(weight, bias, t, i, k, eps, input, output);
    CostOf(NudgeWeights(weight, bias, t, i, k, eps), NudgeBiases(weight, bias, t, i, k, eps), sigma, input, output)
  }

  /** One parameter cell: cell `k` of matrix `i` of table `t`. */
  datatype Param = Param(t: Table, i: nat, k: nat)

  /**
   * `acts` holds the forward pass of the last training row through the
   * network with parameter `p` raised by `eps`: what the `cost` call that
   * measures `p` leaves in the activation rows, since restoring `p`
   * afterwards does not run the network again.
   */
  ghost predicate Remeasured(acts: seq<Matrix>, weight: seq<Matrix>, bias: seq<Matrix>, sigma: real -> real,
                             input: Matrix, eps: real, p: Param)
  {
    && Topology(weight, bias) && input.Valid() && input.rows > 0
    && (|weight| > 0 ==> input.cols == weight[0].rows)
    && p.i < |weight| && p.k < |Pick(p.t, weight, bias)[p.i].data|
    && |acts| == |weight| + 1
    && (NudgeKeepsTopology(weight, bias, p.t, p.i, p.k, eps);
        forall j {:trigger Propagate(RowOf(input, input.rows - 1), NudgeWeights(weight, bias, p.t, p.i, p.k, eps),
                                     NudgeBiases(weight, bias, p.t, p.i, p.k, eps), sigma, j)} :: 0 <= j <= |weight| ==>
          acts[j] == Propagate(RowOf(input, input.rows - 1), NudgeWeights(weight, bias, p.t, p.i, p.k, eps),
                               NudgeBiases(weight, bias, p.t, p.i, p.k, eps), sigma, j))
  }

  /** `Remeasured` says that the rows hold the forward pass through the raised tables. */
  lemma RemeasuredIsForwarded(acts: seq<Matrix>, weight: seq<Matrix>, bias: seq<Matrix>, sigma: real -> real,
                              input: Matrix, eps: real, p: Param)
    requires Topology(weight, bias) && input.Valid() && input.rows > 0 && (|weight| > 0 ==> input.cols == weight[0].rows)
    requires p.i < |weight| && p.k < |Pick(p.t, weight, bias)[p.i].data|
    ensures Remeasured(acts, weight, bias, sigma, input, eps, p) <==>
      Forwarded(acts, RowOf(input, input.rows - 1),
                NudgeWeights(weight, bias, p.t, p.i, p.k, eps), NudgeBiases(weight, bias, p.t, p.i, p.k, eps), sigma)
  {
    NudgeKeepsTopology(weight, bias, p.t, p.i, p.k, eps);
  }

  /**
   * The one-sided finite-difference slope of the cost with respect to cell
   * `k` of matrix `i` of table `t`: only that one parameter is perturbed.
   */
  function Slope(weight: seq<Matrix>, bias: seq<Matrix>, sigma: real -> real, input: Matrix, output: Matrix,
                 eps: real, t: Table, i: nat, k: nat): (r: real)
    requires Dataset(weight, bias, input, output) && eps != 0.0
    requires i < |weight| && k < |Pick(t, weight, bias)[i].data|
    ensures r == 0.0 <==> NudgedCost(weight, bias, sigma, input, output, eps, t, i, k) == CostOf(weight, bias, sigma, input, output)
    ensures eps > 0.0 ==>
      (r > 0.0 <==> NudgedCost(weight, bias, sigma, input, output, eps, t, i, k) > CostOf(weight, bias, sigma, input, output))
  {
    Quotient(NudgedCost(weight, bias, sigma, input, output, eps, t, i, k) - CostOf(weight, bias, sigma, input, output), eps)
  }

  /** A measured nudged cost and base cost give the slope through `Quotient`. */
  lemma SlopeOf(weight: seq<Matrix>, bias: seq<Matrix>, sigma: real -> real, input: Matrix, output: Matrix,
                eps: real, t: Table, i: nat, k: nat, nudged: real, base: real)
    requires Dataset(weight, bias, input, output) && eps != 0.0
    requires i < |weight| && k < |Pick(t, weight, bias)[i].data|
    requires nudged == NudgedCost(weight, bias, sigma, input, output, eps, t, i, k)
    requires base == CostOf(weight, bias, sigma, input, output)
    ensures Quotient(nudged - base, eps) == Slope(weight, bias, sigma, input, output, eps, t, i, k)
  {
  }

  /**
   * `rise / eps`: the difference quotient of a change `rise` over a step
   * `eps`. It is zero exactly when there is no change, and over a positive
   * step it is positive exactly when the change is.
   */
  function Quotient(rise: real, eps: real): (r: real)
    requires eps != 0.0
    ensures r == 0.0 <==> rise == 0.0
    ensures eps > 0.0 ==> (r > 0.0 <==> rise > 0.0)
  {
    assert rise / eps * eps == rise;
    rise / eps
  }

  /** Cells `0 .. upto` of gradient matrix `g` hold the slopes for matrix `i` of table `t`. */
  ghost predicate SlopesFilled(g: Matrix, weight: seq<Matrix>, bias: seq<Matrix>, sigma: real -> real,
                               input: Matrix, output: Matrix, eps: real, t: Table, i: nat, upto: nat)
  {
    && Dataset(weight, bias, input, output) && eps != 0.0 && i < |weight|
    && |g.data| == |Pick(t, weight, bias)[i].data|
    && forall k :: 0 <= k < upto && k < |g.data| ==> g.data[k] == Slope(weight, bias, sigma, input, output, eps, t, i, k)
  }

  /** Writing the slope of cell `upto` extends the filled prefix by one cell. */
  lemma SlopesFilledStep(g: Matrix, weight: seq<Matrix>, bias: seq<Matrix>, sigma: real -> real,
                         input: Matrix, output: Matrix, eps: real, t: Table, i: nat, upto: nat)
    requires SlopesFilled(g, weight, bias, sigma, input, output, eps, t, i, upto) && upto < |g.data|
    ensures SlopesFilled(Store(g, upto, Slope(weight, bias, sigma, input, output, eps, t, i, upto)),
                         weight, bias, sigma, input, output, eps, t, i, upto + 1)
  {
    var h := Store(g, upto, Slope(weight, bias, sigma, input, output, eps, t, i, upto));
    forall k | 0 <= k < upto + 1 && k < |h.data|
      ensures h.data[k] == Slope(weight, bias, sigma, input, output, eps, t, i, k)
    {
      if k < upto {
        assert h.data[k] == g.data[k];
      }
    }
  }

  /** Gradient tables `gw` and `gb` hold every slope of the first `n` layers. */
  ghost predicate GradientFilled(gw: seq<Matrix>, gb: seq<Matrix>, weight: seq<Matrix>, bias: seq<Matrix>,
                                 sigma: real -> real, input: Matrix, output: Matrix, eps: real, n: nat)
  {
    && n <= |weight| && |gw| == |weight| && |gb| == |weight|
    && forall j :: 0 <= j < n ==>
         && SlopesFilled(gw[j], weight, bias, sigma, input, output, eps, Weights, j, |weight[j].data|)
         && SlopesFilled(gb[j], weight, bias, sigma, input, output, eps, Biases, j, |bias[j].data|)
  }

  /** Filling layer `n` of both gradient tables extends the filled layers by one. */
  lemma GradientFilledStep(gw: seq<Matrix>, gb: seq<Matrix>, weight: seq<Matrix>, bias: seq<Matrix>,
                           sigma: real -> real, input: Matrix, output: Matrix, eps: real, n: nat, g: Matrix, h: Matrix)
    requires GradientFilled(gw, gb, weight, bias, sigma, input, output, eps, n) && n < |weight|
    requires SlopesFilled(g, weight, bias, sigma, input, output, eps, Weights, n, |weight[n].data|)
    requires SlopesFilled(h, weight, bias, sigma, input, output, eps, Biases, n, |bias[n].data|)
    ensures GradientFilled(gw[n := g], gb[n := h], weight, bias, sigma, input, output, eps, n + 1)
  {
    var gw', gb' := gw[n := g], gb[n := h];
    forall j | 0 <= j < n + 1
      ensures SlopesFilled(gw'[j], weight, bias, sigma, input, output, eps, Weights, j, |weight[j].data|)
      ensures SlopesFilled(gb'[j], weight, bias, sigma, input, output, eps, Biases, j, |bias[j].data|)
    {
      if j < n {
        assert gw'[j] == gw[j] && gb'[j] == gb[j];
      }
    }
  }

  /** Replacing one matrix by one of the same shape keeps two tables alike. */
  lemma AlikeReplace(a: seq<Matrix>, b: seq<Matrix>, i: nat, m: Matrix)
    requires Alike(a, b) && i < |a|
    requires m.rows == b[i].rows && m.cols == b[i].cols && |m.data| == |b[i].data|
    ensures Alike(a[i := m], b)
  {
  }

  /** A gradient-descent step on one matrix: `m - rate * g`, cell by cell. */
  function Descend(m: Matrix, g: Matrix, rate: real): (r: Matrix)
    requires m.Valid() && g.Valid() && m.rows == g.rows && m.cols == g.cols
    ensures r.Valid() && r.rows == m.rows && r.cols == m.cols
  {
    Sub(m, Scale(g, rate))
  }

  /** `rate * g`, cell by cell. */
  function Scale(g: Matrix, rate: real): (r: Matrix)
    ensures r.rows == g.rows && r.cols == g.cols && |r.data| == |g.data|
    ensures forall k :: 0 <= k < |g.data| ==> r.data[k] == rate * g.data[k]
  {
    g.(data := seq(|g.data|, k requires 0 <= k < |g.data| => rate * g.data[k]))
  }

  /** The first `n` cells of `r` have taken the descent step from `m` along `g`; the rest are still those of `m`. */
  ghost predicate Descended(r: Matrix, m: Matrix, g: Matrix, rate: real, n: nat)
  {
    && r.rows == m.rows && r.cols == m.cols && |r.data| == |m.data| && |g.data| == |m.data|
    && forall k :: 0 <= k < |m.data| ==> r.data[k] == if k < n then m.data[k] - rate * g.data[k] else m.data[k]
  }

  /** Once every cell has taken the step, the matrix is the descent step of the whole matrix. */
  lemma DescendedAll(r: Matrix, m: Matrix, g: Matrix, rate: real)
    requires m.Valid() && g.Valid() && m.rows == g.rows && m.cols == g.cols
    requires Descended(r, m, g, rate, |m.data|)
    ensures r == Descend(m, g, rate)
  {
    var d := Descend(m, g, rate);
    forall k | 0 <= k < |m.data|
      ensures r.data[k] == d.data[k]
    {
      assert d.data[k] == m.data[k] - Scale(g, rate).data[k];
    }
    assert r.data == d.data;
  }

  /** A descent step is undone by adding back the scaled gradient. */
  lemma DescendUndone(m: Matrix, g: Matrix, rate: real)
    requires m.Valid() && g.Valid() && m.rows == g.rows && m.cols == g.cols
    ensures Add(Descend(m, g, rate), Scale(g, rate)) == m
  {
    AddUndoesSub(m, Scale(g, rate));
  }

  /** A zero learning rate leaves the parameters as they are. */
  lemma DescendZeroRate(m: Matrix, g: Matrix)
    requires m.Valid() && g.Valid() && m.rows == g.rows && m.cols == g.cols
    ensures Descend(m, g, 0.0) == m
  {
    assert Descend(m, g, 0.0).data == m.data;
  }
}
