/**
 * The `NeuralNetwork` object of src/neural_network.rs: a stack of fully
 * connected sigmoid layers whose weight, bias and activation matrices are
 * updated in place. Every method is proved against the pure definitions of
 * NetworkSpec (one layer, the forward pass, the cost, the finite-difference
 * slope and the descent step).
 */
module Networks {
  import opened Wrappers
  import opened Matrices
  import opened MatrixOps
  import opened Kernels
  import opened NetworkSpec

  /** `src` holds enough items for the weight matrix and the rows of layer `i`. */
  ghost predicate Feeds(widths: seq<nat>, src: Source, i: nat)
    requires i + 1 < |widths|
  {
    Yields(src, widths[i] * widths[i + 1]) && Yields(src, widths[i + 1])
  }

  /**
   * `src` holds enough items for every matrix that `from_iter` builds from
   * it: each one takes a fresh copy of the source and reads from its start.
   */
  ghost predicate Supplies(widths: seq<nat>, src: Source)
  {
    forall i :: 0 <= i < |widths| - 1 ==> Feeds(widths, src, i)
  }

  /** The first `n` weight matrices `from_iter` builds: layer `i` is `widths[i] x widths[i + 1]`. */
  function WeightsUpTo(widths: seq<nat>, src: Source, n: nat): (r: seq<Matrix>)
    requires Supplies(widths, src) && n < |widths|
    ensures |r| == n
  {
    if n == 0 then []
    else
      assert Feeds(widths, src, n - 1);
      WeightsUpTo(widths, src, n - 1) + [Matrices.FromIter(widths[n - 1], widths[n], src).value]
  }

  /** The first `n` bias rows `from_iter` builds: layer `i` gets a `1 x widths[i + 1]` row. */
  function BiasesUpTo(widths: seq<nat>, src: Source, n: nat): (r: seq<Matrix>)
    requires Supplies(widths, src) && n < |widths|
    ensures |r| == n
  {
    if n == 0 then []
    else
      assert Feeds(widths, src, n - 1);
      BiasesUpTo(widths, src, n - 1) + [Matrices.FromIter(1, widths[n], src).value]
  }

  /** Every weight matrix `from_iter` builds, one per layer. */
  function InitialWeights(widths: seq<nat>, src: Source): (r: seq<Matrix>)
    requires |widths| > 0 && Supplies(widths, src)
    ensures |r| == |widths| - 1
  {
    WeightsUpTo(widths, src, |widths| - 1)
  }

  /** Every bias row `from_iter` builds, one per layer. */
  function InitialBiases(widths: seq<nat>, src: Source): (r: seq<Matrix>)
    requires |widths| > 0 && Supplies(widths, src)
    ensures |r| == |widths| - 1
  {
    BiasesUpTo(widths, src, |widths| - 1)
  }

  /** The activation rows `from_iter` builds: a zero input row, then one row per layer read from `src`. */
  function InitialActivations(widths: seq<nat>, src: Source): (r: seq<Matrix>)
    requires |widths| > 0 && Supplies(widths, src)
    ensures |r| == |widths|
  {
    [Matrices.New(1, widths[0])] + InitialBiases(widths, src)
  }

  /** The tables `from_iter` builds have the widths asked for and fit together. */
  lemma InitialTopology(widths: seq<nat>, src: Source)
    requires |widths| > 0 && Supplies(widths, src)
    ensures Topology(InitialWeights(widths, src), InitialBiases(widths, src))
    ensures forall i :: 0 <= i < |widths| - 1 ==>
      InitialWeights(widths, src)[i].rows == widths[i] && InitialWeights(widths, src)[i].cols == widths[i + 1]
  {
    var ws, bs := InitialWeights(widths, src), InitialBiases(widths, src);
    forall i | 0 <= i < |ws|
      ensures ws[i].Valid() && bs[i].Valid() && bs[i].rows == 1 && bs[i].cols == ws[i].cols
    {
      InitialShape(widths, src, i);
    }
    forall i | 0 <= i < |ws|
      ensures ws[i].rows == widths[i] && ws[i].cols == widths[i + 1]
    {
      InitialShape(widths, src, i);
    }
  }

  /** The tables and rows `from_iter` builds fit together. */
  lemma InitialWired(widths: seq<nat>, src: Source)
    requires |widths| > 0 && Supplies(widths, src)
    ensures Wired(InitialWeights(widths, src), InitialBiases(widths, src), InitialActivations(widths, src))
  {
    var ws, bs, acts := InitialWeights(widths, src), InitialBiases(widths, src), InitialActivations(widths, src);
    InitialTopology(widths, src);
    assert acts[0] == Matrices.New(1, widths[0]);
    forall i | 0 <= i < |acts|
      ensures acts[i].Valid() && acts[i].rows == 1
    {
      if i > 0 {
        assert acts[i] == bs[i - 1];
      }
    }
    forall i | 0 <= i < |ws|
      ensures acts[i].cols == ws[i].rows && acts[i + 1].cols == ws[i].cols
    {
      assert acts[i + 1] == bs[i];
      if i > 0 {
        assert acts[i] == bs[i - 1];
      }
    }
  }

  /** One more round of the loop of `from_iter` extends the tables by layer `n - 1`. */
  lemma GrowStep(widths: seq<nat>, src: Source, n: nat)
    requires Supplies(widths, src) && 0 < n < |widths|
    ensures Matrices.FromIter(widths[n - 1], widths[n], src).Some?
    ensures Matrices.FromIter(1, widths[n], src).Some?
    ensures WeightsUpTo(widths, src, n) == WeightsUpTo(widths, src, n - 1) + [Matrices.FromIter(widths[n - 1], widths[n], src).value]
    ensures BiasesUpTo(widths, src, n) == BiasesUpTo(widths, src, n - 1) + [Matrices.FromIter(1, widths[n], src).value]
  {
    assert Feeds(widths, src, n - 1);
  }

  lemma {:induction false} LayerUpTo(widths: seq<nat>, src: Source, n: nat, i: nat)
    requires Supplies(widths, src) && i < n < |widths|
    ensures Matrices.FromIter(widths[i], widths[i + 1], src).Some?
    ensures Matrices.FromIter(1, widths[i + 1], src).Some?
    ensures WeightsUpTo(widths, src, n)[i] == Matrices.FromIter(widths[i], widths[i + 1], src).value
    ensures BiasesUpTo(widths, src, n)[i] == Matrices.FromIter(1, widths[i + 1], src).value
  {
    GrowStep(widths, src, n);
    if i < n - 1 {
      LayerUpTo(widths, src, n - 1, i);
    }
  }

  /** Layer `i` of the tables `from_iter` builds, one `from_iter` call per matrix. */
  lemma InitialLayer(widths: seq<nat>, src: Source, i: nat)
    requires |widths| > 0 && Supplies(widths, src) && i < |widths| - 1
    ensures Matrices.FromIter(widths[i], widths[i + 1], src).Some?
    ensures Matrices.FromIter(1, widths[i + 1], src).Some?
    ensures InitialWeights(widths, src)[i] == Matrices.FromIter(widths[i], widths[i + 1], src).value
    ensures InitialBiases(widths, src)[i] == Matrices.FromIter(1, widths[i + 1], src).value
    ensures InitialActivations(widths, src)[i + 1] == Matrices.FromIter(1, widths[i + 1], src).value
  {
    LayerUpTo(widths, src, |widths| - 1, i);
  }

  /** The shapes of layer `i` of the tables `from_iter` builds. */
  lemma InitialShape(widths: seq<nat>, src: Source, i: nat)
    requires |widths| > 0 && Supplies(widths, src) && i < |widths| - 1
    ensures InitialWeights(widths, src)[i].Valid()
    ensures InitialWeights(widths, src)[i].rows == widths[i] && InitialWeights(widths, src)[i].cols == widths[i + 1]
    ensures InitialBiases(widths, src)[i].Valid()
    ensures InitialBiases(widths, src)[i].rows == 1 && InitialBiases(widths, src)[i].cols == widths[i + 1]
    ensures InitialActivations(widths, src)[i + 1] == InitialBiases(widths, src)[i]
  {
    InitialLayer(widths, src, i);
  }

  /** Built from an endless run of zeros, every matrix is the zero matrix of its shape. */
  lemma InitialZeros(widths: seq<nat>)
    requires |widths| > 0
    ensures Supplies(widths, Zeros)
    ensures forall i :: 0 <= i < |widths| - 1 ==> InitialWeights(widths, Zeros)[i] == Matrices.New(widths[i], widths[i + 1])
    ensures forall i :: 0 <= i < |widths| - 1 ==> InitialBiases(widths, Zeros)[i] == Matrices.New(1, widths[i + 1])
    ensures forall i :: 0 <= i < |widths| ==> InitialActivations(widths, Zeros)[i] == Matrices.New(1, widths[i])
  {
    assert Zeros.Endless?;
    forall i | 0 <= i < |widths| - 1
      ensures InitialWeights(widths, Zeros)[i] == Matrices.New(widths[i], widths[i + 1])
      ensures InitialBiases(widths, Zeros)[i] == Matrices.New(1, widths[i + 1])
    {
      InitialLayer(widths, Zeros, i);
    }
    forall i | 1 <= i < |widths|
      ensures InitialActivations(widths, Zeros)[i] == Matrices.New(1, widths[i])
    {
      InitialLayer(widths, Zeros, i - 1);
    }
  }

  class Network {
    /** The activation function applied after every layer (the logistic function in the source). */
    const sigma: real -> real
    /** The number of layers, one less than the number of entries in the shape list. */
    const size: nat
    var weight: seq<Matrix>
    var bias: seq<Matrix>
    var activation: seq<Matrix>

    /**
     * The shape bookkeeping the constructor sets up and every method keeps:
     * `activation[i]` is the single row that layer `i` consumes and
     * `activation[i + 1]` the one it produces.
     */
    ghost predicate Valid()
      reads this
    {
      |weight| == size && Wired(weight, bias, activation)
    }

    /**
     * The loop of `from_iter`: the input activation is a zero row as wide as
     * the first entry, and layer `i` gets a `widths[i] x widths[i + 1]`
     * weight matrix, a bias row and an activation row, each filled from the
     * start of its own copy of `src`.
     */
    static method Layers(widths: seq<nat>, src: Source) returns (ws: seq<Matrix>, bs: seq<Matrix>, acts: seq<Matrix>)
      requires |widths| > 0 && Supplies(widths, src)
      ensures ws == InitialWeights(widths, src)
      ensures bs == InitialBiases(widths, src)
      ensures acts == InitialActivations(widths, src)
    {
      ws, bs := [], [];
      acts := [Matrices.FromIter(1, widths[0], Zeros).value];
      var i := 1;
      while i < |widths|
        invariant 1 <= i <= |widths|
        invariant ws == WeightsUpTo(widths, src, i - 1)
        invariant bs == BiasesUpTo(widths, src, i - 1)
        invariant acts == [Matrices.New(1, widths[0])] + bs
      {
        GrowStep(widths, src, i);
        ws := ws + [Matrices.FromIter(widths[i - 1], widths[i], src).value];
        bs := bs + [Matrices.FromIter(1, widths[i], src).value];
        acts := acts + [Matrices.FromIter(1, widths[i], src).value];
        i := i + 1;
      }
    }

    /** `NeuralNetwork::from_iter`: layers of the given widths, parameters read from `src`. */
    constructor FromIter(widths: seq<nat>, src: Source, sigma: real -> real)
      requires |widths| > 0 && Supplies(widths, src)
      ensures Valid() && this.sigma == sigma && size == |widths| - 1
      ensures weight == InitialWeights(widths, src)
      ensures bias == InitialBiases(widths, src)
      ensures activation == InitialActivations(widths, src)
    {
      var ws, bs, acts := Layers(widths, src);
      InitialWired(widths, src);
      this.sigma := sigma;
      size := |widths| - 1;
      weight, bias, activation := ws, bs, acts;
    }

    /** `NeuralNetwork::new`: every weight, bias and activation starts at zero. */
    constructor New(widths: seq<nat>, sigma: real -> real)
      requires |widths| > 0
      ensures Valid() && this.sigma == sigma && size == |widths| - 1
      ensures forall i :: 0 <= i < size ==> weight[i] == Matrices.New(widths[i], widths[i + 1])
      ensures forall i :: 0 <= i < size ==> bias[i] == Matrices.New(1, widths[i + 1])
      ensures forall i :: 0 <= i <= size ==> activation[i] == Matrices.New(1, widths[i])
    {
      InitialZeros(widths);
      var ws, bs, acts := Layers(widths, Zeros);
      InitialWired(widths, Zeros);
      this.sigma := sigma;
      size := |widths| - 1;
      weight, bias, activation := ws, bs, acts;
    }

    /** `get_output`: the last activation row, as wide as the last layer. */
    function Output(): (r: Matrix)
      reads this
      requires Valid()
      ensures r.Valid() && r.rows == 1 && r.cols == OutWidth(weight, activation[0])
    {
      activation[size]
    }

    /** `set_input_take`: the input row replaces the first activation, which it must match in shape. */
    method SetInputTake(input: Matrix)
      requires Valid() && input.Valid()
      requires input.rows == activation[0].rows && input.cols == activation[0].cols
      modifies this
      ensures Valid()
      ensures weight == old(weight) && bias == old(bias)
      ensures activation == old(activation)[0 := input]
    {
      activation := activation[0 := input];
    }

    /** `set_input`: the input row is copied into the first activation, cell by cell. */
    method SetInput(input: Matrix)
      requires Valid() && input.Valid()
      requires input.rows == activation[0].rows && input.cols == activation[0].cols
      modifies this
      ensures Valid()
      ensures weight == old(weight) && bias == old(bias)
      ensures activation == old(activation)[0 := input]
    {
      var row := 0;
      while row < input.rows
        invariant 0 <= row <= input.rows
        invariant Valid() && weight == old(weight) && bias == old(bias)
        invariant activation == old(activation)[0 := activation[0]]
        invariant activation[0].rows == input.rows && activation[0].cols == input.cols
        invariant forall k :: 0 <= k < row * input.cols ==> activation[0].data[k] == input.data[k]
      {
        RowInBounds(input.rows, input.cols, row);
        var col := 0;
        while col < input.cols
          invariant 0 <= col <= input.cols
          invariant Valid() && weight == old(weight) && bias == old(bias)
          invariant activation == old(activation)[0 := activation[0]]
          invariant activation[0].rows == input.rows && activation[0].cols == input.cols
          invariant forall k :: 0 <= k < row * input.cols + col ==> activation[0].data[k] == input.data[k]
        {
          CellInBounds(input.rows, input.cols, row, col);
          var v := Get(input, row, col).value;
          activation := activation[0 := Set(activation[0], row, col, v).0];
          col := col + 1;
        }
        row := row + 1;
      }
      assert activation[0].data == input.data;
    }

    /**
     * `forward`: layer after layer, the next activation row becomes
     * `sigmoid(activation . weight + bias)`, written in place; the result is
     * the network's prediction for the first activation row.
     */
    method Forward() returns (out: Matrix)
      requires Valid()
      modifies this
      ensures Valid()
      ensures weight == old(weight) && bias == old(bias) && activation[0] == old(activation[0])
      ensures forall i :: 0 <= i <= size ==> activation[i] == Propagate(activation[0], weight, bias, sigma, i)
      ensures out == Output() && out == Predict(activation[0], weight, bias, sigma)
    {
      var i := 0;
      while i < size
        invariant 0 <= i <= size
        invariant Valid()
        invariant weight == old(weight) && bias == old(bias) && activation[0] == old(activation[0])
        invariant Chained(weight, bias, activation, sigma, i)
      {
        var next := DotFrom(activation[i + 1], activation[i], weight[i]);
        next := AddFrom(next, bias[i]);
        next := Sigmoid(next, sigma);
        LayerInPlace(activation[i + 1], activation[i], weight[i], bias[i], sigma);
        activation := activation[i + 1 := next];
        i := i + 1;
      }
      forall j | 0 <= j <= size
        ensures activation[j] == Propagate(activation[0], weight, bias, sigma, j)
      {
        ChainedPropagates(weight, bias, activation, sigma, j);
      }
      out := activation[size];
    }

    /** `test`: the prediction for row `x`, which is left in the first activation. */
    method Test(x: Matrix) returns (y: Matrix)
      requires Valid() && x.Valid() && x.rows == 1 && x.cols == activation[0].cols
      modifies this
      ensures Valid()
      ensures weight == old(weight) && bias == old(bias) && activation[0] == x
      ensures forall i :: 0 <= i <= size ==> activation[i] == Propagate(x, weight, bias, sigma, i)
      ensures y == Predict(x, weight, bias, sigma)
    {
      activation := activation[0 := x];
      var _ := Forward();
      y := activation[size];
    }

    /**
     * The inner loop of `cost`: the squared error of each column of one
     * prediction row against its target row is added to the running sum.
     */
    static method AddRowError(sum: real, model: Matrix, truth: Matrix) returns (result: real)
      requires model.Valid() && truth.Valid() && model.rows == 1 && truth.rows == 1 && model.cols == truth.cols
      ensures result == sum + SquaredError(model.data, truth.data, truth.cols)
    {
      result := sum;
      var col := 0;
      while col < truth.cols
        invariant 0 <= col <= truth.cols
        invariant result == sum + SquaredError(model.data, truth.data, col)
      {
        GetInShape(model, 0, col);
        GetInShape(truth, 0, col);
        var d := Get(model, 0, col).value - Get(truth, 0, col).value;
        result := result + d * d;
        col := col + 1;
      }
    }

    /**
     * The first half of one round of `cost`: training row `training` becomes
     * the input and the network runs forward on it.
     */
    method RunSample(input: Matrix, output: Matrix, training: nat) returns (model: Matrix, truth: Matrix)
      requires Valid() && Dataset(weight, bias, input, output) && training < input.rows
      requires input.cols == activation[0].cols
      modifies this
      ensures Valid() && weight == old(weight) && bias == old(bias)
      ensures activation[0] == RowOf(input, training)
      ensures Forwarded(activation, RowOf(input, training), weight, bias, sigma)
      ensures model == activation[size] && model == Predict(RowOf(input, training), weight, bias, sigma)
      ensures truth == RowOf(output, training)
    {
      RowOfIsRowMatrix(input, training);
      RowOfIsRowMatrix(output, training);
      var x := GetRowMatrix(input, training).value;
      truth := GetRowMatrix(output, training).value;
      SetInputTake(x);
      model := Forward();
    }

    /**
     * What holds between two rounds of `cost`: the network is intact, the
     * input rows fit it, and `sum` is the squared error of the first `n` rows.
     */
    ghost predicate Running(input: Matrix, output: Matrix, sum: real, n: nat)
      reads this
    {
      && Valid() && Dataset(weight, bias, input, output) && n <= input.rows
      && input.cols == activation[0].cols
      && Tallied(weight, bias, sigma, input, output, sum, n)
    }

    /**
     * One round of the loop of `cost`: training row `training` is run
     * forward and its squared error joins the running sum.
     */
    method Round(input: Matrix, output: Matrix, training: nat, sum: real) returns (result: real)
      requires Running(input, output, sum, training) && training < input.rows
      modifies this
      ensures Running(input, output, result, training + 1)
      ensures weight == old(weight) && bias == old(bias)
      ensures activation[0] == RowOf(input, training)
      ensures Forwarded(activation, RowOf(input, training), weight, bias, sigma)
    {
      var model, truth := RunSample(input, output, training);
      TallyStep(weight, bias, sigma, input, output, sum, training, model, truth);
      result := AddRowError(sum, model, truth);
    }

    /**
     * The loop of `cost`: every training row in turn becomes the input, the
     * network runs forward, and the squared error of each output column is
     * added up.
     */
    method Tally(input: Matrix, output: Matrix) returns (sum: real)
      requires Valid() && Dataset(weight, bias, input, output)
      requires input.cols == activation[0].cols
      modifies this
      ensures Valid() && weight == old(weight) && bias == old(bias)
      ensures activation[0] == RowOf(input, input.rows - 1)
      ensures Forwarded(activation, RowOf(input, input.rows - 1), weight, bias, sigma)
      ensures Tallied(weight, bias, sigma, input, output, sum, input.rows)
    {
      sum := 0.0;
      var training: nat := 0;
      TallyStart(weight, bias, sigma, input, output);
      while training < input.rows
        invariant Running(input, output, sum, training)
        invariant weight == old(weight) && bias == old(bias)
        invariant training > 0 ==> activation[0] == RowOf(input, training - 1)
        invariant training > 0 ==> Forwarded(activation, RowOf(input, training - 1), weight, bias, sigma)
      {
        sum := Round(input, output, training, sum);
        training := training + 1;
      }
    }

    /**
     * `cost`: the mean over the training rows of the summed squared error
     * of the network's prediction against the target row.
     */
    method Cost(input: Matrix, output: Matrix) returns (c: real)
      requires Valid() && input.Valid() && output.Valid()
      requires input.rows == output.rows && output.cols == activation[size].cols
      requires input.cols == activation[0].cols && input.rows > 0
      modifies this
      ensures Valid() && weight == old(weight) && bias == old(bias)
      ensures Dataset(weight, bias, input, output)
      ensures c == CostOf(weight, bias, sigma, input, output)
      ensures activation[0] == RowOf(input, input.rows - 1)
      ensures Forwarded(activation, RowOf(input, input.rows - 1), weight, bias, sigma)
    {
      assert Dataset(weight, bias, input, output);
      var sum := Tally(input, output);
      TallyDone(weight, bias, sigma, input, output, sum);
      c := sum / (input.rows as real);
    }

    /**
     * `self.weight[i].set(row, col, v)` or `self.bias[i].set(row, col, v)`:
     * one cell of one matrix of one table is overwritten and its previous
     * value returned; nothing else changes.
     */
    method Write(t: Table, i: nat, row: nat, col: nat, v: real) returns (prev: real)
      requires i < |Pick(t, weight, bias)|
      requires FlatIndex(Pick(t, weight, bias)[i], row, col) < |Pick(t, weight, bias)[i].data|
      modifies this
      ensures activation == old(activation)
      ensures t == Weights ==> weight == old(weight)[i := Set(old(weight)[i], row, col, v).0] && bias == old(bias)
      ensures t == Biases ==> bias == old(bias)[i := Set(old(bias)[i], row, col, v).0] && weight == old(weight)
      ensures Get(old(Pick(t, weight, bias))[i], row, col) == Some(prev)
    {
      if t == Weights {
        var r := Set(weight[i], row, col, v);
        weight := weight[i := r.0];
        prev := r.1.value;
      } else {
        var r := Set(bias[i], row, col, v);
        bias := bias[i := r.0];
        prev := r.1.value;
      }
    }

    /**
     * `self.weight[i].set(row, col, temp + eps)` (or the same on the bias
     * table) where `temp` is the cell's value: the one parameter is raised
     * by `eps` and its old value returned.
     */
    method Raise(eps: real, ghost input: Matrix, ghost output: Matrix, t: Table, i: nat, row: nat, col: nat)
      returns (temp: real)
      requires Valid() && Dataset(weight, bias, input, output)
      requires i < size && row < Pick(t, weight, bias)[i].rows && col < Pick(t, weight, bias)[i].cols
      modifies this
      ensures FlatIndex(old(Pick(t, weight, bias))[i], row, col) < |old(Pick(t, weight, bias))[i].data|
      ensures activation == old(activation)
      ensures temp == old(Pick(t, weight, bias))[i].data[FlatIndex(old(Pick(t, weight, bias))[i], row, col)]
      ensures weight == NudgeWeights(old(weight), old(bias), t, i, FlatIndex(old(Pick(t, weight, bias))[i], row, col), eps)
      ensures bias == NudgeBiases(old(weight), old(bias), t, i, FlatIndex(old(Pick(t, weight, bias))[i], row, col), eps)
      ensures Valid() && Dataset(weight, bias, input, output)
    {
      ghost var w0, b0 := weight, bias;
      var m := Pick(t, weight, bias)[i];
      CellInBounds(m.rows, m.cols, row, col);
      ghost var k := FlatIndex(m, row, col);
      temp := Get(m, row, col).value;
      assert Set(m, row, col, temp + eps).0 == Store(m, k, m.data[k] + eps);
      RewireFree(w0, b0, activation, t, i, Store(m, k, m.data[k] + eps));
      NudgeKeepsDataset(w0, b0, t, i, k, eps, input, output);
      var _ := Write(t, i, row, col, temp + eps);
      if t == Weights {
        assert m == w0[i] && weight == w0[i := Store(m, k, m.data[k] + eps)];
      } else {
        assert m == b0[i] && bias == b0[i := Store(m, k, m.data[k] + eps)];
      }
    }

    /** `self.weight[i].set(row, col, temp)` (or on the bias table): the raised parameter gets its old value back. */
    method Lower(ghost w0: seq<Matrix>, ghost b0: seq<Matrix>, eps: real, t: Table, i: nat, row: nat, col: nat, temp: real)
      requires Valid() && Topology(w0, b0) && i < |w0|
      requires row < Pick(t, w0, b0)[i].rows && col < Pick(t, w0, b0)[i].cols
      requires FlatIndex(Pick(t, w0, b0)[i], row, col) < |Pick(t, w0, b0)[i].data|
      requires temp == Pick(t, w0, b0)[i].data[FlatIndex(Pick(t, w0, b0)[i], row, col)]
      requires weight == NudgeWeights(w0, b0, t, i, FlatIndex(Pick(t, w0, b0)[i], row, col), eps)
      requires bias == NudgeBiases(w0, b0, t, i, FlatIndex(Pick(t, w0, b0)[i], row, col), eps)
      modifies this
      ensures Valid() && weight == w0 && bias == b0 && activation == old(activation)
    {
      var m := Pick(t, w0, b0)[i];
      ghost var k := FlatIndex(m, row, col);
      StoreThenRestore(m, row, col, m.data[k] + eps);
      assert Pick(t, weight, bias)[i] == Store(m, k, m.data[k] + eps);
      RewireFree(weight, bias, activation, t, i, m);
      var _ := Write(t, i, row, col, temp);
      if t == Weights {
        assert weight == w0;
      } else {
        assert bias == b0;
      }
    }

    /** The cost with one parameter raised by `eps`, measured as `finite_diff` does it. */
    method Nudged(eps: real, input: Matrix, output: Matrix, t: Table, i: nat, row: nat, col: nat) returns (cost: real)
      requires Valid() && Dataset(weight, bias, input, output) && input.cols == activation[0].cols
      requires i < size && row < Pick(t, weight, bias)[i].rows && col < Pick(t, weight, bias)[i].cols
      modifies this
      ensures Valid() && weight == old(weight) && bias == old(bias) && activation[0].cols == input.cols
      ensures FlatIndex(Pick(t, weight, bias)[i], row, col) < |Pick(t, weight, bias)[i].data|
      ensures cost == NudgedCost(weight, bias, sigma, input, output, eps, t, i, FlatIndex(Pick(t, weight, bias)[i], row, col))
      ensures Remeasured(activation, weight, bias, sigma, input, eps, Param(t, i, FlatIndex(Pick(t, weight, bias)[i], row, col)))
    {
      ghost var w0, b0 := weight, bias;
      var temp := Raise(eps, input, output, t, i, row, col);
      cost := Cost(input, output);
      RemeasuredIsForwarded(activation, w0, b0, sigma, input, eps, Param(t, i, FlatIndex(Pick(t, w0, b0)[i], row, col)));
      Lower(w0, b0, eps, t, i, row, col, temp);
    }

    /**
     * One cell of `finite_diff`: with the parameter raised by `eps` the cost
     * is measured again, and the slope against the unperturbed cost `c` is
     * written into the same cell of the gradient matrix `g`. The ghost `k`
     * names the cell's flat index.
     */
    method ProbeCell(g: Matrix, eps: real, input: Matrix, output: Matrix, c: real,
                     t: Table, i: nat, row: nat, col: nat, ghost k: nat) returns (g': Matrix)
      requires Valid() && Dataset(weight, bias, input, output) && eps != 0.0 && input.cols == activation[0].cols
      requires c == CostOf(weight, bias, sigma, input, output)
      requires i < size && row < Pick(t, weight, bias)[i].rows && col < Pick(t, weight, bias)[i].cols
      requires g.cols == Pick(t, weight, bias)[i].cols && |g.data| == |Pick(t, weight, bias)[i].data|
      requires k == FlatIndex(g, row, col)
      modifies this
      ensures Valid() && weight == old(weight) && bias == old(bias) && activation[0].cols == input.cols
      ensures k < |Pick(t, weight, bias)[i].data| && k < |g.data|
      ensures g' == Store(g, k, Slope(weight, bias, sigma, input, output, eps, t, i, k))
      ensures Remeasured(activation, weight, bias, sigma, input, eps, Param(t, i, k))
    {
      var cost := Nudged(eps, input, output, t, i, row, col);
      assert FlatIndex(Pick(t, weight, bias)[i], row, col) == k;
      SlopeOf(weight, bias, sigma, input, output, eps, t, i, k, cost, c);
      g' := Set(g, row, col, Quotient(cost - c, eps)).0;
    }

    /**
     * What holds throughout `finite_diff`: the network is well formed, the
     * training set fits it, the step is non-zero, and `c` is its cost.
     */
    ghost predicate Probing(input: Matrix, output: Matrix, eps: real, c: real)
      reads this
    {
      && Valid() && Dataset(weight, bias, input, output) && eps != 0.0 && input.cols == activation[0].cols
      && c == CostOf(weight, bias, sigma, input, output)
    }

    /**
     * One row of one matrix of `finite_diff`: the slope of every cell, left
     * to right. The ghost `start` is the flat index where the row begins.
     */
    method ProbeRow(g: Matrix, eps: real, input: Matrix, output: Matrix, c: real, t: Table, i: nat, row: nat,
                    ghost start: nat)
      returns (g': Matrix)
      requires Probing(input, output, eps, c)
      requires i < size && row < Pick(t, weight, bias)[i].rows
      requires g.rows == Pick(t, weight, bias)[i].rows && g.cols == Pick(t, weight, bias)[i].cols
      requires start == FlatIndex(g, row, 0)
      requires SlopesFilled(g, weight, bias, sigma, input, output, eps, t, i, start)
      modifies this
      ensures Probing(input, output, eps, c) && weight == old(weight) && bias == old(bias)
      ensures g'.rows == g.rows && g'.cols == g.cols
      ensures start + g.cols == FlatIndex(g, row + 1, 0)
      ensures SlopesFilled(g', weight, bias, sigma, input, output, eps, t, i, start + g.cols)
      ensures forall k :: start + g.cols <= k < |g.data| ==> g'.data[k] == g.data[k]
      ensures g.cols == 0 ==> activation == old(activation)
      ensures g.cols > 0 ==> Remeasured(activation, weight, bias, sigma, input, eps, Param(t, i, start + g.cols - 1))
    {
      g' := g;
      var col := 0;
      ghost var last := Param(t, i, 0);
      while col < g.cols
        invariant 0 <= col <= g.cols
        invariant Probing(input, output, eps, c) && weight == old(weight) && bias == old(bias)
        invariant g'.rows == g.rows && g'.cols == g.cols
        invariant SlopesFilled(g', weight, bias, sigma, input, output, eps, t, i, start + col)
        invariant forall k :: start + col <= k < |g.data| ==> g'.data[k] == g.data[k]
        invariant col == 0 ==> activation == old(activation)
        invariant col > 0 ==> last.t == t && last.i == i && last.k + 1 == start + col
        invariant col > 0 ==> Remeasured(activation, weight, bias, sigma, input, eps, last)
      {
        ghost var before := g';
        g' := ProbeCell(g', eps, input, output, c, t, i, row, col, start + col);
        SlopesFilledStep(before, weight, bias, sigma, input, output, eps, t, i, start + col);
        last := Param(t, i, start + col);
        col := col + 1;
      }
      RowStep(g, row, 0);
      if g.cols > 0 {
        assert last == Param(t, i, start + g.cols - 1);
      }
    }

    /** One matrix of `finite_diff`: the slope of every cell, row by row. */
    method ProbeMatrix(g: Matrix, eps: real, input: Matrix, output: Matrix, c: real, t: Table, i: nat)
      returns (g': Matrix)
      requires Probing(input, output, eps, c) && i < size
      requires g.rows == Pick(t, weight, bias)[i].rows && g.cols == Pick(t, weight, bias)[i].cols
      requires |g.data| == |Pick(t, weight, bias)[i].data|
      modifies this
      ensures Probing(input, output, eps, c) && weight == old(weight) && bias == old(bias)
      ensures g'.rows == g.rows && g'.cols == g.cols
      ensures SlopesFilled(g', weight, bias, sigma, input, output, eps, t, i, |Pick(t, weight, bias)[i].data|)
    {
      g' := g;
      var row := 0;
      ghost var done := 0;
      while row < g.rows
        invariant 0 <= row <= g.rows
        invariant Probing(input, output, eps, c) && weight == old(weight) && bias == old(bias)
        invariant g'.rows == g.rows && g'.cols == g.cols
        invariant done == FlatIndex(g, row, 0)
        invariant SlopesFilled(g', weight, bias, sigma, input, output, eps, t, i, done)
      {
        g' := ProbeRow(g', eps, input, output, c, t, i, row, done);
        done := done + g.cols;
        row := row + 1;
      }
      assert Pick(t, weight, bias)[i].Valid() && FlatIndex(g, g.rows, 0) == |g.data|;
    }

    /** Layer `i` of `finite_diff`: the slopes of its weight matrix, then of its bias row. */
    method ProbeLayer(gradient: Network, eps: real, input: Matrix, output: Matrix, c: real, i: nat)
      requires Probing(input, output, eps, c) && gradient != this && i < size
      requires Alike(gradient.weight, weight) && Alike(gradient.bias, bias)
      modifies this, gradient
      ensures Probing(input, output, eps, c) && weight == old(weight) && bias == old(bias)
      ensures gradient.activation == old(gradient.activation)
      ensures Alike(gradient.weight, weight) && Alike(gradient.bias, bias)
      ensures gradient.weight == old(gradient.weight)[i := gradient.weight[i]]
      ensures gradient.bias == old(gradient.bias)[i := gradient.bias[i]]
      ensures SlopesFilled(gradient.weight[i], weight, bias, sigma, input, output, eps, Weights, i, |weight[i].data|)
      ensures SlopesFilled(gradient.bias[i], weight, bias, sigma, input, output, eps, Biases, i, |bias[i].data|)
    {
      assert Pick(Weights, weight, bias) == weight && Pick(Biases, weight, bias) == bias;
      var g := ProbeMatrix(gradient.weight[i], eps, input, output, c, Weights, i);
      AlikeReplace(gradient.weight, weight, i, g);
      gradient.weight := gradient.weight[i := g];
      var h := ProbeMatrix(gradient.bias[i], eps, input, output, c, Biases, i);
      AlikeReplace(gradient.bias, bias, i, h);
      gradient.bias := gradient.bias[i := h];
    }

    /** The loop of `finite_diff` over the layers, once the cost `c` is known. */
    method ProbeAll(gradient: Network, eps: real, input: Matrix, output: Matrix, c: real)
      requires Probing(input, output, eps, c) && gradient != this
      requires Alike(gradient.weight, weight) && Alike(gradient.bias, bias)
      modifies this, gradient
      ensures Probing(input, output, eps, c) && weight == old(weight) && bias == old(bias)
      ensures gradient.activation == old(gradient.activation)
      ensures Alike(gradient.weight, weight) && Alike(gradient.bias, bias)
      ensures GradientFilled(gradient.weight, gradient.bias, weight, bias, sigma, input, output, eps, size)
    {
      var i := 0;
      while i < size
        invariant 0 <= i <= size
        invariant Probing(input, output, eps, c) && weight == old(weight) && bias == old(bias)
        invariant gradient.activation == old(gradient.activation)
        invariant Alike(gradient.weight, weight) && Alike(gradient.bias, bias)
        invariant GradientFilled(gradient.weight, gradient.bias, weight, bias, sigma, input, output, eps, i)
      {
        ghost var gw, gb := gradient.weight, gradient.bias;
        ProbeLayer(gradient, eps, input, output, c, i);
        GradientFilledStep(gw, gb, weight, bias, sigma, input, output, eps, i, gradient.weight[i], gradient.bias[i]);
        i := i + 1;
      }
    }

    /**
     * `finite_diff`: the cost `c` of the unperturbed network is measured
     * once; then, matrix by matrix (the weight matrix of a layer, then its
     * bias row) and cell by cell, the parameter is raised by `eps`, the cost
     * is measured again, `(cost - c) / eps` is written into the same cell of
     * `gradient`, and the parameter is put back. The network's parameters
     * end up as they were; `gradient` holds the slope of every parameter.
     */
    method FiniteDiff(gradient: Network, eps: real, input: Matrix, output: Matrix)
      requires Valid() && gradient != this && eps != 0.0
      requires input.Valid() && output.Valid() && input.rows == output.rows && input.rows > 0
      requires output.cols == activation[size].cols && input.cols == activation[0].cols
      requires Alike(gradient.weight, weight) && Alike(gradient.bias, bias)
      modifies this, gradient
      ensures Valid() && weight == old(weight) && bias == old(bias) && Dataset(weight, bias, input, output)
      ensures gradient.activation == old(gradient.activation)
      ensures Alike(gradient.weight, weight) && Alike(gradient.bias, bias)
      ensures forall i, k :: 0 <= i < size && 0 <= k < |weight[i].data| ==>
        gradient.weight[i].data[k] == Slope(weight, bias, sigma, input, output, eps, Weights, i, k)
      ensures forall i, k :: 0 <= i < size && 0 <= k < |bias[i].data| ==>
        gradient.bias[i].data[k] == Slope(weight, bias, sigma, input, output, eps, Biases, i, k)
    {
      var c := Cost(input, output);
      ProbeAll(gradient, eps, input, output, c);
      forall j, k | 0 <= j < size && 0 <= k < |weight[j].data|
        ensures gradient.weight[j].data[k] == Slope(weight, bias, sigma, input, output, eps, Weights, j, k)
      {
        assert SlopesFilled(gradient.weight[j], weight, bias, sigma, input, output, eps, Weights, j, |weight[j].data|);
      }
      forall j, k | 0 <= j < size && 0 <= k < |bias[j].data|
        ensures gradient.bias[j].data[k] == Slope(weight, bias, sigma, input, output, eps, Biases, j, k)
      {
        assert SlopesFilled(gradient.bias[j], weight, bias, sigma, input, output, eps, Biases, j, |bias[j].data|);
      }
    }

    /**
     * One row of one matrix of `learn`: cell by cell,
     * `*get_mut(row, col).unwrap() -= rate * g.get(row, col).unwrap()`.
     */
    static method DescendRow(r: Matrix, m: Matrix, g: Matrix, rate: real, row: nat) returns (r': Matrix)
      requires m.Valid() && g.Valid() && m.rows == g.rows && m.cols == g.cols && row < m.rows
      requires Descended(r, m, g, rate, FlatIndex(m, row, 0))
      ensures Descended(r', m, g, rate, FlatIndex(m, row + 1, 0))
    {
      r' := r;
      var col := 0;
      while col < m.cols
        invariant 0 <= col <= m.cols
        invariant Descended(r', m, g, rate, FlatIndex(m, row, col))
      {
        CellInBounds(m.rows, m.cols, row, col);
        assert FlatIndex(r', row, col) == FlatIndex(m, row, col) && FlatIndex(g, row, col) == FlatIndex(m, row, col);
        var k := GetMut(r', row, col).value;
        r' := Store(r', k, r'.data[k] - rate * Get(g, row, col).value);
        col := col + 1;
      }
      RowStep(m, row, 0);
    }

    /** One matrix of `learn`: every cell takes the descent step, row by row. */
    static method DescendMatrix(m: Matrix, g: Matrix, rate: real) returns (r: Matrix)
      requires m.Valid() && g.Valid() && m.rows == g.rows && m.cols == g.cols
      ensures r == Descend(m, g, rate)
    {
      r := m;
      var row := 0;
      while row < m.rows
        invariant 0 <= row <= m.rows
        invariant Descended(r, m, g, rate, FlatIndex(m, row, 0))
      {
        r := DescendRow(r, m, g, rate, row);
        row := row + 1;
      }
      assert FlatIndex(m, m.rows, 0) == |m.data|;
      DescendedAll(r, m, g, rate);
    }

    /** Layer `i` of `learn`: its weight matrix, then its bias row, take one descent step. */
    method LearnLayer(gradient: Network, rate: real, i: nat)
      requires Valid() && gradient != this && i < size
      requires Alike(gradient.weight, weight) && Alike(gradient.bias, bias)
      modifies this
      ensures Valid() && activation == old(activation)
      ensures gradient.weight[i].Valid() && gradient.bias[i].Valid()
      ensures weight == old(weight)[i := Descend(old(weight)[i], gradient.weight[i], rate)]
      ensures bias == old(bias)[i := Descend(old(bias)[i], gradient.bias[i], rate)]
    {
      var w := DescendMatrix(weight[i], gradient.weight[i], rate);
      RewireFree(weight, bias, activation, Weights, i, w);
      weight := weight[i := w];
      var b := DescendMatrix(bias[i], gradient.bias[i], rate);
      RewireFree(weight, bias, activation, Biases, i, b);
      bias := bias[i := b];
    }

    /**
     * `learn`: one step of gradient descent, layer by layer: every weight
     * and bias moves against its cell of `gradient`, scaled by `rate`.
     */
    method Learn(gradient: Network, rate: real)
      requires Valid() && gradient != this
      requires Alike(gradient.weight, weight) && Alike(gradient.bias, bias)
      modifies this
      ensures Valid() && activation == old(activation)
      ensures forall i :: 0 <= i < size ==> gradient.weight[i].Valid() && gradient.bias[i].Valid()
      ensures forall i :: 0 <= i < size ==> weight[i] == Descend(old(weight)[i], gradient.weight[i], rate)
      ensures forall i :: 0 <= i < size ==> bias[i] == Descend(old(bias)[i], gradient.bias[i], rate)
    {
      var i := 0;
      while i < size
        invariant 0 <= i <= size
        invariant Valid() && activation == old(activation)
        invariant Alike(gradient.weight, weight) && Alike(gradient.bias, bias)
        invariant forall j :: i <= j < size ==> weight[j] == old(weight)[j] && bias[j] == old(bias)[j]
        invariant forall j :: 0 <= j < i ==> gradient.weight[j].Valid() && gradient.bias[j].Valid()
        invariant forall j :: 0 <= j < i ==> weight[j] == Descend(old(weight)[j], gradient.weight[j], rate)
        invariant forall j :: 0 <= j < i ==> bias[j] == Descend(old(bias)[j], gradient.bias[j], rate)
      {
        LearnLayer(gradient, rate, i);
        i := i + 1;
      }
    }
  }
}
