# rustml in Dafny

A Dafny model of the core of rustml, a small feed-forward neural-network
library. It has two layers.

- **The dense row-major matrix** of `src/matrix.rs` and `src/matrix/ops.rs`
  (modules `Matrices`, `MatrixOps`). A `Matrix` is a value holding `rows`, `cols` and a
  flat `data` sequence. Cell (row, col) lives at flat index `col + row * cols`.
  The matrices that `from_iter` builds keep `|data| == rows * cols` (`Valid`).
  The model covers:
  - construction from a value stream;
  - the flat-index lookups `get`, `get_mut` and `set`;
  - row and column views, and their one-row and one-column copies;
  - the cellwise `+` and `-` operators;
  - the shape of `sigmoid`.
- **The network** of `src/neural_network.rs` (modules `NetworkSpec` and `Networks`). The class
  `Networks.Network` holds the weight, bias and activation tables as `seq<Matrix>` fields. Its
  methods update those fields in place, with the same loops as the source:
  - the constructor's layer loop;
  - `set_input`'s row/column copy;
  - `forward`'s layer loop;
  - `cost`'s training-row loop;
  - `finite_diff`'s perturb / measure / restore loops;
  - `learn`'s descent loops.

  Each method is proved against pure definitions in `NetworkSpec`:
  - one layer (`Layer`);
  - the forward pass (`Propagate`, `Predict`);
  - the mean-squared-error cost (`CostOf`);
  - the one-sided finite-difference slope (`Slope`);
  - the descent step (`Descend`).

  Properties are proved about those definitions too. The cost is never
  negative and is zero exactly when every prediction is exact. A restored
  parameter leaves the network exactly as it was. A descent step is undone by
  adding back the scaled gradient.

Scalars are `real`. The logistic function is a parameter `sigma: real -> real`
fixed when the network is built. A source (an iterator the Rust code clones)
is `Source`: a finite list or an endless generator. A Rust panic or failed `assert!` becomes a
`requires`. An absent value becomes `Option`. `from_iter`'s length assertion
becomes a `None` result, so a caller can see exactly when it would fail.

`src/neural_network.rs:79-81` calls `dot_from`, `add_from` and an in-place
`sigmoid`. `dot_from` and `add_from` are not defined in the `src/matrix.rs`
shown. Module `Kernels` models those two, with the behaviour inferred from the
forward loop and from the expected values in the tests of
`src/neural_network.rs`:
- `dot_from` writes the row-by-column product, each cell summed in index order;
- `add_from` accumulates cell by cell.

The in-place `sigmoid` step is `Matrices.Sigmoid`, whose result `Forward`
assigns back into the receiving row.

The shown `src/matrix.rs:94-100` has `sigmoid(&self) -> Self`. Under that
signature the statement `next_activation.sigmoid();` would discard its
result. The in-place reading is used because the tests in
`src/neural_network.rs` expect the activation to be applied.

## Model

| member | source | states |
|---|---|---|
| `Matrices.Take` | src/matrix.rs:21 | At most `n` items, in the order the source produces them; exactly `n` when the source has that many. |
| `Matrices.NoCells` | src/matrix.rs:17-28 | A valid matrix has no storage exactly when it has no rows or no columns. |
| `Matrices.FromIter` | src/matrix.rs:17-28 | Succeeds exactly when the source yields `rows * cols` items; then the matrix is valid, has the requested shape, and cell `k` is the `k`-th item. |
| `Matrices.New` | src/matrix.rs:13-15 | A valid `rows x cols` matrix whose every cell is zero. |
| `Matrices.RowInBounds` | src/matrix.rs:58 | The slice `row * cols .. (row + 1) * cols` of an in-range row lies inside the storage. |
| `Matrices.FlatIndex` | src/matrix.rs:39 | Definition only (no contract): the flat index `col + row * cols` that `get`, `get_mut` and `set` use. `CellInBounds`, `RowStep` and `GetWrapsToNextRow` state its properties. |
| `Matrices.CellInBounds` | src/matrix.rs:39 | An in-shape cell's flat index lies inside the storage. |
| `Matrices.Get` | src/matrix.rs:38-44 | Present exactly when the flat index `col + row * cols` lies inside the storage; then it is the cell stored there. |
| `Matrices.GetInShape` | src/matrix.rs:38-44 | Every in-shape cell of a valid matrix can be read. |
| `Matrices.GetWrapsToNextRow` | src/matrix.rs:39-43 | Only the flat index is checked, so `get(row, col + cols)` equals `get(row + 1, col)`. |
| `Matrices.RowStep` | src/matrix.rs:39 | Stepping `cols` flat slots forward lands on the same column of the next row. |
| `Matrices.GetMut` | src/matrix.rs:46-48 | Present under the same rule as `get`; the slot is the flat index and holds the cell `get` reads. |
| `Matrices.Store` | src/neural_network.rs:139-140 | A write through a `get_mut` slot changes that one cell and keeps the shape and every other cell. |
| `Matrices.Set` | src/matrix.rs:50-54 | Returns the previous value (always present because out-of-range panics). Afterwards the cell reads `v`, the shape is kept and every other cell is unchanged. |
| `Matrices.SetThenRestore` | src/matrix.rs:50-54 | Writing back the value `set` returned restores the matrix exactly. |
| `Matrices.StoreThenRestore` | src/neural_network.rs:116-120 | Writing a cell's saved value back over a raised value restores the matrix exactly. |
| `Matrices.GetRow` | src/matrix.rs:56-61 | Absent exactly when `row >= rows`; otherwise `cols` values, the `j`-th being cell (row, `j`). |
| `Matrices.ColumnPrefix` | src/matrix.rs:65 | The first `n` cells of a column, read top to bottom through `get`. |
| `Matrices.GetCol` | src/matrix.rs:63-68 | Absent exactly when `col >= cols`; otherwise `rows` values, the `k`-th being `data[col + k * cols]`. |
| `Matrices.GetRowMatrix` | src/matrix.rs:70-79 | Absent exactly when `row >= rows`; otherwise a valid `1 x cols` copy whose cells read as that row's cells. |
| `Matrices.GetColMatrix` | src/matrix.rs:81-90 | Absent exactly when `col >= cols`; otherwise a valid `rows x 1` copy whose cells read as that column's cells. |
| `Matrices.Sigmoid` | src/matrix.rs:94-100 | Keeps the receiver's shape and validity; each cell is the activation of the old cell. |
| `MatrixOps.Add` | src/matrix/ops.rs:12-46 | Owned and by-reference `+`. The shape is the operands' shape and the length is the zip length. The result is valid when both operands are. Each cell is `a[k] + b[k]`. |
| `MatrixOps.Sub` | src/matrix/ops.rs:55-86 | Owned and by-reference `-`. Same shape rules as `+`; each cell is `a[k] - b[k]`. |
| `MatrixOps.SubUndoesAdd` | src/matrix/ops.rs:16-21 | `(a + b) - b == a` over exact arithmetic for same-shape valid matrices. |
| `MatrixOps.AddUndoesSub` | src/matrix/ops.rs:74-79 | `(a - b) + b == a` over exact arithmetic for same-shape valid matrices. |
| `MatrixOps.AddCommutes` | src/matrix/ops.rs:16-21 | `a + b == b + a`. |
| `Kernels.DotSum` | src/neural_network.rs:79 | Definition only (no contract): one product cell, the products of row `row` of `a` with column `col` of `b` over the first `n` indices, summed in increasing index order. `DotCell` proves it is the product's cell. |
| `Kernels.ProductRows` | src/neural_network.rs:79 | The first `n` rows of the product take `n * b.cols` slots. |
| `Kernels.Dot` | src/neural_network.rs:79 | The product of an `r x n` and an `n x c` matrix is a valid `r x c` matrix. |
| `Kernels.ProductRowsAt` | src/neural_network.rs:79 | Slot `col + row * cols` of the product rows holds the dot product of row `row` with column `col`. |
| `Kernels.DotCell` | src/neural_network.rs:79 | Cell (row, col) of the product is the dot product of row `row` and column `col`. |
| `Kernels.DotFrom` | src/neural_network.rs:79 | `dot_from` keeps the receiver's shape, and every cell becomes the matching dot product. |
| `Kernels.AddFrom` | src/neural_network.rs:80 | `add_from` keeps the shape, and every cell gains the other matrix's cell. |
| `NetworkSpec.Layer` | src/neural_network.rs:79-81 | One layer maps a `1 x w.rows` row to a valid `1 x w.cols` row. |
| `NetworkSpec.Neuron` | src/neural_network.rs:79-81 | One output cell of a layer: the activation of cell `col` of `a . w` plus cell `col` of the bias, both read through `get`. |
| `NetworkSpec.LayerInPlace` | src/neural_network.rs:79-81 | `dot_from`, then `add_from`, then `sigmoid`, written into the receiving row, compute exactly one layer, whatever the row held before. |
| `NetworkSpec.InPlaceCell` | src/neural_network.rs:79-81 | Output cell `col` of those steps is the activation of the weighted input along column `col` plus bias `col`. |
| `NetworkSpec.Propagate` | src/neural_network.rs:72-82 | After `n` layers the activation is a valid single row as wide as layer `n - 1`'s output. |
| `NetworkSpec.Predict` | src/neural_network.rs:84 | The network's output is a valid single row as wide as the last layer. |
| `NetworkSpec.ChainedPropagates` | src/neural_network.rs:72-82 | Rows written layer after layer, each from the previous one, are the forward pass of the first row. |
| `NetworkSpec.RowOf` | src/neural_network.rs:95-96 | Row `t` of a training matrix is a valid `1 x cols` row. |
| `NetworkSpec.CellIndex` | src/matrix.rs:39 | An in-shape cell's flat index is the one `get` uses and lies inside the storage. |
| `NetworkSpec.RowOfIsRowMatrix` | src/neural_network.rs:95-96 | `get_row_matrix(t).unwrap()` is exactly row `t`. |
| `NetworkSpec.RowOfCell` | src/neural_network.rs:95-96 | Cell `j` of `get_row_matrix(t).unwrap()` is cell `j` of row `t`. |
| `NetworkSpec.Predictions` | src/neural_network.rs:94-99 | The `t`-th prediction is the network's output for training row `t`, as wide as the targets. |
| `NetworkSpec.Targets` | src/neural_network.rs:96 | The `t`-th target is row `t` of the output matrix. |
| `NetworkSpec.SquaredError` | src/neural_network.rs:101-104 | The inner loop's sum of `d * d` over a row's columns is never negative. |
| `NetworkSpec.ErrorSum` | src/neural_network.rs:94-105 | The squared errors summed over the first `n` training rows are never negative. |
| `NetworkSpec.TallyStart` | src/neural_network.rs:91 | Before the first training row the running sum is zero. |
| `NetworkSpec.TallyStep` | src/neural_network.rs:94-104 | One more training row adds that row's squared errors to the running sum. |
| `NetworkSpec.TallyDone` | src/neural_network.rs:107 | The sum over all training rows divided by the row count is the cost. |
| `NetworkSpec.SquaredErrorFacts` | src/neural_network.rs:101-104 | A row's squared error is never negative and is zero exactly when the row matches its target. |
| `NetworkSpec.ErrorSumNonNegative` | src/neural_network.rs:94-105 | A sum of squared errors over rows is never negative. |
| `NetworkSpec.ErrorSumZero` | src/neural_network.rs:94-105 | A sum of squared errors over rows is zero exactly when every row matches its target. |
| `NetworkSpec.MeanErrorNonNegative` | src/neural_network.rs:107 | The mean over a positive number of rows is never negative. |
| `NetworkSpec.MeanErrorZero` | src/neural_network.rs:107 | The mean over a positive number of rows is zero exactly when every row matches. |
| `NetworkSpec.CostOf` | src/neural_network.rs:87-108 | The mean squared error over the training rows and output columns is never negative. |
| `NetworkSpec.CostNonNegative` | src/neural_network.rs:87-108 | The cost is never negative. |
| `NetworkSpec.AgreeMeansExact` | src/neural_network.rs:94-104 | Predictions agree with the targets exactly when every predicted cell equals its target cell. |
| `NetworkSpec.CostZeroIffExact` | src/neural_network.rs:87-108 | The cost is zero exactly when the network reproduces every target cell. |
| `NetworkSpec.OneCellMean` | src/neural_network.rs:101-107 | One row of one column: the mean squared error is that cell's squared difference. |
| `NetworkSpec.CostOfOneSample` | src/neural_network.rs:87-108 | With one training row and one output column, the cost is the square of prediction minus target. |
| `NetworkSpec.Nudge` | src/neural_network.rs:116-117 | Only cell `k` of matrix `i` changes, raised by `eps`; every other matrix and cell is unchanged. |
| `NetworkSpec.ReplaceKeepsTopology` | src/neural_network.rs:117 | Replacing one matrix by one of the same shape keeps the shape bookkeeping and every matrix shape. |
| `NetworkSpec.ReshapeFree` | src/neural_network.rs:117 | Such a replacement keeps the training set usable. |
| `NetworkSpec.RewireFree` | src/neural_network.rs:117 | Such a replacement keeps the activation rows fitting the tables. |
| `NetworkSpec.NudgeKeepsTopology` | src/neural_network.rs:116-117 | Raising one parameter keeps every matrix shape, so the first layer takes rows of the same width. |
| `NetworkSpec.NudgeKeepsDataset` | src/neural_network.rs:117 | The nudged network still accepts the training set. |
| `NetworkSpec.NudgedCost` | src/neural_network.rs:116-119 | The cost with one parameter cell raised by `eps` is never negative. |
| `NetworkSpec.RemeasuredIsForwarded` | src/neural_network.rs:116-120 | The activation rows a measurement leaves behind are exactly the forward pass of the last training row through the tables with that one parameter raised. |
| `NetworkSpec.Quotient` | src/neural_network.rs:119 | `rise / eps` is zero exactly when `rise` is, and over a positive step it is positive exactly when `rise` is. |
| `NetworkSpec.Slope` | src/neural_network.rs:116-119 | The slope is zero exactly when raising the parameter leaves the cost unchanged. For a positive `eps` it is positive exactly when the raise increases the cost. |
| `NetworkSpec.SlopeOf` | src/neural_network.rs:119 | `(cost - c) / eps`, with `cost` the nudged cost and `c` the base cost, is the slope of that one parameter. |
| `NetworkSpec.SlopesFilledStep` | src/neural_network.rs:114-121 | Writing the slope of the next cell extends the filled prefix of a gradient matrix by one cell and keeps the earlier ones. |
| `NetworkSpec.GradientFilledStep` | src/neural_network.rs:113-132 | Filling layer `n`'s weight and bias slopes extends the filled layers by one and keeps the earlier layers. |
| `NetworkSpec.AlikeReplace` | src/neural_network.rs:119 | Storing a same-shape matrix keeps the gradient tables shaped like the network's. |
| `NetworkSpec.Descend` | src/neural_network.rs:139-147 | A descent step keeps a matrix's shape and validity. |
| `NetworkSpec.Scale` | src/neural_network.rs:140 | `rate * g` keeps the shape, and each cell is `rate` times the gradient's cell. |
| `NetworkSpec.DescendedAll` | src/neural_network.rs:137-142 | Once every cell has taken `m - rate * g`, the matrix is the descent step of the whole matrix. |
| `NetworkSpec.DescendUndone` | src/neural_network.rs:139-140 | Adding the scaled gradient back after a descent step restores the parameters. |
| `NetworkSpec.DescendZeroRate` | src/neural_network.rs:139-140 | A zero learning rate leaves the parameters unchanged. |
| `Networks.WeightsUpTo` | src/neural_network.rs:40-41 | After `n` rounds of the constructor loop there are `n` weight matrices. |
| `Networks.BiasesUpTo` | src/neural_network.rs:42 | After `n` rounds there are `n` bias rows. |
| `Networks.InitialWeights` | src/neural_network.rs:39-45 | One weight matrix per layer: one fewer than there are widths. |
| `Networks.InitialBiases` | src/neural_network.rs:39-45 | One bias row per layer. |
| `Networks.InitialActivations` | src/neural_network.rs:33-45 | One activation row per width. |
| `Networks.GrowStep` | src/neural_network.rs:39-45 | Each round appends the layer built by one `from_iter` call on a fresh copy of the source. |
| `Networks.LayerUpTo` | src/neural_network.rs:40-44 | Layer `i` of the partial tables is the matrix built for it, and that call succeeds. |
| `Networks.InitialLayer` | src/neural_network.rs:40-44 | Layer `i` of the built tables is `from_iter(d_i, d_(i+1))` for the weight and `from_iter(1, d_(i+1))` for the bias and activation rows, all from the start of the source. |
| `Networks.InitialShape` | src/neural_network.rs:40-44 | `weight[i]` is a valid `d_i x d_(i+1)` matrix; `bias[i]` and `activation[i + 1]` are the same valid `1 x d_(i+1)` row. |
| `Networks.InitialTopology` | src/neural_network.rs:39-45 | The built tables have the widths asked for and consecutive layers fit. |
| `Networks.InitialWired` | src/neural_network.rs:33-45 | The built tables and activation rows fit together. |
| `Networks.InitialZeros` | src/neural_network.rs:12-17 | From an endless run of zeros, every weight, bias and activation is the zero matrix of its shape. |
| `Networks.Network.Layers` | src/neural_network.rs:33-45 | The constructor loop builds exactly the initial weights, biases and activations. |
| `Networks.Network.FromIter` | src/neural_network.rs:19-48 | `size` is one less than the number of widths, and the network is well formed. The tables are the ones built from the source. |
| `Networks.Network.New` | src/neural_network.rs:12-17 | `weight[i]` is the zero `d_i x d_(i+1)` matrix, `bias[i]` the zero `1 x d_(i+1)` row, and `activation[i]` the zero `1 x d_i` row. |
| `Networks.Network.Output` | src/neural_network.rs:67-69 | The last activation: a valid single row as wide as the last layer. |
| `Networks.Network.SetInputTake` | src/neural_network.rs:50-54 | Only `activation[0]` changes, and it becomes the input. Weights, biases and the other activations are unchanged. |
| `Networks.Network.SetInput` | src/neural_network.rs:56-65 | Cell by cell, `activation[0]` becomes the input. Weights, biases and the other activations are unchanged. |
| `Networks.Network.Forward` | src/neural_network.rs:71-85 | Every `activation[i]` is the forward pass of `activation[0]` through the first `i` layers. `activation[0]`, the weights and the biases are unchanged. The result is the last activation and the network's prediction. |
| `Networks.Network.Test` | src/neural_network.rs:153-157 | `activation[0]` becomes `x`, every activation is its forward pass, and the result is the prediction for `x`. |
| `Networks.Network.AddRowError` | src/neural_network.rs:101-104 | The inner loop adds the prediction row's squared error against the target row. |
| `Networks.Network.RunSample` | src/neural_network.rs:95-99 | Training row `t` becomes the input, and every activation row is its forward pass. The model output is the last activation and the prediction for that row; the truth is the target row. The parameters are unchanged. |
| `Networks.Network.Round` | src/neural_network.rs:94-104 | One more training row's squared error joins the running sum, and the activation rows hold that row's forward pass. |
| `Networks.Network.Tally` | src/neural_network.rs:91-105 | The loop adds up the squared errors of every training row. The parameters are unchanged, and the activation rows hold the forward pass of the last training row. |
| `Networks.Network.Cost` | src/neural_network.rs:87-108 | The result is the mean squared error `CostOf` of the parameters on the training set. The parameters are unchanged, and the activation rows hold the forward pass of the last training row. |
| `Networks.Network.Write` | src/neural_network.rs:117 | `set` on one matrix of one table: only that cell changes, and its previous value is returned. |
| `Networks.Network.Raise` | src/neural_network.rs:116-117 | The saved value is the cell's old value. Afterwards the tables are exactly the originals with that one cell raised by `eps`. |
| `Networks.Network.Lower` | src/neural_network.rs:120 | Writing the saved value back gives exactly the original tables. |
| `Networks.Network.Nudged` | src/neural_network.rs:116-120 | The measured cost is the cost with only that one parameter raised by `eps`, and the parameters end as they were. The activation rows hold the forward pass of the last training row through the raised tables. |
| `Networks.Network.ProbeCell` | src/neural_network.rs:116-120 | The gradient cell receives that parameter's slope, every other gradient cell is kept, and the parameters end as they were. The activation rows are left as that cell's measurement leaves them. |
| `Networks.Network.ProbeRow` | src/neural_network.rs:115-121 | After one row, the gradient holds the slopes of every cell up to the end of that row, and every later cell keeps its value. The activation rows are left as the row's last measurement leaves them, or unchanged for an empty row. |
| `Networks.Network.ProbeMatrix` | src/neural_network.rs:114-122 | After one matrix, every cell of its gradient matrix holds its slope. |
| `Networks.Network.ProbeLayer` | src/neural_network.rs:113-131 | Layer `i`'s weight and bias gradients hold their slopes. The other gradient matrices and the parameters are unchanged. |
| `Networks.Network.ProbeAll` | src/neural_network.rs:113-132 | Every layer's gradient matrices hold their slopes, and the parameters are unchanged. |
| `Networks.Network.FiniteDiff` | src/neural_network.rs:110-133 | Every weight and bias cell of `self` ends as it was. Every cell of `gradient` holds `(cost with only that parameter + eps - cost) / eps`. |
| `Networks.Network.DescendRow` | src/neural_network.rs:138-141 | Every cell up to the end of the row has taken `m - rate * g`; the later cells are unchanged. |
| `Networks.Network.DescendMatrix` | src/neural_network.rs:137-142 | The matrix becomes `m - rate * g`. |
| `Networks.Network.LearnLayer` | src/neural_network.rs:137-149 | Layer `i`'s weight and bias each take one descent step. No other matrix and no activation changes. |
| `Networks.Network.Learn` | src/neural_network.rs:135-151 | Every weight and bias matrix becomes `old - rate * gradient`. The activations and the gradient network are unchanged. |

## Left out

- Floating point. `f64` in `src/matrix.rs` and `f32` in `src/neural_network.rs` are both `real`. Rounding and NaN are not modelled, and neither is the `exp` inside `sigmoid`. The activation function is the parameter `sigma`.
- Machine integers. `usize` is `nat`. Overflow of `row * cols` or `col + row * cols` is not modelled.
- The generic `Matrix<T>` with its `num_traits::NumRef` bound in `src/matrix/ops.rs` is modelled over `real`. The owned and by-reference operators are one function each, because a value model cannot tell them apart.
- The iterators that `get_row` and `get_col` return are modelled as the sequences they yield.
- `rows()` and `cols()` are the datatype's fields.
- The `Deref` to `Vec<f64>` and the `Display` impls are not modelled; they are diagnostic or plumbing only.
- `dot_from` and `add_from` are not defined in the `src/matrix.rs` shown. `Kernels` models them with the behaviour inferred from the forward loop and from the expected values in the tests of `src/neural_network.rs`.
- `Valid` on a matrix is not a type invariant. The constructors establish it, and every operation that needs it requires it. `Add` and `Sub` state it for their result.
- `Networks.Network.Cost` requires at least one training row. With none, the source divides `0.0` by `0` and returns NaN.
- `Networks.Network.ProbeMatrix` does not state the activation rows it leaves behind. They are as the measurement of the matrix's last cell leaves them; this is stated per cell by `ProbeCell` and per row by `ProbeRow` only.
- `Networks.Network.ProbeLayer` does not state the activation rows it leaves behind, for the same reason as `ProbeMatrix`.
- `Networks.Network.ProbeAll` does not state the activation rows it leaves behind, for the same reason as `ProbeMatrix`.
- `Networks.Network.FiniteDiff` does not state the activation rows it leaves behind. They hold the forward pass of the last training row through the network with the last probed parameter still raised by `eps` (the last bias cell of the last layer, when that row has cells). With no parameter cells at all they hold the unperturbed pass of the first `cost` call. Restoring that parameter does not run the network again, so `get_output()` afterwards reads that perturbed pass.
- `Networks.Network.FiniteDiff` requires at least one training row (`input.rows > 0`), as `Cost` does. With none, the source's `cost` divides `0.0` by `0` and every slope is NaN.
- `Networks.Network.FiniteDiff` requires `eps != 0`, where the source would divide by zero. It also requires `gradient`'s matrices to have the shapes of the network's. The source only needs every flat index it writes to lie inside `gradient`'s storage.
- `Networks.Network.FiniteDiff` fills each gradient matrix as a local value and stores it back once per matrix. The source writes `gradient` cell by cell. The results agree because `gradient` is a different object and `cost` never reads it.
- `Networks.Network.Learn` requires `gradient`'s matrices to have the shapes of the network's. The source only needs every flat index it reads to lie inside them.
- `Networks.Network.Test` requires `x` to be a single row as wide as `activation[0]`. The source has no check. `dot_from` forces that shape whenever there is at least one layer, and the model also demands it when there are none.
- `Networks.Network.SetInput` and `Networks.Network.SetInputTake` require a valid input matrix. The source's shape asserts compare `rows` and `cols` only.
- The test at `src/neural_network.rs:343-344` asserts that `learn` leaves the biases unchanged. This contradicts the bias loop at `src/neural_network.rs:144-149`; the model follows the code. The stale test at `src/neural_network.rs:209-212` is not modelled either.
- The example programs under `src/bin` and `src/main.rs` are not part of this model. They are training drivers with random initialisation and printing.
