# BPNet: a verified model of a back-propagation network

This project models the `BPNet` class of `connectionism.js`. `BPNet` is a fully
connected feed-forward neural network trained by back-propagation (the
generalized delta rule). A network has `layernum` layers of widths `n`. Layer 0
is the input. Every layer `l >= 1` owns a weight matrix `w[l]` of `n[l]` rows
by `n[l-1]` columns and a bias vector `b[l]` of `n[l]` entries. The class has
five operations:

- the constructor, which checks its arguments, fills in default
  hyper-parameters and draws the initial weights and biases;
- `forward`, which computes the activation trace `y` of one input;
- `calcdelta`, which computes the delta trace of one sample, output layer
  first and then the hidden layers from the top down;
- `update`, which moves every weight and bias in place;
- `train`, which runs epochs over a sample set until the summed error of an
  epoch falls below `eps` or `iter` epochs have run.

The modules follow that structure:

- `Topology` (topology.dfy) holds the shapes, the configuration and the
  constructor's argument checks and defaults.
- `Propagation` (propagation.dfy) is the forward pass as pure functions.
- `Backprop` (backprop.dfy) is the backward pass as pure functions.
- `Updating` (updating.dfy) is the parameter update as pure functions.
- `Training` (training.dfy) is a sample, an epoch and the training run as pure
  functions.
- `Connectionism` (bpnet.dfy) holds the class `BPNet`. Its fields are the
  configuration (`const`) and the mutable `w`, `b` and `e`. Its methods keep
  the source's loops.

Every method is proved to compute the matching pure function; `Create`,
which wraps the constructor's argument checks, is proved to return `None`
exactly when they throw and otherwise the constructed network. The lemmas
beside each function give its closed form, one neuron at a time. The
activations are real numbers. The squashing function `fn` and its derivative
`fd` are arbitrary `real -> real` functions fixed at construction.

Where the code departs from the textbook delta rule, or from what its
arguments suggest:

- **An `iter` of 0 gives an epoch budget of 500, not zero.** The defaults are written
  `iter || 500`, and 0 is falsy. A learning rate of 0 likewise becomes 0.5, and
  an `eps` of 0 becomes 0.0001.
- **The constructor does not check the length of `n` against `layernum`.** The
  test `!n.length == layernum` compares a boolean with a number. It throws only
  for an empty list with one layer, or for a non-empty list with zero layers.
- **The constructor does not check the widths themselves.**
- **A bias takes `n[l-1]` increments per update, not one.** Its increment sits
  inside the inner loop over the weights.
- **A negative `iter` runs no epochs.**

## Model

| member | source | states |
|---|---|---|
| Topology.RejectsExactly | connectionism.js:9-14 | the constructor throws exactly for a non-array `n`, for an empty list with `layernum == 1`, or for a non-empty list with `layernum == 0` |
| Topology.LengthNotEnforced | connectionism.js:12-14 | with two or more layers, every width list is accepted, whatever its length |
| Topology.Configure | connectionism.js:15-38 | the settings keep `layernum` and `n`; an absent `fn` becomes the logistic function and an absent `fd` becomes `a * (1 - a)`, while given ones are kept; `miu`, `iter` and `eps` are the given value or, when it is absent or 0, 0.5, 500 or 0.0001, so none of them is 0 |
| Topology.DefaultDerivativeSlope | connectionism.js:27-29 | the default `fd(a) == a * (1 - a)` equals `1/4 - (a - 1/2)^2`: on `[0, 1]` it lies in `[0, 1/4]`, it is `1/4` only at `a == 1/2`, and it is 0 only at `a == 0` or `a == 1` |
| Topology.FalsyHyperParametersDefaulted | connectionism.js:35-38 | an absent or zero `miu`, `iter` or `eps` becomes 0.5, 500 or 0.0001; a non-zero value is kept |
| Connectionism.DrawnRow | connectionism.js:43-45 | a drawn weight row has `cols` entries |
| Connectionism.DrawnLayer | connectionism.js:42-49 | a drawn weight layer has `rows` rows of `cols` entries |
| Connectionism.DrawnBias | connectionism.js:42-48 | a drawn bias vector has `rows` entries |
| Connectionism.Drawn | connectionism.js:33-52 | the initial parameters have one weight matrix and one bias vector per layer |
| Connectionism.DrawnShaped | connectionism.js:39-52 | the initial parameters meet the shape invariant: layer `l >= 1` has `n[l]` rows of `n[l-1]` weights and `n[l]` biases, and layer 0 has none |
| Connectionism.DrawnEntries | connectionism.js:39-52 | every initial weight `w[l][j][i]` and bias `b[l][j]` is the value drawn for that position |
| Connectionism.BPNet.constructor | connectionism.js:8-53 | the new network has the defaulted settings, the drawn parameters, the shape invariant and `e == 0` |
| Connectionism.BPNet.DrawLayer | connectionism.js:40-50 | the nested drawing loops build exactly the drawn layer and bias vector |
| Connectionism.BPNet.Create | connectionism.js:8-53 | construction fails exactly when the argument checks throw; otherwise it yields a fresh, well-shaped network with `e == 0`, the defaulted settings and the drawn weights and biases |
| Propagation.WeightedSumGrows | connectionism.js:62-64 | proof step for a loop invariant, read off the definition: each pass of the innermost loop adds `w[l][j][i] * y[l-1][i]` to the accumulator |
| Propagation.LayerOutput | connectionism.js:60-67 | a computed layer has one activation per neuron |
| Propagation.LayerOutputAt | connectionism.js:60-66 | activation `j` of a layer is `fn` of its weighted sum plus its bias |
| Propagation.LayerOutputGrows | connectionism.js:60-67 | proof step for a loop invariant, read off the definition: each neuron appends its activation after those of the neurons before it |
| Propagation.TraceUpTo | connectionism.js:56-68 | a partial trace of layers `0..k` starts with the input, and layer `l >= 1` has `n[l]` activations |
| Propagation.TraceUpToGrows | connectionism.js:58-68 | proof step for a loop invariant, read off the definition: each pass of the layer loop appends the layer computed from the last one |
| Propagation.ForwardTrace | connectionism.js:55-70 | the trace has one entry per layer, starts with the input and is wide enough for every later read |
| Propagation.TraceLayer | connectionism.js:58-67 | layer `l >= 1` of a trace is computed from layer `l-1` of the same trace with `w[l]` and `b[l]` |
| Propagation.TraceClosedForm | connectionism.js:60-66 | `y[l][j] == fn(sum over i < n[l-1] of w[l][j][i] * y[l-1][i], plus b[l][j])` for every `l >= 1` |
| Connectionism.BPNet.Forward | connectionism.js:55-70 | `forward(x)` returns the forward trace of `x` and changes no field |
| Connectionism.BPNet.LayerForward | connectionism.js:59-67 | the neuron and weight loops compute the activations of one layer |
| Backprop.OutputDelta | connectionism.js:75-77 | the output deltas have one entry per output neuron |
| Backprop.OutputDeltaAt | connectionism.js:75-77 | `delta[L-1][j] == (d[j] - y[L-1][j]) * fd(y[L-1][j])` |
| Backprop.OutputDeltaGrows | connectionism.js:75-77 | proof step for a loop invariant, read off the definition: each pass of the output loop appends the delta of one more neuron |
| Backprop.HiddenDelta | connectionism.js:81-87 | the deltas of a hidden layer have one entry per neuron |
| Backprop.HiddenDeltaAt | connectionism.js:81-87 | hidden delta `j` is `fd(y[l][j])` times the deltas above it, weighted by their weights from `j` |
| Backprop.HiddenDeltaGrows | connectionism.js:81-87 | proof step for a loop invariant, read off the definition: each pass of the neuron loop appends `fd(y[l][j])` times the accumulated sum |
| Backprop.DeltasFrom | connectionism.js:78-89 | once layers `l..L-1` are filled in, each has `n[k]` entries and the layers below `l` are empty |
| Backprop.Deltas | connectionism.js:72-90 | the delta trace has one entry per layer and is wide enough for `update` |
| Backprop.DeltasFromLayers | connectionism.js:78-89 | the top entry is the output formula; each filled hidden entry is the hidden formula fed by the entry above it |
| Backprop.HiddenDeltaClosedForm | connectionism.js:79-87 | `delta[l][j] == fd(y[l][j]) * (sum over i < n[l+1] of delta[l+1][i] * w[l+1][i][j])` for `1 <= l < L-1` |
| Backprop.OutputDeltaClosedForm | connectionism.js:73-78 | the output-layer formula holds in the returned trace, and layer 0 gets no deltas when it is not the output |
| Connectionism.BPNet.CalcDelta | connectionism.js:72-90 | `calcdelta(d, y)` returns the delta trace and changes no field |
| Connectionism.BPNet.HiddenLayerDelta | connectionism.js:80-87 | the neuron and accumulation loops compute the deltas of one hidden layer |
| Updating.RepeatTotal | connectionism.js:97 | `k` increments by `miu * delta[l][j]` add up to `k * miu * delta[l][j]` |
| Updating.PartialRow | connectionism.js:95-96 | updating a weight row keeps its length |
| Updating.PartialRowGrows | connectionism.js:95-96 | proof step for a loop invariant, read off the definition: pass `i` of the innermost loop adds its increment to weight `i` of the row the earlier passes left |
| Updating.PartialRowAt | connectionism.js:95-96 | after `i` passes, the first `i` weights of a row have moved once and the rest not at all |
| Updating.StepRow | connectionism.js:95-96 | an updated row has the same length |
| Updating.PartialLayer | connectionism.js:94-99 | updating the rows of a layer keeps its shape |
| Updating.PartialLayerAt | connectionism.js:94-99 | after `j` passes, the first `j` rows have taken their update and the rest are untouched |
| Updating.PartialBias | connectionism.js:94-98 | updating the biases of a layer keeps their number |
| Updating.PartialBiasAt | connectionism.js:94-98 | after `j` passes, the first `j` biases have taken `n[l-1]` increments and the rest are untouched |
| Updating.StepUpTo | connectionism.js:93-100 | every pass of the layer loop keeps the shape invariant |
| Updating.Step | connectionism.js:92-101 | `update` keeps the shape invariant |
| Updating.StepUpToLayer | connectionism.js:93-100 | after `l` passes, layers `1..l-1` are updated and every other layer, layer 0 included, is unchanged |
| Updating.StepWeight | connectionism.js:96 | `w[l][j][i]` gains `miu * delta[l][j] * y[l-1][i]`, for `l >= 1` |
| Updating.StepBiasRepeats | connectionism.js:94-98 | `b[l][j]` takes `n[l-1]` increments of `miu * delta[l][j]` |
| Updating.BiasStepIsTextbookOnlyForOneInput | connectionism.js:97 | a bias moves by the textbook `miu * delta[l][j]` exactly when `n[l-1] == 1` or that amount is zero |
| Connectionism.BPNet.Update | connectionism.js:92-101 | `update` leaves exactly the stepped parameters, keeps the shape invariant and changes only `w` and `b` |
| Connectionism.BPNet.UpdateLayer | connectionism.js:94-99 | the pass over layer `l` changes only `w[l]` and `b[l]`, and changes them to their updated values |
| Connectionism.BPNet.UpdateNeuron | connectionism.js:95-98 | the inner loop gives the updated row and a bias with `cols` increments |
| Training.SquaredError | connectionism.js:110-114 | the summed squared error is never negative |
| Training.SquaredErrorZero | connectionism.js:110-114 | the squared error is 0 exactly when every output equals its target |
| Connectionism.BPNet.SampleError | connectionism.js:110-114 | the error loop computes the summed squared error of the outputs |
| Training.Epoch | connectionism.js:105-116 | after any number of samples the shape invariant holds and the summed error is not negative |
| Training.TraceOf | connectionism.js:107 | the forward trace of a sample fits the network |
| Training.DeltasOf | connectionism.js:108 | the delta trace of a sample fits the network |
| Training.UpdatedOf | connectionism.js:109 | the parameters after a sample's update keep the shape invariant |
| Training.ErrorOf | connectionism.js:110-115 | the error a sample adds is not negative |
| Training.EpochGrows | connectionism.js:106-116 | sample `k` runs forward, calcdelta and update on the state the earlier samples leave, and adds half its squared error, taken before the update |
| Connectionism.BPNet.TrainSample | connectionism.js:106-116 | one pass of the sample loop takes the network from the state after `i` samples to the state after `i+1` |
| Connectionism.BPNet.TrainEpoch | connectionism.js:105-116 | an epoch resets `e` to 0, then leaves the parameters and the summed error of all samples in order |
| Training.EpochsFrom | connectionism.js:104-116 | the state after `k >= 1` whole epochs is well shaped and has a non-negative error |
| Training.TrainRun | connectionism.js:104-120 | training runs no epoch when `iter <= 0` and between 1 and `iter` epochs otherwise, and keeps the shape invariant |
| Training.TrainRunStep | connectionism.js:104-119 | proof step for a loop invariant, read off the definition: after one epoch, training stops when `e < eps` and otherwise goes on with one epoch fewer |
| Training.TrainRunSpent | connectionism.js:104 | proof step for a loop invariant, read off the definition: with no epochs left, training changes nothing |
| Training.TrainRunEpochs | connectionism.js:104-120 | training leaves the state of its `r.epochs` epochs; every earlier epoch ended with `e >= eps`; it stops before `iter` only on `e < eps` |
| Training.NoEarlyStopWithoutPositiveEps | connectionism.js:117-119 | errors are never negative, so with `eps <= 0` training always runs all `iter` epochs |
| Connectionism.BPNet.TrainRound | connectionism.js:104-119 | one pass of the epoch loop: `w`, `b` and `e` become the state one whole epoch leaves from the old parameters; after the epoch, training from the state before it stops here when `e < eps` and otherwise goes on from here with one epoch fewer |
| Connectionism.BPNet.Train | connectionism.js:103-121 | `train` leaves the parameters and error of the training run and keeps the shape invariant |

## Left out

- Random initial values (connectionism.js:45, 48) are not modelled. The
  constructor takes two functions, `wDraw` and `bDraw`, that give the value
  drawn for each weight and bias position.
- The default squashing function `1 / (1 + exp(-x))` (connectionism.js:19-21)
  is not modelled, since there is no `exp` over the reals here. The
  constructor takes it as the parameter `logistic`. The default derivative
  `a * (1 - a)` is modelled exactly.
- IEEE floating-point rounding, overflow and NaN are not modelled. All
  arithmetic is over `real`.
- Convergence and accuracy of training are numerical behaviour. Nothing about
  them is stated.
- The demo script and its console output (connectionism.js:124-140) are usage
  and I/O, not part of the class.
- JavaScript holes and `undefined` are not modelled as such:
  - The unset entries `w[0]`, `b[0]` and `delta[0]` are modelled as empty
    sequences.
  - A read `n[l]` outside the width list is modelled as width 0, which skips
    the loop it bounds, as `j < undefined` does.
- Arguments too short for the network are excluded by preconditions:
  - inputs narrower than `n[0]`, in `forward` and `train`;
  - targets narrower than `n[L-1]`, in `calcdelta` and `train`;
  - activation traces `y` and delta traces `delta` passed to the public
    `calcdelta(d, y)` and `update(y, delta)` that are not as wide as `n`
    at every layer (`TraceFits`, `DeltaFits`).

  The source would read `undefined` at those positions. It then computes
  with NaN, or throws a TypeError when a missing layer is indexed.
- Connectionism.BPNet.CalcDelta and Connectionism.BPNet.Update: `TraceFits`
  and `DeltaFits` ask for every layer of `y` and `delta` to be as wide as
  `n`, which is more than these operations read. `calcdelta` never reads
  `y[0]` when `layernum >= 2` (connectionism.js:76, 86). `update` never reads
  `y[L-1]` (connectionism.js:96), nor `delta[l]` of a layer whose lower
  neighbour has width 0. Calls with such narrower traces, which the source
  accepts, are not covered.
- Fewer targets than inputs in `train` are excluded by a precondition. The
  source would throw a TypeError at connectionism.js:76 on the first sample
  without a target, after the samples before it in that epoch have already
  updated `w` and `b`. That partial update and the exception are not
  modelled.
- `iter` is an integer. A fractional `iter` is not modelled; the source's
  test `p < iter` would run `ceil(iter)` epochs.
- `layernum` is a natural number and the widths are naturals. A negative,
  fractional or non-numeric `layernum` or width is not modelled. A thrown
  string is modelled as `None` from `Create`.
- Arrays are modelled as values, not references. The network keeps the
  caller's `n` array by reference (connectionism.js:16), and `y[0]` of a
  forward trace is the caller's `x` itself (connectionism.js:57). A caller
  that later mutates those arrays would change what the network sees; the
  model does not capture that aliasing. The class's own `w` and `b` are
  updated in place as `seq` fields that the methods reassign.
- Hyper-parameters are absent or numbers. Other falsy values (`NaN`, `""`,
  `false`) are not modelled.
- Some source loops are split into smaller methods. `train` becomes `Train`
  (the epoch loop), `TrainRound` (one epoch and its stopping test),
  `TrainEpoch` (the sample loop), `TrainSample` (one sample) and
  `SampleError` (the error loop of connectionism.js:112-114). The
  per-layer loops of `forward`, `calcdelta` and `update` become
  `LayerForward`, `HiddenLayerDelta` and `UpdateLayer`/`UpdateNeuron`.
  Each split runs the same statements in the same order.
- Connectionism.BPNet.LayerForward and Connectionism.BPNet.HiddenLayerDelta:
  these read `fn`, `fd`, `y[l]` and `w[l]` into locals once per layer. The
  source reads them at every use, which is the same here because nothing
  changes them during the pass.
