# JML regressor, modelled in Dafny

This project models the numeric core of JML, a small Java library for dense
feed-forward regression networks. The model covers:

- the trainer `Regressor`: construction with random parameters, the forward
  pass, the squared-error loss, backpropagation, the in-place gradient step,
  and the epoch loop over a dataset;
- its read-only snapshot `InferenceRegressor`;
- the `Dataset` container it trains on;
- the `NNState` pair of lists that carries a forward trace.

Arithmetic is over Dafny `real`. `Math.exp` and `Math.tanh` are uninterpreted
constants; the only assumption is that `exp` is positive.

Modules:

- `Wrappers`: the two exceptions of the library as an `Error` datatype, and
  `Result` and `Outcome` for operations that throw.
- `Activation`: the four activation kinds, with `af`, `afd` and the map over
  a layer.
- `Network`: the specification of the network as pure functions, with the
  lemmas about it. It covers:
  - the shapes of parameters and traces;
  - the forward recurrence `LayerZ` / `LayerActivation` / `Trace` / `Output`;
  - the loss;
  - the deltas and gradients of backpropagation (`Backprop`);
  - one gradient step (`Step`).

  `NNState`, `Params` and `Gradients` are datatypes here.
- `Kernels`: the accumulator loops that both classes contain, written once.
  They compute the z-values of a layer, the sum of squared errors, and the
  guarded loss.
- `DataClasses`: `DataPoint` and the class `Dataset`, whose point list only
  grows, and only by points of its fixed dimensions.
- `RegressorModel`: the class `Regressor`. In the source, `weights` and
  `biases` are `final` references to lists whose contents `updateParams`
  changes in place; the model makes them `var` sequence fields that the
  methods reassign. `epochCount` is a `var` as in the source. The
  hyper-parameters `layerSizes`, `activationFunctions` and `learningRate`,
  which are `final` and never changed, are `const`. Training is specified by three functions of the parameters:
  - `TrainStep`: one `trainOnPoint` call;
  - `Epoch`: the step folded over the points in stored order;
  - `Epochs`: n such epochs.

  Every method that changes the parameters is proved to compute these
  functions.
- `InferenceRegressorModel`: the class `InferenceRegressor`, whose fields are all
  `const`. At construction it copies a trainer's weights and biases layer by
  layer and row by row, and takes over the trainer's `layerSizes` and
  `activationFunctions`, which the source shares by reference
  (Models/InferenceRegressor.java:21-22).

Java constructors that throw become static factories that return `Result`:
`Regressor.Create` for the main constructor and `Regressor.CreateWithReLU` for
the ReLU one. `putDataPoint`, `trainOnPoint` and `trainOnDataset` return an
`Outcome`.
`Math.random()` becomes a nondeterministic choice in [-1, 1).

Facts about the code that shape the model:

- **No input-length check in the forward pass.** `predict` and
  `feedForward` (Models/Regressor.java:94-128) check no input length:
  - when the first hidden layer has at least one neuron, an input shorter
    than the input layer fails with an index error in `passOnceAndGetZValues`
    (:134-135); the model excludes it with the precondition
    `|input| >= layerSizes[0]`;
  - when the first hidden layer is empty, no activation of layer 0 is read,
    so any input is accepted, including an empty one; the precondition
    excludes that case too;
  - a longer input is accepted, and `SurplusInputIgnored` proves that its
    surplus is ignored past layer 0.
- **The main constructor takes the hidden layers' activations only.** Its
  doc comment (Models/Regressor.java:30) says that an Identity gets added for
  the input layer. Lines 36-38 add one Identity before the given list and one
  after it, so the output layer gets Identity too. `Create` states what the
  code does.
- **The ReLU constructor gives the output layer Identity.** Its doc comment
  (Models/Regressor.java:25) says ReLU is used for the output layer as well.
  The code passes `layerSizes.size() - 2` ReLU entries to the main
  constructor (:27), so the output layer gets Identity. `CreateWithReLU`
  states what the code does.

Other things the proofs establish:

- **The shape checks cannot fail.** `Backprop` returns gradients shaped
  exactly like the parameters, so the `DimensionalityException`s of
  `updateParams` (Models/Regressor.java:180-198) are unreachable. `ApplyStep`
  keeps the two outer size checks (:180 and :196) as dead branches. The
  per-row checks at :182, :185 and :198 have no counterpart in it, because
  its preconditions and `WeightsShaped`/`BiasesShaped` already give every row
  its size.
- **The bias of layer 0 is dead.** The forward pass never reads it
  (`InputBiasIrrelevant`), but training still updates it.
- **The output-layer gradients are exact slopes.** For the identity output
  activation, `OutputBiasGradient` and `OutputWeightGradient` prove that the
  gradients `updateParams` computes for the output layer are the exact slope
  of the loss. Because the loss is quadratic in those parameters, the first
  difference is h times the gradient plus a square term.

## Model

| member | source | states |
|---|---|---|
| Activation.Logistic | Models/Regressor.java:218 | the logistic value 1/(1+exp(-a)) lies strictly between 0 and 1 |
| Activation.Af | Models/Regressor.java:214-222 | Identity returns its argument; ReLU returns a non-negative value that is either 0 or the argument and at least the argument; Sigmoid lies in (0, 1); the default branch is unreachable because the kinds are closed |
| Activation.Afd | Models/Regressor.java:224-238 | Identity has slope 1; ReLU has slope 1 exactly when z > 0 and 0 exactly when z <= 0; the Sigmoid slope lies in (0, 1/4]; the Tanh slope is at most 1 |
| Activation.LogisticSlopeBound | Models/Regressor.java:228-231 | s(1-s) lies in (0, 1/4] for every s in (0, 1) |
| Activation.ApplyAf | Models/Regressor.java:210-212 | mapping a layer keeps its length and applies af to every entry, in order |
| Activation.PiecewiseLinearDerivative | Models/Regressor.java:216-227 | for Identity and ReLU, af(z) = afd(z) * z |
| Activation.DerivativeFromValue | Models/Regressor.java:228-235 | the Sigmoid slope is s(1-s) and the Tanh slope is 1-t^2, where s and t are the activation values |
| Activation.IdentityLayer | Models/Regressor.java:210-216 | the identity activation leaves a layer unchanged |
| Network.ZLayer | Models/Regressor.java:130-143 | a z-layer has one value per neuron of the layer, that is, one per bias |
| Network.LayerZ | Models/Regressor.java:112-128 | layer 0's z-values are at least as wide as the input layer, and every later layer has exactly its layer size |
| Network.Trace | Models/Regressor.java:112-128 | the forward trace has one z-list and one activation list per layer, each at least as long as its layer size |
| Network.TraceInput | Models/Regressor.java:115-118 | z[0] of the trace is the input verbatim, and a[0] is the input with act[0] applied to each entry |
| Network.TraceLayer | Models/Regressor.java:116-124 | for l > 0, z[l] is the z-layer of a[l-1] with weights[l-1] and biases[l], and a[l] is af of z[l] |
| Network.TraceRecurrence | Models/Regressor.java:130-143 | for l > 0 and each neuron j, z[l][j] = sum_i a[l-1][i] * w[l-1][i][j] + b[l][j] and a[l][j] = af(z[l][j]); both layers have exactly ls[l] entries |
| Network.Output | Models/Regressor.java:94-97 | the prediction, the activations of the last layer, is as wide as the output layer; Models/InferenceRegressor.java:57-73 returns the same |
| Network.LayerActivation | Models/Regressor.java:119-123 | the activations of a layer are af of its z-values, entry by entry, so they are exactly as many |
| Network.WeightedSum | Models/Regressor.java:133-138 | the sum of a[i] * m[i][j] over the first n rows, accumulated in increasing i; used by ZLayer and proved by TraceRecurrence |
| Network.OutputWidth | Models/Regressor.java:94-97 | the prediction is the last activation list of the trace and has the width of the output layer |
| Network.LayerDependsOn | Models/Regressor.java:130-143 | layer l of the forward pass depends only on the weights below l and the biases of layers 1 to l |
| Network.InputBiasIrrelevant | Models/Regressor.java:115-116 | replacing the biases of layer 0 changes no prediction |
| Network.WeightedSumPrefix | Models/Regressor.java:134-137 | a weighted sum over the first n rows reads only the first n activations |
| Network.SurplusInputIgnored | Models/Regressor.java:112-143 | past layer 0, an input longer than the input layer gives the same z-values and activations as its first ls[0] entries |
| Network.IdentityNetwork | Models/Regressor.java:112-143 | a network of identity activations, identity weight matrices and zero biases reproduces its input in every layer |
| Network.SumSquares | Models/Regressor.java:104-108 | the squared error accumulated over the first n entries, in increasing order, is never negative |
| Network.SumSquaresZero | Models/Regressor.java:104-109 | the squared error is zero exactly when the predicted and observed prefixes are equal |
| Network.SumSquaresShift | Models/Regressor.java:104-109 | moving prediction i by a*h moves the squared error by h * a * 2(p_i - o_i) + (a h)^2 |
| Network.Loss | Models/Regressor.java:100-110 | a DimensionalityException exactly when predicted is not as wide as the output layer or has a different length from observed; otherwise a value >= 0 that is 0 exactly when predicted == observed |
| Network.BackSum | Models/Regressor.java:168-172 | dC_da: the sum of w[i][j] * delta[j] over the first n neurons of the layer above, accumulated in increasing j; used by NeuronDelta and computed by HiddenLayerGradients |
| Network.NeuronDelta | Models/Regressor.java:167-175 | the delta of one neuron, da_dz * dC_da; DeltaFromSnoc and HiddenLayerGradients tie it to the loop |
| Network.ScaledRow | Models/Regressor.java:173 | the weight-gradient row a[i] * delta[j] of one neuron has one entry per neuron of the layer above |
| Network.DeltasFrom | Models/Regressor.java:163-177 | the bias-gradient list that addFirst has built once layers l to L-1 are done holds |ls| - l deltas; BackpropFromSuffixes ties it to Backprop |
| Network.WeightGradientsFrom | Models/Regressor.java:163-177 | the weight-gradient list that addFirst has built once layers l to L-2 are done holds |ls| - 1 - l matrices; BackpropFromSuffixes ties it to Backprop |
| Network.DeltaFrom | Models/Regressor.java:166-176 | a hidden layer's delta has one entry per neuron of the layer |
| Network.Outer | Models/Regressor.java:169-173 | a weight-gradient layer has one row per neuron of the layer and one column per neuron of the layer above |
| Network.OutputDelta | Models/Regressor.java:149-160 | the output delta has one entry per output neuron |
| Network.Delta | Models/Regressor.java:162-177 | the delta of every layer l, including layer 0, has ls[l] entries |
| Network.WeightGradientLayer | Models/Regressor.java:169-174 | the weight gradient of layer l is an ls[l] x ls[l+1] matrix |
| Network.Backprop | Models/Regressor.java:145-198 | the gradients have exactly the shapes of the weights and biases, so the shape checks before the update never throw |
| Network.BackpropFromSuffixes | Models/Regressor.java:146-177 | the gradient lists built by prepending one layer at a time, from the output layer down to layer 0, are the gradients of Backprop |
| Network.StepVector | Models/Regressor.java:200-205 | one bias list after the step, as long as before |
| Network.StepMatrix | Models/Regressor.java:184-193 | one weight matrix after the step, with every row as long as before |
| Network.Step | Models/Regressor.java:180-206 | a gradient step keeps the shapes of the weights and biases |
| Network.StepInverse | Models/Regressor.java:187-205 | stepping with -lr after stepping with lr restores the parameters |
| Network.StepZeroGradient | Models/Regressor.java:180-206 | a step along an all-zero gradient changes no parameter |
| Network.StepZeroRate | Models/Regressor.java:180-206 | a step with learning rate 0 changes no parameter, whatever the gradient |
| Network.PerfectFitZeroDelta | Models/Regressor.java:149-177 | when the output equals the target, the delta of every layer is zero |
| Network.PerfectFitZeroGradient | Models/Regressor.java:149-177 | when the output equals the target, every weight and bias gradient is zero |
| Network.ZLayerBiasShift | Models/Regressor.java:139-140 | moving bias i by h moves z-value i by h and no other z-value |
| Network.ZLayerWeightShift | Models/Regressor.java:134-138 | moving weight [i][j] by h moves z-value j by prev[i]*h and no other z-value |
| Network.OutputBiasShiftsOutput | Models/Regressor.java:130-143 | moving an output-layer bias by h moves only that output z-value, by h |
| Network.OutputWeightShiftsOutput | Models/Regressor.java:130-143 | moving weight [i][j] into the output layer by h moves only output z-value j, by a[L-2][i]*h |
| Network.BackpropOutputBias | Models/Regressor.java:149-160 | under the identity output activation, the output bias gradient is 2(a[L-1][i] - y[i]) |
| Network.BackpropOutputWeight | Models/Regressor.java:169-174 | the gradient of weight [i][j] into the output layer is a[L-2][i] times the output delta j |
| Network.OutputBiasGradient | Models/Regressor.java:145-160 | under the identity output activation, moving output bias i by h changes the loss by exactly h times the bias gradient plus h^2 |
| Network.OutputWeightGradient | Models/Regressor.java:162-174 | under the identity output activation, moving weight [i][j] into the output layer by h changes the loss by exactly h times its weight gradient plus (a[L-2][i] h)^2 |
| Kernels.PassOnceAndGetZValues | Models/Regressor.java:130-143 | the nested accumulator loops compute the z-layer; the copy in Models/InferenceRegressor.java:76-89 is the same |
| Kernels.SquaredError | Models/Regressor.java:103-109 | the accumulator loop computes the sum of squared differences, which is >= 0 |
| Kernels.ComputeLoss | Models/Regressor.java:100-110 | the guard and the accumulator compute Loss: the exception or the sum of squares |
| DataClasses.Dataset.constructor | DataClasses/Dataset.java:14-18 | a new dataset holds no points and has the given dimensions |
| DataClasses.Dataset.PutDataPoint | DataClasses/Dataset.java:20-23 | fails with DimensionalityException exactly when |x| or |y| differs from the dimensions, leaving the points as they were; otherwise appends exactly the point at the end; keeps every point of the dataset's dimensions |
| DataClasses.Dataset.GetDataPoints | DataClasses/Dataset.java:25-27 | every returned point has the dataset's dimensions |
| DataClasses.Dataset.GetDimensionX | DataClasses/Dataset.java:28-30 | the input dimension fixed at construction |
| DataClasses.Dataset.GetDimensionY | DataClasses/Dataset.java:31-33 | the output dimension fixed at construction |
| RegressorModel.TrainStep | Models/Regressor.java:83-92 | one training step keeps the network's shapes |
| RegressorModel.PointStep | Models/Regressor.java:62-63 | the step of an epoch on one point; PointStepIsTrainStep proves it is one trainOnPoint |
| RegressorModel.Epoch | Models/Regressor.java:62-67 | one epoch: the step folded over the points in stored order; EpochAppend and RunEpoch state what it means |
| RegressorModel.Epochs | Models/Regressor.java:60-68 | n epochs over the same points; EpochsAdditive and RunEpochs state what it means |
| RegressorModel.PointStepIsTrainStep | Models/Regressor.java:62-63 | on a point that fits, the per-point step of an epoch is one trainOnPoint |
| RegressorModel.EpochKeepsShape | Models/Regressor.java:60-68 | an epoch keeps the network's shapes |
| RegressorModel.EpochAppend | Models/Regressor.java:62-67 | an epoch over a ++ b is an epoch over a followed by an epoch over b, because points are visited in stored order |
| RegressorModel.EpochsAdditive | Models/Regressor.java:60-77 | m + n epochs are m epochs followed by n epochs |
| RegressorModel.EpochsEmpty | Models/Regressor.java:60-68 | training on an empty dataset leaves the parameters unchanged |
| RegressorModel.PerfectFitIsFixpoint | Models/Regressor.java:83-92 | training on a point the network already predicts exactly leaves the parameters unchanged |
| RegressorModel.PerfectFitEpoch | Models/Regressor.java:62-67 | an epoch over points that are all predicted exactly leaves the parameters unchanged |
| RegressorModel.PerfectFitDataset | Models/Regressor.java:54-81 | any number of epochs over points that are all predicted exactly leave the parameters unchanged |
| RegressorModel.ZeroRateIsFixpoint | Models/Regressor.java:187-205 | with learning rate 0, a training step changes nothing |
| RegressorModel.ConstructListWithNElements | Models/Regressor.java:46-52 | n copies of the element, and none when n <= 0 |
| RegressorModel.RandomDouble | Models/Regressor.java:283-285 | a value in [-1, 1) |
| RegressorModel.GetRandomBiases | Models/Regressor.java:240-250 | one bias list per layer, each of its layer's size, with every entry in [-1, 1) |
| RegressorModel.GetRandomWeights | Models/Regressor.java:252-265 | for each l >= 1, a matrix of ls[l-1] rows of ls[l] entries, with every entry in [-1, 1) |
| RegressorModel.Regressor.constructor | Models/Regressor.java:30-44 | stores the topology, the activations, the learning rate and the initial parameters; the epoch count starts at 0 |
| RegressorModel.Regressor.Create | Models/Regressor.java:30-44 | ActivationFunctionException exactly when |hidden| + 2 != |layerSizes|; otherwise a fresh valid regressor with activations [Identity] ++ hidden ++ [Identity], the given topology and rate, epoch count 0, and every parameter in [-1, 1) |
| RegressorModel.Regressor.CreateWithReLU | Models/Regressor.java:25-28 | ActivationFunctionException exactly when there are fewer than two layers; otherwise ReLU on every hidden layer and Identity on the output layer |
| RegressorModel.Regressor.FeedForward | Models/Regressor.java:112-128 | the filled NNState is the forward trace of the current parameters |
| RegressorModel.Regressor.Predict | Models/Regressor.java:94-97 | the last activations of the trace, as wide as the output layer |
| RegressorModel.Regressor.Loss | Models/Regressor.java:99-110 | the guarded squared-error loss against the output layer's width |
| RegressorModel.Regressor.OutputLayerDelta | Models/Regressor.java:149-160 | the loop computes 2(a - y) f'(z) for every output neuron |
| RegressorModel.Regressor.HiddenLayerGradients | Models/Regressor.java:166-176 | the nested loops compute every neuron's delta, f'(z[i]) * sum_j w[i][j] delta[j], and the weight-gradient rows a[i] * delta[j] |
| RegressorModel.Regressor.ComputeGradients | Models/Regressor.java:145-177 | the gradient lists built from the output layer down to layer 0 are Backprop of the trace with the pre-update weights |
| RegressorModel.Regressor.StepRow | Models/Regressor.java:200-205 | the in-place loop over a bias list leaves v[k] - lr * g[k] in every entry |
| RegressorModel.Regressor.StepRows | Models/Regressor.java:184-193 | the in-place loops over a weight matrix leave m[i][k] - lr * g[i][k] in every entry |
| RegressorModel.Regressor.ApplyStep | Models/Regressor.java:180-206 | the new parameters are exactly one Step from the old ones; shapes, hyper-parameters and the epoch count are unchanged |
| RegressorModel.Regressor.UpdateParams | Models/Regressor.java:145-208 | the new parameters are one Step along the gradients of the trace, computed with the weights from before the update |
| RegressorModel.Regressor.TrainOnPoint | Models/Regressor.java:83-92 | with shouldShow set, DimensionalityException exactly when the output is not as wide as the output layer (the loss at :88 throws), raised before the update and with nothing changed; otherwise the new parameters are TrainStep of the old ones; the epoch count is unchanged either way |
| RegressorModel.Regressor.RunEpoch | Models/Regressor.java:62-67 | one pass over the points in stored order: the new parameters are Epoch of the old ones |
| RegressorModel.Regressor.RunEpochs | Models/Regressor.java:60-77 | n epochs: the epoch count grows by n and the parameters are Epochs of the old ones |
| RegressorModel.Regressor.TrainOnDataset | Models/Regressor.java:54-81 | DimensionalityException exactly when the dataset's dimensions differ from the input or output layer, raised before any change; otherwise max(epochs, 0) epochs over the stored points in stored order, each one counted |
| InferenceRegressorModel.InferenceRegressor.constructor | Models/InferenceRegressor.java:20-42 | the copy loops produce weights and biases equal to the source's; the topology and the activations are those of the source |
| InferenceRegressorModel.InferenceRegressor.Predict | Models/InferenceRegressor.java:57-73 | the activations-only forward pass returns the trainer's Output for these parameters, as wide as the output layer, and changes nothing |
| InferenceRegressorModel.InferenceRegressor.Loss | Models/InferenceRegressor.java:44-55 | the same guarded squared-error loss as the trainer |
| InferenceRegressorModel.SnapshotThenTrain | Models/InferenceRegressor.java:25-41 | a snapshot taken before a training step keeps the old weights and biases while the trainer moves on by TrainStep |
| InferenceRegressorModel.PredictionsAgree | Models/InferenceRegressor.java:57-89 | at copy time the snapshot and the trainer predict the same vector for every input |

## Left out

- RegressorModel.Regressor.FeedForward: requires `|input| >= layerSizes[0]`. The code checks no length before indexing. A shorter input makes Java throw an index error when the first hidden layer is not empty, and is accepted when it is; neither case is modelled. Predict and TrainOnPoint require the same.
- RegressorModel.Regressor.TrainOnPoint: with shouldShow unset, requires `|output| >= layerSizes[L-1]`; a shorter output makes `updateParams` throw an index error (Models/Regressor.java:152), which is not modelled. The printed loss is not modelled.
- InferenceRegressorModel.InferenceRegressor.Predict: requires `|input| >= layerSizes[0]`, for the same reason.
- InferenceRegressorModel.SnapshotThenTrain: the parameters are Dafny sequences, which are values, so the snapshot's independence from later training holds for any copy, a shallow one included. The fresh allocation of the copied lists at Models/InferenceRegressor.java:25-41 (`new ArrayList<>`), which is what keeps the Java snapshot apart from the trainer's in-place updates, is not modelled.
- RegressorModel.Regressor.TrainOnDataset: does not model the `long` elapsed-time result, the printed totals, or the per-point loss that shouldShow makes it recompute after each update (Models/Regressor.java:64-66). That loss cannot throw there, because every stored point is as wide as the output layer, and it changes no state. shouldShow is passed on to TrainOnPoint, whose loss cannot throw there either.
- RegressorModel.Regressor.TrainOnDataset: counts epochs with an unbounded integer. Java's `int epochCount` would wrap after 2^31 - 1 epochs.
- Network.Delta: specifies the hidden-layer deltas and weight gradients as the code computes them; only for the output layer is it proved that they are slopes of the loss. The chain rule through hidden layers involves the Sigmoid and Tanh derivatives, which are uninterpreted.
- Floating point: all arithmetic is exact over `real`. Rounding, overflow to infinity, NaN and convergence are not modelled.
- `Math.exp` and `Math.tanh` are uninterpreted (`exp` is assumed only to be positive). Properties that need their values beyond that are not stated.
- `Math.random()` is a nondeterministic choice in [-1, 1). Its distribution is not modelled.
- `writeToFile` / `createFromFile` (Models/Regressor.java:267-281) are Java object serialisation to files, which is foreign I/O.
- util/CommandPrompt.java is terminal I/O; it is not part of this model.
- The interfaces `PredictionModel` and `InferenceModel` have no logic. The snapshot class exposes only Predict and Loss, and its fields are `const`.
- Layer sizes are `nat`. A negative `Integer` in the Java list makes the allocation loops silently produce empty lists; that is not modelled.
- Aliasing between Java lists is not modelled, because Dafny sequences are values:
  - the constructor keeps the caller's `layerSizes` list;
  - the snapshot shares `layerSizes` and `activationFunctions` with its source, harmless because neither is ever mutated;
  - `getDataPoints` returns the live list, which a caller could mutate past the dimension guard;
  - layer 0 of a trace is the caller's input list.
- The `default` branches of `af` and `afd` (Models/Regressor.java:220, 236) cannot be reached, because the activation kinds are a closed datatype.
- `PointStep` has a fallback for parameters or points that do not fit the topology. The class never takes that branch, because TrainOnDataset checks the dimensions and the dataset keeps every point of its dimensions.
- `Dataset.getDimensionX` / `getDimensionY` are modelled as plain accessors of `const` fields, which no operation can change.
