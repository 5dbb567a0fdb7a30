/** The numeric engine of the regressor as pure functions over `real`:
    parameter shapes, the forward pass and its trace, the squared-error loss,
    backpropagation and the gradient step. The trainer and the inference
    snapshot are proved against these definitions. */
module Network {
  import opened Wrappers
  import opened Activation

  type Vector = seq<real>
  type Matrix = seq<Vector>

  /** The trace of one forward pass (util/NNState): per layer, the activations
      and the pre-activation sums. */
  datatype NNState = NNState(activations: seq<Vector>, zValues: seq<Vector>)

  /** The trainer's parameters: weights[l][i][j] connects neuron i of layer l to
      neuron j of layer l + 1; biases[l][i] belongs to neuron i of layer l. */
  datatype Params = Params(weights: seq<Matrix>, biases: seq<Vector>)

  /** Gradients of the loss, one entry per parameter. */
  datatype Gradients = Gradients(weightGradient: seq<Matrix>, biasGradient: seq<Vector>)

  // ---------------------------------------------------------------- shapes

  predicate MatrixShaped(m: Matrix, rows: nat, cols: nat) {
    |m| == rows && forall i :: 0 <= i < rows ==> |m[i]| == cols
  }

  predicate WeightsShaped(ls: seq<nat>, w: seq<Matrix>) {
    |w| + 1 == |ls| && forall l :: 0 <= l < |w| ==> MatrixShaped(w[l], ls[l], ls[l + 1])
  }

  predicate BiasesShaped(ls: seq<nat>, b: seq<Vector>) {
    |b| == |ls| && forall l :: 0 <= l < |b| ==> |b[l]| == ls[l]
  }

  /** A topology of at least two layers, one activation per layer, and
      parameters shaped after the topology. */
  predicate ValidNetwork(ls: seq<nat>, act: seq<ActivationFunction>, p: Params) {
    |ls| >= 2 && |act| == |ls| && WeightsShaped(ls, p.weights) && BiasesShaped(ls, p.biases)
  }

  /** Every layer of a trace is at least as long as its layer size (layer 0
      holds the input verbatim, which may be longer). */
  predicate TraceShaped(ls: seq<nat>, s: NNState) {
    |s.zValues| == |ls| && |s.activations| == |ls| &&
    forall l :: 0 <= l < |ls| ==> |s.zValues[l]| >= ls[l] && |s.activations[l]| >= ls[l]
  }

  // ----------------------------------------------------------- forward pass

  /** Sum over i < n of a[i] * m[i][j], accumulated in increasing i. */
  function WeightedSum(a: Vector, m: Matrix, j: nat, n: nat): real
    requires n <= |a| && n <= |m|
    requires forall i :: 0 <= i < n ==> j < |m[i]|
  {
    if n == 0 then 0.0 else WeightedSum(a, m, j, n - 1) + a[n - 1] * m[n - 1][j]
  }

  /** The pre-activation sums of a layer from the previous layer's activations,
      the connecting weights and the layer's biases. */
  function ZLayer(prev: Vector, m: Matrix, bias: Vector): (z: Vector)
    requires |m| <= |prev| && MatrixShaped(m, |m|, |bias|)
    ensures |z| == |bias|
  {
    seq(|bias|, j requires 0 <= j < |bias| => WeightedSum(prev, m, j, |m|) + bias[j])
  }

  /** The pre-activation values of layer l in a forward pass: the input itself
      for layer 0, and the z-layer of the previous activations otherwise. */
  function LayerZ(ls: seq<nat>, act: seq<ActivationFunction>, p: Params, input: Vector, l: nat): (z: Vector)
    requires ValidNetwork(ls, act, p) && |input| >= ls[0] && l < |ls|
    ensures |z| >= ls[l]
    ensures l > 0 ==> |z| == ls[l]
    decreases l, 0
  {
    if l == 0 then input
    else ZLayer(LayerActivation(ls, act, p, input, l - 1), p.weights[l - 1], p.biases[l])
  }

  /** The activations of layer l in a forward pass. */
  function LayerActivation(ls: seq<nat>, act: seq<ActivationFunction>, p: Params, input: Vector, l: nat): (a: Vector)
    requires ValidNetwork(ls, act, p) && |input| >= ls[0] && l < |ls|
    ensures |a| == |LayerZ(ls, act, p, input, l)|
    decreases l, 1
  {
    ApplyAf(LayerZ(ls, act, p, input, l), act[l])
  }

  /** The full trace of a forward pass (Regressor.feedForward): one entry per
      layer, in layer order. */
  function Trace(ls: seq<nat>, act: seq<ActivationFunction>, p: Params, input: Vector): (s: NNState)
    requires ValidNetwork(ls, act, p) && |input| >= ls[0]
    ensures TraceShaped(ls, s)
  {
    NNState(seq(|ls|, l requires 0 <= l < |ls| => LayerActivation(ls, act, p, input, l)),
            seq(|ls|, l requires 0 <= l < |ls| => LayerZ(ls, act, p, input, l)))
  }

  /** The network's prediction: the activations of the last layer. */
  function Output(ls: seq<nat>, act: seq<ActivationFunction>, p: Params, input: Vector): (r: Vector)
    requires ValidNetwork(ls, act, p) && |input| >= ls[0]
    ensures |r| == ls[|ls| - 1]
  {
    LayerActivation(ls, act, p, input, |ls| - 1)
  }

  /** Layer 0 of the trace is the input verbatim. */
  lemma TraceInput(ls: seq<nat>, act: seq<ActivationFunction>, p: Params, input: Vector)
    requires ValidNetwork(ls, act, p) && |input| >= ls[0]
    ensures Trace(ls, act, p, input).zValues[0] == input
    ensures Trace(ls, act, p, input).activations[0] == ApplyAf(input, act[0])
  {
  }

  /** Every later layer of the trace is the z-layer of the previous
      activations, passed through the layer's activation function. */
  lemma TraceLayer(ls: seq<nat>, act: seq<ActivationFunction>, p: Params, input: Vector, l: nat)
    requires ValidNetwork(ls, act, p) && |input| >= ls[0] && 0 < l < |ls|
    ensures
      var t := Trace(ls, act, p, input);
      && t.zValues[l] == ZLayer(t.activations[l - 1], p.weights[l - 1], p.biases[l])
      && t.activations[l] == ApplyAf(t.zValues[l], act[l])
  {
  }

  /** The forward recurrence entry by entry: for l > 0,
      z[l][j] = sum_i a[l-1][i] * w[l-1][i][j] + b[l][j] and a[l][j] = f_l(z[l][j]). */
  lemma TraceRecurrence(ls: seq<nat>, act: seq<ActivationFunction>, p: Params, input: Vector, l: nat, j: nat)
    requires ValidNetwork(ls, act, p) && |input| >= ls[0] && 0 < l < |ls| && j < ls[l]
    ensures
      var t := Trace(ls, act, p, input);
      && |t.zValues[l]| == |t.activations[l]| == ls[l]
      && t.zValues[l][j] == WeightedSum(t.activations[l - 1], p.weights[l - 1], j, ls[l - 1]) + p.biases[l][j]
      && t.activations[l][j] == Af(t.zValues[l][j], act[l])
  {
    TraceLayer(ls, act, p, input, l);
  }

  /** The prediction is the last layer of the trace and has the width of the
      output layer. */
  lemma OutputWidth(ls: seq<nat>, act: seq<ActivationFunction>, p: Params, input: Vector)
    requires ValidNetwork(ls, act, p) && |input| >= ls[0]
    ensures Output(ls, act, p, input) == Trace(ls, act, p, input).activations[|ls| - 1]
    ensures |Output(ls, act, p, input)| == ls[|ls| - 1]
  {
  }

  /** Layer l of the forward pass reads only the weights below layer l and the
      biases of layers 1 to l; in particular the biases of layer 0 never take
      part in it. */
  lemma {:induction false} LayerDependsOn(ls: seq<nat>, act: seq<ActivationFunction>, p: Params, q: Params, input: Vector, l: nat)
    requires ValidNetwork(ls, act, p) && ValidNetwork(ls, act, q) && |input| >= ls[0] && l < |ls|
    requires forall k :: 0 <= k < l ==> p.weights[k] == q.weights[k]
    requires forall k :: 0 < k <= l ==> p.biases[k] == q.biases[k]
    ensures LayerZ(ls, act, p, input, l) == LayerZ(ls, act, q, input, l)
    ensures LayerActivation(ls, act, p, input, l) == LayerActivation(ls, act, q, input, l)
    decreases l
  {
    if l > 0 {
      LayerDependsOn(ls, act, p, q, input, l - 1);
      assert p.weights[l - 1] == q.weights[l - 1] && p.biases[l] == q.biases[l];
    }
  }

  /** The bias of layer 0 is dead: changing it changes no prediction. */
  lemma InputBiasIrrelevant(ls: seq<nat>, act: seq<ActivationFunction>, p: Params, b0: Vector, input: Vector)
    requires ValidNetwork(ls, act, p) && |input| >= ls[0] && |b0| == ls[0]
    ensures ValidNetwork(ls, act, Params(p.weights, p.biases[0 := b0]))
    ensures Output(ls, act, Params(p.weights, p.biases[0 := b0]), input) == Output(ls, act, p, input)
  {
    LayerDependsOn(ls, act, p, Params(p.weights, p.biases[0 := b0]), input, |ls| - 1);
  }

  /** A weighted sum over the first n entries reads no entry beyond them. */
  lemma {:induction false} WeightedSumPrefix(a: Vector, b: Vector, m: Matrix, j: nat, n: nat)
    requires n <= |a| && n <= |b| && n <= |m| && a[..n] == b[..n]
    requires forall i :: 0 <= i < n ==> j < |m[i]|
    ensures WeightedSum(a, m, j, n) == WeightedSum(b, m, j, n)
    decreases n
  {
    if n > 0 {
      assert a[n - 1] == a[..n][n - 1] && b[n - 1] == b[..n][n - 1];
      assert a[..n - 1] == a[..n][..n - 1] && b[..n - 1] == b[..n][..n - 1];
      WeightedSumPrefix(a, b, m, j, n - 1);
    }
  }

  /** Past layer 0, an input longer than the input layer behaves as its first
      ls[0] entries: the surplus is carried in layer 0 of the trace and then
      ignored, since no dimension check guards the forward pass. */
  lemma {:induction false} SurplusInputIgnored(ls: seq<nat>, act: seq<ActivationFunction>, p: Params, input: Vector, l: nat)
    requires ValidNetwork(ls, act, p) && |input| >= ls[0] && 0 < l < |ls|
    ensures LayerZ(ls, act, p, input, l) == LayerZ(ls, act, p, input[..ls[0]], l)
    ensures LayerActivation(ls, act, p, input, l) == LayerActivation(ls, act, p, input[..ls[0]], l)
    decreases l
  {
    var short := input[..ls[0]];
    if l == 1 {
      var a := LayerActivation(ls, act, p, input, 0);
      var b := LayerActivation(ls, act, p, short, 0);
      assert a[..ls[0]] == b[..ls[0]];
      forall j | 0 <= j < ls[1]
        ensures WeightedSum(a, p.weights[0], j, ls[0]) == WeightedSum(b, p.weights[0], j, ls[0])
      {
        assert MatrixShaped(p.weights[0], ls[0], ls[1]);
        WeightedSumPrefix(a, b, p.weights[0], j, ls[0]);
      }
    } else {
      SurplusInputIgnored(ls, act, p, input, l - 1);
    }
  }

  // --------------------------------------------------- identity network

  function IdentityMatrix(n: nat): (m: Matrix)
    ensures MatrixShaped(m, n, n)
  {
    seq(n, i requires 0 <= i < n => seq(n, j requires 0 <= j < n => if i == j then 1.0 else 0.0))
  }

  lemma {:induction false} WeightedSumIdentity(a: Vector, n: nat, j: nat, k: nat)
    requires k <= n <= |a| && j < n
    ensures WeightedSum(a, IdentityMatrix(n), j, k) == if j < k then a[j] else 0.0
    decreases k
  {
    if k > 0 {
      WeightedSumIdentity(a, n, j, k - 1);
    }
  }

  /** A network whose layers all have width n, whose activations are all the
      identity, whose weight matrices are identity matrices and whose biases
      are zero reproduces its input in every layer. */
  lemma {:induction false} IdentityNetwork(ls: seq<nat>, act: seq<ActivationFunction>, p: Params, input: Vector, l: nat)
    requires ValidNetwork(ls, act, p) && |input| == ls[0]
    requires forall k :: 0 <= k < |ls| ==> ls[k] == |input|
    requires forall k :: 0 <= k < |act| ==> act[k] == Identity
    requires forall k :: 0 <= k < |p.weights| ==> p.weights[k] == IdentityMatrix(|input|)
    requires forall k :: 0 <= k < |p.biases| ==> p.biases[k] == seq(|input|, i => 0.0)
    requires l < |ls|
    ensures LayerActivation(ls, act, p, input, l) == input
    decreases l
  {
    if l > 0 {
      IdentityNetwork(ls, act, p, input, l - 1);
      var z := LayerZ(ls, act, p, input, l);
      assert z == ZLayer(input, p.weights[l - 1], p.biases[l]);
      forall j | 0 <= j < |input|
        ensures z[j] == input[j]
      {
        WeightedSumIdentity(input, |input|, j, |input|);
      }
      assert z == input;
    }
    IdentityLayer(LayerZ(ls, act, p, input, l));
  }

  // ------------------------------------------------------------------ loss

  /** Sum over i < n of (observed[i] - predicted[i])^2, accumulated in increasing i. */
  function SumSquares(predicted: Vector, observed: Vector, n: nat): (r: real)
    requires n <= |predicted| && n <= |observed|
    ensures r >= 0.0
  {
    if n == 0 then 0.0
    else
      var diff := observed[n - 1] - predicted[n - 1];
      var rest := SumSquares(predicted, observed, n - 1);
      if diff == 0.0 then rest + diff * diff
      else
        AddSquarePositive(rest, diff);
        rest + diff * diff
  }

  /** Adding a product of two positive numbers to a non-negative one gives a
      positive number. */
  lemma AddProductPositive(r: real, a: real, b: real)
    requires r >= 0.0 && a > 0.0 && b > 0.0
    ensures r + a * b > 0.0
  {
    assert a * b > 0.0;
  }

  /** Adding the square of a non-zero number to a non-negative one gives a
      positive number. */
  lemma AddSquarePositive(r: real, d: real)
    requires r >= 0.0 && d != 0.0
    ensures r + d * d > 0.0
  {
    if d > 0.0 {
      AddProductPositive(r, d, d);
    } else {
      AddProductPositive(r, -d, -d);
    }
  }

  /** The squared error vanishes exactly when the two prefixes agree. */
  lemma {:induction false} SumSquaresZero(predicted: Vector, observed: Vector, n: nat)
    requires n <= |predicted| && n <= |observed|
    ensures SumSquares(predicted, observed, n) == 0.0 <==> predicted[..n] == observed[..n]
  {
    if n > 0 {
      SumSquaresZero(predicted, observed, n - 1);
      var diff := observed[n - 1] - predicted[n - 1];
      var rest := SumSquares(predicted, observed, n - 1);
      assert predicted[..n] == predicted[..n - 1] + [predicted[n - 1]];
      assert observed[..n] == observed[..n - 1] + [observed[n - 1]];
      if diff != 0.0 {
        AddSquarePositive(rest, diff);
        assert predicted[..n][n - 1] != observed[..n][n - 1];
      } else if rest != 0.0 {
        assert predicted[..n][..n - 1] != observed[..n][..n - 1];
      }
    }
  }

  /** The squared error reads only the first n predictions. */
  lemma {:induction false} SumSquaresAgree(predicted: Vector, other: Vector, observed: Vector, n: nat)
    requires n <= |predicted| && n <= |other| && n <= |observed|
    requires forall k :: 0 <= k < n ==> predicted[k] == other[k]
    ensures SumSquares(predicted, observed, n) == SumSquares(other, observed, n)
    decreases n
  {
    if n > 0 {
      SumSquaresAgree(predicted, other, observed, n - 1);
    }
  }

  /** The first n entries of v are those of u, except that entry i is moved
      by a * h. */
  predicate ShiftedAt(v: Vector, u: Vector, n: nat, i: nat, a: real, h: real)
    requires n <= |v| && n <= |u|
  {
    forall k :: 0 <= k < n ==> v[k] == if k == i then u[k] + a * h else u[k]
  }

  /** The value before + h * slope + (scale * h)^2: what a quantity that is
      quadratic in a parameter becomes when that parameter moves by h. */
  function Perturbed(before: real, h: real, slope: real, scale: real): real
  {
    before + h * slope + (scale * h) * (scale * h)
  }

  lemma SquareShift(o: real, p: real, s: real, a: real, h: real)
    requires s == p + a * h
    ensures (o - s) * (o - s) == Perturbed((o - p) * (o - p), h, a * (2.0 * (p - o)), a)
  {
  }

  /** Moving prediction i by a * h changes the squared error by exactly
      h * a * 2 (predicted[i] - observed[i]) + (a h)^2: the slope is the
      derivative the output-layer delta uses. */
  lemma {:induction false} SumSquaresShift(predicted: Vector, shifted: Vector, observed: Vector, n: nat, i: nat, a: real, h: real)
    requires i < n <= |predicted| && n <= |shifted| && n <= |observed|
    requires ShiftedAt(shifted, predicted, n, i, a, h)
    ensures SumSquares(shifted, observed, n)
         == Perturbed(SumSquares(predicted, observed, n), h, a * (2.0 * (predicted[i] - observed[i])), a)
    decreases n
  {
    if i == n - 1 {
      SumSquaresAgree(predicted, shifted, observed, n - 1);
      SquareShift(observed[i], predicted[i], shifted[i], a, h);
    } else {
      SumSquaresShift(predicted, shifted, observed, n - 1, i, a, h);
    }
  }

  /** The loss of Regressor.loss and InferenceRegressor.loss: a
      DimensionalityException unless both vectors have the width of the output
      layer, and otherwise the (unaveraged) sum of squared errors. */
  function Loss(outputWidth: nat, predicted: Vector, observed: Vector): (r: Result<real>)
    ensures r.Err? <==> outputWidth != |predicted| || |predicted| != |observed|
    ensures r.Err? ==> r.error == DimensionalityException
    ensures r.Ok? ==> r.value >= 0.0
    ensures r.Ok? ==> (r.value == 0.0 <==> predicted == observed)
  {
    if outputWidth != |predicted| || |predicted| != |observed| then Err(DimensionalityException)
    else
      SumSquaresZero(predicted, observed, |predicted|);
      assert predicted[..|predicted|] == predicted && observed[..|observed|] == observed;
      Ok(SumSquares(predicted, observed, |predicted|))
  }

  // ------------------------------------------------------- backpropagation

  /** Sum over j < n of row[j] * delta[j], accumulated in increasing j. */
  function BackSum(row: Vector, delta: Vector, n: nat): real
    requires n <= |row| && n <= |delta|
  {
    if n == 0 then 0.0 else BackSum(row, delta, n - 1) + row[n - 1] * delta[n - 1]
  }

  /** The delta of the first `width` neurons of a layer from the delta `next`
      of the layer above: f'(z[i]) * sum_j m[i][j] * next[j] for every neuron i. */
  function DeltaFrom(z: Vector, f: ActivationFunction, m: Matrix, next: Vector, width: nat): (d: Vector)
    requires width <= |z| && width <= |m| && forall i :: 0 <= i < width ==> |m[i]| == |next|
    ensures |d| == width
  {
    seq(width, i requires 0 <= i < width => NeuronDelta(z[i], f, m[i], next))
  }

  /** The delta of one neuron: its activation's slope da/dz at z, times
      dC/da, the sum of its outgoing weights times the deltas above. */
  function NeuronDelta(z: real, f: ActivationFunction, row: Vector, next: Vector): real
    requires |row| == |next|
  {
    Afd(z, f) * BackSum(row, next, |next|)
  }

  /** One more neuron appends its entry to DeltaFrom. */
  lemma DeltaFromSnoc(z: Vector, f: ActivationFunction, m: Matrix, next: Vector, width: nat)
    requires width < |z| && width < |m| && forall i :: 0 <= i <= width ==> |m[i]| == |next|
    ensures DeltaFrom(z, f, m, next, width + 1)
         == DeltaFrom(z, f, m, next, width) + [NeuronDelta(z[width], f, m[width], next)]
  {
    assert DeltaFrom(z, f, m, next, width + 1)[..width] == DeltaFrom(z, f, m, next, width);
  }

  /** The weight gradient of the first `width` neurons of a layer: a[i] * next[j]
      for every neuron i of the layer and j of the layer above. */
  function Outer(a: Vector, next: Vector, width: nat): (m: Matrix)
    requires width <= |a|
    ensures MatrixShaped(m, width, |next|)
  {
    seq(width, i requires 0 <= i < width => ScaledRow(a[i], next))
  }

  /** c * v[j] for every j. */
  function ScaledRow(c: real, v: Vector): (r: Vector)
    ensures |r| == |v|
  {
    seq(|v|, j requires 0 <= j < |v| => c * v[j])
  }

  /** One more neuron appends its row to Outer. */
  lemma OuterSnoc(a: Vector, next: Vector, width: nat)
    requires width < |a|
    ensures Outer(a, next, width + 1) == Outer(a, next, width) + [ScaledRow(a[width], next)]
  {
    assert Outer(a, next, width + 1)[..width] == Outer(a, next, width);
  }

  /** The output layer's delta under squared error: 2 (a - y) f'(z). */
  function OutputDelta(ls: seq<nat>, act: seq<ActivationFunction>, s: NNState, y: Vector): (d: Vector)
    requires |ls| >= 1 && |act| == |ls| && TraceShaped(ls, s) && |y| >= ls[|ls| - 1]
    ensures |d| == ls[|ls| - 1]
  {
    var o := |ls| - 1;
    seq(ls[o], i requires 0 <= i < ls[o] =>
      2.0 * (s.activations[o][i] - y[i]) * Afd(s.zValues[o][i], act[o]))
  }

  /** The delta (bias gradient) of layer l, computed back from the output layer
      with the given weights: f'(z[l][i]) * sum_j w[l][i][j] * delta[l + 1][j]. */
  function Delta(ls: seq<nat>, act: seq<ActivationFunction>, w: seq<Matrix>, s: NNState, y: Vector, l: nat): (d: Vector)
    requires |act| == |ls| && WeightsShaped(ls, w) && TraceShaped(ls, s) && |y| >= ls[|ls| - 1] && l < |ls|
    ensures |d| == ls[l]
    decreases |ls| - l
  {
    if l == |ls| - 1 then OutputDelta(ls, act, s, y)
    else
      DeltaFrom(s.zValues[l], act[l], w[l], Delta(ls, act, w, s, y, l + 1), ls[l])
  }

  /** The weight gradient of layer l: a[l][i] * delta[l + 1][j]. */
  function WeightGradientLayer(ls: seq<nat>, act: seq<ActivationFunction>, w: seq<Matrix>, s: NNState, y: Vector, l: nat): (m: Matrix)
    requires |act| == |ls| && WeightsShaped(ls, w) && TraceShaped(ls, s) && |y| >= ls[|ls| - 1] && l + 1 < |ls|
    ensures MatrixShaped(m, ls[l], ls[l + 1])
  {
    Outer(s.activations[l], Delta(ls, act, w, s, y, l + 1), ls[l])
  }

  /** Backpropagation of one trace against one target. The gradients have
      exactly the shapes of the parameters, so the shape checks of
      Regressor.updateParams never fail. */
  function Backprop(ls: seq<nat>, act: seq<ActivationFunction>, w: seq<Matrix>, s: NNState, y: Vector): (g: Gradients)
    requires |act| == |ls| && WeightsShaped(ls, w) && TraceShaped(ls, s) && |y| >= ls[|ls| - 1]
    ensures WeightsShaped(ls, g.weightGradient) && BiasesShaped(ls, g.biasGradient)
  {
    Gradients(
      seq(|ls| - 1, l requires 0 <= l < |ls| - 1 => WeightGradientLayer(ls, act, w, s, y, l)),
      seq(|ls|, l requires 0 <= l < |ls| => Delta(ls, act, w, s, y, l)))
  }

  /** The deltas of layers l up to the output layer, in layer order: the bias
      gradient lists from layer l on, as updateParams prepends them. */
  function DeltasFrom(ls: seq<nat>, act: seq<ActivationFunction>, w: seq<Matrix>, s: NNState, y: Vector, l: nat): (ds: seq<Vector>)
    requires |act| == |ls| && WeightsShaped(ls, w) && TraceShaped(ls, s) && |y| >= ls[|ls| - 1] && l < |ls|
    ensures |ds| == |ls| - l
    decreases |ls| - l
  {
    if l == |ls| - 1 then [Delta(ls, act, w, s, y, l)]
    else [Delta(ls, act, w, s, y, l)] + DeltasFrom(ls, act, w, s, y, l + 1)
  }

  /** The weight gradients of layers l up to the last weight layer, in
      layer order. */
  function WeightGradientsFrom(ls: seq<nat>, act: seq<ActivationFunction>, w: seq<Matrix>, s: NNState, y: Vector, l: nat): (gs: seq<Matrix>)
    requires |act| == |ls| && WeightsShaped(ls, w) && TraceShaped(ls, s) && |y| >= ls[|ls| - 1] && l < |ls|
    ensures |gs| == |ls| - 1 - l
    decreases |ls| - l
  {
    if l == |ls| - 1 then []
    else [WeightGradientLayer(ls, act, w, s, y, l)] + WeightGradientsFrom(ls, act, w, s, y, l + 1)
  }

  /** Entry k of the suffixes from layer l is the gradient of layer l + k. */
  lemma {:induction false} GradientsFromIndex(ls: seq<nat>, act: seq<ActivationFunction>, w: seq<Matrix>, s: NNState, y: Vector, l: nat, k: nat)
    requires |act| == |ls| && WeightsShaped(ls, w) && TraceShaped(ls, s) && |y| >= ls[|ls| - 1] && l + k < |ls|
    ensures DeltasFrom(ls, act, w, s, y, l)[k] == Delta(ls, act, w, s, y, l + k)
    ensures l + k < |ls| - 1 ==> WeightGradientsFrom(ls, act, w, s, y, l)[k] == WeightGradientLayer(ls, act, w, s, y, l + k)
    decreases k
  {
    if k > 0 {
      GradientsFromIndex(ls, act, w, s, y, l + 1, k - 1);
      assert l + 1 + (k - 1) == l + k;
    }
  }

  /** The gradients of backpropagation are the suffixes from layer 0. */
  lemma BackpropFromSuffixes(ls: seq<nat>, act: seq<ActivationFunction>, w: seq<Matrix>, s: NNState, y: Vector)
    requires |act| == |ls| && WeightsShaped(ls, w) && TraceShaped(ls, s) && |y| >= ls[|ls| - 1]
    ensures Backprop(ls, act, w, s, y) == Gradients(WeightGradientsFrom(ls, act, w, s, y, 0), DeltasFrom(ls, act, w, s, y, 0))
  {
    var g := Backprop(ls, act, w, s, y);
    forall k | 0 <= k < |ls|
      ensures DeltasFrom(ls, act, w, s, y, 0)[k] == g.biasGradient[k]
      ensures k < |ls| - 1 ==> WeightGradientsFrom(ls, act, w, s, y, 0)[k] == g.weightGradient[k]
    {
      GradientsFromIndex(ls, act, w, s, y, 0, k);
    }
  }

  // ------------------------------------------------------ gradient step

  function StepVector(v: Vector, g: Vector, lr: real): (r: Vector)
    requires |g| == |v|
    ensures |r| == |v|
  {
    seq(|v|, k requires 0 <= k < |v| => v[k] - lr * g[k])
  }

  function StepMatrix(m: Matrix, g: Matrix, lr: real): (r: Matrix)
    requires |g| == |m| && forall i :: 0 <= i < |m| ==> |g[i]| == |m[i]|
    ensures |r| == |m| && forall i :: 0 <= i < |m| ==> |r[i]| == |m[i]|
  {
    seq(|m|, i requires 0 <= i < |m| => StepVector(m[i], g[i], lr))
  }

  lemma SameLayerShape(ls: seq<nat>, w: seq<Matrix>, g: seq<Matrix>, l: nat)
    requires WeightsShaped(ls, w) && WeightsShaped(ls, g) && l < |w|
    ensures |g[l]| == |w[l]| && forall i :: 0 <= i < |w[l]| ==> |g[l][i]| == |w[l][i]|
  {
    assert MatrixShaped(w[l], ls[l], ls[l + 1]);
    assert MatrixShaped(g[l], ls[l], ls[l + 1]);
  }

  /** Weight layer l after one step. */
  function StepLayer(ls: seq<nat>, w: seq<Matrix>, g: seq<Matrix>, lr: real, l: nat): (r: Matrix)
    requires WeightsShaped(ls, w) && WeightsShaped(ls, g) && l < |w|
    ensures MatrixShaped(r, ls[l], ls[l + 1])
  {
    SameLayerShape(ls, w, g, l);
    assert MatrixShaped(w[l], ls[l], ls[l + 1]);
    StepMatrix(w[l], g[l], lr)
  }

  /** One gradient-descent step: every parameter minus lr times its gradient. */
  function Step(ls: seq<nat>, p: Params, g: Gradients, lr: real): (q: Params)
    requires WeightsShaped(ls, p.weights) && BiasesShaped(ls, p.biases)
    requires WeightsShaped(ls, g.weightGradient) && BiasesShaped(ls, g.biasGradient)
    ensures WeightsShaped(ls, q.weights) && BiasesShaped(ls, q.biases)
  {
    Params(
      seq(|p.weights|, l requires 0 <= l < |p.weights| => StepLayer(ls, p.weights, g.weightGradient, lr, l)),
      seq(|p.biases|, l requires 0 <= l < |p.biases| => StepVector(p.biases[l], g.biasGradient[l], lr)))
  }

  /** A step with the negated learning rate undoes a step. */
  lemma StepInverse(ls: seq<nat>, p: Params, g: Gradients, lr: real)
    requires WeightsShaped(ls, p.weights) && BiasesShaped(ls, p.biases)
    requires WeightsShaped(ls, g.weightGradient) && BiasesShaped(ls, g.biasGradient)
    ensures Step(ls, Step(ls, p, g, lr), g, -lr) == p
  {
    var q := Step(ls, Step(ls, p, g, lr), g, -lr);
    forall l, i | 0 <= l < |p.weights| && 0 <= i < |p.weights[l]|
      ensures q.weights[l][i] == p.weights[l][i]
    {
    }
    forall l | 0 <= l < |p.weights|
      ensures q.weights[l] == p.weights[l]
    {
    }
    forall l | 0 <= l < |p.biases|
      ensures q.biases[l] == p.biases[l]
    {
    }
  }

  // ------------------------------------------------ what the gradients mean

  lemma {:induction false} BackSumZero(row: Vector, delta: Vector, n: nat)
    requires n <= |row| && n <= |delta| && forall j :: 0 <= j < n ==> delta[j] == 0.0
    ensures BackSum(row, delta, n) == 0.0
    decreases n
  {
    if n > 0 {
      BackSumZero(row, delta, n - 1);
    }
  }

  /** When the output already equals the target, every delta vanishes. */
  lemma {:induction false} PerfectFitZeroDelta(ls: seq<nat>, act: seq<ActivationFunction>, w: seq<Matrix>, s: NNState, y: Vector, l: nat)
    requires |act| == |ls| && WeightsShaped(ls, w) && TraceShaped(ls, s) && |y| >= ls[|ls| - 1] && l < |ls|
    requires forall i :: 0 <= i < ls[|ls| - 1] ==> s.activations[|ls| - 1][i] == y[i]
    ensures forall i :: 0 <= i < ls[l] ==> Delta(ls, act, w, s, y, l)[i] == 0.0
    decreases |ls| - l
  {
    if l < |ls| - 1 {
      PerfectFitZeroDelta(ls, act, w, s, y, l + 1);
      var next := Delta(ls, act, w, s, y, l + 1);
      forall i | 0 <= i < ls[l]
        ensures Delta(ls, act, w, s, y, l)[i] == 0.0
      {
        assert MatrixShaped(w[l], ls[l], ls[l + 1]);
        BackSumZero(w[l][i], next, ls[l + 1]);
      }
    }
  }

  /** When the output already equals the target, backpropagation yields
      zero for every weight and every bias. */
  lemma PerfectFitZeroGradient(ls: seq<nat>, act: seq<ActivationFunction>, w: seq<Matrix>, s: NNState, y: Vector)
    requires |act| == |ls| && WeightsShaped(ls, w) && TraceShaped(ls, s) && |y| >= ls[|ls| - 1]
    requires forall i :: 0 <= i < ls[|ls| - 1] ==> s.activations[|ls| - 1][i] == y[i]
    ensures var g := Backprop(ls, act, w, s, y);
      && (forall l, i :: 0 <= l < |ls| && 0 <= i < ls[l] ==> g.biasGradient[l][i] == 0.0)
      && (forall l, i, j :: 0 <= l < |ls| - 1 && 0 <= i < ls[l] && 0 <= j < ls[l + 1] ==> g.weightGradient[l][i][j] == 0.0)
  {
    forall l | 0 <= l < |ls|
      ensures forall i :: 0 <= i < ls[l] ==> Delta(ls, act, w, s, y, l)[i] == 0.0
    {
      PerfectFitZeroDelta(ls, act, w, s, y, l);
    }
  }

  /** Parameters whose every layer is the stepped layer are the step. */
  lemma StepFromLayers(ls: seq<nat>, p: Params, g: Gradients, lr: real, q: Params)
    requires WeightsShaped(ls, p.weights) && BiasesShaped(ls, p.biases)
    requires WeightsShaped(ls, g.weightGradient) && BiasesShaped(ls, g.biasGradient)
    requires |q.weights| == |p.weights| && |q.biases| == |p.biases|
    requires forall l :: 0 <= l < |p.weights| ==> q.weights[l] == StepLayer(ls, p.weights, g.weightGradient, lr, l)
    requires forall l :: 0 <= l < |p.biases| ==> q.biases[l] == StepVector(p.biases[l], g.biasGradient[l], lr)
    ensures q == Step(ls, p, g, lr)
  {
    var r := Step(ls, p, g, lr);
    assert q.weights == r.weights;
    assert q.biases == r.biases;
  }

  /** A step along an all-zero gradient changes nothing. */
  lemma StepZeroGradient(ls: seq<nat>, p: Params, g: Gradients, lr: real)
    requires WeightsShaped(ls, p.weights) && BiasesShaped(ls, p.biases)
    requires WeightsShaped(ls, g.weightGradient) && BiasesShaped(ls, g.biasGradient)
    requires forall l, i :: 0 <= l < |ls| && 0 <= i < ls[l] ==> g.biasGradient[l][i] == 0.0
    requires forall l, i, j :: 0 <= l < |ls| - 1 && 0 <= i < ls[l] && 0 <= j < ls[l + 1] ==> g.weightGradient[l][i][j] == 0.0
    ensures Step(ls, p, g, lr) == p
  {
    var q := Step(ls, p, g, lr);
    forall l, i | 0 <= l < |p.weights| && 0 <= i < |p.weights[l]|
      ensures q.weights[l][i] == p.weights[l][i]
    {
      assert MatrixShaped(p.weights[l], ls[l], ls[l + 1]);
    }
    forall l | 0 <= l < |p.weights|
      ensures q.weights[l] == p.weights[l]
    {
    }
    forall l | 0 <= l < |p.biases|
      ensures q.biases[l] == p.biases[l]
    {
    }
  }

  /** A step with learning rate zero changes nothing, whatever the gradient. */
  lemma StepZeroRate(ls: seq<nat>, p: Params, g: Gradients)
    requires WeightsShaped(ls, p.weights) && BiasesShaped(ls, p.biases)
    requires WeightsShaped(ls, g.weightGradient) && BiasesShaped(ls, g.biasGradient)
    ensures Step(ls, p, g, 0.0) == p
  {
    var q := Step(ls, p, g, 0.0);
    forall l, i | 0 <= l < |p.weights| && 0 <= i < |p.weights[l]|
      ensures q.weights[l][i] == p.weights[l][i]
    {
      assert MatrixShaped(p.weights[l], ls[l], ls[l + 1]);
    }
    forall l | 0 <= l < |p.weights|
      ensures q.weights[l] == p.weights[l]
    {
    }
    forall l | 0 <= l < |p.biases|
      ensures q.biases[l] == p.biases[l]
    {
    }
  }


  /** The parameters with bias i of layer l moved by h. */
  function ShiftBias(p: Params, l: nat, i: nat, h: real): (q: Params)
    requires l < |p.biases| && i < |p.biases[l]|
    ensures q.weights == p.weights && |q.biases| == |p.biases|
    ensures forall k :: 0 <= k < |p.biases| && k != l ==> q.biases[k] == p.biases[k]
    ensures |q.biases[l]| == |p.biases[l]| && ShiftedAt(q.biases[l], p.biases[l], |p.biases[l]|, i, 1.0, h)
  {
    Params(p.weights, p.biases[l := p.biases[l][i := p.biases[l][i] + h]])
  }

  /** The parameters with weight [i][j] of layer l moved by h. */
  function ShiftWeight(p: Params, l: nat, i: nat, j: nat, h: real): (q: Params)
    requires l < |p.weights| && i < |p.weights[l]| && j < |p.weights[l][i]|
    ensures q.biases == p.biases && |q.weights| == |p.weights|
    ensures forall k :: 0 <= k < |p.weights| && k != l ==> q.weights[k] == p.weights[k]
    ensures q.weights[l] == p.weights[l][i := p.weights[l][i][j := p.weights[l][i][j] + h]]
  {
    Params(p.weights[l := p.weights[l][i := p.weights[l][i][j := p.weights[l][i][j] + h]]], p.biases)
  }

  lemma ShiftBiasShape(ls: seq<nat>, act: seq<ActivationFunction>, p: Params, l: nat, i: nat, h: real)
    requires ValidNetwork(ls, act, p) && l < |ls| && i < ls[l]
    ensures ValidNetwork(ls, act, ShiftBias(p, l, i, h))
  {
  }

  lemma ShiftWeightShape(ls: seq<nat>, act: seq<ActivationFunction>, p: Params, l: nat, i: nat, j: nat, h: real)
    requires ValidNetwork(ls, act, p) && l < |ls| - 1 && i < ls[l] && j < ls[l + 1]
    ensures ValidNetwork(ls, act, ShiftWeight(p, l, i, j, h))
  {
    var q := ShiftWeight(p, l, i, j, h);
    assert MatrixShaped(p.weights[l], ls[l], ls[l + 1]);
    assert MatrixShaped(q.weights[l], ls[l], ls[l + 1]);
    forall k | 0 <= k < |q.weights|
      ensures MatrixShaped(q.weights[k], ls[k], ls[k + 1])
    {
      if k != l {
        assert MatrixShaped(p.weights[k], ls[k], ls[k + 1]);
      }
    }
  }

  /** Moving bias i by h moves z-value i by h and no other. */
  lemma ZLayerBiasShift(prev: Vector, m: Matrix, bias: Vector, shifted: Vector, i: nat, h: real)
    requires |m| <= |prev| && MatrixShaped(m, |m|, |bias|) && |shifted| == |bias|
    requires ShiftedAt(shifted, bias, |bias|, i, 1.0, h)
    ensures ShiftedAt(ZLayer(prev, m, shifted), ZLayer(prev, m, bias), |bias|, i, 1.0, h)
  {
  }

  /** A weighted sum after one weight of column j moved by h. */
  lemma {:induction false} WeightedSumShift(a: Vector, m: Matrix, j: nat, n: nat, i: nat, k: nat, h: real)
    requires n <= |a| && n <= |m| && i < |m| && k < |m[i]|
    requires forall r :: 0 <= r < n ==> j < |m[r]|
    ensures WeightedSum(a, m[i := m[i][k := m[i][k] + h]], j, n)
         == WeightedSum(a, m, j, n) + (if i < n && j == k then a[i] * h else 0.0)
    decreases n
  {
    if n > 0 {
      WeightedSumShift(a, m, j, n - 1, i, k, h);
    }
  }

  /** Moving weight [i][j] by h moves z-value j by prev[i] * h and no other. */
  lemma ZLayerWeightShift(prev: Vector, m: Matrix, bias: Vector, i: nat, j: nat, h: real)
    requires |m| <= |prev| && MatrixShaped(m, |m|, |bias|) && i < |m| && j < |bias|
    ensures MatrixShaped(m[i := m[i][j := m[i][j] + h]], |m|, |bias|)
    ensures ShiftedAt(ZLayer(prev, m[i := m[i][j := m[i][j] + h]], bias), ZLayer(prev, m, bias), |bias|, j, prev[i], h)
  {
    forall r | 0 <= r < |bias|
      ensures WeightedSum(prev, m[i := m[i][j := m[i][j] + h]], r, |m|)
           == WeightedSum(prev, m, r, |m|) + (if r == j then prev[i] * h else 0.0)
    {
      WeightedSumShift(prev, m, r, |m|, i, j, h);
    }
  }

  /** The output layer's z-values of parameters q that agree with p below the
      output layer, computed from p's last hidden activations. */
  lemma OutputLayerZ(ls: seq<nat>, act: seq<ActivationFunction>, p: Params, q: Params, x: Vector)
    requires ValidNetwork(ls, act, p) && ValidNetwork(ls, act, q) && |x| >= ls[0]
    requires forall k :: 0 <= k < |ls| - 2 ==> p.weights[k] == q.weights[k]
    requires forall k :: 0 < k < |ls| - 1 ==> p.biases[k] == q.biases[k]
    ensures MatrixShaped(q.weights[|ls| - 2], ls[|ls| - 2], ls[|ls| - 1])
    ensures LayerZ(ls, act, q, x, |ls| - 1)
         == ZLayer(LayerActivation(ls, act, p, x, |ls| - 2), q.weights[|ls| - 2], q.biases[|ls| - 1])
  {
    LayerDependsOn(ls, act, p, q, x, |ls| - 2);
  }

  /** Moving output bias i by h moves output z-value i by h and no other. */
  lemma OutputBiasShiftsOutput(ls: seq<nat>, act: seq<ActivationFunction>, p: Params, x: Vector, i: nat, h: real)
    requires ValidNetwork(ls, act, p) && |x| >= ls[0] && i < ls[|ls| - 1]
    ensures ValidNetwork(ls, act, ShiftBias(p, |ls| - 1, i, h))
    ensures ShiftedAt(LayerZ(ls, act, ShiftBias(p, |ls| - 1, i, h), x, |ls| - 1), LayerZ(ls, act, p, x, |ls| - 1),
                      ls[|ls| - 1], i, 1.0, h)
  {
    var q := ShiftBias(p, |ls| - 1, i, h);
    ShiftBiasShape(ls, act, p, |ls| - 1, i, h);
    OutputLayerZ(ls, act, p, q, x);
    OutputLayerZ(ls, act, p, p, x);
    ZLayerBiasShift(LayerActivation(ls, act, p, x, |ls| - 2), p.weights[|ls| - 2], p.biases[|ls| - 1], q.biases[|ls| - 1], i, h);
  }

  /** Moving the weight from neuron i of the last hidden layer to output
      neuron j by h moves output z-value j by a[i] * h and no other. */
  lemma OutputWeightShiftsOutput(ls: seq<nat>, act: seq<ActivationFunction>, p: Params, x: Vector, i: nat, j: nat, h: real)
    requires ValidNetwork(ls, act, p) && |x| >= ls[0] && i < ls[|ls| - 2] && j < ls[|ls| - 1]
    ensures ValidNetwork(ls, act, ShiftWeight(p, |ls| - 2, i, j, h))
    ensures ShiftedAt(LayerZ(ls, act, ShiftWeight(p, |ls| - 2, i, j, h), x, |ls| - 1), LayerZ(ls, act, p, x, |ls| - 1),
                      ls[|ls| - 1], j, LayerActivation(ls, act, p, x, |ls| - 2)[i], h)
  {
    assert MatrixShaped(p.weights[|ls| - 2], ls[|ls| - 2], ls[|ls| - 1]);
    var q := ShiftWeight(p, |ls| - 2, i, j, h);
    ShiftWeightShape(ls, act, p, |ls| - 2, i, j, h);
    OutputLayerZ(ls, act, p, q, x);
    OutputLayerZ(ls, act, p, p, x);
    ZLayerWeightShift(LayerActivation(ls, act, p, x, |ls| - 2), p.weights[|ls| - 2], p.biases[|ls| - 1], i, j, h);
  }

  /** Moving prediction i by h moves the loss by h * 2 (out[i] - y[i]) + h^2. */
  lemma LossShiftBias(out: Vector, out': Vector, y: Vector, i: nat, h: real, g: real)
    requires |out| == |y| && |out'| == |y| && i < |y|
    requires ShiftedAt(out', out, |y|, i, 1.0, h)
    requires g == 2.0 * (out[i] - y[i])
    ensures Loss(|y|, out, y).Ok? && Loss(|y|, out', y).Ok?
    ensures Loss(|y|, out', y).value == Perturbed(Loss(|y|, out, y).value, h, g, 1.0)
  {
    SumSquaresShift(out, out', y, |y|, i, 1.0, h);
  }

  /** Moving prediction i by a * h moves the loss as SumSquaresShift says. */
  lemma LossShift(out: Vector, out': Vector, y: Vector, i: nat, a: real, h: real, g: real)
    requires |out| == |y| && |out'| == |y| && i < |y|
    requires ShiftedAt(out', out, |y|, i, a, h)
    requires g == 2.0 * (out[i] - y[i])
    ensures Loss(|y|, out, y).Ok? && Loss(|y|, out', y).Ok?
    ensures Loss(|y|, out', y).value == Perturbed(Loss(|y|, out, y).value, h, a * g, a)
  {
    SumSquaresShift(out, out', y, |y|, i, a, h);
  }

  /** Backpropagation's output-layer bias gradient under the identity output
      activation: twice the prediction error. */
  lemma BackpropOutputBias(ls: seq<nat>, act: seq<ActivationFunction>, w: seq<Matrix>, s: NNState, y: Vector, i: nat)
    requires |act| == |ls| && WeightsShaped(ls, w) && TraceShaped(ls, s) && |y| >= ls[|ls| - 1] && i < ls[|ls| - 1]
    requires act[|ls| - 1] == Identity
    ensures Backprop(ls, act, w, s, y).biasGradient[|ls| - 1][i] == 2.0 * (s.activations[|ls| - 1][i] - y[i])
  {
    assert Backprop(ls, act, w, s, y).biasGradient[|ls| - 1] == OutputDelta(ls, act, s, y);
  }

  /** Backpropagation's gradient of a weight into the output layer: the
      activation it reads times the delta it feeds. */
  lemma BackpropOutputWeight(ls: seq<nat>, act: seq<ActivationFunction>, w: seq<Matrix>, s: NNState, y: Vector, i: nat, j: nat)
    requires |act| == |ls| && WeightsShaped(ls, w) && TraceShaped(ls, s) && |y| >= ls[|ls| - 1]
    requires |ls| >= 2 && i < ls[|ls| - 2] && j < ls[|ls| - 1]
    ensures Backprop(ls, act, w, s, y).weightGradient[|ls| - 2][i][j]
         == s.activations[|ls| - 2][i] * Backprop(ls, act, w, s, y).biasGradient[|ls| - 1][j]
  {
    assert Backprop(ls, act, w, s, y).weightGradient[|ls| - 2] == WeightGradientLayer(ls, act, w, s, y, |ls| - 2);
  }

  /** Against any trace whose output layer has the identity activation: if the
      output moves by a * h at entry j, where a is activation i of the last
      hidden layer, the loss moves with slope equal to the weight gradient
      backpropagation computes for weight [i][j]. */
  lemma WeightSlope(ls: seq<nat>, act: seq<ActivationFunction>, w: seq<Matrix>, s: NNState, y: Vector, out': Vector, i: nat, j: nat, h: real)
    requires |act| == |ls| && WeightsShaped(ls, w) && TraceShaped(ls, s) && |y| == ls[|ls| - 1]
    requires |ls| >= 2 && i < ls[|ls| - 2] && j < |y| && act[|ls| - 1] == Identity
    requires |s.activations[|ls| - 1]| == |y| && |out'| == |y|
    requires ShiftedAt(out', s.activations[|ls| - 1], |y|, j, s.activations[|ls| - 2][i], h)
    ensures Loss(|y|, s.activations[|ls| - 1], y).Ok? && Loss(|y|, out', y).Ok?
    ensures Loss(|y|, out', y).value
         == Perturbed(Loss(|y|, s.activations[|ls| - 1], y).value, h,
                      Backprop(ls, act, w, s, y).weightGradient[|ls| - 2][i][j], s.activations[|ls| - 2][i])
  {
    BackpropOutputBias(ls, act, w, s, y, j);
    BackpropOutputWeight(ls, act, w, s, y, i, j);
    LossShift(s.activations[|ls| - 1], out', y, j, s.activations[|ls| - 2][i], h, Backprop(ls, act, w, s, y).biasGradient[|ls| - 1][j]);
  }

  /** For an output layer with the identity activation, the bias gradient
      backpropagation computes is the exact slope of the loss in that bias:
      moving output bias i by h changes the loss by h * gradient + h^2. */
  lemma OutputBiasGradient(ls: seq<nat>, act: seq<ActivationFunction>, p: Params, x: Vector, y: Vector, i: nat, h: real)
    requires ValidNetwork(ls, act, p) && |x| >= ls[0] && |y| == ls[|ls| - 1] && i < |y|
    requires act[|ls| - 1] == Identity
    ensures ValidNetwork(ls, act, ShiftBias(p, |ls| - 1, i, h))
    ensures
      var g := Backprop(ls, act, p.weights, Trace(ls, act, p, x), y);
      var before := Loss(|y|, Output(ls, act, p, x), y);
      var after := Loss(|y|, Output(ls, act, ShiftBias(p, |ls| - 1, i, h), x), y);
      && before.Ok? && after.Ok?
      && after.value == Perturbed(before.value, h, g.biasGradient[|ls| - 1][i], 1.0)
  {
    var q := ShiftBias(p, |ls| - 1, i, h);
    var t := Trace(ls, act, p, x);
    OutputBiasShiftsOutput(ls, act, p, x, i, h);
    IdentityLayer(LayerZ(ls, act, p, x, |ls| - 1));
    IdentityLayer(LayerZ(ls, act, q, x, |ls| - 1));
    BackpropOutputBias(ls, act, p.weights, t, y, i);
    assert t.activations[|ls| - 1] == Output(ls, act, p, x);
    LossShiftBias(Output(ls, act, p, x), Output(ls, act, q, x), y, i, h,
              Backprop(ls, act, p.weights, t, y).biasGradient[|ls| - 1][i]);
  }

  /** For an output layer with the identity activation, the weight gradient
      backpropagation computes is the exact slope of the loss in that weight:
      moving weight [i][j] into the output layer by h changes the loss by
      h * gradient + (a h)^2, where a is the activation of neuron i of the
      last hidden layer. */
  lemma OutputWeightGradient(ls: seq<nat>, act: seq<ActivationFunction>, p: Params, x: Vector, y: Vector, i: nat, j: nat, h: real)
    requires ValidNetwork(ls, act, p) && |x| >= ls[0] && |y| == ls[|ls| - 1] && i < ls[|ls| - 2] && j < |y|
    requires act[|ls| - 1] == Identity
    ensures ValidNetwork(ls, act, ShiftWeight(p, |ls| - 2, i, j, h))
    ensures
      var t := Trace(ls, act, p, x);
      var g := Backprop(ls, act, p.weights, t, y);
      var before := Loss(|y|, Output(ls, act, p, x), y);
      var after := Loss(|y|, Output(ls, act, ShiftWeight(p, |ls| - 2, i, j, h), x), y);
      && before.Ok? && after.Ok?
      && after.value == Perturbed(before.value, h, g.weightGradient[|ls| - 2][i][j], t.activations[|ls| - 2][i])
  {
    assert MatrixShaped(p.weights[|ls| - 2], ls[|ls| - 2], ls[|ls| - 1]);
    var q := ShiftWeight(p, |ls| - 2, i, j, h);
    var t := Trace(ls, act, p, x);
    OutputWeightShiftsOutput(ls, act, p, x, i, j, h);
    IdentityLayer(LayerZ(ls, act, p, x, |ls| - 1));
    IdentityLayer(LayerZ(ls, act, q, x, |ls| - 1));
    assert t.activations[|ls| - 1] == Output(ls, act, p, x);
    assert t.activations[|ls| - 2] == LayerActivation(ls, act, p, x, |ls| - 2);
    WeightSlope(ls, act, p.weights, t, y, Output(ls, act, q, x), i, j, h);
  }
}
