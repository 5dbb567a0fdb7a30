/** The trainable regressor: construction with random parameters, the forward
    pass, the loss, backpropagation with the in-place gradient step, and the
    epoch loop over a dataset. Training is specified by TrainStep, Epoch and
    Epochs, functions on the parameters; the class's methods are proved to
    compute them. */
module RegressorModel {
  import opened Wrappers
  import opened Activation
  import opened Network
  import opened DataClasses
  import Kernels

  // ------------------------------------------------- training, specified

  /** One call of trainOnPoint: a forward pass on x, backpropagation against
      y with the current weights, and one gradient step of size lr. */
  function TrainStep(ls: seq<nat>, act: seq<ActivationFunction>, lr: real, p: Params, x: Vector, y: Vector): (q: Params)
    requires ValidNetwork(ls, act, p) && |x| >= ls[0] && |y| >= ls[|ls| - 1]
    ensures ValidNetwork(ls, act, q)
  {
    Step(ls, p, Backprop(ls, act, p.weights, Trace(ls, act, p, x), y), lr)
  }

  /** Every point has an input at least as wide as the input layer and an
      output exactly as wide as the output layer, as every point of a dataset
      whose dimensions match the topology has. */
  predicate PointsFit(ls: seq<nat>, points: seq<DataPoint>)
    requires |ls| >= 1
  {
    forall k :: 0 <= k < |points| ==> |points[k].x| >= ls[0] && |points[k].y| == ls[|ls| - 1]
  }

  /** The training step on one data point, as a function of the parameters;
      parameters or points that do not fit the topology are left alone (the
      class never takes that branch). */
  function PointStep(ls: seq<nat>, act: seq<ActivationFunction>, lr: real): (Params, DataPoint) -> Params
  {
    (q: Params, d: DataPoint) =>
      if ValidNetwork(ls, act, q) && |d.x| >= ls[0] && |d.y| >= ls[|ls| - 1]
      then TrainStep(ls, act, lr, q, d.x, d.y)
      else q
  }

  /** One epoch: the step applied once per point, in the stored order. */
  function Epoch(step: (Params, DataPoint) -> Params, p: Params, points: seq<DataPoint>): Params
    decreases |points|
  {
    if points == [] then p else step(Epoch(step, p, points[..|points| - 1]), points[|points| - 1])
  }

  /** n epochs over the same points. */
  function Epochs(step: (Params, DataPoint) -> Params, p: Params, points: seq<DataPoint>, n: nat): Params
  {
    if n == 0 then p else Epoch(step, Epochs(step, p, points, n - 1), points)
  }

  /** On parameters and a point that fit the topology, PointStep is one
      training step. */
  lemma PointStepIsTrainStep(ls: seq<nat>, act: seq<ActivationFunction>, lr: real, p: Params, d: DataPoint)
    requires ValidNetwork(ls, act, p) && |d.x| >= ls[0] && |d.y| >= ls[|ls| - 1]
    ensures PointStep(ls, act, lr)(p, d) == TrainStep(ls, act, lr, p, d.x, d.y)
  {
  }

  /** Training keeps the parameters shaped after the topology, whatever the
      points. */
  lemma {:induction false} EpochKeepsShape(ls: seq<nat>, act: seq<ActivationFunction>, lr: real, p: Params, points: seq<DataPoint>)
    requires ValidNetwork(ls, act, p)
    ensures ValidNetwork(ls, act, Epoch(PointStep(ls, act, lr), p, points))
    decreases |points|
  {
    if points != [] {
      EpochKeepsShape(ls, act, lr, p, points[..|points| - 1]);
    }
  }

  /** Training on a concatenation of point lists is training on the first,
      then on the second. */
  lemma {:induction false} EpochAppend(step: (Params, DataPoint) -> Params, p: Params, a: seq<DataPoint>, b: seq<DataPoint>)
    ensures Epoch(step, p, a + b) == Epoch(step, Epoch(step, p, a), b)
    decreases |b|
  {
    if b == [] {
      assert a + b == a;
    } else {
      assert (a + b)[..|a + b| - 1] == a + b[..|b| - 1];
      assert (a + b)[|a + b| - 1] == b[|b| - 1];
      EpochAppend(step, p, a, b[..|b| - 1]);
    }
  }

  /** m + n epochs are m epochs followed by n more. */
  lemma {:induction false} EpochsAdditive(step: (Params, DataPoint) -> Params, p: Params, points: seq<DataPoint>, m: nat, n: nat)
    ensures Epochs(step, p, points, m + n) == Epochs(step, Epochs(step, p, points, m), points, n)
    decreases n
  {
    if n > 0 {
      EpochsAdditive(step, p, points, m, n - 1);
      assert Epochs(step, p, points, m + n - 1) == Epochs(step, p, points, m + (n - 1));
    }
  }

  /** Training on an empty dataset leaves the parameters as they are, however
      many epochs are run. */
  lemma {:induction false} EpochsEmpty(step: (Params, DataPoint) -> Params, p: Params, n: nat)
    ensures Epochs(step, p, [], n) == p
    decreases n
  {
    if n > 0 {
      EpochsEmpty(step, p, n - 1);
    }
  }

  /** A point the network already predicts exactly does not move the
      parameters: every gradient is zero. */
  lemma PerfectFitIsFixpoint(ls: seq<nat>, act: seq<ActivationFunction>, lr: real, p: Params, x: Vector, y: Vector)
    requires ValidNetwork(ls, act, p) && |x| >= ls[0] && |y| == ls[|ls| - 1]
    requires Output(ls, act, p, x) == y
    ensures TrainStep(ls, act, lr, p, x, y) == p
  {
    var t := Trace(ls, act, p, x);
    OutputWidth(ls, act, p, x);
    PerfectFitZeroGradient(ls, act, p.weights, t, y);
    StepZeroGradient(ls, p, Backprop(ls, act, p.weights, t, y), lr);
  }

  /** Parameters that already predict every point exactly stay as they are
      through any number of epochs. */
  lemma {:induction false} PerfectFitDataset(ls: seq<nat>, act: seq<ActivationFunction>, lr: real, p: Params, points: seq<DataPoint>, n: nat)
    requires ValidNetwork(ls, act, p)
    requires forall k :: 0 <= k < |points| ==>
      |points[k].x| >= ls[0] && |points[k].y| == ls[|ls| - 1] && Output(ls, act, p, points[k].x) == points[k].y
    ensures Epochs(PointStep(ls, act, lr), p, points, n) == p
    decreases n
  {
    if n > 0 {
      PerfectFitDataset(ls, act, lr, p, points, n - 1);
      PerfectFitEpoch(ls, act, lr, p, points);
    }
  }

  lemma {:induction false} PerfectFitEpoch(ls: seq<nat>, act: seq<ActivationFunction>, lr: real, p: Params, points: seq<DataPoint>)
    requires ValidNetwork(ls, act, p)
    requires forall k :: 0 <= k < |points| ==>
      |points[k].x| >= ls[0] && |points[k].y| == ls[|ls| - 1] && Output(ls, act, p, points[k].x) == points[k].y
    ensures Epoch(PointStep(ls, act, lr), p, points) == p
    decreases |points|
  {
    if points != [] {
      var d := points[|points| - 1];
      PerfectFitEpoch(ls, act, lr, p, points[..|points| - 1]);
      PointStepIsTrainStep(ls, act, lr, p, d);
      PerfectFitIsFixpoint(ls, act, lr, p, d.x, d.y);
    }
  }

  /** With learning rate zero a step leaves the parameters as they are. */
  lemma ZeroRateIsFixpoint(ls: seq<nat>, act: seq<ActivationFunction>, p: Params, x: Vector, y: Vector)
    requires ValidNetwork(ls, act, p) && |x| >= ls[0] && |y| >= ls[|ls| - 1]
    ensures TrainStep(ls, act, 0.0, p, x, y) == p
  {
    StepZeroRate(ls, p, Backprop(ls, act, p.weights, Trace(ls, act, p, x), y));
  }

  /** Every initial parameter lies in [-1, 1). */
  predicate InitialRange(p: Params) {
    && (forall l, i :: 0 <= l < |p.biases| && 0 <= i < |p.biases[l]| ==> -1.0 <= p.biases[l][i] < 1.0)
    && (forall l, i, j :: 0 <= l < |p.weights| && 0 <= i < |p.weights[l]| && 0 <= j < |p.weights[l][i]| ==>
          -1.0 <= p.weights[l][i][j] < 1.0)
  }

  // ------------------------------------------------------- construction

  /** A list of n copies of x; none when n is not positive. */
  method ConstructListWithNElements<T>(x: T, n: int) returns (r: seq<T>)
    ensures |r| == if n > 0 then n else 0
    ensures forall k :: 0 <= k < |r| ==> r[k] == x
  {
    r := [];
    var i := 0;
    while i < n
      invariant |r| == if i > 0 then i else 0
      invariant i <= 0 || i <= n
      invariant forall k :: 0 <= k < |r| ==> r[k] == x
    {
      r := r + [x];
      i := i + 1;
    }
  }

  /** A value drawn from [-1, 1) (Math.random() * 2 - 1); which one is
      not modelled. */
  method RandomDouble() returns (r: real)
    ensures -1.0 <= r < 1.0
  {
    r :| -1.0 <= r < 1.0;
  }

  /** Random biases, one row per layer of the layer's size. */
  method GetRandomBiases(ls: seq<nat>) returns (b: seq<Vector>)
    ensures BiasesShaped(ls, b)
    ensures forall l, i :: 0 <= l < |b| && 0 <= i < |b[l]| ==> -1.0 <= b[l][i] < 1.0
  {
    b := [];
    var l := 0;
    while l < |ls|
      invariant 0 <= l <= |ls| && |b| == l
      invariant forall k :: 0 <= k < l ==> |b[k]| == ls[k]
      invariant forall k, i :: 0 <= k < |b| && 0 <= i < |b[k]| ==> -1.0 <= b[k][i] < 1.0
    {
      var row: Vector := [];
      var iCurr := 0;
      while iCurr < ls[l]
        invariant 0 <= iCurr <= ls[l] && |row| == iCurr
        invariant forall i :: 0 <= i < |row| ==> -1.0 <= row[i] < 1.0
      {
        var v := RandomDouble();
        row := row + [v];
        iCurr := iCurr + 1;
      }
      b := b + [row];
      l := l + 1;
    }
  }

  /** Random weights: for each l >= 1, a matrix with a row per neuron of
      layer l - 1 and a column per neuron of layer l. */
  method GetRandomWeights(ls: seq<nat>) returns (w: seq<Matrix>)
    requires |ls| >= 1
    ensures WeightsShaped(ls, w)
    ensures forall l, i, j :: 0 <= l < |w| && 0 <= i < |w[l]| && 0 <= j < |w[l][i]| ==> -1.0 <= w[l][i][j] < 1.0
  {
    w := [];
    var l := 1;
    while l < |ls|
      invariant 1 <= l <= |ls| && |w| == l - 1
      invariant forall k :: 0 <= k < l - 1 ==> MatrixShaped(w[k], ls[k], ls[k + 1])
      invariant forall k, i, j :: 0 <= k < |w| && 0 <= i < |w[k]| && 0 <= j < |w[k][i]| ==> -1.0 <= w[k][i][j] < 1.0
    {
      var m: Matrix := [];
      var iPrev := 0;
      while iPrev < ls[l - 1]
        invariant 0 <= iPrev <= ls[l - 1] && |m| == iPrev
        invariant forall i :: 0 <= i < |m| ==> |m[i]| == ls[l]
        invariant forall i, j :: 0 <= i < |m| && 0 <= j < |m[i]| ==> -1.0 <= m[i][j] < 1.0
      {
        var row: Vector := [];
        var iCurr := 0;
        while iCurr < ls[l]
          invariant 0 <= iCurr <= ls[l] && |row| == iCurr
          invariant forall j :: 0 <= j < |row| ==> -1.0 <= row[j] < 1.0
        {
          var v := RandomDouble();
          row := row + [v];
          iCurr := iCurr + 1;
        }
        m := m + [row];
        iPrev := iPrev + 1;
      }
      w := w + [m];
      l := l + 1;
    }
  }

  // ------------------------------------------------------------ the class

  class Regressor {
    var weights: seq<Matrix>
    var biases: seq<Vector>
    const layerSizes: seq<nat>
    const activationFunctions: seq<ActivationFunction>
    const learningRate: real
    var epochCount: int

    /** Parameters shaped after the topology, one activation per layer, and
        the identity on the input and output layers. */
    ghost predicate Valid()
      reads this
    {
      && ValidNetwork(layerSizes, activationFunctions, Params(weights, biases))
      && activationFunctions[0] == Identity
      && activationFunctions[|activationFunctions| - 1] == Identity
    }

    function Parameters(): Params
      reads this
    {
      Params(weights, biases)
    }

    /** Stores a topology, its activations and the initial parameters. The
        checks and the random draws are done by Create. */
    constructor (ls: seq<nat>, act: seq<ActivationFunction>, lr: real, w: seq<Matrix>, b: seq<Vector>)
      requires ValidNetwork(ls, act, Params(w, b)) && act[0] == Identity && act[|act| - 1] == Identity
      ensures Valid()
      ensures layerSizes == ls && activationFunctions == act && learningRate == lr
      ensures weights == w && biases == b && epochCount == 0
    {
      layerSizes := ls;
      activationFunctions := act;
      learningRate := lr;
      weights := w;
      biases := b;
      epochCount := 0;
    }

    /** The main constructor: the identity is put before and after the
        hidden activations, an ActivationFunctionException is raised unless
        that gives one activation per layer, and the parameters are drawn at
        random in [-1, 1). */
    static method Create(ls: seq<nat>, hidden: seq<ActivationFunction>, lr: real) returns (r: Result<Regressor>)
      ensures r.Err? <==> |hidden| + 2 != |ls|
      ensures r.Err? ==> r.error == ActivationFunctionException
      ensures r.Ok? ==> fresh(r.value) && r.value.Valid()
      ensures r.Ok? ==> r.value.layerSizes == ls && r.value.learningRate == lr && r.value.epochCount == 0
      ensures r.Ok? ==> r.value.activationFunctions == [Identity] + hidden + [Identity]
      ensures r.Ok? ==> InitialRange(r.value.Parameters())
    {
      var act := [Identity] + hidden + [Identity];
      if |act| != |ls| {
        return Err(ActivationFunctionException);
      }
      var b := GetRandomBiases(ls);
      var w := GetRandomWeights(ls);
      var reg := new Regressor(ls, act, lr, w, b);
      return Ok(reg);
    }

    /** The convenience constructor: ReLU on every hidden layer. The output
        layer still gets the identity; fewer than two layers are refused. */
    static method CreateWithReLU(ls: seq<nat>, lr: real) returns (r: Result<Regressor>)
      ensures r.Err? <==> |ls| < 2
      ensures r.Err? ==> r.error == ActivationFunctionException
      ensures r.Ok? ==> fresh(r.value) && r.value.Valid()
      ensures r.Ok? ==> r.value.layerSizes == ls && r.value.learningRate == lr && r.value.epochCount == 0
      ensures r.Ok? ==> r.value.activationFunctions[|ls| - 1] == Identity
      ensures r.Ok? ==> forall l :: 0 < l < |ls| - 1 ==> r.value.activationFunctions[l] == ReLU
      ensures r.Ok? ==> InitialRange(r.value.Parameters())
    {
      var hidden := ConstructListWithNElements(ReLU, |ls| - 2);
      r := Create(ls, hidden, lr);
    }

    // ------------------------------------------------------ forward pass

    /** The forward trace: layer 0 holds the input itself, every later layer
        the z-values of the layer before; the activations apply the layer's
        activation function to the z-values. */
    method FeedForward(input: Vector) returns (s: NNState)
      requires Valid() && |input| >= layerSizes[0]
      ensures s == Trace(layerSizes, activationFunctions, Parameters(), input)
    {
      var acts: seq<Vector> := [];
      var zs: seq<Vector> := [];
      var l := 0;
      while l < |layerSizes|
        invariant 0 <= l <= |layerSizes| && |acts| == l && |zs| == l
        invariant forall k :: 0 <= k < l ==> zs[k] == LayerZ(layerSizes, activationFunctions, Parameters(), input, k)
        invariant forall k :: 0 <= k < l ==> acts[k] == LayerActivation(layerSizes, activationFunctions, Parameters(), input, k)
      {
        var z: Vector;
        if l > 0 {
          z := Kernels.PassOnceAndGetZValues(acts[l - 1], weights[l - 1], biases[l]);
        } else {
          z := input;
        }
        zs := zs + [z];
        acts := acts + [ApplyAf(z, activationFunctions[l])];
        l := l + 1;
      }
      s := NNState(acts, zs);
    }

    /** The activations of the output layer. */
    method Predict(input: Vector) returns (r: Vector)
      requires Valid() && |input| >= layerSizes[0]
      ensures r == Output(layerSizes, activationFunctions, Parameters(), input)
      ensures |r| == layerSizes[|layerSizes| - 1]
    {
      var s := FeedForward(input);
      OutputWidth(layerSizes, activationFunctions, Parameters(), input);
      r := s.activations[|s.activations| - 1];
    }

    /** The squared-error loss against the width of the output layer. */
    method Loss(predicted: Vector, observed: Vector) returns (r: Result<real>)
      requires Valid()
      ensures r == Network.Loss(layerSizes[|layerSizes| - 1], predicted, observed)
    {
      r := Kernels.ComputeLoss(layerSizes[|layerSizes| - 1], predicted, observed);
    }

    // -------------------------------------------------- backpropagation

    /** The delta of the output layer: 2 (a - y) f'(z) per neuron. */
    static method OutputLayerDelta(ls: seq<nat>, act: seq<ActivationFunction>, s: NNState, y: Vector) returns (d: Vector)
      requires |ls| >= 1 && |act| == |ls| && TraceShaped(ls, s) && |y| >= ls[|ls| - 1]
      ensures d == OutputDelta(ls, act, s, y)
    {
      var o := |ls| - 1;
      d := [];
      var i := 0;
      while i < ls[o]
        invariant 0 <= i <= ls[o] && |d| == i
        invariant forall k :: 0 <= k < i ==> d[k] == OutputDelta(ls, act, s, y)[k]
      {
        var diff := s.activations[o][i] - y[i];
        d := d + [2.0 * diff * Afd(s.zValues[o][i], act[o])];
        i := i + 1;
      }
    }

    /** The delta and the weight gradient of one layer below the output
        layer (z and a are its z-values and activations, f its activation,
        m the weights into the layer above), given the delta of the layer
        above. */
    static method HiddenLayerGradients(z: Vector, a: Vector, f: ActivationFunction, m: Matrix, next: Vector, width: nat)
      returns (delta: Vector, wg: Matrix)
      requires width <= |z| && width <= |a| && MatrixShaped(m, width, |next|)
      ensures delta == DeltaFrom(z, f, m, next, width)
      ensures wg == Outer(a, next, width)
    {
      delta := [];
      wg := [];
      var iCurr := 0;
      while iCurr < width
        invariant 0 <= iCurr <= width
        invariant delta == DeltaFrom(z, f, m, next, iCurr)
        invariant wg == Outer(a, next, iCurr)
      {
        var daDz := Afd(z[iCurr], f);
        var dCDa := 0.0;
        var row: Vector := [];
        var iNext := 0;
        while iNext < |next|
          invariant 0 <= iNext <= |next| && |row| == iNext
          invariant dCDa == BackSum(m[iCurr], next, iNext)
          invariant forall j :: 0 <= j < iNext ==> row[j] == a[iCurr] * next[j]
        {
          var nextBG := next[iNext];
          dCDa := dCDa + m[iCurr][iNext] * nextBG;
          row := row + [a[iCurr] * nextBG];
          iNext := iNext + 1;
        }
        assert forall j :: 0 <= j < |next| ==> row[j] == ScaledRow(a[iCurr], next)[j];
        assert row == ScaledRow(a[iCurr], next);
        assert daDz * dCDa == NeuronDelta(z[iCurr], f, m[iCurr], next);
        DeltaFromSnoc(z, f, m, next, iCurr);
        OuterSnoc(a, next, iCurr);
        delta := delta + [daDz * dCDa];
        wg := wg + [row];
        iCurr := iCurr + 1;
      }
    }

    /** The gradient lists updateParams builds, from the output layer down to
        layer 0, with the weights w as they are before the step. */
    static method ComputeGradients(ls: seq<nat>, act: seq<ActivationFunction>, w: seq<Matrix>, s: NNState, y: Vector)
      returns (g: Gradients)
      requires |act| == |ls| && WeightsShaped(ls, w) && TraceShaped(ls, s) && |y| >= ls[|ls| - 1]
      ensures g == Backprop(ls, act, w, s, y)
    {
      var last := OutputLayerDelta(ls, act, s, y);
      var bg: seq<Vector> := [last];
      var wg: seq<Matrix> := [];
      var l: int := |ls| - 2;
      while l >= 0
        invariant -1 <= l <= |ls| - 2
        invariant bg == DeltasFrom(ls, act, w, s, y, l + 1)
        invariant wg == WeightGradientsFrom(ls, act, w, s, y, l + 1)
      {
        assert MatrixShaped(w[l], ls[l], ls[l + 1]);
        var d, m := HiddenLayerGradients(s.zValues[l], s.activations[l], act[l], w[l], bg[0], ls[l]);
        bg := [d] + bg;
        wg := [m] + wg;
        l := l - 1;
      }
      BackpropFromSuffixes(ls, act, w, s, y);
      g := Gradients(wg, bg);
    }

    // ---------------------------------------------------- gradient step

    /** v[k] := v[k] - lr * grad[k] for every k, in place on a copy. */
    static method StepRow(v: Vector, grad: Vector, lr: real) returns (r: Vector)
      requires |grad| == |v|
      ensures r == StepVector(v, grad, lr)
    {
      r := v;
      var k := 0;
      while k < |r|
        invariant 0 <= k <= |r| && |r| == |v|
        invariant forall i :: 0 <= i < k ==> r[i] == v[i] - lr * grad[i]
        invariant forall i :: k <= i < |r| ==> r[i] == v[i]
      {
        r := r[k := r[k] - lr * grad[k]];
        k := k + 1;
      }
      assert forall i :: 0 <= i < |r| ==> r[i] == StepVector(v, grad, lr)[i];
    }

    /** m[j][k] := m[j][k] - lr * grad[j][k] for every row j and column k,
        in place on a copy. */
    static method StepRows(m: Matrix, grad: Matrix, lr: real) returns (r: Matrix)
      requires |grad| == |m| && forall j :: 0 <= j < |m| ==> |grad[j]| == |m[j]|
      ensures r == StepMatrix(m, grad, lr)
    {
      r := m;
      var j := 0;
      while j < |r|
        invariant 0 <= j <= |r| && |r| == |m|
        invariant forall i :: 0 <= i < j ==> r[i] == StepVector(m[i], grad[i], lr)
        invariant forall i :: j <= i < |r| ==> r[i] == m[i]
      {
        var row := StepRow(r[j], grad[j], lr);
        r := r[j := row];
        j := j + 1;
      }
    }

    /** The in-place update of updateParams: every weight and bias moved
        against its gradient, scaled by the learning rate. The gradients
        have the parameters' shapes, so the size checks never fail. */
    method ApplyStep(g: Gradients)
      requires Valid() && WeightsShaped(layerSizes, g.weightGradient) && BiasesShaped(layerSizes, g.biasGradient)
      modifies this
      ensures Valid() && epochCount == old(epochCount)
      ensures Parameters() == Step(layerSizes, old(Parameters()), g, learningRate)
    {
      ghost var p := Parameters();
      var wgrad := g.weightGradient;
      var bgrad := g.biasGradient;
      if |weights| != |wgrad| {
        assert false;
      }
      var i := 0;
      while i < |weights|
        invariant 0 <= i <= |weights| && |weights| == |p.weights|
        invariant forall k :: 0 <= k < i ==> weights[k] == StepLayer(layerSizes, p.weights, wgrad, learningRate, k)
        invariant forall k :: i <= k < |weights| ==> weights[k] == p.weights[k]
        invariant biases == p.biases && epochCount == old(epochCount)
        decreases |p.weights| - i
      {
        SameLayerShape(layerSizes, p.weights, wgrad, i);
        var layer := StepRows(weights[i], wgrad[i], learningRate);
        weights := weights[i := layer];
        i := i + 1;
      }

      if |biases| != |bgrad| {
        assert false;
      }
      i := 0;
      while i < |biases|
        invariant 0 <= i <= |biases| && |biases| == |p.biases|
        invariant forall k :: 0 <= k < i ==> biases[k] == StepVector(p.biases[k], bgrad[k], learningRate)
        invariant forall k :: i <= k < |biases| ==> biases[k] == p.biases[k]
        invariant |weights| == |p.weights|
        invariant forall k :: 0 <= k < |weights| ==> weights[k] == StepLayer(layerSizes, p.weights, wgrad, learningRate, k)
        invariant epochCount == old(epochCount)
        decreases |p.biases| - i
      {
        var row := StepRow(biases[i], bgrad[i], learningRate);
        biases := biases[i := row];
        i := i + 1;
      }
      StepFromLayers(layerSizes, p, g, learningRate, Parameters());
    }

    /** updateParams: backpropagation against y with the current weights,
        then the gradient step. The topology, the activations and the
        learning rate stay as they are. */
    method UpdateParams(s: NNState, y: Vector)
      requires Valid() && TraceShaped(layerSizes, s) && |y| >= layerSizes[|layerSizes| - 1]
      modifies this
      ensures Valid() && epochCount == old(epochCount)
      ensures Parameters() == Step(layerSizes, old(Parameters()),
                                   Backprop(layerSizes, activationFunctions, old(weights), s, y), learningRate)
    {
      var g := ComputeGradients(layerSizes, activationFunctions, weights, s, y);
      ApplyStep(g);
    }

    // ---------------------------------------------------------- training

    /** trainOnPoint: one forward pass and one update. When shouldShow is
        set, the loss of the prediction is computed (and printed) first, so an
        output whose width is not the output layer's fails with a
        DimensionalityException before anything changes. */
    method TrainOnPoint(input: Vector, output: Vector, shouldShow: bool) returns (r: Outcome)
      requires Valid() && |input| >= layerSizes[0]
      requires !shouldShow ==> |output| >= layerSizes[|layerSizes| - 1]
      modifies this
      ensures Valid() && epochCount == old(epochCount)
      ensures r.Fail? <==> shouldShow && |output| != layerSizes[|layerSizes| - 1]
      ensures r.Fail? ==> r.error == DimensionalityException && Parameters() == old(Parameters())
      ensures r.Pass? ==> Parameters() == TrainStep(layerSizes, activationFunctions, learningRate, old(Parameters()), input, output)
    {
      var s := FeedForward(input);
      if shouldShow {
        OutputWidth(layerSizes, activationFunctions, Parameters(), input);
        var loss := Loss(s.activations[|s.activations| - 1], output);
        if loss.Err? {
          return Fail(loss.error);
        }
      }
      UpdateParams(s, output);
      return Pass;
    }

    /** The body of one epoch of trainOnDataset: trainOnPoint on every
        point, in order. */
    method RunEpoch(points: seq<DataPoint>, shouldShow: bool)
      requires Valid() && PointsFit(layerSizes, points)
      modifies this
      ensures Valid() && epochCount == old(epochCount)
      ensures Parameters() == Epoch(PointStep(layerSizes, activationFunctions, learningRate), old(Parameters()), points)
    {
      ghost var step := PointStep(layerSizes, activationFunctions, learningRate);
      var k := 0;
      while k < |points|
        invariant 0 <= k <= |points| && Valid()
        invariant epochCount == old(epochCount)
        invariant Parameters() == Epoch(step, old(Parameters()), points[..k])
      {
        ghost var before := Parameters();
        var outcome := TrainOnPoint(points[k].x, points[k].y, shouldShow);
        PointStepIsTrainStep(layerSizes, activationFunctions, learningRate, before, points[k]);
        assert points[..k + 1][..k] == points[..k];
        k := k + 1;
      }
      assert points[..k] == points;
    }

    /** The epoch loop of trainOnDataset: n epochs over the points, each
        one counted. */
    method RunEpochs(points: seq<DataPoint>, n: nat, shouldShow: bool)
      requires Valid() && PointsFit(layerSizes, points)
      modifies this
      ensures Valid()
      ensures epochCount == old(epochCount) + n
      ensures Parameters() == Epochs(PointStep(layerSizes, activationFunctions, learningRate), old(Parameters()), points, n)
    {
      ghost var step := PointStep(layerSizes, activationFunctions, learningRate);
      var e := 0;
      while e < n
        invariant 0 <= e <= n && Valid()
        invariant epochCount == old(epochCount) + e
        invariant Parameters() == Epochs(step, old(Parameters()), points, e)
      {
        RunEpoch(points, shouldShow);
        epochCount := epochCount + 1;
        e := e + 1;
      }
    }

    /** trainOnDataset: a DimensionalityException, before anything changes,
        unless the dataset's dimensions are those of the input and output
        layers; otherwise `epochs` epochs (none if it is not positive) over
        the stored points in their stored order, each one counted. The
        dataset is not modified. */
    method TrainOnDataset(dataset: Dataset, epochs: int, shouldShow: bool) returns (r: Outcome)
      requires Valid() && dataset.Valid()
      modifies this
      ensures Valid()
      ensures r.Fail? <==> dataset.dimensionX != layerSizes[0] || dataset.dimensionY != layerSizes[|layerSizes| - 1]
      ensures r.Fail? ==> r.error == DimensionalityException
      ensures r.Fail? ==> Parameters() == old(Parameters()) && epochCount == old(epochCount)
      ensures r.Pass? ==> epochCount == old(epochCount) + (if epochs > 0 then epochs else 0)
      ensures r.Pass? ==> Parameters() == Epochs(PointStep(layerSizes, activationFunctions, learningRate), old(Parameters()),
                                                 dataset.dataPoints, if epochs > 0 then epochs else 0)
    {
      if dataset.dimensionX != layerSizes[0] || dataset.dimensionY != layerSizes[|layerSizes| - 1] {
        return Fail(DimensionalityException);
      }
      var points := dataset.GetDataPoints();
      assert PointsFit(layerSizes, points);
      RunEpochs(points, if epochs > 0 then epochs else 0, shouldShow);
      return Pass;
    }
  }
}
