/** The read-only snapshot of a trained regressor: a copy of its
    parameters, taken at construction, that can predict and score but not
    train. */
module InferenceRegressorModel {
  import opened Wrappers
  import opened Activation
  import opened Network
  import Kernels
  import opened RegressorModel

  class InferenceRegressor {
    const weights: seq<Matrix>
    const biases: seq<Vector>
    const layerSizes: seq<nat>
    const activationFunctions: seq<ActivationFunction>

    /** Parameters shaped after the topology, one activation per layer. */
    ghost predicate Valid() {
      ValidNetwork(layerSizes, activationFunctions, Params(weights, biases))
    }

    /** Copies the source's parameters layer by layer and row by row; the
        topology and the activations are shared with the source, which never
        changes them. Sequences are values, so the copy is equal to its source
        and nothing here tells it apart from a shared reference. */
    constructor (source: Regressor)
      requires source.Valid()
      ensures Valid()
      ensures layerSizes == source.layerSizes && activationFunctions == source.activationFunctions
      ensures weights == source.weights && biases == source.biases
    {
      var w: seq<Matrix> := [];
      var l := 0;
      while l < |source.weights|
        invariant 0 <= l <= |source.weights|
        invariant w == source.weights[..l]
      {
        var layer := source.weights[l];
        var layerCopy: Matrix := [];
        var i := 0;
        while i < |layer|
          invariant 0 <= i <= |layer|
          invariant layerCopy == layer[..i]
        {
          layerCopy := layerCopy + [layer[i]];
          i := i + 1;
        }
        assert layerCopy == layer;
        w := w + [layerCopy];
        l := l + 1;
        assert source.weights[..l] == source.weights[..l - 1] + [source.weights[l - 1]];
      }
      var b: seq<Vector> := [];
      l := 0;
      while l < |source.biases|
        invariant 0 <= l <= |source.biases|
        invariant b == source.biases[..l]
      {
        b := b + [source.biases[l]];
        l := l + 1;
        assert source.biases[..l] == source.biases[..l - 1] + [source.biases[l - 1]];
      }
      assert w == source.weights && b == source.biases;
      layerSizes := source.layerSizes;
      activationFunctions := source.activationFunctions;
      weights := w;
      biases := b;
    }

    /** The output-layer activations of a forward pass that keeps only the
        activations of each layer. */
    method Predict(input: Vector) returns (r: Vector)
      requires Valid() && |input| >= layerSizes[0]
      ensures r == Output(layerSizes, activationFunctions, Params(weights, biases), input)
      ensures |r| == layerSizes[|layerSizes| - 1]
    {
      var p := Params(weights, biases);
      var acts: seq<Vector> := [];
      var l := 0;
      while l < |layerSizes|
        invariant 0 <= l <= |layerSizes| && |acts| == l
        invariant forall k :: 0 <= k < l ==> acts[k] == LayerActivation(layerSizes, activationFunctions, p, input, k)
      {
        var z: Vector;
        if l > 0 {
          z := Kernels.PassOnceAndGetZValues(acts[l - 1], weights[l - 1], biases[l]);
        } else {
          z := input;
        }
        acts := acts + [ApplyAf(z, activationFunctions[l])];
        l := l + 1;
      }
      r := acts[|acts| - 1];
      OutputWidth(layerSizes, activationFunctions, p, input);
    }

    /** The squared-error loss against the width of the output layer. */
    method Loss(predicted: Vector, observed: Vector) returns (r: Result<real>)
      requires Valid()
      ensures r == Network.Loss(layerSizes[|layerSizes| - 1], predicted, observed)
    {
      r := Kernels.ComputeLoss(layerSizes[|layerSizes| - 1], predicted, observed);
    }
  }

  /** A snapshot taken before a training step keeps the parameters of the
      moment it was taken, while the regressor moves on by one training
      step. */
  method SnapshotThenTrain(reg: Regressor, input: Vector, output: Vector) returns (snap: InferenceRegressor)
    requires reg.Valid() && |input| >= reg.layerSizes[0] && |output| >= reg.layerSizes[|reg.layerSizes| - 1]
    modifies reg
    ensures snap.Valid()
    ensures snap.weights == old(reg.weights) && snap.biases == old(reg.biases)
    ensures reg.Parameters() == TrainStep(reg.layerSizes, reg.activationFunctions, reg.learningRate, old(reg.Parameters()), input, output)
  {
    snap := new InferenceRegressor(reg);
    var outcome := reg.TrainOnPoint(input, output, false);
  }

  /** At copy time the snapshot and the trainer predict the same vector for
      every input: the prediction of the parameters they share. */
  method PredictionsAgree(reg: Regressor, input: Vector) returns (trained: Vector, inferred: Vector)
    requires reg.Valid() && |input| >= reg.layerSizes[0]
    ensures trained == inferred
    ensures trained == Output(reg.layerSizes, reg.activationFunctions, reg.Parameters(), input)
  {
    var snap := new InferenceRegressor(reg);
    trained := reg.Predict(input);
    inferred := snap.Predict(input);
  }
}
