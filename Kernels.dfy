/** The accumulator loops that Regressor and InferenceRegressor share, written
    once: the z-values of one layer (passOnceAndGetZValues) and the guarded
    sum of squared errors (loss). Each is proved against the function of the
    network module that specifies it. */
module Kernels {
  import opened Wrappers
  import opened Network

  /** The z-values of a layer: for every neuron j of the layer, the sum of
      prev[i] * m[i][j] over the rows i of the connecting matrix, plus the
      neuron's bias. Rows of prev beyond the matrix are not read. */
  method PassOnceAndGetZValues(prev: Vector, m: Matrix, bias: Vector) returns (z: Vector)
    requires |m| <= |prev| && MatrixShaped(m, |m|, |bias|)
    ensures z == ZLayer(prev, m, bias)
  {
    z := [];
    var iCurr := 0;
    while iCurr < |bias|
      invariant 0 <= iCurr <= |bias|
      invariant |z| == iCurr
      invariant forall j :: 0 <= j < iCurr ==> z[j] == WeightedSum(prev, m, j, |m|) + bias[j]
    {
      var sum := 0.0;
      var iPrev := 0;
      while iPrev < |m|
        invariant 0 <= iPrev <= |m|
        invariant sum == WeightedSum(prev, m, iCurr, iPrev)
      {
        sum := sum + prev[iPrev] * m[iPrev][iCurr];
        iPrev := iPrev + 1;
      }
      z := z + [sum + bias[iCurr]];
      iCurr := iCurr + 1;
    }
  }

  /** The sum of the squared differences over the entries of predicted. */
  method SquaredError(predicted: Vector, observed: Vector) returns (error: real)
    requires |predicted| <= |observed|
    ensures error == SumSquares(predicted, observed, |predicted|)
    ensures error >= 0.0
  {
    error := 0.0;
    var i := 0;
    while i < |predicted|
      invariant 0 <= i <= |predicted|
      invariant error == SumSquares(predicted, observed, i)
    {
      var diff := observed[i] - predicted[i];
      error := error + diff * diff;
      i := i + 1;
    }
  }

  /** The loss of a prediction: a DimensionalityException unless predicted
      has the width of the output layer and observed the same width, and
      the sum of squared errors otherwise. */
  method ComputeLoss(outputWidth: nat, predicted: Vector, observed: Vector) returns (r: Result<real>)
    ensures r == Loss(outputWidth, predicted, observed)
  {
    if outputWidth != |predicted| || |predicted| != |observed| {
      return Err(DimensionalityException);
    }
    var error := SquaredError(predicted, observed);
    return Ok(error);
  }
}
