/** The closed set of activation functions with their values and derivatives
    (Regressor.af, Regressor.afd and applyActivationFunctionToLayer; the
    inference snapshot has an identical copy of af). */
module Activation {

  type PosReal = r: real | r > 0.0 witness 1.0

  /** Math.exp, left uninterpreted; all the model relies on is that it is positive. */
  const MathExp: real -> PosReal

  /** Math.tanh, left uninterpreted. */
  const MathTanh: real -> real

  datatype ActivationFunction = Identity | ReLU | Sigmoid | Tanh

  function Logistic(a: real): (r: real)
    ensures 0.0 < r < 1.0
  {
    1.0 / (1.0 + MathExp(-a))
  }

  /** The value of an activation function. Since the enumeration is closed, the
      source's default branch (ActivationFunctionException) cannot be reached. */
  function Af(a: real, f: ActivationFunction): (r: real)
    ensures f == Identity ==> r == a
    ensures f == ReLU ==> r >= 0.0 && r >= a && (r == 0.0 || r == a)
    ensures f == Sigmoid ==> 0.0 < r < 1.0
  {
    match f
    case Identity => a
    case ReLU => if a > 0.0 then a else 0.0
    case Sigmoid => Logistic(a)
    case Tanh => MathTanh(a)
  }

  /** The derivative of an activation function at the pre-activation value z. */
  function Afd(z: real, f: ActivationFunction): (r: real)
    ensures f == Identity ==> r == 1.0
    ensures f == ReLU ==> (r == 1.0 <==> z > 0.0) && (r == 0.0 <==> z <= 0.0)
    ensures f == Sigmoid ==> 0.0 < r <= 0.25
    ensures f == Tanh ==> r <= 1.0
  {
    match f
    case Identity => 1.0
    case ReLU => if z > 0.0 then 1.0 else 0.0
    case Sigmoid =>
      var s := Logistic(z);
      LogisticSlopeBound(s);
      s * (1.0 - s)
    case Tanh =>
      var t := MathTanh(z);
      1.0 - t * t
  }

  /** s * (1 - s) is positive and at most 1/4 on the open unit interval. */
  lemma LogisticSlopeBound(s: real)
    requires 0.0 < s < 1.0
    ensures 0.0 < s * (1.0 - s) <= 0.25
  {
    assert s * (1.0 - s) == 0.25 - (s - 0.5) * (s - 0.5);
  }

  /** The activation applied to every entry of a layer, in order. */
  function ApplyAf(layer: seq<real>, f: ActivationFunction): (r: seq<real>)
    ensures |r| == |layer|
    ensures forall i :: 0 <= i < |layer| ==> r[i] == Af(layer[i], f)
  {
    seq(|layer|, i requires 0 <= i < |layer| => Af(layer[i], f))
  }

  /** For the two piecewise-linear kinds, value and derivative agree as
      f(z) = f'(z) * z. */
  lemma PiecewiseLinearDerivative(z: real, f: ActivationFunction)
    requires f == Identity || f == ReLU
    ensures Af(z, f) == Afd(z, f) * z
  {
  }

  /** The derivatives of Sigmoid and Tanh are stated through their values. */
  lemma DerivativeFromValue(z: real)
    ensures Afd(z, Sigmoid) == Af(z, Sigmoid) * (1.0 - Af(z, Sigmoid))
    ensures Afd(z, Tanh) == 1.0 - Af(z, Tanh) * Af(z, Tanh)
  {
  }

  /** The identity activation leaves a layer as it is. */
  lemma IdentityLayer(layer: seq<real>)
    ensures ApplyAf(layer, Identity) == layer
  {
  }
}
