/**
  The activation strategy that parameterises the network: a nonlinearity `Sigma`
  and its derivative `DSigma`, fixed per variant. The closed set of variants is
  ReLU and the sigmoid.

  `DSigma` takes the layer's OUTPUT `y = Sigma(x)`, not its input `x`: the network
  applies it to the activations computed by the forward pass.

  The sigmoid's nonlinearity needs the exponential function, which is not
  modelled. The `Sigmoid` variant therefore carries its curve as an
  uninterpreted function, and nothing here depends on which curve it is.
 */
module Activations {

  datatype Activation = Relu | Sigmoid(curve: real -> real)

  /** The larger of `a` and `b`. */
  function Max(a: real, b: real): real {
    if a >= b then a else b
  }

  /** The nonlinearity. ReLU is `max(0, x)`: it passes non-negative inputs through and clamps negative ones to zero. */
  function Sigma(act: Activation, x: real): (y: real)
    ensures act.Relu? ==> y >= 0.0
    ensures act.Relu? ==> (x >= 0.0 ==> y == x) && (x < 0.0 ==> y == 0.0)
  {
    match act
    case Relu => Max(0.0, x)
    case Sigmoid(curve) => curve(x)
  }

  /**
    The derivative, as a function of the layer's output `y`.
    ReLU's is exactly 1 on a positive output and exactly 0 otherwise; the sigmoid's is
    `y * (1 - y)`, which for an output in [0, 1] lies in [0, 1/4].
   */
  function DSigma(act: Activation, y: real): (d: real)
    ensures act.Relu? ==> (d == 1.0 <==> y > 0.0) && (d == 0.0 <==> y <= 0.0)
    ensures act.Sigmoid? ==> d == y * (1.0 - y)
    ensures act.Sigmoid? && 0.0 <= y <= 1.0 ==> 0.0 <= d <= 0.25
  {
    match act
    case Relu => if y > 0.0 then 1.0 else 0.0
    case Sigmoid(_) =>
      SquareNonNegative(y - 0.5);
      ProductNonNegative(y, 1.0 - y);
      y * (1.0 - y)
  }

  /** A square is never negative. */
  lemma SquareNonNegative(a: real)
    ensures a * a >= 0.0
  {
  }

  /** A product of two non-negative factors is non-negative. */
  lemma ProductNonNegative(a: real, b: real)
    ensures a >= 0.0 && b >= 0.0 ==> a * b >= 0.0
  {
  }

  /** `Sigma` applied to every entry of `v`. */
  function SigmaEach(act: Activation, v: seq<real>): (r: seq<real>)
    ensures |r| == |v|
    ensures forall i {:trigger r[i]} :: 0 <= i < |v| ==> r[i] == Sigma(act, v[i])
  {
    seq(|v|, i requires 0 <= i < |v| => Sigma(act, v[i]))
  }

  /** `DSigma` applied to every entry of `v`. */
  function DSigmaEach(act: Activation, v: seq<real>): (r: seq<real>)
    ensures |r| == |v|
    ensures forall i {:trigger r[i]} :: 0 <= i < |v| ==> r[i] == DSigma(act, v[i])
  {
    seq(|v|, i requires 0 <= i < |v| => DSigma(act, v[i]))
  }

  /** ReLU is idempotent: clamping an already clamped value changes nothing. */
  lemma ReluIdempotent(x: real)
    ensures Sigma(Relu, Sigma(Relu, x)) == Sigma(Relu, x)
  {
  }

  /**
    For ReLU, the derivative taken at the output agrees with the derivative taken at
    the input, and both are 1 exactly when the input is positive. This is why the
    output-based convention is sound for ReLU.
   */
  lemma ReluDerivativeConventionsAgree(x: real)
    ensures DSigma(Relu, Sigma(Relu, x)) == DSigma(Relu, x)
    ensures DSigma(Relu, Sigma(Relu, x)) == 1.0 <==> x > 0.0
  {
  }

  /** The sigmoid's output-based derivative, at an output `y`, is `y * (1 - y)`, so `1/4` minus it is the square `(y - 1/2)²`. */
  lemma SigmoidDerivativeBound(curve: real -> real, y: real)
    ensures DSigma(Sigmoid(curve), y) == 0.25 - (y - 0.5) * (y - 0.5)
    ensures DSigma(Sigmoid(curve), y) <= 0.25
  {
  }
}
