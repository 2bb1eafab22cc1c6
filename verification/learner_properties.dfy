/**
  Properties of the forward pass and of the training step: what each parameter
  becomes after one step, which training samples leave the learner unchanged, and how
  ReLU's zero behaves.
 */
module LearnerProperties {
  import opened LinAlg
  import opened Activations
  import opened Learner

  /** The learner whose weights and biases are all zero. */
  function ZeroLearner(d: Dims): (l: MachineLearner)
    ensures WellShaped(l, d)
    ensures IsZero(l.biasH) && IsZero(l.biasO)
    ensures forall j {:trigger l.weightIH[j]} :: 0 <= j < d.hidden ==> IsZero(l.weightIH[j])
    ensures forall k {:trigger l.weightHO[k]} :: 0 <= k < d.outputs ==> IsZero(l.weightHO[k])
  {
    MachineLearner(Zeros(d.hidden), ZeroMatrix(d.hidden, d.inputs), Zeros(d.outputs), ZeroMatrix(d.outputs, d.hidden))
  }

  /**
    Because the hidden errors are propagated through the already updated output
    weights, they differ from propagation through the weights the forward pass used:
    hidden error `j` gains `h[j] * (g · e)`, with `g` the output gradient and `e` the
    output errors.
   */
  lemma HiddenErrorsUseUpdatedWeights(act: Activation, d: Dims, l: MachineLearner, x: Vector, t: Vector, a: Activity, l': MachineLearner)
    requires WellShaped(l, d) && |x| == d.inputs && |t| == d.outputs
    requires a == FeedForward(act, d, l, x) && l' == Train(act, d, l, x, t)
    ensures var e := Sub(t, a.outputs);
      TrMul(l'.weightHO, e, d.hidden)
        == Add(TrMul(l.weightHO, e, d.hidden), Scale(a.hidden, Dot(Gradient(act, a.outputs, e), e)))
  {
    var e := Sub(t, a.outputs);
    var g := Gradient(act, a.outputs, e);
    var l1 := UpdateOutputLayer(act, d, l, a, t);
    assert l' == UpdateHiddenLayer(act, d, l1, a, x, t);
    assert l'.weightHO == MatAdd(l.weightHO, Outer(g, a.hidden));
    TrMulOfOuterUpdate(l.weightHO, g, a.hidden, e);
  }

  /** The learning rate is the constant 0.1: every gradient entry is one tenth of the derivative times the error. */
  lemma GradientIsTenthOfDerivativeTimesError(act: Activation, activations: Vector, errors: Vector, k: nat)
    requires |activations| == |errors| && k < |errors|
    ensures Gradient(act, activations, errors)[k] == DSigma(act, activations[k]) * errors[k] / 10.0
  {
    var g := Gradient(act, activations, errors);
    assert g[k] == DSigma(act, activations[k]) * errors[k] * LearningRate;
  }

  /** With zero output errors, the output layer's update changes nothing. */
  lemma OutputUpdateWithoutErrorIsIdentity(act: Activation, d: Dims, l: MachineLearner, a: Activity, t: Vector)
    requires WellShaped(l, d) && |a.hidden| == d.hidden && |a.outputs| == d.outputs && |t| == d.outputs
    requires t == a.outputs
    ensures UpdateOutputLayer(act, d, l, a, t) == l
  {
    var l1 := UpdateOutputLayer(act, d, l, a, t);
    forall k | 0 <= k < d.outputs
      ensures l1.biasO[k] == l.biasO[k]
    {
    }
    MatrixUnchanged(l.weightHO, l1.weightHO);
  }

  /** With zero output errors, the hidden errors vanish and the hidden layer's update changes nothing. */
  lemma HiddenUpdateWithoutErrorIsIdentity(act: Activation, d: Dims, l: MachineLearner, a: Activity, x: Vector, t: Vector)
    requires WellShaped(l, d) && |a.hidden| == d.hidden && |a.outputs| == d.outputs
    requires |x| == d.inputs && |t| == d.outputs
    requires t == a.outputs
    ensures UpdateHiddenLayer(act, d, l, a, x, t) == l
  {
    var l2 := UpdateHiddenLayer(act, d, l, a, x, t);
    var e := Sub(t, a.outputs);
    assert IsZero(e);
    forall j | 0 <= j < d.hidden
      ensures Dot(Column(l.weightHO, j), e) == 0.0
    {
      DotZeroRight(Column(l.weightHO, j), e);
    }
    forall j | 0 <= j < d.hidden
      ensures l2.biasH[j] == l.biasH[j]
    {
    }
    MatrixUnchanged(l.weightIH, l2.weightIH);
  }

  /**
    A sample whose target is exactly the current prediction is a fixed point of
    training: the output errors are zero, hence every gradient, every delta and every
    hidden error is zero, and all four parameters come back unchanged.
   */
  lemma TrainAtTargetIsFixedPoint(act: Activation, d: Dims, l: MachineLearner, x: Vector, t: Vector)
    requires WellShaped(l, d) && |x| == d.inputs && |t| == d.outputs
    requires t == Predict(act, d, l, x)
    ensures Train(act, d, l, x, t) == l
  {
    var a := FeedForward(act, d, l, x);
    OutputUpdateWithoutErrorIsIdentity(act, d, l, a, t);
    HiddenUpdateWithoutErrorIsIdentity(act, d, l, a, x, t);
  }

  /** Two matrices with the same shape and the same entries are equal. */
  lemma MatrixUnchanged(m: Matrix, m': Matrix)
    requires |m| == |m'|
    requires forall i :: 0 <= i < |m| ==> |m[i]| == |m'[i]|
    requires forall i, j {:trigger m'[i][j]} :: 0 <= i < |m| && 0 <= j < |m[i]| ==> m'[i][j] == m[i][j]
    ensures m' == m
  {
    forall i | 0 <= i < |m|
      ensures m'[i] == m[i]
    {
    }
  }

  /** With ReLU, every hidden and output activation is non-negative. */
  lemma ReluActivityNonNegative(d: Dims, l: MachineLearner, x: Vector)
    requires WellShaped(l, d) && |x| == d.inputs
    ensures var a := FeedForward(Relu, d, l, x);
      && (forall j {:trigger a.hidden[j]} :: 0 <= j < d.hidden ==> a.hidden[j] >= 0.0)
      && (forall k {:trigger a.outputs[k]} :: 0 <= k < d.outputs ==> a.outputs[k] >= 0.0)
  {
  }

  /** With ReLU, the all-zero learner predicts the zero vector for every input. */
  lemma ReluZeroLearnerPredictsZero(d: Dims, x: Vector)
    requires |x| == d.inputs
    ensures Predict(Relu, d, ZeroLearner(d), x) == Zeros(d.outputs)
  {
    var l := ZeroLearner(d);
    var a := FeedForward(Relu, d, l, x);
    forall j | 0 <= j < d.hidden
      ensures a.hidden[j] == 0.0
    {
      DotZeroLeft(l.weightIH[j], x);
    }
    forall k | 0 <= k < d.outputs
      ensures a.outputs[k] == 0.0
    {
      DotZeroLeft(l.weightHO[k], a.hidden);
    }
  }

  /** A hidden unit that is silent (activation 0) keeps its outgoing weights through the output layer's update. */
  lemma SilentUnitKeepsOutgoingWeights(act: Activation, d: Dims, l: MachineLearner, a: Activity, t: Vector, j: nat)
    requires WellShaped(l, d) && |a.hidden| == d.hidden && |a.outputs| == d.outputs && |t| == d.outputs
    requires j < d.hidden && a.hidden[j] == 0.0
    ensures var l1 := UpdateOutputLayer(act, d, l, a, t);
      forall k {:trigger l1.weightHO[k]} :: 0 <= k < d.outputs ==> l1.weightHO[k][j] == l.weightHO[k][j]
  {
  }

  /**
    With ReLU, a hidden unit that is silent (activation 0) has derivative 0, so the
    hidden layer's update keeps its bias and its incoming weights, whatever its error.
   */
  lemma ReluSilentUnitKeepsIncomingWeights(d: Dims, l: MachineLearner, a: Activity, x: Vector, t: Vector, j: nat)
    requires WellShaped(l, d) && |a.hidden| == d.hidden && |a.outputs| == d.outputs
    requires |x| == d.inputs && |t| == d.outputs
    requires j < d.hidden && a.hidden[j] == 0.0
    ensures var l2 := UpdateHiddenLayer(Relu, d, l, a, x, t);
      l2.biasH[j] == l.biasH[j] && l2.weightIH[j] == l.weightIH[j]
  {
    var l2 := UpdateHiddenLayer(Relu, d, l, a, x, t);
    assert DSigma(Relu, a.hidden[j]) == 0.0;
    forall i | 0 <= i < d.inputs
      ensures l2.weightIH[j][i] == l.weightIH[j][i]
    {
    }
  }

  /**
    With ReLU, a hidden unit that is silent on the sample (activation 0) learns
    nothing from it: its bias, its incoming weights and its outgoing weights are all
    left as they were.
   */
  lemma ReluSilentHiddenUnitIsFrozen(d: Dims, l: MachineLearner, x: Vector, t: Vector, j: nat)
    requires WellShaped(l, d) && |x| == d.inputs && |t| == d.outputs && j < d.hidden
    requires FeedForward(Relu, d, l, x).hidden[j] == 0.0
    ensures var l' := Train(Relu, d, l, x, t);
      && l'.biasH[j] == l.biasH[j]
      && l'.weightIH[j] == l.weightIH[j]
      && forall k {:trigger l'.weightHO[k]} :: 0 <= k < d.outputs ==> l'.weightHO[k][j] == l.weightHO[k][j]
  {
    var a := FeedForward(Relu, d, l, x);
    var l1 := UpdateOutputLayer(Relu, d, l, a, t);
    assert Train(Relu, d, l, x, t) == UpdateHiddenLayer(Relu, d, l1, a, x, t);
    SilentUnitKeepsOutgoingWeights(Relu, d, l, a, t, j);
    ReluSilentUnitKeepsIncomingWeights(d, l1, a, x, t, j);
  }
}
