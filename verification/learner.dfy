/**
  A fully connected network with one hidden layer: its parameters, its forward pass
  and its single online backpropagation step.

  The widths I (inputs), H (hidden units) and O (outputs) are explicit naturals;
  every operation requires parameters and vectors of matching shape. Values are
  exact reals.
 */
module Learner {
  import opened LinAlg
  import opened Activations

  /** The fixed step size of one training step. */
  const LearningRate: real := 0.1

  /** The widths of the input, hidden and output layers. */
  datatype Dims = Dims(inputs: nat, hidden: nat, outputs: nat)

  /**
    The trained parameters: hidden biases (H), input-to-hidden weights (H rows of I),
    output biases (O) and hidden-to-output weights (O rows of H).
   */
  datatype MachineLearner = MachineLearner(
    biasH: Vector,
    weightIH: Matrix,
    biasO: Vector,
    weightHO: Matrix)

  /** The four parameter containers have the shapes the widths demand. */
  predicate WellShaped(l: MachineLearner, d: Dims) {
    && |l.biasH| == d.hidden
    && IsMatrix(l.weightIH, d.hidden, d.inputs)
    && |l.biasO| == d.outputs
    && IsMatrix(l.weightHO, d.outputs, d.hidden)
  }

  /** What the forward pass produces: the hidden layer's and the output layer's activations. */
  datatype Activity = Activity(hidden: Vector, outputs: Vector)

  /** One layer: `Sigma` applied elementwise to `w * x + b`. */
  function Layer(act: Activation, w: Matrix, b: Vector, x: Vector): (a: Vector)
    requires IsMatrix(w, |b|, |x|)
    ensures |a| == |b|
    ensures forall k {:trigger a[k]} :: 0 <= k < |b| ==> a[k] == Sigma(act, Dot(w[k], x) + b[k])
  {
    SigmaEach(act, Add(MatVec(w, x), b))
  }

  /**
    The forward pass. Hidden unit `j` fires `Sigma` of its weighted inputs plus its
    bias; output unit `k` fires `Sigma` of its weighted hidden activations plus its
    bias.
   */
  function FeedForward(act: Activation, d: Dims, l: MachineLearner, x: Vector): (a: Activity)
    requires WellShaped(l, d) && |x| == d.inputs
    ensures |a.hidden| == d.hidden && |a.outputs| == d.outputs
    ensures forall j {:trigger a.hidden[j]} :: 0 <= j < d.hidden ==>
      a.hidden[j] == Sigma(act, Dot(l.weightIH[j], x) + l.biasH[j])
    ensures forall k {:trigger a.outputs[k]} :: 0 <= k < d.outputs ==>
      a.outputs[k] == Sigma(act, Dot(l.weightHO[k], a.hidden) + l.biasO[k])
  {
    var hidden := Layer(act, l.weightIH, l.biasH, x);
    Activity(hidden, Layer(act, l.weightHO, l.biasO, hidden))
  }

  /** The prediction: the output layer's activations, fed by the hidden layer's. */
  function Predict(act: Activation, d: Dims, l: MachineLearner, x: Vector): (y: Vector)
    requires WellShaped(l, d) && |x| == d.inputs
    ensures y == FeedForward(act, d, l, x).outputs
    ensures |y| == d.outputs
    ensures forall k {:trigger y[k]} :: 0 <= k < d.outputs ==>
      y[k] == Sigma(act, Dot(l.weightHO[k], Layer(act, l.weightIH, l.biasH, x)) + l.biasO[k])
  {
    FeedForward(act, d, l, x).outputs
  }

  /**
    The gradient of a layer: its derivative at the layer's activations, times the
    layer's errors, times the learning rate.
   */
  function Gradient(act: Activation, activations: Vector, errors: Vector): (g: Vector)
    requires |activations| == |errors|
    ensures |g| == |errors|
    ensures forall k {:trigger g[k]} :: 0 <= k < |g| ==>
      g[k] == DSigma(act, activations[k]) * errors[k] * LearningRate
  {
    Scale(Hadamard(DSigmaEach(act, activations), errors), LearningRate)
  }

  /**
    The output layer's learning rule, entry by entry: `biasO'` and `weightHO'` are what
    the output biases and hidden-to-output weights of `l` become after one step on
    activations `a` and targets `t`. Output bias `k` moves by the output gradient
    `DSigma(o[k]) * (t[k] - o[k]) * 0.1`, and weight `(k, j)` moves by that gradient
    times hidden activation `j`.
   */
  predicate OutputLayerStep(act: Activation, d: Dims, l: MachineLearner, a: Activity, t: Vector, biasO': Vector, weightHO': Matrix)
    requires WellShaped(l, d) && |a.hidden| == d.hidden && |a.outputs| == d.outputs && |t| == d.outputs
  {
    && |biasO'| == d.outputs
    && IsMatrix(weightHO', d.outputs, d.hidden)
    && (forall k {:trigger biasO'[k]} :: 0 <= k < d.outputs ==>
          biasO'[k] == l.biasO[k] + DSigma(act, a.outputs[k]) * (t[k] - a.outputs[k]) * LearningRate)
    && (forall k, j {:trigger weightHO'[k][j]} :: 0 <= k < d.outputs && 0 <= j < d.hidden ==>
          weightHO'[k][j] == l.weightHO[k][j] + DSigma(act, a.outputs[k]) * (t[k] - a.outputs[k]) * LearningRate * a.hidden[j])
  }

  /**
    The hidden layer's learning rule, entry by entry, given the hidden units' errors
    `errors` (in a training step: the output errors propagated back through the
    hidden-to-output weights). Hidden bias `j` moves by the hidden gradient
    `DSigma(h[j]) * errors[j] * 0.1`, and weight `(j, i)` moves by that gradient times
    input `i`.
   */
  predicate HiddenLayerStep(act: Activation, d: Dims, l: MachineLearner, a: Activity, x: Vector, errors: Vector,
                            biasH': Vector, weightIH': Matrix)
    requires WellShaped(l, d) && |a.hidden| == d.hidden && |x| == d.inputs && |errors| == d.hidden
  {
    && |biasH'| == d.hidden
    && IsMatrix(weightIH', d.hidden, d.inputs)
    && (forall j {:trigger biasH'[j]} :: 0 <= j < d.hidden ==>
          biasH'[j] == l.biasH[j] + DSigma(act, a.hidden[j]) * errors[j] * LearningRate)
    && (forall j, i {:trigger weightIH'[j][i]} :: 0 <= j < d.hidden && 0 <= i < d.inputs ==>
          weightIH'[j][i] == l.weightIH[j][i] + DSigma(act, a.hidden[j]) * errors[j] * LearningRate * x[i])
  }

  /**
    The first half of a training step: the output gradient is added to the output
    biases, and its outer product with the hidden activations to the hidden-to-output
    weights, following `OutputLayerStep`. The hidden layer is untouched.
   */
  function UpdateOutputLayer(act: Activation, d: Dims, l: MachineLearner, a: Activity, t: Vector): (l': MachineLearner)
    requires WellShaped(l, d) && |a.hidden| == d.hidden && |a.outputs| == d.outputs && |t| == d.outputs
    ensures WellShaped(l', d)
    ensures OutputLayerStep(act, d, l, a, t, l'.biasO, l'.weightHO)
    ensures l'.biasH == l.biasH && l'.weightIH == l.weightIH
  {
    var gradients := Gradient(act, a.outputs, Sub(t, a.outputs));
    OutputGradientFollowsRule(act, d, l, a, t, gradients);
    l.(weightHO := MatAdd(l.weightHO, Outer(gradients, a.hidden)),
       biasO := Add(l.biasO, gradients))
  }

  /**
    The second half of a training step: the output errors are propagated back through
    the CURRENT hidden-to-output weights of `l`, and the resulting hidden gradient is
    added to the hidden biases, and its outer product with the inputs to the
    input-to-hidden weights, following `HiddenLayerStep`. The output layer is untouched.
   */
  function UpdateHiddenLayer(act: Activation, d: Dims, l: MachineLearner, a: Activity, x: Vector, t: Vector): (l': MachineLearner)
    requires WellShaped(l, d) && |a.hidden| == d.hidden && |a.outputs| == d.outputs
    requires |x| == d.inputs && |t| == d.outputs
    ensures WellShaped(l', d)
    ensures HiddenLayerStep(act, d, l, a, x, TrMul(l.weightHO, Sub(t, a.outputs), d.hidden), l'.biasH, l'.weightIH)
    ensures l'.biasO == l.biasO && l'.weightHO == l.weightHO
  {
    var hiddenErrors := TrMul(l.weightHO, Sub(t, a.outputs), d.hidden);
    var hiddenGradient := Gradient(act, a.hidden, hiddenErrors);
    HiddenGradientFollowsRule(act, d, l, a, x, hiddenErrors, hiddenGradient);
    l.(weightIH := MatAdd(l.weightIH, Outer(hiddenGradient, x)),
       biasH := Add(l.biasH, hiddenGradient))
  }

  /** Adding the output gradient and its outer product with the hidden activations realises `OutputLayerStep`. */
  lemma OutputGradientFollowsRule(act: Activation, d: Dims, l: MachineLearner, a: Activity, t: Vector, g: Vector)
    requires WellShaped(l, d) && |a.hidden| == d.hidden && |a.outputs| == d.outputs && |t| == d.outputs
    requires g == Gradient(act, a.outputs, Sub(t, a.outputs))
    ensures OutputLayerStep(act, d, l, a, t, Add(l.biasO, g), MatAdd(l.weightHO, Outer(g, a.hidden)))
  {
    var b := Add(l.biasO, g);
    var w := MatAdd(l.weightHO, Outer(g, a.hidden));
    forall k | 0 <= k < d.outputs
      ensures g[k] == DSigma(act, a.outputs[k]) * (t[k] - a.outputs[k]) * LearningRate
    {
      assert Sub(t, a.outputs)[k] == t[k] - a.outputs[k];
    }
    forall k | 0 <= k < d.outputs
      ensures b[k] == l.biasO[k] + DSigma(act, a.outputs[k]) * (t[k] - a.outputs[k]) * LearningRate
    {
    }
    forall k, j | 0 <= k < d.outputs && 0 <= j < d.hidden
      ensures w[k][j] == l.weightHO[k][j] + DSigma(act, a.outputs[k]) * (t[k] - a.outputs[k]) * LearningRate * a.hidden[j]
    {
      OuterUpdateEntry(l.weightHO, g, a.hidden, k, j);
    }
  }

  /** Adding the hidden gradient and its outer product with the inputs realises `HiddenLayerStep`. */
  lemma HiddenGradientFollowsRule(act: Activation, d: Dims, l: MachineLearner, a: Activity, x: Vector, errors: Vector, hg: Vector)
    requires WellShaped(l, d) && |a.hidden| == d.hidden && |x| == d.inputs && |errors| == d.hidden
    requires hg == Gradient(act, a.hidden, errors)
    ensures HiddenLayerStep(act, d, l, a, x, errors, Add(l.biasH, hg), MatAdd(l.weightIH, Outer(hg, x)))
  {
    var b := Add(l.biasH, hg);
    var w := MatAdd(l.weightIH, Outer(hg, x));
    forall j | 0 <= j < d.hidden
      ensures b[j] == l.biasH[j] + DSigma(act, a.hidden[j]) * errors[j] * LearningRate
    {
    }
    forall j, i | 0 <= j < d.hidden && 0 <= i < d.inputs
      ensures w[j][i] == l.weightIH[j][i] + DSigma(act, a.hidden[j]) * errors[j] * LearningRate * x[i]
    {
      OuterUpdateEntry(l.weightIH, hg, x, j, i);
    }
  }

  /**
    One online training step on the sample (`x`, `t`): the forward pass, then the
    output layer's update, then the hidden layer's update. The output layer follows
    `OutputLayerStep`; the hidden layer follows `HiddenLayerStep` with the errors
    propagated through the UPDATED hidden-to-output weights.
   */
  function Train(act: Activation, d: Dims, l: MachineLearner, x: Vector, t: Vector): (l': MachineLearner)
    requires WellShaped(l, d) && |x| == d.inputs && |t| == d.outputs
    ensures WellShaped(l', d)
    ensures var a := FeedForward(act, d, l, x);
      && OutputLayerStep(act, d, l, a, t, l'.biasO, l'.weightHO)
      && HiddenLayerStep(act, d, l, a, x, TrMul(l'.weightHO, Sub(t, a.outputs), d.hidden), l'.biasH, l'.weightIH)
  {
    var a := FeedForward(act, d, l, x);
    UpdateHiddenLayer(act, d, UpdateOutputLayer(act, d, l, a, t), a, x, t)
  }
}
