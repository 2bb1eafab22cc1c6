# machine-learning: a verified model of the one-hidden-layer learner

The crate implements a small fully connected neural network. It has an input layer of
width I, a hidden layer of width H and an output layer of width O. The activation
strategy is chosen per network: ReLU or the sigmoid. The network is trained by online
backpropagation with a fixed learning rate of 0.1. `MachineLearner` holds four
parameters:

- `bias_h`: the hidden biases (H entries).
- `weight_ih`: the input-to-hidden weights (H×I).
- `bias_o`: the output biases (O entries).
- `weight_ho`: the hidden-to-output weights (O×H).

`feed_forward` applies `sigma` to `weight_ih · x + bias_h` to get the hidden
activations. It then applies `sigma` to `weight_ho · hidden + bias_o` to get the
outputs. `predict` returns the outputs. `train` does one backpropagation step on a
single sample.

The model has four modules:

- `LinAlg` (`linalg.dfy`): dense real vectors and matrices. Vectors are `seq<real>` and
  matrices are row sequences `seq<seq<real>>`. It provides addition and subtraction,
  scaling, the elementwise product and the inner product. It also provides the
  matrix-vector product, the transposed product `tr_mul` and the outer product
  `g · vᵀ`.
- `Activations` (`activation.dfy`): the `Activation` trait becomes the closed datatype
  `Relu | Sigmoid(curve)`, with `Sigma` and `DSigma`. `DSigma` takes the layer's
  output, as the crate's `dsigma(y)` does.
- `Learner` (`learner.dfy`): the parameters, the forward pass, `Predict` and `Train`.
  `Train` is split into its output-layer half and its hidden-layer half. Each half is
  characterised entry by entry by a learning-rule predicate: `OutputLayerStep` and
  `HiddenLayerStep`.
- `LearnerProperties` (`learner_properties.dfy`): properties of a whole training step.
  - Its fixed points.
  - The exact effect of propagating the hidden errors through the already updated
    output weights.
  - The behaviour of ReLU at zero.

Layer widths, which the crate carries as type-level dimensions, are explicit naturals
in `Dims`. Every operation requires parameters and vectors of matching shape. Numbers
are exact reals.

## Model

| member | source | states |
|---|---|---|
| Activations.Sigma | src/activation.rs:8-10 | ReLU's nonlinearity is never negative, passes a non-negative input through unchanged and clamps a negative input to 0 |
| Activations.DSigma | src/activation.rs:11-26 | ReLU's derivative at an output y is 1 exactly when y > 0 and 0 exactly when y ≤ 0; the sigmoid's derivative at an output y is y(1 − y), and for y in [0, 1] it lies in [0, 1/4] |
| Activations.ReluIdempotent | src/activation.rs:8-10 | applying ReLU twice is the same as applying it once |
| Activations.ReluDerivativeConventionsAgree | src/activation.rs:8-17 | for ReLU, the derivative taken at the output `sigma(x)` equals the derivative taken at the input x, and it is 1 exactly when x > 0 |
| Activations.SigmoidDerivativeBound | src/activation.rs:24-26 | the sigmoid's output-based derivative y(1 − y) equals 1/4 − (y − 1/2)², so it never exceeds 1/4 |
| Learner.Layer | src/lib.rs:61 | unit k of a layer fires `sigma` of row k of the weights times the input, plus bias k |
| Learner.FeedForward | src/lib.rs:60-64 | the hidden activations have H entries and the outputs have O entries; hidden unit j is `sigma(weight_ih[j] · x + bias_h[j])` and output k is `sigma(weight_ho[k] · hidden + bias_o[k])` |
| Learner.Predict | src/lib.rs:65-67 | the prediction is exactly the output component of the forward pass, with O entries; output k is `sigma` of `weight_ho[k]` applied to the hidden layer computed from x, plus `bias_o[k]` |
| Learner.Gradient | src/lib.rs:80 | gradient entry k is the derivative at activation k times error k times the learning rate 0.1 |
| LearnerProperties.GradientIsTenthOfDerivativeTimesError | src/lib.rs:70-80 | with `LEARNING_RATE` = 0.1, every gradient entry is exactly one tenth of the derivative times the error |
| Learner.OutputGradientFollowsRule | src/lib.rs:80-88 | adding the output gradient to `bias_o`, and its outer product with the hidden activations to `weight_ho`, moves `bias_o[k]` by `dsigma(o[k]) (t[k] − o[k]) · 0.1` and `weight_ho[k][j]` by that amount times `hidden[j]` |
| Learner.HiddenGradientFollowsRule | src/lib.rs:94-101 | adding the hidden gradient to `bias_h`, and its outer product with the inputs to `weight_ih`, moves `bias_h[j]` by `dsigma(h[j]) · errors[j] · 0.1` and `weight_ih[j][i]` by that amount times `x[i]` |
| Learner.UpdateOutputLayer | src/lib.rs:76-88 | the output half of a step keeps every shape, follows the output learning rule, and leaves `bias_h` and `weight_ih` unchanged |
| Learner.UpdateHiddenLayer | src/lib.rs:90-101 | the hidden half of a step keeps every shape, follows the hidden learning rule with the output errors propagated back through the current `weight_ho`, and leaves `bias_o` and `weight_ho` unchanged |
| Learner.Train | src/lib.rs:68-102 | a training step keeps every shape; `bias_o` and `weight_ho` follow the output learning rule at the forward pass's activations; `bias_h` and `weight_ih` follow the hidden learning rule, with the hidden errors computed from the UPDATED `weight_ho` |
| LearnerProperties.HiddenErrorsUseUpdatedWeights | src/lib.rs:83-91 | because `weight_ho` is updated before the hidden errors are computed, hidden error j exceeds back-propagation through the pre-step weights by exactly `hidden[j] · (g · e)`, with g the output gradient and e the output errors |
| LearnerProperties.OutputUpdateWithoutErrorIsIdentity | src/lib.rs:76-88 | when the targets equal the outputs, the output half of the step returns the learner unchanged |
| LearnerProperties.HiddenUpdateWithoutErrorIsIdentity | src/lib.rs:90-101 | when the targets equal the outputs, the hidden errors vanish and the hidden half of the step returns the learner unchanged |
| LearnerProperties.TrainAtTargetIsFixedPoint | src/lib.rs:68-102 | training on a sample whose target is the learner's current prediction leaves all four parameters unchanged |
| LearnerProperties.ZeroLearner | src/lib.rs:26-35 | the all-zero learner has the shapes the widths demand, and all of its biases and weights are zero |
| LearnerProperties.ReluActivityNonNegative | src/lib.rs:60-64 | with ReLU, every hidden activation and every output of the forward pass is non-negative |
| LearnerProperties.ReluZeroLearnerPredictsZero | src/lib.rs:60-67 | with ReLU, the all-zero learner predicts the zero vector for every input |
| LearnerProperties.SilentUnitKeepsOutgoingWeights | src/lib.rs:83-86 | a hidden unit with activation 0 keeps its outgoing weights (column j of `weight_ho`) through the output half of the step |
| LearnerProperties.ReluSilentUnitKeepsIncomingWeights | src/lib.rs:94-101 | with ReLU, a hidden unit with activation 0 has derivative 0, so the hidden half of the step keeps its bias and its row of `weight_ih` whatever its error |
| LearnerProperties.ReluSilentHiddenUnitIsFrozen | src/lib.rs:68-102 | with ReLU, a hidden unit that is silent on the sample keeps its bias, its incoming weights and its outgoing weights through a whole training step |
| Activations.SigmaEach | src/lib.rs:61-62 | `.map(sigma)`: the result has the input's length, and entry i is `sigma` of input entry i |
| Activations.DSigmaEach | src/lib.rs:80 | `.map(dsigma)`: the result has the input's length, and entry i is `dsigma` of input entry i |
| LinAlg.MatVec | src/lib.rs:61-62 | matrix times vector: one entry per row, entry i is row i dotted with the vector |
| LinAlg.Add | src/lib.rs:61-62 | vector addition (`+ bias`, `bias += gradient`): same length, entry i is the sum of the two entries i |
| LinAlg.Sub | src/lib.rs:76 | `targets - outputs`: same length, entry i is the difference of the two entries i |
| LinAlg.Hadamard | src/lib.rs:80 | `component_mul`: same length, entry i is the product of the two entries i |
| LinAlg.Scale | src/lib.rs:80 | `* LEARNING_RATE`: same length, entry i is entry i times the scalar |
| LinAlg.Outer | src/lib.rs:83 | `g * v.transpose()`: a |g| by |v| matrix whose entry (i, j) is `g[i] * v[j]` |
| LinAlg.MatAdd | src/lib.rs:86 | `weight += deltas`: same number of rows, and row i is the sum of the two rows i |
| LinAlg.TrMul | src/lib.rs:91 | `tr_mul`: one entry per column, entry j is column j of the matrix dotted with the vector |
| LinAlg.TrMulOfOuterUpdate | src/lib.rs:86-91 | `(W + g vᵀ)ᵀ e = Wᵀ e + v (g · e)`: the transposed product of a rank-one update |
| LinAlg.TrMulIsTransposeProduct | src/lib.rs:91 | `tr_mul(W, e)` is the product of the transpose of W with e |

## Left out

- `new` (src/lib.rs:41-49) draws every parameter from `rand::random`. Randomness is not modelled. Any well-shaped `MachineLearner` can be a starting point, and `ZeroLearner` is one.
- `print` (src/lib.rs:50-59) is console output.
- src/main.rs, the demonstration program, is not part of this model. It calls a `vect_make` that the crate does not define. The weights and the predictions it prints after 1000 epochs are not stated.
- Activations.Sigma: the sigmoid's nonlinearity needs the exponential function, so the `Sigmoid` variant carries its curve as an uninterpreted function. Nothing is stated about its values. As written, `(-(-x).exp_m1()).recip()` computes 1/(1 − e^(−x)) rather than the logistic 1/(1 + e^(−x)). That is not in (0, 1), and it is unbounded near x = 0. So no bound on sigmoid outputs is assumed anywhere, and the sigmoid derivative bound is stated only for outputs already in [0, 1].
- IEEE-754 `f64` arithmetic: rounding, overflow, infinities and NaN. Every value is an exact real.
- nalgebra's type-level dimensions and allocator bounds are replaced by explicit widths in `Dims` and the `WellShaped` predicate.
- src/lib.rs:80 calls `A::dsigma_of_y`, which the `Activation` trait does not declare (it declares only `sigma` and `dsigma`). The model uses `dsigma` there, which takes the layer output as its argument, as at line 94.
- Update order: the hidden errors are computed from `weight_ho` AFTER it has been updated (line 86 comes before line 91). Textbook backpropagation propagates the output errors through the weights the forward pass used (the pre-update `weight_ho`); the code propagates them through the updated weights, and the model follows the code. `HiddenErrorsUseUpdatedWeights` gives the exact difference between the two.
- `feed_forward` and `predict` take `&self` and `train` takes `&mut self`. In the model all three are pure functions, so "the forward pass does not change the learner" holds by construction and is not a separate contract.
