/** The mathematics of the network as pure definitions: parameter shapes, the
    affine-plus-sigmoid layer step, inference, the forward sweep and backward recurrence of
    backpropagation, the gradients summed over a mini-batch, and the classification count.
    The imperative code in module NeuralNet is proved against these. */
module Layers {
  import opened Matrices
  import opened Util

  /** The trainable state of a network: layer sizes, one weight matrix and one bias column
      per non-input layer. */
  datatype Parameters = Parameters(layerSizes: seq<int>, weights: seq<Matrix>, biases: seq<Matrix>)

  /** An input column and its expected (one-hot) output column. */
  datatype DataSample = DataSample(inputActivation: Matrix, expectedOutputActivation: Matrix)

  /** Every matrix of the list is rectangular. */
  predicate AllDense(ms: seq<Matrix>) {
    forall k :: 0 <= k < |ms| ==> IsDense(ms[k])
  }

  /** b[k] has the shape of a[k] at every layer: the library's operand check for adding,
      subtracting or multiplying elementwise the lists layer by layer. */
  predicate SameShapes(a: seq<Matrix>, b: seq<Matrix>) {
    |a| == |b| && forall k :: 0 <= k < |a| ==> HasShape(b[k], |a[k]|, Cols(a[k]))
  }

  /** One matrix per non-input layer, the k-th of layerSizes[k+1] rows and layerSizes[k]
      columns: the shape of the weights. */
  predicate WeightShaped(layerSizes: seq<int>, ms: seq<Matrix>) {
    && |ms| == |layerSizes| - 1
    && forall k {:trigger ms[k]} :: 0 <= k < |ms| ==> Dims(ms[k], layerSizes[k + 1], layerSizes[k])
  }

  /** One column per non-input layer, the k-th of layerSizes[k+1] rows: the shape of the
      biases. */
  predicate BiasShaped(layerSizes: seq<int>, ms: seq<Matrix>) {
    && |ms| == |layerSizes| - 1
    && forall k :: 0 <= k < |ms| ==> Dims(ms[k], layerSizes[k + 1], 1)
  }

  /** At least two layers of positive size, with weights and biases of the layers' shapes. */
  predicate WellShaped(p: Parameters) {
    && |p.layerSizes| >= 2
    && (forall i :: 0 <= i < |p.layerSizes| ==> p.layerSizes[i] > 0)
    && WeightShaped(p.layerSizes, p.weights)
    && BiasShaped(p.layerSizes, p.biases)
  }

  /** Every weight and bias matrix of a well-shaped network is rectangular. */
  lemma WellShapedDense(p: Parameters)
    requires WellShaped(p)
    ensures AllDense(p.weights) && AllDense(p.biases)
  {
    forall k | 0 <= k < |p.weights|
      ensures IsDense(p.weights[k]) && IsDense(p.biases[k])
    {
      assert Dims(p.weights[k], p.layerSizes[k + 1], p.layerSizes[k]);
      assert Dims(p.biases[k], p.layerSizes[k + 1], 1);
    }
  }

  /** A training sample whose columns match the input and output layers. */
  predicate Fits(layerSizes: seq<int>, s: DataSample) {
    && |layerSizes| > 0
    && Dims(s.inputActivation, layerSizes[0], 1)
    && OutputFits(layerSizes, s.expectedOutputActivation)
  }

  /** An expected output column as long as the output layer. */
  predicate OutputFits(layerSizes: seq<int>, y: Matrix) {
    |layerSizes| > 0 && Dims(y, layerSizes[|layerSizes| - 1], 1)
  }

  /** A test sample: an input column of any length and an expected output matrix whose
      first column is read. */
  predicate Evaluable(s: DataSample) {
    IsColumn(s.inputActivation) && IsDense(s.expectedOutputActivation)
  }

  /** Every input has as many rows as the input layer has neurons. */
  predicate InputsFit(layerSizes: seq<int>, data: seq<DataSample>)
    requires |layerSizes| > 0
  {
    forall i :: 0 <= i < |data| ==> |data[i].inputActivation| == layerSizes[0]
  }

  /** The elementwise logistic map; `sigma` stands for x => 1/(1+e^-x). */
  function Sigmoid(sigma: real -> real, z: Matrix): (a: Matrix)
    ensures HasShape(a, |z|, Cols(z)) && (IsDense(z) ==> IsDense(a))
    ensures forall i, j :: 0 <= i < |z| && 0 <= j < Cols(z) ==> At(a, i, j) == sigma(At(z, i, j))
  {
    Apply(sigma, z)
  }

  /** The elementwise derivative of the logistic map, written as sigma(x) * (1 - sigma(x)). */
  function SigmoidPrime(sigma: real -> real, z: Matrix): (d: Matrix)
    ensures HasShape(d, |z|, Cols(z)) && (IsDense(z) ==> IsDense(d))
  {
    Apply(x => sigma(x) * (1.0 - sigma(x)), z)
  }

  /** The derivative is the activation times one minus the activation, entry by entry. */
  lemma SigmoidPrimeFromSigmoid(sigma: real -> real, z: Matrix)
    ensures SigmoidPrime(sigma, z) == MulElem(Sigmoid(sigma, z), Apply(x => 1.0 - x, Sigmoid(sigma, z)))
  {
    var a := Sigmoid(sigma, z);
    var d := SigmoidPrime(sigma, z);
    var e := MulElem(a, Apply(x => 1.0 - x, a));
    forall i | 0 <= i < |z|
      ensures d[i] == e[i]
    {
      assert |d[i]| == |e[i]| == Cols(z);
      forall j | 0 <= j < Cols(z)
        ensures d[i][j] == e[i][j]
      {
      }
    }
  }

  /** z = W a + b for one layer: W's columns must match a's rows and b must have the
      shape of W a. */
  function Affine(w: Matrix, b: Matrix, a: Matrix): (z: Matrix)
    requires |w| > 0 && Cols(w) == |a| && HasShape(b, |w|, Cols(a))
    ensures HasShape(z, |w|, Cols(a))
    ensures Cols(a) > 0 ==> Dims(z, |w|, Cols(a))
  {
    Add(Mul(w, a), b)
  }

  /** The activation of layer i for input x: x itself for i = 0, then one affine step
      followed by the sigmoid per layer. Inference returns Activation(.., |weights|). */
  function Activation(sigma: real -> real, p: Parameters, x: Matrix, i: nat): (a: Matrix)
    requires WellShaped(p) && Dims(x, p.layerSizes[0], 1) && i <= |p.weights|
    ensures Dims(a, p.layerSizes[i], 1)
    decreases i
  {
    if i == 0 then x
    else Sigmoid(sigma, Affine(p.weights[i - 1], p.biases[i - 1], Activation(sigma, p, x, i - 1)))
  }

  /** What backpropagation's forward sweep retains: every activation a_0 .. a_i and every
      pre-activation z_1 .. z_i (stored at indices 0 .. i-1). */
  datatype Sweep = Sweep(activations: seq<Matrix>, zValues: seq<Matrix>)

  /** The sweep over the first i layers, built by appending as backprop does. */
  function ForwardSweep(sigma: real -> real, p: Parameters, x: Matrix, i: nat): (s: Sweep)
    requires WellShaped(p) && Dims(x, p.layerSizes[0], 1) && i <= |p.weights|
    ensures |s.activations| == i + 1 && |s.zValues| == i
    ensures forall k {:trigger s.activations[k]} :: 0 <= k <= i ==> Dims(s.activations[k], p.layerSizes[k], 1)
    ensures forall k :: 0 <= k < i ==> Dims(s.zValues[k], p.layerSizes[k + 1], 1)
    decreases i
  {
    if i == 0 then Sweep([x], [])
    else
      var prev := ForwardSweep(sigma, p, x, i - 1);
      var z := Affine(p.weights[i - 1], p.biases[i - 1], prev.activations[i - 1]);
      Sweep(prev.activations + [Sigmoid(sigma, z)], prev.zValues + [z])
  }

  /** The forward sweep and inference compute the same activations: every sweep over at
      most i layers keeps, at every layer k, the activation inference computes there, so
      the sweep's last activation is the network's output. */
  lemma {:induction false} SweepAgreesWithFeedForward(sigma: real -> real, p: Parameters, x: Matrix, i: nat)
    requires WellShaped(p) && Dims(x, p.layerSizes[0], 1) && i <= |p.weights|
    ensures forall j, k :: 0 <= k <= j <= i ==>
      ForwardSweep(sigma, p, x, j).activations[k] == Activation(sigma, p, x, k)
  {
    if i > 0 {
      SweepAgreesWithFeedForward(sigma, p, x, i - 1);
      var prev := ForwardSweep(sigma, p, x, i - 1).activations;
      var cur := ForwardSweep(sigma, p, x, i).activations;
      assert cur == prev + [Activation(sigma, p, x, i)];
      forall k | 0 <= k <= i
        ensures cur[k] == Activation(sigma, p, x, k)
      {
        if k < i {
          assert cur[k] == prev[k];
        }
      }
    }
  }

  /** A complete sweep of the network's shape. */
  predicate SweepShaped(p: Parameters, s: Sweep)
    requires WellShaped(p)
  {
    && |s.activations| == |p.layerSizes|
    && |s.zValues| == |p.weights|
    && (forall k {:trigger s.activations[k]} :: 0 <= k < |s.activations| ==> Dims(s.activations[k], p.layerSizes[k], 1))
    && (forall k :: 0 <= k < |s.zValues| ==> Dims(s.zValues[k], p.layerSizes[k + 1], 1))
  }

  /** The error term of weight layer k: at the output layer (a_L - y) times sigma'(z), and
      below it the transposed next weights times the next error term, times sigma'(z). */
  function Delta(sigma: real -> real, p: Parameters, s: Sweep, y: Matrix, k: nat): (d: Matrix)
    requires WellShaped(p) && SweepShaped(p, s) && OutputFits(p.layerSizes, y) && k < |p.weights|
    ensures Dims(d, p.layerSizes[k + 1], 1)
    decreases |p.weights| - k
  {
    var n := |p.weights|;
    if k == n - 1 then
      MulElem(Sub(s.activations[n], y), SigmoidPrime(sigma, s.zValues[n - 1]))
    else
      MulElem(Mul(T(p.weights[k + 1]), Delta(sigma, p, s, y, k + 1)), SigmoidPrime(sigma, s.zValues[k]))
  }

  /** The full sweep of a sample's input. */
  function SampleSweep(sigma: real -> real, p: Parameters, sample: DataSample): (s: Sweep)
    requires WellShaped(p) && Fits(p.layerSizes, sample)
    ensures SweepShaped(p, s)
  {
    ForwardSweep(sigma, p, sample.inputActivation, |p.weights|)
  }

  /** The gradient of the cost for weights[k] on one sample: delta_k times a_k transposed,
      of the shape of weights[k]. */
  function WeightGradient(sigma: real -> real, p: Parameters, sample: DataSample, k: nat): (g: Matrix)
    requires WellShaped(p) && Fits(p.layerSizes, sample) && k < |p.weights|
    ensures Dims(g, p.layerSizes[k + 1], p.layerSizes[k])
  {
    var s := SampleSweep(sigma, p, sample);
    Mul(Delta(sigma, p, s, sample.expectedOutputActivation, k), T(s.activations[k]))
  }

  /** The gradient of the cost for biases[k] on one sample: delta_k, of the shape of
      biases[k]. */
  function BiasGradient(sigma: real -> real, p: Parameters, sample: DataSample, k: nat): (g: Matrix)
    requires WellShaped(p) && Fits(p.layerSizes, sample) && k < |p.weights|
    ensures Dims(g, p.layerSizes[k + 1], 1)
  {
    Delta(sigma, p, SampleSweep(sigma, p, sample), sample.expectedOutputActivation, k)
  }

  /** One zero matrix shaped like each of `ms`. */
  function ZerosLike(ms: seq<Matrix>): (z: seq<Matrix>)
    requires AllDense(ms)
    ensures |z| == |ms|
    ensures forall k :: 0 <= k < |ms| ==> z[k] == Zero(Rows(ms[k]), Cols(ms[k]))
  {
    seq(|ms|, k requires 0 <= k < |ms| => EmptyDense(ms[k]))
  }

  /** The sums a[k] + b[k], layer by layer. */
  function AddEach(a: seq<Matrix>, b: seq<Matrix>): (s: seq<Matrix>)
    requires SameShapes(a, b)
    ensures |s| == |a|
    ensures forall k :: 0 <= k < |a| ==> s[k] == Add(a[k], b[k])
  {
    seq(|a|, k requires 0 <= k < |a| => Add(a[k], b[k]))
  }

  /** The weight gradients delta_k a_k^T of layers m .. n-1, in order. */
  function WeightGradsFrom(sigma: real -> real, p: Parameters, s: Sweep, y: Matrix, m: nat): (g: seq<Matrix>)
    requires WellShaped(p) && SweepShaped(p, s) && OutputFits(p.layerSizes, y) && m <= |p.weights|
    ensures |g| == |p.weights| - m
    decreases |p.weights| - m
  {
    if m == |p.weights| then []
    else [Mul(Delta(sigma, p, s, y, m), T(s.activations[m]))] + WeightGradsFrom(sigma, p, s, y, m + 1)
  }

  /** The bias gradients delta_k of layers m .. n-1, in order. */
  function BiasGradsFrom(sigma: real -> real, p: Parameters, s: Sweep, y: Matrix, m: nat): (g: seq<Matrix>)
    requires WellShaped(p) && SweepShaped(p, s) && OutputFits(p.layerSizes, y) && m <= |p.weights|
    ensures |g| == |p.weights| - m
    decreases |p.weights| - m
  {
    if m == |p.weights| then []
    else [Delta(sigma, p, s, y, m)] + BiasGradsFrom(sigma, p, s, y, m + 1)
  }

  /** Entry k - m of the weight gradients from layer m is layer k's weight gradient. */
  lemma {:induction false} WeightGradsAt(sigma: real -> real, p: Parameters, s: Sweep, y: Matrix, m: nat, k: nat)
    requires WellShaped(p) && SweepShaped(p, s) && OutputFits(p.layerSizes, y) && m <= k < |p.weights|
    ensures WeightGradsFrom(sigma, p, s, y, m)[k - m] == Mul(Delta(sigma, p, s, y, k), T(s.activations[k]))
    decreases k - m
  {
    if m < k {
      WeightGradsAt(sigma, p, s, y, m + 1, k);
      var tail := WeightGradsFrom(sigma, p, s, y, m + 1);
      assert WeightGradsFrom(sigma, p, s, y, m)[k - m] == tail[k - (m + 1)] by {
        var head := Mul(Delta(sigma, p, s, y, m), T(s.activations[m]));
        assert WeightGradsFrom(sigma, p, s, y, m) == [head] + tail;
      }
    }
  }

  /** Entry k - m of the bias gradients from layer m is layer k's error term. */
  lemma {:induction false} BiasGradsAt(sigma: real -> real, p: Parameters, s: Sweep, y: Matrix, m: nat, k: nat)
    requires WellShaped(p) && SweepShaped(p, s) && OutputFits(p.layerSizes, y) && m <= k < |p.weights|
    ensures BiasGradsFrom(sigma, p, s, y, m)[k - m] == Delta(sigma, p, s, y, k)
    decreases k - m
  {
    if m < k {
      BiasGradsAt(sigma, p, s, y, m + 1, k);
      var tail := BiasGradsFrom(sigma, p, s, y, m + 1);
      assert BiasGradsFrom(sigma, p, s, y, m)[k - m] == tail[k - (m + 1)] by {
        assert BiasGradsFrom(sigma, p, s, y, m) == [Delta(sigma, p, s, y, m)] + tail;
      }
    }
  }

  /** Entry j of the gradients from layer m belongs to layer m + j: the weight gradient
      has the shape of that layer's weights and the bias gradient of its biases. */
  lemma GradsShaped(sigma: real -> real, p: Parameters, s: Sweep, y: Matrix, m: nat)
    requires WellShaped(p) && SweepShaped(p, s) && OutputFits(p.layerSizes, y) && m <= |p.weights|
    ensures forall j :: 0 <= j < |p.weights| - m ==>
      Dims(WeightGradsFrom(sigma, p, s, y, m)[j], p.layerSizes[m + j + 1], p.layerSizes[m + j])
    ensures forall j :: 0 <= j < |p.weights| - m ==>
      Dims(BiasGradsFrom(sigma, p, s, y, m)[j], p.layerSizes[m + j + 1], 1)
  {
    forall j | 0 <= j < |p.weights| - m
      ensures Dims(WeightGradsFrom(sigma, p, s, y, m)[j], p.layerSizes[m + j + 1], p.layerSizes[m + j])
      ensures Dims(BiasGradsFrom(sigma, p, s, y, m)[j], p.layerSizes[m + j + 1], 1)
    {
      var k := m + j;
      WeightGradsAt(sigma, p, s, y, m, k);
      BiasGradsAt(sigma, p, s, y, m, k);
      assert Dims(s.activations[k], p.layerSizes[k], 1);
      assert Dims(Delta(sigma, p, s, y, k), p.layerSizes[k + 1], 1);
    }
  }

  /** The lowest slot the backward loop of backprop writes: 1 with two or more weight
      layers, 0 with one. */
  function FirstWritten(p: Parameters): (m: nat)
    ensures m <= 1
  {
    if |p.weights| == 1 then 0 else 1
  }

  /** The weight slots backprop returns for one sample: zero matrices below the first
      written slot, the gradients from it up; one slot per weight layer, of that layer's
      shape. */
  function BackpropWeights(sigma: real -> real, p: Parameters, sample: DataSample): (g: seq<Matrix>)
    requires WellShaped(p) && Fits(p.layerSizes, sample)
    ensures WeightShaped(p.layerSizes, g)
  {
    var m := FirstWritten(p);
    WellShapedDense(p);
    GradsShaped(sigma, p, SampleSweep(sigma, p, sample), sample.expectedOutputActivation, m);
    ZerosLike(p.weights)[..m]
      + WeightGradsFrom(sigma, p, SampleSweep(sigma, p, sample), sample.expectedOutputActivation, m)
  }

  /** The bias slots backprop returns for one sample; one column per layer, of that
      layer's bias shape. */
  function BackpropBiases(sigma: real -> real, p: Parameters, sample: DataSample): (g: seq<Matrix>)
    requires WellShaped(p) && Fits(p.layerSizes, sample)
    ensures BiasShaped(p.layerSizes, g)
  {
    var m := FirstWritten(p);
    WellShapedDense(p);
    GradsShaped(sigma, p, SampleSweep(sigma, p, sample), sample.expectedOutputActivation, m);
    ZerosLike(p.biases)[..m]
      + BiasGradsFrom(sigma, p, SampleSweep(sigma, p, sample), sample.expectedOutputActivation, m)
  }

  /** Every weight slot the backward loop of backprop writes holds its layer's gradient. */
  lemma BackpropWeightSlots(sigma: real -> real, p: Parameters, sample: DataSample)
    requires WellShaped(p) && Fits(p.layerSizes, sample)
    ensures forall k :: FirstWritten(p) <= k < |p.weights| ==>
      BackpropWeights(sigma, p, sample)[k] == WeightGradient(sigma, p, sample, k)
  {
    var s, y, m := SampleSweep(sigma, p, sample), sample.expectedOutputActivation, FirstWritten(p);
    forall k | m <= k < |p.weights|
      ensures BackpropWeights(sigma, p, sample)[k] == WeightGradient(sigma, p, sample, k)
    {
      assert BackpropWeights(sigma, p, sample)[k] == WeightGradsFrom(sigma, p, s, y, m)[k - m] by {
        WellShapedDense(p);
        assert BackpropWeights(sigma, p, sample) == ZerosLike(p.weights)[..m] + WeightGradsFrom(sigma, p, s, y, m);
      }
      WeightGradsAt(sigma, p, s, y, m, k);
    }
  }

  /** Every bias slot the backward loop of backprop writes holds its layer's error term. */
  lemma BackpropBiasSlots(sigma: real -> real, p: Parameters, sample: DataSample)
    requires WellShaped(p) && Fits(p.layerSizes, sample)
    ensures forall k :: FirstWritten(p) <= k < |p.weights| ==>
      BackpropBiases(sigma, p, sample)[k] == BiasGradient(sigma, p, sample, k)
  {
    var s, y, m := SampleSweep(sigma, p, sample), sample.expectedOutputActivation, FirstWritten(p);
    forall k | m <= k < |p.weights|
      ensures BackpropBiases(sigma, p, sample)[k] == BiasGradient(sigma, p, sample, k)
    {
      assert BackpropBiases(sigma, p, sample)[k] == BiasGradsFrom(sigma, p, s, y, m)[k - m] by {
        WellShapedDense(p);
        assert BackpropBiases(sigma, p, sample) == ZerosLike(p.biases)[..m] + BiasGradsFrom(sigma, p, s, y, m);
      }
      BiasGradsAt(sigma, p, s, y, m, k);
    }
  }

  /** With three or more layers the backward loop stops above slot 0, which backprop
      returns as the zero matrices it was initialised with. */
  lemma BackpropFirstSlotZero(sigma: real -> real, p: Parameters, sample: DataSample)
    requires WellShaped(p) && Fits(p.layerSizes, sample) && |p.layerSizes| >= 3
    ensures BackpropWeights(sigma, p, sample)[0] == Zero(p.layerSizes[1], p.layerSizes[0])
    ensures BackpropBiases(sigma, p, sample)[0] == Zero(p.layerSizes[1], 1)
  {
    assert Dims(p.weights[0], p.layerSizes[1], p.layerSizes[0]);
    assert Dims(p.biases[0], p.layerSizes[1], 1);
    WellShapedDense(p);
    assert BackpropWeights(sigma, p, sample)[0] == ZerosLike(p.weights)[0];
    assert BackpropBiases(sigma, p, sample)[0] == ZerosLike(p.biases)[0];
  }

  /** The samples start .. end-1 all fit the network. */
  predicate BatchFits(layerSizes: seq<int>, data: seq<DataSample>, start: int, end: int) {
    forall i :: start <= i < end && 0 <= i < |data| ==> Fits(layerSizes, data[i])
  }

  /** Every sample of the list fits the network. */
  predicate AllFit(layerSizes: seq<int>, data: seq<DataSample>) {
    forall i :: 0 <= i < |data| ==> Fits(layerSizes, data[i])
  }

  /** Every batch of samples that all fit the network fits it. */
  lemma AllFitBatchFits(layerSizes: seq<int>, data: seq<DataSample>, start: int, end: int)
    requires AllFit(layerSizes, data)
    ensures BatchFits(layerSizes, data, start, end)
  {
  }

  /** Backprop's weight slots for samples start .. end-1 added, in order, onto zero
      matrices shaped like the weights. */
  function WeightSums(sigma: real -> real, p: Parameters, data: seq<DataSample>, start: nat, end: nat): (ws: seq<Matrix>)
    requires WellShaped(p) && start <= end <= |data| && BatchFits(p.layerSizes, data, start, end)
    ensures WeightShaped(p.layerSizes, ws)
    decreases end - start
  {
    WellShapedDense(p);
    if end == start then ZerosLike(p.weights)
    else AddEach(WeightSums(sigma, p, data, start, end - 1), BackpropWeights(sigma, p, data[end - 1]))
  }

  /** Backprop's bias slots for samples start .. end-1 added, in order, onto zero columns. */
  function BiasSums(sigma: real -> real, p: Parameters, data: seq<DataSample>, start: nat, end: nat): (bs: seq<Matrix>)
    requires WellShaped(p) && start <= end <= |data| && BatchFits(p.layerSizes, data, start, end)
    ensures BiasShaped(p.layerSizes, bs)
    decreases end - start
  {
    WellShapedDense(p);
    if end == start then ZerosLike(p.biases)
    else AddEach(BiasSums(sigma, p, data, start, end - 1), BackpropBiases(sigma, p, data[end - 1]))
  }

  /** Extending a batch by sample i adds that sample's backprop slots onto the sums. */
  lemma SumsStep(sigma: real -> real, p: Parameters, data: seq<DataSample>, start: nat, i: nat)
    requires WellShaped(p) && start <= i < |data|
    requires BatchFits(p.layerSizes, data, start, i + 1)
    ensures WeightSums(sigma, p, data, start, i + 1)
         == AddEach(WeightSums(sigma, p, data, start, i), BackpropWeights(sigma, p, data[i]))
    ensures BiasSums(sigma, p, data, start, i + 1)
         == AddEach(BiasSums(sigma, p, data, start, i), BackpropBiases(sigma, p, data[i]))
  {
  }

  /** One gradient-descent step: the parameter minus the summed gradient scaled by
      learningRate / batch size; the sum must have the parameter's shape, which the step
      keeps. */
  function Descend(param: Matrix, sum: Matrix, learningRate: real, count: nat): (r: Matrix)
    requires HasShape(sum, |param|, Cols(param)) && count > 0
    ensures IsDense(param) ==> Dims(r, |param|, Cols(param))
  {
    Sub(param, Scale(learningRate / count as real, sum))
  }

  /** One gradient-descent step on every layer. */
  function DescendEach(params: seq<Matrix>, sums: seq<Matrix>, learningRate: real, count: nat): (r: seq<Matrix>)
    requires SameShapes(params, sums) && count > 0
    ensures |r| == |params|
    ensures forall k :: 0 <= k < |params| ==> r[k] == Descend(params[k], sums[k], learningRate, count)
  {
    seq(|params|, k requires 0 <= k < |params| => Descend(params[k], sums[k], learningRate, count))
  }

  /** A descent step keeps every layer's shape. */
  lemma DescendKeepsShape(params: seq<Matrix>, sums: seq<Matrix>, learningRate: real, count: nat)
    requires SameShapes(params, sums) && count > 0 && AllDense(params)
    ensures forall k :: 0 <= k < |params| ==>
      Dims(DescendEach(params, sums, learningRate, count)[k], |params[k]|, Cols(params[k]))
  {
  }

  /** The parameters after one mini-batch over samples start .. end-1: every weight and
      bias minus learningRate / (end - start) times its summed backprop slots, all slots
      computed with the parameters from before the batch. */
  function BatchStep(sigma: real -> real, p: Parameters, data: seq<DataSample>, start: nat, end: nat,
                     learningRate: real): (q: Parameters)
    requires WellShaped(p) && start < end <= |data| && BatchFits(p.layerSizes, data, start, end)
    ensures WellShaped(q) && q.layerSizes == p.layerSizes
  {
    var ws := DescendEach(p.weights, WeightSums(sigma, p, data, start, end), learningRate, end - start);
    var bs := DescendEach(p.biases, BiasSums(sigma, p, data, start, end), learningRate, end - start);
    WellShapedDense(p);
    DescendKeepsShape(p.weights, WeightSums(sigma, p, data, start, end), learningRate, end - start);
    DescendKeepsShape(p.biases, BiasSums(sigma, p, data, start, end), learningRate, end - start);
    Parameters(p.layerSizes, ws, bs)
  }

  /** The sums over a batch of one sample are that sample's backprop slots added onto
      zero matrices. */
  lemma OneSampleSums(sigma: real -> real, p: Parameters, data: seq<DataSample>, start: nat)
    requires WellShaped(p) && start < |data| && Fits(p.layerSizes, data[start])
    ensures AllDense(p.weights) && AllDense(p.biases)
    ensures BatchFits(p.layerSizes, data, start, start + 1)
    ensures WeightSums(sigma, p, data, start, start + 1)
         == AddEach(ZerosLike(p.weights), BackpropWeights(sigma, p, data[start]))
    ensures BiasSums(sigma, p, data, start, start + 1)
         == AddEach(ZerosLike(p.biases), BackpropBiases(sigma, p, data[start]))
  {
    WellShapedDense(p);
    assert start + 1 - 1 == start;
  }

  /** With a batch of one sample the weight step is plain gradient descent on that
      sample's backprop slot, with no averaging. */
  lemma SingleSampleWeightStep(sigma: real -> real, p: Parameters, data: seq<DataSample>, start: nat, k: nat,
                               learningRate: real)
    requires WellShaped(p) && start < |data| && k < |p.weights| && Fits(p.layerSizes, data[start])
    ensures BatchFits(p.layerSizes, data, start, start + 1)
    ensures BatchStep(sigma, p, data, start, start + 1, learningRate).weights[k]
         == Sub(p.weights[k], Scale(learningRate, BackpropWeights(sigma, p, data[start])[k]))
  {
    assert Dims(p.weights[k], p.layerSizes[k + 1], p.layerSizes[k]);
    assert Dims(BackpropWeights(sigma, p, data[start])[k], p.layerSizes[k + 1], p.layerSizes[k]) by {
      if k < FirstWritten(p) {
        BackpropFirstSlotZero(sigma, p, data[start]);
      } else {
        BackpropWeightSlots(sigma, p, data[start]);
      }
    }
    assert learningRate / 1 as real == learningRate;
    OneSampleSums(sigma, p, data, start);
    assert WeightSums(sigma, p, data, start, start + 1)[k]
        == Add(Zero(p.layerSizes[k + 1], p.layerSizes[k]), BackpropWeights(sigma, p, data[start])[k]);
    AddZeroLeft(BackpropWeights(sigma, p, data[start])[k], p.layerSizes[k + 1], p.layerSizes[k]);
  }

  /** With a batch of one sample the bias step is plain gradient descent on that sample's
      backprop slot, with no averaging. */
  lemma SingleSampleBiasStep(sigma: real -> real, p: Parameters, data: seq<DataSample>, start: nat, k: nat,
                             learningRate: real)
    requires WellShaped(p) && start < |data| && k < |p.weights| && Fits(p.layerSizes, data[start])
    ensures BatchFits(p.layerSizes, data, start, start + 1)
    ensures BatchStep(sigma, p, data, start, start + 1, learningRate).biases[k]
         == Sub(p.biases[k], Scale(learningRate, BackpropBiases(sigma, p, data[start])[k]))
  {
    assert Dims(p.biases[k], p.layerSizes[k + 1], 1);
    assert Dims(BackpropBiases(sigma, p, data[start])[k], p.layerSizes[k + 1], 1) by {
      if k < FirstWritten(p) {
        BackpropFirstSlotZero(sigma, p, data[start]);
      } else {
        BackpropBiasSlots(sigma, p, data[start]);
      }
    }
    assert learningRate / 1 as real == learningRate;
    OneSampleSums(sigma, p, data, start);
    assert BiasSums(sigma, p, data, start, start + 1)[k]
        == Add(Zero(p.layerSizes[k + 1], 1), BackpropBiases(sigma, p, data[start])[k]);
    AddZeroLeft(BackpropBiases(sigma, p, data[start])[k], p.layerSizes[k + 1], 1);
  }

  /** Adding slots whose first entry is a zero matrix onto sums whose first entry is a
      zero matrix leaves a zero matrix first. */
  lemma ZeroFirstSlot(prev: seq<Matrix>, slots: seq<Matrix>, r: int, c: int)
    requires r > 0 && c > 0 && 0 < |prev| && SameShapes(prev, slots)
    requires prev[0] == Zero(r, c) && slots[0] == Zero(r, c)
    ensures AddEach(prev, slots)[0] == Zero(r, c)
  {
    AddZeroLeft(Zero(r, c), r, c);
  }

  /** With three or more layers every sample's weight slot 0 is zero, so the sum over
      every prefix of the batch has a zero slot 0. */
  lemma {:induction false} FirstWeightSumZero(sigma: real -> real, p: Parameters, data: seq<DataSample>,
                                              start: nat, end: nat)
    requires WellShaped(p) && |p.layerSizes| >= 3 && start <= end <= |data|
    requires BatchFits(p.layerSizes, data, start, end)
    ensures forall e :: start <= e <= end ==>
      WeightSums(sigma, p, data, start, e)[0] == Zero(p.layerSizes[1], p.layerSizes[0])
    decreases end - start
  {
    assert Dims(p.weights[0], p.layerSizes[1], p.layerSizes[0]);
    WellShapedDense(p);
    if end > start {
      FirstWeightSumZero(sigma, p, data, start, end - 1);
      BackpropFirstSlotZero(sigma, p, data[end - 1]);
      ZeroFirstSlot(WeightSums(sigma, p, data, start, end - 1),
                    BackpropWeights(sigma, p, data[end - 1]), p.layerSizes[1], p.layerSizes[0]);
    } else {
      assert WeightSums(sigma, p, data, start, end) == ZerosLike(p.weights);
    }
  }

  /** With three or more layers every sample's bias slot 0 is zero, so the sum over every
      prefix of the batch has a zero slot 0. */
  lemma {:induction false} FirstBiasSumZero(sigma: real -> real, p: Parameters, data: seq<DataSample>,
                                            start: nat, end: nat)
    requires WellShaped(p) && |p.layerSizes| >= 3 && start <= end <= |data|
    requires BatchFits(p.layerSizes, data, start, end)
    ensures forall e :: start <= e <= end ==> BiasSums(sigma, p, data, start, e)[0] == Zero(p.layerSizes[1], 1)
    decreases end - start
  {
    assert Dims(p.biases[0], p.layerSizes[1], 1);
    WellShapedDense(p);
    if end > start {
      FirstBiasSumZero(sigma, p, data, start, end - 1);
      BackpropFirstSlotZero(sigma, p, data[end - 1]);
      ZeroFirstSlot(BiasSums(sigma, p, data, start, end - 1),
                    BackpropBiases(sigma, p, data[end - 1]), p.layerSizes[1], 1);
    } else {
      assert BiasSums(sigma, p, data, start, end) == ZerosLike(p.biases);
    }
  }

  /** With three or more layers a mini-batch step leaves the first weight layer and its
      biases exactly as they were: the first layer never learns. */
  lemma FirstLayerFrozen(sigma: real -> real, p: Parameters, data: seq<DataSample>, start: nat, end: nat, learningRate: real)
    requires WellShaped(p) && start < end <= |data|
    requires BatchFits(p.layerSizes, data, start, end)
    ensures |p.layerSizes| >= 3 ==> BatchStep(sigma, p, data, start, end, learningRate).weights[0] == p.weights[0]
    ensures |p.layerSizes| >= 3 ==> BatchStep(sigma, p, data, start, end, learningRate).biases[0] == p.biases[0]
  {
    if |p.layerSizes| >= 3 {
      var f := learningRate / (end - start) as real;
      FirstWeightSumZero(sigma, p, data, start, end);
      FirstBiasSumZero(sigma, p, data, start, end);
      ScaleZero(f, p.layerSizes[1], p.layerSizes[0]);
      ScaleZero(f, p.layerSizes[1], 1);
      SubZero(p.weights[0], p.layerSizes[1], p.layerSizes[0]);
      SubZero(p.biases[0], p.layerSizes[1], 1);
    }
  }

  /** The class the network predicts: the first index of the largest output. */
  function Predicted(sigma: real -> real, p: Parameters, x: Matrix): (c: int)
    requires WellShaped(p) && Dims(x, p.layerSizes[0], 1)
    ensures 0 <= c < p.layerSizes[|p.layerSizes| - 1]
  {
    ArgMax(Column(Activation(sigma, p, x, |p.weights|), 0))
  }

  /** Every sample of the list can be fed to an evaluation. */
  predicate AllEvaluable(data: seq<DataSample>) {
    forall i :: 0 <= i < |data| ==> Evaluable(data[i])
  }

  /** Test samples that can be evaluated against the network. */
  predicate Testable(layerSizes: seq<int>, data: seq<DataSample>)
    requires |layerSizes| > 0
  {
    AllEvaluable(data) && InputsFit(layerSizes, data)
  }

  /** A prefix of evaluable samples whose inputs fit stays so when it is extended by a
      sample whose input fits. */
  lemma TestableExtend(layerSizes: seq<int>, data: seq<DataSample>, i: nat)
    requires |layerSizes| > 0 && i < |data| && AllEvaluable(data)
    requires InputsFit(layerSizes, data[..i]) && |data[i].inputActivation| == layerSizes[0]
    ensures Testable(layerSizes, data[..i + 1])
  {
    assert forall k :: 0 <= k < i + 1 ==> data[..i + 1][k] == data[k];
  }

  /** The number of samples whose predicted class is the index of the largest expected output. */
  function CorrectCount(sigma: real -> real, p: Parameters, data: seq<DataSample>): (c: nat)
    requires WellShaped(p) && Testable(p.layerSizes, data)
    ensures c <= |data|
    ensures c == 0 <== |data| == 0
    decreases |data|
  {
    if |data| == 0 then 0
    else
      var last := data[|data| - 1];
      var hit := Predicted(sigma, p, last.inputActivation) == ArgMax(Column(last.expectedOutputActivation, 0));
      CorrectCount(sigma, p, data[..|data| - 1]) + (if hit then 1 else 0)
  }

  /** Extending the test list by one sample adds one to the count exactly when that
      sample is classified correctly. */
  lemma CorrectCountStep(sigma: real -> real, p: Parameters, data: seq<DataSample>, i: nat)
    requires WellShaped(p) && i < |data| && Testable(p.layerSizes, data[..i + 1])
    ensures Testable(p.layerSizes, data[..i])
    ensures CorrectCount(sigma, p, data[..i + 1]) == CorrectCount(sigma, p, data[..i])
      + (if Predicted(sigma, p, data[i].inputActivation) == ArgMax(Column(data[i].expectedOutputActivation, 0)) then 1 else 0)
  {
    assert data[..i + 1][..i] == data[..i];
    assert data[..i + 1][i] == data[i];
  }
}
