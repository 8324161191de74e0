/** The network package's imperative code: the Network object, whose weights and biases
    are updated in place by mini-batch gradient descent, with inference, backpropagation,
    the batch update, the training loop and test-set evaluation. Every method is proved
    against the definitions of modules Layers and Training. */
module NeuralNet {
  import opened Matrices
  import opened Util
  import opened Layers
  import opened Training

  /** The conditions on which the program stops: log.Fatalf in inference, or an index
      past the training data in a mini-batch. */
  datatype Fatal =
    | InputLengthMismatch(expected: int, actual: int)
    | SampleIndexOutOfRange(index: int, length: int)

  datatype Result<T> = Ok(value: T) | Err(error: Fatal)

  datatype Status = Completed | Halted(error: Fatal)

  /** An r x c matrix whose entry (i, j) is draw(m, i, j): the m-th matrix drawn from the
      caller's random source. */
  function RandomMatrix(draw: (nat, nat, nat) -> real, m: nat, r: int, c: int): (x: Matrix)
    requires r > 0 && c > 0
    ensures Dims(x, r, c)
    ensures forall i, j :: 0 <= i < r && 0 <= j < c ==> x[i][j] == draw(m, i, j)
  {
    seq(r, i requires 0 <= i => seq(c, j requires 0 <= j => draw(m, i, j)))
  }

  /** The weights a new network starts from: for every non-input layer i, the
      (2(i-1))-th draw, of layerSizes[i] rows and layerSizes[i-1] columns. */
  function InitialWeights(draw: (nat, nat, nat) -> real, layerSizes: seq<int>): (ws: seq<Matrix>)
    requires |layerSizes| >= 2
    requires forall i :: 0 <= i < |layerSizes| ==> layerSizes[i] > 0
    ensures WeightShaped(layerSizes, ws)
    ensures forall k {:trigger ws[k]} :: 0 <= k < |ws| ==> ws[k] == RandomMatrix(draw, 2 * k, layerSizes[k + 1], layerSizes[k])
  {
    seq(|layerSizes| - 1, k requires 0 <= k < |layerSizes| - 1 =>
      RandomMatrix(draw, 2 * k, layerSizes[k + 1], layerSizes[k]))
  }

  /** The biases a new network starts from: for every non-input layer i, the draw after
      its weights' draw, a column of layerSizes[i] rows. */
  function InitialBiases(draw: (nat, nat, nat) -> real, layerSizes: seq<int>): (bs: seq<Matrix>)
    requires |layerSizes| >= 2
    requires forall i :: 0 <= i < |layerSizes| ==> layerSizes[i] > 0
    ensures BiasShaped(layerSizes, bs)
    ensures forall k {:trigger bs[k]} :: 0 <= k < |bs| ==> bs[k] == RandomMatrix(draw, 2 * k + 1, layerSizes[k + 1], 1)
  {
    seq(|layerSizes| - 1, k requires 0 <= k < |layerSizes| - 1 => RandomMatrix(draw, 2 * k + 1, layerSizes[k + 1], 1))
  }

  /** The parameters a new network starts from: the initial weights and biases, drawn
      alternately layer by layer, weights first. */
  function InitialParameters(draw: (nat, nat, nat) -> real, layerSizes: seq<int>): (p: Parameters)
    requires |layerSizes| >= 2
    requires forall i :: 0 <= i < |layerSizes| ==> layerSizes[i] > 0
    ensures WellShaped(p) && p.layerSizes == layerSizes
    ensures forall k :: 0 <= k < |p.weights| ==>
      p.weights[k] == RandomMatrix(draw, 2 * k, layerSizes[k + 1], layerSizes[k])
    ensures forall k :: 0 <= k < |p.biases| ==>
      p.biases[k] == RandomMatrix(draw, 2 * k + 1, layerSizes[k + 1], 1)
  {
    Parameters(layerSizes, InitialWeights(draw, layerSizes), InitialBiases(draw, layerSizes))
  }

  /** Matrices drawn layer by layer as the initial parameters prescribe, one pair per
      non-input layer, are the initial parameters. */
  lemma DrawnAreInitial(draw: (nat, nat, nat) -> real, layerSizes: seq<int>, ws: seq<Matrix>, bs: seq<Matrix>)
    requires |layerSizes| >= 2
    requires forall i :: 0 <= i < |layerSizes| ==> layerSizes[i] > 0
    requires |ws| == |layerSizes| - 1 && |bs| == |layerSizes| - 1
    requires forall k :: 0 <= k < |ws| ==> ws[k] == RandomMatrix(draw, 2 * k, layerSizes[k + 1], layerSizes[k])
    requires forall k :: 0 <= k < |bs| ==> bs[k] == RandomMatrix(draw, 2 * k + 1, layerSizes[k + 1], 1)
    ensures Parameters(layerSizes, ws, bs) == InitialParameters(draw, layerSizes)
  {
    assert ws == InitialWeights(draw, layerSizes);
    assert bs == InitialBiases(draw, layerSizes);
  }

  /** Replacing entry i of d[..i] + rest[i..] by d[i] extends the prefix by one. */
  lemma AdvancePrefix<T>(d: seq<T>, rest: seq<T>, i: nat)
    requires |d| == |rest| && i < |d|
    ensures (d[..i] + rest[i..])[i := d[i]] == d[..i + 1] + rest[i + 1..]
  {
    var s := (d[..i] + rest[i..])[i := d[i]];
    forall k | 0 <= k < |d|
      ensures s[k] == (d[..i + 1] + rest[i + 1..])[k]
    {
    }
  }

  /** Writing x into slot m-1 of z[..m] + g moves that slot from the zero prefix to the
      front of the written part. */
  lemma WriteBelow<T>(z: seq<T>, g: seq<T>, m: nat, x: T)
    requires 0 < m <= |z|
    ensures (z[..m] + g)[m - 1 := x] == z[..m - 1] + ([x] + g)
  {
    var s := (z[..m] + g)[m - 1 := x];
    forall k | 0 <= k < |s|
      ensures s[k] == (z[..m - 1] + ([x] + g))[k]
    {
    }
  }

  /** One step of the backward recurrence: writing slot k's gradients into slots whose
      part from m = k + 1 on is already written extends the written part down to k. */
  lemma WriteSlot(sigma: real -> real, p: Parameters, s: Sweep, y: Matrix, k: nat, m: nat)
    requires WellShaped(p) && SweepShaped(p, s) && OutputFits(p.layerSizes, y) && m == k + 1 && m <= |p.weights|
    requires AllDense(p.weights) && AllDense(p.biases)
    ensures (ZerosLike(p.weights)[..m] + WeightGradsFrom(sigma, p, s, y, m))[k := Mul(Delta(sigma, p, s, y, k), T(s.activations[k]))]
         == ZerosLike(p.weights)[..k] + WeightGradsFrom(sigma, p, s, y, k)
    ensures (ZerosLike(p.biases)[..m] + BiasGradsFrom(sigma, p, s, y, m))[k := Delta(sigma, p, s, y, k)]
         == ZerosLike(p.biases)[..k] + BiasGradsFrom(sigma, p, s, y, k)
  {
    var d := Delta(sigma, p, s, y, k);
    WriteBelow(ZerosLike(p.weights), WeightGradsFrom(sigma, p, s, y, m), m, Mul(d, T(s.activations[k])));
    WriteBelow(ZerosLike(p.biases), BiasGradsFrom(sigma, p, s, y, m), m, d);
    assert WeightGradsFrom(sigma, p, s, y, k) == [Mul(d, T(s.activations[k]))] + WeightGradsFrom(sigma, p, s, y, m);
    assert BiasGradsFrom(sigma, p, s, y, k) == [d] + BiasGradsFrom(sigma, p, s, y, m);
  }

  /** Below the output layer, the error term of layer k is the next layer's transposed
      weights times the next error term (layer m = k + 1), times sigma'(z_k). */
  lemma DeltaStep(sigma: real -> real, p: Parameters, s: Sweep, y: Matrix, k: nat, m: nat)
    requires WellShaped(p) && SweepShaped(p, s) && OutputFits(p.layerSizes, y) && m == k + 1 && m < |p.weights|
    ensures Delta(sigma, p, s, y, k)
         == MulElem(Mul(T(p.weights[m]), Delta(sigma, p, s, y, m)), SigmoidPrime(sigma, s.zValues[k]))
  {
  }

  /** The state of the backward pass once slot m and the slots above it are written:
      delta is the error term of weight layer m, and the weight and bias slots hold zeros
      below m and the per-layer gradients from m on. */
  predicate Written(sigma: real -> real, p: Parameters, s: Sweep, y: Matrix, m: nat,
                    delta: Matrix, weightDeltas: seq<Matrix>, biasDeltas: seq<Matrix>)
    requires WellShaped(p) && SweepShaped(p, s) && OutputFits(p.layerSizes, y) && m < |p.weights|
  {
    && delta == Delta(sigma, p, s, y, m)
    && weightDeltas == ZerosLike(p.weights)[..m] + WeightGradsFrom(sigma, p, s, y, m)
    && biasDeltas == ZerosLike(p.biases)[..m] + BiasGradsFrom(sigma, p, s, y, m)
  }

  /** One step of the backward recurrence: from the state with slots m .. n-1 written and
      the error term of layer m = k + 1, the transposed weights of layer m times that term,
      times sigma'(z_k), is layer k's error term, and writing it and its weight gradient
      into slot k gives the state with slots k .. n-1 written. */
  lemma RecurrenceStep(sigma: real -> real, p: Parameters, s: Sweep, y: Matrix, k: nat, m: nat,
                       delta: Matrix, weightDeltas: seq<Matrix>, biasDeltas: seq<Matrix>,
                       newDelta: Matrix, newWeightDelta: Matrix)
    requires WellShaped(p) && SweepShaped(p, s) && OutputFits(p.layerSizes, y) && m == k + 1 && m < |p.weights|
    requires Written(sigma, p, s, y, m, delta, weightDeltas, biasDeltas)
    requires newDelta == MulElem(Mul(T(p.weights[m]), delta), SigmoidPrime(sigma, s.zValues[k]))
    requires newWeightDelta == Mul(newDelta, T(s.activations[k]))
    ensures Written(sigma, p, s, y, k, newDelta, weightDeltas[k := newWeightDelta], biasDeltas[k := newDelta])
  {
    WellShapedDense(p);
    DeltaStep(sigma, p, s, y, k, m);
    WriteSlot(sigma, p, s, y, k, m);
  }

  /** The output step of the backward pass: (a_L - y) times sigma'(z_L) is the error term
      of the last weight layer k, and writing it and its weight gradient into slot k of
      the zeroed slots gives the state with slot k written. */
  lemma OutputStep(sigma: real -> real, p: Parameters, s: Sweep, y: Matrix, k: nat,
                   newDelta: Matrix, newWeightDelta: Matrix)
    requires WellShaped(p) && SweepShaped(p, s) && OutputFits(p.layerSizes, y) && k + 1 == |p.weights|
    requires newDelta == MulElem(Sub(s.activations[k + 1], y), SigmoidPrime(sigma, s.zValues[k]))
    requires newWeightDelta == Mul(newDelta, T(s.activations[k]))
    ensures AllDense(p.weights) && AllDense(p.biases)
    ensures Written(sigma, p, s, y, k, newDelta, ZerosLike(p.weights)[k := newWeightDelta],
                    ZerosLike(p.biases)[k := newDelta])
  {
    WellShapedDense(p);
    assert ZerosLike(p.weights) == ZerosLike(p.weights)[..k + 1] + WeightGradsFrom(sigma, p, s, y, k + 1);
    assert ZerosLike(p.biases) == ZerosLike(p.biases)[..k + 1] + BiasGradsFrom(sigma, p, s, y, k + 1);
    WriteSlot(sigma, p, s, y, k, k + 1);
  }

  /** Zeroed slots shaped like the given matrices, built by appending EmptyDense of each:
      the initialisation shared by backprop and the batch update. */
  method ZeroSlots(ms: seq<Matrix>) returns (z: seq<Matrix>)
    requires AllDense(ms)
    ensures z == ZerosLike(ms)
  {
    z := [];
    var i := 0;
    while i < |ms|
      invariant 0 <= i <= |ms|
      invariant z == ZerosLike(ms)[..i]
    {
      assert ZerosLike(ms)[..i + 1] == ZerosLike(ms)[..i] + [EmptyDense(ms[i])];
      z := z + [EmptyDense(ms[i])];
      i := i + 1;
    }
    assert ZerosLike(ms)[..i] == ZerosLike(ms);
  }

  /** Backprop's forward sweep: the affine-plus-sigmoid recurrence of inference, keeping
      every activation (starting with the input) and every pre-activation z. Its last
      activation is inference's output (SweepAgreesWithFeedForward). */
  method ForwardPass(sigma: real -> real, p: Parameters, inputActivations: Matrix)
    returns (layerActivations: seq<Matrix>, zValues: seq<Matrix>)
    requires WellShaped(p) && Dims(inputActivations, p.layerSizes[0], 1)
    ensures Sweep(layerActivations, zValues) == ForwardSweep(sigma, p, inputActivations, |p.weights|)
  {
    var currentActivation := inputActivations;
    layerActivations := [inputActivations];
    zValues := [];
    var layerIndex := 0;
    while layerIndex < |p.biases|
      invariant 0 <= layerIndex <= |p.weights|
      invariant Sweep(layerActivations, zValues) == ForwardSweep(sigma, p, inputActivations, layerIndex)
      invariant currentActivation == layerActivations[layerIndex]
    {
      var layerBiases := p.biases[layerIndex];
      var layerWeights := p.weights[layerIndex];
      var z := Mul(layerWeights, currentActivation);
      z := Add(z, layerBiases);
      zValues := zValues + [z];
      currentActivation := Sigmoid(sigma, z);
      layerActivations := layerActivations + [currentActivation];
      layerIndex := layerIndex + 1;
    }
  }

  /** The backward half of backprop, on zeroed slots and a complete forward sweep: the
      output layer's error term (a_L - y) times sigma'(z_L) is its bias slot, times the
      previous activation transposed its weight slot; then the recurrence. */
  method BackwardPass(sigma: real -> real, p: Parameters, layerActivations: seq<Matrix>, zValues: seq<Matrix>,
                      expectedOutputActivations: Matrix, weightDeltas0: seq<Matrix>, biasDeltas0: seq<Matrix>)
    returns (weightDeltas: seq<Matrix>, biasDeltas: seq<Matrix>)
    requires WellShaped(p) && SweepShaped(p, Sweep(layerActivations, zValues))
    requires OutputFits(p.layerSizes, expectedOutputActivations)
    requires AllDense(p.weights) && AllDense(p.biases)
    requires weightDeltas0 == ZerosLike(p.weights) && biasDeltas0 == ZerosLike(p.biases)
    ensures weightDeltas == ZerosLike(p.weights)[..FirstWritten(p)]
      + WeightGradsFrom(sigma, p, Sweep(layerActivations, zValues), expectedOutputActivations, FirstWritten(p))
    ensures biasDeltas == ZerosLike(p.biases)[..FirstWritten(p)]
      + BiasGradsFrom(sigma, p, Sweep(layerActivations, zValues), expectedOutputActivations, FirstWritten(p))
  {
    var delta := Sub(layerActivations[|layerActivations| - 1], expectedOutputActivations);
    delta := MulElem(delta, SigmoidPrime(sigma, zValues[|zValues| - 1]));
    biasDeltas := biasDeltas0[|biasDeltas0| - 1 := delta];
    var currentWeightDelta := Mul(delta, T(layerActivations[|layerActivations| - 2]));
    weightDeltas := weightDeltas0[|weightDeltas0| - 1 := currentWeightDelta];
    OutputStep(sigma, p, Sweep(layerActivations, zValues), expectedOutputActivations, |p.weights| - 1,
               delta, currentWeightDelta);
    if |p.layerSizes| > 2 {
      weightDeltas, biasDeltas := BackwardRecurrence(sigma, p, layerActivations, zValues, expectedOutputActivations,
                                                     delta, weightDeltas, biasDeltas);
    }
  }

  /** The backward recurrence for l from 2 while l < len(layerSizes) - 1: each step takes
      the error term of the layer above through its transposed weights and sigma'(z),
      and writes slot len - l. The loop stops above slot 0, so with three or more layers
      slot 0 keeps its zeros. */
  method BackwardRecurrence(sigma: real -> real, p: Parameters, layerActivations: seq<Matrix>, zValues: seq<Matrix>,
                            expectedOutputActivations: Matrix, delta0: Matrix,
                            weightDeltas0: seq<Matrix>, biasDeltas0: seq<Matrix>)
    returns (weightDeltas: seq<Matrix>, biasDeltas: seq<Matrix>)
    requires WellShaped(p) && SweepShaped(p, Sweep(layerActivations, zValues)) && |p.layerSizes| >= 3
    requires OutputFits(p.layerSizes, expectedOutputActivations)
    requires AllDense(p.weights) && AllDense(p.biases)
    requires Written(sigma, p, Sweep(layerActivations, zValues), expectedOutputActivations, |p.weights| - 1,
                     delta0, weightDeltas0, biasDeltas0)
    ensures weightDeltas == ZerosLike(p.weights)[..1]
      + WeightGradsFrom(sigma, p, Sweep(layerActivations, zValues), expectedOutputActivations, 1)
    ensures biasDeltas == ZerosLike(p.biases)[..1]
      + BiasGradsFrom(sigma, p, Sweep(layerActivations, zValues), expectedOutputActivations, 1)
  {
    var delta := delta0;
    weightDeltas, biasDeltas := weightDeltas0, biasDeltas0;
    var l := 2;
    ghost var m := |p.weights| - 1;
    while l < |p.layerSizes| - 1
      invariant 2 <= l <= |p.weights| && m == |p.weights| - l + 1
      invariant Written(sigma, p, Sweep(layerActivations, zValues), expectedOutputActivations, m,
                        delta, weightDeltas, biasDeltas)
    {
      delta, weightDeltas, biasDeltas := RecurrenceUpdate(sigma, p, layerActivations, zValues, expectedOutputActivations,
                                                          l, m, delta, weightDeltas, biasDeltas);
      l, m := l + 1, m - 1;
    }
  }

  /** The body of the backward recurrence for one l: with the slots from len - l + 1 on
      written and delta the error term of that layer, compute the error term of layer
      len - l from its z and the weights above it, and write it and its weight gradient
      into slot len - l. */
  method RecurrenceUpdate(sigma: real -> real, p: Parameters, layerActivations: seq<Matrix>, zValues: seq<Matrix>,
                          ghost y: Matrix, l: int, ghost m: nat, delta: Matrix, weightDeltas: seq<Matrix>,
                          biasDeltas: seq<Matrix>)
    returns (newDelta: Matrix, newWeightDeltas: seq<Matrix>, newBiasDeltas: seq<Matrix>)
    requires WellShaped(p) && SweepShaped(p, Sweep(layerActivations, zValues)) && OutputFits(p.layerSizes, y)
    requires 2 <= l < |p.layerSizes| - 1 && m == |p.weights| - l + 1
    requires Written(sigma, p, Sweep(layerActivations, zValues), y, m, delta, weightDeltas, biasDeltas)
    ensures Written(sigma, p, Sweep(layerActivations, zValues), y, m - 1, newDelta, newWeightDeltas, newBiasDeltas)
  {
    assert |zValues| - l == m - 1 && |layerActivations| - l - 1 == m - 1 && |p.weights| - l + 1 == m;
    var z := zValues[|zValues| - l];
    var sp := SigmoidPrime(sigma, z);
    newDelta := Mul(T(p.weights[|p.weights| - l + 1]), delta);
    newDelta := MulElem(newDelta, sp);
    newBiasDeltas := biasDeltas[|biasDeltas| - l := newDelta];
    var newWeightDelta := Mul(newDelta, T(layerActivations[|layerActivations| - l - 1]));
    newWeightDeltas := weightDeltas[|weightDeltas| - l := newWeightDelta];
    RecurrenceStep(sigma, p, Sweep(layerActivations, zValues), y, m - 1, m, delta, weightDeltas, biasDeltas,
                   newDelta, newWeightDelta);
  }

  /** The per-layer gradient slots for one sample, as BackpropWeights and BackpropBiases
      define them: zeroed slots shaped like the parameters, a forward sweep keeping every
      z and activation, then the backward pass. */
  method Backprop(sigma: real -> real, p: Parameters, inputActivations: Matrix, expectedOutputActivations: Matrix)
    returns (weightDeltas: seq<Matrix>, biasDeltas: seq<Matrix>)
    requires WellShaped(p) && Fits(p.layerSizes, DataSample(inputActivations, expectedOutputActivations))
    ensures weightDeltas == BackpropWeights(sigma, p, DataSample(inputActivations, expectedOutputActivations))
    ensures biasDeltas == BackpropBiases(sigma, p, DataSample(inputActivations, expectedOutputActivations))
  {
    WellShapedDense(p);
    weightDeltas := ZeroSlots(p.weights);
    biasDeltas := ZeroSlots(p.biases);
    var layerActivations, zValues := ForwardPass(sigma, p, inputActivations);
    assert Sweep(layerActivations, zValues)
        == SampleSweep(sigma, p, DataSample(inputActivations, expectedOutputActivations));
    weightDeltas, biasDeltas := BackwardPass(sigma, p, layerActivations, zValues, expectedOutputActivations,
                                             weightDeltas, biasDeltas);
  }

  /** Adds each delta into the sum in the same slot, as the batch update does for every
      sample's gradients; each delta must have its sum's shape. */
  method AddInto(sums: seq<Matrix>, deltas: seq<Matrix>) returns (r: seq<Matrix>)
    requires SameShapes(sums, deltas)
    ensures r == AddEach(sums, deltas)
  {
    r := sums;
    var j := 0;
    while j < |deltas|
      invariant 0 <= j <= |deltas|
      invariant r == AddEach(sums, deltas)[..j] + sums[j..]
    {
      AdvancePrefix(AddEach(sums, deltas), sums, j);
      r := r[j := Add(r[j], deltas[j])];
      j := j + 1;
    }
  }

  /** Adds the backprop slots of sample batchIndex into the sums of the samples before it;
      the result is the sums of the samples before `next`, the following index. */
  method AddSample(sigma: real -> real, p: Parameters, trainingData: seq<DataSample>,
                   batchStartIndex: nat, batchIndex: nat, next: nat, weightSums: seq<Matrix>, biasSums: seq<Matrix>)
    returns (newWeightSums: seq<Matrix>, newBiasSums: seq<Matrix>)
    requires WellShaped(p) && batchStartIndex <= batchIndex < |trainingData| && next == batchIndex + 1
    requires BatchFits(p.layerSizes, trainingData, batchStartIndex, next)
    requires weightSums == WeightSums(sigma, p, trainingData, batchStartIndex, batchIndex)
    requires biasSums == BiasSums(sigma, p, trainingData, batchStartIndex, batchIndex)
    ensures newWeightSums == WeightSums(sigma, p, trainingData, batchStartIndex, next)
    ensures newBiasSums == BiasSums(sigma, p, trainingData, batchStartIndex, next)
  {
    var expectedOutputActivations := trainingData[batchIndex].expectedOutputActivation;
    var inputActivations := trainingData[batchIndex].inputActivation;
    assert DataSample(inputActivations, expectedOutputActivations) == trainingData[batchIndex];
    var weightDeltas, biasDeltas := Backprop(sigma, p, inputActivations, expectedOutputActivations);
    SumsStep(sigma, p, trainingData, batchStartIndex, batchIndex);
    newWeightSums := AddInto(weightSums, weightDeltas);
    newBiasSums := AddInto(biasSums, biasDeltas);
  }

  /** Zeroed sums shaped like the parameters, then the backprop slots of samples
      start .. stop-1 added in, sample by sample. */
  method Accumulate(sigma: real -> real, p: Parameters, trainingData: seq<DataSample>, start: nat, stop: nat)
    returns (weightSums: seq<Matrix>, biasSums: seq<Matrix>)
    requires WellShaped(p) && start <= stop <= |trainingData|
    requires BatchFits(p.layerSizes, trainingData, start, stop)
    ensures weightSums == WeightSums(sigma, p, trainingData, start, stop)
    ensures biasSums == BiasSums(sigma, p, trainingData, start, stop)
  {
    WellShapedDense(p);
    weightSums := ZeroSlots(p.weights);
    biasSums := ZeroSlots(p.biases);
    var batchIndex := start;
    while batchIndex < stop
      invariant start <= batchIndex <= stop
      invariant weightSums == WeightSums(sigma, p, trainingData, start, batchIndex)
      invariant biasSums == BiasSums(sigma, p, trainingData, start, batchIndex)
    {
      var next := batchIndex + 1;
      weightSums, biasSums := AddSample(sigma, p, trainingData, start, batchIndex, next, weightSums, biasSums);
      batchIndex := next;
    }
    assert batchIndex == stop;
  }

  /** The accumulation half of a mini-batch step: the samples of the batch that exist are
      summed in order, and an index past the data halts at the first such index, after the
      samples before it were summed and before any sum is used. */
  method SumBatch(sigma: real -> real, p: Parameters, trainingData: seq<DataSample>,
                  batchStartIndex: int, batchEndIndex: int)
    returns (status: Status, weightSums: seq<Matrix>, biasSums: seq<Matrix>)
    requires WellShaped(p) && 0 <= batchStartIndex < batchEndIndex
    requires BatchFits(p.layerSizes, trainingData, batchStartIndex, batchEndIndex)
    ensures status.Halted? <==> batchEndIndex > |trainingData|
    ensures status.Halted? ==> status.error == SampleIndexOutOfRange(
      if batchStartIndex > |trainingData| then batchStartIndex else |trainingData|, |trainingData|)
    ensures status.Completed? ==>
      && weightSums == WeightSums(sigma, p, trainingData, batchStartIndex, batchEndIndex)
      && biasSums == BiasSums(sigma, p, trainingData, batchStartIndex, batchEndIndex)
  {
    if batchEndIndex <= |trainingData| {
      weightSums, biasSums := Accumulate(sigma, p, trainingData, batchStartIndex, batchEndIndex);
      status := Completed;
    } else {
      // The samples that exist are summed; the first index past the data then fails.
      if batchStartIndex <= |trainingData| {
        weightSums, biasSums := Accumulate(sigma, p, trainingData, batchStartIndex, |trainingData|);
      } else {
        weightSums, biasSums := [], [];
      }
      status := Halted(SampleIndexOutOfRange(
        if batchStartIndex > |trainingData| then batchStartIndex else |trainingData|, |trainingData|));
    }
  }

  /** Shuffles the training data in place. The random source decides which positions are
      exchanged, so the exchanges are a parameter; each one is the swap callback of the
      training loop. The result is a permutation of the data. */
  method Shuffle(trainingData: array<DataSample>, swaps: seq<(int, int)>)
    requires SwapsInRange(swaps, trainingData.Length)
    modifies trainingData
    ensures trainingData[..] == ApplySwaps(old(trainingData[..]), swaps)
    ensures multiset(trainingData[..]) == multiset(old(trainingData[..]))
  {
    var k := 0;
    while k < |swaps|
      invariant 0 <= k <= |swaps|
      invariant SwapsInRange(swaps[k..], trainingData.Length)
      invariant ApplySwaps(trainingData[..], swaps[k..]) == ApplySwaps(old(trainingData[..]), swaps)
    {
      var (i, j) := swaps[k];
      ghost var before := trainingData[..];
      trainingData[i], trainingData[j] := trainingData[j], trainingData[i];
      assert trainingData[..] == Swap(before, i, j);
      assert swaps[k..][1..] == swaps[k + 1..];
      k := k + 1;
    }
  }

  /** The correct counts the training loop logs: before training, then after each epoch. */
  ghost function TrainingLog(sigma: real -> real, p: Parameters, data: seq<DataSample>, swaps: seq<seq<(int, int)>>,
                             b: nat, learningRate: real, testData: seq<DataSample>): (log: seq<nat>)
    requires WellShaped(p) && AllFit(p.layerSizes, data) && b > 0
    requires AllSwapsInRange(swaps, |data|) && Testable(p.layerSizes, testData)
    ensures |log| == |swaps| + 1
    ensures log[|swaps|] == CorrectCount(sigma, Trained(sigma, p, data, swaps, b, learningRate), testData)
    decreases |swaps|
  {
    var count := CorrectCount(sigma, Trained(sigma, p, data, swaps, b, learningRate), testData);
    if |swaps| == 0 then [count]
    else TrainingLog(sigma, p, data, swaps[..|swaps| - 1], b, learningRate, testData) + [count]
  }

  /** No logged count exceeds the number of test samples. */
  lemma {:induction false} TrainingLogBounded(sigma: real -> real, p: Parameters, data: seq<DataSample>,
                                              swaps: seq<seq<(int, int)>>, b: nat, learningRate: real,
                                              testData: seq<DataSample>)
    requires WellShaped(p) && AllFit(p.layerSizes, data) && b > 0
    requires AllSwapsInRange(swaps, |data|) && Testable(p.layerSizes, testData)
    ensures forall e :: 0 <= e <= |swaps| ==> TrainingLog(sigma, p, data, swaps, b, learningRate, testData)[e] <= |testData|
    decreases |swaps|
  {
    if |swaps| > 0 {
      TrainingLogBounded(sigma, p, data, swaps[..|swaps| - 1], b, learningRate, testData);
    }
  }

  /** One more epoch appends the correct count of the parameters it leaves to the log. */
  lemma TrainingLogStep(sigma: real -> real, p: Parameters, data: seq<DataSample>, swaps: seq<seq<(int, int)>>,
                        e: nat, b: nat, learningRate: real, testData: seq<DataSample>)
    requires WellShaped(p) && AllFit(p.layerSizes, data) && b > 0
    requires AllSwapsInRange(swaps, |data|) && e < |swaps| && Testable(p.layerSizes, testData)
    ensures AllSwapsInRange(swaps[..e], |data|) && AllSwapsInRange(swaps[..e + 1], |data|)
    ensures TrainingLog(sigma, p, data, swaps[..e + 1], b, learningRate, testData)
         == TrainingLog(sigma, p, data, swaps[..e], b, learningRate, testData)
            + [CorrectCount(sigma, Trained(sigma, p, data, swaps[..e + 1], b, learningRate), testData)]
  {
    ShuffledStep(data, swaps, e);
    assert swaps[..e + 1][..e] == swaps[..e];
  }

  /** A fully connected sigmoid network: layer sizes fixed at construction, weights and
      biases updated in place by training. */
  class Network {
    const layerSizes: seq<int>
    var weights: seq<Matrix>
    var biases: seq<Matrix>

    function Params(): Parameters
      reads this
    {
      Parameters(layerSizes, weights, biases)
    }

    /** The shape invariant: one weight matrix and one bias column per non-input layer,
        sized by the adjacent layer sizes. */
    predicate Valid()
      reads this
    {
      WellShaped(Params())
    }

    /** Builds weights[i-1] (layerSizes[i] x layerSizes[i-1]) and biases[i-1]
        (layerSizes[i] x 1) for every non-input layer i, drawing weights before biases. */
    constructor (layerSizes: seq<int>, draw: (nat, nat, nat) -> real)
      requires |layerSizes| >= 2
      requires forall i :: 0 <= i < |layerSizes| ==> layerSizes[i] > 0
      ensures Valid() && this.layerSizes == layerSizes
      ensures Params() == InitialParameters(draw, layerSizes)
    {
      this.layerSizes := layerSizes;
      var ws: seq<Matrix> := [];
      var bs: seq<Matrix> := [];
      var i := 1;
      while i < |layerSizes|
        invariant 1 <= i <= |layerSizes|
        invariant |ws| == i - 1 && |bs| == i - 1
        invariant forall k :: 0 <= k < i - 1 ==> ws[k] == RandomMatrix(draw, 2 * k, layerSizes[k + 1], layerSizes[k])
        invariant forall k :: 0 <= k < i - 1 ==> bs[k] == RandomMatrix(draw, 2 * k + 1, layerSizes[k + 1], 1)
      {
        var w := RandomMatrix(draw, 2 * (i - 1), layerSizes[i], layerSizes[i - 1]);
        var b := RandomMatrix(draw, 2 * (i - 1) + 1, layerSizes[i], 1);
        ws := ws + [w];
        bs := bs + [b];
        i := i + 1;
      }
      DrawnAreInitial(draw, layerSizes, ws, bs);
      weights := ws;
      biases := bs;
    }

    /** Inference: halts when the input's row count is not the input layer size, and
        otherwise returns the output layer's activation column. */
    method FeedForward(sigma: real -> real, inputActivations: Matrix) returns (r: Result<Matrix>)
      requires Valid() && IsColumn(inputActivations)
      ensures r.Ok? <==> |inputActivations| == layerSizes[0]
      ensures r.Err? ==> r.error == InputLengthMismatch(layerSizes[0], |inputActivations|)
      ensures r.Ok? ==> Dims(r.value, layerSizes[|layerSizes| - 1], 1)
      ensures r.Ok? ==> r.value == Activation(sigma, Params(), inputActivations, |weights|)
    {
      var inputDimR := Rows(inputActivations);
      if inputDimR != layerSizes[0] {
        return Err(InputLengthMismatch(layerSizes[0], inputDimR));
      }
      var currentActivation := inputActivations;
      var layerIndex := 0;
      while layerIndex < |layerSizes| - 1
        invariant 0 <= layerIndex <= |layerSizes| - 1
        invariant currentActivation == Activation(sigma, Params(), inputActivations, layerIndex)
      {
        var layerBiases := biases[layerIndex];
        var layerWeights := weights[layerIndex];
        var result := Mul(layerWeights, currentActivation);
        result := Add(result, layerBiases);
        currentActivation := Sigmoid(sigma, result);
        layerIndex := layerIndex + 1;
      }
      return Ok(currentActivation);
    }

    /** One mini-batch step over samples batchStartIndex .. batchEndIndex-1. A sample index
        past the data halts the program before any parameter changes; otherwise the new
        parameters are BatchStep's: every weight and bias minus learningRate / (end - start)
        times its summed backprop slots, all computed with the parameters from before. */
    method ProcessTrainingBatch(sigma: real -> real, trainingData: seq<DataSample>,
                                batchStartIndex: int, batchEndIndex: int, learningRate: real)
      returns (status: Status)
      requires Valid()
      requires 0 <= batchStartIndex < batchEndIndex
      requires BatchFits(layerSizes, trainingData, batchStartIndex, batchEndIndex)
      modifies this
      ensures Valid()
      ensures status.Halted? <==> batchEndIndex > |trainingData|
      ensures status.Halted? ==>
        && status.error == SampleIndexOutOfRange(
             if batchStartIndex > |trainingData| then batchStartIndex else |trainingData|, |trainingData|)
        && Params() == old(Params())
      ensures status.Completed? ==>
        Params() == BatchStep(sigma, old(Params()), trainingData, batchStartIndex, batchEndIndex, learningRate)
    {
      var p := Params();
      var weightSums, biasSums;
      status, weightSums, biasSums := SumBatch(sigma, p, trainingData, batchStartIndex, batchEndIndex);
      if status.Halted? {
        return;
      }
      ApplyBatch(sigma, trainingData, batchStartIndex, batchEndIndex, learningRate, weightSums, biasSums);
    }

    /** The update half of a mini-batch: the batch's sums, taken with the current
        parameters, are scaled and subtracted, which is BatchStep. */
    method ApplyBatch(sigma: real -> real, trainingData: seq<DataSample>, start: nat, end: nat,
                      learningRate: real, weightSums: seq<Matrix>, biasSums: seq<Matrix>)
      requires Valid() && start < end <= |trainingData|
      requires BatchFits(layerSizes, trainingData, start, end)
      requires weightSums == WeightSums(sigma, Params(), trainingData, start, end)
      requires biasSums == BiasSums(sigma, Params(), trainingData, start, end)
      modifies this
      ensures Params() == BatchStep(sigma, old(Params()), trainingData, start, end, learningRate)
    {
      SubtractScaled(weightSums, biasSums, learningRate, start, end);
    }

    /** The in-place update of the batch start .. end-1: each sum is scaled by
        learningRate / (end - start) and subtracted from its weight or bias matrix, slot
        by slot. Each sum must have the shape of its matrix. */
    method SubtractScaled(weightSums: seq<Matrix>, biasSums: seq<Matrix>, learningRate: real, start: int, end: int)
      requires start < end && SameShapes(weights, weightSums) && SameShapes(biases, biasSums)
      modifies this
      ensures weights == DescendEach(old(weights), weightSums, learningRate, end - start)
      ensures biases == DescendEach(old(biases), biasSums, learningRate, end - start)
    {
      ghost var newWeights := DescendEach(weights, weightSums, learningRate, end - start);
      ghost var newBiases := DescendEach(biases, biasSums, learningRate, end - start);
      var sums := weightSums;
      var i := 0;
      while i < |weights|
        invariant 0 <= i <= |weights| == |sums| == |weightSums|
        invariant weights == newWeights[..i] + old(weights)[i..]
        invariant sums[i..] == weightSums[i..]
        invariant biases == old(biases)
      {
        assert sums[i] == weightSums[i];
        sums := sums[i := Scale(learningRate / (end - start) as real, sums[i])];
        AdvancePrefix(newWeights, old(weights), i);
        weights := weights[i := Sub(weights[i], sums[i])];
        i := i + 1;
      }
      assert weights == newWeights;
      sums := biasSums;
      i := 0;
      while i < |biases|
        invariant 0 <= i <= |biases| == |sums| == |biasSums|
        invariant weights == newWeights
        invariant biases == newBiases[..i] + old(biases)[i..]
        invariant sums[i..] == biasSums[i..]
      {
        assert sums[i] == biasSums[i];
        sums := sums[i := Scale(learningRate / (end - start) as real, sums[i])];
        AdvancePrefix(newBiases, old(biases), i);
        biases := biases[i := Sub(biases[i], sums[i])];
        i := i + 1;
      }
      assert biases == newBiases;
    }

    /** One test sample: feeds its input forward and tells whether the index of the
        largest output is the index of the largest expected output. Halts, as FeedForward
        does, when the input has the wrong length. */
    method Classify(sigma: real -> real, sample: DataSample) returns (r: Result<bool>)
      requires Valid() && Evaluable(sample)
      ensures r.Ok? <==> |sample.inputActivation| == layerSizes[0]
      ensures r.Err? ==> r.error == InputLengthMismatch(layerSizes[0], |sample.inputActivation|)
      ensures r.Ok? ==> (r.value <==> Predicted(sigma, Params(), sample.inputActivation)
                                      == ArgMax(Column(sample.expectedOutputActivation, 0)))
    {
      var output := FeedForward(sigma, sample.inputActivation);
      if output.Err? {
        return Err(output.error);
      }
      var resultIndex := MaxIndex(Column(output.value, 0));
      var expectedIndex := MaxIndex(Column(sample.expectedOutputActivation, 0));
      return Ok(resultIndex == expectedIndex);
    }

    /** Counts the test samples whose predicted class (argmax of the output) equals the
        argmax of the expected output, changing nothing. Halts at the first input of the
        wrong length. */
    method EvaluateTestData(sigma: real -> real, testData: seq<DataSample>) returns (r: Result<nat>)
      requires Valid() && AllEvaluable(testData)
      ensures r.Ok? <==> InputsFit(layerSizes, testData)
      ensures r.Ok? ==> r.value == CorrectCount(sigma, Params(), testData)
      ensures r.Err? ==>
        exists i ::
          && 0 <= i < |testData|
          && InputsFit(layerSizes, testData[..i])
          && r.error == InputLengthMismatch(layerSizes[0], |testData[i].inputActivation|)
          && |testData[i].inputActivation| != layerSizes[0]
    {
      var numCorrectResults := 0;
      var testIndex := 0;
      while testIndex < |testData|
        invariant 0 <= testIndex <= |testData|
        invariant Testable(layerSizes, testData[..testIndex])
        invariant numCorrectResults == CorrectCount(sigma, Params(), testData[..testIndex])
      {
        var correct := Classify(sigma, testData[testIndex]);
        if correct.Err? {
          assert InputsFit(layerSizes, testData[..testIndex]);
          return Err(correct.error);
        }
        TestableExtend(layerSizes, testData, testIndex);
        CorrectCountStep(sigma, Params(), testData, testIndex);
        if correct.value {
          numCorrectResults := numCorrectResults + 1;
        }
        var next := testIndex + 1;
        assert testData[..next] == testData[..testIndex + 1];
        testIndex := next;
      }
      assert testData[..testIndex] == testData;
      return Ok(numCorrectResults);
    }

    /** One epoch's batch loop: starts 0, B, 2B, ... below the data length, each batch
        ending B later, never clamped. The parameters become EpochFrom's; the epoch
        completes exactly when the data length is a whole number of batches (a multiple
        of B, by WholeIsMultiple), and otherwise halts at the index just past the data. */
    method RunBatches(sigma: real -> real, trainingData: seq<DataSample>, batchSize: int, learningRate: real)
      returns (status: Status)
      requires Valid() && batchSize > 0 && AllFit(layerSizes, trainingData)
      modifies this
      ensures Valid()
      ensures status.Completed? <==> Whole(|trainingData|, batchSize)
      ensures status.Halted? ==> status.error == SampleIndexOutOfRange(|trainingData|, |trainingData|)
      ensures Params() == EpochFrom(sigma, old(Params()), trainingData, 0, batchSize, learningRate)
    {
      var batchIndex := 0;
      while batchIndex < |trainingData|
        invariant 0 <= batchIndex <= |trainingData| && Whole(batchIndex, batchSize)
        invariant Valid()
        invariant EpochFrom(sigma, Params(), trainingData, batchIndex, batchSize, learningRate)
               == EpochFrom(sigma, old(Params()), trainingData, 0, batchSize, learningRate)
      {
        var outcome, next := NextBatch(sigma, trainingData, batchIndex, batchSize, learningRate);
        if outcome.Halted? {
          return outcome;
        }
        batchIndex := next;
      }
      assert batchIndex == |trainingData|;
      EpochStops(sigma, Params(), trainingData, batchIndex, batchSize, learningRate);
      return Completed;
    }

    /** One pass of the batch loop, from a start inside the data that follows whole
        batches: the batch ends B later, at the next start. A batch that ends inside the
        data is one step of the epoch; one that would end past it halts, which happens
        only when the data length is not a whole number of batches. */
    method NextBatch(sigma: real -> real, trainingData: seq<DataSample>, batchIndex: int, batchSize: int,
                     learningRate: real)
      returns (status: Status, next: int)
      requires Valid() && batchSize > 0 && AllFit(layerSizes, trainingData)
      requires 0 <= batchIndex < |trainingData| && Whole(batchIndex, batchSize)
      modifies this
      ensures Valid()
      ensures next == BatchEnd(batchIndex, batchSize)
      ensures status.Halted? <==> next > |trainingData|
      ensures status.Halted? ==>
        && status.error == SampleIndexOutOfRange(|trainingData|, |trainingData|)
        && !Whole(|trainingData|, batchSize)
        && Params() == EpochFrom(sigma, old(Params()), trainingData, batchIndex, batchSize, learningRate)
      ensures status.Completed? ==>
        && Whole(next, batchSize)
        && EpochFrom(sigma, Params(), trainingData, next, batchSize, learningRate)
           == EpochFrom(sigma, old(Params()), trainingData, batchIndex, batchSize, learningRate)
    {
      next := BatchEnd(batchIndex, batchSize);
      AllFitBatchFits(layerSizes, trainingData, batchIndex, next);
      status := ProcessTrainingBatch(sigma, trainingData, batchIndex, next, learningRate);
      if status.Halted? {
        BatchOverruns(sigma, old(Params()), trainingData, batchIndex, batchSize, learningRate);
      } else {
        BatchAdvances(sigma, old(Params()), trainingData, batchIndex, batchSize, learningRate);
      }
    }

    /** One epoch of the training loop: shuffles the data once more, then runs its
        batches over the new order. */
    method RunEpoch(sigma: real -> real, trainingData: array<DataSample>, batchSize: int, learningRate: real,
                    swaps: seq<seq<(int, int)>>, epoch: nat, ghost p0: Parameters, ghost d0: seq<DataSample>)
      returns (status: Status)
      requires Valid() && batchSize > 0 && layerSizes == p0.layerSizes
      requires WellShaped(p0) && AllFit(p0.layerSizes, d0)
      requires AllSwapsInRange(swaps, |d0|) && epoch < |swaps|
      requires AllSwapsInRange(swaps[..epoch], |d0|)
      requires trainingData[..] == Shuffled(d0, swaps[..epoch])
      requires Params() == Trained(sigma, p0, d0, swaps[..epoch], batchSize, learningRate)
      modifies this, trainingData
      ensures Valid() && layerSizes == p0.layerSizes
      ensures AllSwapsInRange(swaps[..epoch + 1], |d0|)
      ensures trainingData[..] == Shuffled(d0, swaps[..epoch + 1])
      ensures Params() == Trained(sigma, p0, d0, swaps[..epoch + 1], batchSize, learningRate)
      ensures status.Completed? <==> |d0| % batchSize == 0
      ensures status.Halted? ==> status.error == SampleIndexOutOfRange(|d0|, |d0|)
    {
      TrainedStep(sigma, p0, d0, swaps, epoch, batchSize, learningRate);
      ShuffledStep(d0, swaps, epoch);
      Shuffle(trainingData, swaps[epoch]);
      var shuffled := trainingData[..];
      assert shuffled == Shuffled(d0, swaps[..epoch + 1]);
      status := RunBatches(sigma, shuffled, batchSize, learningRate);
      WholeIsMultiple(|d0|, batchSize);
    }

    /** The training loop. Evaluates the test set, then for each epoch shuffles the
        training data in place, runs its batches and evaluates again; the log holds the
        correct counts. It completes only when the data length is a multiple of B (or no
        epoch runs); otherwise the last batch of the first epoch reads past the data and
        the program halts. Completed, the network holds Trained's parameters. */
    method Train(sigma: real -> real, trainingData: array<DataSample>, epochs: int, batchSize: int,
                 learningRate: real, testData: seq<DataSample>, swaps: seq<seq<(int, int)>>)
      returns (status: Status, log: seq<nat>)
      requires Valid() && batchSize > 0 && epochs <= |swaps|
      requires AllSwapsInRange(swaps, trainingData.Length)
      requires AllFit(layerSizes, trainingData[..]) && AllEvaluable(testData)
      modifies this, trainingData
      ensures Valid()
      ensures multiset(trainingData[..]) == multiset(old(trainingData[..]))
      ensures status.Completed? <==>
        InputsFit(layerSizes, testData) && (epochs <= 0 || trainingData.Length % batchSize == 0)
      ensures !InputsFit(layerSizes, testData) ==>
        && status.Halted? && status.error.InputLengthMismatch? && log == []
        && Params() == old(Params()) && trainingData[..] == old(trainingData[..])
      ensures InputsFit(layerSizes, testData) && epochs > 0 && trainingData.Length % batchSize != 0 ==>
        && status == Halted(SampleIndexOutOfRange(trainingData.Length, trainingData.Length))
        && log == [CorrectCount(sigma, old(Params()), testData)]
        && trainingData[..] == Shuffled(old(trainingData[..]), swaps[..1])
        && Params() == Trained(sigma, old(Params()), old(trainingData[..]), swaps[..1], batchSize, learningRate)
      ensures status.Completed? ==>
        var ran := if epochs > 0 then epochs else 0;
        && trainingData[..] == Shuffled(old(trainingData[..]), swaps[..ran])
        && Params() == Trained(sigma, old(Params()), old(trainingData[..]), swaps[..ran], batchSize, learningRate)
        && log == TrainingLog(sigma, old(Params()), old(trainingData[..]), swaps[..ran], batchSize, learningRate, testData)
    {
      ghost var p0 := Params();
      ghost var d0 := trainingData[..];
      ghost var n := trainingData.Length;
      var pre := EvaluateTestData(sigma, testData);
      if pre.Err? {
        return Halted(pre.error), [];
      }
      log := [pre.value];
      assert swaps[..0] == [];
      var ran := if epochs > 0 then epochs else 0;
      var epoch := 0;
      while epoch < ran
        invariant 0 <= epoch <= ran
        invariant Valid() && layerSizes == p0.layerSizes
        invariant AllSwapsInRange(swaps[..epoch], n)
        invariant trainingData[..] == Shuffled(d0, swaps[..epoch])
        invariant Params() == Trained(sigma, p0, d0, swaps[..epoch], batchSize, learningRate)
        invariant log == TrainingLog(sigma, p0, d0, swaps[..epoch], batchSize, learningRate, testData)
        invariant epoch > 0 ==> n % batchSize == 0
      {
        status := RunEpoch(sigma, trainingData, batchSize, learningRate, swaps, epoch, p0, d0);
        if status.Halted? {
          assert epoch == 0 && swaps[..epoch + 1] == swaps[..1];
          return status, log;
        }
        var count := EvaluateTestData(sigma, testData);
        TrainingLogStep(sigma, p0, d0, swaps, epoch, batchSize, learningRate, testData);
        log := log + [count.value];
        epoch := epoch + 1;
      }
      status := Completed;
    }
  }
}
