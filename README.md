# go-neural-network in Dafny

A model of the training core of go-neural-network. This is a fully connected sigmoid
network (a multilayer perceptron) trained by mini-batch stochastic gradient descent with
backpropagation and scored by classification accuracy on a test set. The model covers:

- the `Network` object (layer sizes, weights, biases);
- its construction from random draws;
- inference (`FeedForward`);
- backpropagation;
- the mini-batch update;
- the epoch and training loop, with the in-place shuffle;
- test-set evaluation;
- the two utilities the network uses (`MaxIndex` and `EmptyDense`).

The project has five modules:

- `Matrices` (matrices.dfy): dense real matrices with the operations the network takes from
  its linear-algebra library, given their textbook definitions. A sum, difference,
  elementwise product or product requires operands that fit together, which is the
  check the library panics on.
- `Util` (util.dfy): `MaxIndex`, proved against a reference first-occurrence argmax, and
  `EmptyDense`.
- `Layers` (layers.dfy): the network's mathematics as pure definitions. These cover
  parameter shapes, layer activations, the forward sweep, the error terms of the backward
  recurrence, the gradient slots backprop returns, batch sums, the descent step and the
  correct count. Lemmas are proved about them.
- `Training` (training.dfy): the training schedule as definitions. These cover shuffles as
  lists of exchanges, the parameters one epoch leaves (`EpochFrom`) and the parameters
  after several epochs (`Trained`).
- `NeuralNet` (network.dfy): the imperative code. `class Network` has the source's fields,
  and its methods update `weights` and `biases` in place. Backprop and batch accumulation
  are methods with loops. Every method is proved against the definitions above.

Behaviour of the code that the model keeps as written:

- The backward loop of backprop runs `l` from 2 while `l < len(layerSizes) - 1`, so it never
  writes gradient slot 0 when there are three or more layers. Slot 0 keeps the zeros it was
  initialised with. So a mini-batch never changes the first weight layer or its biases
  (`Layers.FirstLayerFrozen`), and neither does any amount of training
  (`Training.TrainingKeepsFirstLayer`). Standard backpropagation continues the recurrence
  down to the first hidden layer. This code stops one layer short, and the model follows
  the code.
- Every batch ends `batchSize` samples after its start, and the end is never clamped to the
  data length. When the data length is not a multiple of the batch size, the last batch of
  the first epoch indexes past the data and the program stops. The model returns
  `Halted(SampleIndexOutOfRange(n, n))` there, with the parameters as they were before that
  batch. Clamping the end to the data length would give a shorter final batch instead.
  The code does not clamp, and the model follows the code.
- Go's `log.Fatalf` in `FeedForward` (an input of the wrong length) becomes
  `Err(InputLengthMismatch(expected, actual))`. An index panic becomes a `Halted` status.
  In both cases the model returns the state the process had when it stopped.

## Model

| member | source | states |
|---|---|---|
| Util.ArgMax | src/util/vector-max-index.go:10-23 | reference argmax: -1 exactly for the empty vector, otherwise an index holding the largest entry with every earlier entry strictly smaller (the first maximum) |
| Util.MaxIndex | src/util/vector-max-index.go:10-23 | the scan from minus infinity that moves only on a strictly larger value returns ArgMax: -1 for an empty vector, else the first index of the largest entry |
| Util.EmptyDense | src/util/create-empty-dense.go:5-9 | a dense matrix with the source's row and column counts whose every entry is 0 |
| Layers.Sigmoid | src/network/network.go:209-216 | same shape as z, and entry (i, j) is sigma of entry (i, j) of z |
| Layers.SigmoidPrime | src/network/network.go:218-225 | same shape as z (its entries are stated by SigmoidPrimeFromSigmoid) |
| Layers.SigmoidPrimeFromSigmoid | src/network/network.go:218-225 | sigmoidPrime(z) is sigmoid(z) times (1 - sigmoid(z)), entry by entry |
| Layers.Affine | src/network/network.go:54-56 | requires W's columns to match a's rows and b to have the shape of W a, the library's checks for the product and the sum; W a + b then has W's row count and a's column count |
| Layers.Activation | src/network/network.go:48-58 | the activation after i affine-plus-sigmoid layers is a layerSizes[i] x 1 column; for i = L-1 this is the output-layer size |
| Layers.ForwardSweep | src/network/network.go:138-154 | the sweep keeps i+1 activations and i pre-activations, activation k a layerSizes[k] column and z_k a layerSizes[k+1] column |
| Layers.SampleSweep | src/network/network.go:138-154 | the full forward sweep of a sample that fits is SweepShaped: L activations and L-1 pre-activations of the layers' sizes |
| Layers.SweepAgreesWithFeedForward | src/network/network.go:138-154 | every activation backprop's forward sweep keeps equals the activation inference computes for that layer |
| Layers.Delta | src/network/network.go:156-180 | for an expected output column of the output layer's length, the error term of weight layer k is a layerSizes[k+1] column |
| Layers.WeightGradient | src/network/network.go:157-178 | delta_k a_k^T has the shape of weights[k] |
| Layers.BiasGradient | src/network/network.go:157-178 | delta_k has the shape of biases[k] |
| Layers.ZerosLike | src/network/network.go:130-136 | one slot per matrix, each the zero matrix of that matrix's shape |
| Layers.WeightGradsFrom | src/network/network.go:156-180 | one weight gradient per layer from m up (its entries are stated by WeightGradsAt) |
| Layers.BiasGradsFrom | src/network/network.go:156-180 | one bias gradient per layer from m up (its entries are stated by BiasGradsAt) |
| Layers.FirstWritten | src/network/network.go:167 | the lowest slot the backward pass writes is 0 or 1 (which one, and that the slots below it stay zero, is stated by BackpropWeightSlots and BackpropFirstSlotZero) |
| Layers.BackpropWeights | src/network/network.go:124-183 | one weight slot per weight layer, each of exactly that layer's weight shape (contents by BackpropWeightSlots and BackpropFirstSlotZero) |
| Layers.BackpropBiases | src/network/network.go:124-183 | one bias slot per bias layer, each of exactly that layer's bias shape (contents by BackpropBiasSlots and BackpropFirstSlotZero) |
| Layers.WeightGradsAt | src/network/network.go:167-180 | entry k - m of the weight gradients from layer m is delta_k a_k^T |
| Layers.BiasGradsAt | src/network/network.go:167-180 | entry k - m of the bias gradients from layer m is delta_k |
| Layers.GradsShaped | src/network/network.go:157-178 | entry j of the gradients from layer m has the shape of weight layer m + j and of its biases |
| Layers.BackpropWeightSlots | src/network/network.go:156-180 | every weight slot the backward pass writes (1 .. L-2 with three or more layers, 0 with two) holds that layer's gradient delta_k a_k^T |
| Layers.BackpropBiasSlots | src/network/network.go:156-180 | every bias slot the backward pass writes holds that layer's error term delta_k |
| Layers.BackpropFirstSlotZero | src/network/network.go:130-136 | with three or more layers, weight slot 0 and bias slot 0 come back as the zero matrices they were initialised with |
| Layers.WeightSums | src/network/network.go:88-108 | one weight sum per weight layer, each of that layer's weight shape, so every addition of the batch passes the library's dimension check (contents by SumsStep and OneSampleSums) |
| Layers.BiasSums | src/network/network.go:88-108 | one bias sum per bias layer, each of that layer's bias shape (contents by SumsStep and OneSampleSums) |
| Layers.OneSampleSums | src/network/network.go:88-108 | the sums over a batch of one sample are that sample's backprop slots added onto zero matrices |
| Layers.SumsStep | src/network/network.go:95-108 | proof step for the accumulation loop: the sums up to sample i+1 are the sums up to i with sample i's weight and bias slots added on |
| Layers.Descend | src/network/network.go:110-118 | requires the sum to have the parameter's shape, the library's check for the subtraction; the descent step keeps that shape |
| Layers.DescendKeepsShape | src/network/network.go:110-118 | every layer keeps its shape under a descent step |
| Layers.BatchStep | src/network/network.go:82-119 | a mini-batch leaves the network well-shaped with the same layer sizes |
| Layers.SingleSampleWeightStep | src/network/network.go:110-113 | with a batch of one sample, weights[k] becomes weights[k] - learningRate * (that sample's weight slot k), with no averaging |
| Layers.SingleSampleBiasStep | src/network/network.go:115-118 | with a batch of one sample, biases[k] becomes biases[k] - learningRate * (that sample's bias slot k) |
| Layers.FirstWeightSumZero | src/network/network.go:95-108 | with three or more layers the batch's weight sum in slot 0 stays the zero matrix |
| Layers.FirstBiasSumZero | src/network/network.go:95-108 | with three or more layers the batch's bias sum in slot 0 stays the zero column |
| Layers.FirstLayerFrozen | src/network/network.go:82-119 | with three or more layers a mini-batch leaves weights[0] and biases[0] unchanged |
| Layers.Predicted | src/network/network.go:194-197 | the predicted class is a valid output-layer index |
| Layers.CorrectCount | src/network/network.go:189-207 | the correct count is at most the number of test samples, and 0 for none |
| Layers.TestableExtend | src/network/network.go:193-194 | a fitting prefix of evaluable test samples stays fitting when extended by a sample whose input has the input layer's size |
| Layers.CorrectCountStep | src/network/network.go:193-204 | proof step for the test loop: extending the prefix by one sample adds 1 to CorrectCount exactly when that sample's predicted class equals the argmax of its expected output, else 0 |
| Training.Swap | src/network/network.go:69 | positions i and j exchanged, every other position unchanged, same multiset |
| Training.ApplySwaps | src/network/network.go:69 | a series of exchanges keeps the length and the multiset |
| Training.Shuffled | src/network/network.go:67-69 | the data after each epoch's shuffle is a permutation of the original data |
| Training.AllFitPermuted | src/network/network.go:69 | a permutation of samples that fit the network fits it |
| Training.WholeIsMultiple | src/network/network.go:73-74 | x is a whole number of batches (0, B, 2B, ...: the starts the batch loop visits) exactly when x is a multiple of B |
| Training.ShortFinalBatch | src/network/network.go:73-74 | a batch start that is a multiple of B and whose end passes the data length n means n is not a multiple of B |
| Training.EpochFrom | src/network/network.go:73-75 | an epoch keeps the network well-shaped and, with three or more layers, keeps weights[0] and biases[0] |
| Training.EpochStep | src/network/network.go:73-75 | proof step for the batch loop: from a start whose batch end is inside the data, EpochFrom is one BatchStep followed by EpochFrom at that end |
| Training.BatchAdvances | src/network/network.go:73-75 | from a start after whole batches, a batch ending inside the data is one BatchStep of the epoch, and its end again follows whole batches |
| Training.BatchOverruns | src/network/network.go:73-75 | a batch from a start after whole batches that would end past the data leaves the epoch where it is, and the data length is then not a whole number of batches |
| Training.EpochStops | src/network/network.go:73-75 | proof step for the batch loop's exit: at the end of the data, or at a batch whose end would pass it, EpochFrom returns the parameters unchanged |
| Training.ShuffledStep | src/network/network.go:67-69 | proof step for the epoch loop: the data after one more epoch is the previous order with that epoch's exchanges applied |
| Training.Trained | src/network/network.go:67-79 | training keeps the network well-shaped with the same layer sizes |
| Training.TrainedStep | src/network/network.go:67-79 | one more epoch runs EpochFrom from the earlier parameters over the data shuffled once more |
| Training.TrainingKeepsFirstLayer | src/network/network.go:67-79 | with three or more layers, training for any number of epochs, with any shuffles and learning rate, leaves weights[0] and biases[0] as they were |
| NeuralNet.RandomMatrix | src/util/random-matrix.go:11-17 | an r x c dense matrix whose entry (i, j) is draw (m, i, j) of the caller's random source |
| NeuralNet.InitialWeights | src/network/network.go:29-33 | weights[k] is a layerSizes[k+1] x layerSizes[k] matrix, the 2k-th draw |
| NeuralNet.InitialBiases | src/network/network.go:29-35 | biases[k] is a layerSizes[k+1] column, the (2k+1)-th draw |
| NeuralNet.InitialParameters | src/network/network.go:24-39 | a new network is well-shaped with the given layer sizes; weights and biases are drawn alternately, weights first |
| NeuralNet.WriteSlot | src/network/network.go:174-178 | writing layer k's gradients into the state written from k+1 up gives the state written from k up |
| NeuralNet.DeltaStep | src/network/network.go:168-172 | proof step for the backward loop: below the output layer, Delta at k is (W_{k+1}^T delta_{k+1}) times sigma'(z_k), elementwise, which is what newDelta computes |
| NeuralNet.RecurrenceStep | src/network/network.go:167-180 | one iteration of the backward loop takes the state written from m = k+1 up to the state written from k up |
| NeuralNet.OutputStep | src/network/network.go:156-165 | (a_L - y) times sigma'(z_L) is the last layer's error term, and writing it and its weight gradient into the zeroed slots gives the state written from the last layer up |
| NeuralNet.ZeroSlots | src/network/network.go:130-136 | the append loop over EmptyDense builds ZerosLike of the parameters |
| NeuralNet.ForwardPass | src/network/network.go:138-154 | the forward loop of backprop builds exactly ForwardSweep over all layers |
| NeuralNet.BackwardPass | src/network/network.go:156-180 | on zeroed slots and a full sweep the backward pass returns zeros below the first written slot and the per-layer gradients from it up |
| NeuralNet.BackwardRecurrence | src/network/network.go:167-180 | with three or more layers the loop from l = 2 while l < L-1 leaves slot 0 zero and slots 1 .. L-2 holding the gradients |
| NeuralNet.RecurrenceUpdate | src/network/network.go:168-179 | the loop body for l takes the state written from slot L-l up to the state written from L-1-l up |
| NeuralNet.Backprop | src/network/network.go:124-183 | backprop returns exactly BackpropWeights and BackpropBiases of the sample |
| NeuralNet.AddInto | src/network/network.go:101-107 | with every delta of its sum's shape, the in-place add loop leaves sums[k] + deltas[k] in every slot |
| NeuralNet.AddSample | src/network/network.go:96-107 | one sample's backprop slots added onto the sums of the samples before it give the sums including it |
| NeuralNet.Accumulate | src/network/network.go:88-108 | zeroed sums plus every sample's slots, in order, equal WeightSums and BiasSums of the batch |
| NeuralNet.SumBatch | src/network/network.go:88-108 | halts exactly when the batch end passes the data, naming the first index past it; otherwise returns the batch's sums |
| NeuralNet.Shuffle | src/network/network.go:69 | the in-place exchanges leave ApplySwaps of the old contents, a permutation of them |
| NeuralNet.TrainingLog | src/network/network.go:65-78 | one logged count before training and one per epoch; the last is the correct count of the trained parameters |
| NeuralNet.TrainingLogBounded | src/network/network.go:65-78 | no logged count exceeds the number of test samples |
| NeuralNet.TrainingLogStep | src/network/network.go:77-78 | proof step for the epoch loop: the log after one more epoch is the earlier log with the correct count of the parameters that epoch leaves appended |
| NeuralNet.DrawnAreInitial | src/network/network.go:29-35 | matrices drawn layer by layer in the constructor's order (weights at draw 2k, biases at 2k+1) are exactly InitialParameters |
| NeuralNet.Network.constructor | src/network/network.go:24-39 | the new network is well-shaped with the given layer sizes and holds InitialParameters |
| NeuralNet.Network.FeedForward | src/network/network.go:41-61 | stops with InputLengthMismatch exactly when the input's row count is not layerSizes[0]; otherwise returns Activation of the last layer, an output-size column |
| NeuralNet.Network.ProcessTrainingBatch | src/network/network.go:82-119 | halts, with the parameters unchanged, exactly when the batch end passes the data; otherwise the parameters become BatchStep of the old ones |
| NeuralNet.Network.ApplyBatch | src/network/network.go:110-118 | with the batch's sums in hand the parameters become BatchStep of the old ones |
| NeuralNet.Network.SubtractScaled | src/network/network.go:110-118 | with every sum of its matrix's shape, every weight and bias becomes itself minus learningRate / (end - start) times its sum (DescendEach) |
| NeuralNet.Network.Classify | src/network/network.go:194-201 | one test sample: halts with InputLengthMismatch exactly when its input has the wrong length; otherwise true exactly when its predicted class equals the argmax of its expected output |
| NeuralNet.Network.EvaluateTestData | src/network/network.go:189-207 | succeeds exactly when every test input fits, returning CorrectCount; otherwise stops with InputLengthMismatch at an input of the wrong length whose predecessors all fit |
| NeuralNet.Network.NextBatch | src/network/network.go:73-75 | one pass of the batch loop from a start after whole batches: the next start is B later; it halts at index n exactly when that end passes the data, which then is not a whole number of batches, with the parameters EpochFrom of the old ones; otherwise the rest of the epoch from the next start gives what the epoch from this start gives |
| NeuralNet.Network.RunBatches | src/network/network.go:73-75 | the parameters become EpochFrom of the old ones; the epoch completes exactly when n is a whole number of batches (a multiple of B) and otherwise halts at index n |
| NeuralNet.Network.RunEpoch | src/network/network.go:67-75 | one epoch shuffles the data once more and leaves Trained's parameters for one more epoch |
| NeuralNet.Network.Train | src/network/network.go:63-80 | the data stays a permutation of itself; training completes exactly when the test inputs fit and (no epoch runs or n is a multiple of B); completed, the data is Shuffled, the parameters are Trained and the log is TrainingLog; a test input of the wrong length stops before anything changes; a short final batch stops in the first epoch after one shuffle |

## Left out

- The logistic function `rawSigmoid` (network.go:227-229) calls `math.Exp`. It is the
  parameter `sigma`, and no property of it is assumed. So the model does not state that
  outputs lie in (0, 1).
- `float64` arithmetic is modelled as exact real arithmetic: no rounding, overflow,
  infinities or NaN. `math.Inf(-1)` in `MaxIndex` is the `NegInf` bound.
- Randomness. `rand.NormFloat64` in `util.RandomMatrix` becomes a caller-supplied
  function `draw`. `rand.Shuffle`, seeded by `rand.Seed(time.Now().UnixNano())` at the
  start of `Train` (network.go:64), becomes caller-supplied lists of exchanges, one list
  per epoch, each exchange being the swap callback. The model does not state that the draws are standard normal or that every
  permutation is equally likely.
- Logging: `log.Printf` output becomes the returned list of correct counts. `log.Fatalf`
  and the index panic become `Err` and `Halted` results; the process exit is not modelled.
- The linear-algebra library is re-specified by the textbook definitions in `Matrices`.
  Its internals, its storage and the aliasing of `*mat.Dense` values are not modelled.
  Matrices are values, and the in-place `Add`, `Scale` and `Sub` reassign slots of
  sequences.
- The library panics on mismatched dimensions. Every product, sum, difference and
  elementwise product in the model requires fitting operands, and each call proves that
  the check passes. The inputs that make this hold are preconditions: well-shaped
  parameters, training samples whose input and expected output match the first and last
  layers, column inputs to `FeedForward`, and dense expected outputs in test samples.
  The panic on a misfitting input is therefore not modelled.
- NeuralNet.Network.constructor: requires at least two layers, each of positive size. The
  library rejects zero dimensions. A one-layer network can be built in the source, but its
  backprop indexes an empty list, so it is not modelled.
- Layers.SigmoidPrime: its own contract states only the shape. Its entries are stated by
  `Layers.SigmoidPrimeFromSigmoid`.
- NeuralNet.Network.RunBatches and NeuralNet.Network.Train: require `batchSize > 0`. On
  non-empty data the source misbehaves with any other batch size:
  - With 0, the batch loop of network.go:73 does not terminate. `batchIndex` never
    advances, and every batch is empty, so its zero sums are scaled by `learningRate / 0`
    and every weight becomes NaN.
  - With a negative size, each batch end `batchIndex + batchSize` (network.go:74) lies
    below its start, so the batches are empty while nothing overflows. Once that end falls
    below the smallest `int64`, it wraps around to a large positive value. The sample loop
    at network.go:95-96 then reads `trainingData` at the negative start and panics. With
    `batchSize` the smallest `int64`, this is the second batch.
  - With no epochs or no training data the source never enters that loop and any batch
    size would do; the model still requires a positive one.
- NeuralNet.Network.FeedForward: requires a column input (`IsColumn`). An input with more
  than one column is excluded, including one of the wrong length, which the source rejects
  with `log.Fatalf` at network.go:44-45 whatever its column count.
- `src/main/main.go` (dataset loading and command-line wiring) and
  `src/util/dump-matrix.go` (debug printing) are not part of this model.
