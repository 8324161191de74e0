/** The schedule of the training loop as pure definitions: the shuffle as a list of
    exchanges, the parameters an epoch and a run of epochs produce, and the arithmetic
    that decides whether every batch of an epoch stays inside the data. */
module Training {
  import opened Matrices
  import opened Layers

  /** Every exchange names two positions of a sequence of length n. */
  predicate SwapsInRange(swaps: seq<(int, int)>, n: int) {
    forall k :: 0 <= k < |swaps| ==> 0 <= swaps[k].0 < n && 0 <= swaps[k].1 < n
  }

  /** Positions i and j exchanged. */
  function Swap<T>(s: seq<T>, i: int, j: int): (r: seq<T>)
    requires 0 <= i < |s| && 0 <= j < |s|
    ensures |r| == |s| && r[i] == s[j] && r[j] == s[i]
    ensures forall k :: 0 <= k < |s| && k != i && k != j ==> r[k] == s[k]
    ensures multiset(r) == multiset(s)
  {
    s[i := s[j]][j := s[i]]
  }

  /** The order after exchanging the given pairs of positions, first pair first. */
  function ApplySwaps<T>(s: seq<T>, swaps: seq<(int, int)>): (r: seq<T>)
    requires SwapsInRange(swaps, |s|)
    ensures |r| == |s|
    ensures multiset(r) == multiset(s)
    decreases |swaps|
  {
    if |swaps| == 0 then s
    else ApplySwaps(Swap(s, swaps[0].0, swaps[0].1), swaps[1..])
  }

  /** Every epoch's exchanges name positions of the data. */
  predicate AllSwapsInRange(swaps: seq<seq<(int, int)>>, n: int) {
    forall e :: 0 <= e < |swaps| ==> SwapsInRange(swaps[e], n)
  }

  /** The data after one shuffle per epoch, the epochs' exchanges applied in order. */
  function Shuffled<T>(data: seq<T>, swaps: seq<seq<(int, int)>>): (r: seq<T>)
    requires AllSwapsInRange(swaps, |data|)
    ensures |r| == |data|
    ensures multiset(r) == multiset(data)
    decreases |swaps|
  {
    if |swaps| == 0 then data
    else ApplySwaps(Shuffled(data, swaps[..|swaps| - 1]), swaps[|swaps| - 1])
  }

  /** A permutation of samples that all fit the network holds samples that all fit. */
  lemma AllFitPermuted(layerSizes: seq<int>, a: seq<DataSample>, b: seq<DataSample>)
    requires AllFit(layerSizes, a) && multiset(a) == multiset(b)
    ensures AllFit(layerSizes, b)
  {
    forall i | 0 <= i < |b|
      ensures Fits(layerSizes, b[i])
    {
      assert b[i] in multiset(a);
    }
  }

  lemma {:induction false} MulAtLeast(d: int, b: int)
    requires d >= 1 && b > 0
    ensures d * b >= b
    decreases d
  {
    if d > 1 {
      MulAtLeast(d - 1, b);
      assert d * b == (d - 1) * b + b;
    }
  }

  /** Quotient and remainder are determined by x == q * b + r with 0 <= r < b. */
  lemma DivModUnique(x: int, b: int, q: int, r: int)
    requires b > 0 && 0 <= r < b && x == q * b + r
    ensures x / b == q && x % b == r
  {
    var q0, r0 := x / b, x % b;
    assert x == q0 * b + r0;
    if q0 > q {
      MulAtLeast(q0 - q, b);
      assert false;
    } else if q0 < q {
      MulAtLeast(q - q0, b);
      assert false;
    }
  }

  /** The first batch starts at a multiple of b. */
  lemma ZeroRemainder(b: int)
    requires b > 0
    ensures 0 % b == 0
  {
    DivModUnique(0, b, 0, 0);
  }

  /** Adding b to x keeps its remainder modulo b. */
  lemma ModStep(x: int, b: int, y: int)
    requires b > 0 && y == x + b
    ensures y % b == x % b
  {
    assert y == (x / b + 1) * b + x % b;
    DivModUnique(y, b, x / b + 1, x % b);
  }

  /** A multiple of b below n whose batch would end past n: then n is not a multiple of b,
      the remainder being the samples of the short final batch. */
  lemma ShortFinalBatch(start: int, n: int, b: int)
    requires b > 0 && start % b == 0 && start < n < start + b
    ensures n % b != 0
  {
    assert start == (start / b) * b;
    DivModUnique(n, b, start / b, n - start);
  }

  /** x is a whole number of batches of b: 0, b, 2b, ... These are the starts of the batch
      loop, and the data lengths it runs through without a short final batch. */
  predicate Whole(x: int, b: int)
    requires b > 0
    decreases x
  {
    x == 0 || (x >= b && Whole(x - b, b))
  }

  /** Whole numbers of batches are exactly the multiples of b. */
  lemma {:induction false} WholeIsMultiple(x: int, b: int)
    requires b > 0 && x >= 0
    ensures Whole(x, b) <==> x % b == 0
    decreases x
  {
    if x >= b {
      WholeIsMultiple(x - b, b);
      ModStep(x - b, b, x);
    } else if x > 0 {
      DivModUnique(x, b, 0, x);
    } else {
      ZeroRemainder(b);
    }
  }

  /** The end of the batch that starts at `start`: b samples later, never clamped to the
      length of the data. */
  function BatchEnd(start: nat, b: nat): nat {
    start + b
  }

  /** The parameters one epoch leaves, from the batch starting at `start` on: one
      BatchStep per batch of b samples; at a batch that would read past the data the
      program halts, and the parameters are those from before that batch. With three or
      more layers no batch changes the first layer, so neither does the epoch. */
  function EpochFrom(sigma: real -> real, p: Parameters, data: seq<DataSample>, start: nat, b: nat,
                     learningRate: real): (q: Parameters)
    requires WellShaped(p) && AllFit(p.layerSizes, data) && b > 0
    ensures WellShaped(q) && q.layerSizes == p.layerSizes
    ensures |p.layerSizes| >= 3 ==> q.weights[0] == p.weights[0] && q.biases[0] == p.biases[0]
    decreases |data| - start
  {
    if start >= |data| || BatchEnd(start, b) > |data| then p
    else
      FirstLayerFrozen(sigma, p, data, start, BatchEnd(start, b), learningRate);
      EpochFrom(sigma, BatchStep(sigma, p, data, start, BatchEnd(start, b), learningRate), data, BatchEnd(start, b), b,
                learningRate)
  }

  /** A batch that fits inside the data is one BatchStep, and the epoch goes on from the
      next start. */
  lemma EpochStep(sigma: real -> real, p: Parameters, data: seq<DataSample>, start: nat, b: nat,
                  learningRate: real)
    requires WellShaped(p) && AllFit(p.layerSizes, data) && b > 0
    requires start < |data| && BatchEnd(start, b) <= |data|
    ensures BatchFits(p.layerSizes, data, start, BatchEnd(start, b))
    ensures EpochFrom(sigma, p, data, start, b, learningRate)
         == EpochFrom(sigma, BatchStep(sigma, p, data, start, BatchEnd(start, b), learningRate), data, BatchEnd(start, b),
                      b, learningRate)
  {
  }

  /** From a start at or past the end of the data, or at a batch that would read past it,
      the epoch leaves the parameters as they are. */
  lemma EpochStops(sigma: real -> real, p: Parameters, data: seq<DataSample>, start: nat, b: nat,
                   learningRate: real)
    requires WellShaped(p) && AllFit(p.layerSizes, data) && b > 0
    requires start >= |data| || BatchEnd(start, b) > |data|
    ensures EpochFrom(sigma, p, data, start, b, learningRate) == p
  {
  }

  /** A batch from a start that follows whole batches to an end inside the data is one
      BatchStep of the epoch, which goes on from that end; the end again follows whole
      batches. */
  lemma BatchAdvances(sigma: real -> real, p: Parameters, data: seq<DataSample>, start: nat, b: nat,
                      learningRate: real)
    requires WellShaped(p) && AllFit(p.layerSizes, data) && b > 0
    requires Whole(start, b) && BatchEnd(start, b) <= |data|
    ensures Whole(BatchEnd(start, b), b)
    ensures EpochFrom(sigma, BatchStep(sigma, p, data, start, BatchEnd(start, b), learningRate), data, BatchEnd(start, b),
                      b, learningRate)
         == EpochFrom(sigma, p, data, start, b, learningRate)
  {
    EpochStep(sigma, p, data, start, b, learningRate);
  }

  /** A batch that starts after whole batches inside the data but would end past it: the
      epoch stops there, and the data length is not a whole number of batches. */
  lemma BatchOverruns(sigma: real -> real, p: Parameters, data: seq<DataSample>, start: nat, b: nat,
                      learningRate: real)
    requires WellShaped(p) && AllFit(p.layerSizes, data) && b > 0
    requires Whole(start, b) && start < |data| < BatchEnd(start, b)
    ensures !Whole(|data|, b)
    ensures EpochFrom(sigma, p, data, start, b, learningRate) == p
  {
    EpochStops(sigma, p, data, start, b, learningRate);
    WholeIsMultiple(start, b);
    ShortFinalBatch(start, |data|, b);
    WholeIsMultiple(|data|, b);
  }

  /** The parameters after one epoch per list of exchanges: each epoch shuffles the data
      further and then runs its batches over the shuffled order. When the data length is
      not a whole number of batches the program stops inside the first epoch, so only the
      first epoch describes a run it makes; later ones are never reached. */
  function Trained(sigma: real -> real, p: Parameters, data: seq<DataSample>, swaps: seq<seq<(int, int)>>,
                   b: nat, learningRate: real): (q: Parameters)
    requires WellShaped(p) && AllFit(p.layerSizes, data) && b > 0
    requires AllSwapsInRange(swaps, |data|)
    ensures WellShaped(q) && q.layerSizes == p.layerSizes
    decreases |swaps|
  {
    if |swaps| == 0 then p
    else
      var prev := Trained(sigma, p, data, swaps[..|swaps| - 1], b, learningRate);
      AllFitPermuted(p.layerSizes, data, Shuffled(data, swaps));
      EpochFrom(sigma, prev, Shuffled(data, swaps), 0, b, learningRate)
  }

  /** One more epoch's exchanges shuffle the previous order further; the prefixes of an
      in-range list of shuffles are in range. */
  lemma ShuffledStep<T>(data: seq<T>, swaps: seq<seq<(int, int)>>, e: nat)
    requires AllSwapsInRange(swaps, |data|) && e < |swaps|
    ensures AllSwapsInRange(swaps[..e], |data|) && AllSwapsInRange(swaps[..e + 1], |data|)
    ensures SwapsInRange(swaps[e], |data|)
    ensures Shuffled(data, swaps[..e + 1]) == ApplySwaps(Shuffled(data, swaps[..e]), swaps[e])
  {
    assert swaps[..e + 1][..e] == swaps[..e];
  }

  /** Training for one more epoch runs that epoch's batches, from the parameters the
      earlier epochs left, over the data shuffled once more. */
  lemma TrainedStep(sigma: real -> real, p: Parameters, data: seq<DataSample>, swaps: seq<seq<(int, int)>>,
                    e: nat, b: nat, learningRate: real)
    requires WellShaped(p) && AllFit(p.layerSizes, data) && b > 0
    requires AllSwapsInRange(swaps, |data|) && e < |swaps|
    ensures AllSwapsInRange(swaps[..e], |data|) && AllSwapsInRange(swaps[..e + 1], |data|)
    ensures AllFit(p.layerSizes, Shuffled(data, swaps[..e + 1]))
    ensures Trained(sigma, p, data, swaps[..e + 1], b, learningRate)
         == EpochFrom(sigma, Trained(sigma, p, data, swaps[..e], b, learningRate),
                      Shuffled(data, swaps[..e + 1]), 0, b, learningRate)
  {
    ShuffledStep(data, swaps, e);
    AllFitPermuted(p.layerSizes, data, Shuffled(data, swaps[..e + 1]));
    assert swaps[..e + 1][..e] == swaps[..e];
  }

  /** With three or more layers training never changes the first weight layer or its
      biases, whatever the epochs, the shuffles and the learning rate. */
  lemma {:induction false} TrainingKeepsFirstLayer(sigma: real -> real, p: Parameters, data: seq<DataSample>,
                                                   swaps: seq<seq<(int, int)>>, b: nat, learningRate: real)
    requires WellShaped(p) && |p.layerSizes| >= 3 && AllFit(p.layerSizes, data) && b > 0
    requires AllSwapsInRange(swaps, |data|)
    ensures Trained(sigma, p, data, swaps, b, learningRate).weights[0] == p.weights[0]
    ensures Trained(sigma, p, data, swaps, b, learningRate).biases[0] == p.biases[0]
    decreases |swaps|
  {
    if |swaps| > 0 {
      var prefix := swaps[..|swaps| - 1];
      assert AllSwapsInRange(prefix, |data|);
      TrainingKeepsFirstLayer(sigma, p, data, prefix, b, learningRate);
      var prev := Trained(sigma, p, data, prefix, b, learningRate);
      AllFitPermuted(p.layerSizes, data, Shuffled(data, swaps));
    }
  }
}
