/** The two helpers of the util package that the network uses: the first-occurrence
    argmax of a vector and the zero matrix shaped like another. */
module Util {
  import opened Matrices

  /** `k` is the index of a largest entry of `v`, and the first such index. */
  predicate IsFirstMax(v: seq<real>, k: int) {
    && 0 <= k < |v|
    && (forall j :: 0 <= j < |v| ==> v[j] <= v[k])
    && (forall j :: 0 <= j < k ==> v[j] < v[k])
  }

  /** Reference definition of the argmax: scan left to right and move to an entry only
      when it is strictly larger than the best so far; -1 for the empty vector. */
  function ArgMax(v: seq<real>): (k: int)
    ensures |v| == 0 <==> k == -1
    ensures |v| > 0 ==> IsFirstMax(v, k)
  {
    if |v| == 0 then -1
    else
      var best := ArgMax(v[..|v| - 1]);
      if best == -1 || v[|v| - 1] > v[best] then |v| - 1 else best
  }

  /** The running maximum of the scan: minus infinity before any entry is seen. */
  datatype Bound = NegInf | Finite(value: real)

  predicate Exceeds(x: real, b: Bound) {
    b.NegInf? || x > b.value
  }

  /** Index of the largest entry, the first one on ties; -1 when `vec` is empty. */
  method MaxIndex(vec: seq<real>) returns (maxIndex: int)
    ensures maxIndex == ArgMax(vec)
    ensures |vec| == 0 ==> maxIndex == -1
    ensures |vec| > 0 ==> 0 <= maxIndex < |vec|
    ensures |vec| > 0 ==> forall j :: 0 <= j < |vec| ==> vec[j] <= vec[maxIndex]
    ensures |vec| > 0 ==> forall j :: 0 <= j < maxIndex ==> vec[j] < vec[maxIndex]
  {
    var max := NegInf;
    maxIndex := -1;
    var i := 0;
    while i < |vec|
      invariant 0 <= i <= |vec|
      invariant maxIndex == ArgMax(vec[..i])
      invariant max == if maxIndex == -1 then NegInf else Finite(vec[maxIndex])
    {
      assert vec[..i + 1][..i] == vec[..i];
      var value := vec[i];
      if Exceeds(value, max) {
        max := Finite(value);
        maxIndex := i;
      }
      i := i + 1;
    }
    assert vec[..i] == vec;
  }

  /** A zero matrix with the shape of `src`. */
  function EmptyDense(src: Matrix): (z: Matrix)
    requires IsDense(src)
    ensures Rows(z) == Rows(src) && Cols(z) == Cols(src) && IsDense(z)
    ensures forall i, j :: 0 <= i < Rows(z) && 0 <= j < Cols(z) ==> z[i][j] == 0.0
  {
    Zero(Rows(src), Cols(src))
  }
}
