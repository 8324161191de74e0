/** Dense real matrices: the operations the network takes from its linear-algebra
    library (multiply, add, subtract, elementwise multiply, scale, transpose, elementwise
    map, column view), given their textbook definitions. A float64 is modelled as a real.
    The library panics when the operands of a sum, difference, elementwise product or
    product do not fit together; those operations require fitting operands here, so every
    call in the network proves the library's check passes. */
module Matrices {

  /** A matrix stored row by row. */
  type Matrix = seq<seq<real>>

  function Rows(m: Matrix): nat { |m| }

  /** The length of the first row; 0 for a matrix without rows. */
  function Cols(m: Matrix): nat { if |m| == 0 then 0 else |m[0]| }

  /** `m` has `r` rows and its first row has `c` entries. */
  predicate HasShape(m: Matrix, r: int, c: int) {
    |m| == r && Cols(m) == c
  }

  /** A rectangular matrix with at least one row and one column, as every library Dense is. */
  predicate IsDense(m: Matrix) {
    |m| > 0 && |m[0]| > 0 && forall i :: 0 <= i < |m| ==> |m[i]| == |m[0]|
  }

  /** A rectangular `r` x `c` matrix. */
  predicate Dims(m: Matrix, r: int, c: int) {
    HasShape(m, r, c) && IsDense(m)
  }

  /** A column vector (one column) of any positive length. */
  predicate IsColumn(m: Matrix) { Dims(m, |m|, 1) }

  /** Entry (i, j), or 0 outside the matrix (a row shorter than the first one). */
  function At(m: Matrix, i: int, j: int): real {
    if 0 <= i < |m| && 0 <= j < |m[i]| then m[i][j] else 0.0
  }

  function Zero(r: nat, c: nat): (z: Matrix)
    ensures |z| == r && (r > 0 ==> Cols(z) == c)
    ensures r > 0 && c > 0 ==> Dims(z, r, c)
  {
    seq(r, i => seq(c, j => 0.0))
  }

  function Add(a: Matrix, b: Matrix): (s: Matrix)
    requires HasShape(b, |a|, Cols(a))
    ensures |s| == |a| && Cols(s) == Cols(a)
    ensures IsDense(a) ==> Dims(s, |a|, Cols(a))
  {
    seq(|a|, i => seq(Cols(a), j => At(a, i, j) + At(b, i, j)))
  }

  function Sub(a: Matrix, b: Matrix): (s: Matrix)
    requires HasShape(b, |a|, Cols(a))
    ensures |s| == |a| && Cols(s) == Cols(a)
    ensures IsDense(a) ==> Dims(s, |a|, Cols(a))
  {
    seq(|a|, i => seq(Cols(a), j => At(a, i, j) - At(b, i, j)))
  }

  /** Elementwise (Hadamard) product. */
  function MulElem(a: Matrix, b: Matrix): (s: Matrix)
    requires HasShape(b, |a|, Cols(a))
    ensures |s| == |a| && Cols(s) == Cols(a)
    ensures IsDense(a) ==> Dims(s, |a|, Cols(a))
  {
    seq(|a|, i => seq(Cols(a), j => At(a, i, j) * At(b, i, j)))
  }

  function Scale(f: real, a: Matrix): (s: Matrix)
    ensures |s| == |a| && Cols(s) == Cols(a)
    ensures IsDense(a) ==> Dims(s, |a|, Cols(a))
  {
    seq(|a|, i => seq(Cols(a), j => f * At(a, i, j)))
  }

  /** Applies `f` to every entry. */
  function Apply(f: real -> real, a: Matrix): (s: Matrix)
    ensures |s| == |a| && Cols(s) == Cols(a)
    ensures IsDense(a) ==> Dims(s, |a|, Cols(a))
  {
    seq(|a|, i => seq(Cols(a), j => f(At(a, i, j))))
  }

  /** Transpose. */
  function T(a: Matrix): (t: Matrix)
    ensures |t| == Cols(a) && (Cols(a) > 0 ==> Cols(t) == |a|)
  {
    seq(Cols(a), i => seq(|a|, j => At(a, j, i)))
  }

  /** The sum of a(i, t) * b(t, j) over t < k. */
  function DotPrefix(a: Matrix, b: Matrix, i: int, j: int, k: nat): real {
    if k == 0 then 0.0 else DotPrefix(a, b, i, j, k - 1) + At(a, i, k - 1) * At(b, k - 1, j)
  }

  /** Matrix product: a's column count must be b's row count. */
  function Mul(a: Matrix, b: Matrix): (p: Matrix)
    requires Cols(a) == |b|
    ensures |p| == |a| && (|a| > 0 ==> Cols(p) == Cols(b))
    ensures |a| > 0 && Cols(b) > 0 ==> Dims(p, |a|, Cols(b))
  {
    seq(|a|, i => seq(Cols(b), j => DotPrefix(a, b, i, j, Cols(a))))
  }

  /** Column `c` as a vector. */
  function Column(m: Matrix, c: nat): (v: seq<real>)
    ensures |v| == |m|
  {
    seq(|m|, i => At(m, i, c))
  }

  /** Two matrices of one shape with the same entries are equal. */
  lemma SameEntries(a: Matrix, b: Matrix, r: int, c: int)
    requires Dims(a, r, c) && Dims(b, r, c)
    requires forall i, j :: 0 <= i < r && 0 <= j < c ==> a[i][j] == b[i][j]
    ensures a == b
  {
    forall i | 0 <= i < r
      ensures a[i] == b[i]
    {
    }
  }

  lemma AddZeroLeft(g: Matrix, r: int, c: int)
    requires Dims(g, r, c)
    ensures Add(Zero(r, c), g) == g
  {
    SameEntries(Add(Zero(r, c), g), g, r, c);
  }

  lemma ScaleZero(f: real, r: int, c: int)
    requires r > 0 && c > 0
    ensures Scale(f, Zero(r, c)) == Zero(r, c)
  {
    SameEntries(Scale(f, Zero(r, c)), Zero(r, c), r, c);
  }

  lemma SubZero(w: Matrix, r: int, c: int)
    requires Dims(w, r, c)
    ensures Sub(w, Zero(r, c)) == w
  {
    SameEntries(Sub(w, Zero(r, c)), w, r, c);
  }
}
