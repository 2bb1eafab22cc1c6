/**
  Dense real vectors and matrices, and the handful of operations the one-hidden-layer
  network needs from its linear-algebra library: addition and subtraction, scaling,
  elementwise product, matrix-vector product, the transposed product and the
  outer product. A matrix is a sequence of rows.

  Each operation is a sequence comprehension characterised in its contract entry by
  entry; the inner product is a running sum over an index, so that no proof about it
  needs to slice a vector.
 */
module LinAlg {

  type Vector = seq<real>
  type Matrix = seq<seq<real>>

  /** `m` has `rows` rows, each of length `cols`. */
  predicate IsMatrix(m: Matrix, rows: nat, cols: nat) {
    |m| == rows && forall i :: 0 <= i < |m| ==> |m[i]| == cols
  }

  /** Every entry of `v` is zero. */
  predicate IsZero(v: Vector) {
    forall i :: 0 <= i < |v| ==> v[i] == 0.0
  }

  /** The zero vector of length `n`. */
  function Zeros(n: nat): (r: Vector)
    ensures |r| == n && IsZero(r)
  {
    seq(n, _ => 0.0)
  }

  /** The zero matrix with `rows` rows and `cols` columns. */
  function ZeroMatrix(rows: nat, cols: nat): (r: Matrix)
    ensures IsMatrix(r, rows, cols)
    ensures forall i {:trigger r[i]} :: 0 <= i < rows ==> IsZero(r[i])
  {
    seq(rows, _ => Zeros(cols))
  }

  /** Vector addition `u + v`. */
  function Add(u: Vector, v: Vector): (r: Vector)
    requires |u| == |v|
    ensures |r| == |u|
    ensures forall i {:trigger r[i]} :: 0 <= i < |r| ==> r[i] == u[i] + v[i]
  {
    seq(|u|, i requires 0 <= i < |u| => u[i] + v[i])
  }

  /** Vector subtraction `u - v`. */
  function Sub(u: Vector, v: Vector): (r: Vector)
    requires |u| == |v|
    ensures |r| == |u|
    ensures forall i {:trigger r[i]} :: 0 <= i < |r| ==> r[i] == u[i] - v[i]
  {
    seq(|u|, i requires 0 <= i < |u| => u[i] - v[i])
  }

  /** Vector times scalar, `v * c`. */
  function Scale(v: Vector, c: real): (r: Vector)
    ensures |r| == |v|
    ensures forall i {:trigger r[i]} :: 0 <= i < |r| ==> r[i] == v[i] * c
  {
    seq(|v|, i requires 0 <= i < |v| => v[i] * c)
  }

  /** Elementwise (Hadamard) product `u ⊙ v`. */
  function Hadamard(u: Vector, v: Vector): (r: Vector)
    requires |u| == |v|
    ensures |r| == |u|
    ensures forall i {:trigger r[i]} :: 0 <= i < |r| ==> r[i] == u[i] * v[i]
  {
    seq(|u|, i requires 0 <= i < |u| => u[i] * v[i])
  }

  /** Inner product `u · v`. */
  function Dot(u: Vector, v: Vector): real
    requires |u| == |v|
  {
    DotPrefix(u, v, |u|)
  }

  /** The sum of `u[k] * v[k]` over the first `n` indices `k`. */
  function DotPrefix(u: Vector, v: Vector, n: nat): real
    requires n <= |u| == |v|
    decreases n
  {
    if n == 0 then 0.0 else DotPrefix(u, v, n - 1) + u[n - 1] * v[n - 1]
  }

  /** Column `j` of `m`. */
  function Column(m: Matrix, j: nat): (c: Vector)
    requires forall i :: 0 <= i < |m| ==> j < |m[i]|
    ensures |c| == |m|
    ensures forall i {:trigger c[i]} :: 0 <= i < |m| ==> c[i] == m[i][j]
  {
    seq(|m|, i requires 0 <= i < |m| => m[i][j])
  }

  /** The transpose of a matrix with `cols` columns. */
  function Transpose(m: Matrix, cols: nat): (t: Matrix)
    requires IsMatrix(m, |m|, cols)
    ensures IsMatrix(t, cols, |m|)
    ensures forall j {:trigger t[j]} :: 0 <= j < cols ==> t[j] == Column(m, j)
  {
    seq(cols, j requires 0 <= j < cols => Column(m, j))
  }

  /** Matrix-vector product `m * v`: entry `i` is row `i` of `m` dotted with `v`. */
  function MatVec(m: Matrix, v: Vector): (r: Vector)
    requires IsMatrix(m, |m|, |v|)
    ensures |r| == |m|
    ensures forall i {:trigger r[i]} :: 0 <= i < |m| ==> r[i] == Dot(m[i], v)
  {
    seq(|m|, i requires 0 <= i < |m| => Dot(m[i], v))
  }

  /**
    Transposed product `mᵀ * v` of a matrix with `|v|` rows and `cols` columns,
    computed without building the transpose: entry `j` is column `j` of `m`
    dotted with `v`.
   */
  function TrMul(m: Matrix, v: Vector, cols: nat): (r: Vector)
    requires IsMatrix(m, |v|, cols)
    ensures |r| == cols
    ensures forall j {:trigger r[j]} :: 0 <= j < cols ==> r[j] == Dot(Column(m, j), v)
  {
    seq(cols, j requires 0 <= j < cols => Dot(Column(m, j), v))
  }

  /** Outer product `g * vᵀ`: a `|g|` by `|v|` matrix with entry `(i, j)` equal to `g[i] * v[j]`. */
  function Outer(g: Vector, v: Vector): (r: Matrix)
    ensures IsMatrix(r, |g|, |v|)
    ensures forall i, j {:trigger r[i][j]} :: 0 <= i < |g| && 0 <= j < |v| ==> r[i][j] == g[i] * v[j]
  {
    seq(|g|, i requires 0 <= i < |g| => seq(|v|, j requires 0 <= j < |v| => g[i] * v[j]))
  }

  /** Matrix addition `a + b` of two matrices of the same shape. */
  function MatAdd(a: Matrix, b: Matrix): (r: Matrix)
    requires |a| == |b|
    requires forall i :: 0 <= i < |a| ==> |a[i]| == |b[i]|
    ensures |r| == |a|
    ensures forall i {:trigger r[i]} :: 0 <= i < |a| ==> r[i] == Add(a[i], b[i])
  {
    seq(|a|, i requires 0 <= i < |a| => Add(a[i], b[i]))
  }

  // Algebraic facts about Dot used by the training properties.

  /** A vector dotted with the zero vector is zero. */
  lemma DotZeroRight(u: Vector, z: Vector)
    requires |u| == |z| && IsZero(z)
    ensures Dot(u, z) == 0.0
  {
    DotPrefixZeroRight(u, z, |u|);
  }

  /** Every prefix sum against the zero vector is zero. */
  lemma {:induction false} DotPrefixZeroRight(u: Vector, z: Vector, n: nat)
    requires n <= |u| == |z| && IsZero(z)
    ensures DotPrefix(u, z, n) == 0.0
  {
    if n > 0 {
      DotPrefixZeroRight(u, z, n - 1);
    }
  }

  /** The zero vector dotted with any vector is zero. */
  lemma DotZeroLeft(z: Vector, v: Vector)
    requires |z| == |v| && IsZero(z)
    ensures Dot(z, v) == 0.0
  {
    DotPrefixZeroLeft(z, v, |z|);
  }

  /** Every prefix sum of the zero vector against any vector is zero. */
  lemma {:induction false} DotPrefixZeroLeft(z: Vector, v: Vector, n: nat)
    requires n <= |z| == |v| && IsZero(z)
    ensures DotPrefix(z, v, n) == 0.0
  {
    if n > 0 {
      DotPrefixZeroLeft(z, v, n - 1);
    }
  }

  /** Dot distributes over addition on the left. */
  lemma DotAddLeft(a: Vector, b: Vector, v: Vector)
    requires |a| == |b| == |v|
    ensures Dot(Add(a, b), v) == Dot(a, v) + Dot(b, v)
  {
    DotPrefixAddLeft(a, b, v, |a|);
  }

  /** `DotAddLeft` for every prefix. */
  lemma {:induction false} DotPrefixAddLeft(a: Vector, b: Vector, v: Vector, n: nat)
    requires n <= |a| == |b| == |v|
    ensures DotPrefix(Add(a, b), v, n) == DotPrefix(a, v, n) + DotPrefix(b, v, n)
  {
    if n > 0 {
      DotPrefixAddLeft(a, b, v, n - 1);
      var k := n - 1;
      assert Add(a, b)[k] * v[k] == a[k] * v[k] + b[k] * v[k];
    }
  }

  /** A scalar factor on the left argument comes out of Dot. */
  lemma DotScaleLeft(g: Vector, c: real, v: Vector)
    requires |g| == |v|
    ensures Dot(Scale(g, c), v) == c * Dot(g, v)
  {
    DotPrefixScaleLeft(g, c, v, |g|);
  }

  /** `DotScaleLeft` for every prefix. */
  lemma {:induction false} DotPrefixScaleLeft(g: Vector, c: real, v: Vector, n: nat)
    requires n <= |g| == |v|
    ensures DotPrefix(Scale(g, c), v, n) == c * DotPrefix(g, v, n)
  {
    if n > 0 {
      DotPrefixScaleLeft(g, c, v, n - 1);
      var k := n - 1;
      assert Scale(g, c)[k] * v[k] == c * (g[k] * v[k]);
    }
  }

  /**
    Transposed product distributes over a rank-one update of the matrix:
    `(m + g vᵀ)ᵀ e == mᵀ e + v * (g · e)`.
   */
  lemma TrMulOfOuterUpdate(m: Matrix, g: Vector, v: Vector, e: Vector)
    requires IsMatrix(m, |e|, |v|) && |g| == |e|
    ensures TrMul(MatAdd(m, Outer(g, v)), e, |v|) == Add(TrMul(m, e, |v|), Scale(v, Dot(g, e)))
  {
    var lhs := TrMul(MatAdd(m, Outer(g, v)), e, |v|);
    var rhs := Add(TrMul(m, e, |v|), Scale(v, Dot(g, e)));
    forall j | 0 <= j < |v|
      ensures lhs[j] == rhs[j]
    {
      TrMulOfOuterUpdateAt(m, g, v, e, j);
    }
  }

  /** Entry `j` of `TrMulOfOuterUpdate`: column `j` of the update contributes `v[j] * (g · e)` more. */
  lemma TrMulOfOuterUpdateAt(m: Matrix, g: Vector, v: Vector, e: Vector, j: nat)
    requires IsMatrix(m, |e|, |v|) && |g| == |e| && j < |v|
    ensures Dot(Column(MatAdd(m, Outer(g, v)), j), e) == Dot(Column(m, j), e) + v[j] * Dot(g, e)
  {
    var c := v[j];
    ColumnOfOuterUpdate(m, g, v, j);
    DotOfShift(Column(MatAdd(m, Outer(g, v)), j), Column(m, j), g, c, e);
  }

  /** A vector shifted by `c` times `g` has its dot product with `e` shifted by `c * (g · e)`. */
  lemma DotOfShift(u: Vector, w: Vector, g: Vector, c: real, e: Vector)
    requires |w| == |g| == |e| && u == Add(w, Scale(g, c))
    ensures Dot(u, e) == Dot(w, e) + c * Dot(g, e)
  {
    DotAddLeft(w, Scale(g, c), e);
    DotScaleLeft(g, c, e);
  }

  /** Column `j` of `m + g vᵀ` is column `j` of `m` plus `g` scaled by `v[j]`. */
  lemma ColumnOfOuterUpdate(m: Matrix, g: Vector, v: Vector, j: nat)
    requires IsMatrix(m, |g|, |v|) && j < |v|
    ensures Column(MatAdd(m, Outer(g, v)), j) == Add(Column(m, j), Scale(g, v[j]))
  {
    var lhs := Column(MatAdd(m, Outer(g, v)), j);
    var rhs := Add(Column(m, j), Scale(g, v[j]));
    forall i | 0 <= i < |g|
      ensures lhs[i] == rhs[i]
    {
      OuterUpdateEntry(m, g, v, i, j);
    }
  }

  /** Entry `(i, j)` of `m + g vᵀ`. */
  lemma OuterUpdateEntry(m: Matrix, g: Vector, v: Vector, i: nat, j: nat)
    requires IsMatrix(m, |g|, |v|) && i < |g| && j < |v|
    ensures MatAdd(m, Outer(g, v))[i][j] == m[i][j] + g[i] * v[j]
  {
  }

  /** The transposed product agrees with the ordinary product by the explicit transpose. */
  lemma TrMulIsTransposeProduct(m: Matrix, v: Vector, cols: nat)
    requires IsMatrix(m, |v|, cols)
    ensures TrMul(m, v, cols) == MatVec(Transpose(m, cols), v)
  {
    var t := Transpose(m, cols);
    forall j | 0 <= j < cols
      ensures t[j] == Column(m, j)
    {
    }
  }
}
