/**
 * The numpy arrays the trainer uses, over reals: a vector of shape (n,) or a
 * matrix of shape (n, k) stored as rows. Only the element-wise operations
 * that the setup code and `e_x` apply are given.
 */
module NdArrays {

  datatype NdArray =
    | Vec(v: seq<real>)
    | Mat(rows: seq<seq<real>>, cols: nat)

  /** numpy's `.shape` for the arrays used here: (n,) or (n, k). */
  datatype Shape = Shape1(n: nat) | Shape2(n: nat, k: nat)

  /** Some dimension of the shape is zero. */
  predicate HasZero(d: Shape) {
    d.n == 0 || (d.Shape2? && d.k == 0)
  }

  /** numpy's `.shape`. */
  function Dims(a: NdArray): (d: Shape)
    ensures d.Shape1? <==> a.Vec?
  {
    match a
    case Vec(v) => Shape1(|v|)
    case Mat(rows, cols) => Shape2(|rows|, cols)
  }

  /** Every row of a matrix has `cols` entries (numpy arrays are never ragged). */
  predicate WellFormed(a: NdArray) {
    a.Mat? ==> forall i :: 0 <= i < |a.rows| ==> |a.rows[i]| == a.cols
  }

  /** The array has no entry at all: some dimension is zero. */
  predicate Empty(a: NdArray) {
    HasZero(Dims(a))
  }

  /** `np.all(a > 0)` */
  predicate AllPositive(a: NdArray)
    requires WellFormed(a)
  {
    match a
    case Vec(v) => forall i :: 0 <= i < |v| ==> v[i] > 0.0
    case Mat(rows, cols) => forall i, j :: 0 <= i < |rows| && 0 <= j < cols ==> rows[i][j] > 0.0
  }

  /** No entry is zero, so that dividing by the array is defined. */
  predicate NoZero(a: NdArray)
    requires WellFormed(a)
  {
    match a
    case Vec(v) => forall i :: 0 <= i < |v| ==> v[i] != 0.0
    case Mat(rows, cols) => forall i, j :: 0 <= i < |rows| && 0 <= j < cols ==> rows[i][j] != 0.0
  }

  /** Every entry lies in the half-open interval [lo, hi). */
  predicate Within(a: NdArray, lo: real, hi: real)
    requires WellFormed(a)
  {
    match a
    case Vec(v) => forall i :: 0 <= i < |v| ==> lo <= v[i] < hi
    case Mat(rows, cols) => forall i, j :: 0 <= i < |rows| && 0 <= j < cols ==> lo <= rows[i][j] < hi
  }

  /** Every entry equals x. */
  predicate Constant(a: NdArray, x: real)
    requires WellFormed(a)
  {
    match a
    case Vec(v) => forall i :: 0 <= i < |v| ==> v[i] == x
    case Mat(rows, cols) => forall i, j :: 0 <= i < |rows| && 0 <= j < cols ==> rows[i][j] == x
  }

  /** q is the element-wise quotient s / d: same shape, and q * d == s entry by entry. */
  predicate IsQuotient(q: NdArray, s: NdArray, d: NdArray)
    requires WellFormed(q) && WellFormed(s) && WellFormed(d)
  {
    Dims(q) == Dims(s) == Dims(d) &&
    match q
    case Vec(v) => forall i :: 0 <= i < |v| ==> v[i] * d.v[i] == s.v[i]
    case Mat(rows, cols) =>
      forall i, j :: 0 <= i < |rows| && 0 <= j < cols ==> rows[i][j] * d.rows[i][j] == s.rows[i][j]
  }

  /** An array of the given shape whose entries are all x. */
  function Full(dims: Shape, x: real): (r: NdArray)
    ensures WellFormed(r) && Dims(r) == dims && Constant(r, x)
  {
    match dims
    case Shape1(n) => Vec(seq(n, _ => x))
    case Shape2(n, k) => Mat(seq(n, _ => seq(k, _ => x)), k)
  }

  /** `a[:] = x`: every entry of a overwritten by x, the shape kept. */
  function FillLike(a: NdArray, x: real): (r: NdArray)
    requires WellFormed(a)
    ensures WellFormed(r) && Dims(r) == Dims(a) && Constant(r, x)
  {
    Full(Dims(a), x)
  }

  /** Element-wise `s / d`. */
  function Quotient(s: NdArray, d: NdArray): (q: NdArray)
    requires WellFormed(s) && WellFormed(d) && Dims(s) == Dims(d) && NoZero(d)
    ensures WellFormed(q) && IsQuotient(q, s, d)
  {
    match s
    case Vec(v) => Vec(seq(|v|, i requires 0 <= i < |v| => v[i] / d.v[i]))
    case Mat(rows, cols) =>
      Mat(seq(|rows|, i requires 0 <= i < |rows| =>
            seq(cols, j requires 0 <= j < cols => rows[i][j] / d.rows[i][j])), cols)
  }

  /** Sum of a row of reals. */
  function Sum(s: seq<real>): real {
    if s == [] then 0.0 else s[0] + Sum(s[1..])
  }

  lemma {:induction false} SumPositive(s: seq<real>)
    requires forall i :: 0 <= i < |s| ==> s[i] > 0.0
    ensures Sum(s) >= 0.0
    ensures |s| > 0 ==> Sum(s) > 0.0
  {
    if s != [] {
      SumPositive(s[1..]);
    }
  }

  /** `m.sum(1)` for a matrix: the vector of its row sums. */
  function RowSums(m: NdArray): (r: NdArray)
    requires m.Mat?
    ensures r.Vec? && |r.v| == |m.rows|
    ensures forall i :: 0 <= i < |m.rows| ==> r.v[i] == Sum(m.rows[i])
  {
    Vec(seq(|m.rows|, i requires 0 <= i < |m.rows| => Sum(m.rows[i])))
  }

  /** `x + v` for a scalar x and a vector v (numpy broadcasting). */
  function AddScalar(x: real, a: NdArray): (r: NdArray)
    requires a.Vec?
    ensures r.Vec? && |r.v| == |a.v|
    ensures forall i :: 0 <= i < |a.v| ==> r.v[i] - a.v[i] == x
  {
    Vec(seq(|a.v|, i requires 0 <= i < |a.v| => x + a.v[i]))
  }

  /** `m * c[:, None]` for a matrix m and a vector c with one entry per row: row i scaled by c[i]. */
  function ScaleRows(m: NdArray, c: NdArray): (r: NdArray)
    requires m.Mat? && WellFormed(m) && c.Vec? && |c.v| == |m.rows|
    ensures r.Mat? && WellFormed(r) && Dims(r) == Dims(m)
    ensures forall i, k :: 0 <= i < |m.rows| && 0 <= k < m.cols ==> r.rows[i][k] == m.rows[i][k] * c.v[i]
  {
    Mat(seq(|m.rows|, i requires 0 <= i < |m.rows| =>
          seq(m.cols, k requires 0 <= k < m.cols => m.rows[i][k] * c.v[i])), m.cols)
  }

  lemma ScaleRowsPositive(m: NdArray, c: NdArray)
    requires m.Mat? && WellFormed(m) && c.Vec? && |c.v| == |m.rows|
    requires AllPositive(m) && AllPositive(c)
    ensures AllPositive(ScaleRows(m, c))
  {
    var r := ScaleRows(m, c);
    forall i, k | 0 <= i < |m.rows| && 0 <= k < m.cols ensures r.rows[i][k] > 0.0 {
      MulPositive(m.rows[i][k], c.v[i]);
    }
  }

  lemma MulPositive(x: real, y: real)
    requires x > 0.0 && y > 0.0
    ensures x * y > 0.0
  {
  }

  /**
   * `np.random.uniform(0.5 * p, 1.5 * p, dims)` for one given draw u of unit
   * uniforms: numpy computes low + (high - low) * u entry by entry, which
   * is p * (0.5 + u).
   */
  function UniformAround(u: NdArray, p: real): (r: NdArray)
    requires WellFormed(u)
    ensures WellFormed(r) && Dims(r) == Dims(u)
  {
    match u
    case Vec(v) => Vec(seq(|v|, i requires 0 <= i < |v| => UniformEntry(p, v[i])))
    case Mat(rows, cols) =>
      Mat(seq(|rows|, i requires 0 <= i < |rows| =>
            seq(cols, j requires 0 <= j < cols => UniformEntry(p, rows[i][j]))), cols)
  }

  /** One uniform entry: numpy's low + (high - low) * x for low = 0.5 p, high = 1.5 p. */
  function UniformEntry(p: real, x: real): real {
    0.5 * p + (1.5 * p - 0.5 * p) * x
  }

  lemma UniformEntryBounds(p: real, x: real)
    requires 0.0 <= x < 1.0
    ensures p > 0.0 ==> 0.5 * p <= UniformEntry(p, x) < 1.5 * p
    ensures UniformEntry(p, x) > 0.0 <==> p > 0.0
  {
    assert UniformEntry(p, x) == p * (0.5 + x);
    if p > 0.0 {
      assert p * x >= 0.0 && p * x < p * 1.0;
    } else {
      assert p * (0.5 + x) <= 0.0;
    }
  }

  /**
   * A draw of unit uniforms stays within [0.5 p, 1.5 p) when p > 0 (or when
   * there is nothing to draw), and the result is all positive exactly when
   * it is empty or p > 0.
   */
  lemma UniformAroundBounds(u: NdArray, p: real)
    requires WellFormed(u) && Within(u, 0.0, 1.0)
    ensures p > 0.0 || Empty(u) ==> Within(UniformAround(u, p), 0.5 * p, 1.5 * p)
    ensures AllPositive(UniformAround(u, p)) <==> Empty(u) || p > 0.0
  {
    var r := UniformAround(u, p);
    match u
    case Vec(v) =>
      forall i | 0 <= i < |v| {
        UniformEntryBounds(p, v[i]);
      }
      assert Empty(u) <==> |v| == 0;
      if |v| > 0 {
        UniformEntryBounds(p, v[0]);
        assert r.v[0] == UniformEntry(p, v[0]);
      }
    case Mat(rows, cols) =>
      forall i, j | 0 <= i < |rows| && 0 <= j < cols {
        UniformEntryBounds(p, rows[i][j]);
      }
      assert Empty(u) <==> |rows| == 0 || cols == 0;
      if |rows| > 0 && cols > 0 {
        UniformEntryBounds(p, rows[0][0]);
        assert r.rows[0][0] == UniformEntry(p, rows[0][0]);
      }
  }

  lemma PositiveNoZero(a: NdArray)
    requires WellFormed(a) && AllPositive(a)
    ensures NoZero(a)
  {
  }

  lemma QuotientPositive(s: NdArray, d: NdArray)
    requires WellFormed(s) && WellFormed(d) && Dims(s) == Dims(d)
    requires AllPositive(s) && AllPositive(d)
    ensures NoZero(d) && AllPositive(Quotient(s, d))
  {
    var q := Quotient(s, d);
    match s
    case Vec(v) =>
      forall i | 0 <= i < |v| ensures q.v[i] > 0.0 {
        DivPositive(v[i], d.v[i]);
      }
    case Mat(rows, cols) =>
      forall i, j | 0 <= i < |rows| && 0 <= j < cols ensures q.rows[i][j] > 0.0 {
        DivPositive(rows[i][j], d.rows[i][j]);
      }
  }

  lemma DivPositive(x: real, y: real)
    requires x > 0.0 && y > 0.0
    ensures x / y > 0.0
  {
  }
}
