/** Dense real matrices with an explicit shape: the part of numpy the engine relies on.
    Arithmetic is exact over `real`; rounding is not modelled. */
module Matrices {

  /** A two-dimensional array of `rows` rows and `cols` columns. The shape is kept apart from
      the entries so that a matrix with no rows still has a column count, as a numpy array does. */
  datatype Matrix = Matrix(rows: nat, cols: nat, at: seq<seq<real>>)
  {
    /** The entries are `rows` rows of `cols` entries each. */
    predicate Valid() {
      |at| == rows && forall i :: 0 <= i < |at| ==> |at[i]| == cols
    }

    /** An n×1 column vector. */
    predicate IsColumn(n: nat) {
      Valid() && rows == n && cols == 1
    }
  }

  /** The r×c matrix of zeros (`np.zeros`). */
  function Zeros(r: nat, c: nat): (z: Matrix)
    ensures z.Valid() && z.rows == r && z.cols == c
    ensures forall i, j :: 0 <= i < r && 0 <= j < c ==> z.at[i][j] == 0.0
  {
    Matrix(r, c, seq(r, _ => seq(c, _ => 0.0)))
  }

  /** Applies `f` to every entry. */
  function Map(m: Matrix, f: real -> real): (r: Matrix)
    requires m.Valid()
    ensures r.Valid() && r.rows == m.rows && r.cols == m.cols
    ensures forall i, j :: 0 <= i < m.rows && 0 <= j < m.cols ==> r.at[i][j] == f(m.at[i][j])
  {
    Matrix(m.rows, m.cols, MapRows(m.at, f))
  }

  /** Applies `f` to every element of every row. */
  function MapRows(rs: seq<seq<real>>, f: real -> real): (r: seq<seq<real>>)
    ensures |r| == |rs| && forall i :: 0 <= i < |rs| ==> r[i] == SeqMap(rs[i], f)
  {
    if rs == [] then [] else [SeqMap(rs[0], f)] + MapRows(rs[1..], f)
  }

  /** Entrywise sum of two matrices of one shape. */
  function Add(a: Matrix, b: Matrix): (r: Matrix)
    requires a.Valid() && b.Valid() && a.rows == b.rows && a.cols == b.cols
    ensures r.Valid() && r.rows == a.rows && r.cols == a.cols
    ensures forall i, j :: 0 <= i < a.rows && 0 <= j < a.cols ==> r.at[i][j] == a.at[i][j] + b.at[i][j]
  {
    Matrix(a.rows, a.cols,
      seq(a.rows, i requires 0 <= i < a.rows => seq(a.cols, j requires 0 <= j < a.cols => a.at[i][j] + b.at[i][j])))
  }

  /** Entrywise difference of two matrices of one shape. */
  function Sub(a: Matrix, b: Matrix): (r: Matrix)
    requires a.Valid() && b.Valid() && a.rows == b.rows && a.cols == b.cols
    ensures r.Valid() && r.rows == a.rows && r.cols == a.cols
    ensures forall i, j :: 0 <= i < a.rows && 0 <= j < a.cols ==> r.at[i][j] == a.at[i][j] - b.at[i][j]
  {
    Matrix(a.rows, a.cols,
      seq(a.rows, i requires 0 <= i < a.rows => seq(a.cols, j requires 0 <= j < a.cols => a.at[i][j] - b.at[i][j])))
  }

  /** The matrix times the scalar `c`. */
  function Scale(c: real, m: Matrix): (r: Matrix)
    requires m.Valid()
    ensures r.Valid() && r.rows == m.rows && r.cols == m.cols
    ensures forall i, j :: 0 <= i < m.rows && 0 <= j < m.cols ==> r.at[i][j] == c * m.at[i][j]
  {
    Matrix(m.rows, m.cols,
      seq(m.rows, i requires 0 <= i < m.rows => seq(m.cols, j requires 0 <= j < m.cols => c * m.at[i][j])))
  }

  /** The matrix divided by the non-zero scalar `c`. */
  function Divide(m: Matrix, c: real): (r: Matrix)
    requires m.Valid() && c != 0.0
    ensures r.Valid() && r.rows == m.rows && r.cols == m.cols
    ensures forall i, j :: 0 <= i < m.rows && 0 <= j < m.cols ==> r.at[i][j] == m.at[i][j] / c
  {
    Map(m, x => x / c)
  }

  /** The transpose (`.T`). */
  function Transpose(m: Matrix): (r: Matrix)
    requires m.Valid()
    ensures r.Valid() && r.rows == m.cols && r.cols == m.rows
    ensures forall i, j :: 0 <= i < m.cols && 0 <= j < m.rows ==> r.at[i][j] == m.at[j][i]
  {
    Matrix(m.cols, m.rows,
      seq(m.cols, i requires 0 <= i < m.cols => seq(m.rows, j requires 0 <= j < m.rows => m.at[j][i])))
  }

  /** The sum of `a[i][l] * b[l][j]` over `l < k`. */
  function Dot(a: Matrix, i: nat, b: Matrix, j: nat, k: nat): real
    requires a.Valid() && b.Valid() && a.cols == b.rows
    requires i < a.rows && j < b.cols && k <= a.cols
  {
    if k == 0 then 0.0 else Dot(a, i, b, j, k - 1) + a.at[i][k - 1] * b.at[k - 1][j]
  }

  /** The matrix product (`@`). */
  function MatMul(a: Matrix, b: Matrix): (r: Matrix)
    requires a.Valid() && b.Valid() && a.cols == b.rows
    ensures r.Valid() && r.rows == a.rows && r.cols == b.cols
    ensures forall i, j :: 0 <= i < a.rows && 0 <= j < b.cols ==> r.at[i][j] == Dot(a, i, b, j, a.cols)
  {
    Matrix(a.rows, b.cols,
      seq(a.rows, i requires 0 <= i < a.rows => seq(b.cols, j requires 0 <= j < b.cols => Dot(a, i, b, j, a.cols))))
  }

  /** The n×n matrix with `d[0..n]` on its diagonal and zeros elsewhere: `np.zeros((n, n))`
      followed by `np.fill_diagonal`, which takes the first n values it is given. */
  function Diag(n: nat, d: seq<real>): (r: Matrix)
    requires n <= |d|
    ensures r.Valid() && r.rows == n && r.cols == n
    ensures forall i, j :: 0 <= i < n && 0 <= j < n ==> r.at[i][j] == if i == j then d[i] else 0.0
  {
    Matrix(n, n, seq(n, i requires 0 <= i < n => seq(n, j requires 0 <= j < n => if i == j then d[i] else 0.0)))
  }

  /** The entries of a column vector, top to bottom. */
  function Entries(m: Matrix): (v: seq<real>)
    requires m.Valid() && m.cols == 1
    ensures |v| == m.rows && forall i :: 0 <= i < m.rows ==> v[i] == m.at[i][0]
  {
    seq(m.rows, i requires 0 <= i < m.rows => m.at[i][0])
  }

  /** The column vector holding `v`. */
  function ColumnOf(v: seq<real>): (m: Matrix)
    ensures m.IsColumn(|v|) && forall i :: 0 <= i < |v| ==> m.at[i][0] == v[i]
  {
    Matrix(|v|, 1, seq(|v|, i requires 0 <= i < |v| => [v[i]]))
  }

  /** The rows laid end to end. */
  function FlattenRows(rs: seq<seq<real>>): seq<real>
  {
    if rs == [] then [] else rs[0] + FlattenRows(rs[1..])
  }

  /** The entries in row-major order (`.flatten()`). */
  function Flatten(m: Matrix): seq<real>
  {
    FlattenRows(m.at)
  }

  /** `f` applied to every element of `v`. */
  function SeqMap(v: seq<real>, f: real -> real): (r: seq<real>)
    ensures |r| == |v| && forall i :: 0 <= i < |v| ==> r[i] == f(v[i])
  {
    seq(|v|, i requires 0 <= i < |v| => f(v[i]))
  }

  /** The sum of the elements (`np.sum`). */
  function Sum(v: seq<real>): real
  {
    if v == [] then 0.0 else v[0] + Sum(v[1..])
  }

  /** The largest element (`np.max`). */
  function Max(v: seq<real>): (r: real)
    requires v != []
    ensures r in v && forall i :: 0 <= i < |v| ==> v[i] <= r
  {
    if |v| == 1 then v[0]
    else
      var rest := Max(v[1..]);
      assert forall i :: 1 <= i < |v| ==> v[i] == v[1..][i - 1];
      if v[0] >= rest then v[0] else rest
  }

  /** A flattened column is the column's entries. */
  lemma {:induction false} FlattenColumn(m: Matrix)
    requires m.Valid() && m.cols == 1
    ensures Flatten(m) == Entries(m)
    decreases m.rows
  {
    if m.rows > 0 {
      var tail := Matrix(m.rows - 1, 1, m.at[1..]);
      FlattenColumn(tail);
      assert Entries(m) == [m.at[0][0]] + Entries(tail);
      assert m.at[0] == [m.at[0][0]];
    }
  }

  /** Flattening a matrix with at least one column keeps at least one entry per row. */
  lemma {:induction false} FlattenLength(rs: seq<seq<real>>)
    requires forall i :: 0 <= i < |rs| ==> |rs[i]| > 0
    ensures |FlattenRows(rs)| >= |rs|
    ensures rs != [] ==> FlattenRows(rs) != []
  {
    if rs != [] {
      FlattenLength(rs[1..]);
    }
  }

  /** A matrix with no row or no column flattens to nothing, and any other to something. */
  lemma FlattenEmpty(m: Matrix)
    requires m.Valid()
    ensures Flatten(m) == [] <==> (m.rows == 0 || m.cols == 0)
  {
    if m.cols == 0 {
      FlattenZeroWidth(m.at);
    } else {
      FlattenLength(m.at);
    }
  }

  lemma {:induction false} FlattenZeroWidth(rs: seq<seq<real>>)
    requires forall i :: 0 <= i < |rs| ==> |rs[i]| == 0
    ensures FlattenRows(rs) == []
  {
    if rs != [] {
      FlattenZeroWidth(rs[1..]);
    }
  }

  /** Mapping the entries commutes with flattening. */
  lemma FlattenMap(m: Matrix, f: real -> real)
    requires m.Valid()
    ensures Flatten(Map(m, f)) == SeqMap(Flatten(m), f)
  {
    FlattenRowsMap(m.at, f);
  }

  lemma {:induction false} FlattenRowsMap(rs: seq<seq<real>>, f: real -> real)
    ensures FlattenRows(MapRows(rs, f)) == SeqMap(FlattenRows(rs), f)
  {
    if rs != [] {
      FlattenRowsMap(rs[1..], f);
      assert MapRows(rs, f)[1..] == MapRows(rs[1..], f);
      assert SeqMap(rs[0] + FlattenRows(rs[1..]), f) == SeqMap(rs[0], f) + SeqMap(FlattenRows(rs[1..]), f);
    }
  }

  /** Dividing every element by `c` divides the sum by `c`. */
  lemma {:induction false} SumDivide(v: seq<real>, c: real)
    requires c != 0.0
    ensures Sum(SeqMap(v, x => x / c)) == Sum(v) / c
  {
    if v != [] {
      SumDivide(v[1..], c);
      assert SeqMap(v, x => x / c)[1..] == SeqMap(v[1..], x => x / c);
    }
  }

  /** A non-empty sequence of elements at least `lo > 0` has a sum of at least `lo`. */
  lemma {:induction false} SumAtLeast(v: seq<real>, lo: real)
    requires v != [] && lo > 0.0
    requires forall i :: 0 <= i < |v| ==> v[i] >= lo
    ensures Sum(v) >= lo
  {
    if |v| > 1 {
      SumAtLeast(v[1..], lo);
    } else {
      assert v[1..] == [];
    }
  }

  /** The sum of non-negative elements is non-negative. */
  lemma {:induction false} SumNonNegative(v: seq<real>)
    requires forall i :: 0 <= i < |v| ==> v[i] >= 0.0
    ensures Sum(v) >= 0.0
  {
    if v != [] {
      SumNonNegative(v[1..]);
    }
  }

  /** A sum of non-negative elements is zero only when every element is. */
  lemma {:induction false} SumZero(v: seq<real>)
    requires forall i :: 0 <= i < |v| ==> v[i] >= 0.0
    requires Sum(v) == 0.0
    ensures forall i :: 0 <= i < |v| ==> v[i] == 0.0
  {
    if v != [] {
      SumNonNegative(v[1..]);
      SumZero(v[1..]);
      assert forall i :: 1 <= i < |v| ==> v[i] == v[1..][i - 1];
    }
  }

  /** A product over a single inner index is the product of the two entries. */
  lemma DotSingle(a: Matrix, i: nat, b: Matrix, j: nat)
    requires a.Valid() && b.Valid() && a.cols == 1 && b.rows == 1
    requires i < a.rows && j < b.cols
    ensures Dot(a, i, b, j, 1) == a.at[i][0] * b.at[0][j]
  {
  }

  /** Two matrices of one shape with the same entries are equal. */
  lemma Extensionality(a: Matrix, b: Matrix)
    requires a.Valid() && b.Valid() && a.rows == b.rows && a.cols == b.cols
    requires forall i, j :: 0 <= i < a.rows && 0 <= j < a.cols ==> a.at[i][j] == b.at[i][j]
    ensures a == b
  {
    forall i | 0 <= i < a.rows
      ensures a.at[i] == b.at[i]
    {
      assert |a.at[i]| == |b.at[i]|;
    }
    assert a.at == b.at;
  }

  /** A non-empty sequence of positive elements has a positive sum. */
  lemma {:induction false} SumPositive(v: seq<real>)
    requires v != []
    requires forall i :: 0 <= i < |v| ==> v[i] > 0.0
    ensures Sum(v) > 0.0
  {
    SumNonNegative(v[1..]);
  }

  /** Among non-negative elements, each is at most the sum. */
  lemma {:induction false} ElementAtMostSum(v: seq<real>, k: nat)
    requires k < |v|
    requires forall i :: 0 <= i < |v| ==> v[i] >= 0.0
    ensures v[k] <= Sum(v)
  {
    SumNonNegative(v[1..]);
    if k > 0 {
      ElementAtMostSum(v[1..], k - 1);
    }
  }

  /** Flattening a matrix divided by `c` divides its total by `c`. */
  lemma TotalDivide(m: Matrix, c: real)
    requires m.Valid() && c != 0.0
    ensures Sum(Flatten(Divide(m, c))) == Sum(Flatten(m)) / c
  {
    FlattenMap(m, x => x / c);
    SumDivide(Flatten(m), c);
  }

  /** Summing from the front agrees with adding the last element at the end. */
  lemma {:induction false} SumSnoc(v: seq<real>, x: real)
    ensures Sum(v + [x]) == Sum(v) + x
  {
    if v == [] {
      assert [x][1..] == [];
    } else {
      assert (v + [x])[1..] == v[1..] + [x];
      SumSnoc(v[1..], x);
    }
  }

  /** A prefix of row `i` of a diagonal matrix times `a` picks out `d[i]` times entry `i` of
      column `j`, once the prefix reaches it. */
  lemma {:induction false} DotDiag(n: nat, d: seq<real>, a: Matrix, i: nat, j: nat, k: nat)
    requires n <= |d| && a.Valid() && a.rows == n && i < n && j < a.cols && k <= n
    ensures Dot(Diag(n, d), i, a, j, k) == if i < k then d[i] * a.at[i][j] else 0.0
  {
    if k > 0 {
      DotDiag(n, d, a, i, j, k - 1);
    }
  }

  /** Multiplying by a diagonal matrix on the left scales row `i` by `d[i]`. */
  lemma DiagTimes(n: nat, d: seq<real>, a: Matrix)
    requires n <= |d| && a.Valid() && a.rows == n
    ensures forall i, j :: 0 <= i < n && 0 <= j < a.cols ==> MatMul(Diag(n, d), a).at[i][j] == d[i] * a.at[i][j]
  {
    forall i, j | 0 <= i < n && 0 <= j < a.cols
      ensures MatMul(Diag(n, d), a).at[i][j] == d[i] * a.at[i][j]
    {
      DotDiag(n, d, a, i, j, n);
    }
  }

  /** When row `i` of `a` is `c` times row `i2` of `b`, so are their products with `m`. */
  lemma {:induction false} DotScaledRow(a: Matrix, i: nat, b: Matrix, i2: nat, m: Matrix, j: nat, c: real, k: nat)
    requires a.Valid() && b.Valid() && m.Valid() && a.cols == m.rows && b.cols == m.rows
    requires i < a.rows && i2 < b.rows && j < m.cols && k <= a.cols
    requires forall l :: 0 <= l < a.cols ==> a.at[i][l] == c * b.at[i2][l]
    ensures Dot(a, i, m, j, k) == c * Dot(b, i2, m, j, k)
  {
    if k > 0 {
      DotScaledRow(a, i, b, i2, m, j, c, k - 1);
      var x, y, z := Dot(b, i2, m, j, k - 1), b.at[i2][k - 1], m.at[k - 1][j];
      assert c * x + (c * y) * z == c * (x + y * z);
    }
  }

  /** A product with a zero factor on the right is zero, term by term. */
  lemma {:induction false} DotZeros(a: Matrix, i: nat, b: Matrix, j: nat, k: nat)
    requires a.Valid() && b.Valid() && a.cols == b.rows && i < a.rows && j < b.cols && k <= a.cols
    requires forall r, c :: 0 <= r < b.rows && 0 <= c < b.cols ==> b.at[r][c] == 0.0
    ensures Dot(a, i, b, j, k) == 0.0
    decreases k
  {
    if k > 0 {
      DotZeros(a, i, b, j, k - 1);
    }
  }

  /** `a @ zeros` is the zero matrix. */
  lemma MatMulZeros(a: Matrix, c: nat)
    requires a.Valid()
    ensures MatMul(a, Zeros(a.cols, c)) == Zeros(a.rows, c)
  {
    var z := Zeros(a.cols, c);
    var m := MatMul(a, z);
    forall i, j | 0 <= i < a.rows && 0 <= j < c
      ensures m.at[i][j] == 0.0
    {
      DotZeros(a, i, z, j, a.cols);
    }
    Extensionality(m, Zeros(a.rows, c));
  }
}
