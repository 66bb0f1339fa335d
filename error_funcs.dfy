/** The error function of `nn/error_funcs.py`: the squared error between a teaching datum `t`
    and an output `y`, and its gradient with respect to `y`. */
module ErrorFuncs {
  import opened Failures
  import opened Matrices

  /** The registered error functions; only the squared error is live. */
  datatype ErrorFunc = SquaredError
  {
    /** The tag a network looks the function up by. */
    function Name(): (n: string)
      ensures this.SquaredError? ==> n == "se"
    {
      "se"
    }
  }

  /** `t` and `y` can be subtracted without broadcasting. */
  predicate SameShape(t: Matrix, y: Matrix) {
    t.Valid() && y.Valid() && t.rows == y.rows && t.cols == y.cols
  }

  function Square(x: real): real {
    x * x
  }

  /** The squared differences of the first columns of `t` and `y`: the reference definition
      the value is proved against. */
  function SquaredDiffs(t: Matrix, y: Matrix): (v: seq<real>)
    requires SameShape(t, y) && t.cols >= 1
    ensures |v| == t.rows
    ensures forall i :: 0 <= i < t.rows ==> v[i] == Square(t.at[i][0] - y.at[i][0])
  {
    seq(t.rows, i requires 0 <= i < t.rows => Square(t.at[i][0] - y.at[i][0]))
  }

  /** The squared error as the source computes it: entry [0][0] of `(t - y)ᵀ·(t - y)`, halved.
      With no columns the product is empty and taking its first entry fails. */
  function Value(t: Matrix, y: Matrix): (r: Result<real>)
    requires SameShape(t, y)
    ensures r.Err? <==> t.cols == 0
    ensures r.Err? ==> r.error == EmptyInput
  {
    if t.cols == 0 then Err(EmptyInput)
    else
      var d := Sub(t, y);
      Ok(MatMul(Transpose(d), d).at[0][0] / 2.0)
  }

  /** The gradient `-(t - y)`. */
  function Derivative(t: Matrix, y: Matrix): (g: Matrix)
    requires SameShape(t, y)
    ensures g.Valid() && g.rows == y.rows && g.cols == y.cols
    ensures forall i, j :: 0 <= i < y.rows && 0 <= j < y.cols ==> g.at[i][j] == y.at[i][j] - t.at[i][j]
  {
    Scale(-1.0, Sub(t, y))
  }

  // ---------------------------------------------------------------------------------------
  // Properties of the value

  /** The squares of the first column of `d`. */
  function ColumnSquares(d: Matrix): (v: seq<real>)
    requires d.Valid() && d.cols >= 1
    ensures |v| == d.rows && forall i :: 0 <= i < d.rows ==> v[i] == Square(d.at[i][0])
  {
    seq(d.rows, i requires 0 <= i < d.rows => Square(d.at[i][0]))
  }

  /** The first `k` terms of `dᵀ·d` at [0][0] are the first `k` squares of column 0. */
  lemma {:induction false} GramCorner(d: Matrix, k: nat)
    requires d.Valid() && d.cols >= 1 && k <= d.rows
    ensures Dot(Transpose(d), 0, d, 0, k) == Sum(ColumnSquares(d)[..k])
  {
    var v := ColumnSquares(d);
    if k == 0 {
      assert v[..0] == [];
    } else {
      GramCorner(d, k - 1);
      assert v[..k] == v[..k - 1] + [v[k - 1]];
      SumSnoc(v[..k - 1], v[k - 1]);
      var e := d.at[k - 1][0];
      assert Transpose(d).at[0][k - 1] == e;
      assert v[k - 1] == e * e;
    }
  }

  /** The value is half the sum of the squared differences `½·Σ(t_i − y_i)²`. */
  lemma ValueClosedForm(t: Matrix, y: Matrix)
    requires SameShape(t, y) && t.cols >= 1
    ensures Value(t, y) == Ok(Sum(SquaredDiffs(t, y)) / 2.0)
  {
    var d := Sub(t, y);
    GramCorner(d, t.rows);
    assert ColumnSquares(d)[..t.rows] == ColumnSquares(d) == SquaredDiffs(t, y);
  }

  /** The value is never negative. */
  lemma ValueNonNegative(t: Matrix, y: Matrix)
    requires SameShape(t, y) && t.cols >= 1
    ensures Value(t, y).Ok? && Value(t, y).value >= 0.0
  {
    ValueClosedForm(t, y);
    var v := SquaredDiffs(t, y);
    forall i | 0 <= i < |v|
      ensures v[i] >= 0.0
    {
      SquareNonNegative(t.at[i][0] - y.at[i][0]);
    }
    SumNonNegative(v);
  }

  /** Swapping the teaching datum and the output leaves the value unchanged. */
  lemma ValueSymmetric(t: Matrix, y: Matrix)
    requires SameShape(t, y)
    ensures Value(t, y) == Value(y, t)
  {
    if t.cols >= 1 {
      ValueClosedForm(t, y);
      ValueClosedForm(y, t);
      var v, w := SquaredDiffs(t, y), SquaredDiffs(y, t);
      forall i | 0 <= i < |v|
        ensures v[i] == w[i]
      {
        var a, b := t.at[i][0], y.at[i][0];
        assert (a - b) * (a - b) == (b - a) * (b - a);
      }
      assert v == w;
    }
  }

  /** The value is zero exactly when the first columns agree; in particular it is zero at
      `t == y`, and for columns it is zero only there. */
  lemma ValueZeroIff(t: Matrix, y: Matrix)
    requires SameShape(t, y) && t.cols >= 1
    ensures Value(t, y) == Ok(0.0) <==> forall i :: 0 <= i < t.rows ==> t.at[i][0] == y.at[i][0]
  {
    ValueClosedForm(t, y);
    if Value(t, y) == Ok(0.0) {
      ZeroSumOfSquares(t, y);
    }
    if forall i :: 0 <= i < t.rows ==> t.at[i][0] == y.at[i][0] {
      assert SquaredDiffs(t, y) == seq(t.rows, _ => 0.0);
      SumOfZeros(t.rows);
    }
  }

  /** Squares that sum to zero are all zero, so the differences are. */
  lemma ZeroSumOfSquares(t: Matrix, y: Matrix)
    requires SameShape(t, y) && t.cols >= 1
    requires Sum(SquaredDiffs(t, y)) == 0.0
    ensures forall i :: 0 <= i < t.rows ==> t.at[i][0] == y.at[i][0]
  {
    var v := SquaredDiffs(t, y);
    forall i | 0 <= i < |v|
      ensures v[i] >= 0.0
    {
      SquareNonNegative(t.at[i][0] - y.at[i][0]);
    }
    SumZero(v);
    forall i | 0 <= i < t.rows
      ensures t.at[i][0] == y.at[i][0]
    {
      assert v[i] == 0.0;
      SquareZero(t.at[i][0] - y.at[i][0]);
    }
  }

  lemma SquareNonNegative(x: real)
    ensures Square(x) >= 0.0
  {
    calc {
      Square(x);
    ==
      x * x;
    >=
      0.0;
    }
  }

  lemma SquarePositive(x: real)
    requires x != 0.0
    ensures Square(x) > 0.0
  {
    calc {
      Square(x);
    ==
      x * x;
    >
      0.0;
    }
  }

  lemma SquareZero(x: real)
    requires Square(x) == 0.0
    ensures x == 0.0
  {
    if x != 0.0 {
      SquarePositive(x);
    }
  }

  lemma {:induction false} SumOfZeros(n: nat)
    ensures Sum(seq(n, _ => 0.0)) == 0.0
  {
    if n > 0 {
      assert seq(n, _ => 0.0)[1..] == seq(n - 1, _ => 0.0);
      SumOfZeros(n - 1);
    }
  }

  /** For columns the value vanishes exactly at `t == y`. */
  lemma ColumnValueZeroIff(t: Matrix, y: Matrix, n: nat)
    requires t.IsColumn(n) && y.IsColumn(n)
    ensures Value(t, y) == Ok(0.0) <==> t == y
  {
    ValueZeroIff(t, y);
    if forall i :: 0 <= i < t.rows ==> t.at[i][0] == y.at[i][0] {
      Extensionality(t, y);
    }
  }

  // ---------------------------------------------------------------------------------------
  // Properties of the gradient

  /** The gradient is `y - t`. */
  lemma DerivativeIsDifference(t: Matrix, y: Matrix)
    requires SameShape(t, y)
    ensures Derivative(t, y) == Sub(y, t)
  {
    Extensionality(Derivative(t, y), Sub(y, t));
  }

  /** The gradient is the zero matrix exactly when `t == y`. */
  lemma DerivativeZeroIff(t: Matrix, y: Matrix)
    requires SameShape(t, y)
    ensures Derivative(t, y) == Zeros(y.rows, y.cols) <==> t == y
  {
    var g := Derivative(t, y);
    if g == Zeros(y.rows, y.cols) {
      forall i, j | 0 <= i < y.rows && 0 <= j < y.cols
        ensures t.at[i][j] == y.at[i][j]
      {
        assert g.at[i][j] == 0.0;
      }
      Extensionality(t, y);
    }
    if t == y {
      Extensionality(g, Zeros(y.rows, y.cols));
    }
  }
}
