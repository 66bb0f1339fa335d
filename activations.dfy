/** The activation functions of `nn/activation_funcs.py`: each maps a pre-activation matrix to
    an output of the same shape, and maps an output column to the Jacobian of the activation
    expressed in terms of that output. */
module Activations {
  import opened Failures
  import opened Matrices

  /** numpy's `np.exp` and `np.tanh`, which the model leaves undefined. */
  datatype Transcendentals = Transcendentals(exp: real -> real, tanh: real -> real)
  {
    /** The one fact the model relies on: `exp` is positive everywhere. */
    ghost predicate ExpPositive() {
      forall x :: exp(x) > 0.0
    }
  }

  /** The four activations. Tanh carries its two scale parameters. */
  datatype Activation = Logistic | Tanh(alpha: real, beta: real) | Softmax | Rectifier

  /** The Softmax clamp bounds, written `10e-7` and `10e+7` in the source. */
  const SoftmaxFloor: real := 0.000001
  const SoftmaxCeiling: real := 100000000.0

  // ---------------------------------------------------------------------------------------
  // Values

  /** Logistic: `1 / (1 + exp(-s))` entrywise. */
  function LogisticValue(tr: Transcendentals, s: Matrix): (y: Matrix)
    requires tr.ExpPositive() && s.Valid()
    ensures y.Valid() && y.rows == s.rows && y.cols == s.cols
    ensures forall i, j :: 0 <= i < s.rows && 0 <= j < s.cols ==> y.at[i][j] == 1.0 / (1.0 + tr.exp(-s.at[i][j]))
  {
    Matrix(s.rows, s.cols,
      seq(s.rows, i requires 0 <= i < s.rows =>
        seq(s.cols, j requires 0 <= j < s.cols => 1.0 / (1.0 + tr.exp(-s.at[i][j])))))
  }

  /** `alpha * tanh(beta * x)`. */
  function ScaledTanh(tr: Transcendentals, alpha: real, beta: real, x: real): real {
    alpha * tr.tanh(beta * x)
  }

  /** Tanh: `alpha * tanh(beta * s)` entrywise. */
  function TanhValue(tr: Transcendentals, alpha: real, beta: real, s: Matrix): (y: Matrix)
    requires s.Valid()
    ensures y.Valid() && y.rows == s.rows && y.cols == s.cols
    ensures forall i, j :: 0 <= i < s.rows && 0 <= j < s.cols ==> y.at[i][j] == ScaledTanh(tr, alpha, beta, s.at[i][j])
  {
    Matrix(s.rows, s.cols,
      seq(s.rows, i requires 0 <= i < s.rows =>
        seq(s.cols, j requires 0 <= j < s.cols => ScaledTanh(tr, alpha, beta, s.at[i][j]))))
  }

  /** The masked assignment `val[val < 0.0] = 0.0` on one entry. */
  function ZeroNegative(x: real): real {
    if x < 0.0 then 0.0 else x
  }

  /** The masked assignment `value[value < 10e-7] = 10e-7` on one entry. */
  function RaiseToFloor(x: real): real {
    if x < SoftmaxFloor then SoftmaxFloor else x
  }

  /** The masked assignment `value[value > 10e+7] = 10e+7` on one entry. */
  function LowerToCeiling(x: real): real {
    if x > SoftmaxCeiling then SoftmaxCeiling else x
  }

  /** Every entry less the scalar `c` (`s - np.max(s)`). */
  function Shift(m: Matrix, c: real): (r: Matrix)
    requires m.Valid()
    ensures r.Valid() && r.rows == m.rows && r.cols == m.cols
    ensures forall i, j :: 0 <= i < m.rows && 0 <= j < m.cols ==> r.at[i][j] == m.at[i][j] - c
  {
    Matrix(m.rows, m.cols,
      seq(m.rows, i requires 0 <= i < m.rows => seq(m.cols, j requires 0 <= j < m.cols => m.at[i][j] - c)))
  }

  /** Rectifier: `max(0, s)` entrywise. */
  function RectifierValue(s: Matrix): (y: Matrix)
    requires s.Valid()
  {
    Map(s, ZeroNegative)
  }

  /** The exponentials of the entries shifted by the largest, normalised by their sum. */
  function Normalised(tr: Transcendentals, s: Matrix): (v: Matrix)
    requires tr.ExpPositive() && s.Valid() && Flatten(s) != []
    ensures v.Valid() && v.rows == s.rows && v.cols == s.cols
  {
    var e := Map(Shift(s, Max(Flatten(s))), tr.exp);
    ExpTotalPositive(tr, s);
    Divide(e, Sum(Flatten(e)))
  }

  /** The normalised exponentials clamped into [SoftmaxFloor, SoftmaxCeiling], in the order of
      the two masked assignments of the source. */
  function Clamped(tr: Transcendentals, s: Matrix): (c: Matrix)
    requires tr.ExpPositive() && s.Valid() && Flatten(s) != []
    ensures c.Valid() && c.rows == s.rows && c.cols == s.cols
  {
    Map(Map(Normalised(tr, s), RaiseToFloor), LowerToCeiling)
  }

  /** Softmax: the clamped normalised exponentials divided by their sum. `np.max` of a
      zero-size array fails, and so does this. */
  function SoftmaxValue(tr: Transcendentals, s: Matrix): (r: Result<Matrix>)
    requires tr.ExpPositive() && s.Valid()
    ensures r.Ok? ==> r.value.Valid() && r.value.rows == s.rows && r.value.cols == s.cols
  {
    if Flatten(s) == [] then Err(EmptyInput)
    else
      var c := Clamped(tr, s);
      ClampedTotalPositive(tr, s);
      Ok(Divide(c, Sum(Flatten(c))))
  }

  /** `get_value` of each activation. */
  function Value(act: Activation, tr: Transcendentals, s: Matrix): (r: Result<Matrix>)
    requires tr.ExpPositive() && s.Valid()
    ensures r.Ok? ==> r.value.Valid() && r.value.rows == s.rows && r.value.cols == s.cols
    ensures r.Err? <==> act.Softmax? && Flatten(s) == []
  {
    match act
    case Logistic => Ok(LogisticValue(tr, s))
    case Tanh(alpha, beta) => Ok(TanhValue(tr, alpha, beta, s))
    case Softmax => SoftmaxValue(tr, s)
    case Rectifier => Ok(RectifierValue(s))
  }

  lemma ExpTotalPositive(tr: Transcendentals, s: Matrix)
    requires tr.ExpPositive() && s.Valid() && Flatten(s) != []
    ensures Sum(Flatten(Map(Shift(s, Max(Flatten(s))), tr.exp))) > 0.0
  {
    var shifted := Shift(s, Max(Flatten(s)));
    FlattenMap(shifted, tr.exp);
    FlattenEmpty(s);
    FlattenEmpty(shifted);
    var e := SeqMap(Flatten(shifted), tr.exp);
    assert forall k :: 0 <= k < |e| ==> e[k] == tr.exp(Flatten(shifted)[k]);
    forall k | 0 <= k < |e|
      ensures e[k] > 0.0
    {
      var x := Flatten(shifted)[k];
      assert tr.exp(x) > 0.0;
    }
    SumPositive(e);
  }

  /** Every clamped entry lies in [SoftmaxFloor, SoftmaxCeiling], so their sum is positive. */
  lemma ClampedBounds(tr: Transcendentals, s: Matrix)
    requires tr.ExpPositive() && s.Valid() && Flatten(s) != []
    ensures var c := Clamped(tr, s);
      && (forall i, j :: 0 <= i < c.rows && 0 <= j < c.cols ==> SoftmaxFloor <= c.at[i][j] <= SoftmaxCeiling)
      && (forall k :: 0 <= k < |Flatten(c)| ==> SoftmaxFloor <= Flatten(c)[k] <= SoftmaxCeiling)
  {
    var v := Normalised(tr, s);
    var low := Map(v, RaiseToFloor);
    FlattenMap(v, RaiseToFloor);
    FlattenMap(low, LowerToCeiling);
  }

  lemma ClampedTotalPositive(tr: Transcendentals, s: Matrix)
    requires tr.ExpPositive() && s.Valid() && Flatten(s) != []
    ensures Sum(Flatten(Clamped(tr, s))) > 0.0
  {
    var c := Clamped(tr, s);
    ClampedBounds(tr, s);
    FlattenEmpty(s);
    FlattenEmpty(c);
    SumAtLeast(Flatten(c), SoftmaxFloor);
  }

  // ---------------------------------------------------------------------------------------
  // Jacobians

  /** `y * (1 - y)` entrywise. */
  function LogisticSlopes(v: seq<real>): (d: seq<real>)
    ensures |d| == |v| && forall i :: 0 <= i < |v| ==> d[i] == v[i] * (1.0 - v[i])
  {
    seq(|v|, i requires 0 <= i < |v| => v[i] * (1.0 - v[i]))
  }

  /** `alpha * beta * (1 - tanh(beta * y) ** 2)`: the source takes the tanh of `beta * y`. */
  function TanhSlope(tr: Transcendentals, alpha: real, beta: real, y: real): real {
    var t := tr.tanh(beta * y);
    alpha * beta * (1.0 - t * t)
  }

  /** `TanhSlope` entrywise. */
  function TanhSlopes(tr: Transcendentals, alpha: real, beta: real, v: seq<real>): (d: seq<real>)
    ensures |d| == |v| && forall i :: 0 <= i < |v| ==> d[i] == TanhSlope(tr, alpha, beta, v[i])
  {
    seq(|v|, i requires 0 <= i < |v| => TanhSlope(tr, alpha, beta, v[i]))
  }

  /** The masked assignment `val[val > 0.0] = 1.0` on one entry. */
  function OnePositive(x: real): real {
    if x > 0.0 then 1.0 else x
  }

  /** The masked assignment `val[val <= 0.0] = 0.0` on one entry. */
  function ZeroNonPositive(x: real): real {
    if x <= 0.0 then 0.0 else x
  }

  /** The Rectifier's indicator matrix: its input with both masked assignments applied. */
  function Indicators(y: Matrix): (v: Matrix)
    requires y.Valid()
    ensures v.Valid() && v.rows == y.rows && v.cols == y.cols
  {
    Map(Map(y, OnePositive), ZeroNonPositive)
  }

  /** The shapes `get_derivative` accepts without a numpy failure that the model leaves out: the
      Rectifier, which does not check its input, needs a column per row to fill the diagonal. */
  predicate DerivativeDefined(act: Activation, y: Matrix) {
    y.Valid() && (act.Rectifier? && y.rows > 0 ==> y.cols > 0)
  }

  /** `get_derivative` of each activation, evaluated at the output `y`. Logistic, Tanh and
      Softmax assert that `y` is a single column; the Rectifier fills its diagonal from the
      row-major flattening of the indicator matrix, whatever its width. */
  function Derivative(act: Activation, tr: Transcendentals, y: Matrix): (r: Result<Matrix>)
    requires DerivativeDefined(act, y)
    ensures r.Ok? ==> r.value.Valid() && r.value.rows == y.rows && r.value.cols == y.rows
  {
    match act
    case Logistic =>
      if y.cols != 1 then Err(InvalidShape) else Ok(Diag(y.rows, LogisticSlopes(Entries(y))))
    case Tanh(alpha, beta) =>
      if y.cols != 1 then Err(InvalidShape) else Ok(Diag(y.rows, TanhSlopes(tr, alpha, beta, Entries(y))))
    case Softmax =>
      if y.cols != 1 then Err(InvalidShape) else Ok(Sub(Diag(y.rows, Entries(y)), MatMul(y, Transpose(y))))
    case Rectifier =>
      IndicatorsLength(y);
      Ok(Diag(y.rows, Flatten(Indicators(y))))
  }

  lemma IndicatorsLength(y: Matrix)
    requires y.Valid() && (y.rows > 0 ==> y.cols > 0)
    ensures |Flatten(Indicators(y))| >= y.rows
  {
    var v := Indicators(y);
    FlattenLength(v.at);
  }

  /** The Jacobian of an activation at an output column, which never fails. */
  function Jacobian(act: Activation, tr: Transcendentals, y: Matrix): (j: Matrix)
    requires y.Valid() && y.cols == 1
    ensures j.Valid() && j.rows == y.rows && j.cols == y.rows
  {
    Derivative(act, tr, y).value
  }

  // ---------------------------------------------------------------------------------------
  // The imperative forms of the source: masked assignments and diagonal fills.

  /** Overwrites every entry `x` of a copy of `m` by `f(x)`, one entry at a time: the masked
      assignments `m[mask] = c` of the source, with `f` the one-entry form of the mask. */
  method AssignEntries(m: Matrix, f: real -> real) returns (r: Matrix)
    requires m.Valid()
    ensures r == Map(m, f)
  {
    r := m;
    var i := 0;
    while i < m.rows
      invariant 0 <= i <= m.rows
      invariant r.rows == m.rows && r.cols == m.cols && |r.at| == m.rows
      invariant forall k :: 0 <= k < i ==> r.at[k] == SeqMap(m.at[k], f)
      invariant forall k :: i <= k < m.rows ==> r.at[k] == m.at[k]
    {
      var row := r.at[i];
      var j := 0;
      while j < m.cols
        invariant 0 <= j <= m.cols && |row| == m.cols
        invariant forall l :: 0 <= l < j ==> row[l] == f(m.at[i][l])
        invariant forall l :: j <= l < m.cols ==> row[l] == m.at[i][l]
      {
        row := row[j := f(row[j])];
        j := j + 1;
      }
      r := r.(at := r.at[i := row]);
      i := i + 1;
    }
    assert r.at == MapRows(m.at, f);
  }

  /** Allocates the n×n zero matrix and writes `d[0..n]` on its diagonal. */
  method FillDiagonal(n: nat, d: seq<real>) returns (r: Matrix)
    requires n <= |d|
    ensures r == Diag(n, d)
  {
    r := Zeros(n, n);
    for i := 0 to n
      invariant r.Valid() && r.rows == n && r.cols == n
      invariant forall k, l :: 0 <= k < n && 0 <= l < n ==> r.at[k][l] == if k == l && k < i then d[k] else 0.0
    {
      r := r.(at := r.at[i := r.at[i][i := d[i]]]);
    }
    Extensionality(r, Diag(n, d));
  }

  /** `Softmax.get_value`: shift by the maximum, exponentiate, normalise, clamp from below and
      from above by masked assignment, and normalise again. */
  method SoftmaxGetValue(tr: Transcendentals, s: Matrix) returns (r: Result<Matrix>)
    requires tr.ExpPositive() && s.Valid()
    ensures r == SoftmaxValue(tr, s)
  {
    if Flatten(s) == [] {
      return Err(EmptyInput);
    }
    var shifted := Shift(s, Max(Flatten(s)));
    var expS := Map(shifted, tr.exp);
    ExpTotalPositive(tr, s);
    var value := Divide(expS, Sum(Flatten(expS)));
    value := AssignEntries(value, RaiseToFloor);
    value := AssignEntries(value, LowerToCeiling);
    ClampedTotalPositive(tr, s);
    r := Ok(Divide(value, Sum(Flatten(value))));
  }

  /** `get_value` of each activation. */
  method GetValue(act: Activation, tr: Transcendentals, s: Matrix) returns (r: Result<Matrix>)
    requires tr.ExpPositive() && s.Valid()
    ensures r == Value(act, tr, s)
  {
    match act
    case Logistic =>
      r := Ok(LogisticValue(tr, s));
    case Tanh(alpha, beta) =>
      r := Ok(TanhValue(tr, alpha, beta, s));
    case Softmax =>
      r := SoftmaxGetValue(tr, s);
    case Rectifier =>
      var value := AssignEntries(s, ZeroNegative);
      r := Ok(value);
  }

  /** `get_derivative` of each activation: the single-column check, then a zero matrix whose
      diagonal is filled in place (and, for Softmax, the outer product subtracted). */
  method GetDerivative(act: Activation, tr: Transcendentals, y: Matrix) returns (r: Result<Matrix>)
    requires DerivativeDefined(act, y)
    ensures r == Derivative(act, tr, y)
    ensures !act.Rectifier? ==> (r.Err? <==> y.cols != 1)
    ensures r.Err? ==> r.error == InvalidShape
  {
    if !act.Rectifier? && y.cols != 1 {
      return Err(InvalidShape);
    }
    match act
    case Logistic =>
      var jacobian := FillDiagonal(y.rows, LogisticSlopes(Entries(y)));
      r := Ok(jacobian);
    case Tanh(alpha, beta) =>
      var derivative := FillDiagonal(y.rows, TanhSlopes(tr, alpha, beta, Entries(y)));
      r := Ok(derivative);
    case Softmax =>
      var yDiag := FillDiagonal(y.rows, Entries(y));
      r := Ok(Sub(yDiag, MatMul(y, Transpose(y))));
    case Rectifier =>
      var value := AssignEntries(y, OnePositive);
      value := AssignEntries(value, ZeroNonPositive);
      IndicatorsLength(y);
      var yDiag := FillDiagonal(y.rows, Flatten(value));
      r := Ok(yDiag);
  }

  // ---------------------------------------------------------------------------------------
  // Properties

  /** Every Logistic output lies strictly between 0 and 1. */
  lemma LogisticValueBounds(tr: Transcendentals, s: Matrix)
    requires tr.ExpPositive() && s.Valid()
    ensures var y := LogisticValue(tr, s);
      forall i, j :: 0 <= i < s.rows && 0 <= j < s.cols ==> 0.0 < y.at[i][j] < 1.0
  {
    var y := LogisticValue(tr, s);
    forall i, j | 0 <= i < s.rows && 0 <= j < s.cols
      ensures 0.0 < y.at[i][j] < 1.0
    {
      var e := tr.exp(-s.at[i][j]);
      assert e > 0.0;
      assert y.at[i][j] == 1.0 / (1.0 + e);
      assert y.at[i][j] * (1.0 + e) == 1.0;
    }
  }

  /** The Logistic Jacobian of an n×1 column is n×n, zero off the diagonal, with `y_i (1 - y_i)`
      on it. */
  lemma LogisticJacobianDiagonal(tr: Transcendentals, y: Matrix)
    requires y.Valid() && y.cols == 1
    ensures var jac := Jacobian(Logistic, tr, y);
      && jac.rows == y.rows && jac.cols == y.rows
      && (forall i :: 0 <= i < y.rows ==> jac.at[i][i] == y.at[i][0] * (1.0 - y.at[i][0]))
      && (forall i, j :: 0 <= i < y.rows && 0 <= j < y.rows && i != j ==> jac.at[i][j] == 0.0)
  {
  }

  /** At an output of the Logistic activation, every diagonal entry of the Jacobian lies in
      (0, 1/4]. */
  lemma LogisticJacobianAtOutput(tr: Transcendentals, s: Matrix)
    requires tr.ExpPositive() && s.Valid() && s.cols == 1
    ensures var jac := Jacobian(Logistic, tr, LogisticValue(tr, s));
      forall i :: 0 <= i < s.rows ==> 0.0 < jac.at[i][i] <= 0.25
  {
    var y := LogisticValue(tr, s);
    LogisticValueBounds(tr, s);
    LogisticJacobianDiagonal(tr, y);
    forall i | 0 <= i < s.rows
      ensures 0.0 < y.at[i][0] * (1.0 - y.at[i][0]) <= 0.25
    {
      var v := y.at[i][0];
      assert 0.0 < v < 1.0;
      assert (v - 0.5) * (v - 0.5) >= 0.0;
    }
  }

  /** The Tanh Jacobian of an n×1 column is n×n, zero off the diagonal, with
      `alpha * beta * (1 - tanh(beta * y_i)^2)` on it. */
  lemma TanhJacobianDiagonal(tr: Transcendentals, alpha: real, beta: real, y: Matrix)
    requires y.Valid() && y.cols == 1
    ensures var jac := Jacobian(Tanh(alpha, beta), tr, y);
      && jac.rows == y.rows && jac.cols == y.rows
      && (forall i :: 0 <= i < y.rows ==> jac.at[i][i] == TanhSlope(tr, alpha, beta, y.at[i][0]))
      && (forall i, j :: 0 <= i < y.rows && 0 <= j < y.rows && i != j ==> jac.at[i][j] == 0.0)
  {
  }

  /** The Softmax Jacobian is `diag(y) - y yᵀ`, entry by entry, and hence symmetric. */
  lemma SoftmaxJacobianEntries(tr: Transcendentals, y: Matrix)
    requires y.Valid() && y.cols == 1
    ensures var jac := Jacobian(Softmax, tr, y);
      && jac.rows == y.rows && jac.cols == y.rows
      && (forall i, j :: 0 <= i < y.rows && 0 <= j < y.rows ==>
            jac.at[i][j] == (if i == j then y.at[i][0] else 0.0) - y.at[i][0] * y.at[j][0])
      && (forall i, j :: 0 <= i < y.rows && 0 <= j < y.rows ==> jac.at[i][j] == jac.at[j][i])
  {
    var yt := Transpose(y);
    forall i, j | 0 <= i < y.rows && 0 <= j < y.rows
      ensures MatMul(y, yt).at[i][j] == y.at[i][0] * y.at[j][0]
    {
      DotSingle(y, i, yt, j);
    }
  }

  /** Softmax fails exactly on a zero-size input; otherwise every output lies in (0, 1] and the
      outputs sum to 1. */
  lemma SoftmaxDistribution(tr: Transcendentals, s: Matrix)
    requires tr.ExpPositive() && s.Valid()
    ensures SoftmaxValue(tr, s).Err? <==> s.rows == 0 || s.cols == 0
    ensures SoftmaxValue(tr, s).Ok? ==>
      var y := SoftmaxValue(tr, s).value;
      && Sum(Flatten(y)) == 1.0
      && (forall i, j :: 0 <= i < y.rows && 0 <= j < y.cols ==> 0.0 < y.at[i][j] <= 1.0)
  {
    FlattenEmpty(s);
    if Flatten(s) != [] {
      ClampedBounds(tr, s);
      ClampedTotalPositive(tr, s);
      NormalisedDistribution(Clamped(tr, s));
    }
  }

  /** Dividing positive entries by their total gives entries in (0, 1] that sum to 1. */
  lemma NormalisedDistribution(c: Matrix)
    requires c.Valid() && Sum(Flatten(c)) > 0.0
    requires forall k :: 0 <= k < |Flatten(c)| ==> Flatten(c)[k] > 0.0
    requires forall i, j :: 0 <= i < c.rows && 0 <= j < c.cols ==> c.at[i][j] > 0.0
    ensures var y := Divide(c, Sum(Flatten(c)));
      && Sum(Flatten(y)) == 1.0
      && (forall i, j :: 0 <= i < y.rows && 0 <= j < y.cols ==> 0.0 < y.at[i][j] <= 1.0)
  {
    var total := Sum(Flatten(c));
    NormalisedSum(c, total);
    NormalisedBounds(c, total);
  }

  /** Dividing by a positive total gives entries that sum to 1. */
  lemma NormalisedSum(c: Matrix, total: real)
    requires c.Valid() && total == Sum(Flatten(c)) && total > 0.0
    ensures Sum(Flatten(Divide(c, total))) == 1.0
  {
    TotalDivide(c, total);
    assert total / total == 1.0;
  }

  /** Each positive entry divided by the total of the positive entries lies in (0, 1]. */
  lemma NormalisedBounds(c: Matrix, total: real)
    requires c.Valid() && total == Sum(Flatten(c)) && total > 0.0
    requires forall k :: 0 <= k < |Flatten(c)| ==> Flatten(c)[k] > 0.0
    requires forall i, j :: 0 <= i < c.rows && 0 <= j < c.cols ==> c.at[i][j] > 0.0
    ensures forall i, j :: 0 <= i < c.rows && 0 <= j < c.cols ==> 0.0 < Divide(c, total).at[i][j] <= 1.0
  {
    forall i, j | 0 <= i < c.rows && 0 <= j < c.cols
      ensures 0.0 < c.at[i][j] / total <= 1.0
    {
      var k := FlatIndex(c, i, j);
      ElementAtMostSum(Flatten(c), k);
      FractionAtMostOne(c.at[i][j], total);
    }
  }

  /** A positive part of a total is a fraction in (0, 1] of it. */
  lemma FractionAtMostOne(a: real, total: real)
    requires 0.0 < a <= total
    ensures 0.0 < a / total <= 1.0
  {
    var q := a / total;
    assert q * total == a;
    assert (q - 1.0) * total == a - total <= 0.0;
  }

  /** The row-major position of entry (i, j). */
  lemma FlatIndex(m: Matrix, i: nat, j: nat) returns (k: nat)
    requires m.Valid() && i < m.rows && j < m.cols
    ensures k < |Flatten(m)| && Flatten(m)[k] == m.at[i][j]
  {
    k := FlatIndexRows(m.at, m.cols, i, j);
  }

  lemma {:induction false} FlatIndexRows(rs: seq<seq<real>>, c: nat, i: nat, j: nat) returns (k: nat)
    requires forall r :: 0 <= r < |rs| ==> |rs[r]| == c
    requires i < |rs| && j < c
    ensures k < |FlattenRows(rs)| && FlattenRows(rs)[k] == rs[i][j]
  {
    if i == 0 {
      k := j;
    } else {
      var k' := FlatIndexRows(rs[1..], c, i - 1, j);
      k := |rs[0]| + k';
    }
  }

  /** Every row of the Softmax Jacobian at a Softmax output sums to zero: the outputs always
      sum to one, so moving one of them moves the others by as much the other way. */
  lemma SoftmaxJacobianRowsSumToZero(tr: Transcendentals, s: Matrix)
    requires tr.ExpPositive() && s.Valid() && s.cols == 1 && s.rows > 0
    ensures SoftmaxValue(tr, s).Ok?
    ensures var jac := Jacobian(Softmax, tr, SoftmaxValue(tr, s).value);
      forall i :: 0 <= i < s.rows ==> Sum(jac.at[i]) == 0.0
  {
    SoftmaxDistribution(tr, s);
    var y := SoftmaxValue(tr, s).value;
    FlattenColumn(y);
    JacobianRowsOfDistribution(tr, y);
  }

  /** The rows of `diag(y) - y yᵀ` sum to zero when the entries of `y` sum to one. */
  lemma JacobianRowsOfDistribution(tr: Transcendentals, y: Matrix)
    requires y.Valid() && y.cols == 1 && Sum(Entries(y)) == 1.0
    ensures var jac := Jacobian(Softmax, tr, y);
      forall i :: 0 <= i < y.rows ==> Sum(jac.at[i]) == 0.0
  {
    var jac := Jacobian(Softmax, tr, y);
    SoftmaxJacobianEntries(tr, y);
    forall i | 0 <= i < y.rows
      ensures Sum(jac.at[i]) == 0.0
    {
      DistributionRow(y, jac.at[i], i);
    }
  }

  /** Row `i` of `diag(y) - y yᵀ` sums to zero when the entries of `y` sum to one. */
  lemma DistributionRow(y: Matrix, row: seq<real>, i: nat)
    requires y.Valid() && y.cols == 1 && Sum(Entries(y)) == 1.0 && i < y.rows && |row| == y.rows
    requires forall j :: 0 <= j < |row| ==>
      row[j] == (if i == j then y.at[i][0] else 0.0) - y.at[i][0] * y.at[j][0]
    ensures Sum(row) == 0.0
  {
    var v := Entries(y);
    var c := y.at[i][0];
    forall j | 0 <= j < |row|
      ensures row[j] == (if j == i then c else 0.0) - c * v[j]
    {
      assert v[j] == y.at[j][0];
    }
    SumOfRow(row, v, i, c);
    assert Sum(row) == c - c * 1.0;
  }

  /** A row whose j-th entry is `[j == i] c - c v_j` sums to `[i in range] c - c Σ v`. */
  lemma {:induction false} SumOfRow(a: seq<real>, v: seq<real>, i: int, c: real)
    requires |a| == |v|
    requires forall j :: 0 <= j < |a| ==> a[j] == (if j == i then c else 0.0) - c * v[j]
    ensures Sum(a) == (if 0 <= i < |a| then c else 0.0) - c * Sum(v)
  {
    if a != [] {
      SumOfRow(a[1..], v[1..], i - 1, c);
    }
  }

  /** The Rectifier output is non-negative, equals its input where that is non-negative, and
      applying the Rectifier twice changes nothing. */
  lemma RectifierValueProperties(s: Matrix)
    requires s.Valid()
    ensures var y := RectifierValue(s);
      && (forall i, j :: 0 <= i < s.rows && 0 <= j < s.cols ==> y.at[i][j] >= 0.0)
      && (forall i, j :: 0 <= i < s.rows && 0 <= j < s.cols ==>
            y.at[i][j] == if s.at[i][j] >= 0.0 then s.at[i][j] else 0.0)
      && RectifierValue(y) == y
  {
    var y := RectifierValue(s);
    Extensionality(RectifierValue(y), y);
  }

  /** The Rectifier Jacobian of an n×1 column is n×n, zero off the diagonal, with 1 on it where
      `y_i > 0` and 0 where `y_i <= 0`. */
  lemma RectifierJacobianDiagonal(tr: Transcendentals, y: Matrix)
    requires y.Valid() && y.cols == 1
    ensures var jac := Jacobian(Rectifier, tr, y);
      && jac.rows == y.rows && jac.cols == y.rows
      && (forall i :: 0 <= i < y.rows ==> jac.at[i][i] == if y.at[i][0] > 0.0 then 1.0 else 0.0)
      && (forall i, j :: 0 <= i < y.rows && 0 <= j < y.rows && i != j ==> jac.at[i][j] == 0.0)
  {
    var v := Indicators(y);
    FlattenColumn(v);
  }

  /** On a matrix of several columns the Rectifier Jacobian takes its diagonal from the first n
      entries of the row-major flattening, not from the first column. */
  lemma RectifierJacobianWide(tr: Transcendentals, y: Matrix)
    requires y.Valid() && y.rows > 0 && y.cols > 0
    ensures Derivative(Rectifier, tr, y).Ok?
    ensures var jac := Derivative(Rectifier, tr, y).value;
      forall i :: 0 <= i < y.rows ==> i < |Flatten(y)| && jac.at[i][i] == if Flatten(y)[i] > 0.0 then 1.0 else 0.0
  {
    var once := Map(y, OnePositive);
    FlattenMap(y, OnePositive);
    FlattenMap(once, ZeroNonPositive);
    IndicatorsLength(y);
  }
}
