/** The dense layers of `nn/layers.py`. A layer holds a weight matrix `W` (outputs × inputs), a
    bias column `b`, its activation, and the output `y` and error signal `delta` of the last
    forward and backward pass. The values a layer computes are given first as functions of a
    snapshot of its parameters; the `Layer` class then performs them on its arrays and fields. */
module Layers {
  import opened Failures
  import opened Matrices
  import opened Activations
  import opened Json

  /** The four layer subclasses; a Tanh layer carries the parameters of its activation. */
  datatype LayerKind = LogisticLayer | TanhLayer(alpha: real, beta: real) | SoftmaxLayer | RectifierLayer
  {
    /** The class tag `name`. */
    function Name(): (n: string)
      ensures n in {"logistic", "tanh", "softmax", "rectifier"}
    {
      match this
      case LogisticLayer => "logistic"
      case TanhLayer(_, _) => "tanh"
      case SoftmaxLayer => "softmax"
      case RectifierLayer => "rectifier"
    }

    /** The activation each subclass passes to the base constructor. */
    function Act(): (a: Activation)
      ensures a.Logistic? <==> this.LogisticLayer?
      ensures a.Softmax? <==> this.SoftmaxLayer?
      ensures a.Rectifier? <==> this.RectifierLayer?
      ensures this.TanhLayer? ==> a == Tanh(this.alpha, this.beta)
    {
      match this
      case LogisticLayer => Logistic
      case TanhLayer(alpha, beta) => Tanh(alpha, beta)
      case SoftmaxLayer => Softmax
      case RectifierLayer => Rectifier
    }
  }

  /** The tag tells the subclasses apart. */
  lemma NameIdentifiesClass(k1: LayerKind, k2: LayerKind)
    ensures k1.Name() == k2.Name() <==>
      (k1.LogisticLayer? && k2.LogisticLayer?) || (k1.TanhLayer? && k2.TanhLayer?) ||
      (k1.SoftmaxLayer? && k2.SoftmaxLayer?) || (k1.RectifierLayer? && k2.RectifierLayer?)
  {
    assert "logistic" != "tanh" by { assert "logistic"[0] != "tanh"[0]; }
    assert "logistic" != "softmax" by { assert "logistic"[0] != "softmax"[0]; }
    assert "logistic" != "rectifier" by { assert "logistic"[0] != "rectifier"[0]; }
    assert "tanh" != "softmax" by { assert "tanh"[0] != "softmax"[0]; }
    assert "tanh" != "rectifier" by { assert "tanh"[0] != "rectifier"[0]; }
    assert "softmax" != "rectifier" by { assert "softmax"[0] != "rectifier"[0]; }
  }

  /** A snapshot of a layer's parameters. */
  datatype LayerParams = LayerParams(kind: LayerKind, W: Matrix, b: Matrix)
  {
    /** `b` is a column with one entry per row of `W`. */
    predicate Valid() {
      W.Valid() && b.IsColumn(W.rows)
    }

    /** `n_output`: the number of rows of `W`. */
    function NOutput(): nat {
      W.rows
    }
  }

  // ---------------------------------------------------------------------------------------
  // The forward pass

  /** `W·x + b` for an input column `x`. */
  function PreActivation(p: LayerParams, x: Matrix): (s: Matrix)
    requires p.Valid() && x.IsColumn(p.W.cols)
    ensures s.IsColumn(p.NOutput())
    ensures forall i :: 0 <= i < p.W.rows ==> s.at[i][0] == Dot(p.W, i, x, 0, p.W.cols) + p.b.at[i][0]
  {
    Add(MatMul(p.W, x), p.b)
  }

  /** `propagate_forward`: the activation of `W·x + b`. It is a column with `n_output` entries,
      and it fails only for a Softmax layer without outputs, whose maximum is undefined. */
  function Forward(tr: Transcendentals, p: LayerParams, x: Matrix): (r: Result<Matrix>)
    requires tr.ExpPositive() && p.Valid() && x.IsColumn(p.W.cols)
    ensures r.Ok? ==> r.value.IsColumn(p.NOutput())
    ensures r.Err? <==> p.kind.SoftmaxLayer? && p.NOutput() == 0
    ensures r.Err? ==> r.error == EmptyInput
  {
    var s := PreActivation(p, x);
    FlattenColumn(s);
    Value(p.kind.Act(), tr, s)
  }

  // ---------------------------------------------------------------------------------------
  // The backward pass

  /** The shapes the products of `propagate_backward` need: the next layer's `W` takes this
      layer's `n` outputs as inputs and the next delta has one entry per row of it; without a
      next layer the delta has one entry per output. */
  predicate BackwardShapes(n: nat, nextDelta: Matrix, nextW: Option<Matrix>) {
    match nextW
    case Some(w) => w.Valid() && w.cols == n && nextDelta.IsColumn(w.rows)
    case None => nextDelta.IsColumn(n)
  }

  /** The error signal the Jacobian is applied to: `next_Wᵀ·next_delta`, or `next_delta` itself
      when there is no next layer. */
  function Upstream(n: nat, nextDelta: Matrix, nextW: Option<Matrix>): (g: Matrix)
    requires BackwardShapes(n, nextDelta, nextW)
    ensures g.IsColumn(n)
  {
    match nextW
    case Some(w) => MatMul(Transpose(w), nextDelta)
    case None => nextDelta
  }

  /** `propagate_backward` at the stored output `y`: `J(y)·next_Wᵀ·next_delta`, multiplied from
      the left, or `J(y)·next_delta`. It is a column with one entry per output. */
  function Backward(tr: Transcendentals, kind: LayerKind, y: Matrix, nextDelta: Matrix, nextW: Option<Matrix>): (d: Matrix)
    requires y.Valid() && y.cols == 1 && BackwardShapes(y.rows, nextDelta, nextW)
    ensures d.IsColumn(y.rows)
  {
    var jac := Jacobian(kind.Act(), tr, y);
    match nextW
    case Some(w) => MatMul(MatMul(jac, Transpose(w)), nextDelta)
    case None => MatMul(jac, nextDelta)
  }

  /** The diagonal of the Jacobian of a Logistic, Tanh or Rectifier layer at `y`. */
  function Slopes(kind: LayerKind, tr: Transcendentals, y: Matrix): (d: seq<real>)
    requires y.Valid() && y.cols == 1
    ensures |d| >= y.rows
    ensures !kind.SoftmaxLayer? ==> Jacobian(kind.Act(), tr, y) == Diag(y.rows, d)
  {
    match kind
    case LogisticLayer => LogisticSlopes(Entries(y))
    case TanhLayer(alpha, beta) => TanhSlopes(tr, alpha, beta, Entries(y))
    case SoftmaxLayer => Entries(y)
    case RectifierLayer =>
      IndicatorsLength(y);
      Flatten(Indicators(y))
  }

  /** For a layer whose Jacobian at `y` is the diagonal matrix of `sl` (as `Slopes` shows for
      every layer but Softmax), the backward pass is the chain rule entry by entry: each delta is
      the slope of the activation at that output times the upstream signal. */
  lemma BackwardDiagonal(tr: Transcendentals, kind: LayerKind, y: Matrix, nextDelta: Matrix, nextW: Option<Matrix>, sl: seq<real>)
    requires y.Valid() && y.cols == 1 && BackwardShapes(y.rows, nextDelta, nextW)
    requires y.rows <= |sl| && Jacobian(kind.Act(), tr, y) == Diag(y.rows, sl)
    ensures Backward(tr, kind, y, nextDelta, nextW) == Scaled(y.rows, sl, Upstream(y.rows, nextDelta, nextW))
  {
    BackwardThroughDiagonal(tr, kind, y, nextDelta, nextW, sl);
    DiagonalTimesUpstream(y.rows, sl, nextDelta, nextW);
  }

  /** The column whose i-th entry is `sl[i]·g_i`: the element-wise product `sl * g`. */
  function Scaled(n: nat, sl: seq<real>, g: Matrix): (r: Matrix)
    requires n <= |sl| && g.IsColumn(n)
    ensures r.IsColumn(n) && forall i :: 0 <= i < n ==> r.at[i][0] == sl[i] * g.at[i][0]
  {
    ColumnOf(seq(n, i requires 0 <= i < n => sl[i] * g.at[i][0]))
  }

  /** When the Jacobian is the diagonal matrix of `sl`, the backward pass is the product with it. */
  lemma BackwardThroughDiagonal(tr: Transcendentals, kind: LayerKind, y: Matrix, nextDelta: Matrix, nextW: Option<Matrix>, sl: seq<real>)
    requires y.Valid() && y.cols == 1 && BackwardShapes(y.rows, nextDelta, nextW)
    requires y.rows <= |sl| && Jacobian(kind.Act(), tr, y) == Diag(y.rows, sl)
    ensures Backward(tr, kind, y, nextDelta, nextW) == DiagonalBackward(y.rows, sl, nextDelta, nextW)
  {
    match nextW
    case None =>
    case Some(w) =>
  }

  /** The backward product with the Jacobian replaced by a given diagonal matrix. */
  function DiagonalBackward(n: nat, sl: seq<real>, nextDelta: Matrix, nextW: Option<Matrix>): (d: Matrix)
    requires n <= |sl| && BackwardShapes(n, nextDelta, nextW)
    ensures d.IsColumn(n)
  {
    match nextW
    case Some(w) => MatMul(MatMul(Diag(n, sl), Transpose(w)), nextDelta)
    case None => MatMul(Diag(n, sl), nextDelta)
  }

  lemma DiagonalTimesUpstream(n: nat, sl: seq<real>, nextDelta: Matrix, nextW: Option<Matrix>)
    requires n <= |sl| && BackwardShapes(n, nextDelta, nextW)
    ensures DiagonalBackward(n, sl, nextDelta, nextW) == Scaled(n, sl, Upstream(n, nextDelta, nextW))
  {
    match nextW {
      case None =>
        DiagTimes(n, sl, nextDelta);
      case Some(w) =>
        DiagonalThroughWeights(n, sl, w, nextDelta);
    }
    Extensionality(DiagonalBackward(n, sl, nextDelta, nextW), Scaled(n, sl, Upstream(n, nextDelta, nextW)));
  }

  /** `(diag(d)·wᵀ)·δ` is `d` times `wᵀ·δ`, entry by entry. */
  lemma DiagonalThroughWeights(n: nat, sl: seq<real>, w: Matrix, nextDelta: Matrix)
    requires n <= |sl| && w.Valid() && w.cols == n && nextDelta.IsColumn(w.rows)
    ensures var wt := Transpose(w);
      forall i :: 0 <= i < n ==>
        MatMul(MatMul(Diag(n, sl), wt), nextDelta).at[i][0] == sl[i] * MatMul(wt, nextDelta).at[i][0]
  {
    var wt := Transpose(w);
    DiagTimes(n, sl, wt);
    var jw := MatMul(Diag(n, sl), wt);
    forall i | 0 <= i < n
      ensures MatMul(jw, nextDelta).at[i][0] == sl[i] * MatMul(wt, nextDelta).at[i][0]
    {
      DotScaledRow(jw, i, wt, i, nextDelta, 0, sl[i], w.rows);
    }
  }

  /** A Rectifier layer passes the upstream signal through where its output is positive and
      stops it elsewhere. */
  lemma RectifierBackward(tr: Transcendentals, y: Matrix, nextDelta: Matrix, nextW: Option<Matrix>)
    requires y.Valid() && y.cols == 1 && BackwardShapes(y.rows, nextDelta, nextW)
    ensures var d := Backward(tr, RectifierLayer, y, nextDelta, nextW);
      var g := Upstream(y.rows, nextDelta, nextW);
      forall i :: 0 <= i < y.rows ==> d.at[i][0] == if y.at[i][0] > 0.0 then g.at[i][0] else 0.0
  {
    var sl := Slopes(RectifierLayer, tr, y);
    BackwardDiagonal(tr, RectifierLayer, y, nextDelta, nextW, sl);
    RectifierJacobianDiagonal(tr, y);
    forall i | 0 <= i < y.rows
      ensures sl[i] == if y.at[i][0] > 0.0 then 1.0 else 0.0
    {
      assert Diag(y.rows, sl).at[i][i] == sl[i];
    }
  }

  // ---------------------------------------------------------------------------------------
  // The gradient step

  /** `update`: `W - ε·δ·prev_yᵀ` and `b - ε·δ`. Entry (i, j) of `W` moves by `ε·δ_i·prev_y_j`
      and entry i of `b` by `ε·δ_i`; the kind and both shapes are kept. */
  function Step(p: LayerParams, delta: Matrix, prevY: Matrix, eps: real): (q: LayerParams)
    requires p.Valid() && delta.IsColumn(p.W.rows) && prevY.IsColumn(p.W.cols)
    ensures q.Valid() && q.kind == p.kind && q.W.rows == p.W.rows && q.W.cols == p.W.cols
    ensures forall i, j :: 0 <= i < p.W.rows && 0 <= j < p.W.cols ==>
      q.W.at[i][j] == p.W.at[i][j] - eps * (delta.at[i][0] * prevY.at[j][0])
    ensures forall i :: 0 <= i < p.W.rows ==> q.b.at[i][0] == p.b.at[i][0] - eps * delta.at[i][0]
  {
    var yt := Transpose(prevY);
    var outer := MatMul(delta, yt);
    forall i, j | 0 <= i < p.W.rows && 0 <= j < p.W.cols
      ensures outer.at[i][j] == delta.at[i][0] * prevY.at[j][0]
    {
      DotSingle(delta, i, yt, j);
    }
    LayerParams(p.kind, Sub(p.W, Scale(eps, outer)), Sub(p.b, Scale(eps, delta)))
  }

  /** A step with learning rate 0 changes nothing. */
  lemma StepZeroRate(p: LayerParams, delta: Matrix, prevY: Matrix)
    requires p.Valid() && delta.IsColumn(p.W.rows) && prevY.IsColumn(p.W.cols)
    ensures Step(p, delta, prevY, 0.0) == p
  {
    var q := Step(p, delta, prevY, 0.0);
    Extensionality(q.W, p.W);
    Extensionality(q.b, p.b);
  }

  /** A step with a zero error signal changes nothing. */
  lemma StepZeroDelta(p: LayerParams, prevY: Matrix, eps: real)
    requires p.Valid() && prevY.IsColumn(p.W.cols)
    ensures Step(p, Zeros(p.W.rows, 1), prevY, eps) == p
  {
    var q := Step(p, Zeros(p.W.rows, 1), prevY, eps);
    Extensionality(q.W, p.W);
    Extensionality(q.b, p.b);
  }

  /** A step followed by the step with the opposite learning rate restores the parameters. */
  lemma StepUndone(p: LayerParams, delta: Matrix, prevY: Matrix, eps: real)
    requires p.Valid() && delta.IsColumn(p.W.rows) && prevY.IsColumn(p.W.cols)
    ensures Step(Step(p, delta, prevY, eps), delta, prevY, -eps) == p
  {
    var q := Step(Step(p, delta, prevY, eps), delta, prevY, -eps);
    Extensionality(q.W, p.W);
    Extensionality(q.b, p.b);
  }

  /** Matrices whose entries are those of a step are that step's parameters. */
  lemma StepMatches(p: LayerParams, delta: Matrix, prevY: Matrix, eps: real, w: Matrix, b: Matrix)
    requires p.Valid() && delta.IsColumn(p.W.rows) && prevY.IsColumn(p.W.cols)
    requires w.Valid() && w.rows == p.W.rows && w.cols == p.W.cols && b.IsColumn(p.W.rows)
    requires forall i, j :: 0 <= i < p.W.rows && 0 <= j < p.W.cols ==>
      w.at[i][j] == p.W.at[i][j] - eps * (delta.at[i][0] * prevY.at[j][0])
    requires forall i :: 0 <= i < p.W.rows ==> b.at[i][0] == p.b.at[i][0] - eps * delta.at[i][0]
    ensures Step(p, delta, prevY, eps) == LayerParams(p.kind, w, b)
  {
    var q := Step(p, delta, prevY, eps);
    Extensionality(q.W, w);
    Extensionality(q.b, b);
  }

  // ---------------------------------------------------------------------------------------
  // Serialisation

  /** `to_json`: the tag, `W` and `b` as nested lists, and for a Tanh layer its two
      parameters. */
  function ParamsToJson(p: LayerParams): (j: Json)
    requires p.Valid()
    ensures j.JObj?
    ensures j.fields.Keys == if p.kind.TanhLayer? then {"type", "W", "b", "alpha", "beta"} else {"type", "W", "b"}
    ensures j.fields["type"] == JStr(p.kind.Name())
    ensures j.fields["W"] == MatrixToJson(p.W) && j.fields["b"] == MatrixToJson(p.b)
    ensures p.kind.TanhLayer? ==> j.fields["alpha"] == JNum(p.kind.alpha) && j.fields["beta"] == JNum(p.kind.beta)
  {
    var base := map["type" := JStr(p.kind.Name()), "W" := MatrixToJson(p.W), "b" := MatrixToJson(p.b)];
    match p.kind
    case TanhLayer(alpha, beta) => JObj(base["alpha" := JNum(alpha)]["beta" := JNum(beta)])
    case _ => JObj(base)
  }

  /** The written weights and bias read back, with the layer's input width, give the
      parameters back, and the number of outputs is the length of the written `W`. */
  lemma ParamsJsonRestoresMatrices(p: LayerParams)
    requires p.Valid()
    ensures var j := ParamsToJson(p);
      && |j.fields["W"].items| == p.NOutput()
      && MatrixFromJson(j.fields["W"], p.W.cols) == Ok(p.W)
      && MatrixFromJson(j.fields["b"], 1) == Ok(p.b)
  {
    MatrixRoundTrip(p.W);
    MatrixRoundTrip(p.b);
  }

  // ---------------------------------------------------------------------------------------
  // The layer object

  /** A layer whose weights and bias are updated in place and whose last output and error
      signal are stored in fields. */
  class Layer {
    const kind: LayerKind
    const W: array2<real>
    const b: array2<real>
    var y: Option<Matrix>
    var delta: Option<Matrix>

    /** `b` is a separate column with one entry per row of `W`. */
    predicate Shaped() {
      W != b && b.Length0 == W.Length0 && b.Length1 == 1
    }

    /** The arrays are shaped, and a stored output or error signal is a column with one entry
        per output. */
    predicate Valid()
      reads this
    {
      && Shaped()
      && (y.Some? ==> y.value.IsColumn(W.Length0))
      && (delta.Some? ==> delta.value.IsColumn(W.Length0))
    }

    /** `n_output`: the number of rows of `W`. */
    function NOutput(): (n: nat)
      ensures n == W.Length0
    {
      W.Length0
    }

    /** The current weights as a matrix. */
    function Weights(): (m: Matrix)
      reads W
      ensures m.Valid() && m.rows == W.Length0 && m.cols == W.Length1
      ensures forall i, j :: 0 <= i < W.Length0 && 0 <= j < W.Length1 ==> m.at[i][j] == W[i, j]
    {
      Matrix(W.Length0, W.Length1,
        seq(W.Length0, i requires 0 <= i < W.Length0 reads W =>
          seq(W.Length1, j requires 0 <= j < W.Length1 reads W => W[i, j])))
    }

    /** The current bias as a matrix. */
    function Bias(): (m: Matrix)
      reads b
      ensures m.Valid() && m.rows == b.Length0 && m.cols == b.Length1
      ensures forall i, j :: 0 <= i < b.Length0 && 0 <= j < b.Length1 ==> m.at[i][j] == b[i, j]
    {
      Matrix(b.Length0, b.Length1,
        seq(b.Length0, i requires 0 <= i < b.Length0 reads b =>
          seq(b.Length1, j requires 0 <= j < b.Length1 reads b => b[i, j])))
    }

    /** A snapshot of the parameters. */
    function Params(): (p: LayerParams)
      requires Shaped()
      reads W, b
      ensures p.Valid() && p.kind == kind && p.W == Weights() && p.b == Bias()
      ensures p.NOutput() == NOutput() && p.W.cols == W.Length1
    {
      LayerParams(kind, Weights(), Bias())
    }

    /** `__init__`: an `nOutput × nPrev` weight matrix and an `nOutput × 1` bias, filled by
        `drawW` and `drawB` (the uniform random draws of the source), and no stored output or
        error signal. */
    constructor (kind: LayerKind, nOutput: nat, nPrev: nat, drawW: (int, int) -> real, drawB: int -> real)
      ensures Valid() && fresh(W) && fresh(b)
      ensures this.kind == kind && y.None? && delta.None?
      ensures W.Length0 == nOutput && W.Length1 == nPrev
      ensures forall i, j :: 0 <= i < nOutput && 0 <= j < nPrev ==> W[i, j] == drawW(i, j)
      ensures forall i :: 0 <= i < nOutput ==> b[i, 0] == drawB(i)
    {
      this.kind := kind;
      W := new real[nOutput, nPrev]((i, j) => drawW(i, j));
      b := new real[nOutput, 1]((i, j) => drawB(i));
      y := None;
      delta := None;
    }

    /** `propagate_forward`: computes `f(W·x + b)`, stores it as the output and returns it. A
        failure stores nothing. */
    method PropagateForward(tr: Transcendentals, x: Matrix) returns (r: Result<Matrix>)
      requires Valid() && tr.ExpPositive() && x.IsColumn(W.Length1)
      modifies this
      ensures Valid()
      ensures r == Forward(tr, Params(), x)
      ensures y == if r.Ok? then Some(r.value) else old(y)
      ensures delta == old(delta)
    {
      var s := PreActivation(Params(), x);
      r := GetValue(kind.Act(), tr, s);
      if r.Ok? {
        y := Some(r.value);
      }
    }

    /** `propagate_backward`: computes the error signal from the stored output, stores it and
        returns it. Without a stored output the Jacobian cannot be formed and nothing is
        stored. */
    method PropagateBackward(tr: Transcendentals, nextDelta: Matrix, nextW: Option<Matrix>) returns (r: Result<Matrix>)
      requires Valid() && BackwardShapes(W.Length0, nextDelta, nextW)
      modifies this
      ensures Valid() && y == old(y)
      ensures r.Err? <==> y.None?
      ensures r.Err? ==> r.error == UnsetState && delta == old(delta)
      ensures r.Ok? ==> r.value == Backward(tr, kind, y.value, nextDelta, nextW) && delta == Some(r.value)
    {
      if y.None? {
        return Err(UnsetState);
      }
      var jac := GetDerivative(kind.Act(), tr, y.value);
      var d;
      match nextW {
        case Some(w) =>
          d := MatMul(MatMul(jac.value, Transpose(w)), nextDelta);
        case None =>
          d := MatMul(jac.value, nextDelta);
      }
      delta := Some(d);
      r := Ok(d);
    }

    /** `update`: `W -= ε·δ·prev_yᵀ` and `b -= ε·δ`, entry by entry in place. Without a stored
        error signal, or without a previous output, the product cannot be formed and nothing
        changes. */
    method Update(prevY: Option<Matrix>, eps: real) returns (o: Outcome)
      requires Valid() && (prevY.Some? ==> prevY.value.IsColumn(W.Length1))
      modifies W, b
      ensures o.Fail? <==> delta.None? || prevY.None?
      ensures o.Fail? ==> o.error == UnsetState && Params() == old(Params())
      ensures o.Pass? ==> Params() == Step(old(Params()), delta.value, prevY.value, eps)
    {
      if delta.None? || prevY.None? {
        return Fail(UnsetState);
      }
      var d, py := delta.value, prevY.value;
      ghost var before := Params();
      SubtractOuter(d, py, eps);
      SubtractScaled(d, eps);
      ghost var after := Step(before, d, py, eps);
      StepMatches(before, d, py, eps, Weights(), Bias());
      o := Pass;
    }

    /** `W -= eps * (d @ py.T)`, entry by entry in place. */
    method SubtractOuter(d: Matrix, py: Matrix, eps: real)
      requires d.IsColumn(W.Length0) && py.IsColumn(W.Length1)
      modifies W
      ensures forall r, c :: 0 <= r < W.Length0 && 0 <= c < W.Length1 ==>
        W[r, c] == old(W[r, c]) - eps * (d.at[r][0] * py.at[c][0])
    {
      var i := 0;
      while i < W.Length0
        invariant 0 <= i <= W.Length0
        invariant forall r, c :: 0 <= r < i && 0 <= c < W.Length1 ==>
          W[r, c] == old(W[r, c]) - eps * (d.at[r][0] * py.at[c][0])
        invariant forall r, c :: i <= r < W.Length0 && 0 <= c < W.Length1 ==> W[r, c] == old(W[r, c])
      {
        SubtractRow(i, d.at[i][0], py, eps);
        i := i + 1;
      }
    }

    /** Row `i` of `W -= eps * (d @ py.T)`, where `di` is the i-th entry of `d`. */
    method SubtractRow(i: nat, di: real, py: Matrix, eps: real)
      requires i < W.Length0 && py.IsColumn(W.Length1)
      modifies W
      ensures forall r, c :: 0 <= r < W.Length0 && 0 <= c < W.Length1 ==>
        W[r, c] == if r == i then old(W[r, c]) - eps * (di * py.at[c][0]) else old(W[r, c])
    {
      var j := 0;
      while j < W.Length1
        invariant 0 <= j <= W.Length1
        invariant forall r, c :: 0 <= r < W.Length0 && 0 <= c < W.Length1 ==>
          W[r, c] == if r == i && c < j then old(W[r, c]) - eps * (di * py.at[c][0]) else old(W[r, c])
      {
        W[i, j] := W[i, j] - eps * (di * py.at[j][0]);
        j := j + 1;
      }
    }

    /** `b -= eps * d`, entry by entry in place. */
    method SubtractScaled(d: Matrix, eps: real)
      requires b.Length1 == 1 && d.IsColumn(b.Length0)
      modifies b
      ensures forall r :: 0 <= r < b.Length0 ==> b[r, 0] == old(b[r, 0]) - eps * d.at[r][0]
    {
      var i := 0;
      while i < b.Length0
        invariant 0 <= i <= b.Length0
        invariant forall r :: 0 <= r < i ==> b[r, 0] == old(b[r, 0]) - eps * d.at[r][0]
        invariant forall r :: i <= r < b.Length0 ==> b[r, 0] == old(b[r, 0])
      {
        b[i, 0] := b[i, 0] - eps * d.at[i][0];
        i := i + 1;
      }
    }

    /** `to_json` of the layer's current parameters. */
    function ToJson(): (j: Json)
      requires Shaped()
      reads W, b
      ensures j == ParamsToJson(Params())
    {
      ParamsToJson(Params())
    }
  }
}
