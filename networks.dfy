/** The `Network` class of `nn/networks.py`, with the query of its `Classifier` subclass: an
    ordered list of layers with a forward, a backward and an update pass over them, an error
    function looked up by tag, a learning rate, and a JSON form. Each pass is proved to do what
    the functions of `NetworkSpec` say. */
module Networks {
  import opened Failures
  import opened Matrices
  import opened Activations
  import opened Json
  import opened Layers
  import opened ErrorFuncs
  import opened Registry
  import opened NetworkSpec

  class Network {
    const name: string
    const nInput: nat
    var errorFunc: ErrorFunc
    var epsilon: real
    var layers: seq<Layer>

    /** Every layer's own arrays are shaped. */
    predicate AllShaped()
      reads this
    {
      forall i :: 0 <= i < |layers| ==> layers[i].Shaped()
    }

    /** Distinct layers with arrays of their own, each valid and built by a registered class,
        each taking as many inputs as the layer before it outputs. */
    ghost predicate Valid()
      reads this, layers
    {
      AllShaped() && ValidLayers(layers) && forall i :: 0 <= i < |layers| ==> layers[i].Valid()
    }

    /** The part of `Valid` that what the layers store does not affect. */
    ghost predicate ValidLayers(ls: seq<Layer>) {
      && (forall i, j {:trigger Apart(ls, i, j)} :: 0 <= i < |ls| && 0 <= j < |ls| && i != j ==> Apart(ls, i, j))
      && (forall i :: 0 <= i < |ls| ==> ls[i].Shaped() && Registered(ls[i].kind))
      && (forall i :: 0 <= i < |ls| ==> ls[i] as object != this && ls[i].W as object != this && ls[i].b as object != this)
      && (ls != [] ==> ls[0].W.Length1 == nInput)
      && (forall j {:trigger FedBy(ls, j)} :: 0 < j < |ls| ==> FedBy(ls, j))
    }

    /** Layers `i` and `j` and their arrays are distinct objects. */
    static ghost predicate Apart(ls: seq<Layer>, i: nat, j: nat)
      requires i < |ls| && j < |ls|
    {
      ls[i] != ls[j] && ls[i].W != ls[j].W && ls[i].b != ls[j].b && ls[i].W != ls[j].b
    }

    /** Layer `j` takes as many inputs as layer `j - 1` outputs. */
    static ghost predicate FedBy(ls: seq<Layer>, j: nat)
      requires 0 < j < |ls|
    {
      ls[j].W.Length1 == ls[j - 1].W.Length0
    }

    /** Layer `i` shares no object with any other layer. */
    lemma Alone(ls: seq<Layer>, i: nat)
      requires ValidLayers(ls) && i < |ls|
      ensures forall k :: 0 <= k < |ls| && k != i ==>
        ls[k] != ls[i] && ls[k].W != ls[i].W && ls[k].b != ls[i].b && ls[k].W != ls[i].b && ls[k].b != ls[i].W
    {
      forall k | 0 <= k < |ls| && k != i
        ensures ls[k] != ls[i] && ls[k].W != ls[i].W && ls[k].b != ls[i].b && ls[k].W != ls[i].b && ls[k].b != ls[i].W
      {
        assert Apart(ls, k, i) && Apart(ls, i, k);
      }
    }

    /** A fresh valid layer taking the current output width keeps the list valid. */
    lemma ValidLayersAppend(ls: seq<Layer>, l: Layer)
      requires ValidLayers(ls) && l.Shaped() && Registered(l.kind)
      requires l as object != this && l.W as object != this && l.b as object != this
      requires forall i :: 0 <= i < |ls| ==> ls[i] != l && ls[i].W != l.W && ls[i].W != l.b && ls[i].b != l.W && ls[i].b != l.b
      requires l.W.Length1 == if ls == [] then nInput else ls[|ls| - 1].W.Length0
      ensures ValidLayers(ls + [l])
    {
      var qs := ls + [l];
      assert forall i :: 0 <= i < |ls| ==> qs[i] == ls[i];
      forall i, j | 0 <= i < |qs| && 0 <= j < |qs| && i != j
        ensures Apart(qs, i, j)
      {
        if i < |ls| && j < |ls| {
          assert Apart(ls, i, j);
        }
      }
      forall j | 0 < j < |qs|
        ensures FedBy(qs, j)
      {
        if j < |ls| {
          assert FedBy(ls, j);
        }
      }
    }

    /** The weight and bias arrays of all the layers. */
    function Arrays(): (s: set<array2<real>>)
      reads this
      ensures forall i :: 0 <= i < |layers| ==> layers[i].W in s && layers[i].b in s
    {
      (set i | 0 <= i < |layers| :: layers[i].W) + (set i | 0 <= i < |layers| :: layers[i].b)
    }

    /** The width of the network output: the last layer's `n_output`, or `n_input`. */
    function OutputWidth(): nat
      reads this
    {
      if layers == [] then nInput else layers[|layers| - 1].W.Length0
    }

    /** The parameters of the layers, in order. */
    function Snapshot(): (ps: seq<LayerParams>)
      requires AllShaped()
      reads this, Arrays()
      ensures |ps| == |layers| && forall i :: 0 <= i < |layers| ==> ps[i] == layers[i].Params()
    {
      seq(|layers|, i requires 0 <= i < |layers| && AllShaped() reads this, Arrays() => layers[i].Params())
    }

    /** The outputs the layers store. */
    function Outputs(): (ys: seq<Option<Matrix>>)
      reads this, layers
      ensures |ys| == |layers| && forall i :: 0 <= i < |layers| ==> ys[i] == layers[i].y
    {
      seq(|layers|, i requires 0 <= i < |layers| reads this, layers => layers[i].y)
    }

    /** The error signals the layers store. */
    function Deltas(): (ds: seq<Option<Matrix>>)
      reads this, layers
      ensures |ds| == |layers| && forall i :: 0 <= i < |layers| ==> ds[i] == layers[i].delta
    {
      seq(|layers|, i requires 0 <= i < |layers| reads this, layers => layers[i].delta)
    }

    /** The state `to_json` writes out. */
    function State(): (s: NetworkState)
      requires AllShaped()
      reads this, Arrays()
      ensures s.layers == Snapshot()
    {
      NetworkState(name, nInput, errorFunc, epsilon, Snapshot())
    }

    /** The layers of a valid network chain from `n_input` to the output width. */
    lemma SnapshotChained()
      requires Valid()
      ensures Chained(nInput, Snapshot()) && Width(nInput, Snapshot(), |layers|) == OutputWidth()
    {
      var ps := Snapshot();
      forall i, j | 0 <= i < j < |ps| && j == i + 1
        ensures ps[j].W.cols == ps[i].W.rows
      {
        assert ps[i] == layers[i].Params() && ps[j] == layers[j].Params() && FedBy(layers, j);
      }
      if ps != [] {
        assert ps[0] == layers[0].Params();
        assert ps[|ps| - 1] == layers[|ps| - 1].Params();
      }
    }

    /** A valid network has a valid state, and the stored values are shaped by their
        layers. */
    lemma StateValid()
      requires Valid()
      ensures Chained(nInput, Snapshot()) && State().Valid() && Linked(Snapshot())
      ensures StoredShapes(Snapshot(), Outputs(), Deltas())
    {
      SnapshotChained();
      ChainedLinked(nInput, Snapshot());
    }

    /** `__init__` with the error function already looked up. */
    constructor (name: string, nInput: nat, errorFunc: ErrorFunc, epsilon: real)
      ensures Valid() && layers == []
      ensures this.name == name && this.nInput == nInput && this.errorFunc == errorFunc && this.epsilon == epsilon
    {
      this.name := name;
      this.nInput := nInput;
      this.errorFunc := errorFunc;
      this.epsilon := epsilon;
      layers := [];
    }

    /** `Network(name, n_input, error_func_name, epsilon)`: an unknown error function tag
        fails with `ErrorFuncDoesNotExist`. */
    static method Create(name: string, nInput: nat, errorFuncName: string, epsilon: real) returns (r: Result<Network>)
      ensures r.Err? <==> FindErrorFunc(ErrorFunctions, errorFuncName).Err?
      ensures r.Err? ==> r.error == UnknownErrorFunction
      ensures r.Ok? ==> fresh(r.value) && r.value.Valid() && r.value.layers == []
      ensures r.Ok? ==> r.value.name == name && r.value.nInput == nInput && r.value.epsilon == epsilon
      ensures r.Ok? ==> r.value.errorFunc == FindErrorFunc(ErrorFunctions, errorFuncName).value
    {
      var f := FindErrorFunc(ErrorFunctions, errorFuncName);
      if f.Err? {
        return Err(f.error);
      }
      var n := new Network(name, nInput, f.value, epsilon);
      r := Ok(n);
    }

    /** The `epsilon` setter. */
    method SetEpsilon(value: real)
      modifies this
      ensures epsilon == value && errorFunc == old(errorFunc) && layers == old(layers)
    {
      epsilon := value;
    }

    /** The `error_func` setter: the tag is looked up, and an unknown one fails and keeps the
        current error function. */
    method SetErrorFunc(errorFuncName: string) returns (o: Outcome)
      modifies this
      ensures epsilon == old(epsilon) && layers == old(layers)
      ensures o.Fail? <==> FindErrorFunc(ErrorFunctions, errorFuncName).Err?
      ensures o.Fail? ==> o.error == UnknownErrorFunction && errorFunc == old(errorFunc)
      ensures o.Pass? ==> errorFunc == FindErrorFunc(ErrorFunctions, errorFuncName).value
    {
      var f := FindErrorFunc(ErrorFunctions, errorFuncName);
      if f.Err? {
        return Fail(f.error);
      }
      errorFunc := f.value;
      o := Pass;
    }

    /** `add_layer`: the class registered under `tag` is built with `n_output` outputs, the
        current output width as inputs, and the keyword arguments, and is appended. An unknown
        tag or unaccepted keywords fail and add nothing. */
    method AddLayer(tag: string, nOutput: nat, kwargs: map<string, real>, drawW: (int, int) -> real, drawB: int -> real)
      returns (o: Outcome)
      requires Valid()
      modifies this
      ensures Valid() && epsilon == old(epsilon) && errorFunc == old(errorFunc)
      ensures o.Pass? <==>
        FindClass(LayerClasses, tag).Ok? && AcceptsKeywords(FindClass(LayerClasses, tag).value, kwargs.Keys)
      ensures o.Fail? ==> layers == old(layers)
      ensures o.Fail? ==> o.error == if FindClass(LayerClasses, tag).Err? then UnknownLayerType else BadArguments
      ensures o.Pass? ==> |layers| == |old(layers)| + 1 && layers[..|old(layers)|] == old(layers)
      ensures o.Pass? ==> var l := layers[|layers| - 1];
        && fresh(l) && fresh(l.W) && fresh(l.b)
        && l.kind == Instantiate(FindClass(LayerClasses, tag).value, kwargs).value
        && l.W.Length0 == nOutput && l.W.Length1 == old(OutputWidth())
        && l.y.None? && l.delta.None?
        && (forall i, j :: 0 <= i < nOutput && 0 <= j < l.W.Length1 ==> l.W[i, j] == drawW(i, j))
        && (forall i :: 0 <= i < nOutput ==> l.b[i, 0] == drawB(i))
    {
      var cls := FindClass(LayerClasses, tag);
      if cls.Err? {
        return Fail(cls.error);
      }
      var kind := Instantiate(cls.value, kwargs);
      if kind.Err? {
        return Fail(kind.error);
      }
      InstantiateRegistered(tag, kwargs);
      var nPrev := if layers == [] then nInput else layers[|layers| - 1].NOutput();
      var l := new Layer(kind.value, nOutput, nPrev, drawW, drawB);
      Push(l);
      o := Pass;
    }

    /** Appends a layer that shares no object with the network and takes the current output
        width: the list stays valid and the new layer's parameters and stored values come
        last. */
    method Push(l: Layer)
      requires Valid() && l.Valid() && Registered(l.kind) && l.W.Length1 == OutputWidth()
      requires l as object != this && l.W as object != this && l.b as object != this
      requires forall i :: 0 <= i < |layers| ==>
        layers[i] != l && layers[i].W != l.W && layers[i].W != l.b && layers[i].b != l.W && layers[i].b != l.b
      modifies this
      ensures Valid() && layers == old(layers) + [l] && epsilon == old(epsilon) && errorFunc == old(errorFunc)
      ensures Snapshot() == old(Snapshot()) + [l.Params()]
      ensures Outputs() == old(Outputs()) + [l.y] && Deltas() == old(Deltas()) + [l.delta]
    {
      ValidLayersAppend(layers, l);
      layers := layers + [l];
    }

    /** `propagate_forward`: each layer in turn takes the previous output and stores its
        own. The result is the composition of the layers' steps, and the layers reached store
        the trace; a failing layer stops the pass and leaves the layers after it as they were. */
    method PropagateForward(tr: Transcendentals, x: Matrix) returns (r: Result<Matrix>)
      requires Valid() && tr.ExpPositive() && x.IsColumn(nInput)
      modifies layers
      ensures Valid() && Snapshot() == old(Snapshot()) && Chained(nInput, Snapshot())
      ensures r == Run(tr, Snapshot(), x)
      ensures var ys := Trace(tr, Snapshot(), x);
        Outputs() == Overlay(old(Outputs()), ys, 0, |ys|)
      ensures Deltas() == old(Deltas())
    {
      ghost var ps := Snapshot();
      SnapshotChained();
      ghost var ys := Trace(tr, ps, x);
      TraceSteps(tr, ps, x);
      r := ForwardLoop(tr, x, ps, ys);
      RunTrace(tr, ps, x);
    }

    /** The loop of `propagate_forward` along given steps `ys`. */
    method ForwardLoop(tr: Transcendentals, x: Matrix, ghost ps: seq<LayerParams>, ghost ys: seq<Matrix>)
      returns (r: Result<Matrix>)
      requires Valid() && tr.ExpPositive() && x.IsColumn(nInput) && ps == Snapshot() && Steps(tr, ps, x, ys)
      modifies layers
      ensures Valid() && Snapshot() == ps
      ensures r.Ok? <==> |ys| == |ps|
      ensures r.Ok? ==> r.value == Prev(x, ys)
      ensures r.Err? ==> r.error == EmptyInput
      ensures Outputs() == Overlay(old(Outputs()), ys, 0, |ys|)
      ensures Deltas() == old(Deltas())
    {
      var v := x;
      var i := 0;
      OverlayNone(Outputs(), ys, 0);
      while i < |layers|
        invariant 0 <= i <= |ys| && Valid() && Snapshot() == ps
        invariant v == Prev(x, ys[..i])
        invariant Outputs() == Overlay(old(Outputs()), ys, 0, i)
        invariant Deltas() == old(Deltas())
      {
        var out := ForwardStep(tr, x, ps, ys, i, v);
        if out.Err? {
          return Err(out.error);
        }
        OverlayUp(old(Outputs()), ys, 0, i);
        PrevNext(x, ys, i);
        v := out.value;
        i := i + 1;
      }
      PrevAll(x, ys);
      r := Ok(v);
    }

    /** Layer `i` of `propagate_forward`, with the earlier layers' outputs `ys[..i]` stored: it
        alone stores its output, the next one of the steps, or fails where the steps end. */
    method ForwardStep(tr: Transcendentals, ghost x: Matrix, ghost ps: seq<LayerParams>, ghost ys: seq<Matrix>, i: nat, v: Matrix)
      returns (r: Result<Matrix>)
      requires Valid() && tr.ExpPositive() && ps == Snapshot() && Steps(tr, ps, x, ys)
      requires i < |layers| && i <= |ys| && v == Prev(x, ys[..i])
      modifies layers[i]
      ensures Valid() && Snapshot() == ps
      ensures r.Ok? <==> i < |ys|
      ensures r.Ok? ==> r.value == ys[i]
      ensures r.Err? ==> r.error == EmptyInput
      ensures Outputs() == if r.Ok? then old(Outputs())[i := Some(ys[i])] else old(Outputs())
      ensures Deltas() == old(Deltas())
    {
      assert layers[i].Params() == ps[i];
      assert Forward(tr, ps[i], Prev(x, ys[..i])) == if i < |ys| then Ok(ys[i]) else Err(EmptyInput);
      r := StoreForward(tr, i, v);
    }

    /** Layer `i` computes and stores its output; nothing else changes. */
    method StoreForward(tr: Transcendentals, i: nat, v: Matrix) returns (r: Result<Matrix>)
      requires Valid() && tr.ExpPositive() && i < |layers| && v.IsColumn(layers[i].W.Length1)
      modifies layers[i]
      ensures Valid() && Snapshot() == old(Snapshot())
      ensures r == Forward(tr, layers[i].Params(), v)
      ensures Outputs() == if r.Ok? then old(Outputs())[i := Some(r.value)] else old(Outputs())
      ensures Deltas() == old(Deltas())
    {
      Alone(layers, i);
      r := layers[i].PropagateForward(tr, v);
    }

    /** `propagate_backward`: a forward pass, then the derivative of the error between the
        target and the output as the seed, handed back from the last layer to the first with
        the `W` of the layer after each. Every layer stores its error signal; a failing forward
        pass stops before any is stored. */
    method PropagateBackward(tr: Transcendentals, x: Matrix, t: Matrix) returns (o: Outcome)
      requires Valid() && tr.ExpPositive() && x.IsColumn(nInput) && t.IsColumn(OutputWidth())
      modifies layers
      ensures Valid() && Snapshot() == old(Snapshot()) && Chained(nInput, Snapshot())
      ensures OutputWidth() == Width(nInput, Snapshot(), |layers|)
      ensures o.Fail? <==> BackwardPass(tr, Snapshot(), x, t).Err?
      ensures o.Fail? ==> o.error == EmptyInput && Deltas() == old(Deltas())
      ensures var ys := Trace(tr, Snapshot(), x);
        Outputs() == Overlay(old(Outputs()), ys, 0, |ys|)
      ensures o.Pass? ==> Deltas() == Stored(BackwardPass(tr, Snapshot(), x, t).value)
    {
      ghost var ps := Snapshot();
      SnapshotChained();
      var out := PropagateForward(tr, x);
      if out.Err? {
        return Fail(out.error);
      }
      BackwardPassOk(tr, ps, x, t, out.value);
      ghost var ys := Trace(tr, ps, x);
      OverlayAll(old(Outputs()), ys);
      var d := ErrorFuncs.Derivative(t, out.value);
      BackwardLoop(tr, ps, ys, d, BackDeltas(tr, ps, ys, d));
      o := Pass;
    }

    /** The loop of `propagate_backward` from the seed, along given error signals `ds`. */
    method BackwardLoop(tr: Transcendentals, ghost ps: seq<LayerParams>, ghost ys: seq<Matrix>, seed: Matrix, ghost ds: seq<Matrix>)
      requires Valid() && Snapshot() == ps && Outputs() == Stored(ys) && BackSteps(tr, ps, ys, seed, ds)
      modifies layers
      ensures Valid() && Snapshot() == ps && Outputs() == old(Outputs())
      ensures Deltas() == Stored(ds)
    {
      var d := seed;
      var nextW: Option<Matrix> := None;
      var i := |layers|;
      OverlayNone(Deltas(), ds, i);
      while i > 0
        invariant 0 <= i <= |layers| && Valid() && Snapshot() == ps && Outputs() == old(Outputs())
        invariant Deltas() == Overlay(old(Deltas()), ds, i, |layers|)
        invariant i == |layers| ==> d == seed && nextW.None?
        invariant i < |layers| ==> d == ds[i] && nextW == Some(ps[i].W)
        decreases i
      {
        i := i - 1;
        d := BackStep(tr, ps, ys, seed, ds, i, d, nextW);
        OverlayDown(old(Deltas()), ds, i + 1, |layers|);
        nextW := Some(layers[i].Weights());
      }
      OverlayAll(old(Deltas()), ds);
    }

    /** Layer `i` of `propagate_backward`, handed what the layer after it hands on: it alone
        stores its error signal, the next one of `ds`. */
    method BackStep(tr: Transcendentals, ghost ps: seq<LayerParams>, ghost ys: seq<Matrix>, ghost seed: Matrix, ghost ds: seq<Matrix>,
                    i: nat, d: Matrix, nextW: Option<Matrix>)
      returns (r: Matrix)
      requires Valid() && Snapshot() == ps && BackSteps(tr, ps, ys, seed, ds)
      requires i < |layers| && Outputs()[i] == Some(ys[i])
      requires d == NextDelta(seed, ds, i) && nextW == NextW(ps, i)
      modifies layers[i]
      ensures Valid() && Snapshot() == ps && Outputs() == old(Outputs())
      ensures r == ds[i] && Deltas() == old(Deltas())[i := Some(ds[i])]
    {
      assert layers[i].Params() == ps[i];
      assert ds[i] == Backward(tr, ps[i].kind, ys[i], NextDelta(seed, ds, i), NextW(ps, i));
      var res := StoreBackward(tr, i, d, nextW);
      r := res.value;
    }

    /** Layer `i` computes and stores its error signal; nothing else changes. */
    method StoreBackward(tr: Transcendentals, i: nat, d: Matrix, nextW: Option<Matrix>) returns (r: Result<Matrix>)
      requires Valid() && i < |layers| && BackwardShapes(layers[i].W.Length0, d, nextW)
      modifies layers[i]
      ensures Valid() && Snapshot() == old(Snapshot()) && Outputs() == old(Outputs())
      ensures r.Err? <==> layers[i].y.None?
      ensures r.Err? ==> Deltas() == old(Deltas())
      ensures r.Ok? ==> r.value == Backward(tr, layers[i].kind, layers[i].y.value, d, nextW)
      ensures r.Ok? ==> Deltas() == old(Deltas())[i := Some(r.value)]
    {
      Alone(layers, i);
      r := layers[i].PropagateBackward(tr, d, nextW);
    }

    /** `update`: each layer in turn takes its gradient step with the shared rate, the first
        with the input and each later one with the previous layer's stored output. A layer
        without an error signal or a previous output stops the pass. */
    method Update(x: Matrix) returns (o: Outcome)
      requires Valid() && x.IsColumn(nInput)
      modifies Arrays()
      ensures Valid() && Outputs() == old(Outputs()) && Deltas() == old(Deltas())
      ensures Chained(nInput, old(Snapshot())) && StoredShapes(old(Snapshot()), Outputs(), Deltas())
      ensures Snapshot() == Updated(old(Snapshot()), Outputs(), Deltas(), x, epsilon)
      ensures o.Pass? <==> Reach(x, Outputs(), Deltas(), |layers|) == |layers|
      ensures o.Fail? ==> o.error == UnsetState
    {
      ghost var ps := Snapshot();
      StateValid();
      UpdatedSteps(ps, Outputs(), Deltas(), x, epsilon);
      o := UpdateLoop(x, ps, Outputs(), Deltas(), Updated(ps, Outputs(), Deltas(), x, epsilon));
    }

    /** The loop of `update` from the parameters `ps` to the steps taken `qs`. */
    method UpdateLoop(x: Matrix, ghost ps: seq<LayerParams>, ghost ys: seq<Option<Matrix>>, ghost ds: seq<Option<Matrix>>,
                      ghost qs: seq<LayerParams>)
      returns (o: Outcome)
      requires Valid() && x.IsColumn(nInput) && Chained(nInput, ps) && StoredShapes(ps, ys, ds)
      requires Snapshot() == ps && Outputs() == ys && Deltas() == ds && StepsTaken(ps, ys, ds, x, epsilon, qs)
      modifies Arrays()
      ensures Valid() && Outputs() == ys && Deltas() == ds && Snapshot() == qs
      ensures o.Pass? <==> Reach(x, ys, ds, |ps|) == |ps|
      ensures o.Fail? ==> o.error == UnsetState
    {
      SpliceNone(qs, ps);
      var i := 0;
      while i < |layers|
        invariant 0 <= i <= Reach(x, ys, ds, |ps|) && Valid() && Outputs() == ys && Deltas() == ds
        invariant |layers| == |ps| && Holds(Splice(qs, ps, i))
      {
        var prev := if i == 0 then Some(x) else layers[i - 1].y;
        o := UpdateStep(x, ps, ys, ds, qs, i, prev);
        if o.Fail? {
          HoldsSnapshot(qs);
          return;
        }
        i := i + 1;
      }
      SpliceRest(qs, ps, i);
      HoldsSnapshot(qs);
      o := Pass;
    }

    /** The layers hold the parameters `qs`, layer by layer. */
    ghost predicate Holds(qs: seq<LayerParams>)
      requires AllShaped()
      reads this, Arrays()
    {
      |qs| == |layers| && forall k :: 0 <= k < |layers| ==> layers[k].Params() == qs[k]
    }

    /** Layers holding `qs` have the snapshot `qs`. */
    lemma HoldsSnapshot(qs: seq<LayerParams>)
      requires AllShaped() && Holds(qs)
      ensures Snapshot() == qs
    {
    }

    /** Layers with the snapshot `qs` hold `qs`. */
    lemma SnapshotHolds(qs: seq<LayerParams>)
      requires AllShaped() && Snapshot() == qs
      ensures Holds(qs)
    {
    }

    /** Layer `i` of `update`, after the layers before it took their step: it alone takes its
        step, or the pass stops there when it is blocked. */
    method UpdateStep(x: Matrix, ghost ps: seq<LayerParams>, ghost ys: seq<Option<Matrix>>, ghost ds: seq<Option<Matrix>>,
                      ghost qs: seq<LayerParams>, i: nat, prev: Option<Matrix>)
      returns (o: Outcome)
      requires Valid() && x.IsColumn(nInput) && Chained(nInput, ps) && Outputs() == ys && Deltas() == ds
      requires StoredShapes(ps, ys, ds) && StepsTaken(ps, ys, ds, x, epsilon, qs)
      requires i < |layers| && i <= Reach(x, ys, ds, |ps|)
      requires Holds(Splice(qs, ps, i)) && prev == PrevOutput(x, ys, i)
      modifies layers[i].W, layers[i].b
      ensures Valid() && Outputs() == ys && Deltas() == ds
      ensures o.Fail? <==> Blocked(x, ys, ds, i)
      ensures o.Fail? ==> o.error == UnsetState && Holds(qs) && i == Reach(x, ys, ds, |ps|)
      ensures o.Pass? ==> i < Reach(x, ys, ds, |ps|) && Holds(Splice(qs, ps, i + 1))
    {
      HoldsSnapshot(Splice(qs, ps, i));
      assert ps[i] == Snapshot()[i];
      o := StoreUpdate(i, prev);
      if o.Pass? {
        assert qs[i] == Step(ps[i], ds[i].value, PrevOutput(x, ys, i).value, epsilon);
        SpliceNext(qs, ps, i);
        SnapshotHolds(Splice(qs, ps, i + 1));
      } else {
        UpdateStops(x, ps, ys, ds, i);
        SpliceRest(qs, ps, i);
        SnapshotHolds(qs);
      }
    }

    /** Layer `i` takes its step in place; nothing else changes. */
    method StoreUpdate(i: nat, prev: Option<Matrix>) returns (o: Outcome)
      requires Valid() && i < |layers| && (prev.Some? ==> prev.value.IsColumn(layers[i].W.Length1))
      modifies layers[i].W, layers[i].b
      ensures Valid() && Outputs() == old(Outputs()) && Deltas() == old(Deltas())
      ensures o.Fail? <==> layers[i].delta.None? || prev.None?
      ensures o.Fail? ==> o.error == UnsetState && Snapshot() == old(Snapshot())
      ensures o.Pass? ==> Snapshot() == old(Snapshot())[i := Step(old(Snapshot())[i], layers[i].delta.value, prev.value, epsilon)]
    {
      Alone(layers, i);
      o := layers[i].Update(prev, epsilon);
    }

    /** A layer that fails to take its step is the first blocked one. */
    lemma UpdateStops(x: Matrix, ps: seq<LayerParams>, ys: seq<Option<Matrix>>, ds: seq<Option<Matrix>>, i: nat)
      requires |ys| == |ps| && |ds| == |ps| && i < |ps| && i <= Reach(x, ys, ds, |ps|)
      requires Blocked(x, ys, ds, i)
      ensures i == Reach(x, ys, ds, |ps|)
    {
    }

    /** `to_json`. */
    function ToJson(): (j: Json)
      requires Valid()
      reads this, layers, Arrays()
      ensures Chained(nInput, Snapshot())
      ensures j == NetworkToJson(State())
    {
      StateValid();
      NetworkToJson(State())
    }

    /** `Classifier.get_class`: the index of the last layer's stored output closest to 1. */
    function GetClass(): (r: Result<nat>)
      requires Valid()
      reads this, layers
      ensures r == ClassOfOutput(layers != [], if layers == [] then None else layers[|layers| - 1].y)
    {
      if layers == [] then Err(NoLayers)
      else ClassOfOutput(true, layers[|layers| - 1].y)
    }

    /** A layer holding the given parameters and nothing stored. */
    static method LayerOf(p: LayerParams) returns (l: Layer)
      requires p.Valid()
      ensures fresh(l) && fresh(l.W) && fresh(l.b) && l.Valid() && l.kind == p.kind
      ensures l.W.Length0 == p.W.rows && l.W.Length1 == p.W.cols
      ensures l.Params() == p && l.y.None? && l.delta.None?
    {
      var w, b := p.W, p.b;
      l := new Layer(p.kind, w.rows, w.cols,
        (i, j) => if 0 <= i < w.rows && 0 <= j < w.cols then w.at[i][j] else 0.0,
        i => if 0 <= i < b.rows then b.at[i][0] else 0.0);
      Extensionality(l.Params().W, p.W);
      Extensionality(l.Params().b, p.b);
    }

    /** The layers of an empty network rebuilt from their parameters, in order, with nothing
        stored. */
    method Restore(ps: seq<LayerParams>)
      requires Valid() && layers == [] && Chained(nInput, ps) && forall i :: 0 <= i < |ps| ==> Registered(ps[i].kind)
      modifies this
      ensures Valid() && epsilon == old(epsilon) && errorFunc == old(errorFunc)
      ensures Snapshot() == ps && Outputs() == Unset(|ps|) && Deltas() == Unset(|ps|)
    {
      var i := 0;
      while i < |ps|
        invariant 0 <= i <= |ps| && Valid() && |layers| == i && epsilon == old(epsilon) && errorFunc == old(errorFunc)
        invariant Snapshot() == ps[..i] && Outputs() == Unset(i) && Deltas() == Unset(i)
      {
        RestoreOne(ps, i);
        i := i + 1;
      }
      assert ps[..i] == ps;
    }

    /** Layer `i` of `ps` rebuilt and appended after the first `i`. */
    method RestoreOne(ps: seq<LayerParams>, i: nat)
      requires Valid() && Chained(nInput, ps) && forall k :: 0 <= k < |ps| ==> Registered(ps[k].kind)
      requires i < |ps| && |layers| == i && Snapshot() == ps[..i] && Outputs() == Unset(i) && Deltas() == Unset(i)
      modifies this
      ensures Valid() && epsilon == old(epsilon) && errorFunc == old(errorFunc) && |layers| == i + 1
      ensures Snapshot() == ps[..i + 1] && Outputs() == Unset(i + 1) && Deltas() == Unset(i + 1)
    {
      assert OutputWidth() == Width(nInput, ps, i);
      var l := LayerOf(ps[i]);
      Push(l);
      TakeNext(ps, i);
      UnsetNext(i);
    }

    /** `from_json` with its evident intent: the network the JSON describes, with each layer's
        weights, bias and parameters restored and nothing stored. */
    static method Load(j: Json) returns (r: Result<Network>)
      ensures r.Err? <==> FromJson(j).Err?
      ensures r.Err? ==> r.error == FromJson(j).error
      ensures r.Ok? ==> fresh(r.value) && r.value.Valid() && r.value.State() == FromJson(j).value
      ensures r.Ok? ==> r.value.Outputs() == Unset(|r.value.layers|) && r.value.Deltas() == Unset(|r.value.layers|)
    {
      var s := FromJson(j);
      if s.Err? {
        return Err(s.error);
      }
      var st := s.value;
      var n := new Network(st.name, st.nInput, st.errorFunc, st.epsilon);
      n.Restore(st.layers);
      r := Ok(n);
    }
  }
}
