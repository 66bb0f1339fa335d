/** The name-tag registries of `Network` in `nn/networks.py`: the layer classes a network can
    add and the error functions it can use, each looked up by its tag, and the keyword arguments
    each layer constructor accepts. */
module Registry {
  import opened Failures
  import opened Layers
  import opened ErrorFuncs

  /** A layer subclass before construction: what a tag names. */
  datatype LayerClass = LogisticClass | TanhClass | SoftmaxClass | RectifierClass
  {
    /** The class attribute `name`. */
    function Name(): (n: string)
      ensures n in {"logistic", "tanh", "softmax", "rectifier"}
    {
      match this
      case LogisticClass => "logistic"
      case TanhClass => "tanh"
      case SoftmaxClass => "softmax"
      case RectifierClass => "rectifier"
    }
  }

  /** `_LAYER_CLASSES`: the Rectifier layer is commented out of it. */
  const LayerClasses: seq<LayerClass> := [LogisticClass, TanhClass, SoftmaxClass]

  /** `_ERROR_FUNCS`. */
  const ErrorFunctions: seq<ErrorFunc> := [SquaredError]

  /** The first class in `classes` whose tag is `name`. */
  function FindClass(classes: seq<LayerClass>, name: string): (r: Result<LayerClass>)
    ensures r.Ok? <==> exists c :: c in classes && c.Name() == name
    ensures r.Ok? ==> r.value in classes && r.value.Name() == name
    ensures r.Err? ==> r.error == UnknownLayerType
  {
    if classes == [] then Err(UnknownLayerType)
    else if classes[0].Name() == name then Ok(classes[0])
    else
      var r := FindClass(classes[1..], name);
      assert forall c :: c in classes ==> c == classes[0] || c in classes[1..];
      r
  }

  /** The first error function in `funcs` whose tag is `name`. */
  function FindErrorFunc(funcs: seq<ErrorFunc>, name: string): (r: Result<ErrorFunc>)
    ensures r.Ok? <==> exists f :: f in funcs && f.Name() == name
    ensures r.Ok? ==> r.value in funcs && r.value.Name() == name
    ensures r.Err? ==> r.error == UnknownErrorFunction
  {
    if funcs == [] then Err(UnknownErrorFunction)
    else if funcs[0].Name() == name then Ok(funcs[0])
    else
      FindErrorFunc(funcs[1..], name)
  }

  /** `get_layer_cls`: a tag names a registered class exactly when it is one of the three
      live tags; "rectifier" is refused. */
  lemma LayerTagsRegistered(name: string)
    ensures FindClass(LayerClasses, name).Ok? <==> name in {"logistic", "tanh", "softmax"}
    ensures FindClass(LayerClasses, name).Ok? ==> FindClass(LayerClasses, name).value.Name() == name
    ensures FindClass(LayerClasses, "rectifier").Err?
  {
    var r := FindClass(LayerClasses, name);
    if name in {"logistic", "tanh", "softmax"} {
      assert LayerClasses[0].Name() == "logistic";
      assert LayerClasses[1].Name() == "tanh";
      assert LayerClasses[2].Name() == "softmax";
    }
    if r.Ok? {
      assert r.value in LayerClasses;
    }
    var q := FindClass(LayerClasses, "rectifier");
    if q.Ok? {
      assert q.value.Name() == "rectifier";
      assert q.value in LayerClasses;
      assert "logistic" != "rectifier" by { assert "logistic"[0] != "rectifier"[0]; }
      assert "tanh" != "rectifier" by { assert "tanh"[0] != "rectifier"[0]; }
      assert "softmax" != "rectifier" by { assert "softmax"[0] != "rectifier"[0]; }
      assert false;
    }
  }

  /** `_get_error_func_by_name`: "se" finds the squared error and every other name fails. */
  lemma ErrorFuncTags(name: string)
    ensures FindErrorFunc(ErrorFunctions, name) == if name == "se" then Ok(SquaredError) else Err(UnknownErrorFunction)
  {
    assert ErrorFunctions[0] == SquaredError;
    if FindErrorFunc(ErrorFunctions, name).Ok? {
      assert FindErrorFunc(ErrorFunctions, name).value in ErrorFunctions;
    }
  }

  /** The keyword arguments a constructor accepts besides the two widths: none for Logistic,
      Softmax and Rectifier, and exactly `alpha` and `beta` for Tanh, which has no defaults. */
  predicate AcceptsKeywords(cls: LayerClass, keys: set<string>) {
    if cls.TanhClass? then keys == {"alpha", "beta"} else keys == {}
  }

  /** `cls(n_output, n_prev_output, **kwargs)` as far as the kind of layer goes: the Tanh
      parameters come from the keywords; unaccepted keywords fail. */
  function Instantiate(cls: LayerClass, kwargs: map<string, real>): (r: Result<LayerKind>)
    ensures r.Ok? <==> AcceptsKeywords(cls, kwargs.Keys)
    ensures r.Err? ==> r.error == BadArguments
    ensures r.Ok? ==> r.value.Name() == cls.Name()
    ensures r.Ok? && cls.TanhClass? ==> r.value == TanhLayer(kwargs["alpha"], kwargs["beta"])
  {
    if !AcceptsKeywords(cls, kwargs.Keys) then Err(BadArguments)
    else
      match cls
      case LogisticClass => Ok(LogisticLayer)
      case TanhClass => Ok(TanhLayer(kwargs["alpha"], kwargs["beta"]))
      case SoftmaxClass => Ok(SoftmaxLayer)
      case RectifierClass => Ok(RectifierLayer)
  }

  /** A kind of layer that some registered class builds. */
  predicate Registered(kind: LayerKind) {
    !kind.RectifierLayer?
  }

  /** The class that builds layers of a given kind. */
  function ClassOf(kind: LayerKind): (c: LayerClass)
    ensures c.Name() == kind.Name()
  {
    match kind
    case LogisticLayer => LogisticClass
    case TanhLayer(_, _) => TanhClass
    case SoftmaxLayer => SoftmaxClass
    case RectifierLayer => RectifierClass
  }

  /** Resolving a tag and instantiating the class gives only registered kinds. */
  lemma InstantiateRegistered(name: string, kwargs: map<string, real>)
    ensures FindClass(LayerClasses, name).Ok? && Instantiate(FindClass(LayerClasses, name).value, kwargs).Ok? ==>
      Registered(Instantiate(FindClass(LayerClasses, name).value, kwargs).value)
  {
    LayerTagsRegistered(name);
    if FindClass(LayerClasses, name).Ok? {
      assert FindClass(LayerClasses, name).value in LayerClasses;
    }
  }

  /** Every registered kind is reached from its own tag, through the class that builds it. */
  lemma RegisteredTag(kind: LayerKind)
    requires Registered(kind)
    ensures FindClass(LayerClasses, kind.Name()) == Ok(ClassOf(kind))
  {
    LayerTagsRegistered(kind.Name());
    var c := FindClass(LayerClasses, kind.Name()).value;
    assert c in LayerClasses;
    NameIdentifiesClass(kind, kind);
    assert "logistic" != "tanh" by { assert "logistic"[0] != "tanh"[0]; }
    assert "logistic" != "softmax" by { assert "logistic"[0] != "softmax"[0]; }
    assert "tanh" != "softmax" by { assert "tanh"[0] != "softmax"[0]; }
  }
}
