# A verified model of the mps-deep feedforward network engine

This project models, in Dafny, the computational core of a small feedforward neural-network
engine written in Python on top of numpy. A network is an ordered stack of dense layers. Each
layer has a weight matrix `W`, a bias column `b` and an activation (Logistic, Tanh(α, β), Softmax
or Rectifier). The network threads an input column forward through the layers, hands an error
signal δ back from the last layer to the first, and takes one gradient-descent step per layer.
Layers and error functions are chosen by name tag, and a network writes itself out as JSON.

All arithmetic is exact arithmetic on `real`. Matrices are values of the `Matrix` datatype, a
row count, a column count and a `seq<seq<real>>` of entries, so a matrix with no rows still has
a width, as a numpy array does. numpy's broadcasting is replaced by explicit shape
preconditions. `np.exp` and `np.tanh` are left undefined: they are the two fields of a
`Transcendentals` value passed to every operation that needs them, and the only fact assumed of
them is that `exp` is positive.

The modules follow the source files:

- `Failures`: the exceptions of the source as values (`Result`, `Outcome`, `Option`).
- `Matrices`: the numpy operations the engine uses (`@`, `.T`, `+`, `-`, scaling, `np.zeros`,
  `np.fill_diagonal`, `flatten`, `np.sum`, `np.max`), with the lemmas about them.
- `Json`: the dictionaries and lists `to_json` builds, and `tolist()` of a matrix.
- `Activations` (`nn/activation_funcs.py`): the four activations, their values and their
  Jacobians, written both as functions and, where the source assigns entries in place, as
  methods proved equal to those functions.
- `ErrorFuncs` (`nn/error_funcs.py`): the squared error and its gradient.
- `Layers` (`nn/layers.py`): the forward step, the backward step and the gradient step as
  functions of a snapshot of a layer's parameters, and the `Layer` class, whose `W` and `b` are
  two-dimensional arrays updated in place and whose `y` and `delta` fields are overwritten.
- `Registry` (`nn/networks.py`): the tag registries of layer classes and error functions.
- `NetworkSpec` (`nn/networks.py`): what the loops of `Network` compute, as functions of the
  layers' parameters, and the JSON form of a network.
- `Networks` (`nn/networks.py`): the `Network` class with its mutable list of layers, learning
  rate and error function; each of its passes is proved to do what `NetworkSpec` says.

Some details of the code that the model keeps as they are:

- The Tanh Jacobian takes `tanh(β·y)`. That is not the derivative of `α·tanh(β·s)` written in
  terms of its output `y`, which would be `α·β·(1 − (y/α)²)`.
- The Softmax clamp literals `10e-7` and `10e+7` are 1e-6 and 1e8.
- The Rectifier layer exists but is not in the registry, so `add_layer("rectifier", …)` fails.
- The Rectifier Jacobian does not check that its input is a single column. On a wider input it
  fills its diagonal from the first entries, one per row, of the row-major flattening of its 0/1
  indicator copy of the input.

## Model

| member | source | states |
|---|---|---|
| `ErrorFuncs.Value` | nn/error_funcs.py:27-28 | the squared error fails (first entry of an empty product) exactly when the inputs have no column |
| `ErrorFuncs.ValueClosedForm` | nn/error_funcs.py:27-28 | the value is ½·Σ(t_i − y_i)² |
| `ErrorFuncs.ValueNonNegative` | nn/error_funcs.py:27-28 | the value is never negative |
| `ErrorFuncs.ValueSymmetric` | nn/error_funcs.py:28 | swapping the target and the output leaves the value unchanged |
| `ErrorFuncs.ValueZeroIff` | nn/error_funcs.py:28 | the value is 0 exactly when the first columns of t and y agree |
| `ErrorFuncs.ColumnValueZeroIff` | nn/error_funcs.py:28 | for columns, the value is 0 exactly when t = y |
| `ErrorFuncs.Derivative` | nn/error_funcs.py:30-31 | the gradient has the shape of y and entry y_ij − t_ij |
| `ErrorFuncs.DerivativeIsDifference` | nn/error_funcs.py:30-31 | the gradient −(t − y) is the matrix y − t |
| `ErrorFuncs.DerivativeZeroIff` | nn/error_funcs.py:31 | the gradient is the zero matrix exactly when t = y |
| `Activations.LogisticValueBounds` | nn/activation_funcs.py:28-29 | every Logistic output lies strictly between 0 and 1 |
| `Activations.Value` | nn/activation_funcs.py:28-85 | every activation keeps the shape of its input, and only Softmax of a zero-size input fails |
| `Activations.SoftmaxGetValue` | nn/activation_funcs.py:66-72 | shift by the maximum, exponentiate, normalise, clamp by two masked assignments, normalise again |
| `Activations.ClampedBounds` | nn/activation_funcs.py:70-71 | after the two masked assignments every entry lies in [1e-6, 1e8] |
| `Activations.SoftmaxDistribution` | nn/activation_funcs.py:66-72 | Softmax fails exactly on a zero-size input; otherwise every output lies in (0, 1] and the outputs sum to 1 |
| `Activations.AssignEntries` | nn/activation_funcs.py:83-84 | a masked assignment over a copy, entry by entry, gives the entrywise map of the mask |
| `Activations.GetValue` | nn/activation_funcs.py:28-85 | `get_value` of each activation, with its in-place steps, equals the activation's value |
| `Activations.RectifierValueProperties` | nn/activation_funcs.py:82-85 | the Rectifier output is max(0, s) entrywise, non-negative, and idempotent |
| `Activations.FillDiagonal` | nn/activation_funcs.py:33-34 | a zero n×n matrix with its diagonal written in place is the diagonal matrix of the values |
| `Activations.Derivative` | nn/activation_funcs.py:31-93 | every Jacobian of an n-row output is n×n |
| `Activations.GetDerivative` | nn/activation_funcs.py:31-93 | Logistic, Tanh and Softmax fail with InvalidShape exactly when the input is not a single column; Rectifier never checks |
| `Activations.LogisticJacobianDiagonal` | nn/activation_funcs.py:31-35 | the Logistic Jacobian is n×n, diagonal, with y_i(1 − y_i) on the diagonal |
| `Activations.LogisticJacobianAtOutput` | nn/activation_funcs.py:31-35 | at a Logistic output, each diagonal entry of the Jacobian lies in (0, 1/4] |
| `Activations.TanhJacobianDiagonal` | nn/activation_funcs.py:56-60 | the Tanh Jacobian is n×n, diagonal, with α·β·(1 − tanh(β·y_i)²) on the diagonal |
| `Activations.SoftmaxJacobianEntries` | nn/activation_funcs.py:74-78 | the Softmax Jacobian is diag(y) − y·yᵀ entry by entry, and symmetric |
| `Activations.SoftmaxJacobianRowsSumToZero` | nn/activation_funcs.py:66-78 | at a Softmax output, every row of the Softmax Jacobian sums to 0 |
| `Activations.RectifierJacobianDiagonal` | nn/activation_funcs.py:87-93 | the Rectifier Jacobian of a column is diagonal with 1 where y_i > 0 and 0 where y_i ≤ 0 |
| `Activations.RectifierJacobianWide` | nn/activation_funcs.py:87-93 | on a wider input the Rectifier diagonal comes from the row-major flattening |
| `Layers.LayerKind.Act` | nn/layers.py:120-151 | each layer subclass binds the activation of its own kind, with the Tanh parameters passed on |
| `Layers.NameIdentifiesClass` | nn/layers.py:121-148 | the four tags logistic, tanh, softmax, rectifier tell the subclasses apart |
| `Layers.Forward` | nn/layers.py:100-102 | the forward step is a column of n_output entries; it fails only for a Softmax layer without outputs |
| `Layers.Backward` | nn/layers.py:104-109 | the backward step is a column of n_output entries, with or without a next W |
| `Layers.BackwardDiagonal` | nn/layers.py:104-109 | for a diagonal Jacobian, δ_i is the slope at y_i times entry i of next_Wᵀ·next_delta (or of next_delta) |
| `Layers.RectifierBackward` | nn/layers.py:104-109 | a Rectifier layer passes the upstream signal where y_i > 0 and stops it elsewhere |
| `Layers.Step` | nn/layers.py:111-114 | the gradient step moves W_ij by −ε·δ_i·prev_y_j and b_i by −ε·δ_i, keeping the kind and both shapes |
| `Layers.StepZeroRate` | nn/layers.py:111-114 | a step with ε = 0 changes nothing |
| `Layers.StepZeroDelta` | nn/layers.py:111-114 | a step with δ = 0 changes nothing |
| `Layers.StepUndone` | nn/layers.py:111-114 | a step with −ε undoes a step with ε |
| `Layers.ParamsToJson` | nn/layers.py:116-137 | `to_json` emits type, W and b, and for Tanh exactly alpha and beta besides |
| `Layers.ParamsJsonRestoresMatrices` | nn/layers.py:116-117 | the written W has n_output rows, and W and b read back give W and b |
| `Layers.Layer.constructor` | nn/layers.py:27-62 | a new layer has W of shape n_output × n_prev_output, b of shape n_output × 1, and no y or delta |
| `Layers.Layer.NOutput` | nn/layers.py:64-66 | n_output is the row count of W |
| `Layers.Layer.PropagateForward` | nn/layers.py:100-102 | stores y = f(W·x + b) and returns that same value; delta is untouched |
| `Layers.Layer.PropagateBackward` | nn/layers.py:104-109 | stores and returns the backward step at the stored y; without a stored y it fails and stores nothing |
| `Layers.Layer.Update` | nn/layers.py:111-114 | W and b become the gradient step of their old values in place; y and delta are untouched; without δ or prev_y nothing changes |
| `Layers.Layer.SubtractOuter` | nn/layers.py:112-113 | W −= ε·δ·prev_yᵀ entry by entry |
| `Layers.Layer.SubtractScaled` | nn/layers.py:114 | b −= ε·δ entry by entry |
| `Layers.Layer.ToJson` | nn/layers.py:116-117 | the layer's JSON is the JSON of its current parameters |
| `Json.MatrixRoundTrip` | nn/layers.py:116-117 | `tolist()` of a matrix, read back with its width, gives the matrix |
| `Registry.FindClass` | nn/networks.py:89-93 | the lookup succeeds exactly when some class has the tag, and returns a class with that tag |
| `Registry.LayerTagsRegistered` | nn/networks.py:38-43 | the registered tags are exactly logistic, tanh and softmax; rectifier is refused |
| `Registry.FindErrorFunc` | nn/networks.py:82-86 | the lookup succeeds exactly when some error function has the name, and returns one with that name |
| `Registry.ErrorFuncTags` | nn/networks.py:47-49 | "se" finds the squared error; every other name fails |
| `Registry.Instantiate` | nn/networks.py:96 | a class accepts only its own keyword arguments (alpha and beta for Tanh, none otherwise) |
| `Registry.InstantiateRegistered` | nn/networks.py:89-96 | resolving a tag and constructing never yields a Rectifier layer |
| `Registry.RegisteredTag` | nn/networks.py:38-43 | every registered kind is reached from its own tag, through the class that builds it |
| `NetworkSpec.ChainedAppend` | nn/networks.py:95-97 | appending a layer whose input width is the current output width keeps the widths chained |
| `NetworkSpec.Run` | nn/networks.py:99-103 | the composition of the layers' forward steps is a column of the network's output width |
| `NetworkSpec.RunNoLayers` | nn/networks.py:99-103 | with no layers the input is returned unchanged |
| `NetworkSpec.RunAppend` | nn/networks.py:99-103 | adding a layer at the end composes its forward step after the network's |
| `NetworkSpec.RunConcat` | nn/networks.py:99-103 | the forward pass of two stacks in sequence is the second applied to the first's result |
| `NetworkSpec.RunTrace` | nn/networks.py:99-103 | the value returned is the last stored output when every layer succeeds |
| `NetworkSpec.RunLogisticHalf` | nn/networks.py:99-103 | one Logistic layer with zero weight and bias outputs 0.5 for any input |
| `NetworkSpec.TraceStep` | nn/networks.py:101-102 | each stored output is that layer's forward step of the previous output, or of the input |
| `NetworkSpec.TraceStops` | nn/networks.py:101-102 | a trace shorter than the layers ends at a layer whose forward step fails |
| `NetworkSpec.TraceOfPrefix` | nn/networks.py:101-102 | the trace of a prefix of the layers is a prefix of the trace |
| `NetworkSpec.BackDeltas` | nn/networks.py:108-111 | every layer receives an error signal of its own width |
| `NetworkSpec.BackDeltasSteps` | nn/networks.py:108-111 | the last layer gets the seed and no W; every other gets the next layer's signal and W |
| `NetworkSpec.BackwardPass` | nn/networks.py:105-111 | the backward pass fails exactly when the forward pass does, and gives one signal per layer |
| `NetworkSpec.BackwardPassOk` | nn/networks.py:105-111 | after a successful forward pass the seed is the error gradient at the forward output |
| `NetworkSpec.BackwardPassAtTarget` | nn/networks.py:105-111 | when the output already equals the target, every layer's signal is zero |
| `NetworkSpec.Reach` | nn/networks.py:113-117 | the update pass runs over the leading layers that have δ and a previous output |
| `NetworkSpec.UpdatedAll` | nn/networks.py:113-117 | with every y and δ set, layer 0 steps with the raw input and layer i with y of layer i − 1, all with the same ε |
| `NetworkSpec.UpdatedZeroRate` | nn/networks.py:113-117 | an update with ε = 0 changes no layer |
| `NetworkSpec.UpdatedZeroDeltas` | nn/networks.py:113-117 | zero error signals change no layer |
| `NetworkSpec.UpdatedChained` | nn/networks.py:113-117 | an update keeps every kind and shape, so the layers stay chained |
| `NetworkSpec.NetworkToJson` | nn/networks.py:119-124 | the JSON holds name, n_input, error function name and epsilon, and one entry per layer in order |
| `NetworkSpec.MetaFromJson` | nn/networks.py:128-129 | the constructor call yields a network without layers, or fails on a missing field or an unknown error function |
| `NetworkSpec.MetaReadsAnyNumber` | nn/networks.py:51-56 | an integer epsilon is read as a number, and an unknown error function is reported before the types of the other three fields are checked |
| `NetworkSpec.MetaRoundTrip` | nn/networks.py:119-129 | the constructor call of `from_json` reads back the metadata `to_json` wrote |
| `NetworkSpec.LayerEntryFailureAsWritten` | nn/networks.py:131-136 | an entry that is not an object fails as malformed, and an entry without `type` fails with the TypeError of the bare raise |
| `NetworkSpec.EveryEntryFailsAsWritten` | nn/networks.py:131-136 | no layer entry gets past the constructor call, since its `W` is always passed as a keyword |
| `NetworkSpec.EntryFailuresAsWritten` | nn/networks.py:131-136 | a `W` that is a string has a length, so an unknown tag is reported as such; a missing `type` gives the TypeError |
| `NetworkSpec.LoopFailureAsWritten` | nn/networks.py:130 | the loop body never runs exactly when `layers` is an empty list, an empty object or an empty string |
| `NetworkSpec.FromJsonAsWritten` | nn/networks.py:126-137 | as written, a reading that succeeds returns the network of the constructor call, with no layers |
| `NetworkSpec.DocumentAfterAsWritten` | nn/networks.py:132 | `layer.pop('type')` removes the tag from the first layer entry once the constructor call succeeded; nothing else in the document changes |
| `NetworkSpec.FromJsonAsWrittenConsumesTag` | nn/networks.py:130-136 | after a failed reading of `to_json`'s output the first entry has lost its `type`, so a second reading of the same document fails on the missing tag |
| `NetworkSpec.MissingTypeAsWritten` | nn/networks.py:131-134 | as written, a first layer entry without `type` fails with a TypeError, not with `LayerTypeDoesNotExist` |
| `NetworkSpec.IntegerTanhParameters` | nn/layers.py:127-137 | corrected, a Tanh entry whose alpha and beta were saved as integers is read back with those parameters |
| `NetworkSpec.MissingTypeCorrected` | nn/networks.py:131-134 | corrected, a first layer entry without `type` fails as an unknown layer type |
| `NetworkSpec.FromJsonAsWrittenRejectsLayers` | nn/networks.py:126-137 | as written, reading back a network with a layer always fails, because W is passed as a keyword |
| `NetworkSpec.FromJsonAsWrittenNoLayers` | nn/networks.py:126-137 | as written, a network without layers is read back |
| `NetworkSpec.FromJson` | nn/networks.py:126-137 | the corrected reading back yields chained layers of registered kinds, each n_output the row count of its W |
| `NetworkSpec.NetworkRoundTrip` | nn/networks.py:119-137 | the corrected reading back of `to_json` restores metadata, layer order, kinds, W and b exactly |
| `NetworkSpec.ArgMinDistance` | nn/networks.py:140-142 | the index returned has the least distance to 1, and every earlier index a strictly greater one |
| `NetworkSpec.ClassOfOutput` | nn/networks.py:140-142 | `get_class` fails without a layer, without a stored output or on an empty one; otherwise it is the first argmin of \|1 − y_i\| |
| `NetworkSpec.ArgMinExamples` | nn/networks.py:140-142 | [0.9, 0.2, 0.95] is classified as 2, and a tie goes to the first index |
| `Networks.Network.constructor` | nn/networks.py:51-56 | a new network has its name, n_input, error function and epsilon, and no layers |
| `Networks.Network.Create` | nn/networks.py:51-56 | construction fails with UnknownErrorFunction exactly when the error function name is not registered |
| `Networks.Network.SetEpsilon` | nn/networks.py:70-72 | the setter changes epsilon and nothing else |
| `Networks.Network.SetErrorFunc` | nn/networks.py:78-80 | the setter looks the name up; an unknown one fails and keeps the error function |
| `Networks.Network.AddLayer` | nn/networks.py:88-97 | success appends one fresh layer whose W has n_output rows and the previous output width as columns; failure appends nothing |
| `Networks.Network.Push` | nn/networks.py:97 | appending keeps the earlier layers and their parameters, and keeps the widths chained |
| `Networks.Network.PropagateForward` | nn/networks.py:99-103 | returns the composition of the layers' forward steps; each layer reached stores its output; weights are unchanged |
| `Networks.Network.ForwardLoop` | nn/networks.py:100-103 | the loop returns the last output and stores the trace layer by layer |
| `Networks.Network.PropagateBackward` | nn/networks.py:105-111 | runs the forward pass, then stores in every layer the signal of the backward pass seeded with the error gradient |
| `Networks.Network.BackwardLoop` | nn/networks.py:108-111 | the reversed loop stores every layer's signal, handing on the layer's W |
| `Networks.Network.Update` | nn/networks.py:113-117 | every layer's parameters become its updated parameters; stored y and δ are unchanged |
| `Networks.Network.UpdateLoop` | nn/networks.py:114-117 | the loop takes each layer's step in order until a layer lacks δ or a previous output |
| `Networks.Network.ToJson` | nn/networks.py:119-124 | the network's JSON is the JSON of its current state |
| `Networks.Network.GetClass` | nn/networks.py:140-142 | the class is read from the last layer's stored output |
| `Networks.Network.Load` | nn/networks.py:126-137 | the corrected `from_json` builds a fresh network whose state is the one the JSON describes, with nothing stored |
| `Networks.Network.Restore` | nn/networks.py:130-136 | layers are re-added in order with their parameters restored |

## Left out

- `np.exp` and `np.tanh` are not defined. They are fields of a `Transcendentals` parameter; the only fact assumed of them is that `exp` is positive.
- Floating point: all arithmetic is exact on `real`, so rounding, overflow and NaN are not modelled.
- Random initialisation: `np.random.uniform` is replaced by two functions `drawW` and `drawB` passed to the layer constructor. The model does not claim the values lie in [−1, 1].
- numpy broadcasting and dtypes: every operation has explicit shape preconditions instead. An input whose width does not match `W` is excluded by a precondition, not modelled as a failure.
- The exceptions are values of `Failures.Error`. Their messages (nn/networks.py:25-34) are not modelled. Python's AssertionError, TypeError and AttributeError for unset `y` or `delta` all become `UnsetState`.
- The `W` and `b` setters of a layer (nn/layers.py:72-82), `__str__`, and the plain getters are not modelled. The diagnostic averages `ave_abs_W` and `ave_W` (nn/layers.py:84-90) are left out too.
- `nn/func.py`, the base class of the activations and error functions, is not part of this model.
- The commented-out cross-entropy code (nn/error_funcs.py:34-51) is not live and is left out.
- Activations.TanhJacobianDiagonal: follows the code's `tanh(β·y)`. It does not claim that this is the derivative of `α·tanh(β·s)`.
- Networks.Network.Update: requires the raw input to be a column of width n_input. The source accepts any array numpy can multiply.
- Networks.Network.PropagateBackward: requires the target to be a column of the output width. The source broadcasts other shapes.
- Activations.GetDerivative: excludes, by the precondition `DerivativeDefined`, a Rectifier input with rows but no columns, where `np.fill_diagonal` gets no values. `propagate_backward` always passes a column, so no caller reaches that case. Activations.Derivative carries the same precondition.
- NetworkSpec.MetaFromJson: Python stores a `name`, `n_input` or `epsilon` of any type; the model's network state is typed, so a name that is not a string, an `n_input` that is not a non-negative integer, or an `epsilon` that is neither an integer nor a float fails with MalformedJson. FromJsonAsWritten, FromJson, DocumentAfterAsWritten and FromJsonAsWrittenConsumesTag share this restriction: with such metadata the model reports no popped tag, where Python pops it.
- NetworkSpec.LayerEntryFailureAsWritten: the KeyError, AttributeError and TypeError that a malformed entry raises are told apart only as far as `Failures.Error` does: a missing or unsized `W`, an entry that is not an object and a loop over strings are all MalformedJson; calls with arguments their callee refuses are BadArguments.
- NetworkSpec.DocumentAfterAsWritten: the document is a value, so `layer.pop('type')` changing the caller's dictionary is modelled as a second function giving the document afterwards. The dictionary objects and their aliasing are not modelled.
- Networks.Network.Load: models the corrected `from_json`. The code as written is `NetworkSpec.FromJsonAsWritten`; see Findings.

## Findings

| source | as written | input that shows it | evidently intended | confidence | as-written member | corrected member |
|---|---|---|---|---|---|---|
| nn/networks.py:130-136 | every key of a layer entry except `type` is passed to the constructor as a keyword argument, including `W` and `b`, which no layer constructor accepts | the output of `to_json` for any network with at least one layer | rebuild each layer with its kind, its Tanh parameters, and its `W` and `b` restored | high, not executed | `NetworkSpec.FromJsonAsWrittenRejectsLayers` | `NetworkSpec.NetworkRoundTrip` |
| nn/networks.py:131-134 | a layer entry without `type` is answered by the bare `raise LayerTypeDoesNotExist`. Python calls that class without the `layer_classes` argument its `__init__` requires (nn/networks.py:26), so a TypeError is raised instead | a document whose metadata reads and whose first layer entry is `{"W": []}` | raise `LayerTypeDoesNotExist(self._LAYER_CLASSES)`, as `add_layer` does at nn/networks.py:93 | high, not executed | `NetworkSpec.MissingTypeAsWritten` | `NetworkSpec.MissingTypeCorrected` |
