/** The Dynamo helper functions: runtime selection, backend keyword
    parsing, device preparation and the structure-preserving preparation of
    example inputs. */
module DynamoUtils {
  import opened Wrappers
  import opened PyValues
  import opened Devices
  import opened CompilationSettings

  // ---------------------------------------------------------------------
  // use_python_runtime_parser

  /** A runtime choice given by the user is kept as it is; `None` is
      resolved to the Python runtime exactly when the C++ runtime module
      cannot be imported. */
  function UsePythonRuntimeParser(usePythonRuntime: Value, cppRuntimeImportable: bool): (r: Value)
    ensures r != VNone
    ensures usePythonRuntime != VNone ==> r == usePythonRuntime
    ensures usePythonRuntime == VNone ==> r == VBool(!cppRuntimeImportable)
  {
    if usePythonRuntime != VNone then usePythonRuntime else VBool(!cppRuntimeImportable)
  }

  /** Once resolved, a runtime choice is never resolved differently. */
  lemma UsePythonRuntimeParserStable(v: Value, first: bool, second: bool)
    ensures UsePythonRuntimeParser(UsePythonRuntimeParser(v, first), second) ==
            UsePythonRuntimeParser(v, first)
  {
  }

  // ---------------------------------------------------------------------
  // parse_dynamo_kwargs

  /** torch.compile wraps backend options in a sole "options" key. Unwrapping
      it calls `.items()` on its value, which only a dict has. */
  function UnwrapOptions(kwargs: map<string, Value>): Result<map<string, Value>, PyException> {
    if "options" in kwargs && |kwargs| == 1 then
      match kwargs["options"]
      case VDict(m) => Success(m)
      case _ => Failure(AttributeError)
    else Success(kwargs)
  }

  /** The keywords that name a settings field; the rest are dropped silently. */
  function ValidKwargs(kwargs: map<string, Value>): (r: map<string, Value>)
    ensures r.Keys == kwargs.Keys * FieldNames
    ensures forall k :: k in r ==> r[k] == kwargs[k]
  {
    map k | k in kwargs && k in FieldNames :: kwargs[k]
  }

  /** The settings before the runtime field is resolved: the defaults,
      replaced by the valid keywords when there are any. */
  function BaseSettings(kwargs: Option<map<string, Value>>): Result<map<string, Value>, PyException> {
    if kwargs.None? || kwargs.value == map[] then Success(DefaultSettings)
    else
      var kw :- UnwrapOptions(kwargs.value);
      Replace(DefaultSettings, ValidKwargs(kw))
  }

  /** What `parse_dynamo_kwargs(kwargs)` returns; `None` stands for Python's
      `None`, and the C++ runtime's availability is a parameter. */
  function ParsedSettings(kwargs: Option<map<string, Value>>, cppRuntimeImportable: bool)
    : Result<map<string, Value>, PyException>
  {
    var settings :- BaseSettings(kwargs);
    Success(settings[UsePythonRuntimeField :=
                     UsePythonRuntimeParser(settings[UsePythonRuntimeField], cppRuntimeImportable)])
  }

  /** `parse_dynamo_kwargs`: starts from the defaults, rebinds `settings` to
      a replaced copy when keywords are given, then resolves the runtime
      field in place. */
  method ParseDynamoKwargs(kwargs: Option<map<string, Value>>, cppRuntimeImportable: bool)
    returns (r: Result<map<string, Value>, PyException>)
    ensures r == ParsedSettings(kwargs, cppRuntimeImportable)
  {
    var settings := DefaultSettings;
    if kwargs.Some? && kwargs.value != map[] {
      var kw := kwargs.value;
      if "options" in kw && |kw| == 1 {
        if !kw["options"].VDict? {
          return Failure(AttributeError);
        }
        kw := kw["options"].entries;
      }
      var validKwargs := map k | k in kw && k in FieldNames :: kw[k];
      settings := settings + validKwargs;
    }
    var runtime := UsePythonRuntimeParser(settings[UsePythonRuntimeField], cppRuntimeImportable);
    settings := settings[UsePythonRuntimeField := runtime];
    return Success(settings);
  }

  /** Without keywords the result is the default settings with only the
      runtime field resolved. */
  lemma ParsedSettingsWithoutKwargs(kwargs: Option<map<string, Value>>, cpp: bool)
    requires kwargs.None? || kwargs.value == map[]
    ensures ParsedSettings(kwargs, cpp) ==
            Success(DefaultSettings[UsePythonRuntimeField :=
                                    UsePythonRuntimeParser(DefaultSettings[UsePythonRuntimeField], cpp)])
  {
  }

  /** Field by field: a named field takes the keyword's value, every other
      field keeps its default, and the runtime field is resolved from
      whichever of the two applies. Only a non-dict "options" fails. */
  lemma ParsedSettingsFields(kwargs: map<string, Value>, cpp: bool)
    requires kwargs != map[]
    ensures UnwrapOptions(kwargs).Success? <==> ParsedSettings(Some(kwargs), cpp).Success?
    ensures ParsedSettings(Some(kwargs), cpp).Failure? ==>
              ParsedSettings(Some(kwargs), cpp).error == AttributeError
    ensures ParsedSettings(Some(kwargs), cpp).Success? ==>
              var kw := UnwrapOptions(kwargs).value;
              var s := ParsedSettings(Some(kwargs), cpp).value;
              IsSettings(s)
              && (forall f :: f in FieldNames && f != UsePythonRuntimeField ==>
                    s[f] == if f in kw then kw[f] else DefaultSettings[f])
              && s[UsePythonRuntimeField] ==
                 UsePythonRuntimeParser(if UsePythonRuntimeField in kw then kw[UsePythonRuntimeField]
                                        else DefaultSettings[UsePythonRuntimeField], cpp)
  {
    if UnwrapOptions(kwargs).Success? {
      var kw := UnwrapOptions(kwargs).value;
      var base := Replace(DefaultSettings, ValidKwargs(kw));
      assert base.Success?;
      assert base.value.Keys == FieldNames;
    }
  }

  /** After parsing, the runtime field is never `None`. */
  lemma ParsedSettingsResolveRuntime(kwargs: Option<map<string, Value>>, cpp: bool)
    requires ParsedSettings(kwargs, cpp).Success?
    ensures IsSettings(ParsedSettings(kwargs, cpp).value)
    ensures ParsedSettings(kwargs, cpp).value[UsePythonRuntimeField] != VNone
  {
    if kwargs.Some? && kwargs.value != map[] {
      ParsedSettingsFields(kwargs.value, cpp);
    }
  }

  /** A sole "options" dict is parsed as if its entries had been passed
      directly (unless it is itself a sole "options" wrapper). */
  lemma ParsedSettingsUnwrapsOptions(m: map<string, Value>, cpp: bool)
    requires !("options" in m && |m| == 1)
    ensures ParsedSettings(Some(map["options" := VDict(m)]), cpp) == ParsedSettings(Some(m), cpp)
  {
    var wrapped := map["options" := VDict(m)];
    assert |wrapped| == 1;
    assert UnwrapOptions(wrapped) == Success(m);
    if m == map[] {
      assert ValidKwargs(m) == map[];
      ReplaceNothing(DefaultSettings);
    } else {
      assert UnwrapOptions(m) == Success(m);
    }
    assert BaseSettings(Some(wrapped)) == BaseSettings(Some(m));
  }

  /** Next to other keywords, "options" is not unwrapped: being no field,
      it is dropped like any unknown keyword. */
  lemma ParsedSettingsKeepsWrappedOptions(kwargs: map<string, Value>, cpp: bool)
    requires "options" in kwargs && |kwargs| > 1
    ensures ParsedSettings(Some(kwargs), cpp) == ParsedSettings(Some(kwargs - {"options"}), cpp)
  {
    var rest := kwargs - {"options"};
    assert ValidKwargs(kwargs) == ValidKwargs(rest);
    assert rest.Keys == kwargs.Keys - {"options"};
    assert |rest| == |kwargs| - 1;
  }

  /** A keyword that names no field has no effect. */
  lemma ParsedSettingsDropsUnknownKey(kwargs: map<string, Value>, k: string, v: Value, cpp: bool)
    requires k !in FieldNames && k != "options" && "options" !in kwargs
    ensures ParsedSettings(Some(kwargs[k := v]), cpp) == ParsedSettings(Some(kwargs), cpp)
  {
    assert ValidKwargs(kwargs[k := v]) == ValidKwargs(kwargs);
    if kwargs == map[] {
      assert ValidKwargs(kwargs) == map[];
      ReplaceNothing(DefaultSettings);
    }
  }

  // ---------------------------------------------------------------------
  // prepare_device

  /** What `prepare_device` may be handed. */
  datatype DeviceArg = TrtDevice(dev: DeviceState) | TorchDev(torchDevice: TorchDevice) | OtherDevice

  /** `prepare_device`: a Device becomes the CUDA device with its GPU id
      (ValueError for the unset id -1), a torch device passes through, any
      other value is a ValueError. */
  function PrepareDevice(d: DeviceArg): (r: Result<TorchDevice, PyException>)
    ensures r.Failure? ==> r.error == ValueError
    ensures d.TrtDevice? ==> (r.Success? <==> d.dev.gpuId != -1)
    ensures d.TrtDevice? && r.Success? ==> r.value == TorchDevice("cuda", Some(d.dev.gpuId))
    ensures d.TorchDev? ==> r == Success(d.torchDevice)
    ensures d.OtherDevice? ==> r.Failure?
  {
    match d
    case TrtDevice(dev) =>
      if dev.gpuId != -1 then Success(TorchDevice("cuda", Some(dev.gpuId))) else Failure(ValueError)
    case TorchDev(t) => Success(t)
    case OtherDevice => Failure(ValueError)
  }

  /** An indexed CUDA device survives the trip through a Device and back. */
  lemma PrepareDeviceFromTorchDevice(t: TorchDevice)
    requires t.kind == "cuda" && t.index.Some? && t.index.value != -1
    ensures FromTorchDevice(t).Success?
    ensures PrepareDevice(TrtDevice(FromTorchDevice(t).value)) == Success(t)
  {
  }

  /** A Device built from `gpu_id=n` alone survives the trip through a torch
      device and back. */
  lemma FromTorchDeviceOfPrepared(n: int)
    requires n != -1
    ensures var d := Construct([], DeviceKwargs(Some(n), None, None));
            d.Success? && PrepareDevice(TrtDevice(d.value)).Success?
            && FromTorchDevice(PrepareDevice(TrtDevice(d.value)).value) == d
  {
  }

  /** Every constructed Device prepares to a CUDA device unless its GPU id
      is the unset -1; a DLA device prepares to its managing GPU. */
  lemma PrepareConstructedDevice(args: seq<Value>, kw: DeviceKwargs)
    requires Construct(args, kw).Success?
    ensures var d := Construct(args, kw).value;
            PrepareDevice(TrtDevice(d)) ==
              if d.gpuId != -1 then Success(TorchDevice("cuda", Some(d.gpuId))) else Failure(ValueError)
    ensures var d := Construct(args, kw).value;
            d.deviceType == Some(DLA) && kw.gpuId.None? ==>
              PrepareDevice(TrtDevice(d)) == Success(TorchDevice("cuda", Some(0)))
  {
  }

  // ---------------------------------------------------------------------
  // prepare_inputs

  /** An example-input structure: `Input` and `Tensor` leaves inside lists,
      tuples and dicts, or a value of any other type. A dict is its keys and
      values as parallel sequences in insertion order; only a `DictNode`
      with as many keys as values and no key twice stands for a Python dict
      (`WellFormedDicts` of its `TreeShape`), and `Prepare` keeps the key
      sequence as given. */
  datatype InputTree<I, T, K> =
    | InputLeaf(input: I)
    | TensorLeaf(tensor: T)
    | ListNode(elems: seq<InputTree<I, T, K>>)
    | TupleNode(elems: seq<InputTree<I, T, K>>)
    | DictNode(keys: seq<K>, vals: seq<InputTree<I, T, K>>)
    | Unsupported

  /** One of the two structures `prepare_inputs` returns, leaves of type L. */
  datatype Prepared<L, K> =
    | Leaf(value: L)
    | PList(elems: seq<Prepared<L, K>>)
    | PTuple(elems: seq<Prepared<L, K>>)
    | PDict(keys: seq<K>, vals: seq<Prepared<L, K>>)

  /** The tensor operations `prepare_inputs` applies to leaves, left
      uninterpreted: whether an Input's shape is a dict, `example_tensor`
      (the flag asks for the "opt_shape" profile), `.to(device)` and
      `Input.from_tensor`. */
  datatype LeafOps<!I, !T> = LeafOps(
    hasDictShape: I -> bool,
    exampleTensor: (I, bool) -> T,
    toDevice: (T, TorchDevice) -> T,
    fromTensor: T -> I)

  /** The default `device` argument, `torch.device("cuda")`, which nested
      calls fall back to. */
  const DefaultTorchDevice: TorchDevice := TorchDevice("cuda", None)

  /** What `prepare_inputs(t, device)` returns: the Torch-TensorRT inputs
      and the torch inputs, in the shape of `t`; ValueError for any value of
      an unsupported type. */
  function Prepare<I, T, K>(t: InputTree<I, T, K>, device: TorchDevice, ops: LeafOps<I, T>)
    : Result<(Prepared<I, K>, Prepared<T, K>), PyException>
    decreases t
  {
    match t
    case InputLeaf(x) =>
      Success((Leaf(x), Leaf(ops.toDevice(ops.exampleTensor(x, ops.hasDictShape(x)), device))))
    case TensorLeaf(x) => Success((Leaf(ops.fromTensor(x)), Leaf(x)))
    case ListNode(es) =>
      (match PrepareAll(es, ops)
       case Failure(e) => Failure(e)
       case Success((a, b)) => Success((PList(a), PList(b))))
    case TupleNode(es) =>
      (match PrepareAll(es, ops)
       case Failure(e) => Failure(e)
       case Success((a, b)) => Success((PTuple(a), PTuple(b))))
    case DictNode(ks, vs) =>
      (match PrepareAll(vs, ops)
       case Failure(e) => Failure(e)
       case Success((a, b)) => Success((PDict(ks, a), PDict(ks, b))))
    case Unsupported => Failure(ValueError)
  }

  /** The element loop: each element prepared with the default device, the
      first exception ending the loop. */
  function PrepareAll<I, T, K>(es: seq<InputTree<I, T, K>>, ops: LeafOps<I, T>)
    : Result<(seq<Prepared<I, K>>, seq<Prepared<T, K>>), PyException>
    decreases es
  {
    if |es| == 0 then Success(([], []))
    else
      match PrepareAll(es[..|es| - 1], ops)
      case Failure(e) => Failure(e)
      case Success((a, b)) =>
        (match Prepare(es[|es| - 1], DefaultTorchDevice, ops)
         case Failure(e) => Failure(e)
         case Success((x, y)) => Success((a + [x], b + [y])))
  }

  /** Once the loop has raised, later elements change nothing. */
  lemma {:induction false} PrepareAllPrefixFailure<I, T, K>(es: seq<InputTree<I, T, K>>, j: nat, ops: LeafOps<I, T>)
    requires j <= |es| && PrepareAll(es[..j], ops).Failure?
    ensures PrepareAll(es, ops) == PrepareAll(es[..j], ops)
    decreases |es| - j
  {
    if j == |es| {
      assert es[..j] == es;
    } else {
      assert es[..j + 1][..j] == es[..j];
      PrepareAllPrefixFailure(es, j + 1, ops);
    }
  }

  /** The loop succeeds exactly when every element does, and then slot i of
      both results is element i's own result under the default device. */
  lemma {:induction false} PrepareAllSlots<I, T, K>(es: seq<InputTree<I, T, K>>, ops: LeafOps<I, T>)
    ensures PrepareAll(es, ops).Success? <==>
            forall i :: 0 <= i < |es| ==> Prepare(es[i], DefaultTorchDevice, ops).Success?
    ensures PrepareAll(es, ops).Success? ==>
              var (a, b) := PrepareAll(es, ops).value;
              |a| == |es| && |b| == |es|
              && forall i :: 0 <= i < |es| ==>
                   Prepare(es[i], DefaultTorchDevice, ops) == Success((a[i], b[i]))
    decreases |es|
  {
    if |es| > 0 {
      var init := es[..|es| - 1];
      PrepareAllSlots(init, ops);
      assert forall i :: 0 <= i < |init| ==> init[i] == es[i];
    }
  }

  /** No part of the structure has an unsupported type. */
  predicate Supported<I, T, K>(t: InputTree<I, T, K>)
    decreases t
  {
    match t
    case InputLeaf(_) => true
    case TensorLeaf(_) => true
    case ListNode(es) => forall i :: 0 <= i < |es| ==> Supported(es[i])
    case TupleNode(es) => forall i :: 0 <= i < |es| ==> Supported(es[i])
    case DictNode(_, vs) => forall i :: 0 <= i < |vs| ==> Supported(vs[i])
    case Unsupported => false
  }

  /** `prepare_inputs` raises exactly when some part has an unsupported type. */
  lemma {:induction false} PrepareSucceedsIff<I, T, K>(t: InputTree<I, T, K>, device: TorchDevice, ops: LeafOps<I, T>)
    ensures Prepare(t, device, ops).Success? <==> Supported(t)
    decreases t
  {
    match t
    case InputLeaf(_) =>
    case TensorLeaf(_) =>
    case Unsupported =>
    case ListNode(es) => ElementsSucceedIff(es, ops);
    case TupleNode(es) => ElementsSucceedIff(es, ops);
    case DictNode(_, vs) => ElementsSucceedIff(vs, ops);
  }

  lemma {:induction false} ElementsSucceedIff<I, T, K>(es: seq<InputTree<I, T, K>>, ops: LeafOps<I, T>)
    ensures PrepareAll(es, ops).Success? <==> forall i :: 0 <= i < |es| ==> Supported(es[i])
    decreases es
  {
    PrepareAllSlots(es, ops);
    forall i | 0 <= i < |es|
      ensures Prepare(es[i], DefaultTorchDevice, ops).Success? <==> Supported(es[i])
    {
      PrepareSucceedsIff(es[i], DefaultTorchDevice, ops);
    }
  }

  /** The only exception `prepare_inputs` raises is ValueError. */
  lemma {:induction false} PrepareRaisesValueError<I, T, K>(t: InputTree<I, T, K>, device: TorchDevice, ops: LeafOps<I, T>)
    requires Prepare(t, device, ops).Failure?
    ensures Prepare(t, device, ops).error == ValueError
    decreases t
  {
    match t
    case Unsupported =>
    case ListNode(es) => ElementsRaiseValueError(es, ops);
    case TupleNode(es) => ElementsRaiseValueError(es, ops);
    case DictNode(_, vs) => ElementsRaiseValueError(vs, ops);
  }

  lemma {:induction false} ElementsRaiseValueError<I, T, K>(es: seq<InputTree<I, T, K>>, ops: LeafOps<I, T>)
    requires PrepareAll(es, ops).Failure?
    ensures PrepareAll(es, ops).error == ValueError
    decreases es
  {
    var init := es[..|es| - 1];
    if PrepareAll(init, ops).Failure? {
      ElementsRaiseValueError(init, ops);
    } else {
      PrepareRaisesValueError(es[|es| - 1], DefaultTorchDevice, ops);
    }
  }

  /** The nesting skeleton of a structure, with leaves and dict keys. */
  datatype Shape<K> =
    | LeafShape
    | ListShape(elems: seq<Shape<K>>)
    | TupleShape(elems: seq<Shape<K>>)
    | DictShape(keys: seq<K>, vals: seq<Shape<K>>)

  function TreeShape<I, T, K>(t: InputTree<I, T, K>): Shape<K>
    decreases t
  {
    match t
    case ListNode(es) => ListShape(seq(|es|, i requires 0 <= i < |es| => TreeShape(es[i])))
    case TupleNode(es) => TupleShape(seq(|es|, i requires 0 <= i < |es| => TreeShape(es[i])))
    case DictNode(ks, vs) => DictShape(ks, seq(|vs|, i requires 0 <= i < |vs| => TreeShape(vs[i])))
    case _ => LeafShape
  }

  function PreparedShape<L, K>(p: Prepared<L, K>): Shape<K>
    decreases p
  {
    match p
    case Leaf(_) => LeafShape
    case PList(es) => ListShape(seq(|es|, i requires 0 <= i < |es| => PreparedShape(es[i])))
    case PTuple(es) => TupleShape(seq(|es|, i requires 0 <= i < |es| => PreparedShape(es[i])))
    case PDict(ks, vs) => DictShape(ks, seq(|vs|, i requires 0 <= i < |vs| => PreparedShape(vs[i])))
  }

  /** Every dict in the skeleton has as many keys as values and no key twice. */
  predicate WellFormedDicts<K(==)>(s: Shape<K>)
    decreases s
  {
    match s
    case LeafShape => true
    case ListShape(es) => forall i :: 0 <= i < |es| ==> WellFormedDicts(es[i])
    case TupleShape(es) => forall i :: 0 <= i < |es| ==> WellFormedDicts(es[i])
    case DictShape(ks, vs) =>
      |ks| == |vs|
      && (forall i, j :: 0 <= i < j < |ks| ==> ks[i] != ks[j])
      && forall i :: 0 <= i < |vs| ==> WellFormedDicts(vs[i])
  }

  /** Prepared from a structure whose dicts are proper dicts, both results
      hold only proper dicts. */
  lemma PrepareKeepsDictsWellFormed<I, T, K>(t: InputTree<I, T, K>, device: TorchDevice, ops: LeafOps<I, T>)
    requires WellFormedDicts(TreeShape(t)) && Prepare(t, device, ops).Success?
    ensures WellFormedDicts(PreparedShape(Prepare(t, device, ops).value.0))
    ensures WellFormedDicts(PreparedShape(Prepare(t, device, ops).value.1))
  {
    PreparePreservesShape(t, device, ops);
  }

  /** Both results have the structure of the input: lists stay lists of the
      same length and order, tuples stay tuples, dicts keep their keys. */
  lemma {:induction false} PreparePreservesShape<I, T, K>(t: InputTree<I, T, K>, device: TorchDevice, ops: LeafOps<I, T>)
    requires Prepare(t, device, ops).Success?
    ensures PreparedShape(Prepare(t, device, ops).value.0) == TreeShape(t)
    ensures PreparedShape(Prepare(t, device, ops).value.1) == TreeShape(t)
    decreases t
  {
    match t
    case InputLeaf(_) =>
    case TensorLeaf(_) =>
    case ListNode(es) => ElementsPreserveShape(es, ops);
    case TupleNode(es) => ElementsPreserveShape(es, ops);
    case DictNode(_, vs) => ElementsPreserveShape(vs, ops);
  }

  lemma {:induction false} ElementsPreserveShape<I, T, K>(es: seq<InputTree<I, T, K>>, ops: LeafOps<I, T>)
    requires PrepareAll(es, ops).Success?
    ensures var (a, b) := PrepareAll(es, ops).value;
            |a| == |es| && |b| == |es|
            && seq(|a|, i requires 0 <= i < |a| => PreparedShape(a[i])) ==
               seq(|es|, i requires 0 <= i < |es| => TreeShape(es[i]))
            && seq(|b|, i requires 0 <= i < |b| => PreparedShape(b[i])) ==
               seq(|es|, i requires 0 <= i < |es| => TreeShape(es[i]))
    decreases es
  {
    PrepareAllSlots(es, ops);
    var (a, b) := PrepareAll(es, ops).value;
    forall i | 0 <= i < |es|
      ensures PreparedShape(a[i]) == TreeShape(es[i]) && PreparedShape(b[i]) == TreeShape(es[i])
    {
      PreparePreservesShape(es[i], DefaultTorchDevice, ops);
    }
  }

  /** A tensor leaf comes back as itself on the torch side, next to the
      Input built from it. */
  lemma PrepareTensorLeaf<I, T, K>(x: T, device: TorchDevice, ops: LeafOps<I, T>)
    ensures Prepare(InputTree<I, T, K>.TensorLeaf(x), device, ops) == Success((Leaf(ops.fromTensor(x)), Leaf(x)))
  {
  }

  /** Only the top-level Input leaf uses the given device; inside a list it
      is moved to the default device. */
  lemma PrepareDeviceNotForwarded<I, T, K>(x: I, device: TorchDevice, ops: LeafOps<I, T>)
    ensures var example := ops.exampleTensor(x, ops.hasDictShape(x));
            Prepare(InputTree<I, T, K>.InputLeaf(x), device, ops) ==
              Success((Leaf(x), Leaf(ops.toDevice(example, device))))
            && Prepare(ListNode([InputTree<I, T, K>.InputLeaf(x)]), device, ops) ==
              Success((PList([Leaf(x)]), PList([Leaf(ops.toDevice(example, DefaultTorchDevice))])))
  {
    var es := [InputTree<I, T, K>.InputLeaf(x)];
    var example := ops.exampleTensor(x, ops.hasDictShape(x));
    var a: seq<Prepared<I, K>> := [Leaf(x)];
    var b: seq<Prepared<T, K>> := [Leaf(ops.toDevice(example, DefaultTorchDevice))];
    assert es[..|es| - 1] == [];
    assert PrepareAll(es, ops) == Success(([] + a, [] + b));
    assert [] + a == a && [] + b == b;
  }

  // ---------------------------------------------------------------------
  // prepare_inputs with the device forwarded

  /** `prepare_inputs` as evidently intended: nested calls receive the
      caller's device instead of falling back to the default one. */
  function PrepareOn<I, T, K>(t: InputTree<I, T, K>, device: TorchDevice, ops: LeafOps<I, T>)
    : Result<(Prepared<I, K>, Prepared<T, K>), PyException>
    decreases t
  {
    match t
    case InputLeaf(x) =>
      Success((Leaf(x), Leaf(ops.toDevice(ops.exampleTensor(x, ops.hasDictShape(x)), device))))
    case TensorLeaf(x) => Success((Leaf(ops.fromTensor(x)), Leaf(x)))
    case ListNode(es) =>
      (match PrepareAllOn(es, device, ops)
       case Failure(e) => Failure(e)
       case Success((a, b)) => Success((PList(a), PList(b))))
    case TupleNode(es) =>
      (match PrepareAllOn(es, device, ops)
       case Failure(e) => Failure(e)
       case Success((a, b)) => Success((PTuple(a), PTuple(b))))
    case DictNode(ks, vs) =>
      (match PrepareAllOn(vs, device, ops)
       case Failure(e) => Failure(e)
       case Success((a, b)) => Success((PDict(ks, a), PDict(ks, b))))
    case Unsupported => Failure(ValueError)
  }

  function PrepareAllOn<I, T, K>(es: seq<InputTree<I, T, K>>, device: TorchDevice, ops: LeafOps<I, T>)
    : Result<(seq<Prepared<I, K>>, seq<Prepared<T, K>>), PyException>
    decreases es
  {
    if |es| == 0 then Success(([], []))
    else
      match PrepareAllOn(es[..|es| - 1], device, ops)
      case Failure(e) => Failure(e)
      case Success((a, b)) =>
        (match PrepareOn(es[|es| - 1], device, ops)
         case Failure(e) => Failure(e)
         case Success((x, y)) => Success((a + [x], b + [y])))
  }

  /** The leaf operations with `.to` always moving to `device`. */
  function PinDevice<I, T>(ops: LeafOps<I, T>, device: TorchDevice): LeafOps<I, T> {
    LeafOps(ops.hasDictShape, ops.exampleTensor, (x: T, _: TorchDevice) => ops.toDevice(x, device), ops.fromTensor)
  }

  /** Forwarding the device is the same as moving every example tensor, at
      any depth, to the caller's device: the corrected preparation is the
      source's with `.to` pinned to that device. */
  lemma {:induction false} PrepareOnIsPinned<I, T, K>(t: InputTree<I, T, K>, device: TorchDevice, ops: LeafOps<I, T>)
    ensures PrepareOn(t, device, ops) == Prepare(t, device, PinDevice(ops, device))
    decreases t
  {
    match t
    case InputLeaf(_) =>
    case TensorLeaf(_) =>
    case Unsupported =>
    case ListNode(es) => PrepareAllOnIsPinned(es, device, ops);
    case TupleNode(es) => PrepareAllOnIsPinned(es, device, ops);
    case DictNode(_, vs) => PrepareAllOnIsPinned(vs, device, ops);
  }

  lemma {:induction false} PrepareAllOnIsPinned<I, T, K>(es: seq<InputTree<I, T, K>>, device: TorchDevice, ops: LeafOps<I, T>)
    ensures PrepareAllOn(es, device, ops) == PrepareAll(es, PinDevice(ops, device))
    decreases es
  {
    if |es| > 0 {
      var last := es[|es| - 1];
      PrepareAllOnIsPinned(es[..|es| - 1], device, ops);
      PrepareOnIsPinned(last, device, ops);
      PrepareDeviceIrrelevantWhenPinned(last, device, DefaultTorchDevice, ops);
    }
  }

  /** With `.to` pinned, the device argument no longer matters. */
  lemma {:induction false} PrepareDeviceIrrelevantWhenPinned<I, T, K>(t: InputTree<I, T, K>, device: TorchDevice,
                                                                      other: TorchDevice, ops: LeafOps<I, T>)
    ensures Prepare(t, device, PinDevice(ops, device)) == Prepare(t, other, PinDevice(ops, device))
  {
  }

  /** The corrected preparation fails exactly where the source's does, with
      the same ValueError, and keeps the input's structure. */
  lemma PrepareOnAgreesOnOutcome<I, T, K>(t: InputTree<I, T, K>, device: TorchDevice, ops: LeafOps<I, T>)
    ensures PrepareOn(t, device, ops).Success? <==> Supported(t)
    ensures PrepareOn(t, device, ops).Failure? ==> PrepareOn(t, device, ops).error == ValueError
    ensures PrepareOn(t, device, ops).Success? ==>
              PreparedShape(PrepareOn(t, device, ops).value.0) == TreeShape(t)
              && PreparedShape(PrepareOn(t, device, ops).value.1) == TreeShape(t)
  {
    var pinned := PinDevice(ops, device);
    PrepareOnIsPinned(t, device, ops);
    PrepareSucceedsIff(t, device, pinned);
    if Prepare(t, device, pinned).Failure? {
      PrepareRaisesValueError(t, device, pinned);
    } else {
      PreparePreservesShape(t, device, pinned);
    }
  }

  /** An Input inside a list is moved to the caller's device. */
  lemma PrepareOnForwardsDevice<I, T, K>(x: I, device: TorchDevice, ops: LeafOps<I, T>)
    ensures var example := ops.exampleTensor(x, ops.hasDictShape(x));
            PrepareOn(ListNode([InputTree<I, T, K>.InputLeaf(x)]), device, ops) ==
              Success((PList([Leaf(x)]), PList([Leaf(ops.toDevice(example, device))])))
  {
    var es := [InputTree<I, T, K>.InputLeaf(x)];
    var example := ops.exampleTensor(x, ops.hasDictShape(x));
    var a: seq<Prepared<I, K>> := [Leaf(x)];
    var b: seq<Prepared<T, K>> := [Leaf(ops.toDevice(example, device))];
    assert es[..|es| - 1] == [];
    assert PrepareAllOn(es, device, ops) == Success(([] + a, [] + b));
    assert [] + a == a && [] + b == b;
  }

  /** `prepare_inputs` as the source runs it: recursion on the structure,
      and for each list, tuple or dict a loop appending into fresh results. */
  method PrepareInputs<I, T, K>(t: InputTree<I, T, K>, device: TorchDevice, ops: LeafOps<I, T>)
    returns (r: Result<(Prepared<I, K>, Prepared<T, K>), PyException>)
    ensures r == Prepare(t, device, ops)
    decreases t, 1
  {
    match t {
    case InputLeaf(x) =>
      var example := ops.exampleTensor(x, ops.hasDictShape(x));
      return Success((Leaf(x), Leaf(ops.toDevice(example, device))));
    case TensorLeaf(x) =>
      return Success((Leaf(ops.fromTensor(x)), Leaf(x)));
    case ListNode(es) =>
      var res := PrepareElements(es, ops);
      if res.Failure? {
        return Failure(res.error);
      }
      return Success((PList(res.value.0), PList(res.value.1)));
    case TupleNode(es) =>
      var res := PrepareElements(es, ops);
      if res.Failure? {
        return Failure(res.error);
      }
      return Success((PTuple(res.value.0), PTuple(res.value.1)));
    case DictNode(ks, vs) =>
      var res := PrepareElements(vs, ops);
      if res.Failure? {
        return Failure(res.error);
      }
      return Success((PDict(ks, res.value.0), PDict(ks, res.value.1)));
    case Unsupported =>
      return Failure(ValueError);
    }
  }

  /** The loop body shared by the list, tuple and dict cases. */
  method PrepareElements<I, T, K>(es: seq<InputTree<I, T, K>>, ops: LeafOps<I, T>)
    returns (r: Result<(seq<Prepared<I, K>>, seq<Prepared<T, K>>), PyException>)
    ensures r == PrepareAll(es, ops)
    decreases es, 0
  {
    var torchtrtInputs: seq<Prepared<I, K>> := [];
    var torchInputs: seq<Prepared<T, K>> := [];
    for i := 0 to |es|
      invariant PrepareAll(es[..i], ops) == Success((torchtrtInputs, torchInputs))
    {
      assert es[..i + 1][..i] == es[..i];
      var res := PrepareInputs(es[i], DefaultTorchDevice, ops);
      if res.Failure? {
        PrepareAllPrefixFailure(es, i + 1, ops);
        return Failure(res.error);
      }
      torchtrtInputs := torchtrtInputs + [res.value.0];
      torchInputs := torchInputs + [res.value.1];
    }
    assert es[..|es|] == es;
    return Success((torchtrtInputs, torchInputs));
  }
}
