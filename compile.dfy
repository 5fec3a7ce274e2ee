/** The Dynamo `compile` entry point: normalising its arguments into a
    settings instance, choosing the partitioning path, and `_compile_graph`,
    which replaces every accelerated submodule of a split graph module by
    the converter's output. Graph lowering, the splitter, the capability
    partitioner path and the converter are parameters. */
module DynamoCompile {
  import opened Wrappers
  import opened PyValues
  import opened Devices
  import opened CompilationSettings
  import opened DynamoUtils

  // ---------------------------------------------------------------------
  // Precision resolution

  /** The precision the compile runs at: half precision wins over full, the
      default is used for an empty set, anything else is a ValueError. */
  function ResolvePrecision(enabled: set<Dtype>): Result<Dtype, PyException> {
    if TorchFloat16 in enabled || TrtHalf in enabled then Success(TorchFloat16)
    else if TorchFloat32 in enabled || TrtFloat in enabled then Success(TorchFloat32)
    else if |enabled| == 0 then Success(PRECISION)
    else Failure(ValueError)
  }

  /** Asking for half precision, in either spelling, always yields float16,
      whatever else is enabled. */
  lemma ResolvePrecisionHalfWins(enabled: set<Dtype>, half: Dtype)
    requires half in {TorchFloat16, TrtHalf}
    ensures ResolvePrecision(enabled + {half}) == Success(TorchFloat16)
  {
  }

  /** Without half precision, full precision in either spelling yields float32. */
  lemma ResolvePrecisionFloat(enabled: set<Dtype>, full: Dtype)
    requires full in {TorchFloat32, TrtFloat}
    requires TorchFloat16 !in enabled && TrtHalf !in enabled
    ensures ResolvePrecision(enabled + {full}) == Success(TorchFloat32)
  {
  }

  /** An empty set falls back to the default precision instead of failing. */
  lemma ResolvePrecisionEmpty()
    ensures ResolvePrecision({}) == Success(PRECISION)
  {
  }

  /** Resolution fails exactly for a non-empty set naming neither a half nor
      a full floating-point type, and then with ValueError. */
  lemma ResolvePrecisionFailsIff(enabled: set<Dtype>)
    ensures ResolvePrecision(enabled).Failure? <==>
            enabled != {} && TorchFloat16 !in enabled && TrtHalf !in enabled
            && TorchFloat32 !in enabled && TrtFloat !in enabled
    ensures ResolvePrecision(enabled).Failure? ==> ResolvePrecision(enabled).error == ValueError
  {
  }

  /** Scenario: an int8-only set is rejected. */
  lemma ResolvePrecisionInt8Only()
    ensures ResolvePrecision({OtherDtype("int8")}) == Failure(ValueError)
  {
  }

  // ---------------------------------------------------------------------
  // Options construction

  /** The keyword arguments of `compile`, after Python filled in defaults.
      Those listed after `truncateLongAndDouble` do not reach the settings;
      `capability` and `calibrator` are left out as opaque objects. */
  datatype CompileArgs = CompileArgs(
    enabledPrecisions: seq<Dtype>,
    debug: bool,
    workspaceSize: int,
    minBlockSize: int,
    torchExecutedOps: Option<seq<string>>,
    passThroughBuildFailures: bool,
    maxAuxStreams: Option<int>,
    versionCompatible: bool,
    optimizationLevel: Option<int>,
    usePythonRuntime: Option<bool>,
    truncateLongAndDouble: bool,
    // accepted and not forwarded
    disableTf32: bool,
    sparseWeights: bool,
    refit: bool,
    numAvgTimingIters: int,
    dlaSramSize: int,
    dlaLocalDramSize: int,
    dlaGlobalDramSize: int,
    requireFullCompilation: bool,
    torchExecutedModules: Option<seq<string>>)

  /** A list of strings as a Python value. */
  function StrList(ops: seq<string>): (v: Value)
    ensures v.VList? && |v.elems| == |ops|
    ensures forall i :: 0 <= i < |ops| ==> v.elems[i] == VStr(ops[i])
  {
    VList(seq(|ops|, i requires 0 <= i < |ops| => VStr(ops[i])))
  }

  /** The `compilation_options` dict. */
  function BuildOptions(args: CompileArgs, precision: Dtype): map<string, Value> {
    map[
      "precision" := VDtype(precision),
      "debug" := VBool(args.debug),
      "workspace_size" := VInt(args.workspaceSize),
      "min_block_size" := VInt(args.minBlockSize),
      "torch_executed_ops" :=
        if args.torchExecutedOps.Some? then StrList(args.torchExecutedOps.value) else VList([]),
      "pass_through_build_failures" := VBool(args.passThroughBuildFailures),
      "max_aux_streams" := OptIntValue(args.maxAuxStreams),
      "version_compatible" := VBool(args.versionCompatible),
      "optimization_level" := OptIntValue(args.optimizationLevel),
      "use_python_runtime" := OptBoolValue(args.usePythonRuntime),
      "truncate_long_and_double" := VBool(args.truncateLongAndDouble)
    ]
  }

  /** The options name every settings field, so `CompilationSettings(**opts)`
      never raises and keeps no default; `torch_executed_ops=None` becomes
      `[]`, and the precision is the resolved one. */
  lemma BuildOptionsMakesSettings(args: CompileArgs, precision: Dtype)
    ensures New(BuildOptions(args, precision)) == Success(BuildOptions(args, precision))
    ensures IsSettings(BuildOptions(args, precision))
    ensures BuildOptions(args, precision)["precision"] == VDtype(precision)
    ensures args.torchExecutedOps.None? ==> BuildOptions(args, precision)["torch_executed_ops"] == VList([])
    ensures args.torchExecutedOps.Some? ==>
              BuildOptions(args, precision)["torch_executed_ops"] == StrList(args.torchExecutedOps.value)
  {
    var opts := BuildOptions(args, precision);
    BuildOptionsKeys(args, precision);
    var r := Replace(DefaultSettings, opts).value;
    assert forall f :: f in r ==> r[f] == opts[f];
    assert r == opts;
  }

  lemma BuildOptionsKeys(args: CompileArgs, precision: Dtype)
    ensures BuildOptions(args, precision).Keys == FieldNames
  {
  }

  /** The arguments outside the option list never reach the settings. */
  lemma BuildOptionsIgnoresUnlisted(args: CompileArgs, precision: Dtype, other: CompileArgs)
    requires other.(enabledPrecisions := args.enabledPrecisions, disableTf32 := args.disableTf32,
                    sparseWeights := args.sparseWeights, refit := args.refit,
                    numAvgTimingIters := args.numAvgTimingIters, dlaSramSize := args.dlaSramSize,
                    dlaLocalDramSize := args.dlaLocalDramSize,
                    dlaGlobalDramSize := args.dlaGlobalDramSize,
                    requireFullCompilation := args.requireFullCompilation,
                    torchExecutedModules := args.torchExecutedModules) == args
    ensures BuildOptions(other, precision) == BuildOptions(args, precision)
  {
  }

  // ---------------------------------------------------------------------
  // Input wrapping and path selection

  /** Inputs that are not a sequence are wrapped into a one-element list. */
  function WrapInputs<I, T, K>(inputs: InputTree<I, T, K>): (r: InputTree<I, T, K>)
    ensures r.ListNode? || r.TupleNode?
    ensures inputs.ListNode? || inputs.TupleNode? ==> r == inputs
    ensures !(inputs.ListNode? || inputs.TupleNode?) ==> r == ListNode([inputs])
  {
    if inputs.ListNode? || inputs.TupleNode? then inputs else ListNode([inputs])
  }

  /** The partitioning path `compile` takes. */
  datatype CompilePath = CapabilityPartitioner | TrtSplitter

  /** `kwargs.get("use_capability_partitioner", None)`, tested for truth. */
  function SelectPath(kwargs: map<string, Value>): CompilePath {
    if "use_capability_partitioner" in kwargs && Truthy(kwargs["use_capability_partitioner"])
    then CapabilityPartitioner else TrtSplitter
  }

  /** The splitter path is the default: an absent flag or any falsy value
      (`None`, `False`, `0`, an empty string or container) selects it, any
      truthy value selects the capability partitioner, and other keywords
      play no part. */
  lemma SelectPathTruthiness(kwargs: map<string, Value>, flagValue: Value, k: string, v: Value)
    requires k != "use_capability_partitioner"
    ensures "use_capability_partitioner" !in kwargs ==> SelectPath(kwargs) == TrtSplitter
    ensures SelectPath(kwargs["use_capability_partitioner" := flagValue]) ==
            if Truthy(flagValue) then CapabilityPartitioner else TrtSplitter
    ensures SelectPath(kwargs["use_capability_partitioner" := VNone]) == TrtSplitter
    ensures SelectPath(kwargs[k := v]) == SelectPath(kwargs)
  {
    var flag := "use_capability_partitioner";
    assert (flag in kwargs[k := v]) == (flag in kwargs);
    if flag in kwargs {
      assert kwargs[k := v][flag] == kwargs[flag];
    }
  }

  /** What `compile` has computed when it reaches the path dispatch. */
  datatype FrontEnd<T, K> = FrontEnd(torchInputs: Prepared<T, K>, settings: map<string, Value>, path: CompilePath)

  /** `compile` up to the dispatch: prepare the device, prepare the (wrapped)
      inputs, resolve the precision, build the settings, in that order. */
  function CompileFrontEnd<I, T, K>(inputs: InputTree<I, T, K>, device: DeviceArg, args: CompileArgs,
                                    kwargs: map<string, Value>, ops: LeafOps<I, T>)
    : Result<FrontEnd<T, K>, PyException>
  {
    var dev :- PrepareDevice(device);
    var prepared :- Prepare(WrapInputs(inputs), dev, ops);
    var precision :- ResolvePrecision(set d | d in args.enabledPrecisions);
    var settings :- New(BuildOptions(args, precision));
    Success(FrontEnd(prepared.1, settings, SelectPath(kwargs)))
  }

  /** The front end succeeds exactly when the device has a GPU id, every
      input has a supported type and the precision resolves; it then hands
      on a list or tuple of torch inputs and the built options as settings. */
  lemma CompileFrontEndSpec<I, T, K>(inputs: InputTree<I, T, K>, device: DeviceArg, args: CompileArgs,
                                     kwargs: map<string, Value>, ops: LeafOps<I, T>)
    ensures var fe := CompileFrontEnd(inputs, device, args, kwargs, ops);
            var precision := ResolvePrecision(set d | d in args.enabledPrecisions);
            (fe.Success? <==>
               PrepareDevice(device).Success? && Supported(WrapInputs(inputs)) && precision.Success?)
            && (fe.Failure? ==> fe.error == ValueError)
            && (fe.Success? ==>
                  fe.value.settings == BuildOptions(args, precision.value)
                  && (fe.value.torchInputs.PList? || fe.value.torchInputs.PTuple?)
                  && fe.value.path == SelectPath(kwargs))
  {
    var fe := CompileFrontEnd(inputs, device, args, kwargs, ops);
    var precision := ResolvePrecision(set d | d in args.enabledPrecisions);
    if PrepareDevice(device).Success? {
      var dev := PrepareDevice(device).value;
      var wrapped := WrapInputs(inputs);
      PrepareSucceedsIff(wrapped, dev, ops);
      if !Supported(wrapped) {
        PrepareRaisesValueError(wrapped, dev, ops);
      } else if precision.Success? {
        BuildOptionsMakesSettings(args, precision.value);
        PreparePreservesShape(wrapped, dev, ops);
      } else {
        ResolvePrecisionFailsIff(set d | d in args.enabledPrecisions);
      }
    }
  }

  /** As written, the target device never places an example tensor:
      `compile` always hands `prepare_inputs` a list or tuple, and nested
      calls fall back to the default device. Any two torch devices give the
      same result, and a single Input is moved to `torch.device("cuda")`
      whatever device was asked for. */
  lemma CompileFrontEndIgnoresTorchDevice<I, T, K>(inputs: InputTree<I, T, K>, d1: TorchDevice, d2: TorchDevice,
                                                   x: I, args: CompileArgs, kwargs: map<string, Value>,
                                                   ops: LeafOps<I, T>)
    ensures CompileFrontEnd(inputs, TorchDev(d1), args, kwargs, ops) ==
            CompileFrontEnd(inputs, TorchDev(d2), args, kwargs, ops)
    ensures var fe := CompileFrontEnd(InputTree<I, T, K>.InputLeaf(x), TorchDev(d1), args, kwargs, ops);
            fe.Success? ==>
              fe.value.torchInputs ==
              PList([Leaf(ops.toDevice(ops.exampleTensor(x, ops.hasDictShape(x)), DefaultTorchDevice))])
  {
    var wrapped := WrapInputs(inputs);
    assert Prepare(wrapped, d1, ops) == Prepare(wrapped, d2, ops);
    PrepareDeviceNotForwarded<I, T, K>(x, d1, ops);
  }

  // ---------------------------------------------------------------------
  // _compile_graph

  /** The split graph module, whose submodules are attributes set in place. */
  class SplitModule<M> {
    var submodules: map<string, M>

    constructor (submodules: map<string, M>)
      ensures this.submodules == submodules
    {
      this.submodules := submodules;
    }
  }

  /** The splitter's result: the split module, the example inputs of each
      submodule in dict order, and the name prefix of fallback submodules. */
  datatype SplitResult<M, S> = SplitResult(
    splitModule: SplitModule<M>,
    submoduleInputs: seq<(string, S)>,
    nonAccPrefix: string)

  /** The submodule map part way through the loop, and the name whose
      `getattr` raised AttributeError, if one did. */
  datatype SpliceState<M> = SpliceState(submodules: map<string, M>, missing: Option<string>)

  /** One iteration: fallback submodules (named with the prefix) are kept,
      every other one is replaced by the converter's output. */
  function SpliceStep<M, S>(subs: map<string, M>, item: (string, S), prefix: string,
                            settings: map<string, Value>, convert: (M, S, map<string, Value>, string) -> M)
    : SpliceState<M>
  {
    var (name, inputs) := item;
    if name !in subs then SpliceState(subs, Some(name))
    else if prefix <= name then SpliceState(subs, None)
    else SpliceState(subs[name := convert(subs[name], inputs, settings, name)], None)
  }

  /** The loop over `submodule_inputs`, stopping at the first AttributeError. */
  function Splice<M, S>(subs: map<string, M>, items: seq<(string, S)>, prefix: string,
                        settings: map<string, Value>, convert: (M, S, map<string, Value>, string) -> M)
    : SpliceState<M>
    decreases |items|
  {
    if |items| == 0 then SpliceState(subs, None)
    else
      var prev := Splice(subs, items[..|items| - 1], prefix, settings, convert);
      if prev.missing.Some? then prev
      else SpliceStep(prev.submodules, items[|items| - 1], prefix, settings, convert)
  }

  /** Once `getattr` has raised, the rest of the loop does not run. */
  lemma {:induction false} SplicePrefixMissing<M, S>(subs: map<string, M>, items: seq<(string, S)>, j: nat,
                                                      prefix: string, settings: map<string, Value>,
                                                      convert: (M, S, map<string, Value>, string) -> M)
    requires j <= |items| && Splice(subs, items[..j], prefix, settings, convert).missing.Some?
    ensures Splice(subs, items, prefix, settings, convert) == Splice(subs, items[..j], prefix, settings, convert)
    decreases |items| - j
  {
    if j == |items| {
      assert items[..j] == items;
    } else {
      assert items[..j + 1][..j] == items[..j];
      SplicePrefixMissing(subs, items, j + 1, prefix, settings, convert);
    }
  }

  /** The set of submodule names never changes. */
  lemma {:induction false} SpliceKeepsNames<M, S>(subs: map<string, M>, items: seq<(string, S)>, prefix: string,
                                                   settings: map<string, Value>,
                                                   convert: (M, S, map<string, Value>, string) -> M)
    ensures Splice(subs, items, prefix, settings, convert).submodules.Keys == subs.Keys
    decreases |items|
  {
    if |items| > 0 {
      SpliceKeepsNames(subs, items[..|items| - 1], prefix, settings, convert);
    }
  }

  /** The loop completes exactly when every listed name is a submodule. */
  lemma {:induction false} SpliceCompletesIff<M, S>(subs: map<string, M>, items: seq<(string, S)>, prefix: string,
                                                     settings: map<string, Value>,
                                                     convert: (M, S, map<string, Value>, string) -> M)
    ensures Splice(subs, items, prefix, settings, convert).missing.None? <==>
            forall j :: 0 <= j < |items| ==> items[j].0 in subs
    decreases |items|
  {
    if |items| > 0 {
      var init := items[..|items| - 1];
      SpliceCompletesIff(subs, init, prefix, settings, convert);
      SpliceKeepsNames(subs, init, prefix, settings, convert);
      assert forall j :: 0 <= j < |init| ==> init[j] == items[j];
    }
  }

  /** Submodules named with the fallback prefix are left untouched. */
  lemma {:induction false} SpliceKeepsFallback<M, S>(subs: map<string, M>, items: seq<(string, S)>, prefix: string,
                                                      settings: map<string, Value>,
                                                      convert: (M, S, map<string, Value>, string) -> M)
    ensures var st := Splice(subs, items, prefix, settings, convert);
            forall n :: n in subs && prefix <= n ==> n in st.submodules && st.submodules[n] == subs[n]
    decreases |items|
  {
    if |items| > 0 {
      SpliceKeepsFallback(subs, items[..|items| - 1], prefix, settings, convert);
      SpliceKeepsNames(subs, items[..|items| - 1], prefix, settings, convert);
    }
  }

  /** The inputs listed for a submodule name, if any. */
  function Lookup<S>(items: seq<(string, S)>, name: string): Option<S>
    decreases |items|
  {
    if |items| == 0 then None
    else if items[|items| - 1].0 == name then Some(items[|items| - 1].1)
    else Lookup(items[..|items| - 1], name)
  }

  predicate DistinctNames<S>(items: seq<(string, S)>) {
    forall i, j :: 0 <= i < j < |items| ==> items[i].0 != items[j].0
  }

  lemma {:induction false} LookupMissing<S>(items: seq<(string, S)>, name: string)
    requires forall j :: 0 <= j < |items| ==> items[j].0 != name
    ensures Lookup(items, name) == None
    decreases |items|
  {
    if |items| > 0 {
      LookupMissing(items[..|items| - 1], name);
    }
  }

  /** After a complete loop over a dict (distinct names), each submodule is
      the converter's output on its original self and its listed inputs
      when it is listed and not a fallback submodule, and is unchanged
      otherwise. */
  lemma {:induction false} SpliceSlots<M, S>(subs: map<string, M>, items: seq<(string, S)>, prefix: string,
                                              settings: map<string, Value>,
                                              convert: (M, S, map<string, Value>, string) -> M)
    requires DistinctNames(items)
    requires Splice(subs, items, prefix, settings, convert).missing.None?
    ensures var st := Splice(subs, items, prefix, settings, convert);
            forall n :: n in subs ==>
              n in st.submodules
              && st.submodules[n] ==
                 match Lookup(items, n)
                 case Some(inputs) => if prefix <= n then subs[n] else convert(subs[n], inputs, settings, n)
                 case None => subs[n]
    decreases |items|
  {
    if |items| > 0 {
      var init := items[..|items| - 1];
      var (last, lastInputs) := items[|items| - 1];
      assert DistinctNames(init);
      var prev := Splice(subs, init, prefix, settings, convert);
      assert prev.missing.None?;
      SpliceSlots(subs, init, prefix, settings, convert);
      SpliceKeepsNames(subs, init, prefix, settings, convert);
      LookupMissing(init, last);
    }
  }

  /** `_compile_graph`: for each submodule listed in `submodule_inputs`,
      fetch it from the split module and, unless its name carries the
      fallback prefix, set the converter's output in its place. Returns the
      same split module object. */
  method CompileGraph<M, S>(split: SplitResult<M, S>, settings: map<string, Value>,
                            convert: (M, S, map<string, Value>, string) -> M)
    returns (r: Result<SplitModule<M>, PyException>)
    modifies split.splitModule
    ensures var st := Splice(old(split.splitModule.submodules), split.submoduleInputs,
                             split.nonAccPrefix, settings, convert);
            split.splitModule.submodules == st.submodules
            && (r.Success? <==> st.missing.None?)
            && (r.Success? ==> r.value == split.splitModule)
            && (r.Failure? ==> r.error == AttributeError)
  {
    var items := split.submoduleInputs;
    var sm := split.splitModule;
    for i := 0 to |items|
      invariant Splice(old(sm.submodules), items[..i], split.nonAccPrefix, settings, convert) ==
                SpliceState(sm.submodules, None)
    {
      assert items[..i + 1][..i] == items[..i];
      var (name, inputs) := items[i];
      if name !in sm.submodules {
        SplicePrefixMissing(old(sm.submodules), items, i + 1, split.nonAccPrefix, settings, convert);
        return Failure(AttributeError);
      }
      var submod := sm.submodules[name];
      if !(split.nonAccPrefix <= name) {
        var trtMod := convert(submod, inputs, settings, name);
        sm.submodules := sm.submodules[name := trtMod];
      }
    }
    assert items[..|items|] == items;
    return Success(sm);
  }

  // ---------------------------------------------------------------------
  // compile

  /** The collaborators `compile` calls and this model leaves uninterpreted:
      `lower_model`, `_compile_module`, the TRT splitter (its split module's
      submodules, `submodule_inputs` and fallback prefix) and `convert_module`. */
  datatype Backends<!M, !T, !K, !S> = Backends(
    lower: M -> M,
    compileModule: (M, Prepared<T, K>, map<string, Value>) -> M,
    split: (M, Prepared<T, K>) -> (map<string, M>, seq<(string, S)>, string),
    convert: (M, S, map<string, Value>, string) -> M)

  /** What `compile` returns: the capability path's module, or the split
      module with its accelerated submodules replaced. */
  datatype Compiled<M> = Whole(graphModule: M) | Split(graph: SplitModule<M>)

  /** `compile`: the front end, then the dispatch on
      `use_capability_partitioner`. */
  method Compile<M, I, T, K, S>(gm: M, inputs: InputTree<I, T, K>, device: DeviceArg, args: CompileArgs,
                                kwargs: map<string, Value>, ops: LeafOps<I, T>, b: Backends<M, T, K, S>)
    returns (r: Result<Compiled<M>, PyException>)
    ensures var fe := CompileFrontEnd(inputs, device, args, kwargs, ops);
            && (fe.Failure? ==> r == Failure(fe.error))
            && (fe.Success? && fe.value.path == CapabilityPartitioner ==>
                  r == Success(Whole(b.compileModule(b.lower(gm), fe.value.torchInputs, fe.value.settings))))
            && (fe.Success? && fe.value.path == TrtSplitter ==>
                  var (subs, items, prefix) := b.split(b.lower(gm), fe.value.torchInputs);
                  var st := Splice(subs, items, prefix, fe.value.settings, b.convert);
                  (r.Success? <==> st.missing.None?)
                  && (r.Failure? ==> r.error == AttributeError)
                  && (r.Success? ==> r.value.Split? && fresh(r.value.graph)
                                     && r.value.graph.submodules == st.submodules))
  {
    var fe := CompileFrontEnd(inputs, device, args, kwargs, ops);
    if fe.Failure? {
      return Failure(fe.error);
    }
    var FrontEnd(torchInputs, settings, path) := fe.value;
    var model := b.lower(gm);
    if path == CapabilityPartitioner {
      return Success(Whole(b.compileModule(model, torchInputs, settings)));
    }
    var (subs, items, prefix) := b.split(model, torchInputs);
    var sm := new SplitModule(subs);
    var trtModule := CompileGraph(SplitResult(sm, items, prefix), settings, b.convert);
    if trtModule.Failure? {
      return Failure(trtModule.error);
    }
    return Success(Split(trtModule.value));
  }
}
