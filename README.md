# Torch-TensorRT Python front end: device descriptors, option normalisation, splice

This project models, in Dafny, the parts of the Torch-TensorRT Python front end
that decide what a compile call will do, before any TensorRT engine is built:

- **`torch_tensorrt.Device`**. How a target-device descriptor is built from a
  spec string (`"gpu:N"`, `"cuda:N"`, `"dla:N"`, any letter case) or from the
  `gpu_id` / `dla_core` / `allow_gpu_fallback` keywords. This covers the class
  defaults, the exception class of every malformed shape, and the
  "GPU id set to 0" warning (kept as a ghost log). It also covers the copy into the
  runtime's device record (`_to_internal`) and the conversion from a `torch.device`.
  `Device` is a class, and its `Init` method assigns the attributes step by step,
  as `__init__` does. `Init` is proved equal to the pure function `Construct`, and
  the lemmas about each branch are stated on `Construct`.
- **The Dynamo utilities**:
  - `use_python_runtime_parser`, with "the C++ runtime is importable" as a parameter.
  - `parse_dynamo_kwargs`:
    - a sole `"options"` key is unwrapped;
    - keys that are not settings fields are dropped;
    - named fields are overwritten;
    - `use_python_runtime` is then resolved.
  - `prepare_device`.
  - `prepare_inputs`, a structure-preserving recursion over lists, tuples and
    dicts whose leaves are `Input`s and tensors. The leaf operations are opaque.
    It is written as the recursive loop the source runs (`PrepareInputs` /
    `PrepareElements`) and proved equal to the functional definition
    `Prepare` / `PrepareAll`. The lemmas are about that function.
- **`dynamo.compile`**:
  - input wrapping;
  - precision resolution (half wins over full; an empty set gives the default;
    anything else is a ValueError);
  - construction of the options record and the settings;
  - the dispatch on `use_capability_partitioner`;
  - `_compile_graph`. Its loop replaces, in place, every listed submodule whose
    name does not carry the fallback prefix with the converter's output.

  The split module is a class with a map of submodules. The method
  `CompileGraph` is proved against the recursive specification `Splice`.

The collaborators whose code is not part of this model become parameters of the
model: `lower_model`, the TRT splitter, `_compile_module`, `convert_module` and
the tensor operations.

Modules:

| module | file | contents |
|---|---|---|
| `Wrappers` | `wrappers.dfy` | `Option`, `Result` |
| `PyText` | `text.dfy` | the `str.lower`, `str.split` and `int` behaviour the parser relies on |
| `PyValues` | `values.dfy` | dynamic Python values, exception classes, truthiness |
| `Devices` | `device.dfy` | `Device` |
| `CompilationSettings` | `settings.dfy` | the settings dataclass as a field map, `dataclasses.replace` |
| `DynamoUtils` | `utils.dfy` | `dynamo/utils.py` |
| `DynamoCompile` | `compile.dfy` | `dynamo/compile.py` |

`CompilationSettings` is a dataclass, and a dataclass does not check field types
at run time. A settings instance is therefore the map from its eleven field names
to the values they hold. `dataclasses.replace(s, **kw)` and
`CompilationSettings(**opts)` are map override, with a TypeError for a keyword
that is not a field.

### Spec strings beyond the docstring's examples

The `Device` docstring (py/torch_tensorrt/_Device.py:56-62) shows only spec
strings of the form `kind:N` with N a non-negative number. The parser accepts
more than that, and the model follows the parser:

- The id is read with `int()`, and every field after the second is ignored.
  So `"cuda:-1"` is GPU -1 (`ConstructNegativeId`) and `"GPU:1:x"` is GPU 1
  (`ConstructIgnoresExtraFields`).
- A known kind with no id field (`"gpu"`) raises IndexError, from indexing the
  split fields (`ConstructMissingId`).

## Model

| member | source | states |
|---|---|---|
| `PyText.Lower` | py/torch_tensorrt/_Device.py:158 | lower-casing keeps the length and maps each character on its own |
| `PyText.Split` | py/torch_tensorrt/_Device.py:159 | `str.split` on one separator always yields at least one field, so `spec[0]` exists |
| `PyText.JoinSplit` | py/torch_tensorrt/_Device.py:159 | joining the fields with the separator gives back the string |
| `PyText.SplitFieldsHaveNoSep` | py/torch_tensorrt/_Device.py:159 | no field contains the separator |
| `PyText.SplitAtFirstSep` | py/torch_tensorrt/_Device.py:159 | the first field ends at the first separator |
| `PyText.ParseInt` | py/torch_tensorrt/_Device.py:161-163 | `int()` on the id field: an optionally signed decimal numeral gives its value, anything else is `None` (Python's ValueError); its partner `ParseIntOfIntToString` shows it inverts `str` on every integer |
| `PyText.ParseIntOfIntToString` | py/torch_tensorrt/_Device.py:161 | `int(str(n)) == n` for every integer n |
| `PyValues.Truthy` | py/torch_tensorrt/dynamo/compile.py:121 | Python's `bool(v)`: `None`, `False`, `0`, the empty string, list and dict are false, everything else true; `SelectPathTruthiness` states the dispatch through it |
| `Devices.ParseDeviceStr` | py/torch_tensorrt/_Device.py:157-165 | the parser itself; its properties are the five `ParseDeviceStr…` lemmas below; `ParseDeviceStrOfHead` and `ParseDeviceStrWithoutColon` together give its result on every string |
| `Devices.ParseDeviceStrOfSpec` | py/torch_tensorrt/_Device.py:157-165 | `head:n` parses to the kind `head` names in any letter case (gpu and cuda give GPU, dla gives DLA) with id n; any other head is ValueError |
| `Devices.ParseDeviceStrOfHead` | py/torch_tensorrt/_Device.py:157-165 | `head:tail` for any tail: an unknown kind is ValueError; a known kind reads its id from the tail's first ':'-field, and a field `int()` rejects is ValueError |
| `Devices.ParseDeviceStrIgnoresCase` | py/torch_tensorrt/_Device.py:158 | parsing depends only on the lower-cased spec |
| `Devices.ParseDeviceStrWithoutColon` | py/torch_tensorrt/_Device.py:159-165 | without ':' a known kind has no id field (IndexError) and an unknown one is ValueError |
| `Devices.ParseDeviceStrSuccess` | py/torch_tensorrt/_Device.py:157-165 | every successful parse read its kind from field 0 and its id from field 1 |
| `Devices.DispatchArgs` | py/torch_tensorrt/_Device.py:64-107 | the argument-shape dispatch of `__init__`; stated through `Construct` |
| `Devices.Construct` | py/torch_tensorrt/_Device.py:64-112 | what `Device(*args, **kw)` builds or raises; `Init` is proved equal to it, and the `Construct…` lemmas below state its branches |
| `Devices.WarnsGpuIdDefaulted` | py/torch_tensorrt/_Device.py:74-93 | when the warning is logged; `Init`, `ConstructDlaSpec` and `ConstructDlaKeywords` state it |
| `Devices.Device.constructor` | py/torch_tensorrt/_Device.py:36-41 | a new object sees the class defaults: no type, gpu_id -1, dla_core -1, no fallback |
| `Devices.Device.Init` | py/torch_tensorrt/_Device.py:64-112 | `__init__` over the defaults succeeds exactly when `Construct` does, leaves the attributes `Construct` computes, raises its exception otherwise, and logs the warning exactly when the GPU id was defaulted for a DLA target |
| `Devices.ConstructGpuSpec` | py/torch_tensorrt/_Device.py:64-112 | one GPU spec string sets gpu_id = n; dla_core stays -1; id keywords are ignored; fallback comes only from its keyword |
| `Devices.ConstructDlaSpec` | py/torch_tensorrt/_Device.py:70-79 | one DLA spec string sets dla_core = n and forces gpu_id = 0, whatever id keywords are passed, with the warning |
| `Devices.ConstructDlaKeywords` | py/torch_tensorrt/_Device.py:83-112 | `dla_core` gives a DLA target; gpu_id is the keyword's value, else 0, and the warning appears exactly in the latter case; fallback comes only from its keyword |
| `Devices.ConstructGpuKeyword` | py/torch_tensorrt/_Device.py:94-112 | `gpu_id` alone gives a GPU target with dla_core -1 and no warning; fallback comes only from its keyword |
| `Devices.ConstructErrors` | py/torch_tensorrt/_Device.py:64-112 | a non-str positional and a non-bool fallback give TypeError; no id keyword and two or more positionals give ValueError |
| `Devices.ConstructSucceedsIff` | py/torch_tensorrt/_Device.py:64-112 | construction succeeds exactly for an accepted argument shape and a bool (or absent) fallback keyword |
| `Devices.ConstructDla0` | py/torch_tensorrt/_Device.py:70-79 | "dla:0" gives DLA core 0 on GPU 0, with the warning |
| `Devices.ConstructGpu2` | py/torch_tensorrt/_Device.py:70-72 | "gpu:2" gives (GPU, 2, -1, False) |
| `Devices.ConstructIgnoresExtraFields` | py/torch_tensorrt/_Device.py:157-161 | "GPU:1:x" is accepted as GPU 1 |
| `Devices.ConstructNegativeId` | py/torch_tensorrt/_Device.py:157-161 | "cuda:-1" is accepted as GPU -1 |
| `Devices.ConstructMissingId` | py/torch_tensorrt/_Device.py:159-161 | "gpu" raises IndexError |
| `Devices.ToInternal` | py/torch_tensorrt/_Device.py:123-137 | the runtime record copies type, ids and fallback verbatim; ValueError exactly when no type is set |
| `Devices.ConstructedConvertsToInternal` | py/torch_tensorrt/_Device.py:123-137 | every constructed Device converts without the ValueError branch |
| `Devices.FromTorchDevice` | py/torch_tensorrt/_Device.py:145-149 | only a "cuda" torch device converts, to (GPU, its index, -1, False); any other type is ValueError |
| `Devices.DeviceStrAsWritten` | py/torch_tensorrt/_Device.py:114-121 | `__str__` as written; `DeviceStrAsWrittenDropsPrefix` and `DeviceStr` state its behaviour |
| `Devices.DeviceStrAsWrittenDropsPrefix` | py/torch_tensorrt/_Device.py:114-121 | as written, a DLA device renders as ", dla_core=0, allow_gpu_fallback=False", without the "Device(" prefix |
| `Devices.DeviceStr` | py/torch_tensorrt/_Device.py:114-121 | the intended string always starts with the type and gpu_id and ends with ')'; it equals the as-written one for GPU devices, and for other devices it is that prefix, the as-written DLA fields, then ')' |
| `CompilationSettings.DefaultSettingsAreSettings` | py/torch_tensorrt/dynamo/utils.py:146 | `CompilationSettings()` holds exactly the settings fields |
| `CompilationSettings.Replace` | py/torch_tensorrt/dynamo/utils.py:158 | `replace` raises TypeError exactly for a non-field keyword; otherwise named fields take the new values and the rest keep the old ones |
| `CompilationSettings.New` | py/torch_tensorrt/dynamo/compile.py:120 | a successfully built instance holds exactly the settings fields |
| `CompilationSettings.ReplaceKeepsSettings` | py/torch_tensorrt/dynamo/utils.py:158 | replacing fields keeps a settings instance one; replacing with the values already held changes nothing |
| `DynamoUtils.UsePythonRuntimeParser` | py/torch_tensorrt/dynamo/utils.py:19-47 | a given choice is returned as is; `None` means the Python runtime exactly when the C++ runtime cannot be imported; the result is never `None` |
| `DynamoUtils.UsePythonRuntimeParserStable` | py/torch_tensorrt/dynamo/utils.py:26-47 | resolving an already resolved choice changes nothing |
| `DynamoUtils.ValidKwargs` | py/torch_tensorrt/dynamo/utils.py:156-157 | exactly the keywords that name a field are kept, with their values |
| `DynamoUtils.UnwrapOptions` | py/torch_tensorrt/dynamo/utils.py:153-154 | the sole-"options" unwrapping; stated by `ParsedSettingsFields` and `ParsedSettingsUnwrapsOptions` |
| `DynamoUtils.BaseSettings` | py/torch_tensorrt/dynamo/utils.py:146-158 | the settings before the runtime field is resolved; stated through `ParsedSettings` |
| `DynamoUtils.ParsedSettings` | py/torch_tensorrt/dynamo/utils.py:136-169 | what `parse_dynamo_kwargs` returns; the `ParsedSettings…` lemmas below state its properties |
| `DynamoUtils.ParseDynamoKwargs` | py/torch_tensorrt/dynamo/utils.py:136-169 | the imperative parse (rebinding, then in-place runtime resolution) computes `ParsedSettings` |
| `DynamoUtils.ParsedSettingsWithoutKwargs` | py/torch_tensorrt/dynamo/utils.py:146-165 | no kwargs, or empty ones, give the defaults with only the runtime field resolved |
| `DynamoUtils.ParsedSettingsFields` | py/torch_tensorrt/dynamo/utils.py:152-165 | field by field: named fields take the keyword's value and the others keep their defaults; the runtime field is resolved from whichever applies; only a non-dict sole "options" fails (AttributeError) |
| `DynamoUtils.ParsedSettingsResolveRuntime` | py/torch_tensorrt/dynamo/utils.py:165 | after parsing, `use_python_runtime` is never `None` |
| `DynamoUtils.ParsedSettingsUnwrapsOptions` | py/torch_tensorrt/dynamo/utils.py:153-154 | a sole "options" dict parses as its entries passed directly |
| `DynamoUtils.ParsedSettingsKeepsWrappedOptions` | py/torch_tensorrt/dynamo/utils.py:153-158 | next to other keys, "options" is not unwrapped and is dropped |
| `DynamoUtils.ParsedSettingsDropsUnknownKey` | py/torch_tensorrt/dynamo/utils.py:156-158 | a keyword that names no field has no effect |
| `DynamoUtils.PrepareDevice` | py/torch_tensorrt/dynamo/utils.py:117-133 | a Device maps to the CUDA device of its gpu_id, with ValueError for -1; a torch device passes through; anything else is ValueError |
| `DynamoUtils.PrepareDeviceFromTorchDevice` | py/torch_tensorrt/dynamo/utils.py:117-133 | an indexed CUDA device survives the trip through a Device and back |
| `DynamoUtils.FromTorchDeviceOfPrepared` | py/torch_tensorrt/_Device.py:145-149 | a Device built from `gpu_id=n` survives the trip through a torch device and back |
| `DynamoUtils.PrepareConstructedDevice` | py/torch_tensorrt/dynamo/utils.py:119-123 | a constructed Device prepares to the CUDA device of its gpu_id, or ValueError for -1; a DLA Device without an explicit gpu_id prepares to cuda:0 |
| `DynamoUtils.Prepare` | py/torch_tensorrt/dynamo/utils.py:64-114 | what `prepare_inputs` returns; `PrepareInputs` computes it, and the `Prepare…` lemmas below state its properties |
| `DynamoUtils.PrepareAll` | py/torch_tensorrt/dynamo/utils.py:79-108 | the element loop; `PrepareElements` computes it, and `PrepareAllSlots` states it |
| `DynamoUtils.Supported` | py/torch_tensorrt/dynamo/utils.py:68-114 | the supported input types; `PrepareSucceedsIff` ties it to success |
| `DynamoUtils.PrepareAllPrefixFailure` | py/torch_tensorrt/dynamo/utils.py:82-85 | the first failing element ends the loop with its exception |
| `DynamoUtils.PrepareAllSlots` | py/torch_tensorrt/dynamo/utils.py:79-108 | the element loop succeeds exactly when every element does; slot i of both results is element i's result under the default device |
| `DynamoUtils.PrepareSucceedsIff` | py/torch_tensorrt/dynamo/utils.py:64-114 | `prepare_inputs` raises exactly when some part of the structure has an unsupported type |
| `DynamoUtils.ElementsSucceedIff` | py/torch_tensorrt/dynamo/utils.py:79-108 | the element loop succeeds exactly when every element is supported |
| `DynamoUtils.PrepareRaisesValueError` | py/torch_tensorrt/dynamo/utils.py:110-114 | the only exception raised is ValueError |
| `DynamoUtils.ElementsRaiseValueError` | py/torch_tensorrt/dynamo/utils.py:79-108 | a failing element loop raises ValueError |
| `DynamoUtils.PreparePreservesShape` | py/torch_tensorrt/dynamo/utils.py:79-108 | both results have the input's structure: lists of the same length and order, tuples, dicts with the same keys |
| `DynamoUtils.ElementsPreserveShape` | py/torch_tensorrt/dynamo/utils.py:79-108 | the element loop keeps length, order and each element's structure |
| `DynamoUtils.PrepareKeepsDictsWellFormed` | py/torch_tensorrt/dynamo/utils.py:99-108 | from proper dicts (as many keys as values, no key twice), both results hold only proper dicts |
| `DynamoUtils.PrepareTensorLeaf` | py/torch_tensorrt/dynamo/utils.py:76-77 | a tensor leaf returns `Input.from_tensor` and the original tensor itself |
| `DynamoUtils.PrepareDeviceNotForwarded` | py/torch_tensorrt/dynamo/utils.py:68-83 | a top-level Input is moved to the given device, but one inside a list is moved to the default device |
| `DynamoUtils.PrepareOn` | py/torch_tensorrt/dynamo/utils.py:79-108 | the corrected `prepare_inputs`, which forwards `device` to nested calls; stated by the three lemmas below |
| `DynamoUtils.PrepareOnIsPinned` | py/torch_tensorrt/dynamo/utils.py:79-108 | the corrected preparation equals the source's with every `.to` moving to the caller's device, at any depth |
| `DynamoUtils.PrepareOnAgreesOnOutcome` | py/torch_tensorrt/dynamo/utils.py:64-114 | the corrected preparation succeeds exactly for supported inputs, fails only with ValueError and keeps the input's structure |
| `DynamoUtils.PrepareOnForwardsDevice` | py/torch_tensorrt/dynamo/utils.py:79-87 | corrected, an Input inside a list is moved to the caller's device |
| `DynamoUtils.PrepareInputs` | py/torch_tensorrt/dynamo/utils.py:64-114 | the recursive, loop-based `prepare_inputs` computes `Prepare` |
| `DynamoUtils.PrepareElements` | py/torch_tensorrt/dynamo/utils.py:82-87 | the append loop computes `PrepareAll`, stopping at the first exception |
| `DynamoCompile.ResolvePrecision` | py/torch_tensorrt/dynamo/compile.py:86-102 | precision resolution; the five `ResolvePrecision…` lemmas below state it |
| `DynamoCompile.ResolvePrecisionHalfWins` | py/torch_tensorrt/dynamo/compile.py:86-90 | float16 or dtype.half in the set gives float16, whatever else is enabled |
| `DynamoCompile.ResolvePrecisionFloat` | py/torch_tensorrt/dynamo/compile.py:91-95 | without half, float32 or dtype.float gives float32 |
| `DynamoCompile.ResolvePrecisionEmpty` | py/torch_tensorrt/dynamo/compile.py:96-98 | an empty set gives the default `PRECISION`, not an error |
| `DynamoCompile.ResolvePrecisionFailsIff` | py/torch_tensorrt/dynamo/compile.py:86-102 | resolution fails exactly for a non-empty set with none of the four float dtypes, and then with ValueError |
| `DynamoCompile.ResolvePrecisionInt8Only` | py/torch_tensorrt/dynamo/compile.py:99-102 | an int8-only set raises ValueError |
| `DynamoCompile.BuildOptions` | py/torch_tensorrt/dynamo/compile.py:104-118 | the `compilation_options` dict; the three `BuildOptions…` lemmas below state it |
| `DynamoCompile.BuildOptionsKeys` | py/torch_tensorrt/dynamo/compile.py:104-118 | the options dict names exactly the settings fields |
| `DynamoCompile.BuildOptionsMakesSettings` | py/torch_tensorrt/dynamo/compile.py:104-120 | `CompilationSettings(**opts)` succeeds and every field comes from the options; precision is the resolved one; `torch_executed_ops=None` becomes `[]`, a given list is passed through |
| `DynamoCompile.BuildOptionsIgnoresUnlisted` | py/torch_tensorrt/dynamo/compile.py:104-118 | arguments outside the option list (tf32, sparsity, refit, DLA sizes, full compilation, executed modules, ...) do not reach the settings |
| `DynamoCompile.WrapInputs` | py/torch_tensorrt/dynamo/compile.py:81-82 | the result is always a list or tuple; a list or tuple is kept and anything else becomes a one-element list |
| `DynamoCompile.SelectPath` | py/torch_tensorrt/dynamo/compile.py:121 | the path dispatch; stated by `SelectPathTruthiness` |
| `DynamoCompile.SelectPathTruthiness` | py/torch_tensorrt/dynamo/compile.py:121 | a truthy `use_capability_partitioner` selects the capability path; an absent or falsy one selects the splitter; other keywords play no part |
| `DynamoCompile.CompileFrontEnd` | py/torch_tensorrt/dynamo/compile.py:72-120 | `compile` up to the dispatch; stated by `CompileFrontEndSpec` |
| `DynamoCompile.CompileFrontEndSpec` | py/torch_tensorrt/dynamo/compile.py:72-120 | the front end succeeds exactly when the device has a GPU id, every input is supported and the precision resolves; every failure is ValueError; on success the torch inputs are a list or tuple and the settings are the built options |
| `DynamoCompile.CompileFrontEndIgnoresTorchDevice` | py/torch_tensorrt/dynamo/compile.py:81-84 | as written, any two torch devices give the same front-end result, and a single Input is moved to the default cuda device whatever device was asked for |
| `DynamoCompile.SpliceStep` | py/torch_tensorrt/dynamo/compile.py:138-148 | one loop iteration; stated through `Splice` |
| `DynamoCompile.Splice` | py/torch_tensorrt/dynamo/compile.py:137-148 | the loop; `CompileGraph` computes it, and the `Splice…` lemmas below state its properties |
| `DynamoCompile.SplicePrefixMissing` | py/torch_tensorrt/dynamo/compile.py:137-138 | once `getattr` raises, the rest of the loop does not run |
| `DynamoCompile.SpliceKeepsNames` | py/torch_tensorrt/dynamo/compile.py:137-148 | the set of submodule names is unchanged |
| `DynamoCompile.SpliceCompletesIff` | py/torch_tensorrt/dynamo/compile.py:137-138 | the loop completes exactly when every listed name is a submodule |
| `DynamoCompile.SpliceKeepsFallback` | py/torch_tensorrt/dynamo/compile.py:139-140 | submodules whose name starts with the fallback prefix are left untouched |
| `DynamoCompile.SpliceSlots` | py/torch_tensorrt/dynamo/compile.py:137-148 | after a complete loop, each listed non-fallback submodule is the converter's output on its original self and inputs; every other one is unchanged |
| `DynamoCompile.CompileGraph` | py/torch_tensorrt/dynamo/compile.py:131-150 | the in-place loop leaves the submodules `Splice` computes, returns the same split-module object, and raises AttributeError exactly for a missing name |
| `DynamoCompile.Compile` | py/torch_tensorrt/dynamo/compile.py:40-128 | a front-end failure is raised; a truthy flag returns `_compile_module` on the lowered graph; otherwise the result is the spliced split module |

## Left out

- `setup.py`: build and packaging plumbing, all I/O.
- `cosine_similarity`: floating-point tensor numerics.
- `req_torch_version`: depends on version-string semantics and on the installed torch.
- Partitioning. `lower_model`, `lower_model_using_trt_splitter` and the TRT splitter are not part of this model. Their combined effect is a parameter of `Compile`: the split module's submodules, `submodule_inputs` and the fallback prefix.
- `convert_module`, `_compile_module` and TensorRT engine building are opaque function parameters. `_C`, `Device._current_device` and `_to_serialized_rt_device` need the native extension and are not modelled. The default `device` argument of `compile` is therefore not modelled either.
- The tensor operations inside `prepare_inputs` are opaque leaf functions: `example_tensor`, `.to(device)` and `Input.from_tensor`.
- Logging. The only log kept is the "GPU id set to 0" warning, as a ghost log on `Device`. The info message for the default precision and the debug-level switches are not modelled.
- Python's `int()` leniency: surrounding whitespace, underscores, non-ASCII digits. The id field is an optionally signed decimal numeral. `str.lower` is modelled on ASCII letters only.
- `Devices.Device.Init`: the `gpu_id` and `dla_core` keywords are taken to be ints. The source stores any value unchecked. The attribute values left behind after a raised exception are not stated, because the object is then discarded.
- `Devices.FromTorchDevice`: requires a "cuda" torch device to carry an index. The source would pass `gpu_id=None` through, and that value has no place in the int-valued model.
- `DynamoUtils.PrepareDevice`: does not model `torch.device` rejecting a negative id other than -1; the model gives cuda:n there. The gap reaches `FromTorchDeviceOfPrepared`, `PrepareConstructedDevice`, `CompileFrontEndSpec` (which states success exactly when the device has a GPU id, and every failure ValueError) and `Compile`: for `Device("cuda:-2")` the model's front end succeeds where the source raises.
- The opaque operations are assumed not to raise: `example_tensor`, `.to(device)`, `Input.from_tensor` and `convert_module`. `PrepareRaisesValueError` and `CompileFrontEndSpec` ("every failure is ValueError") and `SpliceCompletesIff` rest on that.
- Aliasing of `torch_executed_ops`: the source stores the caller's list object itself in the settings. The model stores the list's value, so a later change to that list is not reflected.
- `prepare_inputs` dict keys are kept as an opaque, ordered key sequence. Only a `DictNode` with as many keys as values and no repeated key stands for a Python dict (`WellFormedDicts`). The keys of keyword dicts and of the settings are strings.
- `compile` treats only lists and tuples as sequences. A `str` input is a Python sequence, so the source does not wrap it. It is then rejected with ValueError either way, because it is not a supported input type.
- `capability`, `calibrator` and the other arguments that `compile` accepts but never forwards are left out, apart from those listed in `CompileArgs`.
- The values of the package defaults (`PRECISION`, `MIN_BLOCK_SIZE`, ...) are named constants. The defaults module is not part of this model, and no lemma depends on those values.
- The unused `inputs` parameter and the `**kwargs` of `_compile_graph` are left out.

## Findings

| source | as written | input that shows it | evidently intended | confidence | as-written member | corrected member |
|---|---|---|---|---|---|---|
| py/torch_tensorrt/_Device.py:114-121 | the conditional expression binds looser than `+`, so a non-GPU device renders only the tail `", dla_core=…, allow_gpu_fallback=…"` | `str(Device("dla:0"))` gives `", dla_core=0, allow_gpu_fallback=False"` | `"Device(type=…, gpu_id=…"` followed by `")"` for GPU, or by the DLA fields and `")"` for DLA | not executed | `Devices.DeviceStrAsWrittenDropsPrefix` (about `Devices.DeviceStrAsWritten`) | `Devices.DeviceStr` |
| py/torch_tensorrt/dynamo/utils.py:79-108 | the nested `prepare_inputs` calls omit `device`, and `compile` always passes a list or tuple (compile.py:81-84), so the target device never places an example tensor; it is only validated | `compile(gm, Input(...), device=torch.device("cuda:1"))` moves the example tensor to `torch.device("cuda")`, the current device | nested calls receive the caller's device | not executed | `DynamoCompile.CompileFrontEndIgnoresTorchDevice` (about `DynamoUtils.Prepare`) | `DynamoUtils.PrepareOnIsPinned` (about `DynamoUtils.PrepareOn`) |

`PrepareInputs`, `CompileFrontEnd` and `Compile` keep modelling the code as written. The corrected preparation `PrepareOn` is stated beside them.
