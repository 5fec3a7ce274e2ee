/** `CompilationSettings`, the dataclass every Dynamo compile reads its
    knobs from. A dataclass does not check field types at run time, so an
    instance is modelled as the map from its field names to the values they
    hold; `dataclasses.replace` and the constructor's keywords then become
    map override. */
module CompilationSettings {
  import opened Wrappers
  import opened PyValues

  /** The dataclass fields: the option keys `compile` builds. */
  const FieldNames: set<string> := {
    "precision", "debug", "workspace_size", "min_block_size", "torch_executed_ops",
    "pass_through_build_failures", "max_aux_streams", "version_compatible",
    "optimization_level", "use_python_runtime", "truncate_long_and_double"
  }

  /** The runtime-selection field, resolved last by `parse_dynamo_kwargs`. */
  const UsePythonRuntimeField: string := "use_python_runtime"

  // The defaults module of the Dynamo package (its constants used for the
  // field defaults and for `compile`'s keyword defaults).
  const PRECISION: Dtype := TorchFloat32
  const DEBUG: bool := false
  const WORKSPACE_SIZE: int := 0
  const MIN_BLOCK_SIZE: int := 5
  const PASS_THROUGH_BUILD_FAILURES: bool := false
  const MAX_AUX_STREAMS: Option<int> := None
  const VERSION_COMPATIBLE: bool := false
  const OPTIMIZATION_LEVEL: Option<int> := None
  const USE_PYTHON_RUNTIME: Option<bool> := Some(false)
  const TRUNCATE_LONG_AND_DOUBLE: bool := false

  function OptIntValue(o: Option<int>): Value {
    if o.Some? then VInt(o.value) else VNone
  }

  function OptBoolValue(o: Option<bool>): Value {
    if o.Some? then VBool(o.value) else VNone
  }

  /** `CompilationSettings()`: every field at its default. */
  const DefaultSettings: map<string, Value> := map[
    "precision" := VDtype(PRECISION),
    "debug" := VBool(DEBUG),
    "workspace_size" := VInt(WORKSPACE_SIZE),
    "min_block_size" := VInt(MIN_BLOCK_SIZE),
    "torch_executed_ops" := VList([]),
    "pass_through_build_failures" := VBool(PASS_THROUGH_BUILD_FAILURES),
    "max_aux_streams" := OptIntValue(MAX_AUX_STREAMS),
    "version_compatible" := VBool(VERSION_COMPATIBLE),
    "optimization_level" := OptIntValue(OPTIMIZATION_LEVEL),
    "use_python_runtime" := OptBoolValue(USE_PYTHON_RUNTIME),
    "truncate_long_and_double" := VBool(TRUNCATE_LONG_AND_DOUBLE)
  ]

  /** A map is a settings instance when it holds exactly the fields. */
  predicate IsSettings(s: map<string, Value>) {
    s.Keys == FieldNames
  }

  lemma DefaultSettingsAreSettings()
    ensures IsSettings(DefaultSettings)
  {
  }

  /** `dataclasses.replace(s, **changes)`: a TypeError for a keyword that is
      not a field; otherwise every named field takes its new value and every
      other field keeps its old one. */
  function Replace(s: map<string, Value>, changes: map<string, Value>): (r: Result<map<string, Value>, PyException>)
    ensures r.Success? <==> changes.Keys <= FieldNames
    ensures r.Failure? ==> r.error == TypeError
    ensures r.Success? ==> r.value.Keys == s.Keys + changes.Keys
    ensures r.Success? ==>
              forall f :: f in r.value ==> r.value[f] == if f in changes then changes[f] else s[f]
  {
    if changes.Keys <= FieldNames then Success(s + changes) else Failure(TypeError)
  }

  /** `CompilationSettings(**opts)`: the defaults with the given fields replaced. */
  function New(opts: map<string, Value>): (r: Result<map<string, Value>, PyException>)
    ensures r.Success? ==> IsSettings(r.value)
  {
    Replace(DefaultSettings, opts)
  }

  /** `replace` with no keywords is a copy. */
  lemma ReplaceNothing(s: map<string, Value>)
    ensures Replace(s, map[]) == Success(s)
  {
    assert s + map[] == s;
  }

  /** Replacing fields of a settings instance yields a settings instance,
      and replacing with the fields it already holds changes nothing. */
  lemma ReplaceKeepsSettings(s: map<string, Value>, changes: map<string, Value>)
    requires IsSettings(s) && changes.Keys <= FieldNames
    ensures Replace(s, changes).Success? && IsSettings(Replace(s, changes).value)
    ensures (forall f :: f in changes ==> changes[f] == s[f]) ==> Replace(s, changes) == Success(s)
  {
    var r := Replace(s, changes).value;
    if forall f :: f in changes ==> changes[f] == s[f] {
      assert forall f :: f in r ==> r[f] == s[f];
      assert r == s;
    }
  }
}
