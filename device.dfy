/** `torch_tensorrt.Device`: a target-device descriptor built from one spec
    string ("gpu:N", "cuda:N", "dla:N") or from the keywords `gpu_id`,
    `dla_core` and `allow_gpu_fallback`. */
module Devices {
  import opened Wrappers
  import opened PyText
  import opened PyValues

  datatype DeviceType = GPU | DLA

  /** The four attributes of a Device. `deviceType` is `None` only on an
      object whose constructor has not finished. */
  datatype DeviceState = DeviceState(
    deviceType: Option<DeviceType>,
    gpuId: int,
    dlaCore: int,
    allowGpuFallback: bool)

  /** The class-level attribute defaults. */
  const Defaults: DeviceState := DeviceState(None, -1, -1, false)

  /** The keyword arguments the constructor looks at; `None` is "not given".
      Any other keyword is ignored by the constructor. */
  datatype DeviceKwargs = DeviceKwargs(
    gpuId: Option<int>,
    dlaCore: Option<int>,
    allowGpuFallback: Option<Value>)

  const NoKwargs: DeviceKwargs := DeviceKwargs(None, None, None)

  /** Messages the constructor logs at warning level. */
  datatype LogEvent = GpuIdDefaultedForDla

  // ---------------------------------------------------------------------
  // Device._parse_device_str

  /** Lower-case the spec, split on ':', dispatch on the first field and
      read the second as an integer. A missing second field is Python's
      IndexError; fields after the second are ignored. */
  function ParseDeviceStr(s: string): Result<(DeviceType, int), PyException> {
    var spec := Split(Lower(s), ':');
    var kind :=
      if spec[0] == "gpu" || spec[0] == "cuda" then Some(GPU)
      else if spec[0] == "dla" then Some(DLA)
      else None;
    if kind.None? then Failure(ValueError)
    else if |spec| < 2 then Failure(IndexError)
    else match ParseInt(spec[1])
      case None => Failure(ValueError)
      case Some(n) => Success((kind.value, n))
  }

  /** The device kind a lower-case first field names, if any. */
  function KindOfPrefix(head: string): Option<DeviceType> {
    if head in {"gpu", "cuda"} then Some(GPU)
    else if head == "dla" then Some(DLA)
    else None
  }

  /** A spec written as `<head>:<n>` parses to the kind that `head` names
      (in any letter case) and to the id `n`; an unknown head is a ValueError. */
  lemma ParseDeviceStrOfSpec(head: string, n: int)
    requires ':' !in head
    ensures ParseDeviceStr(head + ":" + IntToString(n)) ==
            match KindOfPrefix(Lower(head))
            case Some(t) => Success((t, n))
            case None => Failure(ValueError)
  {
    var digits := IntToString(n);
    IntToStringPlain(n);
    ParseIntOfIntToString(n);
    LowerConcat(head + ":", digits);
    LowerConcat(head, ":");
    LowerKeepsColons(head);
    assert Lower(head + ":" + digits) == Lower(head) + [':'] + digits;
    SplitAtFirstSep(Lower(head), ':', digits);
    SplitWithoutSep(digits, ':');
    assert Split(Lower(head + ":" + digits), ':') == [Lower(head), digits];
  }

  /** A spec written as `<head>:<tail>`, for any tail: an unknown head is a
      ValueError; a known one reads its id from the tail up to its next ':',
      and a field `int()` rejects is a ValueError too. */
  lemma ParseDeviceStrOfHead(head: string, tail: string)
    requires ':' !in head
    ensures ParseDeviceStr(head + ":" + tail) ==
            match KindOfPrefix(Lower(head))
            case None => Failure(ValueError)
            case Some(t) =>
              (match ParseInt(Split(Lower(tail), ':')[0])
               case None => Failure(ValueError)
               case Some(n) => Success((t, n)))
  {
    LowerConcat(head + ":", tail);
    LowerConcat(head, ":");
    LowerKeepsColons(head);
    assert Lower(head + ":" + tail) == Lower(head) + [':'] + Lower(tail);
    SplitAtFirstSep(Lower(head), ':', Lower(tail));
  }

  /** Parsing ignores letter case. */
  lemma ParseDeviceStrIgnoresCase(s: string)
    ensures ParseDeviceStr(s) == ParseDeviceStr(Lower(s))
  {
    LowerIdempotent(s);
  }

  /** A spec without ':' fails: ValueError for an unknown head, IndexError
      for a known one (the id field is missing). */
  lemma ParseDeviceStrWithoutColon(s: string)
    requires ':' !in s
    ensures ParseDeviceStr(s) ==
            if KindOfPrefix(Lower(s)).Some? then Failure(IndexError) else Failure(ValueError)
  {
    LowerKeepsColons(s);
    SplitWithoutSep(Lower(s), ':');
  }

  /** Every successful parse read its id from the second ':'-field, and the
      first field named the kind. */
  lemma ParseDeviceStrSuccess(s: string)
    requires ParseDeviceStr(s).Success?
    ensures var spec := Split(Lower(s), ':');
            |spec| >= 2
            && KindOfPrefix(spec[0]) == Some(ParseDeviceStr(s).value.0)
            && ParseInt(spec[1]) == Some(ParseDeviceStr(s).value.1)
  {
  }

  // ---------------------------------------------------------------------
  // Device.__init__, as a function of its arguments

  /** The attributes after the argument-shape dispatch, before the
      `allow_gpu_fallback` keyword is looked at. */
  function DispatchArgs(args: seq<Value>, kw: DeviceKwargs): Result<DeviceState, PyException> {
    if |args| == 1 then
      if !args[0].VStr? then Failure(TypeError)
      else match ParseDeviceStr(args[0].s)
        case Failure(e) => Failure(e)
        case Success((t, id)) =>
          if t == GPU then Success(Defaults.(deviceType := Some(GPU), gpuId := id))
          else Success(Defaults.(deviceType := Some(DLA), dlaCore := id, gpuId := 0))
    else if |args| == 0 then
      if kw.dlaCore.Some? then
        Success(Defaults.(deviceType := Some(DLA), dlaCore := kw.dlaCore.value,
                          gpuId := if kw.gpuId.Some? then kw.gpuId.value else 0))
      else if kw.gpuId.Some? then
        Success(Defaults.(gpuId := kw.gpuId.value, deviceType := Some(GPU)))
      else Failure(ValueError)
    else Failure(ValueError)
  }

  /** What `Device(*args, **kw)` builds, or the exception it raises. */
  function Construct(args: seq<Value>, kw: DeviceKwargs): Result<DeviceState, PyException> {
    match DispatchArgs(args, kw)
    case Failure(e) => Failure(e)
    case Success(d) =>
      match kw.allowGpuFallback
      case None => Success(d)
      case Some(v) => if v.VBool? then Success(d.(allowGpuFallback := v.b)) else Failure(TypeError)
  }

  /** The constructor logs the "GPU id set to 0" warning exactly when it picks
      a DLA target without an explicit `gpu_id`. */
  predicate WarnsGpuIdDefaulted(args: seq<Value>, kw: DeviceKwargs) {
    if |args| == 1 then
      args[0].VStr? && ParseDeviceStr(args[0].s).Success? && ParseDeviceStr(args[0].s).value.0 == DLA
    else |args| == 0 && kw.dlaCore.Some? && kw.gpuId.None?
  }

  /** A Python object of class Device. */
  class Device {
    var deviceType: Option<DeviceType>
    var gpuId: int
    var dlaCore: int
    var allowGpuFallback: bool
    /** Warnings logged while this object was being initialised. */
    ghost var log: seq<LogEvent>

    function State(): DeviceState
      reads this
    {
      DeviceState(deviceType, gpuId, dlaCore, allowGpuFallback)
    }

    /** A fresh instance sees the class-level defaults. */
    constructor ()
      ensures State() == Defaults && log == []
    {
      deviceType, gpuId, dlaCore, allowGpuFallback := None, -1, -1, false;
      log := [];
    }

    /** `Device.__init__(self, *args, **kw)`: assigns the attributes step by
        step over the defaults; returns the exception it raises, if any. */
    method Init(args: seq<Value>, kw: DeviceKwargs) returns (raised: Option<PyException>)
      requires State() == Defaults
      modifies this
      ensures raised.None? <==> Construct(args, kw).Success?
      ensures raised.None? ==> State() == Construct(args, kw).value && deviceType.Some?
      ensures raised.Some? ==> raised.value == Construct(args, kw).error
      ensures raised.None? ==>
                log == old(log) + if WarnsGpuIdDefaulted(args, kw) then [GpuIdDefaultedForDla] else []
    {
      if |args| == 1 {
        if !args[0].VStr? {
          return Some(TypeError);
        }
        var parsed := ParseDeviceStr(args[0].s);
        if parsed.Failure? {
          return Some(parsed.error);
        }
        var (t, id) := parsed.value;
        deviceType := Some(t);
        if t == GPU {
          gpuId := id;
        } else {
          dlaCore := id;
          gpuId := 0;
          log := log + [GpuIdDefaultedForDla];
        }
      } else if |args| == 0 {
        if kw.gpuId.Some? || kw.dlaCore.Some? {
          if kw.dlaCore.Some? {
            deviceType := Some(DLA);
            dlaCore := kw.dlaCore.value;
            if kw.gpuId.Some? {
              gpuId := kw.gpuId.value;
            } else {
              gpuId := 0;
              log := log + [GpuIdDefaultedForDla];
            }
          } else {
            gpuId := kw.gpuId.value;
            deviceType := Some(GPU);
          }
        } else {
          return Some(ValueError);
        }
      } else {
        return Some(ValueError);
      }
      if kw.allowGpuFallback.Some? {
        if !kw.allowGpuFallback.value.VBool? {
          return Some(TypeError);
        }
        allowGpuFallback := kw.allowGpuFallback.value.b;
      }
      return None;
    }
  }

  // ---------------------------------------------------------------------
  // Properties of the constructor

  /** A single GPU spec string sets `gpu_id` and nothing else; the id
      keywords are ignored and `allow_gpu_fallback` is taken from its keyword. */
  lemma ConstructGpuSpec(head: string, n: int, kw: DeviceKwargs)
    requires ':' !in head && Lower(head) in {"gpu", "cuda"}
    requires kw.allowGpuFallback.None? || kw.allowGpuFallback.value.VBool?
    ensures Construct([VStr(head + ":" + IntToString(n))], kw) ==
            Success(DeviceState(Some(GPU), n, -1,
                                kw.allowGpuFallback.Some? && kw.allowGpuFallback.value.b))
  {
    ParseDeviceStrOfSpec(head, n);
  }

  /** A single DLA spec string sets `dla_core` and forces `gpu_id` to 0,
      whatever id keywords are given. */
  lemma ConstructDlaSpec(head: string, n: int, kw: DeviceKwargs)
    requires ':' !in head && Lower(head) == "dla"
    requires kw.allowGpuFallback.None? || kw.allowGpuFallback.value.VBool?
    ensures Construct([VStr(head + ":" + IntToString(n))], kw) ==
            Success(DeviceState(Some(DLA), 0, n,
                                kw.allowGpuFallback.Some? && kw.allowGpuFallback.value.b))
    ensures WarnsGpuIdDefaulted([VStr(head + ":" + IntToString(n))], kw)
  {
    ParseDeviceStrOfSpec(head, n);
  }

  /** Keyword form: `dla_core` selects DLA, `gpu_id` is the keyword's
      value or 0 (with the warning), and the fallback flag comes from its
      keyword when given. */
  lemma ConstructDlaKeywords(kw: DeviceKwargs)
    requires kw.dlaCore.Some?
    requires kw.allowGpuFallback.None? || kw.allowGpuFallback.value.VBool?
    ensures Construct([], kw) ==
            Success(DeviceState(Some(DLA), if kw.gpuId.Some? then kw.gpuId.value else 0,
                                kw.dlaCore.value,
                                kw.allowGpuFallback.Some? && kw.allowGpuFallback.value.b))
    ensures WarnsGpuIdDefaulted([], kw) <==> kw.gpuId.None?
  {
  }

  /** Keyword form with `gpu_id` only: a GPU target with `dla_core` -1. */
  lemma ConstructGpuKeyword(kw: DeviceKwargs)
    requires kw.gpuId.Some? && kw.dlaCore.None?
    requires kw.allowGpuFallback.None? || kw.allowGpuFallback.value.VBool?
    ensures Construct([], kw) ==
            Success(DeviceState(Some(GPU), kw.gpuId.value, -1,
                                kw.allowGpuFallback.Some? && kw.allowGpuFallback.value.b))
    ensures !WarnsGpuIdDefaulted([], kw)
  {
  }

  /** The error conditions, each with its exception class. */
  lemma ConstructErrors(args: seq<Value>, kw: DeviceKwargs)
    ensures |args| == 1 && !args[0].VStr? ==> Construct(args, kw) == Failure(TypeError)
    ensures |args| == 0 && kw.gpuId.None? && kw.dlaCore.None? ==>
              Construct(args, kw) == Failure(ValueError)
    ensures |args| >= 2 ==> Construct(args, kw) == Failure(ValueError)
    ensures (DispatchArgs(args, kw).Success? && kw.allowGpuFallback.Some?
             && !kw.allowGpuFallback.value.VBool?) ==> Construct(args, kw) == Failure(TypeError)
  {
  }

  /** A Device is built exactly when the argument shape is accepted and the
      fallback keyword, if given, is a bool. */
  lemma ConstructSucceedsIff(args: seq<Value>, kw: DeviceKwargs)
    ensures Construct(args, kw).Success? <==>
            (if |args| == 1 then args[0].VStr? && ParseDeviceStr(args[0].s).Success?
             else |args| == 0 && (kw.gpuId.Some? || kw.dlaCore.Some?))
            && (kw.allowGpuFallback.None? || kw.allowGpuFallback.value.VBool?)
  {
  }

  /** Scenario: "dla:0" without keywords targets DLA core 0 managed by GPU 0. */
  lemma ConstructDla0()
    ensures Construct([VStr("dla:0")], NoKwargs) == Success(DeviceState(Some(DLA), 0, 0, false))
    ensures WarnsGpuIdDefaulted([VStr("dla:0")], NoKwargs)
  {
    LowerOfLowerCase("dla");
    ConstructDlaSpec("dla", 0, NoKwargs);
    assert "dla" + ":" + IntToString(0) == "dla:0";
  }

  /** Scenario: "gpu:2" targets GPU 2 with no DLA core. */
  lemma ConstructGpu2()
    ensures Construct([VStr("gpu:2")], NoKwargs) == Success(DeviceState(Some(GPU), 2, -1, false))
  {
    LowerOfLowerCase("gpu");
    ConstructGpuSpec("gpu", 2, NoKwargs);
    assert "gpu" + ":" + IntToString(2) == "gpu:2";
  }

  /** The code accepts spec strings outside the documented "kind:id" shape:
      fields after the id are ignored. */
  lemma ConstructIgnoresExtraFields()
    ensures Construct([VStr("GPU:1:x")], NoKwargs) == Success(DeviceState(Some(GPU), 1, -1, false))
  {
    LowerConcat("GPU:", "1:x");
    LowerOfLowerCase("1:x");
    assert Lower("GPU:") == "gpu:";
    assert "GPU:" + "1:x" == "GPU:1:x";
    assert "gpu:" + "1:x" == "gpu" + [':'] + ("1" + [':'] + "x");
    SplitWithoutSep("x", ':');
    SplitAtFirstSep("1", ':', "x");
    SplitAtFirstSep("gpu", ':', "1" + [':'] + "x");
    assert ParseInt("1") == Some(1) by { ParseIntOfIntToString(1); }
  }

  /** A signed id is read as written, so a negative GPU id is accepted. */
  lemma ConstructNegativeId()
    ensures Construct([VStr("cuda:-1")], NoKwargs) == Success(DeviceState(Some(GPU), -1, -1, false))
  {
    LowerOfLowerCase("cuda");
    ConstructGpuSpec("cuda", -1, NoKwargs);
    assert "cuda" + ":" + IntToString(-1) == "cuda:-1";
  }

  /** A known kind without an id field is Python's IndexError. */
  lemma ConstructMissingId()
    ensures Construct([VStr("gpu")], NoKwargs) == Failure(IndexError)
  {
    LowerOfLowerCase("gpu");
    ParseDeviceStrWithoutColon("gpu");
  }

  // ---------------------------------------------------------------------
  // Device._to_internal and Device._from_torch_device

  /** The `_C.Device` record handed to the runtime. */
  datatype InternalDevice = InternalDevice(
    deviceType: DeviceType,
    gpuId: int,
    dlaCore: int,
    allowGpuFallback: bool)

  /** `_to_internal`: a field-by-field copy; ValueError when no device type
      is set. */
  function ToInternal(d: DeviceState): (r: Result<InternalDevice, PyException>)
    ensures r.Success? <==> d.deviceType.Some?
    ensures r.Failure? ==> r.error == ValueError
    ensures r.Success? ==>
              r.value == InternalDevice(d.deviceType.value, d.gpuId, d.dlaCore, d.allowGpuFallback)
  {
    match d.deviceType
    case Some(GPU) => Success(InternalDevice(GPU, d.gpuId, d.dlaCore, d.allowGpuFallback))
    case Some(DLA) => Success(InternalDevice(DLA, d.gpuId, d.dlaCore, d.allowGpuFallback))
    case None => Failure(ValueError)
  }

  /** Every constructed Device has a device type, so `_to_internal` never
      raises on one and copies its ids and fallback flag verbatim. */
  lemma ConstructedConvertsToInternal(args: seq<Value>, kw: DeviceKwargs)
    requires Construct(args, kw).Success?
    ensures var d := Construct(args, kw).value;
            ToInternal(d) == Success(InternalDevice(d.deviceType.value, d.gpuId, d.dlaCore,
                                                    d.allowGpuFallback))
  {
  }

  /** A `torch.device`: its type name and optional index. */
  datatype TorchDevice = TorchDevice(kind: string, index: Option<int>)

  /** `Device._from_torch_device`: only "cuda" devices convert, to a GPU
      Device with `gpu_id` the torch index. */
  function FromTorchDevice(t: TorchDevice): (r: Result<DeviceState, PyException>)
    requires t.kind == "cuda" ==> t.index.Some?
    ensures r.Success? <==> t.kind == "cuda"
    ensures r.Failure? ==> r.error == ValueError
    ensures r.Success? ==> r.value == DeviceState(Some(GPU), t.index.value, -1, false)
  {
    if t.kind != "cuda" then Failure(ValueError)
    else Construct([], DeviceKwargs(t.index, None, None))
  }

  // ---------------------------------------------------------------------
  // Device.__str__

  /** `str(b)` for a bool. */
  function BoolToString(b: bool): string {
    if b then "True" else "False"
  }

  /** `Device.__str__` as written. The conditional expression binds looser
      than `+`, so a non-GPU device renders only its DLA tail. The device
      type's own rendering is passed in as `typeName`. */
  function DeviceStrAsWritten(d: DeviceState, typeName: string): string {
    if d.deviceType == Some(GPU) then
      "Device(type=" + typeName + ", gpu_id=" + IntToString(d.gpuId) + ")"
    else
      ", dla_core=" + IntToString(d.dlaCore) + ", allow_gpu_fallback=" + BoolToString(d.allowGpuFallback)
  }

  /** A DLA device's string as written does not even name the class. */
  lemma DeviceStrAsWrittenDropsPrefix(typeName: string)
    ensures DeviceStrAsWritten(DeviceState(Some(DLA), 0, 0, false), typeName) ==
            ", dla_core=0, allow_gpu_fallback=False"
    ensures !("Device(" <= DeviceStrAsWritten(DeviceState(Some(DLA), 0, 0, false), typeName))
  {
    assert IntToString(0) == "0" by { assert DigitChar(0) == '0'; }
    var s := DeviceStrAsWritten(DeviceState(Some(DLA), 0, 0, false), typeName);
    assert s[0] == ',';
  }

  /** `Device.__str__` as evidently intended: the common prefix, then either
      the closing parenthesis or the DLA fields the as-written string keeps
      and the closing parenthesis. */
  function DeviceStr(d: DeviceState, typeName: string): (r: string)
    ensures "Device(type=" + typeName + ", gpu_id=" + IntToString(d.gpuId) <= r
    ensures |r| > 0 && r[|r| - 1] == ')'
    ensures d.deviceType == Some(GPU) ==> r == DeviceStrAsWritten(d, typeName)
    ensures d.deviceType != Some(GPU) ==>
              r == "Device(type=" + typeName + ", gpu_id=" + IntToString(d.gpuId)
                   + DeviceStrAsWritten(d, typeName) + ")"
  {
    var head := "Device(type=" + typeName + ", gpu_id=" + IntToString(d.gpuId);
    if d.deviceType == Some(GPU) then head + ")"
    else
      var tail := DeviceStrAsWritten(d, typeName);
      assert (head + tail + ")")[..|head|] == head;
      head + tail + ")"
  }
}
