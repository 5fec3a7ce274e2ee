/** Dynamically typed Python values as they travel through keyword
    arguments, and the exception classes the front end raises. */
module PyValues {

  /** The exception classes raised by the modelled code. */
  datatype PyException = TypeError | ValueError | IndexError | AttributeError

  /** Element types named by `enabled_precisions` and stored as
      `CompilationSettings.precision`: the two torch floating-point dtypes,
      their `torch_tensorrt.dtype` counterparts (distinct objects, so never
      equal to the torch ones), and any other dtype. */
  datatype Dtype =
    | TorchFloat16
    | TorchFloat32
    | TrtHalf
    | TrtFloat
    | OtherDtype(name: string)

  /** A Python value as far as the modelled code inspects it. A `dict` is
      modelled with string keys only. */
  datatype Value =
    | VNone
    | VBool(b: bool)
    | VInt(i: int)
    | VStr(s: string)
    | VDtype(d: Dtype)
    | VList(elems: seq<Value>)
    | VDict(entries: map<string, Value>)
    | VObject(id: nat)

  /** Python truthiness (`bool(v)`); objects without `__bool__`/`__len__`
      are truthy and a dtype object is truthy. */
  predicate Truthy(v: Value) {
    match v
    case VNone => false
    case VBool(b) => b
    case VInt(i) => i != 0
    case VStr(s) => s != ""
    case VDtype(_) => true
    case VList(es) => es != []
    case VDict(m) => m != map[]
    case VObject(_) => true
  }
}
