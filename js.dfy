/** JavaScript values as this library sees them, the failures it throws, and the
    external collaborators it consults: the type validators, the options validator and
    the registry that maps a dtype name to a typed-array constructor. */
module Js {

  datatype Option<T> = None | Some(value: T)

  /** A JavaScript number. Floating-point arithmetic is not modelled: the library only
      needs to tell NaN (the one value with `x !== x`) from the other numbers. */
  datatype Num = Finite(r: real) | Infinity(negative: bool) | NaN

  /** Element representations of the typed arrays the library can allocate. */
  datatype Dtype = Int8 | Uint8 | Uint8Clamped | Int16 | Uint16 | Int32 | Uint32 | Float32 | Float64

  /** The JavaScript values that reach the library's entry points. Arrays are heap
      objects: a typed array holds numbers, a generic array holds any values. A function
      is modelled by what it computes from the list of numbers it is called with. */
  datatype Value =
    | Number(n: Num)
    | Str(s: string)
    | Bool(b: bool)
    | Null
    | Undefined
    | Callable(fn: seq<Num> -> Num)
    | Object(props: map<string, Value>)
    | Array(items: array<Value>)
    | Typed(dtype: Dtype, data: array<Num>)

  /** `validate.io-function` */
  predicate IsFunction(v: Value) { v.Callable? }

  /** `validate.io-typed-array-like` */
  predicate IsTypedArrayLike(v: Value) { v.Typed? }

  /** `validate.io-array`: generic arrays only, typed arrays are not `Array.isArray`. */
  predicate IsArray(v: Value) { v.Array? }

  /** `validate.io-number-primitive`: a number primitive other than NaN. */
  predicate IsNumber(v: Value) { v.Number? && !v.n.NaN? }

  /** `x === x`, false for NaN alone. */
  predicate SelfEqual(v: Value) { !(v.Number? && v.n.NaN?) }

  /** The test both apply entry points use to recognise a trailing options argument:
      neither typed-array-like, nor a number primitive, nor NaN. */
  predicate IsOptionsCandidate(v: Value) {
    !IsTypedArrayLike(v) && SelfEqual(v) && !IsNumber(v)
  }

  /** `.length` of an array-like value. */
  function Length(v: Value): nat
    requires v.Typed? || v.Array?
  {
    if v.Typed? then v.data.Length else v.items.Length
  }

  /** The heap objects whose elements a write through `v[i] = ...` changes. */
  function Storage(v: Value): set<object> {
    if v.Typed? then {v.data} else if v.Array? then {v.items} else {}
  }

  /** Which check threw. Error message text is not modelled. */
  datatype Cause =
    | CallbackNotFunction
    | TypesNotArray
    | UnknownRole
    | NoArrayRole
    | BadOptions
    | UnknownDtype
    | ArityMismatch
    | NotTypedArray
    | NotNumber
    | LengthMismatch
    | BadOutput
    | NoInputs
    | NoTypedArray
    | BadInput

  /** The two JavaScript error classes the library throws. */
  datatype Thrown = TypeError(cause: Cause) | Error(cause: Cause)

  datatype Result<T> = Ok(value: T) | Throw(thrown: Thrown)

  /** Options after validation. `dtype` is absent when the caller gave none. */
  datatype Options = Options(dtype: Option<string>, out: bool)

  const Defaults := Options(None, false)

  /** Stand-in for the options validator `lib/validate.js`, which is not part of this
      model: the options must be a plain object, `dtype` a string and `out` a boolean. */
  function Validate(v: Value): Result<Options> {
    if !v.Object? then Throw(TypeError(BadOptions))
    else if "dtype" in v.props && !v.props["dtype"].Str? then Throw(TypeError(BadOptions))
    else if "out" in v.props && !v.props["out"].Bool? then Throw(TypeError(BadOptions))
    else Ok(Options(
      if "dtype" in v.props then Some(v.props["dtype"].s) else None,
      "out" in v.props && v.props["out"].b))
  }

  /** `opts.dtype || 'float64'`: an absent or empty name selects the default. */
  function DtypeName(opts: Options): string {
    if opts.dtype.Some? && opts.dtype.value != "" then opts.dtype.value else "float64"
  }

  /** The constructor registry: a dtype name to its typed-array constructor, or null. */
  function Resolve(name: string): Option<Dtype> {
    match name
    case "int8" => Some(Int8)
    case "uint8" => Some(Uint8)
    case "uint8_clamped" => Some(Uint8Clamped)
    case "int16" => Some(Int16)
    case "uint16" => Some(Uint16)
    case "int32" => Some(Int32)
    case "uint32" => Some(Uint32)
    case "float32" => Some(Float32)
    case "float64" => Some(Float64)
    case _ => None
  }

  /** JavaScript truthiness. */
  predicate Truthy(v: Value) {
    match v
    case Number(n) => !n.NaN? && n != Finite(0.0)
    case Str(s) => |s| > 0
    case Bool(b) => b
    case Null => false
    case Undefined => false
    case _ => true
  }

  /** Property read `v[key]` on a value that is neither null nor undefined. */
  function Get(v: Value, key: string): Value
    requires !v.Null? && !v.Undefined?
  {
    if v.Object? && key in v.props then v.props[key] else Undefined
  }

  /** Registry lookup with an unvalidated dtype value: only a string can name a constructor. */
  function Ctor(v: Value): Option<Dtype> {
    if v.Str? then Resolve(v.s) else None
  }
}
