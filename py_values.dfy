/**
 * The values of a parsed configuration document and the few Python 2
 * operations the readers apply to them: `len`, indexing, slicing,
 * iteration, `float()`, mixed-type comparison and dictionary lookup.
 * Every Python exception the readers can raise is a value of `Error`.
 */
module PyValues {

  /** A value of a document as YAML loading produces it. */
  datatype Value =
    | Null
    | Bool(b: bool)
    | Int(i: int)
    | Float(f: real)
    | Str(s: string)
    | List(items: seq<Value>)
    | Dict(entries: map<string, Value>)

  /** A parameter document: the mapping held in a reader's `data` field. */
  type Doc = map<string, Value>

  /** What a reader complains about (the message text is not modelled). */
  datatype Fault =
    | MissingField(key: Value)
    | InvalidField(field: string)
    | UnknownCameraModel(model: Value)
    | UnknownDistortionModel(model: Value)
    | UnknownTargetType(targetType: Value)
    | OutOfRange(index: Value)
    | UnsupportedDistortion(cameraModel: string, distortionModel: Value)
    | NoPredecessor

  /** An exception escaping a reader operation. */
  datatype Error =
      /** `raiseError`: a RuntimeError whose message starts "[<reader> Reader]: " */
    | ReaderError(reader: string, fault: Fault)
      /** a RuntimeError raised directly, without the reader prefix */
    | RuntimeError(fault: Fault)
    | KeyError(key: Value)
    | IndexError
    | TypeError
    | ValueError
    | ZeroDivisionError
    | NameError(name: string)
    | AttributeError(name: string)

  datatype Option<T> = None | Some(value: T)

  datatype Result<T> = Success(value: T) | Failure(error: Error) {
    predicate IsFailure() { Failure? }
    function PropagateFailure<U>(): Result<U> requires Failure? { Failure(error) }
    function Extract(): T requires Success? { value }
  }

  /** The outcome of an operation that returns nothing. */
  datatype Outcome = Pass | Fail(error: Error) {
    predicate IsFailure() { Fail? }
    function PropagateFailure<U>(): Result<U> requires Fail? { Failure(error) }
  }

  // ---------------------------------------------------------------------
  // Types and numbers

  /** `isinstance(v, int)`: under Python 2 a bool is an int too. */
  predicate IsInt(v: Value) { v.Int? || v.Bool? }

  /** The numeric value of a bool, int or float. */
  function Number(v: Value): (r: Option<real>)
    ensures r.Some? <==> v.Bool? || v.Int? || v.Float?
  {
    match v
    case Bool(b) => Some(if b then 1.0 else 0.0)
    case Int(i) => Some(i as real)
    case Float(f) => Some(f)
    case _ => None
  }

  /**
   * Python 2's `v < c` against a number `c`. Comparisons never raise:
   * None sorts below every number and every other non-numeric value
   * (string, list, dict) sorts above. `v >= c` is `!Lt(v, c)`.
   */
  predicate Lt(v: Value, c: real) {
    match v
    case Null => true
    case Bool(_) | Int(_) | Float(_) => Number(v).value < c
    case _ => false
  }

  /** Python 2's `v <= c` against a number `c`; `v > c` is `!Le(v, c)`. */
  predicate Le(v: Value, c: real) {
    match v
    case Null => true
    case Bool(_) | Int(_) | Float(_) => Number(v).value <= c
    case _ => false
  }

  /** `float(v)`; a string is taken as unconvertible. */
  function PyFloat(v: Value): (r: Result<Value>)
    ensures r.Success? <==> Number(v).Some?
    ensures r.Success? ==> r.value == Float(Number(v).value)
  {
    match v
    case Bool(_) | Int(_) | Float(_) => Success(Float(Number(v).value))
    case Str(_) => Failure(ValueError)
    case _ => Failure(TypeError)
  }

  // ---------------------------------------------------------------------
  // Sequences

  /** `len(v)`: defined for strings, lists and dicts. */
  function PyLen(v: Value): (r: Result<nat>)
    ensures r.Success? <==> v.Str? || v.List? || v.Dict?
    ensures v.List? ==> r == Success(|v.items|)
  {
    match v
    case Str(s) => Success(|s|)
    case List(xs) => Success(|xs|)
    case Dict(m) => Success(|m|)
    case _ => Failure(TypeError)
  }

  /** `v[i]` for a non-negative integer `i`; a dict has only string keys. */
  function PyIndex(v: Value, i: nat): (r: Result<Value>)
    ensures v.List? && i < |v.items| ==> r == Success(v.items[i])
  {
    match v
    case List(xs) => if i < |xs| then Success(xs[i]) else Failure(IndexError)
    case Str(s) => if i < |s| then Success(Str([s[i]])) else Failure(IndexError)
    case Dict(_) => Failure(KeyError(Int(i)))
    case _ => Failure(TypeError)
  }

  function Clamp(i: nat, n: nat): (r: nat)
    ensures r <= n
  {
    if i < n then i else n
  }

  /** `v[i:j]`: Python clamps the bounds to the length. */
  function PySlice(v: Value, i: nat, j: nat): (r: Result<Value>)
    requires i <= j
    ensures v.List? && j <= |v.items| ==> r == Success(List(v.items[i..j]))
    ensures r.Success? ==> v.List? || v.Str?
  {
    match v
    case List(xs) => Success(List(xs[Clamp(i, |xs|)..Clamp(j, |xs|)]))
    case Str(s) => Success(Str(s[Clamp(i, |s|)..Clamp(j, |s|)]))
    case _ => Failure(TypeError)
  }

  /** The characters of a string, each as a one-character string. */
  function Chars(s: string): (r: seq<Value>)
    ensures |r| == |s|
    ensures forall k :: 0 <= k < |r| ==> r[k] == Str([s[k]])
  {
    if s == [] then [] else [Str([s[0]])] + Chars(s[1..])
  }

  /** `for x in v`: the elements of a list or the characters of a string. */
  function PyIter(v: Value): (r: Result<seq<Value>>)
    ensures v.List? ==> r == Success(v.items)
    ensures r.Success? ==> v.List? || v.Str? || v.Dict?
  {
    match v
    case List(xs) => Success(xs)
    case Str(s) => Success(Chars(s))
    case Dict(m) => if m == map[] then Success([]) else Failure(TypeError)
    case _ => Failure(TypeError)
  }

  /** `[float(x) for x in xs]`: converts every element or fails on the first that cannot be. */
  function FloatEach(xs: seq<Value>): (r: Result<seq<Value>>)
    ensures r.Success? <==> forall k :: 0 <= k < |xs| ==> Number(xs[k]).Some?
    ensures r.Success? ==> |r.value| == |xs|
    ensures r.Success? ==> forall k :: 0 <= k < |xs| ==> r.value[k] == Float(Number(xs[k]).value)
  {
    if xs == [] then Success([])
    else
      var x :- PyFloat(xs[0]);
      var rest :- FloatEach(xs[1..]);
      assert forall k :: 1 <= k < |xs| ==> xs[k] == xs[1..][k - 1];
      Success([x] + rest)
  }

  /** `[float(val) for val in v]`. */
  function FloatList(v: Value): (r: Result<seq<Value>>)
    ensures r.Success? ==> PyLen(v) == Success(|r.value|)
    ensures r.Success? ==> forall k :: 0 <= k < |r.value| ==> r.value[k].Float?
    ensures v.List? ==> r == FloatEach(v.items)
  {
    var xs :- PyIter(v);
    FloatEach(xs)
  }

  // ---------------------------------------------------------------------
  // Mappings

  /** `d[key]` on a document. */
  function Get(d: Doc, key: string): (r: Result<Value>)
    ensures r.Success? <==> key in d
    ensures r.Success? ==> r.value == d[key]
    ensures r.Failure? ==> r.error == KeyError(Str(key))
  {
    if key in d then Success(d[key]) else Failure(KeyError(Str(key)))
  }

  /** `v[key]` on a value that should be a dict. */
  function GetItem(v: Value, key: string): (r: Result<Value>)
    ensures r.Success? <==> v.Dict? && key in v.entries
    ensures r.Success? ==> r.value == v.entries[key]
  {
    match v
    case Dict(m) => Get(m, key)
    case _ => Failure(TypeError)
  }

  /**
   * The decorator `catch_keyerror`: a KeyError escaping the wrapped
   * accessor becomes the reader's "Field <key> missing" error; every
   * other outcome passes through.
   */
  function CatchKeyError<T>(reader: string, r: Result<T>): (c: Result<T>)
    ensures r.Success? ==> c == r
    ensures c.Failure? ==> !c.error.KeyError?
    ensures r.Failure? && r.error.KeyError? ==> c == Failure(ReaderError(reader, MissingField(r.error.key)))
    ensures r.Failure? && !r.error.KeyError? ==> c == r
  {
    match r
    case Failure(KeyError(k)) => Failure(ReaderError(reader, MissingField(k)))
    case _ => r
  }

  /** The same decorator around an accessor that returns nothing. */
  function CatchKeyErrorOutcome(reader: string, r: Outcome): (c: Outcome)
    ensures r.Pass? ==> c == r
    ensures r.Fail? && r.error.KeyError? ==> c == Fail(ReaderError(reader, MissingField(r.error.key)))
    ensures r.Fail? && !r.error.KeyError? ==> c == r
  {
    match r
    case Fail(KeyError(k)) => Fail(ReaderError(reader, MissingField(k)))
    case _ => r
  }
}
