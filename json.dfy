/** The dynamically typed values that the Python handlers receive as `Dict[str, Any]`, that the
    store returns as rows, and that the TypeScript client parses from response bodies.
    Numbers are integers only. */
module JsonValue {

  import opened Outcome
  import opened Text

  datatype Json =
    | Null
    | Bool(b: bool)
    | Num(n: int)
    | Str(s: string)
    | Arr(items: seq<Json>)
    | Obj(fields: map<string, Json>)

  /** Python's `bool(v)`: None, False, 0, "", [] and {} are falsy. */
  predicate PyTruthy(v: Json) {
    match v
    case Null => false
    case Bool(b) => b
    case Num(n) => n != 0
    case Str(s) => s != ""
    case Arr(items) => items != []
    case Obj(fields) => fields != map[]
  }

  /** JavaScript's `Boolean(v)`: null (and undefined), false, 0 and "" are falsy; every object
      and array, even an empty one, is truthy. */
  predicate JsTruthy(v: Json) {
    match v
    case Null => false
    case Bool(b) => b
    case Num(n) => n != 0
    case Str(s) => s != ""
    case Arr(_) => true
    case Obj(_) => true
  }

  /** Python's `a or b`. */
  function PyOr(a: Json, b: Json): (r: Json)
    ensures r == a || r == b
    ensures PyTruthy(a) ==> r == a
  {
    if PyTruthy(a) then a else b
  }

  /** `d.get(key, default)` on a dict; on anything else Python raises, so callers check `Obj?`. */
  function FieldOr(d: Json, key: string, default: Json): Json {
    if d.Obj? && key in d.fields then d.fields[key] else default
  }

  /** `d.get(key)` on a dict, which is None when the key is absent; in JavaScript, `d.key`,
      which is undefined (modelled as Null) when absent. */
  function Field(d: Json, key: string): Json {
    FieldOr(d, key, Null)
  }

  /** Python's `d[key]`: a KeyError when the key is absent, a TypeError when `d` is no dict. */
  function Subscript(d: Json, key: string): (r: Result<Json, Fault>)
    ensures r.Ok? <==> d.Obj? && key in d.fields
    ensures r.Ok? ==> r.value == d.fields[key]
  {
    if d.Obj? && key in d.fields then Ok(d.fields[key])
    else if d.Obj? then Err(TypeFault("KeyError: " + key))
    else Err(TypeFault("object is not subscriptable"))
  }

  /** Python's `d.get(key)`: None when the key is absent, an AttributeError when `d` is no dict. */
  function DictGet(d: Json, key: string): (r: Result<Json, Fault>)
    ensures r.Ok? <==> d.Obj?
    ensures r.Ok? ==> r.value == Field(d, key)
  {
    if d.Obj? then Ok(Field(d, key)) else Err(TypeFault("object has no attribute 'get'"))
  }

  /** Python's `d.get(key, default)`, an AttributeError when `d` is no dict. */
  function DictGetOr(d: Json, key: string, default: Json): (r: Result<Json, Fault>)
    ensures r.Ok? <==> d.Obj?
    ensures r.Ok? ==> r.value == FieldOr(d, key, default)
  {
    if d.Obj? then Ok(FieldOr(d, key, default)) else Err(TypeFault("object has no attribute 'get'"))
  }

  /** Python's `v[0]` on a value known to be truthy: a list's first item, a string's first
      character; a dict has no key 0 and other values are not subscriptable. */
  function FirstItem(v: Json): (r: Result<Json, Fault>)
    requires PyTruthy(v)
    ensures v.Arr? ==> r == Ok(v.items[0])
    ensures r.Ok? <==> v.Arr? || v.Str?
  {
    match v
    case Arr(items) => Ok(items[0])
    case Str(s) => Ok(Str([s[0]]))
    case Obj(_) => Err(TypeFault("KeyError: 0"))
    case _ => Err(TypeFault("object is not subscriptable"))
  }

  /** The integer a Python `+` sees in `v`: an int, or a bool as 0 or 1; anything else makes
      `v + i` raise a TypeError. */
  function IntOperand(v: Json): (r: Result<int, Fault>)
    ensures r.Ok? <==> v.Num? || v.Bool?
    ensures v.Num? ==> r == Ok(v.n)
  {
    match v
    case Num(n) => Ok(n)
    case Bool(b) => Ok(if b then 1 else 0)
    case _ => Err(TypeFault("unsupported operand type(s) for +"))
  }

  /** Python's `str(v)`. Lists and dicts are rendered by a placeholder that, like Python's repr,
      starts with a bracket and is never blank. */
  function PyStr(v: Json): (r: string)
    ensures v.Str? ==> r == v.s
    ensures (v.Arr? || v.Obj?) ==> r != [] && (r[0] == '[' || r[0] == '{')
  {
    match v
    case Null => "None"
    case Bool(b) => if b then "True" else "False"
    case Num(n) => IntToString(n)
    case Str(s) => s
    case Arr(items) => if items == [] then "[]" else "[...]"
    case Obj(fields) => if fields == map[] then "{}" else "{...}"
  }

  /** Python's `int(v)`. */
  function PyInt(v: Json): (r: Result<int, Fault>)
    ensures v.Num? ==> r == Ok(v.n)
    ensures (v.Null? || v.Arr? || v.Obj?) ==> r.Err?
  {
    match v
    case Num(n) => Ok(n)
    case Bool(b) => Ok(if b then 1 else 0)
    case Str(s) =>
      (match ParseInt(s)
       case Some(n) => Ok(n)
       case None => Err(ValueError("invalid literal for int() with base 10")))
    case _ => Err(TypeFault("int() argument must be a string or a number"))
  }

  /** An optional string as the JSON value a Python dict would hold (`None` or a str). */
  function OptStr(o: Option<string>): Json {
    match o
    case None => Null
    case Some(s) => Str(s)
  }

  /** The elements a Python `for` loop visits in a value: a list's items, a string's characters,
      a dict's keys (here placeholders: every key is a string, which is all the loop body
      inspects); numbers and booleans are not iterable. */
  function PyIter(v: Json): (r: Result<seq<Json>, Fault>)
    ensures v.Arr? ==> r == Ok(v.items)
    ensures r.Ok? ==> forall k :: 0 <= k < |r.value| ==> v.Arr? || r.value[k].Str?
  {
    match v
    case Arr(items) => Ok(items)
    case Str(s) => Ok(seq(|s|, k requires 0 <= k < |s| => Str([s[k]])))
    case Obj(fields) => Ok(seq(|fields|, k => Str("")))
    case _ => Err(TypeFault("object is not iterable"))
  }

  /** `str(m.get(key, "")).strip()` on a message dict. */
  function StripStr(m: Json, key: string): string {
    Strip(PyStr(FieldOr(m, key, Str(""))))
  }

  function Indexed(i: nat, what: string): string {
    "messages[" + IntToString(i) + "]" + what
  }
}
