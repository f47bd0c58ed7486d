/** JSON values as the Flask handlers see them after `request.get_json()`,
    and the few Python operations the handlers apply to them: subscripting,
    `dict.get`, truthiness, `dict.update`, `float()`. Each operation that can
    raise returns the exception it raises, with the text `str(e)` gives. */
module PyJson {
  import opened Results
  import opened Text

  datatype Json =
    | JNull
    | JBool(b: bool)
    | JInt(i: int)
    | JNum(x: real)
    | JStr(s: string)
    | JArr(items: seq<Json>)
    | JObj(fields: map<string, Json>)

  /** A Python dict decoded from a JSON object. */
  type Record = map<string, Json>

  /** The exceptions the modelled code can raise; the carried text is what
      `str(e)` prints. `Raised` stands for an exception raised by code that is
      not part of this model. */
  datatype PyError =
    | KeyError(key: Key)
    | IndexError(msg: string)
    | TypeError(msg: string)
    | AttributeError(msg: string)
    | ValueError(msg: string)
    | Raised(msg: string)

  /** The key a `KeyError` carries: a dict key or a list index. */
  datatype Key = StrKey(s: string) | IntKey(n: nat)

  function Message(e: PyError): string {
    match e
    case KeyError(StrKey(k)) => Repr(k)
    case KeyError(IntKey(n)) => NatToString(n)
    case IndexError(m) => m
    case TypeError(m) => m
    case AttributeError(m) => m
    case ValueError(m) => m
    case Raised(m) => m
  }

  /** `str` of a `KeyError` for a key of plain characters is the key
      between single quotes. */
  lemma KeyErrorQuotesKey(key: string)
    requires forall i | 0 <= i < |key| :: !(key[i] == '\\' || key[i] == '\'' || HexEscaped(key[i]))
    ensures Message(KeyError(StrKey(key))) == "'" + key + "'"
  {
    ReprPlain(key);
  }

  /** The Python type name of a decoded JSON value: `json` decodes a number
      written without fraction or exponent to an `int`, any other to a
      `float`. */
  function TypeName(j: Json): string {
    match j
    case JNull => "NoneType"
    case JBool(_) => "bool"
    case JInt(_) => "int"
    case JNum(_) => "float"
    case JStr(_) => "str"
    case JArr(_) => "list"
    case JObj(_) => "dict"
  }

  /** Python truthiness: `None`, `False`, zero and empty containers are
      false. */
  predicate Truthy(j: Json) {
    match j
    case JNull => false
    case JBool(b) => b
    case JInt(i) => i != 0
    case JNum(x) => x != 0.0
    case JStr(s) => s != []
    case JArr(items) => items != []
    case JObj(fields) => fields != map[]
  }

  /** `j[key]` with a string key. */
  function Subscript(j: Json, key: string): (r: Result<Json, PyError>)
    ensures r.Ok? <==> j.JObj? && key in j.fields
    ensures r.Ok? ==> r.value == j.fields[key]
    ensures j.JObj? && key !in j.fields ==> r == Err(KeyError(StrKey(key)))
    ensures !j.JObj? ==> r.Err? && r.error.TypeError?
    ensures j.JArr? ==> r == Err(TypeError("list indices must be integers or slices, not str"))
    ensures j.JStr? ==> r == Err(TypeError("string indices must be integers, not 'str'"))
    ensures !(j.JObj? || j.JArr? || j.JStr?) ==>
              r == Err(TypeError("'" + TypeName(j) + "' object is not subscriptable"))
  {
    match j
    case JObj(m) => if key in m then Ok(m[key]) else Err(KeyError(StrKey(key)))
    case JArr(_) => Err(TypeError("list indices must be integers or slices, not str"))
    case JStr(_) => Err(TypeError("string indices must be integers, not 'str'"))
    case _ => Err(TypeError("'" + TypeName(j) + "' object is not subscriptable"))
  }

  /** `j[k0][k1]...[kn]`, failing at the first subscript that raises. */
  function LookupPath(j: Json, path: seq<string>): (r: Result<Json, PyError>)
    ensures path != [] && r.Ok? ==> j.JObj? && path[0] in j.fields
    ensures path == [] ==> r == Ok(j)
    decreases |path|
  {
    if path == [] then Ok(j)
    else
      match Subscript(j, path[0])
      case Err(e) => Err(e)
      case Ok(child) => LookupPath(child, path[1..])
  }

  /** Subscripting along `p + q` is subscripting along `p`, then along `q`. */
  lemma {:induction false} LookupPathAppend(j: Json, p: seq<string>, q: seq<string>)
    ensures LookupPath(j, p + q) ==
            match LookupPath(j, p)
            case Err(e) => Err(e)
            case Ok(child) => LookupPath(child, q)
    decreases |p|
  {
    if p == [] {
      assert p + q == q;
    } else {
      assert (p + q)[0] == p[0] && (p + q)[1..] == p[1..] + q;
      match Subscript(j, p[0])
      case Err(_) =>
      case Ok(child) => LookupPathAppend(child, p[1..], q);
    }
  }

  /** `j[i]` with an integer index. */
  function IndexAt(j: Json, i: nat): (r: Result<Json, PyError>)
    ensures j.JArr? && i < |j.items| ==> r == Ok(j.items[i])
    ensures j.JStr? && i < |j.s| ==> r == Ok(JStr([j.s[i]]))
    ensures r.Ok? ==> (j.JArr? && i < |j.items|) || (j.JStr? && i < |j.s|)
  {
    match j
    case JArr(items) => if i < |items| then Ok(items[i]) else Err(IndexError("list index out of range"))
    case JStr(s) => if i < |s| then Ok(JStr([s[i]])) else Err(IndexError("string index out of range"))
    case JObj(_) => Err(KeyError(IntKey(i)))
    case _ => Err(TypeError("'" + TypeName(j) + "' object is not subscriptable"))
  }

  /** `record.get(key, default)` on a dict. */
  function RecordGet(r: Record, key: string, default: Json): Json {
    if key in r then r[key] else default
  }

  /** `j.get(key, default)` on a value that may not be a dict. */
  function Get(j: Json, key: string, default: Json): (r: Result<Json, PyError>)
    ensures r.Ok? <==> j.JObj?
    ensures j.JObj? ==> r.value == RecordGet(j.fields, key, default)
  {
    match j
    case JObj(m) => Ok(RecordGet(m, key, default))
    case _ => Err(AttributeError("'" + TypeName(j) + "' object has no attribute 'get'"))
  }

  /** `base.update(updates)`: keys of `updates` win, every other key of
      `base` is kept. */
  function Merge(base: Record, updates: Record): (r: Record)
    ensures r.Keys == base.Keys + updates.Keys
    ensures forall k | k in updates :: r[k] == updates[k]
    ensures forall k | k in base && k !in updates :: r[k] == base[k]
  {
    base + updates
  }

  /** `float(j)`. Turning text into a number is Python's own parser, given
      here as `parseFloat` (`None` when the text is not a number). */
  function ToFloat(j: Json, parseFloat: string -> Option<real>): (r: Result<real, PyError>)
    ensures j.JNum? ==> r == Ok(j.x)
    ensures j.JInt? ==> r == Ok(j.i as real)
    ensures r.Ok? <==> j.JInt? || j.JNum? || j.JBool? || (j.JStr? && parseFloat(j.s).Some?)
    ensures j.JStr? && parseFloat(j.s).Some? ==> r == Ok(parseFloat(j.s).value)
  {
    match j
    case JInt(i) => Ok(i as real)
    case JNum(x) => Ok(x)
    case JBool(b) => Ok(if b then 1.0 else 0.0)
    case JStr(s) =>
      (match parseFloat(s)
       case Some(x) => Ok(x)
       case None => Err(ValueError("could not convert string to float: " + Repr(s))))
    case _ => Err(TypeError("float() argument must be a string or a real number, not '" + TypeName(j) + "'"))
  }
}
