/** Python values as the handlers see them, the `serialize` fallback that
    `json.dumps` is given as its `default` hook, and `simple_json`
    (restapi_logging_handler/restapi_logging_handler.py). */
module Serialization {
  import opened Wrappers
  import opened Strings

  /** A Python value found in a log record's attribute dictionary. */
  datatype Value =
    | Null                               // None
    | Bool(b: bool)
    | Int(i: int)
    | Float(x: real)
    | Str(s: string)
    | List(items: seq<Value>)            // a list
    | Dict(entries: map<string, Value>)  // a dict with string keys
    | Other(obj: Foreign)                // anything json cannot encode natively

  /** The objects `json.dumps` hands to its `default` hook. */
  datatype Foreign =
    | DateTime(date: string, time: string)
      // a datetime.datetime; `isoformat(sep)` is its date part, sep, its time part
    | Uuid(canonical: string)
      // a uuid.UUID; `canonical` is `str(uuid)`
    | Obj(attrs: AttrAccess, text: Option<string>, typeName: string)
      // any other object: what reading `__dict__` does, what `str(obj)`
      // returns (None when it raises) and the qualified name of its class

  /** What reading `obj.__dict__` does. */
  datatype AttrAccess =
    | HasDict(dict: map<string, Value>)
    | NoDict                             // raises AttributeError
    | DictRaises(errRepr: Option<string>)
      // raises another exception; `repr(e)`, or None when that raises too

  /** A JSON document, the structure of the text `json.dumps` renders. */
  datatype Json =
    | JNull
    | JBool(b: bool)
    | JInt(i: int)
    | JFloat(x: real)
    | JStr(s: string)
    | JArray(items: seq<Json>)
    | JObject(members: map<string, Json>)

  /** The parts of the Python runtime this model does not describe: the text
      `json.dumps` renders for a document, and `str()` of floats, containers
      and arbitrary objects. */
  datatype Runtime = Runtime(render: Json -> string, strOf: Value -> string)

  /** `datetime.isoformat(sep)`: the ISO-8601 date, the separator, the time. */
  function IsoFormat(date: string, time: string, sep: char): string
  {
    date + [sep] + time
  }

  /** `serialize(obj)`: the fallback `json.dumps` calls for an object it cannot
      encode. None when it raises (a `str(obj)` that raises after `__dict__`
      raised AttributeError is not caught). */
  function Serialize(f: Foreign): (r: Option<Value>)
    ensures r.Some? ==> r.value.Str? || r.value.Dict?
    ensures r.None? <==> f.Obj? && f.attrs.NoDict? && f.text.None?
    ensures f.Obj? && f.attrs.HasDict? ==> r == Some(Dict(f.attrs.dict))
    ensures f.Uuid? ==> r == Some(Str(f.canonical))
    ensures f.Obj? && f.attrs.NoDict? && f.text.Some? ==> r == Some(Str(f.text.value))
    ensures f.Obj? && f.attrs.DictRaises? ==>
      r == Some(Str(JsonFail + (if f.text.Some? && f.attrs.errRepr.Some? then f.attrs.errRepr.value else UnknownErr)
                    + " " + (if f.text.Some? then f.text.value else UnknownObj)))
  {
    match f
    case DateTime(date, time) => Some(Str(IsoFormat(date, time, 'T')))
    case Uuid(canonical) => Some(Str(canonical))
    case Obj(HasDict(d), _, _) => Some(Dict(d))
    case Obj(NoDict, text, _) =>
      if text.Some? then Some(Str(text.value)) else None
    case Obj(DictRaises(errRepr), text, _) =>
      // str(obj) runs first; repr(e) only once it has succeeded
      var strval := if text.Some? then text.value else UnknownObj;
      var exceptval := if text.Some? && errRepr.Some? then errRepr.value else UnknownErr;
      Some(Str(JsonFail + exceptval + " " + strval))
  }

  /** The pieces of the text `serialize` returns when reading `__dict__`
      raised something other than AttributeError. */
  const JsonFail: string := "json fail "
  const UnknownObj: string := "unknown obj"
  const UnknownErr: string := "unknown err"

  /** `json.dumps(v, default=serialize)` as the document it renders, or None
      when it raises. A `__dict__` returned by `serialize` is encoded in turn. */
  function Encode(v: Value): Option<Json>
  {
    match v
    case Null => Some(JNull)
    case Bool(b) => Some(JBool(b))
    case Int(i) => Some(JInt(i))
    case Float(x) => Some(JFloat(x))
    case Str(s) => Some(JStr(s))
    case List(xs) =>
      if forall i | 0 <= i < |xs| :: Encode(xs[i]).Some?
      then Some(JArray(seq(|xs|, i requires 0 <= i < |xs| => Encode(xs[i]).value)))
      else None
    case Dict(m) =>
      if forall k | k in m :: Encode(m[k]).Some?
      then Some(JObject(map k | k in m :: Encode(m[k]).value))
      else None
    case Other(Obj(HasDict(m), _, _)) =>
      if forall k | k in m :: Encode(m[k]).Some?
      then Some(JObject(map k | k in m :: Encode(m[k]).value))
      else None
    case Other(f) =>
      match Serialize(f)
      case Some(Str(s)) => Some(JStr(s))
      case _ => None
  }

  /** Whether some object nested in `v` has no `__dict__` and a `str()` that raises. */
  predicate Unencodable(v: Value)
  {
    match v
    case List(xs) => exists i | 0 <= i < |xs| :: Unencodable(xs[i])
    case Dict(m) => exists k | k in m :: Unencodable(m[k])
    case Other(Obj(HasDict(m), _, _)) => exists k | k in m :: Unencodable(m[k])
    case Other(Obj(NoDict, text, _)) => text.None?
    case _ => false
  }

  /** The `default` hook is consulted exactly for foreign objects: encoding one
      is encoding what `serialize` returns for it. */
  lemma SerializeIsDefaultHook(f: Foreign)
    ensures Encode(Other(f)) == if Serialize(f).None? then None else Encode(Serialize(f).value)
  {
  }

  /** `json.dumps(v, default=serialize)` raises exactly when some nested
      object has no `__dict__` and cannot be converted with `str()`. */
  lemma {:induction false} EncodeFailsIff(v: Value)
    ensures Encode(v).None? <==> Unencodable(v)
  {
    match v
    case List(xs) =>
      forall i | 0 <= i < |xs| ensures Encode(xs[i]).None? <==> Unencodable(xs[i]) {
        EncodeFailsIff(xs[i]);
      }
    case Dict(m) =>
      forall k | k in m ensures Encode(m[k]).None? <==> Unencodable(m[k]) {
        EncodeFailsIff(m[k]);
      }
    case Other(Obj(HasDict(m), _, _)) =>
      forall k | k in m ensures Encode(m[k]).None? <==> Unencodable(m[k]) {
        EncodeFailsIff(m[k]);
      }
    case _ =>
  }

  /** `serialize` writes a datetime in ISO-8601 form with a `T` between date and
      time, and the date and time can be read back by splitting at the `T`. */
  lemma SerializeDateTime(date: string, time: string)
    requires 'T' !in date && 'T' !in time
    ensures Serialize(DateTime(date, time)) == Some(Str(date + "T" + time))
    ensures Split(Serialize(DateTime(date, time)).value.s, 'T') == [date, time]
  {
    assert Join([date, time], 'T') == date + "T" + time;
    SplitJoin([date, time], 'T');
  }

  /** The name of a value's class, as `type(v)` prints it inside `<class '...'>`. */
  function TypeName(v: Value): string
  {
    match v
    case Null => "NoneType"
    case Bool(_) => "bool"
    case Int(_) => "int"
    case Float(_) => "float"
    case Str(_) => "str"
    case List(_) => "list"
    case Dict(_) => "dict"
    case Other(DateTime(_, _)) => "datetime.datetime"
    case Other(Uuid(_)) => "uuid.UUID"
    case Other(Obj(_, _, name)) => name
  }

  /** The text `simple_json` returns for a value it cannot dump is this,
      the value's class name, then `ClassClose`. */
  const CannotSerialize: string := "cannot serialize <class '"
  const ClassClose: string := "'>"

  /** `simple_json(v)`: the JSON text of `v`, or a description of its type when
      `json.dumps` raises. It never raises itself. */
  function SimpleJson(v: Value, rt: Runtime): (r: string)
    ensures Unencodable(v) ==> r == CannotSerialize + TypeName(v) + ClassClose
    ensures !Unencodable(v) ==> Encode(v).Some? && r == rt.render(Encode(v).value)
  {
    EncodeFailsIff(v);
    match Encode(v)
    case Some(j) => rt.render(j)
    case None => CannotSerialize + TypeName(v) + ClassClose
  }

  /** Python truthiness (`if v:`) for the values the handlers test. */
  predicate Truthy(v: Value)
  {
    match v
    case Null => false
    case Bool(b) => b
    case Int(i) => i != 0
    case Float(x) => x != 0.0
    case Str(s) => s != ""
    case List(xs) => |xs| > 0
    case Dict(m) => |m| > 0
    case Other(_) => true
  }

  /** `'{}'.format(v)`, that is `str(v)`. */
  function FormatValue(v: Value, rt: Runtime): string
  {
    match v
    case Null => "None"
    case Bool(b) => if b then "True" else "False"
    case Int(i) => Decimal(i)
    case Str(s) => s
    case Other(DateTime(date, time)) => IsoFormat(date, time, ' ')
    case Other(Uuid(canonical)) => canonical
    case _ => rt.strOf(v)
  }
}
