/**
  What the gateway takes from the Python runtime without the model looking
  inside: `json.dumps`, `json.loads`, `hash()` and `str()` of a non-string are
  fields of a `Runtime` value that every caller passes in, so each property is
  proved for every possible implementation of them. The exceptions the core
  raises are the kinds of `Error`, each with the message `str(e)` gives.
*/
module Host {
  import opened Wrappers
  import opened JsonModel
  import opened Text

  datatype Runtime = Runtime(
    dumps: Json -> string,            // json.dumps
    loads: string -> Option<Json>,    // json.loads; None when it raises
    hashText: string -> string,       // str(hash(text))
    display: Json -> string)          // str(value) for a value that is not a str

  /** The text an f-string inserts for `j`: a str verbatim, anything else through `str()`. */
  function Render(j: Json, rt: Runtime): string {
    if j.Str? then j.s else rt.display(j)
  }

  datatype Error =
    | UnsupportedBackend(backend: string)   // ValueError from call_model
    | FunctionNotFound(name: string)        // ValueError from execute_function
    | NoAttributeGet(typeName: string)      // AttributeError: `.get` on a non-dict
    | Unhashable(typeName: string)          // TypeError from hash() of a list or dict
    | NotAString(typeName: string)          // TypeError from re.search on a non-str
    | NotIterable(typeName: string)         // TypeError from `in` on a scalar
    | Raised(message: string)               // transport failure, HTTP status, a handler's exception

  /** `str(e)`: the text the HTTP front door puts in its error detail. */
  function Message(e: Error): string {
    match e
    case UnsupportedBackend(b) => "Unsupported backend: " + b
    case FunctionNotFound(n) => "Function not found: " + n
    case NoAttributeGet(t) => "'" + t + "' object has no attribute 'get'"
    case Unhashable(t) => "unhashable type: '" + t + "'"
    case NotAString(t) => "expected string or bytes-like object, got '" + t + "'"
    case NotIterable(t) => "argument of type '" + t + "' is not iterable"
    case Raised(m) => m
  }

  /**
    Python's `key in container` for a str key: dict membership, list
    element, substring, or a TypeError for anything else.
  */
  function In(key: string, container: Json): (r: Result<bool, Error>)
    ensures container.Obj? ==> r == Ok(key in Keys(container.fields))
    ensures r.Err? <==> !(container.Obj? || container.Arr? || container.Str?)
  {
    match container
    case Obj(fields) => Ok(Get(fields, key).Some?)
    case Arr(items) => Ok(Str(key) in items)
    case Str(s) => Ok(Contains(s, key))
    case _ => Err(NotIterable(TypeName(container)))
  }
}
