/** The values that flow through the pipeline: the decoded JSON payload, the
    Python exceptions the core can raise, and the Option/Result wrappers that
    carry them. It also holds the few dictionary operations of the Python
    runtime that the House Canary adapter relies on, with their failure cases. */
module Payload {

  datatype Option<+T> = None | Some(value: T)

  /** A decoded JSON value, as `response.json()` hands it to the adapter.
      Objects become dictionaries keyed by strings. */
  datatype Json =
    | JNull
    | JBool(b: bool)
    | JNum(n: int)
    | JStr(s: string)
    | JObject(fields: map<string, Json>)

  /** The exceptions the core raises. Only an `AttributeError` from a
      derived-field constructor is caught, and none can occur there. */
  datatype Error =
    | KeyError(key: string)      // `d[key]` on a missing key, `SomeEnum[name]` on an unknown name
    | TypeError                  // subscripting or iterating a value that does not support it
    | AttributeError             // calling a dictionary method on something that is not a dictionary
    | ValueError(culprit: Json)  // `SomeEnum(value)` on a non-member; `dict.update` with a malformed sequence

  datatype Result<+T> = Ok(value: T) | Err(error: Error) {
    predicate IsFailure() { Err? }

    function PropagateFailure<U>(): Result<U>
      requires Err?
    {
      Err(error)
    }

    function Extract(): T
      requires Ok?
    {
      value
    }
  }

  /** `j[key]`: a dictionary lookup that raises on a missing key; any other JSON
      value is not subscriptable by a string. */
  function Index(j: Json, key: string): (r: Result<Json>)
    ensures r.Ok? <==> j.JObject? && key in j.fields
    ensures r.Ok? ==> r.value == j.fields[key]
    ensures r.Err? ==> r.error == if j.JObject? then KeyError(key) else TypeError
  {
    match j
    case JObject(fields) => if key in fields then Ok(fields[key]) else Err(KeyError(key))
    case _ => Err(TypeError)
  }

  /** `j.get(key, default)`: only dictionaries have a `get` method. */
  function Get(j: Json, key: string, default: Json): (r: Result<Json>)
    ensures r.Ok? <==> j.JObject?
    ensures r.Ok? ==> r.value == if key in j.fields then j.fields[key] else default
    ensures r.Err? ==> r.error == AttributeError
  {
    match j
    case JObject(fields) => if key in fields then Ok(fields[key]) else Ok(default)
    case _ => Err(AttributeError)
  }

  /** The dictionary that `target.update(source)` leaves in `target`. Only a
      dictionary has `update`. A mapping source overwrites shared keys; any other
      source is iterated as a sequence of key/value pairs, which an empty string
      satisfies vacuously, a non-empty string fails (its items are one character
      long) and null, booleans and numbers fail to iterate at all. */
  function Update(target: Json, source: Json): (r: Result<map<string, Json>>)
    ensures r.Ok? <==> target.JObject? && (source.JObject? || source == JStr(""))
    ensures r.Ok? ==> r.value.Keys == target.fields.Keys + (if source.JObject? then source.fields.Keys else {})
    ensures r.Ok? ==> forall k :: k in r.value ==>
                        r.value[k] == if source.JObject? && k in source.fields then source.fields[k] else target.fields[k]
    ensures !target.JObject? ==> r == Err(AttributeError)
    ensures target.JObject? && source.JStr? && source.s != "" ==> r == Err(ValueError(source))
    ensures target.JObject? && !source.JObject? && !source.JStr? ==> r == Err(TypeError)
  {
    match target
    case JObject(fields) =>
      (match source
       case JObject(more) => Ok(fields + more)
       case JStr(s) => if s == "" then Ok(fields) else Err(ValueError(source))
       case _ => Err(TypeError))
    case _ => Err(AttributeError)
  }
}
