/** Decoded JSON messages as the Python workers see them after `json.loads`,
    the Python exceptions the workers' message handlers can raise, and the
    failure-compatible result type that carries them. */
module Json {
  import opened Strings

  /** A decoded JSON value; objects become Python dicts. JSON numbers are kept exact. */
  datatype Value =
    | Null
    | Bool(b: bool)
    | Num(n: real)
    | Str(s: string)
    | List(items: seq<Value>)
    | Object(fields: map<string, Value>)

  /** A message body: a JSON object, i.e. a Python dict with string keys. */
  type Message = map<string, Value>

  /** The Python exceptions that end a message handler early. */
  datatype PyError =
    | KeyError(key: string)       // `d[key]` on a missing key
    | TypeError                   // an operation applied to a value of the wrong type
    | UnboundLocalError(name: string)  // a local read before any branch assigned it
    | DecodeError                 // `json.loads` failed, or gave something that is not a dict
    | IndexError                  // a sequence subscript past its end

  datatype Option<+T> = None | Some(value: T)

  /** The outcome of a Python expression: its value, or the exception it raised. */
  datatype Result<+T> = Ok(value: T) | Err(error: PyError) {
    predicate IsFailure() { Err? }
    function PropagateFailure<U>(): Result<U> requires Err? { Err(error) }
    function Extract(): T requires Ok? { value }
  }

  /** `{**data, **updates}`: every field of `updates`, and every other field of `data` unchanged. */
  function Merge(data: Message, updates: Message): (r: Message)
    ensures r.Keys == data.Keys + updates.Keys
    ensures forall k :: k in updates ==> r[k] == updates[k]
    ensures forall k :: k in data && k !in updates ==> r[k] == data[k]
  {
    data + updates
  }

  /** `data['equation']` used as a string. A missing key raises KeyError; any value
      other than a string makes the string operations applied to it raise TypeError. */
  function EquationOf(data: Message): (r: Result<string>)
    ensures r.Ok? <==> "equation" in data && data["equation"].Str?
    ensures r.Ok? ==> data["equation"] == Str(r.value)
    ensures "equation" !in data ==> r == Err(KeyError("equation"))
  {
    if "equation" !in data then Err(KeyError("equation"))
    else match data["equation"]
      case Str(s) => Ok(s)
      case _ => Err(TypeError)
  }

  /** The number Python compares when it evaluates `v > x` for a JSON value `v`
      (`True` and `False` behave as 1 and 0); None when the comparison raises TypeError. */
  function NumberOf(v: Value): (r: Option<real>)
    ensures r.Some? <==> v.Num? || v.Bool?
    ensures v.Num? ==> r == Some(v.n)
  {
    match v
    case Num(n) => Some(n)
    case Bool(b) => Some(if b then 1.0 else 0.0)
    case _ => None
  }

  /** `d.get(key, default)`. */
  function Get(data: Message, key: string, default: Value): (r: Value)
    ensures key in data ==> r == data[key]
    ensures key !in data ==> r == default
  {
    if key in data then data[key] else default
  }

  /** `json.loads(body)` followed by a dict operation on the result: the message, or an error
      when the body did not decode (None) or decoded to something other than an object
      (whose missing `.get` raises AttributeError). */
  function AsMessage(body: Option<Value>): (r: Result<Message>)
    ensures r.Ok? <==> body.Some? && body.value.Object?
    ensures r.Ok? ==> body.value == Object(r.value)
  {
    match body
    case Some(Object(fields)) => Ok(fields)
    case _ => Err(DecodeError)
  }

  /** What a consumer answers the broker for a delivery. */
  datatype Delivery = Ack | Nack

  /** Python's `str(b)` for a bool. */
  function BoolStr(b: bool): (r: string)
    ensures r == "True" || r == "False"
    ensures (r == "True") == b
  {
    if b then "True" else "False"
  }
}
