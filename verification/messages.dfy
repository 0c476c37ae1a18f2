/**
  Logical Fast messages as the server sees them once the wire decoder has
  produced them: a JSON payload, a status and a msgid, tagged with the id of
  the connection they arrived on.  Also the errors the server raises and the
  validation of an RPC call's payload.
 */
module Messages {

  datatype Option<+T> = None | Some(value: T)

  datatype Result<+T, +E> = Ok(value: T) | Err(error: E)

  /** A JSON value.  JavaScript's `undefined` and `null` are both JNull. */
  datatype Json =
    | JNull
    | JBool(b: bool)
    | JNumber(n: int)
    | JString(s: string)
    | JArray(items: seq<Json>)
    | JObject(fields: map<string, Json>)

  /** JavaScript truthiness of a value. */
  predicate Truthy(v: Json)
  {
    match v
    case JNull => false
    case JBool(b) => b
    case JNumber(n) => n != 0
    case JString(s) => s != ""
    case JArray(_) => true
    case JObject(_) => true
  }

  /** Property read `v.key`: a missing property, or a property of a non-object, reads as JNull. */
  function Get(v: Json, key: string): Json
  {
    if v.JObject? && key in v.fields then v.fields[key] else JNull
  }

  /** `typeof v == 'object' && v !== null` */
  predicate IsObject(v: Json)
  {
    v.JObject? || v.JArray?
  }

  datatype Status = DATA | END | ERROR

  datatype Message = Message(msgid: nat, status: Status, data: Json)

  /** A decoded message annotated with the id of the connection it was read from. */
  datatype Inbound = Inbound(connId: nat, msg: Message)

  /**
    An Error instance: its `name` and `message`, the `fastReason` of its info
    (if any), its legacy `context` property and its `ase_errors` property.
   */
  datatype Error = Error(name: string, message: string, reason: Option<string>,
                         context: Json, aseErrors: Option<Json>)

  /** A call payload that is not well-formed fails its request. */
  function BadData(): (e: Error)
    ensures e.name == "FastError" && e.reason == Some("bad_data")
  {
    Error("FastError", "RPC request is not well-formed", Some("bad_data"), JNull, None)
  }

  /** A call to an unregistered method fails its request; the message names the method. */
  function BadMethod(name: string): (e: Error)
    ensures e.name == "FastError" && e.reason == Some("bad_method")
    ensures |e.message| == |name| + 26 && e.message[25..25 + |name|] == name
  {
    Error("FastError", "unsupported RPC method: \"" + name + "\"", Some("bad_method"), JNull, None)
  }

  /** An END message from the client terminates its connection. */
  function UnexpectedStatus(): (e: Error)
    ensures e.name == "FastProtocolError" && e.reason == Some("unexpected_status")
  {
    Error("FastProtocolError", "unexpected END event from client", Some("unexpected_status"), JNull, None)
  }

  /** A DATA message reusing a pending msgid terminates its connection. */
  function DuplicateMsgid(): (e: Error)
    ensures e.name == "FastProtocolError" && e.reason == Some("duplicate_msgid")
  {
    Error("FastProtocolError", "client attempted to re-use msgid", Some("duplicate_msgid"), JNull, None)
  }

  /** The error every connection is terminated with at shutdown: a plain VError, with no reason. */
  function ShuttingDown(): (e: Error)
    ensures e.name == "VError" && e.reason.None?
  {
    Error("VError", "server is shutting down", None, JNull, None)
  }

  /** A well-formed RPC call: the method name and the argument list. */
  datatype Call = Call(name: string, args: seq<Json>)

  /**
    Validation of a call payload: `m` must be truthy, `m.name` a truthy string
    and `d` an array.  A well-formed call therefore names a non-empty method.
   */
  function ParseCall(data: Json): (r: Option<Call>)
    ensures r.Some? <==>
      && Get(data, "m").JObject?
      && Get(Get(data, "m"), "name").JString?
      && Get(Get(data, "m"), "name").s != ""
      && Get(data, "d").JArray?
    ensures r.Some? ==>
      && r.value.name != ""
      && Get(Get(data, "m"), "name") == JString(r.value.name)
      && Get(data, "d") == JArray(r.value.args)
  {
    var m := Get(data, "m");
    var name := Get(m, "name");
    var d := Get(data, "d");
    if !Truthy(m) || !Truthy(name) || !name.JString? || !Truthy(d) || !d.JArray? then
      None
    else
      Some(Call(name.s, d.items))
  }
}
