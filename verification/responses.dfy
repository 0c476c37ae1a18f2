/**
  Response messages for a request: requestMakeMessage and the response
  encoder's _transform (one DATA message per object written by the handler)
  and _flush (the END message once the handler ends its output).
 */
module Responses {
  import opened Messages
  import opened Requests

  /** What requestMakeMessage is given besides the request: its status and data. */
  datatype Body = Items(items: seq<Json>) | EndOfStream | Failure(error: Error)

  function StatusOf(b: Body): Status
  {
    match b
    case Items(_) => DATA
    case EndOfStream => END
    case Failure(_) => ERROR
  }

  /** `m.name` of a response: the request's method, or null before validation. */
  function MethodJson(r: Request): Json
  {
    match r.rpcMethod
    case Some(n) => JString(n)
    case None => JNull
  }

  /**
    The `d` of an ERROR response: the error's name, message, context (an empty
    object unless the error's own context is truthy) and ase_errors (a property
    that is absent when the error has none).
   */
  function ErrorDatum(e: Error): (d: Json)
    ensures d.JObject?
    ensures Get(d, "name") == JString(e.name) && Get(d, "message") == JString(e.message)
    ensures Truthy(Get(d, "context"))
    ensures Get(d, "context") == if Truthy(e.context) then e.context else JObject(map[])
    ensures "ase_errors" in d.fields <==> e.aseErrors.Some?
    ensures e.aseErrors.Some? ==> Get(d, "ase_errors") == e.aseErrors.value
  {
    var base := map["name" := JString(e.name),
                    "context" := if Truthy(e.context) then e.context else JObject(map[]),
                    "message" := JString(e.message)];
    match e.aseErrors
    case Some(a) => JObject(base["ase_errors" := a])
    case None => JObject(base)
  }

  /**
    requestMakeMessage: every response carries the request's msgid and
    `m.name` equal to its method; DATA carries the items, END an empty array
    and ERROR the error datum.
   */
  function MakeMessage(r: Request, b: Body): (msg: Message)
    ensures msg.msgid == r.msgid && msg.status == StatusOf(b)
    ensures Get(Get(msg.data, "m"), "name") == MethodJson(r)
    ensures b.Items? ==> Get(msg.data, "d") == JArray(b.items)
    ensures b.EndOfStream? ==> Get(msg.data, "d") == JArray([])
    ensures b.Failure? ==> Get(msg.data, "d") == ErrorDatum(b.error)
  {
    var datum := match b
      case Items(xs) => JArray(xs)
      case EndOfStream => JArray([])
      case Failure(e) => ErrorDatum(e);
    Message(r.msgid, StatusOf(b), JObject(map["m" := JObject(map["name" := MethodJson(r)]), "d" := datum]))
  }

  /** Faults that _transform throws. */
  datatype WriteFault = WriteAfterComplete | NotAnObject

  /**
    _transform: an object written by a RUNNING request's handler becomes one
    DATA message whose `d` is the one-element array holding it; writing once
    the request has left RUNNING, or writing a non-object, throws.
   */
  function Transform(r: Request, item: Json): (res: Result<Message, WriteFault>)
    ensures res.Ok? <==> r.state == Running && IsObject(item)
    ensures r.state != Running ==> res == Err(WriteAfterComplete)
    ensures res.Ok? ==>
      && res.value.msgid == r.msgid
      && res.value.status == DATA
      && Get(res.value.data, "d") == JArray([item])
      && Get(Get(res.value.data, "m"), "name") == MethodJson(r)
  {
    if r.state != Running then Err(WriteAfterComplete)
    else if !IsObject(item) then Err(NotAnObject)
    else Ok(MakeMessage(r, Items([item])))
  }

  /** _flush: the END message, with an empty `d`, sent when the handler ends its output. */
  function Flush(r: Request): (msg: Message)
    ensures msg.msgid == r.msgid && msg.status == END
    ensures Get(msg.data, "d") == JArray([])
    ensures Get(Get(msg.data, "m"), "name") == MethodJson(r)
  {
    MakeMessage(r, EndOfStream)
  }

  /** The ERROR message requestFail writes for the request. */
  function FailureMessage(r: Request, err: Error): (msg: Message)
    ensures msg.msgid == r.msgid && msg.status == ERROR
    ensures Get(msg.data, "d") == ErrorDatum(err)
    ensures Get(Get(msg.data, "m"), "name") == MethodJson(r)
  {
    MakeMessage(r, Failure(err))
  }
}
