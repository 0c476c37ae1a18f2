/**
  Server-side RPC requests (FastRpcServerRequest) and registered handlers
  (FastRpcHandler), as values, with the request state machine

      INIT --(validation ok)--> RUNNING --(end / fail / disconnect+finish)--> COMPLETE
      INIT --(validation failed)--------------------------------------------> COMPLETE

  The QUEUED state of the source is never entered (request concurrency is not
  limited), so it is not represented.
 */
module Requests {
  import opened Messages

  datatype RequestState = Init | Running | Complete

  /**
    One RPC request.  `rpcMethod` and `args` are filled in once the payload is
    validated, `handler` (the name of the registered handler) once the method is
    found; `blackhole` records that the request was disconnected from its
    connection, so that the handler's further output is discarded.
   */
  datatype Request = Request(
    msgid: nat,
    rpcMethod: Option<string>,
    args: Option<seq<Json>>,
    handler: Option<string>,
    state: RequestState,
    error: Option<Error>,
    blackhole: bool)

  /** A newly created request, before validation. */
  function NewRequest(msgid: nat): (r: Request)
    ensures r.msgid == msgid && r.state == Init
    ensures r.rpcMethod.None? && r.args.None? && r.handler.None?
    ensures r.error.None? && !r.blackhole
  {
    Request(msgid, None, None, None, Init, None, false)
  }

  /** The request once its payload has been validated. */
  function Named(r: Request, call: Call): (n: Request)
    ensures n.rpcMethod == Some(call.name) && n.args == Some(call.args)
    ensures n.(rpcMethod := r.rpcMethod, args := r.args) == r
  {
    r.(rpcMethod := Some(call.name), args := Some(call.args))
  }

  /** The request handed to its registered handler. */
  function Run(r: Request): (n: Request)
    requires r.rpcMethod.Some?
    ensures n.state == Running && n.handler == r.rpcMethod
    ensures n.(state := r.state, handler := r.handler) == r
    ensures r.error.None? && !r.blackhole ==> DisconnectAsWritten(n) == Passed(Disconnect(n)) && Disconnect(n).blackhole
  {
    r.(handler := r.rpcMethod, state := Running)
  }

  /** requestFail's update of the request: no state check in the source. */
  function Failed(r: Request, err: Error): (f: Request)
    ensures f.state == Complete && f.error == Some(err)
    ensures f.(state := r.state, error := r.error) == r
    ensures DisconnectAsWritten(f) == Passed(f) && Disconnect(f) == f
  {
    r.(error := Some(err), state := Complete)
  }

  /** requestComplete's update of the request. */
  function Completed(r: Request): (f: Request)
    requires r.state == Running
    ensures f.state == Complete && f.error == r.error
    ensures f.(state := r.state) == r
    ensures DisconnectAsWritten(f) == Passed(f) && Disconnect(f) == f
  {
    r.(state := Complete)
  }

  /** The outcome of code whose assertions may fail. */
  datatype Checked<+T> = Passed(value: T) | AssertionFailed

  /**
    requestDisconnect exactly as written: a request that is not RUNNING must be
    COMPLETE and is left alone; a RUNNING request must have no error and no
    blackhole yet, and gets one.
   */
  function DisconnectAsWritten(r: Request): (c: Checked<Request>)
    ensures c.AssertionFailed? <==>
      r.state.Init? || (r.state.Running? && (r.error.Some? || r.blackhole))
  {
    if r.state != Running then
      if r.state == Complete then Passed(r) else AssertionFailed
    else if r.error.Some? || r.blackhole then
      AssertionFailed
    else
      Passed(r.(blackhole := true))
  }

  /**
    requestDisconnect as the model uses it: as written, except that a request
    that is already disconnected is left alone instead of failing the
    blackhole assertion.
   */
  function Disconnect(r: Request): (d: Request)
    ensures d.state == r.state && d.error == r.error && d.msgid == r.msgid
    ensures d.handler == r.handler && d.rpcMethod == r.rpcMethod && d.args == r.args
    ensures r.state == Running ==> d.blackhole
    ensures r.state != Running ==> d == r
    ensures r.blackhole ==> d == r
    ensures DisconnectAsWritten(r).Passed? ==> DisconnectAsWritten(r).value == d
  {
    if r.state == Running && !r.blackhole then r.(blackhole := true) else r
  }

  /** Disconnecting twice is the same as disconnecting once. */
  lemma DisconnectIdempotent(r: Request)
    ensures Disconnect(Disconnect(r)) == Disconnect(r)
  {
  }

  /**
    The discrepancy: a RUNNING request with no error passes requestDisconnect
    once, but a second requestDisconnect on it fails the blackhole assertion.
   */
  lemma DisconnectTwiceAsWritten(r: Request)
    requires r.state == Running && r.error.None? && !r.blackhole
    ensures DisconnectAsWritten(r) == Passed(Disconnect(r))
    ensures DisconnectAsWritten(Disconnect(r)).AssertionFailed?
  {
  }

  /** A registered RPC method and its usage counters. */
  datatype Handler = Handler(name: string, nstarted: nat, ncompleted: nat, nerrors: nat)

  /** A newly registered handler: its method name and every counter at 0. */
  function NewHandler(name: string): (h: Handler)
    ensures h.name == name && h.nstarted == 0 && h.ncompleted == 0 && h.nerrors == 0
  {
    Handler(name, 0, 0, 0)
  }

  /** The handler's counters once a request is handed to it. */
  function CountStart(h: Handler): (h': Handler)
    ensures h'.name == h.name && h'.nstarted == h.nstarted + 1
    ensures h'.ncompleted == h.ncompleted && h'.nerrors == h.nerrors
  {
    h.(nstarted := h.nstarted + 1)
  }

  /** The handler's counters once a request it served is cleaned up. */
  function CountCompletion(h: Handler, failed: bool): (h': Handler)
    ensures h'.name == h.name && h'.nstarted == h.nstarted
    ensures h'.ncompleted == h.ncompleted + 1
    ensures h'.nerrors == h.nerrors + (if failed then 1 else 0)
    ensures h.nerrors <= h.ncompleted ==> h'.nerrors <= h'.ncompleted
  {
    h.(ncompleted := h.ncompleted + 1, nerrors := if failed then h.nerrors + 1 else h.nerrors)
  }
}
