/**
  The FastServer: the handler registry, the connection table, the cyclic
  connection-id counter, the shutdown flag and the counters of ignored
  messages, with the connection and request lifecycle operations.

  Sockets are represented by their connection's `destroyed` flag and the
  messages written to its encoder; a handler's behaviour is represented by
  the three operations a handler performs on its context: HandlerWrite,
  HandlerEnd and HandlerFail.
 */
module Server {
  import opened Messages
  import opened ConnIds
  import opened Requests
  import opened Responses
  import opened Connections

  /** What onMessage did with a message. */
  datatype Disposition =
    | DroppedNoConn
    | DroppedBadConn
    | IgnoredAbort
    | TerminatedConn(error: Error)
    | FailedRequest(request: Request, error: Error)
    | StartedRequest(call: Call)

  /** The connection is in the table and has read neither end-of-stream nor a socket error. */
  predicate Open(conns: map<nat, Conn>, cid: nat)
  {
    cid in conns && !conns[cid].ended && conns[cid].socketError.None?
  }

  /** The decision onMessage takes for a message, given the table and the registered method names. */
  function Dispatch(conns: map<nat, Conn>, names: set<string>, m: Inbound): (d: Disposition)
    ensures d.DroppedNoConn? <==> m.connId !in conns
    ensures d.DroppedBadConn? <==> m.connId in conns && (conns[m.connId].ended || conns[m.connId].socketError.Some?)
    ensures d.IgnoredAbort? <==> Open(conns, m.connId) && m.msg.status.ERROR?
    ensures d.TerminatedConn? <==>
      Open(conns, m.connId) && (m.msg.status.END? || (m.msg.status.DATA? && m.msg.msgid in conns[m.connId].pending))
    ensures d.TerminatedConn? ==> d.error == if m.msg.status.END? then UnexpectedStatus() else DuplicateMsgid()
    ensures d.StartedRequest? <==>
      && Open(conns, m.connId) && m.msg.status.DATA? && m.msg.msgid !in conns[m.connId].pending
      && ParseCall(m.msg.data).Some? && ParseCall(m.msg.data).value.name in names
    ensures d.StartedRequest? ==> ParseCall(m.msg.data) == Some(d.call)
    ensures d.FailedRequest? ==>
      && Open(conns, m.connId) && m.msg.status.DATA? && m.msg.msgid !in conns[m.connId].pending
      && d.request.msgid == m.msg.msgid && d.request.state.Init? && d.request.handler.None?
      && d.request.error.None? && !d.request.blackhole
      && match ParseCall(m.msg.data)
         case None => d.request.rpcMethod.None? && d.error == BadData()
         case Some(call) => call.name !in names && d.request.rpcMethod == Some(call.name) && d.error == BadMethod(call.name)
  {
    if m.connId !in conns then DroppedNoConn
    else
      var c := conns[m.connId];
      if c.ended || c.socketError.Some? then DroppedBadConn
      else if m.msg.status.END? then TerminatedConn(UnexpectedStatus())
      else if m.msg.status.ERROR? then IgnoredAbort
      else if m.msg.msgid in c.pending then TerminatedConn(DuplicateMsgid())
      else
        match ParseCall(m.msg.data)
        case None => FailedRequest(NewRequest(m.msg.msgid), BadData())
        case Some(call) =>
          if call.name !in names then FailedRequest(Named(NewRequest(m.msg.msgid), call), BadMethod(call.name))
          else StartedRequest(call)
  }

  /** The server's tables: registered handlers, open connections and (as a record) removed connections. */
  datatype Tables = Tables(conns: map<nat, Conn>, handlers: map<string, Handler>, retired: seq<Conn>)

  /**
    The tables once onMessage has dealt with `m`: unchanged for a dropped or
    ignored message; the connection terminated; the new request inserted and
    failed at once; or the request inserted RUNNING and its handler's start
    counted.
   */
  function Received(t: Tables, m: Inbound): (t': Tables)
    ensures t'.handlers.Keys == t.handlers.Keys && t.retired <= t'.retired
    ensures forall k :: k != m.connId ==> Lookup(t'.conns, k) == Lookup(t.conns, k)
    ensures !Dispatch(t.conns, t.handlers.Keys, m).StartedRequest? ==> t'.handlers == t.handlers
    ensures m.connId !in t.conns ==> t' == t
  {
    var cid := m.connId;
    match Dispatch(t.conns, t.handlers.Keys, m)
    case DroppedNoConn => t
    case DroppedBadConn => t
    case IgnoredAbort => t
    case TerminatedConn(e) =>
      t.(conns := Place(t.conns, cid, Terminated(t.conns[cid], e)),
         retired := t.retired + TerminateLog(t.conns[cid], e))
    case FailedRequest(r, e) =>
      t.(conns := Place(t.conns, cid, Rejected(t.conns[cid], r, e)),
         retired := t.retired + RejectLog(t.conns[cid], r, e))
    case StartedRequest(call) =>
      t.(conns := Place(t.conns, cid, Some(Start(t.conns[cid], Run(Named(NewRequest(m.msg.msgid), call))))),
         handlers := t.handlers[call.name := CountStart(t.handlers[call.name])])
  }

  lemma ReceivedTerminated(t: Tables, m: Inbound, e: Error)
    requires Dispatch(t.conns, t.handlers.Keys, m) == TerminatedConn(e)
    ensures Received(t, m) == t.(conns := Place(t.conns, m.connId, Terminated(t.conns[m.connId], e)),
                                 retired := t.retired + TerminateLog(t.conns[m.connId], e))
  {
  }

  lemma ReceivedFailed(t: Tables, m: Inbound, r: Request, e: Error)
    requires Dispatch(t.conns, t.handlers.Keys, m) == FailedRequest(r, e)
    ensures Received(t, m) == t.(conns := Place(t.conns, m.connId, Rejected(t.conns[m.connId], r, e)),
                                 retired := t.retired + RejectLog(t.conns[m.connId], r, e))
  {
  }

  lemma ReceivedStarted(t: Tables, m: Inbound, call: Call)
    requires Dispatch(t.conns, t.handlers.Keys, m) == StartedRequest(call)
    ensures Received(t, m) ==
      t.(conns := t.conns[m.connId := Start(t.conns[m.connId], Run(Named(NewRequest(m.msg.msgid), call)))],
         handlers := t.handlers[call.name := CountStart(t.handlers[call.name])])
  {
  }

  /** Every connection in the table is keyed by its own, non-zero, in-range id. */
  ghost predicate Keyed(t: map<nat, Conn>)
  {
    forall k :: k in t ==> t[k].id == k && 0 < k < MaxConnId
  }

  /** Every connection in the table keeps its invariant. */
  ghost predicate AllOk(t: map<nat, Conn>, names: set<string>)
  {
    forall k :: k in t ==> ConnOk(t[k], names)
  }

  /** Every connection but `cid` keeps its invariant. */
  ghost predicate OthersOk(t: map<nat, Conn>, names: set<string>, cid: nat)
  {
    forall k :: k in t && k != cid ==> ConnOk(t[k], names)
  }

  /** Each handler is registered under its own name and never counts more errors than completions. */
  ghost predicate HandlersOk(hs: map<string, Handler>)
  {
    forall n :: n in hs ==> hs[n].name == n && hs[n].nerrors <= hs[n].ncompleted
  }

  /** The pending requests, across the whole table, bound to the handler named `n`, as (connection id, msgid) pairs. */
  ghost function BoundTo(t: map<nat, Conn>, n: string): set<(nat, nat)>
  {
    set cid, m | cid in t && m in t[cid].pending && Binding(t[cid], m) == Some(n) :: (cid, m)
  }

  /**
    Each handler has started exactly as many requests as it has completed,
    plus those still pending and bound to it on any connection; in
    particular it never counts more completions than starts.
   */
  ghost predicate HandlerCounts(t: map<nat, Conn>, hs: map<string, Handler>)
  {
    forall n {:trigger BoundTo(t, n)} :: n in hs ==> hs[n].nstarted == hs[n].ncompleted + |BoundTo(t, n)|
  }

  /** Every connection ever removed from the table was drained first. */
  ghost predicate AllSettled(log: seq<Conn>)
  {
    forall i :: 0 <= i < |log| ==> Settled(log[i])
  }

  lemma OthersOfAll(t: map<nat, Conn>, names: set<string>, cid: nat)
    requires AllOk(t, names)
    ensures OthersOk(t, names, cid)
  {
  }

  /** Replacing connection `cid` keeps the other connections' invariants and the keying. */
  lemma OthersUpdate(t: map<nat, Conn>, names: set<string>, cid: nat, c: Conn)
    requires OthersOk(t, names, cid) && Keyed(t) && cid in t && c.id == cid
    ensures OthersOk(t[cid := c], names, cid) && Keyed(t[cid := c])
  {
  }

  /** The table after connection `cid` is replaced by a connection that keeps its invariant, or removed. */
  lemma PlaceOk(t: map<nat, Conn>, names: set<string>, cid: nat, o: Option<Conn>)
    requires OthersOk(t, names, cid) && Keyed(t) && cid in t
    requires o.Some? ==> o.value.id == cid && ConnOk(o.value, names)
    ensures AllOk(Place(t, cid, o), names) && Keyed(Place(t, cid, o))
  {
  }

  /** Writing connection `cid` and then placing it is placing it. */
  lemma PlaceOverwrite(t: map<nat, Conn>, cid: nat, c: Conn, o: Option<Conn>)
    ensures Place(t[cid := c], cid, o) == Place(t, cid, o)
  {
    if o.None? {
      assert t[cid := c] - {cid} == t - {cid};
    }
  }

  lemma AllOkMonotone(t: map<nat, Conn>, names: set<string>, names': set<string>)
    requires AllOk(t, names) && names <= names'
    ensures AllOk(t, names')
  {
    forall k | k in t
      ensures ConnOk(t[k], names')
    {
      CoreOkMonotone(t[k], names, names', None);
    }
  }

  /** Updating a registered handler's counters keeps the registry's invariant and its names. */
  lemma HandlersUpdate(hs: map<string, Handler>, n: string, h: Handler)
    requires HandlersOk(hs) && n in hs && h.name == n && h.nerrors <= h.ncompleted
    ensures HandlersOk(hs[n := h]) && hs[n := h].Keys == hs.Keys
  {
  }

  /** Membership in BoundTo, pair by pair. */
  lemma InBoundTo(t: map<nat, Conn>, n: string, k: nat, m: nat)
    ensures (k, m) in BoundTo(t, n) <==> k in t && Binding(t[k], m) == Some(n)
  {
    if k in t && Binding(t[k], m) == Some(n) {
      assert m in t[k].pending;
    }
  }

  /** Replacing a connection by one with the same bindings, or adding one without any, keeps each handler's bound requests. */
  lemma BoundReplace(t: map<nat, Conn>, cid: nat, c: Conn, n: string)
    requires cid in t ==> SameBindings(t[cid], c)
    requires cid !in t ==> c.pending == map[]
    ensures BoundTo(t[cid := c], n) == BoundTo(t, n)
  {
    forall p: (nat, nat) ensures p in BoundTo(t[cid := c], n) <==> p in BoundTo(t, n)
    {
      InBoundTo(t[cid := c], n, p.0, p.1);
      InBoundTo(t, n, p.0, p.1);
    }
  }

  lemma CountsReplace(t: map<nat, Conn>, hs: map<string, Handler>, cid: nat, c: Conn)
    requires HandlerCounts(t, hs)
    requires cid in t ==> SameBindings(t[cid], c)
    requires cid !in t ==> c.pending == map[]
    ensures HandlerCounts(t[cid := c], hs)
  {
    forall n | n in hs ensures hs[n].nstarted == hs[n].ncompleted + |BoundTo(t[cid := c], n)|
    {
      BoundReplace(t, cid, c, n);
    }
  }

  /** Removing a connection with nothing pending keeps each handler's bound requests. */
  lemma CountsRemove(t: map<nat, Conn>, hs: map<string, Handler>, cid: nat)
    requires HandlerCounts(t, hs) && cid in t && t[cid].pending == map[]
    ensures HandlerCounts(t - {cid}, hs)
  {
    forall n | n in hs ensures BoundTo(t - {cid}, n) == BoundTo(t, n)
    {
      forall p: (nat, nat) ensures p in BoundTo(t - {cid}, n) <==> p in BoundTo(t, n)
      {
        InBoundTo(t - {cid}, n, p.0, p.1);
        InBoundTo(t, n, p.0, p.1);
      }
    }
  }

  /** The table after connection `cid` is replaced keeping its bindings, or removed with nothing pending. */
  lemma CountsPlace(t: map<nat, Conn>, hs: map<string, Handler>, cid: nat, o: Option<Conn>)
    requires HandlerCounts(t, hs) && cid in t
    requires o.Some? ==> SameBindings(t[cid], o.value)
    requires o.None? ==> t[cid].pending == map[]
    ensures HandlerCounts(Place(t, cid, o), hs)
  {
    match o
    case Some(c) => CountsReplace(t, hs, cid, c);
    case None => CountsRemove(t, hs, cid);
  }

  /** Inserting a new request adds it to the requests bound to its handler and to no others. */
  lemma BoundStart(t: map<nat, Conn>, cid: nat, r: Request, n: string)
    requires cid in t && r.msgid !in t[cid].pending
    ensures (cid, r.msgid) !in BoundTo(t, n)
    ensures BoundTo(t[cid := Start(t[cid], r)], n) == BoundTo(t, n) + (if r.handler == Some(n) then {(cid, r.msgid)} else {})
  {
    InBoundTo(t, n, cid, r.msgid);
    forall p: (nat, nat) ensures p in BoundTo(t[cid := Start(t[cid], r)], n) <==> p in BoundTo(t, n) || (r.handler == Some(n) && p == (cid, r.msgid))
    {
      InBoundTo(t[cid := Start(t[cid], r)], n, p.0, p.1);
      InBoundTo(t, n, p.0, p.1);
    }
  }

  /** Cleaning up a pending request removes it from the requests bound to its handler. */
  lemma BoundCleanup(t: map<nat, Conn>, cid: nat, r: Request, n: string)
    requires cid in t && r.msgid in t[cid].pending
    ensures (cid, r.msgid) in BoundTo(t, n) <==> t[cid].pending[r.msgid].handler == Some(n)
    ensures BoundTo(t[cid := Cleanup(t[cid], r)], n) == BoundTo(t, n) - {(cid, r.msgid)}
  {
    InBoundTo(t, n, cid, r.msgid);
    forall p: (nat, nat) ensures p in BoundTo(t[cid := Cleanup(t[cid], r)], n) <==> p in BoundTo(t, n) && p != (cid, r.msgid)
    {
      InBoundTo(t[cid := Cleanup(t[cid], r)], n, p.0, p.1);
      InBoundTo(t, n, p.0, p.1);
    }
  }

  /** A new request bound to its handler, with the handler's start counted. */
  lemma CountsStart(t: map<nat, Conn>, hs: map<string, Handler>, cid: nat, r: Request)
    requires HandlerCounts(t, hs) && cid in t && r.msgid !in t[cid].pending
    requires r.handler.Some? && r.handler.value in hs
    ensures HandlerCounts(t[cid := Start(t[cid], r)], hs[r.handler.value := CountStart(hs[r.handler.value])])
  {
    var hs' := hs[r.handler.value := CountStart(hs[r.handler.value])];
    forall n | n in hs' ensures hs'[n].nstarted == hs'[n].ncompleted + |BoundTo(t[cid := Start(t[cid], r)], n)|
    {
      BoundStart(t, cid, r, n);
    }
  }

  /**
    Cleaning up a pending request: if it is bound to a handler, that handler
    has started more requests than it has completed, and counting the
    completion keeps every handler's count.
   */
  lemma CountsCleanup(t: map<nat, Conn>, hs: map<string, Handler>, cid: nat, r: Request, failed: bool)
    requires HandlerCounts(t, hs) && cid in t && r.msgid in t[cid].pending
    requires t[cid].pending[r.msgid].handler == r.handler
    requires r.handler.Some? ==> r.handler.value in hs
    ensures r.handler.Some? ==> hs[r.handler.value].ncompleted < hs[r.handler.value].nstarted
    ensures HandlerCounts(t[cid := Cleanup(t[cid], r)],
                          if r.handler.Some? then hs[r.handler.value := CountCompletion(hs[r.handler.value], failed)] else hs)
  {
    var hs' := if r.handler.Some? then hs[r.handler.value := CountCompletion(hs[r.handler.value], failed)] else hs;
    forall n | n in hs' ensures hs'[n].nstarted == hs'[n].ncompleted + |BoundTo(t[cid := Cleanup(t[cid], r)], n)|
    {
      BoundCleanup(t, cid, r, n);
    }
    if r.handler.Some? {
      BoundCleanup(t, cid, r, r.handler.value);
    }
  }

  /** A handler registered under a new name has nothing bound to it yet. */
  lemma CountsRegister(t: map<nat, Conn>, hs: map<string, Handler>, name: string)
    requires HandlerCounts(t, hs) && AllOk(t, hs.Keys) && name !in hs
    ensures HandlerCounts(t, hs[name := NewHandler(name)])
  {
    forall p: (nat, nat) | p in BoundTo(t, name) ensures false
    {
      InBoundTo(t, name, p.0, p.1);
    }
    assert BoundTo(t, name) == {};
  }

  lemma SettledAppend(log: seq<Conn>, more: seq<Conn>)
    requires AllSettled(log) && AllSettled(more)
    ensures AllSettled(log + more)
  {
  }

  /** A dropped or ignored message changes none of the tables. */
  lemma DroppedChangesNothing(t: Tables, m: Inbound)
    requires Dispatch(t.conns, t.handlers.Keys, m).DroppedNoConn?
          || Dispatch(t.conns, t.handlers.Keys, m).DroppedBadConn?
          || Dispatch(t.conns, t.handlers.Keys, m).IgnoredAbort?
    ensures Received(t, m) == t
  {
  }

  /**
    A protocol violation terminates the connection without creating a
    request: the handlers, the connection's start count and its pending
    msgids are unchanged.
   */
  lemma ViolationCreatesNoRequest(t: Tables, m: Inbound)
    requires Dispatch(t.conns, t.handlers.Keys, m).TerminatedConn?
    ensures Received(t, m).handlers == t.handlers
    ensures m.connId in Received(t, m).conns ==>
      && Received(t, m).conns[m.connId].nstarted == t.conns[m.connId].nstarted
      && Received(t, m).conns[m.connId].pending.Keys == t.conns[m.connId].pending.Keys
  {
    var e := Dispatch(t.conns, t.handlers.Keys, m).error;
    ReceivedTerminated(t, m, e);
    TerminatedEffect(t.conns[m.connId], e);
  }

  /**
    A valid call leaves a new RUNNING request in pending, bound to its
    method's handler, whose start count goes up by one; nothing is written.
   */
  lemma ValidCallStartsRequest(t: Tables, m: Inbound)
    requires Dispatch(t.conns, t.handlers.Keys, m).StartedRequest?
    ensures
      var d := Dispatch(t.conns, t.handlers.Keys, m);
      var c, c' := t.conns[m.connId], Received(t, m).conns[m.connId];
      var r := c'.pending[m.msg.msgid];
      && r.state.Running? && r.handler == Some(d.call.name) && r.args == Some(d.call.args) && !r.blackhole
      && c'.pending.Keys == c.pending.Keys + {m.msg.msgid}
      && c'.nstarted == c.nstarted + 1 && c'.ncompleted == c.ncompleted && c'.outbound == c.outbound
      && Received(t, m).handlers[d.call.name].nstarted == t.handlers[d.call.name].nstarted + 1
      && Received(t, m).handlers.Keys == t.handlers.Keys
      && Received(t, m).retired == t.retired
  {
    ReceivedStarted(t, m, Dispatch(t.conns, t.handlers.Keys, m).call);
  }

  /** A value passed to connTerminate. */
  datatype Argument = ConnectionArg(conn: Conn) | ErrorArg(error: Error) | Absent

  /**
    connTerminate as called with `conn` and `err`: its assertions that it was
    passed a connection and then an Error, then its effect on the table.
   */
  function TerminateCall(t: map<nat, Conn>, conn: Argument, err: Argument): (r: Checked<map<nat, Conn>>)
    ensures r.Passed? <==> conn.ConnectionArg? && err.ErrorArg?
    ensures r.Passed? ==> Lookup(r.value, conn.conn.id) == Terminated(conn.conn, err.error)
    ensures r.Passed? ==> forall k :: k != conn.conn.id ==> Lookup(r.value, k) == Lookup(t, k)
  {
    if conn.ConnectionArg? && err.ErrorArg? then Passed(Place(t, conn.conn.id, Terminated(conn.conn, err.error)))
    else AssertionFailed
  }

  /**
    connCreate's effect on the table, corrected: the new connection is
    added, and after shutdown it is passed to connTerminate with the error,
    which removes it again since nothing is pending on it.
   */
  function Created(t: map<nat, Conn>, closed: bool, cid: nat): (t': map<nat, Conn>)
    ensures Lookup(t', cid) == if closed then None else Some(NewConn(cid))
    ensures forall k :: k != cid ==> Lookup(t', k) == Lookup(t, k)
  {
    var added := t[cid := NewConn(cid)];
    if closed then TerminateCall(added, ConnectionArg(NewConn(cid)), ErrorArg(ShuttingDown())).value else added
  }

  /**
    connCreate as written: after shutdown it passes connTerminate only the
    error, in the connection's place, so connTerminate's assertions fail;
    otherwise it agrees with the corrected version.
   */
  function ConnCreateAsWritten(t: map<nat, Conn>, closed: bool, cid: nat): (r: Checked<map<nat, Conn>>)
    ensures r.AssertionFailed? <==> closed
    ensures !closed ==> r == Passed(Created(t, closed, cid))
  {
    var added := t[cid := NewConn(cid)];
    if closed then TerminateCall(added, ErrorArg(ShuttingDown()), Absent) else Passed(added)
  }

  /** Two tables that agree on every lookup are the same table. */
  lemma LookupExt(a: map<nat, Conn>, b: map<nat, Conn>)
    requires forall k :: Lookup(a, k) == Lookup(b, k)
    ensures a == b
  {
    assert a.Keys == b.Keys by {
      forall k | k in a ensures k in b { assert Lookup(a, k).Some?; }
      forall k | k in b ensures k in a { assert Lookup(b, k).Some?; }
    }
    forall k | k in a ensures a[k] == b[k] { assert Lookup(a, k) == Lookup(b, k); }
  }

  /** The table once close() has terminated the connections in `done`. */
  function Closing(t: map<nat, Conn>, done: set<nat>, err: Error): (t': map<nat, Conn>)
    ensures forall cid :: Lookup(t', cid) == if cid in done && cid in t then Terminated(t[cid], err) else Lookup(t, cid)
  {
    map cid | cid in t && (cid !in done || Terminated(t[cid], err).Some?) ::
      if cid in done then Terminated(t[cid], err).value else t[cid]
  }

  /** Terminating one more of the connections still to do. */
  lemma ClosingStep(t: map<nat, Conn>, todo: set<nat>, cid: nat, err: Error)
    requires cid in t && cid in todo
    ensures cid in Closing(t, t.Keys - todo, err) && Closing(t, t.Keys - todo, err)[cid] == t[cid]
    ensures Place(Closing(t, t.Keys - todo, err), cid, Terminated(t[cid], err)) == Closing(t, t.Keys - (todo - {cid}), err)
  {
    assert Lookup(Closing(t, t.Keys - todo, err), cid) == Lookup(t, cid);
    LookupExt(Place(Closing(t, t.Keys - todo, err), cid, Terminated(t[cid], err)), Closing(t, t.Keys - (todo - {cid}), err));
  }

  /** connDisconnectRequests' loop: requestDisconnect applied to every pending request. */
  method DisconnectPending(pending: map<nat, Request>) returns (p: map<nat, Request>)
    ensures p.Keys == pending.Keys && forall m :: m in p ==> p[m] == Disconnect(pending[m])
    ensures p == DisconnectSome(pending, pending.Keys)
  {
    p := pending;
    var todo := pending.Keys;
    assert DisconnectSome(pending, pending.Keys - todo) == p;
    while todo != {}
      invariant todo <= p.Keys == pending.Keys
      invariant p == DisconnectSome(pending, pending.Keys - todo)
      decreases todo
    {
      var m :| m in todo;
      DisconnectStep(pending, pending.Keys - todo, m);
      p := p[m := Disconnect(p[m])];
      assert pending.Keys - (todo - {m}) == (pending.Keys - todo) + {m};
      todo := todo - {m};
    }
    assert pending.Keys - todo == pending.Keys;
  }

  class FastServer {
    var handlers: map<string, Handler>
    var conns: map<nat, Conn>
    var connid: nat
    var closed: bool
    var nignoredNoconn: nat
    var nignoredBadconn: nat
    var nignoredAborts: nat
    /** how many connection ids have been allocated */
    ghost var nallocs: nat
    /** the final state of every connection removed from the table, oldest first */
    ghost var retired: seq<Conn>

    /** Invariants that concern neither one connection's state machine nor the handlers' start counts. */
    ghost predicate Basics()
      reads this
    {
      && connid == nallocs % MaxConnId
      && HandlersOk(handlers)
      && AllSettled(retired)
      && Keyed(conns)
    }

    /** Invariants that do not concern one connection's state machine. */
    ghost predicate Shared()
      reads this
    {
      Basics() && HandlerCounts(conns, handlers)
    }

    ghost predicate Valid()
      reads this
    {
      Shared() && AllOk(conns, handlers.Keys)
    }

    /**
      The invariant while connection `cid` is being updated: only its counter
      invariant is kept, and its `exempt` entry need not be RUNNING.
     */
    ghost predicate ValidAt(cid: nat, exempt: Option<nat>)
      reads this
    {
      && Shared()
      && cid in conns
      && OthersOk(conns, handlers.Keys, cid)
      && CoreOk(conns[cid], handlers.Keys, exempt)
    }

    constructor ()
      ensures Valid()
      ensures handlers == map[] && conns == map[] && connid == 0 && !closed
      ensures nignoredNoconn == 0 && nignoredBadconn == 0 && nignoredAborts == 0
      ensures nallocs == 0 && retired == []
    {
      handlers := map[];
      conns := map[];
      connid := 0;
      closed := false;
      nignoredNoconn := 0;
      nignoredBadconn := 0;
      nignoredAborts := 0;
      nallocs := 0;
      retired := [];
    }

    /** Register a handler for a method not registered before. */
    method RegisterRpcMethod(name: string)
      requires Valid() && name !in handlers
      modifies this`handlers
      ensures Valid()
      ensures handlers == old(handlers)[name := NewHandler(name)]
    {
      CountsRegister(conns, handlers, name);
      handlers := handlers[name := NewHandler(name)];
      AllOkMonotone(conns, old(handlers).Keys, handlers.Keys);
    }

    /** Shut down: terminate every connection in the table, once. */
    method Close()
      requires Valid()
      modifies this`closed, this`conns, this`retired
      ensures Valid() && closed
      ensures old(closed) ==> conns == old(conns) && retired == old(retired)
      ensures !old(closed) ==> conns == Closing(old(conns), old(conns).Keys, ShuttingDown())
      ensures old(retired) <= retired
    {
      if closed {
        return;
      }
      closed := true;
      TerminateAll(ShuttingDown());
    }

    /** close()'s loop: terminate every connection in the table with `err`. */
    method TerminateAll(err: Error)
      requires Valid()
      modifies this`conns, this`retired
      ensures Valid()
      ensures conns == Closing(old(conns), old(conns).Keys, err)
      ensures old(retired) <= retired
    {
      var todo := conns.Keys;
      LookupExt(Closing(conns, {}, err), conns);
      while todo != {}
        invariant Valid()
        invariant todo <= old(conns).Keys
        invariant conns == Closing(old(conns), old(conns).Keys - todo, err)
        invariant old(retired) <= retired
        decreases todo
      {
        var cid :| cid in todo;
        ClosingStep(old(conns), todo, cid, err);
        ConnTerminate(cid, err);
        todo := todo - {cid};
      }
    }

    /**
      Accept a connection under a freshly allocated, non-zero id.  A
      connection accepted after shutdown is terminated at once, which removes
      it again since nothing is pending on it.
     */
    method ConnCreate() returns (cid: nat)
      requires Valid()
      requires NextConnId(connid) != 0 && NextConnId(connid) !in conns
      modifies this`connid, this`nallocs, this`conns, this`retired
      ensures Valid()
      ensures cid == NextConnId(old(connid)) && nallocs == old(nallocs) + 1
      ensures !closed ==> conns == old(conns)[cid := NewConn(cid)] && retired == old(retired)
      ensures closed ==> conns == old(conns) && retired == old(retired) + [Terminate(NewConn(cid), ShuttingDown())]
      ensures conns == Created(old(conns), closed, cid)
    {
      cid := AllocConnectionId();
      CountsReplace(conns, handlers, cid, NewConn(cid));
      conns := conns[cid := NewConn(cid)];
      if closed {
        ConnTerminate(cid, ShuttingDown());
        TerminatedEffect(NewConn(cid), ShuttingDown());
        assert old(conns)[cid := NewConn(cid)] - {cid} == old(conns);
      }
      LookupExt(conns, Created(old(conns), closed, cid));
    }

    /** End-of-stream read from the socket: stop reading and drain. */
    method OnConnectionEnd(cid: nat)
      requires Valid() && cid in conns && conns[cid].socketError.None?
      modifies this`conns, this`retired
      ensures Valid()
      ensures conns == Place(old(conns), cid, Drained(old(conns)[cid].(ended := true)))
      ensures retired == old(retired) + DrainLog(old(conns)[cid].(ended := true))
    {
      var c := conns[cid].(ended := true);
      CoreOkFrame(conns[cid], c, handlers.Keys, None);
      OthersOfAll(conns, handlers.Keys, cid);
      OthersUpdate(conns, handlers.Keys, cid, c);
      CountsReplace(conns, handlers, cid, c);
      conns := conns[cid := c];
      ConnDrain(cid);
      PlaceOverwrite(old(conns), cid, c, Drained(c));
    }

    /** A socket error: disconnect every pending request and drain. */
    method OnConnectionError(cid: nat, err: Error)
      requires Valid() && cid in conns && conns[cid].socketError.None?
      modifies this`conns, this`retired
      ensures Valid()
      ensures conns == Place(old(conns), cid, Drained(DisconnectAll(old(conns)[cid].(socketError := Some(err)))))
      ensures retired == old(retired) + DrainLog(DisconnectAll(old(conns)[cid].(socketError := Some(err))))
    {
      var c := conns[cid].(socketError := Some(err));
      CoreOkFrame(conns[cid], c, handlers.Keys, None);
      OthersOfAll(conns, handlers.Keys, cid);
      OthersUpdate(conns, handlers.Keys, cid, c);
      CountsReplace(conns, handlers, cid, c);
      conns := conns[cid := c];
      ConnDisconnectRequests(cid);
      ConnDrain(cid);
      PlaceOverwrite(old(conns)[cid := c], cid, DisconnectAll(c), Drained(DisconnectAll(c)));
      PlaceOverwrite(old(conns), cid, c, Drained(DisconnectAll(c)));
    }

    /** Advance the cyclic counter: 1, 2, ..., 2^30 - 1, then 0. */
    method AllocConnectionId() returns (id: nat)
      requires Shared()
      modifies this`connid, this`nallocs
      ensures Shared()
      ensures id == connid == NextConnId(old(connid)) && nallocs == old(nallocs) + 1
    {
      ModuloStep(nallocs);
      connid := connid + 1;
      if connid >= MaxConnId {
        connid := 0;
      }
      nallocs := nallocs + 1;
      id := connid;
    }

    /** Terminate a connection for a protocol error or shutdown; a second termination does nothing. */
    method ConnTerminate(cid: nat, err: Error)
      requires Valid() && cid in conns
      modifies this`conns, this`retired
      ensures Valid()
      ensures conns == Place(old(conns), cid, Terminated(old(conns)[cid], err))
      ensures retired == old(retired) + TerminateLog(old(conns)[cid], err)
    {
      if conns[cid].serverError.None? {
        var c := conns[cid].(serverError := Some(err));
        CoreOkFrame(conns[cid], c, handlers.Keys, None);
        OthersOfAll(conns, handlers.Keys, cid);
        OthersUpdate(conns, handlers.Keys, cid, c);
        CountsReplace(conns, handlers, cid, c);
        conns := conns[cid := c];
        ConnDisconnectRequests(cid);
        ConnDrain(cid);
        PlaceOverwrite(old(conns)[cid := c], cid, DisconnectAll(c), Drained(DisconnectAll(c)));
        PlaceOverwrite(old(conns), cid, c, Drained(DisconnectAll(c)));
      } else {
        assert conns[cid := conns[cid]] == conns;
      }
    }

    /**
      Disconnect every pending request of a connection that saw an error (so
      that its handler's later output is discarded), then destroy its socket.
     */
    method ConnDisconnectRequests(cid: nat)
      requires ValidAt(cid, None) && Errored(conns[cid])
      modifies this`conns
      ensures ValidAt(cid, None)
      ensures conns == old(conns)[cid := DisconnectAll(old(conns)[cid])]
    {
      var c := conns[cid];
      var p := DisconnectPending(c.pending);
      DisconnectSomeAll(c);
      DisconnectAllKeepsCounters(c, handlers.Keys);
      DisconnectAllBindings(c);
      CountsReplace(conns, handlers, cid, DisconnectAll(c));
      c := c.(pending := p).(destroyed := true);
      OthersUpdate(conns, handlers.Keys, cid, c);
      conns := conns[cid := c];
    }

    /** Remove the connection once nothing is pending; until then, mark it draining. */
    method ConnDrain(cid: nat)
      requires ValidAt(cid, None) && DrainReady(conns[cid])
      modifies this`conns, this`retired
      ensures Valid()
      ensures conns == Place(old(conns), cid, Drained(old(conns)[cid]))
      ensures retired == old(retired) + DrainLog(old(conns)[cid])
    {
      var c := conns[cid];
      DrainKeepsInvariant(c, handlers.Keys);
      PlaceOk(conns, handlers.Keys, cid, Drained(c));
      CountsPlace(conns, handlers, cid, Drained(c));
      if c.pending != map[] {
        assert c.nstarted > c.ncompleted;
        conns := conns[cid := c.(draining := true)];
      } else {
        assert c.nstarted == c.ncompleted;
        conns := conns - {cid};
        if c.socketError.None? && c.serverError.None? {
          c := c.(destroyed := true);
        }
        SettledAppend(retired, [c]);
        retired := retired + [c];
      }
    }

    /**
      Dispatch one decoded message.  Messages for unknown connections and for
      connections that read end-of-stream or saw a socket error are dropped;
      client ERROR messages are ignored; an END message or a DATA message
      reusing a pending msgid terminates the connection; a malformed call or
      an unregistered method fails only that request; otherwise the request
      is started and left RUNNING for its handler.
     */
    method OnMessage(m: Inbound) returns (outcome: Disposition)
      requires Valid() && m.connId != 0 && IsObject(m.msg.data)
      modifies this`conns, this`handlers, this`retired
      modifies this`nignoredNoconn, this`nignoredBadconn, this`nignoredAborts
      ensures Valid()
      ensures outcome == Dispatch(old(conns), old(handlers).Keys, m)
      ensures nignoredNoconn == old(nignoredNoconn) + (if outcome.DroppedNoConn? then 1 else 0)
      ensures nignoredBadconn == old(nignoredBadconn) + (if outcome.DroppedBadConn? then 1 else 0)
      ensures nignoredAborts == old(nignoredAborts) + (if outcome.IgnoredAbort? then 1 else 0)
      ensures Tables(conns, handlers, retired) == Received(old(Tables(conns, handlers, retired)), m)
    {
      var cid := m.connId;
      if cid !in conns {
        nignoredNoconn := nignoredNoconn + 1;
        return DroppedNoConn;
      }
      var c := conns[cid];
      if c.ended || c.socketError.Some? {
        nignoredBadconn := nignoredBadconn + 1;
        return DroppedBadConn;
      }
      outcome := OnOpenMessage(m);
    }

    /**
      onMessage on a connection that is still open: an END message or a
      DATA message reusing a pending msgid terminates it, a client ERROR is
      ignored, and anything else is a new request.
     */
    method OnOpenMessage(m: Inbound) returns (outcome: Disposition)
      requires Valid() && Open(conns, m.connId) && IsObject(m.msg.data)
      modifies this`conns, this`handlers, this`retired, this`nignoredAborts
      ensures Valid()
      ensures outcome == Dispatch(old(conns), old(handlers).Keys, m)
      ensures nignoredAborts == old(nignoredAborts) + (if outcome.IgnoredAbort? then 1 else 0)
      ensures Tables(conns, handlers, retired) == Received(old(Tables(conns, handlers, retired)), m)
    {
      var cid := m.connId;
      ghost var t0 := Tables(conns, handlers, retired);
      if m.msg.status.END? {
        ReceivedTerminated(t0, m, UnexpectedStatus());
        ConnTerminate(cid, UnexpectedStatus());
        return TerminatedConn(UnexpectedStatus());
      }
      var msgid := m.msg.msgid;
      if m.msg.status.ERROR? {
        nignoredAborts := nignoredAborts + 1;
        return IgnoredAbort;
      }
      if msgid in conns[cid].pending {
        ReceivedTerminated(t0, m, DuplicateMsgid());
        ConnTerminate(cid, DuplicateMsgid());
        return TerminatedConn(DuplicateMsgid());
      }
      outcome := AcceptRequest(m);
    }

    /** onMessage once the message is known to be a new request: validate it, then start or fail it. */
    method AcceptRequest(m: Inbound) returns (outcome: Disposition)
      requires Valid() && m.connId in conns && IsObject(m.msg.data)
      requires !conns[m.connId].ended && conns[m.connId].socketError.None?
      requires m.msg.status.DATA? && m.msg.msgid !in conns[m.connId].pending
      modifies this`conns, this`handlers, this`retired
      ensures Valid()
      ensures outcome == Dispatch(old(conns), old(handlers).Keys, m)
      ensures outcome.FailedRequest? || outcome.StartedRequest?
      ensures Tables(conns, handlers, retired) == Received(old(Tables(conns, handlers, retired)), m)
    {
      var cid := m.connId;
      ghost var t0 := Tables(conns, handlers, retired);
      var req := NewRequest(m.msg.msgid);
      OthersOfAll(conns, handlers.Keys, cid);
      var call := ParseCall(m.msg.data);
      if call.None? {
        ReceivedFailed(t0, m, req, BadData());
        RejectRequest(cid, req, BadData());
        return FailedRequest(req, BadData());
      }

      req := Named(req, call.value);
      var name := call.value.name;
      if name !in handlers {
        ReceivedFailed(t0, m, req, BadMethod(name));
        RejectRequest(cid, req, BadMethod(name));
        return FailedRequest(req, BadMethod(name));
      }

      ReceivedStarted(t0, m, call.value);
      StartRequest(cid, req);
      return StartedRequest(call.value);
    }

    /** onMessage's last step: hand a validated request to its registered handler, leaving it RUNNING. */
    method StartRequest(cid: nat, req: Request)
      requires Shared() && cid in conns && OthersOk(conns, handlers.Keys, cid) && ConnOk(conns[cid], handlers.Keys)
      requires req.msgid !in conns[cid].pending && req.state.Init? && req.handler.None?
      requires req.error.None? && !req.blackhole
      requires req.rpcMethod.Some? && req.rpcMethod.value in handlers
      modifies this`conns, this`handlers
      ensures Valid()
      ensures conns == old(conns)[cid := Start(old(conns)[cid], Run(req))]
      ensures handlers == old(handlers)[req.rpcMethod.value := CountStart(old(handlers)[req.rpcMethod.value])]
    {
      var name := req.rpcMethod.value;
      CountsStart(conns, handlers, cid, Run(req));
      HandlersUpdate(handlers, name, CountStart(handlers[name]));
      handlers := handlers[name := CountStart(handlers[name])];
      var running := Run(req);
      StartKeepsCounters(conns[cid], running, handlers.Keys, None);
      PlaceOk(conns, handlers.Keys, cid, Some(Start(conns[cid], running)));
      conns := conns[cid := Start(conns[cid], running)];
    }

    /** onMessage's bad_data and bad_method paths: insert the new request and fail it at once. */
    method RejectRequest(cid: nat, req: Request, err: Error)
      requires Shared() && cid in conns && OthersOk(conns, handlers.Keys, cid) && ConnOk(conns[cid], handlers.Keys)
      requires req.msgid !in conns[cid].pending && req.state.Init? && req.handler.None? && !req.blackhole
      modifies this`conns, this`handlers, this`retired
      ensures Valid()
      ensures conns == Place(old(conns), cid, Rejected(old(conns)[cid], req, err))
      ensures retired == old(retired) + RejectLog(old(conns)[cid], req, err)
      ensures handlers == old(handlers)
    {
      var c := Start(conns[cid], req);
      StartKeepsCounters(conns[cid], req, handlers.Keys, Some(req.msgid));
      StartUnboundBindings(conns[cid], req);
      CountsReplace(conns, handlers, cid, c);
      OthersUpdate(conns, handlers.Keys, cid, c);
      conns := conns[cid := c];
      RequestFail(cid, req.msgid, err);
      PlaceOverwrite(old(conns), cid, c, Rejected(old(conns)[cid], req, err));
    }

    /** Fail a request that has not completed: write one ERROR message, then clean up. */
    method RequestFail(cid: nat, msgid: nat, err: Error)
      requires ValidAt(cid, Some(msgid)) && Lifecycle(conns[cid])
      requires msgid in conns[cid].pending && !conns[cid].pending[msgid].state.Complete?
      modifies this`conns, this`handlers, this`retired
      ensures Valid()
      ensures
        var c, r := old(conns)[cid], old(conns)[cid].pending[msgid];
        && conns == Place(old(conns), cid, AfterCleanup(Send(c, FailureMessage(r, err)), Failed(r, err)))
        && retired == old(retired) + CleanupLog(Send(c, FailureMessage(r, err)), Failed(r, err))
        && handlers == if r.handler.Some? then old(handlers)[r.handler.value := CountCompletion(old(handlers)[r.handler.value], true)]
                       else old(handlers)
    {
      var r := conns[cid].pending[msgid];
      var failed := Failed(r, err);
      var sent := Send(conns[cid], FailureMessage(r, err));
      CoreOkFrame(conns[cid], sent, handlers.Keys, Some(msgid));
      ReplaceKeepsCounters(sent, failed, handlers.Keys, Some(msgid));
      var c := sent.(pending := sent.pending[msgid := failed]);
      ReplaceBindings(sent, failed);
      CountsReplace(conns, handlers, cid, c);
      OthersUpdate(conns, handlers.Keys, cid, c);
      conns := conns[cid := c];
      RequestCleanup(cid, msgid);
      CleanupOverwrite(sent, failed);
      PlaceOverwrite(old(conns), cid, c, AfterCleanup(c, failed));
    }

    /** The handler ended its output: the RUNNING request completes. */
    method RequestComplete(cid: nat, msgid: nat)
      requires Valid() && cid in conns && msgid in conns[cid].pending
      modifies this`conns, this`handlers, this`retired
      ensures Valid()
      ensures
        var c, r := old(conns)[cid], old(conns)[cid].pending[msgid];
        && conns == Place(old(conns), cid, AfterCleanup(c, Completed(r)))
        && retired == old(retired) + CleanupLog(c, Completed(r))
        && handlers == old(handlers)[r.handler.value := CountCompletion(old(handlers)[r.handler.value], false)]
    {
      var r := conns[cid].pending[msgid];
      assert r.state.Running?;
      var done := Completed(r);
      CoreOkExempt(conns[cid], handlers.Keys, msgid);
      ReplaceKeepsCounters(conns[cid], done, handlers.Keys, Some(msgid));
      var c := conns[cid].(pending := conns[cid].pending[msgid := done]);
      ReplaceBindings(conns[cid], done);
      CountsReplace(conns, handlers, cid, c);
      OthersOfAll(conns, handlers.Keys, cid);
      OthersUpdate(conns, handlers.Keys, cid, c);
      conns := conns[cid := c];
      RequestCleanup(cid, msgid);
      CleanupOverwrite(old(conns)[cid], done);
      PlaceOverwrite(old(conns), cid, c, AfterCleanup(c, done));
    }

    /** Remove a completed request from pending, bump the counters, and re-drain a draining connection. */
    method RequestCleanup(cid: nat, msgid: nat)
      requires ValidAt(cid, Some(msgid)) && Lifecycle(conns[cid])
      requires msgid in conns[cid].pending && conns[cid].pending[msgid].state.Complete?
      modifies this`conns, this`handlers, this`retired
      ensures Valid()
      ensures conns == Place(old(conns), cid, AfterCleanup(old(conns)[cid], old(conns)[cid].pending[msgid]))
      ensures retired == old(retired) + CleanupLog(old(conns)[cid], old(conns)[cid].pending[msgid])
      ensures
        var r := old(conns)[cid].pending[msgid];
        handlers == if r.handler.Some? then old(handlers)[r.handler.value := CountCompletion(old(handlers)[r.handler.value], r.error.Some?)]
                    else old(handlers)
    {
      var r := conns[cid].pending[msgid];
      CountsCleanup(conns, handlers, cid, r, r.error.Some?);
      if r.handler.Some? {
        var name := r.handler.value;
        HandlersUpdate(handlers, name, CountCompletion(handlers[name], r.error.Some?));
        handlers := handlers[name := CountCompletion(handlers[name], r.error.Some?)];
      }
      CleanupEntry(cid, msgid);
    }

    /**
      requestCleanup's effect on the connection table, once the handler's
      counters already count the completion.
     */
    method CleanupEntry(cid: nat, msgid: nat)
      requires Basics() && cid in conns && OthersOk(conns, handlers.Keys, cid)
      requires CoreOk(conns[cid], handlers.Keys, Some(msgid)) && Lifecycle(conns[cid])
      requires msgid in conns[cid].pending && conns[cid].pending[msgid].state.Complete?
      requires HandlerCounts(conns[cid := Cleanup(conns[cid], conns[cid].pending[msgid])], handlers)
      modifies this`conns, this`retired
      ensures Valid()
      ensures conns == Place(old(conns), cid, AfterCleanup(old(conns)[cid], old(conns)[cid].pending[msgid]))
      ensures retired == old(retired) + CleanupLog(old(conns)[cid], old(conns)[cid].pending[msgid])
    {
      var r := conns[cid].pending[msgid];
      CleanupKeepsCounters(conns[cid], r, handlers.Keys);
      var c := Cleanup(conns[cid], r);
      OthersUpdate(conns, handlers.Keys, cid, c);
      conns := conns[cid := c];
      if c.draining {
        ConnDrain(cid);
        PlaceOverwrite(old(conns), cid, c, Drained(c));
      } else {
        PlaceOk(conns, handlers.Keys, cid, Some(c));
      }
    }

    /** A message written to an open connection's encoder: the connection's only change. */
    method Push(cid: nat, msg: Message)
      requires Valid() && cid in conns
      modifies this`conns
      ensures Valid()
      ensures conns == old(conns)[cid := Send(old(conns)[cid], msg)]
    {
      var c := conns[cid];
      CoreOkFrame(c, Send(c, msg), handlers.Keys, None);
      CountsReplace(conns, handlers, cid, Send(c, msg));
      OthersOfAll(conns, handlers.Keys, cid);
      PlaceOk(conns, handlers.Keys, cid, Some(Send(c, msg)));
      conns := conns[cid := Send(c, msg)];
    }

    /**
      The handler writes one item.  Once the request is disconnected the item
      is discarded; otherwise the response encoder turns an object into one
      DATA message and refuses anything else.
     */
    method HandlerWrite(cid: nat, msgid: nat, item: Json) returns (fault: Option<WriteFault>)
      requires Valid() && cid in conns && msgid in conns[cid].pending
      modifies this`conns
      ensures Valid()
      ensures
        var c, r := old(conns)[cid], old(conns)[cid].pending[msgid];
        && (fault.Some? <==> !r.blackhole && !IsObject(item))
        && (fault.Some? ==> fault.value == NotAnObject)
        && conns == old(conns)[cid := if r.blackhole || fault.Some? then c else Send(c, MakeMessage(r, Items([item])))]
    {
      var c := conns[cid];
      var r := c.pending[msgid];
      fault := None;
      if !r.blackhole {
        var res := Transform(r, item);
        match res
        case Err(e) =>
          fault := Some(e);
          assert conns[cid := c] == conns;
        case Ok(msg) =>
          Push(cid, msg);
      } else {
        assert conns[cid := c] == conns;
      }
    }

    /** The handler ends its output: an END message unless disconnected, then completion. */
    method HandlerEnd(cid: nat, msgid: nat)
      requires Valid() && cid in conns && msgid in conns[cid].pending
      modifies this`conns, this`handlers, this`retired
      ensures Valid()
      ensures
        var c, r := old(conns)[cid], old(conns)[cid].pending[msgid];
        var c' := if r.blackhole then c else Send(c, Flush(r));
        && conns == Place(old(conns), cid, AfterCleanup(c', Completed(r)))
        && retired == old(retired) + CleanupLog(c', Completed(r))
        && handlers == old(handlers)[r.handler.value := CountCompletion(old(handlers)[r.handler.value], false)]
    {
      var c := conns[cid];
      var r := c.pending[msgid];
      if !r.blackhole {
        var sent := Send(c, Flush(r));
        CoreOkFrame(c, sent, handlers.Keys, None);
        CountsReplace(conns, handlers, cid, sent);
        OthersOfAll(conns, handlers.Keys, cid);
        PlaceOk(conns, handlers.Keys, cid, Some(sent));
        conns := conns[cid := sent];
        RequestComplete(cid, msgid);
        PlaceOverwrite(old(conns), cid, sent, AfterCleanup(sent, Completed(r)));
      } else {
        RequestComplete(cid, msgid);
      }
    }

    /** The handler calls fail(err) on its context. */
    method HandlerFail(cid: nat, msgid: nat, err: Error)
      requires Valid() && cid in conns && msgid in conns[cid].pending
      modifies this`conns, this`handlers, this`retired
      ensures Valid()
      ensures
        var c, r := old(conns)[cid], old(conns)[cid].pending[msgid];
        && conns == Place(old(conns), cid, AfterCleanup(Send(c, FailureMessage(r, err)), Failed(r, err)))
        && retired == old(retired) + CleanupLog(Send(c, FailureMessage(r, err)), Failed(r, err))
        && handlers == old(handlers)[r.handler.value := CountCompletion(old(handlers)[r.handler.value], true)]
    {
      CoreOkExempt(conns[cid], handlers.Keys, msgid);
      OthersOfAll(conns, handlers.Keys, cid);
      RequestFail(cid, msgid, err);
    }
  }

  /** A server, not closed, with the method "echo" registered and one new connection. */
  method ServerWithConnection() returns (s: FastServer, cid: nat)
    ensures fresh(s) && s.Valid() && !s.closed
    ensures s.handlers.Keys == {"echo"} && s.conns == map[cid := NewConn(cid)]
  {
    s := new FastServer();
    s.RegisterRpcMethod("echo");
    assert NextConnId(s.connid) == 1;
    cid := s.ConnCreate();
  }

  /** A server with one connection on which a call to a registered method, msgid 5, is RUNNING. */
  method ServerWithRunningCall() returns (s: FastServer, cid: nat)
    ensures fresh(s) && s.Valid() && !s.closed && Open(s.conns, cid)
    ensures 5 in s.conns[cid].pending && s.conns[cid].serverError.None?
    ensures s.conns[cid].pending[5].state == Running
    ensures s.conns[cid].pending[5].error.None? && !s.conns[cid].pending[5].blackhole
  {
    s, cid := ServerWithConnection();
    var data := JObject(map["m" := JObject(map["name" := JString("echo")]), "d" := JArray([])]);
    var call := Call("echo", []);
    assert ParseCall(data) == Some(call);
    var m := Inbound(cid, Message(5, DATA, data));
    assert Dispatch(s.conns, s.handlers.Keys, m) == StartedRequest(call);
    var t := Tables(s.conns, s.handlers, s.retired);
    ReceivedStarted(t, m, call);
    var outcome := s.OnMessage(m);
  }

  /**
    The disconnect-twice scenario on the server itself: a connection with a
    RUNNING request sees a socket error; the request is disconnected but stays
    pending, and the connection keeps no server error, so close() terminates
    it and requestDisconnect, as written, is reached a second time for the
    same request.  `second` is that second as-written disconnect.
   */
  method SocketErrorThenClose() returns (second: Checked<Request>)
    ensures second.AssertionFailed?
  {
    var s, cid := ServerWithRunningCall();
    var err := Error("Error", "ECONNRESET", None, JNull, None);
    ghost var d := DisconnectAll(s.conns[cid].(socketError := Some(err)));
    assert 5 in d.pending && d.pending[5] == Disconnect(s.conns[cid].pending[5]);
    s.OnConnectionError(cid, err);
    assert Lookup(s.conns, cid) == Drained(d) == Some(d.(draining := true));
    second := DisconnectAsWritten(s.conns[cid].pending[5]);
    assert s.conns[cid].serverError.None?;  // so close() takes connTerminate's disconnect branch
    s.Close();
  }
}
