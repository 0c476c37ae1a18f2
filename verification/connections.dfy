/**
  Server-side connections (FastRpcConnection) as values: the pending-request
  map, the counters, the three terminal-cause markers, the draining flag, an
  abstract "socket destroyed" flag and the sequence of messages written to the
  connection's message encoder.

  The functions below are the specifications of the connection updates the
  server performs; the lemmas state what those updates preserve and achieve.
 */
module Connections {
  import opened Messages
  import opened Requests
  import opened Responses

  datatype Conn = Conn(
    id: nat,
    pending: map<nat, Request>,
    nstarted: nat,
    ncompleted: nat,
    nfailed: nat,
    nerrors: nat,
    ended: bool,
    socketError: Option<Error>,
    serverError: Option<Error>,
    draining: bool,
    destroyed: bool,
    outbound: seq<Message>)

  /**
    A freshly accepted connection: nothing pending, every counter at 0 (the
    failed-request count `nerrors` included), open and not draining.
   */
  function NewConn(id: nat): (c: Conn)
    ensures c.id == id && c.pending == map[] && c.outbound == []
    ensures c.nstarted == 0 && c.ncompleted == 0 && c.nfailed == 0 && c.nerrors == 0
    ensures !Abandoned(c) && !c.draining && !c.destroyed
    ensures Lifecycle(c) && c.nstarted == c.ncompleted + |c.pending|
  {
    Conn(id, map[], 0, 0, 0, 0, false, None, None, false, false, [])
  }

  /** A socket error or a server-initiated error has been recorded. */
  predicate Errored(c: Conn)
  {
    c.socketError.Some? || c.serverError.Some?
  }

  /** The connection has left normal operation by one of its three paths. */
  predicate Abandoned(c: Conn)
  {
    c.ended || Errored(c)
  }

  /**
    A pending entry is keyed by its own msgid, a request bound to a handler is
    bound to the handler of its own (registered) method, a RUNNING request has
    a handler and no error, and a request is disconnected only once its
    connection has seen an error.  Every entry is RUNNING, except possibly the
    one `exempt` entry that the server is in the middle of creating or
    completing.
   */
  ghost predicate EntryOk(r: Request, m: nat, names: set<string>, exempt: bool, errored: bool)
  {
    && r.msgid == m
    && (r.handler.Some? ==> r.rpcMethod == r.handler && r.handler.value in names)
    && (r.state.Running? ==> r.handler.Some? && r.error.None?)
    && (exempt || r.state.Running?)
    && (r.blackhole ==> errored)
  }

  /** The counter invariant: started = completed + pending, with well-formed entries. */
  ghost predicate CoreOk(c: Conn, names: set<string>, exempt: Option<nat>)
  {
    && c.nstarted == c.ncompleted + |c.pending|
    && c.nerrors <= c.ncompleted
    && c.nfailed == 0
    && (forall m :: m in c.pending ==> EntryOk(c.pending[m], m, names, exempt == Some(m), Errored(c)))
  }

  /** What connDrain needs: a terminal cause, and the socket destroyed exactly when an error was recorded. */
  ghost predicate DrainReady(c: Conn)
  {
    && Abandoned(c)
    && (c.destroyed <==> Errored(c))
  }

  /**
    The lifecycle invariant of a connection still in the server's table: it
    is draining exactly when it has been abandoned, a draining connection
    still has pending requests, and its socket has been destroyed exactly
    when an error was recorded.
   */
  ghost predicate Lifecycle(c: Conn)
  {
    && (c.draining <==> Abandoned(c))
    && (c.draining ==> c.pending != map[])
    && (c.destroyed <==> Errored(c))
  }

  ghost predicate ConnOk(c: Conn, names: set<string>)
  {
    CoreOk(c, names, None) && Lifecycle(c)
  }

  /** The final state of a connection removed from the table. */
  ghost predicate Settled(c: Conn)
  {
    && c.pending == map[]
    && c.nstarted == c.ncompleted
    && c.destroyed
    && Abandoned(c)
  }

  /** A request inserted into the pending map; nstarted goes up. */
  function Start(c: Conn, r: Request): (d: Conn)
    ensures d.pending.Keys == c.pending.Keys + {r.msgid} && d.pending[r.msgid] == r
    ensures forall m :: m in c.pending && m != r.msgid ==> d.pending[m] == c.pending[m]
    ensures d.nstarted == c.nstarted + 1
    ensures r.msgid !in c.pending && c.nstarted == c.ncompleted + |c.pending| ==> d.nstarted == d.ncompleted + |d.pending|
    ensures d.(pending := c.pending, nstarted := c.nstarted) == c
  {
    c.(nstarted := c.nstarted + 1, pending := c.pending[r.msgid := r])
  }

  /** A message written to the connection's message encoder. */
  function Send(c: Conn, msg: Message): (d: Conn)
    ensures |d.outbound| == |c.outbound| + 1 && d.outbound[..|c.outbound|] == c.outbound
    ensures d.outbound[|c.outbound|] == msg
    ensures d.(outbound := c.outbound) == c
  {
    c.(outbound := c.outbound + [msg])
  }

  /** requestCleanup's update of the connection for a completed request. */
  function Cleanup(c: Conn, r: Request): (d: Conn)
    ensures d.pending.Keys == c.pending.Keys - {r.msgid}
    ensures forall m :: m in d.pending ==> d.pending[m] == c.pending[m]
    ensures d.nstarted == c.nstarted && d.ncompleted == c.ncompleted + 1
    ensures d.nerrors == c.nerrors + (if r.error.Some? then 1 else 0)
    ensures r.msgid in c.pending && c.nstarted == c.ncompleted + |c.pending| ==> d.nstarted == d.ncompleted + |d.pending|
    ensures d.(pending := c.pending, ncompleted := c.ncompleted, nerrors := c.nerrors) == c
  {
    c.(pending := c.pending - {r.msgid},
       ncompleted := c.ncompleted + 1,
       nerrors := if r.error.Some? then c.nerrors + 1 else c.nerrors)
  }

  /** connDisconnectRequests: every pending request disconnected, then the socket destroyed. */
  function DisconnectAll(c: Conn): (d: Conn)
    ensures d.pending.Keys == c.pending.Keys && d.destroyed
    ensures forall m :: m in d.pending ==> d.pending[m] == Disconnect(c.pending[m])
    ensures forall m :: m in d.pending && c.pending[m].state.Running? ==> d.pending[m].blackhole
    ensures d.(pending := c.pending, destroyed := c.destroyed) == c
  {
    c.(pending := map m | m in c.pending :: Disconnect(c.pending[m]), destroyed := true)
  }

  /** connTerminate's update before draining. */
  function Terminate(c: Conn, err: Error): (t: Conn)
    ensures t.serverError == Some(err) && t.destroyed
    ensures t.pending.Keys == c.pending.Keys
    ensures forall m :: m in t.pending && c.pending[m].state.Running? ==> t.pending[m].blackhole
    ensures t.(pending := c.pending, serverError := c.serverError, destroyed := c.destroyed) == c
  {
    DisconnectAll(c.(serverError := Some(err)))
  }

  /** connDrain: the connection as it stays in the table, or None once it is removed. */
  function Drained(c: Conn): (o: Option<Conn>)
    ensures o.None? <==> c.pending == map[]
    ensures o.Some? ==> o.value.draining && o.value.(draining := c.draining) == c
  {
    if c.pending != map[] then Some(c.(draining := true)) else None
  }

  /** A connection being removed: its socket is destroyed unless an error was recorded. */
  function Retire(c: Conn): (d: Conn)
    ensures d.destroyed <==> c.destroyed || !Errored(c)
    ensures Errored(c) ==> d == c
    ensures d.(destroyed := c.destroyed) == c
  {
    if c.socketError.None? && c.serverError.None? then c.(destroyed := true) else c
  }

  /** The connections connDrain removes (none or one). */
  function DrainLog(c: Conn): seq<Conn>
  {
    if c.pending != map[] then [] else [Retire(c)]
  }

  /** connTerminate as a whole: nothing happens once a server error is recorded. */
  function Terminated(c: Conn, err: Error): (o: Option<Conn>)
    ensures c.serverError.Some? ==> o == Some(c)
    ensures c.serverError.None? ==> (o.None? <==> c.pending == map[])
    ensures c.serverError.None? && o.Some? ==>
      o.value.serverError == Some(err) && o.value.destroyed && o.value.draining && o.value.pending.Keys == c.pending.Keys
  {
    if c.serverError.Some? then Some(c) else Drained(Terminate(c, err))
  }

  function TerminateLog(c: Conn, err: Error): seq<Conn>
  {
    if c.serverError.Some? then [] else DrainLog(Terminate(c, err))
  }

  /** requestCleanup as a whole: re-drain a draining connection. */
  function AfterCleanup(c: Conn, r: Request): (o: Option<Conn>)
    ensures o.None? <==> c.draining && c.pending.Keys <= {r.msgid}
    ensures o.Some? ==> o.value.pending.Keys == c.pending.Keys - {r.msgid} && o.value.ncompleted == c.ncompleted + 1
  {
    var d := Cleanup(c, r);
    if d.draining then Drained(d) else Some(d)
  }

  function CleanupLog(c: Conn, r: Request): seq<Conn>
  {
    var d := Cleanup(c, r);
    if d.draining then DrainLog(d) else []
  }

  /** A request created by onMessage and immediately failed with `err`. */
  function Rejected(c: Conn, r: Request, err: Error): (o: Option<Conn>)
    ensures o.None? <==> c.draining && c.pending.Keys <= {r.msgid}
    ensures o.Some? ==>
      && o.value.pending.Keys == c.pending.Keys - {r.msgid}
      && o.value.nstarted == c.nstarted + 1 && o.value.ncompleted == c.ncompleted + 1
      && o.value.nerrors == c.nerrors + 1
      && o.value.outbound == c.outbound + [FailureMessage(r, err)]
  {
    AfterCleanup(Send(Start(c, r), FailureMessage(r, err)), Failed(r, err))
  }

  function RejectLog(c: Conn, r: Request, err: Error): seq<Conn>
  {
    CleanupLog(Send(Start(c, r), FailureMessage(r, err)), Failed(r, err))
  }

  /** Looking a connection up in the table. */
  function Lookup(t: map<nat, Conn>, cid: nat): Option<Conn>
  {
    if cid in t then Some(t[cid]) else None
  }

  /** The table with the connection `cid` replaced, or removed when `o` is None. */
  function Place(t: map<nat, Conn>, cid: nat, o: Option<Conn>): (t': map<nat, Conn>)
    ensures Lookup(t', cid) == o
    ensures forall k :: k != cid ==> Lookup(t', k) == Lookup(t, k)
    ensures t'.Keys <= t.Keys + {cid}
  {
    match o
    case Some(c) => t[cid := c]
    case None => t - {cid}
  }

  /** Registering more handlers keeps every connection's invariant. */
  lemma CoreOkMonotone(c: Conn, names: set<string>, names': set<string>, exempt: Option<nat>)
    requires CoreOk(c, names, exempt) && names <= names'
    ensures CoreOk(c, names', exempt)
  {
  }

  /**
    Updates that leave the pending map and the counters alone (recording a
    terminal cause, draining, destroying the socket, writing a message) keep
    the counter invariant, as long as a recorded error is not forgotten.
   */
  lemma CoreOkFrame(c: Conn, c': Conn, names: set<string>, exempt: Option<nat>)
    requires CoreOk(c, names, exempt)
    requires c'.pending == c.pending && c'.nstarted == c.nstarted && c'.ncompleted == c.ncompleted
    requires c'.nerrors == c.nerrors && c'.nfailed == c.nfailed
    requires Errored(c) ==> Errored(c')
    ensures CoreOk(c', names, exempt)
  {
    forall m | m in c'.pending
      ensures EntryOk(c'.pending[m], m, names, exempt == Some(m), Errored(c'))
    {
      assert EntryOk(c.pending[m], m, names, exempt == Some(m), Errored(c));
    }
  }

  /** Inserting a fresh request keeps started = completed + pending. */
  lemma StartKeepsCounters(c: Conn, r: Request, names: set<string>, exempt: Option<nat>)
    requires CoreOk(c, names, None) && r.msgid !in c.pending
    requires EntryOk(r, r.msgid, names, exempt == Some(r.msgid), Errored(c))
    requires forall m :: m in c.pending ==> exempt != Some(m)
    ensures CoreOk(Start(c, r), names, exempt)
    ensures Lifecycle(c) ==> Lifecycle(Start(c, r))
  {
    assert |c.pending[r.msgid := r]| == |c.pending| + 1;
  }

  /** An entry that is fine as it is is also fine as the exempt one. */
  lemma CoreOkExempt(c: Conn, names: set<string>, m: nat)
    requires CoreOk(c, names, None)
    ensures CoreOk(c, names, Some(m))
  {
  }

  /**
    Replacing a pending entry by a well-formed one (requestDisconnect's
    blackhole, requestComplete's and requestFail's COMPLETE) keeps the counter
    invariant and the lifecycle invariant.
   */
  lemma ReplaceKeepsCounters(c: Conn, r: Request, names: set<string>, exempt: Option<nat>)
    requires CoreOk(c, names, exempt) && r.msgid in c.pending
    requires EntryOk(r, r.msgid, names, exempt == Some(r.msgid), Errored(c))
    ensures CoreOk(c.(pending := c.pending[r.msgid := r]), names, exempt)
    ensures Lifecycle(c) ==> Lifecycle(c.(pending := c.pending[r.msgid := r]))
  {
    assert |c.pending[r.msgid := r]| == |c.pending|;
  }

  /** Overwriting the entry that is cleaned up makes no difference to the cleanup. */
  lemma CleanupOverwrite(c: Conn, r: Request)
    requires r.msgid in c.pending
    ensures Cleanup(c.(pending := c.pending[r.msgid := r]), r) == Cleanup(c, r)
  {
    assert c.pending[r.msgid := r] - {r.msgid} == c.pending - {r.msgid};
  }

  /**
    requestCleanup keeps the counter invariant: the completed request leaves
    the pending map as ncompleted goes up, and nerrors counts exactly the
    completed requests that failed.
   */
  lemma CleanupKeepsCounters(c: Conn, r: Request, names: set<string>)
    requires CoreOk(c, names, Some(r.msgid)) && r.msgid in c.pending
    ensures CoreOk(Cleanup(c, r), names, None)
    ensures Cleanup(c, r).nerrors == c.nerrors + (if r.error.Some? then 1 else 0)
    ensures Lifecycle(c) && c.draining ==> DrainReady(Cleanup(c, r))
    ensures Lifecycle(c) && !c.draining ==> Lifecycle(Cleanup(c, r))
  {
    var p := c.pending - {r.msgid};
    assert p.Keys == c.pending.Keys - {r.msgid};
    assert |p| == |c.pending| - 1;
  }

  /** The pending map with the requests in `done` disconnected. */
  function DisconnectSome(p: map<nat, Request>, done: set<nat>): (p': map<nat, Request>)
    ensures p'.Keys == p.Keys
  {
    map m | m in p :: if m in done then Disconnect(p[m]) else p[m]
  }

  /** connDisconnectRequests' loop: one more request disconnected. */
  lemma DisconnectStep(p: map<nat, Request>, done: set<nat>, m: nat)
    requires m in p
    ensures DisconnectSome(p, done)[m := Disconnect(DisconnectSome(p, done)[m])] == DisconnectSome(p, done + {m})
  {
    DisconnectIdempotent(p[m]);
  }

  /** Once every request has been disconnected, the loop has computed connDisconnectRequests. */
  lemma DisconnectSomeAll(c: Conn)
    ensures c.(pending := DisconnectSome(c.pending, c.pending.Keys)).(destroyed := true) == DisconnectAll(c)
  {
  }

  /** Disconnecting requests of a connection that saw an error keeps the counter invariant. */
  lemma DisconnectKeepsCounters(c: Conn, names: set<string>, done: set<nat>)
    requires CoreOk(c, names, None) && Errored(c)
    ensures CoreOk(c.(pending := DisconnectSome(c.pending, done)), names, None)
  {
    var p := DisconnectSome(c.pending, done);
    assert |p| == |p.Keys| == |c.pending.Keys| == |c.pending|;
  }

  /** connDisconnectRequests keeps the counters and disconnects every RUNNING request. */
  lemma DisconnectAllKeepsCounters(c: Conn, names: set<string>)
    requires CoreOk(c, names, None) && Errored(c)
    ensures CoreOk(DisconnectAll(c), names, None)
    ensures DisconnectAll(c).pending.Keys == c.pending.Keys
    ensures forall m :: m in DisconnectAll(c).pending ==> DisconnectAll(c).pending[m].blackhole
  {
    DisconnectKeepsCounters(c, names, c.pending.Keys);
    DisconnectSomeAll(c);
  }

  /**
    connDrain: a connection with pending requests stays and only becomes
    draining; one without is removed, with started = completed and its socket
    destroyed (by connDrain itself only when no error was recorded).
   */
  lemma DrainKeepsInvariant(c: Conn, names: set<string>)
    requires CoreOk(c, names, None) && DrainReady(c)
    ensures c.pending != map[] ==> Drained(c) == Some(c.(draining := true)) && ConnOk(c.(draining := true), names)
    ensures c.pending != map[] ==> c.nstarted > c.ncompleted && DrainLog(c) == []
    ensures c.pending == map[] ==> Drained(c).None? && c.nstarted == c.ncompleted
    ensures c.pending == map[] ==> DrainLog(c) == [Retire(c)] && Settled(Retire(c))
    ensures Retire(c).destroyed && (Errored(c) ==> Retire(c) == c)
  {
    if c.pending != map[] {
      assert |c.pending| > 0 by {
        var m :| m in c.pending;
      }
    }
  }

  /**
    connTerminate: no request is created or completed; a connection with a
    server error recorded is left alone; otherwise the error is recorded,
    every RUNNING request is disconnected, the socket is destroyed, and the
    connection is removed exactly when nothing is pending.
   */
  lemma TerminatedEffect(c: Conn, err: Error)
    ensures c.serverError.Some? ==> Terminated(c, err) == Some(c) && TerminateLog(c, err) == []
    ensures c.serverError.None? ==> (Terminated(c, err).None? <==> c.pending == map[])
    ensures c.serverError.None? && Terminated(c, err).Some? ==>
      var t := Terminated(c, err).value;
      && t.nstarted == c.nstarted && t.ncompleted == c.ncompleted
      && t.pending.Keys == c.pending.Keys
      && t.serverError == Some(err) && t.destroyed && t.draining
      && t.outbound == c.outbound
      && (forall m :: m in t.pending && c.pending[m].state.Running? ==> t.pending[m].blackhole)
    ensures c.serverError.None? && c.pending == map[] ==>
      TerminateLog(c, err) == [Terminate(c, err)]
  {
    var t := Terminate(c, err);
    assert t.pending.Keys == c.pending.Keys;
    if c.serverError.None? && c.pending == map[] {
      assert t.pending == map[];
    }
  }

  /**
    A bad request fails only that request: it is started and completed in the
    same step, so the pending map is unchanged, nstarted, ncompleted and
    nerrors each go up by one, and one ERROR message is written; the
    connection is never removed by it.
   */
  lemma RejectedEffect(c: Conn, r: Request, err: Error)
    requires r.msgid !in c.pending
    requires c.draining ==> c.pending != map[]
    ensures Rejected(c, r, err) == Some(c.(nstarted := c.nstarted + 1,
                                          ncompleted := c.ncompleted + 1,
                                          nerrors := c.nerrors + 1,
                                          outbound := c.outbound + [FailureMessage(r, err)]))
    ensures RejectLog(c, r, err) == []
  {
    var s := Send(Start(c, r), FailureMessage(r, err));
    var d := Cleanup(s, Failed(r, err));
    assert s.pending - {r.msgid} == c.pending;
    assert d == c.(nstarted := c.nstarted + 1, ncompleted := c.ncompleted + 1, nerrors := c.nerrors + 1, outbound := c.outbound + [FailureMessage(r, err)]);
    assert !d.draining || d.pending != map[];
    assert Rejected(c, r, err) == Some(d);
  }

  /** A draining connection is removed when its last pending request is cleaned up, and not before. */
  lemma CleanupOfLastRemoves(c: Conn, r: Request)
    requires c.draining && r.msgid in c.pending
    ensures AfterCleanup(c, r).None? <==> c.pending.Keys == {r.msgid}
    ensures c.pending.Keys == {r.msgid} ==> CleanupLog(c, r) == [Retire(Cleanup(c, r))]
    ensures c.pending.Keys != {r.msgid} ==> AfterCleanup(c, r) == Some(Cleanup(c, r))
  {
    var d := Cleanup(c, r);
    assert d.pending.Keys == c.pending.Keys - {r.msgid};
    if c.pending.Keys == {r.msgid} {
      assert d.pending == map[];
    } else {
      var m :| m in c.pending.Keys && m != r.msgid;
      assert m in d.pending;
    }
  }

  /** The handler that the pending request `m` of a connection is bound to, if any. */
  function Binding(c: Conn, m: nat): Option<string>
  {
    if m in c.pending then c.pending[m].handler else None
  }

  /** Two versions of a connection whose pending requests are bound to the same handlers. */
  ghost predicate SameBindings(c: Conn, c': Conn)
  {
    forall m :: Binding(c', m) == Binding(c, m)
  }

  /**
    The updates that neither start nor clean up a request bound to a handler
    keep every binding: disconnecting, completing or failing a request in
    place, and inserting or removing one that no handler serves.
   */
  lemma DisconnectAllBindings(c: Conn)
    ensures SameBindings(c, DisconnectAll(c))
  {
  }

  lemma ReplaceBindings(c: Conn, r: Request)
    requires r.msgid in c.pending && r.handler == c.pending[r.msgid].handler
    ensures SameBindings(c, c.(pending := c.pending[r.msgid := r]))
  {
  }

  lemma StartUnboundBindings(c: Conn, r: Request)
    requires r.msgid !in c.pending && r.handler.None?
    ensures SameBindings(c, Start(c, r))
  {
  }

  lemma CleanupUnboundBindings(c: Conn, r: Request)
    requires r.msgid in c.pending && c.pending[r.msgid].handler.None?
    ensures SameBindings(c, Cleanup(c, r))
  {
  }

  /** A JavaScript number property: never assigned, NaN, or a count. */
  datatype JsNumber = Undefined | NaN | Num(n: nat)

  /** The `++` operator: only a number counts on, anything else becomes NaN. */
  function JsIncrement(x: JsNumber): (y: JsNumber)
    ensures y.Num? <==> x.Num?
    ensures x.Num? ==> y.n == x.n + 1
  {
    match x
    case Undefined => NaN
    case NaN => NaN
    case Num(n) => Num(n + 1)
  }

  /**
    requestCleanup's `fc_nerrors++` as written, on the connection's error
    count as the source keeps it: a JavaScript number that the connection's
    constructor never assigns, so Undefined on a new connection.
   */
  function CleanupErrorsAsWritten(n: JsNumber, r: Request): (n': JsNumber)
    ensures r.error.None? ==> n' == n
    ensures r.error.Some? ==> (n'.Num? <==> n.Num?)
  {
    if r.error.Some? then JsIncrement(n) else n
  }

  /** The number of failed requests among `rs`. */
  function NumFailed(rs: seq<Request>): nat
  {
    if rs == [] then 0 else NumFailed(rs[..|rs| - 1]) + (if rs[|rs| - 1].error.Some? then 1 else 0)
  }

  /** The connection once requestCleanup has run for each of `rs`, in order. */
  function Cleanups(c: Conn, rs: seq<Request>): (d: Conn)
    ensures d.ncompleted == c.ncompleted + |rs|
  {
    if rs == [] then c else Cleanup(Cleanups(c, rs[..|rs| - 1]), rs[|rs| - 1])
  }

  /** The error count as written once requestCleanup has run for each of `rs`, in order. */
  function CleanupsErrorsAsWritten(n: JsNumber, rs: seq<Request>): JsNumber
  {
    if rs == [] then n else CleanupErrorsAsWritten(CleanupsErrorsAsWritten(n, rs[..|rs| - 1]), rs[|rs| - 1])
  }

  /**
    Over any run of cleanups, the model's error count goes up by the number
    of failed requests, while the count as written, starting from anything
    but a number, stays where it was until the first failure and is NaN from
    then on.
   */
  lemma {:induction false} ErrorCountAsWritten(c: Conn, n: JsNumber, rs: seq<Request>)
    requires !n.Num?
    ensures Cleanups(c, rs).nerrors == c.nerrors + NumFailed(rs)
    ensures CleanupsErrorsAsWritten(n, rs) == if NumFailed(rs) == 0 then n else NaN
  {
    if rs != [] {
      ErrorCountAsWritten(c, n, rs[..|rs| - 1]);
    }
  }

  /**
    The discrepancy: a bad request on a new connection (the bad-request path
    of onMessage) leaves the model's error count at 1, while the count as
    written, never initialised, becomes NaN, and stays NaN over any later
    cleanups.
   */
  lemma UninitialisedCounterIsNaN(id: nat, r: Request, err: Error, later: seq<Request>)
    ensures Rejected(NewConn(id), r, err).Some? && Rejected(NewConn(id), r, err).value.nerrors == 1
    ensures CleanupErrorsAsWritten(Undefined, Failed(r, err)) == NaN
    ensures Cleanups(Rejected(NewConn(id), r, err).value, later).nerrors == 1 + NumFailed(later)
    ensures CleanupsErrorsAsWritten(NaN, later) == NaN
  {
    RejectedEffect(NewConn(id), r, err);
    ErrorCountAsWritten(Rejected(NewConn(id), r, err).value, NaN, later);
  }
}
