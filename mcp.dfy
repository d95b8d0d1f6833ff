/**
 * `MCPClient`: the connection to the browser-automation server as a small
 * state machine over `_initialized`, `tools`, `session`,
 * `_connection_error` and `_cleanup_task`.  The subprocess, the stdio
 * streams and the background task are replaced by a `Handshake` that says
 * what the task achieves, and the clock by the count of 0.1-second polls.
 */
module Mcp {
  import opened Text

  /** A tool the server advertises. */
  datatype McpTool = McpTool(name: string, description: string)

  /** The background task: still running, asked to stop, or finished. */
  datatype TaskState = Running | Cancelled | Done

  /** What the background task achieves once started: the stdio client
      fails before a session exists (the task dies); or a session opens
      but `initialize`/`list_tools` never answer; or they answer during the
      sleep that follows the first `after` polls. */
  datatype Handshake =
    | NoSession
    | Stalls(session: nat)
    | Completes(session: nat, after: nat, listed: seq<McpTool>)

  /** The reply of `session.call_tool`. */
  datatype ToolReply = Returned(result: string) | Failed(message: string)

  /** The exceptions the client raises. */
  datatype Raised =
    | TimeoutErr(message: string)
    | RuntimeErr(message: string)
    | ValueErr(message: string)
    | CallFailed(message: string)

  datatype Result<T> = Ok(value: T) | Err(error: Raised)

  /** The client's fields; `tools` is a dict, kept in insertion order. */
  datatype McpState = McpState(session: Option<nat>, tools: seq<(string, McpTool)>, initialized: bool,
                               connectionError: Option<string>, cleanupTask: Option<TaskState>)

  /** Line 47: the default of `connect`'s `timeout`, in seconds. */
  const DefaultConnectTimeout := 120

  /** Polls every 0.1 seconds: the last poll that does not time out. */
  function PollLimit(timeout: nat): nat { 10 * timeout }

  function TimeoutMessage(timeout: nat): string {
    "Connection initialization timeout after " + NatToDecimal(timeout) + "s. This may happen if:\n"
    + "  1. npx is downloading chrome-devtools-mcp (first run)\n"
    + "  2. Chrome is slow to start\n"
    + "  3. Network issues\n"
    + "Try running manually: npx -y chrome-devtools-mcp@latest"
  }

  // ---------------------------------------------------------------------
  // The tool table

  function Keys(d: seq<(string, McpTool)>): (r: seq<string>)
    ensures |r| == |d| && forall i :: 0 <= i < |d| ==> r[i] == d[i].0
  {
    if d == [] then [] else Keys(d[..|d| - 1]) + [d[|d| - 1].0]
  }

  /** Where key `k` stands in `d`, if it is a key. */
  function IndexOf(d: seq<(string, McpTool)>, k: string): (r: Option<nat>)
    ensures r.Some? ==> r.value < |d| && d[r.value].0 == k
    ensures r.None? <==> k !in Keys(d)
    decreases |d|
  {
    if d == [] then None
    else if d[|d| - 1].0 == k then Some(|d| - 1)
    else IndexOf(d[..|d| - 1], k)
  }

  /** `d[k] = v`: replaces the value in place when `k` is a key, else
      appends the entry. */
  function Put(d: seq<(string, McpTool)>, k: string, v: McpTool): seq<(string, McpTool)> {
    match IndexOf(d, k)
    case Some(i) => d[i := (k, v)]
    case None => d + [(k, v)]
  }

  /** Line 110: `{tool.name: tool for tool in tools}`. */
  function ToolTable(listed: seq<McpTool>): seq<(string, McpTool)> {
    if listed == [] then []
    else
      var last := listed[|listed| - 1];
      Put(ToolTable(listed[..|listed| - 1]), last.name, last)
  }

  predicate DistinctKeys(d: seq<(string, McpTool)>) {
    forall i, j :: 0 <= i < j < |d| ==> d[i].0 != d[j].0
  }

  /** Where the last tool named `k` stands in `listed`, if any. */
  function LastNamed(listed: seq<McpTool>, k: string): (r: Option<nat>)
    ensures r.Some? ==> r.value < |listed| && listed[r.value].name == k
    ensures r.Some? ==> forall j :: r.value < j < |listed| ==> listed[j].name != k
    ensures r.None? ==> forall j :: 0 <= j < |listed| ==> listed[j].name != k
  {
    if listed == [] then None
    else if listed[|listed| - 1].name == k then Some(|listed| - 1)
    else LastNamed(listed[..|listed| - 1], k)
  }

  /** Dict assignment keeps the keys distinct and makes `k` a key, adding
      an entry only when `k` was not one. */
  lemma {:induction false} PutKeys(d: seq<(string, McpTool)>, k: string, v: McpTool, r: seq<(string, McpTool)>)
    requires DistinctKeys(d) && r == Put(d, k, v)
    ensures DistinctKeys(r)
    ensures k in Keys(r) && (k in Keys(d) <==> |r| == |d|)
  {
    match IndexOf(d, k)
    case Some(i) =>
      assert r[i] == (k, v);
    case None =>
      assert r[|d|] == (k, v);
  }

  /** Dict assignment: `k` maps to `v`, and every other key keeps its
      place and its value. */
  lemma {:induction false} PutValues(d: seq<(string, McpTool)>, k: string, v: McpTool, r: seq<(string, McpTool)>)
    requires DistinctKeys(d) && r == Put(d, k, v)
    ensures forall i :: 0 <= i < |r| && r[i].0 == k ==> r[i].1 == v
    ensures forall i :: 0 <= i < |r| && r[i].0 != k ==> i < |d| && r[i] == d[i]
    ensures forall i :: 0 <= i < |d| && d[i].0 != k ==> i < |r| && r[i] == d[i]
  {
  }

  /** Line 110: the table has one entry per advertised name. */
  lemma {:induction false} ToolTableKeys(listed: seq<McpTool>, d: seq<(string, McpTool)>)
    requires d == ToolTable(listed)
    ensures DistinctKeys(d)
    ensures forall k :: k in Keys(d) <==> LastNamed(listed, k).Some?
    decreases |listed|
  {
    if listed != [] {
      var n := |listed| - 1;
      var last := listed[n];
      var d0 := ToolTable(listed[..n]);
      ToolTableKeys(listed[..n], d0);
      PutKeys(d0, last.name, last, d);
      PutValues(d0, last.name, last, d);
      forall k ensures k in Keys(d) <==> LastNamed(listed, k).Some? {
        if k != last.name {
          assert LastNamed(listed, k) == LastNamed(listed[..n], k);
          if k in Keys(d) {
            var i :| 0 <= i < |d| && Keys(d)[i] == k;
            assert Keys(d0)[i] == k;
          }
          if k in Keys(d0) {
            var i :| 0 <= i < |d0| && Keys(d0)[i] == k;
            assert Keys(d)[i] == k;
          }
        }
      }
    }
  }

  /** Line 110: each entry of the table holds the last tool listed under
      its name. */
  lemma {:induction false} ToolTableValues(listed: seq<McpTool>, d: seq<(string, McpTool)>)
    requires d == ToolTable(listed)
    ensures forall i :: 0 <= i < |d| ==>
      LastNamed(listed, d[i].0).Some? && d[i].1 == listed[LastNamed(listed, d[i].0).value]
    decreases |listed|
  {
    if listed != [] {
      var n := |listed| - 1;
      var last := listed[n];
      var d0 := ToolTable(listed[..n]);
      ToolTableValues(listed[..n], d0);
      ToolTableKeys(listed[..n], d0);
      PutValues(d0, last.name, last, d);
      forall i | 0 <= i < |d|
        ensures LastNamed(listed, d[i].0).Some? && d[i].1 == listed[LastNamed(listed, d[i].0).value]
      {
        if d[i].0 != last.name {
          assert d[i] == d0[i];
          assert LastNamed(listed, d[i].0) == LastNamed(listed[..n], d[i].0);
        }
      }
    }
  }

  /** `list(tools.keys())[:5]`. */
  function FirstKeys(d: seq<(string, McpTool)>): (r: seq<string>)
    ensures |r| <= 5 && |r| <= |d| && forall i :: 0 <= i < |r| ==> r[i] == d[i].0
  {
    var ks := Keys(d);
    if |ks| <= 5 then ks else ks[..5]
  }

  function NotFoundMessage(name: string, d: seq<(string, McpTool)>): string {
    "Tool '" + name + "' not found. Available tools: " + Join(FirstKeys(d), ", ") + "..."
  }

  // ---------------------------------------------------------------------
  // The transitions, as functions of the state

  /** Line 39-45: the fresh client. */
  function Initial(): McpState {
    McpState(None, [], false, None, None)
  }

  /** The client after `polls` polls of `connect`, started on `st`, have
      each slept once: the first sleep lets the task open the session (or
      die), and the sleep after poll `after` sees the tool table. */
  function Polled(st: McpState, h: Handshake, polls: nat): McpState {
    var st1 :=
      if polls == 0 then st.(cleanupTask := Some(Running))
      else match h
        case NoSession => st.(cleanupTask := Some(Done))
        case Stalls(s) => st.(session := Some(s), cleanupTask := Some(Running))
        case Completes(s, _, _) => st.(session := Some(s), cleanupTask := Some(Running));
    if h.Completes? && polls > h.after then st1.(tools := ToolTable(h.listed), initialized := true) else st1
  }

  /** `Task.cancel()`: a finished task stays finished. */
  function Cancel(t: Option<TaskState>): Option<TaskState> {
    if t.Some? && t.value != Done then Some(Cancelled) else t
  }

  /** Lines 47-169: `connect`. */
  function ConnectSpec(st: McpState, timeout: nat, h: Handshake): (McpState, Result<seq<(string, McpTool)>>) {
    if st.initialized then (st, Ok(st.tools))
    else if h.Completes? && h.after <= PollLimit(timeout) then
      var st' := Polled(st, h, h.after + 1);
      (st', Ok(st'.tools))
    else
      var st' := Polled(st, h, PollLimit(timeout) + 1);
      (st'.(cleanupTask := Cancel(st'.cleanupTask), initialized := false), Err(TimeoutErr(TimeoutMessage(timeout))))
  }

  /** Lines 171-212: `call_tool`: the state after it, its result, and
      whether the call reached the session. */
  function CallToolSpec(st: McpState, name: string, h: Handshake, reply: ToolReply)
    : (McpState, Result<string>, bool)
  {
    var (st', c) := ConnectSpec(st, DefaultConnectTimeout, h);
    if c.Err? then (st', Err(RuntimeErr("Cannot call tool: MCP not initialized. " + c.error.message)), false)
    else if name !in Keys(st'.tools) then (st', Err(ValueErr(NotFoundMessage(name, st'.tools))), false)
    else match reply
      case Returned(v) => (st', Ok(v), true)
      case Failed(m) => (st', Err(CallFailed("MCP tool call failed: " + m)), true)
  }

  /** Lines 232-252: `disconnect`, and whether it cancelled and awaited a
      live task. */
  function DisconnectSpec(st: McpState): (McpState, bool) {
    (st.(initialized := false, session := None, tools := [], cleanupTask := None),
     st.cleanupTask.Some? && st.cleanupTask.value != Done)
  }

  /** Line 221: `is_connected`. */
  predicate Connected(st: McpState) {
    st.initialized && st.session.Some?
  }

  /** What every transition keeps: `_connection_error` is never set, the
      table has distinct keys, and an initialised client has a session. */
  predicate Inv(st: McpState) {
    st.connectionError.None? && DistinctKeys(st.tools) && (st.initialized ==> st.session.Some?)
  }

  // ---------------------------------------------------------------------
  // The client

  class McpClient {
    var session: Option<nat>
    var tools: seq<(string, McpTool)>
    var initialized: bool
    var connectionError: Option<string>
    var cleanupTask: Option<TaskState>

    function State(): McpState
      reads this
    {
      McpState(session, tools, initialized, connectionError, cleanupTask)
    }

    predicate Valid()
      reads this
    {
      Inv(State())
    }

    /** Lines 39-45. */
    constructor()
      ensures Valid() && State() == Initial()
    {
      session := None;
      tools := [];
      initialized := false;
      connectionError := None;
      cleanupTask := None;
    }

    /** Lines 47-169: `connect`, polling until the handshake completes or
        more than `timeout` seconds have passed. */
    method Connect(timeout: nat, h: Handshake) returns (r: Result<seq<(string, McpTool)>>)
      requires Valid()
      modifies this
      ensures (State(), r) == ConnectSpec(old(State()), timeout, h)
      ensures Valid()
    {
      if initialized {
        return Ok(tools);
      }
      ghost var st0 := State();
      cleanupTask := Some(Running);
      var polls: nat := 0;
      while !initialized
        invariant polls <= PollLimit(timeout) + 1
        invariant h.Completes? ==> polls <= h.after + 1
        invariant State() == Polled(st0, h, polls)
        decreases PollLimit(timeout) + 1 - polls
      {
        if polls > PollLimit(timeout) {
          cleanupTask := Cancel(cleanupTask);
          initialized := false;
          ConnectKeepsInv(st0, timeout, h);
          return Err(TimeoutErr(TimeoutMessage(timeout)));
        }
        Sleep(st0, h, polls);
        polls := polls + 1;
      }
      assert h.Completes? && polls == h.after + 1;
      ConnectKeepsInv(st0, timeout, h);
      return Ok(tools);
    }

    /** Line 158: one 0.1-second sleep of `connect`, during which the
        background task (lines 95-131) takes its next step: the first
        sleep opens the session or sees the task die, and the sleep after
        poll `after` publishes the tool table. */
    method Sleep(ghost st0: McpState, h: Handshake, polls: nat)
      requires State() == Polled(st0, h, polls)
      modifies this
      ensures State() == Polled(st0, h, polls + 1)
    {
      if polls == 0 {
        match h {
          case NoSession => cleanupTask := Some(Done);
          case Stalls(s) => session := Some(s);
          case Completes(s, _, _) => session := Some(s);
        }
      }
      if h.Completes? && polls == h.after {
        tools := ToolTable(h.listed);
        initialized := true;
      }
    }

    /** Lines 171-212: `call_tool`; `reached` says whether the session
        was asked. */
    method CallTool(name: string, arguments: map<string, string>, h: Handshake, reply: ToolReply)
      returns (r: Result<string>, reached: bool)
      requires Valid()
      modifies this
      ensures Valid()
      ensures (State(), r, reached) == CallToolSpec(old(State()), name, h, reply)
    {
      if !initialized {
        var c := Connect(DefaultConnectTimeout, h);
        if c.Err? {
          return Err(RuntimeErr("Cannot call tool: MCP not initialized. " + c.error.message)), false;
        }
      }
      if name !in Keys(tools) {
        return Err(ValueErr(NotFoundMessage(name, tools))), false;
      }
      reached := true;
      match reply {
        case Returned(v) => r := Ok(v);
        case Failed(m) => r := Err(CallFailed("MCP tool call failed: " + m));
      }
    }

    /** Line 221. */
    method IsConnected() returns (b: bool)
      requires Valid()
      ensures b <==> initialized && session.Some?
      ensures b <==> initialized
    {
      b := initialized && session.Some?;
    }

    /** Line 230: always `None`, since nothing assigns the field. */
    method GetConnectionError() returns (e: Option<string>)
      requires Valid()
      ensures e == None
    {
      e := connectionError;
    }

    /** Lines 232-252: `disconnect`: a live background task is cancelled
        and awaited, then every field is reset; nothing is raised. */
    method Disconnect() returns (awaited: bool)
      requires Valid()
      modifies this
      ensures Valid()
      ensures (State(), awaited) == DisconnectSpec(old(State()))
    {
      awaited := false;
      if cleanupTask.Some? && cleanupTask.value != Done {
        // The task is cancelled and awaited; its cleanup runs, and the
        // field is cleared below.
        awaited := true;
      }
      initialized := false;
      session := None;
      tools := [];
      cleanupTask := None;
    }
  }

  // ---------------------------------------------------------------------
  // Properties

  /** Lines 53-54: an initialised client returns its table and changes
      nothing, whatever the handshake would have done. */
  lemma {:induction false} ConnectWhenReady(st: McpState, timeout: nat, h: Handshake)
    requires st.initialized
    ensures ConnectSpec(st, timeout, h) == (st, Ok(st.tools))
  {
  }

  /** Lines 109-111, 139-169: from an uninitialised client, `connect`
      succeeds exactly when the handshake completes within the timeout,
      and then the client is connected with the advertised tools;
      otherwise it raises `TimeoutError`, ends uninitialised, keeps its
      table and leaves no live task. */
  lemma {:induction false} ConnectOutcome(st: McpState, timeout: nat, h: Handshake)
    requires !st.initialized
    ensures var (st', r) := ConnectSpec(st, timeout, h);
      && (r.Ok? <==> h.Completes? && h.after <= 10 * timeout)
      && (r.Ok? ==> Connected(st') && st'.tools == ToolTable(h.listed) && r.value == st'.tools
                    && st'.cleanupTask == Some(Running))
      && (r.Err? ==> r.error == TimeoutErr(TimeoutMessage(timeout)) && !Connected(st')
                     && st'.tools == st.tools && st'.cleanupTask != Some(Running))
      && st'.connectionError == st.connectionError
  {
  }

  /** A second `connect` after a successful one returns the same table
      and changes nothing. */
  lemma {:induction false} ConnectIdempotent(st: McpState, t1: nat, h1: Handshake, t2: nat, h2: Handshake)
    requires ConnectSpec(st, t1, h1).1.Ok?
    ensures var (st1, r1) := ConnectSpec(st, t1, h1);
      ConnectSpec(st1, t2, h2) == (st1, r1)
  {
  }

  /** `connect` keeps `Inv`: `_connection_error` stays `None`, the
      table has distinct keys, and a session exists once initialised. */
  lemma {:induction false} ConnectKeepsInv(st: McpState, timeout: nat, h: Handshake)
    requires Inv(st)
    ensures Inv(ConnectSpec(st, timeout, h).0)
  {
    if !st.initialized && h.Completes? && h.after <= PollLimit(timeout) {
      ToolTableKeys(h.listed, ToolTable(h.listed));
      assert ConnectSpec(st, timeout, h).0 == Polled(st, h, h.after + 1);
    }
  }

  /** `call_tool` keeps `Inv`. */
  lemma {:induction false} CallToolKeepsInv(st: McpState, name: string, h: Handshake, reply: ToolReply)
    requires Inv(st)
    ensures Inv(CallToolSpec(st, name, h, reply).0)
  {
    ConnectKeepsInv(st, DefaultConnectTimeout, h);
  }

  /** `disconnect` keeps `Inv`, from any state that has no connection
      error; so `get_connection_error` never reports anything. */
  lemma {:induction false} DisconnectKeepsInv(st: McpState)
    requires st.connectionError.None?
    ensures Inv(DisconnectSpec(st).0)
  {
  }

  /** Lines 187-199: `call_tool` reaches the session exactly when the
      client is (or gets) connected and the name is in the table; a failed
      connection is a `RuntimeError` carrying the timeout message, and an
      unknown name a `ValueError` naming at most five advertised tools. */
  lemma {:induction false} CallToolGuards(st: McpState, name: string, h: Handshake, reply: ToolReply,
                                          sc: McpState, c: Result<seq<(string, McpTool)>>,
                                          st': McpState, r: Result<string>, reached: bool)
    requires (sc, c) == ConnectSpec(st, DefaultConnectTimeout, h)
    requires (st', r, reached) == CallToolSpec(st, name, h, reply)
    ensures st' == sc
    ensures reached <==> c.Ok? && name in Keys(sc.tools)
    ensures c.Err? ==>
      r == Err(RuntimeErr("Cannot call tool: MCP not initialized. " + TimeoutMessage(DefaultConnectTimeout)))
    ensures c.Ok? && name !in Keys(sc.tools) ==>
      r == Err(ValueErr(NotFoundMessage(name, sc.tools)))
      && forall i :: 0 <= i < |FirstKeys(sc.tools)| ==> FirstKeys(sc.tools)[i] in Keys(sc.tools)
    ensures reached && reply.Returned? ==> r == Ok(reply.result)
    ensures reached && reply.Failed? ==> r == Err(CallFailed("MCP tool call failed: " + reply.message))
  {
    if c.Err? {
      assert !st.initialized;
    }
  }

  /** Lines 237-248: after `disconnect` nothing is connected, the table is
      empty and there is no task; only a live task is awaited, so it is
      safe with no task or a finished one; and the next `connect` starts
      afresh. */
  lemma {:induction false} DisconnectResets(st: McpState, timeout: nat, h: Handshake)
    ensures var (st', awaited) := DisconnectSpec(st);
      && !Connected(st') && st'.tools == [] && st'.cleanupTask.None? && st'.session.None?
      && (awaited <==> st.cleanupTask == Some(Running) || st.cleanupTask == Some(Cancelled))
      && ConnectSpec(st', timeout, h).1.Ok? == (h.Completes? && h.after <= 10 * timeout)
  {
  }

  /** Line 221: with `Inv`, being connected is being initialised. */
  lemma {:induction false} ConnectedIsInitialised(st: McpState)
    requires Inv(st)
    ensures Connected(st) <==> st.initialized
  {
  }
}
