/** The part of every MCP transport that does not depend on the wire: the tool registry and its
    dispatch, the running/shutdown life cycle, and the transport error type. */
module TransportBase {
  import opened Values
  import opened Text

  /** What calling a tool does: it returns a value, raises a ValueError, or raises another exception. */
  datatype Invocation =
    | Returned(result: Value)
    | RaisedValueError(message: string)
    | RaisedError(message: string)

  /** A registered tool: its name and its implementation, called with the request's parameters. */
  datatype Tool = Tool(name: string, handler: Entries -> Invocation)

  /** The FastMCP server, reduced to its `_tools` registry in registration order. */
  datatype McpServer = McpServer(tools: seq<Tool>)

  /** `get_available_tools`, on the path where the server exposes `_tools`. */
  function GetAvailableTools(server: McpServer): seq<Tool> {
    server.tools
  }

  function ToolNames(tools: seq<Tool>): (names: seq<string>)
    ensures |names| == |tools| && forall i | 0 <= i < |tools| :: names[i] == tools[i].name
  {
    seq(|tools|, i requires 0 <= i < |tools| => tools[i].name)
  }

  /** `method in tools` */
  predicate Registered(tools: seq<Tool>, toolName: string) {
    exists i | 0 <= i < |tools| :: tools[i].name == toolName
  }

  /** The index of the tool registered under `toolName`. */
  function FindTool(tools: seq<Tool>, toolName: string): (r: Option<nat>)
    ensures r.Some? <==> Registered(tools, toolName)
    ensures r.Some? ==> r.value < |tools| && tools[r.value].name == toolName
    ensures r.Some? ==> forall j | 0 <= j < r.value :: tools[j].name != toolName
  {
    if |tools| == 0 then None
    else if tools[0].name == toolName then Some(0)
    else
      match FindTool(tools[1..], toolName)
      case None => None
      case Some(k) => Some(k + 1)
  }

  function NotFoundMessage(toolName: string, names: seq<string>): string {
    "Tool '" + toolName + "' not found. Available tools: " + ListRepr(names)
  }

  /** `invoke_tool(toolName, params)` */
  function InvokeTool(server: McpServer, toolName: string, params: Entries): Invocation {
    var tools := GetAvailableTools(server);
    match FindTool(tools, toolName)
    case None => RaisedValueError(NotFoundMessage(toolName, ToolNames(tools)))
    case Some(k) => tools[k].handler(params)
  }

  /** An unknown method raises a ValueError whose message names the method and shows the `repr` of
      every registered name; a name that `repr` leaves as it is (every Python identifier) appears
      itself. */
  lemma UnknownToolReported(server: McpServer, toolName: string, params: Entries)
    requires !Registered(server.tools, toolName)
    ensures InvokeTool(server, toolName, params).RaisedValueError?
    ensures Contains(InvokeTool(server, toolName, params).message, toolName)
    ensures forall k | 0 <= k < |server.tools| ::
      Contains(InvokeTool(server, toolName, params).message, StrRepr(server.tools[k].name))
    ensures forall k | 0 <= k < |server.tools| && PlainString(server.tools[k].name) ::
      Contains(InvokeTool(server, toolName, params).message, server.tools[k].name)
  {
    var names := ToolNames(server.tools);
    var msg := InvokeTool(server, toolName, params).message;
    var pre := "Tool '";
    OccursInConcat(pre, toolName, "' not found. Available tools: " + ListRepr(names));
    assert msg == pre + toolName + ("' not found. Available tools: " + ListRepr(names));
    var head := "Tool '" + toolName + "' not found. Available tools: ";
    assert msg == head + ListRepr(names);
    forall k | 0 <= k < |server.tools|
      ensures Contains(msg, StrRepr(server.tools[k].name))
      ensures PlainString(server.tools[k].name) ==> Contains(msg, server.tools[k].name)
    {
      ListReprMentions(names, k);
      ContainedInSuffix(head, ListRepr(names), StrRepr(names[k]));
      if PlainString(names[k]) {
        ContainedInSuffix(head, ListRepr(names), names[k]);
      }
    }
  }

  /** The not-found answer depends on the registered names only: no handler takes part in it. */
  lemma UnknownToolCallsNoHandler(server: McpServer, other: McpServer, toolName: string, params: Entries, params': Entries)
    requires ToolNames(server.tools) == ToolNames(other.tools)
    requires !Registered(server.tools, toolName)
    ensures InvokeTool(server, toolName, params) == InvokeTool(other, toolName, params')
  {
    assert forall i | 0 <= i < |other.tools| :: other.tools[i].name == ToolNames(other.tools)[i];
  }

  /** A registered method gives exactly what its handler gives for the parameters, a failure included. */
  lemma KnownToolDelegates(server: McpServer, i: int, params: Entries)
    requires 0 <= i < |server.tools|
    requires forall j | 0 <= j < i :: server.tools[j].name != server.tools[i].name
    ensures InvokeTool(server, server.tools[i].name, params) == server.tools[i].handler(params)
  {
    var k := FindTool(server.tools, server.tools[i].name);
    assert k.Some?;
    assert k.value == i by {
      if k.value < i {
      } else if k.value > i {
      }
    }
  }

  // ---------------------------------------------------------------- life cycle

  /** How one awaited step of the life cycle ends. */
  datatype StepEnd = Completed | Interrupted | Failed(message: string)

  /** What `run` does in the end: it returns, raises `RuntimeError("Transport failed: …")`, or lets
      a keyboard interrupt out of `stop` escape, which is not an `Exception` and so is not caught. */
  datatype RunResult = RunReturned | RunRaised(message: string) | RunInterrupted

  /** The transport's calls to its own `start` and `stop`, in order. */
  datatype LifecycleCall = StartCalled(runningAtCall: bool) | StopCalled(runningAtCall: bool)

  /** The result of `run`: a keyboard interrupt in `start` or in the wait is swallowed; any other
      failure of them is re-raised as a transport failure. The wait is skipped when the event is
      already set. `stop` always runs afterwards, and an interrupt there replaces that result. */
  function RunOutcome(start: StepEnd, wait: StepEnd, stop: StepEnd, shutdownRequested: bool): RunResult {
    if stop.Interrupted? then RunInterrupted
    else match start
    case Interrupted => RunReturned
    case Failed(m) => RunRaised("Transport failed: " + m)
    case Completed =>
      if shutdownRequested then RunReturned
      else match wait
        case Failed(m) => RunRaised("Transport failed: " + m)
        case _ => RunReturned
  }

  /** A run ends in a keyboard interrupt exactly when `stop` was interrupted; otherwise it ends
      quietly, or raises a message that says the transport failed, and it ends quietly exactly when
      no step failed that was reached. A failure of `stop` never shows. */
  lemma RunOutcomeShape(start: StepEnd, wait: StepEnd, stop: StepEnd, shutdownRequested: bool)
    ensures var r := RunOutcome(start, wait, stop, shutdownRequested);
      && (r.RunInterrupted? <==> stop.Interrupted?)
      && (r.RunRaised? ==> StartsWith(r.message, "Transport failed: "))
      && (r.RunReturned? <==> !stop.Interrupted? && !start.Failed? && (start.Completed? && !shutdownRequested ==> !wait.Failed?))
    ensures !stop.Interrupted? ==> RunOutcome(start, wait, stop, shutdownRequested) == RunOutcome(start, wait, Completed, shutdownRequested)
  {
    var r := RunOutcome(start, wait, stop, shutdownRequested);
    if r.RunRaised? {
      var m := if start.Failed? then start.message else wait.message;
      assert r.message == "Transport failed: " + m;
    }
  }

  /** The life-cycle state of a transport: `_running`, whether `_shutdown_event` is set, and the
      calls it has made to its own `start` and `stop`. */
  class Transport {
    var running: bool
    var shutdownRequested: bool
    var calls: seq<LifecycleCall>

    constructor ()
      ensures !running && !shutdownRequested && calls == []
    {
      running := false;
      shutdownRequested := false;
      calls := [];
    }

    /** `is_running` */
    function IsRunning(): bool
      reads this
    {
      running
    }

    /** `shutdown`: sets the event, nothing else. */
    method Shutdown()
      modifies this`shutdownRequested
      ensures shutdownRequested
    {
      shutdownRequested := true;
    }

    /** `_graceful_shutdown`: `stop` only when running, whose failure is swallowed but whose keyboard
        interrupt escapes; either way the transport is not running afterwards. */
    method GracefulShutdown(stop: StepEnd) returns (interrupted: bool)
      modifies this`running, this`calls
      ensures !running
      ensures calls == old(calls) + if old(running) then [StopCalled(true)] else []
      ensures interrupted <==> old(running) && stop.Interrupted?
    {
      interrupted := false;
      if running {
        calls := calls + [StopCalled(running)];
        interrupted := stop.Interrupted?;
        running := false;
      }
    }

    /** `run`: mark the transport running, start it, wait for the shutdown event, and always end
        through the graceful shutdown. */
    method Run(start: StepEnd, wait: StepEnd, stop: StepEnd) returns (r: RunResult)
      modifies this`running, this`calls
      ensures r == RunOutcome(start, wait, stop, old(shutdownRequested))
      ensures !running
      ensures calls == old(calls) + [StartCalled(true), StopCalled(true)]
    {
      running := true;
      calls := calls + [StartCalled(running)];
      r := RunReturned;
      match start {
        case Interrupted =>
        case Failed(m) => r := RunRaised("Transport failed: " + m);
        case Completed =>
          if !shutdownRequested {
            match wait {
              case Failed(m) => r := RunRaised("Transport failed: " + m);
              case _ =>
            }
          }
      }
      var interrupted := GracefulShutdown(stop);
      if interrupted {
        r := RunInterrupted;
      }
    }
  }

  // ---------------------------------------------------------------- errors

  /** `TransportError(message, transport_type, details)` */
  datatype TransportError = TransportError(message: string, transportType: string, details: Entries)

  /** The constructor: a missing or empty `details` becomes the empty dictionary. */
  function NewTransportError(message: string, transportType: string, details: Option<Entries>): (e: TransportError)
    ensures e.message == message && e.transportType == transportType
    ensures details.Some? ==> e.details == details.value
    ensures details.None? ==> e.details == []
  {
    TransportError(message, transportType, if details.Some? && |details.value| > 0 then details.value else [])
  }
}
