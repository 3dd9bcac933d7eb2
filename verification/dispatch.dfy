/** The CallTool request handler: look the tool up, run it, shape the reply,
    classify failures, and log each stage. The handler's own asynchronous work
    is represented by its outcome; the watchdog timer by a pending flag that
    is set before the `try` and cleared in its `finally`. */
module ToolDispatch {
  import opened Wrappers
  import opened Values
  import opened Strings
  import opened Logging
  import ResponseSummary

  /** JSON-RPC 2.0 error codes (section 5.1 of the JSON-RPC 2.0 specification). */
  const MethodNotFound: int := -32601
  const InternalError: int := -32603

  /** The one tool whose result is wrapped with a chat id. */
  const ChatTool: string := "chat_perplexity"

  const TimedOutText: string :=
    "The operation timed out. This might be due to high server load or network issues. Please try again with a more specific query."

  function ErrorText(message: string): string
  {
    "The operation encountered an error: " + message + ". Please try again."
  }

  type Args = map<string, Value>

  /** How a tool handler's call ends: it returns a result, throws an `Error`
      carrying a message, or throws some other value. */
  datatype Outcome = Ok(result: Value) | Err(message: string) | Thrown(value: Value)

  type Handler = Args -> Outcome

  /** The registry of tool handlers, by tool name. */
  type Registry = map<string, Handler>

  /** One item of a reply's `content` list, `{type, text}`. */
  datatype Content = Content(kind: string, text: Value)

  /** What the request handler produces: a reply payload, or a protocol error it
      raises, given by its code and the text passed to `McpError`. */
  datatype Reply = Response(content: seq<Content>) | Raised(code: int, message: string)

  /** Everything the handler body observes from outside this model.
      - `stringify`: compact `JSON.stringify` as used by the summary (`None`: throws or undefined);
      - `pretty`: `JSON.stringify(x, null, 2)` for the chat payload (`Failure`: the message of the thrown `Error`);
      - `uuid`: the value `crypto.randomUUID()` would return;
      - `mcpMessage`: the `message` of an `McpError` built from a code and a text. */
  datatype Oracles = Oracles(
    stringify: Value -> Option<string>,
    pretty: Value -> Result<string, string>,
    uuid: string,
    mcpMessage: (int, string) -> string)

  /** The result of one request: the reply, the logger calls in order, and
      whether the watchdog timer is still pending when the handler returns. */
  datatype Dispatch = Dispatch(reply: Reply, log: seq<Entry>, timerPending: bool)

  /** What the `try` block hands on: a payload to return, or an exception. */
  datatype Exception = ErrorException(message: string) | ValueException(value: Value)
  datatype Completion = Normal(content: seq<Content>) | Throw(exception: Exception)

  function TextContent(text: Value): seq<Content>
  {
    [Content("text", text)]
  }

  function ArgsValue(args: Option<Args>): Value
  {
    if args.Some? then Obj(args.value) else Undefined
  }

  /** `{ requestId, tool: name }`, the data every later log call starts from. */
  function ToolData(requestId: Value, name: string): Data
  {
    map["requestId" := requestId, "tool" := Str(name)]
  }

  /** `request.id || "unknown"`. */
  function RequestId(id: Value): (r: Value)
    ensures Truthy(id) ==> r == id
    ensures !Truthy(id) ==> r == Str("unknown")
  {
    Or(id, Str("unknown"))
  }

  /** `chatArgs.chat_id || crypto.randomUUID()`, with `chatArgs = args || {}`. */
  function ChatId(args: Option<Args>, uuid: string): (r: Value)
    ensures var a := args.GetOr(map[]);
      if "chat_id" in a && Truthy(a["chat_id"]) then r == a["chat_id"] else r == Str(uuid)
  {
    var a := args.GetOr(map[]);
    Or(if "chat_id" in a then a["chat_id"] else Undefined, Str(uuid))
  }

  /** The object the chat tool's reply text serialises. */
  function ChatPayload(chatId: Value, result: Value): Value
  {
    Obj(map["chat_id" := chatId, "response" := result])
  }

  /** The timeout heuristic: case-sensitive search for "timeout" or "Timed out". */
  predicate IsTimeoutMessage(message: string)
  {
    Includes(message, "timeout") || Includes(message, "Timed out")
  }

  function ReceiptEntry(requestId: Value, name: string, args: Option<Args>): Entry
  {
    Entry(Info, "Handling CallTool request", Some(ToolData(requestId, name)["arguments" := ArgsValue(args)]))
  }

  function SuccessEntry(requestId: Value, name: string, summary: string): Entry
  {
    Entry(Info, "Successfully handled CallTool request",
      Some(ToolData(requestId, name)["responseSummary" := Str(summary)]))
  }

  /** The handler's running state: the logger calls so far and whether the
      watchdog timer is pending. */
  datatype HandlerState = HandlerState(log: seq<Entry>, timerPending: bool)

  /** How the `try` block ended, and the state it left. */
  datatype TryOutcome = TryOutcome(completion: Completion, state: HandlerState)

  /** What the `catch` block answers, and the state it left. */
  datatype CatchOutcome = CatchOutcome(reply: Reply, state: HandlerState)

  /** The `try` block: lookup, handler call, reply shaping and the success log.
      It completes normally exactly when the tool is registered, its handler
      returns, and, for the chat tool, the payload serialises; it never touches
      the timer and logs at most once, only on success. */
  function TryBlock(reg: Registry, name: string, args: Option<Args>, requestId: Value,
                    o: Oracles, st: HandlerState): (out: TryOutcome)
    ensures out.state.timerPending == st.timerPending
    ensures out.completion.Normal? <==>
      (name in reg && reg[name](args.GetOr(map[])).Ok?
       && (name == ChatTool ==>
             o.pretty(ChatPayload(ChatId(args, o.uuid), reg[name](args.GetOr(map[])).result)).Success?))
    ensures out.completion.Normal? ==>
      |out.state.log| == |st.log| + 1 && out.state.log[..|st.log|] == st.log
      && out.state.log[|st.log|].level == Info
    ensures out.completion.Throw? ==> out.state.log == st.log
    ensures out.completion.Throw? && out.completion.exception.ValueException? ==>
      name in reg && reg[name](args.GetOr(map[])).Thrown?
  {
    if name in reg then
      match reg[name](args.GetOr(map[]))
      case Err(m) => TryOutcome(Throw(ErrorException(m)), st)
      case Thrown(v) => TryOutcome(Throw(ValueException(v)), st)
      case Ok(result) =>
        if name == ChatTool then
          match o.pretty(ChatPayload(ChatId(args, o.uuid), result))
          case Failure(m) => TryOutcome(Throw(ErrorException(m)), st)
          case Success(text) =>
            var summary := ResponseSummary.Summarize(Str(text), o.stringify);
            TryOutcome(Normal(TextContent(Str(text))), st.(log := st.log + [SuccessEntry(requestId, name, summary)]))
        else
          var summary := ResponseSummary.Summarize(result, o.stringify);
          TryOutcome(Normal(TextContent(result)), st.(log := st.log + [SuccessEntry(requestId, name, summary)]))
    else
      TryOutcome(Throw(ErrorException(o.mcpMessage(MethodNotFound, "Tool " + name + " not found"))), st)
  }

  /** The ERROR entry the `catch` block writes first: the thrown `Error`'s
      message, or the `String` form of any other thrown value. */
  function FailureEntry(name: string, requestId: Value, e: Exception): Entry
  {
    var text := match e
      case ErrorException(m) => m
      case ValueException(v) => ToJsString(v);
    Entry(Error, "Error executing tool " + name, Some(ToolData(requestId, name)["error" := Str(text)]))
  }

  /** The `catch` block: log the failure, then return a soft payload for an
      `Error`, or raise an internal error for any other thrown value. It never
      touches the timer and adds one or two ERROR log calls, the first of which
      carries the thrown message. */
  function CatchBlock(name: string, requestId: Value, e: Exception, st: HandlerState): (out: CatchOutcome)
    ensures out.state.timerPending == st.timerPending
    ensures |st.log| + 1 <= |out.state.log| <= |st.log| + 2 && out.state.log[..|st.log|] == st.log
    ensures forall i :: |st.log| <= i < |out.state.log| ==> out.state.log[i].level == Error
    ensures out.state.log[|st.log|].data.Some?
         && "error" in out.state.log[|st.log|].data.value
         && out.state.log[|st.log|].data.value["error"]
              == Str(if e.ErrorException? then e.message else ToJsString(e.value))
    ensures out.reply.Raised? <==> e.ValueException?
  {
    var failed := FailureEntry(name, requestId, e);
    match e
    case ErrorException(m) =>
      if IsTimeoutMessage(m) then
        CatchOutcome(Response(TextContent(Str(TimedOutText))),
          st.(log := st.log + [failed, Entry(Error, "Timeout detected in MCP request", Some(ToolData(requestId, name)))]))
      else
        CatchOutcome(Response(TextContent(Str(ErrorText(m)))), st.(log := st.log + [failed]))
    case ValueException(v) =>
      CatchOutcome(Raised(InternalError, "Tool execution failed: " + ToJsString(v)), st.(log := st.log + [failed]))
  }

  /** The CallTool request handler, from receipt to the `finally` clean-up.
      Every request is logged on receipt and once more on completion (twice when
      a timeout is detected), the timer set after the receipt log never outlives
      the call, and the only error ever raised is an internal error. The timer
      flag is observed only at exit: no contract states that it is armed while
      the handler runs. */
  function HandleCallTool(id: Value, name: string, args: Option<Args>, reg: Registry, o: Oracles): (d: Dispatch)
    ensures 2 <= |d.log| <= 3
    ensures d.log[0] == ReceiptEntry(RequestId(id), name, args)
    ensures !d.timerPending
    ensures d.reply.Raised? ==> d.reply.code == InternalError
    ensures d.reply.Response? ==> |d.reply.content| == 1 && d.reply.content[0].kind == "text"
  {
    var requestId := RequestId(id);
    var received := HandlerState([ReceiptEntry(requestId, name, args)], false);
    var armed := received.(timerPending := true);
    var attempt := TryBlock(reg, name, args, requestId, o, armed);
    var afterCatch := match attempt.completion
      case Normal(content) => CatchOutcome(Response(content), attempt.state)
      case Throw(e) => CatchBlock(name, requestId, e, attempt.state);
    var cleared := afterCatch.state.(timerPending := false);
    Dispatch(afterCatch.reply, cleared.log, cleared.timerPending)
  }

  /** A registered tool other than the chat tool that returns `result`: one text
      item carrying the result unchanged, and a success log with its summary. */
  lemma RegisteredToolSucceeds(id: Value, name: string, args: Option<Args>, reg: Registry, o: Oracles, result: Value)
    requires name in reg && name != ChatTool
    requires reg[name](args.GetOr(map[])) == Ok(result)
    ensures var d := HandleCallTool(id, name, args, reg, o);
      && d.reply == Response([Content("text", result)])
      && d.log == [ReceiptEntry(RequestId(id), name, args),
                   SuccessEntry(RequestId(id), name, ResponseSummary.Summarize(result, o.stringify))]
  {
  }

  /** The chat tool: the reply text is the pretty JSON of `{chat_id, response}`,
      the chat id is the caller's when truthy and the fresh UUID otherwise, and the
      logged summary is that text cut at the 200-character string limit. */
  lemma ChatToolSucceeds(id: Value, args: Option<Args>, reg: Registry, o: Oracles, result: Value, text: string)
    requires ChatTool in reg
    requires reg[ChatTool](args.GetOr(map[])) == Ok(result)
    requires o.pretty(ChatPayload(ChatId(args, o.uuid), result)) == Success(text)
    ensures var d := HandleCallTool(id, ChatTool, args, reg, o);
      && d.reply == Response([Content("text", Str(text))])
      && |d.log| == 2
      && d.log[1] == SuccessEntry(RequestId(id), ChatTool, ResponseSummary.Truncate(text, 200))
    ensures args.Some? && "chat_id" in args.value && Truthy(args.value["chat_id"]) ==>
      ChatId(args, o.uuid) == args.value["chat_id"]
    ensures (args.None? || "chat_id" !in args.value || !Truthy(args.value["chat_id"])) ==>
      ChatId(args, o.uuid) == Str(o.uuid)
  {
  }

  /** An `Error` whose message mentions a timeout gives the fixed timed-out text,
      after two ERROR log calls, and nothing is raised. */
  lemma TimeoutErrorIsSoft(id: Value, name: string, args: Option<Args>, reg: Registry, o: Oracles, message: string)
    requires name in reg && reg[name](args.GetOr(map[])) == Err(message)
    requires Includes(message, "timeout") || Includes(message, "Timed out")
    ensures var d := HandleCallTool(id, name, args, reg, o);
      && d.reply == Response([Content("text", Str(TimedOutText))])
      && |d.log| == 3 && d.log[1].level == Error
      && d.log[1].message == "Error executing tool " + name
      && d.log[1].data == Some(ToolData(RequestId(id), name)["error" := Str(message)])
      && d.log[2] == Entry(Error, "Timeout detected in MCP request", Some(ToolData(RequestId(id), name)))
  {
  }

  /** Any other `Error` gives the generic error text embedding its message. */
  lemma OtherErrorIsSoft(id: Value, name: string, args: Option<Args>, reg: Registry, o: Oracles, message: string)
    requires name in reg && reg[name](args.GetOr(map[])) == Err(message)
    requires !Includes(message, "timeout") && !Includes(message, "Timed out")
    ensures var d := HandleCallTool(id, name, args, reg, o);
      && d.reply == Response([Content("text", Str("The operation encountered an error: " + message + ". Please try again."))])
      && |d.log| == 2
      && d.log[1] == Entry(Error, "Error executing tool " + name,
                           Some(ToolData(RequestId(id), name)["error" := Str(message)]))
  {
  }

  /** The match is case-sensitive: a message reading just "Timeout" is not a timeout. */
  lemma CapitalTimeoutIsNotTimeout(id: Value, name: string, args: Option<Args>, reg: Registry, o: Oracles)
    requires name in reg && reg[name](args.GetOr(map[])) == Err("Timeout")
    ensures HandleCallTool(id, name, args, reg, o).reply
         == Response([Content("text", Str("The operation encountered an error: Timeout. Please try again."))])
  {
    assert "Timeout"[..7] != "timeout" by { assert "Timeout"[0] != "timeout"[0]; }
    assert !Includes("Timeout", "timeout");
    assert !Includes("Timeout", "Timed out");
    assert "The operation encountered an error: " + "Timeout" + ". Please try again."
        == "The operation encountered an error: Timeout. Please try again.";
    OtherErrorIsSoft(id, name, args, reg, o, "Timeout");
  }

  /** A thrown value that is not an `Error` is raised as an internal error
      carrying its `String` form. */
  lemma NonErrorIsRaised(id: Value, name: string, args: Option<Args>, reg: Registry, o: Oracles, v: Value)
    requires name in reg && reg[name](args.GetOr(map[])) == Thrown(v)
    ensures HandleCallTool(id, name, args, reg, o).reply == Raised(InternalError, "Tool execution failed: " + ToJsString(v))
    ensures var d := HandleCallTool(id, name, args, reg, o);
      && |d.log| == 2
      && d.log[1] == Entry(Error, "Error executing tool " + name,
                           Some(ToolData(RequestId(id), name)["error" := Str(ToJsString(v))]))
  {
  }

  /** A chat payload that cannot be serialised is not a success: the failure is
      thrown inside the `try` and handled like any other `Error`. */
  lemma ChatSerialisationFailureIsSoft(id: Value, args: Option<Args>, reg: Registry, o: Oracles,
                                       result: Value, message: string)
    requires ChatTool in reg
    requires reg[ChatTool](args.GetOr(map[])) == Ok(result)
    requires o.pretty(ChatPayload(ChatId(args, o.uuid), result)) == Failure(message)
    ensures var d := HandleCallTool(id, ChatTool, args, reg, o);
      && d.reply == Response([Content("text", Str(if IsTimeoutMessage(message) then TimedOutText else ErrorText(message)))])
      && 2 <= |d.log|
      && d.log[1] == Entry(Error, "Error executing tool " + ChatTool,
                           Some(ToolData(RequestId(id), ChatTool)["error" := Str(message)]))
  {
  }

  /** Raising happens exactly when a registered handler throws a non-`Error` value. */
  lemma RaisedIffNonErrorThrown(id: Value, name: string, args: Option<Args>, reg: Registry, o: Oracles)
    ensures HandleCallTool(id, name, args, reg, o).reply.Raised?
        <==> name in reg && reg[name](args.GetOr(map[])).Thrown?
  {
  }

  /** An unknown tool name is not raised: its `McpError` is thrown inside the `try`,
      caught as an `Error`, and turned into a soft payload. When the error's message
      carries the name, a name mentioning "timeout" gets the timed-out text. */
  lemma UnknownToolIsSoft(id: Value, name: string, args: Option<Args>, reg: Registry, o: Oracles)
    requires name !in reg
    ensures var d := HandleCallTool(id, name, args, reg, o);
      var message := o.mcpMessage(MethodNotFound, "Tool " + name + " not found");
      && d.reply.Response?
      && |d.log| >= 2
      && d.log[1] == Entry(Error, "Error executing tool " + name,
                           Some(ToolData(RequestId(id), name)["error" := Str(message)]))
    ensures var message := o.mcpMessage(MethodNotFound, "Tool " + name + " not found");
      Includes(message, "Tool " + name + " not found") && Includes(name, "timeout") ==>
        HandleCallTool(id, name, args, reg, o).reply == Response([Content("text", Str(TimedOutText))])
    ensures var message := o.mcpMessage(MethodNotFound, "Tool " + name + " not found");
      !IsTimeoutMessage(message) ==>
        HandleCallTool(id, name, args, reg, o).reply == Response([Content("text", Str(ErrorText(message)))])
  {
    var inner := "Tool " + name + " not found";
    var message := o.mcpMessage(MethodNotFound, inner);
    if Includes(message, inner) && Includes(name, "timeout") {
      IncludesInfix("Tool ", name, " not found");
      IncludesTransitive(message, inner, name);
      IncludesTransitive(message, name, "timeout");
    }
  }

  /** Handlers receive `args || {}`: leaving the arguments out and passing `{}`
      give the same reply. */
  lemma MissingArgsAreEmpty(id: Value, name: string, reg: Registry, o: Oracles)
    ensures HandleCallTool(id, name, None, reg, o).reply == HandleCallTool(id, name, Some(map[]), reg, o).reply
  {
  }
}
