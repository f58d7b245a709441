/** The batch dispatcher (codeagent/core/executor.py). For each requested call,
    in order: look the tool up, parse its JSON arguments, invoke it, and turn
    every failure into an "Error: ..." result instead of raising. JSON
    decoding and the handlers themselves are oracles passed in as functions. */
module Executor {
  import opened Common
  import opened Messages
  import opened Registry

  /** One entry of the result list: the call's id, its function name and the text output. */
  datatype ToolResult = ToolResult(toolCallId: Option<string>, name: Option<string>, content: string)

  /** `call.get("function", {}).get("name")` */
  function CallName(c: ToolCall): Option<string> {
    if c.fn.Some? then c.fn.value.name else None
  }

  /** `call.get("function", {}).get("arguments", "{}")` */
  function CallArguments(c: ToolCall): string {
    if c.fn.Some? && c.fn.value.arguments.Some? then c.fn.value.arguments.value else "{}"
  }

  /** `ToolRegistry.get_tool(func_name)`; a missing name finds nothing. */
  function Lookup(tools: map<string, Func>, name: Option<string>): Option<Func> {
    if name.Some? && name.value in tools then Some(tools[name.value]) else None
  }

  function NotFoundMessage(name: Option<string>): string {
    "Tool '" + Display(name) + "' not found"
  }

  function InvalidJsonMessage(raw: string): string {
    "Invalid JSON arguments: " + raw
  }

  /** The outcome of one call before the final `except`: the handler's
      str(output), or the text of the exception raised on the way. */
  function Attempt(tools: map<string, Func>, c: ToolCall,
                   parse: string -> Option<Json>,
                   invoke: (Func, Json) -> Result<string, string>): Result<string, string>
  {
    var f := Lookup(tools, CallName(c));
    if f.None? then Err(NotFoundMessage(CallName(c)))
    else
      var args := parse(CallArguments(c));
      if args.None? then Err(InvalidJsonMessage(CallArguments(c)))
      else invoke(f.value, args.value)
  }

  /** The result the executor appends for one call. */
  function CallResult(tools: map<string, Func>, c: ToolCall,
                      parse: string -> Option<Json>,
                      invoke: (Func, Json) -> Result<string, string>): (r: ToolResult)
    ensures r.toolCallId == c.id && r.name == CallName(c)
  {
    var outcome := Attempt(tools, c, parse, invoke);
    ToolResult(c.id, CallName(c), if outcome.Ok? then outcome.value else "Error: " + outcome.error)
  }

  /** The results of a whole batch. */
  function ExecuteAll(tools: map<string, Func>, calls: seq<ToolCall>,
                      parse: string -> Option<Json>,
                      invoke: (Func, Json) -> Result<string, string>): (rs: seq<ToolResult>)
    ensures |rs| == |calls|
    ensures forall i :: 0 <= i < |calls| ==> rs[i] == CallResult(tools, calls[i], parse, invoke)
  {
    seq(|calls|, i requires 0 <= i < |calls| => CallResult(tools, calls[i], parse, invoke))
  }

  /** ToolExecutor.execute: exactly one result per call, in input order, each
      carrying its call's id and name, whatever fails along the way. */
  method Execute(registry: ToolRegistry, calls: seq<ToolCall>,
                 parse: string -> Option<Json>,
                 invoke: (Func, Json) -> Result<string, string>)
    returns (results: seq<ToolResult>)
    ensures |results| == |calls|
    ensures forall i :: 0 <= i < |calls| ==>
      results[i].toolCallId == calls[i].id && results[i].name == CallName(calls[i])
    ensures results == ExecuteAll(registry.tools, calls, parse, invoke)
  {
    results := [];
    var i := 0;
    while i < |calls|
      invariant 0 <= i <= |calls|
      invariant results == ExecuteAll(registry.tools, calls[..i], parse, invoke)
    {
      var call := calls[i];
      var callId := call.id;
      var funcName := CallName(call);
      var argumentsText := CallArguments(call);
      var content: string;
      var func := if funcName.Some? then registry.GetTool(funcName.value) else None;
      if func.None? {
        content := "Error: " + NotFoundMessage(funcName);
      } else {
        var args := parse(argumentsText);
        if args.None? {
          content := "Error: " + InvalidJsonMessage(argumentsText);
        } else {
          var output := invoke(func.value, args.value);
          content := if output.Ok? then output.value else "Error: " + output.error;
        }
      }
      results := results + [ToolResult(callId, funcName, content)];
      assert calls[..i + 1][..i] == calls[..i];
      i := i + 1;
    }
    assert calls[..i] == calls;
  }

  // ---------------------------------------------------------------------------
  // What one result says

  /** An unregistered (or missing) name reports "not found", whatever the
      arguments: the lookup happens before any parsing. */
  lemma NotFoundResult(tools: map<string, Func>, c: ToolCall,
                       parse: string -> Option<Json>,
                       invoke: (Func, Json) -> Result<string, string>)
    requires CallName(c).None? || CallName(c).value !in tools
    ensures CallResult(tools, c, parse, invoke).content == "Error: Tool '" + Display(CallName(c)) + "' not found"
  {
  }

  /** A registered tool with malformed arguments reports the raw argument text. */
  lemma InvalidJsonResult(tools: map<string, Func>, c: ToolCall,
                          parse: string -> Option<Json>,
                          invoke: (Func, Json) -> Result<string, string>)
    requires CallName(c).Some? && CallName(c).value in tools
    requires parse(CallArguments(c)).None?
    ensures CallResult(tools, c, parse, invoke).content == "Error: Invalid JSON arguments: " + CallArguments(c)
  {
  }

  /** Missing arguments are parsed as "{}". */
  lemma MissingArgumentsDefault(c: ToolCall)
    requires c.fn.None? || c.fn.value.arguments.None?
    ensures CallArguments(c) == "{}"
  {
  }

  /** A content is the handler's output exactly when the handler ran and
      returned; every other outcome is the text of a failure behind "Error: ". */
  lemma ResultContent(tools: map<string, Func>, c: ToolCall,
                      parse: string -> Option<Json>,
                      invoke: (Func, Json) -> Result<string, string>)
    ensures var r := CallResult(tools, c, parse, invoke);
      var f := Lookup(tools, CallName(c));
      var args := parse(CallArguments(c));
      if f.Some? && args.Some? && invoke(f.value, args.value).Ok? then
        r.content == invoke(f.value, args.value).value
      else
        exists e :: r.content == "Error: " + e
  {
    var r := CallResult(tools, c, parse, invoke);
    var outcome := Attempt(tools, c, parse, invoke);
    if outcome.Err? {
      assert r.content == "Error: " + outcome.error;
    }
  }

  /** A batch's results do not depend on one another: the results of a longer
      batch start with those of each prefix, even when every call fails. */
  lemma ExecutePrefix(tools: map<string, Func>, calls: seq<ToolCall>, k: nat,
                      parse: string -> Option<Json>,
                      invoke: (Func, Json) -> Result<string, string>)
    requires k <= |calls|
    ensures ExecuteAll(tools, calls, parse, invoke)[..k] == ExecuteAll(tools, calls[..k], parse, invoke)
  {
  }

  /** Scenario: a registered tool followed by an unregistered one gives two
      results, and only the second reports "not found". */
  lemma MixedBatch(tools: map<string, Func>, known: string, unknown: string, args: string,
                   parse: string -> Option<Json>,
                   invoke: (Func, Json) -> Result<string, string>)
    requires known in tools && unknown !in tools
    requires parse(args).Some? && invoke(tools[known], parse(args).value) == Ok("done")
    ensures var rs := ExecuteAll(tools, [ToolCall(Some("call_1"), Some(FunctionCall(Some(known), Some(args)))),
                                         ToolCall(Some("call_2"), Some(FunctionCall(Some(unknown), Some(args))))],
                                 parse, invoke);
      |rs| == 2 &&
      rs[0] == ToolResult(Some("call_1"), Some(known), "done") &&
      rs[1] == ToolResult(Some("call_2"), Some(unknown), "Error: Tool '" + unknown + "' not found")
  {
    var first := ToolCall(Some("call_1"), Some(FunctionCall(Some(known), Some(args))));
    var second := ToolCall(Some("call_2"), Some(FunctionCall(Some(unknown), Some(args))));
    assert Attempt(tools, first, parse, invoke) == Ok("done");
    assert Attempt(tools, second, parse, invoke) == Err(NotFoundMessage(Some(unknown)));
  }
}
