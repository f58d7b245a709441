/** The think-act loop (codeagent/core/agent.py). The model client is replaced
    by the sequence of its answers, one per request: `Ok(m)` is the assistant
    message m and `Err(e)` the client raising e. The loop stops at the first
    answer without tool calls; if the sequence ends before that, the run is
    reported as `Exhausted` (the model would be asked again). */
module AgentLoop {
  import opened Common
  import opened Messages
  import opened Sessions
  import opened Registry
  import opened Executor

  /** What one call of the model client receives. */
  datatype Request = Request(messages: seq<Wire>, tools: Option<seq<Schema>>)

  datatype Outcome = Finished | Raised(error: string) | Exhausted

  /** Everything one run produces: the final history, the yielded chunks,
      the requests made of the model and how the run ended. */
  datatype Trace = Trace(history: seq<Message>, chunks: seq<string>, requests: seq<Request>, outcome: Outcome)

  /** `tools=self.tools_schema if self.tools_schema else None` */
  function ToolsArgument(schemas: seq<Schema>): (r: Option<seq<Schema>>)
    ensures r.None? <==> |schemas| == 0
    ensures r.Some? ==> r.value == schemas
  {
    if |schemas| == 0 then None else Some(schemas)
  }

  function ExecutingNotice(n: nat): string {
    "\n[Executing " + NatToString(n) + " tool calls...]\n"
  }

  function OutputNotice(r: ToolResult): string {
    "\n[Tool Output (" + Display(r.name) + ")]: " + r.content + "\n"
  }

  /** `Message.tool(tool_call_id=..., content=..., name=...)` for one result. */
  function ToolMessage(r: ToolResult): (m: Message)
    ensures m.role == ToolRole && m.content == Some(r.content)
    ensures m.toolCallId == r.toolCallId && m.name == r.name && m.toolCalls.None?
  {
    Message(ToolRole, Some(r.content), None, r.toolCallId, r.name)
  }

  function ToolMessages(rs: seq<ToolResult>): (ms: seq<Message>)
    ensures |ms| == |rs|
    ensures forall i :: 0 <= i < |rs| ==> ms[i] == ToolMessage(rs[i])
  {
    if |rs| == 0 then [] else ToolMessages(rs[..|rs| - 1]) + [ToolMessage(rs[|rs| - 1])]
  }

  function OutputNotices(rs: seq<ToolResult>): (cs: seq<string>)
    ensures |cs| == |rs|
    ensures forall i :: 0 <= i < |rs| ==> cs[i] == OutputNotice(rs[i])
  {
    if |rs| == 0 then [] else OutputNotices(rs[..|rs| - 1]) + [OutputNotice(rs[|rs| - 1])]
  }

  /** `if response_msg.tool_calls:` */
  predicate HasCalls(m: Message) {
    m.toolCalls.Some? && |m.toolCalls.value| > 0
  }

  /** What one answer does to the history and the output, and whether the loop stops there. */
  datatype TurnEnd = TurnEnd(history: seq<Message>, chunks: seq<string>, stop: Option<Outcome>)

  /** The body of the loop after the model call: a raise stops the run; an answer
      with tool calls is recorded, its calls executed and their results added;
      any other answer is recorded, its truthy content yielded, and the run ends. */
  function Turn(tools: map<string, Func>, history: seq<Message>, response: Result<Message, string>,
                parse: string -> Option<Json>,
                invoke: (Func, Json) -> Result<string, string>): (r: TurnEnd)
    ensures history <= r.history
    ensures r.stop.None? <==> response.Ok? && HasCalls(response.value)
    ensures response.Err? ==> r.stop == Some(Raised(response.error)) && r.history == history && r.chunks == []
    ensures response.Ok? && !HasCalls(response.value) ==>
      r.stop == Some(Finished) && r.history == history + [response.value] &&
      r.chunks == (if Truthy(response.value.content) then [response.value.content.value] else [])
  {
    match response
    case Err(e) => TurnEnd(history, [], Some(Raised(e)))
    case Ok(m) =>
      if HasCalls(m) then
        var results := ExecuteAll(tools, m.toolCalls.value, parse, invoke);
        TurnEnd(history + [m] + ToolMessages(results),
                [ExecutingNotice(|m.toolCalls.value|)] + OutputNotices(results),
                None)
      else
        TurnEnd(history + [m], if Truthy(m.content) then [m.content.value] else [], Some(Finished))
  }

  /** The loop from a given history on, answering the requests with responses in order. */
  function Turns(tools: map<string, Func>, schemas: seq<Schema>, history: seq<Message>,
                 responses: seq<Result<Message, string>>,
                 parse: string -> Option<Json>,
                 invoke: (Func, Json) -> Result<string, string>): Trace
    decreases |responses|
  {
    if |responses| == 0 then Trace(history, [], [], Exhausted)
    else
      var request := Request(EncodeAll(history), ToolsArgument(schemas));
      var e := Turn(tools, history, responses[0], parse, invoke);
      if e.stop.Some? then Trace(e.history, e.chunks, [request], e.stop.value)
      else
        var rest := Turns(tools, schemas, e.history, responses[1..], parse, invoke);
        Trace(rest.history, e.chunks + rest.chunks, [request] + rest.requests, rest.outcome)
  }

  /** Agent.run(user_input): the user message, then the loop. */
  function RunTrace(tools: map<string, Func>, schemas: seq<Schema>, history: seq<Message>, userInput: string,
                    responses: seq<Result<Message, string>>,
                    parse: string -> Option<Json>,
                    invoke: (Func, Json) -> Result<string, string>): Trace
  {
    Turns(tools, schemas, history + [User(userInput)], responses, parse, invoke)
  }

  class Agent {
    const session: Session
    const registry: ToolRegistry

    /** `Agent(settings, session)`; the schema list is read from the registry
        at every request, as the stored reference to the registry's list is. */
    constructor (session: Session, registry: ToolRegistry)
      ensures this.session == session && this.registry == registry
    {
      this.session := session;
      this.registry := registry;
    }

    /** The loop over the executor's results: one tool message each, in order,
        and the output notices to yield. */
    method AddToolMessages(results: seq<ToolResult>) returns (notices: seq<string>)
      requires session.Valid()
      modifies session
      ensures session.Valid()
      ensures session.history == old(session.history) + ToolMessages(results)
      ensures notices == OutputNotices(results)
    {
      notices := [];
      var j := 0;
      while j < |results|
        invariant 0 <= j <= |results|
        invariant session.Valid()
        invariant session.history == old(session.history) + ToolMessages(results[..j])
        invariant notices == OutputNotices(results[..j])
      {
        assert results[..j + 1][..j] == results[..j];
        AppendAssoc(old(session.history), ToolMessages(results[..j]), [ToolMessage(results[j])]);
        session.AddMessage(ToolMessage(results[j]));
        notices := notices + [OutputNotice(results[j])];
        j := j + 1;
      }
      assert results[..j] == results;
    }

    /** One pass of the loop body after the model call. */
    method TakeTurn(response: Result<Message, string>,
                    parse: string -> Option<Json>,
                    invoke: (Func, Json) -> Result<string, string>)
      returns (chunks: seq<string>, stop: Option<Outcome>)
      requires session.Valid()
      modifies session
      ensures session.Valid()
      ensures var e := Turn(registry.tools, old(session.history), response, parse, invoke);
        session.history == e.history && chunks == e.chunks && stop == e.stop
    {
      if response.Err? {
        return [], Some(Raised(response.error));
      }
      var msg := response.value;
      session.AddMessage(msg);
      if HasCalls(msg) {
        var calls := msg.toolCalls.value;
        chunks := [ExecutingNotice(|calls|)];
        var results := Execute(registry, calls, parse, invoke);
        var notices := AddToolMessages(results);
        chunks := chunks + notices;
        stop := None;
      } else {
        chunks := if Truthy(msg.content) then [msg.content.value] else [];
        stop := Some(Finished);
      }
    }

    /** run: the chunks it yields, the requests it makes, and how it ends;
        the session ends up holding the trace's history. */
    method Run(userInput: string, responses: seq<Result<Message, string>>,
               parse: string -> Option<Json>,
               invoke: (Func, Json) -> Result<string, string>)
      returns (chunks: seq<string>, requests: seq<Request>, outcome: Outcome)
      requires session.Valid()
      modifies session
      ensures session.Valid()
      ensures var t := RunTrace(registry.tools, registry.schemas, old(session.history), userInput, responses, parse, invoke);
        session.history == t.history && chunks == t.chunks && requests == t.requests && outcome == t.outcome
    {
      session.AddMessage(User(userInput));
      ghost var tools, schemas := registry.tools, registry.schemas;
      ghost var whole := Turns(tools, schemas, session.history, responses, parse, invoke);
      chunks, requests := [], [];
      AppendEmpty(whole.chunks);
      AppendEmpty(whole.requests);
      assert responses[0..] == responses;
      var step := 0;
      while step < |responses|
        invariant 0 <= step <= |responses|
        invariant session.Valid()
        invariant var rest := Turns(tools, schemas, session.history, responses[step..], parse, invoke);
          whole == Trace(rest.history, chunks + rest.chunks, requests + rest.requests, rest.outcome)
        decreases |responses| - step
      {
        ghost var chunks0, requests0 := chunks, requests;
        ghost var remaining := responses[step..];
        assert remaining[0] == responses[step];
        assert remaining[1..] == responses[step + 1..];
        var request := Request(session.GetMessages(), ToolsArgument(registry.GetSchemas()));
        requests := requests + [request];
        var turnChunks, stop := TakeTurn(responses[step], parse, invoke);
        chunks := chunks + turnChunks;
        if stop.Some? {
          outcome := stop.value;
          return;
        }
        ghost var rest := Turns(tools, schemas, session.history, responses[step + 1..], parse, invoke);
        AppendAssoc(chunks0, turnChunks, rest.chunks);
        AppendAssoc(requests0, [request], rest.requests);
        step := step + 1;
      }
      AppendEmpty(chunks);
      AppendEmpty(requests);
      outcome := Exhausted;
    }
  }

  // ---------------------------------------------------------------------------
  // What a run does

  /** Index of the first answer that ends the loop (one without tool calls, or a raise). */
  function FirstStop(responses: seq<Result<Message, string>>): (k: nat)
    ensures k <= |responses|
    ensures forall j :: 0 <= j < k ==> responses[j].Ok? && HasCalls(responses[j].value)
    ensures k < |responses| ==> !(responses[k].Ok? && HasCalls(responses[k].value))
    decreases |responses|
  {
    if |responses| == 0 then 0
    else if responses[0].Ok? && HasCalls(responses[0].value) then 1 + FirstStop(responses[1..])
    else 0
  }

  /** The run asks the model once per answer up to and including the first answer
      without tool calls; it finishes there, re-raises a client error, or runs
      past the given answers when every one of them requests tools. */
  lemma {:induction false} TurnsOutcome(tools: map<string, Func>, schemas: seq<Schema>, history: seq<Message>,
                                        responses: seq<Result<Message, string>>,
                                        parse: string -> Option<Json>,
                                        invoke: (Func, Json) -> Result<string, string>)
    ensures var t := Turns(tools, schemas, history, responses, parse, invoke);
      var k := FirstStop(responses);
      (k == |responses| ==> t.outcome == Exhausted && |t.requests| == |responses|) &&
      (k < |responses| && responses[k].Err? ==> t.outcome == Raised(responses[k].error) && |t.requests| == k + 1) &&
      (k < |responses| && responses[k].Ok? ==> t.outcome == Finished && |t.requests| == k + 1)
    decreases |responses|
  {
    if |responses| > 0 {
      var e := Turn(tools, history, responses[0], parse, invoke);
      if e.stop.None? {
        var tail := responses[1..];
        TurnsOutcome(tools, schemas, e.history, tail, parse, invoke);
        var k := FirstStop(tail);
        assert FirstStop(responses) == 1 + k;
        if k < |tail| {
          assert responses[k + 1] == tail[k];
        }
      }
    }
  }

  /** History only grows: the run appends to the history it started from. */
  lemma {:induction false} TurnsAppendOnly(tools: map<string, Func>, schemas: seq<Schema>, history: seq<Message>,
                                           responses: seq<Result<Message, string>>,
                                           parse: string -> Option<Json>,
                                           invoke: (Func, Json) -> Result<string, string>)
    ensures history <= Turns(tools, schemas, history, responses, parse, invoke).history
    decreases |responses|
  {
    if |responses| > 0 {
      var e := Turn(tools, history, responses[0], parse, invoke);
      if e.stop.None? {
        TurnsAppendOnly(tools, schemas, e.history, responses[1..], parse, invoke);
        PrefixTransitive(history, e.history, Turns(tools, schemas, e.history, responses[1..], parse, invoke).history);
      }
    }
  }

  /** The messages one answer adds to the history: none for a raise, the
      assistant message, and after it one tool message per call when it has calls. */
  function Answered(tools: map<string, Func>, response: Result<Message, string>,
                    parse: string -> Option<Json>,
                    invoke: (Func, Json) -> Result<string, string>): seq<Message>
  {
    match response
    case Err(_) => []
    case Ok(m) =>
      if HasCalls(m) then [m] + ToolMessages(ExecuteAll(tools, m.toolCalls.value, parse, invoke)) else [m]
  }

  /** The messages a list of answers adds, in order. */
  function Added(tools: map<string, Func>, responses: seq<Result<Message, string>>,
                 parse: string -> Option<Json>,
                 invoke: (Func, Json) -> Result<string, string>): seq<Message>
    decreases |responses|
  {
    if |responses| == 0 then []
    else Answered(tools, responses[0], parse, invoke) + Added(tools, responses[1..], parse, invoke)
  }

  /** A turn extends the history by what its answer adds. */
  lemma TurnAnswered(tools: map<string, Func>, history: seq<Message>, response: Result<Message, string>,
                     parse: string -> Option<Json>,
                     invoke: (Func, Json) -> Result<string, string>)
    ensures Turn(tools, history, response, parse, invoke).history == history + Answered(tools, response, parse, invoke)
  {
  }

  /** The first i + 1 answers add what the first adds and then what the next i add. */
  lemma AddedCons(tools: map<string, Func>, responses: seq<Result<Message, string>>, i: nat,
                  parse: string -> Option<Json>,
                  invoke: (Func, Json) -> Result<string, string>)
    requires i < |responses|
    ensures Added(tools, responses[..i + 1], parse, invoke)
      == Answered(tools, responses[0], parse, invoke) + Added(tools, responses[1..][..i], parse, invoke)
  {
    assert responses[..i + 1][1..] == responses[1..][..i];
  }

  /** Request i of trace t shows the model the encoding of the starting
      history followed by everything the first i answers added, and the
      registry's schemas (or None when there are none); the run ends holding
      what all the answered requests added. */
  ghost predicate ShowsAdded(t: Trace, tools: map<string, Func>, schemas: seq<Schema>, history: seq<Message>,
                             responses: seq<Result<Message, string>>,
                             parse: string -> Option<Json>,
                             invoke: (Func, Json) -> Result<string, string>)
  {
    |t.requests| <= |responses| &&
    (forall i :: 0 <= i < |t.requests| ==>
      t.requests[i] == Request(EncodeAll(history + Added(tools, responses[..i], parse, invoke)), ToolsArgument(schemas))) &&
    t.history == history + Added(tools, responses[..|t.requests|], parse, invoke)
  }

  /** Every request shows the whole history up to that point: the history
      the run started from and every message added since, in order. */
  lemma {:induction false} RequestsShowHistory(tools: map<string, Func>, schemas: seq<Schema>, history: seq<Message>,
                                               responses: seq<Result<Message, string>>,
                                               parse: string -> Option<Json>,
                                               invoke: (Func, Json) -> Result<string, string>)
    ensures ShowsAdded(Turns(tools, schemas, history, responses, parse, invoke), tools, schemas, history, responses, parse, invoke)
    decreases |responses|
  {
    if |responses| == 0 {
      AppendEmpty(history);
    } else {
      var e := Turn(tools, history, responses[0], parse, invoke);
      if e.stop.Some? {
        StoppingTurnShows(tools, schemas, history, responses, parse, invoke);
      } else {
        RequestsShowHistory(tools, schemas, e.history, responses[1..], parse, invoke);
        ContinuingTurnShows(tools, schemas, history, responses, parse, invoke);
      }
    }
  }

  /** A run that stops at its first answer made one request, of the starting history. */
  lemma StoppingTurnShows(tools: map<string, Func>, schemas: seq<Schema>, history: seq<Message>,
                          responses: seq<Result<Message, string>>,
                          parse: string -> Option<Json>,
                          invoke: (Func, Json) -> Result<string, string>)
    requires |responses| > 0 && Turn(tools, history, responses[0], parse, invoke).stop.Some?
    ensures ShowsAdded(Turns(tools, schemas, history, responses, parse, invoke), tools, schemas, history, responses, parse, invoke)
  {
  }

  /** A run whose first answer has calls puts the request of the starting
      history in front of the requests of the rest of the run. */
  lemma ContinuingTurnShows(tools: map<string, Func>, schemas: seq<Schema>, history: seq<Message>,
                            responses: seq<Result<Message, string>>,
                            parse: string -> Option<Json>,
                            invoke: (Func, Json) -> Result<string, string>)
    requires |responses| > 0 && Turn(tools, history, responses[0], parse, invoke).stop.None?
    requires var e := Turn(tools, history, responses[0], parse, invoke);
      ShowsAdded(Turns(tools, schemas, e.history, responses[1..], parse, invoke), tools, schemas, e.history, responses[1..], parse, invoke)
    ensures ShowsAdded(Turns(tools, schemas, history, responses, parse, invoke), tools, schemas, history, responses, parse, invoke)
  {
    var e := Turn(tools, history, responses[0], parse, invoke);
    TurnAnswered(tools, history, responses[0], parse, invoke);
    ConsShows(Turns(tools, schemas, history, responses, parse, invoke),
              Turns(tools, schemas, e.history, responses[1..], parse, invoke),
              tools, schemas, history, responses, parse, invoke);
  }

  /** The request of the starting history in front of the requests of a run
      from the history the first answer leaves. */
  lemma ConsShows(t: Trace, rest: Trace, tools: map<string, Func>, schemas: seq<Schema>, history: seq<Message>,
                  responses: seq<Result<Message, string>>,
                  parse: string -> Option<Json>,
                  invoke: (Func, Json) -> Result<string, string>)
    requires |responses| > 0
    requires t.requests == [Request(EncodeAll(history), ToolsArgument(schemas))] + rest.requests
    requires t.history == rest.history
    requires ShowsAdded(rest, tools, schemas, history + Answered(tools, responses[0], parse, invoke), responses[1..], parse, invoke)
    ensures ShowsAdded(t, tools, schemas, history, responses, parse, invoke)
  {
    var tail := responses[1..];
    var r0 := Answered(tools, responses[0], parse, invoke);
    assert responses[..0] == [];
    AppendEmpty(history);
    forall i | 0 < i < |t.requests|
      ensures t.requests[i] == Request(EncodeAll(history + Added(tools, responses[..i], parse, invoke)), ToolsArgument(schemas))
    {
      assert t.requests[i] == rest.requests[i - 1];
      AddedCons(tools, responses, i - 1, parse, invoke);
      AppendAssoc(history, r0, Added(tools, tail[..i - 1], parse, invoke));
    }
    AddedCons(tools, responses, |rest.requests|, parse, invoke);
    AppendAssoc(history, r0, Added(tools, tail[..|rest.requests|], parse, invoke));
  }

  /** A turn that requests tools adds the assistant message and then one tool
      message per call, in call order and carrying the call's id and name, and
      yields the count notice followed by one output notice per call. */
  lemma CallTurnAnswersEveryCall(tools: map<string, Func>, history: seq<Message>, m: Message,
                                 parse: string -> Option<Json>,
                                 invoke: (Func, Json) -> Result<string, string>)
    requires HasCalls(m)
    ensures var e := Turn(tools, history, Ok(m), parse, invoke);
      var calls := m.toolCalls.value;
      var n := |history|;
      e.stop.None? &&
      |e.history| == n + 1 + |calls| && e.history[..n] == history && e.history[n] == m &&
      (forall i :: 0 <= i < |calls| ==>
        e.history[n + 1 + i].role == ToolRole &&
        e.history[n + 1 + i].toolCallId == calls[i].id &&
        e.history[n + 1 + i].name == CallName(calls[i]) &&
        e.history[n + 1 + i].content == Some(CallResult(tools, calls[i], parse, invoke).content)) &&
      |e.chunks| == 1 + |calls| && e.chunks[0] == ExecutingNotice(|calls|) &&
      (forall i :: 0 <= i < |calls| ==> e.chunks[1 + i] == OutputNotice(CallResult(tools, calls[i], parse, invoke)))
  {
    var calls := m.toolCalls.value;
    var results := ExecuteAll(tools, calls, parse, invoke);
    var e := Turn(tools, history, Ok(m), parse, invoke);
    assert e == TurnEnd(history + [m] + ToolMessages(results), [ExecutingNotice(|calls|)] + OutputNotices(results), None);
    AppendedAt(history, m, ToolMessages(results));
    AppendedAt([], ExecutingNotice(|calls|), OutputNotices(results));
    assert [] + [ExecutingNotice(|calls|)] == [ExecutingNotice(|calls|)];
  }

  /** Where the parts of a + [x] + b sit. */
  lemma AppendedAt<T>(a: seq<T>, x: T, b: seq<T>)
    ensures var s := a + [x] + b;
      |s| == |a| + 1 + |b| && s[..|a|] == a && s[|a|] == x &&
      forall i :: 0 <= i < |b| ==> s[|a| + 1 + i] == b[i]
  {
  }

  /** Whatever follows, the messages of an earlier turn stay where they are. */
  lemma {:induction false} TurnsKeepsTurn(tools: map<string, Func>, schemas: seq<Schema>, history: seq<Message>,
                                          responses: seq<Result<Message, string>>,
                                          parse: string -> Option<Json>,
                                          invoke: (Func, Json) -> Result<string, string>)
    requires |responses| > 0
    ensures var e := Turn(tools, history, responses[0], parse, invoke);
      var t := Turns(tools, schemas, history, responses, parse, invoke);
      e.history <= t.history && e.chunks <= t.chunks
  {
    var e := Turn(tools, history, responses[0], parse, invoke);
    if e.stop.None? {
      TurnsAppendOnly(tools, schemas, e.history, responses[1..], parse, invoke);
    }
  }

  /** The single-reply run: one request holding the old history and the user
      message; the reply's text is the only chunk; two messages are added. */
  lemma PlainReply(tools: map<string, Func>, schemas: seq<Schema>, history: seq<Message>, userInput: string,
                   text: string, rest: seq<Result<Message, string>>,
                   parse: string -> Option<Json>,
                   invoke: (Func, Json) -> Result<string, string>)
    requires text != ""
    ensures var t := RunTrace(tools, schemas, history, userInput, [Ok(Assistant(Some(text), None))] + rest, parse, invoke);
      t.outcome == Finished &&
      t.chunks == [text] &&
      t.history == history + [User(userInput), Assistant(Some(text), None)] &&
      t.requests == [Request(EncodeAll(history + [User(userInput)]), ToolsArgument(schemas))]
  {
    assert (history + [User(userInput)]) + [Assistant(Some(text), None)]
        == history + [User(userInput), Assistant(Some(text), None)];
  }

  /** A client mirroring tests/core/test_agent.py: a fresh session, one plain reply. */
  method PlainReplyScenario(registry: ToolRegistry, parse: string -> Option<Json>,
                            invoke: (Func, Json) -> Result<string, string>)
  {
    var session := new Session(DefaultSystemPrompt);
    var agent := new Agent(session, registry);
    PlainReply(registry.tools, registry.schemas, [System(DefaultSystemPrompt)], "Hi", "Hello User", [], parse, invoke);
    var script: seq<Result<Message, string>> := [Ok(Assistant(Some("Hello User"), None))];
    assert script + [] == script;
    var chunks, requests, outcome := agent.Run("Hi", script, parse, invoke);
    assert chunks == ["Hello User"];
    assert |session.history| == 3;
    assert session.history[1].content == Some("Hi") && session.history[2].content == Some("Hello User");
  }
}
