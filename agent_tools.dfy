/** Sub-agent delegation (codeagent/tools/agent_tools.py): submit_task runs a
    fresh agent on its own session, seeded with a prompt naming the goal, and
    answers with the concatenation of everything the sub-run yielded. The
    sub-run's model answers are given as a finite script, as for Agent.run. */
module AgentTools {
  import opened Common
  import opened Messages
  import opened Sessions
  import opened Registry
  import opened Executor
  import opened AgentLoop

  const NoOutput: string := "Task completed (no output)."
  const ErrorPrefix: string := "Error executing sub-task: "

  const PromptOpening: string := "You are a sub-agent working on a specific task: "
  const PromptClosing: string := ".\nUse available tools to complete the task.\n"
    + "When finished, provide a concise summary of what you did."

  /** The system prompt of the sub-session. */
  function SubAgentPrompt(goal: string): string {
    PromptOpening + goal + PromptClosing
  }

  /** The sub-run: a fresh session holding only the sub-agent prompt, then
      Agent.run with the goal as the user input. */
  function SubAgentTrace(tools: map<string, Func>, schemas: seq<Schema>, goal: string,
                         responses: seq<Result<Message, string>>,
                         parse: string -> Option<Json>,
                         invoke: (Func, Json) -> Result<string, string>): Trace
  {
    RunTrace(tools, schemas, [System(SubAgentPrompt(goal))], goal, responses, parse, invoke)
  }

  /** What submit_task returns for a sub-run: the error text when the run
      raised (its chunks are dropped), otherwise the concatenated chunks, or
      the fallback when that concatenation is empty. */
  function Reply(t: Trace): string {
    if t.outcome.Raised? then ErrorPrefix + t.outcome.error
    else
      var answer := Concat(t.chunks);
      if answer != "" then answer else NoOutput
  }

  /** submit_task. The sub-agent shares the registry but not the caller's
      session; the script must end the sub-run, as the real model eventually does. */
  method SubmitTask(registry: ToolRegistry, goal: string,
                    responses: seq<Result<Message, string>>,
                    parse: string -> Option<Json>,
                    invoke: (Func, Json) -> Result<string, string>)
    returns (reply: string)
    requires FirstStop(responses) < |responses|
    ensures reply == Reply(SubAgentTrace(registry.tools, registry.schemas, goal, responses, parse, invoke))
    ensures reply != ""
  {
    var subSession := new Session(SubAgentPrompt(goal));
    var subAgent := new Agent(subSession, registry);
    var chunks, requests, outcome := subAgent.Run(goal, responses, parse, invoke);
    if outcome.Raised? {
      reply := ErrorPrefix + outcome.error;
      return;
    }
    var finalAnswer := "";
    var i := 0;
    while i < |chunks|
      invariant 0 <= i <= |chunks|
      invariant finalAnswer == Concat(chunks[..i])
    {
      assert chunks[..i + 1][..i] == chunks[..i];
      finalAnswer := finalAnswer + chunks[i];
      i := i + 1;
    }
    assert chunks[..i] == chunks;
    reply := if finalAnswer != "" then finalAnswer else NoOutput;
  }

  // ---------------------------------------------------------------------------
  // What the reply says

  /** The prompt names the goal, after the fixed opening. */
  lemma PromptNamesGoal(goal: string)
    ensures Contains(SubAgentPrompt(goal), goal)
    ensures PromptOpening <= SubAgentPrompt(goal)
  {
    ContainsParts(PromptOpening, goal, PromptClosing);
  }

  /** The sub-agent's first request carries only its own prompt and the goal:
      nothing from the caller's conversation reaches it. */
  lemma FirstRequestIsFresh(tools: map<string, Func>, schemas: seq<Schema>, goal: string,
                            responses: seq<Result<Message, string>>,
                            parse: string -> Option<Json>,
                            invoke: (Func, Json) -> Result<string, string>)
    requires |responses| > 0
    ensures var t := SubAgentTrace(tools, schemas, goal, responses, parse, invoke);
      |t.requests| > 0 &&
      t.requests[0].messages == [ToOpenAIFormat(System(SubAgentPrompt(goal))), ToOpenAIFormat(User(goal))]
  {
    var h := [System(SubAgentPrompt(goal))] + [User(goal)];
    assert EncodeAll(h)[0] == ToOpenAIFormat(h[0]);
    assert EncodeAll(h)[1] == ToOpenAIFormat(h[1]);
  }

  /** An answer is never empty. */
  lemma ReplyNonEmpty(t: Trace)
    ensures Reply(t) != ""
  {
  }

  /** A run that did not raise answers with every chunk, in order: the text of
      chunk k sits between the chunks before it and those after it. The
      fallback is used exactly when every chunk is empty. */
  lemma ReplyIsChunksInOrder(t: Trace, k: nat)
    requires !t.outcome.Raised?
    requires k < |t.chunks|
    ensures t.chunks[k] != "" ==>
      Reply(t) == Concat(t.chunks[..k]) + t.chunks[k] + Concat(t.chunks[k + 1..])
    ensures (forall i :: 0 <= i < |t.chunks| ==> t.chunks[i] == "") <==> Concat(t.chunks) == ""
    ensures Concat(t.chunks) == "" ==> Reply(t) == NoOutput
  {
    ConcatAround(t.chunks, k);
    ConcatEmpty(t.chunks);
  }

  /** A client error on any answer is reported, not raised, whatever was yielded before. */
  lemma RaisedRunReportsError(tools: map<string, Func>, schemas: seq<Schema>, goal: string,
                              responses: seq<Result<Message, string>>,
                              parse: string -> Option<Json>,
                              invoke: (Func, Json) -> Result<string, string>)
    requires FirstStop(responses) < |responses| && responses[FirstStop(responses)].Err?
    ensures Reply(SubAgentTrace(tools, schemas, goal, responses, parse, invoke))
      == ErrorPrefix + responses[FirstStop(responses)].error
  {
    TurnsOutcome(tools, schemas, [System(SubAgentPrompt(goal))] + [User(goal)], responses, parse, invoke);
  }

  /** A sub-agent that answers at once with a non-empty text returns exactly that text. */
  lemma PlainAnswerIsReply(tools: map<string, Func>, schemas: seq<Schema>, goal: string, text: string,
                           parse: string -> Option<Json>,
                           invoke: (Func, Json) -> Result<string, string>)
    requires text != ""
    ensures Reply(SubAgentTrace(tools, schemas, goal, [Ok(Assistant(Some(text), None))], parse, invoke)) == text
  {
    var script: seq<Result<Message, string>> := [Ok(Assistant(Some(text), None))];
    assert script == script + [];
    PlainReply(tools, schemas, [System(SubAgentPrompt(goal))], goal, text, [], parse, invoke);
    assert Concat([text]) == Concat([text][..0]) + text;
  }

  /** A sub-agent whose only answer has no content falls back to the placeholder. */
  lemma SilentAnswerFallsBack(tools: map<string, Func>, schemas: seq<Schema>, goal: string,
                              parse: string -> Option<Json>,
                              invoke: (Func, Json) -> Result<string, string>)
    ensures Reply(SubAgentTrace(tools, schemas, goal, [Ok(Assistant(None, None))], parse, invoke)) == NoOutput
  {
  }

  /** The mocked sub-agent of tests/tools/test_agent_tools.py: a run that
      yields "I have ", "completed " and "the task." and ends normally makes
      submit_task return "I have completed the task.", whatever the history
      and requests were. */
  lemma StreamedAnswer(history: seq<Message>, requests: seq<Request>)
    ensures Reply(Trace(history, ["I have ", "completed ", "the task."], requests, Finished)) == "I have completed the task."
  {
    var cs := ["I have ", "completed ", "the task."];
    assert cs[..2] == ["I have ", "completed "] && cs[..2][..1] == ["I have "] && cs[..2][..1][..0] == [];
    assert Concat(cs[..2][..1]) == "I have ";
    assert Concat(cs[..2]) == "I have " + "completed ";
    assert Concat(cs) == Concat(cs[..2]) + "the task.";
    assert Concat(cs) == "I have completed the task.";
    assert |Concat(cs)| > 0;
  }
}
