/** The conversation history (codeagent/core/session.py): an append-only list
    of messages whose first element is always the system prompt. */
module Sessions {
  import opened Common
  import opened Messages

  const DefaultSystemPrompt: string := "You are a helpful coding assistant."

  class Session {
    const systemPrompt: string
    var history: seq<Message>

    /** The session invariant: the system prompt sits at index 0. */
    ghost predicate Valid()
      reads this
    {
      |history| >= 1 && history[0] == System(systemPrompt)
    }

    /** Session(system_prompt): a history holding only the system message. */
    constructor (systemPrompt: string)
      ensures Valid()
      ensures this.systemPrompt == systemPrompt
      ensures history == [System(systemPrompt)]
    {
      this.systemPrompt := systemPrompt;
      history := [System(systemPrompt)];
    }

    /** add_message: appends at the end; every earlier message is unchanged. */
    method AddMessage(m: Message)
      requires Valid()
      modifies this
      ensures Valid()
      ensures history == old(history) + [m]
    {
      history := history + [m];
    }

    /** get_messages: the encodings of the history, same length and order. */
    function GetMessages(): (r: seq<Wire>)
      reads this
      ensures |r| == |history|
      ensures forall i :: 0 <= i < |r| ==> r[i] == ToOpenAIFormat(history[i])
      ensures r == EncodeAll(history)
    {
      EncodeAll(history)
    }

    /** clear: back to the single system message built from the stored prompt. */
    method Clear()
      requires Valid()
      modifies this
      ensures Valid()
      ensures history == [System(systemPrompt)]
    {
      history := [System(systemPrompt)];
    }
  }

  /** A session operation, for reasoning about any sequence of them. */
  datatype SessionOp = Add(m: Message) | ClearOp

  /** The history after applying ops in order to h. */
  function Replay(prompt: string, h: seq<Message>, ops: seq<SessionOp>): seq<Message> {
    if |ops| == 0 then h
    else
      var h' := Replay(prompt, h, ops[..|ops| - 1]);
      match ops[|ops| - 1]
      case Add(m) => h' + [m]
      case ClearOp => [System(prompt)]
  }

  /** Under any sequence of add_message and clear calls index 0 stays the system message. */
  lemma {:induction false} ReplayKeepsSystemPrompt(prompt: string, ops: seq<SessionOp>)
    ensures var h := Replay(prompt, [System(prompt)], ops); |h| >= 1 && h[0] == System(prompt)
  {
    if |ops| > 0 {
      ReplayKeepsSystemPrompt(prompt, ops[..|ops| - 1]);
    }
  }

  /** The history after ops is the system message, then the messages added since the last clear. */
  lemma {:induction false} ReplayIsSinceLastClear(prompt: string, ops: seq<SessionOp>)
    ensures Replay(prompt, [System(prompt)], ops) == [System(prompt)] + AddedSinceClear(ops)
  {
    if |ops| > 0 {
      ReplayIsSinceLastClear(prompt, ops[..|ops| - 1]);
    }
  }

  function AddedSinceClear(ops: seq<SessionOp>): seq<Message> {
    if |ops| == 0 then []
    else
      match ops[|ops| - 1]
      case Add(m) => AddedSinceClear(ops[..|ops| - 1]) + [m]
      case ClearOp => []
  }

  /** A client exercising the session operations as tests/core/test_session.py does. */
  method SessionScenario(prompt: string)
  {
    var s := new Session(prompt);
    assert |s.history| == 1 && s.history[0].role == SystemRole;
    s.AddMessage(User("Hi"));
    assert |s.history| == 2 && s.history[1] == User("Hi");
    UserFormat("Hi");
    assert s.GetMessages()[1] == map["role" := Str("user"), "content" := Str("Hi")];
    s.Clear();
    assert |s.history| == 1 && s.history[0] == System(prompt);
  }
}
