/** A conversation message and its OpenAI wire encoding
    (codeagent/core/message.py). The encoder omits every absent optional
    field instead of sending it as null. */
module Messages {
  import opened Common

  datatype Role = SystemRole | UserRole | AssistantRole | ToolRole

  function RoleName(r: Role): string {
    match r
    case SystemRole => "system"
    case UserRole => "user"
    case AssistantRole => "assistant"
    case ToolRole => "tool"
  }

  /** The `function` part of a requested call; an absent key is None. */
  datatype FunctionCall = FunctionCall(name: Option<string>, arguments: Option<string>)

  /** One requested tool call, as the model client hands it over. */
  datatype ToolCall = ToolCall(id: Option<string>, fn: Option<FunctionCall>)

  datatype Message = Message(
    role: Role,
    content: Option<string>,
    toolCalls: Option<seq<ToolCall>>,
    toolCallId: Option<string>,
    name: Option<string>)

  function System(content: string): Message {
    Message(SystemRole, Some(content), None, None, None)
  }

  function User(content: string): Message {
    Message(UserRole, Some(content), None, None, None)
  }

  function Assistant(content: Option<string>, toolCalls: Option<seq<ToolCall>>): Message {
    Message(AssistantRole, content, toolCalls, None, None)
  }

  function Tool(toolCallId: string, content: string, name: string): Message {
    Message(ToolRole, Some(content), None, Some(toolCallId), Some(name))
  }

  /** A value of the encoded dictionary. */
  datatype WireValue = Str(s: string) | Calls(calls: seq<ToolCall>)

  type Wire = map<string, WireValue>

  /** Message.to_openai_format: "role" always; "content" whenever it is not None
      (an empty string is kept); "tool_calls" only for a non-empty list;
      "tool_call_id" and "name" only when they are non-empty strings. */
  function ToOpenAIFormat(m: Message): (d: Wire)
    ensures "role" in d && d["role"] == Str(RoleName(m.role))
    ensures "content" in d <==> m.content.Some?
    ensures "content" in d ==> d["content"] == Str(m.content.value)
    ensures "tool_calls" in d <==> m.toolCalls.Some? && |m.toolCalls.value| > 0
    ensures "tool_calls" in d ==> d["tool_calls"] == Calls(m.toolCalls.value)
    ensures "tool_call_id" in d <==> Truthy(m.toolCallId)
    ensures "tool_call_id" in d ==> d["tool_call_id"] == Str(m.toolCallId.value)
    ensures "name" in d <==> Truthy(m.name)
    ensures "name" in d ==> d["name"] == Str(m.name.value)
    ensures d.Keys <= {"role", "content", "tool_calls", "tool_call_id", "name"}
  {
    var d0 := map["role" := Str(RoleName(m.role))];
    var d1 := if m.content.Some? then d0["content" := Str(m.content.value)] else d0;
    var d2 := if m.toolCalls.Some? && |m.toolCalls.value| > 0 then d1["tool_calls" := Calls(m.toolCalls.value)] else d1;
    var d3 := if Truthy(m.toolCallId) then d2["tool_call_id" := Str(m.toolCallId.value)] else d2;
    if Truthy(m.name) then d3["name" := Str(m.name.value)] else d3
  }

  /** The encoding of every message of a history, in order. */
  function EncodeAll(h: seq<Message>): (r: seq<Wire>)
    ensures |r| == |h|
    ensures forall i :: 0 <= i < |h| ==> r[i] == ToOpenAIFormat(h[i])
  {
    seq(|h|, i requires 0 <= i < |h| => ToOpenAIFormat(h[i]))
  }

  // ---------------------------------------------------------------------------
  // What the encoding keeps: a message up to the fields the encoder drops

  /** The message the encoder cannot tell apart from m: an empty tool-call list
      reads as absent, and so does an empty tool_call_id or name. */
  function Normalize(m: Message): Message {
    Message(
      m.role,
      m.content,
      if m.toolCalls.Some? && |m.toolCalls.value| > 0 then m.toolCalls else None,
      if Truthy(m.toolCallId) then m.toolCallId else None,
      if Truthy(m.name) then m.name else None)
  }

  function RoleOf(s: string): Option<Role> {
    if s == "system" then Some(SystemRole)
    else if s == "user" then Some(UserRole)
    else if s == "assistant" then Some(AssistantRole)
    else if s == "tool" then Some(ToolRole)
    else None
  }

  function StrField(d: Wire, key: string): Option<string> {
    if key in d && d[key].Str? then Some(d[key].s) else None
  }

  /** Reads an encoded dictionary back into a message. */
  function Decode(d: Wire): Option<Message> {
    if "role" in d && d["role"].Str? && RoleOf(d["role"].s).Some? then
      Some(Message(
        RoleOf(d["role"].s).value,
        StrField(d, "content"),
        if "tool_calls" in d && d["tool_calls"].Calls? then Some(d["tool_calls"].calls) else None,
        StrField(d, "tool_call_id"),
        StrField(d, "name")))
    else None
  }

  /** Decoding an encoded message gives back its normal form. */
  lemma DecodeEncode(m: Message)
    ensures Decode(ToOpenAIFormat(m)) == Some(Normalize(m))
  {
    match m.role
    case SystemRole =>
    case UserRole =>
    case AssistantRole =>
    case ToolRole =>
  }

  /** Two messages encode alike exactly when they have the same normal form. */
  lemma EncodeInjective(a: Message, b: Message)
    ensures ToOpenAIFormat(a) == ToOpenAIFormat(b) <==> Normalize(a) == Normalize(b)
  {
    DecodeEncode(a);
    DecodeEncode(b);
    if Normalize(a) == Normalize(b) {
      var da, db := ToOpenAIFormat(a), ToOpenAIFormat(b);
      assert da.Keys == db.Keys;
      assert forall k :: k in da ==> da[k] == db[k];
    }
  }

  // ---------------------------------------------------------------------------
  // The factories' encodings (tests/core/test_message.py)

  lemma UserFormat(c: string)
    ensures ToOpenAIFormat(User(c)) == map["role" := Str("user"), "content" := Str(c)]
  {
    var d := ToOpenAIFormat(User(c));
    assert d.Keys == {"role", "content"};
  }

  lemma SystemFormat(c: string)
    ensures ToOpenAIFormat(System(c)) == map["role" := Str("system"), "content" := Str(c)]
  {
    var d := ToOpenAIFormat(System(c));
    assert d.Keys == {"role", "content"};
  }

  /** A tool result with a non-empty id and name encodes to exactly four keys. */
  lemma ToolFormat(id: string, c: string, n: string)
    requires id != "" && n != ""
    ensures ToOpenAIFormat(Tool(id, c, n))
         == map["role" := Str("tool"), "tool_call_id" := Str(id), "content" := Str(c), "name" := Str(n)]
  {
    var d := ToOpenAIFormat(Tool(id, c, n));
    assert d.Keys == {"role", "tool_call_id", "content", "name"};
  }

  /** An assistant turn that only requests tools carries no content key. */
  lemma AssistantCallsFormat(calls: seq<ToolCall>)
    requires |calls| > 0
    ensures ToOpenAIFormat(Assistant(None, Some(calls)))
         == map["role" := Str("assistant"), "tool_calls" := Calls(calls)]
  {
    var d := ToOpenAIFormat(Assistant(None, Some(calls)));
    assert d.Keys == {"role", "tool_calls"};
  }
}
