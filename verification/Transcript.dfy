/** internal/agent/message and the translations of internal/agent/session.go: what
    a conversation looks like, and that its shape survives the way to the model. */
module Transcript {
  import opened Text

  datatype Role = User | Assistant | Tool | Steering

  datatype ToolCall = ToolCall(id: string, name: string, args: string)

  datatype ToolResult = ToolResult(callID: string, content: string, isError: bool)

  datatype Message = Message(role: Role, content: string, calls: seq<ToolCall>, result: Option<ToolResult>)

  function UserMessage(content: string): Message {
    Message(User, content, [], None)
  }

  function SteeringMessage(content: string): Message {
    Message(Steering, content, [], None)
  }

  // ---- the model's side ----

  datatype Part =
    | TextPart(text: string)
    | CallPart(call: ToolCall)
    | ResultPart(result: ToolResult)
    | OtherPart(payload: string)

  datatype LLMRole = SystemRole | UserRole | AssistantRole | ToolRole

  datatype LLMMessage = LLMMessage(role: LLMRole, parts: seq<Part>, toolCallID: string)

  datatype Usage = Usage(input: int, output: int, total: int, reasoning: int, cacheRead: int, cacheWrite: int)

  const NO_USAGE := Usage(0, 0, 0, 0, 0, 0)

  function Plus(a: Usage, b: Usage): Usage {
    Usage(a.input + b.input, a.output + b.output, a.total + b.total,
          a.reasoning + b.reasoning, a.cacheRead + b.cacheRead, a.cacheWrite + b.cacheWrite)
  }

  datatype Response = Response(parts: seq<Part>, usage: Usage)

  function TextOf(parts: seq<Part>): string {
    if parts == [] then ""
    else (if parts[0].TextPart? then parts[0].text else "") + TextOf(parts[1..])
  }

  function CallsOf(parts: seq<Part>): seq<ToolCall> {
    if parts == [] then []
    else (if parts[0].CallPart? then [parts[0].call] else []) + CallsOf(parts[1..])
  }

  function ResponseToMessage(r: Response): Message {
    Message(Assistant, TextOf(r.parts), CallsOf(r.parts), None)
  }

  function CallParts(calls: seq<ToolCall>): seq<Part> {
    seq(|calls|, i requires 0 <= i < |calls| => CallPart(calls[i]))
  }

  function TextMessage(role: LLMRole, text: string): LLMMessage {
    LLMMessage(role, [TextPart(text)], "")
  }

  function ToLLM(m: Message): LLMMessage {
    match m.role
    case Assistant =>
      LLMMessage(AssistantRole, (if m.content != "" then [TextPart(m.content)] else []) + CallParts(m.calls), "")
    case Tool =>
      if m.result.Some? then LLMMessage(ToolRole, [ResultPart(m.result.value)], m.result.value.callID)
      else TextMessage(UserRole, m.content)
    case Steering => TextMessage(UserRole, "[SYSTEM] " + m.content)
    case User => TextMessage(UserRole, m.content)
  }

  /** The messages of a request. */
  function ToRequest(system: string, messages: seq<Message>): seq<LLMMessage> {
    [TextMessage(SystemRole, system)] + seq(|messages|, i requires 0 <= i < |messages| => ToLLM(messages[i]))
  }

  // ---- the grammar ----

  datatype Turn =
    | Asked(content: string)
    | Replied(assistant: Message, results: seq<Message>, steering: seq<Message>)

  function Messages(t: Turn): seq<Message> {
    match t
    case Asked(content) => [UserMessage(content)]
    case Replied(assistant, results, steering) => [assistant] + results + steering
  }

  function Flatten(turns: seq<Turn>): seq<Message> {
    if turns == [] then [] else Flatten(turns[..|turns| - 1]) + Messages(turns[|turns| - 1])
  }

  predicate Answers(m: Message, call: ToolCall) {
    m.role == Tool && m.result.Some? && m.result.value.callID == call.id && m.calls == []
  }

  predicate AllSteering(ms: seq<Message>) {
    forall i :: 0 <= i < |ms| ==> ms[i] == SteeringMessage(ms[i].content)
  }

  /** A reply: its results answer its calls one to one, in order; steering comes
      after the results, and only when there were calls. */
  predicate GoodTurn(t: Turn) {
    t.Replied? ==>
      && t.assistant.role == Assistant && t.assistant.result == None
      && |t.results| == |t.assistant.calls|
      && (forall j :: 0 <= j < |t.results| ==> Answers(t.results[j], t.assistant.calls[j]))
      && AllSteering(t.steering)
      && (t.assistant.calls == [] ==> t.steering == [])
  }

  /** A reply without calls is followed by a user message or by nothing. */
  predicate GoodTurns(turns: seq<Turn>) {
    && (forall i :: 0 <= i < |turns| ==> GoodTurn(turns[i]))
    && (forall i :: 0 <= i < |turns| - 1 && turns[i].Replied? && turns[i].assistant.calls == [] ==> turns[i + 1].Asked?)
  }

  // ---- what the grammar means position by position ----

  /** The message at i is an assistant's with k calls: the k messages behind it
      are the results for these calls, in order. */
  predicate CallsAnswered(ms: seq<Message>, i: nat)
    requires i < |ms|
  {
    ms[i].role == Assistant ==>
      && i + |ms[i].calls| < |ms|
      && forall j :: 0 <= j < |ms[i].calls| ==> Answers(ms[i + 1 + j], ms[i].calls[j])
  }

  /** The message at i is a tool result: some call of an assistant's message less
      than its number of calls before it asked for it. */
  predicate ResultAsked(ms: seq<Message>, i: nat)
    requires i < |ms|
  {
    ms[i].role == Tool ==>
      exists a :: 0 <= a < i && ms[a].role == Assistant && i - a - 1 < |ms[a].calls| &&
        Answers(ms[i], ms[a].calls[i - a - 1])
  }

  lemma {:induction false} GrammarByPosition(turns: seq<Turn>)
    requires GoodTurns(turns)
    ensures forall i :: 0 <= i < |Flatten(turns)| ==> CallsAnswered(Flatten(turns), i) && ResultAsked(Flatten(turns), i)
  {
    if turns != [] {
      var front, last := turns[..|turns| - 1], turns[|turns| - 1];
      GrammarByPosition(front);
      var before, after := Flatten(front), Messages(last);
      var all := Flatten(turns);
      assert all == before + after;
      assert GoodTurn(last);
      forall i | 0 <= i < |all| ensures CallsAnswered(all, i) && ResultAsked(all, i) {
        if i < |before| {
          PositionInFront(before, after, i);
        } else {
          PositionInTurn(before, last, i - |before|);
        }
      }
    }
  }

  lemma PositionInFront(before: seq<Message>, after: seq<Message>, i: nat)
    requires i < |before| && CallsAnswered(before, i) && ResultAsked(before, i)
    ensures CallsAnswered(before + after, i) && ResultAsked(before + after, i)
  {
    var all := before + after;
    assert forall k :: 0 <= k < |before| ==> all[k] == before[k];
    if before[i].role == Tool {
      var a :| 0 <= a < i && before[a].role == Assistant && i - a - 1 < |before[a].calls| &&
        Answers(before[i], before[a].calls[i - a - 1]);
      assert all[a] == before[a];
    }
  }

  lemma PositionInTurn(before: seq<Message>, t: Turn, i: nat)
    requires GoodTurn(t) && i < |Messages(t)|
    ensures CallsAnswered(before + Messages(t), |before| + i) && ResultAsked(before + Messages(t), |before| + i)
  {
    TurnLength(t);
    hide CallsAnswered, ResultAsked, GoodTurn, Messages;
    if t.Replied? && i == 0 {
      ReplyIsAnswered(before, t);
    } else if t.Replied? && i <= |t.results| {
      ResultIsAsked(before, t, i - 1);
    } else {
      OthersAreNeither(before, t, i);
    }
  }

  lemma TurnLength(t: Turn)
    ensures t.Replied? ==> |Messages(t)| == 1 + |t.results| + |t.steering|
  {
  }

  lemma OthersAreNeither(before: seq<Message>, t: Turn, i: nat)
    requires GoodTurn(t) && i < |Messages(t)| && (t.Replied? ==> i > |t.results|)
    ensures CallsAnswered(before + Messages(t), |before| + i) && ResultAsked(before + Messages(t), |before| + i)
  {
    hide CallsAnswered, ResultAsked, Answers;
    var all, n := before + Messages(t), |before|;
    assert all[n + i] == Messages(t)[i];
    if t.Replied? {
      assert Messages(t)[i] == t.steering[i - 1 - |t.results|];
    }
    NeitherCallsNorAnswers(all, n + i);
  }

  lemma NeitherCallsNorAnswers(ms: seq<Message>, i: nat)
    requires i < |ms| && ms[i].role != Assistant && ms[i].role != Tool
    ensures CallsAnswered(ms, i) && ResultAsked(ms, i)
  {
  }

  lemma ReplyIsAnswered(before: seq<Message>, t: Turn)
    requires GoodTurn(t) && t.Replied?
    ensures CallsAnswered(before + Messages(t), |before|) && ResultAsked(before + Messages(t), |before|)
  {
    hide Answers;
    var all, n := before + Messages(t), |before|;
    assert all[n] == t.assistant;
    forall j | 0 <= j < |t.assistant.calls| ensures Answers(all[n + 1 + j], t.assistant.calls[j]) {
      assert all[n + 1 + j] == t.results[j];
    }
  }

  lemma ResultIsAsked(before: seq<Message>, t: Turn, j: nat)
    requires GoodTurn(t) && t.Replied? && j < |t.results|
    ensures CallsAnswered(before + Messages(t), |before| + 1 + j) && ResultAsked(before + Messages(t), |before| + 1 + j)
  {
    var all, n := before + Messages(t), |before|;
    assert all[n] == t.assistant && all[n + 1 + j] == t.results[j];
    assert Answers(t.results[j], t.assistant.calls[j]);
    hide Answers;
    assert (n + 1 + j) - n - 1 == j;
  }

  // ---- the shape survives translation ----

  /** A tool message for the model: one result under the ID of its call. */
  predicate Carries(m: LLMMessage, call: ToolCall) {
    && m.role == ToolRole && m.toolCallID == call.id
    && |m.parts| == 1 && m.parts[0].ResultPart? && m.parts[0].result.callID == call.id
  }

  /** In a request: the calls of message i are answered by the messages behind it. */
  predicate RequestPaired(ms: seq<LLMMessage>, i: nat)
    requires i < |ms|
  {
    var calls := CallsOf(ms[i].parts);
    && i + |calls| < |ms|
    && forall j :: 0 <= j < |calls| ==> Carries(ms[i + 1 + j], calls[j])
  }

  lemma {:induction false} CallPartsAreCalls(calls: seq<ToolCall>)
    ensures CallsOf(CallParts(calls)) == calls
  {
    if calls != [] {
      CallPartsAreCalls(calls[1..]);
      assert CallParts(calls)[1..] == CallParts(calls[1..]);
    }
  }

  lemma TranslationKeepsCalls(m: Message)
    requires m.role != Assistant ==> m.calls == []
    ensures CallsOf(ToLLM(m).parts) == m.calls
  {
    CallPartsAreCalls(m.calls);
    var parts := ToLLM(m).parts;
    if m.role == Assistant {
      assert if m.content != "" then parts[1..] == CallParts(m.calls) else parts == CallParts(m.calls);
    } else {
      assert |parts| == 1 && parts[1..] == [];
    }
  }

  lemma {:induction false} OnlyAssistantsCall(turns: seq<Turn>)
    requires GoodTurns(turns)
    ensures forall i :: 0 <= i < |Flatten(turns)| ==>
      Flatten(turns)[i].role != Assistant ==> Flatten(turns)[i].calls == []
  {
    if turns != [] {
      OnlyAssistantsCall(turns[..|turns| - 1]);
      assert GoodTurn(turns[|turns| - 1]);
    }
  }

  lemma PositionTranslated(system: string, ms: seq<Message>, i: nat)
    requires i < |ms| && CallsAnswered(ms, i) && (ms[i].role != Assistant ==> ms[i].calls == [])
    ensures RequestPaired(ToRequest(system, ms), i + 1)
  {
    var request := ToRequest(system, ms);
    assert forall k :: 0 <= k < |ms| ==> request[1 + k] == ToLLM(ms[k]);
    hide ToRequest;
    TranslationKeepsCalls(ms[i]);
    forall j | 0 <= j < |ms[i].calls| ensures Carries(request[i + 1 + 1 + j], ms[i].calls[j]) {
      assert Answers(ms[i + 1 + j], ms[i].calls[j]);
      assert request[1 + (i + 1 + j)] == ToLLM(ms[i + 1 + j]);
    }
  }

  /** Every request built from a grammatical transcript pairs every tool call with
      its result. */
  lemma RequestKeepsPairing(system: string, turns: seq<Turn>)
    requires GoodTurns(turns)
    ensures var request := ToRequest(system, Flatten(turns));
            forall i :: 0 <= i < |request| ==> RequestPaired(request, i)
  {
    hide RequestPaired, CallsAnswered, ResultAsked, Flatten, GoodTurns;
    var ms := Flatten(turns);
    var request := ToRequest(system, ms);
    GrammarByPosition(turns);
    OnlyAssistantsCall(turns);
    forall i | 0 <= i < |request| ensures RequestPaired(request, i) {
      if i == 0 {
        SystemFirst(system, ms);
      } else {
        PositionTranslated(system, ms, i - 1);
      }
    }
  }

  lemma SystemFirst(system: string, ms: seq<Message>)
    ensures RequestPaired(ToRequest(system, ms), 0)
  {
    var parts := ToRequest(system, ms)[0].parts;
    assert parts == [TextPart(system)] && parts[1..] == [];
  }
}
