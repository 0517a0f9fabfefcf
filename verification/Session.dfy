/** internal/agent/session.go: the agent loop. The model, the tools and other
    goroutines that call Steer and FollowUp are the answers of the environment. */
module Session {
  import opened Text
  import opened Transcript

  /** A model call ends in an error or in a response. */
  datatype Reply = Failed(retryable: bool) | Got(response: Response)

  /** A tool call: the Steer calls made while it runs (a loop warning among them)
      and its result; an execution error has become an error result. */
  datatype ToolAnswer = ToolAnswer(steers: seq<string>, content: string, isError: bool)

  /** One round: whether the context is cancelled at its head, the model's reply,
      the Steer calls (a context-window warning among them) and FollowUp calls made
      before the reply's tool calls are looked at, and the tools' answers. */
  datatype RoundAnswer = RoundAnswer(
    cancelled: bool,
    reply: Reply,
    steers: seq<string>,
    follows: seq<string>,
    tools: nat -> ToolAnswer)

  datatype Exit = Natural | ContextCancelled | RoundsExceeded | ModelFailed | CircuitBroken

  datatype RunResult = RunResult(messages: seq<Message>, finalText: string, usage: Usage, rounds: nat, exit: Exit)

  const CONSECUTIVE_FAILURE_MAX := 3

  // ---- readings of a transcript ----

  function TextsOf(role: Role, ms: seq<Message>): seq<string> {
    if ms == [] then []
    else TextsOf(role, ms[..|ms| - 1]) + (if ms[|ms| - 1].role == role then [ms[|ms| - 1].content] else [])
  }

  lemma {:induction false} TextsOfAppend(role: Role, a: seq<Message>, b: seq<Message>)
    ensures TextsOf(role, a + b) == TextsOf(role, a) + TextsOf(role, b)
    decreases |b|
  {
    if b == [] {
      assert a + b == a;
    } else {
      assert (a + b)[..|a + b| - 1] == a + b[..|b| - 1];
      TextsOfAppend(role, a, b[..|b| - 1]);
    }
  }

  function Contents(ms: seq<Message>): seq<string> {
    seq(|ms|, i requires 0 <= i < |ms| => ms[i].content)
  }

  lemma {:induction false} SteeringTexts(ms: seq<Message>)
    requires AllSteering(ms)
    ensures TextsOf(Steering, ms) == Contents(ms)
  {
    if ms != [] {
      SteeringTexts(ms[..|ms| - 1]);
      assert ms[|ms| - 1].role == Steering;
      assert Contents(ms) == Contents(ms[..|ms| - 1]) + [ms[|ms| - 1].content];
    }
  }

  function TotalUsage(replies: seq<Reply>): Usage {
    if replies == [] then NO_USAGE
    else
      var last := replies[|replies| - 1];
      var sum := TotalUsage(replies[..|replies| - 1]);
      if last.Got? then Plus(sum, last.response.usage) else sum
  }

  /** The text of the last response that had any. */
  function LastText(replies: seq<Reply>): string {
    if replies == [] then ""
    else
      var last := replies[|replies| - 1];
      if last.Got? && TextOf(last.response.parts) != "" then TextOf(last.response.parts)
      else LastText(replies[..|replies| - 1])
  }

  /** How many replies at the end are failures. */
  function FailuresAtEnd(replies: seq<Reply>): nat {
    if replies == [] || replies[|replies| - 1].Got? then 0 else 1 + FailuresAtEnd(replies[..|replies| - 1])
  }

  /** The loop goes on after these replies: never three failures in a row, no
      failure fatal. */
  predicate GoesOn(replies: seq<Reply>) {
    replies == [] ||
    (&& GoesOn(replies[..|replies| - 1])
     && FailuresAtEnd(replies) < CONSECUTIVE_FAILURE_MAX
     && (replies[|replies| - 1].Failed? ==> replies[|replies| - 1].retryable))
  }

  /** How the replies of a run fit the way it ended. */
  predicate ExitFits(replies: seq<Reply>, exit: Exit) {
    match exit
    case ContextCancelled => GoesOn(replies)
    case RoundsExceeded => GoesOn(replies)
    case Natural =>
      && replies != [] && GoesOn(replies)
      && replies[|replies| - 1].Got? && CallsOf(replies[|replies| - 1].response.parts) == []
    case CircuitBroken =>
      replies != [] && GoesOn(replies[..|replies| - 1]) && FailuresAtEnd(replies) == CONSECUTIVE_FAILURE_MAX
    case ModelFailed =>
      && replies != [] && GoesOn(replies[..|replies| - 1])
      && FailuresAtEnd(replies) < CONSECUTIVE_FAILURE_MAX
      && replies[|replies| - 1] == Failed(false)
  }

  lemma NoReplies(u: Usage)
    ensures GoesOn([]) && FailuresAtEnd([]) == 0 && LastText([]) == "" && Plus(u, TotalUsage([])) == u
  {
  }

  /** The readings of the replies after one more of them. */
  lemma OneMoreReply(replies: seq<Reply>, r: Reply, u: Usage)
    ensures var all := replies + [r];
            && all[..|replies|] == replies && all[|replies|] == r
            && FailuresAtEnd(all) == (if r.Failed? then FailuresAtEnd(replies) + 1 else 0)
            && (GoesOn(all) <==>
                  GoesOn(replies) && FailuresAtEnd(all) < CONSECUTIVE_FAILURE_MAX && (r.Failed? ==> r.retryable))
            && LastText(all) == (if r.Got? && TextOf(r.response.parts) != "" then TextOf(r.response.parts)
                else LastText(replies))
            && Plus(u, TotalUsage(all)) ==
                 (if r.Got? then Plus(Plus(u, TotalUsage(replies)), r.response.usage) else Plus(u, TotalUsage(replies)))
  {
    hide TextOf;
    assert (replies + [r])[..|replies|] == replies;
  }

  lemma StoppedFits(replies: seq<Reply>)
    requires GoesOn(replies)
    ensures ExitFits(replies, ContextCancelled) && ExitFits(replies, RoundsExceeded)
  {
  }

  lemma LastReplyFits(replies: seq<Reply>)
    requires replies != [] && GoesOn(replies[..|replies| - 1])
    ensures var last := replies[|replies| - 1];
            && (last.Failed? && FailuresAtEnd(replies) == CONSECUTIVE_FAILURE_MAX ==> ExitFits(replies, CircuitBroken))
            && (last == Failed(false) && FailuresAtEnd(replies) < CONSECUTIVE_FAILURE_MAX ==>
                  ExitFits(replies, ModelFailed))
            && (last.Got? && CallsOf(last.response.parts) == [] && GoesOn(replies) ==> ExitFits(replies, Natural))
  {
  }

  lemma {:induction false} NoTextsOf(role: Role, ms: seq<Message>)
    requires forall i :: 0 <= i < |ms| ==> ms[i].role != role
    ensures TextsOf(role, ms) == []
  {
    if ms != [] {
      NoTextsOf(role, ms[..|ms| - 1]);
    }
  }

  lemma OneTextOf(role: Role, m: Message)
    ensures TextsOf(role, [m]) == if m.role == role then [m.content] else []
  {
    assert [m][..0] == [];
  }

  lemma OneMoreTurn(turns: seq<Turn>, t: Turn)
    requires GoodTurns(turns) && GoodTurn(t)
    requires t.Replied? ==> (turns != [] && turns[|turns| - 1].Replied? ==> turns[|turns| - 1].assistant.calls != [])
    ensures GoodTurns(turns + [t]) && Flatten(turns + [t]) == Flatten(turns) + Messages(t)
  {
    hide GoodTurn, GoodTurns, Messages, Flatten;
    StillGood(turns, t);
    FlattenGrows(turns, t);
  }

  lemma FlattenGrows(turns: seq<Turn>, t: Turn)
    ensures Flatten(turns + [t]) == Flatten(turns) + Messages(t)
  {
    hide Messages;
    assert (turns + [t])[..|turns|] == turns;
  }

  lemma StillGood(turns: seq<Turn>, t: Turn)
    requires GoodTurns(turns) && GoodTurn(t)
    requires t.Replied? ==> (turns != [] && turns[|turns| - 1].Replied? ==> turns[|turns| - 1].assistant.calls != [])
    ensures GoodTurns(turns + [t])
  {
    hide GoodTurn;
    var all := turns + [t];
    forall i | 0 <= i < |all| ensures GoodTurn(all[i]) {
      if i < |turns| { assert all[i] == turns[i]; }
    }
    forall i | 0 <= i < |all| - 1 && all[i].Replied? && all[i].assistant.calls == [] ensures all[i + 1].Asked? {
      assert all[i] == turns[i];
      if i + 1 < |turns| { assert all[i + 1] == turns[i + 1]; }
    }
  }

  lemma ReplyTurn(assistant: Message, results: seq<Message>, injected: seq<Message>)
    requires assistant.role == Assistant && assistant.result == None && assistant.calls != []
    requires |results| == |assistant.calls|
    requires forall j :: 0 <= j < |results| ==> Answers(results[j], assistant.calls[j])
    requires AllSteering(injected)
    ensures GoodTurn(Replied(assistant, results, injected))
    ensures TextsOf(User, Messages(Replied(assistant, results, injected))) == []
  {
    var t := Replied(assistant, results, injected);
    forall i | 0 <= i < |Messages(t)| ensures Messages(t)[i].role != User {
      if 1 <= i <= |results| { assert Answers(results[i - 1], assistant.calls[i - 1]); }
    }
    NoTextsOf(User, Messages(t));
  }

  // ---- what was asked of the tools ----

  /** One reply in the transcript: the assistant's message and the tool messages. */
  datatype Exchange = Exchange(assistant: Message, results: seq<Message>)

  /** Every call with its own tool's answer, under its own ID. */
  function ResultsOf(calls: seq<ToolCall>, tools: nat -> ToolAnswer): (results: seq<Message>)
    ensures |results| == |calls|
    ensures forall j :: 0 <= j < |calls| ==> results[j].role == Tool && results[j].calls == []
    ensures forall j :: 0 <= j < |calls| ==>
              results[j].result == Some(ToolResult(calls[j].id, tools(j).content, tools(j).isError))
  {
    seq(|calls|, j requires 0 <= j < |calls| =>
      Message(Tool, "", [], Some(ToolResult(calls[j].id, tools(j).content, tools(j).isError))))
  }

  function ExchangeOf(r: Response, tools: nat -> ToolAnswer): Exchange {
    Exchange(ResponseToMessage(r), ResultsOf(CallsOf(r.parts), tools))
  }

  /** The exchanges of a transcript, in order. */
  function Exchanges(turns: seq<Turn>): seq<Exchange> {
    if turns == [] then []
    else
      var last := turns[|turns| - 1];
      Exchanges(turns[..|turns| - 1]) + (if last.Replied? then [Exchange(last.assistant, last.results)] else [])
  }

  lemma ExchangesGrow(turns: seq<Turn>, t: Turn)
    ensures Exchanges(turns + [t]) ==
              Exchanges(turns) + (if t.Replied? then [Exchange(t.assistant, t.results)] else [])
  {
    assert (turns + [t])[..|turns|] == turns;
  }

  /** What n rounds of an environment, from one on, must have put there: an exchange
      for every reply that is not an error. */
  function ExchangesOf(env: nat -> RoundAnswer, from: nat, n: nat): seq<Exchange> {
    if n == 0 then []
    else
      var a := env(from + n - 1);
      ExchangesOf(env, from, n - 1) + (if a.reply.Got? then [ExchangeOf(a.reply.response, a.tools)] else [])
  }

  /** The replies are those of the rounds, and the exchanges `now` are those there
      were and, behind them, those of the rounds. */
  ghost predicate Recorded(
    before: seq<Exchange>, now: seq<Exchange>, env: nat -> RoundAnswer, from: nat, replies: seq<Reply>)
  {
    && (forall k :: 0 <= k < |replies| ==> replies[k] == env(from + k).reply)
    && now == before + ExchangesOf(env, from, |replies|)
  }

  lemma NothingRecorded(before: seq<Exchange>, env: nat -> RoundAnswer, from: nat)
    ensures Recorded(before, before, env, from, [])
  {
    assert before + [] == before;
  }

  lemma RoundRecorded(
    before: seq<Exchange>, now: seq<Exchange>, env: nat -> RoundAnswer, from: nat, replies: seq<Reply>,
    after: seq<Exchange>)
    requires Recorded(before, now, env, from, replies)
    requires var a := env(from + |replies|);
             after == now + (if a.reply.Got? then [ExchangeOf(a.reply.response, a.tools)] else [])
    ensures Recorded(before, after, env, from, replies + [env(from + |replies|).reply])
  {
    hide ExchangeOf;
    var a := env(from + |replies|);
    assert replies + [a.reply] != [];
    assert now + [] == now;
  }

  class Session {
    const maxRounds: nat
    var messages: seq<Message>
    var steering: seq<Message>
    var followup: seq<Message>
    var usage: Usage
    var rounds: nat
    ghost var turns: seq<Turn>           // the transcript, parsed
    ghost var steerCalls: seq<string>    // every Steer call, in order
    ghost var followCalls: seq<string>   // every FollowUp call, in order
    ghost var consumed: seq<string>      // the follow-ups taken from the queue

    /** The queues, and: every Steer call is in the transcript or still queued, in
        order; every FollowUp call is consumed or queued, in order. */
    ghost predicate Queues()
      reads this`messages, this`steering, this`followup, this`steerCalls, this`followCalls, this`consumed
    {
      && AllSteering(steering)
      && (forall i :: 0 <= i < |followup| ==> followup[i] == UserMessage(followup[i].content))
      && TextsOf(Steering, messages) + Contents(steering) == steerCalls
      && consumed + Contents(followup) == followCalls
    }

    /** Between the steps of a round: the queues, and a grammatical transcript. */
    ghost predicate Valid()
      reads this`messages, this`steering, this`followup, this`turns
      reads this`steerCalls, this`followCalls, this`consumed
    {
      Queues() && messages == Flatten(turns) && GoodTurns(turns)
    }

    /** The transcript ends where a reply may follow. */
    ghost predicate AwaitsReply()
      reads this`turns
    {
      turns != [] && (turns[|turns| - 1].Replied? ==> turns[|turns| - 1].assistant.calls != [])
    }

    constructor (configuredRounds: int)
      ensures Valid() && maxRounds == (if configuredRounds <= 0 then 200 else configuredRounds)
      ensures messages == [] && steerCalls == [] && followCalls == [] && consumed == []
      ensures usage == NO_USAGE && rounds == 0
    {
      maxRounds := if configuredRounds <= 0 then 200 else configuredRounds;
      messages, steering, followup, usage, rounds := [], [], [], NO_USAGE, 0;
      turns, steerCalls, followCalls, consumed := [], [], [], [];
    }

    method Steer(content: string)
      requires Queues()
      modifies this`steering, this`steerCalls
      ensures Queues() && steerCalls == old(steerCalls) + [content]
    {
      steering := steering + [SteeringMessage(content)];
      steerCalls := steerCalls + [content];
      assert Contents(steering) == Contents(old(steering)) + [content];
    }

    method FollowUp(content: string)
      requires Queues()
      modifies this`followup, this`followCalls
      ensures Queues() && followCalls == old(followCalls) + [content]
    {
      followup := followup + [UserMessage(content)];
      followCalls := followCalls + [content];
      assert Contents(followup) == Contents(old(followup)) + [content];
    }

    /** The Steer calls of others, one after the other. */
    method Steers(contents: seq<string>)
      requires Queues()
      modifies this`steering, this`steerCalls
      ensures Queues() && steerCalls == old(steerCalls) + contents
    {
      hide TextsOf;
      for i := 0 to |contents|
        modifies this`steering, this`steerCalls
        invariant Queues() && steerCalls == old(steerCalls) + contents[..i]
      {
        Steer(contents[i]);
      }
    }

    method FollowUps(contents: seq<string>)
      requires Queues()
      modifies this`followup, this`followCalls
      ensures Queues() && followCalls == old(followCalls) + contents
    {
      hide TextsOf;
      for i := 0 to |contents|
        modifies this`followup, this`followCalls
        invariant Queues() && followCalls == old(followCalls) + contents[..i]
      {
        FollowUp(contents[i]);
      }
    }

    /** s.messages = append(s.messages, m) for a message that is not steering. */
    method Append(m: Message)
      requires Queues() && m.role != Steering
      modifies this`messages
      ensures Queues() && messages == old(messages) + [m]
    {
      TextsOfAppend(Steering, messages, [m]);
      OneTextOf(Steering, m);
      messages := messages + [m];
    }

    /** A user message, and its turn. */
    method AppendUser(content: string)
      requires Valid()
      modifies this`messages, this`turns
      ensures Valid() && AwaitsReply()
      ensures messages == old(messages) + [UserMessage(content)]
      ensures TextsOf(User, messages) == TextsOf(User, old(messages)) + [content]
      ensures Exchanges(turns) == Exchanges(old(turns))
    {
      hide Queues, TextsOf, GoodTurns, Exchanges;
      ExchangesGrow(turns, Asked(content));
      TextsOfAppend(User, messages, [UserMessage(content)]);
      OneTextOf(User, UserMessage(content));
      Append(UserMessage(content));
      OneMoreTurn(turns, Asked(content));
      turns := turns + [Asked(content)];
    }

    /** The loop over the tool calls: each result is appended as it comes. */
    method AnswerCalls(calls: seq<ToolCall>, tools: nat -> ToolAnswer) returns (ghost results: seq<Message>)
      requires Queues()
      modifies this`messages, this`steering, this`steerCalls
      ensures Queues() && messages == old(messages) + results
      ensures |results| == |calls| && forall j :: 0 <= j < |calls| ==> Answers(results[j], calls[j])
      ensures forall j :: 0 <= j < |calls| ==>
                results[j].result == Some(ToolResult(calls[j].id, tools(j).content, tools(j).isError))
      ensures results == ResultsOf(calls, tools)
    {
      hide Queues;
      results := [];
      for i := 0 to |calls|
        modifies this`messages, this`steering, this`steerCalls
        invariant Queues() && messages == old(messages) + results
        invariant |results| == i && forall j :: 0 <= j < i ==> Answers(results[j], calls[j])
        invariant forall j :: 0 <= j < i ==> results[j] == ResultsOf(calls, tools)[j]
      {
        var t := tools(i);
        Steers(t.steers);
        var toolMsg := Message(Tool, "", [], Some(ToolResult(calls[i].id, t.content, t.isError)));
        Append(toolMsg);
        results := results + [toolMsg];
      }
    }

    /** Steering leaves the queue for the transcript: together they stay the Steer calls. */
    method InjectSteering() returns (ghost injected: seq<Message>)
      requires Queues()
      modifies this`messages, this`steering
      ensures Queues() && messages == old(messages) + injected && AllSteering(injected) && steering == []
    {
      injected := steering;
      if |steering| > 0 {
        TextsOfAppend(Steering, messages, steering);
        SteeringTexts(steering);
        assert Contents([]) == [];
        messages := messages + steering;
        steering := [];
      }
    }

    /** A reply with tool calls: the calls are answered, then steering goes in. */
    method ToolTurn(response: Response, tools: nat -> ToolAnswer)
      requires Valid() && AwaitsReply() && CallsOf(response.parts) != []
      modifies this`messages, this`steering, this`steerCalls, this`turns
      ensures Valid() && AwaitsReply() && old(messages) <= messages
      ensures TextsOf(User, messages) == TextsOf(User, old(messages))
      ensures Exchanges(turns) == Exchanges(old(turns)) + [ExchangeOf(response, tools)]
    {
      hide Queues, TextsOf, CallsOf, GoodTurns, Exchanges, ResultsOf;
      ghost var before := messages;
      var assistantMsg := ResponseToMessage(response);
      Append(assistantMsg);
      ghost var results := AnswerCalls(assistantMsg.calls, tools);
      ghost var injected := InjectSteering();
      ghost var t := Replied(assistantMsg, results, injected);
      ReplyTurn(assistantMsg, results, injected);
      hide GoodTurn;
      assert messages == before + Messages(t);
      TextsOfAppend(User, before, Messages(t));
      ExchangesGrow(turns, t);
      OneMoreTurn(turns, t);
      turns := turns + [t];
    }

    /** A reply without tool calls. */
    method FinalTurn(response: Response, ghost tools: nat -> ToolAnswer)
      requires Valid() && AwaitsReply() && CallsOf(response.parts) == []
      modifies this`messages, this`turns
      ensures Valid() && messages == old(messages) + [ResponseToMessage(response)]
      ensures TextsOf(User, messages) == TextsOf(User, old(messages))
      ensures Exchanges(turns) == Exchanges(old(turns)) + [ExchangeOf(response, tools)]
    {
      hide Queues, TextsOf, TextOf, CallsOf, GoodTurns, Flatten, Exchanges;
      var assistantMsg := ResponseToMessage(response);
      ghost var before := messages;
      Append(assistantMsg);
      ghost var t := Replied(assistantMsg, [], []);
      assert Messages(t) == [assistantMsg];
      TextsOfAppend(User, before, [assistantMsg]);
      NoTextsOf(User, [assistantMsg]);
      ExchangesGrow(turns, t);
      assert ResultsOf([], tools) == [];
      OneMoreTurn(turns, t);
      turns := turns + [t];
    }

    /** The first queued follow-up becomes a user message, if there is one. */
    method NextFollowUp() returns (has: bool)
      requires Valid()
      modifies this`messages, this`turns, this`followup, this`consumed
      ensures Valid() && has == (old(followup) != [])
      ensures has ==> AwaitsReply() && consumed == old(consumed) + [old(followup)[0].content]
                      && old(messages) <= messages
                      && TextsOf(User, messages) == TextsOf(User, old(messages)) + [old(followup)[0].content]
      ensures Exchanges(turns) == Exchanges(old(turns))
      ensures !has ==> messages == old(messages) && turns == old(turns) && consumed == old(consumed) && followup == []
    {
      if |followup| == 0 {
        return false;
      }
      var nextMsg := followup[0];
      assert Contents(followup) == [nextMsg.content] + Contents(followup[1..]);
      followup := followup[1..];
      consumed := consumed + [nextMsg.content];
      assert consumed + Contents(followup) == followCalls;
      AppendUser(nextMsg.content);
      return true;
    }

    /** What the user has said since the run began. */
    ghost predicate Heard(userBefore: seq<string>, input: string, consumedBefore: seq<string>)
      reads this`messages, this`consumed
    {
      && consumedBefore <= consumed
      && TextsOf(User, messages) == userBefore + [input] + consumed[|consumedBefore|..]
    }

    /** The rest of a round that got a response: true if the loop goes on. */
    method HandleResponse(response: Response, a: RoundAnswer, ghost userBefore: seq<string>, ghost input: string,
                          ghost consumedBefore: seq<string>)
      returns (goesOn: bool)
      requires Valid() && AwaitsReply() && Heard(userBefore, input, consumedBefore)
      modifies this`messages, this`steering, this`steerCalls, this`followup, this`followCalls, this`consumed, this`turns
      ensures Valid() && Heard(userBefore, input, consumedBefore) && old(messages) <= messages
      ensures goesOn ==> AwaitsReply()
      ensures Exchanges(turns) == Exchanges(old(turns)) + [ExchangeOf(response, a.tools)]
      ensures !goesOn ==> followup == [] && CallsOf(response.parts) == []
                          && messages[|messages| - 1] == ResponseToMessage(response)
    {
      hide Queues, GoodTurns, TextsOf, Flatten, CallsOf, Exchanges, ExchangeOf;
      Steers(a.steers);
      FollowUps(a.follows);
      if |CallsOf(response.parts)| == 0 {
        FinalTurn(response, a.tools);
        goesOn := NextFollowUp();
      } else {
        ToolTurn(response, a.tools);
        goesOn := true;
      }
    }

    /** One run of the loop. Whatever the environment answers, it ends within the
        round limit; the transcript is grammatical and keeps what it held, user
        messages are the input and the consumed follow-ups in order, steering is
        conserved (Valid), usage is the sum over the successful replies, and the
        exit is the one the replies call for. */
    method Run(input: string, env: nat -> RoundAnswer) returns (r: RunResult, ghost replies: seq<Reply>)
      requires Valid() && rounds <= maxRounds
      modifies this
      ensures Valid() && old(messages) <= messages && rounds <= maxRounds
      ensures Heard(TextsOf(User, old(messages)), input, old(consumed))
      ensures rounds == old(rounds) + |replies| && usage == Plus(old(usage), TotalUsage(replies))
      ensures r == RunResult(messages, LastText(replies), usage, rounds, r.exit) && ExitFits(replies, r.exit)
      ensures r.exit == RoundsExceeded ==> rounds == maxRounds
      ensures Recorded(Exchanges(old(turns)), Exchanges(turns), env, old(rounds), replies)
      ensures r.exit == Natural ==>
                followup == [] && messages[|messages| - 1] == ResponseToMessage(replies[|replies| - 1].response)
    {
      hide Queues, Valid, AwaitsReply, GoodTurns, TextsOf, Flatten, TextOf, CallsOf, Plus,
           TotalUsage, LastText, FailuresAtEnd, GoesOn, ExitFits, Exchanges, ExchangeOf, Recorded;
      NothingRecorded(Exchanges(turns), env, rounds);
      replies := [];
      NoReplies(usage);
      ghost var userBefore, consumedBefore := TextsOf(User, messages), consumed;
      AppendUser(input);
      assert Heard(userBefore, input, consumedBefore);
      hide Heard;
      var consecutiveFailures, lastText := 0, "";
      while true
        invariant Valid() && AwaitsReply() && old(messages) <= messages && rounds <= maxRounds
        invariant Heard(userBefore, input, consumedBefore)
        invariant Recorded(Exchanges(old(turns)), Exchanges(turns), env, old(rounds), replies)
        invariant rounds == old(rounds) + |replies| && usage == Plus(old(usage), TotalUsage(replies))
        invariant GoesOn(replies) && consecutiveFailures == FailuresAtEnd(replies) < CONSECUTIVE_FAILURE_MAX
        invariant lastText == LastText(replies)
        decreases maxRounds - rounds
      {
        var a := env(rounds);
        StoppedFits(replies);
        if a.cancelled {
          return RunResult(messages, lastText, usage, rounds, ContextCancelled), replies;
        }
        if rounds >= maxRounds {
          return RunResult(messages, lastText, usage, rounds, RoundsExceeded), replies;
        }
        rounds := rounds + 1;
        ghost var earlier := replies;
        replies := replies + [a.reply];
        OneMoreReply(earlier, a.reply, old(usage));
        LastReplyFits(replies);
        ghost var exchanges := Exchanges(turns);
        match a.reply {
          case Failed(retryable) =>
            RoundRecorded(Exchanges(old(turns)), exchanges, env, old(rounds), earlier, exchanges);
            consecutiveFailures := consecutiveFailures + 1;
            if consecutiveFailures >= CONSECUTIVE_FAILURE_MAX {
              return RunResult(messages, lastText, usage, rounds, CircuitBroken), replies;
            }
            if retryable {
              continue;
            }
            return RunResult(messages, lastText, usage, rounds, ModelFailed), replies;
          case Got(response) =>
            consecutiveFailures := 0;
            usage := Plus(usage, response.usage);
            if TextOf(response.parts) != "" {
              lastText := TextOf(response.parts);
            }
            var goesOn := HandleResponse(response, a, userBefore, input, consumedBefore);
            RoundRecorded(Exchanges(old(turns)), exchanges, env, old(rounds), earlier, Exchanges(turns));
            if !goesOn {
              return RunResult(messages, lastText, usage, rounds, Natural), replies;
            }
        }
      }
    }
  }
}
