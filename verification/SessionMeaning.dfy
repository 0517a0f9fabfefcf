/** What the session's bookkeeping amounts to, stated on replies and messages
    directly: texts, calls, sums and the circuit breaker. */
module SessionMeaning {
  import opened Transcript
  import opened Session

  // ---- a reply and what becomes of it ----

  lemma {:induction false} TextsInTwo(a: seq<Part>, b: seq<Part>)
    ensures TextOf(a + b) == TextOf(a) + TextOf(b) && CallsOf(a + b) == CallsOf(a) + CallsOf(b)
  {
    if a == [] {
      assert a + b == b && "" + TextOf(b) == TextOf(b);
    } else {
      assert (a + b)[1..] == a[1..] + b;
      TextsInTwo(a[1..], b);
      var t := if a[0].TextPart? then a[0].text else "";
      assert t + (TextOf(a[1..]) + TextOf(b)) == (t + TextOf(a[1..])) + TextOf(b);
    }
  }

  /** The text of a reply is its text parts put together, its calls are its call
      parts, both in order. */
  lemma PartMeans(p: Part)
    ensures TextOf([p]) == (if p.TextPart? then p.text else "")
    ensures CallsOf([p]) == (if p.CallPart? then [p.call] else [])
  {
    assert [p][1..] == [];
    var t := if p.TextPart? then p.text else "";
    assert t + "" == t;
  }

  lemma {:induction false} CallPartsHaveNoText(calls: seq<ToolCall>)
    ensures TextOf(CallParts(calls)) == ""
  {
    if calls != [] {
      CallPartsHaveNoText(calls[1..]);
      assert CallParts(calls)[1..] == CallParts(calls[1..]);
    }
  }

  /** A reply that went into the transcript goes back to the model with the text and
      the calls it came with. */
  lemma ReplyComesBack(r: Response)
    ensures var m := ToLLM(ResponseToMessage(r));
            && m.role == AssistantRole && TextOf(m.parts) == TextOf(r.parts) && CallsOf(m.parts) == CallsOf(r.parts)
  {
    hide TextOf, CallsOf;
    var m := ResponseToMessage(r);
    TranslationKeepsCalls(m);
    CallPartsHaveNoText(m.calls);
    var text := if m.content != "" then [TextPart(m.content)] else [];
    TextsInTwo(text, CallParts(m.calls));
    PartMeans(TextPart(m.content));
    NoParts();
    assert TextOf(text) + "" == TextOf(text);
  }

  lemma NoParts()
    ensures TextOf([]) == "" && CallsOf([]) == []
  {
  }

  /** What the model is told of the other messages: a user's text as the user's,
      steering as the user's with a mark, a tool's result as it is. */
  lemma OthersGoAs(m: Message)
    ensures m.role == User ==> ToLLM(m).role == UserRole && TextOf(ToLLM(m).parts) == m.content
    ensures m.role == Steering ==> ToLLM(m).role == UserRole && TextOf(ToLLM(m).parts) == "[SYSTEM] " + m.content
    ensures m.role == Tool && m.result.Some? ==>
              ToLLM(m).role == ToolRole && ToLLM(m).toolCallID == m.result.value.callID
              && ToLLM(m).parts == [ResultPart(m.result.value)]
  {
    hide TextOf;
    PartMeans(TextPart(m.content));
    PartMeans(TextPart("[SYSTEM] " + m.content));
  }

  /** A request is the system prompt and every message, in order. */
  lemma RequestIsAll(system: string, ms: seq<Message>)
    ensures var r := ToRequest(system, ms);
            && |r| == 1 + |ms| && r[0] == LLMMessage(SystemRole, [TextPart(system)], "")
            && forall i :: 0 <= i < |ms| ==> r[1 + i] == ToLLM(ms[i])
  {
  }

  // ---- usage ----

  /** One figure of all successful replies, added up. */
  function Sum(replies: seq<Reply>, f: Usage -> int): int {
    if replies == [] then 0
    else
      var last := replies[|replies| - 1];
      Sum(replies[..|replies| - 1], f) + (if last.Got? then f(last.response.usage) else 0)
  }

  /** Each figure is added up on its own. */
  lemma {:induction false} UsageIsSum(replies: seq<Reply>)
    ensures var t := TotalUsage(replies);
            && t.input == Sum(replies, (u: Usage) => u.input)
            && t.output == Sum(replies, (u: Usage) => u.output)
            && t.total == Sum(replies, (u: Usage) => u.total)
            && t.reasoning == Sum(replies, (u: Usage) => u.reasoning)
            && t.cacheRead == Sum(replies, (u: Usage) => u.cacheRead)
            && t.cacheWrite == Sum(replies, (u: Usage) => u.cacheWrite)
  {
    if replies != [] {
      UsageIsSum(replies[..|replies| - 1]);
    }
  }

  // ---- the final text ----

  predicate Speaks(r: Reply) {
    r.Got? && TextOf(r.response.parts) != ""
  }

  /** The final text is that of the last reply that had any. */
  lemma {:induction false} LastTextIs(replies: seq<Reply>)
    ensures (forall i :: 0 <= i < |replies| ==> !Speaks(replies[i])) ==> LastText(replies) == ""
    ensures forall i :: 0 <= i < |replies| && Speaks(replies[i]) ==>
              (forall j :: i < j < |replies| ==> !Speaks(replies[j])) ==>
                LastText(replies) == TextOf(replies[i].response.parts)
  {
    hide TextOf;
    if replies != [] {
      LastTextIs(replies[..|replies| - 1]);
    }
  }

  // ---- the circuit breaker ----

  predicate FailedAt(replies: seq<Reply>, i: int) {
    0 <= i < |replies| && replies[i].Failed?
  }

  predicate ThreeFailedUpTo(replies: seq<Reply>, i: int) {
    FailedAt(replies, i - 2) && FailedAt(replies, i - 1) && FailedAt(replies, i)
  }

  lemma {:induction false} CountOfFailures(replies: seq<Reply>)
    ensures FailuresAtEnd(replies) >= 3 <==> ThreeFailedUpTo(replies, |replies| - 1)
    ensures FailuresAtEnd(replies) >= 2 <==> FailedAt(replies, |replies| - 2) && FailedAt(replies, |replies| - 1)
    ensures FailuresAtEnd(replies) >= 1 <==> FailedAt(replies, |replies| - 1)
  {
    if replies != [] {
      var front := replies[..|replies| - 1];
      CountOfFailures(front);
      assert forall i :: 0 <= i < |front| ==> front[i] == replies[i];
    }
  }

  /** The loop goes on exactly as long as no failure is fatal and no three replies
      in a row are failures. */
  lemma {:induction false} GoesOnMeans(replies: seq<Reply>)
    ensures GoesOn(replies) <==>
              && (forall i :: 0 <= i < |replies| && replies[i].Failed? ==> replies[i].retryable)
              && (forall i :: 0 <= i < |replies| ==> !ThreeFailedUpTo(replies, i))
  {
    hide FailuresAtEnd;
    if replies != [] {
      var n := |replies| - 1;
      var front := replies[..n];
      GoesOnMeans(front);
      CountOfFailures(replies);
      assert forall i :: 0 <= i < n ==> front[i] == replies[i];
      forall i | 0 <= i < n ensures ThreeFailedUpTo(front, i) <==> ThreeFailedUpTo(replies, i) {
      }
    }
  }

  /** The circuit breaks on the third failure in a row, fatal or not, the first time
      that there are three. */
  lemma CircuitBreaks(replies: seq<Reply>)
    requires ExitFits(replies, CircuitBroken)
    ensures ThreeFailedUpTo(replies, |replies| - 1)
    ensures forall i :: 0 <= i < |replies| - 1 ==> !ThreeFailedUpTo(replies, i)
  {
    hide FailuresAtEnd;
    CountOfFailures(replies);
    var n := |replies| - 1;
    var front := replies[..n];
    GoesOnMeans(front);
    assert forall i :: 0 <= i < n ==> front[i] == replies[i];
    forall i | 0 <= i < n ensures !ThreeFailedUpTo(replies, i) {
      assert ThreeFailedUpTo(front, i) <==> ThreeFailedUpTo(replies, i);
    }
  }
}
