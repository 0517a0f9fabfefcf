/** The fields of an answer, and every event of its stream, stated on the message
    and its wire form directly. */
module StreamMeaning {
  import opened AnthropicStream

  /** A call of tools is reported as that, a cut at the token limit as that, and
      anything else as an ordinary stop. */
  predicate FinishFits(stopReason: string, finish: Finish) {
    && (finish == ToolUse <==> stopReason == "tool_use")
    && (finish == Length <==> stopReason == "max_tokens")
    && (finish == Stop <==> stopReason != "tool_use" && stopReason != "max_tokens")
  }

  predicate UsageFits(b: Body, u: Usage) {
    && u.input == b.input && u.output == b.output && u.total == b.input + b.output
    && u.cacheRead == b.cacheRead && u.cacheWrite == b.cacheWrite
  }

  /** What parseResponse reports of a body, its content aside. */
  lemma ParsedFits(b: Body)
    ensures var r := Parsed(b);
            r.id == b.id && r.model == b.model && FinishFits(b.stopReason, r.finish) && UsageFits(b, r.usage)
  {
  }

  /** The content is the parts of the blocks, in order. */
  lemma {:induction false} PartsInOrder(a: seq<Block>, b: seq<Block>)
    ensures AllParts(a + b) == AllParts(a) + AllParts(b)
  {
    if b == [] {
      assert a + b == a && AllParts(a) + [] == AllParts(a);
    } else {
      hide AllParts, PartsOf;
      var n := |b| - 1;
      PartsInOrder(a, b[..n]);
      assert (a + b)[..|a| + n] == a + b[..n] && (a + b)[|a| + n] == b[n];
      LastBlock(a + b);
      LastBlock(b);
      Regroup(AllParts(a), AllParts(b[..n]), PartsOf(b[n]));
    }
  }

  lemma LastBlock(blocks: seq<Block>)
    requires blocks != []
    ensures AllParts(blocks) == AllParts(blocks[..|blocks| - 1]) + PartsOf(blocks[|blocks| - 1])
  {
  }

  /** A text, a tool call and a thinking block each become one part with what they
      hold; a block of another kind becomes none. */
  lemma BlockMeans(b: Block)
    ensures AllParts([b]) ==
              match b
              case TextBlock(text) => [TextPart(text)]
              case ToolUseBlock(id, name, input) => [ToolCallPart(id, name, input)]
              case ThinkingBlock(thinking, signature) => [ThinkingPart(thinking, signature)]
              case OtherBlock => []
  {
    assert [b][..0] == [] && AllParts([b][..0]) == [];
    assert [] + PartsOf(b) == PartsOf(b);
  }

  // ---- the events of a stream ----

  function KindOf(head: Head): Kind {
    match head
    case TextHead => TextKind
    case ToolHead(_, _) => ToolCallKind
    case ThinkingHead => ThinkingKind
    case OtherHead => NoKind
  }

  function StartOf(b: Sent): StreamEvent {
    match b.head
    case ToolHead(id, name) => StartEvent(b.index, ToolCallKind, id, name)
    case _ => StartEvent(b.index, KindOf(b.head), "", "")
  }

  /** A delta for every chunk; signatures and pings are silent. */
  function DeltasOf(index: int, kind: Kind, bits: seq<Bit>): seq<StreamEvent> {
    if bits == [] then []
    else
      var last := bits[|bits| - 1];
      DeltasOf(index, kind, bits[..|bits| - 1])
      + (if last.Chunk? then [DeltaEvent(index, kind, last.text)] else [])
  }

  function EventsOfItem(i: Item): seq<StreamEvent> {
    match i
    case Content(b) =>
      [StartOf(b)] + DeltasOf(b.index, KindOf(b.head), b.bits) + [StopEvent(b.index, KindOf(b.head))]
    case Between => []
  }

  function EventsOfItems(items: seq<Item>): seq<StreamEvent> {
    if items == [] then [] else EventsOfItems(items[..|items| - 1]) + EventsOfItem(items[|items| - 1])
  }

  lemma {:induction false} BitsSend(a: Acc, index: int, bits: seq<Bit>)
    requires index in a.blocks
    ensures var r := Steps(a, WireBits(index, bits));
            && r.sent == a.sent + DeltasOf(index, a.blocks[index].kind, bits)
            && index in r.blocks && r.blocks[index].kind == a.blocks[index].kind
  {
    if bits == [] {
      assert a.sent + [] == a.sent;
    } else {
      var n := |bits| - 1;
      BitsSend(a, index, bits[..n]);
      hide Step;
      StepsInTwo(a, WireBits(index, bits[..n]), [WireBit(index, bits[n])]);
      var m := Steps(a, WireBits(index, bits[..n]));
      StepsOne(m, WireBit(index, bits[n]));
      hide Steps;
      BitSends(m, index, bits[n]);
    }
  }

  lemma BitSends(a: Acc, index: int, b: Bit)
    requires index in a.blocks
    ensures var r := Step(a, WireBit(index, b));
            && r.sent == a.sent + (if b.Chunk? then [DeltaEvent(index, a.blocks[index].kind, b.text)] else [])
            && index in r.blocks && r.blocks[index].kind == a.blocks[index].kind
  {
    assert a.sent + [] == a.sent;
  }

  lemma StartSends(a: Acc, b: Sent)
    ensures var r := Step(a, BlockStart(b.index, b.head));
            && r.sent == a.sent + [StartOf(b)] && b.index in r.blocks && r.blocks[b.index].kind == KindOf(b.head)
  {
  }

  lemma StopSends(a: Acc, index: int)
    requires index in a.blocks
    ensures Step(a, BlockStop(index)).sent == a.sent + [StopEvent(index, a.blocks[index].kind)]
  {
  }

  lemma BlockSends(a: Acc, b: Sent)
    ensures Steps(a, WireItem(Content(b))).sent == a.sent + EventsOfItem(Content(b))
  {
    hide Step, Steps, WireBits, DeltasOf;
    var start, bits, stop := BlockStart(b.index, b.head), WireBits(b.index, b.bits), BlockStop(b.index);
    StepsInTwo(a, [start] + bits, [stop]);
    StepsInTwo(a, [start], bits);
    StepsOne(a, start);
    StartSends(a, b);
    var a1 := Step(a, start);
    BitsSend(a1, b.index, b.bits);
    var a2 := Steps(a1, bits);
    StepsOne(a2, stop);
    StopSends(a2, b.index);
    var kind := KindOf(b.head);
    assert a.sent + [StartOf(b)] + DeltasOf(b.index, kind, b.bits) + [StopEvent(b.index, kind)]
        == a.sent + ([StartOf(b)] + DeltasOf(b.index, kind, b.bits) + [StopEvent(b.index, kind)]);
  }

  lemma PingSends(a: Acc)
    ensures Steps(a, WireItem(Between)).sent == a.sent + EventsOfItem(Between)
  {
    StepsOne(a, Ignored);
    assert a.sent + [] == a.sent;
  }

  lemma OneMoreItem(items: seq<Item>)
    requires items != []
    ensures var n := |items| - 1;
            && WireItems(items) == WireItems(items[..n]) + WireItem(items[n])
            && EventsOfItems(items) == EventsOfItems(items[..n]) + EventsOfItem(items[n])
  {
    hide WireItem, EventsOfItem;
  }

  lemma ItemSends(a: Acc, i: Item)
    ensures Steps(a, WireItem(i)).sent == a.sent + EventsOfItem(i)
  {
    hide Steps, EventsOfItem, WireItem;
    if i.Content? { BlockSends(a, i.block); } else { PingSends(a); }
  }

  lemma NoItemsSend(a: Acc)
    ensures Steps(a, WireItems([])).sent == a.sent + EventsOfItems([])
  {
    assert a.sent + [] == a.sent;
  }

  lemma {:induction false} ItemsSend(a: Acc, items: seq<Item>)
    ensures Steps(a, WireItems(items)).sent == a.sent + EventsOfItems(items)
  {
    hide *;
    if items == [] {
      NoItemsSend(a);
    } else {
      var n := |items| - 1;
      ItemsSend(a, items[..n]);
      OneMoreItem(items);
      StepsInTwo(a, WireItems(items[..n]), WireItem(items[n]));
      ItemSends(Steps(a, WireItems(items[..n])), items[n]);
      Regroup(a.sent, EventsOfItems(items[..n]), EventsOfItem(items[n]));
    }
  }

  /** The consumer of a message sees exactly: who answers, then for each block its
      start, a delta for each chunk and its stop, then the usage and the reason of
      the end; and the accumulated response reports the same reason and usage. */
  lemma StreamIsExactly(b: Body, items: seq<Item>)
    requires b.content == BlocksOf(items)
    ensures var r := Read(EMPTY, Wire(b, items));
            exists usage, finish ::
              && UsageFits(b, usage) && FinishFits(b.stopReason, finish)
              && r.sent == [MetaEvent(b.id, b.model)] + EventsOfItems(items) + [UsageEvent(usage, finish)]
              && r.end.Completed? && r.end.resp.usage == usage && r.end.resp.finish == finish
  {
    hide Step, Steps, Read, AllParts, BlocksOf, EventsOfItems;
    var start := MessageStart(b.id, b.model, b.input, b.cacheRead, b.cacheWrite);
    var wire, last := WireItems(items), MessageDelta(b.stopReason, b.output);
    WireIsNonTerminal(items);
    assert Wire(b, items) == ([start] + wire + [last]) + [MessageStop];
    hide WireItems;
    ReadIsSteps(EMPTY, [start] + wire + [last], [MessageStop]);
    StepsInTwo(EMPTY, [start] + wire, [last]);
    StepsInTwo(EMPTY, [start], wire);
    StepsOne(EMPTY, start);
    var a1 := Step(EMPTY, start);
    ItemsSend(a1, items);
    var a2 := Steps(a1, wire);
    StepsOne(a2, last);
    ReadStops(Step(a2, last));
    MetaSends(b);
    StreamedEqualsParsed(b, items);
    ParsedFits(b);
    EndSends(a2, b.stopReason, b.output);
  }

  lemma MetaSends(b: Body)
    ensures Step(EMPTY, MessageStart(b.id, b.model, b.input, b.cacheRead, b.cacheWrite)).sent
       == [MetaEvent(b.id, b.model)]
  {
  }

  lemma EndSends(a: Acc, stopReason: string, output: int)
    ensures var r := Step(a, MessageDelta(stopReason, output));
            r.sent == a.sent + [UsageEvent(r.resp.usage, r.resp.finish)]
  {
  }

  // ---- streams that do not end as they should ----

  /** Deltas and stops for a block that was never started change nothing. */
  lemma UnknownBlockIsIgnored(a: Acc, index: int, text: string)
    requires index !in a.blocks
    ensures Step(a, BlockDelta(index, text)) == a
    ensures Step(a, SignatureDelta(index, text)) == a
    ensures Step(a, BlockStop(index)) == a
  {
  }

  /** A stream that ends before message_stop, or reports an error, is an error: the
      consumer has seen what came before, and a readable error. */
  lemma {:induction false} UnfinishedIsError(a: Acc, events: seq<Sse>, readable: bool)
    requires NonTerminal(events)
    ensures Read(a, events) == Outcome(Errored, Steps(a, events).sent)
    ensures Read(a, events + [ErrorEvent(readable)]) ==
              Outcome(Errored, Steps(a, events).sent + (if readable then [FailureEvent] else []))
  {
    hide Step;
    ReadIsSteps(a, events, []);
    assert events + [] == events;
    ReadIsSteps(a, events, [ErrorEvent(readable)]);
  }

  // ---- the synthesized stream ----

  /** The three events of part i among those of all parts. */
  function Third(events: seq<StreamEvent>, i: nat): seq<StreamEvent>
    requires 3 * i + 3 <= |events|
  {
    events[3 * i..3 * i + 3]
  }

  predicate PartShape(es: seq<StreamEvent>, p: Part, i: int) {
    match p
    case TextPart(text) =>
      es == [StartEvent(i, TextKind, "", ""), DeltaEvent(i, TextKind, text), StopEvent(i, TextKind)]
    case ToolCallPart(id, name, args) =>
      es == [StartEvent(i, ToolCallKind, id, name), DeltaEvent(i, ToolCallKind, args), StopEvent(i, ToolCallKind)]
    case ThinkingPart(thinking, _) =>
      es == [StartEvent(i, ThinkingKind, "", ""), DeltaEvent(i, ThinkingKind, thinking), StopEvent(i, ThinkingKind)]
  }

  lemma PartHasShape(p: Part, i: int)
    ensures PartShape(PartEvents(p, i), p, i) && |PartEvents(p, i)| == 3
  {
  }

  lemma ThirdOfLonger(a: seq<StreamEvent>, b: seq<StreamEvent>, n: nat, i: nat)
    requires |a| == 3 * n && |b| == 3 && i <= n
    ensures Third(a + b, i) == if i < n then Third(a, i) else b
  {
  }

  lemma {:induction false} PartsShape(parts: seq<Part>, i: nat)
    requires i < |parts|
    ensures |PartsEvents(parts)| == 3 * |parts|
    ensures PartShape(Third(PartsEvents(parts), i), parts[i], i)
  {
    hide PartShape, PartEvents, Third;
    var n := |parts| - 1;
    PartsLength(parts[..n]);
    PartHasShape(parts[n], n);
    ThirdOfLonger(PartsEvents(parts[..n]), PartEvents(parts[n], n), n, i);
    if i < n {
      PartsShape(parts[..n], i);
    }
  }

  lemma {:induction false} PartsLength(parts: seq<Part>)
    ensures |PartsEvents(parts)| == 3 * |parts|
  {
    hide PartEvents;
    if parts != [] {
      PartsLength(parts[..|parts| - 1]);
      PartHasShape(parts[|parts| - 1], |parts| - 1);
    }
  }

  /** The same shape for an answer that was not streamed: part i under index i. */
  lemma SynthesizedIsExactly(r: Response)
    ensures exists events ::
              && SynthesizedEvents(r) == [MetaEvent(r.id, r.model)] + events + [UsageEvent(r.usage, r.finish)]
              && |events| == 3 * |r.content|
              && forall i :: 0 <= i < |r.content| ==> PartShape(Third(events, i), r.content[i], i)
  {
    hide PartsEvents, PartShape, Third;
    var events := PartsEvents(r.content);
    PartsLength(r.content);
    forall i | 0 <= i < |r.content| ensures PartShape(Third(events, i), r.content[i], i) {
      PartsShape(r.content, i);
    }
    assert SynthesizedEvents(r) == [MetaEvent(r.id, r.model)] + events + [UsageEvent(r.usage, r.finish)];
  }
}
