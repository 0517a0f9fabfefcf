/** internal/llm/provider/anthropic_stream.go, anthropic.go (parseResponse) and
    internal/llm/stream.go (CompleteToStream): the answer accumulated from a stream
    is the answer of the non-streaming call. JSON texts appear decoded. */
module AnthropicStream {
  import opened Text

  datatype Usage = Usage(input: int, output: int, total: int, cacheRead: int, cacheWrite: int)

  datatype Finish = Unset | Stop | ToolUse | Length

  datatype Part =
    | TextPart(text: string)
    | ToolCallPart(id: string, name: string, args: string)
    | ThinkingPart(thinking: string, signature: string)

  datatype Response = Response(id: string, model: string, content: seq<Part>, finish: Finish, usage: Usage)

  const NO_USAGE := Usage(0, 0, 0, 0, 0)

  function FinishOf(stopReason: string): Finish {
    if stopReason == "tool_use" then ToolUse
    else if stopReason == "max_tokens" then Length
    else Stop
  }

  // ---- the non-streaming answer ----

  datatype Block =
    | TextBlock(text: string)
    | ToolUseBlock(id: string, name: string, input: string)
    | ThinkingBlock(thinking: string, signature: string)
    | OtherBlock

  datatype Body = Body(id: string, model: string, content: seq<Block>, stopReason: string,
                       input: int, output: int, cacheRead: int, cacheWrite: int)

  function PartsOf(b: Block): seq<Part> {
    match b
    case TextBlock(text) => [TextPart(text)]
    case ToolUseBlock(id, name, input) => [ToolCallPart(id, name, input)]
    case ThinkingBlock(thinking, signature) => [ThinkingPart(thinking, signature)]
    case OtherBlock => []
  }

  function AllParts(blocks: seq<Block>): seq<Part> {
    if blocks == [] then [] else AllParts(blocks[..|blocks| - 1]) + PartsOf(blocks[|blocks| - 1])
  }

  function Parsed(b: Body): Response {
    Response(b.id, b.model, AllParts(b.content), FinishOf(b.stopReason),
             Usage(b.input, b.output, b.input + b.output, b.cacheRead, b.cacheWrite))
  }

  method ParseResponse(b: Body) returns (r: Response)
    ensures r == Parsed(b)
    ensures r.finish == ToolUse <==> b.stopReason == "tool_use"
    ensures r.finish == Length <==> b.stopReason == "max_tokens"
    ensures r.finish != Unset
  {
    var content: seq<Part> := [];
    for i := 0 to |b.content|
      invariant content == AllParts(b.content[..i])
    {
      assert b.content[..i + 1][..i] == b.content[..i];
      match b.content[i] {
        case TextBlock(text) => content := content + [TextPart(text)];
        case ToolUseBlock(id, name, input) => content := content + [ToolCallPart(id, name, input)];
        case ThinkingBlock(thinking, signature) => content := content + [ThinkingPart(thinking, signature)];
        case OtherBlock =>
      }
    }
    assert b.content[..|b.content|] == b.content;
    r := Response(b.id, b.model, content, FinishOf(b.stopReason),
                  Usage(b.input, b.output, b.input + b.output, b.cacheRead, b.cacheWrite));
  }

  // ---- the stream ----

  datatype Kind = NoKind | TextKind | ToolCallKind | ThinkingKind

  datatype Head = TextHead | ToolHead(id: string, name: string) | ThinkingHead | OtherHead

  /** An event of the provider. Ignored is a ping, an unknown event, or one whose
      data does not decode; an error event whose data does not decode is not
      readable. `text` of a delta is the field its type calls for; of a
      signature delta, the field the code reads. */
  datatype Sse =
    | MessageStart(id: string, model: string, input: int, cacheRead: int, cacheWrite: int)
    | BlockStart(index: int, head: Head)
    | BlockDelta(index: int, text: string)
    | SignatureDelta(index: int, text: string)
    | BlockStop(index: int)
    | MessageDelta(stopReason: string, output: int)
    | MessageStop
    | ErrorEvent(readable: bool)
    | Ignored

  /** What the consumer sees. */
  datatype StreamEvent =
    | MetaEvent(id: string, model: string)
    | StartEvent(index: int, kind: Kind, toolID: string, toolName: string)
    | DeltaEvent(index: int, kind: Kind, text: string)
    | StopEvent(index: int, kind: Kind)
    | UsageEvent(usage: Usage, finish: Finish)
    | FailureEvent

  datatype BlockState = BlockState(kind: Kind, text: string, toolID: string, toolName: string, signature: string)

  datatype Acc = Acc(resp: Response, usage: Usage, blocks: map<int, BlockState>, sent: seq<StreamEvent>)

  const EMPTY := Acc(Response("", "", [], Unset, NO_USAGE), NO_USAGE, map[], [])

  function Opened(head: Head): BlockState {
    match head
    case TextHead => BlockState(TextKind, "", "", "", "")
    case ToolHead(id, name) => BlockState(ToolCallKind, "", id, name, "")
    case ThinkingHead => BlockState(ThinkingKind, "", "", "", "")
    case OtherHead => BlockState(NoKind, "", "", "", "")
  }

  function PartOf(b: BlockState): seq<Part> {
    match b.kind
    case TextKind => [TextPart(b.text)]
    case ToolCallKind => [ToolCallPart(b.toolID, b.toolName, b.text)]
    case ThinkingKind => [ThinkingPart(b.text, b.signature)]
    case NoKind => []
  }

  function Send(a: Acc, e: StreamEvent): Acc {
    a.(sent := a.sent + [e])
  }

  /** One event that does not end the stream. */
  function Step(a: Acc, e: Sse): Acc {
    match e
    case MessageStart(id, model, input, cacheRead, cacheWrite) =>
      Send(a.(resp := a.resp.(id := id, model := model),
              usage := a.usage.(input := input, cacheRead := cacheRead, cacheWrite := cacheWrite)),
           MetaEvent(id, model))
    case BlockStart(index, head) =>
      var b := Opened(head);
      Send(a.(blocks := a.blocks[index := b]), StartEvent(index, b.kind, b.toolID, b.toolName))
    case BlockDelta(index, text) =>
      if index !in a.blocks then a
      else
        var b := a.blocks[index];
        Send(a.(blocks := a.blocks[index := b.(text := b.text + text)]), DeltaEvent(index, b.kind, text))
    case SignatureDelta(index, text) =>
      if index !in a.blocks then a
      else
        var b := a.blocks[index];
        a.(blocks := a.blocks[index := b.(signature := b.signature + text)])
    case BlockStop(index) =>
      if index !in a.blocks then a
      else
        var b := a.blocks[index];
        Send(a.(resp := a.resp.(content := a.resp.content + PartOf(b))), StopEvent(index, b.kind))
    case MessageDelta(stopReason, output) =>
      var u := a.usage.(output := output, total := a.usage.input + output);
      Send(a.(usage := u, resp := a.resp.(finish := FinishOf(stopReason), usage := u)),
           UsageEvent(u, FinishOf(stopReason)))
    case _ => a
  }

  /** How reading ends: Finish with the response, Finish with an error, or no
      Finish at all because the consumer has gone. */
  datatype End = Completed(resp: Response) | Errored | Abandoned

  datatype Outcome = Outcome(end: End, sent: seq<StreamEvent>)

  /** Reading while the consumer takes every event. */
  function Read(a: Acc, events: seq<Sse>): Outcome
    decreases |events|
  {
    if events == [] then Outcome(Errored, a.sent)
    else if events[0].MessageStop? then Outcome(Completed(a.resp), a.sent)
    else if events[0].ErrorEvent? then Outcome(Errored, a.sent + (if events[0].readable then [FailureEvent] else []))
    else Read(Step(a, events[0]), events[1..])
  }

  /** How many events have to be taken: all but a closing failure event, whose
      sending does not matter. */
  function Needed(o: Outcome): nat {
    if o.sent != [] && o.sent[|o.sent| - 1].FailureEvent? then |o.sent| - 1 else |o.sent|
  }

  predicate NoFailure(sent: seq<StreamEvent>) {
    forall i :: 0 <= i < |sent| ==> !sent[i].FailureEvent?
  }

  lemma StepSendsNoFailure(a: Acc, e: Sse)
    requires NoFailure(a.sent)
    ensures NoFailure(Step(a, e).sent)
  {
  }

  /** At least what has been sent so far is needed. */
  lemma {:induction false} NeededGrows(a: Acc, events: seq<Sse>)
    requires NoFailure(a.sent)
    ensures |a.sent| <= Needed(Read(a, events))
    decreases |events|
  {
    hide Step;
    if events != [] && !events[0].MessageStop? && !events[0].ErrorEvent? {
      StepSends(a, events[0]);
      StepSendsNoFailure(a, events[0]);
      NeededGrows(Step(a, events[0]), events[1..]);
    }
  }

  /** readStream. The consumer takes the first `patience` events; when a later one
      cannot be sent, the function returns at once and Finish is never called. */
  method ReadStream(events: seq<Sse>, patience: nat) returns (end: End, sent: seq<StreamEvent>)
    ensures |sent| <= patience && sent <= Read(EMPTY, events).sent
    ensures end != Abandoned ==>
              || Outcome(end, sent) == Read(EMPTY, events)
              || (end == Errored && Read(EMPTY, events) == Outcome(Errored, sent + [FailureEvent]))
    ensures end == Abandoned ==> |sent| == patience < |Read(EMPTY, events).sent|
    ensures |Read(EMPTY, events).sent| <= patience ==> Outcome(end, sent) == Read(EMPTY, events)
    ensures end == Abandoned <==> patience < Needed(Read(EMPTY, events))
  {
    hide Step;
    var a := EMPTY;
    for i := 0 to |events|
      invariant Read(a, events[i..]) == Read(EMPTY, events)
      invariant |a.sent| <= patience && NoFailure(a.sent)
    {
      assert events[i..][1..] == events[i + 1..] && events[i..][0] == events[i];
      ReadSends(a, events[i..]);
      match events[i] {
        case MessageStop =>
          return Completed(a.resp), a.sent;
        case ErrorEvent(readable) =>
          // The result of this Send is not looked at.
          if readable && |a.sent| < patience {
            a := Send(a, FailureEvent);
          }
          return Errored, a.sent;
        case _ =>
          var next := Step(a, events[i]);
          StepSends(a, events[i]);
          StepSendsNoFailure(a, events[i]);
          ReadSends(next, events[i + 1..]);
          NeededGrows(next, events[i + 1..]);
          if |next.sent| > patience {
            return Abandoned, a.sent;
          }
          a := next;
      }
    }
    return Errored, a.sent;
  }

  lemma StepSends(a: Acc, e: Sse)
    ensures a.sent <= Step(a, e).sent && |Step(a, e).sent| <= |a.sent| + 1
  {
  }

  lemma {:induction false} ReadSends(a: Acc, events: seq<Sse>)
    ensures a.sent <= Read(a, events).sent
    decreases |events|
  {
    hide Step;
    if events != [] && !events[0].MessageStop? && !events[0].ErrorEvent? {
      StepSends(a, events[0]);
      ReadSends(Step(a, events[0]), events[1..]);
    }
  }

  // ---- messages and their chunkings ----

  /** A stretch of a block on the wire. */
  datatype Bit = Chunk(text: string) | Signature(text: string) | Ping

  /** A block sent under an index, its payload in chunks, pings anywhere. */
  datatype Sent = Sent(index: int, head: Head, bits: seq<Bit>)

  datatype Item = Content(block: Sent) | Between

  function Payload(bits: seq<Bit>): string {
    if bits == [] then ""
    else Payload(bits[..|bits| - 1]) + (if bits[|bits| - 1].Chunk? then bits[|bits| - 1].text else "")
  }

  function SignatureOf(bits: seq<Bit>): string {
    if bits == [] then ""
    else SignatureOf(bits[..|bits| - 1]) + (if bits[|bits| - 1].Signature? then bits[|bits| - 1].text else "")
  }

  function WireBit(index: int, b: Bit): Sse {
    match b
    case Chunk(text) => BlockDelta(index, text)
    case Signature(text) => SignatureDelta(index, text)
    case Ping => Ignored
  }

  function WireBits(index: int, bits: seq<Bit>): seq<Sse> {
    if bits == [] then [] else WireBits(index, bits[..|bits| - 1]) + [WireBit(index, bits[|bits| - 1])]
  }

  function WireItem(i: Item): seq<Sse> {
    match i
    case Content(b) => [BlockStart(b.index, b.head)] + WireBits(b.index, b.bits) + [BlockStop(b.index)]
    case Between => [Ignored]
  }

  function WireItems(items: seq<Item>): seq<Sse> {
    if items == [] then [] else WireItems(items[..|items| - 1]) + WireItem(items[|items| - 1])
  }

  /** The block that the non-streaming call would have returned. */
  function BlockOf(b: Sent): Block {
    match b.head
    case TextHead => TextBlock(Payload(b.bits))
    case ToolHead(id, name) => ToolUseBlock(id, name, Payload(b.bits))
    case ThinkingHead => ThinkingBlock(Payload(b.bits), SignatureOf(b.bits))
    case OtherHead => OtherBlock
  }

  function BlocksOf(items: seq<Item>): seq<Block> {
    if items == [] then []
    else
      var last := items[|items| - 1];
      BlocksOf(items[..|items| - 1]) + (if last.Content? then [BlockOf(last.block)] else [])
  }

  function Wire(b: Body, items: seq<Item>): seq<Sse> {
    [MessageStart(b.id, b.model, b.input, b.cacheRead, b.cacheWrite)] + WireItems(items)
    + [MessageDelta(b.stopReason, b.output), MessageStop]
  }

  /** The texts of the deltas sent under an index, put together. */
  function DeltasAt(sent: seq<StreamEvent>, index: int): string {
    if sent == [] then ""
    else
      var last := sent[|sent| - 1];
      DeltasAt(sent[..|sent| - 1], index) + (if last.DeltaEvent? && last.index == index then last.text else "")
  }

  function Steps(a: Acc, events: seq<Sse>): Acc {
    if events == [] then a else Step(Steps(a, events[..|events| - 1]), events[|events| - 1])
  }

  predicate NonTerminal(events: seq<Sse>) {
    forall i :: 0 <= i < |events| ==> !events[i].MessageStop? && !events[i].ErrorEvent?
  }

  lemma {:induction false} StepsInTwo(a: Acc, xs: seq<Sse>, ys: seq<Sse>)
    ensures Steps(a, xs + ys) == Steps(Steps(a, xs), ys)
    decreases |ys|
  {
    hide Step;
    if ys == [] {
      assert xs + ys == xs;
    } else {
      assert (xs + ys)[..|xs + ys| - 1] == xs + ys[..|ys| - 1];
      StepsInTwo(a, xs, ys[..|ys| - 1]);
    }
  }

  lemma {:induction false} ReadIsSteps(a: Acc, xs: seq<Sse>, ys: seq<Sse>)
    requires NonTerminal(xs)
    ensures Read(a, xs + ys) == Read(Steps(a, xs), ys)
    decreases |xs|
  {
    hide Step;
    if xs == [] {
      assert xs + ys == ys;
    } else {
      assert (xs + ys)[1..] == xs[1..] + ys;
      ReadIsSteps(Step(a, xs[0]), xs[1..], ys);
      StepsInTwo(a, [xs[0]], xs[1..]);
      assert [xs[0]] + xs[1..] == xs && [xs[0]][..0] == [];
      assert Steps(a, [xs[0]]) == Step(a, xs[0]);
    }
  }

  lemma {:induction false} WireIsNonTerminal(items: seq<Item>)
    ensures NonTerminal(WireItems(items))
  {
    if items != [] {
      WireIsNonTerminal(items[..|items| - 1]);
      if items[|items| - 1].Content? {
        BitsAreNonTerminal(items[|items| - 1].block.index, items[|items| - 1].block.bits);
      }
    }
  }

  lemma {:induction false} BitsAreNonTerminal(index: int, bits: seq<Bit>)
    ensures NonTerminal(WireBits(index, bits))
  {
    if bits != [] {
      BitsAreNonTerminal(index, bits[..|bits| - 1]);
    }
  }

  // ---- chunking does not matter ----

  function TextAt(sent: seq<StreamEvent>, e: StreamEvent, index: int): string {
    DeltasAt(sent, index) + (if e.DeltaEvent? && e.index == index then e.text else "")
  }

  lemma DeltasGrow(sent: seq<StreamEvent>, e: StreamEvent, index: int)
    ensures DeltasAt(sent + [e], index) == TextAt(sent, e, index)
  {
    assert (sent + [e])[..|sent|] == sent;
  }

  function TextOf(b: Bit): string {
    if b.Chunk? then b.text else ""
  }

  function MarkOf(b: Bit): string {
    if b.Signature? then b.text else ""
  }

  /** The events since `a` only concern block `index`, and add `text` to it. */
  ghost predicate Grown(a: Acc, r: Acc, index: int, text: string, mark: string) {
    && index in a.blocks && index in r.blocks
    && r.resp == a.resp && r.usage == a.usage
    && r.blocks[index] == a.blocks[index].(text := a.blocks[index].text + text,
            signature := a.blocks[index].signature + mark)
    && DeltasAt(r.sent, index) == DeltasAt(a.sent, index) + text
    && (forall j :: j != index ==> DeltasAt(r.sent, j) == DeltasAt(a.sent, j))
  }

  lemma BitGrows(a: Acc, index: int, b: Bit)
    requires index in a.blocks
    ensures Grown(a, Step(a, WireBit(index, b)), index, TextOf(b), MarkOf(b))
  {
    forall s: string ensures s + "" == s {}
    forall j ensures DeltasAt(a.sent + [DeltaEvent(index, a.blocks[index].kind, TextOf(b))], j)
                  == TextAt(a.sent, DeltaEvent(index, a.blocks[index].kind, TextOf(b)), j)
    {
      DeltasGrow(a.sent, DeltaEvent(index, a.blocks[index].kind, TextOf(b)), j);
    }
  }

  lemma GrownTwice(a: Acc, b: Acc, c: Acc, index: int, t: string, m: string, t': string, m': string)
    requires Grown(a, b, index, t, m) && Grown(b, c, index, t', m')
    ensures Grown(a, c, index, t + t', m + m')
  {
    assert forall s: string :: s + t + t' == s + (t + t');
    assert forall s: string :: s + m + m' == s + (m + m');
  }

  /** While a block is open: its text is the payload so far. */
  lemma {:induction false} BitsAccumulate(a: Acc, index: int, bits: seq<Bit>)
    requires index in a.blocks
    ensures Grown(a, Steps(a, WireBits(index, bits)), index, Payload(bits), SignatureOf(bits))
  {
    if bits == [] {
      assert forall s: string :: s + "" == s;
    } else {
      var front, last := bits[..|bits| - 1], bits[|bits| - 1];
      BitsAccumulate(a, index, front);
      var wire := WireBits(index, bits);
      assert wire[..|wire| - 1] == WireBits(index, front);
      var m := Steps(a, WireBits(index, front));
      hide Grown, Step;
      assert index in m.blocks by { GrownHas(a, m, index, Payload(front), SignatureOf(front)); }
      BitGrows(m, index, last);
      GrownTwice(a, m, Step(m, WireBit(index, last)), index, Payload(front), SignatureOf(front),
                 TextOf(last), MarkOf(last));
    }
  }

  lemma GrownHas(a: Acc, r: Acc, index: int, text: string, mark: string)
    requires Grown(a, r, index, text, mark)
    ensures index in r.blocks
  {
  }

  function ItemParts(i: Item): seq<Part> {
    if i.Content? then PartsOf(BlockOf(i.block)) else []
  }

  function ItemText(i: Item, index: int): string {
    if i.Content? && i.block.index == index then Payload(i.block.bits) else ""
  }

  /** What an item adds to the answer and to the deltas. */
  ghost predicate Added(a: Acc, r: Acc, i: Item) {
    && r.usage == a.usage
    && r.resp == a.resp.(content := a.resp.content + ItemParts(i))
    && forall j :: DeltasAt(r.sent, j) == DeltasAt(a.sent, j) + ItemText(i, j)
  }

  lemma NoDelta(sent: seq<StreamEvent>, e: StreamEvent)
    requires !e.DeltaEvent?
    ensures forall j :: DeltasAt(sent + [e], j) == DeltasAt(sent, j)
  {
    forall j ensures DeltasAt(sent + [e], j) == DeltasAt(sent, j) {
      DeltasGrow(sent, e, j);
      assert DeltasAt(sent, j) + "" == DeltasAt(sent, j);
    }
  }

  lemma OpenStep(a: Acc, b: Sent)
    ensures var r := Step(a, BlockStart(b.index, b.head));
            && r.resp == a.resp && r.usage == a.usage
            && b.index in r.blocks && r.blocks[b.index] == Opened(b.head)
            && forall j :: DeltasAt(r.sent, j) == DeltasAt(a.sent, j)
  {
    var o := Opened(b.head);
    NoDelta(a.sent, StartEvent(b.index, o.kind, o.toolID, o.toolName));
  }

  lemma CloseStep(a: Acc, index: int)
    requires index in a.blocks
    ensures var r := Step(a, BlockStop(index));
            && r.usage == a.usage
            && r.resp == a.resp.(content := a.resp.content + PartOf(a.blocks[index]))
            && forall j :: DeltasAt(r.sent, j) == DeltasAt(a.sent, j)
  {
    NoDelta(a.sent, StopEvent(index, a.blocks[index].kind));
  }

  lemma PartOfBlock(b: Sent, state: BlockState)
    requires var o := Opened(b.head);
             state == o.(text := o.text + Payload(b.bits), signature := o.signature + SignatureOf(b.bits))
    ensures PartOf(state) == PartsOf(BlockOf(b))
  {
    assert "" + Payload(b.bits) == Payload(b.bits) && "" + SignatureOf(b.bits) == SignatureOf(b.bits);
  }

  lemma BlockAdds(a: Acc, b: Sent)
    ensures Added(a, Steps(a, WireItem(Content(b))), Content(b))
  {
    hide Step, Opened, PartOf, BlockOf, PartsOf;
    var start, wire, stop := BlockStart(b.index, b.head), WireBits(b.index, b.bits), BlockStop(b.index);
    StepsInTwo(a, [start] + wire, [stop]);
    StepsInTwo(a, [start], wire);
    StepsOne(a, start);
    var a1 := Step(a, start);
    OpenStep(a, b);
    BitsAccumulate(a1, b.index, b.bits);
    var a2 := Steps(a1, wire);
    hide Steps;
    StepsOne(a2, stop);
    CloseStep(a2, b.index);
    PartOfBlock(b, a2.blocks[b.index]);
    var r := Step(a2, stop);
    forall j ensures DeltasAt(r.sent, j) == DeltasAt(a.sent, j) + ItemText(Content(b), j) {
      assert DeltasAt(a.sent, j) + "" == DeltasAt(a.sent, j);
    }
  }

  lemma StepsOne(a: Acc, e: Sse)
    ensures Steps(a, [e]) == Step(a, e)
  {
    hide Step;
    assert [e][..0] == [];
  }

  lemma ItemAdds(a: Acc, i: Item)
    ensures Added(a, Steps(a, WireItem(i)), i)
  {
    if i.Content? {
      BlockAdds(a, i.block);
    } else {
      StepsOne(a, Ignored);
      assert a.resp.content + [] == a.resp.content;
      forall j ensures DeltasAt(a.sent, j) + "" == DeltasAt(a.sent, j) {}
    }
  }

  /** The texts of the items under an index. */
  function ItemsText(items: seq<Item>, index: int): string {
    if items == [] then "" else ItemsText(items[..|items| - 1], index) + ItemText(items[|items| - 1], index)
  }

  ghost predicate AddedAll(a: Acc, r: Acc, items: seq<Item>) {
    && r.usage == a.usage
    && r.resp == a.resp.(content := a.resp.content + AllParts(BlocksOf(items)))
    && forall j :: DeltasAt(r.sent, j) == DeltasAt(a.sent, j) + ItemsText(items, j)
  }

  lemma NothingAdded(a: Acc)
    ensures AddedAll(a, a, [])
  {
    assert a.resp.content + [] == a.resp.content;
    forall j ensures DeltasAt(a.sent, j) + "" == DeltasAt(a.sent, j) {}
  }

  lemma OneMoreAdded(a: Acc, m: Acc, r: Acc, items: seq<Item>)
    requires items != [] && AddedAll(a, m, items[..|items| - 1]) && Added(m, r, items[|items| - 1])
    ensures AddedAll(a, r, items)
  {
    hide ItemText, ItemParts, DeltasAt, BlocksOf, AllParts;
    var front, last := items[..|items| - 1], items[|items| - 1];
    PartsInTwo(items);
    Regroup(a.resp.content, AllParts(BlocksOf(front)), ItemParts(last));
    forall j ensures DeltasAt(r.sent, j) == DeltasAt(a.sent, j) + ItemsText(items, j) {
      Regroup(DeltasAt(a.sent, j), ItemsText(front, j), ItemText(last, j));
    }
  }

  lemma Regroup<T>(x: seq<T>, y: seq<T>, z: seq<T>)
    ensures x + y + z == x + (y + z)
  {
  }

  lemma {:induction false} PartsInTwo(items: seq<Item>)
    requires items != []
    ensures AllParts(BlocksOf(items)) == AllParts(BlocksOf(items[..|items| - 1])) + ItemParts(items[|items| - 1])
  {
    hide AllParts, ItemParts;
    MoreParts(BlocksOf(items[..|items| - 1]), items[|items| - 1]);
  }

  lemma {:induction false} ItemsAccumulate(a: Acc, items: seq<Item>)
    ensures AddedAll(a, Steps(a, WireItems(items)), items)
  {
    hide Step, WireItem, AddedAll, Added;
    if items == [] {
      NothingAdded(a);
    } else {
      var front, last := items[..|items| - 1], items[|items| - 1];
      ItemsAccumulate(a, front);
      StepsInTwo(a, WireItems(front), WireItem(last));
      var m := Steps(a, WireItems(front));
      ItemAdds(m, last);
      hide Steps;
      OneMoreAdded(a, m, Steps(m, WireItem(last)), items);
    }
  }

  lemma MoreParts(blocks: seq<Block>, i: Item)
    ensures AllParts(blocks + (if i.Content? then [BlockOf(i.block)] else [])) == AllParts(blocks) + ItemParts(i)
  {
    if i.Content? {
      assert (blocks + [BlockOf(i.block)])[..|blocks|] == blocks;
    } else {
      assert blocks + [] == blocks;
    }
  }

  /** Chunking independence: a message sent block by block, its payloads split in
      any way with pings in between and any indices, is accumulated to exactly the
      response that the non-streaming call parses from the same message; the deltas
      under an index concatenate to the payloads sent under it. */
  lemma StreamedEqualsParsed(b: Body, items: seq<Item>)
    requires b.content == BlocksOf(items)
    ensures var r := Read(EMPTY, Wire(b, items));
            && r.end == Completed(Parsed(b))
            && forall j :: DeltasAt(r.sent, j) == ItemsText(items, j)
  {
    hide Step, Steps, Read, AddedAll;
    var start := MessageStart(b.id, b.model, b.input, b.cacheRead, b.cacheWrite);
    var wire, last := WireItems(items), MessageDelta(b.stopReason, b.output);
    WireIsNonTerminal(items);
    assert Wire(b, items) == ([start] + wire + [last]) + [MessageStop];
    hide WireItems;
    ReadIsSteps(EMPTY, [start] + wire + [last], [MessageStop]);
    StepsInTwo(EMPTY, [start] + wire, [last]);
    StepsInTwo(EMPTY, [start], wire);
    StepsOne(EMPTY, start);
    var a1 := Step(EMPTY, start);
    ItemsAccumulate(a1, items);
    var a2 := Steps(a1, wire);
    StepsOne(a2, last);
    var a3 := Step(a2, last);
    ReadStops(a3);
    StartAndEnd(b, items, a1, a2, a3);
  }

  lemma ReadStops(a: Acc)
    ensures Read(a, [MessageStop]) == Outcome(Completed(a.resp), a.sent)
  {
  }

  lemma {:induction false} StartAndEnd(b: Body, items: seq<Item>, a1: Acc, a2: Acc, a3: Acc)
    requires b.content == BlocksOf(items)
    requires a1 == Step(EMPTY, MessageStart(b.id, b.model, b.input, b.cacheRead, b.cacheWrite))
    requires AddedAll(a1, a2, items)
    requires a3 == Step(a2, MessageDelta(b.stopReason, b.output))
    ensures a3.resp == Parsed(b) && forall j :: DeltasAt(a3.sent, j) == ItemsText(items, j)
  {
    hide AllParts, BlocksOf;
    assert [] + AllParts(b.content) == AllParts(b.content);
    NoDelta([], MetaEvent(b.id, b.model));
    assert a1.sent == [] + [MetaEvent(b.id, b.model)];
    assert a3.sent == a2.sent + [a3.sent[|a2.sent|]];
    NoDelta(a2.sent, a3.sent[|a2.sent|]);
    hide Step;
    forall j ensures DeltasAt(a3.sent, j) == ItemsText(items, j) {
      assert "" + ItemsText(items, j) == ItemsText(items, j);
    }
  }

  /** Of any message some event is needed, so a consumer that takes none (patience 0)
      leaves readStream abandoned. */
  lemma FirstEventIsNeeded(b: Body, items: seq<Item>)
    ensures Needed(Read(EMPTY, Wire(b, items))) > 0
  {
    var wire := Wire(b, items);
    assert wire[0].MessageStart?;
    var first := Step(EMPTY, wire[0]);
    assert |first.sent| == 1 && Read(EMPTY, wire) == Read(first, wire[1..]);
    NeededGrows(first, wire[1..]);
  }

  predicate DistinctIndices(items: seq<Item>) {
    forall i, j :: 0 <= i < j < |items| && items[i].Content? && items[j].Content? ==>
      items[i].block.index != items[j].block.index
  }

  /** With distinct indices the deltas of a block are its payload. */
  lemma {:induction false} ItemsTextIsPayload(items: seq<Item>, k: nat)
    requires DistinctIndices(items) && k < |items| && items[k].Content?
    ensures ItemsText(items, items[k].block.index) == Payload(items[k].block.bits)
  {
    var front, last := items[..|items| - 1], items[|items| - 1];
    if k < |front| {
      ItemsTextIsPayload(front, k);
      assert ItemsText(front, items[k].block.index) + "" == Payload(items[k].block.bits);
    } else {
      NoTextElsewhere(front, last.block.index);
    }
  }

  lemma {:induction false} NoTextElsewhere(items: seq<Item>, index: int)
    requires forall i :: 0 <= i < |items| && items[i].Content? ==> items[i].block.index != index
    ensures ItemsText(items, index) == ""
  {
    if items != [] {
      NoTextElsewhere(items[..|items| - 1], index);
    }
  }

  // ---- signatures aside ----

  function Unsigned(p: Part): Part {
    if p.ThinkingPart? then p.(signature := "") else p
  }

  function UnsignedAll(parts: seq<Part>): seq<Part> {
    seq(|parts|, i requires 0 <= i < |parts| => Unsigned(parts[i]))
  }

  function UnsignedBlock(b: Block): Block {
    if b.ThinkingBlock? then b.(signature := "") else b
  }

  predicate SameButSigned(a: seq<Block>, b: seq<Block>) {
    |a| == |b| && forall i :: 0 <= i < |a| ==> UnsignedBlock(a[i]) == UnsignedBlock(b[i])
  }

  lemma {:induction false} SameParts(a: seq<Block>, b: seq<Block>)
    requires SameButSigned(a, b)
    ensures UnsignedAll(AllParts(a)) == UnsignedAll(AllParts(b))
  {
    if a != [] {
      var n := |a| - 1;
      SameParts(a[..n], b[..n]);
      assert UnsignedBlock(a[n]) == UnsignedBlock(b[n]);
      UnsignedInTwo(AllParts(a[..n]), PartsOf(a[n]));
      UnsignedInTwo(AllParts(b[..n]), PartsOf(b[n]));
      assert UnsignedAll(PartsOf(a[n])) == UnsignedAll(PartsOf(b[n]));
    }
  }

  lemma UnsignedInTwo(a: seq<Part>, b: seq<Part>)
    ensures UnsignedAll(a + b) == UnsignedAll(a) + UnsignedAll(b)
  {
  }

  /** Whatever the signatures were, everything else of the answer is the same. */
  lemma StreamedEqualsParsedButSigned(b: Body, items: seq<Item>)
    requires SameButSigned(b.content, BlocksOf(items))
    ensures var r := Read(EMPTY, Wire(b, items));
            && r.end.Completed?
            && r.end.resp.(content := []) == Parsed(b).(content := [])
            && UnsignedAll(r.end.resp.content) == UnsignedAll(Parsed(b).content)
  {
    var b' := b.(content := BlocksOf(items));
    assert Wire(b, items) == Wire(b', items);
    hide Read, Wire, EMPTY;
    StreamedEqualsParsed(b', items);
    SameParts(b.content, BlocksOf(items));
  }

  // ---- when the signatures arrive too ----

  /** One block is decided by its part and by what it is without its signature. */
  lemma PartDecidesBlock(a: Block, b: Block)
    requires UnsignedBlock(a) == UnsignedBlock(b)
    ensures |PartsOf(a)| == |PartsOf(b)| && (PartsOf(a) == PartsOf(b) ==> a == b)
  {
    if PartsOf(a) == PartsOf(b) && a.ThinkingBlock? {
      assert PartsOf(a)[0] == PartsOf(b)[0];
    }
  }

  /** Parts decide the blocks they come from, once these agree up to signatures. */
  lemma {:induction false} PartsDecideBlocks(a: seq<Block>, b: seq<Block>)
    requires SameButSigned(a, b) && AllParts(a) == AllParts(b)
    ensures a == b
  {
    hide UnsignedBlock, PartsOf;
    if a != [] {
      var n := |a| - 1;
      assert UnsignedBlock(a[n]) == UnsignedBlock(b[n]);
      PartDecidesBlock(a[n], b[n]);
      TailsAgree(AllParts(a[..n]), PartsOf(a[n]), AllParts(b[..n]), PartsOf(b[n]));
      PartsDecideBlocks(a[..n], b[..n]);
      assert a == a[..n] + [a[n]] && b == b[..n] + [b[n]];
    }
  }

  lemma TailsAgree<T>(x: seq<T>, p: seq<T>, y: seq<T>, q: seq<T>)
    requires x + p == y + q && |p| == |q|
    ensures x == y && p == q
  {
    assert x == (x + p)[..|x|] && y == (y + q)[..|y|];
    assert p == (x + p)[|x|..] && q == (y + q)[|y|..];
  }

  /** Of a message whose blocks are sent up to their signatures, the accumulated
      answer is the parsed one exactly when the signatures were sent as well. */
  lemma {:induction false} StreamedEqualsParsedIff(b: Body, items: seq<Item>)
    requires SameButSigned(b.content, BlocksOf(items))
    ensures Read(EMPTY, Wire(b, items)).end == Completed(Parsed(b)) <==> b.content == BlocksOf(items)
  {
    var b' := b.(content := BlocksOf(items));
    assert Wire(b, items) == Wire(b', items);
    hide Read, Wire, EMPTY, BlocksOf, SameButSigned, AllParts;
    StreamedEqualsParsed(b', items);
    if AllParts(b.content) == AllParts(b'.content) {
      PartsDecideBlocks(b.content, b'.content);
    }
  }

  /** No signature delta carries anything in its text field: what the code reads
      when the provider puts the signature in a field of its own. */
  predicate NoSignatureTexts(items: seq<Item>) {
    forall i, j :: 0 <= i < |items| && items[i].Content? && 0 <= j < |items[i].block.bits| ==>
      items[i].block.bits[j].Signature? ==> items[i].block.bits[j].text == ""
  }

  predicate NothingSigned(blocks: seq<Block>) {
    forall i :: 0 <= i < |blocks| && blocks[i].ThinkingBlock? ==> blocks[i].signature == ""
  }

  lemma {:induction false} NoSignature(bits: seq<Bit>)
    requires forall j :: 0 <= j < |bits| && bits[j].Signature? ==> bits[j].text == ""
    ensures SignatureOf(bits) == ""
  {
    if bits != [] {
      NoSignature(bits[..|bits| - 1]);
    }
  }

  lemma {:induction false} BlocksUnsigned(items: seq<Item>)
    requires NoSignatureTexts(items)
    ensures NothingSigned(BlocksOf(items))
  {
    if items != [] {
      var last := items[|items| - 1];
      BlocksUnsigned(items[..|items| - 1]);
      if last.Content? {
        assert forall j :: 0 <= j < |last.block.bits| ==>
          last.block.bits[j].Signature? ==> items[|items| - 1].block.bits[j].text == "";
        NoSignature(last.block.bits);
      }
    }
  }

  /** Over such a stream the answer is the parsed one exactly when the message has
      no signed thinking. */
  lemma {:induction false} SignaturesAreLost(b: Body, items: seq<Item>)
    requires SameButSigned(b.content, BlocksOf(items)) && NoSignatureTexts(items)
    ensures Read(EMPTY, Wire(b, items)).end == Completed(Parsed(b)) <==> NothingSigned(b.content)
  {
    hide Read, Wire, EMPTY, BlocksOf, NoSignatureTexts;
    StreamedEqualsParsedIff(b, items);
    BlocksUnsigned(items);
    var sent := BlocksOf(items);
    if NothingSigned(b.content) {
      forall i | 0 <= i < |sent| ensures b.content[i] == sent[i] {
        assert UnsignedBlock(b.content[i]) == UnsignedBlock(sent[i]);
      }
      assert b.content == sent;
    }
  }

  /** One signed thinking block that is not accumulated as it is parsed. */
  lemma SignedBlockIsLost()
    ensures var b := Body("m", "model", [ThinkingBlock("t", "sig")], "end_turn", 1, 1, 0, 0);
            var items := [Content(Sent(0, ThinkingHead, [Chunk("t"), Signature("")]))];
            && SameButSigned(b.content, BlocksOf(items))
            && Read(EMPTY, Wire(b, items)).end != Completed(Parsed(b))
  {
    hide Read, Wire, EMPTY, Parsed;
    var b := Body("m", "model", [ThinkingBlock("t", "sig")], "end_turn", 1, 1, 0, 0);
    var bits := [Chunk("t"), Signature("")];
    var items := [Content(Sent(0, ThinkingHead, bits))];
    assert bits[..1] == [Chunk("t")] && bits[..1][..0] == [];
    assert Payload(bits[..1]) == "" + "t" == "t";
    assert Payload(bits) == "t" + "" == "t";
    assert items[..0] == [];
    assert BlocksOf(items) == [] + [BlockOf(items[0].block)];
    assert NoSignatureTexts(items);
    SignaturesAreLost(b, items);
    assert !NothingSigned(b.content) by { assert b.content[0].signature == "sig"; }
  }

  // ---- the synthesized stream ----

  function PayloadOf(p: Part): string {
    match p
    case TextPart(text) => text
    case ToolCallPart(_, _, args) => args
    case ThinkingPart(thinking, _) => thinking
  }

  function PartEvents(p: Part, i: int): seq<StreamEvent> {
    match p
    case TextPart(text) =>
      [StartEvent(i, TextKind, "", ""), DeltaEvent(i, TextKind, text), StopEvent(i, TextKind)]
    case ToolCallPart(id, name, args) =>
      [StartEvent(i, ToolCallKind, id, name), DeltaEvent(i, ToolCallKind, args), StopEvent(i, ToolCallKind)]
    case ThinkingPart(thinking, _) =>
      [StartEvent(i, ThinkingKind, "", ""), DeltaEvent(i, ThinkingKind, thinking), StopEvent(i, ThinkingKind)]
  }

  function PartsEvents(parts: seq<Part>): seq<StreamEvent> {
    if parts == [] then [] else PartsEvents(parts[..|parts| - 1]) + PartEvents(parts[|parts| - 1], |parts| - 1)
  }

  function SynthesizedEvents(r: Response): seq<StreamEvent> {
    [MetaEvent(r.id, r.model)] + PartsEvents(r.content) + [UsageEvent(r.usage, r.finish)]
  }

  class BufferedChannel {
    const capacity: nat
    var buf: seq<StreamEvent>

    constructor (capacity: nat)
      ensures this.capacity == capacity && buf == []
    {
      this.capacity, buf := capacity, [];
    }

    /** ch <- e with nobody receiving: with a full buffer it would block for ever. */
    method Put(e: StreamEvent)
      requires |buf| < capacity
      modifies this`buf
      ensures buf == old(buf) + [e]
    {
      buf := buf + [e];
    }
  }

  /** CompleteToStream, given a response or an error (None), which sends nothing.
      All sends happen before anyone receives, and the buffer is large enough. */
  method CompleteToStream(reply: Option<Response>) returns (ch: BufferedChannel)
    ensures fresh(ch) && ch.buf == if reply.Some? then SynthesizedEvents(reply.value) else []
  {
    hide PartEvents;
    if reply.None? {
      ch := new BufferedChannel(8);
      return;
    }
    var r := reply.value;
    ch := new BufferedChannel(2 + |r.content| * 3);
    ch.Put(MetaEvent(r.id, r.model));
    for i := 0 to |r.content|
      modifies ch`buf
      invariant ch.buf == [MetaEvent(r.id, r.model)] + PartsEvents(r.content[..i]) && |ch.buf| == 1 + i * 3
    {
      assert r.content[..i + 1][..i] == r.content[..i];
      PutPart(ch, r.content[i], i);
    }
    assert r.content[..|r.content|] == r.content;
    ch.Put(UsageEvent(r.usage, r.finish));
  }

  method PutPart(ch: BufferedChannel, p: Part, i: int)
    requires |ch.buf| + 3 <= ch.capacity
    modifies ch`buf
    ensures ch.buf == old(ch.buf) + PartEvents(p, i) && |ch.buf| == |old(ch.buf)| + 3
  {
    match p {
      case TextPart(text) =>
        ch.Put(StartEvent(i, TextKind, "", ""));
        ch.Put(DeltaEvent(i, TextKind, text));
        ch.Put(StopEvent(i, TextKind));
      case ToolCallPart(id, name, args) =>
        ch.Put(StartEvent(i, ToolCallKind, id, name));
        ch.Put(DeltaEvent(i, ToolCallKind, args));
        ch.Put(StopEvent(i, ToolCallKind));
      case ThinkingPart(thinking, _) =>
        ch.Put(StartEvent(i, ThinkingKind, "", ""));
        ch.Put(DeltaEvent(i, ThinkingKind, thinking));
        ch.Put(StopEvent(i, ThinkingKind));
    }
  }

  lemma PartDeltas(sent: seq<StreamEvent>, p: Part, i: int, j: int)
    ensures DeltasAt(sent + PartEvents(p, i), j) == DeltasAt(sent, j) + (if i == j then PayloadOf(p) else "")
  {
    var es := PartEvents(p, i);
    DeltasGrow(sent, es[0], j);
    DeltasGrow(sent + [es[0]], es[1], j);
    DeltasGrow(sent + [es[0]] + [es[1]], es[2], j);
    assert sent + es == sent + [es[0]] + [es[1]] + [es[2]];
    var t := DeltasAt(sent, j);
    assert t + "" == t;
  }

  lemma OneMorePart(meta: StreamEvent, parts: seq<Part>, j: int)
    requires parts != []
    ensures var n := |parts| - 1;
            DeltasAt([meta] + PartsEvents(parts), j)
              == DeltasAt([meta] + PartsEvents(parts[..n]), j) + (if n == j then PayloadOf(parts[n]) else "")
  {
    hide PartEvents, DeltasAt, PayloadOf;
    var n := |parts| - 1;
    PartDeltas([meta] + PartsEvents(parts[..n]), parts[n], n, j);
    Regroup([meta], PartsEvents(parts[..n]), PartEvents(parts[n], n));
  }

  lemma {:induction false} PartsDeltas(meta: StreamEvent, parts: seq<Part>, j: int)
    requires meta.MetaEvent?
    ensures DeltasAt([meta] + PartsEvents(parts), j) == if 0 <= j < |parts| then PayloadOf(parts[j]) else ""
  {
    hide PartsEvents, DeltasAt, PayloadOf;
    if parts == [] {
      NoPartDeltas(meta, j);
    } else {
      var n := |parts| - 1;
      PartsDeltas(meta, parts[..n], j);
      OneMorePart(meta, parts, j);
      AppendNothing(DeltasAt([meta] + PartsEvents(parts[..n]), j));
      NothingBefore(PayloadOf(parts[n]));
    }
  }

  lemma NoPartDeltas(meta: StreamEvent, j: int)
    requires meta.MetaEvent?
    ensures DeltasAt([meta] + PartsEvents([]), j) == ""
  {
    DeltasGrow([], meta, j);
    assert [meta] + [] == [] + [meta];
  }

  lemma AppendNothing(s: string)
    ensures s + "" == s
  {
  }

  lemma NothingBefore(s: string)
    ensures "" + s == s
  {
  }

  /** In the synthesized stream, too, the deltas under an index are the payload of
      the content part at that index. */
  lemma SynthesizedDeltas(r: Response, j: int)
    ensures DeltasAt(SynthesizedEvents(r), j) == if 0 <= j < |r.content| then PayloadOf(r.content[j]) else ""
  {
    var meta := MetaEvent(r.id, r.model);
    PartsDeltas(meta, r.content, j);
    NoDelta([meta] + PartsEvents(r.content), UsageEvent(r.usage, r.finish));
  }
}
