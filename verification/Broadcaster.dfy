/** internal/server/sse/broadcaster.go: fan-out of events to subscribers over
    bounded channels, with replay. Every method body is one critical section, so
    an interleaving is a sequence of operations. */
module Broadcaster {

  const MAX_HISTORY := 1024
  const SUB_BUF_SIZE := 64

  datatype Event = Event(kind: string, payload: string)

  /** A subscriber's channel. The last four components are for the record: what
      the consumer received, the accepted events it was offered from (replay
      included), which of them went in, and how many found the channel full. */
  datatype Channel = Channel(
    buf: seq<Event>,
    closed: bool,
    taken: seq<Event>,
    from: nat,
    sent: seq<nat>,
    dropped: nat)

  datatype State = State(
    accepted: seq<Event>,     // every event Publish has accepted, for the record
    history: seq<Event>,
    subs: set<nat>,           // registered subscriptions
    chans: map<nat, Channel>, // all channels ever made, by subscription
    nextID: nat,
    closed: bool)

  datatype Op =
    | Publish(e: Event)
    | Subscribe
    | Cancel(id: nat)         // the goroutine that waits for the context's end
    | Close
    | Take(id: nat)           // the consumer receives

  /** Sending on a closed channel and closing twice panic. */
  datatype Result = Fine(state: State) | Panic

  // ---- channel operations ----

  /** select { case ch <- evt: default: }, where `evt` is accepted event number i. */
  function TrySend(c: Channel, e: Event, i: nat): Channel {
    if |c.buf| < SUB_BUF_SIZE then c.(buf := c.buf + [e], sent := c.sent + [i])
    else c.(dropped := c.dropped + 1)
  }

  /** The replay loop, from accepted event number i on. */
  function Replay(c: Channel, events: seq<Event>, i: nat): Channel
    decreases |events|
  {
    if events == [] then c else Replay(TrySend(c, events[0], i), events[1..], i + 1)
  }

  function NewChannel(st: State): Channel
  {
    var from := if |st.history| <= |st.accepted| then |st.accepted| - |st.history| else 0;
    Replay(Channel([], false, [], from, [], 0), st.history, from)
  }

  /** The consumer receives the event at the head. */
  function Received(c: Channel): Channel
    requires c.buf != []
  {
    c.(buf := c.buf[1..], taken := c.taken + [c.buf[0]])
  }

  function Latest(s: seq<Event>): seq<Event> {
    if |s| > MAX_HISTORY then s[|s| - MAX_HISTORY..] else s
  }

  // ---- one operation ----

  function OfferAll(st: State, e: Event): map<nat, Channel> {
    map id | id in st.chans :: if id in st.subs then TrySend(st.chans[id], e, |st.accepted|) else st.chans[id]
  }

  function CloseAll(st: State): map<nat, Channel> {
    map id | id in st.chans :: if id in st.subs then st.chans[id].(closed := true) else st.chans[id]
  }

  predicate AllOpen(st: State) {
    forall id :: id in st.subs ==> id in st.chans && !st.chans[id].closed
  }

  function Step(st: State, op: Op): Result {
    match op
    case Publish(e) =>
      if st.closed then Fine(st)
      else if !AllOpen(st) then Panic
      else Fine(st.(accepted := st.accepted + [e], history := Latest(st.history + [e]), chans := OfferAll(st, e)))
    case Subscribe =>
      var id, c := st.nextID + 1, NewChannel(st);
      Fine(st.(nextID := id,
               subs := if st.closed then st.subs else st.subs + {id},
               chans := st.chans[id := c.(closed := st.closed)]))
    case Cancel(id) =>
      if id !in st.subs then Fine(st)
      else if id !in st.chans || st.chans[id].closed then Panic
      else Fine(st.(subs := st.subs - {id}, chans := st.chans[id := st.chans[id].(closed := true)]))
    case Close =>
      if st.closed then Fine(st)
      else if !AllOpen(st) then Panic
      else Fine(st.(closed := true, subs := {}, chans := CloseAll(st)))
    case Take(id) =>
      if id !in st.chans || st.chans[id].buf == [] then Fine(st)
      else
        Fine(st.(chans := st.chans[id := Received(st.chans[id])]))
  }

  const INITIAL := State([], [], {}, map[], 0, false)

  function Exec(st: State, ops: seq<Op>): Result
    decreases |ops|
  {
    if ops == [] then Fine(st)
    else
      match Step(st, ops[0])
      case Panic => Panic
      case Fine(next) => Exec(next, ops[1..])
  }

  // ---- what every interleaving keeps ----

  predicate Increasing(s: seq<nat>) {
    forall i, j :: 0 <= i < j < |s| ==> s[i] < s[j]
  }

  /** The channel has carried exactly the events number sent[0], sent[1], ...: in
      order, none twice, none from before the replayed history. */
  predicate Delivers(accepted: seq<Event>, c: Channel) {
    && Increasing(c.sent)
    && (forall i :: 0 <= i < |c.sent| ==> c.from <= c.sent[i] < |accepted|)
    && |c.taken| + |c.buf| == |c.sent|
    && (forall i :: 0 <= i < |c.sent| ==> (c.taken + c.buf)[i] == accepted[c.sent[i]])
    && |c.buf| <= SUB_BUF_SIZE
  }

  predicate Inv(st: State) {
    && (forall id :: id in st.subs ==> id in st.chans)
    && (forall id :: id in st.chans ==> id <= st.nextID && (st.chans[id].closed <==> id !in st.subs))
    && (st.closed ==> st.subs == {})
    && st.history == Latest(st.accepted)
    && (forall id :: id in st.chans ==> Delivers(st.accepted, st.chans[id]))
    && (forall id :: id in st.subs ==>
          |st.chans[id].sent| + st.chans[id].dropped == |st.accepted| - st.chans[id].from)
  }

  lemma SendDelivers(accepted: seq<Event>, c: Channel, e: Event)
    requires Delivers(accepted, c) && c.from <= |accepted|
    ensures Delivers(accepted + [e], TrySend(c, e, |accepted|))
  {
    MoreDelivers(accepted, c, e);
    SendDeliversAt(accepted + [e], c, |accepted|);
  }

  lemma MoreDelivers(accepted: seq<Event>, c: Channel, e: Event)
    requires Delivers(accepted, c)
    ensures Delivers(accepted + [e], c)
  {
    forall i | 0 <= i < |c.sent| ensures (c.taken + c.buf)[i] == (accepted + [e])[c.sent[i]] {
      assert (c.taken + c.buf)[i] == accepted[c.sent[i]];
    }
  }

  /** The replay offers each event of the history once, in order. */
  lemma {:induction false} ReplayDelivers(accepted: seq<Event>, c: Channel, events: seq<Event>, i: nat)
    requires Delivers(accepted, c) && c.from <= i && i + |events| == |accepted| && events == accepted[i..]
    requires (forall j :: 0 <= j < |c.sent| ==> c.sent[j] < i) && |c.sent| + c.dropped == i - c.from
    ensures var r := Replay(c, events, i);
            Delivers(accepted, r) && r.from == c.from && r.closed == c.closed
            && |r.sent| + r.dropped == |accepted| - r.from
    decreases |events|
  {
    if events != [] {
      SendDeliversAt(accepted, c, i);
      SendCounts(c, events[0], i);
      hide Delivers, TrySend;
      var d := TrySend(c, events[0], i);
      assert events[0] == accepted[i];
      ReplayDelivers(accepted, d, events[1..], i + 1);
    }
  }

  lemma SendDeliversAt(accepted: seq<Event>, c: Channel, i: nat)
    requires Delivers(accepted, c) && c.from <= i < |accepted|
    requires forall j :: 0 <= j < |c.sent| ==> c.sent[j] < i
    ensures var d := TrySend(c, accepted[i], i);
            Delivers(accepted, d) && forall j :: 0 <= j < |d.sent| ==> d.sent[j] < i + 1
  {
    if |c.buf| < SUB_BUF_SIZE {
      var d := TrySend(c, accepted[i], i);
      assert d.taken + d.buf == (c.taken + c.buf) + [accepted[i]];
    }
  }

  lemma PublishInv(st: State, e: Event)
    requires Inv(st) && !st.closed
    ensures AllOpen(st) && Inv(Step(st, Publish(e)).state)
  {
    hide Delivers, TrySend;
    var t := Step(st, Publish(e)).state;
    forall id | id in st.chans
      ensures Delivers(t.accepted, t.chans[id]) && t.chans[id].closed == st.chans[id].closed
      ensures t.chans[id].from == st.chans[id].from
      ensures id in st.subs ==>
                |t.chans[id].sent| + t.chans[id].dropped == |st.chans[id].sent| + st.chans[id].dropped + 1
    {
      if id in st.subs {
        SendDelivers(st.accepted, st.chans[id], e);
        SendCounts(st.chans[id], e, |st.accepted|);
      } else {
        MoreDelivers(st.accepted, st.chans[id], e);
      }
    }
    LatestOfMore(st.accepted, e);
  }

  lemma SendCounts(c: Channel, e: Event, i: nat)
    ensures var d := TrySend(c, e, i);
            |d.sent| + d.dropped == |c.sent| + c.dropped + 1 && d.from == c.from && d.closed == c.closed
  {
  }

  lemma LatestOfMore(s: seq<Event>, e: Event)
    ensures Latest(Latest(s) + [e]) == Latest(s + [e])
  {
  }

  lemma ReplayStarts(st: State)
    requires st.history == Latest(st.accepted)
    ensures var c := NewChannel(st);
            Delivers(st.accepted, c) && !c.closed && |c.sent| + c.dropped == |st.accepted| - c.from
  {
    hide TrySend, Replay;
    var from := |st.accepted| - |st.history|;
    var empty := Channel([], false, [], from, [], 0);
    assert st.history == st.accepted[from..];
    assert Delivers(st.accepted, empty);
    ReplayDelivers(st.accepted, empty, st.history, from);
  }

  lemma SubscribeInv(st: State)
    requires Inv(st)
    ensures Inv(Step(st, Subscribe).state)
  {
    hide NewChannel, Delivers, Latest;
    ReplayStarts(st);
    var t := Step(st, Subscribe).state;
    ClosedDelivers(st.accepted, NewChannel(st), st.closed);
    assert st.nextID + 1 !in st.chans;
    assert forall id :: id in st.chans ==> t.chans[id] == st.chans[id];
  }

  lemma ClosedDelivers(accepted: seq<Event>, c: Channel, closed: bool)
    requires Delivers(accepted, c)
    ensures Delivers(accepted, c.(closed := closed))
  {
  }

  lemma ReceivedDelivers(accepted: seq<Event>, c: Channel)
    requires Delivers(accepted, c) && c.buf != []
    ensures Delivers(accepted, Received(c))
  {
    assert Received(c).taken + Received(c).buf == c.taken + c.buf;
  }

  lemma TakeInv(st: State, id: nat)
    requires Inv(st)
    ensures Step(st, Take(id)).Fine? && Inv(Step(st, Take(id)).state)
  {
    hide Delivers, Latest;
    if id in st.chans && st.chans[id].buf != [] {
      ReceivedDelivers(st.accepted, st.chans[id]);
    }
  }

  lemma CloseInv(st: State, op: Op)
    requires Inv(st) && (op.Cancel? || op.Close?)
    ensures Step(st, op).Fine? && Inv(Step(st, op).state)
  {
    hide Delivers;
    forall id | id in st.chans ensures Delivers(st.accepted, st.chans[id].(closed := true)) {
      ClosedDelivers(st.accepted, st.chans[id], true);
    }
  }

  /** Every operation is safe in every state that operations lead to. */
  lemma {:induction false} StepInv(st: State, op: Op)
    requires Inv(st)
    ensures Step(st, op).Fine? && Inv(Step(st, op).state)
  {
    hide Inv, Replay, TrySend, Delivers;
    match op {
      case Publish(e) => if !st.closed { PublishInv(st, e); }
      case Subscribe => SubscribeInv(st);
      case Take(id) => TakeInv(st, id);
      case _ => CloseInv(st, op);
    }
  }

  lemma {:induction false} ExecInv(st: State, ops: seq<Op>)
    requires Inv(st)
    ensures Exec(st, ops).Fine? && Inv(Exec(st, ops).state)
    decreases |ops|
  {
    hide Inv, Step;
    if ops != [] {
      StepInv(st, ops[0]);
      ExecInv(Step(st, ops[0]).state, ops[1..]);
    }
  }

  /** The events published in a sequence of operations up to its first Close. */
  function Accepted(ops: seq<Op>): seq<Event>
    decreases |ops|
  {
    if ops == [] || ops[0].Close? then []
    else (if ops[0].Publish? then [ops[0].e] else []) + Accepted(ops[1..])
  }

  lemma StepAccepts(st: State, op: Op)
    requires Step(st, op).Fine?
    ensures var next := Step(st, op).state;
            && next.accepted == (if op.Publish? && !st.closed then st.accepted + [op.e] else st.accepted)
            && next.closed == (st.closed || op.Close?)
  {
    hide AllOpen;
  }

  lemma ExecUnfolds(st: State, ops: seq<Op>)
    requires ops != [] && Step(st, ops[0]).Fine?
    ensures Exec(st, ops) == Exec(Step(st, ops[0]).state, ops[1..])
  {
    hide Step;
  }

  /** What the first operation adds in front of the rest. */
  lemma FirstAccepted(before: seq<Event>, ops: seq<Op>)
    requires ops != []
    ensures before + Accepted(ops) ==
              if ops[0].Close? then before
              else if ops[0].Publish? then before + [ops[0].e] + Accepted(ops[1..])
              else before + Accepted(ops[1..])
  {
    var rest := Accepted(ops[1..]);
    assert [] + rest == rest && before + [] == before;
    if ops[0].Publish? {
      assert before + ([ops[0].e] + rest) == before + [ops[0].e] + rest;
    }
  }

  lemma {:induction false} ExecAccepts(st: State, ops: seq<Op>)
    requires Inv(st)
    ensures Exec(st, ops).Fine?
    ensures Exec(st, ops).state.accepted == st.accepted + (if st.closed then [] else Accepted(ops))
    decreases |ops|
  {
    hide Inv, Step;
    if ops == [] {
      assert st.accepted + [] == st.accepted;
    } else {
      hide Accepted, Exec;
      StepInv(st, ops[0]);
      StepAccepts(st, ops[0]);
      ExecUnfolds(st, ops);
      FirstAccepted(st.accepted, ops);
      ExecAccepts(Step(st, ops[0]).state, ops[1..]);
    }
  }

  /** Over all interleavings of publish, subscribe, cancel, close and receive: no
      send on a closed channel and no double close; the history is the last
      min(n, 1024) accepted events; every subscriber has been handed events of its
      replayed history and of later publishes in order and none twice; and one that
      was never found full has all of them. */
  lemma EveryInterleaving(ops: seq<Op>)
    ensures Exec(INITIAL, ops).Fine?
    ensures var st := Exec(INITIAL, ops).state;
            && st.accepted == Accepted(ops)
            && st.history == Latest(Accepted(ops))
            && (forall id :: id in st.chans ==> Delivers(Accepted(ops), st.chans[id]))
            && (forall id :: id in st.chans ==> (st.chans[id].closed <==> id !in st.subs))
            && (forall id :: id in st.chans && id in st.subs && st.chans[id].dropped == 0 ==>
                  st.chans[id].from <= |Accepted(ops)|
                  && st.chans[id].taken + st.chans[id].buf == Accepted(ops)[st.chans[id].from..])
  {
    hide Step, Exec, Delivers;
    ExecInv(INITIAL, ops);
    ExecAccepts(INITIAL, ops);
    var st := Exec(INITIAL, ops).state;
    assert [] + Accepted(ops) == Accepted(ops);
    forall id | id in st.chans && id in st.subs && st.chans[id].dropped == 0
      ensures st.chans[id].from <= |Accepted(ops)|
      ensures st.chans[id].taken + st.chans[id].buf == Accepted(ops)[st.chans[id].from..]
    {
      NothingMissed(st.accepted, st.chans[id]);
    }
  }

  lemma {:induction false} DenseIncreasing(s: seq<nat>, lo: nat, hi: nat, i: nat)
    requires Increasing(s) && |s| == hi - lo && i < |s|
    requires forall j :: 0 <= j < |s| ==> lo <= s[j] < hi
    ensures s[i] == lo + i
  {
    AtLeast(s, lo, i);
    AtMost(s, hi, i);
  }

  lemma {:induction false} AtLeast(s: seq<nat>, lo: nat, i: nat)
    requires Increasing(s) && i < |s| && forall j :: 0 <= j < |s| ==> lo <= s[j]
    ensures s[i] >= lo + i
  {
    if i > 0 { AtLeast(s, lo, i - 1); }
  }

  lemma {:induction false} AtMost(s: seq<nat>, hi: nat, i: nat)
    requires Increasing(s) && i < |s| && forall j :: 0 <= j < |s| ==> s[j] < hi
    ensures s[i] <= hi - (|s| - i)
    decreases |s| - i
  {
    if i + 1 < |s| { AtMost(s, hi, i + 1); }
  }

  lemma NothingMissed(accepted: seq<Event>, c: Channel)
    requires Delivers(accepted, c) && |c.sent| == |accepted| - c.from
    ensures c.taken + c.buf == accepted[c.from..]
  {
    forall i | 0 <= i < |c.sent| ensures (c.taken + c.buf)[i] == accepted[c.from + i] {
      DenseIncreasing(c.sent, c.from, |accepted|, i);
    }
  }

  lemma HistoryFits(st: State)
    requires Inv(st)
    ensures |st.history| <= |st.accepted| && (st.closed ==> st.subs == {})
  {
  }

  // ---- the object ----

  class Broadcaster {
    var accepted: seq<Event>
    var history: seq<Event>
    var subs: set<nat>
    var chans: map<nat, Channel>
    var nextID: nat
    var closed: bool

    ghost function Value(): State
      reads this
    {
      State(accepted, history, subs, chans, nextID, closed)
    }

    constructor ()
      ensures Value() == INITIAL && Inv(Value())
    {
      accepted, history, subs, chans, nextID, closed := [], [], {}, map[], 0, false;
    }

    /** select { case sub.ch <- evt: default: } */
    method Offer(id: nat, e: Event, i: nat)
      requires id in chans && !chans[id].closed
      modifies this`chans
      ensures chans == old(chans)[id := TrySend(old(chans)[id], e, i)]
    {
      var c := chans[id];
      if |c.buf| < SUB_BUF_SIZE {
        c := c.(buf := c.buf + [e], sent := c.sent + [i]);
      } else {
        c := c.(dropped := c.dropped + 1);
      }
      chans := chans[id := c];
    }

    /** close(ch) */
    method CloseChannel(id: nat)
      requires id in chans && !chans[id].closed
      modifies this`chans
      ensures chans == old(chans)[id := old(chans)[id].(closed := true)]
    {
      chans := chans[id := chans[id].(closed := true)];
    }

    method Publish(e: Event)
      requires Inv(Value())
      modifies this
      ensures Fine(Value()) == Step(old(Value()), Op.Publish(e)) && Inv(Value())
    {
      hide Inv, TrySend;
      StepInv(Value(), Op.Publish(e));
      if closed {
        return;
      }
      assert AllOpen(Value());
      history := history + [e];
      if |history| > MAX_HISTORY {
        history := history[|history| - MAX_HISTORY..];
      }
      FanOut(e);
      accepted := accepted + [e];
    }

    /** The loop over the subscriptions, in any order. */
    method FanOut(e: Event)
      requires AllOpen(Value())
      modifies this`chans
      ensures chans == OfferAll(old(Value()), e)
    {
      hide TrySend;
      ghost var before := Value();
      var todo := subs;
      while todo != {}
        modifies this`chans
        invariant todo <= subs && chans.Keys == before.chans.Keys
        invariant forall id :: id in chans ==>
                    chans[id] ==
                      if id in subs - todo then TrySend(before.chans[id], e, |accepted|) else before.chans[id]
        decreases todo
      {
        var id :| id in todo;
        Offer(id, e, |accepted|);
        todo := todo - {id};
      }
    }

    method Subscribe() returns (id: nat)
      requires Inv(Value())
      modifies this
      ensures Fine(Value()) == Step(old(Value()), Op.Subscribe) && Inv(Value())
      ensures id == old(nextID) + 1 && id in chans && (id in subs <==> !closed)
    {
      hide Inv, TrySend;
      StepInv(Value(), Op.Subscribe);
      HistoryFits(Value());
      ghost var before := Value();
      nextID := nextID + 1;
      id := nextID;
      MakeChannel(id);
      ghost var c := NewChannel(before);
      if closed {
        CloseChannel(id);
        assert chans == before.chans[id := c.(closed := true)];
        return;
      }
      assert c == c.(closed := false);
      subs := subs + {id};
    }

    /** A new channel with the history replayed into it. */
    method MakeChannel(id: nat)
      requires |history| <= |accepted|
      modifies this`chans
      ensures chans == old(chans)[id := NewChannel(old(Value()))] && !chans[id].closed
    {
      hide TrySend;
      ghost var before := Value();
      var from := |accepted| - |history|;
      chans := chans[id := Channel([], false, [], from, [], 0)];
      for k := 0 to |history|
        modifies this`chans
        invariant id in chans && !chans[id].closed && chans == before.chans[id := chans[id]]
        invariant Replay(chans[id], history[k..], from + k) == NewChannel(before)
      {
        assert history[k..][1..] == history[k + 1..];
        SendCounts(chans[id], history[k], from + k);
        Offer(id, history[k], from + k);
      }
    }

    /** The unregister goroutine, once its context is done. */
    method Unregister(id: nat)
      requires Inv(Value())
      modifies this
      ensures Fine(Value()) == Step(old(Value()), Cancel(id)) && Inv(Value())
    {
      StepInv(Value(), Cancel(id));
      if id in subs {
        subs := subs - {id};
        CloseChannel(id);
      }
    }

    method Close()
      requires Inv(Value())
      modifies this
      ensures Fine(Value()) == Step(old(Value()), Op.Close) && Inv(Value())
    {
      hide Inv;
      StepInv(Value(), Op.Close);
      if closed {
        return;
      }
      assert AllOpen(Value());
      CloseSubscriptions();
      closed := true;
    }

    method CloseSubscriptions()
      requires AllOpen(Value())
      modifies this`chans, this`subs
      ensures chans == CloseAll(old(Value())) && subs == {}
    {
      ghost var before := Value();
      while subs != {}
        modifies this`chans, this`subs
        invariant subs <= before.subs && chans.Keys == before.chans.Keys
        invariant forall id :: id in chans ==>
                    chans[id] ==
                      if id in before.subs - subs then before.chans[id].(closed := true) else before.chans[id]
        decreases subs
      {
        var id :| id in subs;
        CloseChannel(id);
        subs := subs - {id};
      }
    }

    method History() returns (out: seq<Event>)
      requires Inv(Value())
      ensures out == Latest(accepted)
    {
      out := history;
    }
  }
}
