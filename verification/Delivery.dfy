/** internal/server/sse/broadcaster.go, from one subscription's side: what a
    subscriber is handed, counted from the moment it subscribes. */
module Delivery {
  import opened Broadcaster

  // ---- the replay ----

  function Min(a: nat, b: nat): nat {
    if a < b then a else b
  }

  /** The replay fills the free places of the channel and drops the rest. */
  lemma {:induction false} ReplayFills(c: Channel, events: seq<Event>, i: nat)
    requires |c.buf| <= SUB_BUF_SIZE
    ensures var r, n := Replay(c, events, i), Min(SUB_BUF_SIZE - |c.buf|, |events|);
            && r.buf == c.buf + events[..n] && r.taken == c.taken
            && r.dropped == c.dropped + |events| - n
            && r.from == c.from && r.closed == c.closed
    decreases |events|
  {
    if events == [] {
      assert c.buf + [] == c.buf;
    } else {
      ReplayFills(TrySend(c, events[0], i), events[1..], i + 1);
      if |c.buf| < SUB_BUF_SIZE {
        var n := Min(SUB_BUF_SIZE - |c.buf| - 1, |events| - 1);
        assert events[..n + 1] == [events[0]] + events[1..][..n];
      }
    }
  }

  /** A new channel holds the first 64 events of the history: all of it exactly
      when there are no more. */
  lemma NewChannelHolds(st: State)
    ensures var c := NewChannel(st);
            && c.buf == st.history[..Min(SUB_BUF_SIZE, |st.history|)] && c.taken == [] && !c.closed
            && (c.buf == st.history <==> |st.history| <= SUB_BUF_SIZE)
            && (c.dropped == 0 <==> |st.history| <= SUB_BUF_SIZE)
            && c.from == if |st.history| <= |st.accepted| then |st.accepted| - |st.history| else 0
  {
    var from := if |st.history| <= |st.accepted| then |st.accepted| - |st.history| else 0;
    ReplayFills(Channel([], false, [], from, [], 0), st.history, from);
  }

  /** What a subscription made after `pre` finds in its channel. */
  lemma ReplayIsCut(pre: seq<Op>)
    ensures Exec(INITIAL, pre).Fine? && Exec(INITIAL, pre + [Subscribe]).Fine?
    ensures var id, st := NewID(pre), Exec(INITIAL, pre + [Subscribe]).state;
            var history := Latest(Accepted(pre));
            && id in st.chans
            && st.chans[id].taken + st.chans[id].buf == history[..Min(SUB_BUF_SIZE, |history|)]
            && (st.chans[id].taken + st.chans[id].buf == history <==> |Accepted(pre)| <= SUB_BUF_SIZE)
  {
    hide Exec, Delivers;
    EveryInterleaving(pre);
    var before := Exec(INITIAL, pre).state;
    NewChannelHolds(before);
    ExecInTwo(INITIAL, pre, [Subscribe]);
    OneStep(before, Subscribe);
    var c := NewChannel(before);
    assert [] + c.buf == c.buf;
  }

  /** The subscription that follows `pre`. */
  function NewID(pre: seq<Op>): nat {
    match Exec(INITIAL, pre)
    case Fine(st) => st.nextID + 1
    case Panic => 0
  }

  function Publishes(n: nat, e: Event): (ops: seq<Op>)
    ensures |Accepted(ops)| == n
  {
    if n == 0 then [] else [Op.Publish(e)] + Publishes(n - 1, e)
  }

  /** After 65 events a new subscriber is not handed the history. */
  lemma SixtyFiveAreCut(e: Event)
    ensures var pre := Publishes(65, e);
            var id, r := NewID(pre), Exec(INITIAL, pre + [Subscribe]);
            && r.Fine? && id in r.state.chans && |Latest(Accepted(pre))| == 65
            && |r.state.chans[id].taken + r.state.chans[id].buf| == 64
  {
    hide Exec;
    ReplayIsCut(Publishes(65, e));
  }

  /** The history after any operations: the last events accepted, at most 1024. */
  lemma HistoryIsLast(ops: seq<Op>)
    ensures Exec(INITIAL, ops).Fine?
    ensures var history, all := Exec(INITIAL, ops).state.history, Accepted(ops);
            && |history| == (if |all| < 1024 then |all| else 1024)
            && history == all[|all| - |history|..]
  {
    hide Exec, Delivers;
    EveryInterleaving(ops);
  }

  // ---- one channel through a run ----

  lemma {:induction false} ExecInTwo(st: State, a: seq<Op>, b: seq<Op>)
    requires Exec(st, a).Fine?
    ensures Exec(st, a + b) == Exec(Exec(st, a).state, b)
    decreases |a|
  {
    hide Step;
    if a == [] {
      assert a + b == b;
    } else {
      assert (a + b)[0] == a[0] && (a + b)[1..] == a[1..] + b;
      ExecInTwo(Step(st, a[0]).state, a[1..], b);
    }
  }

  lemma OneStep(st: State, op: Op)
    ensures Exec(st, [op]) == Step(st, op)
  {
    hide Step;
    assert [op][1..] == [];
    if Step(st, op).Fine? {
      assert Exec(Step(st, op).state, []) == Step(st, op);
    }
  }

  function Lost(st: State, op: Op, id: nat): nat
    requires id in st.chans
  {
    if op.Publish? && |st.chans[id].buf| >= SUB_BUF_SIZE then 1 else 0
  }

  /** A channel stays, keeps its start, and loses an event exactly when one is
      published while it is full; a subscription, once gone, is gone for good. */
  lemma StepOnChannel(st: State, op: Op, id: nat)
    requires Inv(st) && id in st.chans && Step(st, op).Fine?
    ensures var t := Step(st, op).state;
            && id in t.chans && t.chans[id].from == st.chans[id].from
            && (id in t.subs ==> id in st.subs)
            && (id in t.subs ==>
                  t.chans[id].dropped == st.chans[id].dropped + Lost(st, op, id))
  {
    hide Delivers, Replay, Latest;
  }

  /** The channel is not full when an event is published. */
  predicate RoomAt(st: State, ops: seq<Op>, id: nat, k: nat)
    requires k < |ops|
  {
    ops[k].Publish? ==>
      match Exec(st, ops[..k])
      case Fine(s) => id in s.chans && |s.chans[id].buf| < SUB_BUF_SIZE
      case Panic => false
  }

  predicate AlwaysRoom(st: State, ops: seq<Op>, id: nat) {
    forall k :: 0 <= k < |ops| ==> RoomAt(st, ops, id, k)
  }

  lemma {:induction false} DropsMeanFull(st: State, ops: seq<Op>, id: nat)
    requires Inv(st) && id in st.chans
    ensures Exec(st, ops).Fine? && Inv(Exec(st, ops).state)
    ensures var r := Exec(st, ops).state;
            && id in r.chans && r.chans[id].from == st.chans[id].from
            && (id in r.subs ==>
                  && r.chans[id].dropped >= st.chans[id].dropped
                  && (r.chans[id].dropped == st.chans[id].dropped <==> AlwaysRoom(st, ops, id)))
    decreases |ops|
  {
    hide Inv, Step, Exec, RoomAt;
    ExecInv(st, ops);
    if ops == [] {
      NoOps(st);
    } else {
      var n := |ops| - 1;
      var front, last := ops[..n], ops[n];
      DropsMeanFull(st, front, id);
      var s := Exec(st, front).state;
      assert ops == front + [last];
      ExecInTwo(st, front, [last]);
      OneStep(s, last);
      StepOnChannel(s, last, id);
      RoomInFront(st, ops, id);
      LastRoom(st, ops, id);
    }
  }

  lemma NoOps(st: State)
    ensures Exec(st, []) == Fine(st)
  {
  }

  lemma RoomInFront(st: State, ops: seq<Op>, id: nat)
    requires ops != []
    ensures var n := |ops| - 1;
            AlwaysRoom(st, ops, id) <==> AlwaysRoom(st, ops[..n], id) && RoomAt(st, ops, id, n)
  {
    hide Exec;
    var n := |ops| - 1;
    forall k | 0 <= k < n ensures RoomAt(st, ops[..n], id, k) <==> RoomAt(st, ops, id, k) {
      assert ops[..n][..k] == ops[..k];
    }
  }

  lemma LastRoom(st: State, ops: seq<Op>, id: nat)
    requires ops != [] && Exec(st, ops[..|ops| - 1]).Fine? && id in Exec(st, ops[..|ops| - 1]).state.chans
    ensures var n := |ops| - 1;
            RoomAt(st, ops, id, n) <==> (ops[n].Publish? ==> |Exec(st, ops[..n]).state.chans[id].buf| < SUB_BUF_SIZE)
  {
    hide Exec;
  }

  // ---- what a subscriber gets ----

  /** `got` is `of` at the increasing positions `at`. */
  predicate Picks(at: seq<nat>, got: seq<Event>, of: seq<Event>) {
    && Increasing(at) && |at| == |got|
    && forall i :: 0 <= i < |at| ==> at[i] < |of| && got[i] == of[at[i]]
  }

  predicate Open(pre: seq<Op>) {
    forall i :: 0 <= i < |pre| ==> !pre[i].Close?
  }

  /** What a subscription made after `pre` is offered: the history, then what is
      published until the broadcaster closes. */
  function Offered(pre: seq<Op>, post: seq<Op>): seq<Event> {
    Latest(Accepted(pre)) + if Open(pre) then Accepted(post) else []
  }

  lemma {:induction false} ClosedAfter(st: State, ops: seq<Op>)
    requires Inv(st)
    ensures Exec(st, ops).Fine? && (Exec(st, ops).state.closed <==> st.closed || !Open(ops))
    decreases |ops|
  {
    hide Inv, Step, Exec;
    ExecInv(st, ops);
    if ops == [] {
      NoOps(st);
    } else {
      StepInv(st, ops[0]);
      StepAccepts(st, ops[0]);
      var s := Step(st, ops[0]).state;
      ClosedAfter(s, ops[1..]);
      assert ops == [ops[0]] + ops[1..];
      OneStep(st, ops[0]);
      ExecInTwo(st, [ops[0]], ops[1..]);
      assert Open(ops) <==> !ops[0].Close? && Open(ops[1..]) by {
        assert forall i :: 0 <= i < |ops| - 1 ==> ops[1..][i] == ops[i + 1];
        assert Open(ops[1..]) ==> forall i :: 1 <= i < |ops| ==> !ops[i].Close? by {
          assert forall i :: 1 <= i < |ops| ==> ops[1..][i - 1] == ops[i];
        }
      }
    }
  }

  lemma InitialInv()
    ensures Inv(INITIAL)
  {
  }

  lemma LatestIsShorter(s: seq<Event>)
    ensures |Latest(s)| <= |s|
  {
  }

  lemma SubscribeStep(st: State)
    ensures var r := Step(st, Subscribe);
            && r.Fine? && r.state.accepted == st.accepted && r.state.closed == st.closed
            && st.nextID + 1 in r.state.chans
            && r.state.chans[st.nextID + 1] == NewChannel(st).(closed := st.closed)
  {
    hide NewChannel;
  }

  /** The state right after the subscription. */
  lemma Subscribed(pre: seq<Op>)
    ensures Exec(INITIAL, pre + [Subscribe]).Fine?
    ensures var id, st := NewID(pre), Exec(INITIAL, pre + [Subscribe]).state;
            var history := Latest(Accepted(pre));
            && Inv(st) && st.accepted == Accepted(pre) && (st.closed <==> !Open(pre))
            && id in st.chans && st.chans[id].from == |Accepted(pre)| - |history|
            && (st.chans[id].dropped == 0 <==> |history| <= SUB_BUF_SIZE)
  {
    hide Exec, Delivers, Replay, Inv, Step, NewChannel, Latest, Open;
    EveryInterleaving(pre);
    InitialInv();
    var before := Exec(INITIAL, pre).state;
    NewChannelHolds(before);
    ClosedAfter(INITIAL, pre);
    ExecInTwo(INITIAL, pre, [Subscribe]);
    OneStep(before, Subscribe);
    SubscribeStep(before);
    LatestIsShorter(Accepted(pre));
    ExecInv(INITIAL, pre + [Subscribe]);
  }

  /** In every interleaving a subscription gets an in-order, duplicate-free part of
      the history it found and of what was published after it. As long as it is
      registered it gets all of that exactly when the history fitted the channel
      and the channel was never full at a later publish. */
  lemma SubscriberGets(pre: seq<Op>, post: seq<Op>)
    ensures Exec(INITIAL, pre + [Subscribe]).Fine? && Exec(INITIAL, pre + [Subscribe] + post).Fine?
    ensures var id, st := NewID(pre), Exec(INITIAL, pre + [Subscribe] + post).state;
            && id in st.chans
            && var got := st.chans[id].taken + st.chans[id].buf;
               && (exists at: seq<nat> :: Picks(at, got, Offered(pre, post)))
               && (id in st.subs ==>
                     (got == Offered(pre, post) <==>
                       |Accepted(pre)| <= SUB_BUF_SIZE && AlwaysRoom(Exec(INITIAL, pre + [Subscribe]).state, post, id)))
  {
    hide Exec, Inv, Delivers, AlwaysRoom, Accepted, Open, Increasing;
    Subscribed(pre);
    var id, s := NewID(pre), Exec(INITIAL, pre + [Subscribe]).state;
    ExecInTwo(INITIAL, pre + [Subscribe], post);
    DropsMeanFull(s, post, id);
    ExecAccepts(s, post);
    var st := Exec(s, post).state;
    var c := st.chans[id];
    var offered := Offered(pre, post);
    assert st.accepted[c.from..] == offered;
    GotIsPicked(st, id);
    assert |offered| == |st.accepted| - c.from;
    if id in st.subs {
      AllOrDropped(st, id);
    }
  }

  lemma GotIsPicked(st: State, id: nat)
    requires Inv(st) && id in st.chans && st.chans[id].from <= |st.accepted|
    ensures exists at: seq<nat> ::
              Picks(at, st.chans[id].taken + st.chans[id].buf, st.accepted[st.chans[id].from..])
  {
    var c := st.chans[id];
    assert Delivers(st.accepted, c);
    var at := seq(|c.sent|, i requires 0 <= i < |c.sent| => (c.sent[i] - c.from) as nat);
    assert Picks(at, c.taken + c.buf, st.accepted[c.from..]);
  }

  lemma AllOrDropped(st: State, id: nat)
    requires Inv(st) && id in st.subs && id in st.chans && st.chans[id].from <= |st.accepted|
    ensures st.chans[id].taken + st.chans[id].buf == st.accepted[st.chans[id].from..] <==> st.chans[id].dropped == 0
  {
    var c := st.chans[id];
    assert Delivers(st.accepted, c);
    if c.dropped == 0 {
      NothingMissed(st.accepted, c);
    }
  }
}
