/**
  The aggregate push of a channel: batches go to one resolved target peer, progress
  signals go to the other peers too when the routing rule asks for it. Each method is
  proved against the step function of the same name in FanoutSpec.
*/
module Aggregate {
  import opened Tags
  import opened Peers
  import opened FanoutSpec

  class AggregateBatchPush {
    const chInfo: ChannelInfo
    const hasCycles: CycleFlag
    var dataPush: PeerPush
    var eventPush: seq<PeerPush>
    /** Every call made on the pushes, in order (a record kept for the proofs only). */
    ghost var calls: seq<Invocation>

    /** All pushes are distinct objects and share this channel's cycle flag. */
    ghost predicate Valid()
      reads this`dataPush, this`eventPush
    {
      && dataPush !in eventPush
      && (forall i, j :: 0 <= i < j < |eventPush| ==> eventPush[i] != eventPush[j])
      && dataPush.hasCycles == hasCycles
      && (forall j :: 0 <= j < |eventPush| ==> eventPush[j].hasCycles == hasCycles)
    }

    /** The aggregate as a value. */
    ghost function View(): Fanout
      reads this, dataPush, eventPush
    {
      Fanout(dataPush.View(), Views(eventPush), calls)
    }

    /**
      Builds one push per peer, in peer order, then takes the target's push out with a
      swap_remove; `push[t]` is peer `t`'s transport, given by its fault oracle.
    */
    constructor (info: ChannelInfo, sourceWorker: nat, target: nat, hasCycles: CycleFlag,
                 push: seq<set<nat>>)
      requires target < |push|
      ensures Valid()
      ensures View() == New(push, target)
      ensures chInfo == info && this.hasCycles == hasCycles
      ensures fresh(dataPush) && forall j :: 0 <= j < |eventPush| ==> fresh(eventPush[j])
      ensures dataPush.source == sourceWorker
      ensures forall j :: 0 <= j < |eventPush| ==> eventPush[j].source == sourceWorker
    {
      var pushes: seq<PeerPush> := [];
      for t := 0 to |push|
        invariant |pushes| == t
        invariant forall j :: 0 <= j < t ==>
          && fresh(pushes[j])
          && pushes[j].View() == PeerState(j, push[j], [])
          && pushes[j].source == sourceWorker
          && pushes[j].hasCycles == hasCycles
        invariant forall i, j :: 0 <= i < j < t ==> pushes[i] != pushes[j]
      {
        var p := new PeerPush(sourceWorker, t, hasCycles, push[t]);
        pushes := pushes + [p];
      }
      var removed := SwapRemove(pushes, target);
      SwapRemoveOrder(pushes, target);
      SwapRemoveOrder(Build(push), target);
      chInfo := info;
      this.hasCycles := hasCycles;
      dataPush := removed.0;
      eventPush := removed.1;
      calls := [];
      new;
      assert Views(eventPush) == New(push, target).events;
    }

    /** `port`: the channel's source port; nothing changes. */
    method Port() returns (p: Tags.Port)
      ensures p == chInfo.sourcePort
    {
      p := chInfo.sourcePort;
    }

    /**
      Calls `op` on event push `i` alone, when the pushes before `i` have already been
      called and the others not yet; a failure there ends the broadcast.
    */
    method CallAt(i: nat, op: Op, ghost before: seq<PeerState>, ghost calls0: seq<Invocation>) returns (r: IOResult)
      requires Valid() && i < |eventPush| && |before| == |eventPush| && i <= FirstFailure(before)
      requires Views(eventPush) == Stage(before, op, i)
      requires calls == calls0 + Called(before, op, i)
      modifies this`calls, eventPush[i]
      ensures Views(eventPush) == Stage(before, op, i + 1)
      ensures calls == calls0 + Called(before, op, i + 1)
      ensures r.Ok? ==> i + 1 <= FirstFailure(before)
      ensures r.Err? ==> FailFast(before, op) == Sent(Stage(before, op, i + 1), Called(before, op, i + 1), r)
    {
      var p := eventPush[i];
      assert p.View() == before[i];
      r := p.Invoke(op);
      calls := calls + [Invocation(p.peer, op)];
      forall j | 0 <= j < |eventPush| && j != i
        ensures eventPush[j].View() == old(eventPush[j].View())
      {
        assert eventPush[j] != p;
      }
      StageNext(before, op, i);
      assert Views(eventPush) == old(Views(eventPush))[i := Call(before[i], op)];
      if r.Err? {
        FailFastAt(before, op, i);
      }
    }

    /** Calls `op` on every event push in index order, stopping at the first failure. */
    method BroadcastEvents(op: Op) returns (r: IOResult)
      requires Valid()
      modifies this`calls, eventPush
      ensures Views(eventPush) == FailFast(old(Views(eventPush)), op).pushes
      ensures calls == old(calls) + FailFast(old(Views(eventPush)), op).calls
      ensures r == FailFast(old(Views(eventPush)), op).result
    {
      ghost var before := Views(eventPush);
      ghost var calls0 := calls;
      var i := 0;
      while i < |eventPush|
        invariant Valid()
        invariant i <= |eventPush| && i <= FirstFailure(before)
        invariant Views(eventPush) == Stage(before, op, i)
        invariant calls == calls0 + Called(before, op, i)
      {
        r := CallAt(i, op, before, calls0);
        if r.Err? {
          return;
        }
        i := i + 1;
      }
      FailFastAt(before, op, i);
      r := Ok;
    }

    /** Calls `op` on the data push and records the call. */
    method InvokeData(op: Op) returns (r: IOResult)
      requires Valid()
      modifies this`calls, dataPush
      ensures dataPush.View() == Call(old(dataPush.View()), op)
      ensures Views(eventPush) == old(Views(eventPush))
      ensures calls == old(calls) + [Invocation(dataPush.peer, op)]
      ensures r == Outcome(old(dataPush.View()))
    {
      r := dataPush.Invoke(op);
      calls := calls + [Invocation(dataPush.peer, op)];
    }

    /** `push`: the batch goes to the data push only. */
    method Push(tag: Tag, msg: MicroBatch) returns (r: IOResult)
      requires Valid()
      modifies this`calls, dataPush
      ensures Step(View(), r) == PushStep(old(View()), tag, msg)
    {
      r := InvokeData(Op.Push(tag, msg));
    }

    /** `push_last`: a root-scope signal is broadcast first; then the last batch goes to the data push. */
    method PushLast(msg: MicroBatch, end: EndSignal) returns (r: IOResult)
      requires Valid()
      modifies this`calls, dataPush, eventPush
      ensures Step(View(), r) == PushLastStep(old(View()), msg, end)
    {
      if IsRoot(msg.tag) {
        r := BroadcastEvents(Op.NotifyEnd(end));
        if r.Err? {
          return;
        }
      }
      r := InvokeData(Op.PushLast(msg, end));
    }

    /** `notify_end`: broadcast if the routing rule says so, then always the data push. */
    method NotifyEnd(end: EndSignal) returns (r: IOResult)
      requires Valid()
      modifies this`calls, dataPush, eventPush
      ensures Step(View(), r) == NotifyEndStep(old(View()), end, chInfo.scopeLevel, hasCycles.value)
      ensures hasCycles.value == old(hasCycles.value)
    {
      var broadcast := IsRoot(end.tag) || |end.tag| < chInfo.scopeLevel || hasCycles.value;
      assert broadcast == Broadcasts(end.tag, chInfo.scopeLevel, hasCycles.value);
      if broadcast {
        r := BroadcastEvents(Op.NotifyEnd(end));
        if r.Err? {
          return;
        }
      }
      r := InvokeData(Op.NotifyEnd(end));
    }

    /** `flush`: only the data push is flushed. */
    method Flush() returns (r: IOResult)
      requires Valid()
      modifies this`calls, dataPush
      ensures Step(View(), r) == FlushStep(old(View()))
    {
      r := InvokeData(Op.Flush);
    }

    /** `close`: the event pushes in order, then the data push, fail-fast. */
    method Close() returns (r: IOResult)
      requires Valid()
      modifies this`calls, dataPush, eventPush
      ensures Step(View(), r) == CloseStep(old(View()))
    {
      r := BroadcastEvents(Op.Close);
      if r.Err? {
        return;
      }
      r := InvokeData(Op.Close);
    }
  }
}
