/**
  Three peers, target peer 1, scope-level threshold 2: a level-1 signal is broadcast,
  a level-2 signal stays with the data push until the cycle flag is raised, after
  which the same signal is broadcast as well.
*/
module Scenario {
  import opened Tags
  import opened Peers
  import opened FanoutSpec
  import opened Aggregate

  const Info := ChannelInfo(Port(0, 0), Port(1, 0), 2)
  const Shallow := EndSignal([0], 0)
  const Deep := EndSignal([0, 0], 0)

  const ShallowOp := Op.NotifyEnd(Shallow)
  const DeepOp := Op.NotifyEnd(Deep)
  /** The channel right after construction: peer 1 is the data push. */
  const F0 := Fanout(PeerState(1, {}, []), [PeerState(0, {}, []), PeerState(2, {}, [])], [])
  /** Both event pushes after the level-1 signal. */
  const E1 := [PeerState(0, {}, [ShallowOp]), PeerState(2, {}, [ShallowOp])]
  const C1 := [Invocation(0, ShallowOp), Invocation(2, ShallowOp), Invocation(1, ShallowOp)]
  const F1 := Fanout(PeerState(1, {}, [ShallowOp]), E1, C1)
  const F2 := Fanout(PeerState(1, {}, [ShallowOp, DeepOp]), E1, C1 + [Invocation(1, DeepOp)])

  /** Construction over three fault-free peers with target 1. */
  lemma ScenarioNew()
    ensures New([{}, {}, {}], 1) == F0
  {
    NewPeers([{}, {}, {}], 1);
  }

  /** A level-1 signal is below the threshold: both event pushes, then the data push. */
  lemma ScenarioShallow()
    ensures NotifyEndStep(F0, Shallow, 2, false) == Step(F1, Ok)
  {
    var e0 := F0.events;
    assert Broadcasts(Shallow.tag, 2, false);
    assert [] + [ShallowOp] == [ShallowOp];
    BroadcastOk(e0, ShallowOp);
    assert !Fails(e0[0]) && !Fails(e0[1]);
    var b1 := Broadcast(e0, ShallowOp);
    assert b1.pushes == E1;
    assert b1.calls == [Invocation(0, ShallowOp), Invocation(2, ShallowOp)];
  }

  /** A level-2 signal with the flag clear stays with the data push. */
  lemma ScenarioDeepLocal()
    ensures NotifyEndStep(F1, Deep, 2, false) == Step(F2, Ok)
  {
    assert |Deep.tag| == 2 && !Broadcasts(Deep.tag, 2, false);
    var s := NotifyEndStep(F1, Deep, 2, false);
    assert s == DataOnly(F1, DeepOp);
    assert !Fails(F1.data);
    assert [ShallowOp] + [DeepOp] == [ShallowOp, DeepOp];
    assert s.after.data == F2.data;
    assert s.after.calls == F2.calls;
  }

  /** With the flag raised the same level-2 signal reaches every peer. */
  lemma ScenarioDeepCyclic()
    ensures NotifyEndStep(F2, Deep, 2, true) == Step(Fanout(
      PeerState(1, {}, [ShallowOp, DeepOp, DeepOp]),
      [PeerState(0, {}, [ShallowOp, DeepOp]), PeerState(2, {}, [ShallowOp, DeepOp])],
      C1 + [Invocation(1, DeepOp), Invocation(0, DeepOp), Invocation(2, DeepOp), Invocation(1, DeepOp)]), Ok)
  {
    assert Broadcasts(Deep.tag, 2, true) && !Fails(F2.data);
    BroadcastOk(E1, DeepOp);
    BroadcastFailFast(E1, DeepOp);
    assert !Fails(E1[0]) && !Fails(E1[1]);
    var b2 := FailFast(E1, DeepOp);
    assert [ShallowOp] + [DeepOp] == [ShallowOp, DeepOp];
    var e2 := [PeerState(0, {}, [ShallowOp, DeepOp]), PeerState(2, {}, [ShallowOp, DeepOp])];
    assert b2.pushes == [Call(E1[0], DeepOp), Call(E1[1], DeepOp)] == e2;
    assert b2.calls == [Invocation(0, DeepOp), Invocation(2, DeepOp)];
    assert b2.result == Ok;
    var g := Fanout(F2.data, e2, F2.calls + b2.calls);
    assert NotifyEndStep(F2, Deep, 2, true) == DataOnly(g, DeepOp);
    assert [ShallowOp, DeepOp] + [DeepOp] == [ShallowOp, DeepOp, DeepOp];
    assert F2.calls + b2.calls + [Invocation(1, DeepOp)]
        == C1 + [Invocation(1, DeepOp), Invocation(0, DeepOp), Invocation(2, DeepOp), Invocation(1, DeepOp)];
  }

  /** The scenario on the value model. */
  lemma ThreePeerScenario()
    ensures var f0 := New([{}, {}, {}], 1);
      var s1 := NotifyEndStep(f0, Shallow, 2, false);
      var s2 := NotifyEndStep(s1.after, Deep, 2, false);
      var s3 := NotifyEndStep(s2.after, Deep, 2, true);
      && s1.result == Ok && s2.result == Ok && s3.result == Ok
      && s1.after.events == [PeerState(0, {}, [Op.NotifyEnd(Shallow)]), PeerState(2, {}, [Op.NotifyEnd(Shallow)])]
      && s2.after.events == s1.after.events
      && s3.after.events == [PeerState(0, {}, [Op.NotifyEnd(Shallow), Op.NotifyEnd(Deep)]),
                             PeerState(2, {}, [Op.NotifyEnd(Shallow), Op.NotifyEnd(Deep)])]
      && s3.after.data == PeerState(1, {}, [Op.NotifyEnd(Shallow), Op.NotifyEnd(Deep), Op.NotifyEnd(Deep)])
      && s3.after.calls == [Invocation(0, Op.NotifyEnd(Shallow)), Invocation(2, Op.NotifyEnd(Shallow)),
                            Invocation(1, Op.NotifyEnd(Shallow)), Invocation(1, Op.NotifyEnd(Deep)),
                            Invocation(0, Op.NotifyEnd(Deep)), Invocation(2, Op.NotifyEnd(Deep)),
                            Invocation(1, Op.NotifyEnd(Deep))]
  {
    ScenarioNew();
    ScenarioShallow();
    ScenarioDeepLocal();
    ScenarioDeepCyclic();
  }

  /** Sends the level-1 and then the level-2 signal, leaving the cycle flag alone. */
  method SendShallowThenDeep(agg: AggregateBatchPush)
    requires agg.Valid() && agg.chInfo.scopeLevel == 2
    modifies agg`calls, agg.dataPush, agg.eventPush
    ensures agg.Valid()
    ensures agg.View() == NotifyEndStep(NotifyEndStep(
      old(agg.View()), Shallow, 2, agg.hasCycles.value).after, Deep, 2, agg.hasCycles.value).after
  {
    ghost var f0 := agg.View();
    var r := agg.NotifyEnd(Shallow);
    assert agg.View() == NotifyEndStep(f0, Shallow, 2, agg.hasCycles.value).after;
    r := agg.NotifyEnd(Deep);
  }

  /**
    Sends the scenario's three signals through a channel object whose cycle flag is
    raised between the second and the third.
  */
  method SendSignals(agg: AggregateBatchPush)
    requires agg.Valid() && agg.chInfo.scopeLevel == 2
    modifies agg`calls, agg.dataPush, agg.eventPush, agg.hasCycles
    ensures agg.View() == NotifyEndStep(NotifyEndStep(NotifyEndStep(
      old(agg.View()), Shallow, 2, old(agg.hasCycles.value)).after, Deep, 2, old(agg.hasCycles.value)).after, Deep, 2, true).after
  {
    SendShallowThenDeep(agg);
    ghost var f2 := agg.View();
    agg.hasCycles.Raise();
    assert agg.View() == f2;
    var r := agg.NotifyEnd(Deep);
  }

  /**
    The same scenario driven through the channel object, with the shared cycle flag
    raised between the second and the third signal; returns every push's log.
  */
  method ThreePeerRun() returns (data: seq<Op>, events: seq<seq<Op>>)
    ensures data == [Op.NotifyEnd(Shallow), Op.NotifyEnd(Deep), Op.NotifyEnd(Deep)]
    ensures events == [[Op.NotifyEnd(Shallow), Op.NotifyEnd(Deep)], [Op.NotifyEnd(Shallow), Op.NotifyEnd(Deep)]]
  {
    var flag := new CycleFlag();
    var agg := new AggregateBatchPush(Info, 0, 1, flag, [{}, {}, {}]);
    SendSignals(agg);
    ThreePeerScenario();
    assert |agg.eventPush| == 2;
    data := agg.dataPush.log;
    events := [agg.eventPush[0].log, agg.eventPush[1].log];
  }
}
