/**
  One peer's event-carrying push, seen from the outside: which calls it received, in
  which order, and whether each call succeeded. Its transport and event-emission
  internals are not modelled; a fault oracle decides which calls fail.
*/
module Peers {
  import opened Tags

  /** One call made on a peer push. */
  datatype Op =
    | Push(tag: Tag, msg: MicroBatch)
    | PushLast(msg: MicroBatch, end: EndSignal)
    | NotifyEnd(end: EndSignal)
    | Flush
    | Close

  /** A transport failure: the peer that failed and the number of the call that failed. */
  datatype IOError = IOError(peer: nat, call: nat)

  datatype IOResult = Ok | Err(error: IOError)

  /**
    The observable state of one peer push. `log` holds every call made on it, the
    failed ones included; the call that would become entry number `n` of the log
    fails exactly when `n in faults`.
  */
  datatype PeerState = PeerState(peer: nat, faults: set<nat>, log: seq<Op>)

  /** Whether the next call on this push fails. */
  predicate Fails(s: PeerState) {
    |s.log| in s.faults
  }

  /** What the next call on this push returns. */
  function Outcome(s: PeerState): IOResult {
    if Fails(s) then Err(IOError(s.peer, |s.log|)) else Ok
  }

  /** The state after one more call. */
  function Call(s: PeerState, op: Op): PeerState {
    s.(log := s.log + [op])
  }

  /** The shared "this region has cycles" flag; it can only go from false to true. */
  class CycleFlag {
    var value: bool

    constructor ()
      ensures !value
    {
      value := false;
    }

    method Raise()
      modifies this
      ensures value
    {
      value := true;
    }
  }

  /** An event-carrying push bound to one peer. */
  class PeerPush {
    const source: nat
    const peer: nat
    const faults: set<nat>
    const hasCycles: CycleFlag
    var log: seq<Op>

    constructor (source: nat, peer: nat, hasCycles: CycleFlag, faults: set<nat>)
      ensures this.source == source && this.peer == peer && this.hasCycles == hasCycles
      ensures View() == PeerState(peer, faults, [])
    {
      this.source := source;
      this.peer := peer;
      this.faults := faults;
      this.hasCycles := hasCycles;
      log := [];
    }

    ghost function View(): PeerState
      reads this
    {
      PeerState(peer, faults, log)
    }

    /** Makes one call on the peer: it is logged, and fails if the oracle says so. */
    method Invoke(op: Op) returns (r: IOResult)
      modifies this
      ensures View() == Call(old(View()), op)
      ensures r == Outcome(old(View()))
      ensures r.Err? <==> Fails(old(View()))
    {
      r := if |log| in faults then Err(IOError(peer, |log|)) else Ok;
      log := log + [op];
    }
  }

  /** The observable states of a sequence of peer pushes, position by position. */
  ghost function Views(ps: seq<PeerPush>): (vs: seq<PeerState>)
    reads ps
    ensures |vs| == |ps|
    ensures forall j :: 0 <= j < |ps| ==> vs[j] == ps[j].View()
  {
    seq(|ps|, j requires 0 <= j < |ps| reads ps => ps[j].View())
  }
}
