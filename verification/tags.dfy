/** Scope identifiers, progress signals, batches and the static description of a channel. */
module Tags {

  /** A scope identifier: one index per nesting level; the empty sequence is the root scope. */
  type Tag = seq<nat>

  /** The root scope, the outermost non-iterative one. */
  predicate IsRoot(tag: Tag) {
    |tag| == 0
  }

  /** "No further batches for `tag` from `source`". Only the tag steers routing. */
  datatype EndSignal = EndSignal(tag: Tag, source: nat)

  /** A batch of records of one scope; the payload is carried along, never inspected. */
  datatype MicroBatch = MicroBatch(tag: Tag, seqNo: nat, payload: seq<int>)

  /** An operator port: the operator's index and the port number on it. */
  datatype Port = Port(index: nat, port: nat)

  /** Static metadata of a channel, fixed when the dataflow graph is built. */
  datatype ChannelInfo = ChannelInfo(sourcePort: Port, targetPort: Port, scopeLevel: nat)
}
