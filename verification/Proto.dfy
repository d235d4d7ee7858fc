/** The messages of the herdr-eternal wire protocol and the rule that picks
    the ones worth an unreliable second copy. */
module Proto {

  datatype Option<+T> = None | Some(value: T)

  newtype byte = x: int | 0 <= x < 256

  type Bytes = seq<byte>

  /** Messages of an established exec channel, both directions.  `sn` is the
      sequence number the source calls `seq`. */
  datatype ChannelMessage =
    | Started(token: Option<string>)
    | Denied(reason: string)
    | Stdin(sn: nat, data: Bytes)
    | StdinEof(sn: nat)
    | Stdout(sn: nat, data: Bytes)
    | Stderr(sn: nat, data: Bytes)
    | Exit(sn: nat, code: int)
    | Ack(sn: nat)
    | AgentOpen(id: nat)
    | AgentData(id: nat, data: Bytes)
    | AgentClose(id: nat)

  /** Messages a session writes to its outbound log. */
  predicate IsOutput(m: ChannelMessage) {
    m.Stdout? || m.Stderr? || m.Exit?
  }

  /** Messages that carry the client's input. */
  predicate IsInput(m: ChannelMessage) {
    m.Stdin? || m.StdinEof?
  }

  const DUPLICATE_LIMIT: nat := 512

  /** Only small stdio messages are copied into a datagram; in particular an
      Exit, an Ack and an end of input never travel unreliably. */
  predicate WorthDuplicating(m: ChannelMessage) {
    (m.Stdin? || m.Stdout? || m.Stderr?) && |m.data| <= DUPLICATE_LIMIT
  }

  /** The stdout bytes carried by a run of messages. */
  function StdoutBytes(ms: seq<ChannelMessage>): Bytes {
    if ms == [] then []
    else StdoutBytes(ms[..|ms| - 1]) + (if ms[|ms| - 1].Stdout? then ms[|ms| - 1].data else [])
  }

  /** The stderr bytes carried by a run of messages. */
  function StderrBytes(ms: seq<ChannelMessage>): Bytes {
    if ms == [] then []
    else StderrBytes(ms[..|ms| - 1]) + (if ms[|ms| - 1].Stderr? then ms[|ms| - 1].data else [])
  }

  /** The stdin bytes carried by a run of messages. */
  function StdinBytes(ms: seq<ChannelMessage>): Bytes {
    if ms == [] then []
    else StdinBytes(ms[..|ms| - 1]) + (if ms[|ms| - 1].Stdin? then ms[|ms| - 1].data else [])
  }

  lemma BytesOfOneMore(ms: seq<ChannelMessage>, m: ChannelMessage)
    ensures StdoutBytes(ms + [m]) == StdoutBytes(ms) + (if m.Stdout? then m.data else [])
    ensures StderrBytes(ms + [m]) == StderrBytes(ms) + (if m.Stderr? then m.data else [])
    ensures StdinBytes(ms + [m]) == StdinBytes(ms) + (if m.Stdin? then m.data else [])
  {
    assert (ms + [m])[..|ms|] == ms;
  }
}
