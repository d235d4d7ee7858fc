/** The client's exec loop: it numbers and keeps its input until the server
    acknowledges it, and writes each output message once. */
module ExecClient {
  import opened Proto

  /** The variables of `run_exec` that outlive a connection, and the bytes it
      has written so far. */
  datatype Client = Client(
    sn: nat,
    lastServer: nat,
    sent: seq<ChannelMessage>,
    stdinOpen: bool,
    out: Bytes,
    err: Bytes)

  const FRESH := Client(0, 0, [], true, [], [])

  /** Datagrams may overtake stream messages, so they count only when they are
      exactly next; a stream message has to be newer. */
  predicate IsNext(sn: nat, lastSeen: nat, reliable: bool) {
    sn == lastSeen + 1 || (reliable && sn > lastSeen)
  }

  /** What handling a message makes the client do on the wire. */
  datatype Reaction = Nothing | SendAck(sn: nat) | Return(sn: nat, code: int)

  /** Input above `acked`, in order. */
  function Retained(sent: seq<ChannelMessage>, acked: nat): seq<ChannelMessage> {
    if sent == [] then []
    else if IsInput(sent[0]) && sent[0].sn <= acked then Retained(sent[1..], acked)
    else [sent[0]] + Retained(sent[1..], acked)
  }

  /** An acknowledgement drops the input it covers and nothing else. */
  lemma {:induction false} RetainedIff(sent: seq<ChannelMessage>, acked: nat)
    ensures forall m :: m in Retained(sent, acked) <==> m in sent && !(IsInput(m) && m.sn <= acked)
  {
    if sent != [] {
      RetainedIff(sent[1..], acked);
      assert forall m :: m in sent <==> m == sent[0] || m in sent[1..];
    }
  }

  /** Input in the order it was numbered. */
  ghost predicate Numbered(sent: seq<ChannelMessage>) {
    && (forall i :: 0 <= i < |sent| ==> IsInput(sent[i]))
    && (forall i, j :: 0 <= i < j < |sent| ==> sent[i].sn < sent[j].sn)
  }

  lemma {:induction false} NothingCovered(sent: seq<ChannelMessage>, acked: nat)
    requires forall i :: 0 <= i < |sent| ==> IsInput(sent[i]) && sent[i].sn > acked
    ensures Retained(sent, acked) == sent
  {
    if sent != [] {
      NothingCovered(sent[1..], acked);
    }
  }

  /** Of numbered input, what is left is the rest from the first message above
      the acknowledged number on. */
  lemma {:induction false} RetainedIsTheRest(sent: seq<ChannelMessage>, acked: nat) returns (k: nat)
    requires Numbered(sent)
    ensures k <= |sent| && Retained(sent, acked) == sent[k..]
    ensures forall i :: 0 <= i < |sent| ==> (sent[i].sn <= acked <==> i < k)
  {
    if sent == [] || sent[0].sn > acked {
      k := 0;
      NothingCovered(sent, acked);
    } else {
      k := RetainedIsTheRest(sent[1..], acked);
      k := k + 1;
      assert sent[1..][k - 1..] == sent[k..];
      forall i | 0 <= i < |sent| ensures sent[i].sn <= acked <==> i < k {
        assert i > 0 ==> sent[i] == sent[1..][i - 1];
      }
    }
  }

  function OnMessage(c: Client, m: ChannelMessage, reliable: bool): (Client, Reaction) {
    match m
    case Stdout(sn, data) =>
      if IsNext(sn, c.lastServer, reliable)
      then (c.(lastServer := sn, out := c.out + data), SendAck(sn)) else (c, Nothing)
    case Stderr(sn, data) =>
      if IsNext(sn, c.lastServer, reliable)
      then (c.(lastServer := sn, err := c.err + data), SendAck(sn)) else (c, Nothing)
    case Exit(sn, code) => (c, Return(sn, code))
    case Ack(acked) => (c.(sent := Retained(c.sent, acked)), Nothing)
    case _ => (c, Nothing)
  }

  /** The message made of one read from the local input; an empty read ends it. */
  function NextInput(c: Client, data: Bytes): ChannelMessage {
    if data == [] then StdinEof(c.sn + 1) else Stdin(c.sn + 1, data)
  }

  /** One read from the local input.  The message is kept for resending only
      after its live send succeeded. */
  function OnStdin(c: Client, data: Bytes, sendOk: bool): Client {
    var m := NextInput(c, data);
    c.(sn := c.sn + 1,
       stdinOpen := c.stdinOpen && data != [],
       sent := if sendOk then c.sent + [m] else c.sent)
  }

  class Exec {
    var sn: nat
    var lastServer: nat
    var sent: seq<ChannelMessage>
    var stdinOpen: bool
    var out: Bytes
    var err: Bytes

    function State(): Client
      reads this
    {
      Client(sn, lastServer, sent, stdinOpen, out, err)
    }

    constructor ()
      ensures State() == FRESH
    {
      sn, lastServer, sent, stdinOpen, out, err := 0, 0, [], true, [], [];
    }

    method HandleMessage(m: ChannelMessage, reliable: bool) returns (reaction: Reaction)
      modifies this
      ensures (State(), reaction) == OnMessage(old(State()), m, reliable)
    {
      reaction := Nothing;
      match m {
        case Stdout(n, data) =>
          if IsNext(n, lastServer, reliable) {
            lastServer := n;
            out := out + data;
            reaction := SendAck(lastServer);
          }
        case Stderr(n, data) =>
          if IsNext(n, lastServer, reliable) {
            lastServer := n;
            err := err + data;
            reaction := SendAck(lastServer);
          }
        case Exit(n, code) =>
          reaction := Return(n, code);
        case Ack(acked) =>
          RetainAbove(acked);
        case _ =>
      }
    }

    method RetainAbove(acked: nat)
      modifies this`sent
      ensures sent == Retained(old(sent), acked)
    {
      var all := sent;
      var kept: seq<ChannelMessage> := [];
      for i := 0 to |all|
        invariant sent == all == old(sent)
        invariant kept + Retained(all[i..], acked) == Retained(all, acked)
      {
        if !(IsInput(all[i]) && all[i].sn <= acked) {
          kept := kept + [all[i]];
        }
      }
      sent := kept;
    }

    /** `sendOk` is whether the live send succeeded; on failure the loop
        leaves for the reconnect before it keeps the message. */
    method HandleStdin(data: Bytes, sendOk: bool) returns (m: ChannelMessage)
      requires stdinOpen
      modifies this
      ensures State() == OnStdin(old(State()), data, sendOk)
      ensures m == NextInput(old(State()), data)
    {
      sn := sn + 1;
      if data == [] {
        stdinOpen := false;
        m := StdinEof(sn);
      } else {
        m := Stdin(sn, data);
      }
      if sendOk {
        sent := sent + [m];
      }
    }
  }
}
