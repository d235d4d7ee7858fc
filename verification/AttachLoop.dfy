/** The attachment loop as the daemon runs it, tied to the connection steps of
    the resume model. */
module AttachLoop {
  import opened Proto
  import opened OutboundLog
  import opened ResumeModel

  /** The replay loop run to its end: every message of the batch is sent. */
  function AllSent(conn: Connection): Connection
    decreases |BatchOf(conn.phase)|
  {
    if BatchOf(conn.phase) == [] then conn else AllSent(SentOne(conn))
  }

  function CopiesOf(quic: bool, ms: seq<ChannelMessage>): set<ChannelMessage> {
    set m | m in ms && quic && WorthDuplicating(m)
  }

  /** The number of the last Exit among `ms`, or what was known before. */
  function ExitOf(known: Option<nat>, ms: seq<ChannelMessage>): Option<nat>
    decreases |ms|
  {
    if ms == [] then known else ExitOf(if ms[0].Exit? then Some(ms[0].sn) else known, ms[1..])
  }

  lemma CopiesOneMore(quic: bool, ms: seq<ChannelMessage>, i: nat)
    requires i < |ms|
    ensures CopiesOf(quic, ms[..i + 1])
         == CopiesOf(quic, ms[..i]) + (if quic && WorthDuplicating(ms[i]) then {ms[i]} else {})
  {
    assert ms[..i + 1] == ms[..i] + [ms[i]];
  }

  lemma {:induction false} ExitOneMore(known: Option<nat>, ms: seq<ChannelMessage>, i: nat)
    requires i < |ms|
    ensures ExitOf(known, ms[..i + 1]) == if ms[i].Exit? then Some(ms[i].sn) else ExitOf(known, ms[..i])
    decreases i
  {
    var known1 := if ms[0].Exit? then Some(ms[0].sn) else known;
    if i == 0 {
      assert ms[..1][1..] == [];
    } else {
      ExitOneMore(known1, ms[1..], i - 1);
      assert ms[..i + 1][1..] == ms[1..][..i] && ms[..i][1..] == ms[1..][..i - 1];
    }
  }

  lemma AppendOneMore(before: seq<ChannelMessage>, ms: seq<ChannelMessage>, i: nat)
    requires i < |ms|
    ensures before + ms[..i] + [ms[i]] == before + ms[..i + 1]
  {
  }

  /** A replay round, described by what it sent: the same messages as frames,
      the small ones also as copies, and the cursor advanced by their number. */
  function AfterSending(conn: Connection, ms: seq<ChannelMessage>): Connection {
    conn.(phase := Sending([]), toClient := conn.toClient + ms, sentUpTo := conn.sentUpTo + |ms|,
          downCopies := conn.downCopies + CopiesOf(conn.quic, ms), exitSn := ExitOf(conn.exitSn, ms))
  }

  /** Turn by turn, the loop does what the description says. */
  lemma {:induction false} AllSentIs(conn: Connection)
    requires conn.phase.Sending?
    ensures AllSent(conn) == AfterSending(conn, conn.phase.batch)
    decreases |conn.phase.batch|
  {
    var batch := conn.phase.batch;
    if batch == [] {
      assert CopiesOf(conn.quic, batch) == {};
    } else {
      var m, rest := batch[0], batch[1..];
      AllSentIs(SentOne(conn));
      assert conn.toClient + [m] + rest == conn.toClient + batch;
      assert CopiesOf(conn.quic, batch) == Copies(conn, m) + CopiesOf(conn.quic, rest);
    }
  }

  class Attachment {
    const quic: bool
    var sentUpTo: nat
    var ackedStdin: nat
    var exitSn: Option<nat>
    var toClient: seq<ChannelMessage>
    var downCopies: set<ChannelMessage>

    /** The connection `rest` with this attachment's variables. */
    ghost function View(rest: Connection): Connection
      reads this
    {
      rest.(quic := quic, sentUpTo := sentUpTo, ackedStdin := ackedStdin, exitSn := exitSn,
            toClient := toClient, downCopies := downCopies)
    }

    /** Starts after what the client says it has seen. */
    constructor (quic: bool, lastSeen: nat)
      ensures this.quic == quic && sentUpTo == lastSeen && ackedStdin == 0 && exitSn == None
      ensures toClient == [Started(Some(TOKEN))] && downCopies == {}
    {
      this.quic := quic;
      sentUpTo, ackedStdin, exitSn := lastSeen, 0, None;
      toClient, downCopies := [Started(Some(TOKEN))], {};
    }

    /** Sends everything the log holds past the cursor. */
    method Replay(log: Log, ghost rest: Connection)
      modifies this
      ensures View(rest).(phase := Sending([])) == AfterSending(old(View(rest)), After(log.State(), old(sentUpTo)))
      ensures ackedStdin == old(ackedStdin)
    {
      var ms := log.ReplayAfter(sentUpTo);
      SendBatch(ms);
    }

    method SendBatch(ms: seq<ChannelMessage>)
      modifies this
      ensures ackedStdin == old(ackedStdin)
      ensures toClient == old(toClient) + ms && sentUpTo == old(sentUpTo) + |ms|
      ensures downCopies == old(downCopies) + CopiesOf(quic, ms)
      ensures exitSn == ExitOf(old(exitSn), ms)
    {
      for i := 0 to |ms|
        invariant ackedStdin == old(ackedStdin)
        invariant toClient == old(toClient) + ms[..i]
        invariant sentUpTo == old(sentUpTo) + i
        invariant downCopies == old(downCopies) + CopiesOf(quic, ms[..i])
        invariant exitSn == ExitOf(old(exitSn), ms[..i])
      {
        CopiesOneMore(quic, ms, i);
        ExitOneMore(old(exitSn), ms, i);
        AppendOneMore(old(toClient), ms, i);
        SendOne(ms[i]);
      }
      assert ms[..|ms|] == ms;
    }

    /** One turn of the replay loop: frame, copy, cursor. */
    method SendOne(m: ChannelMessage)
      modifies this
      ensures exitSn == if m.Exit? then Some(m.sn) else old(exitSn)
      ensures toClient == old(toClient) + [m] && sentUpTo == old(sentUpTo) + 1
      ensures downCopies == old(downCopies) + (if quic && WorthDuplicating(m) then {m} else {})
      ensures ackedStdin == old(ackedStdin)
    {
      if m.Exit? {
        exitSn := Some(m.sn);
      }
      toClient := toClient + [m];
      if quic && WorthDuplicating(m) {
        downCopies := downCopies + {m};
      }
      sentUpTo := sentUpTo + 1;
    }

    /** Reports applied input, but only when the number advanced. */
    method ReportStdin(applied: nat, ghost rest: Connection)
      requires rest.phase.Sending?
      modifies this
      ensures View(rest).(phase := Waiting) == StdinAcked(old(View(rest)), applied)
      ensures ackedStdin == if applied > old(ackedStdin) then applied else old(ackedStdin)
    {
      if applied > ackedStdin {
        ackedStdin := applied;
        toClient := toClient + [Ack(ackedStdin)];
      }
    }

    /** Takes the client's acknowledgement; `complete` when it covers the Exit
        this connection sent, and the session can be forgotten. */
    method TakeAck(log: Log, sn: nat) returns (complete: bool)
      modifies log
      ensures log.State() == Trim(old(log.State()), sn)
      ensures complete <==> exitSn.Some? && sn >= exitSn.value
    {
      log.TrimTo(sn);
      complete := exitSn.Some? && sn >= exitSn.value;
    }
  }
}
