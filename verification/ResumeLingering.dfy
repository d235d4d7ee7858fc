/** A connection that the client has given up goes on being served, and can
    fall behind a log that its successor's acknowledgements trim. */
module ResumeLingering {
  import opened Proto
  import opened OutboundLog
  import opened SessionTask
  import opened ExecClient
  import opened ResumeModel
  import opened ResumeRecovery

  /** The attachment of `c` is served from a log that has dropped entries it
      never sent. */
  predicate FellBehind(s: State, c: nat) {
    && c < |s.conns| && s.conns[c].phase.Fetching? && s.conns[c].daemon < |s.daemons|
    && s.conns[c].sentUpTo < s.daemons[s.conns[c].daemon].log.trimmed
  }

  // One run, told by what changes: the client, its phase, the log, the
  // connections and the mode.

  function Chunk(data: Bytes): ChannelMessage { Stdout(1, data) }

  function Before(phase: Phase, token: bool, conn: Connection): State {
    State(FRESH, phase, token, [Daemon(EMPTY, 0, 0, true)], [conn], Task(0, 0, true, true, true, None), Running,
          [], [], [], [], false, false, None, [], false, [], {}, {}, {}, [], [], false)
  }

  function Later(data: Bytes, client: Client, phase: Phase, log: LogState, conns: seq<Connection>, mode: Mode): State {
    State(client, phase, true, [Daemon(log, 0, 0, true)], conns, Task(1, 0, true, true, true, None), mode,
          [], [Chunk(data)], data, [], false, false, None, [], false, [], {}, {}, {}, [], [], false)
  }

  function Holding(data: Bytes): LogState { LogState(0, [Chunk(data)], 1, 1) }

  function Having(data: Bytes): Client { FRESH.(lastServer := 1, out := data) }

  /** The connection that will linger. */
  function Old(): Connection {
    Connection(false, 0, 0, Fetching, 0, 0, None, 0, 0, [], [], {}, {})
  }

  /** Its successor, accepted after the chunk was logged. */
  function New(phase: AttachPhase, sentUpTo: nat, fetched: nat): Connection {
    Connection(false, 0, 0, phase, sentUpTo, 0, None, 1, fetched, [], [], {}, {})
  }

  lemma Singleton<T>(x: T)
    ensures [x][1..] == [] && [] + [x] == [x]
  {
  }

  lemma ClientGoes(s: State, l: ClientLabel, t: State)
    requires s.daemons != [] && ClientCan(s, l) && ClientStep(s, l) == t
    ensures Leads(s, t)
  {
    StepLeads(s, ByClient(l));
  }

  lemma AttachmentGoes(s: State, c: nat, l: AttachLabel, t: State)
    requires s.daemons != [] && AttachCan(s, c, l) && AttachStep(s, c, l) == t
    ensures Leads(s, t)
  {
    StepLeads(s, ByAttachment(c, l));
  }

  lemma TaskGoes(s: State, l: TaskLabel, t: State)
    requires TaskCan(s, l) && TaskStep(s, l) == t
    ensures Leads(s, t)
  {
    StepLeads(s, ByTask(l));
  }

  lemma GoesLive()
    ensures Leads(Before(Connecting(0), false, NewConnection(false, 0)), Before(Live(0), true, Old()))
  {
    var s0 := Before(Connecting(0), false, NewConnection(false, 0));
    var s1 := Before(Connecting(0), false, Old().(toClient := [Started(Some(TOKEN))]));
    var s2 := Before(Resending(0, 0), true, Old());
    var s3 := Before(Live(0), true, Old());
    Singleton(Started(Some(TOKEN)));
    assert DoRecvStarted(s1).conns == s2.conns;
    AttachmentGoes(s0, 0, Accept(0), s1);
    ClientGoes(s1, RecvStarted, s2);
    LeadsTrans(s0, s1, s2);
    ClientGoes(s2, ResendDone, s3);
    LeadsTrans(s0, s2, s3);
  }

  /** A chunk is logged, and the client drops the connection unread. */
  lemma LogsAndDrops(data: Bytes)
    requires data != []
    ensures Leads(Before(Live(0), true, Old()), Later(data, FRESH, Idle, Holding(data), [Old()], Running))
  {
    var s0 := Before(Live(0), true, Old());
    var s1 := Later(data, FRESH, Live(0), LogState(0, [Chunk(data)], 0, 0), [Old()], Notifying(false));
    var s2 := Later(data, FRESH, Live(0), Holding(data), [Old()], Running);
    var s3 := Later(data, FRESH, Idle, Holding(data), [Old()], Running);
    Singleton(Chunk(data));
    assert [] + data == data;
    TaskGoes(s0, ReadChild(StdoutRead(data)), s1);
    TaskGoes(s1, Notify, s2);
    LeadsTrans(s0, s1, s2);
    ClientGoes(s2, Drop, s3);
    LeadsTrans(s0, s2, s3);
  }

  lemma Returns(data: Bytes)
    ensures Leads(Later(data, FRESH, Idle, Holding(data), [Old()], Running),
                  Later(data, FRESH, Live(1), Holding(data), [Old(), New(Fetching, 0, 0)], Running))
  {
    var log, started := Holding(data), New(Fetching, 0, 0).(toClient := [Started(Some(TOKEN))]);
    var s0 := Later(data, FRESH, Idle, log, [Old()], Running);
    var s1 := Later(data, FRESH, Connecting(1), log, [Old(), NewConnection(false, 0)], Running);
    var s2 := Later(data, FRESH, Connecting(1), log, [Old(), started], Running);
    var s3 := Later(data, FRESH, Resending(1, 0), log, [Old(), New(Fetching, 0, 0)], Running);
    var s4 := Later(data, FRESH, Live(1), log, [Old(), New(Fetching, 0, 0)], Running);
    Singleton(Started(Some(TOKEN)));
    assert DoRecvStarted(s2).conns == s3.conns;
    ClientGoes(s0, Connect(false), s1);
    AttachmentGoes(s1, 1, Accept(0), s2);
    LeadsTrans(s0, s1, s2);
    ClientGoes(s2, RecvStarted, s3);
    LeadsTrans(s0, s2, s3);
    ClientGoes(s3, ResendDone, s4);
    LeadsTrans(s0, s3, s4);
  }

  lemma SendsIt(data: Bytes)
    ensures SentOne(New(Sending([Chunk(data)]), 0, 1)) == New(Sending([]), 1, 1).(toClient := [Chunk(data)])
  {
    Singleton(Chunk(data));
  }

  lemma TakesIt(data: Bytes)
    ensures OnMessage(FRESH, Chunk(data), true) == (Having(data), SendAck(1))
    ensures PutUp(ReceivedDown(New(Sending([]), 1, 1).(toClient := [Chunk(data)])), Ack(1))
         == New(Sending([]), 1, 1).(toServer := [Ack(1)])
  {
    Singleton(Chunk(data));
    assert [] + data == data;
  }

  lemma Receives(data: Bytes)
    ensures Leads(Later(data, FRESH, Live(1), Holding(data), [Old(), New(Fetching, 0, 0)], Running),
                  Later(data, Having(data), Live(1), Holding(data),
                        [Old(), New(Sending([]), 1, 1).(toServer := [Ack(1)])], Running))
  {
    var log, m := Holding(data), Chunk(data);
    var s0 := Later(data, FRESH, Live(1), log, [Old(), New(Fetching, 0, 0)], Running);
    var s1 := Later(data, FRESH, Live(1), log, [Old(), New(Sending([m]), 0, 1)], Running);
    var s2 := Later(data, FRESH, Live(1), log, [Old(), New(Sending([]), 1, 1).(toClient := [m])], Running);
    var s3 := Later(data, Having(data), Live(1), log, [Old(), New(Sending([]), 1, 1).(toServer := [Ack(1)])], Running);
    Singleton(m);
    Singleton(Ack(1));
    assert [] + data == data;
    SendsIt(data);
    TakesIt(data);
    AttachmentGoes(s0, 1, Fetch, s1);
    AttachmentGoes(s1, 1, Send, s2);
    LeadsTrans(s0, s1, s2);
    ClientGoes(s2, RecvFrame(true), s3);
    LeadsTrans(s0, s2, s3);
  }

  lemma Trims(data: Bytes)
    ensures Leads(Later(data, Having(data), Live(1), Holding(data),
                        [Old(), New(Sending([]), 1, 1).(toServer := [Ack(1)])], Running),
                  Later(data, Having(data), Live(1), LogState(1, [], 1, 1), [Old(), New(Fetching, 1, 1)], Running))
  {
    var acked := New(Sending([]), 1, 1).(toServer := [Ack(1)]);
    var s0 := Later(data, Having(data), Live(1), Holding(data), [Old(), acked], Running);
    var s1 := Later(data, Having(data), Live(1), Holding(data), [Old(), acked.(phase := ResumeModel.Waiting)], Running);
    var s2 := Later(data, Having(data), Live(1), LogState(1, [], 1, 1), [Old(), New(Fetching, 1, 1)], Running);
    Singleton(Ack(1));
    assert Holding(data).End() == 1;
    assert Trim(Holding(data), 1) == LogState(1, [], 1, 1);
    AttachmentGoes(s0, 1, AckStdin, s1);
    AttachmentGoes(s1, 1, TakeFrame, s2);
    LeadsTrans(s0, s1, s2);
  }

  /** Where the run ends: the client has the chunk, the log has dropped it, and
      the first connection is still at its beginning. */
  function Fallen(data: Bytes): State {
    Later(data, Having(data), Live(1), LogState(1, [], 1, 1), [Old(), New(Fetching, 1, 1)], Running)
  }

  lemma FallenIsReachable(data: Bytes)
    requires data != []
    ensures Reachable(Fallen(data))
  {
    var s0 := Before(Connecting(0), false, NewConnection(false, 0));
    var s1 := Before(Live(0), true, Old());
    var s2 := Later(data, FRESH, Idle, Holding(data), [Old()], Running);
    var s3 := Later(data, FRESH, Live(1), Holding(data), [Old(), New(Fetching, 0, 0)], Running);
    var s4 := Later(data, Having(data), Live(1), Holding(data),
                    [Old(), New(Sending([]), 1, 1).(toServer := [Ack(1)])], Running);
    GoesLive();
    LogsAndDrops(data);
    LeadsTrans(s0, s1, s2);
    Returns(data);
    LeadsTrans(s0, s2, s3);
    Receives(data);
    LeadsTrans(s0, s3, s4);
    Trims(data);
    LeadsTrans(s0, s4, Fallen(data));
    LeadsFromInit(s0, Fallen(data));
  }

  /** For any first chunk of output, some run leaves the given-up connection
      below the trim point of the log it is still served from, so that its
      replay misses entries. */
  lemma SomeLingererFallsBehind(data: Bytes)
    requires data != []
    ensures Reachable(Fallen(data)) && FellBehind(Fallen(data), 0)
    ensures Fallen(data).phase == Live(1) && Fallen(data).history == [Chunk(data)]
    ensures After(Fallen(data).daemons[0].log, Fallen(data).conns[0].sentUpTo) == []
  {
    FallenIsReachable(data);
  }
}
