/** The resumable exec protocol as one distributed system: a client that
    reconnects, the daemon instances that serve it one after the other, any
    number of connections (some of them lingering after the client gave them
    up) and the session task behind them.

    A stream delivers a prefix of what was sent, in order; a datagram copy may
    be delivered at any time, repeatedly or never; a connection that was
    severed or blackholed simply takes no more steps. */
module ResumeModel {
  import opened Proto
  import opened OutboundLog
  import opened SessionTask
  import opened ExecClient

  /** One daemon instance's copy of the session: its log, the stdin counter it
      reports, and whether a resume still finds the token there.  `base` is
      the log's end when this instance took over. */
  datatype Daemon = Daemon(log: LogState, base: nat, stdinApplied: nat, registered: bool)

  /** Where the attachment loop of a connection stands. */
  datatype AttachPhase =
    | Requested
    | Fetching
    | Sending(batch: seq<ChannelMessage>)
    | Waiting
    | Ended

  /** A connection: the server's attachment variables, the frames in flight in
      both directions, and the datagram copies sent so far.  `fetched` is the
      log's end at the attachment's last look. */
  datatype Connection = Connection(
    quic: bool,
    lastSeen: nat,
    daemon: nat,
    phase: AttachPhase,
    sentUpTo: nat,
    ackedStdin: nat,
    exitSn: Option<nat>,
    seen: nat,
    fetched: nat,
    toServer: seq<ChannelMessage>,
    toClient: seq<ChannelMessage>,
    upCopies: set<ChannelMessage>,
    downCopies: set<ChannelMessage>)

  datatype Phase =
    | Idle
    | Connecting(conn: nat)
    | Resending(conn: nat, next: nat)
    | Live(conn: nat)
    | Done(code: int)
    | Failed

  datatype Inbound =
    | FromStream(conn: nat, m: ChannelMessage)
    | FromDatagram(m: ChannelMessage)
    | AbortRequest
    | HandoverRequest

  /** `Notifying` is the point between the two halves of a push; `final` when
      it pushes the Exit.  `Replied` has answered a shutdown request that the
      registry has not acted on yet. */
  datatype Mode =
    | Running
    | Notifying(final: bool)
    | Replied(record: Record)
    | HandedOver(record: Record)
    | Stopped

  /** `history` is everything ever logged, `childCode` the exit code that was
      read. `typed` is every byte the client read from its input and `typedEof`
      whether it came to the end, `read` the messages it made of them, `failed` the numbers whose live send failed,
      `unsent` those of them whose frame did not get onto the stream,
      `applied` what the session task applied and `lost` the numbers it passed
      over. */
  datatype State = State(
    client: Client,
    phase: Phase,
    token: bool,
    daemons: seq<Daemon>,
    conns: seq<Connection>,
    task: Task,
    mode: Mode,
    inbound: seq<Inbound>,
    history: seq<ChannelMessage>,
    childOut: Bytes,
    childErr: Bytes,
    outEof: bool,
    errEof: bool,
    childCode: Option<int>,
    typed: Bytes,
    typedEof: bool,
    read: seq<ChannelMessage>,
    failed: set<nat>,
    unsent: set<nat>,
    lost: set<nat>,
    applied: seq<ChannelMessage>,
    childIn: Bytes,
    broke: bool)

  const TOKEN := "token"

  function NewConnection(quic: bool, lastSeen: nat): Connection {
    Connection(quic, lastSeen, 0, Requested, 0, 0, None, 0, 0, [], [], {}, {})
  }

  predicate HasConn(p: Phase) {
    p.Connecting? || p.Resending? || p.Live?
  }

  /** The task still takes input. */
  predicate Alive(s: State) {
    s.mode.Running? || s.mode.Notifying?
  }

  /** A fresh exec: the session runs and the request is on its way. */
  predicate Init(s: State) {
    && s.client == FRESH
    && s.phase == Connecting(0)
    && !s.token
    && s.daemons == [Daemon(EMPTY, 0, 0, true)]
    && |s.conns| == 1
    && s.conns[0] == NewConnection(s.conns[0].quic, 0)
    && s.task == Task(0, 0, true, true, true, None)
    && s.mode == Running
    && s.inbound == []
    && s.history == [] && s.childOut == [] && s.childErr == []
    && !s.outEof && !s.errEof && s.childCode.None?
    && s.typed == [] && !s.typedEof
    && s.read == [] && s.failed == {} && s.unsent == {} && s.lost == {} && s.applied == [] && s.childIn == [] && !s.broke
  }

  // ------------------------------------------------------------------------
  // What happens to one connection

  /** The attachment loop starts after what the client asked for. */
  function Attached(conn: Connection, d: nat, log: LogState): Connection {
    conn.(daemon := d, phase := Fetching, sentUpTo := conn.lastSeen, ackedStdin := 0,
          exitSn := None, seen := log.version, toClient := [Started(Some(TOKEN))])
  }

  function Refused(conn: Connection, d: nat): Connection {
    conn.(daemon := d, phase := Ended, sentUpTo := conn.lastSeen,
          toClient := [Denied("unknown resume token")])
  }

  /** The replay loop takes a copy of what the log holds past its cursor. */
  function Fetched(conn: Connection, log: LogState): Connection {
    conn.(phase := Sending(After(log, conn.sentUpTo)), fetched := log.End())
  }

  function Copies(conn: Connection, m: ChannelMessage): set<ChannelMessage> {
    if conn.quic && WorthDuplicating(m) then {m} else {}
  }

  /** One turn of the replay loop: frame, datagram copy, cursor. */
  function SentOne(conn: Connection): Connection
    requires BatchOf(conn.phase) != []
  {
    var m := conn.phase.batch[0];
    conn.(phase := Sending(conn.phase.batch[1..]),
          exitSn := if m.Exit? then Some(m.sn) else conn.exitSn,
          toClient := conn.toClient + [m],
          downCopies := conn.downCopies + Copies(conn, m),
          sentUpTo := conn.sentUpTo + 1)
  }

  function StdinAcked(conn: Connection, applied: nat): Connection {
    if applied > conn.ackedStdin
    then conn.(phase := Waiting, ackedStdin := applied, toClient := conn.toClient + [Ack(applied)])
    else conn.(phase := Waiting)
  }

  function Woken(conn: Connection, log: LogState): Connection {
    conn.(phase := Fetching, seen := log.version)
  }

  function Looping(conn: Connection): Connection {
    conn.(phase := Fetching)
  }

  function ReceivedUp(conn: Connection, next: AttachPhase): Connection
    requires conn.toServer != []
  {
    conn.(toServer := conn.toServer[1..], phase := next)
  }

  function ReceivedDown(conn: Connection): Connection
    requires conn.toClient != []
  {
    conn.(toClient := conn.toClient[1..])
  }

  function PutUp(conn: Connection, m: ChannelMessage): Connection {
    conn.(toServer := conn.toServer + [m])
  }

  function BatchOf(p: AttachPhase): seq<ChannelMessage> {
    if p.Sending? then p.batch else []
  }

  // ------------------------------------------------------------------------
  // Steps

  datatype ClientLabel =
    | Connect(quic: bool)
    | RecvStarted
    | RecvDenied
    | ConnectLost
    | Resend
    | ResendDone
    | Drop
    | ReadStdin(data: Bytes, sendOk: bool)
    | FailLate(data: Bytes)
    | RecvFrame(ackOk: bool)
    | RecvCopy(m: ChannelMessage, ackOk: bool)

  datatype AttachLabel =
    | Accept(d: nat)
    | Refuse(d: nat)
    | Fetch
    | Send
    | AckStdin
    | Changed
    | TakeFrame
    | TakeCopy(m: ChannelMessage)
    | Tick
    | Close

  datatype TaskLabel =
    | ReadChild(ev: Event)
    | Notify
    | TakeInput(written: bool)
    | LogExit

  datatype DaemonLabel =
    | RequestHandover
    | Collect
    | RestoreRecord
    | ShutDown
    | Expire(d: nat)

  datatype Label =
    | ByClient(cl: ClientLabel)
    | ByAttachment(c: nat, al: AttachLabel)
    | ByTask(tl: TaskLabel)
    | ByDaemon(dl: DaemonLabel)

  function Last(s: State): nat
    requires s.daemons != []
  {
    |s.daemons| - 1
  }

  function SetConn(s: State, c: nat, conn: Connection): State
    requires c < |s.conns|
  {
    s.(conns := s.conns[c := conn])
  }

  function SetDaemon(s: State, d: nat, daemon: Daemon): State
    requires d < |s.daemons|
  {
    s.(daemons := s.daemons[d := daemon])
  }

  function SetLog(s: State, d: nat, log: LogState): State
    requires d < |s.daemons|
  {
    SetDaemon(s, d, s.daemons[d].(log := log))
  }

  // The client

  predicate ClientOn(s: State) {
    HasConn(s.phase) && s.phase.conn < |s.conns|
  }

  function CurrentConn(s: State): Connection
    requires ClientOn(s)
  {
    s.conns[s.phase.conn]
  }

  /** Without a resume token a lost connection ends the run. */
  function AfterLoss(s: State): Phase {
    if s.token then Idle else Failed
  }

  function DoConnect(s: State, quic: bool): State {
    s.(phase := Connecting(|s.conns|), conns := s.conns + [NewConnection(quic, s.client.lastServer)])
  }

  function DoRecvStarted(s: State): State
    requires ClientOn(s) && CurrentConn(s).toClient != []
  {
    SetConn(s, s.phase.conn, ReceivedDown(CurrentConn(s))).(phase := Resending(s.phase.conn, 0), token := true)
  }

  function DoResend(s: State): State
    requires ClientOn(s) && s.phase.Resending? && s.phase.next < |s.client.sent|
  {
    SetConn(s, s.phase.conn, PutUp(CurrentConn(s), s.client.sent[s.phase.next]))
      .(phase := Resending(s.phase.conn, s.phase.next + 1))
  }

  /** One read from the local input; an empty one is its end. */
  function Typed(s: State, data: Bytes): State {
    s.(typed := s.typed + data, typedEof := s.typedEof || data == [])
  }

  /** A live send puts the message on the stream, copies it if it is small and
      keeps it for resending; a failed one does none of this. */
  function DoReadStdin(s: State, data: Bytes, sendOk: bool): State
    requires ClientOn(s)
  {
    var m := NextInput(s.client, data);
    var conn := CurrentConn(s);
    var s1 := Typed(s, data).(client := OnStdin(s.client, data, sendOk), read := s.read + [m]);
    if sendOk then SetConn(s1, s.phase.conn, PutUp(conn, m).(upCopies := conn.upCopies + Copies(conn, m)))
    else s1.(failed := s.failed + {m.sn}, unsent := s.unsent + {m.sn}, phase := AfterLoss(s))
  }

  /** A live send that reports a failure although its frame got onto the
      stream; the message is not kept all the same. */
  function DoFailLate(s: State, data: Bytes): State
    requires ClientOn(s)
  {
    PutUnkept(s, data).(phase := AfterLoss(s))
  }

  function PutUnkept(s: State, data: Bytes): State
    requires ClientOn(s)
  {
    var m := NextInput(s.client, data);
    SetConn(Typed(s, data), s.phase.conn, PutUp(CurrentConn(s), m))
      .(client := OnStdin(s.client, data, false), read := s.read + [m], failed := s.failed + {m.sn})
  }

  function SendAckOf(s: State, sn: nat, ackOk: bool): State
    requires ClientOn(s)
  {
    if ackOk then SetConn(s, s.phase.conn, PutUp(CurrentConn(s), Ack(sn))) else s
  }

  function Reacted(s: State, client: Client, reaction: Reaction, ackOk: bool): State
    requires ClientOn(s)
  {
    match reaction
    case Nothing => s.(client := client)
    case SendAck(sn) => SendAckOf(s.(client := client), sn, ackOk)
    case Return(sn, code) => SendAckOf(s.(client := client), sn, ackOk).(phase := Done(code))
  }

  function React(s: State, m: ChannelMessage, reliable: bool, ackOk: bool): State
    requires ClientOn(s)
  {
    var (client, reaction) := OnMessage(s.client, m, reliable);
    Reacted(s, client, reaction, ackOk)
  }

  function DoRecvFrame(s: State, ackOk: bool): State
    requires ClientOn(s) && CurrentConn(s).toClient != []
  {
    React(SetConn(s, s.phase.conn, ReceivedDown(CurrentConn(s))), CurrentConn(s).toClient[0], true, ackOk)
  }

  predicate ClientCan(s: State, l: ClientLabel) {
    match l
    case Connect(_) => s.phase.Idle?
    case RecvStarted =>
      s.phase.Connecting? && ClientOn(s) && CurrentConn(s).toClient != [] && CurrentConn(s).toClient[0].Started?
    case RecvDenied =>
      s.phase.Connecting? && ClientOn(s) && CurrentConn(s).toClient != [] && CurrentConn(s).toClient[0].Denied?
    case ConnectLost => s.phase.Connecting?
    case Resend => s.phase.Resending? && ClientOn(s) && s.phase.next < |s.client.sent|
    case ResendDone => s.phase.Resending? && s.phase.next >= |s.client.sent|
    case Drop => s.phase.Resending? || s.phase.Live?
    case ReadStdin(_, _) => s.phase.Live? && ClientOn(s) && s.client.stdinOpen
    case FailLate(_) => s.phase.Live? && ClientOn(s) && s.client.stdinOpen
    case RecvFrame(_) => s.phase.Live? && ClientOn(s) && CurrentConn(s).toClient != []
    case RecvCopy(m, _) => s.phase.Live? && ClientOn(s) && m in CurrentConn(s).downCopies
  }

  function ClientStep(s: State, l: ClientLabel): State
    requires ClientCan(s, l)
  {
    match l
    case Connect(quic) => DoConnect(s, quic)
    case RecvStarted => DoRecvStarted(s)
    case RecvDenied => s.(phase := Failed)
    case ConnectLost => s.(phase := AfterLoss(s))
    case Resend => DoResend(s)
    case ResendDone => s.(phase := Live(s.phase.conn))
    case Drop => s.(phase := AfterLoss(s))
    case ReadStdin(data, sendOk) => DoReadStdin(s, data, sendOk)
    case FailLate(data) => DoFailLate(s, data)
    case RecvFrame(ackOk) => DoRecvFrame(s, ackOk)
    case RecvCopy(m, ackOk) => React(s, m, false, ackOk)
  }

  // The attachment of connection `c`

  /** Hands an input to the session task; a daemon whose task is gone drops it. */
  function Deliver(s: State, d: nat, item: Inbound): State
    requires s.daemons != []
  {
    if Alive(s) && d == Last(s) then s.(inbound := s.inbound + [item]) else s
  }

  /** An Ack trims the log; one that covers the Exit completes the session,
      which leaves the registry. */
  function TakenAck(s: State, c: nat, sn: nat): State
    requires c < |s.conns| && s.conns[c].daemon < |s.daemons| && s.conns[c].toServer != []
  {
    var conn, daemon := s.conns[c], s.daemons[s.conns[c].daemon];
    var complete := conn.exitSn.Some? && sn >= conn.exitSn.value;
    SetDaemon(SetConn(s, c, ReceivedUp(conn, if complete then Ended else Fetching)), conn.daemon,
              daemon.(log := Trim(daemon.log, sn), registered := daemon.registered && !complete))
  }

  function DoTakeFrame(s: State, c: nat): State
    requires c < |s.conns| && s.conns[c].daemon < |s.daemons| && s.conns[c].toServer != []
  {
    var conn, m := s.conns[c], s.conns[c].toServer[0];
    if m.Ack? then TakenAck(s, c, m.sn)
    else Deliver(SetConn(s, c, ReceivedUp(conn, Fetching)), conn.daemon, FromStream(c, m))
  }

  predicate AttachCan(s: State, c: nat, l: AttachLabel) {
    && c < |s.conns|
    && var conn := s.conns[c];
    match l
    case Accept(d) => conn.phase.Requested? && d < |s.daemons| && s.daemons[d].registered
    case Refuse(d) => conn.phase.Requested? && d < |s.daemons| && !s.daemons[d].registered
    case Fetch => conn.phase.Fetching? && conn.daemon < |s.daemons|
    case Send => conn.phase.Sending? && conn.phase.batch != []
    case AckStdin => conn.phase == Sending([]) && conn.daemon < |s.daemons|
    case Changed =>
      conn.phase.Waiting? && conn.daemon < |s.daemons| && conn.exitSn.None?
      && conn.seen != s.daemons[conn.daemon].log.version
    case TakeFrame => conn.phase.Waiting? && conn.daemon < |s.daemons| && conn.toServer != []
    case TakeCopy(m) => conn.phase.Waiting? && conn.daemon < |s.daemons| && m in conn.upCopies
    case Tick => conn.phase.Waiting?
    case Close => !conn.phase.Ended? && !conn.phase.Requested?
  }

  function AttachStep(s: State, c: nat, l: AttachLabel): State
    requires AttachCan(s, c, l)
  {
    var conn := s.conns[c];
    match l
    case Accept(d) => SetConn(s, c, Attached(conn, d, s.daemons[d].log))
    case Refuse(d) => SetConn(s, c, Refused(conn, d))
    case Fetch => SetConn(s, c, Fetched(conn, s.daemons[conn.daemon].log))
    case Send => SetConn(s, c, SentOne(conn))
    case AckStdin => SetConn(s, c, StdinAcked(conn, s.daemons[conn.daemon].stdinApplied))
    case Changed => SetConn(s, c, Woken(conn, s.daemons[conn.daemon].log))
    case TakeFrame => DoTakeFrame(s, c)
    case TakeCopy(m) => Deliver(SetConn(s, c, Looping(conn)), conn.daemon, FromDatagram(m))
    case Tick => SetConn(s, c, Looping(conn))
    case Close => SetConn(s, c, conn.(phase := Ended))
  }

  // The session task

  /** The task has nothing to do but read: it is at the top of its loop. */
  predicate TaskIdle(s: State) {
    s.mode.Running? && !ReadyToExit(s.task)
  }

  /** The first half of a push by the task. */
  function Logged(s: State, m: ChannelMessage, final: bool): State
    requires s.daemons != []
  {
    SetLog(s, Last(s), Enqueue(s.daemons[Last(s)].log, m))
      .(history := s.history + [m], task := s.task.(sn := s.task.sn + 1), mode := Notifying(final))
  }

  function DoReadChild(s: State, ev: Event): State
    requires s.daemons != []
  {
    match ev
    case StdoutRead(data) =>
      if data == [] then s.(task := Turn(s.task, ev), outEof := true)
      else Logged(s.(childOut := s.childOut + data), Stdout(s.task.sn + 1, data), false)
    case StderrRead(data) =>
      if data == [] then s.(task := Turn(s.task, ev), errEof := true)
      else Logged(s.(childErr := s.childErr + data), Stderr(s.task.sn + 1, data), false)
    case ExitRead(code) => s.(task := Turn(s.task, ev), childCode := Some(code))
    case Input(_, _, _) => s
  }

  /** The numbers strictly between. */
  function Between(a: nat, b: nat): (r: set<nat>)
    ensures forall k :: k in r <==> a < k < b
  {
    if b <= a + 1 then {} else Between(a, b - 1) + {b - 1}
  }

  function Apply(s: State, m: ChannelMessage, reliable: bool, written: bool): State
    requires s.daemons != []
  {
    if !Accepts(s.task.lastClient, m, reliable) then s
    else
      var takes := m.Stdin? && s.task.stdin;
      SetDaemon(s, Last(s), s.daemons[Last(s)].(stdinApplied := m.sn))
        .(task := ApplyInput(s.task, m, reliable, written),
          applied := s.applied + [m],
          lost := s.lost + Between(s.task.lastClient, m.sn),
          childIn := if takes && written then s.childIn + m.data else s.childIn,
          broke := s.broke || (takes && !written))
  }

  function DoTakeInput(s: State, written: bool): State
    requires s.daemons != [] && s.inbound != []
  {
    var s1 := s.(inbound := s.inbound[1..]);
    match s.inbound[0]
    case FromStream(_, m) => Apply(s1, m, true, written)
    case FromDatagram(m) => Apply(s1, m, false, written)
    case AbortRequest => s1.(mode := Stopped)
    case HandoverRequest => s.(inbound := [], mode := Replied(HandOver(s.task, s.daemons[Last(s)].log)))
  }

  function DoNotify(s: State): State
    requires s.daemons != [] && s.mode.Notifying?
  {
    SetLog(s, Last(s), Publish(s.daemons[Last(s)].log)).(mode := if s.mode.final then Stopped else Running)
  }

  function DoLogExit(s: State): State
    requires s.daemons != [] && ReadyToExit(s.task)
  {
    Logged(s, Exit(s.task.sn + 1, s.task.exitCode.value), true)
  }

  predicate TaskCan(s: State, l: TaskLabel) {
    && s.daemons != []
    && match l
    case ReadChild(ev) =>
      && TaskIdle(s) && !ev.Input? && Possible(s.task, ev)
      && (ev.StdoutRead? && ev.data != [] ==> !s.outEof)
      && (ev.StderrRead? && ev.data != [] ==> !s.errEof)
    case Notify => s.mode.Notifying?
    case TakeInput(_) => TaskIdle(s) && s.inbound != []
    case LogExit => s.mode.Running? && ReadyToExit(s.task)
  }

  function TaskStep(s: State, l: TaskLabel): State
    requires TaskCan(s, l)
  {
    match l
    case ReadChild(ev) => DoReadChild(s, ev)
    case Notify => DoNotify(s)
    case TakeInput(written) => DoTakeInput(s, written)
    case LogExit => DoLogExit(s)
  }

  // Shutdown, restart and expiry

  function NextDaemon(r: Record): Daemon {
    Daemon(Restore(r.trimmed, r.buffer), r.trimmed + |r.buffer|, r.stdinApplied, true)
  }

  function DoCollect(s: State): State
    requires s.daemons != [] && s.mode.Replied?
  {
    SetDaemon(s, Last(s), s.daemons[Last(s)].(registered := false)).(mode := HandedOver(s.mode.record))
  }

  /** The daemon ends without a record of the session: its task had already
      ended, or it gave no answer in time. The next daemon does not know the
      token and refuses it, as this one does from now on. */
  function DoShutDown(s: State): State
    requires s.daemons != []
  {
    SetDaemon(s, Last(s), s.daemons[Last(s)].(registered := false)).(mode := Stopped)
  }

  function DoRestore(s: State): State
    requires s.mode.HandedOver?
  {
    s.(daemons := s.daemons + [NextDaemon(s.mode.record)], task := RestoreTask(s.mode.record),
       mode := Running, inbound := [])
  }

  predicate DaemonCan(s: State, l: DaemonLabel) {
    && s.daemons != []
    && match l
    case RequestHandover => Alive(s)
    case Collect => s.mode.Replied?
    case RestoreRecord => s.mode.HandedOver?
    case ShutDown => !s.mode.Notifying? && !s.mode.HandedOver?
    case Expire(d) => d < |s.daemons| && s.daemons[d].registered
  }

  function DaemonStep(s: State, l: DaemonLabel): State
    requires DaemonCan(s, l)
  {
    match l
    case RequestHandover => s.(inbound := s.inbound + [HandoverRequest])
    case Collect => DoCollect(s)
    case RestoreRecord => DoRestore(s)
    case ShutDown => DoShutDown(s)
    case Expire(d) =>
      Deliver(SetDaemon(s, d, s.daemons[d].(registered := false)), d, AbortRequest)
  }

  predicate Enabled(s: State, l: Label) {
    && s.daemons != []
    && match l
    case ByClient(cl) => ClientCan(s, cl)
    case ByAttachment(c, al) => AttachCan(s, c, al)
    case ByTask(tl) => TaskCan(s, tl)
    case ByDaemon(dl) => DaemonCan(s, dl)
  }

  function Step(s: State, l: Label): State
    requires Enabled(s, l)
  {
    match l
    case ByClient(cl) => ClientStep(s, cl)
    case ByAttachment(c, al) => AttachStep(s, c, al)
    case ByTask(tl) => TaskStep(s, tl)
    case ByDaemon(dl) => DaemonStep(s, dl)
  }

  ghost predicate Next(s: State, t: State) {
    exists l :: Enabled(s, l) && t == Step(s, l)
  }

  /** A finite run of the system from a fresh exec. */
  ghost predicate Behavior(b: seq<State>) {
    && b != []
    && Init(b[0])
    && forall i :: 0 <= i < |b| - 1 ==> Next(b[i], b[i + 1])
  }

  ghost predicate Reachable(s: State) {
    exists b :: Behavior(b) && b[|b| - 1] == s
  }
}
