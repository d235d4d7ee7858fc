/** Every step keeps the output half of the invariant. */
module ResumeOutput {
  import opened Proto
  import opened OutboundLog
  import opened SessionTask
  import opened ExecClient
  import opened ResumeModel
  import opened ResumeInvariant

  lemma {:induction false} OutputsAppend(q: seq<ChannelMessage>, m: ChannelMessage)
    ensures Outputs(q + [m]) == Outputs(q) + (if IsOutput(m) then [m] else [])
  {
    if q != [] {
      assert (q + [m])[1..] == q[1..] + [m];
      OutputsAppend(q[1..], m);
    }
  }

  // ------------------------------------------------------------------------
  // Only the client's place or one connection changes

  /** Nothing of the session and nothing the client consumed moved. */
  ghost predicate SessionSame(s: State, t: State) {
    && t.history == s.history && t.daemons == s.daemons && t.mode == s.mode
    && t.childOut == s.childOut && t.childErr == s.childErr
    && t.outEof == s.outEof && t.errEof == s.errEof && t.childCode == s.childCode
    && t.task == s.task
    && t.client.lastServer == s.client.lastServer && t.client.out == s.client.out && t.client.err == s.client.err
    && (s.phase.Done? || t.phase.Done? ==> t.phase == s.phase)
  }

  lemma SameTask(s: State, t: State)
    requires SessionSame(s, t) && TaskOk(s)
    ensures TaskOk(t)
  {
  }

  lemma SameDaemons(s: State, t: State)
    requires SessionSame(s, t) && DaemonsOk(s)
    ensures DaemonsOk(t)
  {
  }

  lemma SameClient(s: State, t: State)
    requires SessionSame(s, t) && ClientOk(s)
    ensures ClientOk(t)
  {
  }

  lemma SameConns(s: State, t: State)
    requires SessionSame(s, t) && ConnsOk(s) && t.conns == s.conns
    ensures ConnsOk(t)
  {
  }

  lemma OneConnChanged(s: State, t: State, c: nat, conn: Connection)
    requires SessionSame(s, t) && ConnsOk(s) && c < |s.conns|
    requires t.conns == s.conns[c := conn]
    requires ConnOk(s.history, Consumed(s), s.task.lastClient, s.daemons, conn)
    ensures ConnsOk(t)
  {
  }

  lemma OneConnAdded(s: State, t: State, conn: Connection)
    requires SessionSame(s, t) && ConnsOk(s)
    requires t.conns == s.conns + [conn]
    requires ConnOk(s.history, Consumed(s), s.task.lastClient, s.daemons, conn)
    ensures ConnsOk(t)
  {
  }

  lemma OnlyClientMoved(s: State, t: State)
    requires OutputInv(s) && SessionSame(s, t) && t.conns == s.conns && CurrentOk(t)
    ensures OutputInv(t)
  {
    SameTask(s, t);
    SameDaemons(s, t);
    SameClient(s, t);
    SameConns(s, t);
  }

  /** It is enough to look at the connection that changed. */
  lemma ConnMoved(s: State, t: State, c: nat, conn: Connection)
    requires OutputInv(s) && c < |s.conns|
    requires SessionSame(s, t) && t.conns == s.conns[c := conn]
    requires ConnOk(s.history, Consumed(s), s.task.lastClient, s.daemons, conn)
    requires CurrentOk(t)
    ensures OutputInv(t)
  {
    SameTask(s, t);
    SameDaemons(s, t);
    SameClient(s, t);
    OneConnChanged(s, t, c, conn);
  }

  lemma CurrentSurvives(s: State, c: nat, conn: Connection)
    requires CurrentOk(s) && c < |s.conns| && !conn.phase.Requested?
    requires HasConn(s.phase) && s.phase.conn == c ==> StreamOk(s.history, s.client.lastServer, conn)
    ensures CurrentOk(SetConn(s, c, conn))
  {
  }

  lemma AttachmentMoved(s: State, c: nat, conn: Connection)
    requires OutputInv(s) && c < |s.conns| && !conn.phase.Requested?
    requires ConnOk(s.history, Consumed(s), s.task.lastClient, s.daemons, conn)
    requires HasConn(s.phase) && s.phase.conn == c ==> StreamOk(s.history, s.client.lastServer, conn)
    ensures OutputInv(SetConn(s, c, conn))
  {
    CurrentSurvives(s, c, conn);
    ConnMoved(s, SetConn(s, c, conn), c, conn);
  }

  // The attachment loop, one connection at a time

  lemma AcceptedConn(h: seq<ChannelMessage>, n: nat, lc: nat, ds: seq<Daemon>, conn: Connection, d: nat)
    requires ConnOk(h, n, lc, ds, conn) && conn.phase.Requested? && d < |ds|
    ensures ConnOk(h, n, lc, ds, Attached(conn, d, ds[d].log))
    ensures ConnOk(h, n, lc, ds, Refused(conn, d))
  {
  }

  lemma AcceptedStream(h: seq<ChannelMessage>, conn: Connection, d: nat, log: LogState)
    requires conn.phase.Requested? && conn.downCopies == {} && conn.lastSeen <= |h|
    ensures StreamOk(h, conn.lastSeen, Attached(conn, d, log))
    ensures StreamOk(h, conn.lastSeen, Refused(conn, d))
  {
    NoOutputs(Started(Some(TOKEN)));
    NoOutputs(Denied("unknown resume token"));
  }

  lemma NoOutputs(m: ChannelMessage)
    requires !IsOutput(m)
    ensures Outputs([m]) == []
  {
    assert [m][1..] == [];
  }

  lemma InTail(log: LogState, h: seq<ChannelMessage>, sn: nat, m: ChannelMessage)
    requires HoldsTailOf(log, h) && HistoryOk(h) && m in After(log, sn)
    ensures InHistory(h, m) && m.sn <= log.End()
  {
    var i :| 0 <= i < |log.buffer| && log.buffer[i] == m;
    assert log.buffer[i] == h[log.trimmed + i];
  }

  lemma FetchedConn(h: seq<ChannelMessage>, n: nat, lc: nat, ds: seq<Daemon>, conn: Connection, behind: bool)
    requires ConnOk(h, n, lc, ds, conn) && conn.phase.Fetching? && HistoryOk(h)
    requires conn.daemon < |ds| && DaemonOk(h, n, lc, ds[conn.daemon], behind)
    ensures ConnOk(h, n, lc, ds, Fetched(conn, ds[conn.daemon].log))
  {
    var log := ds[conn.daemon].log;
    var c := Fetched(conn, log);
    forall m | m in BatchOf(c.phase)
      ensures InHistory(h, m) && m.sn <= c.fetched
    {
      InTail(log, h, conn.sentUpTo, m);
    }
  }

  lemma FetchedStream(h: seq<ChannelMessage>, last: nat, log: LogState, conn: Connection)
    requires StreamOk(h, last, conn) && conn.phase.Fetching?
    requires HoldsTailOf(log, h) && log.trimmed <= last
    ensures StreamOk(h, last, Fetched(conn, log))
  {
    if conn.sentUpTo <= log.End() {
      AfterIsPart(log, h, conn.sentUpTo);
    }
  }

  lemma SentConn(h: seq<ChannelMessage>, n: nat, lc: nat, ds: seq<Daemon>, conn: Connection)
    requires ConnOk(h, n, lc, ds, conn) && BatchOf(conn.phase) != [] && HistoryOk(h)
    requires conn.daemon < |ds| && HoldsTailOf(ds[conn.daemon].log, h)
    ensures ConnOk(h, n, lc, ds, SentOne(conn))
  {
    var m := conn.phase.batch[0];
    assert m in BatchOf(conn.phase);
    assert InHistory(h, m);
  }

  lemma SentStream(h: seq<ChannelMessage>, last: nat, conn: Connection)
    requires StreamOk(h, last, conn) && BatchOf(conn.phase) != [] && HistoryOk(h)
    ensures StreamOk(h, last, SentOne(conn))
  {
    BatchHead(h, conn.sentUpTo, conn.phase.batch);
    SentOnStream(h, last, conn);
  }

  lemma SentOnStream(h: seq<ChannelMessage>, last: nat, conn: Connection)
    requires StreamOk(h, last, conn) && BatchOf(conn.phase) != []
    requires conn.phase.batch[0] == h[conn.sentUpTo] && IsOutput(h[conn.sentUpTo])
    requires h[conn.sentUpTo].sn == conn.sentUpTo + 1
    requires PartOf(h, conn.sentUpTo + 1, conn.phase.batch[1..])
    ensures StreamOk(h, last, SentOne(conn))
  {
    SentFrames(h, conn);
    SentCopies(conn);
  }

  lemma SentFrames(h: seq<ChannelMessage>, conn: Connection)
    requires BatchOf(conn.phase) != [] && IsOutput(conn.phase.batch[0])
    requires |Outputs(conn.toClient)| <= conn.sentUpTo < |h| && conn.phase.batch[0] == h[conn.sentUpTo]
    requires PartOf(h, conn.sentUpTo - |Outputs(conn.toClient)|, Outputs(conn.toClient))
    ensures var outs := Outputs(SentOne(conn).toClient);
            && |outs| == |Outputs(conn.toClient)| + 1
            && PartOf(h, conn.sentUpTo + 1 - |outs|, outs)
  {
    SentOutputs(conn);
    PartOneMore(h, conn.sentUpTo - |Outputs(conn.toClient)|, Outputs(conn.toClient));
  }

  lemma SentOutputs(conn: Connection)
    requires BatchOf(conn.phase) != [] && IsOutput(conn.phase.batch[0])
    ensures Outputs(SentOne(conn).toClient) == Outputs(conn.toClient) + [conn.phase.batch[0]]
  {
    OutputsAppend(conn.toClient, conn.phase.batch[0]);
  }

  lemma SentCopies(conn: Connection)
    requires BatchOf(conn.phase) != []
    ensures forall m :: m in SentOne(conn).downCopies ==> m in conn.downCopies || m == conn.phase.batch[0]
  {
  }

  lemma BatchHead(h: seq<ChannelMessage>, n: nat, batch: seq<ChannelMessage>)
    requires PartOf(h, n, batch) && batch != [] && HistoryOk(h)
    ensures batch[0] == h[n] && IsOutput(batch[0]) && batch[0].sn == n + 1
    ensures PartOf(h, n + 1, batch[1..])
  {
    PartOneLess(h, n, batch);
  }

  lemma AckedConn(h: seq<ChannelMessage>, n: nat, lc: nat, ds: seq<Daemon>, conn: Connection, k: nat)
    requires ConnOk(h, n, lc, ds, conn) && conn.phase == Sending([]) && k <= lc
    ensures ConnOk(h, n, lc, ds, StdinAcked(conn, k))
  {
  }

  lemma AckedStream(h: seq<ChannelMessage>, last: nat, conn: Connection, k: nat)
    requires StreamOk(h, last, conn) && conn.phase == Sending([])
    ensures StreamOk(h, last, StdinAcked(conn, k))
  {
    AckIsNoOutput(conn.toClient, k);
    assert Outputs(StdinAcked(conn, k).toClient) == Outputs(conn.toClient);
  }

  lemma AckIsNoOutput(q: seq<ChannelMessage>, k: nat)
    ensures Outputs(q + [Ack(k)]) == Outputs(q)
  {
    OutputsAppend(q, Ack(k));
  }

  /** Going round the loop, waking up, taking a frame or ending. */
  lemma TurnedConn(h: seq<ChannelMessage>, n: nat, lc: nat, ds: seq<Daemon>, conn: Connection, next: AttachPhase)
    requires ConnOk(h, n, lc, ds, conn) && !conn.phase.Requested?
    requires next.Fetching? || next.Ended?
    ensures ConnOk(h, n, lc, ds, conn.(phase := next))
    ensures ConnOk(h, n, lc, ds, Woken(conn, ds[conn.daemon].log))
    ensures conn.toServer != [] ==> ConnOk(h, n, lc, ds, ReceivedUp(conn, next))
  {
  }

  lemma TurnedStream(h: seq<ChannelMessage>, last: nat, conn: Connection, log: LogState, next: AttachPhase)
    requires StreamOk(h, last, conn)
    requires next.Fetching? || next.Ended?
    ensures StreamOk(h, last, conn.(phase := next))
    ensures StreamOk(h, last, Woken(conn, log))
    ensures conn.toServer != [] ==> StreamOk(h, last, ReceivedUp(conn, next))
  {
    SameStream(h, last, conn, conn.(phase := next));
    SameStream(h, last, conn, Woken(conn, log));
    if conn.toServer != [] {
      SameStream(h, last, conn, ReceivedUp(conn, next));
    }
  }

  lemma SameStream(h: seq<ChannelMessage>, last: nat, a: Connection, b: Connection)
    requires StreamOk(h, last, a) && (b.phase.Fetching? || b.phase.Ended?)
    requires b.toClient == a.toClient && b.sentUpTo == a.sentUpTo && b.downCopies == a.downCopies
    ensures StreamOk(h, last, b)
  {
  }

  // ------------------------------------------------------------------------
  // The session moves on and the connections stay

  /** The session only grew: longer history, more consumed, later versions. */
  ghost predicate Grew(s: State, t: State) {
    && s.history <= t.history
    && (HasExit(s.history) ==> t.history == s.history)
    && Consumed(s) <= Consumed(t)
    && s.task.lastClient <= t.task.lastClient
    && |s.daemons| <= |t.daemons|
    && forall i :: 0 <= i < |s.daemons| ==>
         && t.daemons[i].base == s.daemons[i].base
         && s.daemons[i].log.version <= t.daemons[i].log.version
         && s.daemons[i].log.End() <= t.daemons[i].log.End()
  }

  lemma GrownConn(h: seq<ChannelMessage>, n: nat, lc: nat, ds: seq<Daemon>,
                  h': seq<ChannelMessage>, n': nat, lc': nat, ds': seq<Daemon>, conn: Connection)
    requires ConnOk(h, n, lc, ds, conn)
    requires h <= h' && (HasExit(h) ==> h' == h) && n <= n' && lc <= lc' && |ds| <= |ds'|
    requires forall i :: 0 <= i < |ds| ==>
               && ds'[i].base == ds[i].base
               && ds[i].log.version <= ds'[i].log.version
               && ds[i].log.End() <= ds'[i].log.End()
    ensures ConnOk(h', n', lc', ds', conn)
  {
    assert forall m :: InHistory(h, m) ==> InHistory(h', m);
  }

  lemma GrownConns(s: State, t: State)
    requires ConnsOk(s) && Grew(s, t) && t.conns == s.conns
    ensures ConnsOk(t)
  {
    forall i | 0 <= i < |t.conns|
      ensures ConnOk(t.history, Consumed(t), t.task.lastClient, t.daemons, t.conns[i])
    {
      GrownConn(s.history, Consumed(s), s.task.lastClient, s.daemons,
                t.history, Consumed(t), t.task.lastClient, t.daemons, s.conns[i]);
    }
  }

  lemma GrownStream(h: seq<ChannelMessage>, h': seq<ChannelMessage>, last: nat, conn: Connection)
    requires StreamOk(h, last, conn) && h <= h'
    ensures StreamOk(h', last, conn)
  {
    PartStays(h, h', conn.sentUpTo - |Outputs(conn.toClient)|, Outputs(conn.toClient));
    if conn.phase.Sending? {
      PartStays(h, h', conn.sentUpTo, conn.phase.batch);
    }
  }

  lemma GrownCurrent(s: State, t: State)
    requires CurrentOk(s) && s.history <= t.history && t.conns == s.conns && t.phase == s.phase
    requires t.client.lastServer == s.client.lastServer
    ensures CurrentOk(t)
  {
    if HasConn(s.phase) && !s.conns[s.phase.conn].phase.Requested? {
      GrownStream(s.history, t.history, s.client.lastServer, s.conns[s.phase.conn]);
    }
  }

  lemma GrownClient(s: State, t: State)
    requires ClientOk(s) && s.history <= t.history && (HasExit(s.history) ==> t.history == s.history)
    requires t.client == s.client && t.phase == s.phase
    ensures ClientOk(t)
  {
    assert t.history[..s.client.lastServer] == s.history[..s.client.lastServer];
  }

  /** A step of the session alone. */
  lemma SessionMoved(s: State, t: State)
    requires OutputInv(s) && TaskOk(t) && DaemonsOk(t) && Grew(s, t)
    requires t.conns == s.conns && t.client == s.client && t.phase == s.phase
    ensures OutputInv(t)
  {
    GrownConns(s, t);
    GrownCurrent(s, t);
    GrownClient(s, t);
  }

  // Logging

  lemma LoggedTask(s: State, m: ChannelMessage, final: bool)
    requires TaskOk(s) && s.daemons != [] && TaskCanLog(s, m, final)
    requires s.mode.Running?
    ensures TaskOk(WithOutput(Logged(s, m, final), s, m))
  {
    BytesOfOneMore(s.history, m);
  }

  /** The bytes the child produced along with message `m`. */
  function WithOutput(t: State, s: State, m: ChannelMessage): State {
    t.(childOut := s.childOut + (if m.Stdout? then m.data else []),
       childErr := s.childErr + (if m.Stderr? then m.data else []))
  }

  ghost predicate TaskCanLog(s: State, m: ChannelMessage, final: bool) {
    && IsOutput(m) && m.sn == s.task.sn + 1
    && (m.Exit? <==> final)
    && (m.Exit? ==> ReadyToExit(s.task) && m.code == s.task.exitCode.value)
  }

  lemma LoggedDaemons(s: State, m: ChannelMessage, final: bool)
    requires DaemonsOk(s) && s.mode.Running?
    requires !s.phase.Done?
    ensures DaemonsOk(WithOutput(Logged(s, m, final), s, m))
  {
    var t := Logged(s, m, final);
    var h, h' := s.history, s.history + [m];
    forall i | 0 <= i < |s.daemons|
      ensures DaemonOk(h', Consumed(s), s.task.lastClient, t.daemons[i], i == |s.daemons| - 1)
    {
      if i == Last(s) {
        EnqueueKeepsTail(s.daemons[i].log, h, m);
      } else {
        GrowingHistoryKeepsTail(s.daemons[i].log, h, m);
      }
    }
  }

  lemma LoggedKeepsOutput(s: State, m: ChannelMessage, final: bool)
    requires OutputInv(s) && TaskCanLog(s, m, final) && s.mode.Running?
    ensures OutputInv(WithOutput(Logged(s, m, final), s, m))
  {
    var t := WithOutput(Logged(s, m, final), s, m);
    LoggedTask(s, m, final);
    LoggedDaemons(s, m, final);
    SessionMoved(s, t);
  }

  // Publishing

  lemma NotifiedDaemons(s: State)
    requires DaemonsOk(s) && s.mode.Notifying?
    ensures DaemonsOk(DoNotify(s))
  {
  }

  lemma NotifiedTask(s: State)
    requires TaskOk(s) && s.daemons != [] && s.mode.Notifying?
    ensures TaskOk(DoNotify(s))
  {
  }

  lemma NotifyKeepsOutput(s: State)
    requires OutputInv(s) && s.mode.Notifying?
    ensures OutputInv(DoNotify(s))
  {
    NotifiedTask(s);
    NotifiedDaemons(s);
    SessionMoved(s, DoNotify(s));
  }

  // Input, end of file and the exit code

  lemma ReadKeepsOutput(s: State, ev: Event)
    requires OutputInv(s) && TaskCan(s, ReadChild(ev))
    ensures OutputInv(DoReadChild(s, ev))
  {
    if Pushed(s.task, ev) != [] {
      var m := Pushed(s.task, ev)[0];
      LoggedKeepsOutput(s, m, false);
      ReadIsLogged(s, ev);
    } else {
      QuietTurn(s, DoReadChild(s, ev));
    }
  }

  lemma ReadIsLogged(s: State, ev: Event)
    requires s.daemons != [] && Pushed(s.task, ev) != []
    ensures DoReadChild(s, ev) == WithOutput(Logged(s, Pushed(s.task, ev)[0], false), s, Pushed(s.task, ev)[0])
  {
    match ev
    case StdoutRead(data) => StdoutIsLogged(s, data);
    case StderrRead(data) => StderrIsLogged(s, data);
  }

  lemma StdoutIsLogged(s: State, data: Bytes)
    requires s.daemons != [] && data != []
    ensures var m := Stdout(s.task.sn + 1, data);
            DoReadChild(s, StdoutRead(data)) == WithOutput(Logged(s, m, false), s, m)
  {
  }

  lemma StderrIsLogged(s: State, data: Bytes)
    requires s.daemons != [] && data != []
    ensures var m := Stderr(s.task.sn + 1, data);
            DoReadChild(s, StderrRead(data)) == WithOutput(Logged(s, m, false), s, m)
  {
  }

  /** The running task changed only what it knows about the child. */
  lemma QuietTurn(s: State, t: State)
    requires OutputInv(s) && s.mode.Running?
    requires t == s.(task := t.task, outEof := t.outEof, errEof := t.errEof, childCode := t.childCode)
    requires t.task.sn == s.task.sn && t.task.lastClient == s.task.lastClient
    requires !t.task.stdoutOpen ==> t.outEof
    requires !t.task.stderrOpen ==> t.errEof
    requires t.task.exitCode == t.childCode
    ensures OutputInv(t)
  {
    QuietTask(s, t);
    QuietDaemons(s, t);
    SessionMoved(s, t);
  }

  lemma QuietTask(s: State, t: State)
    requires TaskOk(s) && s.mode.Running?
    requires t == s.(task := t.task, outEof := t.outEof, errEof := t.errEof, childCode := t.childCode)
    requires t.task.sn == s.task.sn
    requires !t.task.stdoutOpen ==> t.outEof
    requires !t.task.stderrOpen ==> t.errEof
    requires t.task.exitCode == t.childCode
    ensures TaskOk(t)
  {
  }

  lemma QuietDaemons(s: State, t: State)
    requires DaemonsOk(s)
    requires t == s.(task := t.task, outEof := t.outEof, errEof := t.errEof, childCode := t.childCode)
    requires t.task.lastClient == s.task.lastClient
    ensures DaemonsOk(t)
  {
  }

  lemma ExitKeepsOutput(s: State)
    requires OutputInv(s) && TaskCan(s, LogExit)
    ensures OutputInv(DoLogExit(s))
  {
    var m := Exit(s.task.sn + 1, s.task.exitCode.value);
    LoggedKeepsOutput(s, m, true);
    assert DoLogExit(s) == WithOutput(Logged(s, m, true), s, m);
  }

  lemma AppliedTask(s: State, m: ChannelMessage, reliable: bool, written: bool)
    requires TaskOk(s) && s.mode.Running? && s.daemons != []
    ensures TaskOk(Apply(s, m, reliable, written))
  {
  }

  lemma AppliedDaemons(s: State, m: ChannelMessage, reliable: bool, written: bool)
    requires DaemonsOk(s) && s.mode.Running?
    ensures DaemonsOk(Apply(s, m, reliable, written))
  {
  }

  lemma AppliedGrew(s: State, m: ChannelMessage, reliable: bool, written: bool)
    requires s.daemons != []
    ensures var t := Apply(s, m, reliable, written);
            Grew(s, t) && t.conns == s.conns && t.client == s.client && t.phase == s.phase
  {
  }

  lemma ApplyKeepsOutput(s: State, m: ChannelMessage, reliable: bool, written: bool)
    requires OutputInv(s) && s.mode.Running?
    ensures OutputInv(Apply(s, m, reliable, written))
  {
    AppliedTask(s, m, reliable, written);
    AppliedDaemons(s, m, reliable, written);
    AppliedGrew(s, m, reliable, written);
    SessionMoved(s, Apply(s, m, reliable, written));
  }

  /** The queue and the client's own bookkeeping carry no output. */
  lemma QueueIsNoOutput(s: State, q: seq<Inbound>)
    requires OutputInv(s)
    ensures OutputInv(s.(inbound := q))
  {
    OnlyClientMoved(s, s.(inbound := q));
  }

  lemma StoppedTask(s: State, mode: Mode)
    requires TaskOk(s) && (s.mode.Running? || s.mode.Replied?) && (mode.Stopped? || mode.Replied? || mode.HandedOver?)
    requires mode.Replied? || mode.HandedOver? ==> RecordOk(s, mode.record)
    ensures TaskOk(s.(mode := mode))
  {
  }

  lemma StoppedDaemons(s: State, mode: Mode)
    requires DaemonsOk(s) && !s.mode.Notifying? && !mode.Notifying?
    ensures DaemonsOk(s.(mode := mode))
  {
  }

  lemma StopKeepsOutput(s: State, mode: Mode)
    requires OutputInv(s) && (s.mode.Running? || s.mode.Replied?) && (mode.Stopped? || mode.Replied? || mode.HandedOver?)
    requires mode.Replied? || mode.HandedOver? ==> RecordOk(s, mode.record)
    ensures OutputInv(s.(mode := mode))
  {
    StoppedTask(s, mode);
    StoppedDaemons(s, mode);
    SessionMoved(s, s.(mode := mode));
  }

  lemma RecordIsTheSession(s: State)
    requires TaskOk(s) && DaemonsOk(s)
    ensures RecordOk(s, HandOver(s.task, s.daemons[Last(s)].log))
  {
  }

  lemma HandoverKeepsOutput(s: State)
    requires OutputInv(s) && s.mode.Running?
    ensures OutputInv(s.(inbound := [], mode := Replied(HandOver(s.task, s.daemons[Last(s)].log))))
  {
    RecordIsTheSession(s);
    var mode := Replied(HandOver(s.task, s.daemons[Last(s)].log));
    StopKeepsOutput(s, mode);
    QueueIsNoOutput(s.(mode := mode), []);
  }

  lemma TakeInputKeepsOutput(s: State, written: bool)
    requires OutputInv(s) && TaskCan(s, TakeInput(written))
    ensures OutputInv(DoTakeInput(s, written))
  {
    var s1 := s.(inbound := s.inbound[1..]);
    QueueIsNoOutput(s, s.inbound[1..]);
    match s.inbound[0] {
      case FromStream(_, m) => ApplyKeepsOutput(s1, m, true, written);
      case FromDatagram(m) => ApplyKeepsOutput(s1, m, false, written);
      case AbortRequest => StopKeepsOutput(s1, Stopped);
      case HandoverRequest => HandoverKeepsOutput(s);
    }
  }

  // Registry and restart

  lemma RegistryIsNoOutput(s: State, d: nat)
    requires OutputInv(s) && d < |s.daemons|
    ensures OutputInv(SetDaemon(s, d, s.daemons[d].(registered := false)))
  {
    var t := SetDaemon(s, d, s.daemons[d].(registered := false));
    TrimmedTask(s, d, s.daemons[d].(registered := false));
    UnregisteredDaemons(s, d);
    SessionMoved(s, t);
  }

  lemma UnregisteredDaemons(s: State, d: nat)
    requires DaemonsOk(s) && d < |s.daemons|
    ensures DaemonsOk(SetDaemon(s, d, s.daemons[d].(registered := false)))
  {
  }

  lemma CollectKeepsOutput(s: State)
    requires OutputInv(s) && s.mode.Replied?
    ensures OutputInv(DoCollect(s))
  {
    var mode := HandedOver(s.mode.record);
    StopKeepsOutput(s, mode);
    RegistryIsNoOutput(s.(mode := mode), Last(s));
    assert DoCollect(s)
        == SetDaemon(s.(mode := mode), Last(s), s.daemons[Last(s)].(registered := false));
  }

  lemma ShutDownKeepsOutput(s: State)
    requires OutputInv(s) && DaemonCan(s, ShutDown)
    ensures OutputInv(DoShutDown(s))
  {
    if s.mode.Stopped? {
      assert s.(mode := Stopped) == s;
    } else {
      StopKeepsOutput(s, Stopped);
    }
    RegistryIsNoOutput(s.(mode := Stopped), Last(s));
    assert DoShutDown(s)
        == SetDaemon(s.(mode := Stopped), Last(s), s.daemons[Last(s)].(registered := false));
  }

  lemma RestoredTask(s: State)
    requires TaskOk(s) && s.mode.HandedOver?
    ensures TaskOk(DoRestore(s))
  {
  }

  lemma RestoredDaemons(s: State)
    requires DaemonsOk(s) && s.mode.HandedOver? && RecordOk(s, s.mode.record)
    ensures DaemonsOk(DoRestore(s))
  {
  }

  lemma RestoreKeepsOutput(s: State)
    requires OutputInv(s) && s.mode.HandedOver?
    ensures OutputInv(DoRestore(s))
  {
    RestoredTask(s);
    RestoredDaemons(s);
    SessionMoved(s, DoRestore(s));
  }

  // Trimming

  /** A daemon after the client acknowledged `sn`. */
  function Acknowledged(d: Daemon, sn: nat, registered: bool): Daemon {
    d.(log := Trim(d.log, sn), registered := registered)
  }

  lemma TrimmedDaemons(s: State, d: nat, sn: nat, registered: bool)
    requires DaemonsOk(s) && d < |s.daemons| && sn <= Consumed(s)
    ensures DaemonsOk(SetDaemon(s, d, Acknowledged(s.daemons[d], sn, registered)))
  {
    TrimKeepsTail(s.daemons[d].log, s.history, sn);
  }

  lemma TrimmedTask(s: State, d: nat, daemon: Daemon)
    requires TaskOk(s) && d < |s.daemons|
    ensures TaskOk(SetDaemon(s, d, daemon))
  {
  }

  lemma TrimKeepsOutput(s: State, d: nat, sn: nat, registered: bool)
    requires OutputInv(s) && d < |s.daemons| && sn <= Consumed(s)
    ensures OutputInv(SetDaemon(s, d, Acknowledged(s.daemons[d], sn, registered)))
  {
    TrimKeepsTail(s.daemons[d].log, s.history, sn);
    TrimmedDaemons(s, d, sn, registered);
    TrimmedTask(s, d, Acknowledged(s.daemons[d], sn, registered));
    SessionMoved(s, SetDaemon(s, d, Acknowledged(s.daemons[d], sn, registered)));
  }

  // ------------------------------------------------------------------------
  // The attachments

  lemma TakeFrameKeepsOutput(s: State, c: nat)
    requires OutputInv(s) && AttachCan(s, c, TakeFrame)
    ensures OutputInv(DoTakeFrame(s, c))
  {
    var conn := s.conns[c];
    var m := conn.toServer[0];
    assert m in conn.toServer;
    if m.Ack? {
      TakeAckKeepsOutput(s, c);
    } else {
      ReceivedKeepsOutput(s, c, Fetching);
      var s1 := SetConn(s, c, ReceivedUp(conn, Fetching));
      DeliverKeepsOutput(s1, conn.daemon, FromStream(c, m));
    }
  }

  lemma DeliverKeepsOutput(s: State, d: nat, item: Inbound)
    requires OutputInv(s)
    ensures OutputInv(Deliver(s, d, item))
  {
    QueueIsNoOutput(s, s.inbound + [item]);
  }

  lemma ReceivedKeepsOutput(s: State, c: nat, next: AttachPhase)
    requires OutputInv(s) && c < |s.conns| && s.conns[c].phase.Waiting? && s.conns[c].toServer != []
    requires next.Fetching? || next.Ended?
    ensures OutputInv(SetConn(s, c, ReceivedUp(s.conns[c], next)))
  {
    var conn := s.conns[c];
    TurnedConn(s.history, Consumed(s), s.task.lastClient, s.daemons, conn, next);
    if HasConn(s.phase) && s.phase.conn == c {
      TurnedStream(s.history, s.client.lastServer, conn, EMPTY, next);
    }
    AttachmentMoved(s, c, ReceivedUp(conn, next));
  }

  lemma TakeAckKeepsOutput(s: State, c: nat)
    requires OutputInv(s) && AttachCan(s, c, TakeFrame) && s.conns[c].toServer[0].Ack?
    ensures OutputInv(DoTakeFrame(s, c))
  {
    var conn := s.conns[c];
    var sn := conn.toServer[0].sn;
    var done := conn.exitSn.Some? && sn >= conn.exitSn.value;
    AckIsConsumed(s, c);
    TrimmingKeepsOutput(s, c, sn, if done then Ended else Fetching, s.daemons[conn.daemon].registered && !done);
  }

  lemma TrimmingKeepsOutput(s: State, c: nat, sn: nat, next: AttachPhase, registered: bool)
    requires OutputInv(s) && c < |s.conns| && s.conns[c].phase.Waiting? && s.conns[c].toServer != []
    requires s.conns[c].daemon < |s.daemons| && (next.Ended? || next.Fetching?) && sn <= Consumed(s)
    ensures var d := s.conns[c].daemon;
            OutputInv(SetDaemon(SetConn(s, c, ReceivedUp(s.conns[c], next)), d,
                                s.daemons[d].(log := Trim(s.daemons[d].log, sn), registered := registered)))
  {
    ReceivedKeepsOutput(s, c, next);
    TrimKeepsOutput(SetConn(s, c, ReceivedUp(s.conns[c], next)), s.conns[c].daemon, sn, registered);
  }

  lemma AckIsConsumed(s: State, c: nat)
    requires ConnsOk(s) && c < |s.conns| && s.conns[c].toServer != [] && s.conns[c].toServer[0].Ack?
    ensures s.conns[c].toServer[0].sn <= Consumed(s)
  {
    assert s.conns[c].toServer[0] in s.conns[c].toServer;
    assert ConnOk(s.history, Consumed(s), s.task.lastClient, s.daemons, s.conns[c]);
  }

  lemma FetchKeepsOutput(s: State, c: nat)
    requires OutputInv(s) && AttachCan(s, c, Fetch)
    ensures OutputInv(SetConn(s, c, Fetched(s.conns[c], s.daemons[s.conns[c].daemon].log)))
  {
    var conn := s.conns[c];
    var log := s.daemons[conn.daemon].log;
    FetchedConn(s.history, Consumed(s), s.task.lastClient, s.daemons, conn,
                conn.daemon == Last(s) && s.mode.Notifying?);
    if HasConn(s.phase) && s.phase.conn == c {
      FetchedStream(s.history, s.client.lastServer, log, conn);
    }
    AttachmentMoved(s, c, Fetched(conn, log));
  }

  lemma SendKeepsOutput(s: State, c: nat)
    requires OutputInv(s) && AttachCan(s, c, Send)
    ensures OutputInv(SetConn(s, c, SentOne(s.conns[c])))
  {
    var conn := s.conns[c];
    SentConn(s.history, Consumed(s), s.task.lastClient, s.daemons, conn);
    if HasConn(s.phase) && s.phase.conn == c {
      SentStream(s.history, s.client.lastServer, conn);
    }
    AttachmentMoved(s, c, SentOne(conn));
  }

  lemma AckStdinKeepsOutput(s: State, c: nat)
    requires OutputInv(s) && AttachCan(s, c, AckStdin)
    ensures OutputInv(SetConn(s, c, StdinAcked(s.conns[c], s.daemons[s.conns[c].daemon].stdinApplied)))
  {
    var conn := s.conns[c];
    var n := s.daemons[conn.daemon].stdinApplied;
    AttachedFacts(s, c);
    AckedConn(s.history, Consumed(s), s.task.lastClient, s.daemons, conn, n);
    AckedCurrent(s, c, n);
    AttachmentMoved(s, c, StdinAcked(conn, n));
  }

  /** What the invariant says of one attached connection. */
  lemma AttachedFacts(s: State, c: nat)
    requires OutputInv(s) && c < |s.conns| && !s.conns[c].phase.Requested?
    ensures ConnOk(s.history, Consumed(s), s.task.lastClient, s.daemons, s.conns[c])
    ensures s.conns[c].daemon < |s.daemons|
    ensures s.daemons[s.conns[c].daemon].stdinApplied <= s.task.lastClient
    ensures HasConn(s.phase) && s.phase.conn == c ==> StreamOk(s.history, s.client.lastServer, s.conns[c])
  {
  }

  lemma AckedCurrent(s: State, c: nat, n: nat)
    requires CurrentOk(s) && c < |s.conns| && s.conns[c].phase == Sending([])
    ensures HasConn(s.phase) && s.phase.conn == c ==>
              StreamOk(s.history, s.client.lastServer, StdinAcked(s.conns[c], n))
  {
    if HasConn(s.phase) && s.phase.conn == c {
      AckedStream(s.history, s.client.lastServer, s.conns[c], n);
    }
  }

  lemma LoopKeepsOutput(s: State, c: nat, next: AttachPhase)
    requires OutputInv(s) && c < |s.conns| && !s.conns[c].phase.Requested?
    requires next.Fetching? || next.Ended?
    ensures OutputInv(SetConn(s, c, s.conns[c].(phase := next)))
    ensures s.conns[c].daemon < |s.daemons| ==>
              OutputInv(SetConn(s, c, Woken(s.conns[c], s.daemons[s.conns[c].daemon].log)))
  {
    var conn := s.conns[c];
    TurnedConn(s.history, Consumed(s), s.task.lastClient, s.daemons, conn, next);
    if HasConn(s.phase) && s.phase.conn == c {
      TurnedStream(s.history, s.client.lastServer, conn, s.daemons[conn.daemon].log, next);
    }
    AttachmentMoved(s, c, conn.(phase := next));
    AttachmentMoved(s, c, Woken(conn, s.daemons[conn.daemon].log));
  }

  lemma AcceptKeepsOutput(s: State, c: nat, d: nat)
    requires OutputInv(s) && c < |s.conns| && s.conns[c].phase.Requested? && d < |s.daemons|
    ensures OutputInv(SetConn(s, c, Attached(s.conns[c], d, s.daemons[d].log)))
    ensures OutputInv(SetConn(s, c, Refused(s.conns[c], d)))
  {
    var conn := s.conns[c];
    AcceptedConn(s.history, Consumed(s), s.task.lastClient, s.daemons, conn, d);
    if conn.lastSeen <= |s.history| {
      AcceptedStream(s.history, conn, d, s.daemons[d].log);
    }
    AttachmentMoved(s, c, Attached(conn, d, s.daemons[d].log));
    AttachmentMoved(s, c, Refused(conn, d));
  }

  lemma AttachStepKeepsOutput(s: State, c: nat, l: AttachLabel)
    requires OutputInv(s) && AttachCan(s, c, l)
    ensures OutputInv(AttachStep(s, c, l))
  {
    assert ConnOk(s.history, Consumed(s), s.task.lastClient, s.daemons, s.conns[c]);
    match l {
      case Accept(d) => AcceptKeepsOutput(s, c, d);
      case Refuse(d) => AcceptKeepsOutput(s, c, d);
      case Fetch => FetchKeepsOutput(s, c);
      case Send => SendKeepsOutput(s, c);
      case AckStdin => AckStdinKeepsOutput(s, c);
      case Changed => LoopKeepsOutput(s, c, Fetching);
      case TakeFrame => TakeFrameKeepsOutput(s, c);
      case TakeCopy(m) =>
        LoopKeepsOutput(s, c, Fetching);
        DeliverKeepsOutput(SetConn(s, c, Looping(s.conns[c])), s.conns[c].daemon, FromDatagram(m));
      case Tick => LoopKeepsOutput(s, c, Fetching);
      case Close => LoopKeepsOutput(s, c, Ended);
    }
  }

  lemma TaskStepKeepsOutput(s: State, l: TaskLabel)
    requires OutputInv(s) && TaskCan(s, l)
    ensures OutputInv(TaskStep(s, l))
  {
    match l {
      case ReadChild(ev) => ReadKeepsOutput(s, ev);
      case Notify => NotifyKeepsOutput(s);
      case TakeInput(written) => TakeInputKeepsOutput(s, written);
      case LogExit => ExitKeepsOutput(s);
    }
  }

  lemma DaemonStepKeepsOutput(s: State, l: DaemonLabel)
    requires OutputInv(s) && DaemonCan(s, l)
    ensures OutputInv(DaemonStep(s, l))
  {
    match l {
      case RequestHandover => QueueIsNoOutput(s, s.inbound + [HandoverRequest]);
      case Collect => CollectKeepsOutput(s);
      case RestoreRecord => RestoreKeepsOutput(s);
      case ShutDown => ShutDownKeepsOutput(s);
      case Expire(d) =>
        RegistryIsNoOutput(s, d);
        DeliverKeepsOutput(SetDaemon(s, d, s.daemons[d].(registered := false)), d, AbortRequest);
    }
  }

  // ------------------------------------------------------------------------
  // The client

  lemma ConnectKeepsOutput(s: State, quic: bool)
    requires OutputInv(s) && s.phase.Idle?
    ensures OutputInv(DoConnect(s, quic))
  {
    var t := DoConnect(s, quic);
    SameTask(s, t);
    SameDaemons(s, t);
    SameClient(s, t);
    OneConnAdded(s, t, NewConnection(quic, s.client.lastServer));
  }

  lemma PhaseKeepsOutput(s: State, p: Phase)
    requires OutputInv(s) && !s.phase.Done? && !p.Done?
    requires !HasConn(p) || (p.Live? && s.phase.Resending? && p.conn == s.phase.conn)
    ensures OutputInv(s.(phase := p))
  {
    OnlyClientMoved(s, s.(phase := p));
  }

  lemma PutUpConn(h: seq<ChannelMessage>, n: nat, lc: nat, ds: seq<Daemon>, conn: Connection, m: ChannelMessage, up: set<ChannelMessage>)
    requires ConnOk(h, n, lc, ds, conn) && !conn.phase.Requested?
    requires (m.Ack? && m.sn <= n) || IsInput(m)
    ensures ConnOk(h, n, lc, ds, PutUp(conn, m).(upCopies := up))
  {
  }

  /** The client puts a frame on the stream and moves on. */
  lemma PutUpKeepsOutput(s: State, t: State, m: ChannelMessage, up: set<ChannelMessage>)
    requires OutputInv(s) && ClientOn(s) && !s.phase.Connecting?
    requires t.phase == s.phase || (t.phase.Resending? && s.phase.Resending? && t.phase.conn == s.phase.conn)
    requires SessionSame(s, t)
    requires t.conns == s.conns[s.phase.conn := PutUp(CurrentConn(s), m).(upCopies := up)]
    requires (m.Ack? && m.sn <= Consumed(s)) || IsInput(m)
    ensures OutputInv(t)
  {
    var conn := PutUp(CurrentConn(s), m).(upCopies := up);
    CurrentIsAttached(s);
    PutUpConn(s.history, Consumed(s), s.task.lastClient, s.daemons, CurrentConn(s), m, up);
    PutUpCurrent(s, t, conn);
    ConnMoved(s, t, s.phase.conn, conn);
  }

  lemma CurrentIsAttached(s: State)
    requires CurrentOk(s) && ConnsOk(s) && ClientOn(s) && !s.phase.Connecting?
    ensures !CurrentConn(s).phase.Requested?
    ensures ConnOk(s.history, Consumed(s), s.task.lastClient, s.daemons, CurrentConn(s))
  {
  }

  /** What the client sends does not disturb what it reads. */
  lemma PutUpCurrent(s: State, t: State, conn: Connection)
    requires CurrentOk(s) && ClientOn(s) && !s.phase.Connecting?
    requires t.phase == s.phase || (t.phase.Resending? && s.phase.Resending? && t.phase.conn == s.phase.conn)
    requires t.history == s.history && t.client.lastServer == s.client.lastServer
    requires t.conns == s.conns[s.phase.conn := conn]
    requires conn == CurrentConn(s).(toServer := conn.toServer, upCopies := conn.upCopies)
    ensures CurrentOk(t)
  {
  }

  lemma ReceivedDownConn(h: seq<ChannelMessage>, n: nat, lc: nat, ds: seq<Daemon>, conn: Connection)
    requires ConnOk(h, n, lc, ds, conn) && conn.toClient != []
    ensures ConnOk(h, n, lc, ds, ReceivedDown(conn))
  {
  }

  /** Taking a frame that carries no new output off the stream. */
  lemma ReceivedDownStream(h: seq<ChannelMessage>, last: nat, conn: Connection)
    requires StreamOk(h, last, conn) && conn.toClient != []
    requires IsOutput(conn.toClient[0]) ==> conn.sentUpTo - |Outputs(conn.toClient)| < last
    ensures StreamOk(h, last, ReceivedDown(conn))
  {
    OutputsOfRest(conn.toClient);
    if IsOutput(conn.toClient[0]) {
      InFlightLess(h, last, conn.sentUpTo, Outputs(conn.toClient));
    }
    InFlightIsEnough(h, last, conn, ReceivedDown(conn));
  }

  lemma InFlightIsEnough(h: seq<ChannelMessage>, last: nat, conn: Connection, next: Connection)
    requires StreamOk(h, last, conn) && next == conn.(toClient := next.toClient)
    requires InFlight(h, last, conn.sentUpTo, Outputs(next.toClient))
    ensures StreamOk(h, last, next)
  {
  }

  /** Output frames in flight that end at the cursor and reach back to `last`. */
  ghost predicate InFlight(h: seq<ChannelMessage>, last: nat, sentUpTo: nat, outs: seq<ChannelMessage>) {
    |outs| <= sentUpTo && sentUpTo - |outs| <= last && PartOf(h, sentUpTo - |outs|, outs)
  }

  lemma InFlightLess(h: seq<ChannelMessage>, last: nat, sentUpTo: nat, outs: seq<ChannelMessage>)
    requires InFlight(h, last, sentUpTo, outs) && outs != [] && sentUpTo - |outs| < last
    ensures InFlight(h, last, sentUpTo, outs[1..])
  {
    PartOneLess(h, sentUpTo - |outs|, outs);
  }

  lemma OutputsOfRest(q: seq<ChannelMessage>)
    requires q != []
    ensures if IsOutput(q[0]) then Outputs(q) != [] && Outputs(q[1..]) == Outputs(q)[1..]
            else Outputs(q[1..]) == Outputs(q)
  {
  }

  lemma StartedKeepsOutput(s: State)
    requires OutputInv(s) && ClientCan(s, RecvStarted)
    ensures OutputInv(DoRecvStarted(s))
  {
    var conn := CurrentConn(s);
    ReceivedDownConn(s.history, Consumed(s), s.task.lastClient, s.daemons, conn);
    ReceivedDownStream(s.history, s.client.lastServer, conn);
    ConnMoved(s, DoRecvStarted(s), s.phase.conn, ReceivedDown(conn));
  }

  // Consuming output

  /** The client has written `m`, the next message. */
  function Written(c: Client, m: ChannelMessage): Client
    requires m.Stdout? || m.Stderr?
  {
    if m.Stdout? then c.(lastServer := m.sn, out := c.out + m.data)
    else c.(lastServer := m.sn, err := c.err + m.data)
  }

  ghost predicate IsFresh(s: State, m: ChannelMessage) {
    && InHistory(s.history, m) && !m.Exit?
    && m.sn == s.client.lastServer + 1
    && !s.phase.Done?
  }

  lemma WrittenClient(s: State, m: ChannelMessage)
    requires ClientOk(s) && IsFresh(s, m)
    ensures ClientOk(s.(client := Written(s.client, m)))
  {
    WrittenBytes(s.history, s.client, m);
  }

  lemma WrittenBytes(h: seq<ChannelMessage>, client: Client, m: ChannelMessage)
    requires InHistory(h, m) && !m.Exit? && m.sn == client.lastServer + 1
    requires client.out == StdoutBytes(h[..client.lastServer]) && client.err == StderrBytes(h[..client.lastServer])
    ensures var c := Written(client, m);
            && c.lastServer == m.sn && h[m.sn - 1] == m
            && c.out == StdoutBytes(h[..m.sn]) && c.err == StderrBytes(h[..m.sn])
  {
    BytesUpToNext(h, client.lastServer, m);
  }

  lemma BytesUpToNext(h: seq<ChannelMessage>, n: nat, m: ChannelMessage)
    requires n < |h| && h[n] == m && IsOutput(m) && !m.Exit?
    ensures StdoutBytes(h[..n + 1]) == if m.Stdout? then StdoutBytes(h[..n]) + m.data else StdoutBytes(h[..n])
    ensures StderrBytes(h[..n + 1]) == if m.Stderr? then StderrBytes(h[..n]) + m.data else StderrBytes(h[..n])
  {
    assert h[..n + 1] == h[..n] + [m];
    BytesOfOneMore(h[..n], m);
  }

  lemma WrittenTask(s: State, m: ChannelMessage)
    requires TaskOk(s) && IsFresh(s, m)
    ensures TaskOk(s.(client := Written(s.client, m)))
  {
  }

  lemma WrittenDaemons(s: State, m: ChannelMessage)
    requires DaemonsOk(s) && IsFresh(s, m)
    ensures DaemonsOk(s.(client := Written(s.client, m)))
  {
  }

  lemma WrittenKeepsOutput(s: State, m: ChannelMessage)
    requires OutputInv(s) && IsFresh(s, m)
    requires s.phase.Live? && m.sn <= CurrentConn(s).sentUpTo
    ensures OutputInv(s.(client := Written(s.client, m)))
  {
    WrittenTask(s, m);
    WrittenDaemons(s, m);
    WrittenClient(s, m);
    GrownConns(s, s.(client := Written(s.client, m)));
  }

  lemma PopKeepsOutput(s: State)
    requires OutputInv(s) && s.phase.Live? && ClientOn(s) && CurrentConn(s).toClient != []
    requires var c := CurrentConn(s);
             IsOutput(c.toClient[0]) ==> c.sentUpTo - |Outputs(c.toClient)| < s.client.lastServer
    ensures OutputInv(SetConn(s, s.phase.conn, ReceivedDown(CurrentConn(s))))
  {
    var conn := CurrentConn(s);
    ReceivedDownConn(s.history, Consumed(s), s.task.lastClient, s.daemons, conn);
    ReceivedDownStream(s.history, s.client.lastServer, conn);
    AttachmentMoved(s, s.phase.conn, ReceivedDown(conn));
  }

  lemma AckKeepsOutput(s: State, sn: nat, ackOk: bool)
    requires OutputInv(s) && s.phase.Live? && ClientOn(s) && sn <= s.client.lastServer
    ensures OutputInv(SendAckOf(s, sn, ackOk))
  {
    if ackOk {
      PutUpKeepsOutput(s, SendAckOf(s, sn, ackOk), Ack(sn), CurrentConn(s).upCopies);
    }
  }

  /** The next frame's position in the history. */
  lemma HeadIsHistory(h: seq<ChannelMessage>, last: nat, conn: Connection)
    requires StreamOk(h, last, conn) && HistoryOk(h) && conn.toClient != [] && IsOutput(conn.toClient[0])
    ensures var p := conn.sentUpTo - |Outputs(conn.toClient)|;
            0 <= p < conn.sentUpTo && conn.toClient[0] == h[p] && conn.toClient[0].sn == p + 1 <= last + 1
  {
    assert Outputs(conn.toClient)[0] == conn.toClient[0];
  }

  /** What a fresh output frame does, as three smaller moves. */
  lemma FreshFrameIs(s: State, m: ChannelMessage, ackOk: bool)
    requires ClientCan(s, RecvFrame(ackOk)) && m == CurrentConn(s).toClient[0]
    requires (m.Stdout? || m.Stderr?) && m.sn > s.client.lastServer
    ensures DoRecvFrame(s, ackOk)
         == SendAckOf(SetConn(s.(client := Written(s.client, m)), s.phase.conn, ReceivedDown(CurrentConn(s))), m.sn, ackOk)
  {
  }

  /** A frame with nothing new is taken off the stream; a stdin Ack may also
      shorten the resend list. */
  lemma StaleFrameIs(s: State, ackOk: bool)
    requires ClientCan(s, RecvFrame(ackOk))
    requires var m := CurrentConn(s).toClient[0]; !m.Exit? && (IsOutput(m) ==> m.sn <= s.client.lastServer)
    ensures var t := SetConn(s, s.phase.conn, ReceivedDown(CurrentConn(s)));
            DoRecvFrame(s, ackOk) == t.(client := s.client.(sent := DoRecvFrame(s, ackOk).client.sent))
  {
  }

  lemma StaleFrameKeepsOutput(s: State, ackOk: bool)
    requires OutputInv(s) && ClientCan(s, RecvFrame(ackOk))
    requires var m := CurrentConn(s).toClient[0]; !m.Exit? && (IsOutput(m) ==> m.sn <= s.client.lastServer)
    ensures OutputInv(DoRecvFrame(s, ackOk))
  {
    var conn := CurrentConn(s);
    if IsOutput(conn.toClient[0]) {
      HeadIsHistory(s.history, s.client.lastServer, conn);
    }
    PopKeepsOutput(s);
    StaleFrameIs(s, ackOk);
    ResendListIsNoOutput(SetConn(s, s.phase.conn, ReceivedDown(conn)), DoRecvFrame(s, ackOk).client.sent);
  }

  lemma ResendListIsNoOutput(s: State, sent: seq<ChannelMessage>)
    requires OutputInv(s)
    ensures OutputInv(s.(client := s.client.(sent := sent)))
  {
    OnlyClientMoved(s, s.(client := s.client.(sent := sent)));
  }

  lemma FreshIsWritten(s: State, m: ChannelMessage)
    requires OutputInv(s) && s.phase.Live? && ClientOn(s) && CurrentConn(s).toClient != []
    requires m == CurrentConn(s).toClient[0] && !m.Exit? && IsOutput(m) && m.sn > s.client.lastServer
    ensures var s1 := s.(client := Written(s.client, m));
            OutputInv(SetConn(s1, s.phase.conn, ReceivedDown(CurrentConn(s1))))
  {
    HeadIsHistory(s.history, s.client.lastServer, CurrentConn(s));
    WrittenKeepsOutput(s, m);
    PopKeepsOutput(s.(client := Written(s.client, m)));
  }

  lemma FreshFrameKeepsOutput(s: State, m: ChannelMessage, ackOk: bool)
    requires ClientCan(s, RecvFrame(ackOk))
    requires m == CurrentConn(s).toClient[0] && !m.Exit? && IsOutput(m) && m.sn > s.client.lastServer
    requires OutputInv(s)
    ensures OutputInv(DoRecvFrame(s, ackOk))
  {
    FreshIsWritten(s, m);
    var s1 := s.(client := Written(s.client, m));
    AckKeepsOutput(SetConn(s1, s.phase.conn, ReceivedDown(CurrentConn(s1))), m.sn, ackOk);
    FreshFrameIs(s, m, ackOk);
  }

  lemma CopyKeepsOutput(s: State, m: ChannelMessage, ackOk: bool)
    requires OutputInv(s) && ClientCan(s, RecvCopy(m, ackOk))
    ensures OutputInv(React(s, m, false, ackOk))
  {
    CopyIsOutput(s, m);
    CopyIs(s, m, ackOk);
    if m.sn == s.client.lastServer + 1 {
      WrittenKeepsOutput(s, m);
      AckKeepsOutput(s.(client := Written(s.client, m)), m.sn, ackOk);
    }
  }

  lemma CopyIsOutput(s: State, m: ChannelMessage)
    requires ConnsOk(s) && CurrentOk(s) && ClientCan(s, RecvCopy(m, false))
    ensures InHistory(s.history, m) && !m.Exit? && !CurrentConn(s).phase.Requested?
    ensures m.sn <= CurrentConn(s).sentUpTo
  {
    assert ConnOk(s.history, Consumed(s), s.task.lastClient, s.daemons, CurrentConn(s));
  }

  lemma CopyIs(s: State, m: ChannelMessage, ackOk: bool)
    requires ClientCan(s, RecvCopy(m, ackOk)) && (m.Stdout? || m.Stderr?)
    ensures React(s, m, false, ackOk)
         == if m.sn == s.client.lastServer + 1 then SendAckOf(s.(client := Written(s.client, m)), m.sn, ackOk) else s
  {
  }

  // Returning the exit code

  /** An Exit frame can only be met when all output before it was written. */
  lemma ExitFrameIsLast(s: State)
    requires OutputInv(s) && s.phase.Live? && ClientOn(s)
    requires CurrentConn(s).toClient != [] && CurrentConn(s).toClient[0].Exit?
    ensures HasExit(s.history) && CurrentConn(s).toClient[0] == s.history[|s.history| - 1]
    ensures s.client.lastServer == |s.history| - 1
  {
    HeadIsHistory(s.history, s.client.lastServer, CurrentConn(s));
  }

  lemma DoneTask(s: State, code: int)
    requires TaskOk(s) && !s.phase.Done? && s.client.lastServer <= |s.history|
    ensures TaskOk(s.(phase := Done(code)))
  {
  }

  lemma DoneDaemons(s: State, code: int)
    requires DaemonsOk(s) && !s.phase.Done? && s.client.lastServer <= |s.history|
    ensures DaemonsOk(s.(phase := Done(code)))
  {
  }

  lemma DoneClient(s: State, code: int)
    requires ClientOk(s) && HasExit(s.history)
    requires s.client.lastServer == |s.history| - 1 && code == s.history[|s.history| - 1].code
    ensures ClientOk(s.(phase := Done(code))) && CurrentOk(s.(phase := Done(code)))
  {
  }

  lemma DoneConns(s: State, code: int)
    requires ConnsOk(s) && !s.phase.Done? && s.client.lastServer <= |s.history|
    ensures ConnsOk(s.(phase := Done(code)))
  {
    GrownConns(s, s.(phase := Done(code)));
  }

  lemma ExitFrameIs(s: State, ackOk: bool)
    requires ClientCan(s, RecvFrame(ackOk)) && CurrentConn(s).toClient[0].Exit?
    ensures var m := CurrentConn(s).toClient[0];
            DoRecvFrame(s, ackOk)
              == SetConn(s.(phase := Done(m.code)), s.phase.conn, Returned(CurrentConn(s), m.sn, ackOk))
  {
  }

  lemma ExitFrameKeepsOutput(s: State, ackOk: bool)
    requires OutputInv(s) && ClientCan(s, RecvFrame(ackOk)) && CurrentConn(s).toClient[0].Exit?
    ensures OutputInv(DoRecvFrame(s, ackOk))
  {
    ExitFrameIsLast(s);
    var m := CurrentConn(s).toClient[0];
    DoneTask(s, m.code);
    DoneDaemons(s, m.code);
    DoneClient(s, m.code);
    DoneConns(s, m.code);
    ReturnedKeepsOutput(s.(phase := Done(m.code)), s.phase.conn, m, ackOk);
    ExitFrameIs(s, ackOk);
  }

  lemma ReturnedKeepsOutput(s: State, c: nat, m: ChannelMessage, ackOk: bool)
    requires OutputInv(s) && s.phase.Done? && c < |s.conns| && s.conns[c].toClient != []
    requires m.Exit? && m.sn <= |s.history|
    ensures OutputInv(SetConn(s, c, Returned(s.conns[c], m.sn, ackOk)))
  {
    assert ConnOk(s.history, Consumed(s), s.task.lastClient, s.daemons, s.conns[c]);
    ReturnedConn(s.history, s.task.lastClient, s.daemons, s.conns[c], m.sn, ackOk);
    AttachmentMoved(s, c, Returned(s.conns[c], m.sn, ackOk));
  }

  /** A connection on which the Exit was read and perhaps acknowledged. */
  function Returned(conn: Connection, sn: nat, ackOk: bool): Connection
    requires conn.toClient != []
  {
    if ackOk then PutUp(ReceivedDown(conn), Ack(sn)) else ReceivedDown(conn)
  }

  lemma ReturnedConn(h: seq<ChannelMessage>, lc: nat, ds: seq<Daemon>, conn: Connection, sn: nat, ackOk: bool)
    requires ConnOk(h, |h|, lc, ds, conn) && conn.toClient != [] && sn <= |h|
    ensures ConnOk(h, |h|, lc, ds, Returned(conn, sn, ackOk))
  {
    var popped := ReceivedDown(conn);
    ReceivedDownConn(h, |h|, lc, ds, conn);
    PutUpConn(h, |h|, lc, ds, popped, Ack(sn), popped.upCopies);
  }

  lemma ResendKeepsOutput(s: State, t: State)
    requires ClientCan(s, Resend) && IsInput(s.client.sent[s.phase.next]) && t == DoResend(s)
    requires OutputInv(s)
    ensures OutputInv(t)
  {
    PutUpKeepsOutput(s, t, s.client.sent[s.phase.next], CurrentConn(s).upCopies);
  }

  lemma StdinKeepsOutput(s: State, data: Bytes)
    requires OutputInv(s) && ClientCan(s, ReadStdin(data, true))
    ensures OutputInv(DoReadStdin(s, data, true))
  {
    var m, conn := NextInput(s.client, data), CurrentConn(s);
    PutUpKeepsOutput(s, DoReadStdin(s, data, true), m, conn.upCopies + Copies(conn, m));
  }

  lemma FailedStdinKeepsOutput(s: State, data: Bytes)
    requires OutputInv(s) && ClientCan(s, ReadStdin(data, false))
    ensures OutputInv(DoReadStdin(s, data, false))
  {
    OnlyClientMoved(s, DoReadStdin(s, data, false));
  }

  lemma RecvFrameKeepsOutput(s: State, ackOk: bool)
    requires OutputInv(s) && ClientCan(s, RecvFrame(ackOk))
    ensures OutputInv(DoRecvFrame(s, ackOk))
  {
    var m := CurrentConn(s).toClient[0];
    if m.Exit? {
      ExitFrameKeepsOutput(s, ackOk);
    } else if IsOutput(m) && m.sn > s.client.lastServer {
      FreshFrameKeepsOutput(s, m, ackOk);
    } else {
      StaleFrameKeepsOutput(s, ackOk);
    }
  }

  lemma FailLateKeepsOutput(s: State, data: Bytes)
    requires OutputInv(s) && ClientCan(s, FailLate(data))
    ensures OutputInv(DoFailLate(s, data))
  {
    UnkeptKeepsOutput(s, data, PutUnkept(s, data));
    PhaseKeepsOutput(PutUnkept(s, data), AfterLoss(s));
  }

  lemma UnkeptKeepsOutput(s: State, data: Bytes, t: State)
    requires ClientCan(s, FailLate(data)) && t == PutUnkept(s, data)
    requires OutputInv(s)
    ensures OutputInv(t) && t.phase == s.phase
  {
    UnkeptIs(s, data, t);
    PutUpKeepsOutput(s, t, NextInput(s.client, data), CurrentConn(s).upCopies);
  }

  lemma UnkeptIs(s: State, data: Bytes, t: State)
    requires ClientCan(s, FailLate(data)) && t == PutUnkept(s, data)
    ensures SessionSame(s, t) && t.phase == s.phase && IsInput(NextInput(s.client, data))
    ensures t.conns == s.conns[s.phase.conn :=
                       PutUp(CurrentConn(s), NextInput(s.client, data)).(upCopies := CurrentConn(s).upCopies)]
  {
  }

  lemma ClientStepKeepsOutput(s: State, l: ClientLabel)
    requires OutputInv(s) && ClientCan(s, l)
    requires forall m :: m in s.client.sent ==> IsInput(m)
    ensures OutputInv(ClientStep(s, l))
  {
    match l {
      case Connect(quic) => ConnectKeepsOutput(s, quic);
      case RecvStarted => StartedKeepsOutput(s);
      case RecvDenied => PhaseKeepsOutput(s, Failed);
      case ConnectLost => PhaseKeepsOutput(s, AfterLoss(s));
      case Resend =>
        assert s.client.sent[s.phase.next] in s.client.sent;
        ResendKeepsOutput(s, DoResend(s));
      case ResendDone => PhaseKeepsOutput(s, Live(s.phase.conn));
      case Drop => PhaseKeepsOutput(s, AfterLoss(s));
      case ReadStdin(data, sendOk) =>
        if sendOk { StdinKeepsOutput(s, data); } else { FailedStdinKeepsOutput(s, data); }
      case FailLate(data) => FailLateKeepsOutput(s, data);
      case RecvFrame(ackOk) => RecvFrameKeepsOutput(s, ackOk);
      case RecvCopy(m, ackOk) => CopyKeepsOutput(s, m, ackOk);
    }
  }

  /** The output half of the invariant survives every step. */
  lemma StepKeepsOutput(s: State, l: Label)
    requires OutputInv(s) && Enabled(s, l)
    requires forall m :: m in s.client.sent ==> IsInput(m)
    ensures OutputInv(Step(s, l))
  {
    match l {
      case ByClient(cl) => ClientStepKeepsOutput(s, cl);
      case ByAttachment(c, al) => AttachStepKeepsOutput(s, c, al);
      case ByTask(tl) => TaskStepKeepsOutput(s, tl);
      case ByDaemon(dl) => DaemonStepKeepsOutput(s, dl);
    }
  }
}
