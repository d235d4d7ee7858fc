/** What the resume protocol guarantees in every state that any run reaches. */
module ResumeTheorems {
  import opened Proto
  import opened OutboundLog
  import opened SessionTask
  import opened ExecClient
  import opened ResumeModel
  import opened ResumeInvariant
  import ResumeOutput
  import ResumeInput

  lemma StepKeepsInv(s: State, l: Label)
    requires Inv(s) && Enabled(s, l)
    ensures Inv(Step(s, l))
  {
    ResumeOutput.StepKeepsOutput(s, l);
    ResumeInput.StepKeepsInput(s, l);
  }

  lemma {:induction false} BehaviorKeepsInv(b: seq<State>, i: nat)
    requires Behavior(b) && i < |b|
    ensures Inv(b[i])
  {
    if i == 0 {
      InitOutput(b[0]);
      InitInput(b[0]);
    } else {
      BehaviorKeepsInv(b, i - 1);
      assert Next(b[i - 1], b[i - 1 + 1]);
      var l :| Enabled(b[i - 1], l) && b[i] == Step(b[i - 1], l);
      StepKeepsInv(b[i - 1], l);
    }
  }

  lemma ReachableInv(s: State)
    requires Reachable(s)
    ensures Inv(s)
  {
    var b :| Behavior(b) && b[|b| - 1] == s;
    BehaviorKeepsInv(b, |b| - 1);
  }

  // ------------------------------------------------------------------------
  // Output

  lemma {:induction false} BytesOfPrefix(ms: seq<ChannelMessage>, n: nat)
    requires n <= |ms|
    ensures StdoutBytes(ms[..n]) <= StdoutBytes(ms)
    ensures StderrBytes(ms[..n]) <= StderrBytes(ms)
    ensures StdinBytes(ms[..n]) <= StdinBytes(ms)
  {
    if n == |ms| {
      assert ms[..n] == ms;
    } else {
      var init := ms[..|ms| - 1];
      BytesOfPrefix(init, n);
      assert init[..n] == ms[..n];
    }
  }

  /** What the client has written is exactly the logged output up to its
      counter, and so a prefix of what the child produced. */
  ghost predicate OutputExact(s: State) {
    && s.client.lastServer <= |s.history|
    && s.client.out == StdoutBytes(s.history[..s.client.lastServer]) <= s.childOut
    && s.client.err == StderrBytes(s.history[..s.client.lastServer]) <= s.childErr
  }

  lemma OutputFromInv(s: State)
    requires TaskOk(s) && ClientOk(s)
    ensures OutputExact(s)
  {
    BytesOfPrefix(s.history, s.client.lastServer);
  }

  /** Nothing is lost, repeated or reordered on the way to the client,
      whatever happened to connections and daemons. */
  lemma OutputIsExact(s: State)
    requires Reachable(s)
    ensures OutputExact(s)
  {
    ReachableInv(s);
    OutputFromInv(s);
  }

  /** The code is the child's, both its streams have ended, and all their
      bytes have been written by the client. */
  ghost predicate ExitComplete(s: State, code: int) {
    && s.client.out == s.childOut && s.client.err == s.childErr
    && s.outEof && s.errEof
    && s.childCode == Some(code)
    && HasExit(s.history) && s.history[|s.history| - 1].code == code
  }

  lemma ExitFromInv(s: State)
    requires TaskOk(s) && ClientOk(s) && s.phase.Done?
    ensures ExitComplete(s, s.phase.code)
  {
    var n := |s.history| - 1;
    assert s.history == s.history[..n] + [s.history[n]];
    BytesOfOneMore(s.history[..n], s.history[n]);
  }

  /** A code is returned only when everything before it was delivered, although
      the client does not check the number of an Exit. */
  lemma ExitIsComplete(s: State)
    requires Reachable(s) && s.phase.Done?
    ensures ExitComplete(s, s.phase.code)
  {
    ReachableInv(s);
    ExitFromInv(s);
  }

  ghost predicate AcksBehind(s: State) {
    forall c, m :: 0 <= c < |s.conns| && m in s.conns[c].toServer && m.Ack? ==> m.sn <= s.client.lastServer
  }

  /** A log from which a resume gets all the client has not consumed. */
  ghost predicate CanReplay(s: State, log: LogState) {
    && log.trimmed <= s.client.lastServer <= |s.history|
    && After(log, s.client.lastServer) == s.history[s.client.lastServer..]
  }

  /** Acknowledgements never run ahead of the client, no daemon has trimmed
      past it, and the daemon that would serve a resume, now or after a
      restart, has every entry it needs. */
  ghost predicate TrimSafe(s: State) {
    && s.daemons != []
    && AcksBehind(s)
    && (forall d :: 0 <= d < |s.daemons| ==> s.daemons[d].log.trimmed <= s.client.lastServer)
    && CanReplay(s, s.daemons[Last(s)].log)
    && (s.mode.HandedOver? ==> CanReplay(s, NextDaemon(s.mode.record).log))
  }

  lemma AcksFromInv(s: State)
    requires ConnsOk(s) && !s.phase.Done?
    ensures AcksBehind(s)
  {
    forall c, m | 0 <= c < |s.conns| && m in s.conns[c].toServer && m.Ack?
      ensures m.sn <= s.client.lastServer
    {
      assert ConnOk(s.history, Consumed(s), s.task.lastClient, s.daemons, s.conns[c]);
    }
  }

  lemma ReplayFromInv(s: State)
    requires DaemonsOk(s) && ClientOk(s) && !s.phase.Done?
    ensures CanReplay(s, s.daemons[Last(s)].log)
  {
    AfterIsTheRest(s.daemons[Last(s)].log, s.history, s.client.lastServer);
  }

  lemma AfterIsTheRest(log: LogState, history: seq<ChannelMessage>, sn: nat)
    requires HoldsTailOf(log, history) && log.End() == |history| && log.trimmed <= sn <= |history|
    ensures After(log, sn) == history[sn..]
  {
    AfterIsHistory(log, history, sn);
  }

  lemma RestoreReplays(s: State)
    requires s.mode.HandedOver? && RecordOk(s, s.mode.record) && ClientOk(s) && !s.phase.Done?
    ensures CanReplay(s, NextDaemon(s.mode.record).log)
  {
    AfterIsTheRest(Restore(s.mode.record.trimmed, s.mode.record.buffer), s.history, s.client.lastServer);
  }

  lemma TrimFromInv(s: State)
    requires OutputInv(s) && !s.phase.Done?
    ensures TrimSafe(s)
  {
    AcksFromInv(s);
    ReplayFromInv(s);
    if s.mode.HandedOver? { RestoreReplays(s); }
    forall d | 0 <= d < |s.daemons|
      ensures s.daemons[d].log.trimmed <= s.client.lastServer
    {
      assert DaemonOk(s.history, Consumed(s), s.task.lastClient, s.daemons[d], d == |s.daemons| - 1 && s.mode.Notifying?);
    }
  }

  lemma TrimIsSafe(s: State)
    requires Reachable(s) && !s.phase.Done?
    ensures TrimSafe(s)
  {
    ReachableInv(s);
    TrimFromInv(s);
  }

  /** The attachment's cursor counts what it sent: it is never below the trim
      point, the next message of a batch is numbered one above it, and reading
      the log past it gives the rest of the history that daemon knows. */
  ghost predicate CursorCorrect(history: seq<ChannelMessage>, last: nat, c: Connection, log: LogState) {
    && log.trimmed <= last <= c.sentUpTo <= |history|
    && log.End() <= |history|
    && (c.sentUpTo <= log.End() ==> After(log, c.sentUpTo) == history[c.sentUpTo..log.End()])
    && (log.End() < c.sentUpTo ==> After(log, c.sentUpTo) == [])
    && (BatchOf(c.phase) != [] ==> InHistory(history, BatchOf(c.phase)[0]) && BatchOf(c.phase)[0].sn == c.sentUpTo + 1)
  }

  lemma CursorFromStream(history: seq<ChannelMessage>, last: nat, c: Connection, log: LogState)
    requires HistoryOk(history) && StreamOk(history, last, c) && HoldsTailOf(log, history) && log.trimmed <= last
    ensures CursorCorrect(history, last, c, log)
  {
    AfterIsHistory(log, history, c.sentUpTo);
  }

  lemma CursorFromInv(s: State)
    requires OutputInv(s) && HasConn(s.phase)
    ensures s.phase.conn < |s.conns|
    ensures var c := s.conns[s.phase.conn];
            !c.phase.Requested? ==>
              c.daemon < |s.daemons| && CursorCorrect(s.history, s.client.lastServer, c, s.daemons[c.daemon].log)
  {
    var c := s.conns[s.phase.conn];
    assert ConnOk(s.history, Consumed(s), s.task.lastClient, s.daemons, c);
    if !c.phase.Requested? {
      assert DaemonOk(s.history, Consumed(s), s.task.lastClient, s.daemons[c.daemon],
                      c.daemon == |s.daemons| - 1 && s.mode.Notifying?);
      CursorFromStream(s.history, s.client.lastServer, c, s.daemons[c.daemon].log);
    }
  }

  /** On the connection the client reads, from the moment it is attached. */
  lemma CursorIsCorrect(s: State)
    requires Reachable(s) && HasConn(s.phase)
    ensures s.phase.conn < |s.conns|
    ensures var c := s.conns[s.phase.conn];
            !c.phase.Requested? ==>
              c.daemon < |s.daemons| && CursorCorrect(s.history, s.client.lastServer, c, s.daemons[c.daemon].log)
  {
    ReachableInv(s);
    CursorFromInv(s);
  }

  lemma ClientTestFromInv(s: State)
    requires HistoryOk(s.history) && CurrentOk(s) && s.phase.Live? && ClientOn(s)
    requires !CurrentConn(s).phase.Requested?
    requires CurrentConn(s).toClient != [] && IsOutput(CurrentConn(s).toClient[0])
    ensures var m := CurrentConn(s).toClient[0];
            InHistory(s.history, m) && m.sn <= s.client.lastServer + 1
  {
    ResumeOutput.HeadIsHistory(s.history, s.client.lastServer, CurrentConn(s));
  }

  /** The client's loose test on stream messages never skips an entry: the
      next output frame is at most one ahead, so the loose and the strict test
      accept the same frames. */
  lemma ClientTestIsStrict(s: State)
    requires Reachable(s) && s.phase.Live? && ClientOn(s)
    requires CurrentConn(s).toClient != [] && IsOutput(CurrentConn(s).toClient[0])
    ensures var m := CurrentConn(s).toClient[0];
            && InHistory(s.history, m) && m.sn <= s.client.lastServer + 1
            && (IsNext(m.sn, s.client.lastServer, true) <==> IsNext(m.sn, s.client.lastServer, false))
  {
    ReachableInv(s);
    ClientTestFromInv(s);
  }

  /** Entry by entry, a daemon's buffer is the history after its trim point. */
  ghost predicate Numbered(history: seq<ChannelMessage>, log: LogState) {
    forall i :: 0 <= i < |log.buffer| ==>
      && InHistory(history, log.buffer[i])
      && log.buffer[i].sn == log.trimmed + i + 1
  }

  ghost predicate ExitIsLast(s: State) {
    forall i :: 0 <= i < |s.history| && s.history[i].Exit? ==>
      i == |s.history| - 1 && s.outEof && s.errEof && !s.mode.Running?
  }

  ghost predicate LogWellFormed(s: State) {
    && (forall d :: 0 <= d < |s.daemons| ==> Numbered(s.history, s.daemons[d].log))
    && s.daemons != [] && s.task.sn == |s.history| == s.daemons[Last(s)].log.End()
    && (!s.mode.Notifying? ==> s.daemons[Last(s)].log.latest == s.task.sn)
    && ExitIsLast(s)
  }

  lemma NumberedFromInv(history: seq<ChannelMessage>, log: LogState)
    requires HistoryOk(history) && HoldsTailOf(log, history)
    ensures Numbered(history, log)
  {
    forall i | 0 <= i < |log.buffer|
      ensures InHistory(history, log.buffer[i]) && log.buffer[i].sn == log.trimmed + i + 1
    {
      assert log.buffer[i] == history[log.trimmed + i];
    }
  }

  lemma LogFromInv(s: State)
    requires TaskOk(s) && DaemonsOk(s)
    ensures LogWellFormed(s)
  {
    forall d | 0 <= d < |s.daemons|
      ensures Numbered(s.history, s.daemons[d].log)
    {
      assert DaemonOk(s.history, Consumed(s), s.task.lastClient, s.daemons[d], d == |s.daemons| - 1 && s.mode.Notifying?);
      NumberedFromInv(s.history, s.daemons[d].log);
    }
  }

  /** Across all daemon instances the log is numbered without gaps; an Exit
      comes once, last, after both streams ended. */
  lemma LogIsWellFormed(s: State)
    requires Reachable(s)
    ensures LogWellFormed(s)
  {
    ReachableInv(s);
    LogFromInv(s);
  }

  /** An attachment that waits has looked at every log entry, or is about to
      be woken: it has an unseen version, or the task is between buffering an
      entry and publishing it.  Once it sent the Exit there is nothing more to
      wait for.  For the connection the client reads, having looked at an
      entry means having sent it. */
  ghost predicate WakesUp(s: State, c: nat)
    requires c < |s.conns| && s.daemons != []
  {
    var conn := s.conns[c];
    && conn.daemon < |s.daemons|
    && var log := s.daemons[conn.daemon].log;
    && (conn.fetched < log.End() && conn.exitSn.None? ==>
          conn.seen != log.version || (conn.daemon == Last(s) && s.mode.Notifying?))
    && (conn.exitSn.Some? ==> conn.fetched == log.End() == |s.history| && !s.mode.Running?)
    && (HasConn(s.phase) && s.phase.conn == c && conn.sentUpTo < log.End() ==> conn.fetched < log.End())
  }

  lemma WakeupFromInv(s: State, c: nat)
    requires OutputInv(s) && c < |s.conns| && s.conns[c].phase.Waiting?
    ensures WakesUp(s, c)
  {
    var conn := s.conns[c];
    assert ConnOk(s.history, Consumed(s), s.task.lastClient, s.daemons, conn);
    assert DaemonOk(s.history, Consumed(s), s.task.lastClient, s.daemons[conn.daemon],
                    conn.daemon == |s.daemons| - 1 && s.mode.Notifying?);
  }

  lemma NoWakeupIsLost(s: State, c: nat)
    requires Reachable(s) && c < |s.conns| && s.conns[c].phase.Waiting?
    ensures s.daemons != [] && WakesUp(s, c)
  {
    ReachableInv(s);
    WakeupFromInv(s, c);
  }

  // Removal

  ghost predicate Removes(s: State, t: State, d: nat) {
    d < |s.daemons| && d < |t.daemons| && s.daemons[d].registered && !t.daemons[d].registered
  }

  lemma AckKeepsRest(s: State, sn: nat, ackOk: bool)
    requires ClientOn(s)
    ensures SendAckOf(s, sn, ackOk).daemons == s.daemons && SendAckOf(s, sn, ackOk).failed == s.failed
  {
  }

  lemma ReactedKeepsRest(s: State, client: Client, reaction: Reaction, ackOk: bool)
    requires ClientOn(s)
    ensures Reacted(s, client, reaction, ackOk).daemons == s.daemons
    ensures Reacted(s, client, reaction, ackOk).failed == s.failed
  {
    match reaction
    case Nothing =>
    case SendAck(sn) => AckKeepsRest(s.(client := client), sn, ackOk);
    case Return(sn, code) => AckKeepsRest(s.(client := client), sn, ackOk);
  }

  lemma ReactKeepsRest(s: State, m: ChannelMessage, reliable: bool, ackOk: bool)
    requires ClientOn(s)
    ensures React(s, m, reliable, ackOk).daemons == s.daemons && React(s, m, reliable, ackOk).failed == s.failed
  {
    var (client, reaction) := OnMessage(s.client, m, reliable);
    ReactedKeepsRest(s, client, reaction, ackOk);
  }

  lemma ClientKeepsRegistry(s: State, l: ClientLabel)
    requires ClientCan(s, l)
    ensures ClientStep(s, l).daemons == s.daemons
  {
    if l.RecvFrame? {
      var conn := ReceivedDown(CurrentConn(s));
      ReactKeepsRest(SetConn(s, s.phase.conn, conn), CurrentConn(s).toClient[0], true, l.ackOk);
    } else if l.RecvCopy? {
      ReactKeepsRest(s, l.m, false, l.ackOk);
    }
  }

  lemma ReadKeepsRegistry(s: State, ev: Event, d: nat)
    requires s.daemons != []
    ensures !Removes(s, DoReadChild(s, ev), d)
  {
  }

  lemma InputKeepsRegistry(s: State, written: bool, d: nat)
    requires s.daemons != [] && s.inbound != []
    ensures !Removes(s, DoTakeInput(s, written), d)
  {
    var s1 := s.(inbound := s.inbound[1..]);
    match s.inbound[0] {
      case FromStream(_, m) => ApplyKeepsRegistry(s1, m, true, written, d);
      case FromDatagram(m) => ApplyKeepsRegistry(s1, m, false, written, d);
      case AbortRequest =>
      case HandoverRequest =>
    }
  }

  lemma ApplyKeepsRegistry(s: State, m: ChannelMessage, reliable: bool, written: bool, d: nat)
    requires s.daemons != []
    ensures !Removes(s, Apply(s, m, reliable, written), d)
  {
  }

  lemma TaskKeepsRegistry(s: State, l: TaskLabel, d: nat)
    requires TaskCan(s, l)
    ensures !Removes(s, TaskStep(s, l), d)
  {
    match l {
      case ReadChild(ev) => ReadKeepsRegistry(s, ev, d);
      case Notify =>
      case TakeInput(written) => InputKeepsRegistry(s, written, d);
      case LogExit =>
    }
  }

  /** An attachment removes the token only on an Ack that covers the Exit. */
  lemma AttachmentRemovals(s: State, c: nat, l: AttachLabel, d: nat)
    requires AttachCan(s, c, l) && Removes(s, AttachStep(s, c, l), d)
    ensures l.TakeFrame? && s.conns[c].toServer[0].Ack? && s.conns[c].exitSn.Some?
    ensures s.conns[c].exitSn.value <= s.conns[c].toServer[0].sn
  {
  }

  lemma ExitAckMeansDone(s: State, c: nat)
    requires OutputInv(s) && AttachCan(s, c, TakeFrame) && s.conns[c].toServer[0].Ack?
    requires s.conns[c].exitSn.Some? && s.conns[c].exitSn.value <= s.conns[c].toServer[0].sn
    ensures s.phase.Done?
  {
    ResumeOutput.AckIsConsumed(s, c);
    assert ConnOk(s.history, Consumed(s), s.task.lastClient, s.daemons, s.conns[c]);
  }

  lemma DaemonRemovals(s: State, l: DaemonLabel, d: nat)
    requires DaemonCan(s, l) && Removes(s, DaemonStep(s, l), d)
    ensures ((l.Collect? || l.ShutDown?) && d == Last(s)) || l == Expire(d)
  {
  }

  /** The ways a token may leave the registry of daemon `d`: the client holds
      the exit code, a handover record carries all it still needs, the session
      expired, or the daemon shut down without a record of it. */
  ghost predicate RemovalJustified(s: State, l: Label, d: nat) {
    || (s.phase.Done? && ExitComplete(s, s.phase.code))
    || (&& l == ByDaemon(Collect) && s.mode.Replied? && RecordOk(s, s.mode.record)
        && (!s.phase.Done? ==> s.mode.record.trimmed <= s.client.lastServer))
    || l == ByDaemon(Expire(d))
    || (l == ByDaemon(ShutDown) && d + 1 == |s.daemons| && !s.mode.HandedOver?)
  }

  lemma RemovalFromInv(s: State, l: Label, d: nat)
    requires OutputInv(s) && Enabled(s, l) && Removes(s, Step(s, l), d)
    ensures RemovalJustified(s, l, d)
  {
    match l {
      case ByClient(cl) => ClientKeepsRegistry(s, cl);
      case ByAttachment(c, al) =>
        AttachmentRemovals(s, c, al, d);
        ExitAckMeansDone(s, c);
        ExitFromInv(s);
      case ByTask(tl) => TaskKeepsRegistry(s, tl, d);
      case ByDaemon(dl) => DaemonRemovals(s, dl, d);
    }
  }

  lemma RemovalIsSafe(s: State, l: Label, d: nat)
    requires Reachable(s) && Enabled(s, l) && Removes(s, Step(s, l), d)
    ensures RemovalJustified(s, l, d)
  {
    ReachableInv(s);
    RemovalFromInv(s, l, d);
  }
}
