/** What a finished session depends on. Its task takes no part in a handover,
    so the exit code reaches a client that is away only through the daemon
    that has the session registered. */
module ResumeStranded {
  import opened Proto
  import opened OutboundLog
  import opened SessionTask
  import opened ExecClient
  import opened ResumeModel
  import opened ResumeInvariant
  import opened ResumeTheorems
  import opened ResumeRecovery

  // ------------------------------------------------------------------------
  // Only the running daemon has the session registered

  predicate NoneBut(daemons: seq<Daemon>, last: int) {
    forall d :: 0 <= d < |daemons| && d != last ==> !daemons[d].registered
  }

  predicate OldOnesForgot(s: State) {
    && NoneBut(s.daemons, |s.daemons| - 1)
    && (s.mode.HandedOver? ==> NoneBut(s.daemons, -1))
  }

  /** No daemon came, and none that had forgotten the session knows it again. */
  ghost predicate NoNews(s: State, t: State) {
    && |t.daemons| == |s.daemons|
    && forall d :: 0 <= d < |s.daemons| && t.daemons[d].registered ==> s.daemons[d].registered
  }

  lemma ReactKeepsMode(s: State, m: ChannelMessage, reliable: bool, ackOk: bool)
    requires ClientOn(s)
    ensures React(s, m, reliable, ackOk).mode == s.mode
  {
    var (client, reaction) := OnMessage(s.client, m, reliable);
    match reaction
    case Nothing =>
    case SendAck(sn) => AckKeepsMode(s.(client := client), sn, ackOk);
    case Return(sn, _) => AckKeepsMode(s.(client := client), sn, ackOk);
  }

  lemma AckKeepsMode(s: State, sn: nat, ackOk: bool)
    requires ClientOn(s)
    ensures SendAckOf(s, sn, ackOk).mode == s.mode
  {
  }

  lemma ClientKeepsMode(s: State, l: ClientLabel)
    requires ClientCan(s, l)
    ensures ClientStep(s, l).mode == s.mode
  {
    if l.RecvFrame? {
      var conn := ReceivedDown(CurrentConn(s));
      ReactKeepsMode(SetConn(s, s.phase.conn, conn), CurrentConn(s).toClient[0], true, l.ackOk);
    } else if l.RecvCopy? {
      ReactKeepsMode(s, l.m, false, l.ackOk);
    }
  }

  lemma TakeFrameBringsNoNews(s: State, c: nat)
    requires AttachCan(s, c, TakeFrame)
    ensures NoNews(s, DoTakeFrame(s, c)) && DoTakeFrame(s, c).mode == s.mode
  {
  }

  lemma AttachmentBringsNoNews(s: State, c: nat, l: AttachLabel)
    requires AttachCan(s, c, l)
    ensures NoNews(s, AttachStep(s, c, l)) && AttachStep(s, c, l).mode == s.mode
  {
    if l.TakeFrame? {
      TakeFrameBringsNoNews(s, c);
    }
  }

  lemma ReadBringsNoNews(s: State, ev: Event)
    requires s.daemons != []
    ensures NoNews(s, DoReadChild(s, ev)) && (s.mode.Running? ==> !DoReadChild(s, ev).mode.HandedOver?)
  {
  }

  lemma ApplyBringsNoNews(s: State, m: ChannelMessage, reliable: bool, written: bool)
    requires s.daemons != []
    ensures NoNews(s, Apply(s, m, reliable, written)) && Apply(s, m, reliable, written).mode == s.mode
  {
  }

  lemma InputBringsNoNews(s: State, written: bool)
    requires s.daemons != [] && s.inbound != []
    ensures NoNews(s, DoTakeInput(s, written)) && (s.mode.Running? ==> !DoTakeInput(s, written).mode.HandedOver?)
  {
    var s1 := s.(inbound := s.inbound[1..]);
    match s.inbound[0]
    case FromStream(_, m) => ApplyBringsNoNews(s1, m, true, written);
    case FromDatagram(m) => ApplyBringsNoNews(s1, m, false, written);
    case AbortRequest =>
    case HandoverRequest =>
  }

  lemma TaskBringsNoNews(s: State, l: TaskLabel)
    requires TaskCan(s, l)
    ensures NoNews(s, TaskStep(s, l)) && !TaskStep(s, l).mode.HandedOver?
  {
    match l
    case ReadChild(ev) => ReadBringsNoNews(s, ev);
    case Notify =>
    case TakeInput(written) => InputBringsNoNews(s, written);
    case LogExit =>
  }

  lemma NoNewsKeepsForgetting(s: State, t: State)
    requires OldOnesForgot(s) && NoNews(s, t) && (t.mode == s.mode || !t.mode.HandedOver?)
    ensures OldOnesForgot(t)
  {
  }

  lemma StepKeepsForgetting(s: State, l: Label)
    requires OldOnesForgot(s) && Enabled(s, l)
    ensures OldOnesForgot(Step(s, l))
  {
    match l
    case ByClient(cl) =>
      ClientKeepsRegistry(s, cl);
      ClientKeepsMode(s, cl);
      NoNewsKeepsForgetting(s, Step(s, l));
    case ByAttachment(c, al) =>
      AttachmentBringsNoNews(s, c, al);
      NoNewsKeepsForgetting(s, Step(s, l));
    case ByTask(tl) =>
      TaskBringsNoNews(s, tl);
      NoNewsKeepsForgetting(s, Step(s, l));
    case ByDaemon(dl) => DaemonKeepsForgetting(s, dl);
  }

  lemma DaemonKeepsForgetting(s: State, l: DaemonLabel)
    requires OldOnesForgot(s) && DaemonCan(s, l)
    ensures OldOnesForgot(DaemonStep(s, l))
  {
  }

  lemma {:induction false} RunKeepsForgetting(b: seq<State>, i: nat)
    requires Behavior(b) && i < |b|
    ensures OldOnesForgot(b[i])
  {
    if i == 0 {
      InitForgets(b[0]);
    } else {
      RunKeepsForgetting(b, i - 1);
      assert Next(b[i - 1], b[i - 1 + 1]);
      NextKeepsForgetting(b[i - 1], b[i]);
    }
  }

  lemma InitForgets(s: State)
    requires Init(s)
    ensures OldOnesForgot(s)
  {
  }

  lemma NextKeepsForgetting(s: State, t: State)
    requires OldOnesForgot(s) && Next(s, t)
    ensures OldOnesForgot(t)
  {
    var l :| Enabled(s, l) && t == Step(s, l);
    StepKeepsForgetting(s, l);
  }

  /** At most the daemon that runs now would accept a resume. */
  lemma OnlyTheLastDaemonResumes(s: State, d: nat)
    requires Reachable(s) && d < |s.daemons| && s.daemons[d].registered
    ensures d == |s.daemons| - 1 && Registered(s.daemons) && !s.mode.HandedOver?
  {
    var b :| Behavior(b) && b[|b| - 1] == s;
    RunKeepsForgetting(b, |b| - 1);
  }

  // ------------------------------------------------------------------------
  // Nobody to resume with

  /** A connection that can bring nothing but a refusal. */
  predicate Hopeless(conn: Connection) {
    && (conn.phase.Requested? || conn.phase.Ended?)
    && forall m :: m in conn.toClient ==> m.Denied?
  }

  predicate HopelessPhase(phase: Phase, conns: seq<Connection>) {
    || phase.Idle? || phase.Failed?
    || (phase.Connecting? && phase.conn < |conns| && Hopeless(conns[phase.conn]))
  }

  /** The task has ended, no daemon knows the session, the client is away. */
  predicate Stranded(s: State) {
    && s.mode.Stopped?
    && NoneBut(s.daemons, -1)
    && HopelessPhase(s.phase, s.conns)
  }

  lemma ClientStaysStranded(s: State, l: ClientLabel)
    requires Stranded(s) && ClientCan(s, l)
    ensures Stranded(ClientStep(s, l)) && ClientStep(s, l).client == s.client
  {
    if ClientOn(s) && CurrentConn(s).toClient != [] {
      OnlyDenials(s);
    }
  }

  lemma OnlyDenials(s: State)
    requires Stranded(s) && ClientOn(s) && CurrentConn(s).toClient != []
    ensures CurrentConn(s).toClient[0].Denied?
  {
    assert CurrentConn(s).toClient[0] in CurrentConn(s).toClient;
  }

  lemma OnlyRefusals(s: State, c: nat, l: AttachLabel)
    requires Stranded(s) && AttachCan(s, c, l) && Hopeless(s.conns[c])
    ensures l.Refuse?
  {
  }

  lemma TakeFrameMovesOne(s: State, c: nat)
    requires AttachCan(s, c, TakeFrame)
    ensures var t := DoTakeFrame(s, c);
            && |t.conns| == |s.conns| && t.client == s.client && t.phase == s.phase
            && forall i :: 0 <= i < |s.conns| && i != c ==> t.conns[i] == s.conns[i]
  {
    TakeFrameConns(s, c);
  }

  lemma TakeFrameConns(s: State, c: nat)
    requires AttachCan(s, c, TakeFrame)
    ensures |DoTakeFrame(s, c).conns| == |s.conns|
    ensures DoTakeFrame(s, c).conns == s.conns[c := DoTakeFrame(s, c).conns[c]]
    ensures DoTakeFrame(s, c).client == s.client && DoTakeFrame(s, c).phase == s.phase
  {
    if s.conns[c].toServer[0].Ack? {
      TakenAckConns(s, c, s.conns[c].toServer[0].sn);
    }
  }

  lemma TakenAckConns(s: State, c: nat, sn: nat)
    requires AttachCan(s, c, TakeFrame)
    ensures var t := TakenAck(s, c, sn);
            |t.conns| == |s.conns| && t.conns == s.conns[c := t.conns[c]] && t.client == s.client && t.phase == s.phase
  {
  }

  lemma AttachmentMovesOne(s: State, c: nat, l: AttachLabel)
    requires AttachCan(s, c, l)
    ensures var t := AttachStep(s, c, l);
            && |t.conns| == |s.conns| && t.client == s.client && t.phase == s.phase
            && forall i :: 0 <= i < |s.conns| && i != c ==> t.conns[i] == s.conns[i]
  {
    if l.TakeFrame? {
      TakeFrameMovesOne(s, c);
    }
  }

  lemma AttachmentStaysStranded(s: State, c: nat, l: AttachLabel)
    requires Stranded(s) && AttachCan(s, c, l)
    ensures Stranded(AttachStep(s, c, l)) && AttachStep(s, c, l).client == s.client
  {
    AttachmentMovesOne(s, c, l);
    AttachmentBringsNoNews(s, c, l);
    if Hopeless(s.conns[c]) {
      OnlyRefusals(s, c, l);
    }
  }

  lemma StaysStranded(s: State, l: Label)
    requires Stranded(s) && Enabled(s, l)
    ensures Stranded(Step(s, l)) && Step(s, l).client == s.client
  {
    match l
    case ByClient(cl) => ClientStaysStranded(s, cl);
    case ByAttachment(c, al) => AttachmentStaysStranded(s, c, al);
    case ByTask(_) => assert false;
    case ByDaemon(dl) => assert dl.ShutDown?;
  }

  lemma {:induction false} StrandedAlong(p: seq<State>, i: nat)
    requires Path(p) && Stranded(p[0]) && i < |p|
    ensures Stranded(p[i]) && p[i].client == p[0].client
  {
    if i > 0 {
      StrandedAlong(p, i - 1);
      assert Next(p[i - 1], p[i - 1 + 1]);
      var l :| Enabled(p[i - 1], l) && p[i] == Step(p[i - 1], l);
      StaysStranded(p[i - 1], l);
    }
  }

  /** Such a client gets nothing any more: no byte, no code. */
  lemma StrandedForEver(s: State, t: State)
    requires Stranded(s) && Leads(s, t)
    ensures !t.phase.Done? && t.client == s.client
  {
    var p :| Path(p) && p[0] == s && p[|p| - 1] == t;
    StrandedAlong(p, |p| - 1);
  }

  /** A client that is away when the session has finished can still get the
      exit code if and only if the daemon that runs now has the session
      registered: neither an earlier nor a later daemon can serve it. */
  lemma FinishedSessionNeedsItsDaemon(s: State)
    requires Reachable(s) && s.token && s.phase.Idle? && s.mode.Stopped? && HasExit(s.history)
    ensures (exists t :: Leads(s, t) && t.phase.Done?) <==> Registered(s.daemons)
  {
    if Registered(s.daemons) {
      ResumeRecovers(s);
    } else {
      forall d | 0 <= d < |s.daemons| ensures !s.daemons[d].registered {
        if s.daemons[d].registered {
          OnlyTheLastDaemonResumes(s, d);
        }
      }
      forall t | Leads(s, t) ensures !t.phase.Done? {
        StrandedForEver(s, t);
      }
    }
  }

  // ------------------------------------------------------------------------
  // A child that ends

  /** A read that logs nothing: an end of file or the exit code. */
  predicate Ends(ev: Event) {
    ev == StdoutRead([]) || ev == StderrRead([]) || ev.ExitRead?
  }

  lemma EndOne(s: State, ev: Event) returns (t: State)
    requires Inv(s) && TaskIdle(s) && Ends(ev) && Possible(s.task, ev)
    ensures Inv(t) && Leads(s, t) && t.task == Turn(s.task, ev) && t.mode.Running?
    ensures t.daemons == s.daemons && t.phase == s.phase && t.token == s.token && t.client == s.client
  {
    t := DoReadChild(s, ev);
    Advance(s, ByTask(ReadChild(ev)));
    EndFacts(s, ev);
  }

  lemma EndFacts(s: State, ev: Event)
    requires s.daemons != [] && Ends(ev)
    ensures var t := DoReadChild(s, ev);
            && t.task == Turn(s.task, ev) && t.mode == s.mode
            && t.daemons == s.daemons && t.phase == s.phase && t.token == s.token && t.client == s.client
  {
  }

  /** Reads what is still missing before the exit can be logged. */
  lemma EndAll(s: State, code: int) returns (t: State)
    requires Inv(s) && s.mode.Running?
    ensures Inv(t) && Leads(s, t) && t.mode.Running? && ReadyToExit(t.task)
    ensures t.task.exitCode == if s.task.exitCode.Some? then s.task.exitCode else Some(code)
    ensures t.daemons == s.daemons && t.phase == s.phase && t.token == s.token && t.client == s.client
    decreases s.task.stdoutOpen, s.task.stderrOpen, s.task.exitCode.None?
  {
    if ReadyToExit(s.task) {
      t := s;
      LeadsRefl(s);
    } else {
      var ev := if s.task.stdoutOpen then StdoutRead([])
      else if s.task.stderrOpen then StderrRead([]) else ExitRead(code);
      var s1 := EndOne(s, ev);
      t := EndAll(s1, code);
      LeadsTrans(s, s1, t);
    }
  }

  lemma LogTheExit(s: State) returns (t: State)
    requires Inv(s) && s.mode.Running? && ReadyToExit(s.task)
    ensures Inv(t) && Leads(s, t) && t.mode.Stopped? && HasExit(t.history)
    ensures t.history[|t.history| - 1].code == s.task.exitCode.value
    ensures Registered(s.daemons) ==> Registered(t.daemons)
    ensures t.phase == s.phase && t.token == s.token && t.client == s.client
  {
    var s1 := DoLogExit(s);
    ExitFacts(s);
    Advance(s, ByTask(LogExit));
    t := DoNotify(s1);
    Advance(s1, ByTask(Notify));
    LeadsTrans(s, s1, t);
  }

  lemma ExitFacts(s: State)
    requires s.daemons != [] && ReadyToExit(s.task)
    ensures var s1 := DoLogExit(s);
            && s1.mode == Notifying(true) && s1.daemons != []
            && var t := DoNotify(s1);
            && t.mode.Stopped? && HasExit(t.history)
            && t.history[|t.history| - 1].code == s.task.exitCode.value
            && (Registered(s.daemons) ==> Registered(t.daemons))
            && t.phase == s.phase && t.token == s.token && t.client == s.client
  {
  }

  /** The child of a running session can always end. */
  lemma ChildEnds(s: State, code: int) returns (t: State)
    requires Inv(s) && s.mode.Running?
    ensures Inv(t) && Leads(s, t) && t.mode.Stopped? && HasExit(t.history)
    ensures s.task.exitCode.None? ==> t.history[|t.history| - 1].code == code
    ensures Registered(s.daemons) ==> Registered(t.daemons)
    ensures t.phase == s.phase && t.token == s.token && t.client == s.client
  {
    var s1 := EndAll(s, code);
    t := LogTheExit(s1);
    LeadsTrans(s, s1, t);
  }

  // ------------------------------------------------------------------------
  // Restarts

  /** The two ways a daemon that ends parts with a session. */
  predicate EndOfDaemon(l: DaemonLabel) { l.Collect? || l.ShutDown? }

  lemma CollectedIsRecovered(s: State) returns (t: State)
    requires Inv(s) && s.token && s.phase.Idle? && s.mode.HandedOver?
    ensures Leads(s, t) && t.phase.Done?
  {
    var s1 := Arrive(s);
    var s2 := ChildEnds(s1, 0);
    LeadsTrans(s, s1, s2);
    t := Recover(s2);
    LeadsTrans(s, s2, t);
  }

  lemma ShutDownStrands(s: State)
    requires Reachable(s) && s.phase.Idle? && DaemonCan(s, ShutDown)
    ensures Stranded(DoShutDown(s))
  {
    forall d | 0 <= d < |s.daemons| - 1 ensures !s.daemons[d].registered {
      if s.daemons[d].registered {
        OnlyTheLastDaemonResumes(s, d);
      }
    }
  }

  /** When its daemon ends, a client that is away can still get the exit code
      if and only if the task had answered and its record was collected. */
  lemma RestartKeepsIffCollected(s: State, l: DaemonLabel)
    requires Reachable(s) && s.token && s.phase.Idle? && DaemonCan(s, l) && EndOfDaemon(l)
    ensures (exists t :: Leads(DaemonStep(s, l), t) && t.phase.Done?) <==> l.Collect?
  {
    if l.Collect? {
      ReachableInv(s);
      Advance(s, ByDaemon(Collect));
      var t := CollectedIsRecovered(DoCollect(s));
    } else {
      ShutDownStrands(s);
      forall t | Leads(DoShutDown(s), t) ensures !t.phase.Done? {
        StrandedForEver(DoShutDown(s), t);
      }
    }
  }

  /** A finished session has nothing to answer with: whatever its daemon does
      when it ends, the code that a client could still have got is lost. */
  lemma RestartLosesTheFinished(s: State)
    requires Reachable(s) && s.token && s.phase.Idle?
    requires s.mode.Stopped? && HasExit(s.history) && Registered(s.daemons)
    ensures exists t :: Leads(s, t) && t.phase == Done(s.history[|s.history| - 1].code)
    ensures forall l :: EndOfDaemon(l) && DaemonCan(s, l) ==> l.ShutDown?
    ensures DaemonCan(s, ShutDown) && forall t :: Leads(DoShutDown(s), t) ==> !t.phase.Done?
  {
    ResumeRecovers(s);
    ShutDownStrands(s);
    forall t | Leads(DoShutDown(s), t) ensures !t.phase.Done? {
      StrandedForEver(DoShutDown(s), t);
    }
  }

  lemma EndsAlone(live: State, code: int) returns (t: State)
    requires Inv(live) && live.phase.Live? && live.token && live.mode.Running?
    requires live.task.exitCode.None? && Registered(live.daemons)
    ensures Leads(live, t) && t.token && t.phase.Idle? && t.mode.Stopped?
    ensures HasExit(t.history) && t.history[|t.history| - 1].code == code && Registered(t.daemons)
  {
    var away := Detach(live);
    t := ChildEnds(away, code);
    LeadsTrans(live, away, t);
  }

  lemma ExecEndsAlone(code: int) returns (t: State)
    ensures Reachable(t) && t.token && t.phase.Idle? && t.mode.Stopped?
    ensures HasExit(t.history) && t.history[|t.history| - 1].code == code && Registered(t.daemons)
  {
    var s, live := ExecGoesLive();
    t := EndsAlone(live, code);
    LeadsTrans(s, live, t);
    LeadsFromInit(s, t);
  }

  /** The defect is real, for any exit code: some run logs it while the client
      is away, and after a restart no continuation returns it. */
  lemma SomeRestartLosesTheExit(code: int) returns (before: State, after: State)
    ensures Reachable(before) && Reachable(after) && before.daemons != [] && after == DoShutDown(before)
    ensures HasExit(after.history) && after.history[|after.history| - 1].code == code
    ensures after.token && after.phase.Idle?
    ensures exists t :: Leads(before, t) && t.phase == Done(code)
    ensures forall t :: Leads(after, t) ==> !t.phase.Done?
  {
    before := ExecEndsAlone(code);
    RestartLosesTheFinished(before);
    after := DoShutDown(before);
    StepLeads(before, ByDaemon(ShutDown));
    ReachableLeads(before, after);
  }
}
