/** The session task of the system is the loop of `SessionTask`: every run of
    the system is, for its task, a run of the loop. */
module TaskRefinement {
  import opened Proto
  import opened OutboundLog
  import opened SessionTask
  import opened ExecClient
  import opened ResumeModel
  import opened ResumeInvariant
  import opened ResumeTheorems

  /** The session once the iteration under way is over. */
  function Settling(task: Task, log: LogState, mode: Mode): Session {
    match mode
    case Running => Finish(Session(task, log, true))
    case Notifying(final) => if final then Session(task, Publish(log), false) else Finish(Session(task, Publish(log), true))
    case _ => Session(task, log, false)
  }

  function LoopOf(s: State): Session
    requires s.daemons != []
  {
    Settling(s.task, s.daemons[Last(s)].log, s.mode)
  }

  /** What the loop sees of a step. */
  function MomentsOf(s: State, l: Label): seq<Moment>
    requires Enabled(s, l)
  {
    match l
    case ByTask(ReadChild(ev)) => [Turned(ev)]
    case ByTask(TakeInput(written)) =>
      (match s.inbound[0]
       case FromStream(_, m) => [Turned(Input(m, true, written))]
       case FromDatagram(m) => [Turned(Input(m, false, written))]
       case _ => [])
    case ByAttachment(c, TakeFrame) =>
      var conn := s.conns[c];
      if conn.toServer[0].Ack? && conn.daemon == Last(s) then [Trimmed(conn.toServer[0].sn)] else []
    case _ => []
  }

  /** A step that ends the loop from outside, or starts the next one. */
  predicate EndsLoop(s: State, l: Label) {
    || (l.ByTask? && l.tl.TakeInput? && s.inbound != []
        && (s.inbound[0].AbortRequest? || s.inbound[0].HandoverRequest?))
    || (l.ByDaemon? && (l.dl.ShutDown? || l.dl.RestoreRecord?))
  }

  /** Nothing the loop knows about has changed. */
  predicate SameLoop(s: State, t: State) {
    && s.daemons != [] && |t.daemons| == |s.daemons|
    && t.task == s.task && t.mode == s.mode
    && t.daemons[Last(t)].log == s.daemons[Last(s)].log
  }

  lemma OneMoment(u: Session, m: Moment)
    ensures SessionTask.Live(u, []) == u && SessionTask.Live(u, [m]) == Pass(u, m)
  {
    assert SessionTask.Live(Pass(u, m), []) == Pass(u, m);
  }

  // The task's own steps

  lemma LoggedIs(s: State, m: ChannelMessage)
    requires s.daemons != []
    ensures var t := Logged(s, m, false);
            && t.daemons != [] && t.task == s.task.(sn := s.task.sn + 1) && t.mode == Notifying(false)
            && t.daemons[Last(t)].log == Enqueue(s.daemons[Last(s)].log, m)
  {
  }

  /** A read that is logged does what a turn of the loop does, its push half
      done. */
  lemma LoudReadIs(s: State, ev: Event)
    requires TaskCan(s, ReadChild(ev)) && Pushed(s.task, ev) != []
    ensures var t, log := DoReadChild(s, ev), s.daemons[Last(s)].log;
            && t.daemons != [] && t.task == Turn(s.task, ev) && t.mode == Notifying(false)
            && t.daemons[Last(t)].log == Enqueue(log, Pushed(s.task, ev)[0])
  {
    match ev
    case StdoutRead(data) => LoggedIs(s.(childOut := s.childOut + data), Stdout(s.task.sn + 1, data));
    case StderrRead(data) => LoggedIs(s.(childErr := s.childErr + data), Stderr(s.task.sn + 1, data));
  }

  lemma QuietReadIs(s: State, ev: Event)
    requires TaskCan(s, ReadChild(ev)) && Pushed(s.task, ev) == []
    ensures var t := DoReadChild(s, ev);
            t.daemons == s.daemons && t.task == Turn(s.task, ev) && t.mode == s.mode
  {
  }

  lemma ReadIsTurn(s: State, ev: Event)
    requires TaskCan(s, ReadChild(ev))
    ensures DoReadChild(s, ev).daemons != []
    ensures LoopOf(DoReadChild(s, ev)) == Iterate(LoopOf(s), ev)
  {
    if Pushed(s.task, ev) != [] { LoudReadIs(s, ev); } else { QuietReadIs(s, ev); }
  }

  lemma ApplyIsTurn(s: State, m: ChannelMessage, reliable: bool, written: bool)
    requires s.daemons != [] && TaskIdle(s)
    ensures Apply(s, m, reliable, written).daemons != []
    ensures LoopOf(Apply(s, m, reliable, written)) == Iterate(LoopOf(s), Input(m, reliable, written))
  {
  }

  lemma InputIsTurn(s: State, written: bool)
    requires TaskCan(s, TakeInput(written)) && !EndsLoop(s, ByTask(TakeInput(written)))
    ensures DoTakeInput(s, written).daemons != []
    ensures LoopOf(DoTakeInput(s, written)) == SessionTask.Live(LoopOf(s), MomentsOf(s, ByTask(TakeInput(written))))
  {
    var s1 := s.(inbound := s.inbound[1..]);
    assert LoopOf(s1) == LoopOf(s);
    match s.inbound[0] {
      case FromStream(_, m) =>
        ApplyIsTurn(s1, m, true, written);
        OneMoment(LoopOf(s), Turned(Input(m, true, written)));
      case FromDatagram(m) =>
        ApplyIsTurn(s1, m, false, written);
        OneMoment(LoopOf(s), Turned(Input(m, false, written)));
    }
  }

  lemma NotifyIsNoTurn(s: State)
    requires s.daemons != [] && s.mode.Notifying?
    ensures LoopOf(DoNotify(s)) == LoopOf(s)
  {
  }

  lemma LogExitIsNoTurn(s: State)
    requires TaskCan(s, LogExit)
    ensures DoLogExit(s).daemons != []
    ensures LoopOf(DoLogExit(s)) == LoopOf(s)
  {
  }

  lemma TaskStepRefines(s: State, l: TaskLabel)
    requires TaskCan(s, l) && !EndsLoop(s, ByTask(l))
    ensures TaskStep(s, l).daemons != []
    ensures LoopOf(TaskStep(s, l)) == SessionTask.Live(LoopOf(s), MomentsOf(s, ByTask(l)))
  {
    match l {
      case ReadChild(ev) =>
        ReadIsTurn(s, ev);
        OneMoment(LoopOf(s), Turned(ev));
      case Notify =>
        NotifyIsNoTurn(s);
      case TakeInput(written) =>
        InputIsTurn(s, written);
      case LogExit =>
        LogExitIsNoTurn(s);
    }
  }

  /** Trimming what the log had and pushing then is pushing and trimming. */
  lemma TrimThenPush(log: LogState, m: ChannelMessage, sn: nat)
    requires sn <= log.End()
    ensures Publish(Enqueue(Trim(log, sn), m)) == Trim(Publish(Enqueue(log, m)), sn)
  {
    if log.trimmed < sn {
      assert (log.buffer + [m])[sn - log.trimmed..] == log.buffer[sn - log.trimmed..] + [m];
    }
  }

  lemma TrimThenPublish(log: LogState, sn: nat)
    ensures Publish(Trim(log, sn)) == Trim(Publish(log), sn)
  {
  }

  lemma TrimThenFinish(u: Session, sn: nat)
    requires sn <= u.log.End()
    ensures Finish(u.(log := Trim(u.log, sn))) == Pass(Finish(u), Trimmed(sn))
  {
    if ReadyToExit(u.task) {
      TrimThenPush(u.log, Exit(u.task.sn + 1, u.task.exitCode.value), sn);
    }
  }

  lemma TrimThenSettle(task: Task, log: LogState, mode: Mode, sn: nat)
    requires sn <= log.End()
    ensures Settling(task, Trim(log, sn), mode) == Pass(Settling(task, log, mode), Trimmed(sn))
  {
    TrimThenPublish(log, sn);
    if mode.Running? {
      TrimThenFinish(Session(task, log, true), sn);
    } else if mode == Notifying(false) {
      TrimThenFinish(Session(task, Publish(log), true), sn);
    }
  }

  // Everybody else's steps

  /** What a client consumed was logged. */
  lemma AckIsLogged(s: State, c: nat)
    requires OutputInv(s) && c < |s.conns| && s.conns[c].toServer != [] && s.conns[c].toServer[0].Ack?
    ensures s.conns[c].toServer[0].sn <= s.daemons[Last(s)].log.End()
  {
    assert ConnOk(s.history, Consumed(s), s.task.lastClient, s.daemons, s.conns[c]);
    assert s.conns[c].toServer[0] in s.conns[c].toServer;
  }

  lemma OtherFrameIs(s: State, c: nat)
    requires s.daemons != [] && AttachCan(s, c, TakeFrame) && !s.conns[c].toServer[0].Ack?
    ensures SameLoop(s, DoTakeFrame(s, c))
  {
  }

  lemma AckFrameIs(s: State, c: nat)
    requires s.daemons != [] && AttachCan(s, c, TakeFrame) && s.conns[c].toServer[0].Ack?
    ensures var t, conn := DoTakeFrame(s, c), s.conns[c];
            && t.task == s.task && t.mode == s.mode && |t.daemons| == |s.daemons|
            && t.daemons == s.daemons[conn.daemon := t.daemons[conn.daemon]]
            && t.daemons[conn.daemon].log == Trim(s.daemons[conn.daemon].log, conn.toServer[0].sn)
  {
  }

  lemma AckRefines(s: State, c: nat)
    requires OutputInv(s) && AttachCan(s, c, TakeFrame) && s.conns[c].toServer[0].Ack? && s.conns[c].daemon == Last(s)
    ensures DoTakeFrame(s, c).daemons != []
    ensures LoopOf(DoTakeFrame(s, c)) == Pass(LoopOf(s), Trimmed(s.conns[c].toServer[0].sn))
  {
    AckFrameIs(s, c);
    AckIsLogged(s, c);
    TrimThenSettle(s.task, s.daemons[Last(s)].log, s.mode, s.conns[c].toServer[0].sn);
  }

  lemma TakeFrameRefines(s: State, c: nat)
    requires OutputInv(s) && AttachCan(s, c, TakeFrame)
    ensures DoTakeFrame(s, c).daemons != []
    ensures LoopOf(DoTakeFrame(s, c)) == SessionTask.Live(LoopOf(s), MomentsOf(s, ByAttachment(c, TakeFrame)))
  {
    var m := s.conns[c].toServer[0];
    if !m.Ack? {
      OtherFrameIs(s, c);
    } else if s.conns[c].daemon == Last(s) {
      AckRefines(s, c);
      OneMoment(LoopOf(s), Trimmed(m.sn));
    } else {
      AckFrameIs(s, c);
    }
  }

  lemma SendAckLeavesLoop(s: State, sn: nat, ackOk: bool)
    requires s.daemons != [] && ClientOn(s)
    ensures SameLoop(s, SendAckOf(s, sn, ackOk))
  {
  }

  lemma ReactedLeavesLoop(s: State, client: Client, reaction: Reaction, ackOk: bool)
    requires s.daemons != [] && ClientOn(s)
    ensures SameLoop(s, Reacted(s, client, reaction, ackOk))
  {
    match reaction
    case Nothing =>
    case SendAck(sn) => SendAckLeavesLoop(s.(client := client), sn, ackOk);
    case Return(sn, code) => SendAckLeavesLoop(s.(client := client), sn, ackOk);
  }

  lemma ReactLeavesLoop(s: State, m: ChannelMessage, reliable: bool, ackOk: bool)
    requires s.daemons != [] && ClientOn(s)
    ensures SameLoop(s, React(s, m, reliable, ackOk))
  {
    var (client, reaction) := OnMessage(s.client, m, reliable);
    ReactedLeavesLoop(s, client, reaction, ackOk);
  }

  lemma StdinLeavesLoop(s: State, l: ClientLabel)
    requires s.daemons != [] && ClientCan(s, l) && (l.ReadStdin? || l.FailLate?)
    ensures SameLoop(s, ClientStep(s, l))
  {
  }

  lemma MovingLeavesLoop(s: State, l: ClientLabel)
    requires s.daemons != [] && ClientCan(s, l)
    requires !l.ReadStdin? && !l.FailLate? && !l.RecvFrame? && !l.RecvCopy?
    ensures SameLoop(s, ClientStep(s, l))
  {
  }

  lemma ClientLeavesLoop(s: State, l: ClientLabel)
    requires s.daemons != [] && ClientCan(s, l)
    ensures SameLoop(s, ClientStep(s, l))
  {
    match l
    case RecvFrame(ackOk) =>
      var conn := ReceivedDown(CurrentConn(s));
      ReactLeavesLoop(SetConn(s, s.phase.conn, conn), CurrentConn(s).toClient[0], true, ackOk);
    case RecvCopy(m, ackOk) => ReactLeavesLoop(s, m, false, ackOk);
    case ReadStdin(_, _) => StdinLeavesLoop(s, l);
    case FailLate(_) => StdinLeavesLoop(s, l);
    case _ => MovingLeavesLoop(s, l);
  }

  lemma AttachLeavesLoop(s: State, c: nat, l: AttachLabel)
    requires s.daemons != [] && AttachCan(s, c, l) && !l.TakeFrame?
    ensures SameLoop(s, AttachStep(s, c, l))
  {
  }

  lemma DaemonLeavesLoop(s: State, l: DaemonLabel)
    requires DaemonCan(s, l) && !l.ShutDown? && !l.RestoreRecord? && !l.Collect?
    ensures SameLoop(s, DaemonStep(s, l))
  {
  }

  lemma CollectLeavesLoop(s: State)
    requires DaemonCan(s, Collect)
    ensures DoCollect(s).daemons != [] && LoopOf(DoCollect(s)) == LoopOf(s)
  {
  }

  /** One step of the system is what the loop sees of it. */
  lemma StepRefinesLoop(s: State, l: Label)
    requires OutputInv(s) && Enabled(s, l) && !EndsLoop(s, l)
    ensures Step(s, l).daemons != []
    ensures LoopOf(Step(s, l)) == SessionTask.Live(LoopOf(s), MomentsOf(s, l))
  {
    match l {
      case ByClient(cl) => ClientLeavesLoop(s, cl);
      case ByAttachment(c, al) =>
        if al.TakeFrame? { TakeFrameRefines(s, c); } else { AttachLeavesLoop(s, c, al); }
      case ByTask(tl) => TaskStepRefines(s, tl);
      case ByDaemon(dl) =>
        if dl.Collect? { CollectLeavesLoop(s); } else { DaemonLeavesLoop(s, dl); }
    }
  }

  // Runs

  /** `ls` leads from `b[0]` through `b` with the same daemon's loop. */
  ghost predicate LoopRun(b: seq<State>, ls: seq<Label>) {
    && |b| == |ls| + 1
    && forall i :: 0 <= i < |ls| ==> Enabled(b[i], ls[i]) && !EndsLoop(b[i], ls[i]) && b[i + 1] == Step(b[i], ls[i])
  }

  /** What the loop sees of a run. */
  ghost function MomentsOfRun(b: seq<State>, ls: seq<Label>): seq<Moment>
    requires LoopRun(b, ls)
    decreases |ls|
  {
    if ls == [] then []
    else MomentsOfRun(b[..|ls|], ls[..|ls| - 1]) + MomentsOf(b[|ls| - 1], ls[|ls| - 1])
  }

  lemma LoopRunStep(b: seq<State>, ls: seq<Label>)
    requires LoopRun(b, ls) && ls != []
    ensures LoopRun(b[..|ls|], ls[..|ls| - 1])
  {
  }

  /** Every run of the system, between the start of a daemon's loop and its
      end, takes the loop through exactly the turns and trims it saw. */
  lemma {:induction false} RunRefinesLoop(b: seq<State>, ls: seq<Label>)
    requires LoopRun(b, ls) && Inv(b[0])
    ensures Inv(b[|ls|])
    ensures LoopOf(b[|ls|]) == SessionTask.Live(LoopOf(b[0]), MomentsOfRun(b, ls))
    decreases |ls|
  {
    if ls != [] {
      var n := |ls| - 1;
      LoopRunStep(b, ls);
      RunRefinesLoop(b[..|ls|], ls[..n]);
      StepRefinesLoop(b[n], ls[n]);
      StepKeepsInv(b[n], ls[n]);
      LiveConcat(LoopOf(b[0]), MomentsOfRun(b[..|ls|], ls[..n]), MomentsOf(b[n], ls[n]));
    }
  }

  /** Between two turns the loop is the task with the newest log. */
  lemma LoopBetweenTurns(s: State)
    requires s.daemons != [] && !s.mode.Notifying? && !(s.mode.Running? && ReadyToExit(s.task))
    ensures LoopOf(s) == Session(s.task, s.daemons[Last(s)].log, s.mode.Running?)
  {
  }

  /** The loop starts afresh, is written down as it stands, and the next
      daemon's starts from the record. */
  lemma LoopStartsAndStops(s: State)
    requires s.daemons != []
    ensures Init(s) ==> LoopOf(s) == Session(Task(0, 0, true, true, true, None), EMPTY, true)
    ensures TaskIdle(s) && s.inbound != [] && s.inbound[0].HandoverRequest? ==>
              forall written :: DoTakeInput(s, written).mode == Replied(HandOver(LoopOf(s).task, LoopOf(s).log))
    ensures s.mode.HandedOver? ==>
              DoRestore(s).daemons != [] && LoopOf(DoRestore(s)) == RestoreSession(s.mode.record)
  {
  }
}
