/** Which sessions a restart can keep: exactly those whose task has not come to
    its end. */
module ResumeRestart {
  import opened Proto
  import opened OutboundLog
  import opened SessionTask
  import opened ExecClient
  import opened ResumeModel
  import opened ResumeInvariant
  import opened ResumeTheorems
  import opened ResumeRecovery
  import opened ResumeStranded

  // ------------------------------------------------------------------------
  // A registered session has not been told to stop

  predicate NotToldToStop(s: State) {
    Registered(s.daemons) ==> AbortRequest !in s.inbound
  }

  /** Nothing happened that could tell it to. */
  ghost predicate NoOrder(s: State, t: State) {
    && (Registered(t.daemons) ==> Registered(s.daemons))
    && (AbortRequest in t.inbound ==> AbortRequest in s.inbound)
  }

  lemma AckKeepsInbound(s: State, sn: nat, ackOk: bool)
    requires ClientOn(s)
    ensures SendAckOf(s, sn, ackOk).inbound == s.inbound
  {
  }

  lemma ReactKeepsInbound(s: State, m: ChannelMessage, reliable: bool, ackOk: bool)
    requires ClientOn(s)
    ensures React(s, m, reliable, ackOk).inbound == s.inbound
  {
    var (client, reaction) := OnMessage(s.client, m, reliable);
    match reaction
    case Nothing =>
    case SendAck(sn) => AckKeepsInbound(s.(client := client), sn, ackOk);
    case Return(sn, _) => AckKeepsInbound(s.(client := client), sn, ackOk);
  }

  lemma ClientKeepsInbound(s: State, l: ClientLabel)
    requires ClientCan(s, l)
    ensures ClientStep(s, l).inbound == s.inbound
  {
    if l.RecvFrame? {
      var conn := ReceivedDown(CurrentConn(s));
      ReactKeepsInbound(SetConn(s, s.phase.conn, conn), CurrentConn(s).toClient[0], true, l.ackOk);
    } else if l.RecvCopy? {
      ReactKeepsInbound(s, l.m, false, l.ackOk);
    }
  }

  lemma TakeFrameOrdersNothing(s: State, c: nat)
    requires AttachCan(s, c, TakeFrame)
    ensures AbortRequest in DoTakeFrame(s, c).inbound ==> AbortRequest in s.inbound
  {
  }

  lemma AttachmentOrdersNothing(s: State, c: nat, l: AttachLabel)
    requires AttachCan(s, c, l)
    ensures AbortRequest in AttachStep(s, c, l).inbound ==> AbortRequest in s.inbound
  {
    if l.TakeFrame? {
      TakeFrameOrdersNothing(s, c);
    }
  }

  lemma ApplyKeepsInbound(s: State, m: ChannelMessage, reliable: bool, written: bool)
    requires s.daemons != []
    ensures Apply(s, m, reliable, written).inbound == s.inbound
  {
  }

  lemma InputOrdersNothing(s: State, written: bool)
    requires s.daemons != [] && s.inbound != []
    ensures AbortRequest in DoTakeInput(s, written).inbound ==> AbortRequest in s.inbound
  {
    var s1 := s.(inbound := s.inbound[1..]);
    match s.inbound[0]
    case FromStream(_, m) => ApplyKeepsInbound(s1, m, true, written);
    case FromDatagram(m) => ApplyKeepsInbound(s1, m, false, written);
    case AbortRequest =>
    case HandoverRequest =>
  }

  lemma ReadKeepsInbound(s: State, ev: Event)
    requires s.daemons != []
    ensures DoReadChild(s, ev).inbound == s.inbound
  {
  }

  lemma TaskOrdersNothing(s: State, l: TaskLabel)
    requires TaskCan(s, l)
    ensures AbortRequest in TaskStep(s, l).inbound ==> AbortRequest in s.inbound
  {
    match l
    case ReadChild(ev) => ReadKeepsInbound(s, ev);
    case Notify =>
    case TakeInput(written) => InputOrdersNothing(s, written);
    case LogExit =>
  }

  lemma NoOrderKeeps(s: State, t: State)
    requires NotToldToStop(s) && NoOrder(s, t)
    ensures NotToldToStop(t)
  {
  }

  lemma NoNewsRegisters(s: State, t: State)
    requires NoNews(s, t)
    ensures Registered(t.daemons) ==> Registered(s.daemons)
  {
  }

  lemma DaemonKeepsNotTold(s: State, l: DaemonLabel)
    requires NotToldToStop(s) && DaemonCan(s, l)
    ensures NotToldToStop(DaemonStep(s, l))
  {
  }

  lemma StepKeepsNotTold(s: State, l: Label)
    requires NotToldToStop(s) && Enabled(s, l)
    ensures NotToldToStop(Step(s, l))
  {
    match l
    case ByClient(cl) =>
      ClientKeepsRegistry(s, cl);
      ClientKeepsInbound(s, cl);
      NoOrderKeeps(s, Step(s, l));
    case ByAttachment(c, al) =>
      AttachmentBringsNoNews(s, c, al);
      NoNewsRegisters(s, Step(s, l));
      AttachmentOrdersNothing(s, c, al);
      NoOrderKeeps(s, Step(s, l));
    case ByTask(tl) =>
      TaskBringsNoNews(s, tl);
      NoNewsRegisters(s, Step(s, l));
      TaskOrdersNothing(s, tl);
      NoOrderKeeps(s, Step(s, l));
    case ByDaemon(dl) => DaemonKeepsNotTold(s, dl);
  }

  lemma NextKeepsNotTold(s: State, t: State)
    requires NotToldToStop(s) && Next(s, t)
    ensures NotToldToStop(t)
  {
    var l :| Enabled(s, l) && t == Step(s, l);
    StepKeepsNotTold(s, l);
  }

  lemma {:induction false} RunKeepsNotTold(b: seq<State>, i: nat)
    requires Behavior(b) && i < |b|
    ensures NotToldToStop(b[i])
  {
    if i == 0 {
      InitIsNotTold(b[0]);
    } else {
      RunKeepsNotTold(b, i - 1);
      assert Next(b[i - 1], b[i - 1 + 1]);
      NextKeepsNotTold(b[i - 1], b[i]);
    }
  }

  lemma InitIsNotTold(s: State)
    requires Init(s)
    ensures NotToldToStop(s)
  {
  }

  /** Only the expiry sweep tells a task to stop, after it removed the token. */
  lemma RegisteredIsNotToldToStop(s: State)
    requires Reachable(s) && Registered(s.daemons)
    ensures AbortRequest !in s.inbound
  {
    var b :| Behavior(b) && b[|b| - 1] == s;
    RunKeepsNotTold(b, |b| - 1);
  }

  /** The task goes on, and is not about to return. */
  predicate GoesOn(m: Mode) {
    m == Running || m == Notifying(false)
  }

  predicate ToldIfUnknown(s: State) {
    GoesOn(s.mode) && !Registered(s.daemons) ==> AbortRequest in s.inbound
  }

  /** Whoever takes the token away tells the task. */
  predicate KeepsTold(s: State, t: State) {
    GoesOn(t.mode) && !Registered(t.daemons) ==>
      GoesOn(s.mode) && !Registered(s.daemons) && (AbortRequest in s.inbound ==> AbortRequest in t.inbound)
  }

  lemma ToldKept(s: State, t: State)
    requires ToldIfUnknown(s) && KeepsTold(s, t)
    ensures ToldIfUnknown(t)
  {
  }

  lemma ClientKeepsTold(s: State, l: ClientLabel)
    requires s.daemons != [] && ClientCan(s, l)
    ensures KeepsTold(s, ClientStep(s, l))
  {
    ClientKeepsRegistry(s, l);
    ClientKeepsInbound(s, l);
    ClientKeepsMode(s, l);
  }

  /** An Ack completes a session only after its task logged the Exit. */
  lemma AckKeepsTold(s: State, c: nat)
    requires OutputInv(s) && AttachCan(s, c, TakeFrame) && s.conns[c].toServer[0].Ack?
    ensures KeepsTold(s, TakenAck(s, c, s.conns[c].toServer[0].sn))
  {
    assert ConnOk(s.history, Consumed(s), s.task.lastClient, s.daemons, s.conns[c]);
  }

  lemma InputFrameKeepsTold(s: State, c: nat)
    requires AttachCan(s, c, TakeFrame) && !s.conns[c].toServer[0].Ack?
    ensures KeepsTold(s, DoTakeFrame(s, c))
  {
    PlainInput(s, c);
  }

  lemma AttachmentKeepsTold(s: State, c: nat, l: AttachLabel)
    requires OutputInv(s) && AttachCan(s, c, l)
    ensures KeepsTold(s, AttachStep(s, c, l))
  {
    if l.TakeFrame? {
      if s.conns[c].toServer[0].Ack? { AckKeepsTold(s, c); } else { InputFrameKeepsTold(s, c); }
    }
  }

  lemma ApplyKeepsTold(s: State, m: ChannelMessage, reliable: bool, written: bool)
    requires s.daemons != []
    ensures var t := Apply(s, m, reliable, written);
            t.mode == s.mode && t.inbound == s.inbound && (Registered(t.daemons) <==> Registered(s.daemons))
  {
  }

  lemma InputKeepsTold(s: State, written: bool)
    requires s.daemons != [] && s.mode.Running? && s.inbound != []
    ensures KeepsTold(s, DoTakeInput(s, written))
  {
    var s1 := s.(inbound := s.inbound[1..]);
    match s.inbound[0]
    case FromStream(_, m) => ApplyKeepsTold(s1, m, true, written);
    case FromDatagram(m) => ApplyKeepsTold(s1, m, false, written);
    case AbortRequest =>
    case HandoverRequest =>
  }

  lemma ReadKeepsTold(s: State, ev: Event)
    requires TaskCan(s, ReadChild(ev))
    ensures KeepsTold(s, DoReadChild(s, ev))
  {
  }

  lemma TaskKeepsTold(s: State, l: TaskLabel)
    requires TaskCan(s, l)
    ensures KeepsTold(s, TaskStep(s, l))
  {
    match l
    case ReadChild(ev) => ReadKeepsTold(s, ev);
    case Notify =>
    case TakeInput(written) => InputKeepsTold(s, written);
    case LogExit =>
  }

  lemma DaemonTells(s: State, l: DaemonLabel)
    requires ToldIfUnknown(s) && DaemonCan(s, l)
    ensures ToldIfUnknown(DaemonStep(s, l))
  {
  }

  lemma StepKeepsTold(s: State, l: Label)
    requires Inv(s) && ToldIfUnknown(s) && Enabled(s, l)
    ensures ToldIfUnknown(Step(s, l))
  {
    match l
    case ByClient(cl) =>
      ClientKeepsTold(s, cl);
      ToldKept(s, Step(s, l));
    case ByAttachment(c, al) =>
      AttachmentKeepsTold(s, c, al);
      ToldKept(s, Step(s, l));
    case ByTask(tl) =>
      TaskKeepsTold(s, tl);
      ToldKept(s, Step(s, l));
    case ByDaemon(dl) => DaemonTells(s, dl);
  }

  lemma NextKeepsTold(s: State, t: State)
    requires Inv(s) && ToldIfUnknown(s) && Next(s, t)
    ensures Inv(t) && ToldIfUnknown(t)
  {
    var l :| Enabled(s, l) && t == Step(s, l);
    StepKeepsTold(s, l);
    StepKeepsInv(s, l);
  }

  lemma {:induction false} RunKeepsTold(b: seq<State>, i: nat)
    requires Behavior(b) && i < |b|
    ensures Inv(b[i]) && ToldIfUnknown(b[i])
  {
    if i == 0 {
      InitOutput(b[0]);
      InitInput(b[0]);
    } else {
      RunKeepsTold(b, i - 1);
      assert Next(b[i - 1], b[i - 1 + 1]);
      NextKeepsTold(b[i - 1], b[i]);
    }
  }

  /** So while its task goes on, a session is unknown exactly when the task has
      been told to stop: none is left running that nobody can reach. */
  lemma UnknownIffToldToStop(s: State)
    requires Reachable(s) && GoesOn(s.mode)
    ensures Registered(s.daemons) <==> AbortRequest !in s.inbound
  {
    var b :| Behavior(b) && b[|b| - 1] == s;
    RunKeepsTold(b, |b| - 1);
    if Registered(s.daemons) { RegisteredIsNotToldToStop(s); }
  }

  // ------------------------------------------------------------------------
  // A task at its end

  /** The task has returned, or has nothing left to do but log its Exit. */
  predicate Ending(s: State) {
    s.mode.Stopped? || s.mode == Notifying(true) || (Alive(s) && ReadyToExit(s.task))
  }

  lemma TaskStaysEnding(s: State, l: TaskLabel)
    requires Ending(s) && TaskCan(s, l)
    ensures Ending(TaskStep(s, l))
  {
  }

  lemma ReactKeepsTask(s: State, m: ChannelMessage, reliable: bool, ackOk: bool)
    requires ClientOn(s)
    ensures React(s, m, reliable, ackOk).task == s.task
  {
    var (client, reaction) := OnMessage(s.client, m, reliable);
    match reaction
    case Nothing =>
    case SendAck(sn) => AckKeepsTask(s.(client := client), sn, ackOk);
    case Return(sn, _) => AckKeepsTask(s.(client := client), sn, ackOk);
  }

  lemma AckKeepsTask(s: State, sn: nat, ackOk: bool)
    requires ClientOn(s)
    ensures SendAckOf(s, sn, ackOk).task == s.task
  {
  }

  lemma ClientKeepsTask(s: State, l: ClientLabel)
    requires ClientCan(s, l)
    ensures ClientStep(s, l).task == s.task
  {
    if l.RecvFrame? {
      var conn := ReceivedDown(CurrentConn(s));
      ReactKeepsTask(SetConn(s, s.phase.conn, conn), CurrentConn(s).toClient[0], true, l.ackOk);
    } else if l.RecvCopy? {
      ReactKeepsTask(s, l.m, false, l.ackOk);
    }
  }

  lemma TakeFrameKeepsTask(s: State, c: nat)
    requires AttachCan(s, c, TakeFrame)
    ensures DoTakeFrame(s, c).task == s.task
  {
  }

  lemma AttachmentKeepsTask(s: State, c: nat, l: AttachLabel)
    requires AttachCan(s, c, l)
    ensures AttachStep(s, c, l).task == s.task
  {
    if l.TakeFrame? {
      TakeFrameKeepsTask(s, c);
    }
  }

  lemma StaysEnding(s: State, l: Label)
    requires Ending(s) && Enabled(s, l)
    ensures Ending(Step(s, l))
  {
    match l
    case ByClient(cl) =>
      ClientKeepsTask(s, cl);
      ClientKeepsMode(s, cl);
    case ByAttachment(c, al) =>
      AttachmentKeepsTask(s, c, al);
      AttachmentBringsNoNews(s, c, al);
    case ByTask(tl) => TaskStaysEnding(s, tl);
    case ByDaemon(dl) =>
  }

  lemma NextStaysEnding(s: State, t: State)
    requires Ending(s) && Next(s, t)
    ensures Ending(t)
  {
    var l :| Enabled(s, l) && t == Step(s, l);
    StaysEnding(s, l);
  }

  lemma {:induction false} EndingAlong(p: seq<State>, i: nat)
    requires Path(p) && Ending(p[0]) && i < |p|
    ensures Ending(p[i])
  {
    if i > 0 {
      EndingAlong(p, i - 1);
      assert Next(p[i - 1], p[i - 1 + 1]);
      NextStaysEnding(p[i - 1], p[i]);
    }
  }

  lemma EndingForGood(s: State, t: State)
    requires Ending(s) && Leads(s, t)
    ensures Ending(t)
  {
    var p :| Path(p) && p[0] == s && p[|p| - 1] == t;
    EndingAlong(p, |p| - 1);
  }

  // ------------------------------------------------------------------------
  // A task that answers

  /** The client did nothing. */
  predicate ClientRests(s: State, t: State) {
    t.phase == s.phase && t.token == s.token && t.client == s.client
  }

  lemma ApplyKeepsIdle(s: State, m: ChannelMessage, reliable: bool)
    requires s.daemons != []
    ensures var t := Apply(s, m, reliable, true);
            && t.mode == s.mode && ReadyToExit(t.task) == ReadyToExit(s.task)
            && t.inbound == s.inbound && ClientRests(s, t)
  {
  }

  lemma TakeOneFacts(s: State)
    requires s.daemons != [] && TaskIdle(s) && s.inbound != [] && s.inbound[0] != AbortRequest
    ensures var t := DoTakeInput(s, true);
            && ClientRests(s, t)
            && (if s.inbound[0] == HandoverRequest then t.mode.Replied?
                else TaskIdle(t) && t.inbound == s.inbound[1..])
  {
    var s1 := s.(inbound := s.inbound[1..]);
    match s.inbound[0]
    case FromStream(_, m) => ApplyKeepsIdle(s1, m, true);
    case FromDatagram(m) => ApplyKeepsIdle(s1, m, false);
    case HandoverRequest =>
  }

  /** The task works off its queue until it comes to the request. */
  lemma {:induction false} Answers(s: State) returns (t: State)
    requires Inv(s) && TaskIdle(s) && HandoverRequest in s.inbound && AbortRequest !in s.inbound
    ensures Inv(t) && Leads(s, t) && t.mode.Replied? && ClientRests(s, t)
    decreases |s.inbound|
  {
    assert s.inbound[0] in s.inbound;
    var s1 := DoTakeInput(s, true);
    InputOne(s);
    TakeOneFacts(s);
    if s.inbound[0] == HandoverRequest {
      t := s1;
    } else {
      t := Answers(s1);
      LeadsTrans(s, s1, t);
    }
  }

  lemma RequestOne(s: State) returns (t: State)
    requires Inv(s) && TaskIdle(s) && AbortRequest !in s.inbound
    ensures Inv(t) && Leads(s, t) && t.mode.Replied? && ClientRests(s, t)
  {
    var s1 := s.(inbound := s.inbound + [HandoverRequest]);
    Advance(s, ByDaemon(RequestHandover));
    t := Answers(s1);
    LeadsTrans(s, s1, t);
  }

  /** Finishes the push it is in, if any. */
  lemma Settles(s: State) returns (t: State)
    requires Inv(s) && Alive(s) && !Ending(s)
    ensures Inv(t) && Leads(s, t) && TaskIdle(t) && t.inbound == s.inbound && ClientRests(s, t)
  {
    if s.mode.Notifying? {
      t := DoNotify(s);
      Advance(s, ByTask(Notify));
    } else {
      t := s;
      LeadsRefl(s);
    }
  }

  lemma AnswersInTime(s: State) returns (t: State)
    requires Inv(s) && !Ending(s) && !s.mode.HandedOver? && AbortRequest !in s.inbound
    ensures Inv(t) && Leads(s, t) && t.mode.Replied? && ClientRests(s, t)
  {
    if s.mode.Replied? {
      t := s;
      LeadsRefl(s);
    } else {
      var s1 := Settles(s);
      t := RequestOne(s1);
      LeadsTrans(s, s1, t);
    }
  }

  lemma CollectOne(s: State) returns (t: State)
    requires Inv(s) && s.mode.Replied?
    ensures Inv(t) && Leads(s, t) && t.mode.HandedOver? && ClientRests(s, t)
  {
    t := DoCollect(s);
    Advance(s, ByDaemon(Collect));
  }

  lemma IsHandedOver(s: State) returns (t: State)
    requires Inv(s) && !Ending(s) && !s.mode.HandedOver? && AbortRequest !in s.inbound
    ensures Inv(t) && Leads(s, t) && t.mode.HandedOver? && ClientRests(s, t)
  {
    var s1 := AnswersInTime(s);
    t := CollectOne(s1);
    LeadsTrans(s, s1, t);
  }

  // ------------------------------------------------------------------------

  /** Some restart carries the session over, and the client that is away gets
      its exit code from the next daemon. */
  ghost predicate RestartCanKeep(s: State) {
    exists u, t :: Leads(s, u) && u.mode.HandedOver? && Leads(u, t) && t.phase.Done?
  }

  /** A restart can keep a registered session if and only if its task has not
      come to its end. */
  lemma RestartCanKeepIff(s: State)
    requires Reachable(s) && s.token && s.phase.Idle? && Registered(s.daemons)
    ensures RestartCanKeep(s) <==> !Ending(s)
  {
    if Ending(s) {
      forall u | Leads(s, u) ensures !u.mode.HandedOver? {
        EndingForGood(s, u);
      }
    } else {
      KeepsIt(s);
    }
  }

  lemma KeepsIt(s: State)
    requires Reachable(s) && s.token && s.phase.Idle? && Registered(s.daemons) && !Ending(s)
    ensures RestartCanKeep(s)
  {
    ReachableInv(s);
    RegisteredIsNotToldToStop(s);
    OnlyTheLastDaemonResumes(s, |s.daemons| - 1);
    var u := IsHandedOver(s);
    var t := CollectedIsRecovered(u);
  }
}
