/** A resume can always make up for what was missed: from every reachable state
    in which the session is still registered, some continuation delivers all
    the output logged so far, and the exit code if there is one. */
module ResumeRecovery {
  import opened Proto
  import opened OutboundLog
  import opened SessionTask
  import opened ExecClient
  import opened ResumeModel
  import opened ResumeInvariant
  import opened ResumeTheorems
  import ResumeInput
  import ResumeStdin

  ghost predicate Path(p: seq<State>) {
    p != [] && forall i :: 0 <= i < |p| - 1 ==> Next(p[i], p[i + 1])
  }

  ghost predicate Leads(s: State, t: State) {
    exists p :: Path(p) && p[0] == s && p[|p| - 1] == t
  }

  lemma LeadsRefl(s: State)
    ensures Leads(s, s)
  {
    assert Path([s]);
  }

  lemma LeadsTrans(s: State, t: State, u: State)
    requires Leads(s, t) && Leads(t, u)
    ensures Leads(s, u)
  {
    var p :| Path(p) && p[0] == s && p[|p| - 1] == t;
    var q :| Path(q) && q[0] == t && q[|q| - 1] == u;
    var r := p + q[1..];
    forall i | 0 <= i < |r| - 1
      ensures Next(r[i], r[i + 1])
    {
      if i < |p| - 1 {
        assert Next(p[i], p[i + 1]);
      } else {
        assert Next(q[i - |p| + 1], q[i - |p| + 1 + 1]);
      }
    }
    assert Path(r);
  }

  lemma StepLeads(s: State, l: Label)
    requires Enabled(s, l)
    ensures Leads(s, Step(s, l))
  {
    assert Next(s, Step(s, l));
    assert Path([s, Step(s, l)]);
  }

  lemma ReachableLeads(s: State, t: State)
    requires Reachable(s) && Leads(s, t)
    ensures Reachable(t)
  {
    var p :| Path(p) && p[0] == s && p[|p| - 1] == t;
    PathIsReachable(p, |p| - 1);
  }

  lemma {:induction false} PathIsReachable(p: seq<State>, i: nat)
    requires Path(p) && Reachable(p[0]) && i < |p|
    ensures Reachable(p[i])
  {
    if i > 0 {
      PathIsReachable(p, i - 1);
      assert Next(p[i - 1], p[i - 1 + 1]);
      NextIsReachable(p[i - 1], p[i]);
    }
  }

  lemma NextIsReachable(s: State, t: State)
    requires Reachable(s) && Next(s, t)
    ensures Reachable(t)
  {
    var b :| Behavior(b) && b[|b| - 1] == s;
    var r := b + [t];
    forall i | 0 <= i < |r| - 1 ensures Next(r[i], r[i + 1]) {
      if i < |b| - 1 { assert Next(b[i], b[i + 1]); }
    }
    assert Behavior(r) && r[|r| - 1] == t;
  }

  /** The daemon that runs now knows the session. */
  predicate Registered(daemons: seq<Daemon>) {
    daemons != [] && daemons[|daemons| - 1].registered
  }

  /** The session and everything it logged stayed put. */
  ghost predicate SessionRests(s: State, t: State) {
    && t.history == s.history && t.daemons == s.daemons && t.mode == s.mode && t.task == s.task
    && t.childOut == s.childOut && t.childErr == s.childErr && t.inbound == s.inbound
    && t.read == s.read && t.failed == s.failed && t.unsent == s.unsent && t.applied == s.applied
    && t.childCode == s.childCode && t.typed == s.typed && t.typedEof == s.typedEof
  }

  /** One step towards recovery. */
  lemma Advance(s: State, l: Label)
    requires Inv(s) && Enabled(s, l)
    ensures Inv(Step(s, l)) && Leads(s, Step(s, l))
  {
    StepKeepsInv(s, l);
    StepLeads(s, l);
  }

  lemma {:induction false} PathKeepsInv(p: seq<State>, i: nat)
    requires Path(p) && Inv(p[0]) && i < |p|
    ensures Inv(p[i])
  {
    if i > 0 {
      PathKeepsInv(p, i - 1);
      assert Next(p[i - 1], p[i - 1 + 1]);
      var l :| Enabled(p[i - 1], l) && p[i] == Step(p[i - 1], l);
      StepKeepsInv(p[i - 1], l);
    }
  }

  lemma LeadsKeepsInv(s: State, t: State)
    requires Inv(s) && Leads(s, t)
    ensures Inv(t)
  {
    var p :| Path(p) && p[0] == s && p[|p| - 1] == t;
    PathKeepsInv(p, |p| - 1);
  }

  // Reconnecting

  lemma OpenConn(s: State)
    requires Inv(s) && s.phase.Idle?
    ensures Inv(DoConnect(s, false)) && Leads(s, DoConnect(s, false))
  {
    Advance(s, ByClient(Connect(false)));
  }

  lemma AcceptConn(s: State, c: nat)
    requires Inv(s) && c < |s.conns| && s.conns[c].phase.Requested? && Registered(s.daemons)
    ensures var t := SetConn(s, c, Attached(s.conns[c], Last(s), s.daemons[Last(s)].log)); Inv(t) && Leads(s, t)
  {
    Advance(s, ByAttachment(c, Accept(Last(s))));
  }

  lemma StartConn(s: State)
    requires Inv(s) && ClientCan(s, RecvStarted)
    ensures Inv(DoRecvStarted(s)) && Leads(s, DoRecvStarted(s))
  {
    Advance(s, ByClient(RecvStarted));
  }

  /** The state after a request was made, accepted and answered. */
  function Restarted(s: State): State
    requires s.daemons != []
  {
    var conn := Attached(NewConnection(false, s.client.lastServer), Last(s), s.daemons[Last(s)].log);
    s.(phase := Resending(|s.conns|, 0), token := true, conns := s.conns + [conn.(toClient := [])])
  }

  /** The request accepted, before the client has seen the answer. */
  function Answered(s: State): State
    requires s.daemons != []
  {
    var s1 := DoConnect(s, false);
    SetConn(s1, |s.conns|, Attached(s1.conns[|s.conns|], Last(s), s.daemons[Last(s)].log))
  }

  lemma AnsweredStarts(s: State)
    requires s.daemons != []
    ensures ClientCan(Answered(s), RecvStarted)
    ensures DoRecvStarted(Answered(s)) == Restarted(s)
  {
    assert [Started(Some(TOKEN))][1..] == [];
    assert DoRecvStarted(Answered(s)).conns == Restarted(s).conns;
  }

  lemma Asked(s: State) returns (t: State)
    requires Inv(s) && s.phase.Idle?
    ensures Inv(t) && Leads(s, t)
    ensures t.daemons == s.daemons && |s.conns| < |t.conns| && t.conns[|s.conns|].phase.Requested?
    ensures Answered(s) == SetConn(t, |s.conns|, Attached(t.conns[|s.conns|], Last(t), t.daemons[Last(t)].log))
  {
    OpenConn(s);
    t := DoConnect(s, false);
    AskedFacts(s, t);
  }

  lemma AskedFacts(s: State, t: State)
    requires s.daemons != [] && t == DoConnect(s, false)
    ensures t.daemons == s.daemons && |s.conns| < |t.conns| && t.conns[|s.conns|].phase.Requested?
    ensures Answered(s) == SetConn(t, |s.conns|, Attached(t.conns[|s.conns|], Last(t), t.daemons[Last(t)].log))
  {
  }

  lemma AnswerFollows(s: State, s1: State, c: nat)
    requires Leads(s, s1) && Inv(s1) && c < |s1.conns| && s1.conns[c].phase.Requested? && Registered(s1.daemons)
    ensures var t := SetConn(s1, c, Attached(s1.conns[c], Last(s1), s1.daemons[Last(s1)].log)); Inv(t) && Leads(s, t)
  {
    AcceptConn(s1, c);
    LeadsTrans(s, s1, SetConn(s1, c, Attached(s1.conns[c], Last(s1), s1.daemons[Last(s1)].log)));
  }

  lemma GetAnswer(s: State)
    requires Inv(s) && s.phase.Idle? && Registered(s.daemons)
    ensures Inv(Answered(s)) && Leads(s, Answered(s))
  {
    var s1 := Asked(s);
    AnswerFollows(s, s1, |s.conns|);
  }

  lemma Reconnect(s: State)
    requires Inv(s) && s.phase.Idle? && Registered(s.daemons)
    ensures Inv(Restarted(s)) && Leads(s, Restarted(s))
  {
    GetAnswer(s);
    AnsweredStarts(s);
    StartConn(Answered(s));
    LeadsTrans(s, Answered(s), Restarted(s));
  }

  /** The same attachment, whatever was sent to it. */
  predicate SameAttachment(a: Connection, b: Connection) {
    b.phase == a.phase && b.daemon == a.daemon && b.ackedStdin == a.ackedStdin && b.sentUpTo == a.sentUpTo
  }

  /** Resending puts the kept input on the stream, then the client is live. */
  lemma {:induction false} ResendAll(s: State) returns (t: State)
    requires s.daemons != [] && s.phase.Resending? && ClientOn(s)
    ensures Leads(s, t) && SessionRests(s, t)
    ensures t.phase == Live(s.phase.conn) && t.client == s.client && t.token == s.token
    ensures |t.conns| == |s.conns| && s.phase.conn < |t.conns|
    ensures SameAttachment(s.conns[s.phase.conn], t.conns[s.phase.conn])
    decreases |s.client.sent| - s.phase.next
  {
    if s.phase.next < |s.client.sent| {
      var s1 := DoResend(s);
      ResendOne(s);
      ResendFacts(s, s1);
      t := ResendAll(s1);
      LeadsTrans(s, s1, t);
    } else {
      t := s.(phase := Live(s.phase.conn));
      FinishResend(s);
    }
  }

  lemma ResendFacts(s: State, s1: State)
    requires ClientCan(s, Resend) && s1 == DoResend(s)
    ensures SessionRests(s, s1) && s1.client == s.client && s1.token == s.token && |s1.conns| == |s.conns|
    ensures s1.phase == Resending(s.phase.conn, s.phase.next + 1)
    ensures SameAttachment(s.conns[s.phase.conn], s1.conns[s.phase.conn])
  {
  }

  lemma ResendOne(s: State)
    requires s.daemons != [] && ClientCan(s, Resend)
    ensures Leads(s, DoResend(s))
  {
    StepLeads(s, ByClient(Resend));
  }

  lemma FinishResend(s: State)
    requires s.daemons != [] && ClientCan(s, ResendDone)
    ensures Leads(s, s.(phase := Live(s.phase.conn)))
  {
    StepLeads(s, ByClient(ResendDone));
  }

  lemma ReceiveOne(s: State)
    requires s.daemons != [] && ClientCan(s, RecvFrame(false))
    ensures Leads(s, DoRecvFrame(s, false))
  {
    StepLeads(s, ByClient(RecvFrame(false)));
  }

  // Replaying

  /** The attachment has sent the Exit, or is about to. */
  predicate WillTellExit(conn: Connection) {
    conn.exitSn.Some? || (BatchOf(conn.phase) != [] && BatchOf(conn.phase)[|BatchOf(conn.phase)| - 1].Exit?)
  }

  lemma {:induction false} SendAll(s: State, c: nat) returns (t: State)
    requires s.daemons != [] && c < |s.conns| && s.conns[c].phase.Sending?
    ensures Leads(s, t) && SessionRests(s, t)
    ensures t.phase == s.phase && t.client == s.client && |t.conns| == |s.conns|
    ensures t.conns[c].phase == Sending([]) && t.conns[c].fetched == s.conns[c].fetched
    ensures t.conns[c].toServer == s.conns[c].toServer && t.conns[c].daemon == s.conns[c].daemon
    ensures t.conns[c].ackedStdin == s.conns[c].ackedStdin
    ensures WillTellExit(s.conns[c]) ==> t.conns[c].exitSn.Some?
    ensures t.token == s.token
    decreases |s.conns[c].phase.batch|
  {
    if s.conns[c].phase.batch == [] {
      t := s;
      LeadsRefl(s);
    } else {
      var s1 := SetConn(s, c, SentOne(s.conns[c]));
      SendStep(s, c);
      SendFacts(s, c, s1);
      t := SendAll(s1, c);
      LeadsTrans(s, s1, t);
    }
  }

  lemma SendStep(s: State, c: nat)
    requires s.daemons != [] && AttachCan(s, c, Send)
    ensures Leads(s, SetConn(s, c, SentOne(s.conns[c])))
  {
    StepLeads(s, ByAttachment(c, Send));
  }

  lemma SendFacts(s: State, c: nat, s1: State)
    requires AttachCan(s, c, Send) && s1 == SetConn(s, c, SentOne(s.conns[c]))
    ensures SessionRests(s, s1) && s1.phase == s.phase && s1.client == s.client && |s1.conns| == |s.conns|
    ensures s1.conns[c] == SentOne(s.conns[c])
    ensures WillTellExit(s.conns[c]) ==> WillTellExit(s1.conns[c])
    ensures s1.token == s.token
  {
  }

  // Receiving

  lemma FrameLeavesRest(s: State)
    requires ClientCan(s, RecvFrame(false))
    ensures var t := DoRecvFrame(s, false);
            && SessionRests(s, t) && |t.conns| == |s.conns|
            && (t.phase == s.phase || t.phase.Done?)
            && t.conns[s.phase.conn] == ReceivedDown(s.conns[s.phase.conn])
  {
    ReactLeavesRest(SetConn(s, s.phase.conn, ReceivedDown(CurrentConn(s))), CurrentConn(s).toClient[0]);
  }

  lemma ReactLeavesRest(s: State, m: ChannelMessage)
    requires ClientOn(s)
    ensures var t := React(s, m, true, false);
            t == s.(client := t.client, phase := t.phase) && (t.phase == s.phase || t.phase.Done?)
  {
    var (client, reaction) := OnMessage(s.client, m, true);
    match reaction
    case Nothing =>
    case SendAck(_) =>
    case Return(_, _) =>
  }

  /** Reading until the stream is empty or the exit code has come. */
  lemma {:induction false} ReceiveAll(s: State) returns (t: State)
    requires s.daemons != [] && s.phase.Live? && ClientOn(s) && CurrentConn(s).phase == Sending([])
    ensures Leads(s, t) && SessionRests(s, t)
    ensures t.phase.Done? || (t.phase == s.phase && ClientOn(t) && CurrentConn(t) == CurrentConn(s).(toClient := []))
    decreases |CurrentConn(s).toClient|
  {
    if CurrentConn(s).toClient == [] {
      t := s;
      LeadsRefl(s);
    } else {
      var s1 := DoRecvFrame(s, false);
      ReceiveOne(s);
      FrameLeavesRest(s);
      if s1.phase.Done? {
        t := s1;
      } else {
        t := ReceiveAll(s1);
        LeadsTrans(s, s1, t);
      }
    }
  }

  /** The client in `t` has all that the session in `s` ever produced. */
  predicate HasAll(s: State, t: State) {
    && t.client.out == s.childOut && t.client.err == s.childErr
    && (HasExit(s.history) ==> t.phase == Done(s.history[|s.history| - 1].code))
  }

  lemma HasAllSame(s: State, s1: State, t: State)
    requires s1.history == s.history && s1.childOut == s.childOut && s1.childErr == s.childErr && HasAll(s1, t)
    ensures HasAll(s, t)
  {
  }

  lemma CaughtUp(s: State)
    requires Inv(s)
    requires s.phase.Done? || (s.phase.Live? && ClientOn(s) && CurrentConn(s).toClient == []
                               && CurrentConn(s).phase == Sending([]) && CurrentConn(s).fetched == |s.history|)
    ensures HasAll(s, s)
  {
    if s.phase.Done? {
      ExitFromInv(s);
    } else {
      assert s.history[..s.client.lastServer] == s.history;
    }
  }

  /** A live connection on a fresh attachment to the last daemon catches up. */
  lemma CatchUp(s: State) returns (t: State)
    requires Inv(s) && s.phase.Live? && CurrentConn(s).phase.Fetching? && CurrentConn(s).daemon == Last(s)
    ensures Inv(t) && Leads(s, t) && SessionRests(s, t) && HasAll(s, t)
  {
    var s1 := Replays(s);
    t := ReceiveAll(s1);
    LeadsTrans(s, s1, t);
    LeadsKeepsInv(s, t);
    CaughtUp(t);
    HasAllSame(s, t, t);
  }

  /** A replay round on the connection the client reads. */
  lemma Replays(s: State) returns (t: State)
    requires Inv(s) && s.phase.Live? && CurrentConn(s).phase.Fetching? && CurrentConn(s).daemon == Last(s)
    ensures Inv(t) && Leads(s, t) && SessionRests(s, t) && t.phase == s.phase && |t.conns| == |s.conns|
    ensures t.conns[s.phase.conn].phase == Sending([]) && t.conns[s.phase.conn].fetched == |s.history|
    ensures t.conns[s.phase.conn].daemon == s.conns[s.phase.conn].daemon
    ensures t.conns[s.phase.conn].ackedStdin == s.conns[s.phase.conn].ackedStdin && t.client == s.client
    ensures HasExit(s.history) && s.conns[s.phase.conn].sentUpTo < |s.history| ==> t.conns[s.phase.conn].exitSn.Some?
  {
    var c := s.phase.conn;
    var s1 := SetConn(s, c, Fetched(s.conns[c], s.daemons[Last(s)].log));
    Advance(s, ByAttachment(c, Fetch));
    if HasExit(s.history) && s.conns[c].sentUpTo < |s.history| { ExitIsFetched(s, c); }
    t := SendAll(s1, c);
    LeadsTrans(s, s1, t);
    LeadsKeepsInv(s, t);
  }

  /** A copy of a finished log ends with the Exit. */
  lemma ExitIsFetched(s: State, c: nat)
    requires OutputInv(s) && s.phase == Live(c) && ClientOn(s) && HasExit(s.history)
    requires s.conns[c].phase.Fetching? && s.conns[c].daemon == Last(s) && s.conns[c].sentUpTo < |s.history|
    ensures WillTellExit(Fetched(s.conns[c], s.daemons[Last(s)].log))
  {
    CursorFromInv(s);
  }

  /** Gives up the current connection, if there is one. */
  lemma Detach(s: State) returns (t: State)
    requires Inv(s) && s.token && !s.phase.Done? && !s.phase.Failed?
    ensures Inv(t) && Leads(s, t) && SessionRests(s, t) && t.phase.Idle? && t.client == s.client && t.token
  {
    if s.phase.Idle? {
      t := s;
      LeadsRefl(s);
    } else {
      t := s.(phase := Idle);
      DropConn(s);
    }
  }

  lemma DropConn(s: State)
    requires Inv(s) && s.token && HasConn(s.phase)
    ensures Inv(s.(phase := Idle)) && Leads(s, s.(phase := Idle))
  {
    if s.phase.Connecting? {
      Advance(s, ByClient(ConnectLost));
    } else {
      Advance(s, ByClient(Drop));
    }
  }

  /** Reconnects up to the point where the client listens. */
  lemma GoLive(s: State) returns (t: State)
    requires Inv(s) && s.token && !s.phase.Done? && !s.phase.Failed? && Registered(s.daemons)
    ensures Inv(t) && Leads(s, t) && SessionRests(s, t)
    ensures t.phase.Live? && t.token && t.client == s.client && ClientOn(t)
    ensures CurrentConn(t).phase.Fetching? && CurrentConn(t).daemon == Last(t)
    ensures CurrentConn(t).ackedStdin == 0 && CurrentConn(t).sentUpTo == s.client.lastServer
  {
    var s1 := Detach(s);
    t := ReconnectAndResend(s1);
    LeadsTrans(s, s1, t);
  }

  lemma ReconnectAndResend(s: State) returns (t: State)
    requires Inv(s) && s.phase.Idle? && Registered(s.daemons)
    ensures Inv(t) && Leads(s, t) && SessionRests(s, t)
    ensures t.phase.Live? && t.token && t.client == s.client && ClientOn(t)
    ensures CurrentConn(t).phase.Fetching? && CurrentConn(t).daemon == Last(t)
    ensures CurrentConn(t).ackedStdin == 0 && CurrentConn(t).sentUpTo == s.client.lastServer
  {
    var s1 := Restart(s);
    t := ResendOn(s, s1);
    LeadsKeepsInv(s, t);
  }

  lemma ResendOn(s: State, s1: State) returns (t: State)
    requires Leads(s, s1) && SessionRests(s, s1) && s1.daemons != [] && s1.phase.Resending? && ClientOn(s1)
    ensures Leads(s, t) && SessionRests(s, t)
    ensures t.phase == Live(s1.phase.conn) && ClientOn(t) && t.token == s1.token && t.client == s1.client
    ensures SameAttachment(CurrentConn(s1), CurrentConn(t))
  {
    t := ResendAll(s1);
    LeadsTrans(s, s1, t);
  }

  lemma Restart(s: State) returns (t: State)
    requires Inv(s) && s.phase.Idle? && Registered(s.daemons)
    ensures Inv(t) && Leads(s, t) && SessionRests(s, t) && t.client == s.client && t.token
    ensures t.phase.Resending? && t.phase.conn < |t.conns|
    ensures t.conns[t.phase.conn].phase.Fetching? && t.conns[t.phase.conn].daemon == Last(t)
    ensures t.conns[t.phase.conn].ackedStdin == 0 && t.conns[t.phase.conn].sentUpTo == s.client.lastServer
  {
    Reconnect(s);
    t := Restarted(s);
  }

  lemma Recover(s: State) returns (t: State)
    requires Inv(s) && s.token && !s.phase.Done? && !s.phase.Failed? && Registered(s.daemons)
    ensures Leads(s, t) && t.history == s.history && HasAll(s, t)
  {
    var s1 := GoLive(s);
    t := CatchUp(s1);
    LeadsTrans(s, s1, t);
    HasAllSame(s, s1, t);
  }

  /** The session is registered, or on its way to the next daemon. */
  predicate Survives(s: State) {
    Registered(s.daemons) || s.mode.HandedOver?
  }

  /** Waits for the next daemon if the session is between two of them. */
  lemma Arrive(s: State) returns (t: State)
    requires Inv(s) && Survives(s)
    ensures Inv(t) && Leads(s, t) && Registered(t.daemons)
    ensures t.phase == s.phase && t.token == s.token && t.client == s.client
    ensures t.history == s.history && t.childOut == s.childOut && t.childErr == s.childErr
    ensures t.read == s.read && t.failed == s.failed && t.unsent == s.unsent
    ensures if s.mode.HandedOver? then TakesInput(t) else t == s
  {
    if s.mode.HandedOver? {
      t := DoRestore(s);
      Advance(s, ByDaemon(RestoreRecord));
    } else {
      t := s;
      LeadsRefl(s);
    }
  }

  /** Whatever was lost on the way, even in the middle of a restart and even
      after the child has finished, the client can still get every byte the
      session logged and the exit code. */
  lemma ResumeRecovers(s: State)
    requires Reachable(s) && s.token && !s.phase.Done? && !s.phase.Failed?
    requires Survives(s)
    ensures exists t :: Leads(s, t) && t.history == s.history && HasAll(s, t)
  {
    ReachableInv(s);
    var t := RecoverFrom(s);
  }

  lemma RecoverFrom(s: State) returns (t: State)
    requires Inv(s) && s.token && !s.phase.Done? && !s.phase.Failed? && Survives(s)
    ensures Leads(s, t) && t.history == s.history && HasAll(s, t)
  {
    var s1 := Arrive(s);
    t := Recover(s1);
    LeadsTrans(s, s1, t);
    HasAllSame(s, s1, t);
  }

  // ------------------------------------------------------------------------
  // Input

  /** The task is at the top of its loop and was not told to stop. */
  predicate TakesInput(s: State) {
    TaskIdle(s) && forall x :: x in s.inbound ==> x.FromStream? || x.FromDatagram?
  }

  /** The client and its registration stayed put. */
  predicate ClientStays(s: State, t: State) {
    t.client == s.client && t.token == s.token && (Registered(s.daemons) ==> Registered(t.daemons))
  }

  lemma InputFacts(s: State, s1: State)
    requires TakesInput(s) && s.daemons != [] && s.inbound != [] && s1 == DoTakeInput(s, true)
    ensures TakesInput(s1) && s1.inbound == s.inbound[1..] && |s1.daemons| == |s.daemons|
    ensures s1.conns == s.conns && s1.phase == s.phase && s1.read == s.read && s1.failed == s.failed && s1.unsent == s.unsent
    ensures ClientStays(s, s1)
  {
    var x := s.inbound[0];
    assert x in s.inbound;
    ApplyFacts(s.(inbound := s.inbound[1..]), x.m, x.FromStream?);
  }

  lemma ApplyFacts(s: State, m: ChannelMessage, reliable: bool)
    requires s.daemons != [] && TaskIdle(s)
    ensures var t := Apply(s, m, reliable, true);
            && TaskIdle(t) && t.inbound == s.inbound && |t.daemons| == |s.daemons|
            && t.conns == s.conns && t.phase == s.phase && t.read == s.read && t.failed == s.failed && t.unsent == s.unsent
            && ClientStays(s, t)
  {
    ResumeInput.ApplyLeaves(s, m, reliable, true);
    ApplyStaysIdle(s, m, reliable);
  }

  lemma ApplyStaysIdle(s: State, m: ChannelMessage, reliable: bool)
    requires s.daemons != [] && TaskIdle(s)
    ensures TaskIdle(Apply(s, m, reliable, true))
    ensures Registered(s.daemons) ==> Registered(Apply(s, m, reliable, true).daemons)
  {
  }

  lemma InputOne(s: State)
    requires Inv(s) && TaskIdle(s) && s.inbound != []
    ensures Inv(DoTakeInput(s, true)) && Leads(s, DoTakeInput(s, true))
  {
    Advance(s, ByTask(TakeInput(true)));
  }

  lemma {:induction false} InputAll(s: State) returns (t: State)
    requires Inv(s) && TakesInput(s)
    ensures Inv(t) && Leads(s, t) && t.inbound == []
    ensures t.conns == s.conns && t.phase == s.phase && t.read == s.read && t.failed == s.failed && t.unsent == s.unsent
    ensures |t.daemons| == |s.daemons| && TaskIdle(t)
    ensures ClientStays(s, t)
    decreases |s.inbound|
  {
    if s.inbound == [] {
      t := s;
      LeadsRefl(s);
    } else {
      var s1 := DoTakeInput(s, true);
      InputOne(s);
      InputFacts(s, s1);
      t := InputAll(s1);
      LeadsTrans(s, s1, t);
    }
  }

  /** A replay round of connection `c`, up to where it waits. */
  lemma Settle(s: State, c: nat) returns (t: State)
    requires Inv(s) && c < |s.conns| && s.conns[c].phase.Fetching? && s.conns[c].daemon < |s.daemons|
    ensures Inv(t) && Leads(s, t) && SessionRests(s, t) && t.phase == s.phase && t.client == s.client
    ensures |t.conns| == |s.conns| && t.conns[c].phase.Waiting?
    ensures t.conns[c].toServer == s.conns[c].toServer && t.conns[c].daemon == s.conns[c].daemon
    ensures t.token == s.token
    ensures WillTellExit(s.conns[c]) ==> t.conns[c].exitSn.Some?
  {
    var s1 := SetConn(s, c, Fetched(s.conns[c], s.daemons[s.conns[c].daemon].log));
    Advance(s, ByAttachment(c, Fetch));
    var s2 := SendAll(s1, c);
    LeadsTrans(s, s1, s2);
    LeadsKeepsInv(s, s2);
    t := AckRound(s2, c);
    LeadsTrans(s, s2, t);
  }

  lemma AckRound(s: State, c: nat) returns (t: State)
    requires Inv(s) && c < |s.conns| && s.conns[c].phase == Sending([]) && s.conns[c].daemon < |s.daemons|
    ensures Inv(t) && Leads(s, t) && SessionRests(s, t) && t.phase == s.phase && t.client == s.client
    ensures |t.conns| == |s.conns| && t.conns[c].phase.Waiting?
    ensures t.conns[c].toServer == s.conns[c].toServer && t.conns[c].daemon == s.conns[c].daemon
    ensures t.token == s.token
    ensures t.conns[c].exitSn == s.conns[c].exitSn
  {
    t := SetConn(s, c, StdinAcked(s.conns[c], s.daemons[s.conns[c].daemon].stdinApplied));
    Advance(s, ByAttachment(c, AckStdin));
  }

  lemma ForwardFacts(s: State, s1: State, c: nat)
    requires AttachCan(s, c, TakeFrame) && s1 == DoTakeFrame(s, c) && TakesInput(s)
    requires s.conns[c].exitSn.None?
    requires s.conns[c].toServer[0].Ack? || IsInput(s.conns[c].toServer[0])
    ensures TakesInput(s1) && s1.phase == s.phase && s1.read == s.read && s1.failed == s.failed && s1.unsent == s.unsent
    ensures |s1.daemons| == |s.daemons| && |s1.conns| == |s.conns|
    ensures s1.conns[c] == ReceivedUp(s.conns[c], Fetching)
    ensures ClientStays(s, s1)
  {
    if s.conns[c].toServer[0].Ack? { PlainAck(s, c); } else { PlainInput(s, c); }
  }

  /** An Ack that does not end the session trims the log. */
  lemma PlainAck(s: State, c: nat)
    requires AttachCan(s, c, TakeFrame) && s.conns[c].toServer[0].Ack?
    requires s.conns[c].exitSn.Some? ==> s.conns[c].toServer[0].sn < s.conns[c].exitSn.value
    ensures DoTakeFrame(s, c)
            == SetDaemon(SetConn(s, c, ReceivedUp(s.conns[c], Fetching)), s.conns[c].daemon,
                         s.daemons[s.conns[c].daemon].(log := Trim(s.daemons[s.conns[c].daemon].log, s.conns[c].toServer[0].sn)))
  {
  }

  /** Anything else is at most queued. */
  lemma PlainInput(s: State, c: nat)
    requires AttachCan(s, c, TakeFrame) && !s.conns[c].toServer[0].Ack?
    ensures var s1 := SetConn(s, c, ReceivedUp(s.conns[c], Fetching));
            || DoTakeFrame(s, c) == s1
            || DoTakeFrame(s, c) == s1.(inbound := s1.inbound + [FromStream(c, s.conns[c].toServer[0])])
  {
  }

  lemma NoExitYet(s: State, c: nat)
    requires OutputInv(s) && s.mode.Running? && c < |s.conns| && s.conns[c].phase.Waiting?
    ensures s.conns[c].exitSn.None?
    ensures s.conns[c].toServer != [] ==> s.conns[c].toServer[0].Ack? || IsInput(s.conns[c].toServer[0])
  {
    assert ConnOk(s.history, Consumed(s), s.task.lastClient, s.daemons, s.conns[c]);
    if s.conns[c].toServer != [] { assert s.conns[c].toServer[0] in s.conns[c].toServer; }
  }

  lemma ForwardOne(s: State, c: nat) returns (t: State)
    requires Inv(s) && TakesInput(s) && c < |s.conns| && s.conns[c].phase.Waiting?
    requires s.conns[c].daemon < |s.daemons| && s.conns[c].toServer != []
    ensures Inv(t) && Leads(s, t) && TakesInput(t)
    ensures t.phase == s.phase && t.read == s.read && t.failed == s.failed && t.unsent == s.unsent
    ensures |t.daemons| == |s.daemons| && |t.conns| == |s.conns| && t.conns[c] == ReceivedUp(s.conns[c], Fetching)
    ensures ClientStays(s, t)
  {
    NoExitYet(s, c);
    t := DoTakeFrame(s, c);
    Advance(s, ByAttachment(c, TakeFrame));
    ForwardFacts(s, t, c);
  }

  predicate ServedByLast(s: State, c: nat) {
    c < |s.conns| && s.conns[c].phase.Fetching? && s.conns[c].daemon + 1 == |s.daemons|
  }

  /** All frames of connection `c` reach the task's queue. */
  lemma {:induction false} ForwardAll(s: State, c: nat) returns (t: State)
    requires Inv(s) && TakesInput(s) && ServedByLast(s, c)
    ensures Inv(t) && Leads(s, t) && TakesInput(t) && ServedByLast(t, c) && |t.daemons| == |s.daemons|
    ensures t.phase == s.phase && t.read == s.read && t.failed == s.failed && t.unsent == s.unsent
    ensures |t.conns| == |s.conns| && t.conns[c].toServer == []
    ensures ClientStays(s, t)
    decreases |s.conns[c].toServer|
  {
    if s.conns[c].toServer == [] {
      t := s;
      LeadsRefl(s);
    } else {
      var s1 := ForwardRound(s, c);
      t := ForwardAll(s1, c);
      LeadsTrans(s, s1, t);
    }
  }

  lemma ForwardRound(s: State, c: nat) returns (t: State)
    requires Inv(s) && TakesInput(s) && ServedByLast(s, c) && s.conns[c].toServer != []
    ensures Inv(t) && Leads(s, t) && TakesInput(t) && ServedByLast(t, c) && |t.daemons| == |s.daemons|
    ensures t.phase == s.phase && t.read == s.read && t.failed == s.failed && t.unsent == s.unsent && |t.conns| == |s.conns|
    ensures t.conns[c].toServer == s.conns[c].toServer[1..]
    ensures ClientStays(s, t)
  {
    var s1 := Settle(s, c);
    t := ForwardOne(s1, c);
    LeadsTrans(s, s1, t);
  }

  /** Everything whose live send did not fail has reached the child. */
  ghost predicate AllSentApplied(s: State) {
    forall n :: 1 <= n <= |s.read| && n !in s.failed ==> s.read[n - 1] in s.applied
  }

  /** With nothing queued or in flight on a live connection to the running
      task, all the input that was sent has been applied. */
  lemma AllApplied(s: State)
    requires InputInv(s) && Alive(s) && s.phase.Live? && ClientOn(s) && s.inbound == []
    requires CurrentConn(s).toServer == [] && !CurrentConn(s).phase.Requested? && CurrentConn(s).daemon == |s.daemons| - 1
    ensures AllSentApplied(s)
  {
    var c := s.phase.conn;
    assert Pending(s, c) + Upcoming(s, c) == [|s.read| + 1];
    assert NoGap(s.failed, s.task.lastClient, |s.read| + 1);
    forall n | 1 <= n <= |s.read| && n !in s.failed ensures s.read[n - 1] in s.applied {
      ResumeStdin.SurvivorsAreThere(s.read, s.lost, s.task.lastClient, n);
    }
  }

  lemma DeliverAll(s: State) returns (t: State)
    requires Inv(s) && TakesInput(s) && s.phase.Live? && CurrentConn(s).phase.Fetching? && CurrentConn(s).daemon == Last(s)
    ensures Inv(t) && Leads(s, t) && t.read == s.read && t.failed == s.failed && t.unsent == s.unsent
    ensures AllSentApplied(t)
    ensures ClientStays(s, t) && t.phase == s.phase && TaskIdle(t)
  {
    var s1 := ForwardAll(s, s.phase.conn);
    t := InputAll(s1);
    LeadsTrans(s, s1, t);
    AllApplied(t);
  }

  /** While the task takes input, or its successor will, a resume can always
      bring it all the input that was ever sent successfully. */
  lemma InputRecovers(s: State)
    requires Reachable(s) && s.token && !s.phase.Done? && !s.phase.Failed?
    requires (Registered(s.daemons) && TakesInput(s)) || s.mode.HandedOver?
    ensures exists t :: Leads(s, t) && t.read == s.read && t.failed == s.failed && t.unsent == s.unsent
                        && AllSentApplied(t) && ResumeStdin.AppliedExactly(t)
  {
    ReachableInv(s);
    var s0 := Arrive(s);
    var s1 := GoLive(s0);
    LeadsTrans(s, s0, s1);
    var t := DeliverAll(s1);
    LeadsTrans(s, s1, t);
    ResumeStdin.AppliedFromInv(t);
  }

  // ------------------------------------------------------------------------
  // A run that loses input

  function FreshExec(): State {
    State(FRESH, Connecting(0), false, [Daemon(EMPTY, 0, 0, true)], [NewConnection(true, 0)],
          Task(0, 0, true, true, true, None), Running, [], [], [], [], false, false, None, [], false, [], {}, {}, {}, [], [], false)
  }

  lemma ExecStarts() returns (s: State, t: State)
    ensures Init(s) && Leads(s, t) && SessionRests(s, t)
    ensures t.phase.Resending? && ClientOn(t) && t.token && t.client == FRESH
  {
    s := FreshExec();
    var s1 := SetConn(s, 0, Attached(s.conns[0], 0, EMPTY));
    StepLeads(s, ByAttachment(0, Accept(0)));
    StepLeads(s1, ByClient(RecvStarted));
    t := DoRecvStarted(s1);
    LeadsTrans(s, s1, t);
  }

  lemma ExecGoesLive() returns (s: State, t: State)
    ensures Init(s) && Leads(s, t) && Inv(t)
    ensures t.phase.Live? && t.token && t.client == FRESH && t.read == []
    ensures TakesInput(t) && Registered(t.daemons) && t.task.exitCode.None?
  {
    var s1;
    s, s1 := ExecStarts();
    t := ResendOn(s, s1);
    InitOutput(s);
    InitInput(s);
    LeadsKeepsInv(s, t);
  }

  lemma FailOne(s: State, data: Bytes) returns (t: State)
    requires Inv(s) && s.phase.Live? && s.token && s.client.stdinOpen && TakesInput(s) && Registered(s.daemons)
    ensures Inv(t) && Leads(s, t) && t.phase.Idle? && t.token && TakesInput(t) && t.daemons == s.daemons
    ensures t.read == s.read + [NextInput(s.client, data)]
    ensures t.failed == s.failed + {s.client.sn + 1} && t.unsent == s.unsent + {s.client.sn + 1}
    ensures t.client.sn == s.client.sn + 1 && (data != [] ==> t.client.stdinOpen)
  {
    t := DoReadStdin(s, data, false);
    Advance(s, ByClient(ReadStdin(data, false)));
    FailFacts(s, data);
  }

  lemma FailFacts(s: State, data: Bytes)
    requires ClientOn(s) && s.token && s.client.stdinOpen && TakesInput(s)
    ensures var t := DoReadStdin(s, data, false);
            && t.phase.Idle? && t.token && TakesInput(t) && t.daemons == s.daemons
            && t.read == s.read + [NextInput(s.client, data)]
            && t.failed == s.failed + {s.client.sn + 1} && t.unsent == s.unsent + {s.client.sn + 1}
            && t.client.sn == s.client.sn + 1 && (data != [] ==> t.client.stdinOpen)
  {
  }

  lemma SendNext(s: State, data: Bytes) returns (t: State)
    requires Inv(s) && s.phase.Live? && ClientOn(s) && s.client.stdinOpen && TakesInput(s)
    ensures Inv(t) && Leads(s, t) && t.phase == s.phase && ClientOn(t) && TakesInput(t) && t.daemons == s.daemons
    ensures CurrentConn(t).phase == CurrentConn(s).phase && CurrentConn(t).daemon == CurrentConn(s).daemon
    ensures t.read == s.read + [NextInput(s.client, data)] && t.failed == s.failed && t.unsent == s.unsent
  {
    t := DoReadStdin(s, data, true);
    Advance(s, ByClient(ReadStdin(data, true)));
  }

  lemma FailAndReturn(s: State, data: Bytes) returns (t: State)
    requires Inv(s) && s.phase.Live? && s.token && s.client.stdinOpen && data != []
    requires TakesInput(s) && Registered(s.daemons)
    ensures Inv(t) && Leads(s, t) && t.phase.Live? && ClientOn(t) && TakesInput(t)
    ensures CurrentConn(t).phase.Fetching? && CurrentConn(t).daemon == Last(t)
    ensures t.read == s.read + [Stdin(s.client.sn + 1, data)]
    ensures t.failed == s.failed + {s.client.sn + 1} && t.unsent == s.unsent + {s.client.sn + 1}
    ensures t.client.sn == s.client.sn + 1 && t.client.stdinOpen
  {
    var s1 := FailOne(s, data);
    t := ReturnIdle(s1);
    LeadsTrans(s, s1, t);
  }

  lemma ReturnIdle(s: State) returns (t: State)
    requires Inv(s) && s.phase.Idle? && s.token && TakesInput(s) && Registered(s.daemons)
    ensures Inv(t) && Leads(s, t) && t.phase.Live? && ClientOn(t) && TakesInput(t)
    ensures CurrentConn(t).phase.Fetching? && CurrentConn(t).daemon == Last(t)
    ensures t.read == s.read && t.failed == s.failed && t.unsent == s.unsent && t.client == s.client
  {
    t := ReconnectAndResend(s);
  }

  lemma SendAndDeliver(s: State, data: Bytes) returns (t: State)
    requires Inv(s) && s.phase.Live? && ClientOn(s) && s.client.stdinOpen && TakesInput(s) && data != []
    requires CurrentConn(s).phase.Fetching? && CurrentConn(s).daemon == Last(s)
    ensures Inv(t) && Leads(s, t) && t.read == s.read + [Stdin(s.client.sn + 1, data)]
    ensures t.failed == s.failed && t.unsent == s.unsent
    ensures AllSentApplied(t)
  {
    var s1 := SendNext(s, data);
    t := DeliverAll(s1);
    LeadsTrans(s, s1, t);
  }

  /** If the newest message was sent, it was applied last. */
  lemma NewestIsLast(s: State)
    requires ReadOk(s) && AppliedOk(s) && AllSentApplied(s) && s.read != [] && |s.read| !in s.failed
    ensures s.applied != [] && s.applied[|s.applied| - 1] == s.read[|s.read| - 1]
  {
    var n := |s.read|;
    ResumeStdin.SurvivorsSurvive(s.read, s.lost, s.task.lastClient, s.read[n - 1]);
  }

  /** From any live state, a failed live send followed by a successful one can
      end with the second message applied and the first one gone. */
  lemma FailedSendCanLose(s: State, m1: ChannelMessage, m2: ChannelMessage) returns (t: State)
    requires Inv(s) && s.phase.Live? && s.token && s.client.stdinOpen
    requires m1.Stdin? && m1.data != [] && m1.sn == s.client.sn + 1
    requires m2.Stdin? && m2.data != [] && m2.sn == s.client.sn + 2
    requires TakesInput(s) && Registered(s.daemons)
    ensures Leads(s, t)
    ensures m1 in t.read && m1 !in t.applied
    ensures t.applied != [] && t.applied[|t.applied| - 1] == m2
  {
    var s1 := FailAndReturn(s, m1.data);
    t := SendAndDeliver(s1, m2.data);
    LeadsTrans(s, s1, t);
    FreshNumber(s);
    NewestIsLast(t);
    LostIsLost(t, m1.sn);
  }

  lemma FreshNumber(s: State)
    requires InputInv(s)
    ensures s.client.sn == |s.read| && |s.read| + 2 !in s.failed
  {
  }

  lemma LostIsLost(s: State, k: nat)
    requires InputInv(s) && k in s.unsent
    ensures 1 <= k <= |s.read| && s.read[k - 1] !in s.applied
  {
    if s.read[k - 1] in s.applied {
      ResumeStdin.SurvivorsSurvive(s.read, s.lost, s.task.lastClient, s.read[k - 1]);
    }
  }

  lemma LeadsFromInit(s: State, t: State)
    requires Init(s) && Leads(s, t)
    ensures Reachable(t)
  {
    assert Behavior([s]) && [s][|[s]| - 1] == s;
    ReachableLeads(s, t);
  }

  lemma LosingRun(a: Bytes, b: Bytes) returns (s: State, t: State)
    requires a != [] && b != []
    ensures Init(s) && Leads(s, t)
    ensures Stdin(1, a) in t.read && Stdin(1, a) !in t.applied
    ensures t.applied != [] && t.applied[|t.applied| - 1] == Stdin(2, b)
  {
    var live;
    s, live := ExecGoesLive();
    t := FailedSendCanLose(live, Stdin(1, a), Stdin(2, b));
    LeadsTrans(s, live, t);
  }

  /** The defect is real, for any two pieces of input: in some run of a fresh
      exec the first piece is gone and the second one applied. */
  lemma SomeRunLosesInput(a: Bytes, b: Bytes) returns (t: State)
    requires a != [] && b != []
    ensures Reachable(t)
    ensures Stdin(1, a) in t.read && Stdin(1, a) !in t.applied
    ensures t.applied != [] && t.applied[|t.applied| - 1] == Stdin(2, b)
  {
    var s;
    s, t := LosingRun(a, b);
    LeadsFromInit(s, t);
  }
}
