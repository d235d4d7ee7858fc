/** Acknowledgements do their work: the client stops keeping input the task has
    applied, and a session leaves the registry once its exit was confirmed. */
module ResumeDraining {
  import opened Proto
  import opened OutboundLog
  import opened SessionTask
  import opened ExecClient
  import opened ResumeModel
  import opened ResumeInvariant
  import opened ResumeTheorems
  import opened ResumeRecovery
  import ResumeOutput
  import ResumeStdin

  /** An Ack takes exactly the input it covers off the resend list. */
  lemma AckIsHeeded(s: State, ackOk: bool)
    requires Reachable(s) && ClientCan(s, RecvFrame(ackOk)) && CurrentConn(s).toClient[0].Ack?
    ensures var n, t := CurrentConn(s).toClient[0].sn, DoRecvFrame(s, ackOk);
            forall m :: m in t.client.sent <==> m in s.client.sent && IsInput(m) && m.sn > n
  {
    ReachableInv(s);
    RetainedIff(s.client.sent, CurrentConn(s).toClient[0].sn);
  }

  /** Only input up to `k` is kept for resending. */
  predicate Covered(sent: seq<ChannelMessage>, k: nat) {
    forall m :: m in sent ==> IsInput(m) && m.sn <= k
  }

  lemma SentIsCovered(s: State)
    requires InputInv(s) && AllSentApplied(s)
    ensures Covered(s.client.sent, s.task.lastClient)
  {
    forall m | m in s.client.sent ensures IsInput(m) && m.sn <= s.task.lastClient {
      assert Genuine(s.read, s.unsent, m);
      ResumeStdin.SurvivorsSurvive(s.read, s.lost, s.task.lastClient, s.read[m.sn - 1]);
    }
  }

  lemma FrameCovers(s: State, k: nat)
    requires ClientCan(s, RecvFrame(false)) && Covered(s.client.sent, k)
    ensures var t := DoRecvFrame(s, false);
            Covered(t.client.sent, k) && (CurrentConn(s).toClient[0] == Ack(k) ==> t.client.sent == [])
  {
    var m := CurrentConn(s).toClient[0];
    assert DoRecvFrame(s, false).client == OnMessage(s.client, m, true).0;
    if m.Ack? {
      RetainedIff(s.client.sent, m.sn);
      var kept := Retained(s.client.sent, m.sn);
      assert kept != [] ==> kept[0] in kept;
    }
  }

  /** Reading up to an Ack that covers all that is kept. */
  lemma {:induction false} ReadUpToAck(s: State, k: nat) returns (t: State)
    requires s.daemons != [] && s.phase.Live? && ClientOn(s)
    requires Ack(k) in CurrentConn(s).toClient && Covered(s.client.sent, k)
    ensures Leads(s, t) && SessionRests(s, t) && (t.phase.Done? || t.client.sent == [])
    decreases |CurrentConn(s).toClient|
  {
    var s1 := DoRecvFrame(s, false);
    ReceiveOne(s);
    FrameLeavesRest(s);
    FrameCovers(s, k);
    if s1.phase.Done? || CurrentConn(s).toClient[0] == Ack(k) {
      t := s1;
    } else {
      t := ReadUpToAck(s1, k);
      LeadsTrans(s, s1, t);
    }
  }

  lemma StdinIsAcked(s: State) returns (t: State)
    requires Inv(s) && s.phase.Live? && CurrentConn(s).phase.Fetching? && CurrentConn(s).daemon == Last(s)
    requires CurrentConn(s).ackedStdin == 0 && s.task.lastClient > 0
    ensures Leads(s, t) && SessionRests(s, t) && t.phase == s.phase && t.client == s.client && ClientOn(t)
    ensures Ack(s.task.lastClient) in CurrentConn(t).toClient
  {
    var s1 := Replays(s);
    t := AckLast(s1);
    LeadsTrans(s, s1, t);
  }

  lemma AckLast(s: State) returns (t: State)
    requires Inv(s) && s.phase.Live? && CurrentConn(s).phase == Sending([]) && CurrentConn(s).daemon == Last(s)
    requires CurrentConn(s).ackedStdin == 0 && s.task.lastClient > 0
    ensures Leads(s, t) && SessionRests(s, t) && t.phase == s.phase && t.client == s.client && ClientOn(t)
    ensures Ack(s.task.lastClient) in CurrentConn(t).toClient
  {
    t := SetConn(s, s.phase.conn, StdinAcked(CurrentConn(s), s.daemons[Last(s)].stdinApplied));
    StepLeads(s, ByAttachment(s.phase.conn, AckStdin));
  }

  lemma FirstIsIn(ms: seq<ChannelMessage>)
    ensures ms == [] || ms[0] in ms
  {
  }

  lemma NothingIsKept(s: State)
    requires InputInv(s) && Covered(s.client.sent, 0)
    ensures s.client.sent == []
  {
    FirstIsIn(s.client.sent);
  }

  lemma RunningIsNotDone(s: State)
    requires OutputInv(s) && s.mode.Running?
    ensures !s.phase.Done?
  {
  }

  /** A fresh connection to the running task empties the list. */
  lemma Drain(s: State) returns (t: State)
    requires Inv(s) && s.phase.Live? && CurrentConn(s).phase.Fetching? && CurrentConn(s).daemon == Last(s)
    requires CurrentConn(s).ackedStdin == 0 && s.mode.Running? && Covered(s.client.sent, s.task.lastClient)
    ensures Leads(s, t) && SessionRests(s, t) && t.client.sent == []
  {
    if s.task.lastClient == 0 {
      NothingIsKept(s);
      t := s;
      LeadsRefl(s);
    } else {
      var s1 := StdinIsAcked(s);
      t := ReadUpToAck(s1, s.task.lastClient);
      LeadsTrans(s, s1, t);
      LeadsKeepsInv(s, t);
      RunningIsNotDone(t);
    }
  }

  lemma DrainApplied(s: State) returns (t: State)
    requires Inv(s) && AllSentApplied(s) && s.phase.Live? && s.token && s.mode.Running? && Registered(s.daemons)
    ensures Leads(s, t) && SessionRests(s, t) && t.client.sent == []
  {
    SentIsCovered(s);
    var s1 := GoLive(s);
    t := Drain(s1);
    LeadsTrans(s, s1, t);
  }

  lemma Deliver(s: State) returns (t: State)
    requires Inv(s) && s.token && !s.phase.Done? && !s.phase.Failed? && Registered(s.daemons) && TakesInput(s)
    ensures Leads(s, t) && t.read == s.read && t.failed == s.failed && AllSentApplied(t)
    ensures t.phase.Live? && t.token && t.mode.Running? && Registered(t.daemons)
  {
    var s1 := GoLive(s);
    t := DeliverAll(s1);
    LeadsTrans(s, s1, t);
  }

  lemma DeliverAndDrain(s: State) returns (t: State)
    requires Inv(s) && s.token && !s.phase.Done? && !s.phase.Failed? && Registered(s.daemons) && TakesInput(s)
    ensures Leads(s, t) && t.read == s.read && t.failed == s.failed
    ensures AllSentApplied(t) && t.client.sent == []
  {
    var s1 := Deliver(s);
    LeadsKeepsInv(s, s1);
    t := DrainApplied(s1);
    LeadsTrans(s, s1, t);
  }

  lemma ArriveAndDrain(s: State) returns (t: State)
    requires Inv(s) && s.token && !s.phase.Done? && !s.phase.Failed?
    requires (Registered(s.daemons) && TakesInput(s)) || s.mode.HandedOver?
    ensures Leads(s, t) && t.read == s.read && t.failed == s.failed
    ensures AllSentApplied(t) && t.client.sent == []
  {
    var s1 := Arrive(s);
    t := DeliverAndDrain(s1);
    LeadsTrans(s, s1, t);
  }

  /** While the task takes input, or its successor will, nothing has to be
      kept for ever: some continuation applies all that was sent and empties
      the list. */
  lemma ResendListDrains(s: State)
    requires Reachable(s) && s.token && !s.phase.Done? && !s.phase.Failed?
    requires (Registered(s.daemons) && TakesInput(s)) || s.mode.HandedOver?
    ensures exists t :: Leads(s, t) && t.read == s.read && t.failed == s.failed
                        && AllSentApplied(t) && t.client.sent == []
  {
    ReachableInv(s);
    var t := ArriveAndDrain(s);
  }

  // ------------------------------------------------------------------------
  // Completion

  /** The client reads to the end of a finished session and confirms it. */
  lemma {:induction false} ReadToExit(s: State) returns (t: State)
    requires Inv(s) && s.phase.Live? && HasExit(s.history)
    requires CurrentConn(s).phase == Sending([]) && CurrentConn(s).fetched == |s.history|
    ensures Leads(s, t) && SessionRests(s, t) && t.phase.Done? && |t.conns| == |s.conns|
    ensures var a, b := s.conns[s.phase.conn], t.conns[s.phase.conn];
            SameAttachment(a, b) && b.exitSn == a.exitSn && Ack(|s.history|) in b.toServer
    decreases |CurrentConn(s).toClient|
  {
    if CurrentConn(s).toClient == [] {
      CaughtUp(s);
      assert false;
    } else if CurrentConn(s).toClient[0].Exit? {
      ExitFrameIsLast(s);
      t := ConfirmExit(s);
    } else {
      var s1 := DoRecvFrame(s, false);
      ReceiveOne(s);
      OtherFrame(s);
      LeadsKeepsInv(s, s1);
      t := ReadToExit(s1);
      LeadsTrans(s, s1, t);
    }
  }

  lemma OtherFrame(s: State)
    requires ClientCan(s, RecvFrame(false)) && !CurrentConn(s).toClient[0].Exit?
    ensures var t := DoRecvFrame(s, false);
            && SessionRests(s, t) && |t.conns| == |s.conns| && t.phase == s.phase
            && t.conns[s.phase.conn] == ReceivedDown(s.conns[s.phase.conn])
  {
    FrameLeavesRest(s);
  }

  lemma ExitFrameIsLast(s: State)
    requires OutputInv(s) && s.phase.Live? && ClientOn(s) && !CurrentConn(s).phase.Requested?
    requires CurrentConn(s).toClient != [] && CurrentConn(s).toClient[0].Exit?
    ensures CurrentConn(s).toClient[0].sn == |s.history|
  {
    ResumeOutput.HeadIsHistory(s.history, s.client.lastServer, CurrentConn(s));
  }

  lemma ConfirmExit(s: State) returns (t: State)
    requires s.daemons != [] && ClientCan(s, RecvFrame(true)) && CurrentConn(s).toClient[0].Exit?
    requires CurrentConn(s).toClient[0].sn == |s.history|
    ensures Leads(s, t) && SessionRests(s, t) && t.phase.Done? && |t.conns| == |s.conns|
    ensures var a, b := s.conns[s.phase.conn], t.conns[s.phase.conn];
            SameAttachment(a, b) && b.exitSn == a.exitSn && Ack(|s.history|) in b.toServer
  {
    t := DoRecvFrame(s, true);
    StepLeads(s, ByClient(RecvFrame(true)));
    ConfirmFacts(s, CurrentConn(s).toClient[0]);
  }

  lemma ConfirmFacts(s: State, m: ChannelMessage)
    requires ClientCan(s, RecvFrame(true)) && CurrentConn(s).toClient[0] == m && m.Exit?
    ensures var t := DoRecvFrame(s, true);
            && SessionRests(s, t) && t.phase.Done? && |t.conns| == |s.conns|
            && t.conns[s.phase.conn] == PutUp(ReceivedDown(s.conns[s.phase.conn]), Ack(m.sn))
  {
    var s1 := SetConn(s, s.phase.conn, ReceivedDown(CurrentConn(s)));
    assert DoRecvFrame(s, true) == React(s1, m, true, true);
    ReactToExit(s1, m);
  }

  lemma ReactToExit(s: State, m: ChannelMessage)
    requires ClientOn(s) && m.Exit?
    ensures React(s, m, true, true)
            == SetConn(s, s.phase.conn, PutUp(CurrentConn(s), Ack(m.sn))).(phase := Done(m.code))
  {
  }

  /** The attachment has told the exit and its confirmation is on the way. */
  ghost predicate Confirming(s: State, c: nat) {
    && c < |s.conns| && s.conns[c].daemon + 1 == |s.daemons|
    && s.conns[c].exitSn.Some? && Ack(|s.history|) in s.conns[c].toServer
  }

  lemma ExitNumber(s: State, c: nat)
    requires OutputInv(s) && Confirming(s, c) && s.conns[c].phase.Waiting?
    ensures s.conns[c].exitSn == Some(|s.history|)
  {
    assert ConnOk(s.history, Consumed(s), s.task.lastClient, s.daemons, s.conns[c]);
  }

  lemma FinalAck(s: State, c: nat)
    requires AttachCan(s, c, TakeFrame) && s.conns[c].toServer[0].Ack? && s.conns[c].exitSn.Some?
    requires s.conns[c].exitSn.value <= s.conns[c].toServer[0].sn && s.conns[c].daemon + 1 == |s.daemons|
    ensures var t := DoTakeFrame(s, c);
            && !Registered(t.daemons) && |t.daemons| == |s.daemons| && t.phase == s.phase && t.client == s.client
            && t.history == s.history
  {
  }

  lemma EarlierFrame(s: State, c: nat)
    requires AttachCan(s, c, TakeFrame) && s.conns[c].exitSn.Some?
    requires s.conns[c].toServer[0].Ack? ==> s.conns[c].toServer[0].sn < s.conns[c].exitSn.value
    ensures var t := DoTakeFrame(s, c);
            && |t.daemons| == |s.daemons| && |t.conns| == |s.conns| && t.phase == s.phase && t.client == s.client
            && t.history == s.history && t.conns[c] == ReceivedUp(s.conns[c], Fetching)
  {
    if s.conns[c].toServer[0].Ack? { PlainAck(s, c); } else { PlainInput(s, c); }
  }

  /** The frames up to the confirmation are taken; then the token is gone. */
  lemma {:induction false} TakeConfirmation(s: State, c: nat) returns (t: State)
    requires Inv(s) && Confirming(s, c) && s.conns[c].phase.Waiting?
    ensures Leads(s, t) && t.phase == s.phase && t.client == s.client && t.history == s.history
    ensures |t.daemons| == |s.daemons| && !Registered(t.daemons)
    decreases |s.conns[c].toServer|
  {
    ExitNumber(s, c);
    var m := s.conns[c].toServer[0];
    if m.Ack? && m.sn >= |s.history| {
      FinalAck(s, c);
      StepLeads(s, ByAttachment(c, TakeFrame));
      t := DoTakeFrame(s, c);
    } else {
      var s1 := TakeEarlier(s, c);
      t := TakeConfirmation(s1, c);
      LeadsTrans(s, s1, t);
    }
  }

  lemma TakeEarlier(s: State, c: nat) returns (t: State)
    requires Inv(s) && Confirming(s, c) && s.conns[c].phase.Waiting? && s.conns[c].exitSn == Some(|s.history|)
    requires s.conns[c].toServer[0].Ack? ==> s.conns[c].toServer[0].sn < |s.history|
    ensures Inv(t) && Leads(s, t) && Confirming(t, c) && t.conns[c].phase.Waiting?
    ensures t.phase == s.phase && t.client == s.client && t.history == s.history && |t.daemons| == |s.daemons|
    ensures t.conns[c].toServer == s.conns[c].toServer[1..]
  {
    EarlierFrame(s, c);
    Advance(s, ByAttachment(c, TakeFrame));
    var s1 := DoTakeFrame(s, c);
    t := Settle(s1, c);
    LeadsTrans(s, s1, t);
  }

  lemma ExitIsOpen(s: State)
    requires OutputInv(s) && HasExit(s.history) && !s.phase.Done?
    ensures s.client.lastServer < |s.history|
  {
  }

  /** From a live connection to the last daemon that has yet to tell the exit. */
  lemma CompleteLive(s: State) returns (t: State)
    requires Inv(s) && s.phase.Live? && CurrentConn(s).phase.Fetching? && CurrentConn(s).daemon == Last(s)
    requires HasExit(s.history) && CurrentConn(s).sentUpTo < |s.history|
    ensures Leads(s, t) && t.history == s.history && t.phase.Done? && |t.daemons| == |s.daemons|
    ensures !Registered(t.daemons)
  {
    var s1 := Replays(s);
    var s2 := ReadToExit(s1);
    LeadsTrans(s, s1, s2);
    LeadsKeepsInv(s, s2);
    var s3 := AckRound(s2, s.phase.conn);
    LeadsTrans(s, s2, s3);
    t := TakeConfirmation(s3, s.phase.conn);
    LeadsTrans(s, s3, t);
  }

  /** A finished session that is registered can always be completed: the client
      gets every byte and the code, and the confirmation takes the token out
      of the registry of the daemon that served it. */
  lemma SessionCompletes(s: State)
    requires Reachable(s) && s.token && !s.phase.Done? && !s.phase.Failed?
    requires Registered(s.daemons) && HasExit(s.history)
    ensures exists t :: Leads(s, t) && t.history == s.history && t.phase.Done? && ExitComplete(t, t.phase.code)
                        && |t.daemons| == |s.daemons| && !Registered(t.daemons)
  {
    ReachableInv(s);
    var s1 := GoLive(s);
    ExitIsOpen(s);
    var t := CompleteLive(s1);
    LeadsTrans(s, s1, t);
    LeadsKeepsInv(s, t);
    ExitFromInv(t);
  }

  // ------------------------------------------------------------------------
  // The log

  /** What the client consumes it acknowledges. */
  predicate Acknowledged(before: Client, a: Connection, after: Client, b: Connection) {
    && SameAttachment(a, b) && b.fetched == a.fetched
    && before.lastServer <= after.lastServer
    && (before.lastServer == after.lastServer || Ack(after.lastServer) in b.toServer)
    && forall m :: m in a.toServer ==> m in b.toServer
  }

  lemma AcknowledgedTrans(s0: Client, a: Connection, s1: Client, b: Connection, s2: Client, c: Connection)
    requires Acknowledged(s0, a, s1, b) && Acknowledged(s1, b, s2, c)
    ensures Acknowledged(s0, a, s2, c)
  {
  }

  lemma AckIsPut(s: State, client: Client, sn: nat)
    requires ClientOn(s) && s.client.lastServer <= client.lastServer == sn
    ensures var t := SendAckOf(s.(client := client), sn, true);
            && SessionRests(s, t) && t.phase == s.phase && |t.conns| == |s.conns| && t.client == client
            && t.conns[s.phase.conn] == PutUp(CurrentConn(s), Ack(sn))
            && Acknowledged(s.client, CurrentConn(s), client, t.conns[s.phase.conn])
  {
    assert Ack(sn) in PutUp(CurrentConn(s), Ack(sn)).toServer;
  }

  lemma ReactionIsAcked(s: State, m: ChannelMessage)
    requires ClientOn(s) && !m.Exit?
    ensures var t, c := React(s, m, true, true), s.phase.conn;
            && SessionRests(s, t) && t.phase == s.phase && |t.conns| == |s.conns|
            && t.conns[c].toClient == s.conns[c].toClient && Acknowledged(s.client, s.conns[c], t.client, t.conns[c])
  {
    var (client, reaction) := OnMessage(s.client, m, true);
    match reaction
    case Nothing =>
    case SendAck(sn) => AckIsPut(s, client, sn);
  }

  lemma FrameIsAcked(s: State)
    requires ClientCan(s, RecvFrame(true)) && !CurrentConn(s).toClient[0].Exit?
    ensures var t, c := DoRecvFrame(s, true), s.phase.conn;
            && SessionRests(s, t) && t.phase == s.phase && |t.conns| == |s.conns|
            && t.conns[c].toClient == s.conns[c].toClient[1..]
            && Acknowledged(s.client, s.conns[c], t.client, t.conns[c])
  {
    ReactionIsAcked(SetConn(s, s.phase.conn, ReceivedDown(CurrentConn(s))), CurrentConn(s).toClient[0]);
  }

  lemma ExitEnds(s: State)
    requires ClientCan(s, RecvFrame(false)) && CurrentConn(s).toClient[0].Exit?
    ensures SessionRests(s, DoRecvFrame(s, false)) && DoRecvFrame(s, false).phase.Done?
  {
    FrameLeavesRest(s);
  }

  lemma {:induction false} ReadAndAck(s: State) returns (t: State)
    requires s.daemons != [] && s.phase.Live? && ClientOn(s)
    ensures Leads(s, t) && SessionRests(s, t)
    ensures t.phase.Done? ||
            (&& t.phase == s.phase && ClientOn(t) && CurrentConn(t).toClient == []
             && Acknowledged(s.client, CurrentConn(s), t.client, CurrentConn(t)))
    decreases |CurrentConn(s).toClient|
  {
    if CurrentConn(s).toClient == [] {
      t := s;
      LeadsRefl(s);
    } else if CurrentConn(s).toClient[0].Exit? {
      ReceiveOne(s);
      ExitEnds(s);
      t := DoRecvFrame(s, false);
    } else {
      FrameIsAcked(s);
      StepLeads(s, ByClient(RecvFrame(true)));
      var s1 := DoRecvFrame(s, true);
      t := ReadAndAck(s1);
      LeadsTrans(s, s1, t);
      if !t.phase.Done? {
        AcknowledgedTrans(s.client, CurrentConn(s), s1.client, CurrentConn(s1), t.client, CurrentConn(t));
      }
    }
  }

  lemma ReadToEnd(s: State)
    requires OutputInv(s) && s.phase.Live? && ClientOn(s) && CurrentConn(s).toClient == []
    requires CurrentConn(s).phase == Sending([]) && CurrentConn(s).fetched == |s.history|
    ensures s.client.lastServer == |s.history|
  {
  }

  lemma CoveringAck(s: State, c: nat)
    requires AttachCan(s, c, TakeFrame) && s.conns[c].toServer[0].Ack? && s.conns[c].exitSn.None?
    requires s.conns[c].daemon + 1 == |s.daemons|
    requires s.daemons[Last(s)].log.End() <= s.conns[c].toServer[0].sn
    ensures var t := DoTakeFrame(s, c);
            && |t.daemons| == |s.daemons| && t.daemons[Last(t)].log.buffer == []
            && t.client == s.client && t.history == s.history
  {
  }

  lemma PlainFrame(s: State, c: nat)
    requires AttachCan(s, c, TakeFrame) && s.conns[c].exitSn.None?
    ensures var t := DoTakeFrame(s, c);
            && |t.daemons| == |s.daemons| && |t.conns| == |s.conns| && t.client == s.client
            && t.history == s.history && t.mode == s.mode && t.conns[c] == ReceivedUp(s.conns[c], Fetching)
  {
    if s.conns[c].toServer[0].Ack? { PlainAck(s, c); } else { PlainInput(s, c); }
  }

  /** An Ack of everything is on the way to the running daemon. */
  predicate Covering(s: State, c: nat) {
    && c < |s.conns| && s.conns[c].daemon + 1 == |s.daemons| && s.conns[c].phase.Waiting?
    && s.mode.Running? && Ack(|s.history|) in s.conns[c].toServer
  }

  lemma {:induction false} TakeCovering(s: State, c: nat) returns (t: State)
    requires Inv(s) && Covering(s, c)
    ensures Leads(s, t) && t.client == s.client && t.history == s.history
    ensures t.daemons != [] && t.daemons[Last(t)].log.buffer == []
    decreases |s.conns[c].toServer|
  {
    NoExitYet(s, c);
    if s.conns[c].toServer[0] == Ack(|s.history|) {
      CoveringAck(s, c);
      StepLeads(s, ByAttachment(c, TakeFrame));
      t := DoTakeFrame(s, c);
    } else {
      var s1 := TakePlain(s, c);
      t := TakeCovering(s1, c);
      LeadsTrans(s, s1, t);
    }
  }

  lemma TakePlain(s: State, c: nat) returns (t: State)
    requires Inv(s) && Covering(s, c) && s.conns[c].exitSn.None? && s.conns[c].toServer[0] != Ack(|s.history|)
    ensures Inv(t) && Leads(s, t) && Covering(t, c) && t.client == s.client && t.history == s.history
    ensures t.conns[c].toServer == s.conns[c].toServer[1..]
  {
    PlainFrame(s, c);
    Advance(s, ByAttachment(c, TakeFrame));
    var s1 := DoTakeFrame(s, c);
    t := Settle(s1, c);
    LeadsTrans(s, s1, t);
  }

  /** A fetched round read to its end by a client of a running task. */
  lemma ReadRound(s: State) returns (t: State)
    requires Inv(s) && s.phase.Live? && ClientOn(s) && CurrentConn(s).phase == Sending([])
    requires CurrentConn(s).fetched == |s.history| && s.mode.Running? && s.client.lastServer < |s.history|
    ensures Inv(t) && Leads(s, t) && SessionRests(s, t) && t.phase == s.phase && ClientOn(t)
    ensures t.client.lastServer == |s.history| && Ack(|s.history|) in CurrentConn(t).toServer
    ensures SameAttachment(CurrentConn(s), CurrentConn(t))
  {
    t := ReadAndAck(s);
    LeadsKeepsInv(s, t);
    RunningIsNotDone(t);
    ReadToEnd(t);
  }

  lemma ReadAll(s: State) returns (t: State)
    requires Inv(s) && s.phase.Live? && CurrentConn(s).phase.Fetching? && CurrentConn(s).daemon == Last(s)
    requires s.mode.Running? && s.client.lastServer < |s.history|
    ensures Leads(s, t) && t.history == s.history && t.client.lastServer == |s.history|
    ensures Covering(t, s.phase.conn)
  {
    var s1 := Replays(s);
    var s2 := ReadRound(s1);
    LeadsTrans(s, s1, s2);
    t := AckRound(s2, s.phase.conn);
    LeadsTrans(s, s2, t);
  }

  lemma DrainLog(s: State) returns (t: State)
    requires Inv(s) && s.token && !s.phase.Done? && !s.phase.Failed? && Registered(s.daemons)
    requires s.mode.Running? && s.client.lastServer < |s.history|
    ensures Leads(s, t) && t.history == s.history && t.client.lastServer == |s.history|
    ensures t.daemons != [] && t.daemons[Last(t)].log.buffer == []
  {
    var s1 := GoLive(s);
    var s2 := ReadAll(s1);
    LeadsTrans(s, s1, s2);
    LeadsKeepsInv(s, s2);
    t := TakeCovering(s2, s1.phase.conn);
    LeadsTrans(s, s2, t);
  }

  /** Nor does the log have to grow for ever: while there is output the client
      has yet to consume, some continuation brings it all of that and leaves
      the running daemon's log empty. */
  lemma LogDrains(s: State)
    requires Reachable(s) && s.token && !s.phase.Done? && !s.phase.Failed? && Registered(s.daemons)
    requires s.mode.Running? && s.client.lastServer < |s.history|
    ensures exists t :: Leads(s, t) && t.history == s.history && t.client.lastServer == |s.history|
                        && t.daemons != [] && t.daemons[Last(t)].log.buffer == []
  {
    ReachableInv(s);
    var t := DrainLog(s);
  }
}
