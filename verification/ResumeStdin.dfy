/** What happens to the client's input in every run, when it is exact, and
    what keeping a message before sending it would change. */
module ResumeStdin {
  import opened Proto
  import opened OutboundLog
  import opened SessionTask
  import opened ExecClient
  import opened ResumeModel
  import opened ResumeInvariant
  import opened ResumeTheorems
  import ResumeOutput
  import ResumeInput

  lemma {:induction false} SurvivingIsAll(read: seq<ChannelMessage>, failed: set<nat>, n: nat)
    requires n <= |read| && forall k :: k in failed ==> k > n
    ensures Surviving(read, failed, n) == read[..n]
  {
    if n > 0 {
      SurvivingIsAll(read, failed, n - 1);
      assert read[..n] == read[..n - 1] + [read[n - 1]];
    }
  }

  lemma {:induction false} SurvivingIsShort(read: seq<ChannelMessage>, failed: set<nat>, n: nat)
    requires n <= |read|
    ensures |Surviving(read, failed, n)| <= n
    ensures (exists k :: k in failed && 1 <= k <= n) ==> |Surviving(read, failed, n)| < n
  {
    if n > 0 {
      SurvivingIsShort(read, failed, n - 1);
    }
  }

  lemma {:induction false} SurvivorsSurvive(read: seq<ChannelMessage>, failed: set<nat>, n: nat, m: ChannelMessage)
    requires n <= |read| && m in Surviving(read, failed, n)
    requires forall i :: 0 <= i < |read| ==> IsInput(read[i]) && read[i].sn == i + 1
    ensures IsInput(m) && 1 <= m.sn <= n && m == read[m.sn - 1] && m.sn !in failed
  {
    if m in Surviving(read, failed, n - 1) {
      SurvivorsSurvive(read, failed, n - 1, m);
    }
  }

  lemma {:induction false} ChainCovers(failed: set<nat>, a: nat, ns: seq<nat>, e: nat, k: nat)
    requires Chain(failed, a, ns + [e]) && a < k < e && k !in failed
    ensures k in ns
    decreases |ns|
  {
    if ns != [] {
      assert (ns + [e])[0] == ns[0] && (ns + [e])[1..] == ns[1..] + [e];
      if k > ns[0] {
        ChainCovers(failed, ns[0], ns[1..], e, k);
      }
    }
  }

  lemma {:induction false} InputSnsOf(q: seq<ChannelMessage>, k: nat) returns (m: ChannelMessage)
    requires k in InputSns(q)
    ensures m in q && IsInput(m) && m.sn == k
  {
    if IsInput(q[0]) && q[0].sn == k {
      m := q[0];
    } else {
      m := InputSnsOf(q[1..], k);
    }
  }

  /** In every run the task has applied the input up to its counter, in order
      and once, except what it passed over. Only input whose live send failed
      is passed over, and of that, all that did not get onto a stream. */
  ghost predicate AppliedExactly(s: State) {
    && s.task.lastClient <= |s.read|
    && s.applied == Surviving(s.read, s.lost, s.task.lastClient)
    && s.unsent <= s.failed
    && LossOk(s.lost, s.failed, s.unsent, s.task.lastClient)
    && (forall m :: m in s.applied && m.StdinEof? ==> s.task.lastClient == |s.read| && !s.client.stdinOpen)
    && (!s.broke ==> s.childIn == StdinBytes(s.applied))
  }

  /** Everything sent and not yet applied is still in the resend list. */
  ghost predicate KeptForResend(s: State) {
    forall n :: s.task.lastClient < n <= |s.read| && n !in s.failed ==> s.read[n - 1] in s.client.sent
  }

  lemma AppliedFromInv(s: State)
    requires ReadOk(s) && AppliedOk(s)
    ensures AppliedExactly(s)
  {
    forall m | m in s.applied && m.StdinEof?
      ensures s.task.lastClient == |s.read| && !s.client.stdinOpen
    {
      SurvivorsSurvive(s.read, s.lost, s.task.lastClient, m);
    }
  }

  lemma KeptFromInv(s: State)
    requires AllGenuine(s) && SentOk(s)
    ensures KeptForResend(s)
  {
    forall n | s.task.lastClient < n <= |s.read| && n !in s.failed
      ensures s.read[n - 1] in s.client.sent
    {
      ChainCovers(s.failed, s.task.lastClient, InputSns(s.client.sent), |s.read| + 1, n);
      var m := InputSnsOf(s.client.sent, n);
      assert Genuine(s.read, s.unsent, m);
    }
  }

  /** What was typed is in the messages, byte for byte and in order, and they
      end exactly when the typing did. */
  lemma StdinIsAccounted(s: State)
    requires Reachable(s)
    ensures AppliedExactly(s) && KeptForResend(s)
    ensures StdinBytes(s.read) == s.typed
    ensures (exists m :: m in s.read && m.StdinEof?) <==> s.typedEof
  {
    ReachableInv(s);
    AppliedFromInv(s);
    KeptFromInv(s);
  }

  lemma TypedFromInv(s: State)
    requires ReadOk(s) && AppliedOk(s) && s.lost == {}
    ensures s.childIn <= s.typed
    ensures !s.broke && s.task.lastClient == |s.read| ==> s.childIn == s.typed && (s.task.stdin <==> !s.typedEof)
  {
    SurvivingIsAll(s.read, s.lost, s.task.lastClient);
    BytesOfPrefix(s.read, s.task.lastClient);
    assert s.read[..|s.read|] == s.read;
  }

  /** The child reads what was typed: a prefix of it as long as nothing was
      passed over, and all of it, with its end, once everything is applied to
      a child that still takes input. */
  lemma ChildReadsWhatWasTyped(s: State)
    requires Reachable(s) && s.lost == {}
    ensures s.childIn <= s.typed
    ensures !s.broke && s.task.lastClient == |s.read| ==> s.childIn == s.typed && (s.task.stdin <==> !s.typedEof)
  {
    ReachableInv(s);
    TypedFromInv(s);
  }

  /** The numbers up to the counter, of a set. */
  predicate NoneUpTo(ns: set<nat>, last: nat) {
    forall n :: n in ns ==> n > last
  }

  /** The child's input is the client's input, message for message, exactly
      when the task passed nothing over: always when no live send of a message
      up to the counter failed, never when one failed whose frame did not get
      onto the stream. So where a failure means that, it is exact if and only
      if no send failed. */
  lemma StdinIsExactIff(s: State)
    requires Reachable(s)
    ensures s.task.lastClient <= |s.read|
    ensures s.applied == s.read[..s.task.lastClient] <==> s.lost == {}
    ensures NoneUpTo(s.failed, s.task.lastClient) ==> s.lost == {}
    ensures s.lost == {} ==> NoneUpTo(s.unsent, s.task.lastClient)
    ensures s.failed == s.unsent ==>
              (s.applied == s.read[..s.task.lastClient] <==> NoneUpTo(s.failed, s.task.lastClient))
  {
    ReachableInv(s);
    ExactFromInv(s);
  }

  lemma ExactFromInv(s: State)
    requires ReadOk(s) && AppliedOk(s)
    ensures s.applied == s.read[..s.task.lastClient] <==> s.lost == {}
    ensures NoneUpTo(s.failed, s.task.lastClient) ==> s.lost == {}
    ensures s.lost == {} ==> NoneUpTo(s.unsent, s.task.lastClient)
  {
    if s.lost == {} {
      SurvivingIsAll(s.read, s.lost, s.task.lastClient);
    } else {
      var k :| k in s.lost;
      SurvivingIsShort(s.read, s.lost, s.task.lastClient);
    }
    if NoneUpTo(s.failed, s.task.lastClient) {
      assert forall k :: k !in s.lost;
    }
  }

  /** The exact fate of a message: up to the counter it was applied unless it
      was passed over, and that happens to failed sends only. */
  lemma PassedOverIff(s: State, k: nat)
    requires Reachable(s) && 1 <= k <= s.task.lastClient
    ensures k <= |s.read| && (s.read[k - 1] !in s.applied <==> k in s.lost)
    ensures k in s.lost ==> k in s.failed
  {
    ReachableInv(s);
    PassedOverFromInv(s, k);
  }

  lemma PassedOverFromInv(s: State, k: nat)
    requires ReadOk(s) && AppliedOk(s) && 1 <= k <= s.task.lastClient
    ensures s.read[k - 1] !in s.applied <==> k in s.lost
  {
    if s.read[k - 1] in s.applied {
      SurvivorsSurvive(s.read, s.lost, s.task.lastClient, s.read[k - 1]);
    } else if k !in s.lost {
      SurvivorsAreThere(s.read, s.lost, s.task.lastClient, k);
    }
  }

  lemma {:induction false} SurvivorsAreThere(read: seq<ChannelMessage>, lost: set<nat>, n: nat, k: nat)
    requires 1 <= k <= n <= |read| && k !in lost
    ensures read[k - 1] in Surviving(read, lost, n)
  {
    if k < n {
      SurvivorsAreThere(read, lost, n - 1, k);
    }
  }

  /** A message whose live send failed, and whose frame did not get onto the
      stream, never reaches the child. */
  lemma FailedSendIsLost(s: State, k: nat)
    requires Reachable(s) && k in s.unsent
    ensures 1 <= k <= |s.read| && IsInput(s.read[k - 1]) && s.read[k - 1].sn == k
    ensures s.read[k - 1] !in s.applied
  {
    ReachableInv(s);
    if s.read[k - 1] in s.applied {
      SurvivorsSurvive(s.read, s.lost, s.task.lastClient, s.read[k - 1]);
    }
  }

  /** The task's loose test on stream input never jumps over input that was
      sent; without failed sends it accepts exactly the next number, as the
      strict test on datagrams does. */
  lemma ServerTestIsStrict(s: State)
    requires Reachable(s) && Alive(s) && s.inbound != [] && s.inbound[0].FromStream?
    ensures var m := s.inbound[0].m;
            && Genuine(s.read, s.unsent, m)
            && NoGap(s.failed, s.task.lastClient, m.sn)
            && (s.failed == {} ==> (Accepts(s.task.lastClient, m, true) <==> m.sn == s.task.lastClient + 1))
  {
    ReachableInv(s);
    ResumeInput.StreamHeadHasNoGap(s);
    var m := s.inbound[0].m;
    assert s.task.lastClient + 1 < m.sn ==> s.task.lastClient + 1 in s.failed;
  }

  /** A datagram copy counts, for the task and for the client, exactly when the
      stream message would and nothing is missing before it. */
  lemma CopyCountsIffNext(last: nat, m: ChannelMessage)
    requires WorthDuplicating(m)
    ensures Accepts(last, m, false) <==> Accepts(last, m, true) && Between(last, m.sn) == {}
    ensures IsNext(m.sn, last, false) <==> IsNext(m.sn, last, true) && Between(last, m.sn) == {}
  {
    assert m.sn > last + 1 ==> last + 1 in Between(last, m.sn);
  }

  /** On a connection that has datagrams, exactly the small pieces of input are
      also sent as one, and exactly the small pieces of output; never an Exit
      or an end of input. */
  lemma SmallMessagesAreCopied(s: State, data: Bytes, c: nat)
    requires ClientCan(s, ReadStdin(data, true)) && AttachCan(s, c, Send)
    ensures var m, up := NextInput(s.client, data), s.conns[s.phase.conn].upCopies;
            DoReadStdin(s, data, true).conns[s.phase.conn].upCopies
            == up + if CurrentConn(s).quic && 0 < |data| <= 512 then {m} else {}
    ensures var m, down := s.conns[c].phase.batch[0], s.conns[c].downCopies;
            AttachStep(s, c, Send).conns[c].downCopies
            == down + if s.conns[c].quic && (m.Stdin? || m.Stdout? || m.Stderr?) && |m.data| <= 512 then {m} else {}
  {
  }

  // ------------------------------------------------------------------------
  // Keeping the message first

  /** The failed live send with the order of send and keep exchanged. */
  function KeepThenFail(s: State, data: Bytes): State {
    var m := NextInput(s.client, data);
    Typed(s, data).(client := OnStdin(s.client, data, true), read := s.read + [m], phase := AfterLoss(s))
  }

  lemma KeepSent(s: State, data: Bytes)
    requires SentOk(s) && ReadOk(s)
    ensures SentOk(KeepThenFail(s, data))
  {
    var m := NextInput(s.client, data);
    ResumeInput.InputSnsAppend(s.client.sent, m);
    ResumeInput.ChainNext(s.failed, s.task.lastClient, InputSns(s.client.sent), m.sn);
  }

  lemma KeepGenuine(s: State, data: Bytes)
    requires AllGenuine(s) && ReadOk(s)
    ensures AllGenuine(KeepThenFail(s, data))
  {
    ResumeInput.MoreReadGenuine(s, NextInput(s.client, data), {});
    assert s.unsent + {} == s.unsent;
  }

  lemma KeepFlow(s: State, data: Bytes)
    requires FlowOk(s)
    ensures FlowOk(KeepThenFail(s, data))
  {
    ResumeInput.LeaveFlow(s, AfterLoss(s));
    var s1, t := s.(phase := AfterLoss(s)), KeepThenFail(s, data);
    forall c | 0 <= c < |s.conns|
      ensures Pending(t, c) == Pending(s1, c) && Upcoming(t, c) == Upcoming(s1, c) == []
    {
    }
  }

  lemma KeepRead(s: State, data: Bytes)
    requires ReadOk(s) && s.client.stdinOpen
    ensures ReadOk(KeepThenFail(s, data))
  {
    ResumeInput.TypedMore(s, KeepThenFail(s, data), data);
  }

  lemma KeepThenFailKeepsInput(s: State, data: Bytes)
    requires InputInv(s) && s.client.stdinOpen
    ensures InputInv(KeepThenFail(s, data))
  {
    var m, t := NextInput(s.client, data), KeepThenFail(s, data);
    KeepSent(s, data);
    KeepGenuine(s, data);
    KeepFlow(s, data);
    KeepRead(s, data);
    ResumeInput.MoreReadApplied(s, t, m);
  }

  lemma KeepThenFailKeepsOutput(s: State, data: Bytes)
    requires OutputInv(s) && !s.phase.Done?
    ensures OutputInv(KeepThenFail(s, data))
  {
    ResumeOutput.OnlyClientMoved(s, KeepThenFail(s, data));
  }

  lemma KeepThenFailKeepsInv(s: State, data: Bytes)
    requires Inv(s) && ClientCan(s, ReadStdin(data, false))
    ensures Inv(KeepThenFail(s, data))
  {
    KeepThenFailKeepsInput(s, data);
    KeepThenFailKeepsOutput(s, data);
  }

  predicate FailsToSend(l: ClientLabel) {
    l.FailLate? || (l.ReadStdin? && !l.sendOk)
  }

  /** Steps of the protocol in which a failed live send has kept its message;
      one whose frame got through is then a good send before a drop. */
  ghost predicate RepairedNext(s: State, t: State) {
    || (exists data :: ClientCan(s, ReadStdin(data, false)) && t == KeepThenFail(s, data))
    || (exists l :: Enabled(s, l) && t == Step(s, l) && !(l.ByClient? && FailsToSend(l.cl)))
  }

  ghost predicate RepairedBehavior(b: seq<State>) {
    && b != []
    && Init(b[0])
    && forall i :: 0 <= i < |b| - 1 ==> RepairedNext(b[i], b[i + 1])
  }

  lemma OnlyFailedSendsFail(s: State, l: Label)
    requires Enabled(s, l) && !(l.ByClient? && FailsToSend(l.cl))
    ensures Step(s, l).failed == s.failed
  {
    match l {
      case ByClient(cl) => ClientFailures(s, cl);
      case ByAttachment(c, al) => AttachFailures(s, c, al);
      case ByTask(tl) => TaskFailures(s, tl);
      case ByDaemon(dl) => DaemonFailures(s, dl);
    }
  }

  lemma DaemonFailures(s: State, l: DaemonLabel)
    requires DaemonCan(s, l)
    ensures DaemonStep(s, l).failed == s.failed
  {
  }

  lemma ClientFailures(s: State, l: ClientLabel)
    requires ClientCan(s, l) && !FailsToSend(l)
    ensures ClientStep(s, l).failed == s.failed
  {
    if l.RecvFrame? {
      var conn := ReceivedDown(CurrentConn(s));
      ReactKeepsRest(SetConn(s, s.phase.conn, conn), CurrentConn(s).toClient[0], true, l.ackOk);
    } else if l.RecvCopy? {
      ReactKeepsRest(s, l.m, false, l.ackOk);
    }
  }

  lemma ReadFailures(s: State, ev: Event)
    requires s.daemons != []
    ensures DoReadChild(s, ev).failed == s.failed
  {
  }

  lemma TakeInputFailures(s: State, written: bool)
    requires s.daemons != [] && s.inbound != []
    ensures DoTakeInput(s, written).failed == s.failed
  {
    var s1 := s.(inbound := s.inbound[1..]);
    match s.inbound[0] {
      case FromStream(_, m) => ResumeInput.ApplyLeaves(s1, m, true, written);
      case FromDatagram(m) => ResumeInput.ApplyLeaves(s1, m, false, written);
      case AbortRequest =>
      case HandoverRequest =>
    }
  }

  lemma TaskFailures(s: State, l: TaskLabel)
    requires TaskCan(s, l)
    ensures TaskStep(s, l).failed == s.failed
  {
    match l {
      case ReadChild(ev) => ReadFailures(s, ev);
      case Notify =>
      case TakeInput(written) => TakeInputFailures(s, written);
      case LogExit =>
    }
  }

  lemma AttachFailures(s: State, c: nat, l: AttachLabel)
    requires AttachCan(s, c, l)
    ensures AttachStep(s, c, l).failed == s.failed
  {
    if l.TakeFrame? {
      TakeFrameFailures(s, c);
    }
  }

  lemma TakeFrameFailures(s: State, c: nat)
    requires AttachCan(s, c, TakeFrame)
    ensures DoTakeFrame(s, c).failed == s.failed
  {
  }

  lemma RepairedStep(s: State, t: State)
    requires Inv(s) && RepairedNext(s, t)
    ensures Inv(t) && t.failed == s.failed
  {
    if data :| ClientCan(s, ReadStdin(data, false)) && t == KeepThenFail(s, data) {
      KeepThenFailKeepsInv(s, data);
    } else {
      var l :| Enabled(s, l) && t == Step(s, l) && !(l.ByClient? && FailsToSend(l.cl));
      OtherStep(s, l);
    }
  }

  lemma OtherStep(s: State, l: Label)
    requires Inv(s) && Enabled(s, l) && !(l.ByClient? && FailsToSend(l.cl))
    ensures Inv(Step(s, l)) && Step(s, l).failed == s.failed
  {
    StepKeepsInv(s, l);
    OnlyFailedSendsFail(s, l);
  }

  lemma {:induction false} RepairedKeepsInv(b: seq<State>, i: nat)
    requires RepairedBehavior(b) && i < |b|
    ensures Inv(b[i]) && b[i].failed == {}
  {
    if i == 0 {
      InitOutput(b[0]);
      InitInput(b[0]);
    } else {
      RepairedKeepsInv(b, i - 1);
      assert RepairedNext(b[i - 1], b[i - 1 + 1]);
      RepairedStep(b[i - 1], b[i]);
    }
  }

  /** With the message kept first, the child's input is exact in every run, and
      the output guarantees stay as they are. */
  lemma KeepingFirstIsExact(b: seq<State>, i: nat)
    requires RepairedBehavior(b) && i < |b|
    ensures b[i].task.lastClient <= |b[i].read|
    ensures b[i].applied == b[i].read[..b[i].task.lastClient]
    ensures KeptForResend(b[i])
    ensures b[i].childIn <= b[i].typed
    ensures OutputExact(b[i])
  {
    RepairedKeepsInv(b, i);
    ExactFromInv(b[i]);
    TypedFromInv(b[i]);
    KeptFromInv(b[i]);
    OutputFromInv(b[i]);
  }
}
