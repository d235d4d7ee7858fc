/** Every step keeps the input half of the invariant. */
module ResumeInput {
  import opened Proto
  import opened OutboundLog
  import opened SessionTask
  import opened ExecClient
  import opened ResumeModel
  import opened ResumeInvariant

  // ------------------------------------------------------------------------
  // Chains of sequence numbers

  lemma {:induction false} ChainRaise(failed: set<nat>, a: nat, b: nat, ns: seq<nat>)
    requires Chain(failed, a, ns) && a <= b
    ensures Chain(failed, b, ns)
  {
  }

  lemma {:induction false} ChainMoreFailed(failed: set<nat>, more: set<nat>, a: nat, ns: seq<nat>)
    requires Chain(failed, a, ns) && failed <= more
    ensures Chain(more, a, ns)
    decreases |ns|
  {
    if ns != [] {
      ChainMoreFailed(failed, more, ns[0], ns[1..]);
    }
  }

  lemma {:induction false} ChainPrefix(failed: set<nat>, a: nat, xs: seq<nat>, ys: seq<nat>)
    requires Chain(failed, a, xs + ys)
    ensures Chain(failed, a, xs)
    decreases |xs|
  {
    if xs != [] {
      assert (xs + ys)[0] == xs[0] && (xs + ys)[1..] == xs[1..] + ys;
      ChainPrefix(failed, xs[0], xs[1..], ys);
    }
  }

  /** The number after the last one never opens a gap. */
  lemma {:induction false} ChainNext(failed: set<nat>, a: nat, xs: seq<nat>, n: nat)
    requires Chain(failed, a, xs + [n])
    ensures Chain(failed, a, xs + [n] + [n + 1])
    decreases |xs|
  {
    var l := xs + [n];
    if xs == [] {
      assert l + [n + 1] == [n, n + 1];
      assert Chain(failed, n + 1, []);
      assert Chain(failed, n, [n + 1]);
      assert [n, n + 1][1..] == [n + 1];
    } else {
      assert l[1..] == xs[1..] + [n];
      ChainNext(failed, xs[0], xs[1..], n);
      assert (l + [n + 1])[0] == xs[0] && (l + [n + 1])[1..] == xs[1..] + [n] + [n + 1];
    }
  }

  /** A number whose send failed may be jumped over from then on. */
  lemma {:induction false} ChainSkip(failed: set<nat>, a: nat, xs: seq<nat>, n: nat)
    requires Chain(failed, a, xs + [n])
    ensures Chain(failed + {n}, a, xs + [n + 1])
    decreases |xs|
  {
    if xs == [] {
      assert xs + [n] == [n] && xs + [n + 1] == [n + 1];
    } else {
      assert (xs + [n])[1..] == xs[1..] + [n] && (xs + [n + 1])[1..] == xs[1..] + [n + 1];
      ChainSkip(failed, xs[0], xs[1..], n);
    }
  }

  lemma {:induction false} InputSnsAppend(q: seq<ChannelMessage>, m: ChannelMessage)
    ensures InputSns(q + [m]) == InputSns(q) + (if IsInput(m) then [m.sn] else [])
  {
    if q != [] {
      assert (q + [m])[1..] == q[1..] + [m];
      InputSnsAppend(q[1..], m);
    }
  }

  lemma {:induction false} QueuedAppend(q: seq<Inbound>, c: nat, x: Inbound)
    ensures QueuedSns(q + [x], c)
         == QueuedSns(q, c) + (if x.FromStream? && x.conn == c && IsInput(x.m) then [x.m.sn] else [])
  {
    if q != [] {
      assert (q + [x])[1..] == q[1..] + [x];
      QueuedAppend(q[1..], c, x);
    }
  }

  lemma {:induction false} NoneQueued(q: seq<Inbound>, c: nat)
    requires forall x :: x in q && x.FromStream? ==> x.conn != c
    ensures QueuedSns(q, c) == []
  {
    if q != [] {
      assert q[0] in q;
      NoneQueued(q[1..], c);
    }
  }

  /** Dropping acknowledged input keeps the chain, because it was applied. */
  lemma ChainCons(failed: set<nat>, a: nat, n: nat, ns: seq<nat>)
    ensures Chain(failed, a, [n] + ns) <==> NoGap(failed, a, n) && Chain(failed, n, ns)
  {
    assert ([n] + ns)[1..] == ns;
  }

  lemma InputSnsCons(m: ChannelMessage, q: seq<ChannelMessage>, rest: seq<nat>)
    requires IsInput(m)
    ensures InputSns([m] + q) + rest == [m.sn] + (InputSns(q) + rest)
  {
    assert ([m] + q)[1..] == q;
  }

  lemma {:induction false} RetainedChain(failed: set<nat>, a: nat, sent: seq<ChannelMessage>, acked: nat, rest: seq<nat>)
    requires Chain(failed, a, InputSns(sent) + rest) && acked <= a
    requires forall m :: m in sent ==> IsInput(m)
    ensures Chain(failed, a, InputSns(Retained(sent, acked)) + rest)
    decreases |sent|
  {
    if sent != [] {
      var m, tail := sent[0], sent[1..];
      assert sent == [m] + tail && m in sent;
      InputSnsCons(m, tail, rest);
      ChainCons(failed, a, m.sn, InputSns(tail) + rest);
      if m.sn <= acked {
        ChainRaise(failed, m.sn, a, InputSns(tail) + rest);
        RetainedChain(failed, a, tail, acked, rest);
      } else {
        RetainedChain(failed, m.sn, tail, acked, rest);
        InputSnsCons(m, Retained(tail, acked), rest);
        ChainCons(failed, a, m.sn, InputSns(Retained(tail, acked)) + rest);
      }
    }
  }

  // ------------------------------------------------------------------------
  // Surviving input

  lemma {:induction false} SurvivingStable(read: seq<ChannelMessage>, failed: set<nat>, more: seq<ChannelMessage>, extra: set<nat>, n: nat)
    requires n <= |read| && forall k :: k in extra ==> k > n
    ensures Surviving(read + more, failed + extra, n) == Surviving(read, failed, n)
  {
    if n > 0 {
      SurvivingStable(read, failed, more, extra, n - 1);
    }
  }

  /** Up to the next surviving number, nothing else survives. */
  lemma {:induction false} SurvivingGap(read: seq<ChannelMessage>, failed: set<nat>, a: nat, b: nat)
    requires a < b <= |read| && NoGap(failed, a, b)
    ensures Surviving(read, failed, b - 1) == Surviving(read, failed, a)
    decreases b - a
  {
    if a + 1 < b {
      SurvivingGap(read, failed, a, b - 1);
      assert b - 1 in failed;
    }
  }

  // ------------------------------------------------------------------------
  // Steps that leave the input alone

  ghost predicate InputSame(s: State, t: State) {
    && t.client.sn == s.client.sn && t.client.sent == s.client.sent && t.client.stdinOpen == s.client.stdinOpen
    && t.read == s.read && t.failed == s.failed && t.applied == s.applied
    && t.unsent == s.unsent && t.lost == s.lost && t.typed == s.typed && t.typedEof == s.typedEof
    && t.childIn == s.childIn && t.broke == s.broke
    && t.task.lastClient == s.task.lastClient && t.task.stdin == s.task.stdin
  }

  /** Connection `c` carries the same input as before, or nobody needs it. */
  ghost predicate FlowSame(s: State, t: State, c: nat)
    requires c < |s.conns| == |t.conns|
  {
    && t.conns[c].phase.Requested? == s.conns[c].phase.Requested?
    && t.conns[c].daemon == s.conns[c].daemon
    && Upcoming(t, c) == Upcoming(s, c)
    && (|| Pending(t, c) == Pending(s, c)
        || (&& (Pending(s, c) == [] ==> Pending(t, c) == [])
            && !(Alive(t) && s.conns[c].daemon == |t.daemons| - 1)))
  }

  /** Only connection `c` carries something else than before. */
  lemma OneFlowMoved(s: State, t: State, c: nat)
    requires FlowOk(s) && c < |s.conns| == |t.conns| && |t.daemons| == |s.daemons|
    requires Alive(t) == Alive(s) && t.task == s.task && t.failed == s.failed && !t.phase.Connecting?
    requires !t.conns[c].phase.Requested? && !s.conns[c].phase.Requested? && t.conns[c].daemon == s.conns[c].daemon
    requires forall i :: 0 <= i < |s.conns| && i != c ==> FlowSame(s, t, i)
    requires Chain(s.failed, s.task.lastClient, Pending(s, c) + Upcoming(s, c)) ==>
               Chain(s.failed, s.task.lastClient, Pending(t, c) + Upcoming(t, c))
    ensures FlowOk(t)
  {
    forall i | 0 <= i < |t.conns| && t.conns[i].phase.Requested? ensures Pending(t, i) == [] {
      assert FlowSame(s, t, i);
    }
    if Alive(t) {
      forall i | 0 <= i < |t.conns| && !t.conns[i].phase.Requested? && t.conns[i].daemon == |t.daemons| - 1
        ensures Chain(t.failed, t.task.lastClient, Pending(t, i) + Upcoming(t, i))
      {
        if i != c {
          assert FlowSame(s, t, i);
        }
      }
    }
  }

  lemma FlowFrame(s: State, t: State)
    requires FlowOk(s) && |t.conns| == |s.conns| && |t.daemons| == |s.daemons|
    requires t.failed == s.failed && t.task.lastClient == s.task.lastClient
    requires Alive(t) ==> Alive(s)
    requires t.phase.Connecting? ==> t.phase == s.phase
    requires forall c :: 0 <= c < |s.conns| ==> FlowSame(s, t, c)
    ensures FlowOk(t)
  {
    forall c | 0 <= c < |t.conns| && t.conns[c].phase.Requested?
      ensures Pending(t, c) == []
    {
      assert FlowSame(s, t, c);
    }
    if t.phase.Connecting? && t.phase.conn < |t.conns| {
      assert FlowSame(s, t, t.phase.conn);
    }
    forall c | Alive(t) && 0 <= c < |t.conns| && !t.conns[c].phase.Requested? && t.conns[c].daemon == |t.daemons| - 1
      ensures Chain(t.failed, t.task.lastClient, Pending(t, c) + Upcoming(t, c))
    {
      assert FlowSame(s, t, c);
    }
  }

  lemma SameReadOk(s: State, t: State)
    requires InputSame(s, t) && ReadOk(s)
    ensures ReadOk(t)
  {
  }

  lemma SameApplied(s: State, t: State)
    requires InputSame(s, t) && AppliedOk(s)
    ensures AppliedOk(t)
  {
  }

  lemma SameSent(s: State, t: State)
    requires InputSame(s, t) && SentOk(s) && (t.phase.Resending? ==> s.phase.Resending? && t.phase.next == s.phase.next)
    ensures SentOk(t)
  {
  }

  lemma InputFrame(s: State, t: State)
    requires InputInv(s) && InputSame(s, t) && AllGenuine(t) && FlowOk(t)
    requires t.phase.Resending? ==> s.phase.Resending? && t.phase.next == s.phase.next
    ensures InputInv(t)
  {
    SameReadOk(s, t);
    SameApplied(s, t);
    SameSent(s, t);
  }

  /** The task, the logs and the registry may do what they like. */
  lemma OutsideInput(s: State, t: State)
    requires InputInv(s) && InputSame(s, t)
    requires t.conns == s.conns && t.inbound == s.inbound && t.phase == s.phase
    requires |t.daemons| == |s.daemons| && (Alive(t) ==> Alive(s))
    ensures InputInv(t)
  {
    forall c | 0 <= c < |s.conns|
      ensures FlowSame(s, t, c)
    {
    }
    FlowFrame(s, t);
    InputFrame(s, t);
  }

  // ------------------------------------------------------------------------
  // Attachments

  /** An attachment step that leaves the client's stream alone. */
  lemma ConnSameUp(s: State, c: nat, conn: Connection)
    requires InputInv(s) && c < |s.conns|
    requires conn.toServer == s.conns[c].toServer && conn.upCopies == s.conns[c].upCopies
    requires conn.phase.Requested? == s.conns[c].phase.Requested? && conn.daemon == s.conns[c].daemon
    ensures InputInv(SetConn(s, c, conn))
  {
    var t := SetConn(s, c, conn);
    forall i | 0 <= i < |s.conns|
      ensures FlowSame(s, t, i)
    {
      SetConnSame(s, c, conn, i);
    }
    FlowFrame(s, t);
    ConnGenuine(s, c, conn);
    InputFrame(s, t);
  }

  lemma SetConnSame(s: State, c: nat, conn: Connection, i: nat)
    requires c < |s.conns| && i < |s.conns| && conn.toServer == s.conns[c].toServer
    requires conn.phase.Requested? == s.conns[c].phase.Requested? && conn.daemon == s.conns[c].daemon
    ensures FlowSame(s, SetConn(s, c, conn), i)
  {
  }

  lemma QueueGenuine(s: State, x: Inbound)
    requires InputInv(s)
    requires x.FromStream? ==> CameFromLive(s, x.conn)
    requires x.FromStream? || x.FromDatagram? ==> Genuine(s.read, s.unsent, x.m)
    ensures AllGenuine(s.(inbound := s.inbound + [x]))
  {
  }

  /** Queueing anything that is not a stream message. */
  lemma QueuedSame(s: State, x: Inbound, i: nat)
    requires i < |s.conns| && !x.FromStream?
    ensures FlowSame(s, s.(inbound := s.inbound + [x]), i)
  {
    QueuedAppend(s.inbound, i, x);
    assert QueuedSns(s.inbound + [x], i) == QueuedSns(s.inbound, i);
  }

  lemma QueueOther(s: State, x: Inbound)
    requires InputInv(s) && !x.FromStream?
    requires x.FromDatagram? ==> Genuine(s.read, s.unsent, x.m)
    ensures InputInv(s.(inbound := s.inbound + [x]))
  {
    var t := s.(inbound := s.inbound + [x]);
    forall i | 0 <= i < |s.conns|
      ensures FlowSame(s, t, i)
    {
      QueuedSame(s, x, i);
    }
    QueueGenuine(s, x);
    FlowFrame(s, t);
    InputFrame(s, t);
  }

  lemma AcceptFlow(s: State, c: nat, conn: Connection)
    requires FlowOk(s) && CurrentOk(s) && c < |s.conns| && s.conns[c].phase.Requested? && !conn.phase.Requested?
    requires conn.toServer == s.conns[c].toServer
    ensures FlowOk(SetConn(s, c, conn))
  {
    var t := SetConn(s, c, conn);
    forall i | 0 <= i < |s.conns|
      ensures Pending(t, i) == Pending(s, i) && Upcoming(t, i) == Upcoming(s, i)
    {
    }
    assert Pending(t, c) + Upcoming(t, c) == [];
  }

  /** Replacing a connection by one that carries no other input. */
  lemma ConnGenuine(s: State, c: nat, conn: Connection)
    requires AllGenuine(s) && c < |s.conns|
    requires forall m :: m in conn.toServer ==> m in s.conns[c].toServer
    requires conn.upCopies == s.conns[c].upCopies
    requires !s.conns[c].phase.Requested? ==> !conn.phase.Requested? && conn.daemon == s.conns[c].daemon
    ensures AllGenuine(SetConn(s, c, conn))
  {
    assert GenuineConn(s.read, s.unsent, s.conns[c]);
    assert GenuineConn(s.read, s.unsent, conn);
  }

  lemma AcceptKeepsInput(s: State, c: nat, conn: Connection)
    requires InputInv(s) && CurrentOk(s) && c < |s.conns| && s.conns[c].phase.Requested? && !conn.phase.Requested?
    requires conn.toServer == s.conns[c].toServer && conn.upCopies == s.conns[c].upCopies
    ensures InputInv(SetConn(s, c, conn))
  {
    AcceptFlow(s, c, conn);
    ConnGenuine(s, c, conn);
    InputFrame(s, SetConn(s, c, conn));
  }

  lemma TakeAckSame(s: State, c: nat, next: AttachPhase, i: nat)
    requires c < |s.conns| && i < |s.conns| && s.conns[c].phase.Waiting? && s.conns[c].toServer != []
    requires s.conns[c].toServer[0].Ack? && (next.Fetching? || next.Ended?)
    ensures FlowSame(s, SetConn(s, c, ReceivedUp(s.conns[c], next)), i)
  {
  }

  lemma TakeAckKeepsInput(s: State, c: nat, next: AttachPhase)
    requires InputInv(s) && c < |s.conns| && s.conns[c].phase.Waiting? && s.conns[c].toServer != []
    requires s.conns[c].toServer[0].Ack? && (next.Fetching? || next.Ended?)
    ensures InputInv(SetConn(s, c, ReceivedUp(s.conns[c], next)))
  {
    var t := SetConn(s, c, ReceivedUp(s.conns[c], next));
    forall i | 0 <= i < |s.conns|
      ensures FlowSame(s, t, i)
    {
      TakeAckSame(s, c, next, i);
    }
    FlowFrame(s, t);
    ConnGenuine(s, c, ReceivedUp(s.conns[c], next));
    InputFrame(s, t);
  }

  /** The head of a stream handed to the task. */
  function Forwarded(s: State, c: nat): State
    requires s.daemons != [] && c < |s.conns| && s.conns[c].toServer != []
  {
    Deliver(SetConn(s, c, ReceivedUp(s.conns[c], Fetching)), s.conns[c].daemon, FromStream(c, s.conns[c].toServer[0]))
  }

  /** Moving the head of a stream to the end of the queue. */
  lemma HeadMoves(q: seq<Inbound>, up: seq<ChannelMessage>, c: nat)
    requires up != [] && IsInput(up[0])
    ensures QueuedSns(q + [FromStream(c, up[0])], c) + InputSns(up[1..]) == QueuedSns(q, c) + InputSns(up)
    ensures QueuedSns(q, c) + InputSns(up) != []
  {
    QueuedAppend(q, c, FromStream(c, up[0]));
    assert InputSns(up) == [up[0].sn] + InputSns(up[1..]);
  }

  lemma ForwardedIs(s: State, c: nat)
    requires s.daemons != [] && c < |s.conns| && s.conns[c].toServer != []
    ensures var t := Forwarded(s, c);
            && t.conns == s.conns[c := ReceivedUp(s.conns[c], Fetching)]
            && t == s.(conns := t.conns, inbound := t.inbound)
            && t.inbound == if Alive(s) && s.conns[c].daemon == Last(s)
                            then s.inbound + [FromStream(c, s.conns[c].toServer[0])] else s.inbound
  {
  }

  lemma ForwardedSame(s: State, t: State, c: nat, i: nat)
    requires s.daemons != [] && c < |s.conns| && i < |s.conns|
    requires s.conns[c].phase.Waiting? && s.conns[c].toServer != [] && IsInput(s.conns[c].toServer[0])
    requires t.conns == s.conns[c := ReceivedUp(s.conns[c], Fetching)]
    requires t == s.(conns := t.conns, inbound := t.inbound)
    requires t.inbound == if Alive(s) && s.conns[c].daemon == Last(s)
                          then s.inbound + [FromStream(c, s.conns[c].toServer[0])] else s.inbound
    ensures FlowSame(s, t, i)
  {
    var m := s.conns[c].toServer[0];
    if i == c {
      HeadMoves(s.inbound, s.conns[c].toServer, c);
    } else {
      OthersQueued(s.inbound, i, FromStream(c, m));
    }
    assert Upcoming(t, i) == Upcoming(s, i);
  }

  lemma OthersQueued(q: seq<Inbound>, i: nat, x: Inbound)
    requires x.FromStream? && x.conn != i
    ensures QueuedSns(q + [x], i) == QueuedSns(q, i)
  {
    QueuedAppend(q, i, x);
  }

  lemma ForwardedGenuine(s: State, c: nat)
    requires AllGenuine(s) && s.daemons != [] && c < |s.conns| && !s.conns[c].phase.Requested?
    requires s.conns[c].toServer != [] && IsInput(s.conns[c].toServer[0])
    ensures AllGenuine(Forwarded(s, c))
  {
    assert GenuineConn(s.read, s.unsent, s.conns[c]);
    assert s.conns[c].toServer[0] in s.conns[c].toServer;
    ConnGenuine(s, c, ReceivedUp(s.conns[c], Fetching));
  }

  lemma ForwardedFlow(s: State, c: nat)
    requires FlowOk(s) && s.daemons != [] && c < |s.conns|
    requires s.conns[c].phase.Waiting? && s.conns[c].toServer != [] && IsInput(s.conns[c].toServer[0])
    ensures FlowOk(Forwarded(s, c))
  {
    var t := Forwarded(s, c);
    ForwardedIs(s, c);
    forall i | 0 <= i < |s.conns|
      ensures FlowSame(s, t, i)
    {
      ForwardedSame(s, t, c, i);
    }
    FlowFrame(s, t);
  }

  lemma ForwardedKeepsInput(s: State, c: nat)
    requires InputInv(s) && s.daemons != [] && c < |s.conns|
    requires s.conns[c].phase.Waiting? && s.conns[c].toServer != [] && IsInput(s.conns[c].toServer[0])
    ensures InputInv(Forwarded(s, c))
  {
    ForwardedFlow(s, c);
    ForwardedGenuine(s, c);
    InputFrame(s, Forwarded(s, c));
  }

  lemma TakeFrameKeepsInput(s: State, c: nat)
    requires InputInv(s) && ConnsOk(s) && AttachCan(s, c, TakeFrame)
    ensures InputInv(DoTakeFrame(s, c))
  {
    UpFrameKinds(s, c);
    if s.conns[c].toServer[0].Ack? {
      TakeAckFrameKeepsInput(s, c);
    } else {
      ForwardedKeepsInput(s, c);
    }
  }

  lemma UpFrameKinds(s: State, c: nat)
    requires ConnsOk(s) && c < |s.conns| && s.conns[c].toServer != []
    ensures s.conns[c].toServer[0].Ack? || IsInput(s.conns[c].toServer[0])
  {
    assert ConnOk(s.history, Consumed(s), s.task.lastClient, s.daemons, s.conns[c]);
    assert s.conns[c].toServer[0] in s.conns[c].toServer;
  }

  /** After an Ack frame: a shorter stream, and possibly a changed daemon. */
  lemma AckFrameIs(s: State, c: nat, next: AttachPhase)
    requires AttachCan(s, c, TakeFrame) && s.conns[c].toServer[0].Ack?
    requires var conn := s.conns[c];
             next == if conn.exitSn.Some? && conn.toServer[0].sn >= conn.exitSn.value then Ended else Fetching
    ensures var t := DoTakeFrame(s, c);
            && t == SetConn(s, c, ReceivedUp(s.conns[c], next)).(daemons := t.daemons)
            && |t.daemons| == |s.daemons|
  {
  }

  lemma DaemonsAreNoInput(s: State, ds: seq<Daemon>)
    requires InputInv(s) && |ds| == |s.daemons|
    ensures InputInv(s.(daemons := ds))
  {
    OutsideInput(s, s.(daemons := ds));
  }

  lemma TakeAckMovesInput(s: State, c: nat, next: AttachPhase, ds: seq<Daemon>)
    requires InputInv(s) && c < |s.conns| && s.conns[c].phase.Waiting? && s.conns[c].toServer != []
    requires s.conns[c].toServer[0].Ack? && (next.Fetching? || next.Ended?) && |ds| == |s.daemons|
    ensures InputInv(SetConn(s, c, ReceivedUp(s.conns[c], next)).(daemons := ds))
  {
    TakeAckKeepsInput(s, c, next);
    DaemonsAreNoInput(SetConn(s, c, ReceivedUp(s.conns[c], next)), ds);
  }

  lemma TakeAckFrameKeepsInput(s: State, c: nat)
    requires InputInv(s) && AttachCan(s, c, TakeFrame) && s.conns[c].toServer[0].Ack?
    ensures InputInv(DoTakeFrame(s, c))
  {
    var conn := s.conns[c];
    var next := if conn.exitSn.Some? && conn.toServer[0].sn >= conn.exitSn.value then Ended else Fetching;
    AckFrameIs(s, c, next);
    TakeAckMovesInput(s, c, next, DoTakeFrame(s, c).daemons);
  }

  lemma TakeCopyKeepsInput(s: State, c: nat, m: ChannelMessage)
    requires InputInv(s) && AttachCan(s, c, TakeCopy(m))
    ensures InputInv(AttachStep(s, c, TakeCopy(m)))
  {
    assert GenuineConn(s.read, s.unsent, s.conns[c]);
    ConnSameUp(s, c, Looping(s.conns[c]));
    QueueOther(SetConn(s, c, Looping(s.conns[c])), FromDatagram(m));
  }

  lemma AttachStepKeepsInput(s: State, c: nat, l: AttachLabel)
    requires InputInv(s) && CurrentOk(s) && ConnsOk(s) && AttachCan(s, c, l)
    ensures InputInv(AttachStep(s, c, l))
  {
    var conn := s.conns[c];
    match l {
      case Accept(d) => AcceptKeepsInput(s, c, Attached(conn, d, s.daemons[d].log));
      case Refuse(d) => AcceptKeepsInput(s, c, Refused(conn, d));
      case Fetch => ConnSameUp(s, c, Fetched(conn, s.daemons[conn.daemon].log));
      case Send => ConnSameUp(s, c, SentOne(conn));
      case AckStdin => ConnSameUp(s, c, StdinAcked(conn, s.daemons[conn.daemon].stdinApplied));
      case Changed => ConnSameUp(s, c, Woken(conn, s.daemons[conn.daemon].log));
      case TakeFrame => TakeFrameKeepsInput(s, c);
      case TakeCopy(m) => TakeCopyKeepsInput(s, c, m);
      case Tick => ConnSameUp(s, c, Looping(conn));
      case Close => ConnSameUp(s, c, conn.(phase := Ended));
    }
  }

  // ------------------------------------------------------------------------
  // The task takes an input

  /** Taking the head of the queue: what is left of each connection's chain. */
  lemma HeadOfQueue(s: State, c: nat)
    requires FlowOk(s) && Alive(s) && s.inbound != [] && c < |s.conns|
    requires !s.conns[c].phase.Requested? && s.conns[c].daemon == |s.daemons| - 1
    ensures var t := s.(inbound := s.inbound[1..]);
            var x := s.inbound[0];
            if x.FromStream? && x.conn == c && IsInput(x.m)
            then NoGap(s.failed, s.task.lastClient, x.m.sn)
                 && Chain(s.failed, x.m.sn, Pending(t, c) + Upcoming(t, c))
            else Pending(t, c) == Pending(s, c)
  {
    var t := s.(inbound := s.inbound[1..]);
    var x := s.inbound[0];
    HeadIsPending(s, c);
    assert Upcoming(t, c) == Upcoming(s, c);
    if x.FromStream? && x.conn == c && IsInput(x.m) {
      ChainCons(s.failed, s.task.lastClient, x.m.sn, Pending(t, c) + Upcoming(t, c));
    }
  }

  lemma HeadIsPending(s: State, c: nat)
    requires s.inbound != [] && c < |s.conns|
    ensures var t := s.(inbound := s.inbound[1..]);
            var x := s.inbound[0];
            if x.FromStream? && x.conn == c && IsInput(x.m)
            then forall rest :: Pending(s, c) + rest == [x.m.sn] + (Pending(t, c) + rest)
            else Pending(t, c) == Pending(s, c)
  {
  }

  lemma AcceptedIsNext(s: State, m: ChannelMessage, reliable: bool)
    requires AppliedOk(s) && Genuine(s.read, s.unsent, m) && Accepts(s.task.lastClient, m, reliable)
    requires reliable ==> NoGap(s.failed, s.task.lastClient, m.sn)
    ensures var lost := s.lost + Between(s.task.lastClient, m.sn);
            Surviving(s.read, lost, m.sn) == s.applied + [m] && LossOk(lost, s.failed, s.unsent, m.sn)
  {
    var n, between := s.task.lastClient, Between(s.task.lastClient, m.sn);
    assert s.read + [] == s.read;
    SurvivingStable(s.read, s.lost, [], between, n);
    SurvivingGap(s.read, s.lost + between, n, m.sn);
  }

  lemma ApplyApplied(s: State, m: ChannelMessage, reliable: bool, written: bool)
    requires AppliedOk(s) && ReadOk(s) && s.daemons != []
    requires Genuine(s.read, s.unsent, m) && Accepts(s.task.lastClient, m, reliable)
    requires reliable ==> NoGap(s.failed, s.task.lastClient, m.sn)
    ensures AppliedOk(Apply(s, m, reliable, written))
  {
    AcceptedIsNext(s, m, reliable);
    NoEofYet(s, m);
    ChildGets(s.childIn, s.applied, m);
    AppliedNext(s, Apply(s, m, reliable, written), m, written);
  }

  lemma AppliedNext(s: State, t: State, m: ChannelMessage, written: bool)
    requires AppliedOk(s) && Genuine(s.read, s.unsent, m)
    requires Surviving(s.read, t.lost, m.sn) == s.applied + [m] && LossOk(t.lost, t.failed, t.unsent, m.sn)
    requires !(s.task.lastClient > 0 && s.read[s.task.lastClient - 1].StdinEof?)
    requires StdinBytes(s.applied + [m]) == if m.Stdin? then StdinBytes(s.applied) + m.data else StdinBytes(s.applied)
    requires t.read == s.read && t.failed == s.failed && t.applied == s.applied + [m] && t.task.lastClient == m.sn
    requires t.task.stdin == (s.task.stdin && m.Stdin? && written)
    requires t.childIn == if m.Stdin? && s.task.stdin && written then s.childIn + m.data else s.childIn
    requires t.broke == (s.broke || (m.Stdin? && s.task.stdin && !written))
    ensures AppliedOk(t)
  {
  }

  lemma NoEofYet(s: State, m: ChannelMessage)
    requires ReadOk(s) && Genuine(s.read, s.unsent, m) && s.task.lastClient < m.sn
    ensures !(s.task.lastClient > 0 && s.read[s.task.lastClient - 1].StdinEof?)
  {
  }

  lemma ChildGets(childIn: Bytes, applied: seq<ChannelMessage>, m: ChannelMessage)
    requires IsInput(m)
    ensures StdinBytes(applied + [m]) == if m.Stdin? then StdinBytes(applied) + m.data else StdinBytes(applied)
    ensures childIn <= StdinBytes(applied) ==> childIn <= StdinBytes(applied + [m])
  {
    BytesOfOneMore(applied, m);
  }

  /** Applying an input lets every chain start higher. */
  lemma ApplyFlow(s: State, m: ChannelMessage, reliable: bool, written: bool)
    requires FlowOk(s) && s.daemons != [] && Accepts(s.task.lastClient, m, reliable)
    ensures FlowOk(Apply(s, m, reliable, written))
  {
    var t := Apply(s, m, reliable, written);
    forall c | Alive(t) && 0 <= c < |t.conns| && !t.conns[c].phase.Requested? && t.conns[c].daemon == |t.daemons| - 1
      ensures Chain(t.failed, t.task.lastClient, Pending(t, c) + Upcoming(t, c))
    {
      ChainRaise(s.failed, s.task.lastClient, m.sn, Pending(s, c) + Upcoming(s, c));
    }
  }

  lemma ApplySent(s: State, m: ChannelMessage, reliable: bool, written: bool)
    requires SentOk(s) && s.daemons != [] && Accepts(s.task.lastClient, m, reliable)
    ensures SentOk(Apply(s, m, reliable, written))
  {
    ChainRaise(s.failed, s.task.lastClient, m.sn, InputSns(s.client.sent) + [|s.read| + 1]);
  }

  lemma ApplyGenuine(s: State, m: ChannelMessage, reliable: bool, written: bool)
    requires AllGenuine(s) && ReadOk(s) && s.daemons != []
    ensures AllGenuine(Apply(s, m, reliable, written)) && ReadOk(Apply(s, m, reliable, written))
  {
    ApplyLeaves(s, m, reliable, written);
    SameGenuine(s, Apply(s, m, reliable, written));
  }

  lemma ApplyLeaves(s: State, m: ChannelMessage, reliable: bool, written: bool)
    requires s.daemons != []
    ensures var t := Apply(s, m, reliable, written);
            && t == s.(daemons := t.daemons, task := t.task, applied := t.applied, lost := t.lost,
                       childIn := t.childIn, broke := t.broke)
            && |t.daemons| == |s.daemons|
  {
  }

  lemma SameGenuine(s: State, t: State)
    requires AllGenuine(s) && ReadOk(s)
    requires t.client == s.client && t.read == s.read && t.typed == s.typed && t.typedEof == s.typedEof
    requires t.failed == s.failed && t.unsent == s.unsent
    requires t.conns == s.conns && t.inbound == s.inbound && t.mode == s.mode && |t.daemons| == |s.daemons|
    ensures AllGenuine(t) && ReadOk(t)
  {
  }

  lemma ApplyKeepsInput(s: State, m: ChannelMessage, reliable: bool, written: bool)
    requires InputInv(s) && s.daemons != [] && Genuine(s.read, s.unsent, m)
    requires reliable ==> NoGap(s.failed, s.task.lastClient, m.sn)
    ensures InputInv(Apply(s, m, reliable, written))
  {
    if Accepts(s.task.lastClient, m, reliable) {
      ApplyApplied(s, m, reliable, written);
      ApplyFlow(s, m, reliable, written);
      ApplySent(s, m, reliable, written);
      ApplyGenuine(s, m, reliable, written);
    }
  }

  /** Datagrams, aborts and shutdown requests leave the streams alone. */
  lemma PopOther(s: State)
    requires InputInv(s) && Alive(s) && s.inbound != [] && !s.inbound[0].FromStream?
    ensures InputInv(s.(inbound := s.inbound[1..]))
  {
    var t := s.(inbound := s.inbound[1..]);
    forall i | 0 <= i < |s.conns|
      ensures FlowSame(s, t, i)
    {
      PoppedSame(s, i);
    }
    FlowFrame(s, t);
    PopGenuine(s);
    InputFrame(s, t);
  }

  lemma PoppedSame(s: State, i: nat)
    requires i < |s.conns| && s.inbound != [] && !s.inbound[0].FromStream?
    ensures FlowSame(s, s.(inbound := s.inbound[1..]), i)
  {
    var t := s.(inbound := s.inbound[1..]);
    assert QueuedSns(s.inbound, i) == QueuedSns(t.inbound, i);
  }

  /** Taking a stream message and raising the counter to at least its number. */
  lemma StreamInputChain(s: State, c: nat, last: nat)
    requires FlowOk(s) && Alive(s) && c < |s.conns|
    requires s.inbound != [] && s.inbound[0].FromStream? && IsInput(s.inbound[0].m)
    requires !s.conns[c].phase.Requested? && s.conns[c].daemon == |s.daemons| - 1
    requires s.task.lastClient <= last && s.inbound[0].m.sn <= last
    ensures var t := s.(inbound := s.inbound[1..]);
            Chain(s.failed, last, Pending(t, c) + Upcoming(t, c))
  {
    HeadOfQueue(s, c);
    var t := s.(inbound := s.inbound[1..]);
    if s.inbound[0].conn == c {
      ChainRaise(s.failed, s.inbound[0].m.sn, last, Pending(t, c) + Upcoming(t, c));
    } else {
      ChainRaise(s.failed, s.task.lastClient, last, Pending(t, c) + Upcoming(t, c));
    }
  }

  lemma PopKeepsEmpty(s: State, c: nat)
    requires s.inbound != [] && c < |s.conns| && Pending(s, c) == []
    ensures Pending(s.(inbound := s.inbound[1..]), c) == []
  {
  }

  lemma StreamInputFlow(s: State, t: State)
    requires FlowOk(s) && Alive(s)
    requires s.inbound != [] && s.inbound[0].FromStream? && IsInput(s.inbound[0].m)
    requires t.inbound == s.inbound[1..] && t.conns == s.conns && t.phase == s.phase
    requires t.client == s.client && t.read == s.read && t.failed == s.failed && t.unsent == s.unsent && |t.daemons| == |s.daemons|
    requires s.task.lastClient <= t.task.lastClient && s.inbound[0].m.sn <= t.task.lastClient
    ensures FlowOk(t)
  {
    var s1 := s.(inbound := s.inbound[1..]);
    forall c | 0 <= c < |t.conns|
      ensures Pending(t, c) == Pending(s1, c) && Upcoming(t, c) == Upcoming(s1, c)
      ensures Pending(s, c) == [] ==> Pending(t, c) == []
      ensures !t.conns[c].phase.Requested? && t.conns[c].daemon == |t.daemons| - 1 ==>
                Chain(t.failed, t.task.lastClient, Pending(t, c) + Upcoming(t, c))
    {
      if Pending(s, c) == [] { PopKeepsEmpty(s, c); }
      if !t.conns[c].phase.Requested? && t.conns[c].daemon == |t.daemons| - 1 {
        StreamInputChain(s, c, t.task.lastClient);
      }
    }
  }

  lemma StreamHeadHasNoGap(s: State)
    requires AllGenuine(s) && FlowOk(s) && Alive(s) && s.inbound != [] && s.inbound[0].FromStream?
    ensures Genuine(s.read, s.unsent, s.inbound[0].m)
    ensures NoGap(s.failed, s.task.lastClient, s.inbound[0].m.sn)
  {
    assert s.inbound[0] in s.inbound;
    HeadOfQueue(s, s.inbound[0].conn);
  }

  lemma PopGenuine(s: State)
    requires AllGenuine(s) && s.inbound != []
    ensures AllGenuine(s.(inbound := s.inbound[1..]))
  {
  }

  lemma StreamInputKeepsInput(s: State, written: bool)
    requires InputInv(s) && Alive(s) && s.daemons != [] && s.inbound != [] && s.inbound[0].FromStream?
    ensures InputInv(Apply(s.(inbound := s.inbound[1..]), s.inbound[0].m, true, written))
  {
    StreamHeadHasNoGap(s);
    PopGenuine(s);
    var m := s.inbound[0].m;
    var s1 := s.(inbound := s.inbound[1..]);
    var t := Apply(s1, m, true, written);
    SameReadOk(s, s1);
    SameApplied(s, s1);
    SameSent(s, s1);
    ApplyGenuine(s1, m, true, written);
    StreamInputFlow(s, t);
    if Accepts(s.task.lastClient, m, true) {
      ApplyApplied(s1, m, true, written);
      ApplySent(s1, m, true, written);
    }
  }

  lemma StopKeepsInput(s: State, mode: Mode)
    requires InputInv(s) && (mode.Stopped? || mode.Replied? || mode.HandedOver?)
    ensures InputInv(s.(mode := mode))
    ensures InputInv(s.(mode := mode, inbound := []))
  {
    OutsideInput(s, s.(mode := mode));
    EmptyQueue(s.(mode := mode));
  }

  lemma EmptyQueue(s: State)
    requires InputInv(s) && !Alive(s)
    ensures InputInv(s.(inbound := []))
  {
    var t := s.(inbound := []);
    forall i | 0 <= i < |s.conns|
      ensures FlowSame(s, t, i)
    {
    }
    FlowFrame(s, t);
    InputFrame(s, t);
  }

  lemma TakeInputKeepsInput(s: State, written: bool)
    requires InputInv(s) && TaskCan(s, TakeInput(written))
    ensures InputInv(DoTakeInput(s, written))
  {
    match s.inbound[0] {
      case FromStream(_, m) => StreamInputKeepsInput(s, written);
      case FromDatagram(m) =>
        assert s.inbound[0] in s.inbound;
        PopOther(s);
        ApplyKeepsInput(s.(inbound := s.inbound[1..]), m, false, written);
      case AbortRequest =>
        PopOther(s);
        StopKeepsInput(s.(inbound := s.inbound[1..]), Stopped);
      case HandoverRequest =>
        StopKeepsInput(s, Replied(HandOver(s.task, s.daemons[Last(s)].log)));
    }
  }

  ghost predicate Quiet(s: State, t: State) {
    && InputSame(s, t) && t.conns == s.conns && t.inbound == s.inbound && t.phase == s.phase
    && |t.daemons| == |s.daemons| && (Alive(t) ==> Alive(s))
  }

  lemma LoggedIsQuiet(s: State, m: ChannelMessage, final: bool)
    requires s.daemons != [] && Alive(s)
    ensures Quiet(s, Logged(s, m, final))
  {
  }

  lemma ReadIsQuiet(s: State, ev: Event)
    requires TaskCan(s, ReadChild(ev))
    ensures Quiet(s, DoReadChild(s, ev))
  {
    match ev
    case StdoutRead(data) => StdoutIsQuiet(s, data);
    case StderrRead(data) => StderrIsQuiet(s, data);
    case ExitRead(_) =>
    case Input(_, _, _) =>
  }

  lemma StdoutIsQuiet(s: State, data: Bytes)
    requires s.daemons != [] && Alive(s)
    ensures Quiet(s, DoReadChild(s, StdoutRead(data)))
  {
    if data != [] {
      LoggedIsQuiet(s.(childOut := s.childOut + data), Stdout(s.task.sn + 1, data), false);
    }
  }

  lemma StderrIsQuiet(s: State, data: Bytes)
    requires s.daemons != [] && Alive(s)
    ensures Quiet(s, DoReadChild(s, StderrRead(data)))
  {
    if data != [] {
      LoggedIsQuiet(s.(childErr := s.childErr + data), Stderr(s.task.sn + 1, data), false);
    }
  }

  lemma NotifyIsQuiet(s: State)
    requires s.daemons != [] && s.mode.Notifying?
    ensures Quiet(s, DoNotify(s))
  {
  }

  lemma TaskStepKeepsInput(s: State, l: TaskLabel)
    requires InputInv(s) && TaskCan(s, l)
    ensures InputInv(TaskStep(s, l))
  {
    match l {
      case ReadChild(ev) => ReadIsQuiet(s, ev); OutsideInput(s, DoReadChild(s, ev));
      case Notify => NotifyIsQuiet(s); OutsideInput(s, DoNotify(s));
      case TakeInput(written) => TakeInputKeepsInput(s, written);
      case LogExit =>
        LoggedIsQuiet(s, Exit(s.task.sn + 1, s.task.exitCode.value), true);
        OutsideInput(s, DoLogExit(s));
    }
  }

  // ------------------------------------------------------------------------
  // Restart

  lemma RestoredCounters(s: State)
    requires s.mode.HandedOver? && RecordOk(s, s.mode.record)
    ensures InputSame(s, DoRestore(s))
  {
    RolesTellTheTask(s.task);
  }

  lemma RestoredFlow(s: State)
    requires FlowOk(s) && ConnsOk(s) && s.mode.HandedOver?
    ensures FlowOk(DoRestore(s))
  {
    var t := DoRestore(s);
    forall c | 0 <= c < |s.conns|
      ensures Pending(s, c) == [] ==> Pending(t, c) == []
      ensures !t.conns[c].phase.Requested? ==> t.conns[c].daemon < |t.daemons| - 1
    {
      assert ConnOk(s.history, Consumed(s), s.task.lastClient, s.daemons, s.conns[c]);
    }
  }

  lemma RestoreKeepsInput(s: State)
    requires InputInv(s) && ConnsOk(s) && s.mode.HandedOver? && RecordOk(s, s.mode.record)
    ensures InputInv(DoRestore(s))
  {
    RestoredCounters(s);
    RestoredFlow(s);
    InputFrame(s, DoRestore(s));
  }

  lemma DaemonStepKeepsInput(s: State, l: DaemonLabel)
    requires InputInv(s) && ConnsOk(s) && TaskOk(s) && DaemonCan(s, l)
    ensures InputInv(DaemonStep(s, l))
  {
    match l {
      case RequestHandover => QueueOther(s, HandoverRequest);
      case Collect => CollectKeepsInput(s);
      case RestoreRecord => RestoreKeepsInput(s);
      case ShutDown => ShutDownKeepsInput(s);
      case Expire(d) => ExpireKeepsInput(s, d);
    }
  }

  lemma CollectKeepsInput(s: State)
    requires InputInv(s) && s.daemons != [] && s.mode.Replied?
    ensures InputInv(DoCollect(s))
  {
    OutsideInput(s, DoCollect(s));
  }

  lemma ShutDownKeepsInput(s: State)
    requires InputInv(s) && s.daemons != []
    ensures InputInv(DoShutDown(s))
  {
    OutsideInput(s, DoShutDown(s));
  }

  lemma ExpireKeepsInput(s: State, d: nat)
    requires InputInv(s) && d < |s.daemons|
    ensures InputInv(Deliver(SetDaemon(s, d, s.daemons[d].(registered := false)), d, AbortRequest))
  {
    var s1 := SetDaemon(s, d, s.daemons[d].(registered := false));
    OutsideInput(s, s1);
    QueueOther(s1, AbortRequest);
  }

  // ------------------------------------------------------------------------
  // The client

  lemma ConnectKeepsInput(s: State, quic: bool)
    requires InputInv(s) && s.phase.Idle?
    ensures InputInv(DoConnect(s, quic))
  {
    ConnectFlow(s, quic);
    ConnectGenuine(s, quic);
    InputFrame(s, DoConnect(s, quic));
  }

  lemma ConnectGenuine(s: State, quic: bool)
    requires AllGenuine(s)
    ensures AllGenuine(DoConnect(s, quic))
  {
  }

  lemma ConnectFlow(s: State, quic: bool)
    requires FlowOk(s) && AllGenuine(s) && s.phase.Idle?
    ensures FlowOk(DoConnect(s, quic))
  {
    ConnectNew(s, quic);
    ConnectSame(s, quic);
  }

  lemma ConnectNew(s: State, quic: bool)
    requires AllGenuine(s)
    ensures Pending(DoConnect(s, quic), |s.conns|) == []
  {
    NoneQueued(s.inbound, |s.conns|);
  }

  lemma ConnectSame(s: State, quic: bool)
    requires s.phase.Idle?
    ensures var t := DoConnect(s, quic);
            forall c :: 0 <= c < |s.conns| ==> Pending(t, c) == Pending(s, c) && Upcoming(t, c) == Upcoming(s, c)
  {
  }

  /** The client gives up its connection: its unsent tail is forgotten. */
  lemma LeaveFlow(s: State, p: Phase)
    requires FlowOk(s) && !HasConn(p)
    ensures FlowOk(s.(phase := p))
  {
    var t := s.(phase := p);
    forall c | 0 <= c < |s.conns|
      ensures Pending(t, c) == Pending(s, c) && Upcoming(t, c) == []
      ensures Chain(s.failed, s.task.lastClient, Pending(s, c) + Upcoming(s, c)) ==>
                Chain(s.failed, s.task.lastClient, Pending(t, c) + Upcoming(t, c))
    {
      if Chain(s.failed, s.task.lastClient, Pending(s, c) + Upcoming(s, c)) {
        ChainPrefix(s.failed, s.task.lastClient, Pending(s, c), Upcoming(s, c));
        assert Pending(t, c) + Upcoming(t, c) == Pending(s, c);
      }
    }
  }

  lemma LeaveKeepsInput(s: State, p: Phase)
    requires InputInv(s) && !HasConn(p)
    ensures InputInv(s.(phase := p))
  {
    LeaveFlow(s, p);
    InputFrame(s, s.(phase := p));
  }

  lemma StartedFlow(s: State)
    requires FlowOk(s) && SentOk(s) && ClientCan(s, RecvStarted)
    ensures FlowOk(DoRecvStarted(s))
  {
    var t := DoRecvStarted(s);
    var c := s.phase.conn;
    forall i | 0 <= i < |s.conns|
      ensures Pending(t, i) == Pending(s, i)
      ensures i != c ==> Upcoming(t, i) == Upcoming(s, i)
    {
    }
    AllFromStart(s.client.sent);
    assert Pending(t, c) + Upcoming(t, c) == InputSns(s.client.sent) + [|s.read| + 1];
  }

  lemma {:induction false} FromIsRest(q: seq<ChannelMessage>, k: nat)
    requires k <= |q|
    ensures InputSnsFrom(q, k) == InputSns(q[k..])
    decreases |q| - k
  {
    if k < |q| {
      FromIsRest(q, k + 1);
      assert q[k..][0] == q[k] && q[k..][1..] == q[k + 1..];
    }
  }

  lemma AllFromStart(q: seq<ChannelMessage>)
    ensures InputSnsFrom(q, 0) == InputSns(q)
  {
    FromIsRest(q, 0);
    assert q[0..] == q;
  }

  lemma StartedKeepsInput(s: State)
    requires InputInv(s) && ClientCan(s, RecvStarted)
    ensures InputInv(DoRecvStarted(s))
  {
    var t := DoRecvStarted(s);
    StartedFlow(s);
    StartedGenuine(s);
    SameReadOk(s, t);
    SameApplied(s, t);
  }

  lemma StartedGenuine(s: State)
    requires AllGenuine(s) && ClientCan(s, RecvStarted)
    ensures AllGenuine(DoRecvStarted(s))
  {
    ConnGenuine(s, s.phase.conn, ReceivedDown(CurrentConn(s)));
  }

  /** Resending moves one number from the tail to the stream. */
  lemma ResendPending(s: State)
    requires AllGenuine(s) && ClientCan(s, Resend)
    ensures var t, c := DoResend(s), s.phase.conn;
            Pending(t, c) + Upcoming(t, c) == Pending(s, c) + Upcoming(s, c)
  {
    var t := DoResend(s);
    var c, n := s.phase.conn, s.phase.next;
    var m := s.client.sent[n];
    assert m in s.client.sent;
    InputSnsAppend(s.conns[c].toServer, m);
    assert Upcoming(s, c) == [m.sn] + Upcoming(t, c);
    assert Pending(t, c) == Pending(s, c) + [m.sn];
  }

  lemma ResendSame(s: State)
    requires ClientCan(s, Resend)
    ensures forall i :: 0 <= i < |s.conns| && i != s.phase.conn ==> FlowSame(s, DoResend(s), i)
  {
  }

  lemma ResendFlow(s: State)
    requires FlowOk(s) && AllGenuine(s) && ClientCan(s, Resend) && !CurrentConn(s).phase.Requested?
    ensures FlowOk(DoResend(s))
  {
    ResendPending(s);
    ResendSame(s);
    OneFlowMoved(s, DoResend(s), s.phase.conn);
  }

  /** The client puts genuine input on its stream. */
  lemma PutUpGenuine(s: State, c: nat, m: ChannelMessage, up: set<ChannelMessage>)
    requires AllGenuine(s) && c < |s.conns|
    requires IsInput(m) ==> Genuine(s.read, s.unsent, m)
    requires forall x :: x in up ==> x in s.conns[c].upCopies || (x == m && IsInput(m))
    ensures AllGenuine(SetConn(s, c, PutUp(s.conns[c], m).(upCopies := up)))
  {
    var conn := PutUp(s.conns[c], m).(upCopies := up);
    assert GenuineConn(s.read, s.unsent, s.conns[c]);
    assert GenuineConn(s.read, s.unsent, conn);
  }

  lemma ResendGenuine(s: State)
    requires AllGenuine(s) && ClientCan(s, Resend)
    ensures AllGenuine(DoResend(s))
  {
    assert s.client.sent[s.phase.next] in s.client.sent;
    PutUpGenuine(s, s.phase.conn, s.client.sent[s.phase.next], CurrentConn(s).upCopies);
  }

  lemma ResendKeepsInput(s: State)
    requires InputInv(s) && ClientCan(s, Resend) && !CurrentConn(s).phase.Requested?
    ensures InputInv(DoResend(s))
  {
    var t := DoResend(s);
    ResendFlow(s);
    ResendGenuine(s);
    SameReadOk(s, t);
    SameApplied(s, t);
  }

  lemma ResendDoneKeepsInput(s: State)
    requires InputInv(s) && ClientCan(s, ResendDone)
    ensures InputInv(s.(phase := Live(s.phase.conn)))
  {
    ResendDoneFlow(s);
    InputFrame(s, s.(phase := Live(s.phase.conn)));
  }

  lemma ResendDoneFlow(s: State)
    requires FlowOk(s) && SentOk(s) && ClientCan(s, ResendDone)
    ensures FlowOk(s.(phase := Live(s.phase.conn)))
  {
    var t := s.(phase := Live(s.phase.conn));
    forall i | 0 <= i < |s.conns|
      ensures FlowSame(s, t, i)
    {
    }
    FlowFrame(s, t);
  }

  // Reading local input

  lemma MoreReadGenuine(s: State, m: ChannelMessage, extra: set<nat>)
    requires AllGenuine(s) && ReadOk(s)
    requires forall k :: k in extra ==> k > |s.read|
    ensures AllGenuine(s.(read := s.read + [m], unsent := s.unsent + extra))
  {
    var t := s.(read := s.read + [m], unsent := s.unsent + extra);
    assert forall x :: Genuine(s.read, s.unsent, x) ==> Genuine(t.read, t.unsent, x);
    forall i | 0 <= i < |s.conns|
      ensures GenuineConn(t.read, t.unsent, t.conns[i])
    {
      assert GenuineConn(s.read, s.unsent, s.conns[i]);
    }
  }

  /** One more message was read; nothing else happened to the task's side. */
  ghost predicate ReadMore(s: State, t: State, m: ChannelMessage) {
    && t.read == s.read + [m] && t.task == s.task && t.applied == s.applied && t.lost == s.lost
    && t.childIn == s.childIn && t.broke == s.broke
    && s.failed <= t.failed && forall k :: k in t.unsent ==> k in s.unsent || k > |s.read|
  }

  lemma MoreReadApplied(s: State, t: State, m: ChannelMessage)
    requires AppliedOk(s) && ReadMore(s, t, m)
    ensures AppliedOk(t)
  {
    SurvivingStable(s.read, s.lost, [m], {}, s.task.lastClient);
    assert s.lost + {} == s.lost;
  }

  /** The next message carries what was typed next. */
  lemma TypedMore(s: State, t: State, data: Bytes)
    requires TypedOk(s) && s.client.stdinOpen
    requires t.read == s.read + [NextInput(s.client, data)]
    requires t.typed == s.typed + data && t.typedEof == (s.typedEof || data == [])
    requires t.client.stdinOpen == (data != [])
    ensures TypedOk(t)
  {
    BytesOfOneMore(s.read, NextInput(s.client, data));
  }

  lemma ReadStdinRead(s: State, data: Bytes, sendOk: bool)
    requires ReadOk(s) && ClientCan(s, ReadStdin(data, sendOk))
    ensures ReadOk(DoReadStdin(s, data, sendOk))
  {
    TypedMore(s, DoReadStdin(s, data, sendOk), data);
  }

  lemma SentInputPending(s: State, data: Bytes)
    requires ReadOk(s) && ClientCan(s, ReadStdin(data, true))
    ensures var t, c, sn := DoReadStdin(s, data, true), s.phase.conn, s.client.sn + 1;
            && Pending(t, c) == Pending(s, c) + [sn]
            && Upcoming(s, c) == [sn] && Upcoming(t, c) == [sn + 1]
  {
    InputSnsAppend(s.conns[s.phase.conn].toServer, NextInput(s.client, data));
  }

  lemma SentInputSame(s: State, data: Bytes)
    requires ClientCan(s, ReadStdin(data, true))
    ensures forall i :: 0 <= i < |s.conns| && i != s.phase.conn ==> FlowSame(s, DoReadStdin(s, data, true), i)
  {
  }

  lemma SentInputFlow(s: State, data: Bytes)
    requires FlowOk(s) && ReadOk(s) && ClientCan(s, ReadStdin(data, true)) && !CurrentConn(s).phase.Requested?
    ensures FlowOk(DoReadStdin(s, data, true))
  {
    var t := DoReadStdin(s, data, true);
    var c := s.phase.conn;
    var m := NextInput(s.client, data);
    SentInputPending(s, data);
    SentInputSame(s, data);
    if Chain(s.failed, s.task.lastClient, Pending(s, c) + [m.sn]) {
      ChainNext(s.failed, s.task.lastClient, Pending(s, c), m.sn);
    }
    OneFlowMoved(s, t, c);
  }

  lemma SentInputSent(s: State, data: Bytes)
    requires SentOk(s) && ReadOk(s) && ClientCan(s, ReadStdin(data, true))
    ensures SentOk(DoReadStdin(s, data, true))
  {
    var m := NextInput(s.client, data);
    InputSnsAppend(s.client.sent, m);
    ChainNext(s.failed, s.task.lastClient, InputSns(s.client.sent), m.sn);
  }

  lemma SentInputGenuine(s: State, data: Bytes)
    requires AllGenuine(s) && ReadOk(s) && ClientCan(s, ReadStdin(data, true))
    ensures AllGenuine(DoReadStdin(s, data, true))
  {
    var m, conn := NextInput(s.client, data), CurrentConn(s);
    MoreReadGenuine(s, m, {});
    assert s.unsent + {} == s.unsent;
    var s1 := s.(read := s.read + [m]);
    PutUpGenuine(s1, s.phase.conn, m, conn.upCopies + Copies(conn, m));
    SentGenuine(SetConn(s1, s.phase.conn, PutUp(conn, m).(upCopies := conn.upCopies + Copies(conn, m))),
                DoReadStdin(s, data, true));
  }

  /** The client keeps another list of genuine input. */
  lemma SentGenuine(s: State, t: State)
    requires AllGenuine(s)
    requires t.read == s.read && t.unsent == s.unsent && t.conns == s.conns && t.inbound == s.inbound
    requires t.mode == s.mode && t.daemons == s.daemons
    requires forall m :: m in t.client.sent ==> Genuine(t.read, t.unsent, m) && m.sn !in t.failed
    ensures AllGenuine(t)
  {
  }

  lemma SentInputKeepsInput(s: State, data: Bytes)
    requires InputInv(s) && ClientCan(s, ReadStdin(data, true)) && !CurrentConn(s).phase.Requested?
    ensures InputInv(DoReadStdin(s, data, true))
  {
    var m := NextInput(s.client, data);
    ReadStdinRead(s, data, true);
    SentInputFlow(s, data);
    SentInputSent(s, data);
    SentInputGenuine(s, data);
    StdinReadsMore(s, data, true);
    MoreReadApplied(s, DoReadStdin(s, data, true), m);
  }

  lemma StdinReadsMore(s: State, data: Bytes, sendOk: bool)
    requires ReadOk(s) && ClientCan(s, ReadStdin(data, sendOk))
    ensures ReadMore(s, DoReadStdin(s, data, sendOk), NextInput(s.client, data))
  {
  }

  lemma LateReadsMore(s: State, data: Bytes)
    requires ReadOk(s) && ClientCan(s, FailLate(data))
    ensures ReadMore(s, DoFailLate(s, data), NextInput(s.client, data))
  {
  }

  lemma LostInputFlow(s: State, data: Bytes)
    requires FlowOk(s) && ReadOk(s) && ClientCan(s, ReadStdin(data, false))
    ensures FlowOk(DoReadStdin(s, data, false))
  {
    LeaveFlow(s, AfterLoss(s));
    var s1 := s.(phase := AfterLoss(s));
    var t := DoReadStdin(s, data, false);
    forall c | 0 <= c < |s.conns|
      ensures Pending(t, c) == Pending(s1, c) && Upcoming(t, c) == Upcoming(s1, c) == []
      ensures Chain(s1.failed, s.task.lastClient, Pending(s1, c) + Upcoming(s1, c)) ==>
                Chain(t.failed, s.task.lastClient, Pending(t, c) + Upcoming(t, c))
    {
      if Chain(s1.failed, s.task.lastClient, Pending(s1, c) + Upcoming(s1, c)) {
        ChainMoreFailed(s1.failed, t.failed, s.task.lastClient, Pending(s1, c) + Upcoming(s1, c));
      }
    }
  }

  lemma LostInputSent(s: State, data: Bytes)
    requires SentOk(s) && ReadOk(s) && ClientCan(s, ReadStdin(data, false))
    ensures SentOk(DoReadStdin(s, data, false))
  {
    ChainSkip(s.failed, s.task.lastClient, InputSns(s.client.sent), s.client.sn + 1);
  }

  lemma LostInputGenuine(s: State, data: Bytes)
    requires AllGenuine(s) && ReadOk(s) && ClientCan(s, ReadStdin(data, false))
    ensures AllGenuine(DoReadStdin(s, data, false))
  {
    MoreReadGenuine(s, NextInput(s.client, data), {s.client.sn + 1});
  }

  lemma LostInputKeepsInput(s: State, data: Bytes)
    requires InputInv(s) && ClientCan(s, ReadStdin(data, false))
    ensures InputInv(DoReadStdin(s, data, false))
  {
    var m := NextInput(s.client, data);
    var t := DoReadStdin(s, data, false);
    ReadStdinRead(s, data, false);
    LostInputFlow(s, data);
    LostInputSent(s, data);
    LostInputGenuine(s, data);
    StdinReadsMore(s, data, false);
    MoreReadApplied(s, t, m);
  }

  // A failure reported too late

  /** The stream carries the message as after a good send, and then the client
      leaves. */
  lemma LateInputFlow(s: State, data: Bytes)
    requires FlowOk(s) && ReadOk(s) && ClientCan(s, FailLate(data)) && !CurrentConn(s).phase.Requested?
    ensures FlowOk(DoFailLate(s, data))
  {
    SentInputFlow(s, data);
    var s1 := DoReadStdin(s, data, true);
    LeaveFlow(s1, AfterLoss(s));
    MoreFailedFlow(s1.(phase := AfterLoss(s)), DoFailLate(s, data));
  }

  lemma MoreFailedFlow(s: State, t: State)
    requires FlowOk(s) && (s.phase.Idle? || s.phase.Failed?) && t.phase == s.phase
    requires t.inbound == s.inbound && t.task == s.task && t.mode == s.mode && t.daemons == s.daemons
    requires s.failed <= t.failed && |t.conns| == |s.conns|
    requires forall i :: 0 <= i < |s.conns| ==> ConnSameForInput(s.conns[i], t.conns[i])
    ensures FlowOk(t)
  {
    forall c | 0 <= c < |s.conns|
      ensures Pending(t, c) == Pending(s, c) && Upcoming(t, c) == Upcoming(s, c) == []
      ensures Chain(s.failed, s.task.lastClient, Pending(s, c) + Upcoming(s, c)) ==>
                Chain(t.failed, s.task.lastClient, Pending(t, c) + Upcoming(t, c))
    {
      assert ConnSameForInput(s.conns[c], t.conns[c]);
      if Chain(s.failed, s.task.lastClient, Pending(s, c) + Upcoming(s, c)) {
        ChainMoreFailed(s.failed, t.failed, s.task.lastClient, Pending(s, c) + Upcoming(s, c));
      }
    }
  }

  predicate ConnSameForInput(a: Connection, b: Connection) {
    a.toServer == b.toServer && a.phase == b.phase && a.daemon == b.daemon
  }

  lemma LateInputGenuine(s: State, data: Bytes)
    requires AllGenuine(s) && ReadOk(s) && ClientCan(s, FailLate(data))
    ensures AllGenuine(DoFailLate(s, data))
  {
    var m, conn := NextInput(s.client, data), CurrentConn(s);
    MoreReadGenuine(s, m, {});
    assert s.unsent + {} == s.unsent;
    var s1 := s.(read := s.read + [m]);
    PutUpGenuine(s1, s.phase.conn, m, conn.upCopies);
    SentGenuine(SetConn(s1, s.phase.conn, PutUp(conn, m)), DoFailLate(s, data));
  }

  lemma LateInputKeepsInput(s: State, data: Bytes)
    requires InputInv(s) && ClientCan(s, FailLate(data)) && !CurrentConn(s).phase.Requested?
    ensures InputInv(DoFailLate(s, data))
  {
    var m, t := NextInput(s.client, data), DoFailLate(s, data);
    LateInputFlow(s, data);
    LateInputSent(s, data);
    LateInputRead(s, data);
    LateInputGenuine(s, data);
    LateReadsMore(s, data);
    MoreReadApplied(s, t, m);
  }

  lemma LateInputRead(s: State, data: Bytes)
    requires ReadOk(s) && ClientCan(s, FailLate(data))
    ensures ReadOk(DoFailLate(s, data))
  {
    TypedMore(s, DoFailLate(s, data), data);
  }

  lemma LateInputSent(s: State, data: Bytes)
    requires SentOk(s) && ReadOk(s) && ClientCan(s, FailLate(data))
    ensures SentOk(DoFailLate(s, data))
  {
    ChainSkip(s.failed, s.task.lastClient, InputSns(s.client.sent), s.client.sn + 1);
  }

  // Receiving

  lemma RetainKeepsInput(s: State, acked: nat)
    requires InputInv(s) && s.phase.Live? && acked <= s.task.lastClient
    ensures InputInv(s.(client := s.client.(sent := Retained(s.client.sent, acked))))
  {
    RetainedGenuine(s, acked);
    RetainedChain(s.failed, s.task.lastClient, s.client.sent, acked, [|s.read| + 1]);
    LiveFlow(s, s.client.(sent := Retained(s.client.sent, acked)));
  }

  lemma RetainedGenuine(s: State, acked: nat)
    requires AllGenuine(s)
    ensures AllGenuine(s.(client := s.client.(sent := Retained(s.client.sent, acked))))
    ensures forall m :: m in s.client.sent ==> IsInput(m)
  {
    RetainedIff(s.client.sent, acked);
  }

  /** A live client sends on what it reads, not what it keeps. */
  lemma LiveFlow(s: State, client: Client)
    requires FlowOk(s) && s.phase.Live?
    ensures FlowOk(s.(client := client))
  {
    var t := s.(client := client);
    forall i | 0 <= i < |s.conns| ensures FlowSame(s, t, i) {
    }
    FlowFrame(s, t);
  }

  lemma AckUpKeepsInput(s: State, sn: nat, ackOk: bool)
    requires InputInv(s) && ClientOn(s) && !CurrentConn(s).phase.Requested?
    ensures InputInv(SendAckOf(s, sn, ackOk))
  {
    if ackOk {
      var t := SendAckOf(s, sn, ackOk);
      InputSnsAppend(CurrentConn(s).toServer, Ack(sn));
      forall i | 0 <= i < |s.conns|
        ensures FlowSame(s, t, i)
      {
      }
      FlowFrame(s, t);
      PutUpGenuine(s, s.phase.conn, Ack(sn), CurrentConn(s).upCopies);
      InputFrame(s, t);
    }
  }

  lemma WriteKeepsInput(s: State, client: Client)
    requires InputInv(s)
    requires client == s.client.(lastServer := client.lastServer, out := client.out, err := client.err)
    ensures InputInv(s.(client := client))
  {
    OutsideInput(s, s.(client := client));
  }

  lemma WriteAndAckKeepsInput(s: State, client: Client, sn: nat, ackOk: bool)
    requires InputInv(s) && ClientOn(s) && !CurrentConn(s).phase.Requested?
    requires client == s.client.(lastServer := client.lastServer, out := client.out, err := client.err)
    ensures InputInv(SendAckOf(s.(client := client), sn, ackOk))
  {
    WriteKeepsInput(s, client);
    AckUpKeepsInput(s.(client := client), sn, ackOk);
  }

  lemma ReturnKeepsInput(s: State, sn: nat, code: int, ackOk: bool)
    requires InputInv(s) && ClientOn(s) && !CurrentConn(s).phase.Requested?
    ensures InputInv(SendAckOf(s, sn, ackOk).(phase := Done(code)))
  {
    AckUpKeepsInput(s, sn, ackOk);
    LeaveKeepsInput(SendAckOf(s, sn, ackOk), Done(code));
  }

  lemma ReactKeepsInput(s: State, m: ChannelMessage, reliable: bool, ackOk: bool)
    requires InputInv(s) && s.phase.Live? && ClientOn(s) && !CurrentConn(s).phase.Requested?
    requires m.Ack? ==> m.sn <= s.task.lastClient
    ensures InputInv(React(s, m, reliable, ackOk))
  {
    if m.Ack? {
      RetainKeepsInput(s, m.sn);
    } else {
      ReactLeavesInput(s, m, reliable);
      var (client, reaction) := OnMessage(s.client, m, reliable);
      WriteReactionKeepsInput(s, client, reaction, ackOk);
    }
  }

  /** Only an Ack touches what the client keeps for resending. */
  lemma ReactLeavesInput(s: State, m: ChannelMessage, reliable: bool)
    requires !m.Ack?
    ensures var (client, reaction) := OnMessage(s.client, m, reliable);
            && client == s.client.(lastServer := client.lastServer, out := client.out, err := client.err)
            && (!reaction.SendAck? ==> client == s.client)
  {
  }

  lemma WriteReactionKeepsInput(s: State, client: Client, reaction: Reaction, ackOk: bool)
    requires InputInv(s) && ClientOn(s) && !CurrentConn(s).phase.Requested?
    requires client == s.client.(lastServer := client.lastServer, out := client.out, err := client.err)
    requires !reaction.SendAck? ==> client == s.client
    ensures match reaction
            case Nothing => InputInv(s.(client := client))
            case SendAck(sn) => InputInv(SendAckOf(s.(client := client), sn, ackOk))
            case Return(sn, code) => InputInv(SendAckOf(s.(client := client), sn, ackOk).(phase := Done(code)))
  {
    match reaction
    case Nothing => assert s.(client := client) == s;
    case SendAck(sn) => WriteAndAckKeepsInput(s, client, sn, ackOk);
    case Return(sn, code) =>
      assert s.(client := client) == s;
      ReturnKeepsInput(s, sn, code, ackOk);
  }

  lemma RecvFrameKeepsInput(s: State, ackOk: bool)
    requires InputInv(s) && CurrentOk(s) && ConnsOk(s) && ClientCan(s, RecvFrame(ackOk))
    ensures InputInv(DoRecvFrame(s, ackOk))
  {
    var conn := CurrentConn(s);
    assert ConnOk(s.history, Consumed(s), s.task.lastClient, s.daemons, conn);
    assert conn.toClient[0] in conn.toClient;
    ConnSameUp(s, s.phase.conn, ReceivedDown(conn));
    ReactKeepsInput(SetConn(s, s.phase.conn, ReceivedDown(conn)), conn.toClient[0], true, ackOk);
  }

  lemma RecvCopyKeepsInput(s: State, m: ChannelMessage, ackOk: bool)
    requires InputInv(s) && CurrentOk(s) && ConnsOk(s) && ClientCan(s, RecvCopy(m, ackOk))
    ensures InputInv(React(s, m, false, ackOk))
  {
    assert ConnOk(s.history, Consumed(s), s.task.lastClient, s.daemons, CurrentConn(s));
    ReactKeepsInput(s, m, false, ackOk);
  }

  lemma ClientStepKeepsInput(s: State, l: ClientLabel)
    requires InputInv(s) && CurrentOk(s) && ConnsOk(s) && ClientCan(s, l)
    ensures InputInv(ClientStep(s, l))
  {
    match l {
      case Connect(quic) => ConnectKeepsInput(s, quic);
      case RecvStarted => StartedKeepsInput(s);
      case RecvDenied => LeaveKeepsInput(s, Failed);
      case ConnectLost => LeaveKeepsInput(s, AfterLoss(s));
      case Resend => ResendKeepsInput(s);
      case ResendDone => ResendDoneKeepsInput(s);
      case Drop => LeaveKeepsInput(s, AfterLoss(s));
      case ReadStdin(data, sendOk) =>
        if sendOk { SentInputKeepsInput(s, data); } else { LostInputKeepsInput(s, data); }
      case FailLate(data) => LateInputKeepsInput(s, data);
      case RecvFrame(ackOk) => RecvFrameKeepsInput(s, ackOk);
      case RecvCopy(m, ackOk) => RecvCopyKeepsInput(s, m, ackOk);
    }
  }

  /** The input half of the invariant survives every step. */
  lemma StepKeepsInput(s: State, l: Label)
    requires InputInv(s) && OutputInv(s) && Enabled(s, l)
    ensures InputInv(Step(s, l))
  {
    match l {
      case ByClient(cl) => ClientStepKeepsInput(s, cl);
      case ByAttachment(c, al) => AttachStepKeepsInput(s, c, al);
      case ByTask(tl) => TaskStepKeepsInput(s, tl);
      case ByDaemon(dl) => DaemonStepKeepsInput(s, dl);
    }
  }
}
