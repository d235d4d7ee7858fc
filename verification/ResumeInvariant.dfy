/** What every step of the resume protocol keeps. */
module ResumeInvariant {
  import opened Proto
  import opened OutboundLog
  import opened SessionTask
  import opened ExecClient
  import opened ResumeModel

  // ------------------------------------------------------------------------
  // Output

  predicate HasExit(history: seq<ChannelMessage>) {
    history != [] && history[|history| - 1].Exit?
  }

  /** Entries are numbered from one without gaps and an Exit comes last. */
  ghost predicate HistoryOk(history: seq<ChannelMessage>) {
    forall i :: 0 <= i < |history| ==>
      && IsOutput(history[i])
      && history[i].sn == i + 1
      && (history[i].Exit? ==> i == |history| - 1)
  }

  predicate InHistory(history: seq<ChannelMessage>, m: ChannelMessage) {
    IsOutput(m) && 1 <= m.sn <= |history| && history[m.sn - 1] == m
  }

  /** The highest output number the client has taken responsibility for. */
  function Consumed(s: State): nat {
    if s.phase.Done? then |s.history| else s.client.lastServer
  }

  ghost predicate RecordOk(s: State, r: Record) {
    && r.trimmed + |r.buffer| == |s.history|
    && PartOf(s.history, r.trimmed, r.buffer)
    && r.trimmed <= Consumed(s)
    && r.stdinApplied == s.task.lastClient
    && r.exitCode == s.task.exitCode
    && r.roles == OpenRoles(s.task)
  }

  ghost predicate TaskOk(s: State) {
    && HistoryOk(s.history)
    && s.task.sn == |s.history|
    && s.childOut == StdoutBytes(s.history)
    && s.childErr == StderrBytes(s.history)
    && s.task.exitCode == s.childCode
    && (!s.task.stdoutOpen ==> s.outEof)
    && (!s.task.stderrOpen ==> s.errEof)
    && (HasExit(s.history) ==>
        && (s.mode == Notifying(true) || s.mode.Stopped?)
        && s.outEof && s.errEof
        && s.task.exitCode == Some(s.history[|s.history| - 1].code))
    && (s.mode == Notifying(true) ==> HasExit(s.history))
    && (s.mode.Replied? || s.mode.HandedOver? ==> RecordOk(s, s.mode.record))
  }

  /** `behind` when the newest entry has been buffered but not yet published. */
  ghost predicate DaemonOk(history: seq<ChannelMessage>, consumed: nat, lastClient: nat, d: Daemon, behind: bool) {
    && HoldsTailOf(d.log, history)
    && d.log.trimmed <= consumed
    && d.stdinApplied <= lastClient
    && d.log.latest == d.base + d.log.version
    && d.log.End() == d.log.latest + (if behind then 1 else 0)
  }

  ghost predicate DaemonsOk(s: State) {
    && s.daemons != []
    && (forall i :: 0 <= i < |s.daemons| ==>
          DaemonOk(s.history, Consumed(s), s.task.lastClient, s.daemons[i],
                   i == |s.daemons| - 1 && s.mode.Notifying?))
    && s.daemons[Last(s)].log.End() == |s.history|
    && s.daemons[Last(s)].stdinApplied == s.task.lastClient
  }

  ghost predicate ClientOk(s: State) {
    && s.client.lastServer <= |s.history|
    && (s.client.lastServer > 0 ==> !s.history[s.client.lastServer - 1].Exit?)
    && s.client.out == StdoutBytes(s.history[..s.client.lastServer])
    && s.client.err == StderrBytes(s.history[..s.client.lastServer])
    && (s.phase.Done? ==>
        && HasExit(s.history)
        && s.client.lastServer == |s.history| - 1
        && s.phase.code == s.history[|s.history| - 1].code)
  }

  /** What holds of every connection, lingering ones included. */
  ghost predicate ConnOk(history: seq<ChannelMessage>, consumed: nat, lastClient: nat, ds: seq<Daemon>, c: Connection) {
    && (forall m :: m in c.toServer ==> (m.Ack? && m.sn <= consumed) || IsInput(m))
    && (forall m :: m in c.toClient ==> (m.Ack? ==> m.sn <= lastClient))
    && (c.phase.Requested? ==> c.toServer == [] && c.toClient == [] && c.downCopies == {}
                               && c.fetched == c.seen == 0 && c.exitSn.None?)
    && (!c.phase.Requested? ==> c.daemon < |ds| && AttachmentOk(history, ds[c.daemon], c))
    && (forall m :: m in c.downCopies ==> InHistory(history, m) && !m.Exit?)
  }

  ghost predicate AttachmentOk(history: seq<ChannelMessage>, d: Daemon, c: Connection) {
    && (forall m :: m in BatchOf(c.phase) ==> InHistory(history, m) && m.sn <= c.fetched)
    && (c.exitSn.Some? ==> HasExit(history) && c.exitSn.value == |history| == c.fetched)
    && c.seen <= d.log.version
    && (c.phase.Sending? || c.phase.Waiting? ==> d.base + c.seen <= c.fetched)
    && c.fetched <= d.log.End()
  }

  ghost predicate ConnsOk(s: State) {
    forall i :: 0 <= i < |s.conns| ==>
      ConnOk(s.history, Consumed(s), s.task.lastClient, s.daemons, s.conns[i])
  }

  /** The output messages of a frame queue. */
  function Outputs(q: seq<ChannelMessage>): seq<ChannelMessage> {
    if q == [] then [] else (if IsOutput(q[0]) then [q[0]] else []) + Outputs(q[1..])
  }

  /** The frames in flight on the connection the client reads are consecutive
      history, reaching back at least to what the client has consumed. */
  ghost predicate StreamOk(history: seq<ChannelMessage>, last: nat, c: Connection) {
    && c.sentUpTo <= |history|
    && |Outputs(c.toClient)| <= c.sentUpTo
    && c.sentUpTo - |Outputs(c.toClient)| <= last <= c.sentUpTo
    && PartOf(history, c.sentUpTo - |Outputs(c.toClient)|, Outputs(c.toClient))
    && (forall m :: m in c.downCopies ==> IsOutput(m) && m.sn <= c.sentUpTo)
    && (c.phase.Sending? ==>
        && PartOf(history, c.sentUpTo, c.phase.batch)
        && c.fetched <= c.sentUpTo + |c.phase.batch|)
    && (c.phase.Waiting? ==> c.fetched <= c.sentUpTo)
  }

  ghost predicate CurrentOk(s: State) {
    HasConn(s.phase) ==>
      && s.phase.conn < |s.conns|
      && var c := s.conns[s.phase.conn];
      if c.phase.Requested? then s.phase.Connecting? && c.lastSeen == s.client.lastServer
      else StreamOk(s.history, s.client.lastServer, c)
  }

  // ------------------------------------------------------------------------
  // Input

  /** The messages carry what was typed, and its end once there is one. */
  ghost predicate TypedOk(s: State) {
    && StdinBytes(s.read) == s.typed
    && (s.typedEof <==> s.read != [] && s.read[|s.read| - 1].StdinEof?)
    && (s.typedEof <==> !s.client.stdinOpen)
  }

  ghost predicate ReadOk(s: State) {
    && s.client.sn == |s.read|
    && (forall i :: 0 <= i < |s.read| ==>
          && IsInput(s.read[i])
          && s.read[i].sn == i + 1
          && (s.read[i].StdinEof? ==> i == |s.read| - 1 && !s.client.stdinOpen))
    && (forall n :: n in s.failed ==> 1 <= n <= |s.read|)
    && s.unsent <= s.failed
    && TypedOk(s)
  }

  /** A message that was read, and whose frame got onto a stream. */
  predicate Genuine(read: seq<ChannelMessage>, unsent: set<nat>, m: ChannelMessage) {
    IsInput(m) && 1 <= m.sn <= |read| && read[m.sn - 1] == m && m.sn !in unsent
  }

  ghost predicate AllGenuine(s: State) {
    && (forall m :: m in s.client.sent ==> Genuine(s.read, s.unsent, m) && m.sn !in s.failed)
    && (forall i :: 0 <= i < |s.conns| ==> GenuineConn(s.read, s.unsent, s.conns[i]))
    && (forall x :: x in s.inbound ==>
          && (x.FromStream? ==> CameFromLive(s, x.conn))
          && (x.FromStream? || x.FromDatagram? ==> Genuine(s.read, s.unsent, x.m)))
  }

  /** Queued stream input came over a connection attached to this task. */
  predicate CameFromLive(s: State, c: nat) {
    && c < |s.conns| && !s.conns[c].phase.Requested?
    && (Alive(s) ==> s.conns[c].daemon == |s.daemons| - 1)
  }

  ghost predicate GenuineConn(read: seq<ChannelMessage>, unsent: set<nat>, c: Connection) {
    && (forall m :: m in c.toServer && IsInput(m) ==> Genuine(read, unsent, m))
    && (forall m :: m in c.upCopies ==> Genuine(read, unsent, m))
  }

  /** Every number strictly between is one whose live send failed. */
  ghost predicate NoGap(failed: set<nat>, a: nat, b: nat) {
    forall k :: a < k < b ==> k in failed
  }

  /** Going from `a` through `ns`, no surviving number is jumped over. */
  ghost predicate Chain(failed: set<nat>, a: nat, ns: seq<nat>)
    decreases |ns|
  {
    ns == [] || (NoGap(failed, a, ns[0]) && Chain(failed, ns[0], ns[1..]))
  }

  function InputSns(q: seq<ChannelMessage>): seq<nat> {
    if q == [] then [] else (if IsInput(q[0]) then [q[0].sn] else []) + InputSns(q[1..])
  }

  /** The same from position `k` on. */
  function InputSnsFrom(q: seq<ChannelMessage>, k: nat): seq<nat>
    requires k <= |q|
    decreases |q| - k
  {
    if k == |q| then [] else (if IsInput(q[k]) then [q[k].sn] else []) + InputSnsFrom(q, k + 1)
  }

  function QueuedSns(q: seq<Inbound>, c: nat): seq<nat> {
    if q == [] then []
    else (if q[0].FromStream? && q[0].conn == c && IsInput(q[0].m) then [q[0].m.sn] else [])
         + QueuedSns(q[1..], c)
  }

  /** Input numbers on their way to the task over connection `c`. */
  function Pending(s: State, c: nat): seq<nat>
    requires c < |s.conns|
  {
    QueuedSns(s.inbound, c) + InputSns(s.conns[c].toServer)
  }

  /** The numbers the client will still send on connection `c`. */
  function Upcoming(s: State, c: nat): seq<nat> {
    if s.phase == Live(c) then [|s.read| + 1]
    else if s.phase.Resending? && s.phase.conn == c && s.phase.next <= |s.client.sent| then
      InputSnsFrom(s.client.sent, s.phase.next) + [|s.read| + 1]
    else []
  }

  ghost predicate SentOk(s: State) {
    && Chain(s.failed, s.task.lastClient, InputSns(s.client.sent) + [|s.read| + 1])
    && (s.phase.Resending? ==> s.phase.next <= |s.client.sent|)
  }

  ghost predicate FlowOk(s: State) {
    && (forall c :: 0 <= c < |s.conns| && s.conns[c].phase.Requested? ==> Pending(s, c) == [])
    && (s.phase.Connecting? && s.phase.conn < |s.conns| ==> Pending(s, s.phase.conn) == [])
    && (Alive(s) ==>
        forall c :: 0 <= c < |s.conns| && !s.conns[c].phase.Requested? && s.conns[c].daemon == |s.daemons| - 1 ==>
          Chain(s.failed, s.task.lastClient, Pending(s, c) + Upcoming(s, c)))
  }

  /** The input that was read up to `n`, without the numbers in `lost`. */
  function Surviving(read: seq<ChannelMessage>, lost: set<nat>, n: nat): seq<ChannelMessage>
    requires n <= |read|
  {
    if n == 0 then []
    else Surviving(read, lost, n - 1) + (if n in lost then [] else [read[n - 1]])
  }

  /** Only failed sends are passed over, and all that never got onto a stream. */
  ghost predicate LossOk(lost: set<nat>, failed: set<nat>, unsent: set<nat>, lastClient: nat) {
    && (forall k :: k in lost ==> k in failed && k <= lastClient)
    && (forall k :: k in unsent && k <= lastClient ==> k in lost)
  }

  ghost predicate AppliedOk(s: State) {
    && s.task.lastClient <= |s.read|
    && s.applied == Surviving(s.read, s.lost, s.task.lastClient)
    && LossOk(s.lost, s.failed, s.unsent, s.task.lastClient)
    && s.childIn <= StdinBytes(s.applied)
    && (s.broke ==> !s.task.stdin)
    && (!s.broke ==>
        && s.childIn == StdinBytes(s.applied)
        && (s.task.stdin <==> !(s.task.lastClient > 0 && s.read[s.task.lastClient - 1].StdinEof?)))
  }

  ghost predicate OutputInv(s: State) {
    TaskOk(s) && DaemonsOk(s) && ClientOk(s) && ConnsOk(s) && CurrentOk(s)
  }

  ghost predicate InputInv(s: State) {
    ReadOk(s) && AllGenuine(s) && SentOk(s) && FlowOk(s) && AppliedOk(s)
  }

  ghost predicate Inv(s: State) {
    OutputInv(s) && InputInv(s)
  }

  lemma InitOutput(s: State)
    requires Init(s)
    ensures OutputInv(s)
  {
  }

  lemma InitInput(s: State)
    requires Init(s)
    ensures InputInv(s)
  {
  }
}
