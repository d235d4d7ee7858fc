/** The task that owns the child process: it pumps the child's output into the
    log, applies the client's input once, and can be stopped, written down and
    started again by the next daemon instance. */
module SessionTask {
  import opened Proto
  import opened OutboundLog

  /** The variables of the select loop. */
  datatype Task = Task(
    sn: nat,
    lastClient: nat,
    stdin: bool,
    stdoutOpen: bool,
    stderrOpen: bool,
    exitCode: Option<int>)

  /** What one turn of the loop reads.  An empty read is end of file or an
      error; `written` says whether the child still took the input. */
  datatype Event =
    | StdoutRead(data: Bytes)
    | StderrRead(data: Bytes)
    | ExitRead(code: int)
    | Input(m: ChannelMessage, reliable: bool, written: bool)

  /** The select guards. */
  predicate Possible(t: Task, ev: Event) {
    match ev
    case StdoutRead(_) => t.stdoutOpen
    case StderrRead(_) => t.stderrOpen
    case ExitRead(_) => t.exitCode.None?
    case Input(_, _, _) => true
  }

  /** Whether an input message is applied.  A reliable one only has to be
      newer; a datagram has to be exactly the next one, and an end of input is
      never taken from a datagram. */
  predicate Accepts(lastClient: nat, m: ChannelMessage, reliable: bool) {
    if reliable then IsInput(m) && lastClient < m.sn
    else m.Stdin? && m.sn == lastClient + 1
  }

  function ApplyInput(t: Task, m: ChannelMessage, reliable: bool, written: bool): Task {
    if !Accepts(t.lastClient, m, reliable) then t
    else if m.Stdin? then t.(lastClient := m.sn, stdin := t.stdin && written)
    else t.(lastClient := m.sn, stdin := false)
  }

  /** The message one turn pushes, before the loop looks for the exit. */
  function Pushed(t: Task, ev: Event): seq<ChannelMessage> {
    match ev
    case StdoutRead(data) => if data == [] then [] else [Stdout(t.sn + 1, data)]
    case StderrRead(data) => if data == [] then [] else [Stderr(t.sn + 1, data)]
    case ExitRead(_) => []
    case Input(_, _, _) => []
  }

  function Turn(t: Task, ev: Event): Task {
    match ev
    case StdoutRead(data) => if data == [] then t.(stdoutOpen := false) else t.(sn := t.sn + 1)
    case StderrRead(data) => if data == [] then t.(stderrOpen := false) else t.(sn := t.sn + 1)
    case ExitRead(code) => t.(exitCode := Some(code))
    case Input(m, reliable, written) => ApplyInput(t, m, reliable, written)
  }

  /** The condition at the end of the loop body. */
  predicate ReadyToExit(t: Task) {
    t.exitCode.Some? && !t.stdoutOpen && !t.stderrOpen
  }

  /** A task together with its log. */
  datatype Session = Session(task: Task, log: LogState, running: bool)

  function PushAll(log: LogState, ms: seq<ChannelMessage>): LogState
    requires |ms| <= 1
  {
    if ms == [] then log else Publish(Enqueue(log, ms[0]))
  }

  function Finish(s: Session): Session {
    if ReadyToExit(s.task) then
      var sn := s.task.sn + 1;
      Session(s.task.(sn := sn), Publish(Enqueue(s.log, Exit(sn, s.task.exitCode.value))), false)
    else s
  }

  /** One iteration of the loop; a task that returned does nothing. */
  function Iterate(s: Session, ev: Event): Session {
    if !s.running || !Possible(s.task, ev) then s
    else Finish(Session(Turn(s.task, ev), PushAll(s.log, Pushed(s.task, ev)), true))
  }

  function Run(s: Session, evs: seq<Event>): Session
    decreases |evs|
  {
    if evs == [] then s else Run(Iterate(s, evs[0]), evs[1..])
  }

  /** The state between two iterations of a running task. */
  ghost predicate Settled(s: Session) {
    && s.task.sn == s.log.latest == s.log.End()
    && (s.running ==> !ReadyToExit(s.task))
    && (forall i :: 0 <= i < |s.log.buffer| ==>
      && IsOutput(s.log.buffer[i])
      && s.log.buffer[i].sn == s.log.trimmed + i + 1
      && (s.log.buffer[i].Exit? ==> !s.running && i == |s.log.buffer| - 1))
  }

  lemma IterateKeepsSettled(s: Session, ev: Event)
    requires Settled(s)
    ensures Settled(Iterate(s, ev))
    ensures s.task.sn <= Iterate(s, ev).task.sn
    ensures s.task.lastClient <= Iterate(s, ev).task.lastClient
    ensures s.running && !Iterate(s, ev).running ==> Returned(Iterate(s, ev))
  {
  }

  /** The loop returned: both streams have ended and the Exit is the newest
      entry, with the child's code. */
  predicate Returned(s: Session) {
    && !s.task.stdoutOpen && !s.task.stderrOpen && s.task.exitCode.Some?
    && s.log.buffer != []
    && s.log.buffer[|s.log.buffer| - 1] == Exit(s.log.End(), s.task.exitCode.value)
  }

  lemma {:induction false} ReturnedForGood(s: Session, evs: seq<Event>)
    requires !s.running
    ensures Run(s, evs) == s
    decreases |evs|
  {
    if evs != [] {
      ReturnedForGood(s, evs[1..]);
    }
  }

  /** The numbering law survives every run of the loop, and the loop returns
      only with an Exit after both streams. */
  lemma {:induction false} RunKeepsSettled(s: Session, evs: seq<Event>)
    requires Settled(s)
    ensures Settled(Run(s, evs))
    ensures s.running && !Run(s, evs).running ==> Returned(Run(s, evs))
    decreases |evs|
  {
    if evs != [] {
      IterateKeepsSettled(s, evs[0]);
      RunKeepsSettled(Iterate(s, evs[0]), evs[1..]);
      if !Iterate(s, evs[0]).running {
        ReturnedForGood(Iterate(s, evs[0]), evs[1..]);
      }
    }
  }

  // ------------------------------------------------------------------------
  // Handover

  const STDIN := "stdin"
  const STDOUT := "stdout"
  const STDERR := "stderr"
  const EXIT := "exit"

  /** What a session leaves for the next daemon instance: the JSON record and
      the roles whose pipes are still open. */
  datatype Record = Record(
    exitCode: Option<int>,
    trimmed: nat,
    buffer: seq<ChannelMessage>,
    stdinApplied: nat,
    roles: set<string>)

  type Fd = nat

  function Roles(fds: seq<(string, Fd)>): set<string> {
    set x | x in fds :: x.0
  }

  predicate UniqueNames(fds: seq<(string, Fd)>) {
    forall i, j :: 0 <= i < j < |fds| ==> fds[i].0 != fds[j].0
  }

  /** What a task answers: its record, and each open pipe once under its role. */
  predicate GivesBack(r: Record, fds: seq<(string, Fd)>) {
    UniqueNames(fds) && Roles(fds) == r.roles && r.roles <= {STDIN, STDOUT, STDERR, EXIT}
  }

  lemma OneMorePipe(fds: seq<(string, Fd)>, role: string, fd: Fd)
    requires UniqueNames(fds) && role !in Roles(fds)
    ensures UniqueNames(fds + [(role, fd)]) && Roles(fds + [(role, fd)]) == Roles(fds) + {role}
  {
    var more := fds + [(role, fd)];
    forall i | 0 <= i < |fds| ensures fds[i].0 != role {
      assert fds[i] in fds;
    }
    assert more[|fds|] == (role, fd);
    forall r ensures r in Roles(more) <==> r in Roles(fds) + {role} {
      if r in Roles(fds) {
        var x :| x in fds && x.0 == r;
        assert x in more;
      }
      assert more[|fds|] in more;
    }
  }

  lemma RolesDiffer()
    ensures STDIN != STDOUT && STDIN != STDERR && STDIN != EXIT
    ensures STDOUT != STDERR && STDOUT != EXIT && STDERR != EXIT
  {
    assert |STDIN| == 5 && |STDOUT| == 6 && |STDERR| == 6 && |EXIT| == 4;
    assert STDOUT[3] == 'o' && STDERR[3] == 'e';
  }

  function OpenRoles(t: Task): set<string> {
    (if t.stdin then {STDIN} else {})
    + (if t.stdoutOpen then {STDOUT} else {})
    + (if t.stderrOpen then {STDERR} else {})
    + (if t.exitCode.None? then {EXIT} else {})
  }

  function HandOver(t: Task, log: LogState): Record {
    Record(t.exitCode, log.trimmed, log.buffer, t.lastClient, OpenRoles(t))
  }

  /** A restarted loop believes both streams open; the one without a pipe gets
      a fresh pipe that is at end of file. */
  function RestoreTask(r: Record): Task {
    Task(r.trimmed + |r.buffer|, r.stdinApplied, STDIN in r.roles, true, true, r.exitCode)
  }

  function RestoreSession(r: Record): Session {
    Session(RestoreTask(r), Restore(r.trimmed, r.buffer), true)
  }

  /** The end-of-file reads a restarted loop makes on streams its predecessor
      had already closed. */
  function Reclose(t: Task): seq<Moment> {
    (if t.stdoutOpen then [] else [Turned(StdoutRead([]))])
    + (if t.stderrOpen then [] else [Turned(StderrRead([]))])
  }

  // While the loop runs, the attachments drop what the client acknowledged.

  datatype Moment =
    | Turned(ev: Event)
    | Trimmed(sn: nat)

  function Pass(s: Session, m: Moment): Session {
    match m
    case Turned(ev) => Iterate(s, ev)
    case Trimmed(sn) => s.(log := Trim(s.log, sn))
  }

  function Live(s: Session, ms: seq<Moment>): Session
    decreases |ms|
  {
    if ms == [] then s else Live(Pass(s, ms[0]), ms[1..])
  }

  /** `r` is `u` with the same numbering and at least as many entries left.
      Watch versions are left out: they start over with each daemon. */
  predicate SameUpToTrim(u: LogState, r: LogState) {
    && u.latest == r.latest && u.End() == r.End() && r.trimmed <= u.trimmed
    && u.buffer == r.buffer[u.trimmed - r.trimmed..]
  }

  predicate SameSession(u: Session, r: Session) {
    u.task == r.task && u.running == r.running && SameUpToTrim(u.log, r.log)
  }

  /** Past what the other one trimmed, such a log replays the same. */
  lemma SameReplay(u: LogState, r: LogState, sn: nat)
    requires SameUpToTrim(u, r) && u.trimmed <= sn
    ensures After(r, sn) == After(u, sn)
  {
    TrimKeepsReplay(r, u.trimmed, sn);
    assert Trim(r, u.trimmed).buffer == u.buffer;
  }

  lemma TrimsKeepSame(u: LogState, r: LogState, sn: nat)
    requires SameUpToTrim(u, r)
    ensures SameUpToTrim(Trim(u, sn), Trim(r, sn))
  {
    var k := u.trimmed - r.trimmed;
    if r.trimmed < sn <= u.trimmed {
      DropTwice(r.buffer, sn - r.trimmed, u.trimmed - sn);
    } else if u.trimmed < sn < u.End() {
      DropTwice(r.buffer, k, sn - u.trimmed);
    }
  }

  lemma DropTwice(ms: seq<ChannelMessage>, a: nat, b: nat)
    requires a + b <= |ms|
    ensures ms[a..][b..] == ms[a + b..]
  {
  }

  lemma PushKeepsSame(u: LogState, r: LogState, m: ChannelMessage)
    requires SameUpToTrim(u, r)
    ensures SameUpToTrim(Publish(Enqueue(u, m)), Publish(Enqueue(r, m)))
  {
  }

  lemma RolesTellTheTask(t: Task)
    ensures STDIN in OpenRoles(t) <==> t.stdin
    ensures STDOUT in OpenRoles(t) <==> t.stdoutOpen
    ensures STDERR in OpenRoles(t) <==> t.stderrOpen
    ensures EXIT in OpenRoles(t) <==> t.exitCode.None?
  {
    RolesDiffer();
  }

  lemma SameSessionsStepAlike(u: Session, r: Session, ev: Event)
    requires SameSession(u, r)
    ensures SameSession(Iterate(u, ev), Iterate(r, ev))
  {
    if u.running && Possible(u.task, ev) {
      var pushed, task := Pushed(u.task, ev), Turn(u.task, ev);
      if pushed != [] {
        PushKeepsSame(u.log, r.log, pushed[0]);
      }
      if ReadyToExit(task) {
        PushKeepsSame(PushAll(u.log, pushed), PushAll(r.log, pushed), Exit(task.sn + 1, task.exitCode.value));
      }
    }
  }

  lemma SameSessionsPassAlike(u: Session, r: Session, m: Moment)
    requires SameSession(u, r)
    ensures SameSession(Pass(u, m), Pass(r, m))
  {
    match m
    case Turned(ev) => SameSessionsStepAlike(u, r, ev);
    case Trimmed(sn) => TrimsKeepSame(u.log, r.log, sn);
  }

  lemma {:induction false} SameSessionsLiveAlike(u: Session, r: Session, ms: seq<Moment>)
    requires SameSession(u, r)
    ensures SameSession(Live(u, ms), Live(r, ms))
    decreases |ms|
  {
    if ms != [] {
      SameSessionsPassAlike(u, r, ms[0]);
      SameSessionsLiveAlike(Pass(u, ms[0]), Pass(r, ms[0]), ms[1..]);
    }
  }

  lemma {:induction false} LiveConcat(s: Session, a: seq<Moment>, b: seq<Moment>)
    ensures Live(s, a + b) == Live(Live(s, a), b)
    decreases |a|
  {
    if a == [] {
      assert a + b == b;
    } else {
      assert (a + b)[0] == a[0] && (a + b)[1..] == a[1..] + b;
      LiveConcat(Pass(s, a[0]), a[1..], b);
    }
  }

  lemma PassKeepsSettled(s: Session, m: Moment)
    requires Settled(s)
    ensures Settled(Pass(s, m))
  {
    match m
    case Turned(ev) => IterateKeepsSettled(s, ev);
    case Trimmed(_) =>
  }

  lemma {:induction false} LiveKeepsSettled(s: Session, ms: seq<Moment>)
    requires Settled(s)
    ensures Settled(Live(s, ms))
    decreases |ms|
  {
    if ms != [] {
      PassKeepsSettled(s, ms[0]);
      LiveKeepsSettled(Pass(s, ms[0]), ms[1..]);
    }
  }

  /** Once its closed streams are closed again, a restored session is the one
      that was handed over. */
  lemma RecloseRestores(s: Session)
    requires Settled(s) && s.running
    ensures SameSession(s, Live(RestoreSession(HandOver(s.task, s.log)), Reclose(s.task)))
  {
    RolesTellTheTask(s.task);
    var r := RestoreSession(HandOver(s.task, s.log));
    if !s.task.stdoutOpen && !s.task.stderrOpen {
      assert Reclose(s.task) == [Turned(StdoutRead([])), Turned(StderrRead([]))];
      var r1 := Iterate(r, StdoutRead([]));
      assert Live(r, Reclose(s.task)) == Live(r1, [Turned(StderrRead([]))]);
      assert Live(r1, [Turned(StderrRead([]))]) == Live(Iterate(r1, StderrRead([])), []);
    } else if !s.task.stdoutOpen {
      assert Reclose(s.task) == [Turned(StdoutRead([]))];
      assert Live(r, Reclose(s.task)) == Live(Iterate(r, StdoutRead([])), []);
    } else if !s.task.stderrOpen {
      assert Reclose(s.task) == [Turned(StderrRead([]))];
      assert Live(r, Reclose(s.task)) == Live(Iterate(r, StderrRead([])), []);
    } else {
      assert Reclose(s.task) == [];
    }
  }

  /** What the attachments of the old daemon still trim after the task has
      written itself down; the record does not know of it. */
  function Trims(sns: seq<nat>): seq<Moment> {
    seq(|sns|, i requires 0 <= i < |sns| => Trimmed(sns[i]))
  }

  lemma {:induction false} LateTrimsOnlyTrim(s: Session, sns: seq<nat>)
    ensures SameSession(Live(s, Trims(sns)), s)
    decreases |sns|
  {
    if sns == [] {
      assert Trims(sns) == [];
    } else {
      assert Trims(sns)[0] == Trimmed(sns[0]) && Trims(sns)[1..] == Trims(sns[1..]);
      LateTrimsOnlyTrim(Pass(s, Trimmed(sns[0])), sns[1..]);
    }
  }

  lemma SameSessionsTrans(a: Session, b: Session, c: Session)
    requires SameSession(a, b) && SameSession(b, c)
    ensures SameSession(a, c)
  {
  }

  /** Stopping a running task anywhere, writing it down, restoring it and
      going on gives the same counters, streams and exit code as never having
      stopped, for every continuation, and the same log but for entries that
      were trimmed too late to be recorded: the restored log still has those. */
  lemma HandoverIsTransparent(s: Session, before: seq<Moment>, late: seq<nat>, after: seq<Moment>)
    requires Settled(s) && Live(s, before).running
    ensures var stopped := Live(s, before);
            var restored := RestoreSession(HandOver(stopped.task, stopped.log));
            SameSession(Live(s, before + Trims(late) + after), Live(restored, Reclose(stopped.task) + after))
  {
    var stopped := Live(s, before);
    var restored := RestoreSession(HandOver(stopped.task, stopped.log));
    LiveKeepsSettled(s, before);
    RecloseRestores(stopped);
    LateTrimsOnlyTrim(stopped, late);
    var reclosed := Live(restored, Reclose(stopped.task));
    SameSessionsTrans(Live(stopped, Trims(late)), stopped, reclosed);
    SameSessionsLiveAlike(Live(stopped, Trims(late)), reclosed, after);
    LiveConcat(restored, Reclose(stopped.task), after);
    LiveConcat(s, before, Trims(late));
    LiveConcat(s, before + Trims(late), after);
  }

  // The restarted loop need not close those streams first: the end-of-file
  // reads may come anywhere between the other events.

  /** `m` is an end-of-file read that only the restored loop has to make. */
  predicate IsReclose(u: Session, m: Moment) {
    || (m == Turned(StdoutRead([])) && !u.task.stdoutOpen)
    || (m == Turned(StderrRead([])) && !u.task.stderrOpen)
  }

  /** What an uninterrupted session would have gone through. */
  function Erase(u: Session, ms: seq<Moment>): seq<Moment>
    decreases |ms|
  {
    if ms == [] then []
    else if IsReclose(u, ms[0]) then Erase(u, ms[1..])
    else [ms[0]] + Erase(Pass(u, ms[0]), ms[1..])
  }

  /** No data comes from a stream that the uninterrupted session has closed. */
  predicate Drained(u: Session, m: Moment) {
    m.Turned? ==>
      && (m.ev.StdoutRead? && !u.task.stdoutOpen ==> m.ev.data == [])
      && (m.ev.StderrRead? && !u.task.stderrOpen ==> m.ev.data == [])
  }

  /** A stream that was closed before the handover yields no more data. */
  predicate DrainedStreamsStayDrained(u: Session, ms: seq<Moment>)
    decreases |ms|
  {
    ms == [] ||
    (Drained(u, ms[0]) && DrainedStreamsStayDrained(if IsReclose(u, ms[0]) then u else Pass(u, ms[0]), ms[1..]))
  }

  /** `r` is `u`, apart from streams that `u` closed and `r` has yet to. */
  predicate InStep(u: Session, r: Session) {
    && u.running == r.running
    && SameUpToTrim(u.log, r.log)
    && r.task == u.task.(stdoutOpen := r.task.stdoutOpen, stderrOpen := r.task.stderrOpen)
    && (u.task.stdoutOpen ==> r.task.stdoutOpen)
    && (u.task.stderrOpen ==> r.task.stderrOpen)
  }

  /** `u` has logged its exit; `r` has the same exit to log once it has read
      the end of a stream that `u` already closed. */
  predicate OneExitBehind(u: Session, r: Session) {
    && !u.running && r.running
    && !u.task.stdoutOpen && !u.task.stderrOpen
    && (r.task.stdoutOpen || r.task.stderrOpen)
    && r.task.exitCode.Some?
    && u.task.exitCode == r.task.exitCode
    && u.task.sn == r.task.sn + 1
    && SameUpToTrim(u.log, Publish(Enqueue(r.log, Exit(r.task.sn + 1, r.task.exitCode.value))))
  }

  /** Both have logged the exit; only the counter of input applied to a
      finished child may differ. */
  predicate BothReturned(u: Session, r: Session) {
    && !u.running && !r.running && SameUpToTrim(u.log, r.log) && u.task.exitCode == r.task.exitCode
    && !u.task.stdoutOpen && !u.task.stderrOpen
  }

  predicate Follows(u: Session, r: Session) {
    InStep(u, r) || OneExitBehind(u, r) || BothReturned(u, r)
  }

  lemma FollowsOneEvent(u: Session, r: Session, ev: Event)
    requires Follows(u, r)
    requires u.running ==> !ReadyToExit(u.task)
    requires Drained(u, Turned(ev))
    ensures Follows(if IsReclose(u, Turned(ev)) then u else Iterate(u, ev), Iterate(r, ev))
  {
    if InStep(u, r) {
      InStepOneEvent(u, r, ev);
    } else if OneExitBehind(u, r) {
      BehindOneEvent(u, r, ev);
    }
  }

  lemma InStepOneEvent(u: Session, r: Session, ev: Event)
    requires InStep(u, r)
    requires u.running ==> !ReadyToExit(u.task)
    requires Drained(u, Turned(ev))
    ensures Follows(if IsReclose(u, Turned(ev)) then u else Iterate(u, ev), Iterate(r, ev))
  {
    if IsReclose(u, Turned(ev)) {
      ReclosingFollows(u, r, ev);
    } else if u.running && Possible(u.task, ev) {
      TurningFollows(u, r, ev);
      FinishingFollows(Turning(u, ev), Turning(r, ev));
    }
  }

  /** An iteration up to the exit check. */
  function Turning(s: Session, ev: Event): Session {
    Session(Turn(s.task, ev), PushAll(s.log, Pushed(s.task, ev)), true)
  }

  lemma TurningFollows(u: Session, r: Session, ev: Event)
    requires InStep(u, r) && u.running && Possible(u.task, ev)
    ensures InStep(Turning(u, ev), Turning(r, ev))
  {
    var pushed := Pushed(u.task, ev);
    if pushed != [] {
      PushKeepsSame(u.log, r.log, pushed[0]);
    }
  }

  lemma ReclosingFollows(u: Session, r: Session, ev: Event)
    requires InStep(u, r) && IsReclose(u, Turned(ev))
    requires u.running ==> !ReadyToExit(u.task)
    ensures InStep(u, Iterate(r, ev))
  {
  }

  lemma FinishingFollows(u: Session, r: Session)
    requires InStep(u, r) && u.running
    ensures Follows(Finish(u), Finish(r))
  {
    if ReadyToExit(u.task) {
      PushKeepsSame(u.log, r.log, Exit(u.task.sn + 1, u.task.exitCode.value));
    }
  }

  lemma BehindOneEvent(u: Session, r: Session, ev: Event)
    requires OneExitBehind(u, r)
    requires Drained(u, Turned(ev))
    ensures Follows(if IsReclose(u, Turned(ev)) then u else Iterate(u, ev), Iterate(r, ev))
  {
  }

  /** Trimming first and logging the Exit then keeps at least as much. */
  lemma TrimThenExit(u: LogState, r: LogState, m: ChannelMessage, sn: nat)
    requires SameUpToTrim(u, Publish(Enqueue(r, m)))
    ensures SameUpToTrim(Trim(u, sn), Publish(Enqueue(Trim(r, sn), m)))
  {
    var pushed := Publish(Enqueue(r, m));
    TrimsKeepSame(u, pushed, sn);
    assert Trim(pushed, sn).End() == Publish(Enqueue(Trim(r, sn), m)).End();
    assert SameUpToTrim(Trim(pushed, sn), Publish(Enqueue(Trim(r, sn), m)));
  }

  lemma FollowsTrim(u: Session, r: Session, sn: nat)
    requires Follows(u, r)
    ensures Follows(Pass(u, Trimmed(sn)), Pass(r, Trimmed(sn)))
  {
    if OneExitBehind(u, r) {
      TrimThenExit(u.log, r.log, Exit(r.task.sn + 1, r.task.exitCode.value), sn);
    } else {
      TrimsKeepSame(u.log, r.log, sn);
    }
  }

  lemma FollowsOneMoment(u: Session, r: Session, m: Moment)
    requires Follows(u, r)
    requires u.running ==> !ReadyToExit(u.task)
    requires Drained(u, m)
    ensures Follows(if IsReclose(u, m) then u else Pass(u, m), Pass(r, m))
  {
    match m
    case Turned(ev) => FollowsOneEvent(u, r, ev);
    case Trimmed(sn) => FollowsTrim(u, r, sn);
  }

  lemma {:induction false} FollowsEveryLife(u: Session, r: Session, ms: seq<Moment>)
    requires Follows(u, r) && Settled(u)
    requires DrainedStreamsStayDrained(u, ms)
    ensures Follows(Live(u, Erase(u, ms)), Live(r, ms))
    decreases |ms|
  {
    if ms != [] {
      FollowsOneMoment(u, r, ms[0]);
      if IsReclose(u, ms[0]) {
        FollowsEveryLife(u, Pass(r, ms[0]), ms[1..]);
      } else {
        PassKeepsSettled(u, ms[0]);
        FollowsEveryLife(Pass(u, ms[0]), Pass(r, ms[0]), ms[1..]);
        var rest := Erase(Pass(u, ms[0]), ms[1..]);
        assert ([ms[0]] + rest)[1..] == rest;
      }
    }
  }

  lemma RestoredFollows(s: Session, late: seq<nat>)
    requires Settled(s) && s.running
    ensures InStep(Live(s, Trims(late)), RestoreSession(HandOver(s.task, s.log)))
  {
    RolesTellTheTask(s.task);
    LateTrimsOnlyTrim(s, late);
  }

  /** Wherever the restarted loop makes its extra end-of-file reads and
      whatever is trimmed meanwhile or was trimmed too late, its log numbers
      and holds what that of an uninterrupted session does, short of at most
      the final Exit; while that session runs, the counters, the exit code and
      the child's input agree too, and when the restored loop has returned the
      Exit is there. */
  lemma HandoverIsTransparentInAnyOrder(s: Session, late: seq<nat>, ms: seq<Moment>)
    requires Settled(s) && s.running
    requires DrainedStreamsStayDrained(Live(s, Trims(late)), ms)
    ensures var restored := RestoreSession(HandOver(s.task, s.log));
            var kept := Live(s, Trims(late));
            var u, r := Live(kept, Erase(kept, ms)), Live(restored, ms);
            && (SameUpToTrim(u.log, r.log) || OneExitBehind(u, r))
            && (u.running ==> InStep(u, r))
            && (!r.running ==> !u.running && SameUpToTrim(u.log, r.log))
  {
    RestoredFollows(s, late);
    LiveKeepsSettled(s, Trims(late));
    FollowsEveryLife(Live(s, Trims(late)), RestoreSession(HandOver(s.task, s.log)), ms);
  }

  // ------------------------------------------------------------------------
  // The loop as the daemon runs it

  class Runner {
    const log: Log
    const stdinFd: Fd
    const stdoutFd: Fd
    const stderrFd: Fd
    const exitFd: Fd
    var sn: nat
    var lastClient: nat
    var stdinApplied: nat
    var stdin: bool
    var stdoutOpen: bool
    var stderrOpen: bool
    var exitCode: Option<int>
    var running: bool

    function State(): Session
      reads this, log
    {
      Session(Task(sn, lastClient, stdin, stdoutOpen, stderrOpen, exitCode), log.State(), running)
    }

    /** Starts the loop on a fresh log, or on one the previous daemon left, and
        on the four pipes to the child. */
    constructor (log: Log, stdinApplied: nat, stdin: bool, exitCode: Option<int>,
                 stdinFd: Fd, stdoutFd: Fd, stderrFd: Fd, exitFd: Fd)
      ensures State() == Session(Task(log.latest, stdinApplied, stdin, true, true, exitCode), log.State(), true)
      ensures this.log == log && this.stdinApplied == lastClient
      ensures this.stdinFd == stdinFd && this.stdoutFd == stdoutFd
      ensures this.stderrFd == stderrFd && this.exitFd == exitFd
    {
      this.log := log;
      this.stdinFd, this.stdoutFd, this.stderrFd, this.exitFd := stdinFd, stdoutFd, stderrFd, exitFd;
      this.sn, this.lastClient, this.stdinApplied := log.latest, stdinApplied, stdinApplied;
      this.stdin, this.exitCode := stdin, exitCode;
      stdoutOpen, stderrOpen, running := true, true, true;
    }

    /** One iteration: the select arm for `ev`, then the exit check. */
    method Handle(ev: Event)
      requires running && stdinApplied == lastClient
      requires Possible(State().task, ev)
      modifies this, log
      ensures State() == Iterate(old(State()), ev)
      ensures stdinApplied == lastClient
    {
      match ev {
        case StdoutRead(data) =>
          if data == [] {
            stdoutOpen := false;
          } else {
            sn := sn + 1;
            log.Push(Stdout(sn, data));
          }
        case StderrRead(data) =>
          if data == [] {
            stderrOpen := false;
          } else {
            sn := sn + 1;
            log.Push(Stderr(sn, data));
          }
        case ExitRead(code) =>
          exitCode := Some(code);
        case Input(m, reliable, written) =>
          OnInput(m, reliable, written);
      }
      if exitCode.Some? && !stdoutOpen && !stderrOpen {
        sn := sn + 1;
        log.Push(Exit(sn, exitCode.value));
        running := false;
      }
    }

    method OnInput(m: ChannelMessage, reliable: bool, written: bool)
      requires stdinApplied == lastClient
      modifies this
      ensures State() == old(State()).(task := ApplyInput(old(State()).task, m, reliable, written))
      ensures stdinApplied == lastClient
    {
      if reliable && m.Stdin? {
        if m.sn > lastClient {
          lastClient := m.sn;
          WriteStdin(written);
          stdinApplied := lastClient;
        }
      } else if !reliable && m.Stdin? {
        if m.sn == lastClient + 1 {
          lastClient := m.sn;
          WriteStdin(written);
          stdinApplied := lastClient;
        }
      } else if reliable && m.StdinEof? {
        if m.sn > lastClient {
          lastClient := m.sn;
          stdin := false;
          stdinApplied := lastClient;
        }
      }
    }

    /** A broken pipe closes the child's input for good. */
    method WriteStdin(written: bool)
      modifies this`stdin
      ensures stdin == (old(stdin) && written)
    {
      if stdin && !written {
        stdin := false;
      }
    }

    /** Answers the shutdown request: the open pipes are given back and the
        rest is written down. */
    method GiveBack() returns (record: Record, fds: seq<(string, Fd)>)
      requires running
      modifies this
      ensures record == HandOver(old(State()).task, old(State()).log)
      ensures GivesBack(record, fds)
      ensures forall x :: x in fds ==> x.1 == PipeOf(x.0)
      ensures !running
    {
      fds := OpenPipes();
      var trimmed, buffer := log.Snapshot();
      record := Record(exitCode, trimmed, buffer, lastClient, Roles(fds));
      stdin, running := false, false;
    }

    method OpenPipes() returns (fds: seq<(string, Fd)>)
      ensures UniqueNames(fds) && Roles(fds) == OpenRoles(State().task)
      ensures forall x :: x in fds ==> x.1 == PipeOf(x.0)
    {
      RolesDiffer();
      fds := GiveOne([], STDIN, stdinFd, stdin);
      fds := GiveOne(fds, STDOUT, stdoutFd, stdoutOpen);
      fds := GiveOne(fds, STDERR, stderrFd, stderrOpen);
      fds := GiveOne(fds, EXIT, exitFd, exitCode.None?);
    }

    /** The pipe that belongs to a role. */
    function PipeOf(role: string): Fd {
      if role == STDIN then stdinFd
      else if role == STDOUT then stdoutFd
      else if role == STDERR then stderrFd
      else exitFd
    }

    method GiveOne(given: seq<(string, Fd)>, role: string, fd: Fd, open: bool) returns (fds: seq<(string, Fd)>)
      requires UniqueNames(given) && role !in Roles(given)
      requires fd == PipeOf(role) && forall x :: x in given ==> x.1 == PipeOf(x.0)
      ensures UniqueNames(fds) && Roles(fds) == Roles(given) + if open then {role} else {}
      ensures forall x :: x in fds ==> x.1 == PipeOf(x.0)
    {
      if !open { return given; }
      OneMorePipe(given, role, fd);
      fds := given + [(role, fd)];
    }
  }
}
