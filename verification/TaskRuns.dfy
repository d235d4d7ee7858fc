/** What a run of the session task amounts to, told from what it read alone. */
module TaskRuns {
  import opened Proto
  import opened OutboundLog
  import opened SessionTask

  /** What stdout gave until its first empty read. */
  function StdoutData(open: bool, evs: seq<Event>): Bytes
    decreases |evs|
  {
    if !open || evs == [] then []
    else if !evs[0].StdoutRead? then StdoutData(open, evs[1..])
    else evs[0].data + StdoutData(evs[0].data != [], evs[1..])
  }

  /** What stderr gave until its first empty read. */
  function StderrData(open: bool, evs: seq<Event>): Bytes
    decreases |evs|
  {
    if !open || evs == [] then []
    else if !evs[0].StderrRead? then StderrData(open, evs[1..])
    else evs[0].data + StderrData(evs[0].data != [], evs[1..])
  }

  /** The code known at the start, or else the first that was read. */
  function FirstCode(known: Option<int>, evs: seq<Event>): Option<int>
    decreases |evs|
  {
    if known.Some? || evs == [] then known
    else if evs[0].ExitRead? then Some(evs[0].code)
    else FirstCode(known, evs[1..])
  }

  predicate StdoutEnded(t: Task, evs: seq<Event>) {
    !t.stdoutOpen || StdoutRead([]) in evs
  }

  predicate StderrEnded(t: Task, evs: seq<Event>) {
    !t.stderrOpen || StderrRead([]) in evs
  }

  /** Running, or with nothing left to read. */
  predicate RunsOrEnded(s: Session) {
    s.running || (!s.task.stdoutOpen && !s.task.stderrOpen && s.task.exitCode.Some?)
  }

  lemma IterateEvent(s: Session, ev: Event)
    requires RunsOrEnded(s)
    ensures var t := Iterate(s, ev);
            && RunsOrEnded(t)
            && t.task.stdoutOpen == (s.task.stdoutOpen && ev != StdoutRead([]))
            && t.task.stderrOpen == (s.task.stderrOpen && ev != StderrRead([]))
            && t.task.exitCode == (if s.task.exitCode.None? && ev.ExitRead? then Some(ev.code) else s.task.exitCode)
  {
  }

  /** One iteration logs what it read. */
  lemma IterateBytes(s: Session, ev: Event)
    requires RunsOrEnded(s)
    ensures var t := Iterate(s, ev);
            && t.log.trimmed == s.log.trimmed
            && StdoutBytes(t.log.buffer) == StdoutBytes(s.log.buffer)
                 + (if s.task.stdoutOpen && ev.StdoutRead? then ev.data else [])
            && StderrBytes(t.log.buffer) == StderrBytes(s.log.buffer)
                 + (if s.task.stderrOpen && ev.StderrRead? then ev.data else [])
  {
    if s.running && Possible(s.task, ev) {
      var turned := Turning(s, ev);
      if Pushed(s.task, ev) != [] {
        BytesOfOneMore(s.log.buffer, Pushed(s.task, ev)[0]);
      }
      if ReadyToExit(turned.task) {
        BytesOfOneMore(turned.log.buffer, Exit(turned.task.sn + 1, turned.task.exitCode.value));
      }
    }
  }

  lemma {:induction false} StdoutOfRun(s: Session, evs: seq<Event>)
    requires RunsOrEnded(s)
    ensures StdoutBytes(Run(s, evs).log.buffer) == StdoutBytes(s.log.buffer) + StdoutData(s.task.stdoutOpen, evs)
    decreases |evs|
  {
    if evs != [] {
      IterateEvent(s, evs[0]);
      IterateBytes(s, evs[0]);
      StdoutOfRun(Iterate(s, evs[0]), evs[1..]);
    }
  }

  lemma {:induction false} StderrOfRun(s: Session, evs: seq<Event>)
    requires RunsOrEnded(s)
    ensures StderrBytes(Run(s, evs).log.buffer) == StderrBytes(s.log.buffer) + StderrData(s.task.stderrOpen, evs)
    decreases |evs|
  {
    if evs != [] {
      IterateEvent(s, evs[0]);
      IterateBytes(s, evs[0]);
      StderrOfRun(Iterate(s, evs[0]), evs[1..]);
    }
  }

  lemma {:induction false} StreamsOfRun(s: Session, evs: seq<Event>)
    requires RunsOrEnded(s)
    ensures var t := Run(s, evs);
            && t.log.trimmed == s.log.trimmed
            && (t.task.stdoutOpen <==> !StdoutEnded(s.task, evs))
            && (t.task.stderrOpen <==> !StderrEnded(s.task, evs))
    decreases |evs|
  {
    if evs != [] {
      IterateEvent(s, evs[0]);
      IterateBytes(s, evs[0]);
      StreamsOfRun(Iterate(s, evs[0]), evs[1..]);
    }
  }

  /** Everything the child wrote to a stream until its end is logged, in order
      and once, and a stream is given up only at its end: for every run. */
  lemma AllOutputIsLogged(s: Session, evs: seq<Event>)
    requires s.running
    ensures var t := Run(s, evs);
            && t.log.trimmed == s.log.trimmed
            && StdoutBytes(t.log.buffer) == StdoutBytes(s.log.buffer) + StdoutData(s.task.stdoutOpen, evs)
            && StderrBytes(t.log.buffer) == StderrBytes(s.log.buffer) + StderrData(s.task.stderrOpen, evs)
            && (t.task.stdoutOpen <==> s.task.stdoutOpen && StdoutRead([]) !in evs)
            && (t.task.stderrOpen <==> s.task.stderrOpen && StderrRead([]) !in evs)
  {
    StreamsOfRun(s, evs);
    StdoutOfRun(s, evs);
    StderrOfRun(s, evs);
  }

  lemma {:induction false} CodeOfRun(s: Session, evs: seq<Event>)
    requires RunsOrEnded(s)
    ensures Run(s, evs).task.exitCode == FirstCode(s.task.exitCode, evs)
    decreases |evs|
  {
    if evs != [] {
      IterateEvent(s, evs[0]);
      CodeOfRun(Iterate(s, evs[0]), evs[1..]);
    }
  }

  /** The loop returns exactly when both streams have ended and a code was
      read, in whatever order, and the code it logs last is the one it read
      first. */
  lemma ReturnsIff(s: Session, evs: seq<Event>)
    requires Settled(s) && s.running
    ensures var t, code := Run(s, evs), FirstCode(s.task.exitCode, evs);
            && (!t.running <==> StdoutEnded(s.task, evs) && StderrEnded(s.task, evs) && code.Some?)
            && t.task.exitCode == code
            && (!t.running ==>
                t.log.buffer != [] && t.log.buffer[|t.log.buffer| - 1] == Exit(t.log.End(), code.value))
  {
    RunKeepsSettled(s, evs);
    AllOutputIsLogged(s, evs);
    CodeOfRun(s, evs);
  }
}
