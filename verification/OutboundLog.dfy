/** What a session has said and its client has not confirmed yet. Numbers count
    from one over the whole life of the session; dropping confirmed entries
    from the front does not renumber the others. */
module OutboundLog {
  import opened Proto

  /** The value of a log.  `latest` is the number published on the watch
      channel and `version` counts how often it was published, which is what a
      subscriber compares to find out whether it has something unseen. */
  datatype LogState = LogState(trimmed: nat, buffer: seq<ChannelMessage>, latest: nat, version: nat)
  {
    /** Sequence number of the newest entry, trimmed or not. */
    function End(): nat { trimmed + |buffer| }
  }

  const EMPTY := LogState(0, [], 0, 0)

  /** First half of a push: the entry is in the buffer, nobody was told. */
  function Enqueue(log: LogState, m: ChannelMessage): LogState {
    log.(buffer := log.buffer + [m])
  }

  /** Second half of a push: publish the newest sequence number. */
  function Publish(log: LogState): LogState {
    log.(latest := log.End(), version := log.version + 1)
  }

  /** Everything still buffered past `sn`; the subtraction saturates at zero. */
  function After(log: LogState, sn: nat): seq<ChannelMessage> {
    var skip := if sn < log.trimmed then 0 else sn - log.trimmed;
    if skip <= |log.buffer| then log.buffer[skip..] else []
  }

  function Trim(log: LogState, sn: nat): LogState {
    if sn <= log.trimmed then log
    else if log.End() <= sn then log.(trimmed := log.End(), buffer := [])
    else log.(trimmed := sn, buffer := log.buffer[sn - log.trimmed..])
  }

  function Restore(trimmed: nat, buffer: seq<ChannelMessage>): LogState {
    LogState(trimmed, buffer, trimmed + |buffer|, 0)
  }

  /** `ms` are the entries of `history` that come after the first `p`. */
  ghost predicate PartOf(history: seq<ChannelMessage>, p: nat, ms: seq<ChannelMessage>) {
    p + |ms| <= |history| && forall i :: 0 <= i < |ms| ==> ms[i] == history[p + i]
  }

  lemma PartIs(history: seq<ChannelMessage>, p: nat, ms: seq<ChannelMessage>)
    requires PartOf(history, p, ms)
    ensures ms == history[p..p + |ms|]
  {
  }

  lemma PartOneMore(history: seq<ChannelMessage>, p: nat, ms: seq<ChannelMessage>)
    requires PartOf(history, p, ms) && p + |ms| < |history|
    ensures PartOf(history, p, ms + [history[p + |ms|]])
  {
  }

  lemma PartOneLess(history: seq<ChannelMessage>, p: nat, ms: seq<ChannelMessage>)
    requires PartOf(history, p, ms) && ms != []
    ensures ms[0] == history[p] && PartOf(history, p + 1, ms[1..])
  {
  }

  lemma PartStays(history: seq<ChannelMessage>, longer: seq<ChannelMessage>, p: nat, ms: seq<ChannelMessage>)
    requires PartOf(history, p, ms) && history <= longer
    ensures PartOf(longer, p, ms)
  {
  }

  /** `log` holds the tail of `history` that starts after entry `trimmed`. */
  ghost predicate HoldsTailOf(log: LogState, history: seq<ChannelMessage>) {
    PartOf(history, log.trimmed, log.buffer)
  }

  /** Reading past an untrimmed position yields exactly the history from
      there on, whatever was trimmed before it. */
  lemma AfterIsHistory(log: LogState, history: seq<ChannelMessage>, sn: nat)
    requires HoldsTailOf(log, history)
    requires log.trimmed <= sn
    ensures sn <= log.End() ==> After(log, sn) == history[sn..log.End()]
    ensures log.End() < sn ==> After(log, sn) == []
  {
    if sn <= log.End() {
      assert log.buffer[sn - log.trimmed..] == history[sn..log.End()];
    }
  }

  lemma AfterIsPart(log: LogState, history: seq<ChannelMessage>, sn: nat)
    requires HoldsTailOf(log, history) && log.trimmed <= sn <= log.End()
    ensures |After(log, sn)| == log.End() - sn && PartOf(history, sn, After(log, sn))
  {
    forall i | 0 <= i < |After(log, sn)| ensures After(log, sn)[i] == history[sn + i] {
      assert After(log, sn)[i] == log.buffer[sn - log.trimmed + i];
    }
  }

  /** Below the trim point the log has forgotten entries: it replays all it
      has, which is less than was asked for. */
  lemma AfterBelowTrimPoint(log: LogState, history: seq<ChannelMessage>, sn: nat)
    requires HoldsTailOf(log, history)
    requires sn < log.trimmed
    ensures After(log, sn) == history[log.trimmed..log.End()]
    ensures After(log, sn) != history[sn..log.End()]
  {
    assert |history[sn..log.End()]| == log.End() - sn;
  }

  /** So the log can serve exactly the positions it has not trimmed away. */
  lemma ReplaysExactlyIff(log: LogState, history: seq<ChannelMessage>, sn: nat)
    requires HoldsTailOf(log, history) && sn <= log.End()
    ensures After(log, sn) == history[sn..log.End()] <==> log.trimmed <= sn
    ensures sn < log.trimmed ==> After(log, sn) == history[log.trimmed..log.End()]
  {
    if log.trimmed <= sn {
      AfterIsHistory(log, history, sn);
    } else {
      AfterBelowTrimPoint(log, history, sn);
    }
  }

  /** A trim drops exactly the entries it covers: entry `k` is still there if
      and only if its number is above `sn`. */
  lemma TrimDropsExactly(log: LogState, history: seq<ChannelMessage>, sn: nat, k: nat)
    requires HoldsTailOf(log, history) && log.trimmed < k <= log.End()
    ensures Trim(log, sn).trimmed < k <= Trim(log, sn).End() <==> sn < k
    ensures sn < k ==> Trim(log, sn).buffer[k - 1 - Trim(log, sn).trimmed] == history[k - 1]
  {
    TrimKeepsTail(log, history, sn);
  }

  lemma TrimKeepsTail(log: LogState, history: seq<ChannelMessage>, sn: nat)
    requires HoldsTailOf(log, history)
    ensures HoldsTailOf(Trim(log, sn), history)
    ensures Trim(log, sn).End() == log.End()
    ensures log.trimmed <= Trim(log, sn).trimmed
    ensures Trim(log, sn).trimmed <= log.trimmed || Trim(log, sn).trimmed <= sn
    ensures Trim(log, sn).latest == log.latest && Trim(log, sn).version == log.version
  {
  }

  lemma EnqueueKeepsTail(log: LogState, history: seq<ChannelMessage>, m: ChannelMessage)
    requires HoldsTailOf(log, history) && log.End() == |history|
    ensures HoldsTailOf(Enqueue(log, m), history + [m])
    ensures Enqueue(log, m).End() == |history| + 1
  {
    assert log.buffer + [m] == (history + [m])[log.trimmed..|history| + 1];
  }

  lemma GrowingHistoryKeepsTail(log: LogState, history: seq<ChannelMessage>, m: ChannelMessage)
    requires HoldsTailOf(log, history)
    ensures HoldsTailOf(log, history + [m])
  {
    assert (history + [m])[log.trimmed..log.End()] == history[log.trimmed..log.End()];
  }

  /** Two trims act like the larger one, in either order. */
  lemma TrimsCommute(log: LogState, a: nat, b: nat)
    ensures Trim(Trim(log, a), b) == Trim(log, if a <= b then b else a)
  {
    var m := if a <= b then b else a;
    assert Trim(Trim(log, a), b).buffer == Trim(log, m).buffer;
  }

  /** A position that was not trimmed away replays the same after the trim. */
  lemma TrimKeepsReplay(log: LogState, acked: nat, sn: nat)
    requires acked <= sn && log.trimmed <= sn
    ensures After(Trim(log, acked), sn) == After(log, sn)
  {
  }

  /** The log object shared by the session task and the attachments. */
  class Log {
    var buffer: seq<ChannelMessage>
    var trimmed: nat
    var latest: nat
    var version: nat

    function State(): LogState
      reads this
    {
      LogState(trimmed, buffer, latest, version)
    }

    constructor Default()
      ensures State() == EMPTY
    {
      buffer, trimmed, latest, version := [], 0, 0, 0;
    }

    constructor Restored(trimmed: nat, buffer: seq<ChannelMessage>)
      ensures State() == Restore(trimmed, buffer)
    {
      this.trimmed, this.buffer := trimmed, buffer;
      latest, version := trimmed + |buffer|, 0;
    }

    method Push(m: ChannelMessage)
      modifies this
      ensures State() == Publish(Enqueue(old(State()), m))
      ensures latest == old(trimmed) + |old(buffer)| + 1
    {
      buffer := buffer + [m];
      var sn := trimmed + |buffer|;
      latest, version := sn, version + 1;
    }

    method ReplayAfter(sn: nat) returns (ms: seq<ChannelMessage>)
      ensures ms == After(State(), sn)
    {
      var skip := if sn < trimmed then 0 else sn - trimmed;
      ms := if skip <= |buffer| then buffer[skip..] else [];
    }

    method TrimTo(sn: nat)
      modifies this
      ensures State() == Trim(old(State()), sn)
    {
      ghost var start := State();
      while trimmed < sn && buffer != []
        invariant start.trimmed <= trimmed <= start.End()
        invariant trimmed == start.trimmed || trimmed <= sn
        invariant trimmed + |buffer| == start.End()
        invariant forall i :: 0 <= i < |buffer| ==> buffer[i] == start.buffer[trimmed - start.trimmed + i]
        invariant latest == start.latest && version == start.version
        decreases |buffer|
      {
        buffer := buffer[1..];
        trimmed := trimmed + 1;
      }
    }

    method Snapshot() returns (count: nat, ms: seq<ChannelMessage>)
      ensures count == State().trimmed && ms == State().buffer
      ensures forall sn: nat :: After(Restore(count, ms), sn) == After(State(), sn)
    {
      count, ms := trimmed, buffer;
    }
  }
}
