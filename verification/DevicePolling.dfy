/** Polling the token endpoint for a device code (section 3.5 of RFC 8628). */
module DevicePolling {
  /** What one request brings. */
  datatype Answer =
    | Granted(tokens: nat)
    | Pending
    | SlowDown
    | Refused
    | Limited(retryAfter: nat)
    | Broken

  /** A request and the seconds it takes. */
  datatype Round = Round(answer: Answer, took: nat)

  datatype Outcome =
    | Got(tokens: nat)
    | Failed
    | Expired
    | Polling

  datatype Session = Session(waits: seq<nat>, outcome: Outcome)

  function Max(a: nat, b: nat): nat { if a < b then b else a }

  predicate Ends(a: Answer) { a.Granted? || a.Refused? || a.Broken? }

  function OutcomeOf(a: Answer): Outcome
    requires Ends(a)
  {
    match a
    case Granted(tokens) => Got(tokens)
    case _ => Failed
  }

  function IntervalAfter(interval: nat, a: Answer): nat {
    if a.SlowDown? then interval + 5 else interval
  }

  function WaitFor(interval: nat, a: Answer): nat {
    if a.Limited? then Max(a.retryAfter, interval) else interval
  }

  /** A session that begins with the sleeps `waits`. */
  function Waited(waits: seq<nat>, rest: Session): Session {
    Session(waits + rest.waits, rest.outcome)
  }

  lemma WaitedOnce(waits: seq<nat>, wait: nat, rest: Session)
    ensures Waited(waits, Waited([wait], rest)) == Waited(waits + [wait], rest)
  {
    assert waits + ([wait] + rest.waits) == waits + [wait] + rest.waits;
  }

  lemma WaitedNoMore(waits: seq<nat>, outcome: Outcome)
    ensures Waited(waits, Session([], outcome)) == Session(waits, outcome)
  {
  }

  /** The sleeps of a session that sees `rounds`, and how it ends. */
  function Poll(interval: nat, now: nat, deadline: nat, rounds: seq<Round>): (r: Session)
    ensures |r.waits| <= |rounds|
    decreases rounds
  {
    if rounds == [] then Session([], Polling)
    else
      var a, heard := rounds[0].answer, now + rounds[0].took;
      if Ends(a) then Session([], OutcomeOf(a))
      else
        var next := IntervalAfter(interval, a);
        var wait := WaitFor(next, a);
        if heard + wait > deadline then Session([], Expired)
        else Waited([wait], Poll(next, heard + wait, deadline, rounds[1..]))
  }

  /** One round, by position. */
  lemma PollAt(interval: nat, now: nat, deadline: nat, rounds: seq<Round>, i: nat)
    requires i < |rounds|
    ensures var a, heard := rounds[i].answer, now + rounds[i].took;
            var next := IntervalAfter(interval, a);
            var wait := WaitFor(next, a);
            Poll(interval, now, deadline, rounds[i..]) ==
            if Ends(a) then Session([], OutcomeOf(a))
            else if heard + wait > deadline then Session([], Expired)
            else Waited([wait], Poll(next, heard + wait, deadline, rounds[i + 1..]))
  {
    assert rounds[i..][0] == rounds[i] && rounds[i..][1..] == rounds[i + 1..];
  }

  method PollForTokens(interval0: nat, start: nat, deadline: nat, rounds: seq<Round>)
    returns (waits: seq<nat>, outcome: Outcome)
    ensures Session(waits, outcome) == Poll(interval0, start, deadline, rounds)
  {
    waits := [];
    var interval: nat, now: nat, i := interval0, start, 0;
    ghost var whole := Poll(interval0, start, deadline, rounds);
    assert rounds[0..] == rounds;
    while i < |rounds|
      invariant i <= |rounds|
      invariant whole == Waited(waits, Poll(interval, now, deadline, rounds[i..]))
    {
      PollAt(interval, now, deadline, rounds, i);
      WaitedNoMore(waits, if Ends(rounds[i].answer) then OutcomeOf(rounds[i].answer) else Expired);
      now := now + rounds[i].took;
      var wait;
      match rounds[i].answer {
        case Granted(tokens) => return waits, Got(tokens);
        case Pending => wait := interval;
        case SlowDown => interval := interval + 5; wait := interval;
        case Refused => return waits, Failed;
        case Limited(retryAfter) => wait := Max(retryAfter, interval);
        case Broken => return waits, Failed;
      }
      if now + wait > deadline {
        return waits, Expired;
      }
      WaitedOnce(waits, wait, Poll(interval, now + wait, deadline, rounds[i + 1..]));
      waits := waits + [wait];
      now := now + wait;
      i := i + 1;
    }
    WaitedNoMore(waits, Polling);
    outcome := Polling;
  }

  // ------------------------------------------------------------------------

  function SlowDowns(rounds: seq<Round>): nat {
    if rounds == [] then 0
    else SlowDowns(rounds[1..]) + if rounds[0].answer.SlowDown? then 1 else 0
  }

  /** When the last of the sleeps is over. */
  function Clock(now: nat, rounds: seq<Round>, waits: seq<nat>): nat
    requires |waits| <= |rounds|
    decreases rounds
  {
    if waits == [] then now
    else Clock(now + rounds[0].took + waits[0], rounds[1..], waits[1..])
  }

  lemma SlowDownsFrom(rounds: seq<Round>, n: nat)
    requires n < |rounds|
    ensures SlowDowns(rounds[..n + 1]) ==
            SlowDowns(rounds[1..][..n]) + if rounds[0].answer.SlowDown? then 1 else 0
  {
    assert rounds[..n + 1][1..] == rounds[1..][..n];
  }

  /** The interval after k slow_down replies is the base plus 5k, and a sleep
      lasts exactly that long, or as long as a rate limiter asks for when that
      is longer. */
  lemma {:induction false} WaitIs(interval: nat, now: nat, deadline: nat, rounds: seq<Round>, i: nat)
    requires i < |Poll(interval, now, deadline, rounds).waits|
    ensures rounds[i].answer.Pending? || rounds[i].answer.SlowDown? || rounds[i].answer.Limited?
    ensures var current, a := interval + 5 * SlowDowns(rounds[..i + 1]), rounds[i].answer;
            Poll(interval, now, deadline, rounds).waits[i] ==
            if a.Limited? && a.retryAfter > current then a.retryAfter else current
    decreases rounds
  {
    var a, heard := rounds[0].answer, now + rounds[0].took;
    var next := IntervalAfter(interval, a);
    SlowDownsFrom(rounds, i);
    if i > 0 {
      WaitIs(next, heard + WaitFor(next, a), deadline, rounds[1..], i - 1);
    } else {
      assert SlowDowns(rounds[1..][..0]) == 0;
    }
  }

  /** No sleep is begun that would end after the deadline. */
  lemma {:induction false} NoSleepOutlivesTheCode(interval: nat, now: nat, deadline: nat, rounds: seq<Round>)
    requires now <= deadline
    ensures Clock(now, rounds, Poll(interval, now, deadline, rounds).waits) <= deadline
    decreases rounds
  {
    var waits := Poll(interval, now, deadline, rounds).waits;
    if waits != [] {
      var a, heard := rounds[0].answer, now + rounds[0].took;
      var next := IntervalAfter(interval, a);
      var wait := WaitFor(next, a);
      NoSleepOutlivesTheCode(next, heard + wait, deadline, rounds[1..]);
      assert waits[1..] == Poll(next, heard + wait, deadline, rounds[1..]).waits;
    }
  }

  /** The session stops at the first round that grants, refuses or breaks it or
      leaves no time for another sleep, and reports that round: tokens exactly
      when some were granted. */
  lemma {:induction false} OutcomeIs(interval: nat, now: nat, deadline: nat, rounds: seq<Round>)
    ensures var Session(waits, outcome) := Poll(interval, now, deadline, rounds);
            var n := |waits|;
            if n == |rounds| then outcome == Polling
            else
              var a, heard := rounds[n].answer, Clock(now, rounds, waits) + rounds[n].took;
              var current := interval + 5 * SlowDowns(rounds[..n + 1]);
              match a
              case Granted(tokens) => outcome == Got(tokens)
              case Refused => outcome == Failed
              case Broken => outcome == Failed
              case Limited(retryAfter) =>
                outcome == Expired && (heard + current > deadline || heard + retryAfter > deadline)
              case _ => outcome == Expired && heard + current > deadline
    decreases rounds
  {
    if rounds != [] {
      var run := Poll(interval, now, deadline, rounds);
      var n := |run.waits|;
      var a, heard := rounds[0].answer, now + rounds[0].took;
      var next := IntervalAfter(interval, a);
      var wait := WaitFor(next, a);
      if n < |rounds| {
        SlowDownsFrom(rounds, n);
      }
      if n > 0 {
        OutcomeIs(next, heard + wait, deadline, rounds[1..]);
        assert run.waits[1..] == Poll(next, heard + wait, deadline, rounds[1..]).waits;
      }
    }
  }

  /** Polling ends within the life of the code when it has an interval to
      keep or its requests take time. */
  lemma {:induction false} PollingEnds(interval: nat, now: nat, deadline: nat, rounds: seq<Round>)
    requires interval >= 1 || forall r :: r in rounds ==> r.took >= 1
    requires |rounds| > if now <= deadline then deadline - now else 0
    ensures Poll(interval, now, deadline, rounds).outcome != Polling
    decreases rounds
  {
    var a, heard := rounds[0].answer, now + rounds[0].took;
    var next := IntervalAfter(interval, a);
    var wait := WaitFor(next, a);
    assert rounds[0] in rounds;
    if !Ends(a) && heard + wait <= deadline {
      PollingEnds(next, heard + wait, deadline, rounds[1..]);
    }
  }

  /** An issuer that answers at once and asks for no interval is polled for
      as long as it keeps its user waiting. */
  lemma {:induction false} ZeroIntervalNeverEnds(now: nat, deadline: nat, n: nat)
    requires now <= deadline
    ensures Poll(0, now, deadline, seq(n, _ => Round(Pending, 0))).outcome == Polling
    decreases n
  {
    if n > 0 {
      var rounds := seq(n, _ => Round(Pending, 0));
      assert rounds[1..] == seq(n - 1, _ => Round(Pending, 0));
      assert rounds[0] == Round(Pending, 0);
      ZeroIntervalNeverEnds(now, deadline, n - 1);
    }
  }

  /** Whatever is replied, `n` rounds are more than a session sees through. */
  ghost predicate EndsWithin(interval: nat, now: nat, deadline: nat, took: nat, n: nat) {
    forall rounds: seq<Round> | |rounds| >= n && (forall r :: r in rounds ==> r.took >= took) ::
      Poll(interval, now, deadline, rounds).outcome != Polling
  }

  /** Polling is bounded whatever is replied if and only if there is an
      interval to keep or requests are known to take time. */
  lemma PollingEndsIff(interval: nat, now: nat, deadline: nat, took: nat)
    requires now <= deadline
    ensures (exists n: nat :: EndsWithin(interval, now, deadline, took, n)) <==> interval >= 1 || took >= 1
  {
    if interval >= 1 || took >= 1 {
      forall rounds: seq<Round> | |rounds| >= deadline - now + 1 && (forall r :: r in rounds ==> r.took >= took)
        ensures Poll(interval, now, deadline, rounds).outcome != Polling
      {
        PollingEnds(interval, now, deadline, rounds);
      }
      assert EndsWithin(interval, now, deadline, took, deadline - now + 1);
    } else {
      forall n: nat ensures !EndsWithin(interval, now, deadline, took, n) {
        ZeroIntervalNeverEnds(now, deadline, n);
        var rounds := seq(n, _ => Round(Pending, 0));
        assert |rounds| >= n && Poll(interval, now, deadline, rounds).outcome == Polling;
      }
    }
  }
}
