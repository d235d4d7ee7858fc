/** Counting attached connections and expiring sessions nobody is attached to.
    A guard updates the counter and the timestamp in two separate steps, so any
    number of guards may interleave between them. */
module AttachGuard {
  import opened Proto

  type Time = nat
  type Guard = nat

  /** The two shared fields, the clock, and where each guard stands: it has
      added itself but not yet cleared the timestamp, it is attached, or it has
      removed itself as the last one and not yet set the timestamp. */
  datatype Shared = Shared(
    count: int,
    detachedAt: Option<Time>,
    now: Time,
    arriving: set<Guard>,
    attached: set<Guard>,
    leaving: set<Guard>)

  datatype Action =
    | Add(g: Guard)
    | ClearStamp(g: Guard)
    | Subtract(g: Guard)
    | SetStamp(g: Guard)
    | Pass(t: Time)

  predicate Can(s: Shared, a: Action) {
    match a
    case Add(g) => g !in s.arriving && g !in s.attached && g !in s.leaving
    case ClearStamp(g) => g in s.arriving
    case Subtract(g) => g in s.attached
    case SetStamp(g) => g in s.leaving
    case Pass(_) => true
  }

  function Do(s: Shared, a: Action): Shared {
    match a
    case Add(g) => s.(count := s.count + 1, arriving := s.arriving + {g})
    case ClearStamp(g) => s.(detachedAt := None, arriving := s.arriving - {g}, attached := s.attached + {g})
    case Subtract(g) =>
      s.(count := s.count - 1, attached := s.attached - {g},
         leaving := if s.count == 1 then s.leaving + {g} else s.leaving)
    case SetStamp(g) => s.(detachedAt := Some(s.now), leaving := s.leaving - {g})
    case Pass(t) => s.(now := s.now + t)
  }

  /** A session is created detached. */
  function Created(now: Time): Shared {
    Shared(0, Some(now), now, {}, {}, {})
  }

  function After(now: Time, run: seq<Action>): Shared {
    if run == [] then Created(now) else Do(After(now, run[..|run| - 1]), run[|run| - 1])
  }

  ghost predicate Run(now: Time, run: seq<Action>) {
    run == [] || (Run(now, run[..|run| - 1]) && Can(After(now, run[..|run| - 1]), run[|run| - 1]))
  }

  ghost predicate CountOk(s: Shared) {
    && s.count == |s.arriving| + |s.attached|
    && s.arriving !! s.attached && s.arriving !! s.leaving && s.attached !! s.leaving
    && (s.detachedAt.Some? ==> s.detachedAt.value <= s.now)
    && (s.count == 0 && s.leaving == {} ==> s.detachedAt.Some?)
  }

  lemma CardWith(guards: set<Guard>, g: Guard)
    requires g !in guards
    ensures |guards + {g}| == |guards| + 1
  {
  }

  lemma CardWithout(guards: set<Guard>, g: Guard)
    requires g in guards
    ensures |guards - {g}| == |guards| - 1
  {
  }

  lemma DoKeepsCount(s: Shared, a: Action)
    requires CountOk(s) && Can(s, a)
    ensures CountOk(Do(s, a))
  {
    match a {
      case Add(g) => CardWith(s.arriving, g);
      case ClearStamp(g) =>
        CardWithout(s.arriving, g);
        CardWith(s.attached, g);
      case Subtract(g) => CardWithout(s.attached, g);
      case SetStamp(g) =>
      case Pass(t) =>
    }
  }

  lemma {:induction false} RunKeepsCount(now: Time, run: seq<Action>)
    requires Run(now, run)
    ensures CountOk(After(now, run))
  {
    if run != [] {
      RunKeepsCount(now, run[..|run| - 1]);
      DoKeepsCount(After(now, run[..|run| - 1]), run[|run| - 1]);
    }
  }

  predicate Expired(s: Shared, timeout: Time) {
    s.detachedAt.Some? && s.now - s.detachedAt.value >= timeout
  }

  /** Under every interleaving: the counter is the number of guards, and with
      nobody attached and no drop in progress the session carries a timestamp,
      so after the timeout the sweep will select it. */
  lemma NoSessionLeaks(now: Time, run: seq<Action>, timeout: Time)
    requires Run(now, run)
    ensures var s := After(now, run);
            && s.count == |s.arriving| + |s.attached|
            && (s.count == 0 && s.leaving == {} ==>
                  s.detachedAt.Some? && Expired(After(now, run + [Pass(timeout)]), timeout))
  {
    RunKeepsCount(now, run);
    assert (run + [Pass(timeout)])[..|run|] == run;
  }

  // ------------------------------------------------------------------------
  // "None while a client is attached"

  predicate UnmarkedWhileAttached(s: Shared) {
    s.attached != {} ==> s.detachedAt.None?
  }

  /** The timestamp is set only when nobody is attached by then. */
  predicate StampsAlone(s: Shared, a: Action) {
    a.SetStamp? ==> s.attached == {}
  }

  ghost predicate AlwaysStampsAlone(now: Time, run: seq<Action>) {
    forall i :: 0 <= i < |run| ==> StampsAlone(After(now, run[..i]), run[i])
  }

  ghost predicate AlwaysUnmarked(now: Time, run: seq<Action>) {
    forall i :: 0 <= i <= |run| ==> UnmarkedWhileAttached(After(now, run[..i]))
  }

  lemma OnlyLateStampsMark(s: Shared, a: Action)
    requires Can(s, a) && UnmarkedWhileAttached(s)
    ensures UnmarkedWhileAttached(Do(s, a)) <==> StampsAlone(s, a)
  {
  }

  lemma {:induction false} UnmarkedAt(now: Time, run: seq<Action>, i: nat)
    requires Run(now, run) && i <= |run|
    requires forall j :: 0 <= j < i ==> StampsAlone(After(now, run[..j]), run[j])
    ensures UnmarkedWhileAttached(After(now, run[..i]))
  {
    if i > 0 {
      UnmarkedAt(now, run, i - 1);
      PrefixRuns(now, run, i);
      assert run[..i][..i - 1] == run[..i - 1];
      OnlyLateStampsMark(After(now, run[..i - 1]), run[i - 1]);
    }
  }

  lemma {:induction false} PrefixRuns(now: Time, run: seq<Action>, i: nat)
    requires Run(now, run) && i <= |run|
    ensures Run(now, run[..i])
    decreases |run|
  {
    if i < |run| {
      PrefixRuns(now, run[..|run| - 1], i);
      assert run[..|run| - 1][..i] == run[..i];
    } else {
      assert run[..i] == run;
    }
  }

  /** A timestamp is absent throughout every attachment exactly in the runs
      that never set it while some other connection is attached. */
  lemma UnmarkedIffStampsAlone(now: Time, run: seq<Action>)
    requires Run(now, run)
    ensures AlwaysUnmarked(now, run) <==> AlwaysStampsAlone(now, run)
  {
    if AlwaysStampsAlone(now, run) {
      forall i | 0 <= i <= |run|
        ensures UnmarkedWhileAttached(After(now, run[..i]))
      {
        UnmarkedAt(now, run, i);
      }
    }
    if AlwaysUnmarked(now, run) {
      forall i | 0 <= i < |run|
        ensures StampsAlone(After(now, run[..i]), run[i])
      {
        PrefixRuns(now, run, i + 1);
        assert run[..i + 1][..i] == run[..i];
        assert UnmarkedWhileAttached(After(now, run[..i]));
        assert UnmarkedWhileAttached(After(now, run[..i + 1]));
        OnlyLateStampsMark(After(now, run[..i]), run[i]);
      }
    }
  }

  /** The other runs exist: a drop overtaken by a new connection leaves a
      timestamp on an attached session, and the sweep will select it. */
  lemma AttachedSessionCanExpire(now: Time, timeout: Time) returns (run: seq<Action>)
    ensures Run(now, run)
    ensures After(now, run).attached == {2} && After(now, run).count == 1
    ensures Expired(After(now, run), timeout)
  {
    var r1 := Extend(now, [], Add(1));
    var r2 := Extend(now, r1, ClearStamp(1));
    var r3 := Extend(now, r2, Subtract(1));
    var r4 := Extend(now, r3, Add(2));
    var r5 := Extend(now, r4, ClearStamp(2));
    var r6 := Extend(now, r5, SetStamp(1));
    run := Extend(now, r6, Pass(timeout));
  }

  lemma Extend(now: Time, run: seq<Action>, a: Action) returns (longer: seq<Action>)
    requires Run(now, run) && Can(After(now, run), a)
    ensures Run(now, longer) && After(now, longer) == Do(After(now, run), a)
  {
    longer := run + [a];
    assert longer[..|run|] == run;
  }

  // ------------------------------------------------------------------------
  // Between the selection and the removal

  // The sweep selects under the lock and removes afterwards, so guards may go
  // on taking their steps in between.

  /** Guard `g` does not leave in the actions from `k` up to `m`. */
  predicate Stays(run: seq<Action>, g: Guard, k: nat, m: nat)
    requires m <= |run|
  {
    forall i :: k <= i < m ==> run[i] != Subtract(g)
  }

  /** It finishes attaching in these actions, and does not leave again. */
  predicate Comes(run: seq<Action>, g: Guard, n: nat, m: nat)
    requires m <= |run|
  {
    exists k :: n <= k < m && run[k] == ClearStamp(g) && Stays(run, g, k + 1, m)
  }

  lemma AfterOneMore(now: Time, run: seq<Action>, m: nat)
    requires Run(now, run) && 0 < m <= |run|
    ensures After(now, run[..m]) == Do(After(now, run[..m - 1]), run[m - 1])
    ensures Can(After(now, run[..m - 1]), run[m - 1])
  {
    PrefixRuns(now, run, m);
    assert run[..m][..m - 1] == run[..m - 1];
  }

  /** Whose attachment lasts, told by the actions alone. */
  lemma {:induction false} AttachedIff(now: Time, run: seq<Action>, n: nat, m: nat, g: Guard)
    requires Run(now, run) && n <= m <= |run|
    ensures g in After(now, run[..m]).attached
       <==> Comes(run, g, n, m) || (g in After(now, run[..n]).attached && Stays(run, g, n, m))
    decreases m
  {
    if n < m {
      AttachedIff(now, run, n, m - 1, g);
      AfterOneMore(now, run, m);
      AttachedByOne(After(now, run[..m - 1]), run[m - 1], g);
      ComesByOne(run, g, n, m);
      assert Stays(run, g, n, m) <==> Stays(run, g, n, m - 1) && run[m - 1] != Subtract(g);
    }
  }

  lemma AttachedByOne(s: Shared, a: Action, g: Guard)
    requires Can(s, a)
    ensures g in Do(s, a).attached <==> a == ClearStamp(g) || (g in s.attached && a != Subtract(g))
  {
  }

  lemma ComesByOne(run: seq<Action>, g: Guard, n: nat, m: nat)
    requires n < m <= |run|
    ensures Comes(run, g, n, m)
       <==> run[m - 1] == ClearStamp(g) || (Comes(run, g, n, m - 1) && run[m - 1] != Subtract(g))
  {
    if Comes(run, g, n, m - 1) && run[m - 1] != Subtract(g) {
      var k :| n <= k < m - 1 && run[k] == ClearStamp(g) && Stays(run, g, k + 1, m - 1);
      assert Stays(run, g, k + 1, m);
    }
    if run[m - 1] == ClearStamp(g) {
      assert Stays(run, g, m - 1 + 1, m);
    }
  }

  /** A session that was selected after `n` actions has somebody attached when
      it is removed after `m` if and only if some guard finished attaching in
      between, or was attached already, and did not leave. */
  lemma LivingIsSweptIff(now: Time, run: seq<Action>, n: nat, m: nat, timeout: Time)
    requires Run(now, run) && n <= m <= |run| && Expired(After(now, run[..n]), timeout)
    ensures After(now, run[..m]).attached != {}
       <==> exists g :: Comes(run, g, n, m) || (g in After(now, run[..n]).attached && Stays(run, g, n, m))
  {
    var s := After(now, run[..m]);
    if s.attached != {} {
      var g :| g in s.attached;
      AttachedIff(now, run, n, m, g);
    }
    if g :| Comes(run, g, n, m) || (g in After(now, run[..n]).attached && Stays(run, g, n, m)) {
      AttachedIff(now, run, n, m, g);
    }
  }

  /** The second way needs a timestamp set while another connection was
      attached; without one, only those who came in between are hit. */
  lemma OnlyNewcomersAreSweptIff(now: Time, run: seq<Action>, n: nat, m: nat, timeout: Time)
    requires Run(now, run) && n <= m <= |run| && Expired(After(now, run[..n]), timeout)
    requires AlwaysStampsAlone(now, run[..n])
    ensures After(now, run[..n]).attached == {}
    ensures After(now, run[..m]).attached != {} <==> exists g :: Comes(run, g, n, m)
  {
    PrefixRuns(now, run, n);
    assert run[..n][..n] == run[..n];
    forall j | 0 <= j < n ensures StampsAlone(After(now, run[..n][..j]), run[..n][j]) {
    }
    UnmarkedAt(now, run[..n], n);
    LivingIsSweptIff(now, run, n, m, timeout);
  }

  // ------------------------------------------------------------------------
  // With each guard operation in one piece

  datatype Step = AttachOne(g: Guard) | DetachOne(g: Guard) | Wait(t: Time)

  predicate Allowed(s: Shared, a: Step) {
    match a
    case AttachOne(g) => Can(s, Add(g))
    case DetachOne(g) => Can(s, Subtract(g))
    case Wait(_) => true
  }

  /** Both actions of a guard with nothing in between. */
  function Apply(s: Shared, a: Step): Shared {
    match a
    case AttachOne(g) => Do(Do(s, Add(g)), ClearStamp(g))
    case DetachOne(g) =>
      var s1 := Do(s, Subtract(g));
      if g in s1.leaving then Do(s1, SetStamp(g)) else s1
    case Wait(t) => Do(s, Pass(t))
  }

  ghost predicate History(b: seq<Shared>) {
    && b != []
    && b[0] == Created(b[0].now)
    && forall i :: 0 <= i < |b| - 1 ==> Follows(b[i], b[i + 1])
  }

  ghost predicate Follows(s: Shared, t: Shared) {
    exists a :: Allowed(s, a) && t == Apply(s, a)
  }

  /** No guard is half way through, and the timestamp marks the idle session. */
  ghost predicate AtRest(s: Shared) {
    CountOk(s) && s.arriving == {} && s.leaving == {} && (s.detachedAt.Some? <==> s.attached == {})
  }

  lemma ApplyKeepsRest(s: Shared, a: Step)
    requires AtRest(s) && Allowed(s, a)
    ensures AtRest(Apply(s, a))
  {
    match a {
      case AttachOne(g) =>
        DoKeepsCount(s, Add(g));
        DoKeepsCount(Do(s, Add(g)), ClearStamp(g));
      case DetachOne(g) =>
        DoKeepsCount(s, Subtract(g));
        var s1 := Do(s, Subtract(g));
        if g in s1.leaving { DoKeepsCount(s1, SetStamp(g)); }
      case Wait(t) =>
    }
  }

  ghost predicate StampIsIdleTime(b: seq<Shared>, n: nat)
    requires n < |b|
  {
    && AtRest(b[n])
    && (forall i :: 0 <= i <= n ==> b[i].now <= b[n].now)
    && (b[n].detachedAt.Some? ==>
        forall i :: 0 <= i <= n && b[i].now > b[n].detachedAt.value ==> b[i].attached == {})
  }

  /** One operation, seen from the states before it. */
  lemma StampStep(b: seq<Shared>, s: Shared, t: Shared)
    requires |b| >= 2 && b[|b| - 2] == s && b[|b| - 1] == t && Follows(s, t)
    requires StampIsIdleTime(b, |b| - 2)
    ensures StampIsIdleTime(b, |b| - 1)
  {
    var a :| Allowed(s, a) && t == Apply(s, a);
    var n := |b| - 1;
    ApplyKeepsRest(s, a);
    assert s.now <= t.now;
    forall i | 0 <= i <= n
      ensures b[i].now <= t.now
      ensures t.detachedAt.Some? && b[i].now > t.detachedAt.value ==> b[i].attached == {}
    {
      if i < n {
        assert b[i].now <= s.now;
      }
    }
  }

  lemma {:induction false} StampsAreExact(b: seq<Shared>, n: nat)
    requires History(b) && n < |b|
    ensures StampIsIdleTime(b, n)
  {
    if n > 0 {
      StampsAreExact(b, n - 1);
      assert Follows(b[n - 1], b[n - 1 + 1]);
      StampStep(b[..n + 1], b[n - 1], b[n]);
    }
  }

  /** Then the counter is the number of attached guards, a timestamp is there
      exactly while there are none, and the sweep selects only sessions that
      nobody was attached to during the whole last `timeout`. */
  lemma SweepSparesTheLiving(b: seq<Shared>, n: nat, timeout: Time)
    requires History(b) && n < |b|
    ensures b[n].count == |b[n].attached|
    ensures b[n].detachedAt.Some? <==> b[n].attached == {}
    ensures Expired(b[n], timeout) ==>
              forall i :: 0 <= i <= n && b[i].now > b[n].now - timeout ==> b[i].attached == {}
  {
    StampsAreExact(b, n);
  }

  /** One connection's drop detaches nobody else: the timestamp appears with
      the last drop, at its time, and is gone with the next attachment. */
  lemma DropIsOnesOwn(b: seq<Shared>, n: nat, g: Guard)
    requires History(b) && n < |b|
    ensures g in b[n].attached ==>
              var t := Apply(b[n], DetachOne(g));
              && t.attached == b[n].attached - {g} && t.count == |t.attached|
              && t.detachedAt == if t.attached == {} then Some(b[n].now) else None
    ensures g !in b[n].attached ==>
              var t := Apply(b[n], AttachOne(g));
              t.attached == b[n].attached + {g} && t.count == |t.attached| && t.detachedAt.None?
  {
    StampsAreExact(b, n);
    if g in b[n].attached {
      CardWithout(b[n].attached, g);
      ApplyKeepsRest(b[n], DetachOne(g));
    } else {
      CardWith(b[n].attached, g);
    }
  }

  /** So a sweep that looked again before it removes a session would spare it
      whenever somebody is attached by then. */
  lemma LookingAgainSpares(b: seq<Shared>, m: nat, timeout: Time)
    requires History(b) && m < |b|
    ensures b[m].attached != {} <==> b[m].detachedAt.None?
    ensures b[m].attached != {} ==> !Expired(b[m], timeout)
    ensures b[m].attached == {} ==> Expired(Apply(b[m], Wait(timeout)), timeout)
  {
    StampsAreExact(b, m);
  }

  /** The sweep does not: whatever the timeout, it aborts a session somebody
      has just attached to. */
  lemma SomeSweepHitsTheLiving(timeout: Time) returns (b: seq<Shared>)
    ensures History(b) && |b| == 3
    ensures Expired(b[1], timeout) && b[2].attached == {1} && !Expired(b[2], timeout)
  {
    var s := Created(0);
    b := [s, Apply(s, Wait(timeout)), Apply(Apply(s, Wait(timeout)), AttachOne(1))];
    assert Follows(b[0], b[0 + 1]) by { assert Allowed(b[0], Wait(timeout)); }
    assert Follows(b[1], b[1 + 1]) by { assert Allowed(b[1], AttachOne(1)); }
  }

  // ------------------------------------------------------------------------
  // The objects

  /** The fields of a session that its guards share. */
  class Session {
    var attached: nat
    var detachedAt: Option<Time>

    ghost predicate Shows(s: Shared)
      reads this
    {
      s.count == attached && s.detachedAt == detachedAt
    }

    constructor (now: Time)
      ensures Shows(Created(now))
    {
      attached, detachedAt := 0, Some(now);
    }

    method NewGuard(ghost s: Shared, ghost g: Guard)
      requires Shows(s) && Can(s, Add(g))
      modifies this
      ensures Shows(Apply(s, AttachOne(g)))
    {
      attached := attached + 1;
      detachedAt := None;
    }

    method DropGuard(now: Time, ghost s: Shared, ghost g: Guard)
      requires Shows(s) && CountOk(s) && s.now == now && Can(s, Subtract(g))
      modifies this
      ensures Shows(Apply(s, DetachOne(g)))
    {
      assert s.attached != {};
      var before := attached;
      attached := attached - 1;
      if before == 1 {
        detachedAt := Some(now);
      }
    }
  }

  /** The shared map of sessions, with the timestamps the sweep looks at. */
  class SessionRegistry {
    var sessions: map<string, Option<Time>>

    constructor ()
      ensures sessions == map[]
    {
      sessions := map[];
    }

    method Remove(token: string)
      modifies this
      ensures sessions == old(sessions) - {token}
    {
      sessions := sessions - {token};
    }

    /** First half of a sweep: the sessions detached for the timeout. */
    method Expired(now: Time, timeout: Time) returns (expired: set<string>)
      ensures forall t :: t in expired <==>
                t in sessions && sessions[t].Some? && now - sessions[t].value >= timeout
    {
      expired := set t | t in sessions && sessions[t].Some? && now - sessions[t].value >= timeout;
    }

    /** Second half: they leave and are aborted, whatever became of them since. */
    method Expire(expired: set<string>) returns (aborted: set<string>)
      modifies this
      ensures sessions == old(sessions) - expired && aborted == expired
    {
      var todo := expired;
      aborted := {};
      while todo != {}
        invariant todo <= expired && aborted == expired - todo
        invariant sessions == old(sessions) - aborted
        decreases todo
      {
        var t :| t in todo;
        todo := todo - {t};
        Remove(t);
        aborted := aborted + {t};
      }
    }
  }
}
