/** Serialized refreshing of a token cache shared by any number of processes
    (section 6 of RFC 6749), against an issuer that may rotate its refresh
    tokens and takes each of them once. */
module OidcRefresh {
  import opened Proto

  const EXPIRY_MARGIN := 60

  /** The cache file. Access tokens are numbered by the issuer. */
  datatype Tokens = Tokens(access: nat, refresh: Option<nat>, expiresAt: nat)

  /** What the issuer sends back for a refresh token it accepts. */
  datatype Response = Response(access: nat, refresh: Option<nat>, lifetime: nat)

  datatype Look = Usable(access: nat) | LoggedOut | MustRefresh(token: nat)

  predicate Fresh(t: Tokens, now: nat) { now + EXPIRY_MARGIN < t.expiresAt }

  /** The look taken under the lock. */
  function Relook(cache: Option<Tokens>, now: nat): Look {
    match cache
    case None => LoggedOut
    case Some(t) =>
      if Fresh(t, now) then Usable(t.access)
      else if t.refresh.None? then LoggedOut
      else MustRefresh(t.refresh.value)
  }

  /** The refresh token that is good after a response to `used`. */
  function Kept(r: Response, used: nat): nat {
    match r.refresh
    case None => used
    case Some(token) => token
  }

  function Cached(r: Response, used: nat, now: nat): Tokens {
    Tokens(r.access, Some(Kept(r, used)), now + r.lifetime)
  }

  /** The cache file of one target, under the hands of one caller. */
  class TokenCache {
    var tokens: Option<Tokens>

    constructor (tokens: Option<Tokens>)
      ensures this.tokens == tokens
    {
      this.tokens := tokens;
    }

    /** Before the lock: a token that is good for longer than the margin. */
    method LookUnlocked(now: nat) returns (access: Option<nat>, loggedOut: bool)
      ensures loggedOut == tokens.None?
      ensures access == if tokens.Some? && Fresh(tokens.value, now) then Some(tokens.value.access) else None
    {
      match tokens {
        case None => return None, true;
        case Some(t) =>
          loggedOut := false;
          if now + EXPIRY_MARGIN < t.expiresAt {
            access := Some(t.access);
          } else {
            access := None;
          }
      }
    }

    method LookLocked(now: nat) returns (look: Look)
      ensures look == Relook(tokens, now)
    {
      var access, loggedOut := LookUnlocked(now);
      if loggedOut { return LoggedOut; }
      if access.Some? { return Usable(access.value); }
      match tokens.value.refresh {
        case None => look := LoggedOut;
        case Some(token) => look := MustRefresh(token);
      }
    }

    method Store(response: Response, used: nat, now: nat) returns (access: nat)
      modifies this
      ensures access == response.access
      ensures tokens == Some(Cached(response, used, now))
    {
      var refresh := response.refresh;
      if refresh.None? {
        refresh := Some(used);
      }
      tokens := Some(Tokens(response.access, refresh, now + response.lifetime));
      access := response.access;
    }
  }

  // ------------------------------------------------------------------------
  // The system: the cache, its lock, the issuer and the callers

  datatype Issue = Issue(at: nat, lifetime: nat)

  /** Refresh tokens below `minted` have been handed out at some time; `live`
      is the one that is still accepted. */
  datatype Issuer = Issuer(live: nat, minted: nat, issues: seq<Issue>, grants: nat)

  predicate Spent(issuer: Issuer, token: nat) { token < issuer.minted && token != issuer.live }

  /** How the issuer treats the refresh token it is shown: it may leave the
      field out, name the same token again, or replace it. */
  datatype Renewal = Omit | Repeat | Rotate

  function Grant(issuer: Issuer, renewal: Renewal, lifetime: nat, now: nat): Issuer {
    Issuer(if renewal.Rotate? then issuer.minted else issuer.live,
           if renewal.Rotate? then issuer.minted + 1 else issuer.minted,
           issuer.issues + [Issue(now, lifetime)],
           issuer.grants + 1)
  }

  function Respond(issuer: Issuer, renewal: Renewal, lifetime: nat): Response {
    Response(|issuer.issues|,
             match renewal
             case Omit => None
             case Repeat => Some(issuer.live)
             case Rotate => Some(issuer.minted),
             lifetime)
  }

  datatype Phase =
    | Waiting
    | Locked
    | Presenting(token: nat, checkedAt: nat)
    | Answered(token: nat, checkedAt: nat, response: Response)
    | Done

  predicate Holding(p: Phase) { p.Locked? || p.Presenting? || p.Answered? }

  /** History: a refresh token shown to the issuer. */
  datatype Presentation = Presentation(token: nat, spent: bool, torn: bool)

  /** History: a response written to the cache, and how long after its issue. */
  datatype Storing = Storing(access: nat, checkedAt: nat, at: nat, expiresAt: nat, lag: nat)

  /** History: an access token a caller went away with. */
  datatype Return = Return(access: nat, at: nat, lag: nat)

  /** `lag` belongs to the tokens now cached; `torn` says that a caller was
      lost with a replaced refresh token in its hands. */
  datatype State = State(
    now: nat,
    cache: Option<Tokens>,
    lock: Option<nat>,
    callers: map<nat, Phase>,
    issuer: Issuer,
    lag: nat,
    torn: bool,
    presented: seq<Presentation>,
    stored: seq<Storing>,
    dropped: nat,
    returned: seq<Return>)

  datatype Label =
    | Pass(seconds: nat)
    | Begin(caller: nat)
    | Acquire(caller: nat)
    | Recheck(caller: nat)
    | Present(caller: nat, renewal: Renewal, lifetime: nat)
    | Store(caller: nat)
    | Give(caller: nat)

  predicate Init(s: State) {
    && s.lock == None && s.callers == map[]
    && s.presented == [] && s.stored == [] && s.returned == []
    && s.dropped == 0 && !s.torn
    && s.issuer.grants == 0
    && s.issuer.live < s.issuer.minted
    && match s.cache
       case None => true
       case Some(t) =>
         && (t.refresh.Some? ==> t.refresh.value == s.issuer.live)
         && t.access < |s.issuer.issues|
         && t.expiresAt == s.issuer.issues[t.access].at + s.issuer.issues[t.access].lifetime + s.lag
  }

  predicate Can(s: State, l: Label) {
    match l
    case Pass(_) => true
    case Begin(c) => c !in s.callers
    case Acquire(c) => c in s.callers && s.callers[c].Waiting? && s.lock.None?
    case Recheck(c) => c in s.callers && s.callers[c].Locked?
    case Present(c, _, _) => c in s.callers && s.callers[c].Presenting?
    case Store(c) => c in s.callers && s.callers[c].Answered?
    // An error or a crash anywhere gives the lock back.
    case Give(c) => c in s.callers && Holding(s.callers[c])
  }

  function Leave(s: State, c: nat): State {
    s.(lock := None, callers := s.callers[c := Done])
  }

  function Returning(s: State, access: nat): State {
    s.(returned := s.returned + [Return(access, s.now, s.lag)])
  }

  function BeginStep(s: State, c: nat): State {
    if s.cache.None? then s.(callers := s.callers[c := Done])
    else if Fresh(s.cache.value, s.now) then
      Returning(s.(callers := s.callers[c := Done]), s.cache.value.access)
    else s.(callers := s.callers[c := Waiting])
  }

  function RecheckStep(s: State, c: nat): State {
    match Relook(s.cache, s.now)
    case Usable(access) => Returning(Leave(s, c), access)
    case LoggedOut => Leave(s, c)
    case MustRefresh(token) => s.(callers := s.callers[c := Presenting(token, s.now)])
  }

  function PresentStep(s: State, c: nat, renewal: Renewal, lifetime: nat): State
    requires c in s.callers && s.callers[c].Presenting?
  {
    var Presenting(token, checkedAt) := s.callers[c];
    var shown := s.(presented := s.presented + [Presentation(token, Spent(s.issuer, token), s.torn)]);
    if token != s.issuer.live then Leave(shown, c)
    else
      var response := Respond(s.issuer, renewal, lifetime);
      shown.(issuer := Grant(s.issuer, renewal, lifetime, s.now),
             callers := s.callers[c := Answered(token, checkedAt, response)])
  }

  function Since(issuer: Issuer, access: nat, now: nat): nat {
    if access < |issuer.issues| && issuer.issues[access].at <= now then now - issuer.issues[access].at else 0
  }

  function StoreStep(s: State, c: nat): State
    requires c in s.callers && s.callers[c].Answered?
  {
    var Answered(token, checkedAt, r) := s.callers[c];
    var lag := Since(s.issuer, r.access, s.now);
    var storing := Storing(r.access, checkedAt, s.now, s.now + r.lifetime, lag);
    Returning(Leave(s, c).(cache := Some(Cached(r, token, s.now)), lag := lag,
                           stored := s.stored + [storing]), r.access)
  }

  function GiveStep(s: State, c: nat): State
    requires c in s.callers
  {
    var p := s.callers[c];
    Leave(s, c).(dropped := s.dropped + (if p.Answered? then 1 else 0),
                 torn := s.torn || (p.Answered? && Kept(p.response, p.token) != p.token))
  }

  ghost predicate Step(s: State, l: Label, t: State) {
    && Can(s, l)
    && match l
       case Pass(seconds) => t == s.(now := s.now + seconds)
       case Begin(c) => t == BeginStep(s, c)
       case Acquire(c) => t == s.(lock := Some(c), callers := s.callers[c := Locked])
       case Recheck(c) => t == RecheckStep(s, c)
       case Present(c, renewal, lifetime) => t == PresentStep(s, c, renewal, lifetime)
       case Store(c) => t == StoreStep(s, c)
       case Give(c) => t == GiveStep(s, c)
  }

  ghost predicate Next(s: State, t: State) {
    exists l :: Step(s, l, t)
  }

  ghost predicate Behavior(run: seq<State>) {
    && run != [] && Init(run[0])
    && forall k :: 0 <= k < |run| - 1 ==> Next(run[k], run[k + 1])
  }

  ghost predicate Reachable(s: State) {
    exists run :: Behavior(run) && run[|run| - 1] == s
  }

  // ------------------------------------------------------------------------
  // The invariant

  ghost predicate Exclusive(callers: map<nat, Phase>, lock: Option<nat>) {
    && (forall c :: c in callers && Holding(callers[c]) ==> lock == Some(c))
    && (lock.Some? ==> lock.value in callers && Holding(callers[lock.value]))
  }

  /** What the holder of the lock is doing; nobody's phase is Waiting. */
  function Holder(callers: map<nat, Phase>, lock: Option<nat>): Phase {
    if lock.Some? && lock.value in callers then callers[lock.value] else Waiting
  }

  predicate CacheOk(cache: Option<Tokens>, issuer: Issuer, lag: nat) {
    cache.Some? ==>
      var t := cache.value;
      && (t.refresh.Some? ==> t.refresh.value < issuer.minted)
      && t.access < |issuer.issues|
      && t.expiresAt == issuer.issues[t.access].at + issuer.issues[t.access].lifetime + lag
  }

  /** The cached refresh token is the live one exactly until a replacement is
      lost, except while its replacement is in the holder's hands. */
  predicate TokenOk(cache: Option<Tokens>, live: nat, torn: bool, holder: Phase) {
    cache.Some? && cache.value.refresh.Some? && !holder.Answered? ==>
      (torn <==> cache.value.refresh.value != live)
  }

  predicate HolderOk(p: Phase, cache: Option<Tokens>, issuer: Issuer, torn: bool, now: nat) {
    (p.Presenting? || p.Answered? ==>
       && cache.Some? && cache.value.refresh == Some(p.token)
       && p.checkedAt <= now && cache.value.expiresAt <= p.checkedAt + EXPIRY_MARGIN)
    && (p.Answered? ==>
          && !torn && issuer.live == Kept(p.response, p.token)
          && p.response.access < |issuer.issues|
          && issuer.issues[p.response.access].lifetime == p.response.lifetime
          && p.checkedAt <= issuer.issues[p.response.access].at <= now)
  }

  predicate PresentedOk(presented: seq<Presentation>, torn: bool) {
    forall k :: 0 <= k < |presented| ==>
                  && (presented[k].spent <==> presented[k].torn)
                  && (presented[k].torn ==> torn)
  }

  predicate StoringOk(g: Storing, issuer: Issuer, now: nat) {
    && g.checkedAt <= g.at <= now
    && g.access < |issuer.issues|
    && g.expiresAt == g.at + issuer.issues[g.access].lifetime
    && g.at == issuer.issues[g.access].at + g.lag
  }

  /** A response is asked for only when the one before it is nearly over. */
  predicate StoredOk(stored: seq<Storing>, issuer: Issuer, cache: Option<Tokens>, now: nat) {
    && (forall k :: 0 <= k < |stored| ==> StoringOk(stored[k], issuer, now))
    && (forall k :: 0 < k < |stored| ==> stored[k - 1].expiresAt <= stored[k].checkedAt + EXPIRY_MARGIN)
    && (stored != [] ==> cache.Some? && cache.value.expiresAt == stored[|stored| - 1].expiresAt)
  }

  predicate ReturnOk(r: Return, issuer: Issuer) {
    && r.access < |issuer.issues|
    && var i := issuer.issues[r.access];
       r.at + EXPIRY_MARGIN < i.at + i.lifetime + r.lag || r.at == i.at + r.lag
  }

  predicate ReturnedOk(returned: seq<Return>, issuer: Issuer) {
    forall k :: 0 <= k < |returned| ==> ReturnOk(returned[k], issuer)
  }

  ghost predicate Inv(s: State) {
    var holder := Holder(s.callers, s.lock);
    && Exclusive(s.callers, s.lock)
    && s.issuer.live < s.issuer.minted
    && CacheOk(s.cache, s.issuer, s.lag)
    && TokenOk(s.cache, s.issuer.live, s.torn, holder)
    && HolderOk(holder, s.cache, s.issuer, s.torn, s.now)
    && PresentedOk(s.presented, s.torn)
    && StoredOk(s.stored, s.issuer, s.cache, s.now)
    && ReturnedOk(s.returned, s.issuer)
    && s.issuer.grants == |s.stored| + s.dropped + (if holder.Answered? then 1 else 0)
  }

  /** Somebody other than the holder moves. */
  lemma OtherMoves(s: State, c: nat, p: Phase)
    requires Inv(s) && !Holding(p) && s.lock != Some(c)
    ensures Inv(s.(callers := s.callers[c := p]))
  {
    var callers := s.callers[c := p];
    assert Exclusive(callers, s.lock) && Holder(callers, s.lock) == Holder(s.callers, s.lock);
  }

  /** The holder leaves without an answer. */
  lemma HolderLeaves(s: State, c: nat)
    requires Inv(s) && s.lock == Some(c) && !s.callers[c].Answered?
    ensures Inv(Leave(s, c))
  {
    assert Exclusive(s.callers[c := Done], None);
  }

  lemma ReturningKeepsInv(s: State)
    requires Inv(s) && s.cache.Some? && Fresh(s.cache.value, s.now)
    ensures Inv(Returning(s, s.cache.value.access))
  {
    assert ReturnOk(Return(s.cache.value.access, s.now, s.lag), s.issuer);
  }

  lemma BeginKeepsInv(s: State, c: nat)
    requires Inv(s) && c !in s.callers
    ensures Inv(BeginStep(s, c))
  {
    if s.cache.None? {
      OtherMoves(s, c, Done);
    } else if Fresh(s.cache.value, s.now) {
      OtherMoves(s, c, Done);
      ReturningKeepsInv(s.(callers := s.callers[c := Done]));
    } else {
      OtherMoves(s, c, Waiting);
    }
  }

  lemma AcquireKeepsInv(s: State, c: nat)
    requires Inv(s) && Can(s, Acquire(c))
    ensures Inv(s.(lock := Some(c), callers := s.callers[c := Locked]))
  {
  }

  lemma RecheckKeepsInv(s: State, c: nat)
    requires Inv(s) && Can(s, Recheck(c))
    ensures Inv(RecheckStep(s, c))
  {
    assert s.lock == Some(c);
    match Relook(s.cache, s.now)
    case Usable(_) =>
      HolderLeaves(s, c);
      ReturningKeepsInv(Leave(s, c));
    case LoggedOut => HolderLeaves(s, c);
    case MustRefresh(token) => PresentingKeepsInv(s, c, token);
  }

  lemma PresentingKeepsInv(s: State, c: nat, token: nat)
    requires Inv(s) && s.lock == Some(c) && s.callers[c].Locked? && Relook(s.cache, s.now) == MustRefresh(token)
    ensures Inv(s.(callers := s.callers[c := Presenting(token, s.now)]))
  {
  }

  lemma PresentKeepsInv(s: State, c: nat, renewal: Renewal, lifetime: nat)
    requires Inv(s) && Can(s, Present(c, renewal, lifetime))
    ensures Inv(PresentStep(s, c, renewal, lifetime))
  {
    assert s.lock == Some(c);
  }

  lemma StoreKeepsInv(s: State, c: nat)
    requires Inv(s) && Can(s, Store(c))
    ensures Inv(StoreStep(s, c))
  {
    assert s.lock == Some(c);
  }

  lemma GiveKeepsInv(s: State, c: nat)
    requires Inv(s) && Can(s, Give(c))
    ensures Inv(GiveStep(s, c))
  {
    assert s.lock == Some(c);
  }

  lemma StepKeepsInv(s: State, l: Label, t: State)
    requires Inv(s) && Step(s, l, t)
    ensures Inv(t)
  {
    match l
    case Pass(_) =>
    case Begin(c) => BeginKeepsInv(s, c);
    case Acquire(c) => AcquireKeepsInv(s, c);
    case Recheck(c) => RecheckKeepsInv(s, c);
    case Present(c, renewal, lifetime) => PresentKeepsInv(s, c, renewal, lifetime);
    case Store(c) => StoreKeepsInv(s, c);
    case Give(c) => GiveKeepsInv(s, c);
  }

  lemma {:induction false} BehaviorKeepsInv(run: seq<State>, k: nat)
    requires Behavior(run) && k < |run|
    ensures Inv(run[k])
  {
    if k > 0 {
      BehaviorKeepsInv(run, k - 1);
      assert Next(run[k - 1], run[k - 1 + 1]);
      var l :| Step(run[k - 1], l, run[k]);
      StepKeepsInv(run[k - 1], l, run[k]);
    }
  }

  lemma ReachableInv(s: State)
    requires Reachable(s)
    ensures Inv(s)
  {
    var run :| Behavior(run) && run[|run| - 1] == s;
    BehaviorKeepsInv(run, |run| - 1);
  }

  // ------------------------------------------------------------------------
  // What holds of every run

  /** Only one caller at a time is between its second look and its store. */
  lemma RefreshIsExclusive(s: State, c: nat, d: nat)
    requires Reachable(s)
    requires c in s.callers && d in s.callers && Holding(s.callers[c]) && Holding(s.callers[d])
    ensures c == d
  {
    ReachableInv(s);
  }

  /** A refresh token that is shown is spent if and only if a caller was lost,
      before that, between the issuer's answer and its store; so no spent
      token is shown when none was lost. */
  lemma NoSpentTokenIsShown(s: State)
    requires Reachable(s)
    ensures forall k :: 0 <= k < |s.presented| ==> (s.presented[k].spent <==> s.presented[k].torn)
    ensures !s.torn ==> forall k :: 0 <= k < |s.presented| ==> !s.presented[k].spent
  {
    ReachableInv(s);
  }

  predicate LoggedIn(s: State) { s.cache.Some? && s.cache.value.refresh.Some? }

  /** The cache never loses its refresh token. */
  lemma {:induction false} CacheStaysLoggedIn(run: seq<State>, k: nat)
    requires Behavior(run) && k < |run| && LoggedIn(run[0])
    ensures LoggedIn(run[k])
  {
    if k > 0 {
      CacheStaysLoggedIn(run, k - 1);
      assert Next(run[k - 1], run[k - 1 + 1]);
    }
  }

  lemma LossStays(s: State, t: State)
    requires Inv(s) && s.torn && Next(s, t)
    ensures t.torn && t.issuer == s.issuer
  {
    var l :| Step(s, l, t);
    if l.Present? {
      assert s.lock == Some(l.caller);
    }
  }

  lemma LossStaysAt(run: seq<State>, k: nat)
    requires Behavior(run) && k < |run| - 1 && run[k].torn
    ensures run[k + 1].torn && run[k + 1].issuer == run[k].issuer
  {
    BehaviorKeepsInv(run, k);
    assert Next(run[k], run[k + 1]);
    LossStays(run[k], run[k + 1]);
  }

  /** A loss is for good: the issuer grants nothing any more, in all that
      follows. */
  lemma {:induction false} LossIsForGood(run: seq<State>, i: nat, j: nat)
    requires Behavior(run) && i <= j < |run| && run[i].torn
    ensures run[j].torn && run[j].issuer == run[i].issuer
    decreases j
  {
    if i < j {
      LossIsForGood(run, i, j - 1);
      LossStaysAt(run, j - 1);
    }
  }

  predicate LivesFor(s: State, lifetime: nat) {
    forall k :: 0 <= k < |s.stored| ==> s.stored[k].expiresAt >= s.stored[k].at + lifetime
  }

  lemma {:induction false} SpacedFromInv(s: State, lifetime: nat, i: nat, j: nat)
    requires StoredOk(s.stored, s.issuer, s.cache, s.now) && lifetime > EXPIRY_MARGIN && LivesFor(s, lifetime) && i < j < |s.stored|
    ensures s.stored[j].checkedAt >= s.stored[i].at + (j - i) * (lifetime - EXPIRY_MARGIN)
  {
    StoringsAreApart(s, lifetime, j);
    if i < j - 1 {
      SpacedFromInv(s, lifetime, i, j - 1);
      OneMoreGap(j - 1 - i, lifetime - EXPIRY_MARGIN);
    }
  }

  lemma OneMoreGap(n: nat, gap: nat)
    ensures (n + 1) * gap == n * gap + gap
  {
  }

  lemma StoringsAreApart(s: State, lifetime: nat, j: nat)
    requires StoredOk(s.stored, s.issuer, s.cache, s.now) && LivesFor(s, lifetime) && 0 < j < |s.stored|
    ensures s.stored[j].checkedAt + EXPIRY_MARGIN >= s.stored[j - 1].at + lifetime
    ensures s.stored[j - 1].checkedAt <= s.stored[j - 1].at
  {
    assert StoringOk(s.stored[j - 1], s.issuer, s.now);
    assert s.stored[j - 1].expiresAt <= s.stored[j].checkedAt + EXPIRY_MARGIN;
  }

  /** Each expiry costs one grant. However many callers find the token
      expired, grants are a lifetime less the margin apart, and the issuer
      counts no more of them than fit, apart from those lost with a caller. */
  lemma ExpiryCostsOneGrant(s: State, lifetime: nat)
    requires Reachable(s) && lifetime > EXPIRY_MARGIN && LivesFor(s, lifetime)
    ensures forall i, j :: 0 <= i < j < |s.stored| ==>
              s.stored[j].checkedAt >= s.stored[i].at + (j - i) * (lifetime - EXPIRY_MARGIN)
    ensures s.stored != [] ==>
              s.now - s.stored[0].at >=
              (s.issuer.grants - s.dropped - 1) * (lifetime - EXPIRY_MARGIN)
  {
    ReachableInv(s);
    forall i, j | 0 <= i < j < |s.stored|
      ensures s.stored[j].checkedAt >= s.stored[i].at + (j - i) * (lifetime - EXPIRY_MARGIN)
    {
      SpacedFromInv(s, lifetime, i, j);
    }
    if s.stored != [] {
      CountFromInv(s, lifetime);
    }
  }

  lemma CountFromInv(s: State, lifetime: nat)
    requires Inv(s) && lifetime > EXPIRY_MARGIN && LivesFor(s, lifetime) && s.stored != []
    ensures s.now - s.stored[0].at >= (s.issuer.grants - s.dropped - 1) * (lifetime - EXPIRY_MARGIN)
  {
    var n, gap := |s.stored| - 1, lifetime - EXPIRY_MARGIN;
    assert StoringOk(s.stored[n], s.issuer, s.now);
    if n > 0 {
      SpacedFromInv(s, lifetime, 0, n);
    }
    assert s.stored[n].at >= s.stored[0].at + n * gap;
    if Holder(s.callers, s.lock).Answered? {
      assert s.now >= s.stored[n].at + gap;
      assert (n + 1) * gap == n * gap + gap;
    }
  }

  /** An access token a caller gets has not expired at the issuer, provided
      the response took no longer than the margin, and less than the token's
      life, to reach the cache. */
  lemma ReturnedTokenIsGood(s: State, k: nat)
    requires Reachable(s) && k < |s.returned|
    ensures s.returned[k].access < |s.issuer.issues|
    ensures var (r, issue) := (s.returned[k], s.issuer.issues[s.returned[k].access]);
            r.lag <= EXPIRY_MARGIN && r.lag < issue.lifetime ==> r.at < issue.at + issue.lifetime
  {
    ReachableInv(s);
    assert ReturnOk(s.returned[k], s.issuer);
  }

  lemma ReachableStep(s: State, l: Label, t: State)
    requires Reachable(s) && Step(s, l, t)
    ensures Reachable(t)
  {
    var run :| Behavior(run) && run[|run| - 1] == s;
    var longer := run + [t];
    assert Next(s, t);
    forall k | 0 <= k < |longer| - 1 ensures Next(longer[k], longer[k + 1]) {
      if k < |run| - 1 {
        assert Next(run[k], run[k + 1]);
      }
    }
    assert Behavior(longer) && longer[|longer| - 1] == t;
  }

  /** A waiting caller's whole turn under the lock, undisturbed. */
  function WholeTurn(s: State, c: nat, renewal: Renewal, lifetime: nat): State
    requires Can(s, Acquire(c))
  {
    var looked := RecheckStep(s.(lock := Some(c), callers := s.callers[c := Locked]), c);
    if !looked.callers[c].Presenting? then looked
    else
      var shown := PresentStep(looked, c, renewal, lifetime);
      if shown.callers[c].Answered? then StoreStep(shown, c) else shown
  }

  lemma WholeTurnIsARun(s: State, c: nat, renewal: Renewal, lifetime: nat)
    requires Reachable(s) && Can(s, Acquire(c))
    ensures Reachable(WholeTurn(s, c, renewal, lifetime))
  {
    var locked := s.(lock := Some(c), callers := s.callers[c := Locked]);
    ReachableStep(s, Acquire(c), locked);
    var looked := RecheckStep(locked, c);
    ReachableStep(locked, Recheck(c), looked);
    if looked.callers[c].Presenting? {
      var shown := PresentStep(looked, c, renewal, lifetime);
      ReachableStep(looked, Present(c, renewal, lifetime), shown);
      if shown.callers[c].Answered? {
        ReachableStep(shown, Store(c), StoreStep(shown, c));
      }
    }
  }

  lemma TurnOf(s: State, c: nat, renewal: Renewal, lifetime: nat)
    requires Inv(s) && LoggedIn(s) && Can(s, Acquire(c))
    ensures var t, t0 := WholeTurn(s, c, renewal, lifetime), s.cache.value;
            && t.lock.None? && LoggedIn(t)
            && (if Fresh(t0, s.now) then
                  t.issuer == s.issuer && t.cache == s.cache && t.returned == s.returned + [Return(t0.access, s.now, s.lag)]
                else if s.torn then
                  t.issuer == s.issuer && t.cache == s.cache && t.returned == s.returned
                else
                  && t.issuer.grants == s.issuer.grants + 1
                  && t.cache.value.access == |s.issuer.issues| && t.cache.value.expiresAt == s.now + lifetime
                  && t.returned == s.returned + [Return(|s.issuer.issues|, s.now, 0)])
  {
  }

  /** Logged in, a waiting caller whose turn is not disturbed gets a token if
      and only if the cached one is still fresh or no replacement was lost; and
      it asks the issuer, once, only for want of a fresh one. */
  lemma WaiterIsServedIff(s: State, c: nat, renewal: Renewal, lifetime: nat)
    requires Reachable(s) && LoggedIn(s) && Can(s, Acquire(c))
    ensures var t, good := WholeTurn(s, c, renewal, lifetime), Fresh(s.cache.value, s.now);
            && Reachable(t) && t.lock.None? && LoggedIn(t)
            && (|t.returned| == |s.returned| + 1 <==> good || !s.torn)
            && t.issuer.grants == s.issuer.grants + (if good || s.torn then 0 else 1)
            && (!good && !s.torn ==> t.cache.value.expiresAt == s.now + lifetime)
  {
    ReachableInv(s);
    WholeTurnIsARun(s, c, renewal, lifetime);
    TurnOf(s, c, renewal, lifetime);
  }

  /** The last three steps of a caller that shows its token. */
  lemma ShowsItsToken(s: State, c: nat, token: nat) returns (t: State)
    requires Reachable(s) && Can(s, Acquire(c)) && Relook(s.cache, s.now) == MustRefresh(token)
    ensures Reachable(t)
    ensures t == PresentStep(s.(lock := Some(c), callers := s.callers[c := Locked][c := Presenting(token, s.now)]),
                             c, Rotate, 3600)
  {
    var locked := s.(lock := Some(c), callers := s.callers[c := Locked]);
    ReachableStep(s, Acquire(c), locked);
    var presenting := RecheckStep(locked, c);
    ReachableStep(locked, Recheck(c), presenting);
    t := PresentStep(presenting, c, Rotate, 3600);
    ReachableStep(presenting, Present(c, Rotate, 3600), t);
  }

  lemma LoseTheAnswer(s: State) returns (t: State)
    requires Reachable(s) && 0 in s.callers && 1 in s.callers && s.callers[1] == Waiting
    requires s.callers[0].Answered? && Kept(s.callers[0].response, s.callers[0].token) != s.callers[0].token
    ensures Reachable(t) && t.torn && t.lock.None? && 1 in t.callers && t.callers[1] == Waiting
    ensures t.cache == s.cache && t.now == s.now && t.issuer == s.issuer && t.presented == s.presented
  {
    t := GiveStep(s, 0);
    ReachableStep(s, Give(0), t);
  }

  /** The way a token gets lost: a caller asks, the issuer replaces the token,
      and the caller dies before it stores the new one. The next one shows the
      old token. */
  lemma SomeRunShowsASpentToken()
    ensures exists s: State :: Reachable(s) && s.torn && |s.presented| == 2 && s.presented[1].spent
  {
    var start := State(0, Some(Tokens(0, Some(0), 0)), None, map[], Issuer(0, 1, [Issue(0, 0)], 0),
                       0, false, [], [], 0, []);
    assert Behavior([start]) && [start][|[start]| - 1] == start;
    var one := start.(callers := map[0 := Waiting]);
    ReachableStep(start, Begin(0), one);
    var two := one.(callers := map[0 := Waiting, 1 := Waiting]);
    ReachableStep(one, Begin(1), two);
    var answered := ShowsItsToken(two, 0, 0);
    var torn := LoseTheAnswer(answered);
    var shown := ShowsItsToken(torn, 1, 0);
    assert shown.presented[1].spent;
  }
}
