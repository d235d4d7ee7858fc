/** Streams of forwarded agent connections never mix, repeat or reorder. */
module AgentSafety {
  import opened Proto
  import opened AgentHub

  // ------------------------------------------------------------------------
  // The messages of one stream

  /** All a relay has sent: its announcement, the chunks it passed on and its
      farewell. */
  function Emitted(id: nat, r: Relay): seq<Message>
    requires r.told <= |r.read|
  {
    if r.home.None? then []
    else seq(if r.closed then r.told + 2 else r.told + 1, k requires 0 <= k <= r.told + 1 => EmittedAt(id, r, k))
  }

  function EmittedAt(id: nat, r: Relay, k: nat): Message
    requires r.told <= |r.read|
  {
    if k == 0 then Open(id) else if k <= r.told then Data(id, r.read[k - 1]) else Close(id)
  }

  function Said(id: nat, a: Agent): seq<Message>
    requires a.told <= |a.read|
  {
    seq(if a.closed then a.told + 1 else a.told, k requires 0 <= k <= a.told => SaidAt(id, a, k))
  }

  function SaidAt(id: nat, a: Agent, k: nat): Message
    requires a.told <= |a.read|
  {
    if k < a.told then Data(id, a.read[k]) else Close(id)
  }

  /** What a client makes of the messages of one stream. */
  datatype Ear = Ear(known: bool, open: bool, heard: seq<Bytes>)

  function Hearing(e: Ear, m: Message): Ear {
    match m
    case Open(_) => Ear(true, true, [])
    case Data(_, data) => if e.open then e.(heard := e.heard + [data]) else e
    case Close(_) => e.(open := false)
  }

  function Hear(ms: seq<Message>): Ear {
    if ms == [] then Ear(false, false, [])
    else Hearing(Hear(ms[..|ms| - 1]), ms[|ms| - 1])
  }

  function EarOf(a: Option<Agent>): Ear {
    match a
    case None => Ear(false, false, [])
    case Some(a) => Ear(true, a.open, a.inbox)
  }

  function Payload(ms: seq<Message>): seq<Bytes> {
    if ms == [] then []
    else
      var last := ms[|ms| - 1];
      Payload(ms[..|ms| - 1]) + if last.Data? then [last.data] else []
  }

  predicate NoOpens(ms: seq<Message>) {
    forall k :: 0 <= k < |ms| ==> !ms[k].Open?
  }

  lemma ProjectMore(ms: seq<Message>, m: Message, id: nat)
    ensures Project(ms + [m], id) == if m.id == id then Project(ms, id) + [m] else Project(ms, id)
  {
    assert (ms + [m])[..|ms|] == ms;
  }

  lemma ProjectNext(ms: seq<Message>, k: nat, id: nat)
    requires k < |ms|
    ensures Project(ms[..k + 1], id) ==
            if ms[k].id == id then Project(ms[..k], id) + [ms[k]] else Project(ms[..k], id)
  {
    assert ms[..k + 1] == ms[..k] + [ms[k]];
    ProjectMore(ms[..k], ms[k], id);
  }

  lemma {:induction false} ProjectPrefix(ms: seq<Message>, k: nat, id: nat)
    requires k <= |ms|
    ensures Project(ms[..k], id) <= Project(ms, id)
    decreases |ms|
  {
    if k < |ms| {
      var front := ms[..|ms| - 1];
      assert front[..k] == ms[..k];
      ProjectPrefix(front, k, id);
    } else {
      assert ms[..k] == ms;
    }
  }

  lemma HearMore(ms: seq<Message>, m: Message)
    ensures Hear(ms + [m]) == Hearing(Hear(ms), m)
  {
    assert (ms + [m])[..|ms|] == ms;
  }

  lemma PayloadMore(ms: seq<Message>, m: Message)
    ensures Payload(ms + [m]) == if m.Data? then Payload(ms) + [m.data] else Payload(ms)
  {
    assert (ms + [m])[..|ms|] == ms;
  }

  lemma {:induction false} PayloadPrefix(ms: seq<Message>, k: nat)
    requires k <= |ms|
    ensures Payload(ms[..k]) <= Payload(ms)
    decreases |ms|
  {
    if k < |ms| {
      var front := ms[..|ms| - 1];
      assert front[..k] == ms[..k];
      PayloadPrefix(front, k);
    } else {
      assert ms[..k] == ms;
    }
  }

  lemma DataMore(id: nat, chunks: seq<Bytes>, data: Bytes)
    ensures DataMessages(id, chunks + [data]) == DataMessages(id, chunks) + [Data(id, data)]
  {
  }

  lemma {:induction false} PayloadOfData(id: nat, chunks: seq<Bytes>)
    ensures Payload(DataMessages(id, chunks)) == chunks
    decreases |chunks|
  {
    if chunks != [] {
      var front, last := chunks[..|chunks| - 1], chunks[|chunks| - 1];
      assert chunks == front + [last];
      DataMore(id, front, last);
      PayloadMore(DataMessages(id, front), Data(id, last));
      PayloadOfData(id, front);
    }
  }

  lemma {:induction false} NoOpensUnheard(ms: seq<Message>)
    requires NoOpens(ms)
    ensures Hear(ms) == Ear(false, false, [])
    decreases |ms|
  {
    if ms != [] {
      NoOpensUnheard(ms[..|ms| - 1]);
    }
  }

  /** Hearing any first part of a relay's messages. */
  lemma {:induction false} HearEmission(id: nat, r: Relay, p: seq<Message>)
    requires r.told <= |r.read| && p <= Emitted(id, r) && p != []
    ensures var n := |p| - 1;
            Hear(p) == if n <= r.told then Ear(true, true, r.read[..n]) else Ear(true, false, r.read[..r.told])
    decreases |p|
  {
    var n := |p| - 1;
    var front, last := p[..n], p[n];
    assert p == front + [last];
    HearMore(front, last);
    if n > 0 {
      HearEmission(id, r, front);
      if n <= r.told {
        assert last == Data(id, r.read[n - 1]);
        assert r.read[..n] == r.read[..n - 1] + [r.read[n - 1]];
      } else {
        assert last == Close(id);
      }
    } else {
      assert last == Open(id);
    }
  }

  lemma OnlyFirstOpens(id: nat, r: Relay, k: nat)
    requires r.told <= |r.read| && 0 < k < |Emitted(id, r)|
    ensures !Emitted(id, r)[k].Open?
  {
  }

  // ------------------------------------------------------------------------
  // The invariant

  predicate RelayOk(r: Relay) {
    && r.told <= |r.read|
    && r.written <= |r.inbox|
    && (r.phase.Registered? ==> r.home.None?)
    && (r.home.None? ==> r.phase.Registered? || r.phase.Gone?)
    && (r.home.None? ==> r.read == [] && !r.closed && r.inbox == [])
    && (r.phase.Pumping? ==> r.told == |r.read|)
    && (!r.phase.Gone? ==> !r.closed)
    && (r.phase.Removed? || r.phase.Gone? ==> !r.open)
  }

  predicate AgentOk(a: Agent) {
    && a.told <= |a.read|
    && a.written <= |a.inbox|
    && (a.phase.Dialing? ==> a.read == [])
    && (!a.phase.Finished? ==> a.told == |a.read| && !a.closed)
  }

  predicate RelaysOk(relays: map<nat, Relay>, nextId: nat) {
    forall id :: id in relays ==> 1 <= id < nextId && RelayOk(relays[id])
  }

  predicate AgentsOk(agents: map<(nat, nat), Agent>, channels: nat) {
    forall k :: k in agents ==> k.0 < channels && AgentOk(agents[k])
  }

  predicate CurrentOk(current: Option<nat>, links: seq<Link>) {
    current == if links != [] && links[|links| - 1].attached then Some(|links| - 1) else None
  }

  function EmittedOf(relays: map<nat, Relay>, id: nat): seq<Message>
    requires id in relays ==> relays[id].told <= |relays[id].read|
  {
    if id in relays then Emitted(id, relays[id]) else []
  }

  ghost predicate DownOk(downs: seq<seq<Message>>, relays: map<nat, Relay>, nextId: nat)
    requires RelaysOk(relays, nextId)
  {
    forall id: nat :: Told(downs, id) == EmittedOf(relays, id)
  }

  function Home(relays: map<nat, Relay>, id: nat): Option<nat> {
    if id in relays then relays[id].home else None
  }

  /** A stream is announced at home only. */
  ghost predicate AwayOk(downs: seq<seq<Message>>, relays: map<nat, Relay>) {
    forall c: nat, id: nat {:trigger Project(downs[c], id)} ::
      c < |downs| && Home(relays, id) != Some(c) ==> NoOpens(Project(downs[c], id))
  }

  /** Its home hears the first part of what its relay says, and all of it
      until another channel is attached. */
  predicate HomeOk(downs: seq<seq<Message>>, id: nat, r: Relay)
    requires r.told <= |r.read|
  {
    r.home.Some? ==>
      && r.home.value < |downs|
      && Project(downs[r.home.value], id) != []
      && Project(downs[r.home.value], id) <= Emitted(id, r)
      && (r.home.value == |downs| - 1 ==> Project(downs[r.home.value], id) == Emitted(id, r))
  }

  predicate HomesOk(downs: seq<seq<Message>>, relays: map<nat, Relay>, nextId: nat)
    requires RelaysOk(relays, nextId)
  {
    forall id :: id in relays ==> HomeOk(downs, id, relays[id])
  }

  ghost predicate EarsOk(downs: seq<seq<Message>>, links: seq<Link>, agents: map<(nat, nat), Agent>)
    requires |downs| == |links| && forall c :: 0 <= c < |links| ==> links[c].got <= |downs[c]|
  {
    forall c: nat, id: nat :: c < |downs| ==>
      EarOf(Find(agents, (c, id))) == Hear(Project(downs[c][..links[c].got], id))
  }

  function SaidOf(agents: map<(nat, nat), Agent>, k: (nat, nat)): seq<Message>
    requires k in agents ==> agents[k].told <= |agents[k].read|
  {
    if k in agents then Said(k.1, agents[k]) else []
  }

  ghost predicate SaidOk(ups: seq<seq<Message>>, agents: map<(nat, nat), Agent>)
    requires AgentsOk(agents, |ups|)
  {
    forall c: nat, id: nat :: c < |ups| ==> Project(ups[c], id) == SaidOf(agents, (c, id))
  }

  /** A relay has got the first part of what was taken from its home channel,
      and all of it while it is registered. */
  predicate InboxOk(ups: seq<seq<Message>>, links: seq<Link>, id: nat, r: Relay)
    requires |ups| == |links| && forall c :: 0 <= c < |links| ==> links[c].upGot <= |ups[c]|
  {
    r.home.Some? ==>
      && r.home.value < |ups|
      && var taken := Payload(Project(ups[r.home.value][..links[r.home.value].upGot], id));
         r.inbox <= taken && (r.open ==> r.inbox == taken)
  }

  predicate InboxesOk(ups: seq<seq<Message>>, links: seq<Link>, relays: map<nat, Relay>)
    requires |ups| == |links| && forall c :: 0 <= c < |links| ==> links[c].upGot <= |ups[c]|
  {
    forall id :: id in relays ==> InboxOk(ups, links, id, relays[id])
  }

  predicate Basics(s: State) {
    && Shaped(s)
    && s.nextId >= 1
    && RelaysOk(s.relays, s.nextId)
    && AgentsOk(s.agents, |s.ups|)
    && CurrentOk(s.current, s.links)
  }

  ghost predicate Inv(s: State) {
    && Basics(s)
    && DownOk(s.downs, s.relays, s.nextId)
    && AwayOk(s.downs, s.relays)
    && HomesOk(s.downs, s.relays, s.nextId)
    && EarsOk(s.downs, s.links, s.agents)
    && SaidOk(s.ups, s.agents)
    && InboxesOk(s.ups, s.links, s.relays)
  }

  /** A client-side stream lives on the channel it was announced on. */
  lemma AgentIsAtHome(s: State, c: nat, id: nat)
    requires Inv(s) && (c, id) in s.agents
    ensures Home(s.relays, id) == Some(c)
  {
    assert Hear(Project(s.downs[c][..s.links[c].got], id)).known by {
      assert EarOf(Find(s.agents, (c, id))).known;
    }
    if Home(s.relays, id) != Some(c) {
      assert NoOpens(Project(s.downs[c], id));
      ProjectPrefix(s.downs[c], s.links[c].got, id);
      NoOpensUnheard(Project(s.downs[c][..s.links[c].got], id));
    }
  }

  // ------------------------------------------------------------------------
  // Sending to the attached channel

  lemma ToldQueue(downs: seq<seq<Message>>, m: Message, id: nat)
    requires downs != []
    ensures Told(Queue(downs, m), id) == if m.id == id then Told(downs, id) + [m] else Told(downs, id)
  {
    var last := |downs| - 1;
    assert Queue(downs, m)[..last] == downs[..last];
    ProjectMore(downs[last], m, id);
  }

  lemma ProjectQueue(downs: seq<seq<Message>>, m: Message, c: nat, id: nat)
    requires c < |downs|
    ensures Project(Queue(downs, m)[c], id) ==
            if c == |downs| - 1 && m.id == id then Project(downs[c], id) + [m] else Project(downs[c], id)
  {
    if c == |downs| - 1 {
      ProjectMore(downs[c], m, id);
    }
  }

  /** A relay's state before and after it sends `m`. */
  predicate Sends(id: nat, r: Relay, m: Message, r': Relay, current: Option<nat>) {
    && m.id == id && RelayOk(r) && RelayOk(r')
    && Emitted(id, r') == (if current.Some? then Emitted(id, r) + [m] else Emitted(id, r))
    && (if m.Open? && current.Some? then r.home.None? && r'.home == current else r'.home == r.home)
    && (!m.Open? ==> r.home.Some?)
    && r'.inbox == r.inbox && (r'.open ==> r.open)
  }

  lemma RelaysAfter(relays: map<nat, Relay>, nextId: nat, id: nat, r': Relay)
    requires RelaysOk(relays, nextId) && id in relays && RelayOk(r')
    ensures RelaysOk(relays[id := r'], nextId)
  {
  }

  lemma EmittedAfter(relays: map<nat, Relay>, id: nat, r': Relay, i: nat)
    requires r'.told <= |r'.read| && (i in relays ==> relays[i].told <= |relays[i].read|)
    ensures EmittedOf(relays[id := r'], i) == if i == id then Emitted(id, r') else EmittedOf(relays, i)
  {
  }

  lemma DownAfterSend(downs: seq<seq<Message>>, relays: map<nat, Relay>, nextId: nat, id: nat, m: Message, r': Relay)
    requires downs != [] && RelaysOk(relays, nextId) && id in relays
    requires DownOk(downs, relays, nextId) && Sends(id, relays[id], m, r', Some(|downs| - 1))
    ensures RelaysOk(relays[id := r'], nextId) && DownOk(Queue(downs, m), relays[id := r'], nextId)
  {
    RelaysAfter(relays, nextId, id, r');
    forall i: nat ensures Told(Queue(downs, m), i) == EmittedOf(relays[id := r'], i) {
      ToldQueue(downs, m, i);
      assert Told(downs, i) == EmittedOf(relays, i);
      EmittedAfter(relays, id, r', i);
    }
  }

  lemma AwayAfterSend(downs: seq<seq<Message>>, relays: map<nat, Relay>, id: nat, m: Message, r': Relay)
    requires downs != [] && id in relays && AwayOk(downs, relays) && m.id == id
    requires relays[id].home == (if m.Open? then None else r'.home)
    requires m.Open? ==> r'.home == Some(|downs| - 1)
    ensures AwayOk(Queue(downs, m), relays[id := r'])
  {
    forall c: nat, i: nat | c < |downs| && Home(relays[id := r'], i) != Some(c)
      ensures NoOpens(Project(Queue(downs, m)[c], i))
    {
      assert Home(relays, i) != Some(c);
      assert NoOpens(Project(downs[c], i));
      AwayStays(downs, m, c, i);
    }
  }

  lemma AwayStays(downs: seq<seq<Message>>, m: Message, c: nat, i: nat)
    requires c < |downs| && NoOpens(Project(downs[c], i))
    requires c == |downs| - 1 && m.id == i ==> !m.Open?
    ensures NoOpens(Project(Queue(downs, m)[c], i))
  {
    ProjectQueue(downs, m, c, i);
  }

  lemma HomesAfterSend(downs: seq<seq<Message>>, relays: map<nat, Relay>, nextId: nat, id: nat, m: Message, r': Relay)
    requires downs != [] && RelaysOk(relays, nextId) && id in relays
    requires DownOk(downs, relays, nextId) && HomesOk(downs, relays, nextId)
    requires Sends(id, relays[id], m, r', Some(|downs| - 1))
    ensures RelaysOk(relays[id := r'], nextId) && HomesOk(Queue(downs, m), relays[id := r'], nextId)
  {
    var after := relays[id := r'];
    RelaysAfter(relays, nextId, id, r');
    forall i | i in after ensures HomeOk(Queue(downs, m), i, after[i]) {
      assert HomeOk(downs, i, relays[i]);
      if i == id {
        assert Told(downs, id) == Emitted(id, relays[id]);
        SenderHome(downs, id, relays[id], m, r');
      } else {
        OtherHome(downs, i, relays[i], m);
      }
    }
  }

  lemma OtherHome(downs: seq<seq<Message>>, id: nat, r: Relay, m: Message)
    requires downs != [] && r.told <= |r.read| && HomeOk(downs, id, r) && m.id != id
    ensures HomeOk(Queue(downs, m), id, r)
  {
    if r.home.Some? {
      ProjectQueue(downs, m, r.home.value, id);
    }
  }

  lemma SenderHome(downs: seq<seq<Message>>, id: nat, r: Relay, m: Message, r': Relay)
    requires downs != [] && Sends(id, r, m, r', Some(|downs| - 1))
    requires HomeOk(downs, id, r) && Told(downs, id) == Emitted(id, r)
    ensures HomeOk(Queue(downs, m), id, r')
  {
    var last := |downs| - 1;
    ProjectQueue(downs, m, if r.home.Some? then r.home.value else last, id);
    if r.home.None? {
      assert Project(downs[last], id) == [];
    }
  }

  lemma QueueGrows(downs: seq<seq<Message>>, m: Message, c: nat, got: nat)
    requires c < |downs| && got <= |downs[c]|
    ensures got <= |Queue(downs, m)[c]| && Queue(downs, m)[c][..got] == downs[c][..got]
  {
  }

  lemma EarsAfterSend(downs: seq<seq<Message>>, links: seq<Link>, agents: map<(nat, nat), Agent>, m: Message)
    requires downs != [] && |downs| == |links| && forall c :: 0 <= c < |links| ==> links[c].got <= |downs[c]|
    requires EarsOk(downs, links, agents)
    ensures forall c :: 0 <= c < |links| ==> links[c].got <= |Queue(downs, m)[c]|
    ensures EarsOk(Queue(downs, m), links, agents)
  {
    forall c: nat | c < |downs|
      ensures links[c].got <= |Queue(downs, m)[c]|
      ensures Queue(downs, m)[c][..links[c].got] == downs[c][..links[c].got]
    {
      QueueGrows(downs, m, c, links[c].got);
    }
    forall c: nat, id: nat | c < |downs|
      ensures EarOf(Find(agents, (c, id))) == Hear(Project(Queue(downs, m)[c][..links[c].got], id))
    {
      assert EarOf(Find(agents, (c, id))) == Hear(Project(downs[c][..links[c].got], id));
    }
  }

  lemma InboxesAfterSend(s: State, id: nat, m: Message, r': Relay)
    requires Inv(s) && id in s.relays && Sends(id, s.relays[id], m, r', s.current)
    ensures InboxesOk(s.ups, s.links, s.relays[id := r'])
  {
    var r := s.relays[id];
    assert InboxOk(s.ups, s.links, id, r);
    if r.home.None? && r'.home.Some? {
      var h := r'.home.value;
      if (h, id) in s.agents {
        AgentIsAtHome(s, h, id);
      }
      assert Project(s.ups[h], id) == SaidOf(s.agents, (h, id)) == [];
      ProjectPrefix(s.ups[h], s.links[h].upGot, id);
    }
    assert InboxOk(s.ups, s.links, id, r');
  }

  function Sent(s: State, id: nat, m: Message, r': Relay): State
    requires Shaped(s)
  {
    WithRelay(Say(s, m), id, r')
  }

  lemma SayIsQueue(s: State, m: Message)
    requires Basics(s) && s.current.Some?
    ensures s.downs != [] && s.current == Some(|s.downs| - 1)
    ensures Say(s, m) == s.(downs := Queue(s.downs, m)) && Basics(Say(s, m))
  {
    assert s.downs[|s.downs| - 1 := s.downs[|s.downs| - 1] + [m]] == Queue(s.downs, m);
  }

  lemma SentDown(s: State, id: nat, m: Message, r': Relay)
    requires Inv(s) && s.current.Some? && id in s.relays && Sends(id, s.relays[id], m, r', s.current)
    ensures s.downs != [] && RelaysOk(s.relays[id := r'], s.nextId)
    ensures DownOk(Queue(s.downs, m), s.relays[id := r'], s.nextId)
  {
    DownAfterSend(s.downs, s.relays, s.nextId, id, m, r');
  }

  lemma SentAway(s: State, id: nat, m: Message, r': Relay)
    requires Inv(s) && s.current.Some? && id in s.relays && Sends(id, s.relays[id], m, r', s.current)
    ensures s.downs != [] && AwayOk(Queue(s.downs, m), s.relays[id := r'])
  {
    AwayAfterSend(s.downs, s.relays, id, m, r');
  }

  lemma SentHomes(s: State, id: nat, m: Message, r': Relay)
    requires Inv(s) && s.current.Some? && id in s.relays && Sends(id, s.relays[id], m, r', s.current)
    ensures s.downs != [] && RelaysOk(s.relays[id := r'], s.nextId)
    ensures HomesOk(Queue(s.downs, m), s.relays[id := r'], s.nextId)
  {
    HomesAfterSend(s.downs, s.relays, s.nextId, id, m, r');
  }

  lemma SentBasics(s: State, id: nat, m: Message, r': Relay)
    requires Basics(s) && s.current.Some? && id in s.relays && RelayOk(r')
    ensures Basics(Sent(s, id, m, r')) && s.downs != []
    ensures Sent(s, id, m, r') == s.(downs := Queue(s.downs, m), relays := s.relays[id := r'])
  {
    SayIsQueue(s, m);
    RelaysAfter(s.relays, s.nextId, id, r');
    RelaysKeepBasics(Say(s, m), s.relays[id := r']);
  }

  lemma SentEars(s: State, m: Message)
    requires Inv(s) && s.current.Some?
    ensures s.downs != [] && forall c :: 0 <= c < |s.links| ==> s.links[c].got <= |Queue(s.downs, m)[c]|
    ensures EarsOk(Queue(s.downs, m), s.links, s.agents)
  {
    EarsAfterSend(s.downs, s.links, s.agents, m);
  }

  lemma SendParts(s: State, id: nat, m: Message, r': Relay)
    requires Inv(s) && s.current.Some? && id in s.relays && Sends(id, s.relays[id], m, r', s.current)
    ensures var t := Sent(s, id, m, r');
            && Basics(t)
            && DownOk(t.downs, t.relays, t.nextId)
            && AwayOk(t.downs, t.relays)
            && HomesOk(t.downs, t.relays, t.nextId)
            && EarsOk(t.downs, t.links, t.agents)
  {
    SentBasics(s, id, m, r');
    SentDown(s, id, m, r');
    SentAway(s, id, m, r');
    SentHomes(s, id, m, r');
    SentEars(s, m);
  }

  lemma SendKeepsInv(s: State, id: nat, m: Message, r': Relay)
    requires Inv(s) && id in s.relays && Sends(id, s.relays[id], m, r', s.current)
    ensures Inv(Sent(s, id, m, r'))
  {
    if s.current.Some? {
      InboxesAfterSend(s, id, m, r');
      SendParts(s, id, m, r');
    } else {
      QuietKeepsInv(s, id, r');
    }
  }

  /** A step of a relay that sends nothing. */
  lemma QuietKeepsInv(s: State, id: nat, r': Relay)
    requires Inv(s) && id in s.relays && RelayOk(r')
    requires Emitted(id, r') == Emitted(id, s.relays[id]) && r'.home == s.relays[id].home
    requires r'.inbox == s.relays[id].inbox && (r'.open ==> s.relays[id].open)
    ensures Inv(WithRelay(s, id, r'))
  {
    var t := WithRelay(s, id, r');
    assert Basics(t);
    assert HomeOk(s.downs, id, s.relays[id]);
    assert InboxOk(s.ups, s.links, id, s.relays[id]);
    forall i: nat ensures Told(s.downs, i) == EmittedOf(t.relays, i) {
      assert Told(s.downs, i) == EmittedOf(s.relays, i);
    }
    forall c: nat, i: nat | c < |s.downs| && Home(t.relays, i) != Some(c)
      ensures NoOpens(Project(s.downs[c], i))
    {
      assert Home(s.relays, i) != Some(c);
    }
  }

  lemma OpenSends(id: nat, r: Relay, current: Option<nat>)
    requires RelayOk(r) && r.phase.Registered?
    ensures Sends(id, r, Open(id), OpenedRelay(r, current), current)
  {
  }

  lemma ReadSends(id: nat, r: Relay, data: Bytes, current: Option<nat>)
    requires RelayOk(r) && r.phase.Pumping?
    ensures Sends(id, r, Data(id, data), ReadRelay(r, data, current.Some?), current)
  {
  }

  lemma CloseSends(id: nat, r: Relay, current: Option<nat>)
    requires RelayOk(r) && r.phase.Removed?
    ensures Sends(id, r, Close(id), r.(phase := Gone, closed := current.Some?), current)
  {
  }

  // ------------------------------------------------------------------------
  // The client

  lemma HearMatches(a: Option<Agent>, m: Message)
    ensures EarOf(HearingAgent(a, m)) == Hearing(EarOf(a), m)
  {
  }

  lemma HeardFinds(agents: map<(nat, nat), Agent>, c: nat, m: Message, k: (nat, nat))
    ensures Find(Heard(agents, c, m), k) ==
            if k == (c, m.id) then HearingAgent(Find(agents, k), m) else Find(agents, k)
  {
  }

  lemma EarsAfterTake(downs: seq<seq<Message>>, links: seq<Link>, agents: map<(nat, nat), Agent>, c: nat)
    requires |downs| == |links| && c < |links| && links[c].got < |downs[c]|
    requires forall d :: 0 <= d < |links| ==> links[d].got <= |downs[d]|
    requires EarsOk(downs, links, agents)
    ensures EarsOk(downs, links[c := links[c].(got := links[c].got + 1)], Heard(agents, c, downs[c][links[c].got]))
  {
    var got := links[c].got;
    var m := downs[c][got];
    var after := links[c := links[c].(got := got + 1)];
    forall d: nat, id: nat | d < |downs|
      ensures EarOf(Find(Heard(agents, c, m), (d, id))) == Hear(Project(downs[d][..after[d].got], id))
    {
      assert EarOf(Find(agents, (d, id))) == Hear(Project(downs[d][..links[d].got], id));
      HeardFinds(agents, c, m, (d, id));
      if d == c {
        EarAfterTake(downs[c], got, id, Find(agents, (c, id)));
      }
    }
  }

  lemma EarAfterTake(down: seq<Message>, got: nat, id: nat, a: Option<Agent>)
    requires got < |down| && EarOf(a) == Hear(Project(down[..got], id))
    ensures Hear(Project(down[..got + 1], id)) ==
            EarOf(if id == down[got].id then HearingAgent(a, down[got]) else a)
  {
    ProjectNext(down, got, id);
    if id == down[got].id {
      HearMore(Project(down[..got], id), down[got]);
      HearMatches(a, down[got]);
    }
  }

  /** An announcement is news. */
  lemma OpenIsNews(s: State, c: nat)
    requires Inv(s) && Can(s, ClientTakes(c)) && s.downs[c][s.links[c].got].Open?
    ensures (c, s.downs[c][s.links[c].got].id) !in s.agents
  {
    var got := s.links[c].got;
    var id := s.downs[c][got].id;
    if (c, id) in s.agents {
      AgentIsAtHome(s, c, id);
      assert HomeOk(s.downs, id, s.relays[id]);
      assert EarOf(Find(s.agents, (c, id))) == Hear(Project(s.downs[c][..got], id));
      OpensFirst(id, s.relays[id]);
      KnownIsSomething(Project(s.downs[c][..got], id));
      LaterIsNotOpened(s.downs[c], got, Emitted(id, s.relays[id]));
    }
  }

  lemma OpensFirst(id: nat, r: Relay)
    requires r.told <= |r.read|
    ensures NoOpensButFirst(Emitted(id, r))
  {
    forall k | 0 < k < |Emitted(id, r)| ensures !Emitted(id, r)[k].Open? {
      OnlyFirstOpens(id, r, k);
    }
  }

  predicate NoOpensButFirst(ms: seq<Message>) {
    forall k :: 0 < k < |ms| ==> !ms[k].Open?
  }

  lemma KnownIsSomething(ms: seq<Message>)
    ensures Hear(ms).known ==> ms != []
  {
  }

  lemma LaterIsNotOpened(down: seq<Message>, got: nat, emitted: seq<Message>)
    requires got < |down| && Project(down, down[got].id) <= emitted && NoOpensButFirst(emitted)
    requires Project(down[..got], down[got].id) != []
    ensures !down[got].Open?
  {
    var place := ProjectAt(down, got, down[got].id);
    assert emitted[place] == down[got];
  }

  /** Where a message stands among those of its stream. */
  lemma ProjectAt(down: seq<Message>, k: nat, id: nat) returns (place: nat)
    requires k < |down| && down[k].id == id
    ensures place == |Project(down[..k], id)| < |Project(down, id)|
    ensures Project(down, id)[place] == down[k]
  {
    place := |Project(down[..k], id)|;
    ProjectNext(down, k, id);
    ProjectPrefix(down, k + 1, id);
  }

  lemma SaidAfterTake(ups: seq<seq<Message>>, agents: map<(nat, nat), Agent>, c: nat, m: Message)
    requires c < |ups| && AgentsOk(agents, |ups|) && SaidOk(ups, agents)
    requires m.Open? ==> (c, m.id) !in agents
    ensures AgentsOk(Heard(agents, c, m), |ups|) && SaidOk(ups, Heard(agents, c, m))
  {
    HeardAgents(agents, c, m, |ups|);
    forall d: nat, id: nat | d < |ups| ensures Project(ups[d], id) == SaidOf(Heard(agents, c, m), (d, id)) {
      assert Project(ups[d], id) == SaidOf(agents, (d, id));
      HeardSaid(agents, c, m, (d, id));
    }
  }

  lemma HeardAgents(agents: map<(nat, nat), Agent>, c: nat, m: Message, channels: nat)
    requires c < channels && AgentsOk(agents, channels)
    ensures AgentsOk(Heard(agents, c, m), channels)
  {
  }

  lemma HeardSaid(agents: map<(nat, nat), Agent>, c: nat, m: Message, k: (nat, nat))
    requires m.Open? ==> (c, m.id) !in agents
    requires k in agents ==> agents[k].told <= |agents[k].read|
    ensures k in Heard(agents, c, m) ==> Heard(agents, c, m)[k].told <= |Heard(agents, c, m)[k].read|
    ensures SaidOf(Heard(agents, c, m), k) == SaidOf(agents, k)
  {
  }

  lemma LinkKeepsBasics(s: State, c: nat, l: Link)
    requires Basics(s) && c < |s.links| && LinkOk(l, |s.downs[c]|, |s.ups[c]|) && l.attached == s.links[c].attached
    ensures Basics(WithLink(s, c, l))
  {
  }

  lemma AgentsKeepBasics(s: State, agents: map<(nat, nat), Agent>)
    requires Basics(s) && AgentsOk(agents, |s.ups|)
    ensures Basics(s.(agents := agents))
  {
  }

  lemma RelaysKeepBasics(s: State, relays: map<nat, Relay>)
    requires Basics(s) && RelaysOk(relays, s.nextId)
    ensures Basics(s.(relays := relays))
  {
  }

  lemma ClientTakesBasics(s: State, c: nat)
    requires Basics(s) && Can(s, ClientTakes(c))
    ensures Basics(ClientTakesStep(s, c))
  {
    var l := s.links[c];
    HeardAgents(s.agents, c, s.downs[c][l.got], |s.ups|);
    LinkKeepsBasics(s, c, l.(got := l.got + 1));
    AgentsKeepBasics(WithLink(s, c, l.(got := l.got + 1)), Heard(s.agents, c, s.downs[c][l.got]));
  }

  lemma ClientTakesKeepsInv(s: State, c: nat)
    requires Inv(s) && Can(s, ClientTakes(c))
    ensures Inv(ClientTakesStep(s, c))
  {
    ClientTakesBasics(s, c);
    HeardEars(s, c);
    HeardSaidOk(s, c);
    HeardInboxes(s, c);
  }

  lemma HeardEars(s: State, c: nat)
    requires Shaped(s) && EarsOk(s.downs, s.links, s.agents) && Can(s, ClientTakes(c))
    ensures var t := ClientTakesStep(s, c); Shaped(t) && EarsOk(t.downs, t.links, t.agents)
  {
    EarsAfterTake(s.downs, s.links, s.agents, c);
  }

  lemma HeardSaidOk(s: State, c: nat)
    requires Inv(s) && Can(s, ClientTakes(c))
    ensures var t := ClientTakesStep(s, c); AgentsOk(t.agents, |t.ups|) && SaidOk(t.ups, t.agents)
  {
    var m := s.downs[c][s.links[c].got];
    if m.Open? {
      OpenIsNews(s, c);
    }
    SaidAfterTake(s.ups, s.agents, c, m);
  }

  lemma HeardInboxes(s: State, c: nat)
    requires Shaped(s) && InboxesOk(s.ups, s.links, s.relays) && Can(s, ClientTakes(c))
    ensures var t := ClientTakesStep(s, c); Shaped(t) && InboxesOk(t.ups, t.links, t.relays)
  {
    LinksKeepInboxes(s.ups, s.links, s.relays, c, s.links[c].(got := s.links[c].got + 1));
  }

  lemma LinksKeepInboxes(ups: seq<seq<Message>>, links: seq<Link>, relays: map<nat, Relay>, c: nat, l: Link)
    requires |ups| == |links| && c < |links| && l.upGot == links[c].upGot
    requires forall d :: 0 <= d < |links| ==> links[d].upGot <= |ups[d]|
    requires InboxesOk(ups, links, relays)
    ensures InboxesOk(ups, links[c := l], relays)
  {
    forall id | id in relays ensures InboxOk(ups, links[c := l], id, relays[id]) {
      assert InboxOk(ups, links, id, relays[id]);
    }
  }

  lemma LinksKeepEars(downs: seq<seq<Message>>, links: seq<Link>, agents: map<(nat, nat), Agent>, c: nat, l: Link)
    requires |downs| == |links| && c < |links| && l.got == links[c].got
    requires forall d :: 0 <= d < |links| ==> links[d].got <= |downs[d]|
    requires EarsOk(downs, links, agents)
    ensures EarsOk(downs, links[c := l], agents)
  {
    forall d: nat, id: nat | d < |downs|
      ensures EarOf(Find(agents, (d, id))) == Hear(Project(downs[d][..links[c := l][d].got], id))
    {
      assert EarOf(Find(agents, (d, id))) == Hear(Project(downs[d][..links[d].got], id));
    }
  }

  lemma LinkKeepsInv(s: State, c: nat, l: Link)
    requires Inv(s) && c < |s.links| && LinkOk(l, |s.downs[c]|, |s.ups[c]|)
    requires l.got == s.links[c].got && l.upGot == s.links[c].upGot && l.attached == s.links[c].attached
    ensures Inv(WithLink(s, c, l))
  {
    LinksKeepEars(s.downs, s.links, s.agents, c, l);
    LinksKeepInboxes(s.ups, s.links, s.relays, c, l);
    assert Basics(WithLink(s, c, l));
  }

  lemma InboxAfterTake(up: seq<Message>, k: nat, id: nat, r: Relay)
    requires k < |up|
    requires r.inbox <= Payload(Project(up[..k], id)) && (r.open ==> r.inbox == Payload(Project(up[..k], id)))
    ensures var r' := if id == up[k].id then HearingRelay(r, up[k]) else r;
            && r'.inbox <= Payload(Project(up[..k + 1], id))
            && (r'.open ==> r'.inbox == Payload(Project(up[..k + 1], id)))
  {
    ProjectNext(up, k, id);
    if id == up[k].id {
      PayloadMore(Project(up[..k], id), up[k]);
    }
  }

  lemma InboxesAfterTake(ups: seq<seq<Message>>, links: seq<Link>, relays: map<nat, Relay>, c: nat)
    requires |ups| == |links| && c < |links| && links[c].upGot < |ups[c]|
    requires forall d :: 0 <= d < |links| ==> links[d].upGot <= |ups[d]|
    requires InboxesOk(ups, links, relays)
    requires var m := ups[c][links[c].upGot]; m.id in relays && relays[m.id].home == Some(c)
    ensures InboxesOk(ups, links[c := links[c].(upGot := links[c].upGot + 1)],
                      Delivered(relays, ups[c][links[c].upGot]))
  {
    var k := links[c].upGot;
    var m := ups[c][k];
    var links', relays' := links[c := links[c].(upGot := k + 1)], Delivered(relays, m);
    forall id | id in relays' ensures InboxOk(ups, links', id, relays'[id]) {
      assert InboxOk(ups, links, id, relays[id]);
      if relays[id].home == Some(c) {
        InboxAfterTake(ups[c], k, id, relays[id]);
      }
    }
  }

  /** Only the home channel brings messages of a stream. */
  lemma TakenIsHome(s: State, c: nat, k: nat)
    requires Inv(s) && c < |s.ups| && k < |s.ups[c]|
    ensures var id := s.ups[c][k].id;
            (c, id) in s.agents && id in s.relays && s.relays[id].home == Some(c)
  {
    var id := s.ups[c][k].id;
    ProjectNext(s.ups[c], k, id);
    ProjectPrefix(s.ups[c], k + 1, id);
    assert Project(s.ups[c], id) == SaidOf(s.agents, (c, id));
    AgentIsAtHome(s, c, id);
  }

  lemma ServerTakesBasics(s: State, c: nat)
    requires Basics(s) && Can(s, ServerTakes(c))
    requires RelaysOk(Delivered(s.relays, s.ups[c][s.links[c].upGot]), s.nextId)
    ensures Basics(ServerTakesStep(s, c))
  {
    var l := s.links[c];
    LinkKeepsBasics(s, c, l.(upGot := l.upGot + 1));
    RelaysKeepBasics(WithLink(s, c, l.(upGot := l.upGot + 1)), Delivered(s.relays, s.ups[c][l.upGot]));
  }

  predicate TakenAtHome(s: State, c: nat)
    requires Shaped(s) && Can(s, ServerTakes(c))
  {
    var id := s.ups[c][s.links[c].upGot].id;
    id in s.relays && s.relays[id].home == Some(c)
  }

  lemma TakenByHome(s: State, c: nat)
    requires Inv(s) && Can(s, ServerTakes(c))
    ensures TakenAtHome(s, c)
  {
    TakenIsHome(s, c, s.links[c].upGot);
  }

  lemma TakenInboxes(s: State, c: nat)
    requires Shaped(s) && InboxesOk(s.ups, s.links, s.relays) && Can(s, ServerTakes(c)) && TakenAtHome(s, c)
    ensures var t := ServerTakesStep(s, c); Shaped(t) && InboxesOk(t.ups, t.links, t.relays)
  {
    InboxesAfterTake(s.ups, s.links, s.relays, c);
  }

  lemma TakenDown(s: State, c: nat)
    requires Inv(s) && Can(s, ServerTakes(c))
    ensures var relays := Delivered(s.relays, s.ups[c][s.links[c].upGot]);
            && RelaysOk(relays, s.nextId) && DownOk(s.downs, relays, s.nextId)
            && AwayOk(s.downs, relays) && HomesOk(s.downs, relays, s.nextId)
  {
    var m := s.ups[c][s.links[c].upGot];
    TakenIsHome(s, c, s.links[c].upGot);
    HearingSaysNothing(m.id, s.relays[m.id], m);
    HeardKeepsDown(s, m.id, HearingRelay(s.relays[m.id], m));
  }

  lemma HearingSaysNothing(id: nat, r: Relay, m: Message)
    requires RelayOk(r) && r.home.Some?
    ensures RelayOk(HearingRelay(r, m)) && HearingRelay(r, m).home == r.home
    ensures Emitted(id, HearingRelay(r, m)) == Emitted(id, r)
  {
  }

  lemma TakenEars(s: State, c: nat)
    requires Inv(s) && Can(s, ServerTakes(c))
    ensures EarsOk(s.downs, s.links[c := s.links[c].(upGot := s.links[c].upGot + 1)], s.agents)
  {
    LinksKeepEars(s.downs, s.links, s.agents, c, s.links[c].(upGot := s.links[c].upGot + 1));
  }

  lemma ServerTakesKeepsInv(s: State, c: nat)
    requires Inv(s) && Can(s, ServerTakes(c))
    ensures Inv(ServerTakesStep(s, c))
  {
    TakenDown(s, c);
    ServerTakesBasics(s, c);
    TakenByHome(s, c);
    TakenInboxes(s, c);
    TakenEars(s, c);
  }

  lemma HeardKeepsDown(s: State, id: nat, r': Relay)
    requires Inv(s) && id in s.relays && RelayOk(r')
    requires Emitted(id, r') == Emitted(id, s.relays[id]) && r'.home == s.relays[id].home
    ensures RelaysOk(s.relays[id := r'], s.nextId)
    ensures DownOk(s.downs, s.relays[id := r'], s.nextId)
    ensures AwayOk(s.downs, s.relays[id := r'])
    ensures HomesOk(s.downs, s.relays[id := r'], s.nextId)
  {
    var relays := s.relays[id := r'];
    forall i: nat ensures Told(s.downs, i) == EmittedOf(relays, i) {
      assert Told(s.downs, i) == EmittedOf(s.relays, i);
    }
    forall c: nat, i: nat | c < |s.downs| && Home(relays, i) != Some(c)
      ensures NoOpens(Project(s.downs[c], i))
    {
      assert Home(s.relays, i) != Some(c);
    }
    assert HomeOk(s.downs, id, s.relays[id]);
  }

  // ------------------------------------------------------------------------
  // The client's relays

  /** An agent's state before and after it sends `m`, or nothing. */
  predicate Speaks(id: nat, a: Agent, m: Option<Message>, a': Agent) {
    && AgentOk(a) && AgentOk(a')
    && (m.Some? ==> m.value.id == id)
    && Said(id, a') == (if m.Some? then Said(id, a) + [m.value] else Said(id, a))
    && a'.inbox == a.inbox && a'.open == a.open
  }

  function Upped(ups: seq<seq<Message>>, c: nat, m: Option<Message>): seq<seq<Message>>
    requires c < |ups|
  {
    if m.Some? then ups[c := ups[c] + [m.value]] else ups
  }

  function Spoken(s: State, c: nat, id: nat, m: Option<Message>, a': Agent): State
    requires c < |s.ups|
  {
    s.(ups := Upped(s.ups, c, m),
       agents := s.agents[(c, id) := a'])
  }

  lemma ProjectUpped(ups: seq<seq<Message>>, c: nat, m: Option<Message>, d: nat, id: nat)
    requires c < |ups| && d < |ups|
    ensures Project(Upped(ups, c, m)[d], id) ==
            if d == c && m.Some? && m.value.id == id then Project(ups[d], id) + [m.value] else Project(ups[d], id)
  {
    if d == c && m.Some? {
      ProjectMore(ups[c], m.value, id);
    }
  }

  lemma SaidAfter(agents: map<(nat, nat), Agent>, k: (nat, nat), a': Agent, j: (nat, nat))
    requires a'.told <= |a'.read| && (j in agents ==> agents[j].told <= |agents[j].read|)
    ensures SaidOf(agents[k := a'], j) == if j == k then Said(k.1, a') else SaidOf(agents, j)
  {
  }

  lemma AgentsAfter(agents: map<(nat, nat), Agent>, channels: nat, k: (nat, nat), a': Agent)
    requires AgentsOk(agents, channels) && k in agents && AgentOk(a')
    ensures AgentsOk(agents[k := a'], channels)
  {
  }

  lemma SpeakKeepsSaid(ups: seq<seq<Message>>, agents: map<(nat, nat), Agent>, c: nat, id: nat,
                       m: Option<Message>, a': Agent)
    requires c < |ups| && AgentsOk(agents, |ups|) && SaidOk(ups, agents)
    requires (c, id) in agents && Speaks(id, agents[(c, id)], m, a')
    ensures AgentsOk(agents[(c, id) := a'], |ups|) && SaidOk(Upped(ups, c, m), agents[(c, id) := a'])
  {
    var after := agents[(c, id) := a'];
    AgentsAfter(agents, |ups|, (c, id), a');
    forall d: nat, i: nat | d < |ups| ensures Project(Upped(ups, c, m)[d], i) == SaidOf(after, (d, i)) {
      assert Project(ups[d], i) == SaidOf(agents, (d, i));
      SaidAfter(agents, (c, id), a', (d, i));
      if d == c && i == id {
        SpeakerSaid(ups, c, id, agents[(c, id)], m, a');
      } else {
        ProjectUpped(ups, c, m, d, i);
      }
    }
  }

  lemma SpeakerSaid(ups: seq<seq<Message>>, c: nat, id: nat, a: Agent, m: Option<Message>, a': Agent)
    requires c < |ups| && Speaks(id, a, m, a') && Project(ups[c], id) == Said(id, a)
    ensures Project(Upped(ups, c, m)[c], id) == Said(id, a')
  {
    ProjectUpped(ups, c, m, c, id);
  }

  lemma SpeakKeepsInboxes(ups: seq<seq<Message>>, links: seq<Link>, relays: map<nat, Relay>, c: nat, m: Option<Message>)
    requires |ups| == |links| && c < |ups|
    requires forall d :: 0 <= d < |links| ==> links[d].upGot <= |ups[d]|
    requires InboxesOk(ups, links, relays)
    ensures forall d :: 0 <= d < |links| ==> links[d].upGot <= |Upped(ups, c, m)[d]|
    ensures InboxesOk(Upped(ups, c, m), links, relays)
  {
    forall id | id in relays ensures InboxOk(Upped(ups, c, m), links, id, relays[id]) {
      assert InboxOk(ups, links, id, relays[id]);
      var home := relays[id].home;
      if home.Some? {
        TakenStays(ups, c, m, home.value, links[home.value].upGot);
      }
    }
  }

  lemma TakenStays(ups: seq<seq<Message>>, c: nat, m: Option<Message>, d: nat, k: nat)
    requires c < |ups| && d < |ups| && k <= |ups[d]|
    ensures k <= |Upped(ups, c, m)[d]| && Upped(ups, c, m)[d][..k] == ups[d][..k]
  {
  }

  lemma UpsKeepBasics(s: State, c: nat, m: Option<Message>)
    requires Basics(s) && c < |s.ups|
    ensures Basics(s.(ups := Upped(s.ups, c, m)))
  {
  }

  lemma SpeakKeepsEars(downs: seq<seq<Message>>, links: seq<Link>, agents: map<(nat, nat), Agent>,
                       k: (nat, nat), a': Agent)
    requires |downs| == |links| && forall c :: 0 <= c < |links| ==> links[c].got <= |downs[c]|
    requires EarsOk(downs, links, agents) && k in agents
    requires a'.inbox == agents[k].inbox && a'.open == agents[k].open
    ensures EarsOk(downs, links, agents[k := a'])
  {
    var after := agents[k := a'];
    forall d: nat, i: nat | d < |downs|
      ensures EarOf(Find(after, (d, i))) == Hear(Project(downs[d][..links[d].got], i))
    {
      assert EarOf(Find(agents, (d, i))) == Hear(Project(downs[d][..links[d].got], i));
    }
  }

  lemma SpeakBasics(s: State, c: nat, id: nat, m: Option<Message>, a': Agent)
    requires Basics(s) && c < |s.ups| && (c, id) in s.agents && AgentOk(a')
    ensures Basics(Spoken(s, c, id, m, a'))
  {
    UpsKeepBasics(s, c, m);
    AgentsAfter(s.agents, |s.ups|, (c, id), a');
    AgentsKeepBasics(s.(ups := Upped(s.ups, c, m)), s.agents[(c, id) := a']);
  }

  lemma SpokenSaid(s: State, c: nat, id: nat, m: Option<Message>, a': Agent)
    requires Inv(s) && c < |s.ups| && (c, id) in s.agents && Speaks(id, s.agents[(c, id)], m, a')
    ensures AgentsOk(s.agents[(c, id) := a'], |s.ups|) && SaidOk(Upped(s.ups, c, m), s.agents[(c, id) := a'])
  {
    SpeakKeepsSaid(s.ups, s.agents, c, id, m, a');
  }

  lemma SpokenEars(s: State, c: nat, id: nat, a': Agent)
    requires Inv(s) && (c, id) in s.agents
    requires a'.inbox == s.agents[(c, id)].inbox && a'.open == s.agents[(c, id)].open
    ensures EarsOk(s.downs, s.links, s.agents[(c, id) := a'])
  {
    SpeakKeepsEars(s.downs, s.links, s.agents, (c, id), a');
  }

  lemma SpokenInboxes(s: State, c: nat, m: Option<Message>)
    requires Inv(s) && c < |s.ups|
    ensures forall d :: 0 <= d < |s.links| ==> s.links[d].upGot <= |Upped(s.ups, c, m)[d]|
    ensures InboxesOk(Upped(s.ups, c, m), s.links, s.relays)
  {
    SpeakKeepsInboxes(s.ups, s.links, s.relays, c, m);
  }

  lemma SpeakKeepsInv(s: State, c: nat, id: nat, m: Option<Message>, a': Agent)
    requires Inv(s) && c < |s.ups| && (c, id) in s.agents && Speaks(id, s.agents[(c, id)], m, a')
    ensures Inv(Spoken(s, c, id, m, a'))
  {
    SpeakBasics(s, c, id, m, a');
    SpokenSaid(s, c, id, m, a');
    SpokenEars(s, c, id, a');
    SpokenInboxes(s, c, m);
  }

  lemma AgentReadSpeaks(id: nat, a: Agent, data: Bytes, up: bool)
    requires AgentOk(a) && a.phase.Talking?
    ensures Speaks(id, a, if up then Some(Data(id, data)) else None, ReadAgent(a, data, up))
  {
  }

  // ------------------------------------------------------------------------
  // Channels

  lemma AttachKeepsInv(s: State)
    requires Inv(s)
    ensures Inv(AttachStep(s))
  {
    var t := AttachStep(s);
    var n := |s.downs|;
    assert Basics(t);
    assert t.downs[..n] == s.downs;
    forall id: nat ensures Told(t.downs, id) == EmittedOf(t.relays, id) {
      assert Told(s.downs, id) == EmittedOf(s.relays, id);
    }
    forall c: nat, id: nat | c < |t.downs| && Home(t.relays, id) != Some(c)
      ensures NoOpens(Project(t.downs[c], id))
    {
      if c < n {
        assert NoOpens(Project(s.downs[c], id));
      }
    }
    forall id | id in t.relays
      ensures HomeOk(t.downs, id, t.relays[id]) && InboxOk(t.ups, t.links, id, t.relays[id])
    {
      assert HomeOk(s.downs, id, s.relays[id]) && InboxOk(s.ups, s.links, id, s.relays[id]);
    }
    forall c: nat, id: nat | c < |t.downs|
      ensures EarOf(Find(t.agents, (c, id))) == Hear(Project(t.downs[c][..t.links[c].got], id))
      ensures Project(t.ups[c], id) == SaidOf(t.agents, (c, id))
    {
      if c < n {
        assert EarOf(Find(s.agents, (c, id))) == Hear(Project(s.downs[c][..s.links[c].got], id));
        assert Project(s.ups[c], id) == SaidOf(s.agents, (c, id));
      }
    }
  }

  lemma DetachKeepsInv(s: State, c: nat)
    requires Inv(s) && Can(s, Detach(c))
    ensures Inv(DetachStep(s, c))
  {
    var l := s.links[c].(attached := false);
    LinksKeepEars(s.downs, s.links, s.agents, c, l);
    LinksKeepInboxes(s.ups, s.links, s.relays, c, l);
    assert Basics(DetachStep(s, c));
  }

  lemma NewRelayKeepsDown(downs: seq<seq<Message>>, relays: map<nat, Relay>, id: nat, r: Relay)
    requires id >= 1 && RelaysOk(relays, id) && RelayOk(r) && r.home.None?
    requires DownOk(downs, relays, id) && AwayOk(downs, relays) && HomesOk(downs, relays, id)
    ensures RelaysOk(relays[id := r], id + 1) && DownOk(downs, relays[id := r], id + 1)
    ensures AwayOk(downs, relays[id := r]) && HomesOk(downs, relays[id := r], id + 1)
  {
    forall i: nat ensures Told(downs, i) == EmittedOf(relays[id := r], i) {
      assert Told(downs, i) == EmittedOf(relays, i);
    }
    forall c: nat, i: nat | c < |downs| && Home(relays[id := r], i) != Some(c)
      ensures NoOpens(Project(downs[c], i))
    {
      assert Home(relays, i) != Some(c);
    }
  }

  lemma AcceptKeepsInv(s: State)
    requires Inv(s)
    ensures Inv(Step(s, Accept))
  {
    NewRelayKeepsDown(s.downs, s.relays, s.nextId, Relay(Registered, None, [], 0, false, [], 0, true));
  }

  // ------------------------------------------------------------------------
  // Every step

  lemma SendOpenKeepsInv(s: State, id: nat)
    requires Inv(s) && Can(s, SendOpen(id))
    ensures Inv(Step(s, SendOpen(id)))
  {
    OpenSends(id, s.relays[id], s.current);
    SendKeepsInv(s, id, Open(id), OpenedRelay(s.relays[id], s.current));
  }

  lemma ReadKeepsInv(s: State, id: nat, data: Bytes)
    requires Inv(s) && Can(s, Read(id, data))
    ensures Inv(Step(s, Read(id, data)))
  {
    ReadSends(id, s.relays[id], data, s.current);
    SendKeepsInv(s, id, Data(id, data), ReadRelay(s.relays[id], data, s.current.Some?));
  }

  lemma SendCloseKeepsInv(s: State, id: nat)
    requires Inv(s) && Can(s, SendClose(id))
    ensures Inv(Step(s, SendClose(id)))
  {
    CloseSends(id, s.relays[id], s.current);
    SendKeepsInv(s, id, Close(id), s.relays[id].(phase := Gone, closed := s.current.Some?));
  }

  function QuietRelay(l: Label, r: Relay): Relay {
    if l.Write? then r.(written := r.written + 1)
    else if l.Deregister? then r.(phase := Removed, open := false)
    else r.(phase := Closing)
  }

  predicate OfQuietRelay(l: Label) { l.Stop? || l.SeesClosed? || l.Write? || l.Deregister? }

  lemma QuietStepIs(s: State, l: Label)
    requires Shaped(s) && Can(s, l) && OfQuietRelay(l)
    ensures Step(s, l) == WithRelay(s, l.id, QuietRelay(l, s.relays[l.id]))
  {
  }

  lemma QuietRelayOk(l: Label, r: Relay, id: nat)
    requires RelayOk(r) && OfQuietRelay(l)
    requires r.phase == if l.Deregister? then Closing else Pumping
    requires l.Write? ==> r.written < |r.inbox|
    ensures RelayOk(QuietRelay(l, r)) && Emitted(id, QuietRelay(l, r)) == Emitted(id, r)
  {
  }

  lemma QuietStepKeepsInv(s: State, l: Label)
    requires Inv(s) && Can(s, l) && OfQuietRelay(l)
    ensures Inv(Step(s, l))
  {
    QuietStepIs(s, l);
    QuietRelayOk(l, s.relays[l.id], l.id);
    QuietKeepsInv(s, l.id, QuietRelay(l, s.relays[l.id]));
  }

  lemma DialSpeaks(id: nat, a: Agent, ok: bool, up: bool)
    requires AgentOk(a) && a.phase.Dialing?
    ensures Speaks(id, a, if !ok && up then Some(Close(id)) else None, DialedAgent(a, ok, up))
  {
  }

  lemma DialKeepsInv(s: State, c: nat, id: nat, ok: bool)
    requires Inv(s) && Can(s, Dial(c, id, ok))
    ensures Inv(Step(s, Dial(c, id, ok)))
  {
    var a, up := s.agents[(c, id)], s.links[c].clientUp;
    DialSpeaks(id, a, ok, up);
    SpeakKeepsInv(s, c, id, if !ok && up then Some(Close(id)) else None, DialedAgent(a, ok, up));
  }

  lemma AgentReadsKeepsInv(s: State, c: nat, id: nat, data: Bytes)
    requires Inv(s) && Can(s, AgentReads(c, id, data))
    ensures Inv(Step(s, AgentReads(c, id, data)))
  {
    var a, up := s.agents[(c, id)], s.links[c].clientUp;
    AgentReadSpeaks(id, a, data, up);
    SpeakKeepsInv(s, c, id, if up then Some(Data(id, data)) else None, ReadAgent(a, data, up));
  }

  lemma StopSpeaks(id: nat, a: Agent, up: bool)
    requires AgentOk(a) && a.phase.Talking?
    ensures Speaks(id, a, if up then Some(Close(id)) else None, a.(phase := Finished, closed := up))
  {
  }

  lemma StopIs(s: State, c: nat, id: nat)
    requires Shaped(s) && Can(s, AgentStops(c, id))
    ensures Step(s, AgentStops(c, id)) ==
            Spoken(s, c, id, if s.links[c].clientUp then Some(Close(id)) else None,
                   s.agents[(c, id)].(phase := Finished, closed := s.links[c].clientUp))
  {
  }

  lemma AgentStopsKeepsInv(s: State, c: nat, id: nat)
    requires Inv(s) && Can(s, AgentStops(c, id))
    ensures Inv(Step(s, AgentStops(c, id)))
  {
    var a, up := s.agents[(c, id)], s.links[c].clientUp;
    StopIs(s, c, id);
    StopSpeaks(id, a, up);
    SpeakKeepsInv(s, c, id, if up then Some(Close(id)) else None, a.(phase := Finished, closed := up));
  }

  function QuietAgent(l: Label, a: Agent): Agent {
    if l.AgentWrites? then a.(written := a.written + 1) else a.(phase := Finished)
  }

  lemma QuietAgentIs(s: State, l: Label)
    requires Shaped(s) && Can(s, l) && (l.AgentSeesClosed? || l.AgentWrites?)
    ensures Step(s, l) == Spoken(s, l.c, l.id, None, QuietAgent(l, s.agents[(l.c, l.id)]))
  {
  }

  lemma QuietAgentOk(l: Label, a: Agent, id: nat)
    requires AgentOk(a) && a.phase.Talking? && (l.AgentWrites? ==> a.written < |a.inbox|)
    ensures Speaks(id, a, None, QuietAgent(l, a))
  {
  }

  lemma QuietAgentKeepsInv(s: State, l: Label)
    requires Inv(s) && Can(s, l) && (l.AgentSeesClosed? || l.AgentWrites?)
    ensures Inv(Step(s, l))
  {
    QuietAgentIs(s, l);
    QuietAgentOk(l, s.agents[(l.c, l.id)], l.id);
    SpeakKeepsInv(s, l.c, l.id, None, QuietAgent(l, s.agents[(l.c, l.id)]));
  }

  predicate OfChannel(l: Label) {
    || l.Attach? || l.Forward? || l.ServerTakes? || l.EndServer? || l.Detach?
    || l.ClientTakes? || l.ClientForward? || l.EndClient?
  }

  predicate OfLink(l: Label) { l.Forward? || l.EndServer? || l.ClientForward? || l.EndClient? }

  function Linked(l: Label, link: Link): Link {
    match l
    case Forward(_) => link.(sent := link.sent + 1)
    case EndServer(_) => link.(serving := false)
    case ClientForward(_) => link.(upSent := link.upSent + 1)
    case _ => link.(clientUp := false)
  }

  lemma LinkStepIs(s: State, l: Label)
    requires Shaped(s) && Can(s, l) && OfLink(l)
    ensures Step(s, l) == WithLink(s, l.c, Linked(l, s.links[l.c]))
    ensures LinkOk(Linked(l, s.links[l.c]), |s.downs[l.c]|, |s.ups[l.c]|)
  {
  }

  lemma LinkStepKeepsInv(s: State, l: Label)
    requires Inv(s) && Can(s, l) && OfLink(l)
    ensures Inv(Step(s, l))
  {
    LinkStepIs(s, l);
    LinkKeepsInv(s, l.c, Linked(l, s.links[l.c]));
  }

  lemma ChannelStepKeepsInv(s: State, l: Label)
    requires Inv(s) && Can(s, l) && OfChannel(l)
    ensures Inv(Step(s, l))
  {
    match l
    case Attach => AttachKeepsInv(s);
    case Forward(_) => LinkStepKeepsInv(s, l);
    case ServerTakes(c) => ServerTakesKeepsInv(s, c);
    case EndServer(_) => LinkStepKeepsInv(s, l);
    case Detach(c) => DetachKeepsInv(s, c);
    case ClientTakes(c) => ClientTakesKeepsInv(s, c);
    case ClientForward(_) => LinkStepKeepsInv(s, l);
    case EndClient(_) => LinkStepKeepsInv(s, l);
  }

  lemma StreamStepKeepsInv(s: State, l: Label)
    requires Inv(s) && Can(s, l) && !OfChannel(l)
    ensures Inv(Step(s, l))
  {
    match l
    case Accept => AcceptKeepsInv(s);
    case SendOpen(id) => SendOpenKeepsInv(s, id);
    case Read(id, data) => ReadKeepsInv(s, id, data);
    case SendClose(id) => SendCloseKeepsInv(s, id);
    case Stop(_) => QuietStepKeepsInv(s, l);
    case SeesClosed(_) => QuietStepKeepsInv(s, l);
    case Write(_) => QuietStepKeepsInv(s, l);
    case Deregister(_) => QuietStepKeepsInv(s, l);
    case Dial(c, id, ok) => DialKeepsInv(s, c, id, ok);
    case AgentReads(c, id, data) => AgentReadsKeepsInv(s, c, id, data);
    case AgentStops(c, id) => AgentStopsKeepsInv(s, c, id);
    case AgentSeesClosed(_, _) => QuietAgentKeepsInv(s, l);
    case AgentWrites(_, _) => QuietAgentKeepsInv(s, l);
  }

  lemma StepKeepsInv(s: State, l: Label)
    requires Inv(s) && Can(s, l)
    ensures Inv(Step(s, l))
  {
    if OfChannel(l) {
      ChannelStepKeepsInv(s, l);
    } else {
      StreamStepKeepsInv(s, l);
    }
  }

  lemma {:induction false} BehaviorKeepsInv(run: seq<State>, k: nat)
    requires Behavior(run) && k < |run|
    ensures Inv(run[k])
  {
    if k > 0 {
      BehaviorKeepsInv(run, k - 1);
      assert Next(run[k - 1], run[k - 1 + 1]);
      var l :| Shaped(run[k - 1]) && Can(run[k - 1], l) && run[k] == Step(run[k - 1], l);
      StepKeepsInv(run[k - 1], l);
    }
  }

  lemma ReachableInv(s: State)
    requires Reachable(s)
    ensures Inv(s)
  {
    var run :| Behavior(run) && run[|run| - 1] == s;
    BehaviorKeepsInv(run, |run| - 1);
  }
}
