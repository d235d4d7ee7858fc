/** Relaying the connections of a server-side agent socket to the client that
    attached last: the hub, and the system of all its channels. */
module AgentHub {
  import opened Proto

  /** What flows on an agent channel, in both directions. */
  datatype Message =
    | Open(id: nat)
    | Data(id: nat, data: Bytes)
    | Close(id: nat)

  /** The messages of one stream. */
  function Project(ms: seq<Message>, id: nat): seq<Message> {
    if ms == [] then []
    else
      var last := ms[|ms| - 1];
      Project(ms[..|ms| - 1], id) + if last.id == id then [last] else []
  }

  /** Everything said about a stream, over all channels in the order of their
      attachment. */
  function Told(downs: seq<seq<Message>>, id: nat): seq<Message> {
    if downs == [] then []
    else Told(downs[..|downs| - 1], id) + Project(downs[|downs| - 1], id)
  }

  function DataMessages(id: nat, chunks: seq<Bytes>): seq<Message> {
    seq(|chunks|, i requires 0 <= i < |chunks| => Data(id, chunks[i]))
  }

  function Queue(downs: seq<seq<Message>>, m: Message): seq<seq<Message>>
    requires downs != []
  {
    var last := |downs| - 1;
    downs[..last] + [downs[last] + [m]]
  }

  /** The state that the relays and channel handlers of a server share. A
      channel is named by its rank, and `queues` holds what has been sent to
      each; `streams` holds what each registered stream is still to be given. */
  class Hub {
    var channel: Option<nat>
    var queues: seq<seq<Message>>
    var streams: map<nat, seq<Bytes>>
    var nextId: nat

    ghost predicate Valid()
      reads this
    {
      && (channel.Some? ==> channel.value == |queues| - 1)
      && forall id :: id in streams ==> id < nextId
    }

    constructor ()
      ensures Valid() && channel == None && queues == [] && streams == map[] && nextId == 1
    {
      channel, queues, streams, nextId := None, [], map[], 1;
    }

    /** A new channel replaces whichever is attached. */
    method Attach() returns (mine: nat)
      requires Valid()
      modifies this
      ensures Valid() && mine == |old(queues)| && channel == Some(mine)
      ensures queues == old(queues) + [[]]
      ensures streams == old(streams) && nextId == old(nextId)
    {
      mine := |queues|;
      queues := queues + [[]];
      channel := Some(mine);
    }

    /** A channel that ends gives up its own attachment only. */
    method Detach(mine: nat)
      requires Valid()
      modifies this`channel
      ensures Valid()
      ensures channel == if mine + 1 == |queues| then None else old(channel)
    {
      var ours := channel.Some? && channel.value == mine;
      if ours {
        channel := None;
      }
    }

    method SendToChannel(m: Message) returns (sent: bool)
      requires Valid()
      modifies this`queues
      ensures Valid() && sent == channel.Some?
      ensures queues == if sent then Queue(old(queues), m) else old(queues)
    {
      match channel {
        case None => sent := false;
        case Some(c) =>
          queues := queues[c := queues[c] + [m]];
          assert queues == Queue(old(queues), m);
          sent := true;
      }
    }

    /** A stream gets an id that no stream has or had, and is announced; it is
        forgotten again when there is nobody to tell. */
    method OpenStream() returns (id: nat, ok: bool)
      requires Valid()
      modifies this
      ensures Valid() && channel == old(channel)
      ensures id == old(nextId) && nextId == id + 1 && id !in old(streams)
      ensures ok == channel.Some?
      ensures queues == if ok then Queue(old(queues), Open(id)) else old(queues)
      ensures streams == if ok then old(streams)[id := []] else old(streams)
    {
      id := nextId;
      nextId := nextId + 1;
      streams := streams[id := []];
      ok := SendToChannel(Open(id));
      if !ok {
        CloseStream(id);
      }
    }

    /** Data of a stream that is gone is dropped. */
    method Deliver(id: nat, data: Bytes)
      requires Valid()
      modifies this`streams
      ensures Valid() && streams.Keys == old(streams).Keys
      ensures forall i :: i in streams ==> streams[i] == old(streams)[i] + if i == id then [data] else []
    {
      if id in streams {
        streams := streams[id := streams[id] + [data]];
      }
    }

    method CloseStream(id: nat)
      requires Valid()
      modifies this`streams
      ensures Valid() && streams == old(streams) - {id}
    {
      streams := streams - {id};
    }
  }

  // ------------------------------------------------------------------------
  // The system

  /** How far a channel's two directions have come, and who still serves it. */
  datatype Link = Link(
    sent: nat, got: nat, upSent: nat, upGot: nat,
    serving: bool, attached: bool, clientUp: bool)

  datatype RelayPhase = Registered | Pumping | Closing | Removed | Gone

  /** A server-side stream: the chunks read from the program, how many of them
      were passed on, the queue towards the program and how much was written;
      `home` is the channel it was announced on. */
  datatype Relay = Relay(
    phase: RelayPhase, home: Option<nat>, read: seq<Bytes>, told: nat, closed: bool,
    inbox: seq<Bytes>, written: nat, open: bool)

  datatype AgentPhase = Dialing | Talking | Finished

  /** A client-side stream, the mirror image. */
  datatype Agent = Agent(
    phase: AgentPhase, read: seq<Bytes>, told: nat, closed: bool,
    inbox: seq<Bytes>, written: nat, open: bool)

  datatype State = State(
    current: Option<nat>,
    nextId: nat,
    downs: seq<seq<Message>>,
    ups: seq<seq<Message>>,
    links: seq<Link>,
    relays: map<nat, Relay>,
    agents: map<(nat, nat), Agent>)

  ghost predicate Init(s: State) {
    s == State(None, 1, [], [], [], map[], map[])
  }

  datatype Label =
    // the channel handler of the server
    | Attach
    | Forward(c: nat)
    | ServerTakes(c: nat)
    | EndServer(c: nat)
    | Detach(c: nat)
    // a relay of the server
    | Accept
    | SendOpen(id: nat)
    | Read(id: nat, data: Bytes)
    | Stop(id: nat)
    | SeesClosed(id: nat)
    | Write(id: nat)
    | Deregister(id: nat)
    | SendClose(id: nat)
    // the channel loop of the client
    | ClientTakes(c: nat)
    | ClientForward(c: nat)
    | EndClient(c: nat)
    // a relay of the client
    | Dial(c: nat, id: nat, ok: bool)
    | AgentReads(c: nat, id: nat, data: Bytes)
    | AgentStops(c: nat, id: nat)
    | AgentSeesClosed(c: nat, id: nat)
    | AgentWrites(c: nat, id: nat)

  predicate Shaped(s: State) {
    && |s.downs| == |s.ups| == |s.links|
    && (s.current.Some? ==> s.current.value < |s.downs|)
    && forall c :: 0 <= c < |s.links| ==> LinkOk(s.links[c], |s.downs[c]|, |s.ups[c]|)
  }

  predicate LinkOk(l: Link, down: nat, up: nat) {
    l.got <= l.sent <= down && l.upGot <= l.upSent <= up
  }

  predicate RelayAt(s: State, id: nat, phase: RelayPhase) {
    id in s.relays && s.relays[id].phase == phase
  }

  predicate AgentAt(s: State, c: nat, id: nat, phase: AgentPhase) {
    (c, id) in s.agents && s.agents[(c, id)].phase == phase
  }

  predicate Can(s: State, l: Label)
    requires Shaped(s)
  {
    match l
    case Attach => true
    case Forward(c) => c < |s.links| && s.links[c].serving && s.links[c].sent < |s.downs[c]|
    case ServerTakes(c) => c < |s.links| && s.links[c].serving && s.links[c].upGot < s.links[c].upSent
    case EndServer(c) => c < |s.links| && s.links[c].serving
    case Detach(c) => c < |s.links| && !s.links[c].serving && s.links[c].attached
    case Accept => true
    case SendOpen(id) => RelayAt(s, id, Registered)
    case Read(id, data) => RelayAt(s, id, Pumping) && 0 < |data| <= 4096
    case Stop(id) => RelayAt(s, id, Pumping)
    case SeesClosed(id) =>
      RelayAt(s, id, Pumping) && !s.relays[id].open && s.relays[id].written == |s.relays[id].inbox|
    case Write(id) => RelayAt(s, id, Pumping) && s.relays[id].written < |s.relays[id].inbox|
    case Deregister(id) => RelayAt(s, id, Closing)
    case SendClose(id) => RelayAt(s, id, Removed)
    case ClientTakes(c) => c < |s.links| && s.links[c].clientUp && s.links[c].got < s.links[c].sent
    case ClientForward(c) => c < |s.links| && s.links[c].clientUp && s.links[c].upSent < |s.ups[c]|
    case EndClient(c) => c < |s.links| && s.links[c].clientUp
    case Dial(c, id, ok) => c < |s.links| && AgentAt(s, c, id, Dialing)
    case AgentReads(c, id, data) => c < |s.links| && AgentAt(s, c, id, Talking) && 0 < |data| <= 4096
    case AgentStops(c, id) => c < |s.links| && AgentAt(s, c, id, Talking)
    case AgentSeesClosed(c, id) =>
      && c < |s.links| && AgentAt(s, c, id, Talking)
      && (!s.agents[(c, id)].open || !s.links[c].clientUp)
      && s.agents[(c, id)].written == |s.agents[(c, id)].inbox|
    case AgentWrites(c, id) =>
      c < |s.links| && AgentAt(s, c, id, Talking) && s.agents[(c, id)].written < |s.agents[(c, id)].inbox|
  }

  // ------------------------------------------------------------------------
  // What the steps do to one stream or one channel

  function OpenedRelay(r: Relay, current: Option<nat>): Relay {
    if current.Some? then r.(phase := Pumping, home := current) else r.(phase := Gone, open := false)
  }

  function ReadRelay(r: Relay, data: Bytes, sent: bool): Relay {
    if sent then r.(read := r.read + [data], told := |r.read| + 1)
    else r.(read := r.read + [data], phase := Closing)
  }

  /** The client's end of a stream when it hears `m` on its channel; None for
      a stream it never heard of. */
  function HearingAgent(a: Option<Agent>, m: Message): Option<Agent> {
    match m
    case Open(_) => Some(Agent(Dialing, [], 0, false, [], 0, true))
    case Data(_, data) =>
      if a.Some? && a.value.open then Some(a.value.(inbox := a.value.inbox + [data])) else a
    case Close(_) => if a.Some? then Some(a.value.(open := false)) else a
  }

  function HearingRelay(r: Relay, m: Message): Relay {
    match m
    case Open(_) => r
    case Data(_, data) => if r.open then r.(inbox := r.inbox + [data]) else r
    case Close(_) => r.(open := false)
  }

  function DialedAgent(a: Agent, ok: bool, clientUp: bool): Agent {
    if ok then a.(phase := Talking) else a.(phase := Finished, closed := clientUp)
  }

  function ReadAgent(a: Agent, data: Bytes, clientUp: bool): Agent {
    if clientUp then a.(read := a.read + [data], told := |a.read| + 1)
    else a.(read := a.read + [data], phase := Finished)
  }

  // ------------------------------------------------------------------------
  // Steps

  function Say(s: State, m: Message): State
    requires Shaped(s)
  {
    if s.current.Some? then s.(downs := s.downs[s.current.value := s.downs[s.current.value] + [m]]) else s
  }

  function SayUp(s: State, c: nat, m: Message): State
    requires Shaped(s) && c < |s.ups|
  {
    if s.links[c].clientUp then s.(ups := s.ups[c := s.ups[c] + [m]]) else s
  }

  function WithRelay(s: State, id: nat, r: Relay): State { s.(relays := s.relays[id := r]) }

  function WithAgent(s: State, c: nat, id: nat, a: Agent): State { s.(agents := s.agents[(c, id) := a]) }

  function WithLink(s: State, c: nat, l: Link): State
    requires c < |s.links|
  {
    s.(links := s.links[c := l])
  }

  function Find<K, V>(m: map<K, V>, k: K): Option<V> { if k in m then Some(m[k]) else None }

  /** The client's streams after message `m` on their channel `c`. */
  function Heard(agents: map<(nat, nat), Agent>, c: nat, m: Message): map<(nat, nat), Agent> {
    match HearingAgent(Find(agents, (c, m.id)), m)
    case None => agents
    case Some(a) => agents[(c, m.id) := a]
  }

  function ClientTakesStep(s: State, c: nat): State
    requires Shaped(s) && Can(s, ClientTakes(c))
  {
    var l := s.links[c];
    s.(links := s.links[c := l.(got := l.got + 1)], agents := Heard(s.agents, c, s.downs[c][l.got]))
  }

  /** The server's streams after message `m` on any channel. */
  function Delivered(relays: map<nat, Relay>, m: Message): map<nat, Relay> {
    if m.id in relays then relays[m.id := HearingRelay(relays[m.id], m)] else relays
  }

  function ServerTakesStep(s: State, c: nat): State
    requires Shaped(s) && Can(s, ServerTakes(c))
  {
    var l := s.links[c];
    s.(links := s.links[c := l.(upGot := l.upGot + 1)], relays := Delivered(s.relays, s.ups[c][l.upGot]))
  }

  function AttachStep(s: State): State {
    s.(current := Some(|s.downs|), downs := s.downs + [[]], ups := s.ups + [[]],
       links := s.links + [Link(0, 0, 0, 0, true, true, true)])
  }

  function DetachStep(s: State, c: nat): State
    requires c < |s.links|
  {
    WithLink(s, c, s.links[c].(attached := false))
    .(current := if s.current == Some(c) then None else s.current)
  }

  function Step(s: State, l: Label): State
    requires Shaped(s) && Can(s, l)
  {
    match l
    case Attach => AttachStep(s)
    case Forward(c) => WithLink(s, c, s.links[c].(sent := s.links[c].sent + 1))
    case ServerTakes(c) => ServerTakesStep(s, c)
    case EndServer(c) => WithLink(s, c, s.links[c].(serving := false))
    case Detach(c) => DetachStep(s, c)
    case Accept =>
      WithRelay(s, s.nextId, Relay(Registered, None, [], 0, false, [], 0, true)).(nextId := s.nextId + 1)
    case SendOpen(id) => WithRelay(Say(s, Open(id)), id, OpenedRelay(s.relays[id], s.current))
    case Read(id, data) =>
      WithRelay(Say(s, Data(id, data)), id, ReadRelay(s.relays[id], data, s.current.Some?))
    case Stop(id) => WithRelay(s, id, s.relays[id].(phase := Closing))
    case SeesClosed(id) => WithRelay(s, id, s.relays[id].(phase := Closing))
    case Write(id) => WithRelay(s, id, s.relays[id].(written := s.relays[id].written + 1))
    case Deregister(id) => WithRelay(s, id, s.relays[id].(phase := Removed, open := false))
    case SendClose(id) =>
      WithRelay(Say(s, Close(id)), id, s.relays[id].(phase := Gone, closed := s.current.Some?))
    case ClientTakes(c) => ClientTakesStep(s, c)
    case ClientForward(c) => WithLink(s, c, s.links[c].(upSent := s.links[c].upSent + 1))
    case EndClient(c) => WithLink(s, c, s.links[c].(clientUp := false))
    case Dial(c, id, ok) =>
      WithAgent(if ok then s else SayUp(s, c, Close(id)), c, id,
                DialedAgent(s.agents[(c, id)], ok, s.links[c].clientUp))
    case AgentReads(c, id, data) =>
      WithAgent(SayUp(s, c, Data(id, data)), c, id,
                ReadAgent(s.agents[(c, id)], data, s.links[c].clientUp))
    case AgentStops(c, id) =>
      WithAgent(SayUp(s, c, Close(id)), c, id,
                s.agents[(c, id)].(phase := Finished, closed := s.links[c].clientUp))
    case AgentSeesClosed(c, id) => WithAgent(s, c, id, s.agents[(c, id)].(phase := Finished))
    case AgentWrites(c, id) =>
      WithAgent(s, c, id, s.agents[(c, id)].(written := s.agents[(c, id)].written + 1))
  }

  ghost predicate Next(s: State, t: State) {
    exists l :: Shaped(s) && Can(s, l) && t == Step(s, l)
  }

  ghost predicate Behavior(run: seq<State>) {
    && run != [] && Init(run[0])
    && forall k :: 0 <= k < |run| - 1 ==> Next(run[k], run[k + 1])
  }

  ghost predicate Reachable(s: State) {
    exists run :: Behavior(run) && run[|run| - 1] == s
  }
}
