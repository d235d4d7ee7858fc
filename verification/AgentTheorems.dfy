/** What agent forwarding promises, in every state of every run. */
module AgentTheorems {
  import opened Proto
  import opened AgentHub
  import opened AgentSafety

  /** A stream's messages, over all channels together, are the first part of
      one announcement, the chunks read from the program in order, and one
      farewell; an id that was not given out yet is not mentioned. */
  lemma StreamIsInOrder(s: State, id: nat)
    requires Reachable(s)
    ensures id >= s.nextId ==> Told(s.downs, id) == []
    ensures id in s.relays ==>
              exists n :: 0 <= n <= |s.relays[id].read|
                          && Told(s.downs, id) <= [Open(id)] + DataMessages(id, s.relays[id].read[..n]) + [Close(id)]
    ensures id in s.relays && s.relays[id].phase.Pumping? ==>
              Told(s.downs, id) == [Open(id)] + DataMessages(id, s.relays[id].read)
  {
    ReachableInv(s);
    assert Told(s.downs, id) == EmittedOf(s.relays, id);
    if id in s.relays {
      EmittedInOrder(id, s.relays[id]);
    }
  }

  lemma EmittedInOrder(id: nat, r: Relay)
    requires RelayOk(r)
    ensures Emitted(id, r) <= [Open(id)] + DataMessages(id, r.read[..r.told]) + [Close(id)]
    ensures r.phase.Pumping? ==> Emitted(id, r) == [Open(id)] + DataMessages(id, r.read)
  {
    if r.phase.Pumping? {
      assert r.read[..r.told] == r.read;
    }
  }

  /** Ids are never reused: no two announcements carry the same one, whatever
      channels they were made on. */
  lemma AnnouncedOnce(s: State, c: nat, k: nat, d: nat, j: nat)
    requires Reachable(s)
    requires c < |s.downs| && k < |s.downs[c]| && d < |s.downs| && j < |s.downs[d]|
    requires s.downs[c][k].Open? && s.downs[d][j] == s.downs[c][k]
    ensures c == d && k == j
  {
    ReachableInv(s);
    AnnouncedAtHome(s, c, k);
    AnnouncedAtHome(s, d, j);
    if k < j {
      NotAgain(s, c, k, j);
    } else if j < k {
      NotAgain(s, c, j, k);
    }
  }

  lemma AnnouncedAtHome(s: State, c: nat, k: nat)
    requires Inv(s) && c < |s.downs| && k < |s.downs[c]| && s.downs[c][k].Open?
    ensures var id := s.downs[c][k].id; id in s.relays && s.relays[id].home == Some(c)
  {
    var m := s.downs[c][k];
    var place := ProjectAt(s.downs[c], k, m.id);
    assert !NoOpens(Project(s.downs[c], m.id));
  }

  lemma NotAgain(s: State, c: nat, k: nat, j: nat)
    requires Inv(s) && c < |s.downs| && k < j < |s.downs[c]|
    requires s.downs[c][k].Open? && s.downs[c][j].id == s.downs[c][k].id
    ensures !s.downs[c][j].Open?
  {
    var id := s.downs[c][k].id;
    AnnouncedAtHome(s, c, k);
    assert HomeOk(s.downs, id, s.relays[id]);
    LaterIsNoOpen(s.downs[c], id, s.relays[id], k, j);
  }

  lemma LaterIsNoOpen(down: seq<Message>, id: nat, r: Relay, k: nat, j: nat)
    requires r.told <= |r.read| && Project(down, id) <= Emitted(id, r)
    requires k < j < |down| && down[k].id == down[j].id == id
    ensures !down[j].Open?
  {
    var place := ProjectAt(down, j, id);
    var earlier := ProjectAt(down[..j], k, id);
    OnlyFirstOpens(id, r, place);
  }

  /** An id that is given out is new, and stays that of its stream. */
  lemma IdIsNew(s: State)
    requires Reachable(s)
    ensures s.nextId !in s.relays
    ensures forall k :: k in s.agents ==> k.1 in s.relays && s.relays[k.1].home == Some(k.0)
  {
    ReachableInv(s);
    forall k | k in s.agents ensures k.1 in s.relays && s.relays[k.1].home == Some(k.0) {
      AgentIsAtHome(s, k.0, k.1);
    }
  }

  /** What a client hands to its agent on a stream is the first part of what
      the program at the other end of that very stream wrote, and nothing of
      it is missing once an unreplaced channel is drained. */
  lemma AgentHearsItsProgram(s: State, c: nat, id: nat)
    requires Reachable(s) && (c, id) in s.agents
    ensures c < |s.downs| == |s.links|
    ensures id in s.relays && s.agents[(c, id)].inbox <= s.relays[id].read
    ensures c == |s.downs| - 1 && s.links[c].got == |s.downs[c]| && s.relays[id].phase.Pumping? ==>
              s.agents[(c, id)].inbox == s.relays[id].read
  {
    ReachableInv(s);
    AgentIsAtHome(s, c, id);
    HeardFromInv(s, c, id);
  }

  lemma HeardFromInv(s: State, c: nat, id: nat)
    requires Inv(s) && (c, id) in s.agents && Home(s.relays, id) == Some(c)
    ensures s.agents[(c, id)].inbox <= s.relays[id].read
    ensures c == |s.downs| - 1 && s.links[c].got == |s.downs[c]| && s.relays[id].phase.Pumping? ==>
              s.agents[(c, id)].inbox == s.relays[id].read
  {
    var r, got := s.relays[id], s.links[c].got;
    assert EarOf(Find(s.agents, (c, id))) == Hear(Project(s.downs[c][..got], id));
    assert HomeOk(s.downs, id, r);
    HeardIsRead(s.downs[c], got, id, r);
  }

  lemma HeardIsRead(down: seq<Message>, got: nat, id: nat, r: Relay)
    requires RelayOk(r) && got <= |down| && Project(down, id) <= Emitted(id, r)
    requires Hear(Project(down[..got], id)).known
    ensures Hear(Project(down[..got], id)).heard <= r.read
    ensures got == |down| && r.phase.Pumping? && Project(down, id) == Emitted(id, r) ==>
              Hear(Project(down[..got], id)).heard == r.read
  {
    var heard := Project(down[..got], id);
    ProjectPrefix(down, got, id);
    assert heard != [];
    HearEmission(id, r, heard);
    if got == |down| && r.phase.Pumping? && Project(down, id) == Emitted(id, r) {
      assert down[..got] == down;
      assert |Emitted(id, r)| == 1 + |r.read|;
    }
  }

  /** What a program gets back on a stream is the first part of what the agent
      said on that very stream, and nothing of it is missing while the stream
      is open and its channel drained. */
  lemma ProgramHearsItsAgent(s: State, id: nat)
    requires Reachable(s) && id in s.relays && s.relays[id].inbox != []
    ensures var r := s.relays[id];
            && r.home.Some? && r.home.value < |s.ups| == |s.links|
            && (r.home.value, id) in s.agents
            && r.inbox <= s.agents[(r.home.value, id)].read
            && (r.open && s.links[r.home.value].upGot == |s.ups[r.home.value]|
                && s.agents[(r.home.value, id)].phase.Talking? ==>
                  r.inbox == s.agents[(r.home.value, id)].read)
  {
    ReachableInv(s);
    AnsweredFromInv(s, id);
  }

  lemma AnsweredFromInv(s: State, id: nat)
    requires Inv(s) && id in s.relays && s.relays[id].inbox != []
    ensures var r := s.relays[id];
            && r.home.Some? && r.home.value < |s.ups|
            && (r.home.value, id) in s.agents
            && r.inbox <= s.agents[(r.home.value, id)].read
            && (r.open && s.links[r.home.value].upGot == |s.ups[r.home.value]|
                && s.agents[(r.home.value, id)].phase.Talking? ==>
                  r.inbox == s.agents[(r.home.value, id)].read)
  {
    var r := s.relays[id];
    assert InboxOk(s.ups, s.links, id, r);
    var c := r.home.value;
    var upGot := s.links[c].upGot;
    ProjectPrefix(s.ups[c], upGot, id);
    assert Project(s.ups[c], id) == SaidOf(s.agents, (c, id));
    assert Project(s.ups[c], id) != [];
    TakenIsSaid(s.ups[c], upGot, id, s.agents[(c, id)]);
  }

  lemma TakenIsSaid(up: seq<Message>, upGot: nat, id: nat, a: Agent)
    requires AgentOk(a) && upGot <= |up| && Project(up, id) == Said(id, a)
    ensures Payload(Project(up[..upGot], id)) <= a.read
    ensures upGot == |up| && a.phase.Talking? ==> Payload(Project(up[..upGot], id)) == a.read
  {
    var taken := Project(up[..upGot], id);
    ProjectPrefix(up, upGot, id);
    PayloadOfSaid(id, a);
    PayloadPrefix(Said(id, a), |taken|);
    assert Said(id, a)[..|taken|] == taken;
    if upGot == |up| && a.phase.Talking? {
      assert up[..upGot] == up;
      assert a.read[..a.told] == a.read;
    }
  }

  lemma PayloadOfSaid(id: nat, a: Agent)
    requires a.told <= |a.read|
    ensures Payload(Said(id, a)) == a.read[..a.told]
  {
    var messages := DataMessages(id, a.read[..a.told]);
    PayloadOfData(id, a.read[..a.told]);
    if a.closed {
      assert Said(id, a) == messages + [Close(id)];
      PayloadMore(messages, Close(id));
    } else {
      assert Said(id, a) == messages;
    }
  }

  /** Requests go to the channel attached last for as long as it has not been
      torn down, and tearing down any other changes nothing about that. */
  lemma TeardownSparesTheNewest(s: State)
    requires Reachable(s)
    ensures |s.links| == |s.downs|
    ensures s.current == if s.links != [] && s.links[|s.links| - 1].attached then Some(|s.links| - 1) else None
    ensures Shaped(s) && forall c :: Can(s, Detach(c)) && c != |s.links| - 1 ==>
                                       Step(s, Detach(c)).current == s.current
  {
    ReachableInv(s);
  }
}
