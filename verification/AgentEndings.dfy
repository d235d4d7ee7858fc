/** The end of a forwarded agent stream reaches the other side. */
module AgentEndings {
  import opened Proto
  import opened AgentHub
  import opened AgentSafety

  predicate NoClose(ms: seq<Message>) {
    forall k :: 0 <= k < |ms| ==> !ms[k].Close?
  }

  /** A relay that is gone has said so, if its channel is still attached. */
  predicate FarewellSaid(s: State) {
    forall id :: id in s.relays && s.relays[id].phase.Gone? && s.relays[id].home.Some? ==>
      (s.relays[id].home == s.current ==> s.relays[id].closed)
  }

  /** A stream that is open at the server was not closed by what was taken. */
  predicate OpenOk(ups: seq<seq<Message>>, links: seq<Link>, id: nat, r: Relay)
    requires |ups| == |links| && forall c :: 0 <= c < |links| ==> links[c].upGot <= |ups[c]|
  {
    r.open && r.home.Some? ==>
      r.home.value < |ups| && NoClose(Project(ups[r.home.value][..links[r.home.value].upGot], id))
  }

  predicate OpensOk(ups: seq<seq<Message>>, links: seq<Link>, relays: map<nat, Relay>)
    requires |ups| == |links| && forall c :: 0 <= c < |links| ==> links[c].upGot <= |ups[c]|
  {
    forall id :: id in relays ==> OpenOk(ups, links, id, relays[id])
  }

  /** An agent connection that ended has said so, unless the program had closed
      the stream before or the channel is down. */
  predicate EndSaid(links: seq<Link>, agents: map<(nat, nat), Agent>) {
    forall k :: k in agents && k.0 < |links| && agents[k].phase.Finished? && agents[k].open && links[k.0].clientUp ==>
                  agents[k].closed
  }

  predicate Endings(s: State)
    requires Shaped(s)
  {
    FarewellSaid(s) && OpensOk(s.ups, s.links, s.relays) && EndSaid(s.links, s.agents)
  }

  // ------------------------------------------------------------------------
  // What the steps keep

  predicate OfAgent(l: Label) {
    l.Dial? || l.AgentReads? || l.AgentStops? || l.AgentSeesClosed? || l.AgentWrites?
  }

  lemma AttachKeepsFarewell(s: State)
    requires Inv(s) && FarewellSaid(s)
    ensures FarewellSaid(AttachStep(s))
  {
    forall id | id in s.relays && s.relays[id].home.Some?
      ensures s.relays[id].home.value < |s.downs|
    {
      assert HomeOk(s.downs, id, s.relays[id]);
    }
  }

  lemma StepKeepsFarewell(s: State, l: Label)
    requires Inv(s) && FarewellSaid(s) && Can(s, l)
    ensures FarewellSaid(Step(s, l))
  {
    if l.Attach? {
      AttachKeepsFarewell(s);
    } else if OfChannel(l) {
      ChannelFarewell(s, l);
    } else if OfAgent(l) {
      AgentFarewell(s, l);
    } else {
      RelayFarewell(s, l);
    }
  }

  lemma ChannelFarewell(s: State, l: Label)
    requires Shaped(s) && FarewellSaid(s) && Can(s, l) && OfChannel(l) && !l.Attach?
    ensures FarewellSaid(Step(s, l))
  {
  }

  lemma AgentFarewell(s: State, l: Label)
    requires Shaped(s) && FarewellSaid(s) && Can(s, l) && OfAgent(l)
    ensures FarewellSaid(Step(s, l))
  {
  }

  lemma RelayFarewell(s: State, l: Label)
    requires Basics(s) && FarewellSaid(s) && Can(s, l)
    requires OfRelay(l)
    ensures FarewellSaid(Step(s, l))
  {
  }

  // The server's side of what the agent said

  lemma OpenAfterTake(up: seq<Message>, k: nat, id: nat, r: Relay)
    requires k < |up| && (r.open ==> NoClose(Project(up[..k], id)))
    ensures var r' := if id == up[k].id then HearingRelay(r, up[k]) else r;
            r'.open ==> NoClose(Project(up[..k + 1], id))
  {
    ProjectNext(up, k, id);
  }

  lemma TakeKeepsOpens(s: State, c: nat)
    requires Shaped(s) && Can(s, ServerTakes(c)) && OpensOk(s.ups, s.links, s.relays)
    ensures var t := ServerTakesStep(s, c);
            |t.ups| == |t.links| && (forall c :: 0 <= c < |t.links| ==> t.links[c].upGot <= |t.ups[c]|)
            && OpensOk(t.ups, t.links, t.relays)
  {
    var t, k := ServerTakesStep(s, c), s.links[c].upGot;
    forall id | id in t.relays ensures OpenOk(t.ups, t.links, id, t.relays[id]) {
      assert OpenOk(s.ups, s.links, id, s.relays[id]);
      if s.relays[id].home == Some(c) {
        OpenAfterTake(s.ups[c], k, id, s.relays[id]);
      }
    }
  }

  /** More may have been said, but nothing more was taken. */
  ghost predicate SameTaken(s: State, t: State)
    requires Shaped(s) && Shaped(t)
  {
    && |s.ups| <= |t.ups|
    && forall c :: 0 <= c < |s.ups| ==> t.ups[c][..t.links[c].upGot] == s.ups[c][..s.links[c].upGot]
  }

  ghost predicate NoNewOpens(s: State, t: State) {
    forall id :: id in t.relays && t.relays[id].open && t.relays[id].home.Some? ==>
      id in s.relays && s.relays[id].open && s.relays[id].home == t.relays[id].home
  }

  lemma OpensStay(s: State, t: State)
    requires Shaped(s) && Shaped(t) && SameTaken(s, t) && NoNewOpens(s, t) && OpensOk(s.ups, s.links, s.relays)
    ensures OpensOk(t.ups, t.links, t.relays)
  {
    forall id | id in t.relays ensures OpenOk(t.ups, t.links, id, t.relays[id]) {
      if t.relays[id].open && t.relays[id].home.Some? {
        assert OpenOk(s.ups, s.links, id, s.relays[id]);
      }
    }
  }

  /** Nothing came back yet for a stream that was not announced. */
  lemma UnannouncedIsSilent(s: State, c: nat, id: nat)
    requires Inv(s) && c < |s.ups| && Home(s.relays, id) != Some(c)
    ensures NoClose(Project(s.ups[c][..s.links[c].upGot], id))
  {
    if (c, id) in s.agents { AgentIsAtHome(s, c, id); }
    assert Project(s.ups[c], id) == SaidOf(s.agents, (c, id));
    ProjectPrefix(s.ups[c], s.links[c].upGot, id);
  }

  lemma SendOpenKeepsOpens(s: State, id: nat)
    requires Inv(s) && Can(s, SendOpen(id)) && OpensOk(s.ups, s.links, s.relays)
    ensures var t := Step(s, SendOpen(id)); Shaped(t) && OpensOk(t.ups, t.links, t.relays)
  {
    var t := Step(s, SendOpen(id));
    if s.current.Some? { UnannouncedIsSilent(s, s.current.value, id); }
    forall i | i in t.relays ensures OpenOk(t.ups, t.links, i, t.relays[i]) {
      if i != id { assert OpenOk(s.ups, s.links, i, s.relays[i]); }
    }
  }

  lemma ChannelTaken(s: State, l: Label)
    requires Shaped(s) && Can(s, l) && OfChannel(l) && !l.ServerTakes?
    ensures Shaped(Step(s, l)) && SameTaken(s, Step(s, l)) && NoNewOpens(s, Step(s, l))
  {
  }

  lemma SayUpTaken(s: State, c: nat, m: Message)
    requires Shaped(s) && c < |s.ups|
    ensures Shaped(SayUp(s, c, m)) && SameTaken(s, SayUp(s, c, m))
  {
    var t := SayUp(s, c, m);
    forall d | 0 <= d < |s.ups| ensures t.ups[d][..t.links[d].upGot] == s.ups[d][..s.links[d].upGot] {
      assert LinkOk(s.links[d], |s.downs[d]|, |s.ups[d]|);
    }
  }

  lemma AgentTaken(s: State, l: Label)
    requires Basics(s) && Can(s, l) && OfAgent(l)
    ensures Shaped(Step(s, l)) && SameTaken(s, Step(s, l)) && Step(s, l).relays == s.relays
  {
    if l.Dial? && !l.ok {
      SayUpTaken(s, l.c, Close(l.id));
    } else if l.AgentReads? {
      SayUpTaken(s, l.c, Data(l.id, l.data));
    } else if l.AgentStops? {
      SayUpTaken(s, l.c, Close(l.id));
    }
  }

  predicate OfRelay(l: Label) { l.Accept? || l.SendOpen? || l.Read? || l.SendClose? || OfQuietRelay(l) }

  lemma RelayLeaves(s: State, l: Label)
    requires Shaped(s) && Can(s, l) && OfRelay(l)
    ensures var t := Step(s, l); t.ups == s.ups && t.links == s.links && t.agents == s.agents
  {
  }

  lemma OneRelayOpens(s: State, t: State, id: nat, r: Relay)
    requires id in s.relays && t.relays == s.relays[id := r]
    requires r.open && r.home.Some? ==> s.relays[id].open && s.relays[id].home == r.home
    ensures NoNewOpens(s, t)
  {
  }

  lemma RelayOpens(s: State, l: Label)
    requires Basics(s) && Can(s, l) && OfRelay(l) && !l.SendOpen?
    ensures NoNewOpens(s, Step(s, l))
  {
    if !l.Accept? {
      OneRelayOpens(s, Step(s, l), l.id, Step(s, l).relays[l.id]);
    }
  }

  lemma StepKeepsOpens(s: State, l: Label)
    requires Inv(s) && Can(s, l) && OpensOk(s.ups, s.links, s.relays)
    ensures var t := Step(s, l); Shaped(t) && OpensOk(t.ups, t.links, t.relays)
  {
    StepKeepsInv(s, l);
    if l.ServerTakes? {
      TakeKeepsOpens(s, l.c);
    } else if l.SendOpen? {
      SendOpenKeepsOpens(s, l.id);
    } else {
      if OfChannel(l) { ChannelTaken(s, l); } else if OfAgent(l) { AgentTaken(s, l); } else {
        RelayLeaves(s, l);
        RelayOpens(s, l);
      }
      OpensStay(s, Step(s, l));
    }
  }

  // The client's side

  lemma TakeKeepsEnds(s: State, c: nat)
    requires Shaped(s) && Can(s, ClientTakes(c)) && EndSaid(s.links, s.agents)
    ensures var t := ClientTakesStep(s, c); EndSaid(t.links, t.agents)
  {
  }

  lemma ChannelKeepsEnds(s: State, l: Label)
    requires Basics(s) && Can(s, l) && OfChannel(l) && !l.ClientTakes? && EndSaid(s.links, s.agents)
    ensures EndSaid(Step(s, l).links, Step(s, l).agents)
  {
  }

  lemma AgentKeepsEnds(s: State, l: Label)
    requires Basics(s) && Can(s, l) && OfAgent(l) && EndSaid(s.links, s.agents)
    ensures EndSaid(Step(s, l).links, Step(s, l).agents)
  {
  }

  lemma StepKeepsEndings(s: State, l: Label)
    requires Inv(s) && Endings(s) && Can(s, l)
    ensures Shaped(Step(s, l)) && Endings(Step(s, l))
  {
    StepKeepsFarewell(s, l);
    StepKeepsOpens(s, l);
    if l.ClientTakes? {
      TakeKeepsEnds(s, l.c);
    } else if OfChannel(l) {
      ChannelKeepsEnds(s, l);
    } else if OfAgent(l) {
      AgentKeepsEnds(s, l);
    } else {
      RelayLeaves(s, l);
    }
  }

  lemma {:induction false} BehaviorKeepsEndings(run: seq<State>, k: nat)
    requires Behavior(run) && k < |run|
    ensures Inv(run[k]) && Endings(run[k])
  {
    if k > 0 {
      BehaviorKeepsEndings(run, k - 1);
      assert Next(run[k - 1], run[k - 1 + 1]);
      var l :| Shaped(run[k - 1]) && Can(run[k - 1], l) && run[k] == Step(run[k - 1], l);
      StepKeepsInv(run[k - 1], l);
      StepKeepsEndings(run[k - 1], l);
    }
  }

  lemma ReachableEndings(s: State)
    requires Reachable(s)
    ensures Inv(s) && Endings(s)
  {
    var run :| Behavior(run) && run[|run| - 1] == s;
    BehaviorKeepsEndings(run, |run| - 1);
  }

  // ------------------------------------------------------------------------
  // The ends arrive

  /** When a program's stream is gone and its channel is attached and drained,
      the client has been told: its stream is closed, and it was given all that
      was passed on. */
  lemma ProgramsEndArrives(s: State, c: nat, id: nat)
    requires Reachable(s) && id in s.relays && s.relays[id].phase.Gone?
    requires s.relays[id].home == Some(c) && s.current == Some(c) && c < |s.links| == |s.downs| && s.links[c].got == |s.downs[c]|
    ensures (c, id) in s.agents && !s.agents[(c, id)].open
    ensures s.relays[id].told <= |s.relays[id].read|
    ensures s.agents[(c, id)].inbox == s.relays[id].read[..s.relays[id].told]
  {
    ReachableEndings(s);
    var r, down := s.relays[id], s.downs[c];
    assert HomeOk(s.downs, id, r);
    assert down[..|down|] == down;
    HearEmission(id, r, Emitted(id, r));
    assert EarOf(Find(s.agents, (c, id))) == Hear(Project(down[..s.links[c].got], id));
  }

  /** When an agent connection has ended before its program did and its channel
      is up and drained, the server's stream is closed. */
  lemma AgentsEndArrives(s: State, c: nat, id: nat)
    requires Reachable(s) && (c, id) in s.agents && s.agents[(c, id)].phase.Finished? && s.agents[(c, id)].open
    requires c < |s.links| == |s.ups| && s.links[c].clientUp && s.links[c].upGot == |s.ups[c]|
    ensures id in s.relays && !s.relays[id].open
  {
    ReachableEndings(s);
    AgentIsAtHome(s, c, id);
    var a, up := s.agents[(c, id)], s.ups[c];
    assert Project(up, id) == Said(id, a);
    assert up[..|up|] == up;
    assert Said(id, a)[a.told] == Close(id);
    assert OpenOk(s.ups, s.links, id, s.relays[id]);
  }
}
