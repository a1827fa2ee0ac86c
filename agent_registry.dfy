/** `MultiAgentRegistry`, identical in multi_agent_orchestrator.py and
    multi_agent_orchestrator_aws.py: agents keyed by id, each with a type, a capability list, an
    opaque configuration and the status "active". */
module AgentRegistry {
  import opened Py
  import opened Table

  datatype AgentRecord = AgentRecord(agentType: string, capabilities: seq<string>, config: Json, status: string)

  /** What discovery reports of a matching agent: `{agent_id, agent_type, config}`. */
  datatype DiscoveredAgent = DiscoveredAgent(agentId: string, agentType: string, config: Json)

  function Describe(id: string, a: AgentRecord): DiscoveredAgent {
    DiscoveredAgent(id, a.agentType, a.config)
  }

  /** The agents of `t` whose capability list holds `capability`, in registration order. */
  function Discover(t: OrderedTable<AgentRecord>, capability: string): seq<DiscoveredAgent> {
    Select(t, (a: AgentRecord) => capability in a.capabilities, Describe)
  }

  /** The ids `Discover` reports, in the same order. */
  function DiscoveredIds(t: OrderedTable<AgentRecord>, capability: string): seq<string> {
    SelectedKeys(t.order, t.entries, (a: AgentRecord) => capability in a.capabilities, Describe)
  }

  /** Discovery finds exactly the registered agents holding the capability, reports each with
      its own type and configuration, and lists them in registration order. */
  lemma DiscoverSpec(t: OrderedTable<AgentRecord>, capability: string)
    requires t.Valid()
    ensures var r, ids := Discover(t, capability), DiscoveredIds(t, capability);
      && |ids| == |r|
      && (forall j :: 0 <= j < |r| ==>
            && ids[j] in t.entries
            && capability in t.entries[ids[j]].capabilities
            && r[j] == DiscoveredAgent(ids[j], t.entries[ids[j]].agentType, t.entries[ids[j]].config))
      && (forall id :: id in t.entries && capability in t.entries[id].capabilities ==> id in ids)
      && KeysInOrder(t.order, ids)
  {
    var keep := (a: AgentRecord) => capability in a.capabilities;
    SelectInSound(t.order, t.entries, keep, Describe);
    SelectInOrdered(t.order, t.entries, keep, Describe);
    forall id | id in t.entries && capability in t.entries[id].capabilities
      ensures id in DiscoveredIds(t, capability)
    {
      SelectInComplete(t.order, t.entries, keep, Describe, id);
    }
  }

  /** An unmatched capability gives the empty list, and only then. */
  lemma DiscoverEmpty(t: OrderedTable<AgentRecord>, capability: string)
    requires t.Valid()
    ensures Discover(t, capability) == [] <==>
      forall id :: id in t.entries ==> capability !in t.entries[id].capabilities
  {
    SelectInEmpty(t.order, t.entries, (a: AgentRecord) => capability in a.capabilities, Describe);
  }

  /** Two agents sharing a capability, registered A then B, are discovered A before B; so the
      first-match policy of the orchestrators picks A. */
  lemma DiscoverTieBreak(t: OrderedTable<AgentRecord>, capability: string, a: string, b: string)
    requires t.Valid()
    requires a in t.entries && b in t.entries && a != b
    requires capability in t.entries[a].capabilities && capability in t.entries[b].capabilities
    requires IndexOf(t.order, a) < IndexOf(t.order, b)
    ensures exists i, j :: (0 <= i < j < |Discover(t, capability)| &&
                            Discover(t, capability)[i].agentId == a && Discover(t, capability)[j].agentId == b)
    ensures Discover(t, capability)[0].agentId != b
  {
    DiscoverSpec(t, capability);
    var ids := DiscoveredIds(t, capability);
    var r := Discover(t, capability);
    var i :| 0 <= i < |ids| && ids[i] == a;
    var j :| 0 <= j < |ids| && ids[j] == b;
    assert i < j;
    assert r[i].agentId == a && r[j].agentId == b;
    assert IndexOf(t.order, ids[0]) < IndexOf(t.order, ids[j]);
  }

  class MultiAgentRegistry {
    var agents: OrderedTable<AgentRecord>

    ghost predicate Valid()
      reads this
    {
      agents.Valid()
    }

    constructor ()
      ensures Valid() && agents.order == [] && agents.entries == map[]
    {
      agents := Empty();
    }

    /** `register_agent`: stores `{agent_type, capabilities, config, status: "active"}` under
        `agentId`, overwriting an earlier record in its original position. */
    method RegisterAgent(agentId: string, agentType: string, capabilities: seq<string>, config: Json)
      requires Valid()
      modifies this
      ensures Valid()
      ensures agents == old(agents).Put(agentId, AgentRecord(agentType, capabilities, config, "active"))
      ensures agents.Get(agentId) == Some(AgentRecord(agentType, capabilities, config, "active"))
      ensures forall other :: other != agentId ==> agents.Get(other) == old(agents).Get(other)
    {
      agents := agents.Put(agentId, AgentRecord(agentType, capabilities, config, "active"));
    }

    /** `discover_by_capability`: walks the agents in registration order, collecting matches. */
    method DiscoverByCapability(capability: string) returns (matching: seq<DiscoveredAgent>)
      requires Valid()
      ensures matching == Discover(agents, capability)
    {
      matching := [];
      var i := 0;
      while i < |agents.order|
        invariant 0 <= i <= |agents.order|
        invariant matching == SelectIn(agents.order[..i], agents.entries,
                                       (a: AgentRecord) => capability in a.capabilities, Describe)
      {
        var agentId := agents.order[i];
        var info := agents.entries[agentId];
        if capability in info.capabilities {
          matching := matching + [DiscoveredAgent(agentId, info.agentType, info.config)];
        }
        assert agents.order[..i + 1][..i] == agents.order[..i];
        i := i + 1;
      }
      assert agents.order[..i] == agents.order;
    }

    /** `get_agent`: the record under `agentId`, or None. */
    method GetAgent(agentId: string) returns (r: Option<AgentRecord>)
      ensures r.Some? <==> agentId in agents.entries
      ensures r.Some? ==> r.value == agents.entries[agentId]
    {
      r := if agentId in agents.entries then Some(agents.entries[agentId]) else None;
    }
  }
}
