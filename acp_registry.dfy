/** `ACPRegistry` of acp_poc.py: agents keyed by id, each with a capability list, a webhook
    URL and the status "active"; discovery reports `{agent_id, webhook_url}`. */
module AcpRegistry {
  import opened Py
  import opened Table

  datatype AcpRecord = AcpRecord(capabilities: seq<string>, webhookUrl: Json, status: string)

  datatype AcpAgent = AcpAgent(agentId: string, webhookUrl: Json)

  function Describe(id: string, a: AcpRecord): AcpAgent {
    AcpAgent(id, a.webhookUrl)
  }

  /** The agents of `t` whose capability list holds `capability`, in registration order. */
  function Discover(t: OrderedTable<AcpRecord>, capability: string): seq<AcpAgent> {
    Select(t, (a: AcpRecord) => capability in a.capabilities, Describe)
  }

  function DiscoveredIds(t: OrderedTable<AcpRecord>, capability: string): seq<string> {
    SelectedKeys(t.order, t.entries, (a: AcpRecord) => capability in a.capabilities, Describe)
  }

  /** Discovery finds exactly the registered agents holding the capability, each with its own
      webhook URL, in registration order; it is empty exactly when no agent matches. */
  lemma DiscoverSpec(t: OrderedTable<AcpRecord>, capability: string)
    requires t.Valid()
    ensures var r, ids := Discover(t, capability), DiscoveredIds(t, capability);
      && |ids| == |r|
      && (forall j :: 0 <= j < |r| ==>
            && ids[j] in t.entries
            && capability in t.entries[ids[j]].capabilities
            && r[j] == AcpAgent(ids[j], t.entries[ids[j]].webhookUrl))
      && (forall id :: id in t.entries && capability in t.entries[id].capabilities ==> id in ids)
      && KeysInOrder(t.order, ids)
    ensures Discover(t, capability) == [] <==>
      forall id :: id in t.entries ==> capability !in t.entries[id].capabilities
  {
    var keep := (a: AcpRecord) => capability in a.capabilities;
    SelectInSound(t.order, t.entries, keep, Describe);
    SelectInOrdered(t.order, t.entries, keep, Describe);
    SelectInEmpty(t.order, t.entries, keep, Describe);
    forall id | id in t.entries && capability in t.entries[id].capabilities
      ensures id in DiscoveredIds(t, capability)
    {
      SelectInComplete(t.order, t.entries, keep, Describe, id);
    }
  }

  class ACPRegistry {
    var agents: OrderedTable<AcpRecord>

    ghost predicate Valid()
      reads this
    {
      agents.Valid()
    }

    constructor ()
      ensures Valid() && agents.order == [] && agents.entries == map[]
    {
      agents := Empty();
    }

    /** `register_agent`: stores `{capabilities, webhook_url, status: "active"}` under
        `agentId`, overwriting an earlier record in its original position. */
    method RegisterAgent(agentId: string, capabilities: seq<string>, webhookUrl: Json)
      requires Valid()
      modifies this
      ensures Valid()
      ensures agents == old(agents).Put(agentId, AcpRecord(capabilities, webhookUrl, "active"))
      ensures agents.Get(agentId) == Some(AcpRecord(capabilities, webhookUrl, "active"))
      ensures forall other :: other != agentId ==> agents.Get(other) == old(agents).Get(other)
    {
      agents := agents.Put(agentId, AcpRecord(capabilities, webhookUrl, "active"));
    }

    /** `discover_by_capability` */
    method DiscoverByCapability(capability: string) returns (matching: seq<AcpAgent>)
      requires Valid()
      ensures matching == Discover(agents, capability)
    {
      matching := [];
      var i := 0;
      while i < |agents.order|
        invariant 0 <= i <= |agents.order|
        invariant matching == SelectIn(agents.order[..i], agents.entries,
                                       (a: AcpRecord) => capability in a.capabilities, Describe)
      {
        var agentId := agents.order[i];
        var info := agents.entries[agentId];
        if capability in info.capabilities {
          matching := matching + [AcpAgent(agentId, info.webhookUrl)];
        }
        assert agents.order[..i + 1][..i] == agents.order[..i];
        i := i + 1;
      }
      assert agents.order[..i] == agents.order;
    }
  }
}
