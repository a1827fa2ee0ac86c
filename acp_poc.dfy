/** The orchestration endpoints of acp_poc.py.  `/orchestrate` picks one capability from the
    words of a request's `task` and calls the first agent registered for it; `/orchestrate-multi` runs
    a customer-processing agent and then a data-validation agent through the shared fail-fast
    executor.  The registry is the server's `ACPRegistry` table, the webhooks' replies are
    the parameter `n8n(url, payload)`, and a Python exception that escapes a handler (Flask
    then answers HTTP 500) is a `Raised` outcome. */
module AcpServer {
  import opened Py
  import opened Table
  import opened AcpRegistry
  import opened Pipeline
  import opened Webhook

  /** An HTTP status and the JSON body sent with it. */
  datatype Response = Response(status: int, body: Json)

  /** The keyword-to-capability map, in its insertion order. */
  const CapabilityMap: seq<(string, string)> :=
    [("customer", "customer_processing"),
     ("data", "data_analysis"),
     ("process", "data_processing"),
     ("invoice", "invoice_processing")]

  /** Whether the map's i-th keyword, lower-cased, occurs in the lower-cased task. */
  predicate Mentions(i: nat, text: string)
    requires i < |CapabilityMap|
  {
    IsInfix(Lower(CapabilityMap[i].0), text)
  }

  /** The position of the first keyword the lower-cased task mentions, or the map's length
      when it mentions none. */
  function FirstMention(text: string, from: nat): (i: nat)
    requires from <= |CapabilityMap|
    ensures from <= i <= |CapabilityMap|
    ensures forall j :: from <= j < i ==> !Mentions(j, text)
    ensures i < |CapabilityMap| ==> Mentions(i, text)
    decreases |CapabilityMap| - from
  {
    if from == |CapabilityMap| then from
    else if Mentions(from, text) then from
    else FirstMention(text, from + 1)
  }

  /** The capability a task requires: that of the first keyword, in map order, which its
      lower-cased text contains. */
  function RequiredCapability(task: string): Option<string> {
    var i := FirstMention(Lower(task), 0);
    if i < |CapabilityMap| then Some(CapabilityMap[i].1) else None
  }

  /** A capability is required exactly when the `task` text mentions some keyword; it is the
      capability of a mentioned keyword, and no earlier keyword is mentioned. */
  lemma RequiredCapabilitySpec(task: string)
    ensures RequiredCapability(task).None? <==> forall j :: 0 <= j < |CapabilityMap| ==> !Mentions(j, Lower(task))
    ensures RequiredCapability(task).Some? ==>
      exists i :: 0 <= i < |CapabilityMap| && Mentions(i, Lower(task)) && CapabilityMap[i].1 == RequiredCapability(task).value
        && forall j :: 0 <= j < i ==> !Mentions(j, Lower(task))
  {
    var i := FirstMention(Lower(task), 0);
    if i < |CapabilityMap| {
      assert Mentions(i, Lower(task)) && CapabilityMap[i].1 == RequiredCapability(task).value;
    }
  }

  /** The loop over the map in `orchestrate_task`: it stops at the first keyword the
      lower-cased task contains. */
  method DetermineCapability(task: string) returns (required: Option<string>)
    ensures required == RequiredCapability(task)
  {
    var text := Lower(task);
    required := None;
    var i := 0;
    while i < |CapabilityMap|
      invariant 0 <= i <= |CapabilityMap|
      invariant FirstMention(text, i) == FirstMention(text, 0)
      decreases |CapabilityMap| - i
    {
      var (keyword, capability) := CapabilityMap[i];
      if IsInfix(Lower(keyword), text) {
        required := Some(capability);
        break;
      }
      i := i + 1;
    }
  }

  const NoCapability: string := "Could not determine required capability from task"

  /** The answer of `/orchestrate` once the `task` text and the required capability are known:
      400 without a capability, 404 when no agent holds it, otherwise the first agent's
      answer to that `task`, with status 200. */
  function TaskResponse(t: OrderedTable<AcpRecord>, task: string, data: Json, required: Option<string>,
                        n8n: (Json, Json) -> HttpReply, decode: string -> Option<Json>): (r: Response)
    ensures r.status == 400 <==> required.None?
    ensures r.status == 404 <==> required.Some? && Discover(t, required.value) == []
    ensures r.status == 400 ==> r.body == ErrorObj(NoCapability)
    ensures r.status == 404 ==> r.body == ErrorObj("No agent found with capability: " + required.value)
    ensures r.status == 200 || r.status == 400 || r.status == 404
  {
    match required
    case None => Response(400, ErrorObj(NoCapability))
    case Some(capability) =>
      var agents := Discover(t, capability);
      if agents == [] then Response(404, ErrorObj("No agent found with capability: " + capability))
      else
        var agent := agents[0];
        var result := CallAcpAgent(n8n(agent.webhookUrl, AcpPayload(task, data)), decode);
        Response(200, TaskBody(task, agent.agentId, capability, result))
  }

  function TaskBody(task: string, agentId: string, capability: string, result: Json): Json {
    JObject([("status", JStr("completed")), ("task", JStr(task)), ("agent_used", JStr(agentId)),
             ("capability", JStr(capability)), ("result", result)])
  }

  /** A served task names the first agent discovered for its capability and carries that
      agent's answer to that `task`: only that agent is called. */
  lemma TaskServed(t: OrderedTable<AcpRecord>, task: string, data: Json, capability: string,
                   n8n: (Json, Json) -> HttpReply, decode: string -> Option<Json>)
    requires Discover(t, capability) != []
    ensures var agent := Discover(t, capability)[0];
      TaskResponse(t, task, data, Some(capability), n8n, decode)
        == Response(200, TaskBody(task, agent.agentId, capability,
                                  CallAcpAgent(n8n(agent.webhookUrl, AcpPayload(task, data)), decode)))
  {
  }

  /** The body of a served task reports the agent used... */
  lemma TaskAgentUsed(task: string, agentId: string, capability: string, result: Json)
    ensures Lookup(TaskBody(task, agentId, capability, result).fields, "agent_used") == Some(JStr(agentId))
  {
    LookupAt(TaskBody(task, agentId, capability, result).fields, 2);
  }

  /** ...and carries that agent's answer. */
  lemma TaskResult(task: string, agentId: string, capability: string, result: Json)
    ensures Lookup(TaskBody(task, agentId, capability, result).fields, "result") == Some(result)
  {
    LookupAt(TaskBody(task, agentId, capability, result).fields, 4);
  }

  /** `/orchestrate`: reading `task` raises unless the request is a dict, and lower-casing it
      raises unless it is a str; otherwise the answer for the capability that `task` requires. */
  method OrchestrateTask(t: OrderedTable<AcpRecord>, taskData: Json, n8n: (Json, Json) -> HttpReply,
                         decode: string -> Option<Json>) returns (r: Outcome<Response>)
    ensures r.Raised? <==> !taskData.JObject? || !LookupOr(taskData.fields, "task", JStr("")).JStr?
    ensures r.Value? ==>
      var task := LookupOr(taskData.fields, "task", JStr("")).s;
      r.value == TaskResponse(t, task, LookupOr(taskData.fields, "data", JObject([])), RequiredCapability(task), n8n, decode)
  {
    var task := Get(taskData, "task", JStr(""));
    if task.Raised? {
      return Raised(task.reason);
    }
    var data := LookupOr(taskData.fields, "data", JObject([]));
    var text := AsStr(task.value, "lower");
    if text.Raised? {
      return Raised(text.reason);
    }
    var required := DetermineCapability(text.value);
    return Value(TaskResponse(t, text.value, data, required, n8n, decode));
  }

  // ---------------------------------------------------------------------------------------
  // /orchestrate-multi

  const ProcessingCapability: string := "customer_processing"
  const ValidationCapability: string := "data_validation"

  /** The error each step reports when its capability has no agent. */
  const MultiMissing: seq<string> := ["No customer processing agent available", "No validation agent available"]

  /** Step 1: the customer's data goes to the processing agent. */
  function ProcessingStep(data: Json, n8n: (Json, Json) -> HttpReply, decode: string -> Option<Json>,
                          agent: AcpAgent): Outcome<(Json, Json)> {
    var payload := AcpPayload("process customer data", data);
    Value((payload, CallAcpAgent(n8n(agent.webhookUrl, payload), decode)))
  }

  /** What the validator receives: the original data and the processing agent's result. */
  function ValidationData(data: Json, processed: Json): Json {
    JObject([("original_data", data), ("processed_result", processed),
             ("validation_type", JStr("customer_data_compliance"))])
  }

  /** Step 2: the validation agent. */
  function ValidationStep(data: Json, n8n: (Json, Json) -> HttpReply, decode: string -> Option<Json>,
                          agent: AcpAgent, outputs: seq<Json>): Outcome<(Json, Json)> {
    var payload := AcpPayload("validate processed customer data", ValidationData(data, At(outputs, 0)));
    Value((payload, CallAcpAgent(n8n(agent.webhookUrl, payload), decode)))
  }

  function MultiSteps(data: Json, n8n: (Json, Json) -> HttpReply, decode: string -> Option<Json>): (steps: seq<Step<AcpAgent>>)
    ensures |steps| == 2
    ensures steps[0].capability == ProcessingCapability && steps[1].capability == ValidationCapability
  {
    [Step(ProcessingCapability, (a, outs) => ProcessingStep(data, n8n, decode, a)),
     Step(ValidationCapability, (a, outs) => ValidationStep(data, n8n, decode, a, outs))]
  }

  function DiscoverIn(t: OrderedTable<AcpRecord>): string -> seq<AcpAgent> {
    c => Discover(t, c)
  }

  function AgentIdOf(a: AcpAgent): string {
    a.agentId
  }

  function ExecuteMulti(t: OrderedTable<AcpRecord>, data: Json, n8n: (Json, Json) -> HttpReply,
                        decode: string -> Option<Json>): Exec<AcpAgent> {
    Run(DiscoverIn(t), AgentIdOf, MultiSteps(data, n8n, decode))
  }

  /** `validation_result.get('result', {}).get('approval_status', 'unknown')`: raises unless the
      validator's answer is a dict whose `result` (when present) is a dict. */
  function FinalApproval(validation: Json): (r: Outcome<Json>)
    ensures r.Value? <==> validation.JObject? && LookupOr(validation.fields, "result", JObject([])).JObject?
    ensures r.Value? ==> r.value == LookupOr(LookupOr(validation.fields, "result", JObject([])).fields, "approval_status", JStr("unknown"))
  {
    match Get(validation, "result", JObject([]))
    case Raised(e) => Raised(e)
    case Value(result) => Get(result, "approval_status", JStr("unknown"))
  }

  function MultiReport(task: Json, used: seq<AcpAgent>, outputs: seq<Json>, finalApproval: Json): Json
    requires |used| == 2 && |outputs| == 2
  {
    JObject([("status", JStr("completed")),
             ("task", task),
             ("workflow", JStr("multi_agent_collaboration")),
             ("agents_used", JList([JObject([("agent", JStr(used[0].agentId)), ("role", JStr("data_processor"))]),
                                    JObject([("agent", JStr(used[1].agentId)), ("role", JStr("validator"))])])),
             ("step1_processing", outputs[0]),
             ("step2_validation", outputs[1]),
             ("final_approval", finalApproval)])
  }

  /** How a run is reported.  The handler has no try block: an exception (reading the final
      approval of an answer that is not a dict, say) escapes it. */
  function MultiConclude(task: Json, e: Exec<AcpAgent>): (r: Outcome<Json>)
    requires e.stop.Missing? ==> e.stop.index < 2
    requires e.stop.Finished? ==> |e.used| == 2 && |e.outputs| == 2
    ensures e.stop.Missing? ==> r == Value(ErrorObj(MultiMissing[e.stop.index]))
  {
    match e.stop
    case Missing(i) => Value(ErrorObj(MultiMissing[i]))
    case Crashed(reason) => Raised(reason)
    case Finished =>
      match FinalApproval(e.outputs[1])
      case Raised(reason) => Raised(reason)
      case Value(finalApproval) => Value(MultiReport(task, e.used, e.outputs, finalApproval))
  }

  /** `orchestrate_multi_agent_task` */
  function OrchestrateMulti(t: OrderedTable<AcpRecord>, taskData: Json, n8n: (Json, Json) -> HttpReply,
                            decode: string -> Option<Json>): (r: Outcome<Json>)
    ensures !taskData.JObject? ==> r.Raised?
  {
    match Get(taskData, "task", JStr(""))
    case Raised(e) => Raised(e)
    case Value(task) =>
      var data := LookupOr(taskData.fields, "data", JObject([]));
      RunOutcome(DiscoverIn(t), AgentIdOf, MultiSteps(data, n8n, decode));
      MultiConclude(task, ExecuteMulti(t, data, n8n, decode))
  }

  /** Neither step raises: each builds its payload and catches its own call's failures. */
  lemma MultiStepsRun(t: OrderedTable<AcpRecord>, data: Json, n8n: (Json, Json) -> HttpReply, decode: string -> Option<Json>)
    ensures var steps := MultiSteps(data, n8n, decode);
      forall j, outs :: 0 <= j < 2 && Discover(t, steps[j].capability) != [] ==>
        steps[j].call(Discover(t, steps[j].capability)[0], outs).Value?
  {
  }

  /** Fail-fast: without a processing agent no agent is called and the answer names the
      missing processor; with one but no validation agent, only the processor is called and
      the answer names the missing validator. */
  lemma MultiFailFast(t: OrderedTable<AcpRecord>, taskData: Json, n8n: (Json, Json) -> HttpReply,
                      decode: string -> Option<Json>, k: nat)
    requires taskData.JObject? && k < 2
    requires Discover(t, [ProcessingCapability, ValidationCapability][k]) == []
    requires k == 1 ==> Discover(t, ProcessingCapability) != []
    ensures var e := ExecuteMulti(t, LookupOr(taskData.fields, "data", JObject([])), n8n, decode);
      && OrchestrateMulti(t, taskData, n8n, decode) == Value(ErrorObj(MultiMissing[k]))
      && Invocations(e.trace) == (if k == 0 then [] else [Discover(t, ProcessingCapability)[0].agentId])
  {
    var data := LookupOr(taskData.fields, "data", JObject([]));
    var steps := MultiSteps(data, n8n, decode);
    var e := ExecuteMulti(t, data, n8n, decode);
    MultiStepsRun(t, data, n8n, decode);
    assert forall j :: 0 <= j < 2 ==> steps[j].capability == [ProcessingCapability, ValidationCapability][j];
    FirstMissing(DiscoverIn(t), AgentIdOf, steps, k);
    RunOutcome(DiscoverIn(t), AgentIdOf, steps);
    if k == 1 {
      assert Ids(AgentIdOf, e.used) == [e.used[0].agentId];
    }
  }

  /** With both agents registered, both run: the processor gets the data, the validator gets
      the data with the processor's result, and the first discovered agent of each capability
      is the one called. */
  lemma MultiCompleted(t: OrderedTable<AcpRecord>, data: Json, n8n: (Json, Json) -> HttpReply,
                       decode: string -> Option<Json>)
    requires Discover(t, ProcessingCapability) != [] && Discover(t, ValidationCapability) != []
    ensures var e := ExecuteMulti(t, data, n8n, decode);
      && e.stop.Finished? && |e.used| == 2 && |e.outputs| == 2
      && e.used[0] == Discover(t, ProcessingCapability)[0]
      && e.used[1] == Discover(t, ValidationCapability)[0]
      && e.outputs[0] == CallAcpAgent(n8n(e.used[0].webhookUrl, AcpPayload("process customer data", data)), decode)
      && e.outputs[1] == CallAcpAgent(n8n(e.used[1].webhookUrl, AcpPayload("validate processed customer data",
                                                                          ValidationData(data, e.outputs[0]))), decode)
  {
    var steps := MultiSteps(data, n8n, decode);
    var e := ExecuteMulti(t, data, n8n, decode);
    MultiStepsRun(t, data, n8n, decode);
    RunsToEnd(DiscoverIn(t), AgentIdOf, steps);
    RunOutcome(DiscoverIn(t), AgentIdOf, steps);
    assert steps[0].call(e.used[0], e.outputs[..0]) == ProcessingStep(data, n8n, decode, e.used[0]);
    assert steps[1].call(e.used[1], e.outputs[..1]) == ValidationStep(data, n8n, decode, e.used[1], e.outputs[..1]);
  }

  /** A completed multi-agent run reports the validator's approval status, "unknown" when it
      gives none, and fails when the validator's answer is not a dict (a non-200 reply, which
      this variant turns into None). */
  lemma MultiApproval(t: OrderedTable<AcpRecord>, taskData: Json, n8n: (Json, Json) -> HttpReply,
                      decode: string -> Option<Json>)
    requires taskData.JObject?
    requires Discover(t, ProcessingCapability) != [] && Discover(t, ValidationCapability) != []
    ensures var e := ExecuteMulti(t, LookupOr(taskData.fields, "data", JObject([])), n8n, decode);
      && |e.used| == 2 && |e.outputs| == 2
      && (FinalApproval(e.outputs[1]).Raised? ==> OrchestrateMulti(t, taskData, n8n, decode).Raised?)
      && (FinalApproval(e.outputs[1]).Value? ==>
            OrchestrateMulti(t, taskData, n8n, decode)
              == Value(MultiReport(LookupOr(taskData.fields, "task", JStr("")), e.used, e.outputs, FinalApproval(e.outputs[1]).value)))
  {
    MultiCompleted(t, LookupOr(taskData.fields, "data", JObject([])), n8n, decode);
  }

  /** The report's final approval is the one read from the validator. */
  lemma MultiReportApproval(task: Json, used: seq<AcpAgent>, outputs: seq<Json>, finalApproval: Json)
    requires |used| == 2 && |outputs| == 2
    ensures Lookup(MultiReport(task, used, outputs, finalApproval).fields, "final_approval") == Some(finalApproval)
  {
    var r := MultiReport(task, used, outputs, finalApproval);
    assert r.fields[6] == ("final_approval", finalApproval);
    LookupAt(r.fields, 6);
  }
}
