/** multi_agent_orchestrator.py: the three-agent energy consultation.  An n8n agent processes
    the customer's data, an Azure AI Foundry agent recommends programs, and a second n8n agent
    validates the recommendations.  Each step takes the first agent the registry discovers for
    its capability.

    The remote services are parameters: `n8n(url, payload)` is the webhook's reply, and
    `azure(agentId, consultation)` the outcome of the thread/run exchange with Azure AI
    Foundry. */
module EnergyOrchestrator {
  import opened Py
  import opened Table
  import opened AgentRegistry
  import opened Pipeline
  import opened Webhook
  import opened Recommendations

  // ---------------------------------------------------------------------------------------
  // call_azure_ai_agent

  /** The Azure AI Foundry exchange: no client configured, an exception on the way, or a run
      that ended with a status, in a thread, with the thread's message list. */
  datatype AzureRun = NoClient | RunRaised(reason: string) | Ran(threadId: Json, status: string, messages: Json)

  /** A content item of type `text`. */
  predicate IsTextItem(item: Json) {
    item.JObject? && Lookup(item.fields, "type") == Some(JStr("text"))
  }

  /** `content_item.get("text", {}).get("value", "")` */
  function TextValue(item: Json): Outcome<Json>
    requires item.JObject?
  {
    Get(LookupOr(item.fields, "text", JObject([])), "value", JStr(""))
  }

  /** The position of the first text item of a content list, or its length when it has none. */
  function FirstTextIndex(content: seq<Json>): (k: nat)
    ensures k <= |content|
  {
    if content == [] || IsTextItem(content[0]) then 0
    else 1 + FirstTextIndex(content[1..])
  }

  /** No item before the position is a text item, and the item at it is one. */
  lemma {:induction false} FirstTextIndexSpec(content: seq<Json>)
    ensures var k := FirstTextIndex(content);
      && (forall j :: 0 <= j < k ==> !IsTextItem(content[j]))
      && (k < |content| ==> IsTextItem(content[k]))
  {
    if content != [] && !IsTextItem(content[0]) {
      FirstTextIndexSpec(content[1..]);
      var k := FirstTextIndex(content);
      forall j | 1 <= j < k
        ensures !IsTextItem(content[j])
      {
        assert content[j] == content[1..][j - 1];
      }
    }
  }

  /** The value of the first text item of a content list; reading an item that is not a dict
      raises.  When nothing raises, a value is found exactly when the list has a text item, and
      it is that item's. */
  function FirstTextItem(content: seq<Json>): (r: Outcome<Option<Json>>)
    ensures r.Value? ==> (r.value.Some? <==> FirstTextIndex(content) < |content|)
    ensures r.Value? && r.value.Some? ==>
      content[FirstTextIndex(content)].JObject? && TextValue(content[FirstTextIndex(content)]) == Value(r.value.value)
  {
    if content == [] then Value(None)
    else
      match Get(content[0], "type", JNull)
      case Raised(e) => Raised(e)
      case Value(kind) =>
        if kind == JStr("text") then
          match TextValue(content[0])
          case Raised(e) => Raised(e)
          case Value(v) => Value(Some(v))
        else
          FirstTextItem(content[1..])
  }

  /** A message with role `assistant` whose content iterates to items holding a text item. */
  predicate HasAssistantText(message: Json) {
    && message.JObject?
    && LookupOr(message.fields, "role", JNull) == JStr("assistant")
    && var items := Iterate(LookupOr(message.fields, "content", JList([])));
       items.Value? && FirstTextIndex(items.value) < |items.value|
  }

  /** The position of the first message with assistant text, or the number of messages. */
  function FirstAssistantIndex(messages: seq<Json>): (k: nat)
    ensures k <= |messages|
  {
    if messages == [] || HasAssistantText(messages[0]) then 0
    else 1 + FirstAssistantIndex(messages[1..])
  }

  /** No message before the position has assistant text, and the message at it has. */
  lemma {:induction false} FirstAssistantIndexSpec(messages: seq<Json>)
    ensures var k := FirstAssistantIndex(messages);
      && (forall i :: 0 <= i < k ==> !HasAssistantText(messages[i]))
      && (k < |messages| ==> HasAssistantText(messages[k]))
  {
    if messages != [] && !HasAssistantText(messages[0]) {
      FirstAssistantIndexSpec(messages[1..]);
      var k := FirstAssistantIndex(messages);
      forall i | 1 <= i < k
        ensures !HasAssistantText(messages[i])
      {
        assert messages[i] == messages[1..][i - 1];
      }
    }
  }

  /** The text of the first assistant message that has a text item: when nothing raises, a
      text is found exactly when some message has assistant text, and it is the first such
      message's first text item. */
  function FirstAssistantText(messages: seq<Json>): (r: Outcome<Option<Json>>)
    ensures r.Value? ==> (r.value.Some? <==> FirstAssistantIndex(messages) < |messages|)
    ensures r.Value? && r.value.Some? ==>
      var m := messages[FirstAssistantIndex(messages)];
      && m.JObject? && Iterate(LookupOr(m.fields, "content", JList([]))).Value?
      && FirstTextItem(Iterate(LookupOr(m.fields, "content", JList([]))).value) == Value(r.value)
  {
    if messages == [] then Value(None)
    else
      match Get(messages[0], "role", JNull)
      case Raised(e) => Raised(e)
      case Value(role) =>
        if role == JStr("assistant") then
          match Iterate(LookupOr(messages[0].fields, "content", JList([])))
          case Raised(e) => Raised(e)
          case Value(items) =>
            match FirstTextItem(items)
            case Raised(e) => Raised(e)
            case Value(found) =>
              if found.Some? then Value(found)
              else FirstAssistantText(messages[1..])
        else
          FirstAssistantText(messages[1..])
  }

  /** `messages.get("data", [])`, searched for the assistant's text. */
  function AssistantText(messages: Json): Outcome<Option<Json>> {
    match Get(messages, "data", JList([]))
    case Raised(e) => Raised(e)
    case Value(data) =>
      match Iterate(data)
      case Raised(e) => Raised(e)
      case Value(items) => FirstAssistantText(items)
  }

  const AzurePrefix: string := "Failed to call Azure AI agent: "

  /** The consultation result built from the assistant's text. */
  function Consultation(text: string, threadId: Json): (r: Json)
    ensures !IsError(r)
  {
    var r := JObject([("consultation_response", JStr(text)),
                      ("recommendations", ToJson(Recs(StrippedLines(text)))),
                      ("thread_id", threadId),
                      ("agent_status", JStr("completed"))]);
    NoErrorKey(r.fields);
    r
  }

  /** The assistant's text of a completed run, when there is one and it is a str. */
  function CompletedText(run: AzureRun): Option<string> {
    if run.Ran? && run.status == "completed" then
      match AssistantText(run.messages)
      case Value(Some(JStr(s))) => Some(s)
      case _ => None
    else None
  }

  /** `call_azure_ai_agent`: a completed run whose thread holds assistant text gives the
      consultation with the parsed recommendations; every other outcome is an error dict. */
  function CallAzureAiAgent(run: AzureRun): (r: Json)
    ensures CompletedText(run).Some? ==> r == Consultation(CompletedText(run).value, run.threadId)
    ensures CompletedText(run).None? ==> IsError(r)
    ensures run.NoClient? ==> r == ErrorObj(AzurePrefix + "Azure AI client not initialized")
    ensures run.Ran? && run.status != "completed" ==>
      r == ErrorObj("Azure AI agent run failed with status: " + run.status)
  {
    match run
    case NoClient => ErrorObj(AzurePrefix + "Azure AI client not initialized")
    case RunRaised(e) => ErrorObj(AzurePrefix + e)
    case Ran(threadId, status, messages) =>
      if status == "completed" then
        match AssistantText(messages)
        case Raised(e) => ErrorObj(AzurePrefix + e)
        case Value(None) => ErrorObj("No assistant response found")
        case Value(Some(text)) =>
          match AsStr(text, "split")
          case Raised(e) => ErrorObj(AzurePrefix + e)
          case Value(s) => Consultation(s, threadId)
      else ErrorObj("Azure AI agent run failed with status: " + status)
  }

  // ---------------------------------------------------------------------------------------
  // orchestrate_three_agent_energy_task

  const CustomerCapability: string := "customer_processing"
  const ConsultationCapability: string := "energy_consultation"
  const ValidationCapability: string := "recommendation_validation"

  /** The error each step reports when its capability has no agent. */
  const MissingMessages: seq<string> :=
    ["No customer processing agent available",
     "No Azure AI energy consultation agent available",
     "No validation agent available"]

  /** Step 1: the customer's data goes to the n8n customer agent's webhook. */
  function CustomerStep(data: Json, n8n: (Json, Json) -> HttpReply, decode: string -> Option<Json>,
                        agent: DiscoveredAgent, outputs: seq<Json>): Outcome<(Json, Json)> {
    match Index(agent.config, "webhook_url")
    case Raised(e) => Raised(e)
    case Value(url) =>
      var payload := N8nPayload("process energy customer inquiry", data);
      Value((payload, CallN8nAgent(n8n(url, payload), decode)))
  }

  /** The request for the consultant: the step-1 result and fields of the original data. */
  function ConsultationData(customerResult: Json, data: seq<(string, Json)>): (c: Json)
    ensures c.JObject? && Lookup(c.fields, "customer_profile") == Some(customerResult)
  {
    JObject([("customer_profile", customerResult),
             ("original_inquiry", LookupOr(data, "inquiry", JStr(""))),
             ("home_type", LookupOr(data, "home_type", JStr(""))),
             ("current_bill", LookupOr(data, "current_bill", JInt(0))),
             ("request_type", JStr("energy_efficiency_consultation"))])
  }

  /** Step 2: the Azure AI consultant; reading the data raises unless it is a dict. */
  function ConsultationStep(data: Json, azure: (Json, Json) -> AzureRun,
                            agent: DiscoveredAgent, outputs: seq<Json>): Outcome<(Json, Json)> {
    match Get(data, "inquiry", JStr(""))
    case Raised(e) => Raised(e)
    case Value(_) =>
      var consultation := ConsultationData(At(outputs, 0), data.fields);
      match Index(agent.config, "agent_id")
      case Raised(e) => Raised(e)
      case Value(agentId) => Value((consultation, CallAzureAiAgent(azure(agentId, consultation))))
  }

  /** What the validator receives: both earlier results and the original data. */
  function ValidationData(customerResult: Json, recommendations: Json, data: Json): (v: Json)
    ensures v.JObject?
    ensures Lookup(v.fields, "customer_data") == Some(customerResult)
    ensures Lookup(v.fields, "ai_recommendations") == Some(recommendations)
    ensures Lookup(v.fields, "original_inquiry") == Some(data)
  {
    var v := JObject([("customer_data", customerResult), ("ai_recommendations", recommendations),
                      ("validation_type", JStr("energy_efficiency_compliance")), ("original_inquiry", data)]);
    assert v.fields[3] == ("original_inquiry", data);
    LookupAt(v.fields, 3);
    v
  }

  /** Step 3: the n8n validation agent. */
  function ValidationStep(data: Json, n8n: (Json, Json) -> HttpReply, decode: string -> Option<Json>,
                          agent: DiscoveredAgent, outputs: seq<Json>): Outcome<(Json, Json)> {
    var validation := ValidationData(At(outputs, 0), At(outputs, 1), data);
    match Index(agent.config, "webhook_url")
    case Raised(e) => Raised(e)
    case Value(url) =>
      var payload := N8nPayload("validate energy efficiency recommendations", validation);
      Value((payload, CallN8nAgent(n8n(url, payload), decode)))
  }

  function Steps(data: Json, n8n: (Json, Json) -> HttpReply, azure: (Json, Json) -> AzureRun,
                 decode: string -> Option<Json>): (steps: seq<Step<DiscoveredAgent>>)
    ensures |steps| == 3
    ensures steps[0].capability == CustomerCapability && steps[1].capability == ConsultationCapability
            && steps[2].capability == ValidationCapability
  {
    [Step(CustomerCapability, (a, outs) => CustomerStep(data, n8n, decode, a, outs)),
     Step(ConsultationCapability, (a, outs) => ConsultationStep(data, azure, a, outs)),
     Step(ValidationCapability, (a, outs) => ValidationStep(data, n8n, decode, a, outs))]
  }

  function DiscoverIn(t: OrderedTable<AgentRecord>): string -> seq<DiscoveredAgent> {
    c => Discover(t, c)
  }

  function AgentIdOf(a: DiscoveredAgent): string {
    a.agentId
  }

  /** The three steps run against the registry. */
  function Execute(t: OrderedTable<AgentRecord>, data: Json, n8n: (Json, Json) -> HttpReply,
                   azure: (Json, Json) -> AzureRun, decode: string -> Option<Json>): Exec<DiscoveredAgent> {
    Run(DiscoverIn(t), AgentIdOf, Steps(data, n8n, azure, decode))
  }

  function AgentUsed(agentId: string, kind: string, role: string): Json {
    JObject([("agent", JStr(agentId)), ("type", JStr(kind)), ("role", JStr(role))])
  }

  /** `{"error": "Orchestration failed: ...", "status": "failed"}` */
  function Failure(reason: string): (r: Json)
    ensures IsError(r)
  {
    JObject([("error", JStr("Orchestration failed: " + reason)), ("status", JStr("failed"))])
  }

  /** The result of a run that went through all three steps; reading the validation result
      raises unless it is a dict. */
  function Completed(task: Json, used: seq<DiscoveredAgent>, outputs: seq<Json>): (r: Json)
    requires |used| == 3 && |outputs| == 3
  {
    var customer, recommendations, validation := outputs[0], outputs[1], outputs[2];
    match Get(validation, "approval_status", JStr("unknown"))
    case Raised(e) => Failure(e)
    case Value(finalStatus) =>
      match Get(recommendations, "recommendations", JList([]))
      case Raised(e) => Failure(e)
      case Value(programs) => Report(task, used, outputs, finalStatus, programs)
  }

  /** The completed report, with the validator's final status and the recommended programs
      already read. */
  function Report(task: Json, used: seq<DiscoveredAgent>, outputs: seq<Json>, finalStatus: Json, programs: Json): Json
    requires |used| == 3 && |outputs| == 3 && outputs[2].JObject?
  {
    var customer, recommendations, validation := outputs[0], outputs[1], outputs[2];
        JObject([
          ("status", JStr("completed")),
          ("task", task),
          ("workflow", JStr("three_agent_energy_consultation")),
          ("agents_used", JList([AgentUsed(used[0].agentId, "n8n", "customer_data_processor"),
                                 AgentUsed(used[1].agentId, "azure_ai", "energy_consultant"),
                                 AgentUsed(used[2].agentId, "n8n", "recommendation_validator")])),
          ("step1_customer_processing", customer),
          ("step2_ai_recommendations", recommendations),
          ("step3_validation", validation),
          ("final_status", finalStatus),
          ("consultation_summary", Summary(customer, programs, validation))])
  }

  /** The consultation summary of a completed run. */
  function Summary(customer: Json, programs: Json, validation: Json): Json
    requires validation.JObject?
  {
    JObject([("customer_profile", customer),
             ("recommended_programs", programs),
             ("validation_passed", LookupOr(validation.fields, "validation_passed", JBool(false))),
             ("estimated_savings", LookupOr(validation.fields, "estimated_savings", JStr("N/A")))])
  }

  /** How a run is reported: the missing step's message, the caught exception, or the
      completed result. */
  function Conclude(task: Json, e: Exec<DiscoveredAgent>): (r: Json)
    requires e.stop.Missing? ==> e.stop.index < 3
    requires e.stop.Finished? ==> |e.used| == 3 && |e.outputs| == 3
    ensures e.stop.Missing? ==> r == ErrorObj(MissingMessages[e.stop.index])
    ensures e.stop.Crashed? ==> r == Failure(e.stop.reason)
    ensures !e.stop.Finished? ==> IsError(r)
  {
    match e.stop
    case Missing(i) => ErrorObj(MissingMessages[i])
    case Crashed(reason) => Failure(reason)
    case Finished => Completed(task, e.used, e.outputs)
  }

  /** `orchestrate_three_agent_energy_task`.  Reading `task` and `data` happens outside the
      try block: a request body that is not a dict raises (the endpoint then fails with HTTP
      500). */
  function Orchestrate(t: OrderedTable<AgentRecord>, taskData: Json, n8n: (Json, Json) -> HttpReply,
                       azure: (Json, Json) -> AzureRun, decode: string -> Option<Json>): (r: Outcome<Json>)
    ensures r.Raised? <==> !taskData.JObject?
  {
    match Get(taskData, "task", JStr(""))
    case Raised(e) => Raised(e)
    case Value(task) =>
      var data := LookupOr(taskData.fields, "data", JObject([]));
      RunOutcome(DiscoverIn(t), AgentIdOf, Steps(data, n8n, azure, decode));
      Value(Conclude(task, Execute(t, data, n8n, azure, decode)))
  }

  /** The report of a run over the request's data. */
  lemma OrchestrateReports(t: OrderedTable<AgentRecord>, taskData: Json, n8n: (Json, Json) -> HttpReply,
                           azure: (Json, Json) -> AzureRun, decode: string -> Option<Json>)
    requires taskData.JObject?
    ensures var e := Execute(t, LookupOr(taskData.fields, "data", JObject([])), n8n, azure, decode);
      && Ended(DiscoverIn(t), AgentIdOf, Steps(LookupOr(taskData.fields, "data", JObject([])), n8n, azure, decode), e)
      && Orchestrate(t, taskData, n8n, azure, decode) == Value(Conclude(LookupOr(taskData.fields, "task", JStr("")), e))
  {
    RunOutcome(DiscoverIn(t), AgentIdOf, Steps(LookupOr(taskData.fields, "data", JObject([])), n8n, azure, decode));
  }

  /** Fail-fast: when a step's capability has no agent, the result is an error dict, at most
      that many agents were called, and no later capability was looked up. */
  lemma OrchestrateFailFast(t: OrderedTable<AgentRecord>, taskData: Json, n8n: (Json, Json) -> HttpReply,
                            azure: (Json, Json) -> AzureRun, decode: string -> Option<Json>, k: nat)
    requires taskData.JObject? && k < 3
    requires Discover(t, [CustomerCapability, ConsultationCapability, ValidationCapability][k]) == []
    ensures var data := LookupOr(taskData.fields, "data", JObject([]));
      var e := Execute(t, data, n8n, azure, decode);
      && Orchestrate(t, taskData, n8n, azure, decode).Value?
      && IsError(Orchestrate(t, taskData, n8n, azure, decode).value)
      && |Invocations(e.trace)| <= k
      && |Discoveries(e.trace)| <= k + 1
      && Discoveries(e.trace) == [CustomerCapability, ConsultationCapability, ValidationCapability][..|Discoveries(e.trace)|]
  {
    var data := LookupOr(taskData.fields, "data", JObject([]));
    var steps := Steps(data, n8n, azure, decode);
    assert Capabilities(steps) == [CustomerCapability, ConsultationCapability, ValidationCapability];
    FailFast(DiscoverIn(t), AgentIdOf, steps, k);
    OrchestrateReports(t, taskData, n8n, azure, decode);
  }

  /** The agents found can serve their step: n8n agents have a `webhook_url` and the
      consultant an `agent_id` in a dict configuration. */
  predicate Configured(t: OrderedTable<AgentRecord>, capability: string, key: string) {
    Discover(t, capability) != [] ==>
      Discover(t, capability)[0].config.JObject? && key in Keys(Discover(t, capability)[0].config.fields)
  }

  predicate Serviceable(t: OrderedTable<AgentRecord>) {
    && Configured(t, CustomerCapability, "webhook_url")
    && Configured(t, ConsultationCapability, "agent_id")
    && Configured(t, ValidationCapability, "webhook_url")
  }

  lemma StepsDoNotRaise(t: OrderedTable<AgentRecord>, data: Json, n8n: (Json, Json) -> HttpReply,
                        azure: (Json, Json) -> AzureRun, decode: string -> Option<Json>)
    requires data.JObject? && Serviceable(t)
    ensures var steps := Steps(data, n8n, azure, decode);
      forall j, outs :: 0 <= j < 3 && Discover(t, steps[j].capability) != [] ==>
        steps[j].call(Discover(t, steps[j].capability)[0], outs).Value?
  {
  }

  /** With dict data and usable configurations, no step raises: the run stops only at a
      missing capability, and the error names the first one. */
  lemma OrchestrateMissing(t: OrderedTable<AgentRecord>, taskData: Json, n8n: (Json, Json) -> HttpReply,
                           azure: (Json, Json) -> AzureRun, decode: string -> Option<Json>, k: nat)
    requires taskData.JObject? && LookupOr(taskData.fields, "data", JObject([])).JObject? && Serviceable(t)
    requires k < 3 && Discover(t, [CustomerCapability, ConsultationCapability, ValidationCapability][k]) == []
    requires forall j :: 0 <= j < k ==> Discover(t, [CustomerCapability, ConsultationCapability, ValidationCapability][j]) != []
    ensures Orchestrate(t, taskData, n8n, azure, decode) == Value(ErrorObj(MissingMessages[k]))
  {
    var data := LookupOr(taskData.fields, "data", JObject([]));
    var steps := Steps(data, n8n, azure, decode);
    StepsDoNotRaise(t, data, n8n, azure, decode);
    assert forall j :: 0 <= j < 3 ==> steps[j].capability == [CustomerCapability, ConsultationCapability, ValidationCapability][j];
    FirstMissing(DiscoverIn(t), AgentIdOf, steps, k);
    OrchestrateReports(t, taskData, n8n, azure, decode);
  }

  const Capabilities3: seq<string> := [CustomerCapability, ConsultationCapability, ValidationCapability]

  /** With dict data, usable configurations and an agent for every capability, the run
      reaches the end: a failed remote call comes back as an error dict, not an exception. */
  lemma ExecuteFinishes(t: OrderedTable<AgentRecord>, data: Json, n8n: (Json, Json) -> HttpReply,
                        azure: (Json, Json) -> AzureRun, decode: string -> Option<Json>)
    requires data.JObject? && Serviceable(t)
    requires forall j :: 0 <= j < 3 ==> Discover(t, Capabilities3[j]) != []
    ensures Execute(t, data, n8n, azure, decode).stop.Finished?
  {
    var steps := Steps(data, n8n, azure, decode);
    StepsDoNotRaise(t, data, n8n, azure, decode);
    assert forall j :: 0 <= j < 3 ==> steps[j].capability == Capabilities3[j];
    RunsToEnd(DiscoverIn(t), AgentIdOf, steps);
  }

  /** In a run through all three steps the consultant's result is a dict: the consultation
      or an error dict. */
  lemma ConsultantOutput(t: OrderedTable<AgentRecord>, data: Json, n8n: (Json, Json) -> HttpReply,
                         azure: (Json, Json) -> AzureRun, decode: string -> Option<Json>)
    requires Execute(t, data, n8n, azure, decode).stop.Finished?
    ensures |Execute(t, data, n8n, azure, decode).outputs| == 3
    ensures Execute(t, data, n8n, azure, decode).outputs[1].JObject?
  {
    var e := Execute(t, data, n8n, azure, decode);
    var steps := Steps(data, n8n, azure, decode);
    FinishedStep(DiscoverIn(t), AgentIdOf, steps, 1);
    assert steps[1].call(e.used[1], e.outputs[..1]) == ConsultationStep(data, azure, e.used[1], e.outputs[..1]);
  }

  /** Graceful degradation: with dict data, usable configurations and an agent for every
      capability, the run reaches the end whatever the agents answered.  It is reported as
      completed, with the validator's status and the consultant's programs, unless the
      validator's answer is not a dict. */
  lemma OrchestrateCompleted(t: OrderedTable<AgentRecord>, taskData: Json, n8n: (Json, Json) -> HttpReply,
                             azure: (Json, Json) -> AzureRun, decode: string -> Option<Json>)
    requires taskData.JObject? && LookupOr(taskData.fields, "data", JObject([])).JObject? && Serviceable(t)
    requires forall j :: 0 <= j < 3 ==> Discover(t, Capabilities3[j]) != []
    ensures var e := Execute(t, LookupOr(taskData.fields, "data", JObject([])), n8n, azure, decode);
      && e.stop.Finished? && |e.used| == 3 && |e.outputs| == 3 && e.outputs[1].JObject?
      && Orchestrate(t, taskData, n8n, azure, decode).Value?
      && (e.outputs[2].JObject? ==>
            && Orchestrate(t, taskData, n8n, azure, decode).value
                 == Report(LookupOr(taskData.fields, "task", JStr("")), e.used, e.outputs,
                           LookupOr(e.outputs[2].fields, "approval_status", JStr("unknown")),
                           LookupOr(e.outputs[1].fields, "recommendations", JList([])))
            && !IsError(Orchestrate(t, taskData, n8n, azure, decode).value)
            && Lookup(Orchestrate(t, taskData, n8n, azure, decode).value.fields, "status") == Some(JStr("completed")))
      && (!e.outputs[2].JObject? ==> IsError(Orchestrate(t, taskData, n8n, azure, decode).value))
  {
    var data := LookupOr(taskData.fields, "data", JObject([]));
    var task := LookupOr(taskData.fields, "task", JStr(""));
    ExecuteFinishes(t, data, n8n, azure, decode);
    var e := Execute(t, data, n8n, azure, decode);
    ConsultantOutput(t, data, n8n, azure, decode);
    OrchestrateReports(t, taskData, n8n, azure, decode);
    assert Orchestrate(t, taskData, n8n, azure, decode) == Value(Completed(task, e.used, e.outputs));
    if e.outputs[2].JObject? {
      CompletedReport(task, e.used, e.outputs);
      ReportCompleted(task, e.used, e.outputs,
                      LookupOr(e.outputs[2].fields, "approval_status", JStr("unknown")),
                      LookupOr(e.outputs[1].fields, "recommendations", JList([])));
    }
  }

  /** A run through all three steps used the first agent discovered for each capability, in
      step order, and called exactly those agents. */
  lemma ExecuteUsed(t: OrderedTable<AgentRecord>, data: Json, n8n: (Json, Json) -> HttpReply,
                    azure: (Json, Json) -> AzureRun, decode: string -> Option<Json>)
    requires Execute(t, data, n8n, azure, decode).stop.Finished?
    ensures var e := Execute(t, data, n8n, azure, decode);
      && |e.used| == 3 && |e.outputs| == 3
      && (forall j :: 0 <= j < 3 ==> Discover(t, Capabilities3[j]) != [] && e.used[j] == Discover(t, Capabilities3[j])[0])
      && Invocations(e.trace) == [e.used[0].agentId, e.used[1].agentId, e.used[2].agentId]
  {
    var e := Execute(t, data, n8n, azure, decode);
    FinishedUsed(DiscoverIn(t), AgentIdOf, Steps(data, n8n, azure, decode));
    IdsOfThree(e.used);
  }

  lemma IdsOfThree(used: seq<DiscoveredAgent>)
    requires |used| == 3
    ensures Ids(AgentIdOf, used) == [used[0].agentId, used[1].agentId, used[2].agentId]
  {
  }

  /** In a run through all three steps the validator received the customer result, the
      consultant's recommendations and the original data, and its answer is the last output. */
  lemma ValidatorInput(t: OrderedTable<AgentRecord>, data: Json, n8n: (Json, Json) -> HttpReply,
                       azure: (Json, Json) -> AzureRun, decode: string -> Option<Json>)
    requires Execute(t, data, n8n, azure, decode).stop.Finished?
    ensures var e := Execute(t, data, n8n, azure, decode);
      && |e.used| == 3 && |e.outputs| == 3
      && ValidationStep(data, n8n, decode, e.used[2], e.outputs[..2]).Value?
      && ValidationStep(data, n8n, decode, e.used[2], e.outputs[..2]).value
           == (N8nPayload("validate energy efficiency recommendations", ValidationData(e.outputs[0], e.outputs[1], data)),
               e.outputs[2])
  {
    var steps := Steps(data, n8n, azure, decode);
    var e := Execute(t, data, n8n, azure, decode);
    FinishedStep(DiscoverIn(t), AgentIdOf, steps, 2);
    assert steps[2].call(e.used[2], e.outputs[..2]) == ValidationStep(data, n8n, decode, e.used[2], e.outputs[..2]);
    assert e.outputs[..2][0] == e.outputs[0] && e.outputs[..2][1] == e.outputs[1];
  }

  /** A run through all three steps is reported with the validator's `approval_status` as
      final status ("unknown" when absent) and its recommended programs. */
  lemma CompletedReport(task: Json, used: seq<DiscoveredAgent>, outputs: seq<Json>)
    requires |used| == 3 && |outputs| == 3 && outputs[2].JObject? && outputs[1].JObject?
    ensures Completed(task, used, outputs)
      == Report(task, used, outputs, LookupOr(outputs[2].fields, "approval_status", JStr("unknown")),
                LookupOr(outputs[1].fields, "recommendations", JList([])))
  {
  }

  /** The report is a dict without an error, with status "completed". */
  lemma ReportCompleted(task: Json, used: seq<DiscoveredAgent>, outputs: seq<Json>, finalStatus: Json, programs: Json)
    requires |used| == 3 && |outputs| == 3 && outputs[2].JObject?
    ensures !IsError(Report(task, used, outputs, finalStatus, programs))
    ensures Lookup(Report(task, used, outputs, finalStatus, programs).fields, "status") == Some(JStr("completed"))
  {
    var r := Report(task, used, outputs, finalStatus, programs);
    assert r.fields[0] == ("status", JStr("completed"));
    LookupAt(r.fields, 0);
    NoErrorKey(r.fields);
  }

  /** The report lists the agents used in step order, with their platforms and roles. */
  lemma ReportAgents(task: Json, used: seq<DiscoveredAgent>, outputs: seq<Json>, finalStatus: Json, programs: Json)
    requires |used| == 3 && |outputs| == 3 && outputs[2].JObject?
    ensures Lookup(Report(task, used, outputs, finalStatus, programs).fields, "agents_used")
      == Some(JList([AgentUsed(used[0].agentId, "n8n", "customer_data_processor"),
                     AgentUsed(used[1].agentId, "azure_ai", "energy_consultant"),
                     AgentUsed(used[2].agentId, "n8n", "recommendation_validator")]))
  {
    var r := Report(task, used, outputs, finalStatus, programs);
    assert r.fields[3].0 == "agents_used";
    LookupAt(r.fields, 3);
  }

  /** The report's final status is the one read from the validator. */
  lemma ReportFinalStatus(task: Json, used: seq<DiscoveredAgent>, outputs: seq<Json>, finalStatus: Json, programs: Json)
    requires |used| == 3 && |outputs| == 3 && outputs[2].JObject?
    ensures Lookup(Report(task, used, outputs, finalStatus, programs).fields, "final_status") == Some(finalStatus)
  {
    var r := Report(task, used, outputs, finalStatus, programs);
    assert r.fields[7] == ("final_status", finalStatus);
    LookupAt(r.fields, 7);
  }

  /** The report carries the summary of the customer profile, the programs and the validation. */
  lemma ReportSummary(task: Json, used: seq<DiscoveredAgent>, outputs: seq<Json>, finalStatus: Json, programs: Json)
    requires |used| == 3 && |outputs| == 3 && outputs[2].JObject?
    ensures Lookup(Report(task, used, outputs, finalStatus, programs).fields, "consultation_summary")
      == Some(Summary(outputs[0], programs, outputs[2]))
  {
    var r := Report(task, used, outputs, finalStatus, programs);
    assert r.fields[8] == ("consultation_summary", Summary(outputs[0], programs, outputs[2]));
    LookupAt(r.fields, 8);
  }

  /** The summary's `validation_passed` is the validator's, false when it does not say. */
  lemma SummaryPassed(customer: Json, programs: Json, validation: Json)
    requires validation.JObject?
    ensures Lookup(Summary(customer, programs, validation).fields, "validation_passed")
      == Some(LookupOr(validation.fields, "validation_passed", JBool(false)))
    ensures "validation_passed" !in Keys(validation.fields) ==>
      Lookup(Summary(customer, programs, validation).fields, "validation_passed") == Some(JBool(false))
  {
    var r := Summary(customer, programs, validation);
    assert r.fields[2] == ("validation_passed", LookupOr(validation.fields, "validation_passed", JBool(false)));
    LookupAt(r.fields, 2);
  }

  /** The summary's `estimated_savings` is the validator's, "N/A" when it does not say. */
  lemma SummarySavings(customer: Json, programs: Json, validation: Json)
    requires validation.JObject?
    ensures Lookup(Summary(customer, programs, validation).fields, "estimated_savings")
      == Some(LookupOr(validation.fields, "estimated_savings", JStr("N/A")))
  {
    var r := Summary(customer, programs, validation);
    assert r.fields[3] == ("estimated_savings", LookupOr(validation.fields, "estimated_savings", JStr("N/A")));
    LookupAt(r.fields, 3);
  }
}
