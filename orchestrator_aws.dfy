/** multi_agent_orchestrator_aws.py: the five-agent energy consultation.  An n8n agent processes
    the customer's data, the SAP AI Core agent enriches it with account and eligibility data,
    the AWS Bedrock Nova Pro agent recommends programs, the Salesforce Agentforce agent reports
    the service history, and an n8n agent validates the whole.  Each step takes the first agent
    the registry discovers for its capability; the run goes through the shared fail-fast
    executor of `Pipeline`. */
module FiveAgentOrchestrator {
  import opened Py
  import opened Table
  import opened AgentRegistry
  import opened Pipeline
  import opened Webhook
  import opened SapAgent
  import opened BedrockAgent
  import opened CrmAgent
  import SalesforceClient
  import E = EnergyOrchestrator

  /** What the remote services answer: the n8n webhooks, the SAP simulator's random draws, the
      Nova client and the consultation message it is given, and the Salesforce client's
      exchange. */
  datatype Services = Services(n8n: (Json, Json) -> HttpReply, sap: SapDraws, nova: Option<NovaService>,
                               prompt: Json -> Outcome<string>, crm: Option<CrmExchange>,
                               decode: string -> Option<Json>)

  const SapCapability: string := "enterprise_data_enrichment"
  const CrmCapability: string := "crm_service_history"

  /** The capabilities of the five steps, in order. */
  const Capabilities5: seq<string> :=
    [E.CustomerCapability, SapCapability, E.ConsultationCapability, CrmCapability, E.ValidationCapability]

  /** The error each step reports when its capability has no agent. */
  const MissingMessages5: seq<string> :=
    ["No customer processing agent available",
     "No SAP enterprise data agent available",
     "No AWS Bedrock energy consultation agent available",
     "No Salesforce CRM agent available",
     "No validation agent available"]

  /** What the SAP agent is asked: the customer id, the step-1 result and the enrichment type. */
  function SapRequest(customerId: Json, customerResult: Json): seq<(string, Json)> {
    [("customer_id", customerId), ("customer_profile", customerResult),
     ("enrichment_type", JStr("billing_and_eligibility_verification"))]
  }

  /** Step 2: the SAP agent; reading the data raises unless it is a dict, and the agent's
      configuration must hold a `deployment_id`. */
  function SapStep(data: Json, s: Services, agent: DiscoveredAgent, outputs: seq<Json>): Outcome<(Json, Json)> {
    match Get(data, "customer_id", JStr(""))
    case Raised(e) => Raised(e)
    case Value(customerId) =>
      var request := SapRequest(customerId, At(outputs, 0));
      match Index(agent.config, "deployment_id")
      case Raised(e) => Raised(e)
      case Value(_) => Value((JObject(request), CallSapAiCoreAgent(request, s.sap)))
  }

  /** What the consultant is asked: both earlier results and fields of the original data. */
  function BedrockRequest(customerResult: Json, sapResult: Json, data: seq<(string, Json)>): Json {
    JObject([("customer_profile", customerResult),
             ("sap_enterprise_data", sapResult),
             ("original_inquiry", LookupOr(data, "inquiry", JStr(""))),
             ("home_type", LookupOr(data, "home_type", JStr(""))),
             ("current_bill", LookupOr(data, "current_bill", JInt(0))),
             ("request_type", JStr("energy_efficiency_consultation"))])
  }

  /** Step 3: the Bedrock consultant, given its whole configuration. */
  function BedrockStep(data: Json, s: Services, agent: DiscoveredAgent, outputs: seq<Json>): Outcome<(Json, Json)> {
    match Get(data, "inquiry", JStr(""))
    case Raised(e) => Raised(e)
    case Value(_) =>
      var request := BedrockRequest(At(outputs, 0), At(outputs, 1), data.fields);
      Value((request, CallAwsBedrockAgent(agent.config, request, s.nova, s.prompt, s.decode)))
  }

  /** What the CRM agent is asked. */
  function CrmRequest(customerId: Json, customerResult: Json, inquiry: Json): seq<(string, Json)> {
    [("customer_id", customerId), ("customer_profile", customerResult), ("current_inquiry", inquiry)]
  }

  /** Step 4: the Salesforce agent; its configuration must hold an `agent_id`. */
  function CrmStep(data: Json, s: Services, agent: DiscoveredAgent, outputs: seq<Json>): Outcome<(Json, Json)> {
    match Get(data, "customer_id", JStr(""))
    case Raised(e) => Raised(e)
    case Value(customerId) =>
      var request := CrmRequest(customerId, At(outputs, 0), LookupOr(data.fields, "inquiry", JStr("")));
      match Index(agent.config, "agent_id")
      case Raised(e) => Raised(e)
      case Value(_) => Value((JObject(request), CallSalesforceAgent(request, s.crm, s.decode)))
  }

  /** What the validator receives: all four earlier results and the original data. */
  function ValidationRequest(outputs: seq<Json>, data: Json): Json {
    JObject([("customer_data", At(outputs, 0)),
             ("sap_enterprise_data", At(outputs, 1)),
             ("ai_recommendations", At(outputs, 2)),
             ("salesforce_service_history", At(outputs, 3)),
             ("validation_type", JStr("energy_efficiency_compliance")),
             ("original_inquiry", data)])
  }

  /** Step 5: the n8n validation agent. */
  function ValidationStep(data: Json, s: Services, agent: DiscoveredAgent, outputs: seq<Json>): Outcome<(Json, Json)> {
    match Index(agent.config, "webhook_url")
    case Raised(e) => Raised(e)
    case Value(url) =>
      var payload := N8nPayload("validate energy efficiency recommendations", ValidationRequest(outputs, data));
      Value((payload, CallN8nAgent(s.n8n(url, payload), s.decode)))
  }

  function Steps(data: Json, s: Services): (steps: seq<Step<DiscoveredAgent>>)
    ensures |steps| == 5
    ensures forall j :: 0 <= j < 5 ==> steps[j].capability == Capabilities5[j]
  {
    [Step(E.CustomerCapability, (a, outs) => E.CustomerStep(data, s.n8n, s.decode, a, outs)),
     Step(SapCapability, (a, outs) => SapStep(data, s, a, outs)),
     Step(E.ConsultationCapability, (a, outs) => BedrockStep(data, s, a, outs)),
     Step(CrmCapability, (a, outs) => CrmStep(data, s, a, outs)),
     Step(E.ValidationCapability, (a, outs) => ValidationStep(data, s, a, outs))]
  }

  /** The five steps run against the registry. */
  function Execute(t: OrderedTable<AgentRecord>, data: Json, s: Services): Exec<DiscoveredAgent> {
    Run(E.DiscoverIn(t), E.AgentIdOf, Steps(data, s))
  }

  /** The result of a run that went through all five steps.  The validator's, SAP's, the
      consultant's and Salesforce's results are read in that order; each read raises unless
      the result is a dict. */
  function Completed(task: Json, used: seq<DiscoveredAgent>, outputs: seq<Json>): Json
    requires |used| == 5 && |outputs| == 5
  {
    match Get(outputs[4], "approval_status", JStr("unknown"))
    case Raised(e) => E.Failure(e)
    case Value(finalStatus) =>
      match Get(outputs[1], "account_status", JObject([]))
      case Raised(e) => E.Failure(e)
      case Value(_) =>
        match Get(outputs[2], "recommendations", JList([]))
        case Raised(e) => E.Failure(e)
        case Value(programs) =>
          match Get(outputs[3], "summary", JStr("No major service issues"))
          case Raised(e) => E.Failure(e)
          case Value(history) => Report(task, used, outputs, finalStatus, programs, history)
  }

  /** The completed report, with the final status, the recommended programs and the service
      history summary already read. */
  function Report(task: Json, used: seq<DiscoveredAgent>, outputs: seq<Json>, finalStatus: Json,
                  programs: Json, history: Json): Json
    requires |used| == 5 && |outputs| == 5 && outputs[1].JObject? && outputs[4].JObject?
  {
    JObject([
      ("status", JStr("completed")),
      ("task", task),
      ("workflow", JStr("five_agent_energy_consultation")),
      ("agents_used", AgentsUsed(used)),
      ("step1_customer_processing", outputs[0]),
      ("step2_sap_enrichment", outputs[1]),
      ("step3_ai_recommendations", outputs[2]),
      ("step4_salesforce_history", outputs[3]),
      ("step5_validation", outputs[4]),
      ("final_status", finalStatus),
      ("consultation_summary", RunSummary(outputs[0], outputs[1], programs, history, outputs[4]))])
  }

  /** The agents used, in step order, with their platforms and roles. */
  function AgentsUsed(used: seq<DiscoveredAgent>): Json
    requires |used| == 5
  {
    JList([E.AgentUsed(used[0].agentId, "n8n", "customer_data_processor"),
           E.AgentUsed(used[1].agentId, "sap_ai_core", "enterprise_data_enrichment"),
           E.AgentUsed(used[2].agentId, "aws_bedrock_nova_pro", "energy_consultant"),
           E.AgentUsed(used[3].agentId, "salesforce_agentforce", "crm_service_history"),
           E.AgentUsed(used[4].agentId, "n8n", "recommendation_validator")])
  }

  /** The consultation summary of a completed run, from the values read for it. */
  function Summary(customer: Json, accountStatus: Json, eligibility: Json, programs: Json, history: Json,
                   passed: Json, savings: Json): Json
  {
    JObject([("customer_profile", customer),
             ("sap_account_status", accountStatus),
             ("program_eligibility", eligibility),
             ("recommended_programs", programs),
             ("service_history_summary", history),
             ("validation_passed", passed),
             ("estimated_savings", savings)])
  }

  /** The summary of a completed run: SAP's account status and eligibility summary (empty
      dicts when absent), the programs, the service history summary, and the validator's
      verdict and savings estimate (false and "N/A" when absent). */
  function RunSummary(customer: Json, sap: Json, programs: Json, history: Json, validation: Json): Json
    requires sap.JObject? && validation.JObject?
  {
    Summary(customer, LookupOr(sap.fields, "account_status", JObject([])),
            LookupOr(sap.fields, "eligibility_summary", JObject([])), programs, history,
            LookupOr(validation.fields, "validation_passed", JBool(false)),
            LookupOr(validation.fields, "estimated_savings", JStr("N/A")))
  }

  /** How a run is reported: the missing step's message, the caught exception, or the
      completed result. */
  function Conclude(task: Json, e: Exec<DiscoveredAgent>): (r: Json)
    requires e.stop.Missing? ==> e.stop.index < 5
    requires e.stop.Finished? ==> |e.used| == 5 && |e.outputs| == 5
    ensures e.stop.Missing? ==> r == ErrorObj(MissingMessages5[e.stop.index])
    ensures e.stop.Crashed? ==> r == E.Failure(e.stop.reason)
    ensures !e.stop.Finished? ==> IsError(r)
  {
    match e.stop
    case Missing(i) => ErrorObj(MissingMessages5[i])
    case Crashed(reason) => E.Failure(reason)
    case Finished => Completed(task, e.used, e.outputs)
  }

  /** `orchestrate_three_agent_energy_task` of the five-agent orchestrator.  Reading `task` and
      `data` happens outside the try block: a request body that is not a dict raises. */
  function Orchestrate(t: OrderedTable<AgentRecord>, taskData: Json, s: Services): (r: Outcome<Json>)
    ensures r.Raised? <==> !taskData.JObject?
  {
    match Get(taskData, "task", JStr(""))
    case Raised(e) => Raised(e)
    case Value(task) =>
      var data := LookupOr(taskData.fields, "data", JObject([]));
      RunOutcome(E.DiscoverIn(t), E.AgentIdOf, Steps(data, s));
      Value(Conclude(task, Execute(t, data, s)))
  }

  /** The report of a run over the request's data. */
  lemma OrchestrateReports(t: OrderedTable<AgentRecord>, taskData: Json, s: Services)
    requires taskData.JObject?
    ensures var data := LookupOr(taskData.fields, "data", JObject([]));
      var e := Execute(t, data, s);
      && Ended(E.DiscoverIn(t), E.AgentIdOf, Steps(data, s), e)
      && Orchestrate(t, taskData, s) == Value(Conclude(LookupOr(taskData.fields, "task", JStr("")), e))
  {
    RunOutcome(E.DiscoverIn(t), E.AgentIdOf, Steps(LookupOr(taskData.fields, "data", JObject([])), s));
  }

  /** Fail-fast: when a step's capability has no agent, the result is an error dict, at most
      that many agents were called, and no later capability was looked up. */
  lemma OrchestrateFailFast(t: OrderedTable<AgentRecord>, taskData: Json, s: Services, k: nat)
    requires taskData.JObject? && k < 5 && Discover(t, Capabilities5[k]) == []
    ensures var e := Execute(t, LookupOr(taskData.fields, "data", JObject([])), s);
      && Orchestrate(t, taskData, s).Value?
      && IsError(Orchestrate(t, taskData, s).value)
      && |Invocations(e.trace)| <= k
      && |Discoveries(e.trace)| <= k + 1
      && Discoveries(e.trace) == Capabilities5[..|Discoveries(e.trace)|]
  {
    var data := LookupOr(taskData.fields, "data", JObject([]));
    var steps := Steps(data, s);
    assert Capabilities(steps) == Capabilities5;
    FailFast(E.DiscoverIn(t), E.AgentIdOf, steps, k);
    OrchestrateReports(t, taskData, s);
  }

  /** The agents found can serve their step: the n8n agents have a `webhook_url`, the SAP
      agent a `deployment_id` and the Salesforce agent an `agent_id` (the consultant reads its
      configuration inside its own error handling). */
  predicate Serviceable(t: OrderedTable<AgentRecord>) {
    && E.Configured(t, E.CustomerCapability, "webhook_url")
    && E.Configured(t, SapCapability, "deployment_id")
    && E.Configured(t, CrmCapability, "agent_id")
    && E.Configured(t, E.ValidationCapability, "webhook_url")
  }

  /** Over dict data, the SAP step raises only when its agent has no `deployment_id`. */
  lemma SapStepRuns(data: Json, s: Services, a: DiscoveredAgent, outs: seq<Json>)
    requires data.JObject? && a.config.JObject? && "deployment_id" in Keys(a.config.fields)
    ensures SapStep(data, s, a, outs).Value?
  {
  }

  /** Over dict data, the Salesforce step raises only when its agent has no `agent_id`. */
  lemma CrmStepRuns(data: Json, s: Services, a: DiscoveredAgent, outs: seq<Json>)
    requires data.JObject? && a.config.JObject? && "agent_id" in Keys(a.config.fields)
    ensures CrmStep(data, s, a, outs).Value?
  {
  }

  lemma StepsDoNotRaise(t: OrderedTable<AgentRecord>, data: Json, s: Services)
    requires data.JObject? && Serviceable(t)
    ensures var steps := Steps(data, s);
      forall j, outs :: 0 <= j < 5 && Discover(t, steps[j].capability) != [] ==>
        steps[j].call(Discover(t, steps[j].capability)[0], outs).Value?
  {
    var steps := Steps(data, s);
    forall j, outs | 0 <= j < 5 && Discover(t, steps[j].capability) != []
      ensures steps[j].call(Discover(t, steps[j].capability)[0], outs).Value?
    {
      var a := Discover(t, steps[j].capability)[0];
      if j == 1 {
        SapStepRuns(data, s, a, outs);
        assert steps[1].call(a, outs) == SapStep(data, s, a, outs);
      } else if j == 3 {
        CrmStepRuns(data, s, a, outs);
        assert steps[3].call(a, outs) == CrmStep(data, s, a, outs);
      }
    }
  }

  /** With dict data and usable configurations no step raises: the run stops only at a
      missing capability, and the error names the first one. */
  lemma OrchestrateMissing(t: OrderedTable<AgentRecord>, taskData: Json, s: Services, k: nat)
    requires taskData.JObject? && LookupOr(taskData.fields, "data", JObject([])).JObject? && Serviceable(t)
    requires k < 5 && Discover(t, Capabilities5[k]) == []
    requires forall j :: 0 <= j < k ==> Discover(t, Capabilities5[j]) != []
    ensures Orchestrate(t, taskData, s) == Value(ErrorObj(MissingMessages5[k]))
  {
    var data := LookupOr(taskData.fields, "data", JObject([]));
    StepsDoNotRaise(t, data, s);
    FirstMissing(E.DiscoverIn(t), E.AgentIdOf, Steps(data, s), k);
    OrchestrateReports(t, taskData, s);
  }

  /** A run through all five steps used the first agent discovered for each capability, in
      step order, and called exactly those agents. */
  lemma ExecuteUsed(t: OrderedTable<AgentRecord>, data: Json, s: Services)
    requires Execute(t, data, s).stop.Finished?
    ensures var e := Execute(t, data, s);
      && |e.used| == 5 && |e.outputs| == 5
      && (forall j :: 0 <= j < 5 ==> Discover(t, Capabilities5[j]) != [] && e.used[j] == Discover(t, Capabilities5[j])[0])
      && Invocations(e.trace) == Ids(E.AgentIdOf, e.used)
  {
    FinishedUsed(E.DiscoverIn(t), E.AgentIdOf, Steps(data, s));
  }

  /** A SAP step that did not raise read dict data and returned the SAP agent's answer. */
  lemma SapStepResult(data: Json, s: Services, a: DiscoveredAgent, outs: seq<Json>)
    requires SapStep(data, s, a, outs).Value? && |outs| >= 1
    ensures data.JObject?
    ensures SapStep(data, s, a, outs).value.1
      == CallSapAiCoreAgent(SapRequest(LookupOr(data.fields, "customer_id", JStr("")), outs[0]), s.sap)
  {
  }

  /** A Salesforce step that did not raise read dict data and returned the agent's answer. */
  lemma CrmStepResult(data: Json, s: Services, a: DiscoveredAgent, outs: seq<Json>)
    requires CrmStep(data, s, a, outs).Value? && |outs| >= 1
    ensures data.JObject?
    ensures CrmStep(data, s, a, outs).value.1
      == CallSalesforceAgent(CrmRequest(LookupOr(data.fields, "customer_id", JStr("")), outs[0],
                                        LookupOr(data.fields, "inquiry", JStr(""))), s.crm, s.decode)
  {
  }

  /** In a run through all five steps the SAP result is a dict (the SAP call catches its own
      failures): the SAP agent's answer for the request's customer id and the step-1 result. */
  lemma SapOutput(t: OrderedTable<AgentRecord>, data: Json, s: Services)
    requires Execute(t, data, s).stop.Finished?
    ensures var e := Execute(t, data, s);
      && |e.outputs| == 5 && e.outputs[1].JObject? && data.JObject?
      && e.outputs[1] == CallSapAiCoreAgent(SapRequest(LookupOr(data.fields, "customer_id", JStr("")), e.outputs[0]), s.sap)
  {
    var e := Execute(t, data, s);
    var steps := Steps(data, s);
    FinishedStep(E.DiscoverIn(t), E.AgentIdOf, steps, 1);
    assert steps[1].call(e.used[1], e.outputs[..1]) == SapStep(data, s, e.used[1], e.outputs[..1]);
    SapStepResult(data, s, e.used[1], e.outputs[..1]);
  }

  /** In a run through all five steps the consultant's result is a dict. */
  lemma BedrockOutput(t: OrderedTable<AgentRecord>, data: Json, s: Services)
    requires Execute(t, data, s).stop.Finished?
    ensures |Execute(t, data, s).outputs| == 5 && Execute(t, data, s).outputs[2].JObject?
  {
    var e := Execute(t, data, s);
    var steps := Steps(data, s);
    FinishedStep(E.DiscoverIn(t), E.AgentIdOf, steps, 2);
    assert steps[2].call(e.used[2], e.outputs[..2]) == BedrockStep(data, s, e.used[2], e.outputs[..2]);
  }

  /** In a run through all five steps the Salesforce result is a dict: the Salesforce
      agent's answer for the request's customer id and inquiry. */
  lemma CrmOutput(t: OrderedTable<AgentRecord>, data: Json, s: Services)
    requires Execute(t, data, s).stop.Finished?
    ensures var e := Execute(t, data, s);
      && |e.outputs| == 5 && e.outputs[3].JObject? && data.JObject?
      && e.outputs[3] == CallSalesforceAgent(CrmRequest(LookupOr(data.fields, "customer_id", JStr("")), e.outputs[0],
                                                        LookupOr(data.fields, "inquiry", JStr(""))), s.crm, s.decode)
  {
    var e := Execute(t, data, s);
    var steps := Steps(data, s);
    FinishedStep(E.DiscoverIn(t), E.AgentIdOf, steps, 3);
    assert steps[3].call(e.used[3], e.outputs[..3]) == CrmStep(data, s, e.used[3], e.outputs[..3]);
    CrmStepResult(data, s, e.used[3], e.outputs[..3]);
  }

  /** In a run through all five steps the validator received all four earlier results and
      the original data, and its answer is the last output. */
  lemma ValidatorInput(t: OrderedTable<AgentRecord>, data: Json, s: Services)
    requires Execute(t, data, s).stop.Finished?
    ensures var e := Execute(t, data, s);
      && |e.used| == 5 && |e.outputs| == 5
      && ValidationStep(data, s, e.used[4], e.outputs[..4]).Value?
      && ValidationStep(data, s, e.used[4], e.outputs[..4]).value
           == (N8nPayload("validate energy efficiency recommendations", ValidationRequest(e.outputs, data)), e.outputs[4])
  {
    var e := Execute(t, data, s);
    var steps := Steps(data, s);
    FinishedStep(E.DiscoverIn(t), E.AgentIdOf, steps, 4);
    assert steps[4].call(e.used[4], e.outputs[..4]) == ValidationStep(data, s, e.used[4], e.outputs[..4]);
    assert ValidationRequest(e.outputs[..4], data) == ValidationRequest(e.outputs, data);
  }

  /** A run through all five steps whose SAP, consultant, Salesforce and validator results
      are dicts is reported with the validator's `approval_status` ("unknown" when absent),
      the consultant's recommendations and Salesforce's summary ("No major service issues"
      when absent). */
  lemma CompletedReport(task: Json, used: seq<DiscoveredAgent>, outputs: seq<Json>)
    requires |used| == 5 && |outputs| == 5
    requires outputs[1].JObject? && outputs[2].JObject? && outputs[3].JObject? && outputs[4].JObject?
    ensures Completed(task, used, outputs)
      == Report(task, used, outputs, LookupOr(outputs[4].fields, "approval_status", JStr("unknown")),
                LookupOr(outputs[2].fields, "recommendations", JList([])),
                LookupOr(outputs[3].fields, "summary", JStr("No major service issues")))
  {
  }

  /** A validator answer that is not a dict makes the completed run fail when it is read. */
  lemma CompletedValidatorNotDict(task: Json, used: seq<DiscoveredAgent>, outputs: seq<Json>)
    requires |used| == 5 && |outputs| == 5 && !outputs[4].JObject?
    ensures Completed(task, used, outputs) == E.Failure(Get(outputs[4], "approval_status", JStr("unknown")).reason)
  {
  }

  /** The report is a dict without an error, with status "completed". */
  lemma ReportCompleted(task: Json, used: seq<DiscoveredAgent>, outputs: seq<Json>, finalStatus: Json,
                        programs: Json, history: Json)
    requires |used| == 5 && |outputs| == 5 && outputs[1].JObject? && outputs[4].JObject?
    ensures !IsError(Report(task, used, outputs, finalStatus, programs, history))
    ensures Lookup(Report(task, used, outputs, finalStatus, programs, history).fields, "status") == Some(JStr("completed"))
  {
    var r := Report(task, used, outputs, finalStatus, programs, history);
    assert r.fields[0] == ("status", JStr("completed"));
    LookupAt(r.fields, 0);
    NoErrorKey(r.fields);
  }

  /** The report lists the five agents used, in step order, with their platforms and roles. */
  lemma ReportAgents(task: Json, used: seq<DiscoveredAgent>, outputs: seq<Json>, finalStatus: Json,
                     programs: Json, history: Json)
    requires |used| == 5 && |outputs| == 5 && outputs[1].JObject? && outputs[4].JObject?
    ensures Lookup(Report(task, used, outputs, finalStatus, programs, history).fields, "agents_used") == Some(AgentsUsed(used))
  {
    var r := Report(task, used, outputs, finalStatus, programs, history);
    assert r.fields[3] == ("agents_used", AgentsUsed(used));
    LookupAt(r.fields, 3);
  }

  /** The report's final status is the one read from the validator. */
  lemma ReportFinalStatus(task: Json, used: seq<DiscoveredAgent>, outputs: seq<Json>, finalStatus: Json,
                          programs: Json, history: Json)
    requires |used| == 5 && |outputs| == 5 && outputs[1].JObject? && outputs[4].JObject?
    ensures Lookup(Report(task, used, outputs, finalStatus, programs, history).fields, "final_status") == Some(finalStatus)
  {
    var r := Report(task, used, outputs, finalStatus, programs, history);
    assert r.fields[9] == ("final_status", finalStatus);
    LookupAt(r.fields, 9);
  }

  /** The report carries the summary of the five results. */
  lemma ReportSummary(task: Json, used: seq<DiscoveredAgent>, outputs: seq<Json>, finalStatus: Json,
                      programs: Json, history: Json)
    requires |used| == 5 && |outputs| == 5 && outputs[1].JObject? && outputs[4].JObject?
    ensures Lookup(Report(task, used, outputs, finalStatus, programs, history).fields, "consultation_summary")
      == Some(RunSummary(outputs[0], outputs[1], programs, history, outputs[4]))
  {
    var r := Report(task, used, outputs, finalStatus, programs, history);
    assert r.fields[10] == ("consultation_summary", RunSummary(outputs[0], outputs[1], programs, history, outputs[4]));
    LookupAt(r.fields, 10);
  }

  /** The summary's program eligibility is the eligibility it was given. */
  lemma SummaryEligibility(customer: Json, accountStatus: Json, eligibility: Json, programs: Json, history: Json,
                           passed: Json, savings: Json)
    ensures Lookup(Summary(customer, accountStatus, eligibility, programs, history, passed, savings).fields,
                   "program_eligibility") == Some(eligibility)
  {
    LookupAt(Summary(customer, accountStatus, eligibility, programs, history, passed, savings).fields, 2);
  }

  /** The summary's service history is the one it was given. */
  lemma SummaryHistory(customer: Json, accountStatus: Json, eligibility: Json, programs: Json, history: Json,
                       passed: Json, savings: Json)
    ensures Lookup(Summary(customer, accountStatus, eligibility, programs, history, passed, savings).fields,
                   "service_history_summary") == Some(history)
  {
    LookupAt(Summary(customer, accountStatus, eligibility, programs, history, passed, savings).fields, 4);
  }

  /** The summary's verdict is the one it was given. */
  lemma SummaryVerdict(customer: Json, accountStatus: Json, eligibility: Json, programs: Json, history: Json,
                       passed: Json, savings: Json)
    ensures Lookup(Summary(customer, accountStatus, eligibility, programs, history, passed, savings).fields,
                   "validation_passed") == Some(passed)
  {
    LookupAt(Summary(customer, accountStatus, eligibility, programs, history, passed, savings).fields, 5);
  }

  /** Graceful degradation: with dict data, usable configurations and an agent for every
      capability, the run reaches the end whatever the agents answered.  It is reported as
      completed, with the validator's status, the consultant's programs and Salesforce's
      summary, unless the validator's answer is not a dict. */
  lemma OrchestrateCompleted(t: OrderedTable<AgentRecord>, taskData: Json, s: Services)
    requires taskData.JObject? && LookupOr(taskData.fields, "data", JObject([])).JObject? && Serviceable(t)
    requires forall j :: 0 <= j < 5 ==> Discover(t, Capabilities5[j]) != []
    ensures var e := Execute(t, LookupOr(taskData.fields, "data", JObject([])), s);
      && e.stop.Finished? && |e.used| == 5 && |e.outputs| == 5
      && e.outputs[1].JObject? && e.outputs[2].JObject? && e.outputs[3].JObject?
      && (e.outputs[4].JObject? ==>
            && Orchestrate(t, taskData, s) == Value(Report(LookupOr(taskData.fields, "task", JStr("")), e.used, e.outputs,
                 LookupOr(e.outputs[4].fields, "approval_status", JStr("unknown")),
                 LookupOr(e.outputs[2].fields, "recommendations", JList([])),
                 LookupOr(e.outputs[3].fields, "summary", JStr("No major service issues"))))
            && !IsError(Orchestrate(t, taskData, s).value))
      && (!e.outputs[4].JObject? ==> IsError(Orchestrate(t, taskData, s).value))
  {
    var data := LookupOr(taskData.fields, "data", JObject([]));
    var task := LookupOr(taskData.fields, "task", JStr(""));
    ExecuteFinishes(t, data, s);
    var e := Execute(t, data, s);
    SapOutput(t, data, s);
    BedrockOutput(t, data, s);
    CrmOutput(t, data, s);
    OrchestrateReports(t, taskData, s);
    assert Orchestrate(t, taskData, s) == Value(Completed(task, e.used, e.outputs));
    if e.outputs[4].JObject? {
      CompletedReport(task, e.used, e.outputs);
      ReportCompleted(task, e.used, e.outputs,
                      LookupOr(e.outputs[4].fields, "approval_status", JStr("unknown")),
                      LookupOr(e.outputs[2].fields, "recommendations", JList([])),
                      LookupOr(e.outputs[3].fields, "summary", JStr("No major service issues")));
    } else {
      CompletedValidatorNotDict(task, e.used, e.outputs);
    }
  }

  /** With dict data, usable configurations and an agent for every capability, the run
      reaches the end. */
  lemma ExecuteFinishes(t: OrderedTable<AgentRecord>, data: Json, s: Services)
    requires data.JObject? && Serviceable(t)
    requires forall j :: 0 <= j < 5 ==> Discover(t, Capabilities5[j]) != []
    ensures Execute(t, data, s).stop.Finished?
  {
    StepsDoNotRaise(t, data, s);
    RunsToEnd(E.DiscoverIn(t), E.AgentIdOf, Steps(data, s));
  }

  /** When the Salesforce agent cannot be reached (no client, or no session), the run still
      completes its fourth step, with the canned service history and its summary. */
  lemma CrmUnreachableFallsBack(t: OrderedTable<AgentRecord>, data: Json, s: Services)
    requires Execute(t, data, s).stop.Finished?
    requires s.crm.None? || SalesforceClient.StartOutcome(s.crm.value.sessionReply, s.decode) != Value(true)
    ensures var e := Execute(t, data, s);
      && |e.outputs| == 5 && e.outputs[3].JObject?
      && Lookup(e.outputs[3].fields, "used_fallback") == Some(JBool(true))
      && LookupOr(e.outputs[3].fields, "summary", JStr("No major service issues")) == JStr(FallbackSummary)
  {
    var e := Execute(t, data, s);
    CrmOutput(t, data, s);
    NoSessionFallsBack(CrmRequest(LookupOr(data.fields, "customer_id", JStr("")), e.outputs[0],
                                  LookupOr(data.fields, "inquiry", JStr(""))), s.crm, s.decode);
  }

  /** With a str customer id, the eligibility the run reports is the SAP agent's: the programs
      its draws make eligible, their count, and the restriction of a "fair" payment standing. */
  lemma SapEligibilityReported(t: OrderedTable<AgentRecord>, data: Json, s: Services)
    requires Execute(t, data, s).stop.Finished?
    requires data.JObject? && LookupOr(data.fields, "customer_id", JStr("")).JStr?
    ensures var e := Execute(t, data, s);
      && |e.outputs| == 5 && e.outputs[1].JObject?
      && LookupOr(e.outputs[1].fields, "eligibility_summary", JObject([]))
           == EligibilitySummary(ProgramEligibility(s.sap), s.sap.paymentStanding)
  {
    var e := Execute(t, data, s);
    var customerId := LookupOr(data.fields, "customer_id", JStr(""));
    SapOutput(t, data, s);
    var request := SapRequest(customerId, e.outputs[0]);
    LookupAt(request, 0);
    SapAnswer(request, s.sap);
  }
}
