# Agent orchestration core in Dafny

This project models the orchestration core of the `agent_orchestation` repository. That core is a
small set of Flask services that route an energy-efficiency consultation through several remote
agents: n8n webhooks, an Azure AI Foundry agent, an AWS Bedrock Nova Pro endpoint, a Salesforce
Agentforce agent and a simulated SAP AI Core agent. Every remote call is a parameter: an oracle
that returns an HTTP reply, an agent run or a stream of server-sent-event lines. The model keeps
what the services do with those answers.

- **Registries** (`Table`, `AgentRegistry`, `AcpRegistry`):
  - The three copies of the agent registry are classes over one insertion-ordered table.
  - Registering under an existing id replaces the record but keeps its place in the order.
  - Discovery by capability lists the matching agents in registration order.
- **Fail-fast pipeline** (`Pipeline`):
  - A run walks a fixed list of steps. Each step looks up its capability and calls the first agent found.
  - A missing capability ends the run with an error, before any later step.
  - An exception inside a step ends it as a crash.
  - The run records a trace of the lookups and calls made.
- **The three orchestrations** (`EnergyOrchestrator`, `FiveAgentOrchestrator`, `AcpServer`):
  - the three-step run of `multi_agent_orchestrator.py`;
  - the five-step run of `multi_agent_orchestrator_aws.py`;
  - the single-agent and two-agent flows of `acp_poc.py`, including the keyword→capability rule;
  - the report each one builds.
- **Agent adapters:**
  - n8n answer normalisation (`Webhook`);
  - the Azure assistant-text pick (`EnergyOrchestrator`);
  - the Bedrock result shaping (`BedrockAgent`);
  - the Salesforce fallback decision (`CrmAgent`);
  - the SAP eligibility summary (`SapAgent`);
  - the recommendation parser (`Recommendations`).
- **Clients:**
  - the Nova client, with URL construction, send, status and the polling loop (`NovaClient`);
  - the Salesforce client, with configuration, authentication, sessions and stream reading (`SalesforceClient`).

`Py` holds the Python semantics the rest relies on:
- JSON values, with dicts kept as ordered association lists;
- `dict.get` and indexing, where the `TypeError`/`KeyError` cases are `Raised` outcomes;
- truthiness;
- ASCII `lower`/`upper`;
- `strip`, which removes the characters `str.isspace()` accepts;
- `split` and `str()`.

## Model

| member | source | states |
|---|---|---|
| Table.OrderedTable.Put | multi_agent_orchestrator.py:25-33 | after `d[k] = v` the key maps to `v`, every other key is unchanged, a new key is appended to the order and an existing key keeps its position |
| Table.SelectInSound | multi_agent_orchestrator.py:35-45 | every selected entry is the view of a table entry that passes the filter, with its own key |
| Table.SelectInComplete | multi_agent_orchestrator.py:35-45 | every table entry that passes the filter is selected |
| Table.SelectInOrdered | multi_agent_orchestrator.py:38 | the selection follows the table's insertion order |
| Table.SelectInEmpty | multi_agent_orchestrator.py:35-45 | the selection is empty exactly when no entry passes the filter |
| AgentRegistry.MultiAgentRegistry.constructor | multi_agent_orchestrator.py:22-23 | a new registry is empty |
| AgentRegistry.MultiAgentRegistry.RegisterAgent | multi_agent_orchestrator.py:25-33 | the id now maps to `{type, capabilities, config, status "active"}`, every other id's record is unchanged, and a re-registered id keeps its position |
| AgentRegistry.MultiAgentRegistry.DiscoverByCapability | multi_agent_orchestrator.py:35-45 | the append loop returns `Discover` of the registry |
| AgentRegistry.MultiAgentRegistry.GetAgent | multi_agent_orchestrator.py:47-49 | `get_agent` returns the record exactly when the id is registered, and None otherwise |
| AgentRegistry.DiscoverSpec | multi_agent_orchestrator_aws.py:43-53 | discovery returns exactly the registered agents holding the capability, each with its own id, type and config, in registration order |
| AgentRegistry.DiscoverEmpty | multi_agent_orchestrator.py:35-45 | discovery is empty, not an error, exactly when no agent holds the capability |
| AgentRegistry.DiscoverTieBreak | multi_agent_orchestrator.py:38 | of two matching agents the one registered first is listed first, so the later one is never chosen as first match |
| AcpRegistry.ACPRegistry.constructor | acp_poc.py:14-15 | a new registry is empty |
| AcpRegistry.ACPRegistry.RegisterAgent | acp_poc.py:17-23 | the id maps to `{capabilities, webhook_url, status "active"}`, overwriting any earlier entry, and other ids are unchanged |
| AcpRegistry.ACPRegistry.DiscoverByCapability | acp_poc.py:26-35 | the append loop returns `Discover` of the registry |
| AcpRegistry.DiscoverSpec | acp_poc.py:26-35 | discovery returns `{agent_id, webhook_url}` for exactly the matching agents, in registration order, and is empty exactly when none matches |
| Pipeline.RunOutcome | multi_agent_orchestrator.py:112-164 | every run ends in one of three ways: all steps ran, a step's capability had no agent, or a step raised. The trace holds exactly the lookups and calls of the steps that ran. |
| Pipeline.RunFromOutcome | multi_agent_orchestrator.py:112-164 | the same outcome holds from any point reached by running a prefix of the steps |
| Pipeline.FailFast | multi_agent_orchestrator.py:114-116 | when step k's capability has no agent, the run does not finish, calls at most k agents and looks up only a prefix of the first k+1 capabilities |
| Pipeline.FirstMissing | multi_agent_orchestrator_aws.py:138-217 | when no step raises, the run stops at the first missing capability with exactly the earlier outputs |
| Pipeline.RunsToEnd | multi_agent_orchestrator_aws.py:136-231 | when every capability has an agent and no step raises, the run finishes with one output per step and calls exactly the agents used |
| Pipeline.FinishedStep | multi_agent_orchestrator.py:118-164 | in a finished run each step used the first agent discovered, and its output is that step's answer to the outputs before it |
| Pipeline.FinishedUsed | multi_agent_orchestrator.py:170-188 | in a finished run the agents used are the first match of each capability, in step order, and the calls made are exactly theirs |
| Webhook.CallN8nAgent | multi_agent_orchestrator.py:208-246 | an exception or non-200 reply gives an error dict, and an empty 200 body gives "Success - No content". A non-empty JSON list gives its first element's `output`, or the element itself. Any other JSON is returned as is. |
| Webhook.CallAcpAgent | acp_poc.py:164-205 | an exception gives an error dict, and a non-200 reply falls through to None |
| Webhook.VariantsAgree | acp_poc.py:186-205 | the acp variant and the orchestrators' variant agree on every 200 reply, and both report exceptions as errors. They differ only on non-200 replies: None against an error dict. |
| Recommendations.ParseRecommendations | multi_agent_orchestrator.py:320-341 | the line loop with its mutable current recommendation returns `Recs` of the stripped lines |
| Recommendations.ReadAll | multi_agent_orchestrator.py:338-341 | flushing the open recommendation after the last line completes `Recs` |
| Recommendations.ReadMarker | multi_agent_orchestrator.py:331-334 | a marker line closes the open recommendation and opens one titled by the line |
| Recommendations.ReadText | multi_agent_orchestrator.py:335-336 | a non-empty non-marker line is appended, followed by one space, to the open description |
| Recommendations.ReadOther | multi_agent_orchestrator.py:335 | an empty line, or any line before the first marker, changes nothing |
| Recommendations.TitlesAreMarkers | multi_agent_orchestrator_aws.py:409-415 | the titles are exactly the marker lines (stripped lines starting with "1."–"5." or "•"), in order |
| Recommendations.NoMarkerNoRecs | multi_agent_orchestrator_aws.py:399-420 | a text with no marker line yields `[]` |
| Recommendations.DescriptionEndsInSpace | multi_agent_orchestrator.py:335-336 | a non-empty description ends with the space added after each line |
| Recommendations.StrippedLines | multi_agent_orchestrator.py:326-330 | one stripped line per `split('\n')` part |
| Recommendations.ToJson | multi_agent_orchestrator.py:341 | one dict per recommendation |
| Py.JoinSplit | multi_agent_orchestrator.py:326 | joining the parts of `split` with the separator gives back the text |
| Py.NatToStringValue | multi_agent_orchestrator.py:241 | the decimal digits of a status code denote that code |
| EnergyOrchestrator.FirstTextItem | multi_agent_orchestrator.py:300-303 | a text is found exactly when some content item is a text item, and it is the `text.value` of the first one |
| EnergyOrchestrator.FirstTextIndexSpec | multi_agent_orchestrator.py:301-302 | the index is of the first text item, and no earlier item is one |
| EnergyOrchestrator.FirstAssistantText | multi_agent_orchestrator.py:298-303 | a text is found exactly when some message is an assistant message with a text item; it comes from the first such message |
| EnergyOrchestrator.FirstAssistantIndexSpec | multi_agent_orchestrator.py:298-299 | the index is of the first assistant message holding text, and no earlier message is one |
| EnergyOrchestrator.CallAzureAiAgent | multi_agent_orchestrator.py:248-318 | a completed run with assistant text gives the consultation. A missing client, a run that did not complete, or a thread without assistant text gives an error dict with the source's message. |
| EnergyOrchestrator.Consultation | multi_agent_orchestrator.py:304-309 | the consultation result is never an error dict |
| EnergyOrchestrator.ConsultationData | multi_agent_orchestrator.py:133-139 | the consultant receives the step-1 result as `customer_profile` |
| EnergyOrchestrator.ValidationData | multi_agent_orchestrator.py:155-160 | the validator receives the step-1 result, the recommendations and the original data |
| EnergyOrchestrator.Steps | multi_agent_orchestrator.py:114-152 | the run looks up `customer_processing`, `energy_consultation` and `recommendation_validation`, in that order |
| EnergyOrchestrator.Conclude | multi_agent_orchestrator.py:115-206 | a missing step gives its own error message, and a crash gives "Orchestration failed". Every outcome except a finished run is an error dict. |
| EnergyOrchestrator.Failure | multi_agent_orchestrator.py:204-206 | the failure report is an error dict |
| EnergyOrchestrator.Orchestrate | multi_agent_orchestrator.py:103-106 | the orchestration raises exactly when the request body is not a dict |
| EnergyOrchestrator.OrchestrateReports | multi_agent_orchestrator.py:103-206 | a dict request is answered with the report of the run over its `data` |
| EnergyOrchestrator.OrchestrateFailFast | multi_agent_orchestrator.py:114-152 | when any of the three capabilities has no agent, the answer is an error dict. At most that many agents were called, and no later capability was looked up. |
| EnergyOrchestrator.OrchestrateMissing | multi_agent_orchestrator.py:115-152 | with usable agent configurations, the error names the first missing capability |
| EnergyOrchestrator.StepsDoNotRaise | multi_agent_orchestrator.py:118-164 | over dict data and configured agents no step raises |
| EnergyOrchestrator.ExecuteUsed | multi_agent_orchestrator.py:170-188 | a finished run used the first agent of each capability, in step order, and called exactly those three |
| EnergyOrchestrator.ValidatorInput | multi_agent_orchestrator.py:154-164 | the validator's payload carries the step-1 and step-2 outputs and the original data; its answer is the last output |
| EnergyOrchestrator.ExecuteFinishes | multi_agent_orchestrator.py:112-164 | with dict data, usable configurations and an agent for every capability, the run reaches the end: a failed remote call comes back as an error dict and does not stop it |
| EnergyOrchestrator.ConsultantOutput | multi_agent_orchestrator.py:126-146 | in a finished run the consultant's result is a dict, either the consultation or an error |
| EnergyOrchestrator.OrchestrateCompleted | multi_agent_orchestrator.py:112-206 | with every capability present the run completes whatever the agents answer. It is reported with status "completed", the validator's `approval_status` and the consultant's programs when the validator answered a dict, and as an error otherwise. |
| EnergyOrchestrator.CompletedReport | multi_agent_orchestrator.py:170-199 | a finished run is reported with `approval_status` ("unknown" when absent) as final status, and with the consultant's recommendations |
| EnergyOrchestrator.ReportCompleted | multi_agent_orchestrator.py:171 | the report has status "completed" and no error |
| EnergyOrchestrator.ReportAgents | multi_agent_orchestrator.py:174-190 | `agents_used` lists the three agents in step order, with their platforms and roles |
| EnergyOrchestrator.ReportFinalStatus | multi_agent_orchestrator.py:194 | `final_status` is the one read from the validator |
| EnergyOrchestrator.ReportSummary | multi_agent_orchestrator.py:195-200 | the report carries the consultation summary of the run |
| EnergyOrchestrator.SummaryPassed | multi_agent_orchestrator.py:198 | `validation_passed` is the validator's, and False when it does not say |
| EnergyOrchestrator.SummarySavings | multi_agent_orchestrator.py:199 | `estimated_savings` is the validator's, and "N/A" when it does not say |
| FiveAgentOrchestrator.Steps | multi_agent_orchestrator_aws.py:138-217 | the five capabilities are looked up in the fixed order customer, SAP, Bedrock, Salesforce, validation |
| FiveAgentOrchestrator.Conclude | multi_agent_orchestrator_aws.py:139-288 | a missing step gives its own message, and a crash gives "Orchestration failed" with status "failed". Only a finished run is not an error dict. |
| FiveAgentOrchestrator.Orchestrate | multi_agent_orchestrator_aws.py:127-130 | the orchestration raises exactly when the request body is not a dict |
| FiveAgentOrchestrator.OrchestrateReports | multi_agent_orchestrator_aws.py:127-288 | a dict request is answered with the report of the five-step run |
| FiveAgentOrchestrator.OrchestrateFailFast | multi_agent_orchestrator_aws.py:138-217 | a missing capability at any step gives an error dict. At most that many agents were called, and no later capability was looked up. |
| FiveAgentOrchestrator.OrchestrateMissing | multi_agent_orchestrator_aws.py:139-217 | with usable configurations, the error names the first missing capability |
| FiveAgentOrchestrator.SapStepRuns | multi_agent_orchestrator_aws.py:162-165 | the SAP step raises only when its agent has no `deployment_id` |
| FiveAgentOrchestrator.CrmStepRuns | multi_agent_orchestrator_aws.py:206-209 | the Salesforce step raises only when its agent has no `agent_id` |
| FiveAgentOrchestrator.StepsDoNotRaise | multi_agent_orchestrator_aws.py:136-231 | over dict data and configured agents no step raises: remote failures come back as error dicts |
| FiveAgentOrchestrator.ExecuteUsed | multi_agent_orchestrator_aws.py:239-265 | a finished run used the first agent of each of the five capabilities, in order, and called exactly those |
| FiveAgentOrchestrator.SapStepResult | multi_agent_orchestrator_aws.py:156-165 | the SAP step answers the enrichment request built from the customer id and the step-1 result |
| FiveAgentOrchestrator.CrmStepResult | multi_agent_orchestrator_aws.py:199-209 | the Salesforce step answers the query built from the customer id, the step-1 result and the inquiry |
| FiveAgentOrchestrator.SapOutput | multi_agent_orchestrator_aws.py:152-165 | in a finished run the second output is the SAP answer to its request, a dict |
| FiveAgentOrchestrator.BedrockOutput | multi_agent_orchestrator_aws.py:186-189 | in a finished run the Bedrock output is a dict |
| FiveAgentOrchestrator.CrmOutput | multi_agent_orchestrator_aws.py:195-209 | in a finished run the fourth output is the Salesforce answer to its query, a dict |
| FiveAgentOrchestrator.ValidatorInput | multi_agent_orchestrator_aws.py:219-231 | the validator receives all four earlier outputs and the original data |
| FiveAgentOrchestrator.CompletedReport | multi_agent_orchestrator_aws.py:237-283 | a finished run is reported with `approval_status` ("unknown"), the recommendations and the Salesforce summary ("No major service issues") |
| FiveAgentOrchestrator.CompletedValidatorNotDict | multi_agent_orchestrator_aws.py:272-288 | a validator answer that is not a dict makes `.get` raise, and the run is reported as failed |
| FiveAgentOrchestrator.ReportCompleted | multi_agent_orchestrator_aws.py:238 | the report has status "completed" and no error |
| FiveAgentOrchestrator.ReportAgents | multi_agent_orchestrator_aws.py:241-267 | `agents_used` lists the five agents in step order, with their platforms and roles |
| FiveAgentOrchestrator.ReportFinalStatus | multi_agent_orchestrator_aws.py:273 | `final_status` is the one read from the validator |
| FiveAgentOrchestrator.ReportSummary | multi_agent_orchestrator_aws.py:274-282 | the summary reads SAP's account status and eligibility summary (`{}` when absent) and the validator's verdict and savings (False, "N/A") |
| FiveAgentOrchestrator.SummaryEligibility | multi_agent_orchestrator_aws.py:277 | the summary's `program_eligibility` is SAP's eligibility summary |
| FiveAgentOrchestrator.SummaryHistory | multi_agent_orchestrator_aws.py:279 | the summary's `service_history_summary` is the Salesforce summary |
| FiveAgentOrchestrator.SummaryVerdict | multi_agent_orchestrator_aws.py:280 | the summary's `validation_passed` is the verdict read |
| FiveAgentOrchestrator.OrchestrateCompleted | multi_agent_orchestrator_aws.py:135-283 | graceful degradation: with every capability present and usable configurations, the run completes whatever the agents answered. It reports status "completed" unless the validator's answer is not a dict. |
| FiveAgentOrchestrator.ExecuteFinishes | multi_agent_orchestrator_aws.py:136-231 | with every capability present and usable configurations, all five steps run |
| FiveAgentOrchestrator.CrmUnreachableFallsBack | multi_agent_orchestrator_aws.py:437-510 | without a Salesforce client, or when its session does not start, step 4 uses the fallback and the canned summary |
| FiveAgentOrchestrator.SapEligibilityReported | multi_agent_orchestrator_aws.py:152-165 | with a str customer id, SAP's eligibility summary in the run is the one computed from its draws |
| SapAgent.EligibleProgramsMembers | multi_agent_orchestrator_aws.py:611 | a program is recommended exactly when its eligibility flag is true |
| SapAgent.EligibleProgramsOrder | multi_agent_orchestrator_aws.py:611 | the recommended programs keep the eligibility map's order |
| SapAgent.EligibilitySummary | multi_agent_orchestrator_aws.py:586-620 | `recommended_programs` is the eligible keys in map order, and `total_programs_eligible` is their count. `restrictions` is non-empty exactly when payment standing is "fair". |
| SapAgent.OnlyDrawnPrograms | multi_agent_orchestrator_aws.py:579-585 | only the three drawn programs can be recommended, so at most three are |
| SapAgent.SliceUpper | multi_agent_orchestrator_aws.py:546 | `customer_id[:8].upper()` succeeds exactly on a str, and raises otherwise |
| SapAgent.AccountNumberSpec | multi_agent_orchestrator_aws.py:546 | the account number is "SAP-" followed by the first eight characters of the id, upper-cased |
| SapAgent.SapRecordNotError | multi_agent_orchestrator_aws.py:541-591 | the simulated answer is never an error dict |
| SapAgent.SapRecordSummary | multi_agent_orchestrator_aws.py:586-620 | the answer's `eligibility_summary` is the one computed from the draws |
| SapAgent.SapRecordAccount | multi_agent_orchestrator_aws.py:545-551 | the answer's account status carries the account number |
| SapAgent.SapAnswer | multi_agent_orchestrator_aws.py:525-631 | the answer is an error dict exactly when the customer id is not a str. Otherwise it carries the eligibility summary of the draws and the account number. |
| CrmAgent.Exchange | multi_agent_orchestrator_aws.py:434-450 | the agent responded only when a client exists, its session started and its message got a response, and the answer is then that response. Otherwise the answer is `{"response": ""}`. |
| CrmAgent.ExchangeResponded | multi_agent_orchestrator_aws.py:437-450 | the agent responded exactly when a client exists, its session started and the stream gave a response |
| CrmAgent.FallbackDecision | multi_agent_orchestrator_aws.py:453-514 | `used_fallback` is set exactly when the agent did not respond, or the lower-cased answer contains "can't assist", "cannot assist" or "can't help", or is shorter than 50 characters. The summary is the canned one or the answer's first 200 characters. A non-str `response` gives an error dict with `used_fallback` set. |
| CrmAgent.NoSessionFallsBack | multi_agent_orchestrator_aws.py:437-510 | without a client, or when the session does not start, the fallback and canned summary are used |
| CrmAgent.HistoryFallbackFlag | multi_agent_orchestrator_aws.py:463-467 | the result records the fallback decision |
| CrmAgent.HistorySummary | multi_agent_orchestrator_aws.py:497-507 | the summary is the canned one with a fallback, and otherwise the first 200 characters of the answer |
| CrmAgent.HistoryNotError | multi_agent_orchestrator_aws.py:463-514 | a result that was read is not an error dict |
| CrmAgent.CrmError | multi_agent_orchestrator_aws.py:516-523 | the exception result is an error dict |
| CrmAgent.CallSalesforceAgent | multi_agent_orchestrator_aws.py:422-523 | the result is always a dict. When the agent did not respond (no client, no session, or no answer) it is the canned history: no error, `used_fallback` set and the canned summary. When it responded, a non-str `response` gives an error dict with `used_fallback` set. A str `response` sets `used_fallback` exactly when it refuses or is shorter than 50 characters, and the summary is the canned one or its first 200 characters. |
| CrmAgent.ExchangeAnswer | multi_agent_orchestrator_aws.py:434-450 | the exchange responded exactly when a client exists, its session started and the stream gave a response. The answer is then that response, and otherwise its `response` is "". |
| CrmAgent.HistoryOfExchange | multi_agent_orchestrator_aws.py:453-514 | without an answer the result is the canned history, and with one the answer is judged by the fallback rule |
| BedrockAgent.CallAwsBedrockAgent | multi_agent_orchestrator_aws.py:330-397 | a missing client gives "AWS Bedrock client not initialized", and an exception while building the prompt gives an error dict with its reason |
| BedrockAgent.BedrockAnswer | multi_agent_orchestrator_aws.py:369-392 | the structured consultation is returned only when the Nova result has status "completed". Any other status or error gives an error dict. |
| BedrockAgent.ConsultedSpec | multi_agent_orchestrator_aws.py:382-392 | the consultation is an error exactly when the result is, or its `response` is not a str |
| BedrockAgent.NovaResult | multi_agent_orchestrator_aws.py:369-380 | the Nova client's result is a dict |
| AcpServer.FirstMention | acp_poc.py:79-83 | the `for`/`break` loop stops at the first keyword mentioned, and none before it is |
| AcpServer.RequiredCapabilitySpec | acp_poc.py:71-83 | a capability is required exactly when a keyword is mentioned, and it is the capability of the first keyword in map order that is |
| AcpServer.DetermineCapability | acp_poc.py:78-83 | the keyword loop computes `RequiredCapability` |
| AcpServer.TaskResponse | acp_poc.py:85-104 | an unmatched task gives 400, and a capability without agents gives 404, each with the source's message. Everything else gives 200. |
| AcpServer.TaskServed | acp_poc.py:94-104 | a served task names the first agent discovered and carries that agent's answer |
| AcpServer.TaskAgentUsed | acp_poc.py:101 | the response's `agent_used` is the agent called |
| AcpServer.TaskResult | acp_poc.py:103 | the response's `result` is that agent's answer |
| AcpServer.OrchestrateTask | acp_poc.py:62-104 | the endpoint raises exactly when the body is not a dict or its task is not a str; otherwise it answers with `TaskResponse` |
| AcpServer.MultiSteps | acp_poc.py:120-149 | the two-agent flow looks up `customer_processing` and then `data_validation` |
| AcpServer.MultiFailFast | acp_poc.py:122-136 | a missing capability gives its error dict, and no agent (first step) or only the processor (second step) was called |
| AcpServer.MultiCompleted | acp_poc.py:126-149 | both agents are the first discovered. The validator receives the original data and the processor's result. |
| AcpServer.MultiStepsRun | acp_poc.py:120-149 | no step of the two-agent flow raises |
| AcpServer.FinalApproval | acp_poc.py:161 | `final_approval` is `result.approval_status` ("unknown" when absent); it raises when the answer or its `result` is not a dict |
| AcpServer.MultiApproval | acp_poc.py:151-162 | a completed flow is reported with that approval, or raises with it |
| AcpServer.MultiReportApproval | acp_poc.py:161 | the report's `final_approval` is the approval read |
| AcpServer.MultiConclude | acp_poc.py:123-136 | a missing step gives its own error message |
| AcpServer.OrchestrateMulti | acp_poc.py:113-116 | a body that is not a dict raises |
| NovaClient.NewClient | aws_bedrock_nova_client.py:14-24 | the base URL is the argument unless it is None or empty, and then it is the default. The message and status URLs are the base URL plus "/message" and "/status". |
| NovaClient.SendPayload | aws_bedrock_nova_client.py:41-48 | the payload has `role` and `message`, and has `system_prompt` exactly when one is given and truthy |
| NovaClient.SendMessage | aws_bedrock_nova_client.py:50-79 | an accepted reply gives `{threadId, status ("unknown"), message ("Processing")}`; anything else a dict whose only key is `error` |
| NovaClient.GetStatus | aws_bedrock_nova_client.py:91-107 | a 200 reply with a `body` gives the decoded inner document, and a 200 reply without one gives "Unexpected response format". Any other reply gives a dict whose only key is `error`. |
| NovaClient.FailedPollKeepsWaiting | aws_bedrock_nova_client.py:126-149 | a failed status poll has no `status`, so it is not terminal and polling continues |
| NovaClient.WaitForCompletion | aws_bedrock_nova_client.py:121-157 | the polling loop, with one attempt per poll, computes `Wait` |
| NovaClient.WaitFromSpec | aws_bedrock_nova_client.py:126-149 | the wait ends at the first poll that reports "completed" or "error", with the result of that poll. If no poll within the budget is terminal, it times out after exactly `budget` polls. |
| NovaClient.WaitSpec | aws_bedrock_nova_client.py:126-157 | the same holds from the start, and every result carries the thread id it was given |
| NovaClient.FinishShape | aws_bedrock_nova_client.py:132-146 | a terminal result carries the thread id, and is an error exactly when its status is not "completed" |
| NovaClient.CompletedShape | aws_bedrock_nova_client.py:134-138 | the completed result has status "completed", the thread id and no error |
| NovaClient.ErroredShape | aws_bedrock_nova_client.py:142-146 | the error result has status "error", the thread id and an error |
| NovaClient.TimedOutShape | aws_bedrock_nova_client.py:151-157 | the timeout result has status "timeout", the thread id and an error |
| NovaClient.SendAndWaitSpec | aws_bedrock_nova_client.py:174-186 | an error from `send_message` is returned unchanged without polling, and a missing thread id gives "No threadId received". Otherwise the result is exactly the wait's. |
| NovaClient.SentThread | aws_bedrock_nova_client.py:54-79 | `send_message` reports an error exactly when its reply is not accepted, and otherwise passes on the thread id |
| NovaClient.SendAndWaitErrorUnlessCompleted | aws_bedrock_nova_client.py:159-186 | every result of `send_and_wait` is a dict that is an error exactly when its status is not "completed" |
| SalesforceClient.ConfigurationError | salesforce_agent_test.py:24-26 | the constructor raises exactly when a key, secret, agent id or instance URL is missing or empty |
| SalesforceClient.NewSalesforceAgentClient | salesforce_agent_test.py:16-26 | a complete configuration gives a client with no token and no session, and any other raises the ValueError |
| SalesforceClient.SalesforceAgentClient.constructor | salesforce_agent_test.py:16-26 | the fields are the configuration, and the token and session start as None |
| SalesforceClient.SalesforceAgentClient.Authenticate | salesforce_agent_test.py:28-61 | a failed request gives False and changes nothing. Otherwise the token is stored, and `instance_url` is replaced only when the response has one. |
| SalesforceClient.SalesforceAgentClient.StartSession | salesforce_agent_test.py:125-176 | the session id is stored when the answer has one; the result is `StartOutcome` |
| SalesforceClient.StartOutcome | salesforce_agent_test.py:153-176 | True exactly when the reply is good, has a `sessionId`, and the greeting check does not raise |
| SalesforceClient.SalesforceAgentClient.SendMessage | salesforce_agent_test.py:178-258 | the stream loop returns `StreamResult` of the reply |
| SalesforceClient.LineChunk | salesforce_agent_test.py:213-240 | bytes that are not UTF-8 raise a UnicodeDecodeError, which `send_message` turns into None. Only "data: " lines count, with the prefix removed. Lines whose JSON fails to decode are skipped, and a chunk that is taken is truthy. |
| SalesforceClient.ExtractChunk | salesforce_agent_test.py:225-235 | the chunk is `message` when it is a str, otherwise `message.text`, otherwise `message.message`. The top-level `text` is used only when there is no `message`. |
| SalesforceClient.Chunks | salesforce_agent_test.py:213-240 | every collected chunk is truthy |
| SalesforceClient.FirstLongest | salesforce_agent_test.py:243 | `max(..., key=len)` picks the first of the longest |
| SalesforceClient.FinalMessage | salesforce_agent_test.py:243 | the final message is the first longest chunk, or "" when there is none; it raises exactly when some chunk has no length |
| SalesforceClient.Lengths | salesforce_agent_test.py:243 | the lengths of the chunks, or an exception when one has none |
| SalesforceClient.StreamResultSpec | salesforce_agent_test.py:243-258 | there is a `{'response': final}` exactly when the stream was read without an exception and yielded a chunk |
| SalesforceClient.SalesforceAgentClient.EndSession | salesforce_agent_test.py:260-269 | with no session nothing happens, and otherwise the session id is cleared. Nothing else changes. |
| SalesforceClient.EndedSession | salesforce_agent_test.py:265-269 | after `end_session` there is no session, and a missing session is left as it was |
| SalesforceClient.EndSessionIdempotent | salesforce_agent_test.py:260-269 | ending a session twice is the same as ending it once |

## Left out

- HTTP, Flask and I/O: requests, Flask routing, `jsonify`, CORS, `app.run`, the `__main__` registration scripts, environment loading and every `print`. Each remote call is a parameter that returns a reply, and the HTTP status codes of `acp_poc.py` are part of the response value.
- The register and discover HTTP endpoints only parse the request body and call the registry methods that are modelled.
- The health endpoints report configuration only.
- `json.loads` is a parameter `decode`. JSON numbers are integers, and floating-point values are not modelled: bills, kWh, satisfaction and quality scores.
- `str()` of a dict or list renders it without Python's string escaping. Exception messages follow Python 3 wording but are not guaranteed to match it character for character.
- `lower`/`upper` change ASCII letters only. Python's Unicode case mapping is not modelled.
- The prompt f-strings sent to the Azure and Bedrock agents are presentation text. The Bedrock prompt is a parameter (`prompt`), and its possible exception is kept. The Azure prompt is not modelled.
- The Azure client (`azure_ai_foundry_client.py`) is not part of this model. Its whole run (thread, message, run, wait, messages) is a parameter `AzureRun`: no client, an exception on the way, or a run status with the thread's messages.
- Wall-clock time in `wait_for_completion` becomes a poll budget, and `time.sleep` is left out. NovaClient.WaitForCompletion: the timeout message uses `max_wait_time` as given, but the number of polls the time allows is an input (`budget`).
- The SAP simulator's random draws are inputs (`SapDraws`), and so is the `time.sleep` before the answer. Only the part of its answer that the orchestration reads is built: customer id, account status, program eligibility and eligibility summary.
- SapAgent.CallSapAiCoreAgent: the request id, billing history, energy consumption, contracts, service history and module results are random or floating point and are left out of the answer.
- The Salesforce session key (`uuid4`) and the request headers and payloads for the token and session calls are not modelled. `start_session` and `authenticate` take the reply as an input.
- SalesforceClient.SalesforceAgentClient.Authenticate: a token response without `access_token` raises a KeyError in the source, which propagates. The model returns it as `Raised` and leaves the fields as they were.
- `check_api_versions` only inspects and prints live API resources.
- `main()` in `salesforce_agent_test.py`, `test_complete_flow.py` and `test_orchestrator_with_aws.py` are scripts that call live endpoints and print.
- The `agent_id` argument of `call_salesforce_agent` and the `deployment_id` of `call_sap_ai_core_agent` are only printed. The model reads them where the orchestration indexes the configuration, because a missing key raises there.
- CrmAgent.CallSalesforceAgent: `end_session` after the message is not modelled separately from the exchange, because its only effect is on the client's `session_id`, which `SalesforceClient.SalesforceAgentClient.EndSession` models.
