/** `call_aws_bedrock_agent` in multi_agent_orchestrator_aws.py: the energy consultation asked
    of the AWS Bedrock Nova Pro agent through the Nova client.  The consultation message is an
    f-string over the request (it reads the request as a dict, and may raise doing so); it is a
    parameter, `prompt`.  The client's exchange is `NovaClient.SendAndWait`: the replies to its
    send and to its status polls, and the poll budget, are given by a `NovaService`. */
module BedrockAgent {
  import opened Py
  import opened Webhook
  import NovaClient
  import EnergyOrchestrator

  /** A configured Nova client and what the gateway answers it. */
  datatype NovaService = NovaService(client: NovaClient.Client, post: (string, Json) -> HttpReply,
                                     replies: nat -> HttpReply, budget: nat)

  const DefaultAgentId: string := "aws-bedrock-nova-pro"

  const DefaultSystemPrompt: string :=
    "You are a helpful customer service agent for an energy company. Provide clear, accurate"
    + " information about energy efficiency programs and services."

  /** `max_wait_time` of the consultation, in seconds. */
  const MaxWaitTime: int := 120

  const BedrockFailure: string := "Failed to call AWS Bedrock agent: "

  /** The dict `send_and_wait` returns for the consultation message, sent as the user with the
      configuration's system prompt (the default one when it has none). */
  function NovaResult(agentConfig: Json, message: string, nova: NovaService,
                      decode: string -> Option<Json>): (r: Outcome<Json>)
    requires agentConfig.JObject?
    ensures r.Value? ==> r.value.JObject?
  {
    var systemPrompt := LookupOr(agentConfig.fields, "system_prompt", JStr(DefaultSystemPrompt));
    NovaClient.SendAndWaitErrorUnlessCompleted(nova.client, message, "user", systemPrompt, MaxWaitTime,
                                               nova.budget, nova.post, nova.replies, decode);
    NovaClient.SendAndWait(nova.client, message, "user", systemPrompt, MaxWaitTime,
                           nova.budget, nova.post, nova.replies, decode).0
  }

  /** A completed result gives the consultation over its response and thread id (parsing the
      recommendations raises unless the response is a str); any other result gives an error
      naming the result's own error. */
  function Consulted(result: Json): (r: Json)
    requires result.JObject?
    ensures r.JObject?
  {
    if Lookup(result.fields, "status") == Some(JStr("completed")) then
      match AsStr(LookupOr(result.fields, "response", JStr("")), "split")
      case Raised(e) => ErrorObj(BedrockFailure + e)
      case Value(s) => EnergyOrchestrator.Consultation(s, LookupOr(result.fields, "threadId", JStr("")))
    else ErrorObj("AWS Bedrock agent failed: " + Str(LookupOr(result.fields, "error", JStr("Unknown error"))))
  }

  /** `call_aws_bedrock_agent(agent_config, consultation_data)`: every exception, from reading a
      configuration that is not a dict, a missing client, the message, or the client itself,
      becomes an error dict. */
  function CallAwsBedrockAgent(agentConfig: Json, consultationData: Json, nova: Option<NovaService>,
                               prompt: Json -> Outcome<string>, decode: string -> Option<Json>): (r: Json)
    ensures r.JObject?
    ensures !agentConfig.JObject? ==> IsError(r)
    ensures agentConfig.JObject? && nova.None? ==> r == ErrorObj(BedrockFailure + "AWS Bedrock client not initialized")
    ensures agentConfig.JObject? && nova.Some? && prompt(consultationData).Raised? ==>
      r == ErrorObj(BedrockFailure + prompt(consultationData).reason)
  {
    match Get(agentConfig, "agent_id", JStr(DefaultAgentId))
    case Raised(e) => ErrorObj(BedrockFailure + e)
    case Value(_) =>
      if nova.None? then ErrorObj(BedrockFailure + "AWS Bedrock client not initialized")
      else
        match prompt(consultationData)
        case Raised(e) => ErrorObj(BedrockFailure + e)
        case Value(message) =>
          match NovaResult(agentConfig, message, nova.value, decode)
          case Raised(e) => ErrorObj(BedrockFailure + e)
          case Value(result) => Consulted(result)
  }

  /** The consultation is an error exactly when the Nova client's result is one (its status
      is not `completed`) or its response is not a str; otherwise it is the consultation
      over that response, with the recommendations parsed from it. */
  lemma ConsultedSpec(result: Json)
    requires result.JObject?
    requires IsError(result) <==> Lookup(result.fields, "status") != Some(JStr("completed"))
    ensures var response := LookupOr(result.fields, "response", JStr(""));
      && (IsError(Consulted(result)) <==> IsError(result) || !response.JStr?)
      && (!IsError(result) && response.JStr? ==>
            Consulted(result) == EnergyOrchestrator.Consultation(response.s, LookupOr(result.fields, "threadId", JStr(""))))
  {
  }

  /** With a dict configuration, a client and a message, the agent's answer is an error exactly
      when the Nova client's result is one or has no str response. */
  lemma BedrockAnswer(agentConfig: Json, consultationData: Json, nova: NovaService,
                      prompt: Json -> Outcome<string>, decode: string -> Option<Json>)
    requires agentConfig.JObject? && prompt(consultationData).Value?
    ensures var res := NovaResult(agentConfig, prompt(consultationData).value, nova, decode);
      var r := CallAwsBedrockAgent(agentConfig, consultationData, Some(nova), prompt, decode);
      && (res.Raised? ==> r == ErrorObj(BedrockFailure + res.reason))
      && (res.Value? ==>
            var response := LookupOr(res.value.fields, "response", JStr(""));
            && (IsError(r) <==> IsError(res.value) || !response.JStr?)
            && (!IsError(r) ==>
                  r == EnergyOrchestrator.Consultation(response.s, LookupOr(res.value.fields, "threadId", JStr("")))))
  {
    var message := prompt(consultationData).value;
    var systemPrompt := LookupOr(agentConfig.fields, "system_prompt", JStr(DefaultSystemPrompt));
    var res := NovaResult(agentConfig, message, nova, decode);
    if res.Value? {
      NovaClient.SendAndWaitErrorUnlessCompleted(nova.client, message, "user", systemPrompt, MaxWaitTime,
                                                 nova.budget, nova.post, nova.replies, decode);
      ConsultedSpec(res.value);
    }
  }
}
