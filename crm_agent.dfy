/** `call_salesforce_agent` in multi_agent_orchestrator_aws.py: asks the Salesforce Agentforce
    agent for the customer's service history and falls back to a canned history when the agent
    gave nothing useful.  The exchange with the agent goes through the Salesforce client:
    `start_session`, then `send_message`, then `end_session`. */
module CrmAgent {
  import opened Py
  import opened Webhook
  import opened SalesforceClient

  /** The Salesforce client's side of one exchange: the reply to the session request and the
      stream its message request receives. */
  datatype CrmExchange = CrmExchange(sessionReply: HttpReply, stream: Json -> StreamReply)

  /** `{"response": ""}`, the answer assumed until the agent gives a better one. */
  const NoAnswer: Json := Obj1("response", JStr(""))

  /** The agent's answer and whether it responded: a session that starts, then a message
      whose answer is truthy with a truthy `response`.  Any exception inside (raised by
      `start_session`, or by `.get` on the answer) leaves no answer.  Without a client
      (`crm` is None) nothing is asked. */
  function Exchange(crm: Option<CrmExchange>, query: string, decode: string -> Option<Json>): (r: (Json, bool))
    ensures r.1 ==> crm.Some? && StartOutcome(crm.value.sessionReply, decode) == Value(true)
    ensures r.1 ==> Some(r.0) == StreamResult(crm.value.stream(MessagePayload(query)), decode)
    ensures !r.1 ==> r.0 == NoAnswer
    ensures r.0.JObject?
  {
    match crm
    case None => (NoAnswer, false)
    case Some(x) =>
      match StartOutcome(x.sessionReply, decode)
      case Raised(_) => (NoAnswer, false)
      case Value(started) =>
        if !started then (NoAnswer, false)
        else
          match StreamResult(x.stream(MessagePayload(query)), decode)
          case None => (NoAnswer, false)
          case Some(response) =>
            if !Truthy(response) then (NoAnswer, false)
            else
              match Get(response, "response", JNull)
              case Raised(_) => (NoAnswer, false)
              case Value(v) => if Truthy(v) then (response, true) else (NoAnswer, false)
  }

  /** The agent responded exactly when a client is there, its session started, and its
      message got a (non-empty) answer. */
  lemma ExchangeResponded(crm: Option<CrmExchange>, query: string, decode: string -> Option<Json>)
    ensures Exchange(crm, query, decode).1 <==>
      && crm.Some?
      && StartOutcome(crm.value.sessionReply, decode) == Value(true)
      && StreamResult(crm.value.stream(MessagePayload(query)), decode).Some?
  {
    if crm.Some? && StartOutcome(crm.value.sessionReply, decode) == Value(true) {
      var reply := crm.value.stream(MessagePayload(query));
      if StreamResult(reply, decode).Some? {
        var final := FinalMessage(Chunks(reply.lines, decode).value).value;
        assert StreamResult(reply, decode).value == Obj1("response", final) && Truthy(final);
      }
    }
  }

  /** `needs_fallback`: no answer, an answer that refuses, or one shorter than 50 characters. */
  predicate NeedsFallback(responded: bool, message: string) {
    || !responded
    || IsInfix("can't assist", message)
    || IsInfix("cannot assist", message)
    || IsInfix("can't help", message)
    || |message| < 50
  }

  /** The query sent to the agent. */
  function Query(customerId: Json, currentInquiry: Json): string {
    "Check service history for customer " + Str(customerId)
    + ". Do they have any open cases, recent complaints, or previous inquiries related to energy"
    + " efficiency or billing? Current inquiry: " + Str(currentInquiry)
  }

  const FallbackSummary: string :=
    "Customer has positive service history with 2 successfully resolved inquiries in past year."
    + " No open cases. Previously interested in smart home energy solutions."

  const FallbackNotes: string :=
    "Customer shows interest in technology-based solutions. Previous smart thermostat inquiry"
    + " suggests good candidate for IoT energy programs."

  const AgentNotes: string := "Based on Salesforce Agentforce analysis"

  function Inquiry(date: string, kind: string, subject: string, hours: int): Json {
    JObject([("date", JStr(date)), ("type", JStr(kind)), ("subject", JStr(subject)),
             ("status", JStr("Resolved")), ("resolution_time_hours", JInt(hours))])
  }

  /** The canned service history (its floating-point satisfaction score is not modelled). */
  const FallbackHistory: Json :=
    JObject([("open_cases", JInt(0)),
             ("closed_cases_last_12_months", JInt(2)),
             ("last_contact_date", JStr("2024-11-15")),
             ("previous_inquiries", JList([Inquiry("2024-09-20", "Product Inquiry", "Smart thermostat compatibility", 24),
                                           Inquiry("2024-06-10", "Billing Question", "Summer rate plan details", 4)])),
             ("energy_program_enrollment", JList([JStr("Energy Efficiency Newsletter"),
                                                  JStr("Smart Home Tips Email Series")])),
             ("customer_tier", JStr("Standard")),
             ("account_standing", JStr("Good"))])

  const CrmFailure: string := "Failed to call Salesforce agent: "

  /** The result when reading the answer raises: an error, with the fallback flag set. */
  function CrmError(reason: string): (r: Json)
    ensures IsError(r)
  {
    JObject([("error", JStr(CrmFailure + reason)), ("used_fallback", JBool(true)),
             ("summary", JStr("Unable to retrieve service history - proceeding with consultation"))])
  }

  /** The service-history result for an answer that was read: the query, the raw answer and
      the fallback flag, then either the canned history or the agent's own answer, with a
      summary and notes. */
  function History(query: string, answer: Json, responseText: string, fallback: bool): Json
    requires answer.JObject?
  {
    JObject([("query", JStr(query)),
             ("agent_raw_response", LookupOr(answer.fields, "response", JStr("No response"))),
             ("used_fallback", JBool(fallback)),
             ("service_history", if fallback then FallbackHistory else AgentHistory(responseText)),
             ("summary", JStr(if fallback then FallbackSummary else Take(responseText, 200))),
             ("recommendation_notes", JStr(if fallback then FallbackNotes else AgentNotes))])
  }

  function AgentHistory(responseText: string): Json {
    JObject([("agent_response", JStr(responseText)), ("source", JStr("salesforce_agentforce"))])
  }

  /** A service-history result that was read is never an error. */
  lemma HistoryNotError(query: string, answer: Json, responseText: string, fallback: bool)
    requires answer.JObject?
    ensures !IsError(History(query, answer, responseText, fallback))
  {
    NoErrorKey(History(query, answer, responseText, fallback).fields);
  }

  /** The result records the fallback decision. */
  lemma HistoryFallbackFlag(query: string, answer: Json, responseText: string, fallback: bool)
    requires answer.JObject?
    ensures Lookup(History(query, answer, responseText, fallback).fields, "used_fallback") == Some(JBool(fallback))
  {
    var r := History(query, answer, responseText, fallback);
    assert r.fields[2] == ("used_fallback", JBool(fallback));
    LookupAt(r.fields, 2);
  }

  /** The summary is the canned one with a fallback, otherwise the answer's first 200
      characters. */
  lemma HistorySummary(query: string, answer: Json, responseText: string, fallback: bool)
    requires answer.JObject?
    ensures Lookup(History(query, answer, responseText, fallback).fields, "summary")
      == Some(JStr(if fallback then FallbackSummary else Take(responseText, 200)))
  {
    var r := History(query, answer, responseText, fallback);
    assert r.fields[4] == ("summary", JStr(if fallback then FallbackSummary else Take(responseText, 200)));
    LookupAt(r.fields, 4);
  }

  /** The result for the agent's answer: lower-casing a `response` that is not a str raises,
      which the outer handler reports; otherwise the answer is judged and recorded. */
  function ServiceHistory(query: string, answer: Json, responded: bool): (r: Json)
    requires answer.JObject?
    ensures r.JObject?
  {
    match AsStr(LookupOr(answer.fields, "response", JStr("")), "lower")
    case Raised(e) => CrmError(e)
    case Value(text) => History(query, answer, text, NeedsFallback(responded, Lower(text)))
  }

  /** The query built from the request's customer id and inquiry. */
  function QueryOf(queryData: seq<(string, Json)>): string {
    Query(LookupOr(queryData, "customer_id", JStr("")), LookupOr(queryData, "current_inquiry", JStr("")))
  }

  /** The agent answered the query: a client is there, its session started and its message
      got an answer. */
  predicate Responded(crm: Option<CrmExchange>, query: string, decode: string -> Option<Json>) {
    && crm.Some?
    && StartOutcome(crm.value.sessionReply, decode) == Value(true)
    && StreamResult(crm.value.stream(MessagePayload(query)), decode).Some?
  }

  /** `call_salesforce_agent(agent_id, query_data)`; the agent id is only printed.  Without an
      answer the canned history is used.  With one, a `response` that is not a str gives an
      error with the fallback flag set; a str one sets `used_fallback` exactly when it refuses
      or is shorter than 50 characters, and the summary is then the canned one, otherwise the
      answer's first 200 characters. */
  function CallSalesforceAgent(queryData: seq<(string, Json)>, crm: Option<CrmExchange>,
                               decode: string -> Option<Json>): (r: Json)
    ensures r.JObject?
    ensures !Responded(crm, QueryOf(queryData), decode) ==> FellBack(r)
    ensures Responded(crm, QueryOf(queryData), decode) ==>
      AnswerJudged(r, StreamResult(crm.value.stream(MessagePayload(QueryOf(queryData))), decode).value)
  {
    var query := QueryOf(queryData);
    var e := Exchange(crm, query, decode);
    ExchangeAnswer(crm, query, decode);
    HistoryOfExchange(query, e.0, e.1);
    ServiceHistory(query, e.0, e.1)
  }

  /** The canned history was used: no error, the fallback flag and the canned summary. */
  predicate FellBack(r: Json)
    requires r.JObject?
  {
    && !IsError(r)
    && Lookup(r.fields, "used_fallback") == Some(JBool(true))
    && Lookup(r.fields, "summary") == Some(JStr(FallbackSummary))
  }

  /** The result judges the agent's answer: a `response` that is not a str gives an error
      with the fallback flag set; a str one sets the flag exactly when it needs a fallback,
      and the summary follows the flag. */
  predicate AnswerJudged(r: Json, answer: Json)
    requires r.JObject?
  {
    && answer.JObject?
    && var v := LookupOr(answer.fields, "response", JStr(""));
    && (!v.JStr? ==> IsError(r) && Lookup(r.fields, "used_fallback") == Some(JBool(true)))
    && (v.JStr? ==>
          var fallback := NeedsFallback(true, Lower(v.s));
          && !IsError(r)
          && Lookup(r.fields, "used_fallback") == Some(JBool(fallback))
          && Lookup(r.fields, "summary") == Some(JStr(if fallback then FallbackSummary else Take(v.s, 200))))
  }

  /** The judged history of an exchange: the canned one without an answer, the answer
      judged otherwise. */
  lemma HistoryOfExchange(query: string, answer: Json, responded: bool)
    requires answer.JObject?
    requires !responded ==> LookupOr(answer.fields, "response", JStr("")) == JStr("")
    ensures !responded ==> FellBack(ServiceHistory(query, answer, responded))
    ensures responded ==> AnswerJudged(ServiceHistory(query, answer, responded), answer)
  {
    FallbackDecision(query, answer, responded);
  }

  /** The exchange's answer: the streamed result when the agent responded, otherwise
      `{"response": ""}`. */
  lemma ExchangeAnswer(crm: Option<CrmExchange>, query: string, decode: string -> Option<Json>)
    ensures Exchange(crm, query, decode).1 == Responded(crm, query, decode)
    ensures Responded(crm, query, decode) ==>
      Exchange(crm, query, decode).0 == StreamResult(crm.value.stream(MessagePayload(query)), decode).value
    ensures !Responded(crm, query, decode) ==>
      LookupOr(Exchange(crm, query, decode).0.fields, "response", JStr("")) == JStr("")
  {
    ExchangeResponded(crm, query, decode);
    assert LookupOr(NoAnswer.fields, "response", JStr("")) == JStr("");
  }

  /** `used_fallback` is set exactly when the agent did not respond, or its lower-cased answer
      refuses or is shorter than 50 characters; without a fallback the summary is the answer's
      first 200 characters, with one it is the canned summary.  A `response` that is not a
      str makes the result an error, with `used_fallback` set. */
  lemma FallbackDecision(query: string, answer: Json, responded: bool)
    requires answer.JObject?
    ensures var r := ServiceHistory(query, answer, responded);
      var v := LookupOr(answer.fields, "response", JStr(""));
      && (!v.JStr? ==> IsError(r) && Lookup(r.fields, "used_fallback") == Some(JBool(true)))
      && (v.JStr? ==>
            var fallback := NeedsFallback(responded, Lower(v.s));
            && !IsError(r)
            && Lookup(r.fields, "used_fallback") == Some(JBool(fallback))
            && Lookup(r.fields, "summary") == Some(JStr(if fallback then FallbackSummary else Take(v.s, 200))))
  {
    var r := ServiceHistory(query, answer, responded);
    var v := LookupOr(answer.fields, "response", JStr(""));
    if v.JStr? {
      var fallback := NeedsFallback(responded, Lower(v.s));
      assert r == History(query, answer, v.s, fallback);
      HistoryNotError(query, answer, v.s, fallback);
      HistoryFallbackFlag(query, answer, v.s, fallback);
      HistorySummary(query, answer, v.s, fallback);
    } else {
      assert r == CrmError(AsStr(v, "lower").reason);
      assert r.fields[1] == ("used_fallback", JBool(true));
      LookupAt(r.fields, 1);
    }
  }

  /** Without a client, or when the session does not start, the canned history is used. */
  lemma NoSessionFallsBack(queryData: seq<(string, Json)>, crm: Option<CrmExchange>, decode: string -> Option<Json>)
    requires crm.None? || StartOutcome(crm.value.sessionReply, decode) != Value(true)
    ensures Lookup(CallSalesforceAgent(queryData, crm, decode).fields, "used_fallback") == Some(JBool(true))
    ensures Lookup(CallSalesforceAgent(queryData, crm, decode).fields, "summary") == Some(JStr(FallbackSummary))
  {
    var query := QueryOf(queryData);
    assert Exchange(crm, query, decode) == (NoAnswer, false);
    assert LookupOr(NoAnswer.fields, "response", JStr("")) == JStr("");
    FallbackDecision(query, NoAnswer, false);
  }
}
