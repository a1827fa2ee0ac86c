/** `AWSBedrockNovaClient`: a client for an asynchronous endpoint.  A message is posted to
    `<base>/message`, which answers with a thread id; `<base>/status` is then polled until the
    thread reports `completed` or `error`, or the time allowed runs out.

    Both endpoints wrap their answer in an API Gateway envelope whose `body` is itself JSON
    text.  The network is a parameter: `post(url, payload)` is the reply to a POST, and
    `replies(k)` the reply to the k-th status poll (k = 1, 2, ...).  Wall-clock time becomes
    a budget: the number of polls that start before the deadline. */
module NovaClient {
  import opened Py
  import opened Webhook

  const DefaultEndpoint: string := "https://vqlrgfa4gf.execute-api.eu-central-1.amazonaws.com/prod"

  /** The client's URLs, fixed when it is constructed. */
  datatype Client = Client(endpointBaseUrl: string, messageUrl: string, statusUrl: string)

  /** `AWSBedrockNovaClient(endpoint_base_url)`: a missing or empty base falls back to the
      default endpoint; the two service URLs hang off the base. */
  function NewClient(endpointBaseUrl: Option<string>): (c: Client)
    ensures endpointBaseUrl.Some? && endpointBaseUrl.value != "" ==> c.endpointBaseUrl == endpointBaseUrl.value
    ensures endpointBaseUrl.None? || endpointBaseUrl.value == "" ==> c.endpointBaseUrl == DefaultEndpoint
    ensures c.endpointBaseUrl != ""
    ensures c.messageUrl == c.endpointBaseUrl + "/message" && c.statusUrl == c.endpointBaseUrl + "/status"
    ensures c.messageUrl != c.statusUrl
  {
    var base := if endpointBaseUrl.Some? && endpointBaseUrl.value != "" then endpointBaseUrl.value else DefaultEndpoint;
    assert (base + "/message")[|base| + 1] != (base + "/status")[|base| + 1];
    Client(base, base + "/message", base + "/status")
  }

  // ---------------------------------------------------------------------------------------
  // send_message

  /** The body posted to `/message`: role and message, and the system prompt only when it is
      truthy (given and non-empty). */
  function SendPayload(message: string, role: string, systemPrompt: Json): (p: Json)
    ensures p.JObject?
    ensures Lookup(p.fields, "role") == Some(JStr(role)) && Lookup(p.fields, "message") == Some(JStr(message))
    ensures "system_prompt" in Keys(p.fields) <==> Truthy(systemPrompt)
    ensures Truthy(systemPrompt) ==> Lookup(p.fields, "system_prompt") == Some(systemPrompt)
    ensures |p.fields| == if Truthy(systemPrompt) then 3 else 2
  {
    if Truthy(systemPrompt) then
      var p := JObject([("role", JStr(role)), ("message", JStr(message)), ("system_prompt", systemPrompt)]);
      assert Keys(p.fields) == ["role", "message", "system_prompt"];
      p
    else
      var p := JObject([("role", JStr(role)), ("message", JStr(message))]);
      assert Keys(p.fields) == ["role", "message"];
      p
  }

  /** `json.loads(response.json()['body'])`: the JSON document inside the envelope. */
  function Envelope(text: string, decode: string -> Option<Json>): Outcome<Json> {
    match Loads(text, decode)
    case Raised(e) => Raised(e)
    case Value(outer) =>
      match Index(outer, "body")
      case Raised(e) => Raised(e)
      case Value(body) => LoadsValue(body, decode)
  }

  /** The reply `send_message` accepts: a 200 whose envelope holds a dict.  `Some(d)` is that
      dict; None means the caller gets `{"error": ...}`. */
  function Accepted(reply: HttpReply, decode: string -> Option<Json>): Option<seq<(string, Json)>> {
    if reply.Reply? && reply.code == 200 then
      match decode(reply.text)
      case Some(JObject(outer)) =>
        (match Lookup(outer, "body")
         case Some(JStr(b)) => (match decode(b) case Some(JObject(inner)) => Some(inner) case _ => None)
         case _ => None)
      case _ => None
    else None
  }

  /** `send_message`: the thread id, status (default "unknown") and message (default
      "Processing") of an accepted reply; otherwise a dict whose only key is `error`. */
  function SendMessage(c: Client, message: string, role: string, systemPrompt: Json,
                       post: (string, Json) -> HttpReply, decode: string -> Option<Json>): (r: Json)
    ensures r.JObject?
    ensures var reply := post(c.messageUrl, SendPayload(message, role, systemPrompt));
      match Accepted(reply, decode)
      case Some(inner) =>
        r.fields == [("threadId", LookupOr(inner, "threadId", JNull)),
                     ("status", LookupOr(inner, "status", JStr("unknown"))),
                     ("message", LookupOr(inner, "message", JStr("Processing")))]
      case None => Keys(r.fields) == ["error"]
  {
    var prefix := "Failed to send message: ";
    match post(c.messageUrl, SendPayload(message, role, systemPrompt))
    case Failed(e) => ErrorObj(prefix + e)
    case Reply(code, text) =>
      if code == 200 then
        match Envelope(text, decode)
        case Raised(e) => ErrorObj(prefix + e)
        case Value(inner) =>
          match Get(inner, "threadId", JNull)
          case Raised(e) => ErrorObj(prefix + e)
          case Value(threadId) =>
            JObject([("threadId", threadId),
                     ("status", LookupOr(inner.fields, "status", JStr("unknown"))),
                     ("message", LookupOr(inner.fields, "message", JStr("Processing")))])
      else ErrorObj(prefix + IntToString(code) + " - " + text)
  }

  // ---------------------------------------------------------------------------------------
  // get_status

  /** The document a status reply carries: a 200 whose envelope is a dict with a `body` that
      decodes. */
  function StatusDocument(reply: HttpReply, decode: string -> Option<Json>): Option<Json> {
    if reply.Reply? && reply.code == 200 then
      match decode(reply.text)
      case Some(JObject(outer)) =>
        (match Lookup(outer, "body")
         case Some(JStr(b)) => decode(b)
         case _ => None)
      case _ => None
    else None
  }

  /** `get_status`: the decoded document of a good reply (whatever JSON it is); otherwise a
      dict whose only key is `error`, so with no `status`. */
  function GetStatus(reply: HttpReply, decode: string -> Option<Json>): (r: Json)
    ensures StatusDocument(reply, decode).Some? ==> r == StatusDocument(reply, decode).value
    ensures StatusDocument(reply, decode).None? ==> r.JObject? && Keys(r.fields) == ["error"]
    ensures reply.Reply? && reply.code == 200 && decode(reply.text).Some? && decode(reply.text).value.JObject?
            && "body" !in Keys(decode(reply.text).value.fields) ==>
              r == ErrorObj("Unexpected response format")
  {
    var prefix := "Failed to get status: ";
    match reply
    case Failed(e) => ErrorObj(prefix + e)
    case Reply(code, text) =>
      if code == 200 then
        match Loads(text, decode)
        case Raised(e) => ErrorObj(prefix + e)
        case Value(outer) =>
          match Contains(outer, "body")
          case Raised(e) => ErrorObj(prefix + e)
          case Value(hasBody) =>
            if !hasBody then ErrorObj("Unexpected response format")
            else
              match Index(outer, "body")
              case Raised(e) => ErrorObj(prefix + e)
              case Value(body) =>
                match LoadsValue(body, decode)
                case Raised(e) => ErrorObj(prefix + e)
                case Value(inner) => inner
      else ErrorObj("Status check failed: " + IntToString(code))
  }

  // ---------------------------------------------------------------------------------------
  // wait_for_completion

  /** `status_result.get('status', 'unknown')`: raises when the poll result is not a dict. */
  function StatusOf(s: Json): Outcome<Json> {
    Get(s, "status", JStr("unknown"))
  }

  /** A poll result that ends the wait: one whose status is `completed` or `error`, or one on
      which reading the status raises. */
  predicate Terminal(s: Json) {
    StatusOf(s).Raised? || StatusOf(s).value == JStr("completed") || StatusOf(s).value == JStr("error")
  }

  function Completed(response: Json, threadId: Json): Json {
    JObject([("status", JStr("completed")), ("response", response), ("threadId", threadId)])
  }

  function Errored(error: Json, threadId: Json): Json {
    JObject([("status", JStr("error")), ("error", error), ("threadId", threadId)])
  }

  function TimedOut(maxWaitTime: int, threadId: Json): Json {
    JObject([("status", JStr("timeout")), ("error", JStr("Timeout after " + IntToString(maxWaitTime) + "s")),
             ("threadId", threadId)])
  }

  /** The result of the wait when it ends on poll result `s`. */
  function Finish(s: Json, threadId: Json): (r: Outcome<Json>)
    requires Terminal(s)
    ensures r.Raised? <==> !s.JObject?
  {
    match StatusOf(s)
    case Raised(e) => Raised(e)
    case Value(status) =>
      if status == JStr("completed") then Value(Completed(LookupOr(s.fields, "response", JStr("")), threadId))
      else Value(Errored(LookupOr(s.fields, "error", JStr("Unknown error")), threadId))
  }

  /** What the k-th status poll observes: `get_status` on the k-th reply. */
  function StatusPolls(replies: nat -> HttpReply, decode: string -> Option<Json>): (polls: nat -> Json)
    ensures forall k :: polls(k) == GetStatus(replies(k), decode)
  {
    (k: nat) => GetStatus(replies(k), decode)
  }

  /** The wait after `attempts` polls, given what each poll observes: its result and the
      number of polls made in all. */
  function WaitFrom(threadId: Json, maxWaitTime: int, budget: nat, polls: nat -> Json, attempts: nat): (Outcome<Json>, nat)
    requires attempts <= budget
    decreases budget - attempts
  {
    if attempts == budget then (Value(TimedOut(maxWaitTime, threadId)), attempts)
    else if Terminal(polls(attempts + 1)) then (Finish(polls(attempts + 1), threadId), attempts + 1)
    else WaitFrom(threadId, maxWaitTime, budget, polls, attempts + 1)
  }

  function Wait(threadId: Json, maxWaitTime: int, budget: nat, polls: nat -> Json): (Outcome<Json>, nat) {
    WaitFrom(threadId, maxWaitTime, budget, polls, 0)
  }

  /** The wait ends at the first terminal poll result, on the result that poll gives; if no
      poll within the budget is terminal it times out after exactly `budget` polls. */
  lemma {:induction false} WaitFromSpec(threadId: Json, maxWaitTime: int, budget: nat, polls: nat -> Json, attempts: nat)
    requires attempts <= budget
    requires forall k :: 1 <= k <= attempts ==> !Terminal(polls(k))
    ensures var (r, n) := WaitFrom(threadId, maxWaitTime, budget, polls, attempts);
      && attempts <= n <= budget
      && (forall k :: 1 <= k < n ==> !Terminal(polls(k)))
      && ((n >= 1 && Terminal(polls(n)) && r == Finish(polls(n), threadId))
          || (n == budget && (forall k :: 1 <= k <= budget ==> !Terminal(polls(k)))
              && r == Value(TimedOut(maxWaitTime, threadId))))
    decreases budget - attempts
  {
    if attempts < budget && !Terminal(polls(attempts + 1)) {
      WaitFromSpec(threadId, maxWaitTime, budget, polls, attempts + 1);
    }
  }

  /** A completed wait carries the thread id and is not an error. */
  lemma CompletedShape(response: Json, threadId: Json)
    ensures var r := Completed(response, threadId);
      && Lookup(r.fields, "threadId") == Some(threadId)
      && !IsError(r) && Lookup(r.fields, "status") == Some(JStr("completed"))
  {
    var f := Completed(response, threadId).fields;
    assert Keys(f) == ["status", "response", "threadId"];
    LookupAt(f, 2);
  }

  /** An errored wait carries the thread id and is an error. */
  lemma ErroredShape(error: Json, threadId: Json)
    ensures var r := Errored(error, threadId);
      && Lookup(r.fields, "threadId") == Some(threadId)
      && IsError(r) && Lookup(r.fields, "status") == Some(JStr("error"))
  {
    var f := Errored(error, threadId).fields;
    assert Keys(f) == ["status", "error", "threadId"];
    LookupAt(f, 2);
  }

  /** A dict the wait ends on carries the thread id, and is an error exactly when its status is
      not `completed`. */
  lemma FinishShape(s: Json, threadId: Json)
    requires Terminal(s)
    ensures var r := Finish(s, threadId);
      r.Value? ==> && r.value.JObject? && Lookup(r.value.fields, "threadId") == Some(threadId)
                   && (IsError(r.value) <==> Lookup(r.value.fields, "status") != Some(JStr("completed")))
  {
    if StatusOf(s).Value? {
      if StatusOf(s).value == JStr("completed") {
        CompletedShape(LookupOr(s.fields, "response", JStr("")), threadId);
      } else {
        ErroredShape(LookupOr(s.fields, "error", JStr("Unknown error")), threadId);
      }
    }
  }

  /** So does the timeout, which is an error. */
  lemma TimedOutShape(maxWaitTime: int, threadId: Json)
    ensures var r := TimedOut(maxWaitTime, threadId);
      && Lookup(r.fields, "threadId") == Some(threadId)
      && IsError(r) && Lookup(r.fields, "status") == Some(JStr("timeout"))
  {
    var f := TimedOut(maxWaitTime, threadId).fields;
    assert Keys(f) == ["status", "error", "threadId"];
    LookupAt(f, 2);
  }

  /** One step of the wait, from `prev` polls to `n`: a terminal n-th poll ends it on that
      poll's result, any other leaves the wait to the next poll. */
  lemma WaitFromStep(threadId: Json, maxWaitTime: int, budget: nat, polls: nat -> Json, prev: nat, n: nat)
    requires n == prev + 1 <= budget
    ensures Terminal(polls(n)) ==> WaitFrom(threadId, maxWaitTime, budget, polls, prev) == (Finish(polls(n), threadId), n)
    ensures !Terminal(polls(n)) ==> WaitFrom(threadId, maxWaitTime, budget, polls, prev) == WaitFrom(threadId, maxWaitTime, budget, polls, n)
  {
  }

  /** The whole wait: it stops at the first terminal poll or after `budget` polls, and every
      result it returns carries the thread id it was given. */
  lemma WaitSpec(threadId: Json, maxWaitTime: int, budget: nat, polls: nat -> Json)
    ensures var (r, n) := Wait(threadId, maxWaitTime, budget, polls);
      && n <= budget
      && (forall k :: 1 <= k < n ==> !Terminal(polls(k)))
      && ((n >= 1 && Terminal(polls(n)) && r == Finish(polls(n), threadId))
          || (n == budget && (forall k :: 1 <= k <= budget ==> !Terminal(polls(k)))
              && r == Value(TimedOut(maxWaitTime, threadId))))
      && (r.Value? ==> r.value.JObject? && Lookup(r.value.fields, "threadId") == Some(threadId))
  {
    WaitFromSpec(threadId, maxWaitTime, budget, polls, 0);
    var (r, n) := Wait(threadId, maxWaitTime, budget, polls);
    if n >= 1 && Terminal(polls(n)) && r == Finish(polls(n), threadId) {
      FinishShape(polls(n), threadId);
    } else {
      TimedOutShape(maxWaitTime, threadId);
    }
  }

  /** A failed status request is not terminal: its error dict has no `status`, which reads as
      "unknown", and polling goes on. */
  lemma FailedPollKeepsWaiting(reply: HttpReply, decode: string -> Option<Json>)
    requires StatusDocument(reply, decode).None?
    ensures !Terminal(GetStatus(reply, decode))
  {
    var r := GetStatus(reply, decode);
    assert Keys(r.fields) == ["error"];
    assert "status" !in Keys(r.fields);
  }

  /** `wait_for_completion`: polls until a terminal status or until the budget is spent,
      counting one attempt per poll. */
  method WaitForCompletion(threadId: Json, maxWaitTime: int, budget: nat, replies: nat -> HttpReply,
                           decode: string -> Option<Json>) returns (result: Outcome<Json>, attempts: nat)
    ensures (result, attempts) == Wait(threadId, maxWaitTime, budget, StatusPolls(replies, decode))
  {
    ghost var polls := StatusPolls(replies, decode);
    ghost var wait := Wait(threadId, maxWaitTime, budget, polls);
    attempts := 0;
    while attempts < budget
      invariant attempts <= budget
      invariant WaitFrom(threadId, maxWaitTime, budget, polls, attempts) == wait
      decreases budget - attempts
    {
      ghost var prev := attempts;
      attempts := attempts + 1;
      var statusResult := GetStatus(replies(attempts), decode);
      assert statusResult == polls(attempts);
      WaitFromStep(threadId, maxWaitTime, budget, polls, prev, attempts);
      var currentStatus := StatusOf(statusResult);
      if currentStatus.Raised? {
        return Raised(currentStatus.reason), attempts;
      }
      if currentStatus.value == JStr("completed") {
        var response := LookupOr(statusResult.fields, "response", JStr(""));
        return Value(Completed(response, threadId)), attempts;
      } else if currentStatus.value == JStr("error") {
        var error := LookupOr(statusResult.fields, "error", JStr("Unknown error"));
        return Value(Errored(error, threadId)), attempts;
      }
    }
    result := Value(TimedOut(maxWaitTime, threadId));
  }

  // ---------------------------------------------------------------------------------------
  // send_and_wait

  /** `send_and_wait`: a send error is returned as it is, without polling; a reply without a
      truthy thread id gives `{"error": "No threadId received"}`; otherwise the wait's result.
      The second component is the number of polls made. */
  function SendAndWait(c: Client, message: string, role: string, systemPrompt: Json, maxWaitTime: int,
                       budget: nat, post: (string, Json) -> HttpReply, replies: nat -> HttpReply,
                       decode: string -> Option<Json>): (Outcome<Json>, nat)
  {
    var sent := SendMessage(c, message, role, systemPrompt, post, decode);
    if "error" in Keys(sent.fields) then (Value(sent), 0)
    else
      var threadId := LookupOr(sent.fields, "threadId", JNull);
      if !Truthy(threadId) then (Value(ErrorObj("No threadId received")), 0)
      else Wait(threadId, maxWaitTime, budget, StatusPolls(replies, decode))
  }

  /** What `send_and_wait` gives: a send that was not accepted is returned unchanged with no
      poll; an accepted send without a truthy thread id gives `{"error": "No threadId
      received"}`; with one, exactly the wait's result for that id. */
  lemma SendAndWaitSpec(c: Client, message: string, role: string, systemPrompt: Json, maxWaitTime: int,
                        budget: nat, post: (string, Json) -> HttpReply, replies: nat -> HttpReply,
                        decode: string -> Option<Json>)
    ensures var accepted := Accepted(post(c.messageUrl, SendPayload(message, role, systemPrompt)), decode);
      var (r, n) := SendAndWait(c, message, role, systemPrompt, maxWaitTime, budget, post, replies, decode);
      && (accepted.None? ==> r == Value(SendMessage(c, message, role, systemPrompt, post, decode)) && n == 0)
      && (accepted.Some? && !Truthy(LookupOr(accepted.value, "threadId", JNull)) ==>
            r == Value(ErrorObj("No threadId received")) && n == 0)
      && (accepted.Some? && Truthy(LookupOr(accepted.value, "threadId", JNull)) ==>
            (r, n) == Wait(LookupOr(accepted.value, "threadId", JNull), maxWaitTime, budget, StatusPolls(replies, decode)))
  {
    SentThread(c, message, role, systemPrompt, post, decode);
  }

  /** A send result holds `error` exactly when the reply was not accepted, and otherwise the
      thread id of the accepted document. */
  lemma SentThread(c: Client, message: string, role: string, systemPrompt: Json,
                   post: (string, Json) -> HttpReply, decode: string -> Option<Json>)
    ensures var accepted := Accepted(post(c.messageUrl, SendPayload(message, role, systemPrompt)), decode);
      var sent := SendMessage(c, message, role, systemPrompt, post, decode);
      && ("error" in Keys(sent.fields) <==> accepted.None?)
      && (accepted.Some? ==> LookupOr(sent.fields, "threadId", JNull) == LookupOr(accepted.value, "threadId", JNull))
  {
    var sent := SendMessage(c, message, role, systemPrompt, post, decode);
    if Accepted(post(c.messageUrl, SendPayload(message, role, systemPrompt)), decode).Some? {
      assert Keys(sent.fields) == ["threadId", "status", "message"];
    }
  }

  /** Every dict `send_and_wait` returns is an error exactly when its status is not
      `completed`, whichever way it ended. */
  lemma SendAndWaitErrorUnlessCompleted(c: Client, message: string, role: string, systemPrompt: Json,
                                        maxWaitTime: int, budget: nat, post: (string, Json) -> HttpReply,
                                        replies: nat -> HttpReply, decode: string -> Option<Json>)
    ensures var (r, n) := SendAndWait(c, message, role, systemPrompt, maxWaitTime, budget, post, replies, decode);
      r.Value? ==> r.value.JObject? && (IsError(r.value) <==> Lookup(r.value.fields, "status") != Some(JStr("completed")))
  {
    var sent := SendMessage(c, message, role, systemPrompt, post, decode);
    SentThread(c, message, role, systemPrompt, post, decode);
    if "error" !in Keys(sent.fields) {
      var threadId := LookupOr(sent.fields, "threadId", JNull);
      if Truthy(threadId) {
        var polls := StatusPolls(replies, decode);
        WaitSpec(threadId, maxWaitTime, budget, polls);
        var (r, n) := Wait(threadId, maxWaitTime, budget, polls);
        if n >= 1 && Terminal(polls(n)) && r == Finish(polls(n), threadId) {
          FinishShape(polls(n), threadId);
        } else {
          TimedOutShape(maxWaitTime, threadId);
        }
      }
    } else {
      assert Keys(sent.fields) == ["error"];
    }
  }
}
