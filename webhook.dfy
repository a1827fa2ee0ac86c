/** `call_n8n_agent`: one POST to an n8n webhook and the normalisation of its answer.  The two
    orchestrators share one version; acp_poc.py has its own, which sends no `source` field and
    returns None for a non-200 reply. */
module Webhook {
  import opened Py

  /** What the HTTP layer gave back: an exception (connection error, timeout), or a reply with
      its status code and body text. */
  datatype HttpReply = Failed(reason: string) | Reply(code: int, text: string)

  const Timestamp: string := "2025-01-18T10:00:00Z"

  /** The webhook payload the orchestrators send. */
  function N8nPayload(task: string, data: Json): Json {
    JObject([("task", JStr(task)), ("data", data), ("timestamp", JStr(Timestamp)),
             ("source", JStr("multi_agent_orchestrator"))])
  }

  /** The webhook payload acp_poc.py sends: the same without `source`. */
  function AcpPayload(task: string, data: Json): Json {
    JObject([("task", JStr(task)), ("data", data), ("timestamp", JStr(Timestamp))])
  }

  const NoContent: Json := JObject([("message", JStr("Success - No content"))])

  /** The body of a 200 reply: empty means "no content"; a non-empty JSON list is unwrapped to
      its first element's `output` (or the element itself); any other JSON is kept.  Decoding
      failures and `.get` on a non-dict element raise. */
  function Unwrap(text: string, decode: string -> Option<Json>): Outcome<Json> {
    if text == "" then Value(NoContent)
    else
      match Loads(text, decode)
      case Raised(e) => Raised(e)
      case Value(v) =>
        if v.JList? && |v.items| > 0 then Get(v.items[0], "output", v.items[0]) else Value(v)
  }

  /** Normalisation of a webhook answer by the orchestrators. */
  function CallN8nAgent(reply: HttpReply, decode: string -> Option<Json>): (r: Json)
    ensures reply.Failed? || reply.code != 200 ==> IsError(r)
    ensures reply == Reply(200, "") ==> r == NoContent
    ensures reply.Reply? && reply.code == 200 && reply.text != "" ==>
      match decode(reply.text)
      case None => IsError(r)
      case Some(v) =>
        if v.JList? && |v.items| > 0 then
          (match v.items[0]
           case JObject(fields) =>
             r == (match Lookup(fields, "output") case Some(o) => o case None => v.items[0])
           case _ => IsError(r))
        else r == v
  {
    match reply
    case Failed(e) => ErrorObj("Failed to call n8n agent: " + e)
    case Reply(code, text) =>
      if code == 200 then
        match Unwrap(text, decode)
        case Value(v) => v
        case Raised(e) => ErrorObj("Failed to call n8n agent: " + e)
      else ErrorObj("n8n agent returned status " + IntToString(code))
  }

  /** Normalisation of a webhook answer in acp_poc.py: a non-200 reply falls through the
      `if` and the function returns None. */
  function CallAcpAgent(reply: HttpReply, decode: string -> Option<Json>): (r: Json)
    ensures reply.Failed? ==> IsError(r)
    ensures reply.Reply? && reply.code != 200 ==> r == JNull
  {
    match reply
    case Failed(e) => ErrorObj("Failed to call agent: " + e)
    case Reply(code, text) =>
      if code == 200 then
        match Unwrap(text, decode)
        case Value(v) => v
        case Raised(e) => ErrorObj("Failed to call agent: " + e)
      else JNull
  }

  /** The two variants agree on every successful 200 reply and on every failure shape except
      non-200 replies, where the orchestrators report an error and acp_poc.py returns None. */
  lemma VariantsAgree(reply: HttpReply, decode: string -> Option<Json>)
    ensures reply.Reply? && reply.code == 200 && Unwrap(reply.text, decode).Value? ==>
      CallAcpAgent(reply, decode) == CallN8nAgent(reply, decode)
    ensures reply.Reply? && reply.code == 200 && Unwrap(reply.text, decode).Raised? ==>
      IsError(CallAcpAgent(reply, decode)) && IsError(CallN8nAgent(reply, decode))
    ensures reply.Failed? ==> IsError(CallAcpAgent(reply, decode)) && IsError(CallN8nAgent(reply, decode))
    ensures reply.Reply? && reply.code != 200 ==>
      CallAcpAgent(reply, decode) == JNull && IsError(CallN8nAgent(reply, decode))
  {
  }
}
