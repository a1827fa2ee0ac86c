/** `SalesforceAgentClient`: configuration from the environment, an OAuth token, an agent
    session, and a message whose answer arrives as a server-sent event stream.

    Every HTTP exchange is a parameter (the reply it got).  The stream is the list of its lines;
    the answer kept is the longest text chunk the events carry. */
module SalesforceClient {
  import opened Py
  import opened Webhook

  /** The four settings read from the environment; a missing variable is None. */
  datatype Env = Env(consumerKey: Option<string>, consumerSecret: Option<string>,
                     agentId: Option<string>, instanceUrl: Option<string>)

  /** A setting `all([...])` accepts: present and non-empty. */
  predicate Present(v: Option<string>) {
    v.Some? && v.value != ""
  }

  predicate Complete(env: Env) {
    Present(env.consumerKey) && Present(env.consumerSecret) && Present(env.agentId) && Present(env.instanceUrl)
  }

  const MissingConfiguration: string := "Missing required Salesforce configuration in .env file"

  /** The ValueError the constructor raises, if any. */
  function ConfigurationError(env: Env): (r: Option<string>)
    ensures r.None? <==> Complete(env)
    ensures r.Some? ==> r.value == MissingConfiguration
  {
    if Complete(env) then None else Some(MissingConfiguration)
  }

  /** `raise_for_status()` raises for a client or server error. */
  predicate HttpError(code: int) {
    400 <= code < 600
  }

  /** The JSON document of a reply that `raise_for_status()` and `response.json()` accept; a
      decoding error is a `RequestException` too. */
  function Document(reply: HttpReply, decode: string -> Option<Json>): Option<Json> {
    if reply.Reply? && !HttpError(reply.code) then decode(reply.text) else None
  }

  // ---------------------------------------------------------------------------------------
  // The event stream of send_message.

  /** A line of the stream: its text, or bytes that are not valid UTF-8. */
  datatype StreamLine = Text(text: string) | Undecodable

  /** A streamed reply: a request error, or the status and the lines of the stream. */
  datatype StreamReply = StreamFailed(reason: string) | Stream(code: int, lines: seq<StreamLine>)

  const DataPrefix: string := "data: "

  /** The text chunk an event carries, JNull for none: `message` when it is a str, otherwise
      its `text`, otherwise its `message`; the top-level `text` only when there is no
      `message`.  Testing or indexing a value of the wrong type raises a TypeError. */
  function ExtractChunk(data: Json): (r: Outcome<Json>)
    ensures data.JNull? || data.JBool? || data.JInt? ==> r.Raised?
    ensures data.JObject? ==>
      match Lookup(data.fields, "message")
      case Some(JStr(s)) => r == Value(JStr(s))
      case Some(JObject(m)) =>
        r == Value(if "text" in Keys(m) then LookupOr(m, "text", JNull) else LookupOr(m, "message", JNull))
      case Some(_) => true
      case None => r == Value(LookupOr(data.fields, "text", JNull))
  {
    match Contains(data, "message")
    case Raised(e) => Raised(e)
    case Value(hasMessage) =>
      if hasMessage then
        match Index(data, "message")
        case Raised(e) => Raised(e)
        case Value(m) =>
          if m.JStr? then Value(m)
          else
            match Contains(m, "text")
            case Raised(e) => Raised(e)
            case Value(hasText) =>
              if hasText then Index(m, "text")
              else
                match Contains(m, "message")
                case Raised(e) => Raised(e)
                case Value(hasInner) => if hasInner then Index(m, "message") else Value(JNull)
      else
        match Contains(data, "text")
        case Raised(e) => Raised(e)
        case Value(hasText) => if hasText then Index(data, "text") else Value(JNull)
  }

  /** What one stream line contributes: nothing unless it is a non-empty `data: ` line whose
      rest decodes as JSON, and then the event's chunk when it is truthy.  Lines whose JSON
      does not decode are skipped; bytes that are not UTF-8 raise a UnicodeDecodeError, and
      a TypeError while reading the event is raised too. */
  function LineChunk(line: StreamLine, decode: string -> Option<Json>): (r: Outcome<Option<Json>>)
    ensures line.Undecodable? ==> r.Raised?
    ensures line.Text? && !IsPrefix(DataPrefix, line.text) ==> r == Value(None)
    ensures line.Text? && IsPrefix(DataPrefix, line.text) && decode(line.text[|DataPrefix|..]).None? ==> r == Value(None)
    ensures r.Raised? ==>
              || line.Undecodable?
              || (&& IsPrefix(DataPrefix, line.text) && decode(line.text[|DataPrefix|..]).Some?
                  && ExtractChunk(decode(line.text[|DataPrefix|..]).value).Raised?)
    ensures r.Value? && r.value.Some? ==>
              && line.Text? && IsPrefix(DataPrefix, line.text) && decode(line.text[|DataPrefix|..]).Some?
              && ExtractChunk(decode(line.text[|DataPrefix|..]).value) == Value(r.value.value)
              && Truthy(r.value.value)
  {
    match line
    case Undecodable => Raised("UnicodeDecodeError: 'utf-8' codec can't decode")
    case Text(text) =>
      if text == "" || !IsPrefix(DataPrefix, text) then Value(None)
      else
        match decode(text[|DataPrefix|..])
        case None => Value(None)
        case Some(data) =>
          match ExtractChunk(data)
          case Raised(e) => Raised(e)
          case Value(chunk) => if Truthy(chunk) then Value(Some(chunk)) else Value(None)
  }

  /** `Value(prefix + rest)` when `o` is `Value(rest)`; an exception passes through. */
  function Prepend(prefix: seq<Json>, o: Outcome<seq<Json>>): Outcome<seq<Json>> {
    match o
    case Raised(e) => Raised(e)
    case Value(rest) => Value(prefix + rest)
  }

  lemma PrependTwice(a: seq<Json>, b: seq<Json>, o: Outcome<seq<Json>>)
    ensures Prepend(a, Prepend(b, o)) == Prepend(a + b, o)
  {
    if o.Value? {
      assert a + (b + o.value) == a + b + o.value;
    }
  }

  lemma PrependNothing(o: Outcome<seq<Json>>)
    ensures Prepend([], o) == o
  {
    if o.Value? {
      assert [] + o.value == o.value;
    }
  }

  /** The chunks the stream's lines yield, in order, or the first exception raised. */
  function Chunks(lines: seq<StreamLine>, decode: string -> Option<Json>): (r: Outcome<seq<Json>>)
    ensures r.Value? ==> forall k :: 0 <= k < |r.value| ==> Truthy(r.value[k])
  {
    if lines == [] then Value([])
    else
      match LineChunk(lines[0], decode)
      case Raised(e) => Raised(e)
      case Value(c) => Prepend(if c.Some? then [c.value] else [], Chunks(lines[1..], decode))
  }

  /** `len` of every chunk, in order: the first chunk without a length raises. */
  function Lengths(ms: seq<Json>): (r: Outcome<seq<nat>>)
    ensures r.Value? ==> |r.value| == |ms| && forall k :: 0 <= k < |ms| ==> Len(ms[k]) == Value(r.value[k])
    ensures r.Raised? ==> exists k :: 0 <= k < |ms| && Len(ms[k]).Raised?
  {
    if ms == [] then Value([])
    else
      match Len(ms[0])
      case Raised(e) => Raised(e)
      case Value(n) =>
        match Lengths(ms[1..])
        case Raised(e) => Raised(e)
        case Value(ns) => Value([n] + ns)
  }

  /** The position `max` picks: a greatest length, the first of them. */
  function FirstLongest(lengths: seq<nat>): (k: nat)
    requires lengths != []
    ensures k < |lengths|
    ensures forall j :: 0 <= j < |lengths| ==> lengths[j] <= lengths[k]
    ensures forall j :: 0 <= j < k ==> lengths[j] < lengths[k]
  {
    if |lengths| == 1 then 0
    else
      var k := FirstLongest(lengths[..|lengths| - 1]);
      if lengths[|lengths| - 1] > lengths[k] then |lengths| - 1 else k
  }

  /** `max(messages, key=len) if messages else ""`: a longest chunk, the first among equals. */
  function FinalMessage(ms: seq<Json>): (r: Outcome<Json>)
    ensures ms == [] ==> r == Value(JStr(""))
    ensures ms != [] && r.Value? ==> exists k :: 0 <= k < |ms| && ms[k] == r.value && IsLongestFirst(ms, k)
    ensures r.Raised? <==> exists k :: 0 <= k < |ms| && Len(ms[k]).Raised?
  {
    if ms == [] then Value(JStr(""))
    else
      match Lengths(ms)
      case Raised(e) => Raised(e)
      case Value(lengths) =>
        var k := FirstLongest(lengths);
        assert IsLongestFirst(ms, k) by {
          forall j | 0 <= j < |ms| ensures Len(ms[j]).Value? && Len(ms[j]).value <= Len(ms[k]).value {
            assert Len(ms[j]) == Value(lengths[j]);
          }
        }
        Value(ms[k])
  }

  /** Chunk k is at least as long as every chunk and longer than every chunk before it. */
  ghost predicate IsLongestFirst(ms: seq<Json>, k: nat) {
    && k < |ms| && Len(ms[k]).Value?
    && (forall j :: 0 <= j < |ms| ==> Len(ms[j]).Value? && Len(ms[j]).value <= Len(ms[k]).value)
    && (forall j :: 0 <= j < k ==> Len(ms[j]).value < Len(ms[k]).value)
  }

  /** What `send_message` returns for a streamed reply: `{'response': final}` when the final
      message is non-empty, otherwise None; request errors and exceptions give None too. */
  function StreamResult(reply: StreamReply, decode: string -> Option<Json>): Option<Json> {
    if reply.StreamFailed? || HttpError(reply.code) then None
    else
      match Chunks(reply.lines, decode)
      case Raised(_) => None
      case Value(ms) =>
        match FinalMessage(ms)
        case Raised(_) => None
        case Value(final) => if Truthy(final) then Some(Obj1("response", final)) else None
  }

  /** There is a response exactly when the stream was read without an exception and yielded
      a chunk; it is then a longest chunk, the first of equals. */
  lemma StreamResultSpec(reply: StreamReply, decode: string -> Option<Json>)
    ensures StreamResult(reply, decode).Some? <==>
      && reply.Stream? && !HttpError(reply.code)
      && Chunks(reply.lines, decode).Value? && Chunks(reply.lines, decode).value != []
      && FinalMessage(Chunks(reply.lines, decode).value).Value?
    ensures StreamResult(reply, decode).Some? ==>
      var ms := Chunks(reply.lines, decode).value;
      exists k :: 0 <= k < |ms| && StreamResult(reply, decode).value == Obj1("response", ms[k]) && IsLongestFirst(ms, k)
  {
    if reply.Stream? && !HttpError(reply.code) && Chunks(reply.lines, decode).Value? {
      var ms := Chunks(reply.lines, decode).value;
      if ms != [] && FinalMessage(ms).Value? {
        var k :| 0 <= k < |ms| && ms[k] == FinalMessage(ms).value && IsLongestFirst(ms, k);
        assert Truthy(ms[k]);
      }
    }
  }

  /** The request body of `send_message`. */
  function MessagePayload(message: string): Json {
    Obj1("message", JObject([("type", JStr("Text")), ("text", JStr(message)), ("sequenceId", JInt(1))]))
  }

  /** Stand-in for a `sessionId` attribute that is None. */
  const NoSession: Json := JNull

  /** What `end_session` leaves in `session_id`: None when a session was set, otherwise the
      falsy value it found. */
  function EndedSession(sessionId: Json): (r: Json)
    ensures !Truthy(r)
    ensures !Truthy(sessionId) ==> r == sessionId
  {
    if Truthy(sessionId) then NoSession else sessionId
  }

  /** Ending a session twice is ending it once. */
  lemma EndSessionIdempotent(sessionId: Json)
    ensures EndedSession(EndedSession(sessionId)) == EndedSession(sessionId)
  {
  }

  /** The check `start_session` makes on the greeting after storing the session id: if the
      answer has a non-empty `messages`, its first element must support `.get`.  Its value is
      only printed. */
  function Greeting(sessionData: seq<(string, Json)>): Outcome<Json> {
    match Lookup(sessionData, "messages")
    case None => Value(JNull)
    case Some(messages) =>
      match Len(messages)
      case Raised(e) => Raised(e)
      case Value(n) =>
        if n == 0 then Value(JNull)
        else
          match messages
          case JList(items) => Get(items[0], "message", JStr(""))
          case JStr(s) => Get(JStr([s[0]]), "message", JStr(""))
          case _ => Raised("0")
  }

  /** What `start_session` returns for the session request's reply: False on a request
      error, an exception when the answer has no `sessionId` or the greeting check raises,
      otherwise True. */
  function StartOutcome(reply: HttpReply, decode: string -> Option<Json>): (r: Outcome<bool>)
    ensures r == Value(true) <==>
      && Document(reply, decode).Some?
      && Index(Document(reply, decode).value, "sessionId").Value?
      && Greeting(Document(reply, decode).value.fields).Value?
  {
    match Document(reply, decode)
    case None => Value(false)
    case Some(sessionData) =>
      match Index(sessionData, "sessionId")
      case Raised(e) => Raised(e)
      case Value(_) =>
        match Greeting(sessionData.fields)
        case Raised(e) => Raised(e)
        case Value(_) => Value(true)
  }

  class SalesforceAgentClient {
    var consumerKey: string
    var consumerSecret: string
    var agentId: string
    var instanceUrl: Json
    var accessToken: Json
    var sessionId: Json

    /** `__init__` once the configuration has been accepted: no token and no session yet. */
    constructor (env: Env)
      requires Complete(env)
      ensures consumerKey == env.consumerKey.value && consumerSecret == env.consumerSecret.value
      ensures agentId == env.agentId.value && instanceUrl == JStr(env.instanceUrl.value)
      ensures accessToken == JNull && sessionId == NoSession
    {
      consumerKey := env.consumerKey.value;
      consumerSecret := env.consumerSecret.value;
      agentId := env.agentId.value;
      instanceUrl := JStr(env.instanceUrl.value);
      accessToken := JNull;
      sessionId := NoSession;
    }

    /** `authenticate`: a request error (status 400-599, transport failure or undecodable
        body) gives False and changes nothing; a token answer without `access_token` raises;
        otherwise the token is stored and `instance_url` replaced only when the answer holds
        one. */
    method Authenticate(reply: HttpReply, decode: string -> Option<Json>) returns (ok: Outcome<bool>)
      modifies this
      ensures Document(reply, decode).None? ==> ok == Value(false) && unchanged(this)
      ensures Document(reply, decode).Some? ==>
        var tokenData := Document(reply, decode).value;
        match Index(tokenData, "access_token")
        case Raised(e) => ok == Raised(e) && unchanged(this)
        case Value(token) =>
          && ok == Value(true)
          && accessToken == token
          && instanceUrl == LookupOr(tokenData.fields, "instance_url", old(instanceUrl))
          && sessionId == old(sessionId)
          && consumerKey == old(consumerKey) && consumerSecret == old(consumerSecret) && agentId == old(agentId)
    {
      var tokenData := Document(reply, decode);
      if tokenData.None? {
        return Value(false);
      }
      var token := Index(tokenData.value, "access_token");
      if token.Raised? {
        return Raised(token.reason);
      }
      accessToken := token.value;
      if "instance_url" in Keys(tokenData.value.fields) {
        instanceUrl := LookupOr(tokenData.value.fields, "instance_url", JNull);
      }
      ok := Value(true);
    }

    /** `start_session`: a request error gives False and changes nothing; an answer without
        `sessionId` raises; otherwise the session id is stored, and then the greeting check
        may still raise. */
    method StartSession(reply: HttpReply, decode: string -> Option<Json>) returns (ok: Outcome<bool>)
      modifies this
      ensures ok == StartOutcome(reply, decode)
      ensures Document(reply, decode).None? ==> unchanged(this)
      ensures Document(reply, decode).Some? ==>
        var sessionData := Document(reply, decode).value;
        match Index(sessionData, "sessionId")
        case Raised(e) => unchanged(this)
        case Value(id) =>
          && sessionId == id
          && accessToken == old(accessToken) && instanceUrl == old(instanceUrl)
          && consumerKey == old(consumerKey) && consumerSecret == old(consumerSecret) && agentId == old(agentId)
    {
      var sessionData := Document(reply, decode);
      if sessionData.None? {
        return Value(false);
      }
      var id := Index(sessionData.value, "sessionId");
      if id.Raised? {
        return Raised(id.reason);
      }
      sessionId := id.value;
      var greeting := Greeting(sessionData.value.fields);
      if greeting.Raised? {
        return Raised(greeting.reason);
      }
      ok := Value(true);
    }

    /** `send_message`: reads the stream line by line, collecting chunks, and answers with the
        longest one; it changes nothing in the client. */
    method SendMessage(message: string, post: Json -> StreamReply, decode: string -> Option<Json>)
      returns (r: Option<Json>)
      ensures r == StreamResult(post(MessagePayload(message)), decode)
    {
      var reply := post(MessagePayload(message));
      if reply.StreamFailed? || HttpError(reply.code) {
        return None;
      }
      var lines := reply.lines;
      var messages: seq<Json> := [];
      var i := 0;
      assert lines[0..] == lines;
      PrependNothing(Chunks(lines, decode));
      while i < |lines|
        invariant 0 <= i <= |lines|
        invariant Chunks(lines, decode) == Prepend(messages, Chunks(lines[i..], decode))
      {
        assert lines[i..][0] == lines[i] && lines[i..][1..] == lines[i + 1..];
        var line := lines[i];
        ghost var rest := Chunks(lines[i + 1..], decode);
        ghost var before := messages;
        PrependTwice(messages, [], rest);
        assert messages + [] == messages;
        if line.Undecodable? {
          return None;
        }
        if line.text != "" && IsPrefix(DataPrefix, line.text) {
          var dataStr := line.text[|DataPrefix|..];
          var data := decode(dataStr);
          if data.Some? {
            var chunk := ExtractChunk(data.value);
            if chunk.Raised? {
              return None;
            }
            if Truthy(chunk.value) {
              PrependTwice(messages, [chunk.value], rest);
              messages := messages + [chunk.value];
            }
          }
        }
        i := i + 1;
      }
      assert lines[i..] == [];
      assert messages + [] == messages;
      var final := FinalMessage(messages);
      if final.Raised? {
        return None;
      }
      r := if Truthy(final.value) then Some(Obj1("response", final.value)) else None;
    }

    /** `end_session`: clears a set session id; with none set it does nothing. */
    method EndSession()
      modifies this
      ensures sessionId == EndedSession(old(sessionId))
      ensures accessToken == old(accessToken) && instanceUrl == old(instanceUrl)
      ensures consumerKey == old(consumerKey) && consumerSecret == old(consumerSecret) && agentId == old(agentId)
    {
      if !Truthy(sessionId) {
        return;
      }
      sessionId := NoSession;
    }
  }

  /** The constructor as a whole: a ValueError unless all four settings are present and
      non-empty, otherwise a fresh client with no token and no session. */
  method NewSalesforceAgentClient(env: Env) returns (r: Outcome<SalesforceAgentClient>)
    ensures r.Raised? <==> !Complete(env)
    ensures r.Raised? ==> r.reason == MissingConfiguration
    ensures r.Value? ==> fresh(r.value) && r.value.accessToken == JNull && r.value.sessionId == NoSession
                         && r.value.instanceUrl == JStr(env.instanceUrl.value)
  {
    var error := ConfigurationError(env);
    if error.Some? {
      return Raised(error.value);
    }
    var client := new SalesforceAgentClient(env);
    r := Value(client);
  }
}
