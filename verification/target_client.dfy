/**
  The HTTP client for the system under audit (simpleaudit/simpleaudit/client.py):
  URL normalisation, the request headers, the conversation history it keeps,
  the chat endpoint rule and the health probe. The HTTP transport is a
  function parameter: `post(url, body)` yields the decoded reply body or the
  failure it raised (including a non-2xx status), `get(url)` the status code.
 */
module TargetClient {
  import opened Common
  import opened Text
  import opened JsonData
  import opened Chat

  datatype Client = Client(
    baseUrl: string,
    model: string,
    apiKey: Option<string>,
    headers: map<string, string>,
    history: seq<Message>)

  const ChatPath := "/chat/completions"
  const DefaultChatSuffix := "/v1/chat/completions"
  const VersionSegment := "/v1"
  const HealthEndpoints: seq<string> := ["/health", "/v1/models", "/"]

  /**
    `TargetClient(base_url, model, api_key=...)`: trailing slashes are removed,
    and an `Authorization: Bearer <key>` header (section 2.1 of RFC 6750) is
    sent exactly when the key is truthy.
   */
  function NewClient(baseUrl: string, model: string, apiKey: Option<string>, httpxInstalled: bool): (r: Result<Client>)
    ensures !httpxInstalled <==> r.Err?
    ensures r.Ok? ==> r.value.history == [] && r.value.model == model && r.value.apiKey == apiKey
    ensures r.Ok? ==> |r.value.baseUrl| <= |baseUrl| && baseUrl[..|r.value.baseUrl|] == r.value.baseUrl
    ensures r.Ok? ==> r.value.baseUrl == [] || r.value.baseUrl[|r.value.baseUrl| - 1] != '/'
    ensures r.Ok? ==> forall k :: |r.value.baseUrl| <= k < |baseUrl| ==> baseUrl[k] == '/'
    ensures r.Ok? ==> r.value.headers.Keys == (if Truthy(apiKey) then {"Content-Type", "Authorization"} else {"Content-Type"})
    ensures r.Ok? ==> r.value.headers["Content-Type"] == "application/json"
    ensures r.Ok? && Truthy(apiKey) ==> r.value.headers["Authorization"] == "Bearer " + apiKey.value
  {
    if !httpxInstalled then Err(ImportError("httpx package required. Install with: pip install httpx"))
    else
      var headers := map["Content-Type" := "application/json"];
      var headers := if Truthy(apiKey) then headers["Authorization" := "Bearer " + apiKey.value] else headers;
      Ok(Client(RStripChar(baseUrl, '/'), model, apiKey, headers, []))
  }

  /** `reset()`: the history is emptied and nothing else changes. */
  function Reset(c: Client): (r: Client)
    ensures r.history == []
    ensures r.baseUrl == c.baseUrl && r.model == c.model && r.apiKey == c.apiKey && r.headers == c.headers
  {
    c.(history := [])
  }

  /**
    The URL `chat` posts to: the base URL itself when it already names the
    chat-completions path, else that path under `/v1`.
   */
  function Endpoint(baseUrl: string): (url: string)
    ensures Contains(url, ChatPath)
    ensures Contains(baseUrl, ChatPath) ==> url == baseUrl
    ensures !Contains(baseUrl, ChatPath) ==> StartsWith(url, baseUrl)
  {
    if Contains(baseUrl, ChatPath) then baseUrl
    else
      var url := baseUrl + DefaultChatSuffix;
      assert OccursAt(url, ChatPath, |baseUrl| + 3) by {
        assert url[|baseUrl| + 3..|baseUrl| + 3 + |ChatPath|] == DefaultChatSuffix[3..];
      }
      ContainsIff(url, ChatPath);
      assert url[..|baseUrl|] == baseUrl;
      url
  }

  /** The JSON body of a chat request: the model and the whole history. */
  function RequestBody(model: string, history: seq<Message>): (body: Json)
    ensures body.JObject? && body.members.Keys == {"model", "messages"}
    ensures body.members["messages"] == ConversationJson(history)
  {
    JObject(map["model" := JString(model), "messages" := ConversationJson(history)])
  }

  /** Every step of `["choices"][0]["message"]["content"]` finds an object, a non-empty list, or the key. */
  predicate HasContent(reply: Json) {
    && reply.JObject? && "choices" in reply.members
    && reply.members["choices"].JArray? && |reply.members["choices"].items| > 0
    && reply.members["choices"].items[0].JObject? && "message" in reply.members["choices"].items[0].members
    && reply.members["choices"].items[0].members["message"].JObject?
    && "content" in reply.members["choices"].items[0].members["message"].members
  }

  /** The value at `["choices"][0]["message"]["content"]`. */
  function Content(reply: Json): Json
    requires HasContent(reply)
  {
    reply.members["choices"].items[0].members["message"].members["content"]
  }

  /**
    `response.json()["choices"][0]["message"]["content"]`: the text found at
    the end of the path; a missing key, an empty list or a value of the wrong
    type on the way raises.
   */
  function ReplyContent(reply: Json): (r: Result<string>)
    ensures r.Ok? <==> HasContent(reply) && Content(reply).JString?
    ensures r.Ok? ==> Content(reply) == JString(r.value)
    ensures reply.JObject? && "choices" !in reply.members ==> r == Err(KeyError("choices"))
    ensures reply.JObject? && "choices" in reply.members && reply.members["choices"].JObject? ==> r == Err(KeyError("0"))
    ensures reply.JObject? && "choices" in reply.members && reply.members["choices"] == JString("") ==>
      r == Err(IndexError("string index out of range"))
  {
    if !reply.JObject? then Err(TypeError("reply is not an object"))
    else if "choices" !in reply.members then Err(KeyError("choices"))
    else
      var choices := reply.members["choices"];
      if choices.JObject? then Err(KeyError("0"))
      else if choices == JString("") then Err(IndexError("string index out of range"))
      else if !choices.JArray? then Err(TypeError("choices is not a list"))
      else if |choices.items| == 0 then Err(IndexError("list index out of range"))
      else
        var first := choices.items[0];
        if !first.JObject? then Err(TypeError("choice is not an object"))
        else if "message" !in first.members then Err(KeyError("message"))
        else
          var msg := first.members["message"];
          if !msg.JObject? then Err(TypeError("message is not an object"))
          else if "content" !in msg.members then Err(KeyError("content"))
          else if !msg.members["content"].JString? then Err(TypeError("content is not a string"))
          else Ok(msg.members["content"].s)
  }

  datatype ChatOutcome = ChatOutcome(client: Client, reply: Result<string>)

  /**
    `chat(message)`: the user message joins the history before the request is
    made, so a failed request leaves it there without a reply; a successful
    one appends the assistant's reply.
   */
  function ChatTurn(c: Client, message: string, post: (string, Json) -> Result<Json>): (out: ChatOutcome)
    ensures out.client == c.(history := out.client.history)
    ensures out.reply.Ok? ==> out.client.history == c.history + [Message(User, message), Message(Assistant, out.reply.value)]
    ensures out.reply.Err? ==> out.client.history == c.history + [Message(User, message)]
    ensures var sent := post(Endpoint(c.baseUrl), RequestBody(c.model, c.history + [Message(User, message)]));
      sent.Err? ==> out.reply == Err(sent.error)
    ensures var sent := post(Endpoint(c.baseUrl), RequestBody(c.model, c.history + [Message(User, message)]));
      sent.Ok? ==> out.reply == ReplyContent(sent.value)
  {
    var pending := c.history + [Message(User, message)];
    var sent := c.(history := pending);
    match post(Endpoint(c.baseUrl), RequestBody(c.model, pending))
    case Err(e) => ChatOutcome(sent, Err(e))
    case Ok(reply) =>
      match ReplyContent(reply)
      case Err(e) => ChatOutcome(sent, Err(e))
      case Ok(content) => ChatOutcome(sent.(history := pending + [Message(Assistant, content)]), Ok(content))
  }

  /** A successful turn keeps a well-formed conversation well-formed. */
  lemma ChatKeepsAlternation(c: Client, message: string, post: (string, Json) -> Result<Json>)
    requires Alternating(c.history)
    requires ChatTurn(c, message, post).reply.Ok?
    ensures Alternating(ChatTurn(c, message, post).client.history)
  {
    var h := ChatTurn(c, message, post).client.history;
    forall i | 0 <= i < |h|
      ensures h[i].role == (if i % 2 == 0 then User else Assistant)
    {
      if i < |c.history| {
        assert h[i] == c.history[i];
      }
    }
  }

  /** After a reset and one successful turn the history is exactly that exchange. */
  lemma FreshTurn(c: Client, message: string, post: (string, Json) -> Result<Json>)
    requires ChatTurn(Reset(c), message, post).reply.Ok?
    ensures var out := ChatTurn(Reset(c), message, post);
      out.client.history == [Message(User, message), Message(Assistant, out.reply.value)]
  {
  }

  // ---------------------------------------------------------------------------
  // Health probe

  /** `base_url.split("/v1")[0]` when "/v1" occurs, else the base URL. */
  function HealthBase(baseUrl: string): (base: string)
    ensures StartsWith(baseUrl, base)
    ensures !Contains(base, VersionSegment)
    ensures !Contains(baseUrl, VersionSegment) ==> base == baseUrl
    ensures Contains(baseUrl, VersionSegment) ==>
      OccursAt(baseUrl, VersionSegment, |base|) && forall j :: 0 <= j < |base| ==> !OccursAt(baseUrl, VersionSegment, j)
  {
    match FindFrom(baseUrl, VersionSegment, 0)
    case None =>
      ContainsIff(baseUrl, VersionSegment);
      baseUrl
    case Some(k) =>
      var base := baseUrl[..k];
      assert forall j: nat :: OccursAt(base, VersionSegment, j) ==> OccursAt(baseUrl, VersionSegment, j) by {
        forall j: nat | OccursAt(base, VersionSegment, j)
          ensures OccursAt(baseUrl, VersionSegment, j)
        {
          assert baseUrl[j..j + |VersionSegment|] == base[j..j + |VersionSegment|];
        }
      }
      ContainsIff(base, VersionSegment);
      assert baseUrl[..|base|] == base;
      base
  }

  datatype HealthOutcome = HealthOutcome(healthy: bool, probed: seq<string>)

  /** Tries `base + endpoint` for each endpoint in turn, stopping at the first 200. */
  function Probe(base: string, endpoints: seq<string>, get: string -> Result<int>): (out: HealthOutcome)
    ensures out.healthy <==> exists i :: 0 <= i < |endpoints| && get(base + endpoints[i]) == Ok(200)
    ensures |out.probed| <= |endpoints|
    ensures forall i :: 0 <= i < |out.probed| ==> out.probed[i] == base + endpoints[i]
    ensures forall i :: 0 <= i < |out.probed| - 1 ==> get(out.probed[i]) != Ok(200)
    ensures out.healthy ==> out.probed != [] && get(out.probed[|out.probed| - 1]) == Ok(200)
    ensures !out.healthy ==> |out.probed| == |endpoints|
  {
    if endpoints == [] then HealthOutcome(false, [])
    else if get(base + endpoints[0]) == Ok(200) then HealthOutcome(true, [base + endpoints[0]])
    else
      var rest := Probe(base, endpoints[1..], get);
      assert forall i :: 1 <= i < |endpoints| ==> endpoints[i] == endpoints[1..][i - 1];
      HealthOutcome(rest.healthy, [base + endpoints[0]] + rest.probed)
  }

  /**
    `health_check()`: true exactly when one of "/health", "/v1/models" and "/"
    under the version-free base answers 200; transport failures count as a miss
    and nothing is raised.
   */
  function HealthCheck(c: Client, get: string -> Result<int>): (out: HealthOutcome)
    ensures out.healthy <==> exists i :: 0 <= i < |HealthEndpoints| && get(HealthBase(c.baseUrl) + HealthEndpoints[i]) == Ok(200)
    ensures 1 <= |out.probed| <= 3
    ensures out.probed[0] == HealthBase(c.baseUrl) + "/health"
  {
    Probe(HealthBase(c.baseUrl), HealthEndpoints, get)
  }
}
