/**
  The older auditor of simpleaudit/auditor.py: one Claude model writes the
  probes and grades the conversation, and the system under audit is reached
  over HTTP through the target client, which keeps the conversation history
  and sends all of it with every request. The judge's reply is read by an
  inline parser that does not normalise the severity.

  Claude requests go through `ask(k, request)` and HTTP posts through
  `post(k, url, body)`; `k` numbers the requests of a run from `start`, in
  the order they are made.
 */
module LegacyAuditor {
  import opened Common
  import opened Text
  import opened JsonData
  import opened Chat
  import opened Results
  import opened Scenarios
  import opened Providers
  import opened Prompts
  import opened TargetClient
  import opened JudgeParser

  const DefaultClaudeModel := "claude-sonnet-4-20250514"
  const DefaultTargetModel := "default"
  const DefaultMaxTurns := 5
  const AnthropicKeyVariable := "ANTHROPIC_API_KEY"
  const MissingKeyMessage :=
    "Anthropic API key required. Either pass anthropic_api_key parameter "
    + "or set ANTHROPIC_API_KEY environment variable."
  const MissingAnthropicMessage := "anthropic package required. Install with: pip install anthropic"

  /** The auditor: the Claude model, the configured turn count, the target client and the Claude key. */
  datatype Auditor = Auditor(model: string, maxTurns: int, target: Client, claudeKey: string)

  // ---------------------------------------------------------------------------
  // Construction

  /** `a or b` on optional strings: the first when it is truthy, else the second. */
  function OrElse(a: Option<string>, b: Option<string>): (r: Option<string>)
    ensures Truthy(r) <==> Truthy(a) || Truthy(b)
    ensures Truthy(a) ==> r == a
  {
    if Truthy(a) then a else b
  }

  /**
    `Auditor(target, anthropic_api_key, model, target_model, max_turns)`: the
    target client is built first; then a missing key raises ValueError, and
    only after that does a missing `anthropic` package raise ImportError.
   */
  function NewAuditor(target: string, anthropicApiKey: Option<string>, model: string, targetModel: string,
                      maxTurns: int, host: Host, httpxInstalled: bool): (r: Result<Auditor>)
    ensures !httpxInstalled ==> r == Err(NewClient(target, targetModel, None, false).error)
    ensures httpxInstalled && !Truthy(anthropicApiKey) && !Truthy(EnvGet(host, AnthropicKeyVariable)) ==>
      r == Err(ValueError(MissingKeyMessage))
    ensures (httpxInstalled && (Truthy(anthropicApiKey) || Truthy(EnvGet(host, AnthropicKeyVariable)))
             && !host.anthropicInstalled) ==> r == Err(ImportError(MissingAnthropicMessage))
    ensures r.Ok? <==> httpxInstalled && host.anthropicInstalled
                       && (Truthy(anthropicApiKey) || Truthy(EnvGet(host, AnthropicKeyVariable)))
    ensures r.Ok? ==> Ok(r.value.target) == NewClient(target, targetModel, None, true)
    ensures r.Ok? ==> r.value.model == model && r.value.maxTurns == maxTurns
    ensures r.Ok? && Truthy(anthropicApiKey) ==> r.value.claudeKey == anthropicApiKey.value
    ensures r.Ok? && !Truthy(anthropicApiKey) ==> Some(r.value.claudeKey) == EnvGet(host, AnthropicKeyVariable)
  {
    var client :- NewClient(target, targetModel, None, httpxInstalled);
    var key := OrElse(anthropicApiKey, EnvGet(host, AnthropicKeyVariable));
    if !Truthy(key) then Err(ValueError(MissingKeyMessage))
    else if !host.anthropicInstalled then Err(ImportError(MissingAnthropicMessage))
    else Ok(Auditor(model, maxTurns, client, key.value))
  }

  /** Without a key both packages can be present and the constructor still refuses, with ValueError. */
  lemma KeyCheckedBeforePackage(target: string, model: string, targetModel: string, maxTurns: int, host: Host)
    requires AnthropicKeyVariable !in host.env
    ensures NewAuditor(target, None, model, targetModel, maxTurns, host, true) == Err(ValueError(MissingKeyMessage))
    ensures NewAuditor(target, Some(""), model, targetModel, maxTurns, host.(anthropicInstalled := false), true)
            == Err(ValueError(MissingKeyMessage))
  {
  }

  // ---------------------------------------------------------------------------
  // The inline judge parser (auditor.py lines 158-173)

  const FallbackSeverity := "medium"
  const UnparsedJudgeIssue := "Could not parse judge response"

  /** `s.split("```")[1]` for a text that starts with a fence: up to the next fence, or to the end. */
  function SecondPiece(s: string): (r: string)
    requires StartsWith(s, Fence)
    ensures !Contains(r, Fence)
    ensures 3 + |r| <= |s| && r == s[3..3 + |r|]
    ensures forall k :: 3 <= k < 3 + |r| ==> !OccursAt(s, Fence, k)
    ensures 3 + |r| == |s| || OccursAt(s, Fence, 3 + |r|)
  {
    match FindFrom(s, Fence, 3)
    case None =>
      forall k: nat ensures !OccursAt(s[3..|s|], Fence, k) {
        if OccursAt(s[3..|s|], Fence, k) {
          OccursInSlice(s, 3, |s|, Fence, k);
          assert false;
        }
      }
      assert s[3..] == s[3..|s|];
      ContainsIff(s[3..], Fence);
      s[3..]
    case Some(close) =>
      var r := s[3..close];
      forall k: nat ensures !OccursAt(r, Fence, k) {
        if OccursAt(r, Fence, k) {
          OccursInSlice(s, 3, close, Fence, k);
          assert false;
        }
      }
      ContainsIff(r, Fence);
      r
  }

  /**
    The text handed to `json.loads`: the reply stripped; when it opens with a
    fence, the piece after that fence, less a leading `json` tag. The piece is
    not stripped again.
   */
  function Unwrap(response: string): (p: string)
    ensures !StartsWith(Strip(response), Fence) ==> p == Strip(response)
    ensures StartsWith(Strip(response), Fence) ==>
      var piece := SecondPiece(Strip(response));
      p == if StartsWith(piece, "json") then piece[4..] else piece
  {
    var s := Strip(response);
    if StartsWith(s, Fence) then
      var piece := SecondPiece(s);
      if StartsWith(piece, "json") then piece[4..] else piece
    else s
  }

  /** `d.get(key, default)` for a text field; a missing or non-text value gives the default. */
  function TextOr(m: map<string, Json>, key: string, default: string): (r: string)
    ensures key in m && m[key].JString? ==> r == m[key].s
    ensures key !in m || !m[key].JString? ==> r == default
  {
    if key in m && m[key].JString? then m[key].s else default
  }

  /**
    `_judge_conversation`'s parse together with the `.get` calls of
    `run_scenario`: an undecodable reply gives the fixed fallback with the
    first 500 characters of the unwrapped text; a decoded object gives its
    fields as they are, with "medium", empty lists and an empty summary for
    missing ones; any other decoded value has no `.get` and raises
    AttributeError.
   */
  function LegacyParse(response: string, decode: string -> Option<Json>): (r: Result<Judgment>)
    ensures r.Err? <==> decode(Unwrap(response)).Some? && !decode(Unwrap(response)).value.JObject?
    ensures decode(Unwrap(response)).None? ==>
      r == Ok(Judgment(FallbackSeverity, [UnparsedJudgeIssue], [], Take(Unwrap(response), SummaryLimit), []))
    ensures decode(Unwrap(response)).None? ==> |r.value.summary| <= SummaryLimit
    ensures decode(Unwrap(response)).Some? && decode(Unwrap(response)).value.JObject? ==>
      var m := decode(Unwrap(response)).value.members;
      && r.Ok?
      && r.value.severity == TextOr(m, "severity", FallbackSeverity)
      && r.value.issuesFound == ListField(m, "issues_found")
      && r.value.positiveBehaviors == ListField(m, "positive_behaviors")
      && r.value.summary == TextField(m, "summary")
      && r.value.recommendations == ListField(m, "recommendations")
  {
    var text := Unwrap(response);
    match decode(text)
    case None => Ok(Judgment(FallbackSeverity, [UnparsedJudgeIssue], [], Take(text, SummaryLimit), []))
    case Some(JObject(m)) =>
      Ok(Judgment(TextOr(m, "severity", FallbackSeverity), ListField(m, "issues_found"),
                  ListField(m, "positive_behaviors"), TextField(m, "summary"), ListField(m, "recommendations")))
    case Some(_) => Err(AttributeError("get"))
  }

  /**
    The exception the result lines of `run_scenario` raise for the values a
    decoded judge object hands over unchanged: the icon lookup hashes the
    severity, so a list or an object raises TypeError; `.upper()` needs text,
    so null, a boolean or a number raises AttributeError; then the summary
    line measures the summary and, past 200 characters, slices it.
   */
  function ResultLineError(response: string, decode: string -> Option<Json>): (r: Option<Error>)
    ensures r.Some? ==> decode(Unwrap(response)).Some? && decode(Unwrap(response)).value.JObject?
    ensures decode(Unwrap(response)).Some? && decode(Unwrap(response)).value.JObject? ==>
      var m := decode(Unwrap(response)).value.members;
      && ("severity" in m && (m["severity"].JArray? || m["severity"].JObject?) ==> r.Some? && r.value.TypeError?)
      && ("severity" in m && (m["severity"].JNull? || m["severity"].JBool? || m["severity"].JNumber?)
          ==> r == Some(AttributeError("upper")))
      && ("severity" !in m || m["severity"].JString? ==>
          r == if "summary" in m then SummaryLogError(m["summary"]) else None)
  {
    match decode(Unwrap(response))
    case Some(JObject(m)) =>
      if "severity" in m && (m["severity"].JArray? || m["severity"].JObject?) then Some(TypeError("unhashable type"))
      else if "severity" in m && !m["severity"].JString? then Some(AttributeError("upper"))
      else if "summary" in m then SummaryLogError(m["summary"])
      else None
    case _ => None
  }

  /** A ```` ```json ```` fence around a body without backticks unwraps to exactly that body. */
  lemma FenceUnwrap(body: string)
    requires '`' !in body
    ensures Unwrap(Fence + "json" + body + Fence) == body
  {
    var s := Fence + "json" + body + Fence;
    StripOfTrimmed(s);
    assert StartsWith(s, Fence);
    assert OccursAt(s, Fence, |s| - 3);
    forall k: nat | 3 <= k < |s| - 3 ensures !OccursAt(s, Fence, k) {
    }
    assert FindFrom(s, Fence, 3) == Some(|s| - 3);
    var piece := s[3..|s| - 3];
    assert piece == "json" + body;
    assert StartsWith(piece, "json");
    assert piece[4..] == body;
  }

  /** Whatever severity text the judge's object carries becomes the result's severity, unchanged. */
  lemma SeverityVerbatim(response: string, decode: string -> Option<Json>, severity: string)
    requires decode(Unwrap(response)).Some? && decode(Unwrap(response)).value.JObject?
    requires var m := decode(Unwrap(response)).value.members; "severity" in m && m["severity"] == JString(severity)
    ensures LegacyParse(response, decode) == Ok(LegacyParse(response, decode).value)
    ensures LegacyParse(response, decode).value.severity == severity
  {
  }

  /** A bare object is handed to the decoder as it is, by both parsers. */
  lemma BareObjectUnwrapped(obj: string)
    requires |obj| >= 2 && obj[0] == '{' && obj[|obj| - 1] == '}' && '`' !in obj
    ensures Unwrap(obj) == obj && Payload(obj) == obj
  {
    StripOfTrimmed(obj);
    assert !StartsWith(obj, Fence) by {
      assert obj[0] != Fence[0];
    }
    assert [] + obj + [] == obj;
    WrappedPayload([], obj, []);
  }

  /**
    The two parsers part ways on the same reply: a bare object whose severity
    is "CRITICAL" keeps that spelling here, while `parse_json_response`
    lower-cases it.
   */
  lemma LegacyKeepsCase(obj: string, decode: string -> Option<Json>, defaultSeverity: string)
    requires |obj| >= 2 && obj[0] == '{' && obj[|obj| - 1] == '}' && '`' !in obj
    requires decode(obj) == Some(JObject(map["severity" := JString("CRITICAL")]))
    ensures LegacyParse(obj, decode).Ok? && LegacyParse(obj, decode).value.severity == "CRITICAL"
    ensures ParseJsonResponse(obj, defaultSeverity, decode).Ok?
    ensures ParseJsonResponse(obj, defaultSeverity, decode).value.severity == "critical"
  {
    BareObjectUnwrapped(obj);
    var m := map["severity" := JString("CRITICAL")];
    assert LegacyParse(obj, decode).value.severity == TextOr(m, "severity", FallbackSeverity);
    NormalizeShouted(defaultSeverity);
    assert ParseJsonResponse(obj, defaultSeverity, decode) == Ok(ObjectJudgment(m, defaultSeverity));
  }

  /** `"CRITICAL"` normalises to `"critical"`. */
  lemma NormalizeShouted(defaultSeverity: string)
    ensures NormalizeSeverity(JString("CRITICAL"), defaultSeverity) == "critical"
  {
    var w := "CRITICAL";
    StripOfTrimmed(w);
    var low := Lower(w);
    assert low[0] == 'c' && low[1] == 'r' && low[2] == 'i' && low[3] == 't';
    assert low[4] == 'i' && low[5] == 'c' && low[6] == 'a' && low[7] == 'l';
    assert low == "critical";
  }

  // ---------------------------------------------------------------------------
  // The requests of one scenario

  /** An outgoing request: a prompt to Claude, or an HTTP post to the target. */
  datatype Request = Ask(call: Call<string>) | Post(url: string, body: Json)

  /** `_generate_probe`: Claude writes the next user message. */
  function ProbeRequest(a: Auditor, description: string, language: string, conv: seq<Message>): Call<string> {
    Call(a.model, RedTeamSystem(language), ProbePrompt(description, conv))
  }

  /** `_judge_conversation`: Claude grades the finished conversation. */
  function JudgeRequest(a: Auditor, description: string, conv: seq<Message>): Call<string> {
    Call(a.model, EvaluatorSystem, VerdictPrompt(description, conv))
  }

  /** The transport as the target client sees it when the post is request `k`. */
  function PostAt(post: (nat, string, Json) -> Result<Json>, k: nat): (string, Json) -> Result<Json> {
    (url, body) => post(k, url, body)
  }

  /** The auditor with its target's history cleared, as `target.reset()` leaves it. */
  function Fresh(a: Auditor): (f: Auditor)
    ensures f.target.history == []
    ensures f == a.(target := f.target) && f.target == a.target.(history := [])
  {
    a.(target := Reset(a.target))
  }

  /**
    Turn `t`: request `2t` asked Claude for the probe; request `2t + 1` posted
    the conversation up to and including that probe to the target, whose
    reply became the next message.
   */
  predicate LegacyTurn(a: Auditor, description: string, language: string,
                       ask: (nat, Call<string>) -> Result<string>, post: (nat, string, Json) -> Result<Json>,
                       start: nat, conv: seq<Message>, reqs: seq<Request>, t: nat)
    requires 2 * t + 1 < |conv| && 2 * t + 1 < |reqs|
  {
    var url := Endpoint(a.target.baseUrl);
    var body := RequestBody(a.target.model, conv[..2 * t + 1]);
    && reqs[2 * t] == Ask(ProbeRequest(a, description, language, conv[..2 * t]))
    && ask(start + 2 * t, ProbeRequest(a, description, language, conv[..2 * t])) == Ok(conv[2 * t].content)
    && conv[2 * t].role == User
    && reqs[2 * t + 1] == Post(url, body)
    && post(start + 2 * t + 1, url, body).Ok?
    && ReplyContent(post(start + 2 * t + 1, url, body).value) == Ok(conv[2 * t + 1].content)
    && conv[2 * t + 1].role == Assistant
  }

  ghost predicate LegacyProtocol(a: Auditor, description: string, language: string,
                                 ask: (nat, Call<string>) -> Result<string>, post: (nat, string, Json) -> Result<Json>,
                                 start: nat, conv: seq<Message>, reqs: seq<Request>)
  {
    && |conv| % 2 == 0
    && |conv| <= |reqs|
    && forall t: nat :: 2 * t + 1 < |conv| ==> LegacyTurn(a, description, language, ask, post, start, conv, reqs, t)
  }

  /**
    What one successful `run_scenario` produced from the auditor `a` (whose
    target history has been reset): 2n + 1 requests for n turns, the
    conversation they built, the final Claude request grading it, and a result
    holding the scenario's name and description and the parsed judgment.
   */
  ghost predicate LegacyRecord(a: Auditor, name: string, description: string, maxTurns: Option<int>, language: string,
                               ask: (nat, Call<string>) -> Result<string>, post: (nat, string, Json) -> Result<Json>,
                               decode: string -> Option<Json>, start: nat, result: AuditResult, reqs: seq<Request>)
  {
    var n := TurnCount(EffectiveTurns(maxTurns, a.maxTurns));
    && |reqs| == 2 * n + 1
    && |result.conversation| == 2 * n
    && LegacyProtocol(a, description, language, ask, post, start, result.conversation, reqs)
    && reqs[2 * n] == Ask(JudgeRequest(a, description, result.conversation))
    && ask(start + 2 * n, JudgeRequest(a, description, result.conversation)).Ok?
    && LegacyParse(ask(start + 2 * n, JudgeRequest(a, description, result.conversation)).value, decode)
       == Ok(JudgmentOf(result))
    && ResultLineError(ask(start + 2 * n, JudgeRequest(a, description, result.conversation)).value, decode).None?
    && result.scenarioName == name
    && result.scenarioDescription == description
    && result.expectedBehavior.None?
  }

  /** The exception a chat post ends the turn with: the transport's, or the one reading the reply raises. */
  function PostError(sent: Result<Json>): (r: Option<Error>)
    ensures sent.Err? ==> r == Some(sent.error)
    ensures sent.Ok? ==> (r.None? <==> ReplyContent(sent.value).Ok?)
    ensures sent.Ok? && ReplyContent(sent.value).Err? ==> r == Some(ReplyContent(sent.value).error)
  {
    if sent.Err? then Some(sent.error)
    else if ReplyContent(sent.value).Err? then Some(ReplyContent(sent.value).error)
    else None
  }

  /** The exception the verdict request ends the scenario with: its own, the parser's, or a result line's. */
  function LegacyVerdictError(verdict: Result<string>, decode: string -> Option<Json>): (r: Option<Error>)
    ensures verdict.Err? ==> r == Some(verdict.error)
    ensures verdict.Ok? ==>
      (r.None? <==> LegacyParse(verdict.value, decode).Ok? && ResultLineError(verdict.value, decode).None?)
    ensures verdict.Ok? && LegacyParse(verdict.value, decode).Err? ==> r == Some(LegacyParse(verdict.value, decode).error)
    ensures verdict.Ok? && LegacyParse(verdict.value, decode).Ok? ==> r == ResultLineError(verdict.value, decode)
  {
    if verdict.Err? then Some(verdict.error)
    else match LegacyParse(verdict.value, decode)
      case Err(e) => Some(e)
      case Ok(_) => ResultLineError(verdict.value, decode)
  }

  /**
    A turn on `conv` that broke off with `e`, having made the requests
    `tail`: asking for the probe failed, or it succeeded and the post of the
    conversation with that probe failed or gave a reply without content.
   */
  predicate LegacyTurnFailed(f: Auditor, description: string, language: string,
                             ask: (nat, Call<string>) -> Result<string>, post: (nat, string, Json) -> Result<Json>,
                             start: nat, conv: seq<Message>, tail: seq<Request>, e: Error)
  {
    && 0 < |tail| <= 2
    && tail[0] == Ask(ProbeRequest(f, description, language, conv))
    && var probe := ask(start + |conv|, ProbeRequest(f, description, language, conv));
       if |tail| == 1 then probe == Err(e)
       else && probe.Ok?
            && tail[1] == Post(Endpoint(f.target.baseUrl), RequestBody(f.target.model, conv + [Message(User, probe.value)]))
            && PostError(post(start + |conv| + 1, tail[1].url, tail[1].body)) == Some(e)
  }

  /** The verdict request on the finished `conv` was the one request `tail`, and it ended the scenario with `e`. */
  predicate LegacyJudgeFailed(f: Auditor, description: string, ask: (nat, Call<string>) -> Result<string>,
                              decode: string -> Option<Json>, start: nat, conv: seq<Message>, tail: seq<Request>, e: Error)
  {
    && |tail| == 1
    && tail[0] == Ask(JudgeRequest(f, description, conv))
    && LegacyVerdictError(ask(start + |conv|, JudgeRequest(f, description, conv)), decode) == Some(e)
  }

  /**
    A scenario of `n` turns that failed with `e` after the turns of `conv`:
    those turns followed the protocol, and the next turn, or the verdict once
    all `n` turns were played, broke off with `e`.
   */
  ghost predicate LegacyFailedAfter(f: Auditor, description: string, n: nat, language: string,
                                    ask: (nat, Call<string>) -> Result<string>, post: (nat, string, Json) -> Result<Json>,
                                    decode: string -> Option<Json>, start: nat, conv: seq<Message>, reqs: seq<Request>,
                                    e: Error)
  {
    && |conv| <= 2 * n
    && |conv| < |reqs|
    && LegacyProtocol(f, description, language, ask, post, start, conv, reqs[..|conv|])
    && if |conv| < 2 * n then LegacyTurnFailed(f, description, language, ask, post, start, conv, reqs[|conv|..], e)
       else LegacyJudgeFailed(f, description, ask, decode, start, conv, reqs[|conv|..], e)
  }

  /** What one failed `run_scenario` from the reset auditor `f` left behind: its requests, up to the one that raised `e`. */
  ghost predicate LegacyScenarioFailed(f: Auditor, description: string, maxTurns: Option<int>, language: string,
                                       ask: (nat, Call<string>) -> Result<string>, post: (nat, string, Json) -> Result<Json>,
                                       decode: string -> Option<Json>, start: nat, reqs: seq<Request>, e: Error)
  {
    exists conv :: LegacyFailedAfter(f, description, TurnCount(EffectiveTurns(maxTurns, f.maxTurns)), language, ask, post,
                                     decode, start, conv, reqs, e)
  }

  /**
    The record determines the conversation: two conversations of the same
    length built from the same answers agree message by message.
   */
  lemma {:induction false} LegacyDeterminesConversation(
    f: Auditor, description: string, language: string,
    ask: (nat, Call<string>) -> Result<string>, post: (nat, string, Json) -> Result<Json>, start: nat,
    conv1: seq<Message>, reqs1: seq<Request>, conv2: seq<Message>, reqs2: seq<Request>, turns: nat)
    requires LegacyProtocol(f, description, language, ask, post, start, conv1, reqs1)
    requires LegacyProtocol(f, description, language, ask, post, start, conv2, reqs2)
    requires 2 * turns <= |conv1| && 2 * turns <= |conv2|
    ensures conv1[..2 * turns] == conv2[..2 * turns]
  {
    if turns > 0 {
      var t: nat := turns - 1;
      LegacyDeterminesConversation(f, description, language, ask, post, start, conv1, reqs1, conv2, reqs2, t);
      assert LegacyTurn(f, description, language, ask, post, start, conv1, reqs1, t);
      assert LegacyTurn(f, description, language, ask, post, start, conv2, reqs2, t);
      assert conv1[2 * t] == conv2[2 * t];
      assert conv1[..2 * t + 1] == conv1[..2 * t] + [conv1[2 * t]];
      assert conv2[..2 * t + 1] == conv2[..2 * t] + [conv2[2 * t]];
      assert conv1[2 * t + 1] == conv2[2 * t + 1];
      assert conv1[..2 * turns] == conv1[..2 * t + 1] + [conv1[2 * t + 1]];
      assert conv2[..2 * turns] == conv2[..2 * t + 1] + [conv2[2 * t + 1]];
    }
  }

  /** Two followed protocols of the same length built the same conversation. */
  lemma LegacySameConversation(f: Auditor, description: string, language: string,
                               ask: (nat, Call<string>) -> Result<string>, post: (nat, string, Json) -> Result<Json>,
                               start: nat, conv1: seq<Message>, reqs1: seq<Request>, conv2: seq<Message>, reqs2: seq<Request>)
    requires LegacyProtocol(f, description, language, ask, post, start, conv1, reqs1)
    requires LegacyProtocol(f, description, language, ask, post, start, conv2, reqs2)
    requires |conv1| == |conv2|
    ensures conv1 == conv2
  {
    var t := |conv1| / 2;
    assert 2 * t == |conv1|;
    LegacyDeterminesConversation(f, description, language, ask, post, start, conv1, reqs1, conv2, reqs2, t);
    assert conv1[..2 * t] == conv1 && conv2[..2 * t] == conv2;
  }

  /** A turn that the record shows succeeding did not break off. */
  lemma NoLegacyTurnFailure(f: Auditor, description: string, language: string,
                            ask: (nat, Call<string>) -> Result<string>, post: (nat, string, Json) -> Result<Json>,
                            start: nat, whole: seq<Message>, reqs: seq<Request>, conv: seq<Message>,
                            tail: seq<Request>, e: Error)
    requires LegacyProtocol(f, description, language, ask, post, start, whole, reqs)
    requires |conv| % 2 == 0 && |conv| < |whole| && whole[..|conv|] == conv
    ensures !LegacyTurnFailed(f, description, language, ask, post, start, conv, tail, e)
  {
    var t := |conv| / 2;
    assert LegacyTurn(f, description, language, ask, post, start, whole, reqs, t);
    assert whole[..2 * t + 1] == conv + [Message(User, whole[2 * t].content)];
  }

  /** A scenario whose turns all succeeded did not break off after any of them. */
  lemma NotFailedMidway(f: Auditor, description: string, n: nat, language: string,
                        ask: (nat, Call<string>) -> Result<string>, post: (nat, string, Json) -> Result<Json>,
                        decode: string -> Option<Json>, start: nat, whole: seq<Message>, reqs: seq<Request>,
                        conv: seq<Message>, failed: seq<Request>, e: Error)
    requires LegacyProtocol(f, description, language, ask, post, start, whole, reqs) && |whole| == 2 * n
    requires |conv| < 2 * n
    ensures !LegacyFailedAfter(f, description, n, language, ask, post, decode, start, conv, failed, e)
  {
    if LegacyFailedAfter(f, description, n, language, ask, post, decode, start, conv, failed, e) {
      var done, tail := failed[..|conv|], failed[|conv|..];
      assert LegacyProtocol(f, description, language, ask, post, start, conv, done);
      var t := |conv| / 2;
      assert 2 * t == |conv|;
      LegacyDeterminesConversation(f, description, language, ask, post, start, whole, reqs, conv, done, t);
      assert whole[..|conv|] == conv;
      NoLegacyTurnFailure(f, description, language, ask, post, start, whole, reqs, conv, tail, e);
      assert false;
    }
  }

  /** A scenario whose verdict was accepted did not fail at the verdict. */
  lemma NotFailedAtVerdict(f: Auditor, description: string, n: nat, language: string,
                           ask: (nat, Call<string>) -> Result<string>, post: (nat, string, Json) -> Result<Json>,
                           decode: string -> Option<Json>, start: nat, whole: seq<Message>, reqs: seq<Request>,
                           conv: seq<Message>, failed: seq<Request>, e: Error)
    requires LegacyProtocol(f, description, language, ask, post, start, whole, reqs) && |whole| == 2 * n
    requires LegacyVerdictError(ask(start + 2 * n, JudgeRequest(f, description, whole)), decode).None?
    requires |conv| >= 2 * n
    ensures !LegacyFailedAfter(f, description, n, language, ask, post, decode, start, conv, failed, e)
  {
    if LegacyFailedAfter(f, description, n, language, ask, post, decode, start, conv, failed, e) {
      LegacySameConversation(f, description, language, ask, post, start, whole, reqs, conv, failed[..|conv|]);
      assert false;
    }
  }

  /** For one conversation the failure might have broken off after: a recorded success rules it out. */
  lemma NotLegacyFailedAfter(f: Auditor, name: string, description: string, maxTurns: Option<int>, language: string,
                             ask: (nat, Call<string>) -> Result<string>, post: (nat, string, Json) -> Result<Json>,
                             decode: string -> Option<Json>, start: nat, result: AuditResult, reqs: seq<Request>,
                             conv: seq<Message>, failed: seq<Request>, e: Error)
    requires LegacyRecord(f, name, description, maxTurns, language, ask, post, decode, start, result, reqs)
    ensures !LegacyFailedAfter(f, description, TurnCount(EffectiveTurns(maxTurns, f.maxTurns)), language, ask, post,
                               decode, start, conv, failed, e)
  {
    var n := TurnCount(EffectiveTurns(maxTurns, f.maxTurns));
    var whole := result.conversation;
    if |conv| < 2 * n {
      NotFailedMidway(f, description, n, language, ask, post, decode, start, whole, reqs, conv, failed, e);
    } else {
      NotFailedAtVerdict(f, description, n, language, ask, post, decode, start, whole, reqs, conv, failed, e);
    }
  }

  /**
    The outcome of a scenario is determined by the answers: once a scenario
    has a record of success, no sequence of requests records a failure.
   */
  lemma LegacyRecordExcludesFailure(f: Auditor, name: string, description: string, maxTurns: Option<int>,
                                    language: string, ask: (nat, Call<string>) -> Result<string>,
                                    post: (nat, string, Json) -> Result<Json>, decode: string -> Option<Json>,
                                    start: nat, result: AuditResult, reqs: seq<Request>, failed: seq<Request>, e: Error)
    requires LegacyRecord(f, name, description, maxTurns, language, ask, post, decode, start, result, reqs)
    ensures !LegacyScenarioFailed(f, description, maxTurns, language, ask, post, decode, start, failed, e)
  {
    var n := TurnCount(EffectiveTurns(maxTurns, f.maxTurns));
    forall conv | true
      ensures !LegacyFailedAfter(f, description, n, language, ask, post, decode, start, conv, failed, e)
    {
      NotLegacyFailedAfter(f, name, description, maxTurns, language, ask, post, decode, start, result, reqs, conv,
                           failed, e);
    }
  }

  /** A turn stays recorded when the conversation and the requests grow at the end. */
  lemma LegacyTurnKept(a: Auditor, description: string, language: string,
                       ask: (nat, Call<string>) -> Result<string>, post: (nat, string, Json) -> Result<Json>,
                       start: nat, conv: seq<Message>, reqs: seq<Request>, conv': seq<Message>, reqs': seq<Request>, t: nat)
    requires 2 * t + 1 < |conv| <= |conv'| && |reqs| <= |reqs'| && 2 * t + 1 < |reqs|
    requires conv'[..|conv|] == conv && reqs'[..|reqs|] == reqs
    requires LegacyTurn(a, description, language, ask, post, start, conv, reqs, t)
    ensures LegacyTurn(a, description, language, ask, post, start, conv', reqs', t)
  {
    assert conv'[..2 * t] == conv[..2 * t];
    assert conv'[..2 * t + 1] == conv[..2 * t + 1];
    assert conv'[2 * t] == conv[2 * t] && conv'[2 * t + 1] == conv[2 * t + 1];
    assert reqs'[2 * t] == reqs[2 * t] && reqs'[2 * t + 1] == reqs[2 * t + 1];
  }

  /** The probe and the reply of a new turn make it a recorded turn. */
  lemma LegacyTurnNew(a: Auditor, description: string, language: string,
                      ask: (nat, Call<string>) -> Result<string>, post: (nat, string, Json) -> Result<Json>,
                      start: nat, conv: seq<Message>, reqs: seq<Request>, probe: string, reply: string, t: nat)
    requires |reqs| == |conv| == 2 * t
    requires ask(start + |conv|, ProbeRequest(a, description, language, conv)) == Ok(probe)
    requires var body := RequestBody(a.target.model, conv + [Message(User, probe)]);
      && post(start + |conv| + 1, Endpoint(a.target.baseUrl), body).Ok?
      && ReplyContent(post(start + |conv| + 1, Endpoint(a.target.baseUrl), body).value) == Ok(reply)
    ensures LegacyTurn(a, description, language, ask, post, start,
                       conv + [Message(User, probe), Message(Assistant, reply)],
                       reqs + [Ask(ProbeRequest(a, description, language, conv)),
                               Post(Endpoint(a.target.baseUrl), RequestBody(a.target.model, conv + [Message(User, probe)]))],
                       t)
  {
    var conv' := conv + [Message(User, probe), Message(Assistant, reply)];
    assert conv'[..|conv|] == conv;
    assert conv'[..|conv| + 1] == conv + [Message(User, probe)];
  }

  lemma LegacyProtocolExtend(a: Auditor, description: string, language: string,
                             ask: (nat, Call<string>) -> Result<string>, post: (nat, string, Json) -> Result<Json>,
                             start: nat, conv: seq<Message>, reqs: seq<Request>, probe: string, reply: string)
    requires LegacyProtocol(a, description, language, ask, post, start, conv, reqs) && |reqs| == |conv|
    requires ask(start + |conv|, ProbeRequest(a, description, language, conv)) == Ok(probe)
    requires var body := RequestBody(a.target.model, conv + [Message(User, probe)]);
      && post(start + |conv| + 1, Endpoint(a.target.baseUrl), body).Ok?
      && ReplyContent(post(start + |conv| + 1, Endpoint(a.target.baseUrl), body).value) == Ok(reply)
    ensures LegacyProtocol(a, description, language, ask, post, start,
                           conv + [Message(User, probe), Message(Assistant, reply)],
                           reqs + [Ask(ProbeRequest(a, description, language, conv)),
                                   Post(Endpoint(a.target.baseUrl), RequestBody(a.target.model, conv + [Message(User, probe)]))])
  {
    var conv' := conv + [Message(User, probe), Message(Assistant, reply)];
    var reqs' := reqs + [Ask(ProbeRequest(a, description, language, conv)),
                         Post(Endpoint(a.target.baseUrl), RequestBody(a.target.model, conv + [Message(User, probe)]))];
    assert conv'[..|conv|] == conv && reqs'[..|reqs|] == reqs;
    forall t: nat | 2 * t + 1 < |conv'|
      ensures LegacyTurn(a, description, language, ask, post, start, conv', reqs', t)
    {
      if 2 * t + 1 < |conv| {
        LegacyTurnKept(a, description, language, ask, post, start, conv, reqs, conv', reqs', t);
      } else {
        LegacyTurnNew(a, description, language, ask, post, start, conv, reqs, probe, reply, t);
      }
    }
  }

  /** Every recorded turn stays recorded when the conversation and the requests grow at the end. */
  lemma LegacyTurnsKept(a: Auditor, description: string, language: string,
                        ask: (nat, Call<string>) -> Result<string>, post: (nat, string, Json) -> Result<Json>,
                        start: nat, conv: seq<Message>, reqs: seq<Request>, conv': seq<Message>, reqs': seq<Request>)
    requires LegacyProtocol(a, description, language, ask, post, start, conv, reqs)
    requires |conv| <= |conv'| && |reqs| <= |reqs'| && conv'[..|conv|] == conv && reqs'[..|reqs|] == reqs
    ensures forall t: nat :: 2 * t + 1 < |conv| ==> LegacyTurn(a, description, language, ask, post, start, conv', reqs', t)
  {
    forall t: nat | 2 * t + 1 < |conv|
      ensures LegacyTurn(a, description, language, ask, post, start, conv', reqs', t)
    {
      LegacyTurnKept(a, description, language, ask, post, start, conv, reqs, conv', reqs', t);
    }
  }

  lemma LegacyProtocolMoreRequests(a: Auditor, description: string, language: string,
                                   ask: (nat, Call<string>) -> Result<string>, post: (nat, string, Json) -> Result<Json>,
                                   start: nat, conv: seq<Message>, reqs: seq<Request>, extra: Request)
    requires LegacyProtocol(a, description, language, ask, post, start, conv, reqs)
    ensures LegacyProtocol(a, description, language, ask, post, start, conv, reqs + [extra])
  {
    forall t: nat | 2 * t + 1 < |conv|
      ensures LegacyTurn(a, description, language, ask, post, start, conv, reqs + [extra], t)
    {
      assert LegacyTurn(a, description, language, ask, post, start, conv, reqs, t);
    }
  }

  lemma LegacyRecordOf(a: Auditor, name: string, description: string, maxTurns: Option<int>, language: string,
                       ask: (nat, Call<string>) -> Result<string>, post: (nat, string, Json) -> Result<Json>,
                       decode: string -> Option<Json>, start: nat, result: AuditResult, reqs: seq<Request>)
    requires var n := TurnCount(EffectiveTurns(maxTurns, a.maxTurns));
      && |reqs| == 2 * n + 1 && |result.conversation| == 2 * n
      && LegacyProtocol(a, description, language, ask, post, start, result.conversation, reqs)
      && reqs[2 * n] == Ask(JudgeRequest(a, description, result.conversation))
      && ask(start + 2 * n, JudgeRequest(a, description, result.conversation)).Ok?
      && LegacyParse(ask(start + 2 * n, JudgeRequest(a, description, result.conversation)).value, decode)
         == Ok(JudgmentOf(result))
      && ResultLineError(ask(start + 2 * n, JudgeRequest(a, description, result.conversation)).value, decode).None?
    requires result.scenarioName == name && result.scenarioDescription == description && result.expectedBehavior.None?
    ensures LegacyRecord(a, name, description, maxTurns, language, ask, post, decode, start, result, reqs)
  {
  }

  /**
    One turn of `run_scenario`: Claude writes the probe, and the target client
    chats it, posting the whole history with the probe appended. A failure of
    either ends the turn with that exception.
   */
  method PlayTurn(f: Auditor, description: string, language: string,
                  ask: (nat, Call<string>) -> Result<string>, post: (nat, string, Json) -> Result<Json>,
                  start: nat, conv: seq<Message>, reqs: seq<Request>)
    returns (err: Option<Error>, conv': seq<Message>, reqs': seq<Request>, client: Client)
    requires |reqs| == |conv| && |conv| % 2 == 0
    requires LegacyProtocol(f, description, language, ask, post, start, conv, reqs) && Alternating(conv)
    ensures client == f.target.(history := client.history)
    ensures err.None? ==> && |conv'| == |reqs'| == |conv| + 2 && conv'[..|conv|] == conv
                          && LegacyProtocol(f, description, language, ask, post, start, conv', reqs')
                          && Alternating(conv') && client.history == conv'
    ensures err.Some? ==> |reqs| < |reqs'| <= |reqs| + 2
    ensures err.Some? ==> && reqs'[..|reqs|] == reqs
                          && LegacyTurnFailed(f, description, language, ask, post, start, conv, reqs'[|reqs|..], err.value)
  {
    var probeReq := ProbeRequest(f, description, language, conv);
    var probe := ask(start + |conv|, probeReq);
    if probe.Err? {
      err, conv', reqs', client := Some(probe.error), conv, reqs + [Ask(probeReq)], f.target.(history := conv);
      assert reqs'[|reqs|..] == [Ask(probeReq)];
      return;
    }
    var url, body := Endpoint(f.target.baseUrl), RequestBody(f.target.model, conv + [Message(User, probe.value)]);
    var out := ChatTurn(f.target.(history := conv), probe.value, PostAt(post, start + |conv| + 1));
    reqs' := reqs + [Ask(probeReq), Post(url, body)];
    client := out.client;
    if out.reply.Err? {
      err, conv' := Some(out.reply.error), conv;
      assert reqs'[|reqs|..] == [Ask(probeReq), Post(url, body)];
      return;
    }
    LegacyProtocolExtend(f, description, language, ask, post, start, conv, reqs, probe.value, out.reply.value);
    AlternatingExtend(conv, probe.value, out.reply.value);
    err, conv' := None, conv + [Message(User, probe.value), Message(Assistant, out.reply.value)];
    assert conv'[..|conv|] == conv;
  }

  /**
    `run_scenario`: the target's history is reset, then each turn asks Claude
    for a probe and chats it to the target, and finally Claude grades the
    conversation. Any exception ends the scenario with it. The returned
    auditor's target holds the conversation as its history.
   */
  method RunScenario(a: Auditor, name: string, description: string, maxTurns: Option<int>, language: string,
                     ask: (nat, Call<string>) -> Result<string>, post: (nat, string, Json) -> Result<Json>,
                     decode: string -> Option<Json>, start: nat)
    returns (r: Result<AuditResult>, reqs: seq<Request>, a': Auditor)
    ensures Fresh(a') == Fresh(a)
    ensures r.Ok? ==> LegacyRecord(Fresh(a), name, description, maxTurns, language, ask, post, decode, start, r.value, reqs)
    ensures r.Ok? ==> Alternating(r.value.conversation) && a'.target.history == r.value.conversation
    ensures 0 < |reqs| <= 2 * TurnCount(EffectiveTurns(maxTurns, a.maxTurns)) + 1
    ensures r.Err? ==> LegacyScenarioFailed(Fresh(a), description, maxTurns, language, ask, post, decode, start, reqs, r.error)
  {
    var f := Fresh(a);
    var n := TurnCount(EffectiveTurns(maxTurns, f.maxTurns));
    var conv: seq<Message> := [];
    reqs := [];
    a' := f;
    var t := 0;
    while t < n
      invariant 0 <= t <= n
      invariant |conv| == 2 * t && |reqs| == 2 * t
      invariant a' == f.(target := f.target.(history := conv))
      invariant LegacyProtocol(f, description, language, ask, post, start, conv, reqs)
      invariant Alternating(conv)
    {
      var err, conv', reqs', client := PlayTurn(f, description, language, ask, post, start, conv, reqs);
      if err.Some? {
        assert LegacyFailedAfter(f, description, n, language, ask, post, decode, start, conv, reqs', err.value);
        r, a', reqs := Err(err.value), f.(target := client), reqs';
        return;
      }
      a', reqs := f.(target := client), reqs';
      conv := conv';
      t := t + 1;
    }
    var reqs';
    r, reqs' := JudgeStep(f, name, description, maxTurns, language, ask, post, decode, start, conv, reqs);
    if r.Err? {
      assert LegacyFailedAfter(f, description, n, language, ask, post, decode, start, conv, reqs', r.error);
    }
    reqs := reqs';
  }

  /**
    The end of `run_scenario`: Claude grades the finished conversation and the
    parsed verdict fills the result. A failed request, a non-object verdict, or
    a verdict whose values the result lines cannot print ends the scenario
    with that exception.
   */
  method JudgeStep(f: Auditor, name: string, description: string, maxTurns: Option<int>, language: string,
                   ask: (nat, Call<string>) -> Result<string>, post: (nat, string, Json) -> Result<Json>,
                   decode: string -> Option<Json>, start: nat, conv: seq<Message>, reqs: seq<Request>)
    returns (r: Result<AuditResult>, reqs': seq<Request>)
    requires |conv| == |reqs| == 2 * TurnCount(EffectiveTurns(maxTurns, f.maxTurns))
    requires LegacyProtocol(f, description, language, ask, post, start, conv, reqs)
    ensures |reqs'| == |reqs| + 1 && reqs'[..|reqs|] == reqs
    ensures r.Err? ==> LegacyJudgeFailed(f, description, ask, decode, start, conv, reqs'[|reqs|..], r.error)
    ensures r.Ok? ==> LegacyRecord(f, name, description, maxTurns, language, ask, post, decode, start, r.value, reqs')
    ensures r.Ok? ==> r.value.conversation == conv
    ensures r.Err? ==> var verdict := ask(start + |conv|, JudgeRequest(f, description, conv));
      || verdict.Err?
      || LegacyParse(verdict.value, decode).Err?
      || ResultLineError(verdict.value, decode).Some?
    ensures var verdict := ask(start + |conv|, JudgeRequest(f, description, conv));
      verdict.Ok? && LegacyParse(verdict.value, decode).Ok? && ResultLineError(verdict.value, decode).Some? ==>
      r == Err(ResultLineError(verdict.value, decode).value)
  {
    var judgeReq := JudgeRequest(f, description, conv);
    var verdict := ask(start + |conv|, judgeReq);
    LegacyProtocolMoreRequests(f, description, language, ask, post, start, conv, reqs, Ask(judgeReq));
    reqs' := reqs + [Ask(judgeReq)];
    assert reqs'[|reqs|..] == [Ask(judgeReq)];
    if verdict.Err? {
      r := Err(verdict.error);
      return;
    }
    var parsed := LegacyParse(verdict.value, decode);
    if parsed.Err? {
      r := Err(parsed.error);
      return;
    }
    var printed := ResultLineError(verdict.value, decode);
    if printed.Some? {
      r := Err(printed.value);
      return;
    }
    var j := parsed.value;
    var result := AuditResult(name, description, conv, j.severity, j.issuesFound, j.positiveBehaviors, j.summary,
                              j.recommendations, None);
    assert JudgmentOf(result) == j;
    LegacyRecordOf(f, name, description, maxTurns, language, ask, post, decode, start, result, reqs');
    r := Ok(result);
  }

  /**
    Unlike the direct-API auditor, the target is sent the whole conversation
    so far: the post of turn `t` carries every earlier message and the new
    probe, and for the first turn that is the probe alone, whatever an
    earlier scenario left in the history.
   */
  lemma TargetSeesWholeConversation(a: Auditor, name: string, description: string, maxTurns: Option<int>, language: string,
                                    ask: (nat, Call<string>) -> Result<string>, post: (nat, string, Json) -> Result<Json>,
                                    decode: string -> Option<Json>, start: nat, result: AuditResult, reqs: seq<Request>,
                                    t: nat)
    requires LegacyRecord(Fresh(a), name, description, maxTurns, language, ask, post, decode, start, result, reqs)
    requires 2 * t + 1 < |result.conversation|
    ensures reqs[2 * t + 1].Post? && reqs[2 * t + 1].body.JObject?
    ensures "messages" in reqs[2 * t + 1].body.members
    ensures reqs[2 * t + 1].body.members["messages"] == ConversationJson(result.conversation[..2 * t + 1])
    ensures t == 0 ==> reqs[1].body.members["messages"] == ConversationJson([Message(User, result.conversation[0].content)])
  {
    assert LegacyTurn(Fresh(a), description, language, ask, post, start, result.conversation, reqs, t);
    if t == 0 {
      assert result.conversation[..1] == [result.conversation[0]];
      assert result.conversation[0] == Message(User, result.conversation[0].content);
    }
  }

  /**
    The result's severity is the judge object's severity text, or "medium"
    when there is none to read; a severity of another JSON type never reaches
    a result.
   */
  lemma RecordSeverityVerbatim(a: Auditor, name: string, description: string, maxTurns: Option<int>, language: string,
                               ask: (nat, Call<string>) -> Result<string>, post: (nat, string, Json) -> Result<Json>,
                               decode: string -> Option<Json>, start: nat, result: AuditResult, reqs: seq<Request>)
    requires LegacyRecord(a, name, description, maxTurns, language, ask, post, decode, start, result, reqs)
    ensures var reply := ask(start + |reqs| - 1, JudgeRequest(a, description, result.conversation)).value;
      var v := decode(Unwrap(reply));
      && (v.None? ==> result.severity == FallbackSeverity)
      && (v.Some? ==> v.value.JObject? && result.severity == TextOr(v.value.members, "severity", FallbackSeverity))
      && (v.Some? && "severity" in v.value.members ==> v.value.members["severity"] == JString(result.severity))
  {
  }

  // ---------------------------------------------------------------------------
  // A whole run

  /**
    Scenario `sc`, the `i`-th of a run, made the requests of block `i`,
    numbered on from the 2n + 1 requests of each earlier block, starting from
    the reset auditor `a`, and produced `result`.
   */
  ghost predicate LegacyBlockRecord(a: Auditor, sc: Scenario, maxTurns: Option<int>, language: string,
                                    ask: (nat, Call<string>) -> Result<string>, post: (nat, string, Json) -> Result<Json>,
                                    decode: string -> Option<Json>, start: nat, i: nat, result: AuditResult, rs: seq<Request>)
  {
    && "name" in sc && "description" in sc
    && LegacyRecord(a, sc["name"], sc["description"], maxTurns, language, ask, post, decode,
                    BlockStart(start, i, 2 * TurnCount(EffectiveTurns(maxTurns, a.maxTurns)) + 1), result, rs)
  }

  /** Scenario `i` of `list` made the requests of block `i` and produced result `i`. */
  ghost predicate LegacyRunRecord(a: Auditor, list: seq<Scenario>, maxTurns: Option<int>, language: string,
                                  ask: (nat, Call<string>) -> Result<string>, post: (nat, string, Json) -> Result<Json>,
                                  decode: string -> Option<Json>, start: nat,
                                  results: seq<AuditResult>, reqs: seq<seq<Request>>)
  {
    && |results| == |list| == |reqs|
    && forall i :: 0 <= i < |list| ==>
         LegacyBlockRecord(a, list[i], maxTurns, language, ask, post, decode, start, i, results[i], reqs[i])
  }

  /** The record of a run, scenario by scenario: result `i` comes from scenario `i`. */
  lemma LegacyRunRecordAt(a: Auditor, list: seq<Scenario>, maxTurns: Option<int>, language: string,
                          ask: (nat, Call<string>) -> Result<string>, post: (nat, string, Json) -> Result<Json>,
                          decode: string -> Option<Json>, start: nat,
                          results: seq<AuditResult>, reqs: seq<seq<Request>>, i: nat)
    requires LegacyRunRecord(a, list, maxTurns, language, ask, post, decode, start, results, reqs)
    requires i < |list|
    ensures |results| == |list| == |reqs|
    ensures "name" in list[i] && "description" in list[i]
    ensures LegacyRecord(a, list[i]["name"], list[i]["description"], maxTurns, language, ask, post, decode,
                         BlockStart(start, i, 2 * TurnCount(EffectiveTurns(maxTurns, a.maxTurns)) + 1),
                         results[i], reqs[i])
  {
    assert LegacyBlockRecord(a, list[i], maxTurns, language, ask, post, decode, start, i, results[i], reqs[i]);
  }

  /** A further scenario's record extends the run's record by one block. */
  lemma LegacyRunRecordExtend(a: Auditor, list: seq<Scenario>, maxTurns: Option<int>, language: string,
                              ask: (nat, Call<string>) -> Result<string>, post: (nat, string, Json) -> Result<Json>,
                              decode: string -> Option<Json>, start: nat,
                              results: seq<AuditResult>, reqs: seq<seq<Request>>, result: AuditResult, rs: seq<Request>)
    requires |results| < |list|
    requires LegacyRunRecord(a, list[..|results|], maxTurns, language, ask, post, decode, start, results, reqs)
    requires LegacyBlockRecord(a, list[|results|], maxTurns, language, ask, post, decode, start, |results|, result, rs)
    ensures LegacyRunRecord(a, list[..|results| + 1], maxTurns, language, ask, post, decode, start,
                            results + [result], reqs + [rs])
  {
    var n := |results|;
    var list', results', reqs' := list[..n + 1], results + [result], reqs + [rs];
    forall i | 0 <= i < |list'|
      ensures LegacyBlockRecord(a, list'[i], maxTurns, language, ask, post, decode, start, i, results'[i], reqs'[i])
    {
      if i < n {
        assert list'[i] == list[..n][i] && results'[i] == results[i] && reqs'[i] == reqs[i];
        assert LegacyBlockRecord(a, list[..n][i], maxTurns, language, ask, post, decode, start, i, results[i], reqs[i]);
      }
    }
  }

  /**
    Scenario `sc`, the `i`-th of a run from the reset auditor `a`, failed with
    `e` after making the requests `rs`: it lacks "name" or "description"
    (KeyError, no requests), or its scenario failed in block `i`.
   */
  ghost predicate LegacyStepFailed(a: Auditor, sc: Scenario, maxTurns: Option<int>, language: string,
                                   ask: (nat, Call<string>) -> Result<string>, post: (nat, string, Json) -> Result<Json>,
                                   decode: string -> Option<Json>, start: nat, i: nat, rs: seq<Request>, e: Error)
  {
    if "name" !in sc then e == KeyError("name") && rs == []
    else if "description" !in sc then e == KeyError("description") && rs == []
    else LegacyScenarioFailed(a, sc["description"], maxTurns, language, ask, post, decode,
                              BlockStart(start, i, 2 * TurnCount(EffectiveTurns(maxTurns, a.maxTurns)) + 1), rs, e)
  }

  /** Every scenario of `list` ran from the reset auditor `a`, making the requests `reqs`, with some results. */
  ghost predicate LegacyCompleted(a: Auditor, list: seq<Scenario>, maxTurns: Option<int>, language: string,
                                  ask: (nat, Call<string>) -> Result<string>, post: (nat, string, Json) -> Result<Json>,
                                  decode: string -> Option<Json>, start: nat, reqs: seq<seq<Request>>)
  {
    exists results :: LegacyRunRecord(a, list, maxTurns, language, ask, post, decode, start, results, reqs)
  }

  /**
    A run of `list` that failed with `e`: the scenarios before the last block
    of `reqs` succeeded with some results, and the scenario of that block
    failed with `e`.
   */
  ghost predicate LegacyRunFailed(a: Auditor, list: seq<Scenario>, maxTurns: Option<int>, language: string,
                                  ask: (nat, Call<string>) -> Result<string>, post: (nat, string, Json) -> Result<Json>,
                                  decode: string -> Option<Json>, start: nat, reqs: seq<seq<Request>>, e: Error)
  {
    && 0 < |reqs| <= |list|
    && LegacyCompleted(a, list[..|reqs| - 1], maxTurns, language, ask, post, decode, start, reqs[..|reqs| - 1])
    && LegacyStepFailed(a, list[|reqs| - 1], maxTurns, language, ask, post, decode, start, |reqs| - 1,
                        reqs[|reqs| - 1], e)
  }

  /** A run of a list has one outcome: a record of its success rules out every record of failure. */
  lemma LegacyRunOutcomeExclusive(a: Auditor, list: seq<Scenario>, maxTurns: Option<int>, language: string,
                                  ask: (nat, Call<string>) -> Result<string>, post: (nat, string, Json) -> Result<Json>,
                                  decode: string -> Option<Json>, start: nat, results: seq<AuditResult>,
                                  reqs: seq<seq<Request>>, failed: seq<seq<Request>>, e: Error)
    requires LegacyRunRecord(a, list, maxTurns, language, ask, post, decode, start, results, reqs)
    ensures !LegacyRunFailed(a, list, maxTurns, language, ask, post, decode, start, failed, e)
  {
    if LegacyRunFailed(a, list, maxTurns, language, ask, post, decode, start, failed, e) {
      var k := |failed| - 1;
      LegacyRunRecordAt(a, list, maxTurns, language, ask, post, decode, start, results, reqs, k);
      LegacyRecordExcludesFailure(a, list[k]["name"], list[k]["description"], maxTurns, language, ask, post, decode,
                                  BlockStart(start, k, 2 * TurnCount(EffectiveTurns(maxTurns, a.maxTurns)) + 1),
                                  results[k], reqs[k], failed[k], e);
      assert false;
    }
  }

  /**
    `run`: the scenarios of a pack or a custom list, in order, each starting
    from a reset target; a scenario without "name" or "description" raises
    `KeyError`, and the first failure ends the run.
   */
  method Run(a: Auditor, source: ScenarioSource, catalogue: Catalogue, maxTurns: Option<int>, language: string,
             ask: (nat, Call<string>) -> Result<string>, post: (nat, string, Json) -> Result<Json>,
             decode: string -> Option<Json>, start: nat, now: string)
    returns (r: Result<AuditResults>, reqs: seq<seq<Request>>, a': Auditor)
    ensures ScenarioList(source, catalogue).Err? ==> r == Err(ScenarioList(source, catalogue).error) && reqs == []
    ensures Fresh(a') == Fresh(a)
    ensures r.Ok? ==> ScenarioList(source, catalogue).Ok? && r.value.timestamp == now
    ensures r.Ok? ==> LegacyRunRecord(Fresh(a), ScenarioList(source, catalogue).value, maxTurns, language, ask, post,
                                      decode, start, r.value.results, reqs)
    ensures r.Err? && ScenarioList(source, catalogue).Ok? ==>
      LegacyRunFailed(Fresh(a), ScenarioList(source, catalogue).value, maxTurns, language, ask, post, decode, start,
                      reqs, r.error)
  {
    a' := a;
    var listR := ScenarioList(source, catalogue);
    if listR.Err? {
      r, reqs := Err(listR.error), [];
      return;
    }
    var results;
    results, reqs, a' := RunList(a, listR.value, maxTurns, language, ask, post, decode, start);
    if results.Err? {
      r := Err(results.error);
      return;
    }
    r := Ok(NewAuditResults(results.value, now));
  }

  /** One scenario of `run`, taken from the auditor the previous scenario left behind. */
  method RunStep(a: Auditor, list: seq<Scenario>, maxTurns: Option<int>, language: string,
                 ask: (nat, Call<string>) -> Result<string>, post: (nat, string, Json) -> Result<Json>,
                 decode: string -> Option<Json>, start: nat, results: seq<AuditResult>, reqs: seq<seq<Request>>)
    returns (r: Result<AuditResult>, rs: seq<Request>, a': Auditor)
    requires |results| < |list|
    requires LegacyRunRecord(Fresh(a), list[..|results|], maxTurns, language, ask, post, decode, start, results, reqs)
    ensures Fresh(a') == Fresh(a)
    ensures r.Ok? ==> LegacyRunRecord(Fresh(a), list[..|results| + 1], maxTurns, language, ask, post, decode, start,
                                      results + [r.value], reqs + [rs])
    ensures r.Err? ==> LegacyStepFailed(Fresh(a), list[|results|], maxTurns, language, ask, post, decode, start,
                                        |results|, rs, r.error)
  {
    a' := a;
    var i := |results|;
    var sc := list[i];
    if "name" !in sc {
      r, rs := Err(KeyError("name")), [];
      return;
    }
    if "description" !in sc {
      r, rs := Err(KeyError("description")), [];
      return;
    }
    var f := Fresh(a);
    var block := BlockStart(start, i, 2 * TurnCount(EffectiveTurns(maxTurns, f.maxTurns)) + 1);
    r, rs, a' := RunScenario(a, sc["name"], sc["description"], maxTurns, language, ask, post, decode, block);
    if r.Ok? {
      assert LegacyBlockRecord(f, sc, maxTurns, language, ask, post, decode, start, i, r.value, rs);
      LegacyRunRecordExtend(f, list, maxTurns, language, ask, post, decode, start, results, reqs, r.value, rs);
    }
  }

  /** The loop of `run`, threading the auditor (its target's history) from one scenario to the next. */
  method RunList(a: Auditor, list: seq<Scenario>, maxTurns: Option<int>, language: string,
                 ask: (nat, Call<string>) -> Result<string>, post: (nat, string, Json) -> Result<Json>,
                 decode: string -> Option<Json>, start: nat)
    returns (r: Result<seq<AuditResult>>, reqs: seq<seq<Request>>, a': Auditor)
    ensures Fresh(a') == Fresh(a)
    ensures r.Ok? ==> LegacyRunRecord(Fresh(a), list, maxTurns, language, ask, post, decode, start, r.value, reqs)
    ensures r.Err? ==> LegacyRunFailed(Fresh(a), list, maxTurns, language, ask, post, decode, start, reqs, r.error)
  {
    var results: seq<AuditResult> := [];
    reqs := [];
    a' := a;
    while |results| < |list|
      invariant |results| <= |list|
      invariant Fresh(a') == Fresh(a)
      invariant LegacyRunRecord(Fresh(a), list[..|results|], maxTurns, language, ask, post, decode, start, results, reqs)
      decreases |list| - |results|
    {
      var res, rs, next := RunStep(a', list, maxTurns, language, ask, post, decode, start, results, reqs);
      if res.Err? {
        var done := reqs;
        r, a', reqs := Err(res.error), next, reqs + [rs];
        assert reqs[..|reqs| - 1] == done && list[..|reqs| - 1] == list[..|results|];
        return;
      }
      a', reqs := next, reqs + [rs];
      results := results + [res.value];
    }
    assert list[..|results|] == list;
    r := Ok(results);
  }
}
