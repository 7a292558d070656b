/**
  The direct-API auditor of simpleaudit/model_auditor.py: judge and target
  provider selection, and the scenario loop in which the judge model writes a
  probe, the target model answers it, and after the last turn the judge grades
  the whole conversation. Every model call goes through `call(k, request)`,
  where `k` numbers the calls of a run from `start`; it yields the reply text
  or the exception the provider raised.
 */
module ModelAuditor {
  import opened Common
  import opened Text
  import opened JsonData
  import opened Chat
  import opened Results
  import opened Scenarios
  import opened Providers
  import opened Prompts
  import opened JudgeParser
  import opened ModelVerdict

  datatype Auditor = Auditor(
    maxTurns: int,
    systemPrompt: Option<string>,
    target: Provider,
    judge: Provider,
    judgeIsTarget: bool)

  // ---------------------------------------------------------------------------
  // Construction

  /**
    `judge_api_key or (api_key if judge_provider == provider else None)`: the
    target's key is reused only when the judge is named by the very same string.
   */
  function JudgeKey(provider: string, apiKey: Option<string>, judgeProvider: string, judgeApiKey: Option<string>)
    : (k: Option<string>)
    ensures Truthy(judgeApiKey) ==> k == judgeApiKey
    ensures !Truthy(judgeApiKey) && judgeProvider == provider ==> k == apiKey
    ensures !Truthy(judgeApiKey) && judgeProvider != provider ==> k == None
  {
    if Truthy(judgeApiKey) then judgeApiKey
    else if judgeProvider == provider then apiKey
    else None
  }

  /**
    The key comparison is on the names as written, so "OpenAI" and "openai"
    select the same provider class but the judge does not inherit the key.
   */
  lemma JudgeKeyComparesNamesAsWritten(key: string)
    ensures Lower("OpenAI") == Lower("openai") == "openai"
    ensures JudgeKey("openai", Some(key), "OpenAI", None) == None
  {
    assert "OpenAI" != "openai" by { assert "OpenAI"[0] != "openai"[0]; }
    var up := Lower("OpenAI");
    assert |up| == 6;
    assert up[0] == 'o' && up[1] == 'p' && up[2] == 'e' && up[3] == 'n' && up[4] == 'a' && up[5] == 'i';
    var low := Lower("openai");
    assert low[0] == 'o' && low[1] == 'p' && low[2] == 'e' && low[3] == 'n' && low[4] == 'a' && low[5] == 'i';
  }

  /**
    `ModelAuditor(...)`: the target provider is built first (without a base
    URL); with no `judge_provider` the judge is that same object, otherwise a
    second provider is built with the judge key, model and base URL. A second
    key prompt reads `judgeInput` from the console.
   */
  function NewAuditor(provider: string, apiKey: Option<string>, model: Option<string>, systemPrompt: Option<string>,
                      judgeProvider: Option<string>, judgeApiKey: Option<string>, judgeModel: Option<string>,
                      judgeBaseUrl: Option<string>, maxTurns: int, promptForKey: bool,
                      host: Host, judgeInput: string): (r: Result<Auditor>)
    ensures var t := GetProvider(provider, apiKey, model, promptForKey, None, host);
      && (t.Err? ==> r == Err(t.error))
      && (r.Ok? ==> t == Ok(r.value.target) && r.value.maxTurns == maxTurns && r.value.systemPrompt == systemPrompt)
    ensures var t := GetProvider(provider, apiKey, model, promptForKey, None, host);
      judgeProvider.None? ==> (r.Ok? <==> t.Ok?) && (r.Ok? ==> r.value.judgeIsTarget && r.value.judge == r.value.target)
    ensures judgeProvider.Some? && GetProvider(provider, apiKey, model, promptForKey, None, host).Ok? ==>
      var j := GetProvider(judgeProvider.value, JudgeKey(provider, apiKey, judgeProvider.value, judgeApiKey),
                           judgeModel, promptForKey, judgeBaseUrl, host.(consoleInput := judgeInput));
      (j.Err? ==> r == Err(j.error)) && (r.Ok? ==> j == Ok(r.value.judge) && !r.value.judgeIsTarget)
  {
    var target :- GetProvider(provider, apiKey, model, promptForKey, None, host);
    if judgeProvider.None? then Ok(Auditor(maxTurns, systemPrompt, target, target, true))
    else
      var key := JudgeKey(provider, apiKey, judgeProvider.value, judgeApiKey);
      var judge :- GetProvider(judgeProvider.value, key, judgeModel, promptForKey, judgeBaseUrl,
                               host.(consoleInput := judgeInput));
      Ok(Auditor(maxTurns, systemPrompt, target, judge, false))
  }

  /** A judge of the same provider, given no key of its own, authenticates with the target's key. */
  lemma JudgeInheritsTargetKey(provider: string, apiKey: Option<string>, model: Option<string>, systemPrompt: Option<string>,
                               judgeModel: Option<string>, judgeBaseUrl: Option<string>, maxTurns: int,
                               promptForKey: bool, host: Host, judgeInput: string)
    requires Truthy(apiKey)
    requires NewAuditor(provider, apiKey, model, systemPrompt, Some(provider), None, judgeModel, judgeBaseUrl,
                        maxTurns, promptForKey, host, judgeInput).Ok?
    ensures var a := NewAuditor(provider, apiKey, model, systemPrompt, Some(provider), None, judgeModel, judgeBaseUrl,
                                maxTurns, promptForKey, host, judgeInput).value;
      a.judge.apiKey == a.target.apiKey == apiKey.value && a.judge.kind == a.target.kind
  {
  }

  // ---------------------------------------------------------------------------
  // The calls of one scenario

  /** `_call_target`: the system prompt when it is truthy, else the empty string. */
  function TargetSystem(a: Auditor): (s: string)
    ensures Truthy(a.systemPrompt) ==> s == a.systemPrompt.value
    ensures !Truthy(a.systemPrompt) ==> s == ""
  {
    if Truthy(a.systemPrompt) then a.systemPrompt.value else ""
  }

  /** `_generate_probe`: the judge provider writes the next user message. */
  function ProbeCall(a: Auditor, description: string, language: string, conv: seq<Message>): Call<Provider> {
    Call(a.judge, RedTeamSystem(language), ProbePrompt(description, conv))
  }

  /** `_call_target`: the target sees the probe alone, not the earlier turns. */
  function TargetCall(a: Auditor, probe: string): Call<Provider> {
    Call(a.target, GivenSystem(TargetSystem(a)), GivenUser(probe))
  }

  /** `_judge_conversation`: the judge provider grades the finished conversation. */
  function JudgeCall(a: Auditor, description: string, conv: seq<Message>): Call<Provider> {
    Call(a.judge, EvaluatorSystem, VerdictPrompt(description, conv))
  }

  /** Turn `t` of a conversation: call `2t` wrote the probe, call `2t + 1` the reply. */
  predicate TurnFollowed(a: Auditor, description: string, language: string, call: (nat, Call<Provider>) -> Result<string>,
                         start: nat, conv: seq<Message>, calls: seq<Call<Provider>>, t: nat)
    requires 2 * t + 1 < |conv| && 2 * t + 1 < |calls|
  {
    && calls[2 * t] == ProbeCall(a, description, language, conv[..2 * t])
    && call(start + 2 * t, calls[2 * t]) == Ok(conv[2 * t].content)
    && conv[2 * t].role == User
    && calls[2 * t + 1] == TargetCall(a, conv[2 * t].content)
    && call(start + 2 * t + 1, calls[2 * t + 1]) == Ok(conv[2 * t + 1].content)
    && conv[2 * t + 1].role == Assistant
  }

  /** Every turn of `conv` happened as `TurnFollowed` describes. */
  ghost predicate FollowsProtocol(a: Auditor, description: string, language: string, call: (nat, Call<Provider>) -> Result<string>,
                            start: nat, conv: seq<Message>, calls: seq<Call<Provider>>)
  {
    && |conv| % 2 == 0
    && |conv| <= |calls|
    && forall t: nat :: 2 * t + 1 < |conv| ==> TurnFollowed(a, description, language, call, start, conv, calls, t)
  }

  /**
    What one successful `run_scenario` produced: 2n + 1 calls for n turns,
    the conversation they built, the final judge call on that conversation,
    and a result holding the scenario's name and description and the parsed
    judgment.
   */
  ghost predicate ScenarioRecord(a: Auditor, name: string, description: string, maxTurns: Option<int>, language: string,
                           call: (nat, Call<Provider>) -> Result<string>, decode: string -> Option<Json>,
                           start: nat, result: AuditResult, calls: seq<Call<Provider>>)
  {
    var n := TurnCount(EffectiveTurns(maxTurns, a.maxTurns));
    && |calls| == 2 * n + 1
    && |result.conversation| == 2 * n
    && FollowsProtocol(a, description, language, call, start, result.conversation, calls)
    && calls[2 * n] == JudgeCall(a, description, result.conversation)
    && Judged(call(start + 2 * n, calls[2 * n]), decode, JudgmentOf(result))
    && result.scenarioName == name
    && result.scenarioDescription == description
    && result.expectedBehavior.None?
  }

  /**
    A turn on `conv` that broke off with `e`, having made the calls `tail`:
    the probe call failed, or it succeeded and the target call on that probe
    failed.
   */
  predicate TurnFailed(a: Auditor, description: string, language: string, call: (nat, Call<Provider>) -> Result<string>,
                       start: nat, conv: seq<Message>, tail: seq<Call<Provider>>, e: Error)
  {
    && 0 < |tail| <= 2
    && tail[0] == ProbeCall(a, description, language, conv)
    && var probe := call(start + |conv|, tail[0]);
       if |tail| == 1 then probe == Err(e)
       else probe.Ok? && tail[1] == TargetCall(a, probe.value) && call(start + |conv| + 1, tail[1]) == Err(e)
  }

  /** The judge call on the finished `conv` was the one call `tail`, and it ended the scenario with `e`. */
  predicate JudgeFailed(a: Auditor, description: string, call: (nat, Call<Provider>) -> Result<string>,
                        decode: string -> Option<Json>, start: nat, conv: seq<Message>, tail: seq<Call<Provider>>, e: Error)
  {
    && |tail| == 1
    && tail[0] == JudgeCall(a, description, conv)
    && VerdictError(call(start + |conv|, tail[0]), decode) == Some(e)
  }

  /**
    A scenario of `n` turns that failed with `e` after the turns of `conv`:
    those turns followed the protocol, and the next turn, or the verdict once
    all `n` turns were played, broke off with `e`.
   */
  ghost predicate FailedAfter(a: Auditor, description: string, n: nat, language: string,
                              call: (nat, Call<Provider>) -> Result<string>, decode: string -> Option<Json>,
                              start: nat, conv: seq<Message>, calls: seq<Call<Provider>>, e: Error)
  {
    && |conv| <= 2 * n
    && |conv| < |calls|
    && FollowsProtocol(a, description, language, call, start, conv, calls[..|conv|])
    && if |conv| < 2 * n then TurnFailed(a, description, language, call, start, conv, calls[|conv|..], e)
       else JudgeFailed(a, description, call, decode, start, conv, calls[|conv|..], e)
  }

  /** What one failed `run_scenario` left behind: the calls it made, up to the one that raised `e`. */
  ghost predicate ScenarioFailed(a: Auditor, description: string, maxTurns: Option<int>, language: string,
                                 call: (nat, Call<Provider>) -> Result<string>, decode: string -> Option<Json>,
                                 start: nat, calls: seq<Call<Provider>>, e: Error)
  {
    exists conv :: FailedAfter(a, description, TurnCount(EffectiveTurns(maxTurns, a.maxTurns)), language, call, decode,
                               start, conv, calls, e)
  }

  /** Appending one more turn keeps the earlier turns' record. */
  lemma ProtocolExtend(a: Auditor, description: string, language: string, call: (nat, Call<Provider>) -> Result<string>,
                       start: nat, conv: seq<Message>, calls: seq<Call<Provider>>, probe: string, reply: string)
    requires FollowsProtocol(a, description, language, call, start, conv, calls) && |calls| == |conv|
    requires call(start + |conv|, ProbeCall(a, description, language, conv)) == Ok(probe)
    requires call(start + |conv| + 1, TargetCall(a, probe)) == Ok(reply)
    ensures FollowsProtocol(a, description, language, call, start,
                            conv + [Message(User, probe), Message(Assistant, reply)],
                            calls + [ProbeCall(a, description, language, conv), TargetCall(a, probe)])
  {
    var conv' := conv + [Message(User, probe), Message(Assistant, reply)];
    var calls' := calls + [ProbeCall(a, description, language, conv), TargetCall(a, probe)];
    forall t: nat | 2 * t + 1 < |conv'|
      ensures TurnFollowed(a, description, language, call, start, conv', calls', t)
    {
      if 2 * t + 1 < |conv| {
        assert TurnFollowed(a, description, language, call, start, conv, calls, t);
        assert conv'[..2 * t] == conv[..2 * t];
        assert conv'[2 * t] == conv[2 * t] && conv'[2 * t + 1] == conv[2 * t + 1];
        assert calls'[2 * t] == calls[2 * t] && calls'[2 * t + 1] == calls[2 * t + 1];
      } else {
        assert 2 * t == |conv|;
        assert conv'[..2 * t] == conv;
      }
    }
  }

  /** A further call after the turns leaves their record intact. */
  lemma ProtocolMoreCalls(a: Auditor, description: string, language: string, call: (nat, Call<Provider>) -> Result<string>,
                          start: nat, conv: seq<Message>, calls: seq<Call<Provider>>, extra: Call<Provider>)
    requires FollowsProtocol(a, description, language, call, start, conv, calls)
    ensures FollowsProtocol(a, description, language, call, start, conv, calls + [extra])
  {
    forall t: nat | 2 * t + 1 < |conv|
      ensures TurnFollowed(a, description, language, call, start, conv, calls + [extra], t)
    {
      assert TurnFollowed(a, description, language, call, start, conv, calls, t);
    }
  }

  /** Every call of a followed protocol succeeded. */
  lemma ProtocolCallsSucceed(a: Auditor, description: string, language: string, call: (nat, Call<Provider>) -> Result<string>,
                             start: nat, conv: seq<Message>, calls: seq<Call<Provider>>)
    requires FollowsProtocol(a, description, language, call, start, conv, calls) && |calls| == |conv|
    ensures forall k :: 0 <= k < |calls| ==> call(start + k, calls[k]).Ok?
  {
    forall k | 0 <= k < |calls| ensures call(start + k, calls[k]).Ok? {
      var t: nat := k / 2;
      assert TurnFollowed(a, description, language, call, start, conv, calls, t);
    }
  }

  /** The pieces a successful scenario leaves behind make up its record. */
  lemma RecordOf(a: Auditor, name: string, description: string, maxTurns: Option<int>, language: string,
                 call: (nat, Call<Provider>) -> Result<string>, decode: string -> Option<Json>,
                 start: nat, result: AuditResult, calls: seq<Call<Provider>>)
    requires var n := TurnCount(EffectiveTurns(maxTurns, a.maxTurns));
      && |calls| == 2 * n + 1 && |result.conversation| == 2 * n
      && FollowsProtocol(a, description, language, call, start, result.conversation, calls)
      && calls[2 * n] == JudgeCall(a, description, result.conversation)
      && Judged(call(start + 2 * n, calls[2 * n]), decode, JudgmentOf(result))
    requires result.scenarioName == name && result.scenarioDescription == description && result.expectedBehavior.None?
    ensures ScenarioRecord(a, name, description, maxTurns, language, call, decode, start, result, calls)
  {
  }

  /**
    One turn of `run_scenario`: the judge provider writes the probe and the
    target answers it. A failure of either ends the turn with that exception.
   */
  method PlayTurn(a: Auditor, description: string, language: string, call: (nat, Call<Provider>) -> Result<string>,
                  start: nat, conv: seq<Message>, calls: seq<Call<Provider>>)
    returns (err: Option<Error>, conv': seq<Message>, calls': seq<Call<Provider>>)
    requires |calls| == |conv| && |conv| % 2 == 0
    requires FollowsProtocol(a, description, language, call, start, conv, calls) && Alternating(conv)
    ensures err.None? ==> && |conv'| == |calls'| == |conv| + 2
                          && FollowsProtocol(a, description, language, call, start, conv', calls')
                          && Alternating(conv')
    ensures err.Some? ==> && |calls| < |calls'| <= |calls| + 2
                          && (forall k :: 0 <= k < |calls'| - 1 ==> call(start + k, calls'[k]).Ok?)
                          && call(start + |calls'| - 1, calls'[|calls'| - 1]) == Err(err.value)
    ensures err.Some? ==> && calls'[..|calls|] == calls
                          && TurnFailed(a, description, language, call, start, conv, calls'[|calls|..], err.value)
  {
    ProtocolCallsSucceed(a, description, language, call, start, conv, calls);
    var probeCall := ProbeCall(a, description, language, conv);
    var probe := call(start + |conv|, probeCall);
    if probe.Err? {
      err, conv', calls' := Some(probe.error), conv, calls + [probeCall];
      assert calls'[|calls|..] == [probeCall];
      return;
    }
    var targetCall := TargetCall(a, probe.value);
    var reply := call(start + |conv| + 1, targetCall);
    calls' := calls + [probeCall, targetCall];
    if reply.Err? {
      err, conv' := Some(reply.error), conv;
      assert calls'[|calls|..] == [probeCall, targetCall];
      return;
    }
    ProtocolExtend(a, description, language, call, start, conv, calls, probe.value, reply.value);
    AlternatingExtend(conv, probe.value, reply.value);
    err, conv' := None, conv + [Message(User, probe.value), Message(Assistant, reply.value)];
  }

  /**
    `run_scenario`. Any exception a call raises ends the scenario with that
    exception, as does a judge reply that decodes to something other than an
    object, or to an object whose summary the result's log line cannot measure
    or slice.
   */
  method RunScenario(a: Auditor, name: string, description: string, maxTurns: Option<int>, language: string,
                     call: (nat, Call<Provider>) -> Result<string>, decode: string -> Option<Json>, start: nat)
    returns (r: Result<AuditResult>, calls: seq<Call<Provider>>)
    ensures r.Ok? ==> ScenarioRecord(a, name, description, maxTurns, language, call, decode, start, r.value, calls)
    ensures r.Ok? ==> Alternating(r.value.conversation)
    ensures 0 < |calls| <= 2 * TurnCount(EffectiveTurns(maxTurns, a.maxTurns)) + 1
    ensures forall k :: 0 <= k < |calls| - 1 ==> call(start + k, calls[k]).Ok?
    ensures r.Err? ==>
      || call(start + |calls| - 1, calls[|calls| - 1]).Err?
      || (&& |calls| == 2 * TurnCount(EffectiveTurns(maxTurns, a.maxTurns)) + 1
          && call(start + |calls| - 1, calls[|calls| - 1]).Ok?
          && VerdictRejected(call(start + |calls| - 1, calls[|calls| - 1]).value, decode))
    ensures r.Err? ==> ScenarioFailed(a, description, maxTurns, language, call, decode, start, calls, r.error)
  {
    var n := TurnCount(EffectiveTurns(maxTurns, a.maxTurns));
    var err, conv, played := PlayTurns(a, description, n, language, call, decode, start);
    if err.Some? {
      r, calls := Err(err.value), played;
      return;
    }
    r, calls := JudgeTurn(a, name, description, maxTurns, language, call, decode, start, conv, played);
    assert call(start + |calls| - 1, calls[|calls| - 1]) == call(start + |played|, calls[|played|]);
    if r.Err? {
      JudgeFailureAfter(a, description, n, language, call, decode, start, conv, played, calls, r.error);
    }
  }

  /** A verdict that failed after `n` complete turns is a failure after those turns. */
  lemma JudgeFailureAfter(a: Auditor, description: string, n: nat, language: string,
                          call: (nat, Call<Provider>) -> Result<string>, decode: string -> Option<Json>, start: nat,
                          conv: seq<Message>, calls: seq<Call<Provider>>, calls': seq<Call<Provider>>, e: Error)
    requires |conv| == |calls| == 2 * n
    requires FollowsProtocol(a, description, language, call, start, conv, calls)
    requires |calls'| == |calls| + 1 && calls'[..|calls|] == calls
    requires JudgeFailed(a, description, call, decode, start, conv, calls'[|calls|..], e)
    ensures FailedAfter(a, description, n, language, call, decode, start, conv, calls', e)
  {
  }

  /**
    The turn loop of `run_scenario`: `n` turns, each adding a probe and a
    reply, until one of them raises.
   */
  method PlayTurns(a: Auditor, description: string, n: nat, language: string,
                   call: (nat, Call<Provider>) -> Result<string>, decode: string -> Option<Json>, start: nat)
    returns (err: Option<Error>, conv: seq<Message>, calls: seq<Call<Provider>>)
    ensures err.None? ==> && |conv| == |calls| == 2 * n
                          && FollowsProtocol(a, description, language, call, start, conv, calls)
                          && Alternating(conv)
    ensures err.Some? ==> && 0 < |calls| <= 2 * n
                          && (forall k :: 0 <= k < |calls| - 1 ==> call(start + k, calls[k]).Ok?)
                          && call(start + |calls| - 1, calls[|calls| - 1]) == Err(err.value)
                          && FailedAfter(a, description, n, language, call, decode, start, conv, calls, err.value)
  {
    conv, calls := [], [];
    var t := 0;
    while t < n
      invariant 0 <= t <= n
      invariant |conv| == 2 * t && |calls| == 2 * t
      invariant FollowsProtocol(a, description, language, call, start, conv, calls)
      invariant Alternating(conv)
    {
      var conv', calls';
      err, conv', calls' := PlayTurn(a, description, language, call, start, conv, calls);
      if err.Some? {
        assert FailedAfter(a, description, n, language, call, decode, start, conv, calls', err.value);
        calls := calls';
        return;
      }
      conv, calls := conv', calls';
      t := t + 1;
    }
    err := None;
  }

  /**
    The end of `run_scenario`: the judge provider grades the finished
    conversation, its reply is parsed into the result, and the result's log
    lines take the summary's length and, past 200 characters, a slice of it.
   */
  method JudgeTurn(a: Auditor, name: string, description: string, maxTurns: Option<int>, language: string,
                   call: (nat, Call<Provider>) -> Result<string>, decode: string -> Option<Json>, start: nat,
                   conv: seq<Message>, calls: seq<Call<Provider>>)
    returns (r: Result<AuditResult>, calls': seq<Call<Provider>>)
    requires |conv| == |calls| == 2 * TurnCount(EffectiveTurns(maxTurns, a.maxTurns))
    requires FollowsProtocol(a, description, language, call, start, conv, calls)
    ensures |calls'| == |calls| + 1 && calls'[..|calls|] == calls
    ensures forall k :: 0 <= k < |calls| ==> call(start + k, calls'[k]).Ok?
    ensures r.Ok? ==> ScenarioRecord(a, name, description, maxTurns, language, call, decode, start, r.value, calls')
    ensures r.Ok? ==> r.value.conversation == conv
    ensures r.Err? ==>
      || call(start + |calls|, calls'[|calls|]).Err?
      || VerdictRejected(call(start + |calls|, calls'[|calls|]).value, decode)
    ensures (&& call(start + |calls|, calls'[|calls|]).Ok?
             && ParseJsonResponse(call(start + |calls|, calls'[|calls|]).value, DefaultJudgeSeverity, decode).Ok?
             && ParsedSummaryError(call(start + |calls|, calls'[|calls|]).value, decode).Some?)
            ==> r == Err(ParsedSummaryError(call(start + |calls|, calls'[|calls|]).value, decode).value)
    ensures r.Err? ==> JudgeFailed(a, description, call, decode, start, conv, calls'[|calls|..], r.error)
  {
    ProtocolCallsSucceed(a, description, language, call, start, conv, calls);
    var judgeCall := JudgeCall(a, description, conv);
    var verdict := call(start + |conv|, judgeCall);
    ProtocolMoreCalls(a, description, language, call, start, conv, calls, judgeCall);
    calls' := calls + [judgeCall];
    assert calls'[|calls|] == judgeCall && calls'[|calls|..] == [judgeCall];
    assert call(start + |calls|, calls'[|calls|]) == verdict;
    if verdict.Err? {
      r := Err(verdict.error);
      return;
    }
    r := Grade(name, description, conv, verdict.value, decode);
    if r.Ok? {
      RecordOf(a, name, description, maxTurns, language, call, decode, start, r.value, calls');
    }
  }

  /**
    The grading step of `run_scenario`: the judge's reply is parsed into the
    result, and the result's log lines measure and slice its summary.
   */
  method Grade(name: string, description: string, conv: seq<Message>, reply: string, decode: string -> Option<Json>)
    returns (r: Result<AuditResult>)
    ensures r.Err? <==> VerdictRejected(reply, decode)
    ensures r.Err? ==> VerdictError(Ok(reply), decode) == Some(r.error)
    ensures r.Ok? ==> && VerdictAccepted(reply, decode, JudgmentOf(r.value))
                      && r.value.conversation == conv
                      && r.value.scenarioName == name
                      && r.value.scenarioDescription == description
                      && r.value.expectedBehavior.None?
    ensures ParseJsonResponse(reply, DefaultJudgeSeverity, decode).Err? ==>
              r == Err(ParseJsonResponse(reply, DefaultJudgeSeverity, decode).error)
    ensures ParseJsonResponse(reply, DefaultJudgeSeverity, decode).Ok? && ParsedSummaryError(reply, decode).Some? ==>
              r == Err(ParsedSummaryError(reply, decode).value)
  {
    var parsed := ParseJsonResponse(reply, DefaultJudgeSeverity, decode);
    if parsed.Err? {
      r := Err(parsed.error);
      return;
    }
    var logged := ParsedSummaryError(reply, decode);
    if logged.Some? {
      r := Err(logged.value);
      return;
    }
    var j := parsed.value;
    var result := AuditResult(name, description, conv, j.severity, j.issuesFound, j.positiveBehaviors, j.summary,
                              j.recommendations, None);
    assert JudgmentOf(result) == j;
    r := Ok(result);
  }

  /**
    The record determines the conversation: two conversations of the same
    length built by the same models from the same start agree message by
    message.
   */
  lemma {:induction false} ProtocolDeterminesConversation(
    a: Auditor, description: string, language: string, call: (nat, Call<Provider>) -> Result<string>, start: nat,
    conv1: seq<Message>, calls1: seq<Call<Provider>>, conv2: seq<Message>, calls2: seq<Call<Provider>>, turns: nat)
    requires FollowsProtocol(a, description, language, call, start, conv1, calls1)
    requires FollowsProtocol(a, description, language, call, start, conv2, calls2)
    requires 2 * turns <= |conv1| && 2 * turns <= |conv2|
    ensures conv1[..2 * turns] == conv2[..2 * turns]
  {
    if turns > 0 {
      var t: nat := turns - 1;
      ProtocolDeterminesConversation(a, description, language, call, start, conv1, calls1, conv2, calls2, t);
      assert TurnFollowed(a, description, language, call, start, conv1, calls1, t);
      assert TurnFollowed(a, description, language, call, start, conv2, calls2, t);
      assert conv1[..2 * turns] == conv1[..2 * t] + [conv1[2 * t], conv1[2 * t + 1]];
      assert conv2[..2 * turns] == conv2[..2 * t] + [conv2[2 * t], conv2[2 * t + 1]];
    }
  }

  /** The target is called with the probe the judge wrote in the same turn, and nothing else. */
  lemma TargetSeesOnlyTheProbe(a: Auditor, name: string, description: string, maxTurns: Option<int>, language: string,
                               call: (nat, Call<Provider>) -> Result<string>, decode: string -> Option<Json>,
                               start: nat, result: AuditResult, calls: seq<Call<Provider>>, t: nat)
    requires ScenarioRecord(a, name, description, maxTurns, language, call, decode, start, result, calls)
    requires 2 * t + 1 < |result.conversation|
    ensures calls[2 * t + 1].callee == a.target && UserText(calls[2 * t + 1].user) == result.conversation[2 * t].content
    ensures calls[2 * t].callee == a.judge
  {
    assert TurnFollowed(a, description, language, call, start, result.conversation, calls, t);
  }

  /** The judge call shows the judge every message of the finished conversation. */
  lemma JudgeSeesWholeConversation(a: Auditor, name: string, description: string, maxTurns: Option<int>, language: string,
                                   call: (nat, Call<Provider>) -> Result<string>, decode: string -> Option<Json>,
                                   start: nat, result: AuditResult, calls: seq<Call<Provider>>, i: nat)
    requires ScenarioRecord(a, name, description, maxTurns, language, call, decode, start, result, calls)
    requires i < |result.conversation|
    ensures Contains(UserText(calls[|calls| - 1].user), result.conversation[i].content)
  {
    var judgeCall := calls[|calls| - 1];
    assert judgeCall.user == VerdictPrompt(description, result.conversation);
    assert UserText(judgeCall.user) == JudgeUser(description, result.conversation);
    JudgeShowsEveryMessage(description, result.conversation, i);
  }

  /** The result's severity is a canonical one or the parser's own default. */
  lemma RecordSeverity(a: Auditor, name: string, description: string, maxTurns: Option<int>, language: string,
                       call: (nat, Call<Provider>) -> Result<string>, decode: string -> Option<Json>,
                       start: nat, result: AuditResult, calls: seq<Call<Provider>>)
    requires ScenarioRecord(a, name, description, maxTurns, language, call, decode, start, result, calls)
    ensures result.severity in CanonicalSeverities
  {
  }

  // ---------------------------------------------------------------------------
  // A whole run

  /**
    Scenario `sc`, the `i`-th of a run, made the calls of block `i`, numbered
    on from the 2n + 1 calls of each earlier block, and produced `result`.
   */
  ghost predicate BlockRecord(a: Auditor, sc: Scenario, maxTurns: Option<int>, language: string,
                              call: (nat, Call<Provider>) -> Result<string>, decode: string -> Option<Json>, start: nat,
                              i: nat, result: AuditResult, cs: seq<Call<Provider>>)
  {
    && "name" in sc && "description" in sc
    && ScenarioRecord(a, sc["name"], sc["description"], maxTurns, language, call, decode,
                      BlockStart(start, i, 2 * TurnCount(EffectiveTurns(maxTurns, a.maxTurns)) + 1), result, cs)
  }

  /** Scenario `i` of `list` made the calls of block `i` and produced result `i`. */
  ghost predicate RunRecord(a: Auditor, list: seq<Scenario>, maxTurns: Option<int>, language: string,
                            call: (nat, Call<Provider>) -> Result<string>, decode: string -> Option<Json>, start: nat,
                            results: seq<AuditResult>, calls: seq<seq<Call<Provider>>>)
  {
    && |results| == |list| == |calls|
    && forall i :: 0 <= i < |list| ==>
         BlockRecord(a, list[i], maxTurns, language, call, decode, start, i, results[i], calls[i])
  }

  /** The record of a run, scenario by scenario. */
  lemma RunRecordAt(a: Auditor, list: seq<Scenario>, maxTurns: Option<int>, language: string,
                    call: (nat, Call<Provider>) -> Result<string>, decode: string -> Option<Json>, start: nat,
                    results: seq<AuditResult>, calls: seq<seq<Call<Provider>>>, i: nat)
    requires RunRecord(a, list, maxTurns, language, call, decode, start, results, calls)
    requires i < |list|
    ensures |results| == |list| == |calls|
    ensures "name" in list[i] && "description" in list[i]
    ensures ScenarioRecord(a, list[i]["name"], list[i]["description"], maxTurns, language, call, decode,
                           BlockStart(start, i, 2 * TurnCount(EffectiveTurns(maxTurns, a.maxTurns)) + 1),
                           results[i], calls[i])
  {
    assert BlockRecord(a, list[i], maxTurns, language, call, decode, start, i, results[i], calls[i]);
  }

  /** One more recorded scenario extends the record of the run. */
  lemma RunRecordExtend(a: Auditor, list: seq<Scenario>, maxTurns: Option<int>, language: string,
                        call: (nat, Call<Provider>) -> Result<string>, decode: string -> Option<Json>, start: nat,
                        results: seq<AuditResult>, calls: seq<seq<Call<Provider>>>, result: AuditResult, cs: seq<Call<Provider>>)
    requires |results| < |list|
    requires RunRecord(a, list[..|results|], maxTurns, language, call, decode, start, results, calls)
    requires BlockRecord(a, list[|results|], maxTurns, language, call, decode, start, |results|, result, cs)
    ensures RunRecord(a, list[..|results| + 1], maxTurns, language, call, decode, start, results + [result], calls + [cs])
  {
    var n := |results|;
    var list', results', calls' := list[..n + 1], results + [result], calls + [cs];
    forall i | 0 <= i < |list'|
      ensures BlockRecord(a, list'[i], maxTurns, language, call, decode, start, i, results'[i], calls'[i])
    {
      if i < n {
        assert list'[i] == list[..n][i] && results'[i] == results[i] && calls'[i] == calls[i];
        assert BlockRecord(a, list[..n][i], maxTurns, language, call, decode, start, i, results[i], calls[i]);
      }
    }
  }

  /**
    Scenario `sc`, the `i`-th of a run, failed with `e` after making the calls
    `cs`: it lacks "name" or "description" (KeyError, no calls), or its
    scenario failed in block `i`.
   */
  ghost predicate StepFailed(a: Auditor, sc: Scenario, maxTurns: Option<int>, language: string,
                             call: (nat, Call<Provider>) -> Result<string>, decode: string -> Option<Json>, start: nat,
                             i: nat, cs: seq<Call<Provider>>, e: Error)
  {
    if "name" !in sc then e == KeyError("name") && cs == []
    else if "description" !in sc then e == KeyError("description") && cs == []
    else ScenarioFailed(a, sc["description"], maxTurns, language, call, decode,
                        BlockStart(start, i, 2 * TurnCount(EffectiveTurns(maxTurns, a.maxTurns)) + 1), cs, e)
  }

  /** Every scenario of `list` ran, making the calls `calls`, with some results. */
  ghost predicate Completed(a: Auditor, list: seq<Scenario>, maxTurns: Option<int>, language: string,
                            call: (nat, Call<Provider>) -> Result<string>, decode: string -> Option<Json>, start: nat,
                            calls: seq<seq<Call<Provider>>>)
  {
    exists results :: RunRecord(a, list, maxTurns, language, call, decode, start, results, calls)
  }

  /**
    A run of `list` that failed with `e`: the scenarios before the last block
    of `calls` succeeded with some results, and the scenario of that block
    failed with `e`.
   */
  ghost predicate RunFailed(a: Auditor, list: seq<Scenario>, maxTurns: Option<int>, language: string,
                            call: (nat, Call<Provider>) -> Result<string>, decode: string -> Option<Json>, start: nat,
                            calls: seq<seq<Call<Provider>>>, e: Error)
  {
    && 0 < |calls| <= |list|
    && Completed(a, list[..|calls| - 1], maxTurns, language, call, decode, start, calls[..|calls| - 1])
    && StepFailed(a, list[|calls| - 1], maxTurns, language, call, decode, start, |calls| - 1, calls[|calls| - 1], e)
  }

  /**
    One iteration of `run`'s loop: scenario `i` is read and run, with its
    calls numbered on from the blocks of the `i` scenarios before it.
   */
  method RunStep(a: Auditor, list: seq<Scenario>, maxTurns: Option<int>, language: string,
                 call: (nat, Call<Provider>) -> Result<string>, decode: string -> Option<Json>, start: nat,
                 results: seq<AuditResult>, calls: seq<seq<Call<Provider>>>)
    returns (r: Result<AuditResult>, cs: seq<Call<Provider>>)
    requires |results| < |list|
    requires RunRecord(a, list[..|results|], maxTurns, language, call, decode, start, results, calls)
    ensures r.Ok? ==> RunRecord(a, list[..|results| + 1], maxTurns, language, call, decode, start,
                                results + [r.value], calls + [cs])
    ensures r.Err? ==> StepFailed(a, list[|results|], maxTurns, language, call, decode, start, |results|, cs, r.error)
  {
    var i := |results|;
    var sc := list[i];
    if "name" !in sc {
      r, cs := Err(KeyError("name")), [];
      return;
    }
    if "description" !in sc {
      r, cs := Err(KeyError("description")), [];
      return;
    }
    var m := 2 * TurnCount(EffectiveTurns(maxTurns, a.maxTurns)) + 1;
    r, cs := RunScenario(a, sc["name"], sc["description"], maxTurns, language, call, decode, BlockStart(start, i, m));
    if r.Ok? {
      assert BlockRecord(a, sc, maxTurns, language, call, decode, start, i, r.value, cs);
      RunRecordExtend(a, list, maxTurns, language, call, decode, start, results, calls, r.value, cs);
    }
  }

  /** The loop of `run` over a list of scenarios, in order; the first failure ends the run. */
  method RunList(a: Auditor, list: seq<Scenario>, maxTurns: Option<int>, language: string,
                 call: (nat, Call<Provider>) -> Result<string>, decode: string -> Option<Json>, start: nat)
    returns (r: Result<seq<AuditResult>>, calls: seq<seq<Call<Provider>>>)
    ensures r.Ok? ==> RunRecord(a, list, maxTurns, language, call, decode, start, r.value, calls)
    ensures r.Err? ==> RunFailed(a, list, maxTurns, language, call, decode, start, calls, r.error)
  {
    var results: seq<AuditResult> := [];
    calls := [];
    while |results| < |list|
      invariant |results| <= |list|
      invariant RunRecord(a, list[..|results|], maxTurns, language, call, decode, start, results, calls)
      decreases |list| - |results|
    {
      var res, cs := RunStep(a, list, maxTurns, language, call, decode, start, results, calls);
      if res.Err? {
        var done := calls;
        r, calls := Err(res.error), calls + [cs];
        assert calls[..|calls| - 1] == done && list[..|calls| - 1] == list[..|results|];
        return;
      }
      calls := calls + [cs];
      results := results + [res.value];
    }
    assert list[..|results|] == list;
    r := Ok(results);
  }

  /**
    `run`: the scenarios of a pack or a custom list, run in order and stamped
    with the time `now`.
   */
  method Run(a: Auditor, source: ScenarioSource, catalogue: Catalogue, maxTurns: Option<int>, language: string,
             call: (nat, Call<Provider>) -> Result<string>, decode: string -> Option<Json>, start: nat, now: string)
    returns (r: Result<AuditResults>, calls: seq<seq<Call<Provider>>>)
    ensures ScenarioList(source, catalogue).Err? ==> r == Err(ScenarioList(source, catalogue).error) && calls == []
    ensures r.Ok? ==> ScenarioList(source, catalogue).Ok? && r.value.timestamp == now
    ensures r.Ok? ==> RunRecord(a, ScenarioList(source, catalogue).value, maxTurns, language, call, decode, start,
                                r.value.results, calls)
    ensures r.Err? && ScenarioList(source, catalogue).Ok? ==>
      RunFailed(a, ScenarioList(source, catalogue).value, maxTurns, language, call, decode, start, calls, r.error)
  {
    var listR := ScenarioList(source, catalogue);
    if listR.Err? {
      r, calls := Err(listR.error), [];
      return;
    }
    var results;
    results, calls := RunList(a, listR.value, maxTurns, language, call, decode, start);
    if results.Err? {
      r := Err(results.error);
      return;
    }
    r := Ok(NewAuditResults(results.value, now));
  }
}
