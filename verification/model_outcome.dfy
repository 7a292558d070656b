/**
  The outcome of the direct-API auditor's runs is determined by the models'
  answers: a run that has a record of success has no record of failure, for
  one scenario and for a whole list.
 */
module ModelOutcome {
  import opened Common
  import opened JsonData
  import opened Chat
  import opened Results
  import opened Scenarios
  import opened Providers
  import opened Prompts
  import opened ModelVerdict
  import opened ModelAuditor

  /**
    The outcome of a scenario is determined by the calls' answers: once a
    scenario has a record of success, no sequence of calls records a failure.
   */
  lemma RecordExcludesFailure(a: Auditor, name: string, description: string, maxTurns: Option<int>, language: string,
                              call: (nat, Call<Provider>) -> Result<string>, decode: string -> Option<Json>,
                              start: nat, result: AuditResult, calls: seq<Call<Provider>>,
                              failed: seq<Call<Provider>>, e: Error)
    requires ScenarioRecord(a, name, description, maxTurns, language, call, decode, start, result, calls)
    ensures !ScenarioFailed(a, description, maxTurns, language, call, decode, start, failed, e)
  {
    var n := TurnCount(EffectiveTurns(maxTurns, a.maxTurns));
    forall conv | true
      ensures !FailedAfter(a, description, n, language, call, decode, start, conv, failed, e)
    {
      NotFailedAfter(a, name, description, maxTurns, language, call, decode, start, result, calls, conv, failed, e);
    }
  }

  /** The same, for one conversation the failure might have broken off after. */
  lemma NotFailedAfter(a: Auditor, name: string, description: string, maxTurns: Option<int>, language: string,
                       call: (nat, Call<Provider>) -> Result<string>, decode: string -> Option<Json>,
                       start: nat, result: AuditResult, calls: seq<Call<Provider>>,
                       conv: seq<Message>, failed: seq<Call<Provider>>, e: Error)
    requires ScenarioRecord(a, name, description, maxTurns, language, call, decode, start, result, calls)
    ensures !FailedAfter(a, description, TurnCount(EffectiveTurns(maxTurns, a.maxTurns)), language, call, decode,
                         start, conv, failed, e)
  {
    RecordVerdict(a, name, description, maxTurns, language, call, decode, start, result, calls);
    if |conv| < |result.conversation| {
      NotFailedMidway(a, description, TurnCount(EffectiveTurns(maxTurns, a.maxTurns)), language, call, decode, start,
                      result.conversation, calls, conv, failed, e);
    } else {
      NotFailedAtVerdict(a, description, TurnCount(EffectiveTurns(maxTurns, a.maxTurns)), language, call, decode, start,
                         result.conversation, calls, conv, failed, e);
    }
  }

  /** A record's turns followed the protocol, and its verdict raised nothing. */
  lemma RecordVerdict(a: Auditor, name: string, description: string, maxTurns: Option<int>, language: string,
                      call: (nat, Call<Provider>) -> Result<string>, decode: string -> Option<Json>,
                      start: nat, result: AuditResult, calls: seq<Call<Provider>>)
    requires ScenarioRecord(a, name, description, maxTurns, language, call, decode, start, result, calls)
    ensures var n := TurnCount(EffectiveTurns(maxTurns, a.maxTurns));
      && FollowsProtocol(a, description, language, call, start, result.conversation, calls)
      && |result.conversation| == 2 * n
      && VerdictError(call(start + 2 * n, JudgeCall(a, description, result.conversation)), decode).None?
  {
    AcceptedVerdict(call(start + 2 * TurnCount(EffectiveTurns(maxTurns, a.maxTurns)),
                         calls[2 * TurnCount(EffectiveTurns(maxTurns, a.maxTurns))]),
                    decode, JudgmentOf(result));
  }

  /** A scenario whose turns all succeeded did not break off after any of them. */
  lemma NotFailedMidway(a: Auditor, description: string, n: nat, language: string,
                        call: (nat, Call<Provider>) -> Result<string>, decode: string -> Option<Json>, start: nat,
                        whole: seq<Message>, calls: seq<Call<Provider>>, conv: seq<Message>,
                        failed: seq<Call<Provider>>, e: Error)
    requires FollowsProtocol(a, description, language, call, start, whole, calls) && |whole| == 2 * n
    requires |conv| < 2 * n
    ensures !FailedAfter(a, description, n, language, call, decode, start, conv, failed, e)
  {
    if FailedAfter(a, description, n, language, call, decode, start, conv, failed, e) {
      var done, tail := failed[..|conv|], failed[|conv|..];
      assert FollowsProtocol(a, description, language, call, start, conv, done);
      var t := |conv| / 2;
      assert 2 * t == |conv|;
      ProtocolDeterminesConversation(a, description, language, call, start, whole, calls, conv, done, t);
      assert whole[..|conv|] == conv;
      NoTurnFailure(a, description, language, call, start, whole, calls, conv, tail, e);
      assert false;
    }
  }

  /** A scenario whose verdict was accepted did not fail at the verdict. */
  lemma NotFailedAtVerdict(a: Auditor, description: string, n: nat, language: string,
                           call: (nat, Call<Provider>) -> Result<string>, decode: string -> Option<Json>, start: nat,
                           whole: seq<Message>, calls: seq<Call<Provider>>, conv: seq<Message>,
                           failed: seq<Call<Provider>>, e: Error)
    requires FollowsProtocol(a, description, language, call, start, whole, calls) && |whole| == 2 * n
    requires VerdictError(call(start + 2 * n, JudgeCall(a, description, whole)), decode).None?
    requires |conv| >= 2 * n
    ensures !FailedAfter(a, description, n, language, call, decode, start, conv, failed, e)
  {
    if FailedAfter(a, description, n, language, call, decode, start, conv, failed, e) {
      JudgeFailedOn(a, description, call, decode, start, conv, failed[|conv|..], e);
      SameConversation(a, description, language, call, start, whole, calls, conv, failed[..|conv|]);
      assert false;
    }
  }

  /** A failed verdict is the verdict on the conversation it was asked about. */
  lemma JudgeFailedOn(a: Auditor, description: string, call: (nat, Call<Provider>) -> Result<string>,
                      decode: string -> Option<Json>, start: nat, conv: seq<Message>, tail: seq<Call<Provider>>, e: Error)
    requires JudgeFailed(a, description, call, decode, start, conv, tail, e)
    ensures VerdictError(call(start + |conv|, JudgeCall(a, description, conv)), decode) == Some(e)
  {
  }

  /** Two followed protocols of the same length built the same conversation. */
  lemma SameConversation(a: Auditor, description: string, language: string,
                         call: (nat, Call<Provider>) -> Result<string>, start: nat,
                         conv1: seq<Message>, calls1: seq<Call<Provider>>, conv2: seq<Message>, calls2: seq<Call<Provider>>)
    requires FollowsProtocol(a, description, language, call, start, conv1, calls1)
    requires FollowsProtocol(a, description, language, call, start, conv2, calls2)
    requires |conv1| == |conv2|
    ensures conv1 == conv2
  {
    var t := |conv1| / 2;
    assert 2 * t == |conv1|;
    ProtocolDeterminesConversation(a, description, language, call, start, conv1, calls1, conv2, calls2, t);
    assert conv1[..2 * t] == conv1 && conv2[..2 * t] == conv2;
  }

  /** A turn that the record shows succeeding did not break off. */
  lemma NoTurnFailure(a: Auditor, description: string, language: string, call: (nat, Call<Provider>) -> Result<string>,
                      start: nat, whole: seq<Message>, calls: seq<Call<Provider>>, conv: seq<Message>,
                      tail: seq<Call<Provider>>, e: Error)
    requires FollowsProtocol(a, description, language, call, start, whole, calls)
    requires |conv| % 2 == 0 && |conv| < |whole| && whole[..|conv|] == conv
    ensures !TurnFailed(a, description, language, call, start, conv, tail, e)
  {
    var t := |conv| / 2;
    assert TurnFollowed(a, description, language, call, start, whole, calls, t);
  }

  /** A run of a list has one outcome: a record of its success rules out every record of failure. */
  lemma RunOutcomeExclusive(a: Auditor, list: seq<Scenario>, maxTurns: Option<int>, language: string,
                            call: (nat, Call<Provider>) -> Result<string>, decode: string -> Option<Json>, start: nat,
                            results: seq<AuditResult>, calls: seq<seq<Call<Provider>>>,
                            failed: seq<seq<Call<Provider>>>, e: Error)
    requires RunRecord(a, list, maxTurns, language, call, decode, start, results, calls)
    ensures !RunFailed(a, list, maxTurns, language, call, decode, start, failed, e)
  {
    if RunFailed(a, list, maxTurns, language, call, decode, start, failed, e) {
      var k := |failed| - 1;
      RunRecordAt(a, list, maxTurns, language, call, decode, start, results, calls, k);
      RecordExcludesFailure(a, list[k]["name"], list[k]["description"], maxTurns, language, call, decode,
                            BlockStart(start, k, 2 * TurnCount(EffectiveTurns(maxTurns, a.maxTurns)) + 1),
                            results[k], calls[k], failed[k], e);
      assert false;
    }
  }
}
