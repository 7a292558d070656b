/**
  What the direct-API auditor of simpleaudit/model_auditor.py makes of the
  judge's verdict: the reply is parsed by `parse_json_response`, and the
  result's log lines then measure and slice the parsed summary. Either step
  can end the scenario with an exception, as can the verdict call itself.
 */
module ModelVerdict {
  import opened Common
  import opened JsonData
  import opened JudgeParser

  /** `parse_json_response` is called with its own default severity. */
  const DefaultJudgeSeverity := "ERROR"

  /** The verdict call answered, and its reply was accepted as `j`. */
  predicate Judged(verdict: Result<string>, decode: string -> Option<Json>, j: Judgment) {
    verdict.Ok? && VerdictAccepted(verdict.value, decode, j)
  }

  /** The judge's reply parses to `j`, and the result's log line can print its summary. */
  predicate VerdictAccepted(reply: string, decode: string -> Option<Json>, j: Judgment) {
    && ParseJsonResponse(reply, DefaultJudgeSeverity, decode) == Ok(j)
    && ParsedSummaryError(reply, decode).None?
  }

  /** The judge's reply does not parse, or the result's log line cannot print its summary. */
  predicate VerdictRejected(reply: string, decode: string -> Option<Json>) {
    || ParseJsonResponse(reply, DefaultJudgeSeverity, decode).Err?
    || ParsedSummaryError(reply, decode).Some?
  }

  /** The exception the verdict call ends the scenario with: its own, the parser's, or the log line's. */
  function VerdictError(verdict: Result<string>, decode: string -> Option<Json>): (r: Option<Error>)
    ensures verdict.Err? ==> r == Some(verdict.error)
    ensures verdict.Ok? ==> (r.Some? <==> VerdictRejected(verdict.value, decode))
    ensures verdict.Ok? && ParseJsonResponse(verdict.value, DefaultJudgeSeverity, decode).Err? ==>
      r == Some(ParseJsonResponse(verdict.value, DefaultJudgeSeverity, decode).error)
    ensures verdict.Ok? && ParseJsonResponse(verdict.value, DefaultJudgeSeverity, decode).Ok? ==>
      r == ParsedSummaryError(verdict.value, decode)
  {
    if verdict.Err? then Some(verdict.error)
    else match ParseJsonResponse(verdict.value, DefaultJudgeSeverity, decode)
      case Err(e) => Some(e)
      case Ok(_) => ParsedSummaryError(verdict.value, decode)
  }

  /** An accepted reply raises nothing. */
  lemma AcceptedVerdict(verdict: Result<string>, decode: string -> Option<Json>, j: Judgment)
    requires Judged(verdict, decode, j)
    ensures VerdictError(verdict, decode).None?
  {
    assert !VerdictRejected(verdict.value, decode);
  }
}
