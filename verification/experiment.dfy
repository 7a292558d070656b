/**
  The multi-model experiment of simpleaudit/experiment.py: a list of model
  configurations (Python dicts, here maps from keyword to value) sharing
  experiment-wide judge settings, each turned into a `ModelAuditor` and run on
  the same scenarios, the results collected under the model's name.
 */
module Experiment {
  import opened Common
  import opened JsonData
  import opened Scenarios
  import opened Results
  import opened Providers
  import opened Prompts
  import ModelAuditor
  import ModelOutcome

  /** A value a configuration dict may hold. */
  datatype Value = Text(s: string) | Number(n: int) | Flag(b: bool) | NoneValue

  /** One entry of `models`: keyword arguments for `ModelAuditor`. */
  type ModelInfo = map<string, Value>

  datatype Experiment = Experiment(
    models: seq<ModelInfo>,
    judgeModel: Option<string>,
    judgeBaseUrl: Option<string>,
    judgeApiKey: Option<string>,
    judgeProvider: Option<string>)

  const ModelsMessage := "Models must be dicts with a 'model' key."

  // ---------------------------------------------------------------------------
  // Construction

  /** Every configuration names its model. */
  predicate AllNamed(models: seq<ModelInfo>)
    ensures AllNamed(models) <==> forall i :: 0 <= i < |models| ==> "model" in models[i]
  {
    models == [] || ("model" in models[0] && AllNamed(models[1..]))
  }

  /**
    `AuditExperiment(models, judge_model=..., ...)`: an empty list, or any
    configuration without a "model" key, is rejected; otherwise everything is
    kept as given.
   */
  function NewExperiment(models: seq<ModelInfo>, judgeModel: Option<string>, judgeBaseUrl: Option<string>,
                         judgeApiKey: Option<string>, judgeProvider: Option<string>): (r: Result<Experiment>)
    ensures r.Err? <==> models == [] || exists i :: 0 <= i < |models| && "model" !in models[i]
    ensures r.Err? ==> r.error == ValueError(ModelsMessage)
    ensures r.Ok? ==> r.value == Experiment(models, judgeModel, judgeBaseUrl, judgeApiKey, judgeProvider)
  {
    if models == [] || !AllNamed(models) then Err(ValueError(ModelsMessage))
    else Ok(Experiment(models, judgeModel, judgeBaseUrl, judgeApiKey, judgeProvider))
  }

  /** What the constructor guarantees of every experiment it returns. */
  predicate Valid(e: Experiment) {
    e.models != [] && forall i :: 0 <= i < |e.models| ==> "model" in e.models[i]
  }

  lemma NewExperimentValid(models: seq<ModelInfo>, judgeModel: Option<string>, judgeBaseUrl: Option<string>,
                           judgeApiKey: Option<string>, judgeProvider: Option<string>)
    ensures var r := NewExperiment(models, judgeModel, judgeBaseUrl, judgeApiKey, judgeProvider);
      r.Ok? <==> Valid(Experiment(models, judgeModel, judgeBaseUrl, judgeApiKey, judgeProvider))
  {
  }

  // ---------------------------------------------------------------------------
  // Sharing the judge settings

  /** The four keywords an experiment may supply defaults for. */
  const JudgeKeys: set<string> := {"judge_model", "judge_base_url", "judge_api_key", "judge_provider"}

  /** The experiment-wide value for keyword `k`, if it supplies one. */
  function Default(e: Experiment, k: string): Option<string> {
    if k == "judge_model" then e.judgeModel
    else if k == "judge_base_url" then e.judgeBaseUrl
    else if k == "judge_api_key" then e.judgeApiKey
    else if k == "judge_provider" then e.judgeProvider
    else None
  }

  /** `merged.get(k) is None`: the keyword is missing or holds `None`. */
  predicate Unset(info: ModelInfo, k: string) {
    k !in info || info[k] == NoneValue
  }

  /** Whether the merge fills keyword `k` of `info`. */
  predicate Filled(e: Experiment, info: ModelInfo, k: string) {
    k in JudgeKeys && Unset(info, k) && Default(e, k).Some?
  }

  /**
    `_merge_common(model_info)`: a copy of the configuration in which each
    judge keyword that is missing or `None` takes the experiment's value, when
    the experiment has one. Values the configuration sets are never overridden
    and no other keyword is touched.
   */
  function MergeCommon(e: Experiment, info: ModelInfo): (merged: ModelInfo)
    ensures forall k :: k in merged <==> k in info || Filled(e, info, k)
    ensures forall k :: Filled(e, info, k) ==> merged[k] == Text(Default(e, k).value)
    ensures forall k :: k in info && !Filled(e, info, k) ==> merged[k] == info[k]
  {
    map k | k in info.Keys + JudgeKeys && (k in info || Filled(e, info, k)) ::
      if Filled(e, info, k) then Text(Default(e, k).value) else info[k]
  }

  /** One `if` of `_merge_common`: an unset keyword takes the experiment's value when there is one. */
  function Fill(info: ModelInfo, k: string, default: Option<string>): (m: ModelInfo)
    ensures Unset(info, k) && default.Some? ==> m == info[k := Text(default.value)]
    ensures !(Unset(info, k) && default.Some?) ==> m == info
  {
    if Unset(info, k) && default.Some? then info[k := Text(default.value)] else info
  }

  /** The four `if`s of `_merge_common`, in the order they run. */
  function MergeSteps(e: Experiment, info: ModelInfo): ModelInfo {
    var m := Fill(info, "judge_model", e.judgeModel);
    var m := Fill(m, "judge_base_url", e.judgeBaseUrl);
    var m := Fill(m, "judge_api_key", e.judgeApiKey);
    Fill(m, "judge_provider", e.judgeProvider)
  }

  /** The four keywords are distinct, so the steps do not interfere. */
  lemma JudgeKeysDistinct()
    ensures "judge_model" != "judge_base_url" && "judge_model" != "judge_api_key" && "judge_model" != "judge_provider"
    ensures "judge_base_url" != "judge_api_key" && "judge_base_url" != "judge_provider"
    ensures "judge_api_key" != "judge_provider"
  {
    assert "judge_base_url"[6] != "judge_provider"[6];
  }

  /** A step leaves every other keyword as it was. */
  lemma FillElsewhere(info: ModelInfo, k: string, default: Option<string>, x: string)
    requires x != k
    ensures x in Fill(info, k, default) <==> x in info
    ensures x in info ==> Fill(info, k, default)[x] == info[x]
  {
  }

  /** The step for `k` does to `k` what the merge does. */
  lemma FillHere(e: Experiment, info: ModelInfo, k: string)
    requires k in JudgeKeys
    ensures var m := Fill(info, k, Default(e, k));
      (k in m <==> k in MergeCommon(e, info)) && (k in m ==> m[k] == MergeCommon(e, info)[k])
  {
  }

  /** Running the four steps one after the other gives the merge. */
  lemma MergeStepsAgree(e: Experiment, info: ModelInfo)
    ensures MergeSteps(e, info) == MergeCommon(e, info)
  {
    JudgeKeysDistinct();
    var m1 := Fill(info, "judge_model", e.judgeModel);
    var m2 := Fill(m1, "judge_base_url", e.judgeBaseUrl);
    var m3 := Fill(m2, "judge_api_key", e.judgeApiKey);
    var m4 := Fill(m3, "judge_provider", e.judgeProvider);
    var merged := MergeCommon(e, info);
    forall k ensures (k in m4 <==> k in merged) && (k in m4 ==> m4[k] == merged[k]) {
      if k == "judge_model" {
        FillHere(e, info, k);
        FillElsewhere(m1, "judge_base_url", e.judgeBaseUrl, k);
        FillElsewhere(m2, "judge_api_key", e.judgeApiKey, k);
        FillElsewhere(m3, "judge_provider", e.judgeProvider, k);
      } else if k == "judge_base_url" {
        FillElsewhere(info, "judge_model", e.judgeModel, k);
        FillHere(e, info, k);
        FillHere(e, m1, k);
        FillElsewhere(m2, "judge_api_key", e.judgeApiKey, k);
        FillElsewhere(m3, "judge_provider", e.judgeProvider, k);
      } else if k == "judge_api_key" {
        FillElsewhere(info, "judge_model", e.judgeModel, k);
        FillElsewhere(m1, "judge_base_url", e.judgeBaseUrl, k);
        FillHere(e, info, k);
        FillHere(e, m2, k);
        FillElsewhere(m3, "judge_provider", e.judgeProvider, k);
      } else if k == "judge_provider" {
        FillElsewhere(info, "judge_model", e.judgeModel, k);
        FillElsewhere(m1, "judge_base_url", e.judgeBaseUrl, k);
        FillElsewhere(m2, "judge_api_key", e.judgeApiKey, k);
        FillHere(e, info, k);
        FillHere(e, m3, k);
      } else {
        FillElsewhere(info, "judge_model", e.judgeModel, k);
        FillElsewhere(m1, "judge_base_url", e.judgeBaseUrl, k);
        FillElsewhere(m2, "judge_api_key", e.judgeApiKey, k);
        FillElsewhere(m3, "judge_provider", e.judgeProvider, k);
        assert !Filled(e, info, k);
      }
    }
    assert m4.Keys == merged.Keys;
  }

  /** A judge keyword the configuration sets to a value keeps that value. */
  lemma MergeKeepsExplicitSettings(e: Experiment, info: ModelInfo, k: string)
    requires k in info && info[k] != NoneValue
    ensures MergeCommon(e, info)[k] == info[k]
  {
  }

  /** Merging a second time changes nothing. */
  lemma MergeIdempotent(e: Experiment, info: ModelInfo)
    ensures MergeCommon(e, MergeCommon(e, info)) == MergeCommon(e, info)
  {
    var once := MergeCommon(e, info);
    var twice := MergeCommon(e, once);
    forall k ensures !Filled(e, once, k) {
      if Filled(e, once, k) {
        assert Filled(e, info, k);
      }
    }
    assert twice.Keys == once.Keys;
  }

  // ---------------------------------------------------------------------------
  // Building the auditor

  /** The keyword parameters of `ModelAuditor.__init__`. */
  const AuditorKeywords: set<string> := {
    "provider", "api_key", "model", "system_prompt", "judge_provider", "judge_api_key",
    "judge_model", "judge_base_url", "max_turns", "verbose", "prompt_for_key"}

  const UnexpectedKeyword := "__init__() got an unexpected keyword argument"

  /** An optional string parameter: missing or `None` is `None`. */
  function TextArg(info: ModelInfo, k: string): (r: Result<Option<string>>)
    ensures Unset(info, k) ==> r == Ok(None)
    ensures k in info && info[k].Text? ==> r == Ok(Some(info[k].s))
  {
    if Unset(info, k) then Ok(None)
    else if info[k].Text? then Ok(Some(info[k].s))
    else Err(TypeError(k))
  }

  /** `provider` defaults to "anthropic"; `get_provider` lower-cases it, which only a string allows. */
  function ProviderArg(info: ModelInfo): (r: Result<string>)
    ensures "provider" !in info ==> r == Ok("anthropic")
    ensures "provider" in info && info["provider"].Text? ==> r == Ok(info["provider"].s)
    ensures "provider" in info && !info["provider"].Text? ==> r == Err(AttributeError("lower"))
  {
    if "provider" !in info then Ok("anthropic")
    else if info["provider"].Text? then Ok(info["provider"].s)
    else Err(AttributeError("lower"))
  }

  /** `max_turns` defaults to 5. */
  function TurnsArg(info: ModelInfo): (r: Result<int>)
    ensures "max_turns" !in info ==> r == Ok(5)
    ensures "max_turns" in info && info["max_turns"].Number? ==> r == Ok(info["max_turns"].n)
  {
    if "max_turns" !in info then Ok(5)
    else if info["max_turns"].Number? then Ok(info["max_turns"].n)
    else Err(TypeError("max_turns"))
  }

  /** Python truthiness, as `elif prompt_for_key:` reads the flag. */
  predicate IsTruthy(v: Value) {
    match v
    case Text(s) => s != ""
    case Number(n) => n != 0
    case Flag(b) => b
    case NoneValue => false
  }

  /** `prompt_for_key` defaults to true. */
  function PromptArg(info: ModelInfo): (b: bool)
    ensures "prompt_for_key" !in info ==> b
    ensures "prompt_for_key" in info && info["prompt_for_key"].Flag? ==> b == info["prompt_for_key"].b
  {
    "prompt_for_key" !in info || IsTruthy(info["prompt_for_key"])
  }

  /**
    `ModelAuditor(**merged)`: a keyword the constructor does not take is a
    `TypeError`; otherwise the keywords become the constructor's arguments,
    missing ones taking its defaults.
   */
  function AuditorFor(e: Experiment, info: ModelInfo, host: Host, judgeInput: string): (r: Result<ModelAuditor.Auditor>)
    ensures var merged := MergeCommon(e, info);
      !(merged.Keys <= AuditorKeywords) ==> r == Err(TypeError(UnexpectedKeyword))
    ensures r.Ok? ==> var merged := MergeCommon(e, info);
      && ProviderArg(merged).Ok? && TurnsArg(merged).Ok?
      && TextArg(merged, "api_key").Ok? && TextArg(merged, "model").Ok? && TextArg(merged, "system_prompt").Ok?
      && TextArg(merged, "judge_provider").Ok? && TextArg(merged, "judge_api_key").Ok?
      && TextArg(merged, "judge_model").Ok? && TextArg(merged, "judge_base_url").Ok?
      && r == ModelAuditor.NewAuditor(ProviderArg(merged).value, TextArg(merged, "api_key").value,
           TextArg(merged, "model").value, TextArg(merged, "system_prompt").value,
           TextArg(merged, "judge_provider").value, TextArg(merged, "judge_api_key").value,
           TextArg(merged, "judge_model").value, TextArg(merged, "judge_base_url").value,
           TurnsArg(merged).value, PromptArg(merged), host, judgeInput)
  {
    var merged := MergeCommon(e, info);
    if !(merged.Keys <= AuditorKeywords) then Err(TypeError(UnexpectedKeyword))
    else
      var provider :- ProviderArg(merged);
      var apiKey :- TextArg(merged, "api_key");
      var model :- TextArg(merged, "model");
      var systemPrompt :- TextArg(merged, "system_prompt");
      var judgeProvider :- TextArg(merged, "judge_provider");
      var judgeApiKey :- TextArg(merged, "judge_api_key");
      var judgeModel :- TextArg(merged, "judge_model");
      var judgeBaseUrl :- TextArg(merged, "judge_base_url");
      var maxTurns :- TurnsArg(merged);
      ModelAuditor.NewAuditor(provider, apiKey, model, systemPrompt, judgeProvider, judgeApiKey, judgeModel,
                              judgeBaseUrl, maxTurns, PromptArg(merged), host, judgeInput)
  }

  /**
    With an experiment-wide judge provider and a configuration that names
    none, the auditor's judge is built separately from its target.
   */
  lemma SharedJudgeProviderApplies(e: Experiment, info: ModelInfo, host: Host, judgeInput: string)
    requires e.judgeProvider.Some? && Unset(info, "judge_provider")
    requires AuditorFor(e, info, host, judgeInput).Ok?
    ensures !AuditorFor(e, info, host, judgeInput).value.judgeIsTarget
  {
    var merged := MergeCommon(e, info);
    assert Filled(e, info, "judge_provider");
    assert TextArg(merged, "judge_provider") == Ok(e.judgeProvider);
  }

  // ---------------------------------------------------------------------------
  // Results by model

  /** The model names, in list order. */
  function ModelNames(models: seq<ModelInfo>): (names: seq<Value>)
    requires forall i :: 0 <= i < |models| ==> "model" in models[i]
    ensures |names| == |models|
    ensures forall i :: 0 <= i < |models| ==> names[i] == models[i]["model"]
  {
    seq(|models|, i requires 0 <= i < |models| => models[i]["model"])
  }

  /** `results_by_model[name] = results` for each pair in order. */
  function Keyed(names: seq<Value>, runs: seq<AuditResults>): map<Value, AuditResults>
    requires |names| == |runs|
  {
    if names == [] then map[]
    else Keyed(names[..|names| - 1], runs[..|runs| - 1])[names[|names| - 1] := runs[|runs| - 1]]
  }

  /** Exactly the model names are keys. */
  lemma {:induction false} KeyedKeys(names: seq<Value>, runs: seq<AuditResults>)
    requires |names| == |runs|
    ensures forall v :: v in Keyed(names, runs) <==> v in names
  {
    if names != [] {
      var init := names[..|names| - 1];
      KeyedKeys(init, runs[..|runs| - 1]);
      assert names == init + [names[|names| - 1]];
      forall v ensures v in names <==> v in init || v == names[|names| - 1] {
        if v in names {
          var i :| 0 <= i < |names| && names[i] == v;
          if i < |names| - 1 {
            assert init[i] == v;
          }
        }
      }
    }
  }

  /** A name listed more than once keeps the results of its last run. */
  lemma {:induction false} KeyedLastWins(names: seq<Value>, runs: seq<AuditResults>, i: nat)
    requires |names| == |runs|
    requires i < |names|
    requires forall j :: i < j < |names| ==> names[j] != names[i]
    ensures names[i] in Keyed(names, runs) && Keyed(names, runs)[names[i]] == runs[i]
  {
    if i < |names| - 1 {
      var init := names[..|names| - 1];
      KeyedLastWins(init, runs[..|runs| - 1], i);
    }
  }

  /** The call oracle of model `m`: the calls of its run are numbered from 0. */
  function CallsOf(call: (nat, nat, Call<Provider>) -> Result<string>, m: nat): (nat, Call<Provider>) -> Result<string> {
    (k: nat, c: Call<Provider>) => call(m, k, c)
  }

  /**
    Model `m` of the experiment ran: its auditor was built from the merged
    configuration, and it audited the scenarios exactly as `ModelAuditor.run`
    does, stamped with `clock(m)`.
   */
  ghost predicate ModelRun(e: Experiment, m: nat, source: ScenarioSource, catalogue: Catalogue, maxTurns: Option<int>,
                           language: string, host: Host, judgeInput: string,
                           call: (nat, nat, Call<Provider>) -> Result<string>, decode: string -> Option<Json>,
                           clock: nat -> string, res: AuditResults, cs: seq<seq<Call<Provider>>>)
  {
    && m < |e.models|
    && AuditorFor(e, e.models[m], host, judgeInput).Ok?
    && ScenarioList(source, catalogue).Ok?
    && res.timestamp == clock(m)
    && ModelAuditor.RunRecord(AuditorFor(e, e.models[m], host, judgeInput).value, ScenarioList(source, catalogue).value,
                              maxTurns, language, CallsOf(call, m), decode, 0, res.results, cs)
  }

  /**
    Model `m` of the experiment failed with `err` after the calls `cs`: its
    auditor could not be built, or the scenarios could not be resolved, or
    the run of the scenarios failed as `ModelAuditor.run` does.
   */
  ghost predicate ModelFailed(e: Experiment, m: nat, source: ScenarioSource, catalogue: Catalogue, maxTurns: Option<int>,
                              language: string, host: Host, judgeInput: string,
                              call: (nat, nat, Call<Provider>) -> Result<string>, decode: string -> Option<Json>,
                              cs: seq<seq<Call<Provider>>>, err: Error)
  {
    && m < |e.models|
    && match AuditorFor(e, e.models[m], host, judgeInput)
       case Err(x) => err == x && cs == []
       case Ok(a) =>
         match ScenarioList(source, catalogue)
         case Err(x) => err == x && cs == []
         case Ok(list) => ModelAuditor.RunFailed(a, list, maxTurns, language, CallsOf(call, m), decode, 0, cs, err)
  }

  /** Model `m` failed with `err`, after whatever calls it made. */
  ghost predicate ModelBroke(e: Experiment, m: nat, source: ScenarioSource, catalogue: Catalogue, maxTurns: Option<int>,
                             language: string, host: Host, judgeInput: string,
                             call: (nat, nat, Call<Provider>) -> Result<string>, decode: string -> Option<Json>, err: Error)
  {
    exists cs :: ModelFailed(e, m, source, catalogue, maxTurns, language, host, judgeInput, call, decode, cs, err)
  }

  /** A model's run has one outcome: a record of its success rules out every record of failure. */
  lemma ModelOutcomeExclusive(e: Experiment, m: nat, source: ScenarioSource, catalogue: Catalogue, maxTurns: Option<int>,
                              language: string, host: Host, judgeInput: string,
                              call: (nat, nat, Call<Provider>) -> Result<string>, decode: string -> Option<Json>,
                              clock: nat -> string, res: AuditResults, cs: seq<seq<Call<Provider>>>,
                              failed: seq<seq<Call<Provider>>>, err: Error)
    requires ModelRun(e, m, source, catalogue, maxTurns, language, host, judgeInput, call, decode, clock, res, cs)
    ensures !ModelFailed(e, m, source, catalogue, maxTurns, language, host, judgeInput, call, decode, failed, err)
  {
    ModelOutcome.RunOutcomeExclusive(AuditorFor(e, e.models[m], host, judgeInput).value,
                                     ScenarioList(source, catalogue).value, maxTurns, language, CallsOf(call, m),
                                     decode, 0, res.results, cs, failed, err);
  }

  /** The first `|runs|` models ran, in order. */
  ghost predicate ModelsRan(e: Experiment, source: ScenarioSource, catalogue: Catalogue, maxTurns: Option<int>,
                            language: string, host: Host, judgeInput: string,
                            call: (nat, nat, Call<Provider>) -> Result<string>, decode: string -> Option<Json>,
                            clock: nat -> string, runs: seq<AuditResults>, calls: seq<seq<seq<Call<Provider>>>>)
  {
    && |runs| == |calls| <= |e.models|
    && forall m :: 0 <= m < |runs| ==>
      ModelRun(e, m, source, catalogue, maxTurns, language, host, judgeInput, call, decode, clock, runs[m], calls[m])
  }

  lemma ModelsRanExtend(e: Experiment, source: ScenarioSource, catalogue: Catalogue, maxTurns: Option<int>,
                        language: string, host: Host, judgeInput: string,
                        call: (nat, nat, Call<Provider>) -> Result<string>, decode: string -> Option<Json>,
                        clock: nat -> string, runs: seq<AuditResults>, calls: seq<seq<seq<Call<Provider>>>>,
                        res: AuditResults, cs: seq<seq<Call<Provider>>>)
    requires ModelsRan(e, source, catalogue, maxTurns, language, host, judgeInput, call, decode, clock, runs, calls)
    requires ModelRun(e, |runs|, source, catalogue, maxTurns, language, host, judgeInput, call, decode, clock, res, cs)
    ensures ModelsRan(e, source, catalogue, maxTurns, language, host, judgeInput, call, decode, clock,
                      runs + [res], calls + [cs])
  {
    var runs', calls' := runs + [res], calls + [cs];
    forall m | 0 <= m < |runs'|
      ensures ModelRun(e, m, source, catalogue, maxTurns, language, host, judgeInput, call, decode, clock, runs'[m], calls'[m])
    {
      if m < |runs| {
        assert runs'[m] == runs[m] && calls'[m] == calls[m];
      }
    }
  }

  /** Adding one more pair to the prefix updates the key of its name. */
  lemma KeyedSnoc(names: seq<Value>, runs: seq<AuditResults>, res: AuditResults)
    requires |runs| < |names|
    ensures Keyed(names[..|runs| + 1], runs + [res]) == Keyed(names[..|runs|], runs)[names[|runs|] := res]
  {
    assert names[..|runs| + 1][..|runs|] == names[..|runs|] && (runs + [res])[..|runs|] == runs;
  }

  /** One pass of the loop: build model `m`'s auditor and run the scenarios with it. */
  method ModelStep(e: Experiment, m: nat, source: ScenarioSource, catalogue: Catalogue, maxTurns: Option<int>,
                   language: string, host: Host, judgeInput: string, call: (nat, nat, Call<Provider>) -> Result<string>,
                   decode: string -> Option<Json>, clock: nat -> string)
    returns (r: Result<AuditResults>, cs: seq<seq<Call<Provider>>>)
    requires m < |e.models|
    ensures r.Ok? ==> ModelRun(e, m, source, catalogue, maxTurns, language, host, judgeInput, call, decode, clock, r.value, cs)
    ensures AuditorFor(e, e.models[m], host, judgeInput).Err? ==> r == Err(AuditorFor(e, e.models[m], host, judgeInput).error)
    ensures r.Err? ==> ModelFailed(e, m, source, catalogue, maxTurns, language, host, judgeInput, call, decode, cs, r.error)
  {
    var a := AuditorFor(e, e.models[m], host, judgeInput);
    if a.Err? {
      r, cs := Err(a.error), [];
      return;
    }
    r, cs := ModelAuditor.Run(a.value, source, catalogue, maxTurns, language, CallsOf(call, m), decode, 0, clock(m));
  }

  /**
    `run` as intended: each model in list order builds its auditor and runs
    the scenarios; the first exception ends the experiment. `max_workers`
    is not passed on (see `RunAsWritten`).
   */
  method Run(e: Experiment, source: ScenarioSource, catalogue: Catalogue, maxTurns: Option<int>, language: string,
             host: Host, judgeInput: string, call: (nat, nat, Call<Provider>) -> Result<string>,
             decode: string -> Option<Json>, clock: nat -> string)
    returns (r: Result<map<Value, AuditResults>>, runs: seq<AuditResults>, calls: seq<seq<seq<Call<Provider>>>>)
    requires forall i :: 0 <= i < |e.models| ==> "model" in e.models[i]
    ensures ModelsRan(e, source, catalogue, maxTurns, language, host, judgeInput, call, decode, clock, runs, calls)
    ensures r.Ok? ==> |runs| == |e.models| && r.value == Keyed(ModelNames(e.models), runs)
    ensures r.Err? ==> |runs| < |e.models|
    ensures r.Err? && AuditorFor(e, e.models[|runs|], host, judgeInput).Err? ==>
      r.error == AuditorFor(e, e.models[|runs|], host, judgeInput).error
    ensures r.Err? ==> ModelBroke(e, |runs|, source, catalogue, maxTurns, language, host, judgeInput, call, decode, r.error)
  {
    var names := ModelNames(e.models);
    var byModel := map[];
    runs, calls := [], [];
    for m := 0 to |e.models|
      invariant |runs| == m
      invariant ModelsRan(e, source, catalogue, maxTurns, language, host, judgeInput, call, decode, clock, runs, calls)
      invariant byModel == Keyed(names[..m], runs)
    {
      var res, cs := ModelStep(e, m, source, catalogue, maxTurns, language, host, judgeInput, call, decode, clock);
      if res.Err? {
        r := Err(res.error);
        return;
      }
      ModelsRanExtend(e, source, catalogue, maxTurns, language, host, judgeInput, call, decode, clock, runs, calls,
                      res.value, cs);
      KeyedSnoc(names, runs, res.value);
      byModel := byModel[names[m] := res.value];
      runs, calls := runs + [res.value], calls + [cs];
    }
    assert names[..|e.models|] == names;
    r := Ok(byModel);
  }

  /**
    The results of a finished experiment: one entry per distinct model name,
    holding the run of the last configuration with that name.
   */
  lemma ResultsByModel(e: Experiment, runs: seq<AuditResults>, i: nat)
    requires forall j :: 0 <= j < |e.models| ==> "model" in e.models[j]
    requires |runs| == |e.models| && i < |runs|
    requires forall j :: i < j < |runs| ==> e.models[j]["model"] != e.models[i]["model"]
    ensures forall v :: v in Keyed(ModelNames(e.models), runs) <==> exists j :: 0 <= j < |e.models| && e.models[j]["model"] == v
    ensures Keyed(ModelNames(e.models), runs)[e.models[i]["model"]] == runs[i]
  {
    var names := ModelNames(e.models);
    KeyedKeys(names, runs);
    KeyedLastWins(names, runs, i);
    forall v ensures v in names <==> exists j :: 0 <= j < |e.models| && e.models[j]["model"] == v {
      if v in names {
        var j :| 0 <= j < |names| && names[j] == v;
        assert e.models[j]["model"] == v;
      }
    }
  }

  // ---------------------------------------------------------------------------
  // The loop as written

  const MaxWorkersMessage := "ModelAuditor.run() got an unexpected keyword argument 'max_workers'"

  /**
    `run` as written: the loop passes `max_workers=` to `ModelAuditor.run`,
    whose signature has no such parameter, so the call is rejected before the
    auditor does any work. The first model either fails to build its auditor
    or raises that `TypeError`; no model is ever audited.
   */
  function RunAsWritten(e: Experiment, host: Host, judgeInput: string): (r: Result<map<Value, AuditResults>>)
    ensures e.models == [] ==> r == Ok(map[])
    ensures e.models != [] && AuditorFor(e, e.models[0], host, judgeInput).Err? ==>
      r == Err(AuditorFor(e, e.models[0], host, judgeInput).error)
  {
    if e.models == [] then Ok(map[])
    else
      match AuditorFor(e, e.models[0], host, judgeInput)
      case Err(err) => Err(err)
      case Ok(_) => Err(TypeError(MaxWorkersMessage))
  }

  /** No experiment the constructor accepts ever returns results. */
  lemma AsWrittenNeverReturns(e: Experiment, host: Host, judgeInput: string)
    requires Valid(e)
    ensures RunAsWritten(e, host, judgeInput).Err?
  {
  }

  /**
    Whenever the first model's auditor can be built, the run as written raises
    the `max_workers` TypeError, while the intended run goes on to audit it.
   */
  lemma AsWrittenRejectsMaxWorkers(e: Experiment, host: Host, judgeInput: string)
    requires e.models != [] && AuditorFor(e, e.models[0], host, judgeInput).Ok?
    ensures RunAsWritten(e, host, judgeInput) == Err(TypeError(MaxWorkersMessage))
  {
  }
}
