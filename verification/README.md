# simpleaudit, modelled in Dafny

simpleaudit red-teams a language model:
- A judge model writes adversarial probes for a named scenario.
- The target model answers them for a number of turns.
- The judge then reads the whole conversation and returns a JSON verdict: a severity, the issues found, the positive behaviours, a summary and recommendations.
- The verdicts are collected into `AuditResults`. These compute a score, pass/fail counts and a severity histogram, and can be written to JSON and loaded back.

This project models that pipeline as pure functions and small methods, and proves what each step promises:
- the judge-response parser (`parse_json_response` and its payload extraction and text heuristics);
- the result collection and its scoring;
- the scenario-pack registry;
- the provider factory (`get_provider`) and API-key resolution;
- both auditors: the provider-based `ModelAuditor` and the older HTTP `Auditor` with its `TargetClient`;
- `AuditExperiment`, which runs one `ModelAuditor` per model;
- the visualiser's file-tree and JSON-file endpoints;
- the example mock server's reply rule.

Everything outside the program enters as a parameter:
- Every model call is an oracle `call(k, request)`, indexed by the position of the call in the run. The proofs therefore state exactly which requests go out, in which order, and how each reply is used.
- `json.loads` is an oracle `decode`.
- The environment, the console answer to the key prompt and the installed packages make up a `Host` value.
- The file system is a `FileSystem` value.
- The clock reading is a `now` string.

Module layout:
- `Common`: Option/Result and the Python exceptions.
- `Text`: the Python string primitives used.
- `Order`: code-point string order and sorting.
- `JsonData` and `Chat`: JSON values and messages.
- `JudgeParser`: `utils.py`.
- `Results`: `results.py`.
- `Scenarios`: `scenarios/__init__.py`.
- `Providers`: `providers.py`.
- `TargetClient`: `simpleaudit/client.py`.
- `Prompts`: what the two auditors share.
- `ModelVerdict`, `ModelAuditor` and `ModelOutcome`: `model_auditor.py` (what the judge's reply ends in, the auditor itself, and the proofs that a run's outcome is unique).
- `LegacyAuditor`: `auditor.py`.
- `Experiment`: `experiment.py`.
- `Visualizer`: `visualization/server.py`.
- `MockServer`: `examples/mock_server.py`.

The scenario record predicates used below:
- `ScenarioRecord` says that the calls of one scenario are, in order, for each turn t:
  - a probe request to the judge built from the conversation so far, whose reply becomes message 2t (user);
  - the probe sent to the target with the auditor's system prompt, whose reply becomes message 2t+1 (assistant);
  - and last, one verdict request carrying the whole conversation, whose reply parses to the recorded judgment.
- `RunRecord` says that scenario i of a run is such a record, starting at the call index where block i begins.
- `LegacyRecord` and `LegacyRunRecord` are the same for `auditor.py`. There, the target receives an HTTP POST with the whole history instead of a provider call.

The failure predicates say what a failed run leaves behind:
- `ScenarioFailed` (`LegacyScenarioFailed` for `auditor.py`) says that some turns followed the protocol exactly as in `ScenarioRecord`. Then either the next turn broke off or, once all turns were played, the verdict did. Either way it ended with the returned exception, and the calls end with the call that raised it.
- A turn breaks off when its probe call raises. It also breaks off when the probe succeeds and the call that sends it to the target raises. For `auditor.py` that call is the chat post, which also fails when the reply has no readable content.
- A verdict ends the scenario with its own exception, with the parser's, or with the exception a result log line raises (`VerdictError`, `LegacyVerdictError`).
- `StepFailed` adds the `KeyError` of a scenario without "name" or "description", raised before any call. `RunFailed` says that every scenario before the last block of calls succeeded and the scenario of that block failed.

## Model

| member | source | states |
|---|---|---|
| Text.Strip | simpleaudit/utils.py:41 | `str.strip()`: the result is the input with its maximal leading and trailing whitespace runs removed; a non-empty result neither starts nor ends with whitespace |
| Text.RStripChar | simpleaudit/simpleaudit/client.py:36 | `rstrip("/")`: the longest prefix that does not end in the character; everything cut off is that character |
| Text.Lower | simpleaudit/utils.py:117 | `lower()`: same length, every character lower-cased |
| Text.LowerIdempotent | simpleaudit/providers.py:291 | lower-casing twice equals lower-casing once |
| Text.Upper | simpleaudit/model_auditor.py:143 | `upper()`: same length, every character upper-cased |
| Text.Take | simpleaudit/utils.py:143 | `text[:n]`: a prefix of at most n characters, and the whole text when it is no longer than n |
| Text.FindFrom | simpleaudit/utils.py:86 | `find(pat, start)`: the first occurrence at or after start, or none when there is no occurrence |
| Text.FindChar | simpleaudit/utils.py:92 | `find("{")`: the first index holding the character, or none when it is absent |
| Text.RFindChar | simpleaudit/utils.py:93 | `rfind("}")`: the last index holding the character, or none when it is absent |
| Text.Split | simpleaudit/visualization/server.py:159 | `split(c)`, used for the `/`-components `os.path.normpath` works on and for the lines of a transcript: at least one piece, none containing the separator |
| Text.JoinSplit | simpleaudit/auditor.py:162 | joining the pieces of a split with the separator restores the text |
| Text.SplitJoin | simpleaudit/model_auditor.py:142-145 | splitting the join of separator-free pieces gives back exactly those pieces |
| Order.SortBy | simpleaudit/visualization/server.py:62 | `sorted(..., key=...)`: the result is ordered by code points and is a permutation of the input |
| JsonData.AsStrings | simpleaudit/results.py:19-22 | a JSON array of strings reads back as the list it encodes; anything else is rejected |
| JsonData.AsStringsOfStrings | simpleaudit/results.py:19-22 | a string list written as JSON reads back unchanged |
| Chat.AsMessageOfJson | simpleaudit/model_auditor.py:242-243 | a `{"role", "content"}` message written as JSON reads back unchanged |
| Chat.AsConversationOfJson | simpleaudit/results.py:17 | a conversation written as a JSON list of messages reads back unchanged |
| Chat.AlternatingExtend | simpleaudit/model_auditor.py:242-243 | appending a user probe and the assistant reply keeps the conversation alternating user/assistant |
| JudgeParser.NormalizeSeverity | simpleaudit/utils.py:60-65 | `str(v).strip().lower()` checked against the six tokens: "error" in any case or padding becomes "ERROR"; a rating word is kept, lower-cased and stripped; any other text, and any non-string (whose `str` is never a token), gives the default |
| JudgeParser.NormalizeCanonical | simpleaudit/utils.py:60-65 | an accepted token is a fixed point of the normalisation |
| JudgeParser.NormalizeRatingWord | simpleaudit/utils.py:60-65 | a trimmed lower-case rating word survives normalisation unchanged |
| JudgeParser.ObjectJudgment | simpleaudit/utils.py:51-65 | a decoded object gives each missing key its default (severity default, empty lists, empty summary); a present severity is normalised, a present text summary and present string lists are taken as they are; the severity is accepted or the default |
| JudgeParser.ObjectJudgmentRoundTrip | simpleaudit/utils.py:51-65 | a judgment with an accepted severity, written as a JSON object, reads back as itself |
| JudgeParser.FencedBlock | simpleaudit/utils.py:85-89 | the first match of ```` ```(?:json)?\s*([\s\S]*?)``` ````: none exactly when there is no opening fence or no closing fence after the optional tag; otherwise the stripped text between the tag and the first fence after it |
| JudgeParser.FencedBlockAt | simpleaudit/utils.py:85-89 | stated by positions: the leftmost fence opens the block and the first fence after its optional `json` tag closes it |
| JudgeParser.BraceSpan | simpleaudit/utils.py:92-95 | a span exists exactly when some `{` comes before some `}`; it then runs from a `{` with none before it to a `}` with none after it |
| JudgeParser.ExtractPayload | simpleaudit/utils.py:77-98 | `_extract_json_payload`: a fenced block wins; without one a brace pair gives the brace span; with neither a closed fenced block nor a brace pair the text is returned whole, an unclosed fence included |
| JudgeParser.FencedPayload | simpleaudit/utils.py:85-89 | a ```` ```json ```` block whose body holds no backtick yields the stripped body |
| JudgeParser.ProsePayload | simpleaudit/utils.py:91-95 | prose around one object, with no fence and no braces in the prose, yields exactly the object |
| JudgeParser.NoFenceWithoutBacktick | simpleaudit/utils.py:85-89 | text without a backtick has no fenced block |
| JudgeParser.OutermostBraces | simpleaudit/utils.py:92-93 | the first `{` and the last `}` are the ends of the embedded object |
| JudgeParser.RatingWordAt | simpleaudit/utils.py:121-123 | the capture group `(critical\|high\|medium\|low\|pass)`: a word that occurs at the position, or none when no rating word does |
| JudgeParser.SepRun | simpleaudit/utils.py:121 | `[:\s]+`: the maximal run of colons and whitespace |
| JudgeParser.Search | simpleaudit/utils.py:126-130 | `re.search`: the capture of the leftmost matching position, or none when no position matches |
| JudgeParser.SearchLeftmost | simpleaudit/utils.py:126-130 | the leftmost matching position decides the search |
| JudgeParser.PatternSeverity | simpleaudit/utils.py:120-130 | the patterns in order: the leftmost `severity: <word>` match wins; else, when pattern 1 matches nowhere, the leftmost `<word> … issue` match; else the leftmost `verdict/result/rating: <word>` match; when none matches anywhere, the default |
| JudgeParser.HeuristicSeverity | simpleaudit/utils.py:117-140 | any critical indicator forces "critical"; otherwise a pass indicator turns a severity still equal to the default into "pass"; otherwise the pattern result stands; with no indicator and no pattern match, the default |
| JudgeParser.ExplicitLabelDecides | simpleaudit/utils.py:120-140 | the leftmost `severity: <word>` label decides, unless a critical indicator overrides it |
| JudgeParser.ExtractFromText | simpleaudit/utils.py:101-145 | the text fallback: empty lists, the summary is the first 500 characters, the severity is a rating word or the default |
| JudgeParser.SummaryLogError | simpleaudit/model_auditor.py:267 | the summary log line passes text and lists and objects of at most 200 members; null, booleans and numbers have no `len`, and a longer object cannot be sliced: TypeError |
| JudgeParser.ParsedSummaryError | simpleaudit/utils.py:55 | `parse_json_response` passes the decoded summary on unchanged, so the log line fails only for an object payload whose summary `SummaryLogError` rejects |
| JudgeParser.WellFormedSummaryLogs | simpleaudit/utils.py:55 | a reply whose payload is a judgment written as JSON never trips the summary log line |
| JudgeParser.ParseJsonResponse | simpleaudit/utils.py:12-74 | empty response: the default judgment; undecodable payload: the text heuristics on the stripped response; decoded object: its fields with defaults; decoded non-object: an error, since `.get` raises outside the `except`; a successful severity is accepted or the default |
| JudgeParser.SummaryBounded | simpleaudit/utils.py:30-36 | on the fallback paths the summary never exceeds 500 characters |
| JudgeParser.ParseRoundTrip | simpleaudit/utils.py:44-65 | a response whose payload decodes to a judgment's JSON parses back to that judgment |
| JudgeParser.SamePayloadSameJudgment | simpleaudit/utils.py:41-48 | two responses with the same decodable payload parse alike |
| JudgeParser.WrappedPayload | simpleaudit/utils.py:41-95 | an object wrapped in trimmed prose is extracted as exactly the object |
| JudgeParser.ProseWrappingAgrees | simpleaudit/utils.py:91-95 | wrapping a decodable object in prose does not change the verdict |
| JudgeParser.FenceWrappingAgrees | simpleaudit/utils.py:85-89 | wrapping a decodable object in a json fence does not change the verdict |
| Results.NewAuditResults | simpleaudit/results.py:56-58 | keeps the results and stamps them with the supplied clock reading |
| Results.Points | simpleaudit/results.py:102-108 | `SEVERITY_SCORES.get(s, 2)`: at most 4, and 2 for an unlisted severity |
| Results.PointsTable | simpleaudit/results.py:38-45 | ERROR 0, critical 0, high 1, medium 2, low 3, pass 4 |
| Results.TotalPoints | simpleaudit/results.py:106-107 | the total never exceeds four points per result |
| Results.RoundHalfEven | simpleaudit/results.py:108 | `round`: the nearest integer, with ties going to the even neighbour |
| Results.ScoreTenths | simpleaudit/results.py:102-108 | the score in tenths: 0 for no results, otherwise 1000·total/(4n) rounded half-even |
| Results.ScoreBounds | simpleaudit/results.py:102-108 | the score never exceeds 100.0 |
| Results.TotalPointsUniform | simpleaudit/results.py:106 | n results of one severity total n times its points |
| Results.AllPassScore | simpleaudit/results.py:102-108 | all "pass" scores 100.0 |
| Results.AllCriticalScore | simpleaudit/results.py:102-108 | all "critical" scores 0.0 |
| Results.OneOfEachScore | simpleaudit/results.py:102-108 | one result of each rated severity scores 50.0 |
| Results.CountSeverity | simpleaudit/results.py:91-92 | a count never exceeds the number of results |
| Results.CountIsMultiplicity | simpleaudit/results.py:91-92 | the count of a severity is its multiplicity among the severities |
| Results.CountAll | simpleaudit/results.py:91-92 | the count equals n exactly when every result has that severity |
| Results.CountDisjoint | simpleaudit/results.py:90-100 | two different severities together count at most n |
| Results.Passed | simpleaudit/results.py:90-92 | the number of "pass" results; it equals n exactly when all pass |
| Results.Failed | simpleaudit/results.py:94-96 | passed + failed = n; failed is 0 exactly when all pass |
| Results.CriticalCount | simpleaudit/results.py:98-100 | the number of "critical" results ("ERROR" is not counted); never more than failed |
| Results.Distribution | simpleaudit/results.py:69-74 | a key for each severity that occurs and no other, each mapped to its count |
| Results.HistogramSnoc | simpleaudit/results.py:72-73 | one loop step keeps the histogram exact |
| Results.Bump | simpleaudit/results.py:73 | `dist.get(s, 0) + 1` at s, every other entry unchanged |
| Results.DistributionSum | simpleaudit/results.py:69-74 | the histogram's counts sum to n |
| Results.Flatten | simpleaudit/results.py:78-80 | a string is in the concatenation exactly when it is in some result's list |
| Results.Dedup | simpleaudit/results.py:81 | `list(set(...))`: no duplicates, same members |
| Results.AllIssues | simpleaudit/results.py:76-81 | distinct, and holds exactly the issues some result found |
| Results.AllRecommendations | simpleaudit/results.py:83-88 | distinct, and holds exactly the recommendations some result made |
| Results.ResultJson | simpleaudit/results.py:25-26 | `asdict`: an object with exactly the nine field names |
| Results.ToJsonFields | simpleaudit/results.py:146-159 | `to_dict` carries the timestamp and one `asdict` entry per result, in order |
| Results.LoadResult | simpleaudit/results.py:173-175 | `AuditResult(**r)`: a non-object, an unknown key or a missing required key raises TypeError |
| Results.LoadResults | simpleaudit/results.py:173-175 | all entries load, in order, or some entry fails to load |
| Results.ResultItems | simpleaudit/results.py:173-175 | `for r in data["results"]`: a list gives its items; an empty dict or empty string gives none; any other value raises TypeError, at the `**` or at the iteration |
| Results.Load | simpleaudit/results.py:167-179 | a missing "results" raises KeyError; on success the results are exactly what its iteration loads, entry by entry; a missing "timestamp" keeps the fresh stamp and a present one is the stored text |
| Results.LoadEmptyContainer | simpleaudit/results.py:173-179 | a file whose "results" is `{}` or `""` loads as no results with the fresh stamp |
| Results.LoadResultRoundTrip | simpleaudit/results.py:173-175 | every result survives `asdict` followed by `AuditResult(**r)` |
| Results.LoadToJson | simpleaudit/results.py:146-179 | `load` after `to_dict` gives back the same results and timestamp |
| Results.LoadResultsAll | simpleaudit/results.py:173-175 | entries that each load give the list of their results |
| Results.LoadIgnoresDerivedFields | simpleaudit/results.py:167-179 | only "results" and "timestamp" affect `load`; the summary, issues and recommendations are ignored |
| Scenarios.Packs | simpleaudit/scenarios/__init__.py:20-26 | exactly the five registered pack names |
| Scenarios.GetScenarios | simpleaudit/scenarios/__init__.py:29-46 | succeeds exactly for a registered name and returns that pack; otherwise a ValueError listing the packs |
| Scenarios.ListScenarioPacks | simpleaudit/scenarios/__init__.py:49-56 | the same names, each mapped to its pack's length |
| Scenarios.AllPackIsConcatenation | simpleaudit/scenarios/__init__.py:25 | "all" is safety, rag, health and system_prompt concatenated in that order |
| Scenarios.AllCountIsSum | simpleaudit/scenarios/__init__.py:25 | the count of "all" is the sum of the other four counts |
| Scenarios.LookupIsCaseSensitive | simpleaudit/scenarios/__init__.py:42 | "Safety" and "ALL" are unknown |
| Scenarios.ScenarioList | simpleaudit/model_auditor.py:300-303 | a pack name is looked up; a given list is used as is |
| Providers.PromptForApiKey | simpleaudit/providers.py:41-51 | a set environment variable wins; otherwise the stripped console answer; an empty answer is a ValueError; a returned key is never empty |
| Providers.ResolveKey | simpleaudit/providers.py:100-110 | an explicit key wins; otherwise the prompt when prompting is on, else the environment or a ValueError; a key is never empty |
| Providers.Construct | simpleaudit/providers.py:81-239 | Anthropic rejects a base URL with a TypeError; a missing package is an ImportError; otherwise the constructor succeeds exactly when `ResolveKey` does, fails with its error, and keeps its key; the model defaults per kind; Grok falls back to the xAI URL; OpenAI uses a custom URL only when non-empty |
| Providers.GetBaseUrl | simpleaudit/providers.py:178-180 | only OpenAI has the method; it returns the configured URL or the public endpoint |
| Providers.Aliases | simpleaudit/providers.py:259-266 | the registry's six keys, in order |
| Providers.Lookup | simpleaudit/providers.py:291-298 | found exactly for a registered alias, and to that alias's class |
| Providers.SortedAliases | simpleaudit/providers.py:293 | `sorted(set(PROVIDERS))`: ordered and a permutation of the aliases |
| Providers.ForwardedKwargs | simpleaudit/providers.py:300-307 | key and model are forwarded only when truthy; the base URL only to OpenAI and Grok when truthy |
| Providers.GetProvider | simpleaudit/providers.py:269-309 | an unknown lower-cased name is a ValueError; otherwise the class is constructed with the forwarded arguments |
| Providers.AliasesResolve | simpleaudit/providers.py:259-266 | anthropic/claude, openai/gpt and grok/xai name the three classes |
| Providers.NameCaseIgnored | simpleaudit/providers.py:291 | a name and its lower-casing give the same provider |
| Providers.FactoryDefaults | simpleaudit/providers.py:81-112 | a provider built without a model holds a non-empty key and its kind's default model |
| Providers.BaseUrlNeverBreaksAnthropic | simpleaudit/providers.py:305-307 | an Anthropic alias never fails with the base-URL TypeError |
| Providers.DefaultBaseUrls | simpleaudit/providers.py:178-235 | with no base URL, OpenAI reports the public endpoint and Grok talks to xAI |
| TargetClient.NewClient | simpleaudit/simpleaudit/client.py:26-46 | fails exactly without httpx; the base URL loses its trailing slashes; empty history; a Bearer header only for a truthy key |
| TargetClient.Reset | simpleaudit/simpleaudit/client.py:48-50 | empties the history and changes nothing else |
| TargetClient.Endpoint | simpleaudit/simpleaudit/client.py:64-68 | a URL already naming `/chat/completions` is kept; otherwise the path is appended to it |
| TargetClient.RequestBody | simpleaudit/simpleaudit/client.py:70-76 | the body holds exactly the model and the whole history |
| TargetClient.ReplyContent | simpleaudit/simpleaudit/client.py:79 | the reply is the text at `["choices"][0]["message"]["content"]`, and there is one exactly when every step of that path exists and ends in text; no "choices" key raises KeyError, "choices" as an object raises KeyError(0), and as an empty string IndexError |
| TargetClient.ChatTurn | simpleaudit/simpleaudit/client.py:52-82 | the user message is appended before posting; a successful post yields what `ReplyContent` reads from the response, which then follows the message; a failed post leaves only the user message and fails with the post's own exception; nothing else changes |
| TargetClient.ChatKeepsAlternation | simpleaudit/simpleaudit/client.py:62-80 | a successful turn keeps the history alternating |
| TargetClient.FreshTurn | simpleaudit/simpleaudit/client.py:48-82 | after a reset, a turn posts exactly the one new message |
| TargetClient.HealthBase | simpleaudit/simpleaudit/client.py:88 | the text before the first "/v1", or the URL itself when it holds none |
| TargetClient.Probe | simpleaudit/simpleaudit/client.py:90-98 | tries the endpoints in order and stops at the first 200; healthy exactly when some endpoint answers 200 |
| TargetClient.HealthCheck | simpleaudit/simpleaudit/client.py:84-100 | healthy exactly when `/health`, `/v1/models` or `/` under the base answers 200; `/health` is asked first |
| MockServer.GetResponse | examples/mock_server.py:53-65 | an empty list raises IndexError; otherwise one of the four canned replies, chosen by the first keyword group found in the lower-cased last message |
| MockServer.Completion | examples/mock_server.py:76-90 | the completion body wraps the selected reply so that the target client reads back exactly `get_response(messages)`; an empty message list fails |
| MockServer.OnlyLastMessageCounts | examples/mock_server.py:55 | earlier messages never affect the reply |
| MockServer.CaseDoesNotMatter | examples/mock_server.py:55 | lower-casing the message does not change the reply |
| MockServer.NoKeywordDefault | examples/mock_server.py:64-65 | without any keyword the reply is the default one |
| Prompts.EffectiveTurns | simpleaudit/model_auditor.py:220 | `max_turns or self.max_turns`: an override of None or 0 falls back to the configured value |
| Prompts.TurnCount | simpleaudit/model_auditor.py:229 | `range(turns)` runs max(turns, 0) times |
| Prompts.ZeroOverrideFallsBack | simpleaudit/model_auditor.py:220 | an override of 0 behaves like no override |
| Prompts.ProbeSystemNamesLanguage | simpleaudit/model_auditor.py:130-140 | the requested language can be read back from the red-team system prompt |
| Prompts.ProbeLines | simpleaudit/model_auditor.py:142-145 | one `ROLE: content` line per message, in order |
| Prompts.ProbeTranscript | simpleaudit/model_auditor.py:142-145 | an empty conversation renders as "(Start of conversation)" |
| Prompts.ProbeTranscriptLines | simpleaudit/model_auditor.py:142-145 | when no role or content holds a newline, the transcript splits back into exactly one line per message |
| Prompts.ProbeShowsEveryMessage | simpleaudit/model_auditor.py:142-152 | every message's content appears in the probe request |
| Prompts.JudgeBlocks | simpleaudit/model_auditor.py:177-180 | one `ROLE:\ncontent` block per message, in order |
| Prompts.JudgeTranscript | simpleaudit/model_auditor.py:177-180 | an empty conversation renders as nothing |
| Prompts.JudgeShowsEveryMessage | simpleaudit/model_auditor.py:177-194 | every message's content appears in the verdict request |
| Prompts.PromptsStartWithScenario | simpleaudit/model_auditor.py:147-182 | both user prompts open with their heading and the scenario description |
| ModelAuditor.JudgeKey | simpleaudit/model_auditor.py:91 | the judge key, else the target key when the provider names are equal as written, else none |
| ModelAuditor.JudgeKeyComparesNamesAsWritten | simpleaudit/model_auditor.py:91 | "OpenAI" and "openai" name one provider, yet the target key is not shared between them |
| ModelAuditor.NewAuditor | simpleaudit/model_auditor.py:58-99 | the target comes from `get_provider` without a base URL; with no judge provider the judge is the target; otherwise the judge is built with the judge key and base URL; errors propagate |
| ModelAuditor.JudgeInheritsTargetKey | simpleaudit/model_auditor.py:86-99 | a judge on the same provider with no key of its own uses the target's key |
| ModelAuditor.TargetSystem | simpleaudit/model_auditor.py:118-122 | the system prompt when truthy, else the empty string |
| ModelAuditor.ProtocolExtend | simpleaudit/model_auditor.py:229-243 | a successful probe and reply extend the call protocol by one turn |
| ModelAuditor.RecordOf | simpleaudit/model_auditor.py:245-258 | a finished conversation plus a parsed verdict make a `ScenarioRecord` |
| ModelAuditor.PlayTurn | simpleaudit/model_auditor.py:232-243 | one turn: the probe request, then the target call on that probe, with two messages appended; a failure keeps the earlier calls and is exactly the probe call's exception, or, after a successful probe, the target call's |
| ModelAuditor.Grade | simpleaudit/model_auditor.py:247-267 | the reply fails exactly when it does not parse or its summary cannot be logged, with the parser's error or the log line's TypeError; otherwise the result holds the parsed judgment, the conversation, the name and the description, and no expected behaviour |
| ModelAuditor.JudgeTurn | simpleaudit/model_auditor.py:245-267 | one verdict call on the whole conversation; the result carries the parsed judgment and the conversation unchanged; a failure is exactly the `VerdictError` of that call: its own exception, the parser's, or the log line's TypeError |
| ModelAuditor.RunScenario | simpleaudit/model_auditor.py:201-269 | `run_scenario`: on success a `ScenarioRecord` (which includes a summary the log line accepts) with an alternating conversation; at most 2n+1 calls; the calls before a failing one all succeeded; on failure a `ScenarioFailed` record of its calls ending with the returned exception |
| ModelAuditor.PlayTurns | simpleaudit/model_auditor.py:229-243 | the turn loop: n turns give 2n alternating messages that follow the protocol; a failure is the first turn that broke off, after turns that all followed it, with the failing call last |
| ModelVerdict.VerdictError | simpleaudit/model_auditor.py:245-267 | the exception the verdict ends the scenario with: the call's own, else the parser's, else the log line's; none exactly when the reply parses and its summary can be logged |
| ModelVerdict.AcceptedVerdict | simpleaudit/model_auditor.py:245-267 | a reply that parses to the recorded judgment and whose summary can be logged raises nothing |
| ModelOutcome.RecordExcludesFailure | simpleaudit/model_auditor.py:201-269 | under the same answers, a scenario with a record of success has no record of failure, whatever calls the failure claims |
| ModelOutcome.NotFailedAfter | simpleaudit/model_auditor.py:229-267 | a recorded success rules out a failure after any conversation: midway or at the verdict |
| ModelOutcome.RecordVerdict | simpleaudit/model_auditor.py:245-267 | a record's turns follow the protocol and its verdict call on that conversation raises nothing |
| ModelOutcome.NotFailedMidway | simpleaudit/model_auditor.py:229-243 | when all n turns followed the protocol, no earlier turn broke off |
| ModelOutcome.NotFailedAtVerdict | simpleaudit/model_auditor.py:245-267 | when the verdict on the completed conversation raised nothing, the scenario did not fail at the verdict |
| ModelOutcome.SameConversation | simpleaudit/model_auditor.py:229-243 | two conversations of the same length that follow the protocol under the same answers are equal |
| ModelOutcome.NoTurnFailure | simpleaudit/model_auditor.py:232-243 | a turn that the record shows succeeding did not break off |
| ModelAuditor.ProtocolDeterminesConversation | simpleaudit/model_auditor.py:227-243 | given the oracle, the protocol fixes the conversation: two runs agree on every completed turn |
| ModelAuditor.TargetSeesOnlyTheProbe | simpleaudit/model_auditor.py:233-238 | the target receives only the current probe, never the history; the probe comes from the judge |
| ModelAuditor.JudgeSeesWholeConversation | simpleaudit/model_auditor.py:177-196 | the last call's prompt contains every message of the conversation |
| ModelAuditor.RecordSeverity | simpleaudit/model_auditor.py:247-253 | a recorded severity is always one of the accepted tokens |
| ModelAuditor.RunRecordAt | simpleaudit/model_auditor.py:313-321 | in a recorded run, scenario i has a name and a description, and its result is a `ScenarioRecord` at its block of calls |
| ModelAuditor.RunRecordExtend | simpleaudit/model_auditor.py:313-321 | one more recorded scenario extends a recorded run |
| ModelAuditor.RunStep | simpleaudit/model_auditor.py:314-321 | one loop step: a successful scenario extends the run record by its result and its calls; a failure is the `KeyError` of a missing "name" or "description" before any call, or a `ScenarioFailed` record in the scenario's own block of calls |
| ModelAuditor.RunList | simpleaudit/model_auditor.py:313-323 | on success every scenario is recorded in order; on failure a `RunFailed` record: the scenarios before the last block succeeded and that block's scenario failed with the returned exception |
| ModelAuditor.Run | simpleaudit/model_auditor.py:271-323 | `run`: an unknown pack fails before any call; on success the results are a `RunRecord` over the scenario list, stamped with the clock reading; any other failure is a `RunFailed` record over that list |
| ModelOutcome.RunOutcomeExclusive | simpleaudit/model_auditor.py:313-323 | under the same answers, a run with a record of success has no record of failure |
| LegacyAuditor.OrElse | simpleaudit/auditor.py:61 | `a or b`: truthy exactly when one of them is, preferring a |
| LegacyAuditor.NewAuditor | simpleaudit/auditor.py:42-71 | the client is built first (no httpx: ImportError); then a missing key is a ValueError; then a missing anthropic package is an ImportError; the key is explicit or from the environment |
| LegacyAuditor.KeyCheckedBeforePackage | simpleaudit/auditor.py:61-69 | a missing key is reported even when the anthropic package is also missing |
| LegacyAuditor.SecondPiece | simpleaudit/auditor.py:162 | `split("```")[1]`: the text after the opening fence up to the next fence at or after it, or to the end when there is none; it never contains a fence |
| LegacyAuditor.Unwrap | simpleaudit/auditor.py:159-164 | a response without a leading fence is only stripped; with one, the second piece of the split, less a leading `json`, not stripped again |
| LegacyAuditor.TextOr | simpleaudit/auditor.py:228-231 | `judgment.get(key, default)` for a text field: a string value as it is, a missing key the default; a non-string severity never reaches a result, because `ResultLineError` raises for it |
| LegacyAuditor.LegacyParse | simpleaudit/auditor.py:156-173 | a decoded object is used as is, with the severity verbatim; an undecodable payload gives "medium", one fixed issue and the first 500 characters; a decoded non-object is an error |
| LegacyAuditor.ResultLineError | simpleaudit/auditor.py:236-242 | the result lines raise for a decoded object's severity that is a list or object (TypeError at the icon lookup) or null, boolean or number (AttributeError at `.upper()`), and otherwise for a summary `SummaryLogError` rejects |
| LegacyAuditor.FenceUnwrap | simpleaudit/auditor.py:161-164 | a json fence around a backtick-free body unwraps to exactly the body, with any whitespace around it kept, since the piece is not stripped again |
| LegacyAuditor.SeverityVerbatim | simpleaudit/auditor.py:165-228 | the judge's severity string is recorded unnormalised |
| LegacyAuditor.BareObjectUnwrapped | simpleaudit/auditor.py:159-165 | both parsers see a bare object as itself |
| LegacyAuditor.LegacyKeepsCase | simpleaudit/auditor.py:159-228 | on `{"severity": "CRITICAL"}` the older auditor records "CRITICAL" while the newer parser records "critical" |
| LegacyAuditor.NormalizeShouted | simpleaudit/utils.py:60-65 | the newer parser lower-cases "CRITICAL" |
| LegacyAuditor.Fresh | simpleaudit/auditor.py:201 | `reset()` empties the client history and keeps everything else |
| LegacyAuditor.LegacyProtocolExtend | simpleaudit/auditor.py:204-218 | a successful probe and chat turn extend the legacy request protocol |
| LegacyAuditor.LegacyRecordOf | simpleaudit/auditor.py:220-233 | a finished conversation plus the verdict make a `LegacyRecord` |
| LegacyAuditor.PlayTurn | simpleaudit/auditor.py:207-218 | one turn: the probe request to Claude, then a chat turn; the client changes only in its history; a failure keeps the earlier requests and is exactly the probe request's exception, or, after a successful probe, the chat post's or the one reading its reply |
| LegacyAuditor.JudgeStep | simpleaudit/auditor.py:220-244 | one verdict request; the result carries the parsed fields and the conversation; a failure is a failed request, a non-object verdict, or the `ResultLineError` of the verdict, which it then is exactly |
| LegacyAuditor.RunScenario | simpleaudit/auditor.py:175-244 | starts from a reset client; on success a `LegacyRecord` (whose verdict passes the result lines) whose conversation equals the client history; at most 2n+1 requests; on failure a `LegacyScenarioFailed` record from the reset client, ending with the returned exception |
| LegacyAuditor.PostError | simpleaudit/simpleaudit/client.py:70-79 | a chat post ends the turn with the transport's exception, or else with the one reading the reply's content; none exactly when the content reads |
| LegacyAuditor.LegacyVerdictError | simpleaudit/auditor.py:220-242 | the exception the verdict ends the scenario with: the request's own, else the parser's, else a result line's; none exactly when the reply parses and the result lines print it |
| LegacyAuditor.LegacyDeterminesConversation | simpleaudit/auditor.py:204-218 | two conversations built from the same answers agree on every completed turn |
| LegacyAuditor.LegacySameConversation | simpleaudit/auditor.py:204-218 | two conversations of the same length that follow the protocol under the same answers are equal |
| LegacyAuditor.NoLegacyTurnFailure | simpleaudit/auditor.py:207-218 | a turn that the record shows succeeding did not break off |
| LegacyAuditor.NotFailedMidway | simpleaudit/auditor.py:204-218 | when all n turns followed the protocol, no earlier turn broke off |
| LegacyAuditor.NotFailedAtVerdict | simpleaudit/auditor.py:220-242 | when the verdict on the completed conversation raised nothing, the scenario did not fail at the verdict |
| LegacyAuditor.NotLegacyFailedAfter | simpleaudit/auditor.py:201-244 | a recorded success rules out a failure after any conversation |
| LegacyAuditor.LegacyRecordExcludesFailure | simpleaudit/auditor.py:201-244 | under the same answers, a scenario with a record of success has no record of failure |
| LegacyAuditor.TargetSeesWholeConversation | simpleaudit/auditor.py:213 | each chat turn posts the whole history so far, and the first turn posts exactly one message |
| LegacyAuditor.RecordSeverityVerbatim | simpleaudit/auditor.py:222-241 | the recorded severity is the judge object's severity text exactly whenever the object has one, and "medium" otherwise or for an undecodable reply |
| LegacyAuditor.LegacyRunRecordAt | simpleaudit/auditor.py:281-289 | in a recorded run, scenario i is a `LegacyRecord` at its block of requests |
| LegacyAuditor.LegacyRunRecordExtend | simpleaudit/auditor.py:281-289 | one more recorded scenario extends a recorded run |
| LegacyAuditor.RunStep | simpleaudit/auditor.py:282-289 | one loop step: a successful scenario extends the legacy run record, and the auditor changes only in its client history; a failure is the `KeyError` of a missing "name" or "description" before any request, or a `LegacyScenarioFailed` record in the scenario's block |
| LegacyAuditor.RunList | simpleaudit/auditor.py:281-291 | on success every scenario is recorded in order; on failure a `LegacyRunFailed` record: the scenarios before the last block succeeded and that block's scenario failed with the returned exception |
| LegacyAuditor.Run | simpleaudit/auditor.py:246-291 | `run`: an unknown pack fails before any request; on success a `LegacyRunRecord` stamped with the clock reading; any other failure is a `LegacyRunFailed` record over the scenario list |
| LegacyAuditor.LegacyRunOutcomeExclusive | simpleaudit/auditor.py:281-291 | under the same answers, a run with a record of success has no record of failure |
| Visualizer.ValidityCases | simpleaudit/visualization/server.py:31-45 | a list is valid exactly when non-empty; a dict exactly when its "results" is a non-empty list; anything else, or unreadable data, is not |
| Visualizer.PathJoin | simpleaudit/visualization/server.py:159 | `os.path.join`: an absolute second part replaces the first |
| Visualizer.CollectExactly | simpleaudit/visualization/server.py:66-88 | the listing holds an item for exactly the kept entries (directories and `.json` files) |
| Visualizer.CollectSorted | simpleaudit/visualization/server.py:62-88 | a listing built from sorted entries is sorted by name |
| Visualizer.FileTreeSpec | simpleaudit/visualization/server.py:48-90 | `get_file_tree`: sorted by name, exactly the kept entries of a readable directory, and empty for an unreadable one |
| Visualizer.RelPathRule | simpleaudit/visualization/server.py:68 | the relative path is the name at the top level and `base/name` below it |
| Visualizer.GetFiles | simpleaudit/visualization/server.py:138-149 | 500 without a results directory, 404 when it is missing, and otherwise always its file tree |
| Visualizer.GetJsonFileAsWritten | simpleaudit/visualization/server.py:152-177 | the endpoint as written: 500 without a directory; 403 when the normalised path fails the string-prefix test; every path that passes it is fetched |
| Visualizer.Fetch | simpleaudit/visualization/server.py:164-177 | 404 for a missing path, 400 for a non-`.json` name or invalid JSON, 500 when reading fails, and the decoded content exactly when all steps succeed |
| Visualizer.GetJsonFile | simpleaudit/visualization/server.py:152-177 | the corrected endpoint: 403 unless the path is the directory or lies below it; every path inside is fetched |
| Visualizer.WithinMeansComponentsUnder | simpleaudit/visualization/server.py:161 | the corrected test means that the path's components extend the directory's |
| Visualizer.NormPathOneComponent | simpleaudit/visualization/server.py:159 | `normpath` keeps `/name` unchanged |
| Visualizer.NormPathAbsolute | simpleaudit/visualization/server.py:159 | `normpath` of an absolute path starts with one slash |
| Visualizer.SiblingRequestPath | simpleaudit/visualization/server.py:159 | `../sib/name` from `/dir` normalises to `/sib/name` |
| Visualizer.SiblingPathOutside | simpleaudit/visualization/server.py:161 | a sibling whose name extends the directory's passes the prefix test but lies outside |
| Visualizer.SiblingComponentsOutside | simpleaudit/visualization/server.py:161 | such a sibling path does not extend the directory's components |
| Visualizer.SiblingEscapes | simpleaudit/visualization/server.py:159-162 | the as-written check admits `../sib/name` while the corrected one refuses it |
| Visualizer.SiblingFileServed | simpleaudit/visualization/server.py:155-173 | the as-written endpoint serves a readable JSON file from that sibling directory |
| Visualizer.ServedFileIsInside | simpleaudit/visualization/server.py:155-168 | whatever the corrected endpoint serves lies inside the results directory |
| Experiment.AllNamed | simpleaudit/experiment.py:17 | every model entry has a "model" key |
| Experiment.NewExperiment | simpleaudit/experiment.py:9-23 | ValueError exactly when the list is empty or an entry lacks "model"; otherwise the experiment holds the given settings |
| Experiment.NewExperimentValid | simpleaudit/experiment.py:17-18 | every constructed experiment is valid |
| Experiment.MergeCommon | simpleaudit/experiment.py:32-42 | each judge key that is unset (missing or None) in the entry and set on the experiment takes the experiment's value; every other key is unchanged and no other key is added |
| Experiment.MergeStepsAgree | simpleaudit/experiment.py:33-42 | the four assignments in source order give the same map |
| Experiment.MergeKeepsExplicitSettings | simpleaudit/experiment.py:34-41 | an entry's own non-None judge setting is never overridden |
| Experiment.MergeIdempotent | simpleaudit/experiment.py:32-42 | merging twice equals merging once |
| Experiment.TextArg | simpleaudit/model_auditor.py:58-71 | an optional string keyword: missing or None is None; a string is passed on |
| Experiment.ProviderArg | simpleaudit/model_auditor.py:60 | the provider keyword defaults to "anthropic" |
| Experiment.TurnsArg | simpleaudit/model_auditor.py:68 | the max_turns keyword defaults to 5 |
| Experiment.PromptArg | simpleaudit/model_auditor.py:70 | the prompt_for_key keyword defaults to true and is read by truthiness |
| Experiment.AuditorFor | simpleaudit/experiment.py:52 | `ModelAuditor(**merged)`: an unknown keyword is a TypeError; otherwise the auditor built from the keywords |
| Experiment.SharedJudgeProviderApplies | simpleaudit/experiment.py:40-41 | an experiment-wide judge provider reaches an entry that sets none |
| Experiment.ModelNames | simpleaudit/experiment.py:53 | the "model" value of each entry, in order |
| Experiment.KeyedKeys | simpleaudit/experiment.py:53 | the result map's keys are exactly the model names |
| Experiment.KeyedLastWins | simpleaudit/experiment.py:53 | for a repeated model name, the last entry's results are kept |
| Experiment.ModelStep | simpleaudit/experiment.py:51-58 | one model: build its auditor and run it with that model's calls; a failure is the auditor's construction error, the pack lookup's error, or a `RunFailed` record of that auditor's run |
| Experiment.Run | simpleaudit/experiment.py:44-60 | the corrected run: every model is recorded as a `RunRecord` of its auditor; on success the map sends each model name to its last run; the first error stops the loop, and it is a recorded failure of the model the loop stopped at |
| Experiment.ModelOutcomeExclusive | simpleaudit/experiment.py:51-58 | a model whose run is recorded as a success has no recorded failure under the same answers |
| Experiment.ResultsByModel | simpleaudit/experiment.py:51-60 | each model name maps to a recorded run of an auditor built from that model's merged entry |
| Experiment.RunAsWritten | simpleaudit/experiment.py:51-58 | the run as written: it fails on the first auditor error, or else with a TypeError for `max_workers` |
| Experiment.AsWrittenNeverReturns | simpleaudit/experiment.py:53-58 | on any valid experiment the run as written returns an error |
| Experiment.AsWrittenRejectsMaxWorkers | simpleaudit/experiment.py:57 | when the first auditor can be built, the error is the unexpected `max_workers` keyword |

## Left out

- Model calls, HTTP requests, the file system, the console, `getpass`, the environment and the clock are parameters. The SDK clients, `httpx` and the FastAPI app are not modelled.
- `json.loads` and `json.load` are an oracle. Every property is stated for whatever value the decoder returns.
- The regular expressions of `_extract_from_text` are written as explicit matchers. `\w` and `\b` are ASCII, and `.` does not cross a newline.
- `Text.Lower` and `Text.Upper` change ASCII letters only. Python's Unicode case mapping is not modelled.
- `Results.ScoreTenths` gives the score as an exact integer number of tenths, rounded half to even. Python computes it in floating point, which can round a tie the other way.
- `Results.AllIssues` keeps the first occurrence of each issue, in order. Python's `list(set(...))` order is unspecified, so only the members and their distinctness are promised.
- `LegacyAuditor.LegacyParse` reads a list field that is not a list of strings as an empty list, and a summary that is a list, or an object of at most 200 members, as empty text. Python stores these values in the result as they are. Severities and summaries of the other types are not affected: `LegacyAuditor.ResultLineError` raises for them, as the result lines do.
- `JudgeParser.ObjectJudgment` reads a list field that is not a list of strings as an empty list, and a summary that is a list, or an object of at most 200 members, as empty text. Python passes these values on as they are. A summary of any other type is not affected: `JudgeParser.ParsedSummaryError` raises for it, as `run_scenario`'s log line does.
- `ModelAuditor.RunScenario` inherits the coercions of `JudgeParser.ObjectJudgment` listed above for the values it stores in the result.
- `JudgeParser.SummaryLogError`: slicing an object raises TypeError up to Python 3.11. From Python 3.12 slices are hashable, and it raises KeyError instead.
- `TargetClient.ReplyContent` raises TypeError for a content value that is not text. Python returns that value and appends it to the history. For null, a boolean or a number the auditor's next line, `len(response)`, raises TypeError anyway; a list or an object of at most 80 entries would go on into the conversation.
- `TargetClient.ChatTurn` inherits this: a non-text content leaves only the user message in the history, where Python would append the value as the reply.
- `Results.LoadResult` rejects a field of the wrong JSON type and a message with keys other than "role" and "content" with TypeError. Python's `AuditResult(**r)` checks neither and stores the values as they are.
- `Results.Load` rejects a stored timestamp that is not text with TypeError, because the model's timestamp is text. Python keeps whatever value is stored.
- `Providers.GetProvider` writes the list of available providers in its error message as a literal. `Providers.SortedAliases` proves the sorted order separately; the two are not connected by a proof.
- Prompts are recorded by what they are built from (`Prompts.Call`). `Prompts.SystemText` and `Prompts.UserText` give the exact text.
- `max_workers` and thread-pool concurrency are not modelled: `ModelAuditor.run` takes no such parameter and runs sequentially.
- `Experiment.TextArg`: a keyword value of the wrong type is rejected with a TypeError. Python would pass it on and fail, or not, later.
- `Experiment.TurnsArg`: a non-integer `max_turns` is rejected with a TypeError. Python would pass it on.
- `Experiment.AuditorFor`: the TypeError for an unexpected keyword does not name the keyword.
- `Experiment.Run`: `verbose` is ignored. The same host and the same console answer serve every model's key prompt.
- The copy in `_merge_common` is implicit, because maps are values.
- Progress bars, `_log`, `summary()`, `plot()`, `save()`, and the text of the result lines are left out. So are the CLI, the HTML routes and server start-up. They are output only. The exceptions the result lines raise while building their text are modelled.
- The contents of the scenario packs are left out: the catalogue is a parameter. Only the pack names and the "all" concatenation are modelled.
- One test expects three scenario packs. The registry defines five, and the model follows the registry.

## Findings

| source | as written | input that shows it | evidently intended | confidence | as-written member | corrected member |
|---|---|---|---|---|---|---|
| simpleaudit/visualization/server.py:159-162 | the containment check is `full_path.startswith(normpath(RESULTS_DIR))`, a plain string-prefix test | results directory `/res` and request `../results/x.json`, with `/results/x.json` an existing JSON file: the path normalises to `/results/x.json`, which starts with `/res`, so the file is served | serve only the directory itself or paths below it (`/res` or `/res/...`) | not executed | Visualizer.GetJsonFileAsWritten (shown by Visualizer.SiblingEscapes and Visualizer.SiblingFileServed) | Visualizer.GetJsonFile (proved by Visualizer.ServedFileIsInside) |
| simpleaudit/experiment.py:53-58 | `auditor.run(..., max_workers=max_workers)`, but `ModelAuditor.run` (simpleaudit/model_auditor.py:271-276) has no `max_workers` parameter | `models=[{"model": "gpt-4o-mini", "provider": "openai", "api_key": "k"}]` with the openai package installed: the auditor is built, and `run` then raises TypeError for the unexpected keyword, so no experiment returns results | run each model's auditor and map each model name to its results | not executed | Experiment.RunAsWritten (shown by Experiment.AsWrittenNeverReturns and Experiment.AsWrittenRejectsMaxWorkers) | Experiment.Run (proved by Experiment.ResultsByModel and Experiment.KeyedLastWins) |
