/**
  Provider selection of simpleaudit/providers.py: the alias registry, the
  keyword arguments `get_provider` forwards, and each constructor's
  API-key ladder. The environment, the console and the installed packages are
  a `Host` value; the provider's network call is not part of this module.
 */
module Providers {
  import opened Common
  import opened Text
  import opened Order

  datatype Kind = Anthropic | OpenAI | Grok

  /** What the process sees of its machine. */
  datatype Host = Host(
    env: map<string, string>,
    consoleInput: string,
    anthropicInstalled: bool,
    openaiInstalled: bool)

  /**
    A constructed provider. `baseUrl` is the attribute `OpenAIProvider` keeps
    (verbatim); `clientBaseUrl` is the URL handed to the SDK client, `None`
    meaning the SDK's own default.
   */
  datatype Provider = Provider(
    kind: Kind,
    apiKey: string,
    model: string,
    baseUrl: Option<string>,
    clientBaseUrl: Option<string>)

  /** The keyword arguments of a constructor call; `None` means "not passed". */
  datatype Kwargs = Kwargs(
    promptForKey: bool,
    apiKey: Option<string>,
    model: Option<string>,
    baseUrl: Option<string>)

  const XaiBaseUrl := "https://api.x.ai/v1"
  const OpenAIDefaultBaseUrl := "https://api.openai.com/v1"

  function DisplayName(kind: Kind): string {
    match kind
    case Anthropic => "Anthropic"
    case OpenAI => "OpenAI"
    case Grok => "Grok"
  }

  function DefaultModel(kind: Kind): string {
    match kind
    case Anthropic => "claude-sonnet-4-20250514"
    case OpenAI => "gpt-4o"
    case Grok => "grok-3"
  }

  function KeyVariable(kind: Kind): string {
    match kind
    case Anthropic => "ANTHROPIC_API_KEY"
    case OpenAI => "OPENAI_API_KEY"
    case Grok => "XAI_API_KEY"
  }

  /** The name `prompt_for_api_key` shows the user. */
  function PromptName(kind: Kind): string {
    match kind
    case Anthropic => "Anthropic"
    case OpenAI => "OpenAI"
    case Grok => "xAI (Grok)"
  }

  function MissingKeyMessage(kind: Kind): string {
    match kind
    case Anthropic => "Anthropic API key required. Either pass api_key parameter or set ANTHROPIC_API_KEY environment variable."
    case OpenAI => "OpenAI API key required. Either pass api_key parameter or set OPENAI_API_KEY environment variable."
    case Grok => "xAI API key required. Either pass api_key parameter or set XAI_API_KEY environment variable."
  }

  function MissingPackageMessage(kind: Kind): string {
    match kind
    case Anthropic => "anthropic package required. Install with: pip install anthropic"
    case OpenAI => "openai package required. Install with: pip install openai or pip install simpleaudit[openai]"
    case Grok => "openai package required for Grok provider. Install with: pip install openai or pip install simpleaudit[openai]"
  }

  /** `os.environ.get(name)`. */
  function EnvGet(host: Host, name: string): Option<string> {
    if name in host.env then Some(host.env[name]) else None
  }

  // ---------------------------------------------------------------------------
  // Key resolution

  /**
    `prompt_for_api_key`: a non-empty environment value is used as it is;
    otherwise the console line, stripped, unless it is blank.
   */
  function PromptForApiKey(providerName: string, envVar: string, host: Host): (r: Result<string>)
    ensures Truthy(EnvGet(host, envVar)) ==> r == Ok(host.env[envVar])
    ensures !Truthy(EnvGet(host, envVar)) && Strip(host.consoleInput) == [] ==>
      r == Err(ValueError(providerName + " API key is required."))
    ensures !Truthy(EnvGet(host, envVar)) && Strip(host.consoleInput) != [] ==> r == Ok(Strip(host.consoleInput))
    ensures r.Ok? ==> r.value != []
  {
    var fromEnv := EnvGet(host, envVar);
    if Truthy(fromEnv) then Ok(fromEnv.value)
    else if Strip(host.consoleInput) == [] then Err(ValueError(providerName + " API key is required."))
    else Ok(Strip(host.consoleInput))
  }

  /**
    The constructors' ladder: an explicit key, else the prompt when allowed,
    else the environment variable, which must then be set and non-empty.
   */
  function ResolveKey(kind: Kind, apiKey: Option<string>, promptForKey: bool, host: Host): (r: Result<string>)
    ensures Truthy(apiKey) ==> r == Ok(apiKey.value)
    ensures !Truthy(apiKey) && promptForKey ==> r == PromptForApiKey(PromptName(kind), KeyVariable(kind), host)
    ensures !Truthy(apiKey) && !promptForKey ==>
      (r.Ok? <==> Truthy(EnvGet(host, KeyVariable(kind))))
      && (r.Ok? ==> r.value == host.env[KeyVariable(kind)])
      && (r.Err? ==> r.error == ValueError(MissingKeyMessage(kind)))
    ensures r.Ok? ==> r.value != []
  {
    if Truthy(apiKey) then Ok(apiKey.value)
    else if promptForKey then PromptForApiKey(PromptName(kind), KeyVariable(kind), host)
    else
      var fromEnv := EnvGet(host, KeyVariable(kind));
      if Truthy(fromEnv) then Ok(fromEnv.value) else Err(ValueError(MissingKeyMessage(kind)))
  }

  /**
    A provider constructor called with `kw`. `AnthropicProvider` has no
    `base_url` parameter; the missing SDK package is reported before any key
    is looked up.
   */
  function Construct(kind: Kind, kw: Kwargs, host: Host): (r: Result<Provider>)
    ensures kind == Anthropic && kw.baseUrl.Some? ==> r.Err? && r.error.TypeError?
    ensures !(kind == Anthropic && kw.baseUrl.Some?) && !PackageInstalled(kind, host) ==>
      r == Err(ImportError(MissingPackageMessage(kind)))
    ensures r.Ok? ==> r.value.kind == kind && r.value.apiKey != []
    ensures r.Ok? ==> Ok(r.value.apiKey) == ResolveKey(kind, kw.apiKey, kw.promptForKey, host)
    ensures PackageInstalled(kind, host) && !(kind == Anthropic && kw.baseUrl.Some?) ==>
      && (r.Ok? <==> ResolveKey(kind, kw.apiKey, kw.promptForKey, host).Ok?)
      && (r.Err? ==> r.error == ResolveKey(kind, kw.apiKey, kw.promptForKey, host).error)
    ensures r.Ok? ==> r.value.model == kw.model.GetOr(DefaultModel(kind))
    ensures r.Ok? && kind == Grok ==>
      r.value.clientBaseUrl == Some(if Truthy(kw.baseUrl) then kw.baseUrl.value else XaiBaseUrl)
    ensures r.Ok? && kind == OpenAI ==>
      r.value.baseUrl == kw.baseUrl && r.value.clientBaseUrl == (if Truthy(kw.baseUrl) then kw.baseUrl else None)
  {
    if kind == Anthropic && kw.baseUrl.Some? then
      Err(TypeError("__init__() got an unexpected keyword argument 'base_url'"))
    else if !PackageInstalled(kind, host) then
      Err(ImportError(MissingPackageMessage(kind)))
    else
      var key :- ResolveKey(kind, kw.apiKey, kw.promptForKey, host);
      var model := kw.model.GetOr(DefaultModel(kind));
      match kind
      case Anthropic => Ok(Provider(Anthropic, key, model, None, None))
      case OpenAI =>
        Ok(Provider(OpenAI, key, model, kw.baseUrl, if Truthy(kw.baseUrl) then kw.baseUrl else None))
      case Grok =>
        Ok(Provider(Grok, key, model, None, Some(if Truthy(kw.baseUrl) then kw.baseUrl.value else XaiBaseUrl)))
  }

  predicate PackageInstalled(kind: Kind, host: Host) {
    if kind == Anthropic then host.anthropicInstalled else host.openaiInstalled
  }

  /** `OpenAIProvider.get_base_url()`; other providers have no such method. */
  function GetBaseUrl(p: Provider): (r: Result<string>)
    ensures p.kind != OpenAI <==> r.Err?
    ensures r.Ok? ==> r.value != []
    ensures r.Ok? && Truthy(p.baseUrl) ==> r.value == p.baseUrl.value
    ensures r.Ok? && !Truthy(p.baseUrl) ==> r.value == OpenAIDefaultBaseUrl
  {
    if p.kind != OpenAI then Err(AttributeError("get_base_url"))
    else if Truthy(p.baseUrl) then Ok(p.baseUrl.value)
    else Ok(OpenAIDefaultBaseUrl)
  }

  // ---------------------------------------------------------------------------
  // Registry and factory

  /** `PROVIDERS`, in insertion order. */
  const Registry: seq<(string, Kind)> := [
    ("anthropic", Anthropic), ("claude", Anthropic),
    ("openai", OpenAI), ("gpt", OpenAI),
    ("grok", Grok), ("xai", Grok)]

  function Aliases(): (names: seq<string>)
    ensures |names| == |Registry| && forall i :: 0 <= i < |Registry| ==> names[i] == Registry[i].0
  {
    seq(|Registry|, i requires 0 <= i < |Registry| => Registry[i].0)
  }

  /** `PROVIDERS.get(name)`. */
  function Lookup(name: string): (r: Option<Kind>)
    ensures r.Some? <==> name in Aliases()
    ensures r.Some? ==> (name, r.value) in Registry
  {
    LookupIn(Registry, name)
  }

  function LookupIn(entries: seq<(string, Kind)>, name: string): (r: Option<Kind>)
    ensures r.Some? ==> (name, r.value) in entries
    ensures r.None? ==> forall i :: 0 <= i < |entries| ==> entries[i].0 != name
  {
    if entries == [] then None
    else if entries[0].0 == name then Some(entries[0].1)
    else LookupIn(entries[1..], name)
  }

  /** `sorted(set(PROVIDERS.keys()))`: every alias once, in code-point order. */
  function SortedAliases(): (names: seq<string>)
    ensures SortedBy(names, (s: string) => s)
    ensures multiset(names) == multiset(Aliases())
  {
    SortBy(Aliases(), (s: string) => s)
  }

  /** `", ".join(sorted(set(PROVIDERS.keys())))`, written out: the aliases of `Registry` in code-point order. */
  const AvailableProviders := "anthropic, claude, gpt, grok, openai, xai"

  function UnknownProviderMessage(name: string): string {
    "Unknown provider: " + name + ". Available providers: " + AvailableProviders
  }

  /**
    The keyword arguments `get_provider` passes: `prompt_for_key` always,
    `api_key` and `model` only when truthy, `base_url` only to the
    OpenAI-compatible providers and only when truthy.
   */
  function ForwardedKwargs(kind: Kind, apiKey: Option<string>, model: Option<string>,
                           promptForKey: bool, baseUrl: Option<string>): (kw: Kwargs)
    ensures kw.promptForKey == promptForKey
    ensures kw.apiKey.Some? <==> Truthy(apiKey)
    ensures kw.model.Some? <==> Truthy(model)
    ensures kw.baseUrl.Some? <==> kind != Anthropic && Truthy(baseUrl)
    ensures kw.apiKey.Some? ==> kw.apiKey == apiKey
    ensures kw.model.Some? ==> kw.model == model
    ensures kw.baseUrl.Some? ==> kw.baseUrl == baseUrl
  {
    Kwargs(
      promptForKey,
      if Truthy(apiKey) then apiKey else None,
      if Truthy(model) then model else None,
      if kind != Anthropic && Truthy(baseUrl) then baseUrl else None)
  }

  /**
    `get_provider`: the name is lower-cased and looked up; an unknown name is a
    `ValueError` that lists the sorted aliases.
   */
  function GetProvider(name: string, apiKey: Option<string>, model: Option<string>,
                       promptForKey: bool, baseUrl: Option<string>, host: Host): (r: Result<Provider>)
    ensures Lower(name) !in Aliases() ==>
      r == Err(ValueError(UnknownProviderMessage(name)))
    ensures Lower(name) in Aliases() ==>
      r == Construct(Lookup(Lower(name)).value, ForwardedKwargs(Lookup(Lower(name)).value, apiKey, model, promptForKey, baseUrl), host)
  {
    match Lookup(Lower(name))
    case None => Err(ValueError(UnknownProviderMessage(name)))
    case Some(kind) => Construct(kind, ForwardedKwargs(kind, apiKey, model, promptForKey, baseUrl), host)
  }

  /** Each alias names the provider the registry pairs it with. */
  lemma AliasesResolve()
    ensures Lookup("anthropic") == Some(Anthropic) && Lookup("claude") == Some(Anthropic)
    ensures Lookup("openai") == Some(OpenAI) && Lookup("gpt") == Some(OpenAI)
    ensures Lookup("grok") == Some(Grok) && Lookup("xai") == Some(Grok)
  {
    assert Registry[0] == ("anthropic", Anthropic);
  }

  /** The lookup ignores ASCII case: a name and its lower-casing select the same provider. */
  lemma NameCaseIgnored(name: string, apiKey: Option<string>, model: Option<string>,
                        promptForKey: bool, baseUrl: Option<string>, host: Host)
    requires Lower(name) in Aliases()
    ensures GetProvider(name, apiKey, model, promptForKey, baseUrl, host)
      == GetProvider(Lower(name), apiKey, model, promptForKey, baseUrl, host)
  {
    LowerIdempotent(name);
  }

  /** A provider built by the factory always holds a non-empty key and its kind's default model unless one was given. */
  lemma FactoryDefaults(name: string, apiKey: Option<string>, promptForKey: bool,
                        baseUrl: Option<string>, host: Host)
    requires GetProvider(name, apiKey, None, promptForKey, baseUrl, host).Ok?
    ensures var p := GetProvider(name, apiKey, None, promptForKey, baseUrl, host).value;
      p.apiKey != [] && p.model == DefaultModel(p.kind)
  {
  }

  /** The base URL reaches only the OpenAI-compatible clients: Anthropic never sees one. */
  lemma BaseUrlNeverBreaksAnthropic(name: string, apiKey: Option<string>, model: Option<string>,
                                    promptForKey: bool, baseUrl: Option<string>, host: Host)
    requires Lookup(Lower(name)) == Some(Anthropic)
    ensures GetProvider(name, apiKey, model, promptForKey, baseUrl, host).Err? ==>
      !GetProvider(name, apiKey, model, promptForKey, baseUrl, host).error.TypeError?
  {
  }

  /** With no base URL, an OpenAI provider reports the public endpoint and a Grok client talks to xAI. */
  lemma DefaultBaseUrls(name: string, apiKey: Option<string>, model: Option<string>,
                        promptForKey: bool, host: Host)
    requires GetProvider(name, apiKey, model, promptForKey, None, host).Ok?
    ensures var p := GetProvider(name, apiKey, model, promptForKey, None, host).value;
      && (p.kind == OpenAI ==> GetBaseUrl(p) == Ok(OpenAIDefaultBaseUrl))
      && (p.kind == Grok ==> p.clientBaseUrl == Some(XaiBaseUrl))
  {
  }
}
