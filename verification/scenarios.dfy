/**
  The scenario-pack registry of simpleaudit/scenarios/__init__.py. The packs'
  contents are data the model does not fix: a `Catalogue` carries the four
  built-in lists, and every operation is stated for any catalogue.
 */
module Scenarios {
  import opened Common
  import opened Text

  /** A scenario dictionary: field name to text ("name", "description", ...). */
  type Scenario = map<string, string>

  datatype Catalogue = Catalogue(
    safety: seq<Scenario>,
    rag: seq<Scenario>,
    health: seq<Scenario>,
    systemPrompt: seq<Scenario>)

  /** The registry's keys in their insertion order. */
  const PackNames: seq<string> := ["safety", "rag", "health", "system_prompt", "all"]

  /** `SCENARIO_PACKS`: the four packs and their concatenation under "all". */
  function Packs(c: Catalogue): (packs: map<string, seq<Scenario>>)
    ensures packs.Keys == set name | name in PackNames
  {
    map[
      "safety" := c.safety,
      "rag" := c.rag,
      "health" := c.health,
      "system_prompt" := c.systemPrompt,
      "all" := c.safety + c.rag + c.health + c.systemPrompt]
  }

  const UnknownPackPrefix := "Unknown scenario pack '"
  const AvailableList := "'. Available: "

  /**
    `get_scenarios(pack_name)`: the registered list, looked up case-sensitively;
    an unknown name is a `ValueError` quoting the name and the registry's keys.
   */
  function GetScenarios(c: Catalogue, name: string): (r: Result<seq<Scenario>>)
    ensures name in PackNames <==> r.Ok?
    ensures r.Ok? ==> r.value == Packs(c)[name]
    ensures r.Err? ==> r.error == ValueError(UnknownPackPrefix + name + AvailableList + Join(", ", PackNames))
  {
    if name in Packs(c) then Ok(Packs(c)[name])
    else Err(ValueError(UnknownPackPrefix + name + AvailableList + Join(", ", PackNames)))
  }

  /** `list_scenario_packs()`: every registered name with the size of its list. */
  function ListScenarioPacks(c: Catalogue): (counts: map<string, nat>)
    ensures counts.Keys == Packs(c).Keys
    ensures forall name :: name in counts ==> counts[name] == |Packs(c)[name]|
  {
    map name | name in Packs(c) :: |Packs(c)[name]|
  }

  /** "all" is the four packs back to back, in registry order. */
  lemma AllPackIsConcatenation(c: Catalogue)
    ensures GetScenarios(c, "all") == Ok(c.safety + c.rag + c.health + c.systemPrompt)
  {
  }

  /** The size of "all" is the sum of the other four. */
  lemma AllCountIsSum(c: Catalogue)
    ensures var counts := ListScenarioPacks(c);
      counts["all"] == counts["safety"] + counts["rag"] + counts["health"] + counts["system_prompt"]
  {
  }

  /** The lookup does not fold case: "Safety" is not a pack. */
  lemma LookupIsCaseSensitive(c: Catalogue)
    ensures GetScenarios(c, "Safety").Err? && GetScenarios(c, "ALL").Err?
  {
  }

  /** The `scenarios` argument of both auditors' `run`: a pack name or a list of scenario dictionaries. */
  datatype ScenarioSource = PackName(pack: string) | Custom(scenarios: seq<Scenario>)

  function ScenarioList(source: ScenarioSource, catalogue: Catalogue): (r: Result<seq<Scenario>>)
    ensures source.Custom? ==> r == Ok(source.scenarios)
    ensures source.PackName? ==> r == GetScenarios(catalogue, source.pack)
  {
    match source
    case PackName(pack) => GetScenarios(catalogue, pack)
    case Custom(scenarios) => Ok(scenarios)
  }
}
