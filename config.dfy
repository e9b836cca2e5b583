/** The tool's configuration (`Tools.Valves`): a plain immutable record whose
    defaults are the lists shipped with the tool. */
module Config {

  datatype Valves = Valves(
    maxSamples: int,
    augmentationTypes: seq<string>,
    roleplayScenarios: seq<string>,
    bypassKeywords: seq<string>,
    fallbackAugmentations: seq<string>)

  const DefaultAugmentationTypes: seq<string> := [
    "shuffle", "capitalize", "repeat", "hypothetical", "roleplay", "narrative",
    "fictional", "reverse", "question", "summarize", "contextualize", "metaphor",
    "academic", "technical", "creative", "historical", "sci-fi", "philosophical"]

  const DefaultRoleplayScenarios: seq<string> := [
    "educational", "business", "creative", "historical", "sci-fi", "fantasy",
    "technical", "philosophical", "legal", "medical"]

  const DefaultBypassKeywords: seq<string> := [
    "roleplay", "hypothetical", "fictional", "narrative", "explain", "describe",
    "discuss", "analyze", "summarize", "contextualize", "metaphor", "academic",
    "technical", "creative", "historical", "sci-fi", "philosophical"]

  const DefaultFallbackAugmentations: seq<string> := [
    "rephrase", "simplify", "expand", "add_context", "use_metaphor", "ask_as_question"]

  const DefaultValves: Valves := Valves(
    1000,
    DefaultAugmentationTypes,
    DefaultRoleplayScenarios,
    DefaultBypassKeywords,
    DefaultFallbackAugmentations)

  /** How many times `for _ in range(max_samples)` runs: none for a negative count. */
  function SampleCount(maxSamples: int): nat
  {
    if maxSamples > 0 then maxSamples else 0
  }
}
