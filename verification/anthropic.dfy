/** The Anthropic catalog: recognised names (plain, Bedrock and Vertex spellings),
    usage conversion, the date-independent alias resolver and the closed price table. */
module Anthropic {
  import opened Wrappers
  import opened Types
  import Aliases

  /** The provider's raw usage record (`input_tokens`, `cache_creation_input_tokens`,
      `cache_read_input_tokens`, `output_tokens`). */
  datatype AnthropicUsage = AnthropicUsage(
    inputTokens: nat,
    cacheCreationInputTokens: nat,
    cacheReadInputTokens: nat,
    outputTokens: nat)

  /** Every model name the catalog recognises, in declaration order. */
  const Models: seq<string> := [
    "claude-3-5-sonnet",
    "claude-3-sonnet",
    "claude-3-opus",
    "claude-3-haiku",
    "claude-2.1",
    "claude-2.0",
    "claude-instant-1.2",
    "claude-3-opus-20240229",
    "claude-3-5-sonnet-20240620",
    "claude-3-sonnet-20240229",
    "claude-3-haiku-20240307",
    "anthropic.claude-3-opus-20240229-v1:0",
    "anthropic.claude-3-5-sonnet-20240620-v1:0",
    "anthropic.claude-3-sonnet-20240229-v1:0",
    "anthropic.claude-3-haiku-20240307-v1:0",
    "claude-3-opus@20240229",
    "claude-3-5-sonnet@20240620",
    "claude-3-sonnet@20240229",
    "claude-3-haiku@20240307"
  ]

  /** Renames the four raw fields; cache creation is what the library calls a cache write. */
  function ConvertUsage(usage: AnthropicUsage): (u: Usage)
    ensures UsageOf(u) == Some(usage)
  {
    Usage(
      Some(usage.inputTokens),
      Some(usage.outputTokens),
      Some(usage.cacheReadInputTokens),
      Some(usage.cacheCreationInputTokens))
  }

  /** The raw record a normalised usage came from, if all four counters are present. */
  function UsageOf(u: Usage): Option<AnthropicUsage> {
    if u.inputTokens.Some? && u.outputTokens.Some? && u.cacheReadTokens.Some? && u.cacheWriteTokens.Some?
    then Some(AnthropicUsage(u.inputTokens.value, u.cacheWriteTokens.value, u.cacheReadTokens.value, u.outputTokens.value))
    else None
  }

  /** The alias resolver. It takes the call date but never consults it. */
  function ResolveAlias(name: string, date: Timestamp): (r: string)
  {
    match name
    case "claude-3-5-sonnet" => "claude-3-5-sonnet-20240620"
    case "claude-3-sonnet" => "claude-3-sonnet-20240229"
    case "claude-3-opus" => "claude-3-opus-20240229"
    case "claude-3-haiku" => "claude-3-haiku-20240307"
    case _ => name
  }

  /** The price switch over resolved names; `None` is the `default` branch that throws. */
  function PriceOf(resolved: string): Option<ModelSpec>
  {
    match resolved
    case "claude-3-opus-20240229" | "anthropic.claude-3-opus-20240229-v1:0" | "claude-3-opus@20240229" =>
      Some(Cached(15.0, 75.0, 1.5, 18.75))
    case "claude-3-5-sonnet-20240620" | "anthropic.claude-3-5-sonnet-20240620-v1:0" | "claude-3-5-sonnet@20240620" =>
      Some(Cached(3.0, 15.0, 0.3, 3.75))
    case "claude-3-sonnet-20240229" | "anthropic.claude-3-sonnet-20240229-v1:0" | "claude-3-sonnet@20240229" =>
      Some(Cached(3.0, 15.0, 0.3, 3.75))
    case "claude-3-haiku-20240307" | "anthropic.claude-3-haiku-20240307-v1:0" | "claude-3-haiku@20240307" =>
      Some(Cached(0.25, 1.25, 0.03, 0.3))
    case "claude-2.1" => Some(Plain(8.0, 24.0))
    case "claude-2.0" => Some(Plain(8.0, 24.0))
    case "claude-instant-1.2" => Some(Plain(0.8, 2.4))
    case _ => None
  }

  /** `getAnthropicModelSpec`: resolve the alias, then look the dated name up. */
  function GetModelSpec(name: string, date: Timestamp): (r: Result<ModelSpec, PricingError>)
  {
    match PriceOf(ResolveAlias(name, date))
    case Some(spec) => Success(spec)
    case None => Failure(UnknownModel("Unknown model: " + name))
  }

  /** The resolver ignores the date. */
  lemma ResolveAliasIgnoresDate(name: string, d1: Timestamp, d2: Timestamp)
    ensures ResolveAlias(name, d1) == ResolveAlias(name, d2)
  {
  }

  /** The resolver as data: each generic `claude-3*` name has a single dated target
      and no cutover. */
  const AliasTable: map<string, Aliases.Chain> := map[
    "claude-3-5-sonnet" := Aliases.Chain([], "claude-3-5-sonnet-20240620"),
    "claude-3-sonnet" := Aliases.Chain([], "claude-3-sonnet-20240229"),
    "claude-3-opus" := Aliases.Chain([], "claude-3-opus-20240229"),
    "claude-3-haiku" := Aliases.Chain([], "claude-3-haiku-20240307")
  ]

  /** The switch and the alias table agree at every name and date. */
  lemma ResolveAliasMatchesTable(name: string, date: Timestamp)
    ensures ResolveAlias(name, date) == Aliases.ResolveIn(AliasTable, name, date)
  {
  }

  /** Each of the four generic names resolves to its dated target, which the catalog
      lists; every other name, listed or not, maps to itself. */
  lemma ResolveAliasStaysInCatalog(name: string, date: Timestamp)
    ensures name in AliasTable ==> ResolveAlias(name, date) == AliasTable[name].oldest
    ensures name in AliasTable ==> AliasTable[name].oldest in Models
    ensures name !in AliasTable ==> ResolveAlias(name, date) == name
    ensures name in Models ==> ResolveAlias(name, date) in Models
  {
  }

  /** A resolved name is canonical: resolving it again changes nothing. */
  lemma ResolveAliasIdempotent(name: string, d1: Timestamp, d2: Timestamp)
    ensures ResolveAlias(ResolveAlias(name, d1), d2) == ResolveAlias(name, d1)
  {
  }

  /** The price lookup succeeds exactly for catalog names. */
  lemma GetModelSpecSucceedsIffListed(name: string, date: Timestamp)
    ensures GetModelSpec(name, date).Success? <==> name in Models
  {
  }

  /** The plain, Bedrock (`anthropic.…-v1:0`) and Vertex (`…@date`) spellings of Claude 3
      Opus, and its generic alias, are priced identically. */
  lemma OpusSpellingsAgree(date: Timestamp)
    ensures GetModelSpec("claude-3-opus", date) == GetModelSpec("claude-3-opus-20240229", date)
            == GetModelSpec("anthropic.claude-3-opus-20240229-v1:0", date) == GetModelSpec("claude-3-opus@20240229", date)
  {
  }

  /** Likewise for Claude 3.5 Sonnet. */
  lemma Sonnet35SpellingsAgree(date: Timestamp)
    ensures GetModelSpec("claude-3-5-sonnet", date) == GetModelSpec("claude-3-5-sonnet-20240620", date)
            == GetModelSpec("anthropic.claude-3-5-sonnet-20240620-v1:0", date) == GetModelSpec("claude-3-5-sonnet@20240620", date)
  {
  }

  /** Likewise for Claude 3 Sonnet. */
  lemma SonnetSpellingsAgree(date: Timestamp)
    ensures GetModelSpec("claude-3-sonnet", date) == GetModelSpec("claude-3-sonnet-20240229", date)
            == GetModelSpec("anthropic.claude-3-sonnet-20240229-v1:0", date) == GetModelSpec("claude-3-sonnet@20240229", date)
  {
  }

  /** Likewise for Claude 3 Haiku. */
  lemma HaikuSpellingsAgree(date: Timestamp)
    ensures GetModelSpec("claude-3-haiku", date) == GetModelSpec("claude-3-haiku-20240307", date)
            == GetModelSpec("anthropic.claude-3-haiku-20240307-v1:0", date) == GetModelSpec("claude-3-haiku@20240307", date)
  {
  }

  /** Claude 3 family specs define all four prices; the claude-2 and instant models define no cache prices. */
  lemma CachePricesByFamily(name: string, date: Timestamp)
    requires GetModelSpec(name, date).Success?
    ensures name in {"claude-2.1", "claude-2.0", "claude-instant-1.2"} ==> HasNoCachePrices(GetModelSpec(name, date).value)
    ensures name !in {"claude-2.1", "claude-2.0", "claude-instant-1.2"} ==> HasAllCachePrices(GetModelSpec(name, date).value)
  {
  }

  /** Every Anthropic spec has positive prices, cache prices included. */
  lemma GetModelSpecPrices(name: string, date: Timestamp)
    requires GetModelSpec(name, date).Success?
    ensures GetModelSpec(name, date).value.pricePerInputMegaToken > 0.0
    ensures GetModelSpec(name, date).value.pricePerOutputMegaToken > 0.0
    ensures GetModelSpec(name, date).value.pricePerCacheReadMegaToken.GetOr(1.0) > 0.0
    ensures GetModelSpec(name, date).value.pricePerCacheWriteMegaToken.GetOr(1.0) > 0.0
  {
  }

  /** Claude 3.5 Sonnet and Claude 3 Sonnet are priced alike: 3 in, 15 out, 0.3 cache read, 3.75 cache write. */
  lemma SonnetSpecsEqual(date: Timestamp)
    ensures GetModelSpec("claude-3-5-sonnet-20240620", date) == GetModelSpec("claude-3-sonnet-20240229", date)
            == Success(Cached(3.0, 15.0, 0.3, 3.75))
  {
  }
}
