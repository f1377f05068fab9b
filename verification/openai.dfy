/** The OpenAI catalog: recognised names, usage conversion, the date-aware
    alias resolver and the closed price table. */
module OpenAI {
  import opened Wrappers
  import opened Types
  import Aliases

  /** The provider's raw usage record (`prompt_tokens`, `completion_tokens`). */
  datatype OpenAIUsage = OpenAIUsage(promptTokens: nat, completionTokens: nat)

  /** Every model name the catalog recognises, in declaration order. */
  const Models: seq<string> := [
    "gpt-3.5-turbo",
    "gpt-4",
    "gpt-4-32k",
    "gpt-3.5-turbo-16k",
    "gpt-4-turbo-preview",
    "gpt-4-turbo",
    "gpt-4o",
    "gpt-4o-mini",
    "o1-preview",
    "o1-mini",
    "chatgpt-4o-latest",
    "gpt-4o-2024-08-06",
    "gpt-4o-2024-05-13",
    "gpt-4o-mini-2024-07-18",
    "o1-preview-2024-09-12",
    "o1-mini-2024-09-12",
    "gpt-4-1106-preview",
    "gpt-4-0125-preview",
    "gpt-4-vision-preview",
    "gpt-4-turbo-2024-04-09",
    "gpt-4-0613",
    "gpt-4-0314",
    "gpt-4-32k-0314",
    "gpt-4-32k-0613",
    "gpt-3.5-turbo-0301",
    "gpt-3.5-turbo-0613",
    "gpt-3.5-turbo-1106",
    "gpt-3.5-turbo-0125",
    "gpt-3.5-turbo-instruct",
    "gpt-3.5-turbo-16k-0613",
    "davinci-002",
    "babbage-002"
  ]

  /** 2024-02-08T00:00:00Z */
  const Feb08Of2024: Timestamp := 1707350400000
  /** 2023-11-06T00:00:00Z; the source itself marks this cutover as unconfirmed. */
  const Nov06Of2023: Timestamp := 1699228800000
  /** 2023-06-27T00:00:00Z */
  const Jun27Of2023: Timestamp := 1687824000000

  /** Renames the raw fields; prompt caching is not reported, so both cache counters stay absent. */
  function ConvertUsage(usage: OpenAIUsage): (u: Usage)
    ensures UsageOf(u) == Some(usage)
  {
    Usage(Some(usage.promptTokens), Some(usage.completionTokens), None, None)
  }

  /** The raw record a normalised usage came from, if it has the shape `ConvertUsage` produces. */
  function UsageOf(u: Usage): Option<OpenAIUsage> {
    if u.inputTokens.Some? && u.outputTokens.Some? && u.cacheReadTokens.None? && u.cacheWriteTokens.None?
    then Some(OpenAIUsage(u.inputTokens.value, u.outputTokens.value))
    else None
  }

  /** The alias resolver: maps a generic name and a call date to a dated name. */
  function ResolveAlias(name: string, date: Timestamp): (r: string)
  {
    match name
    case "gpt-3.5-turbo" =>
      if IsAfter(date, Feb08Of2024) then "gpt-3.5-turbo-0125"
      else if IsAfter(date, Nov06Of2023) then "gpt-3.5-turbo-1106"
      else if IsAfter(date, Jun27Of2023) then "gpt-3.5-turbo-0613"
      else "gpt-3.5-turbo-0301"
    case "gpt-4" =>
      if IsAfter(date, Jun27Of2023) then "gpt-4-0314" else "gpt-4-0613"
    case "gpt-4-32k" =>
      if IsAfter(date, Jun27Of2023) then "gpt-4-32k-0613" else "gpt-4-32k-0314"
    case "gpt-3.5-turbo-16k" => "gpt-3.5-turbo-16k-0613"
    case "gpt-4-turbo-preview" => "gpt-4-0125-preview"
    case "gpt-4-turbo" => "gpt-4-turbo-2024-04-09"
    case "gpt-4o" => "gpt-4o-2024-05-13"
    case "gpt-4o-mini" => "gpt-4o-mini-2024-07-18"
    case "o1-preview" => "o1-preview-2024-09-12"
    case "o1-mini" => "o1-mini-2024-09-12"
    case _ => name
  }

  /** The price switch over resolved names; `None` is the `default` branch that throws. */
  function PriceOf(resolved: string): Option<ModelSpec>
  {
    match resolved
    case "chatgpt-4o-latest" => Some(Plain(5.0, 15.0))
    case "gpt-4o-2024-08-06" => Some(Plain(2.5, 10.0))
    case "gpt-4o-2024-05-13" => Some(Plain(5.0, 15.0))
    case "gpt-4o-mini-2024-07-18" => Some(Plain(0.15, 0.6))
    case "o1-preview-2024-09-12" => Some(Plain(15.0, 60.0))
    case "o1-mini-2024-09-12" => Some(Plain(3.0, 12.0))
    case "gpt-4-1106-preview" | "gpt-4-0125-preview" | "gpt-4-vision-preview" | "gpt-4-turbo-2024-04-09" =>
      Some(Plain(10.0, 30.0))
    case "gpt-4-0613" | "gpt-4-0314" => Some(Plain(30.0, 60.0))
    case "gpt-4-32k-0314" | "gpt-4-32k-0613" => Some(Plain(60.0, 120.0))
    case "gpt-3.5-turbo-0125" => Some(Plain(0.5, 1.5))
    case "gpt-3.5-turbo-instruct" => Some(Plain(1.5, 2.0))
    case "gpt-3.5-turbo-0613" | "gpt-3.5-turbo-0301" => Some(Plain(1.5, 2.0))
    case "gpt-3.5-turbo-1106" => Some(Plain(1.0, 2.0))
    case "gpt-3.5-turbo-16k-0613" => Some(Plain(3.0, 4.0))
    case "davinci-002" => Some(Plain(2.0, 2.0))
    case "babbage-002" => Some(Plain(0.4, 0.4))
    case _ => None
  }

  /** `getOpenAIModelSpec`: resolve the alias, then look the dated name up. */
  function GetModelSpec(name: string, date: Timestamp): (r: Result<ModelSpec, PricingError>)
  {
    match PriceOf(ResolveAlias(name, date))
    case Some(spec) => Success(spec)
    case None => Failure(UnknownModel("Unknown model name: " + name))
  }

  /** The alias histories the resolver encodes, as data. */
  const AliasTable: map<string, Aliases.Chain> := map[
    "gpt-3.5-turbo" := Aliases.Chain([
        Aliases.Cutover(Feb08Of2024, "gpt-3.5-turbo-0125"),
        Aliases.Cutover(Nov06Of2023, "gpt-3.5-turbo-1106"),
        Aliases.Cutover(Jun27Of2023, "gpt-3.5-turbo-0613")],
      "gpt-3.5-turbo-0301"),
    "gpt-4" := Aliases.Chain([Aliases.Cutover(Jun27Of2023, "gpt-4-0314")], "gpt-4-0613"),
    "gpt-4-32k" := Aliases.Chain([Aliases.Cutover(Jun27Of2023, "gpt-4-32k-0613")], "gpt-4-32k-0314"),
    "gpt-3.5-turbo-16k" := Aliases.Chain([], "gpt-3.5-turbo-16k-0613"),
    "gpt-4-turbo-preview" := Aliases.Chain([], "gpt-4-0125-preview"),
    "gpt-4-turbo" := Aliases.Chain([], "gpt-4-turbo-2024-04-09"),
    "gpt-4o" := Aliases.Chain([], "gpt-4o-2024-05-13"),
    "gpt-4o-mini" := Aliases.Chain([], "gpt-4o-mini-2024-07-18"),
    "o1-preview" := Aliases.Chain([], "o1-preview-2024-09-12"),
    "o1-mini" := Aliases.Chain([], "o1-mini-2024-09-12")
  ]

  /** The resolver agrees with the alias table at every name and date. */
  lemma ResolveAliasMatchesTable(name: string, date: Timestamp)
    ensures ResolveAlias(name, date) == Aliases.ResolveIn(AliasTable, name, date)
  {
    if name == "gpt-3.5-turbo" {
      var cs := AliasTable[name].cutovers;
      Aliases.ResolveStep(cs[0], cs[1..], "gpt-3.5-turbo-0301", date);
      Aliases.ResolveStep(cs[1], cs[2..], "gpt-3.5-turbo-0301", date);
      Aliases.ResolveStep(cs[2], [], "gpt-3.5-turbo-0301", date);
      assert [cs[0]] + cs[1..] == cs;
      assert [cs[1]] + cs[2..] == cs[1..];
      assert [cs[2]] + [] == cs[2..];
    } else if name == "gpt-4" || name == "gpt-4-32k" {
      var ch := AliasTable[name];
      Aliases.ResolveStep(ch.cutovers[0], [], ch.oldest, date);
      assert [ch.cutovers[0]] + [] == ch.cutovers;
    }
  }

  lemma AliasTableNewestFirst()
    ensures Aliases.ChainsNewestFirst(AliasTable)
  {
  }

  /** The resolver maps catalog names to catalog names. */
  lemma ResolveAliasStaysInCatalog(name: string, date: Timestamp)
    requires name in Models
    ensures ResolveAlias(name, date) in Models
  {
  }

  /** Names outside the catalog pass through the resolver unchanged. */
  lemma ResolveAliasOutsideCatalog(name: string, date: Timestamp)
    requires name !in Models
    ensures ResolveAlias(name, date) == name
  {
  }

  /** A resolved name is canonical: resolving it again, at any date, changes nothing. */
  lemma ResolveAliasIdempotent(name: string, d1: Timestamp, d2: Timestamp)
    ensures ResolveAlias(ResolveAlias(name, d1), d2) == ResolveAlias(name, d1)
  {
  }

  /** On a cutover date an alias still means the next older name; one millisecond later it means the newer one. */
  lemma ResolveAliasAtThreshold(alias: string, i: nat)
    requires alias in AliasTable
    requires i < |AliasTable[alias].cutovers|
    ensures var chain := AliasTable[alias];
            ResolveAlias(alias, chain.cutovers[i].after)
            == if i + 1 < |chain.cutovers| then chain.cutovers[i + 1].target else chain.oldest
    ensures ResolveAlias(alias, AliasTable[alias].cutovers[i].after + 1) == AliasTable[alias].cutovers[i].target
  {
    var chain := AliasTable[alias];
    AliasTableNewestFirst();
    ResolveAliasMatchesTable(alias, chain.cutovers[i].after);
    ResolveAliasMatchesTable(alias, chain.cutovers[i].after + 1);
    Aliases.ResolveOnThreshold(chain, i);
    Aliases.ResolveJustAfterThreshold(chain, i);
  }

  /** A later call date never selects an earlier entry of an alias's history. */
  lemma ResolveAliasMonotone(alias: string, d1: Timestamp, d2: Timestamp)
    requires alias in AliasTable
    requires d1 <= d2
    ensures ResolveAlias(alias, d1) == Aliases.Resolve(AliasTable[alias], d1)
    ensures ResolveAlias(alias, d2) == Aliases.Resolve(AliasTable[alias], d2)
    ensures Aliases.FirstPassed(AliasTable[alias].cutovers, d2) <= Aliases.FirstPassed(AliasTable[alias].cutovers, d1)
  {
    AliasTableNewestFirst();
    ResolveAliasMatchesTable(alias, d1);
    ResolveAliasMatchesTable(alias, d2);
    Aliases.FirstPassedMonotone(AliasTable[alias].cutovers, d1, d2);
  }

  /** `gpt-3.5-turbo` on and just after each of its three thresholds. */
  lemma Gpt35TurboThresholds()
    ensures ResolveAlias("gpt-3.5-turbo", Feb08Of2024) == "gpt-3.5-turbo-1106"
    ensures ResolveAlias("gpt-3.5-turbo", Feb08Of2024 + 1) == "gpt-3.5-turbo-0125"
    ensures ResolveAlias("gpt-3.5-turbo", Nov06Of2023) == "gpt-3.5-turbo-0613"
    ensures ResolveAlias("gpt-3.5-turbo", Nov06Of2023 + 1) == "gpt-3.5-turbo-1106"
    ensures ResolveAlias("gpt-3.5-turbo", Jun27Of2023) == "gpt-3.5-turbo-0301"
    ensures ResolveAlias("gpt-3.5-turbo", Jun27Of2023 + 1) == "gpt-3.5-turbo-0613"
  {
    ResolveAliasAtThreshold("gpt-3.5-turbo", 0);
    ResolveAliasAtThreshold("gpt-3.5-turbo", 1);
    ResolveAliasAtThreshold("gpt-3.5-turbo", 2);
  }

  /** After its cutover `gpt-4` resolves to the OLDER snapshot `gpt-4-0314`, while
      `gpt-4-32k` moves to the newer `gpt-4-32k-0613`. */
  lemma Gpt4AliasDirections(date: Timestamp)
    ensures IsAfter(date, Jun27Of2023) ==> ResolveAlias("gpt-4", date) == "gpt-4-0314"
    ensures !IsAfter(date, Jun27Of2023) ==> ResolveAlias("gpt-4", date) == "gpt-4-0613"
    ensures IsAfter(date, Jun27Of2023) ==> ResolveAlias("gpt-4-32k", date) == "gpt-4-32k-0613"
    ensures !IsAfter(date, Jun27Of2023) ==> ResolveAlias("gpt-4-32k", date) == "gpt-4-32k-0314"
  {
  }

  /** The seven single-target aliases ignore the date. */
  lemma FixedAliasesIgnoreDate(alias: string, d1: Timestamp, d2: Timestamp)
    requires alias in AliasTable && AliasTable[alias].cutovers == []
    ensures alias in {"gpt-3.5-turbo-16k", "gpt-4-turbo-preview", "gpt-4-turbo", "gpt-4o", "gpt-4o-mini", "o1-preview", "o1-mini"}
    ensures ResolveAlias(alias, d1) == ResolveAlias(alias, d2) == AliasTable[alias].oldest
  {
    ResolveAliasMatchesTable(alias, d1);
    ResolveAliasMatchesTable(alias, d2);
  }

  /** The price lookup succeeds exactly for catalog names: the `default` throw is
      unreachable from the catalog and reached by every other name. */
  lemma GetModelSpecSucceedsIffListed(name: string, date: Timestamp)
    ensures GetModelSpec(name, date).Success? <==> name in Models
  {
    if name in Models {
      ListedNamesPricedLow(date);
      ListedNamesPricedHigh(date);
      var i :| 0 <= i < |Models| && Models[i] == name;
    } else {
      ResolveAliasOutsideCatalog(name, date);
      PricedNamesListed(name);
    }
  }

  lemma ListedNamesPricedLow(date: Timestamp)
    ensures forall i | 0 <= i < 16 :: PriceOf(ResolveAlias(Models[i], date)).Some?
  {
  }

  lemma ListedNamesPricedHigh(date: Timestamp)
    ensures forall i | 16 <= i < 32 :: PriceOf(ResolveAlias(Models[i], date)).Some?
  {
  }

  /** Only catalog names have a price. */
  lemma PricedNamesListed(resolved: string)
    ensures PriceOf(resolved).Some? ==> resolved in Models
  {
  }

  /** Every OpenAI spec has positive input and output prices and no cache prices. */
  lemma GetModelSpecPrices(name: string, date: Timestamp)
    requires GetModelSpec(name, date).Success?
    ensures GetModelSpec(name, date).value.pricePerInputMegaToken > 0.0
    ensures GetModelSpec(name, date).value.pricePerOutputMegaToken > 0.0
    ensures HasNoCachePrices(GetModelSpec(name, date).value)
  {
  }

  /** `gpt-4o` at any date is priced as `gpt-4o-2024-05-13`: 5 in, 15 out. */
  lemma Gpt4oSpec(date: Timestamp)
    ensures GetModelSpec("gpt-4o", date) == GetModelSpec("gpt-4o-2024-05-13", date) == Success(Plain(5.0, 15.0))
  {
  }

  /** The four GPT-4 Turbo snapshots share one spec: 10 in, 30 out. */
  lemma Gpt4TurboFamilySpec(name: string, date: Timestamp)
    requires name in {"gpt-4-1106-preview", "gpt-4-0125-preview", "gpt-4-vision-preview", "gpt-4-turbo-2024-04-09"}
    ensures GetModelSpec(name, date) == Success(Plain(10.0, 30.0))
  {
  }

  /** The reversed `gpt-4` cutover does not change its price: both snapshots cost the same. */
  lemma Gpt4PriceIgnoresDate(d1: Timestamp, d2: Timestamp)
    ensures GetModelSpec("gpt-4", d1) == GetModelSpec("gpt-4", d2) == Success(Plain(30.0, 60.0))
    ensures GetModelSpec("gpt-4-32k", d1) == GetModelSpec("gpt-4-32k", d2) == Success(Plain(60.0, 120.0))
  {
  }
}
