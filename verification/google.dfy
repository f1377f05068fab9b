/** The Google catalog: recognised Gemini names, usage conversion, the
    2024-10-01 alias cutover and the price table with its 128k-token tier split. */
module Google {
  import opened Wrappers
  import opened Types
  import Aliases

  /** The provider's raw usage record (`prompt_token_count`, `candidates_token_count`). */
  datatype GoogleUsage = GoogleUsage(promptTokenCount: nat, candidatesTokenCount: nat)

  /** Every model name the catalog recognises, in declaration order. */
  const Models: seq<string> := [
    "gemini-1.5-pro",
    "gemini-1.5-flash",
    "gemini-1.0-pro",
    "gemini-1.0-flash",
    "gemini-1.5-pro-001",
    "gemini-1.5-flash-001",
    "gemini-1.5-pro-002",
    "gemini-1.5-flash-002"
  ]

  /** 2024-10-01T00:00:00Z, when the generic 1.5 names moved to the -002 models. */
  const Oct01Of2024: Timestamp := 1727740800000

  /** Input-token count up to which the lower price tier applies. */
  const TierLimit: nat := 128000

  /** Renames the raw fields; both cache counters stay absent. */
  function ConvertUsage(usage: GoogleUsage): (u: Usage)
    ensures UsageOf(u) == Some(usage)
  {
    Usage(Some(usage.promptTokenCount), Some(usage.candidatesTokenCount), None, None)
  }

  /** The raw record a normalised usage came from, if it has the shape `ConvertUsage` produces. */
  function UsageOf(u: Usage): Option<GoogleUsage> {
    if u.inputTokens.Some? && u.outputTokens.Some? && u.cacheReadTokens.None? && u.cacheWriteTokens.None?
    then Some(GoogleUsage(u.inputTokens.value, u.outputTokens.value))
    else None
  }

  /** The alias resolver: the generic 1.5 names pick -002 strictly after the cutover, -001 otherwise. */
  function ResolveAlias(name: string, date: Timestamp): (r: string)
  {
    match name
    case "gemini-1.5-pro" =>
      if IsAfter(date, Oct01Of2024) then "gemini-1.5-pro-002" else "gemini-1.5-pro-001"
    case "gemini-1.5-flash" =>
      if IsAfter(date, Oct01Of2024) then "gemini-1.5-flash-002" else "gemini-1.5-flash-001"
    case _ => name
  }

  /** The alias histories the resolver encodes, as data. */
  const AliasTable: map<string, Aliases.Chain> := map[
    "gemini-1.5-pro" := Aliases.Chain([Aliases.Cutover(Oct01Of2024, "gemini-1.5-pro-002")], "gemini-1.5-pro-001"),
    "gemini-1.5-flash" := Aliases.Chain([Aliases.Cutover(Oct01Of2024, "gemini-1.5-flash-002")], "gemini-1.5-flash-001")
  ]

  /** The source's `isMinimum128k`: a falsy (absent or zero) input count, or one of at most 128000. */
  function IsMinimum128k(usage: Usage): (low: bool)
  {
    usage.inputTokens.None? || usage.inputTokens.value == 0 || usage.inputTokens.value <= TierLimit
  }

  /** The price switch over resolved names, with the tier chosen by `low`; `None` is the throwing `default`. */
  function PriceOf(resolved: string, low: bool): Option<ModelSpec>
  {
    match resolved
    case "gemini-1.5-pro-002" => if low then Some(Plain(1.25, 2.5)) else Some(Plain(5.0, 10.0))
    case "gemini-1.5-flash-002" => if low then Some(Plain(0.01875, 0.075)) else Some(Plain(0.0375, 0.15))
    case "gemini-1.5-pro-001" => if low then Some(Plain(3.5, 10.5)) else Some(Plain(7.0, 21.0))
    case "gemini-1.5-flash-001" => if low then Some(Plain(0.01875, 0.075)) else Some(Plain(0.0375, 0.15))
    case "gemini-1.0-pro" => Some(Plain(0.125, 0.375))
    case _ => None
  }

  /** `getGoogleModelSpec`: resolve the alias, pick the tier from the usage, look the name up. */
  function GetModelSpec(name: string, date: Timestamp, usage: Usage): (r: Result<ModelSpec, PricingError>)
  {
    match PriceOf(ResolveAlias(name, date), IsMinimum128k(usage))
    case Some(spec) => Success(spec)
    case None => Failure(UnknownModel("Unknown model name: " + name))
  }

  /** The resolver agrees with the alias table at every name and date. */
  lemma ResolveAliasMatchesTable(name: string, date: Timestamp)
    ensures ResolveAlias(name, date) == Aliases.ResolveIn(AliasTable, name, date)
  {
    if name in AliasTable {
      var ch := AliasTable[name];
      Aliases.ResolveStep(ch.cutovers[0], [], ch.oldest, date);
      assert [ch.cutovers[0]] + [] == ch.cutovers;
    }
  }

  /** On 2024-10-01 itself the generic names still mean -001; one millisecond later, -002. */
  lemma CutoverIsStrict(alias: string)
    requires alias in AliasTable
    ensures ResolveAlias(alias, Oct01Of2024) == AliasTable[alias].oldest
    ensures ResolveAlias(alias, Oct01Of2024 + 1) == AliasTable[alias].cutovers[0].target
  {
    var chain := AliasTable[alias];
    ResolveAliasMatchesTable(alias, Oct01Of2024);
    ResolveAliasMatchesTable(alias, Oct01Of2024 + 1);
    Aliases.ResolveOnThreshold(chain, 0);
    Aliases.ResolveJustAfterThreshold(chain, 0);
  }

  /** The resolver maps catalog names to catalog names. */
  lemma ResolveAliasStaysInCatalog(name: string, date: Timestamp)
    requires name in Models
    ensures ResolveAlias(name, date) in Models
  {
  }

  /** A resolved name is canonical: resolving it again, at any date, changes nothing. */
  lemma ResolveAliasIdempotent(name: string, d1: Timestamp, d2: Timestamp)
    ensures ResolveAlias(ResolveAlias(name, d1), d2) == ResolveAlias(name, d1)
  {
  }

  /** The low tier applies exactly when the input count is absent or at most 128000. */
  lemma LowTierIff(usage: Usage)
    ensures IsMinimum128k(usage) <==> usage.inputTokens.GetOr(0) <= TierLimit
  {
  }

  /** The tier boundary: 128000 input tokens is still the low tier, 128001 is not. */
  lemma TierBoundary(usage: Usage)
    ensures usage.inputTokens == Some(128000) ==> IsMinimum128k(usage)
    ensures usage.inputTokens == Some(128001) ==> !IsMinimum128k(usage)
  {
  }

  /** The lookup succeeds for every catalog name except `gemini-1.0-flash`, which is
      listed but has no price entry, and fails for every name outside the catalog. */
  lemma GetModelSpecSucceedsIffPriced(name: string, date: Timestamp, usage: Usage)
    ensures GetModelSpec(name, date, usage).Success? <==> name in Models && name != "gemini-1.0-flash"
  {
  }

  /** `gemini-1.0-flash` always fails, with the source's message. */
  lemma Gemini10FlashUnpriced(date: Timestamp, usage: Usage)
    ensures GetModelSpec("gemini-1.0-flash", date, usage) == Failure(UnknownModel("Unknown model name: " + "gemini-1.0-flash"))
  {
  }

  /** No Google spec defines cache prices, and every price is positive. */
  lemma GetModelSpecPrices(name: string, date: Timestamp, usage: Usage)
    requires GetModelSpec(name, date, usage).Success?
    ensures HasNoCachePrices(GetModelSpec(name, date, usage).value)
    ensures GetModelSpec(name, date, usage).value.pricePerInputMegaToken > 0.0
    ensures GetModelSpec(name, date, usage).value.pricePerOutputMegaToken > 0.0
  {
  }

  /** Moving to the high tier never lowers a price: for a fixed name and date the
      spec is monotone in the input-token count. */
  lemma SpecMonotoneInInputTokens(name: string, date: Timestamp, u1: Usage, u2: Usage)
    requires u1.inputTokens.GetOr(0) <= u2.inputTokens.GetOr(0)
    requires GetModelSpec(name, date, u1).Success?
    ensures GetModelSpec(name, date, u2).Success?
    ensures GetModelSpec(name, date, u1).value.pricePerInputMegaToken <= GetModelSpec(name, date, u2).value.pricePerInputMegaToken
    ensures GetModelSpec(name, date, u1).value.pricePerOutputMegaToken <= GetModelSpec(name, date, u2).value.pricePerOutputMegaToken
  {
    LowTierIff(u1);
    LowTierIff(u2);
  }

  /** `gemini-1.0-pro` is untiered and undated: 0.125 in, 0.375 out. */
  lemma Gemini10ProSpec(date: Timestamp, usage: Usage)
    ensures GetModelSpec("gemini-1.0-pro", date, usage) == Success(Plain(0.125, 0.375))
  {
  }

  /** `gemini-1.5-pro` after the cutover with 200000 input tokens is the high tier of -002: 5 in, 10 out. */
  lemma Gemini15ProLongContext(date: Timestamp, usage: Usage)
    requires IsAfter(date, Oct01Of2024)
    requires usage.inputTokens == Some(200000)
    ensures GetModelSpec("gemini-1.5-pro", date, usage) == Success(Plain(5.0, 10.0))
  {
  }
}
