/** The pricing engine (`calcPrice`), the combined name list (`MODELS`) and the
    dispatcher that routes a name to its provider's catalog (`getModelSpec`). */
module Utils {
  import opened Wrappers
  import opened Types
  import OpenAI
  import Google
  import Anthropic

  /** JavaScript truthiness of an optional token count: present and non-zero. */
  predicate Truthy(tokens: Option<nat>) {
    tokens.Some? && tokens.value != 0
  }

  /** One component of the pricing formula: `(tokens ?? 0) * (price ?? 0) / 1e6`.
      Prices are quoted per million tokens; the divisor is written as a literal
      throughout, which keeps the division linear for the verifier. */
  function Term(tokens: Option<nat>, price: Option<real>): real {
    (tokens.GetOr(0) as real) * price.GetOr(0.0) / 1000000.0
  }

  /** The pricing formula, summed over input, output, cache read and cache write. */
  function Formula(usage: Usage, spec: ModelSpec): real {
    Term(usage.inputTokens, Some(spec.pricePerInputMegaToken))
    + Term(usage.outputTokens, Some(spec.pricePerOutputMegaToken))
    + Term(usage.cacheReadTokens, spec.pricePerCacheReadMegaToken)
    + Term(usage.cacheWriteTokens, spec.pricePerCacheWriteMegaToken)
  }

  /** One component as the source prices it: only a defined price and a truthy
      count contribute. Input and output prices are always defined. */
  function Component(tokens: Option<nat>, price: Option<real>): real {
    if price.Some? && Truthy(tokens) then price.value * (tokens.value as real) / 1000000.0 else 0.0
  }

  /** `calcPrice`: the four components, added. */
  function CalcPrice(usage: Usage, spec: ModelSpec): (cost: real)
    ensures cost == Formula(usage, spec)
    ensures NonNegativePrices(spec) ==> cost >= 0.0
  {
    ComponentIsTerm(usage.inputTokens, Some(spec.pricePerInputMegaToken));
    ComponentIsTerm(usage.outputTokens, Some(spec.pricePerOutputMegaToken));
    ComponentIsTerm(usage.cacheReadTokens, spec.pricePerCacheReadMegaToken);
    ComponentIsTerm(usage.cacheWriteTokens, spec.pricePerCacheWriteMegaToken);
    Component(usage.inputTokens, Some(spec.pricePerInputMegaToken))
    + Component(usage.outputTokens, Some(spec.pricePerOutputMegaToken))
    + Component(usage.cacheReadTokens, spec.pricePerCacheReadMegaToken)
    + Component(usage.cacheWriteTokens, spec.pricePerCacheWriteMegaToken)
  }

  /** The truthiness tests change nothing: a component equals its formula term, and is
      non-negative for a non-negative price. */
  lemma ComponentIsTerm(tokens: Option<nat>, price: Option<real>)
    ensures Component(tokens, price) == Term(tokens, price)
    ensures price.GetOr(0.0) >= 0.0 ==> Term(tokens, price) >= 0.0
  {
    var t := tokens.GetOr(0) as real;
    var p := price.GetOr(0.0);
    assert t >= 0.0;
    if p >= 0.0 {
      assert t * p >= 0.0;
    }
  }

  /** Adds two optional counters; absent only when both are absent. */
  function AddCounts(a: Option<nat>, b: Option<nat>): Option<nat> {
    if a.None? && b.None? then None else Some(a.GetOr(0) + b.GetOr(0))
  }

  /** The usage of two calls together. */
  function AddUsage(u1: Usage, u2: Usage): Usage {
    Usage(
      AddCounts(u1.inputTokens, u2.inputTokens),
      AddCounts(u1.outputTokens, u2.outputTokens),
      AddCounts(u1.cacheReadTokens, u2.cacheReadTokens),
      AddCounts(u1.cacheWriteTokens, u2.cacheWriteTokens))
  }

  /** Every counter of `u1` is at most the corresponding counter of `u2`, absent counting as 0. */
  predicate UsageLe(u1: Usage, u2: Usage) {
    && u1.inputTokens.GetOr(0) <= u2.inputTokens.GetOr(0)
    && u1.outputTokens.GetOr(0) <= u2.outputTokens.GetOr(0)
    && u1.cacheReadTokens.GetOr(0) <= u2.cacheReadTokens.GetOr(0)
    && u1.cacheWriteTokens.GetOr(0) <= u2.cacheWriteTokens.GetOr(0)
  }

  /** A term is additive in its count. */
  lemma TermAdditive(a: Option<nat>, b: Option<nat>, price: Option<real>)
    ensures Term(AddCounts(a, b), price) == Term(a, price) + Term(b, price)
  {
    var x := a.GetOr(0) as real;
    var y := b.GetOr(0) as real;
    var p := price.GetOr(0.0);
    assert AddCounts(a, b).GetOr(0) as real == x + y;
    assert (x + y) * p == x * p + y * p;
  }

  /** With a non-negative price, a term grows with its count. */
  lemma TermMonotone(a: Option<nat>, b: Option<nat>, price: Option<real>)
    requires a.GetOr(0) <= b.GetOr(0)
    requires price.GetOr(0.0) >= 0.0
    ensures Term(a, price) <= Term(b, price)
  {
    var x := a.GetOr(0) as real;
    var y := b.GetOr(0) as real;
    var p := price.GetOr(0.0);
    assert x <= y;
    assert (y - x) * p >= 0.0;
    assert x * p <= y * p;
    assert x * p / 1000000.0 <= y * p / 1000000.0;
  }

  /** The cost of two calls' usage together is the sum of their costs. */
  lemma CalcPriceAdditive(u1: Usage, u2: Usage, spec: ModelSpec)
    ensures CalcPrice(AddUsage(u1, u2), spec) == CalcPrice(u1, spec) + CalcPrice(u2, spec)
  {
    TermAdditive(u1.inputTokens, u2.inputTokens, Some(spec.pricePerInputMegaToken));
    TermAdditive(u1.outputTokens, u2.outputTokens, Some(spec.pricePerOutputMegaToken));
    TermAdditive(u1.cacheReadTokens, u2.cacheReadTokens, spec.pricePerCacheReadMegaToken);
    TermAdditive(u1.cacheWriteTokens, u2.cacheWriteTokens, spec.pricePerCacheWriteMegaToken);
  }

  /** Usage whose counters are all absent or zero costs nothing. */
  lemma ZeroUsageIsFree(u: Usage, spec: ModelSpec)
    requires u.inputTokens.GetOr(0) == 0 && u.outputTokens.GetOr(0) == 0
    requires u.cacheReadTokens.GetOr(0) == 0 && u.cacheWriteTokens.GetOr(0) == 0
    ensures CalcPrice(u, spec) == 0.0
  {
  }

  /** With non-negative prices, using more tokens never costs less. */
  lemma CalcPriceMonotone(u1: Usage, u2: Usage, spec: ModelSpec)
    requires NonNegativePrices(spec)
    requires UsageLe(u1, u2)
    ensures CalcPrice(u1, spec) <= CalcPrice(u2, spec)
  {
    TermMonotone(u1.inputTokens, u2.inputTokens, Some(spec.pricePerInputMegaToken));
    TermMonotone(u1.outputTokens, u2.outputTokens, Some(spec.pricePerOutputMegaToken));
    TermMonotone(u1.cacheReadTokens, u2.cacheReadTokens, spec.pricePerCacheReadMegaToken);
    TermMonotone(u1.cacheWriteTokens, u2.cacheWriteTokens, spec.pricePerCacheWriteMegaToken);
  }

  /** With non-negative usage, dearer input and output prices never cost less
      (cache prices held equal). */
  lemma CalcPriceMonotoneInSpec(usage: Usage, s1: ModelSpec, s2: ModelSpec)
    requires s1.pricePerInputMegaToken <= s2.pricePerInputMegaToken
    requires s1.pricePerOutputMegaToken <= s2.pricePerOutputMegaToken
    requires s1.pricePerCacheReadMegaToken == s2.pricePerCacheReadMegaToken
    requires s1.pricePerCacheWriteMegaToken == s2.pricePerCacheWriteMegaToken
    ensures CalcPrice(usage, s1) <= CalcPrice(usage, s2)
  {
    TermPriceMonotone(usage.inputTokens, s1.pricePerInputMegaToken, s2.pricePerInputMegaToken);
    TermPriceMonotone(usage.outputTokens, s1.pricePerOutputMegaToken, s2.pricePerOutputMegaToken);
  }

  /** A term grows with its price. */
  lemma TermPriceMonotone(tokens: Option<nat>, p1: real, p2: real)
    requires p1 <= p2
    ensures Term(tokens, Some(p1)) <= Term(tokens, Some(p2))
  {
    var x := tokens.GetOr(0) as real;
    assert x >= 0.0;
    assert x * (p2 - p1) >= 0.0;
    assert x * p1 <= x * p2;
  }

  /** The cost in terms of the raw counts and prices, absent ones read as 0. */
  lemma CalcPriceOfCounts(usage: Usage, spec: ModelSpec)
    ensures CalcPrice(usage, spec)
            == (usage.inputTokens.GetOr(0) as real) * spec.pricePerInputMegaToken / 1000000.0
               + (usage.outputTokens.GetOr(0) as real) * spec.pricePerOutputMegaToken / 1000000.0
               + (usage.cacheReadTokens.GetOr(0) as real) * spec.pricePerCacheReadMegaToken.GetOr(0.0) / 1000000.0
               + (usage.cacheWriteTokens.GetOr(0) as real) * spec.pricePerCacheWriteMegaToken.GetOr(0.0) / 1000000.0
  {
    assert Term(usage.inputTokens, Some(spec.pricePerInputMegaToken))
           == (usage.inputTokens.GetOr(0) as real) * spec.pricePerInputMegaToken / 1000000.0;
    assert Term(usage.outputTokens, Some(spec.pricePerOutputMegaToken))
           == (usage.outputTokens.GetOr(0) as real) * spec.pricePerOutputMegaToken / 1000000.0;
  }

  /** A usage with no cache counters costs its input and output counts at their prices. */
  lemma CalcPriceWithoutCache(input: nat, output: nat, spec: ModelSpec)
    ensures CalcPrice(Usage(Some(input), Some(output), None, None), spec)
            == (input as real) * spec.pricePerInputMegaToken / 1000000.0
               + (output as real) * spec.pricePerOutputMegaToken / 1000000.0
  {
    var u := Usage(Some(input), Some(output), None, None);
    assert Term(u.cacheReadTokens, spec.pricePerCacheReadMegaToken) == 0.0 by {
      assert u.cacheReadTokens.GetOr(0) as real == 0.0;
    }
    assert Term(u.cacheWriteTokens, spec.pricePerCacheWriteMegaToken) == 0.0 by {
      assert u.cacheWriteTokens.GetOr(0) as real == 0.0;
    }
    assert Term(u.inputTokens, Some(spec.pricePerInputMegaToken))
           == (input as real) * spec.pricePerInputMegaToken / 1000000.0;
    assert Term(u.outputTokens, Some(spec.pricePerOutputMegaToken))
           == (output as real) * spec.pricePerOutputMegaToken / 1000000.0;
  }

  /** A usage with all four counters present costs each at its price; an absent cache price costs nothing. */
  lemma CalcPriceWithCache(input: nat, output: nat, read: nat, write: nat, spec: ModelSpec)
    ensures CalcPrice(Usage(Some(input), Some(output), Some(read), Some(write)), spec)
            == (input as real) * spec.pricePerInputMegaToken / 1000000.0
               + (output as real) * spec.pricePerOutputMegaToken / 1000000.0
               + (read as real) * spec.pricePerCacheReadMegaToken.GetOr(0.0) / 1000000.0
               + (write as real) * spec.pricePerCacheWriteMegaToken.GetOr(0.0) / 1000000.0
  {
    CalcPriceOfCounts(Usage(Some(input), Some(output), Some(read), Some(write)), spec);
  }

  /** A zero counter contributes exactly what an absent one does: nothing. */
  lemma ZeroCountersContributeNothing(usage: Usage, spec: ModelSpec)
    ensures usage.inputTokens == Some(0) ==> CalcPrice(usage, spec) == CalcPrice(usage.(inputTokens := None), spec)
    ensures usage.outputTokens == Some(0) ==> CalcPrice(usage, spec) == CalcPrice(usage.(outputTokens := None), spec)
    ensures usage.cacheReadTokens == Some(0) ==> CalcPrice(usage, spec) == CalcPrice(usage.(cacheReadTokens := None), spec)
    ensures usage.cacheWriteTokens == Some(0) ==> CalcPrice(usage, spec) == CalcPrice(usage.(cacheWriteTokens := None), spec)
  {
  }

  /** A cache component the spec has no price for contributes nothing, whatever the usage. */
  lemma UnpricedCacheIgnored(usage: Usage, spec: ModelSpec)
    ensures spec.pricePerCacheReadMegaToken.None? ==>
              CalcPrice(usage, spec) == CalcPrice(usage.(cacheReadTokens := None), spec)
    ensures spec.pricePerCacheWriteMegaToken.None? ==>
              CalcPrice(usage, spec) == CalcPrice(usage.(cacheWriteTokens := None), spec)
  {
  }

  /** The cost is affine in each counter: setting a counter to `t` adds exactly
      `t` times that component's price per million (0 for an undefined cache price)
      to the cost without it. */
  lemma CalcPriceLinearInEachCounter(usage: Usage, spec: ModelSpec, t: nat)
    ensures CalcPrice(usage.(inputTokens := Some(t)), spec)
            == CalcPrice(usage.(inputTokens := None), spec) + (t as real) * spec.pricePerInputMegaToken / 1000000.0
    ensures CalcPrice(usage.(outputTokens := Some(t)), spec)
            == CalcPrice(usage.(outputTokens := None), spec) + (t as real) * spec.pricePerOutputMegaToken / 1000000.0
    ensures CalcPrice(usage.(cacheReadTokens := Some(t)), spec)
            == CalcPrice(usage.(cacheReadTokens := None), spec) + (t as real) * spec.pricePerCacheReadMegaToken.GetOr(0.0) / 1000000.0
    ensures CalcPrice(usage.(cacheWriteTokens := Some(t)), spec)
            == CalcPrice(usage.(cacheWriteTokens := None), spec) + (t as real) * spec.pricePerCacheWriteMegaToken.GetOr(0.0) / 1000000.0
  {
  }

  /** `MODELS`: the three catalogs' names, OpenAI then Google then Anthropic. */
  const Models: seq<string> := OpenAI.Models + Google.Models + Anthropic.Models

  /** The three providers a name can belong to. */
  datatype Provider = OpenAIProvider | GoogleProvider | AnthropicProvider

  /** The provider whose catalog lists `name`, checked in the dispatcher's order. */
  function Owner(name: string): (p: Option<Provider>)
    ensures p == Some(OpenAIProvider) <==> name in OpenAI.Models
    ensures p == Some(GoogleProvider) <==> name in Google.Models
    ensures p == Some(AnthropicProvider) <==> name in Anthropic.Models
    ensures p.None? <==> name !in Models
  {
    CatalogsDisjoint();
    if name in OpenAI.Models then Some(OpenAIProvider)
    else if name in Google.Models then Some(GoogleProvider)
    else if name in Anthropic.Models then Some(AnthropicProvider)
    else None
  }

  /** `getModelSpec`: route the name by catalog membership, in the order OpenAI, Google,
      Anthropic; only the Google lookup receives the usage. */
  function GetModelSpec(name: string, date: Timestamp, usage: Usage): (r: Result<ModelSpec, PricingError>)
  {
    if name in OpenAI.Models then OpenAI.GetModelSpec(name, date)
    else if name in Google.Models then Google.GetModelSpec(name, date, usage)
    else if name in Anthropic.Models then Anthropic.GetModelSpec(name, date)
    else Failure(UnknownModel("Unknown model: " + name))
  }

  /** OpenAI names begin "gp(t-)", "o(1-)", "ch(atgpt-)", "d(avinci-)" or "b(abbage-)". */
  predicate OpenAIShaped(name: string) {
    |name| > 1
    && ((name[0] == 'g' && name[1] == 'p') || name[0] == 'o' || (name[0] == 'c' && name[1] == 'h')
        || name[0] == 'd' || name[0] == 'b')
  }

  /** Google names begin "ge(mini-)". */
  predicate GoogleShaped(name: string) {
    |name| > 1 && name[0] == 'g' && name[1] == 'e'
  }

  /** Anthropic names begin "a(nthropic.)" or "cl(aude-)". */
  predicate AnthropicShaped(name: string) {
    |name| > 1 && (name[0] == 'a' || (name[0] == 'c' && name[1] == 'l'))
  }

  // The shape lemmas quantify over indices: that costs the solver far less than
  // quantifying over membership in the literal lists.

  lemma OpenAINamesShapedLow()
    ensures forall i | 0 <= i < 16 :: OpenAIShaped(OpenAI.Models[i])
  {
  }

  lemma OpenAINamesShapedHigh()
    ensures forall i | 16 <= i < 32 :: OpenAIShaped(OpenAI.Models[i])
  {
  }

  lemma OpenAINamesShaped()
    ensures forall name | name in OpenAI.Models :: OpenAIShaped(name)
  {
    OpenAINamesShapedLow();
    OpenAINamesShapedHigh();
  }

  lemma GoogleNamesShaped()
    ensures forall name | name in Google.Models :: GoogleShaped(name)
  {
    assert forall i | 0 <= i < |Google.Models| :: GoogleShaped(Google.Models[i]);
  }

  lemma AnthropicNamesShapedLow()
    ensures forall i | 0 <= i < 10 :: AnthropicShaped(Anthropic.Models[i])
  {
  }

  lemma AnthropicNamesShapedHigh()
    ensures forall i | 10 <= i < 19 :: AnthropicShaped(Anthropic.Models[i])
  {
  }

  lemma AnthropicNamesShaped()
    ensures forall name | name in Anthropic.Models :: AnthropicShaped(name)
  {
    AnthropicNamesShapedLow();
    AnthropicNamesShapedHigh();
  }

  /** No name is listed by two providers. */
  lemma CatalogsDisjoint()
    ensures forall name | name in OpenAI.Models :: name !in Google.Models
    ensures forall name | name in OpenAI.Models :: name !in Anthropic.Models
    ensures forall name | name in Google.Models :: name !in Anthropic.Models
  {
    OpenAINamesShaped();
    GoogleNamesShaped();
    AnthropicNamesShaped();
  }

  /** `MODELS` lists 59 names: the 32 OpenAI names, then the 8 Google names, then the 19
      Anthropic names; a name is in it exactly when one provider owns it. */
  lemma ModelsShape(name: string)
    ensures |Models| == 59
    ensures Models[..32] == OpenAI.Models
    ensures Models[32..40] == Google.Models
    ensures Models[40..] == Anthropic.Models
    ensures name in Models <==> Owner(name).Some?
  {
  }

  /** The dispatcher returns exactly the owning catalog's lookup, and fails with
      "Unknown model" for a name no catalog lists. */
  lemma GetModelSpecRoutesToOwner(name: string, date: Timestamp, usage: Usage)
    ensures Owner(name) == Some(OpenAIProvider) ==> GetModelSpec(name, date, usage) == OpenAI.GetModelSpec(name, date)
    ensures Owner(name) == Some(GoogleProvider) ==> GetModelSpec(name, date, usage) == Google.GetModelSpec(name, date, usage)
    ensures Owner(name) == Some(AnthropicProvider) ==> GetModelSpec(name, date, usage) == Anthropic.GetModelSpec(name, date)
    ensures Owner(name).None? ==> GetModelSpec(name, date, usage) == Failure(UnknownModel("Unknown model: " + name))
  {
  }

  /** Only the Google branch looks at the usage. */
  lemma GetModelSpecUsageOnlyForGoogle(name: string, date: Timestamp, u1: Usage, u2: Usage)
    requires Owner(name) != Some(GoogleProvider)
    ensures GetModelSpec(name, date, u1) == GetModelSpec(name, date, u2)
  {
  }

  /** The dispatcher succeeds exactly for the listed names other than `gemini-1.0-flash`. */
  lemma GetModelSpecSucceedsIff(name: string, date: Timestamp, usage: Usage)
    ensures GetModelSpec(name, date, usage).Success? <==> name in Models && name != "gemini-1.0-flash"
  {
    assert "gemini-1.0-flash" == Google.Models[3];
    CatalogsDisjoint();
    match Owner(name)
    case Some(OpenAIProvider) =>
      OpenAI.GetModelSpecSucceedsIffListed(name, date);
    case Some(GoogleProvider) =>
      Google.GetModelSpecSucceedsIffPriced(name, date, usage);
    case Some(AnthropicProvider) =>
      Anthropic.GetModelSpecSucceedsIffListed(name, date);
    case None =>
  }

  /** Every spec the dispatcher returns has non-negative prices. */
  lemma GetModelSpecNonNegative(name: string, date: Timestamp, usage: Usage)
    requires GetModelSpec(name, date, usage).Success?
    ensures NonNegativePrices(GetModelSpec(name, date, usage).value)
  {
    if name in OpenAI.Models {
      OpenAI.GetModelSpecPrices(name, date);
    } else if name in Google.Models {
      Google.GetModelSpecPrices(name, date, usage);
    } else {
      Anthropic.GetModelSpecPrices(name, date);
    }
  }

  /** Every name no catalog lists fails with "Unknown model: " and the name. */
  lemma UnknownNameFails(name: string, date: Timestamp, usage: Usage)
    requires name !in Models
    ensures GetModelSpec(name, date, usage) == Failure(UnknownModel("Unknown model: " + name))
  {
    GetModelSpecRoutesToOwner(name, date, usage);
  }

  /** A name of none of the three shapes is in no catalog. */
  lemma UnlistedShape(name: string)
    requires !OpenAIShaped(name) && !GoogleShaped(name) && !AnthropicShaped(name)
    ensures name !in OpenAI.Models && name !in Google.Models && name !in Anthropic.Models
  {
    OpenAINamesShaped();
    GoogleNamesShaped();
    AnthropicNamesShaped();
  }
}
