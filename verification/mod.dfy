/** The library's per-provider entry points: convert the raw usage, look the spec
    up, price the usage. A failed lookup propagates as the call's failure. */
module LlmPricing {
  import opened Wrappers
  import opened Types
  import OpenAI
  import Google
  import Anthropic
  import Utils

  /** Prices `usage` against a lookup's spec, or passes the lookup's failure on. */
  function PriceWith(usage: Usage, lookup: Result<ModelSpec, PricingError>): (r: Result<real, PricingError>)
  {
    var spec :- lookup;
    Success(Utils.CalcPrice(usage, spec))
  }

  /** The priced result fails exactly when the lookup does, with its error, and is
      otherwise the cost of the usage at the looked-up spec. */
  lemma PriceWithPropagates(usage: Usage, lookup: Result<ModelSpec, PricingError>)
    ensures PriceWith(usage, lookup).Success? <==> lookup.Success?
    ensures lookup.Failure? ==> PriceWith(usage, lookup) == Failure(lookup.error)
    ensures lookup.Success? ==> PriceWith(usage, lookup) == Success(Utils.CalcPrice(usage, lookup.value))
  {
  }

  /** `calcOpenAIPrice` */
  function CalcOpenAIPrice(name: string, date: Timestamp, usage: OpenAI.OpenAIUsage): (r: Result<real, PricingError>)
  {
    PriceWith(OpenAI.ConvertUsage(usage), OpenAI.GetModelSpec(name, date))
  }

  /** `calcGooglePrice`: the spec lookup receives the converted usage, so the tier follows `prompt_token_count`. */
  function CalcGooglePrice(name: string, date: Timestamp, usage: Google.GoogleUsage): (r: Result<real, PricingError>)
  {
    var normalised := Google.ConvertUsage(usage);
    PriceWith(normalised, Google.GetModelSpec(name, date, normalised))
  }

  /** `calcAnthropicPrice` */
  function CalcAnthropicPrice(name: string, date: Timestamp, usage: Anthropic.AnthropicUsage): (r: Result<real, PricingError>)
  {
    PriceWith(Anthropic.ConvertUsage(usage), Anthropic.GetModelSpec(name, date))
  }

  /** An OpenAI call fails exactly for unlisted names, with the lookup's error. */
  lemma CalcOpenAIPriceFailsIffUnlisted(name: string, date: Timestamp, usage: OpenAI.OpenAIUsage)
    ensures CalcOpenAIPrice(name, date, usage).Success? <==> name in OpenAI.Models
    ensures name !in OpenAI.Models ==>
              CalcOpenAIPrice(name, date, usage) == Failure(UnknownModel("Unknown model name: " + name))
  {
    OpenAI.GetModelSpecSucceedsIffListed(name, date);
    PriceWithPropagates(OpenAI.ConvertUsage(usage), OpenAI.GetModelSpec(name, date));
  }

  /** An OpenAI call costs prompt tokens at the input price plus completion tokens at
      the output price, per million, and never less than nothing. */
  lemma CalcOpenAIPriceIsCost(name: string, date: Timestamp, usage: OpenAI.OpenAIUsage, spec: ModelSpec)
    requires OpenAI.GetModelSpec(name, date) == Success(spec)
    ensures CalcOpenAIPrice(name, date, usage)
            == Success((usage.promptTokens as real) * spec.pricePerInputMegaToken / 1000000.0
                       + (usage.completionTokens as real) * spec.pricePerOutputMegaToken / 1000000.0)
    ensures CalcOpenAIPrice(name, date, usage).value >= 0.0
  {
    PriceWithPropagates(OpenAI.ConvertUsage(usage), OpenAI.GetModelSpec(name, date));
    Utils.CalcPriceWithoutCache(usage.promptTokens, usage.completionTokens, spec);
    OpenAI.GetModelSpecPrices(name, date);
  }

  /** An Anthropic call fails exactly for unlisted names, with the lookup's error. */
  lemma CalcAnthropicPriceFailsIffUnlisted(name: string, date: Timestamp, usage: Anthropic.AnthropicUsage)
    ensures CalcAnthropicPrice(name, date, usage).Success? <==> name in Anthropic.Models
    ensures name !in Anthropic.Models ==>
              CalcAnthropicPrice(name, date, usage) == Failure(UnknownModel("Unknown model: " + name))
  {
    Anthropic.GetModelSpecSucceedsIffListed(name, date);
    PriceWithPropagates(Anthropic.ConvertUsage(usage), Anthropic.GetModelSpec(name, date));
  }

  /** An Anthropic call costs all four counters at their prices, per million; cache
      counters cost nothing on models without cache prices. */
  lemma CalcAnthropicPriceIsCost(name: string, date: Timestamp, usage: Anthropic.AnthropicUsage, spec: ModelSpec)
    requires Anthropic.GetModelSpec(name, date) == Success(spec)
    ensures CalcAnthropicPrice(name, date, usage)
            == Success((usage.inputTokens as real) * spec.pricePerInputMegaToken / 1000000.0
                       + (usage.outputTokens as real) * spec.pricePerOutputMegaToken / 1000000.0
                       + (usage.cacheReadInputTokens as real) * spec.pricePerCacheReadMegaToken.GetOr(0.0) / 1000000.0
                       + (usage.cacheCreationInputTokens as real) * spec.pricePerCacheWriteMegaToken.GetOr(0.0) / 1000000.0)
    ensures CalcAnthropicPrice(name, date, usage).value >= 0.0
  {
    PriceWithPropagates(Anthropic.ConvertUsage(usage), Anthropic.GetModelSpec(name, date));
    Utils.CalcPriceWithCache(usage.inputTokens, usage.outputTokens, usage.cacheReadInputTokens, usage.cacheCreationInputTokens, spec);
    Anthropic.GetModelSpecPrices(name, date);
  }

  /** A Google call fails exactly for names without a price, with the lookup's error. */
  lemma CalcGooglePriceFailsIffUnpriced(name: string, date: Timestamp, usage: Google.GoogleUsage)
    ensures CalcGooglePrice(name, date, usage).Success? <==> name in Google.Models && name != "gemini-1.0-flash"
    ensures CalcGooglePrice(name, date, usage).Failure? ==>
              CalcGooglePrice(name, date, usage) == Failure(UnknownModel("Unknown model name: " + name))
  {
    var u := Google.ConvertUsage(usage);
    Google.GetModelSpecSucceedsIffPriced(name, date, u);
    PriceWithPropagates(u, Google.GetModelSpec(name, date, u));
  }

  /** A Google call costs prompt and candidate tokens at the prices of the tier chosen
      by the prompt count, per million: the low tier exactly when it is at most 128000. */
  lemma CalcGooglePriceIsCost(name: string, date: Timestamp, usage: Google.GoogleUsage, spec: ModelSpec)
    requires Google.GetModelSpec(name, date, Google.ConvertUsage(usage)) == Success(spec)
    ensures CalcGooglePrice(name, date, usage)
            == Success((usage.promptTokenCount as real) * spec.pricePerInputMegaToken / 1000000.0
                       + (usage.candidatesTokenCount as real) * spec.pricePerOutputMegaToken / 1000000.0)
    ensures CalcGooglePrice(name, date, usage).value >= 0.0
    ensures Google.IsMinimum128k(Google.ConvertUsage(usage)) <==> usage.promptTokenCount <= Google.TierLimit
  {
    var u := Google.ConvertUsage(usage);
    PriceWithPropagates(u, Google.GetModelSpec(name, date, u));
    Utils.CalcPriceWithoutCache(usage.promptTokenCount, usage.candidatesTokenCount, spec);
    Google.GetModelSpecPrices(name, date, u);
    Google.LowTierIff(u);
  }

  /** More prompt tokens never make a Google call cheaper, across the tier boundary included. */
  lemma CalcGooglePriceMonotoneInPrompt(name: string, date: Timestamp, p1: nat, p2: nat, candidates: nat)
    requires p1 <= p2
    requires CalcGooglePrice(name, date, Google.GoogleUsage(p1, candidates)).Success?
    ensures CalcGooglePrice(name, date, Google.GoogleUsage(p2, candidates)).Success?
    ensures CalcGooglePrice(name, date, Google.GoogleUsage(p1, candidates)).value
            <= CalcGooglePrice(name, date, Google.GoogleUsage(p2, candidates)).value
  {
    var u1 := Google.ConvertUsage(Google.GoogleUsage(p1, candidates));
    var u2 := Google.ConvertUsage(Google.GoogleUsage(p2, candidates));
    Google.SpecMonotoneInInputTokens(name, date, u1, u2);
    var s1 := Google.GetModelSpec(name, date, u1).value;
    var s2 := Google.GetModelSpec(name, date, u2).value;
    Google.GetModelSpecPrices(name, date, u1);
    Google.GetModelSpecPrices(name, date, u2);
    // The cheaper tier on fewer tokens costs no more than the dearer tier on the same tokens ...
    Utils.CalcPriceMonotoneInSpec(u1, s1, s2);
    // ... which costs no more than the dearer tier on more tokens.
    Utils.CalcPriceMonotone(u1, u2, s2);
  }

  /** `gpt-4o` on any date, one million prompt tokens and no completion: 5. */
  lemma Gpt4oMillionPromptTokens(date: Timestamp)
    ensures CalcOpenAIPrice("gpt-4o", date, OpenAI.OpenAIUsage(1000000, 0)) == Success(5.0)
  {
    OpenAI.Gpt4oSpec(date);
  }

  /** `claude-3-5-sonnet` on any date, one million input and one million cache-read tokens: 3 + 0.3. */
  lemma Claude35SonnetWithCacheRead(date: Timestamp)
    ensures CalcAnthropicPrice("claude-3-5-sonnet", date, Anthropic.AnthropicUsage(1000000, 0, 1000000, 0)) == Success(3.3)
  {
    Anthropic.SonnetSpecsEqual(date);
  }

  /** `gemini-1.0-flash` is listed but unpriced: every call fails with the lookup's error. */
  lemma Gemini10FlashFails(date: Timestamp, usage: Google.GoogleUsage)
    ensures CalcGooglePrice("gemini-1.0-flash", date, usage) == Failure(UnknownModel("Unknown model name: " + "gemini-1.0-flash"))
  {
    Google.Gemini10FlashUnpriced(date, Google.ConvertUsage(usage));
  }

  /** A name no catalog lists fails on every entry point, with that provider's message. */
  lemma UnknownModelFailsEverywhere(name: string, date: Timestamp, o: OpenAI.OpenAIUsage, g: Google.GoogleUsage, a: Anthropic.AnthropicUsage)
    requires name !in Utils.Models
    ensures CalcOpenAIPrice(name, date, o) == Failure(UnknownModel("Unknown model name: " + name))
    ensures CalcGooglePrice(name, date, g) == Failure(UnknownModel("Unknown model name: " + name))
    ensures CalcAnthropicPrice(name, date, a) == Failure(UnknownModel("Unknown model: " + name))
  {
    CalcOpenAIPriceFailsIffUnlisted(name, date, o);
    CalcGooglePriceFailsIffUnpriced(name, date, g);
    CalcAnthropicPriceFailsIffUnlisted(name, date, a);
  }

  /** On its own catalog the OpenAI entry point prices the converted usage against the dispatcher's spec. */
  lemma CalcOpenAIPriceViaDispatcher(name: string, date: Timestamp, usage: OpenAI.OpenAIUsage)
    requires name in OpenAI.Models
    ensures var u := OpenAI.ConvertUsage(usage);
            CalcOpenAIPrice(name, date, usage) == PriceWith(u, Utils.GetModelSpec(name, date, u))
  {
    var u := OpenAI.ConvertUsage(usage);
    assert Utils.Owner(name) == Some(Utils.OpenAIProvider);
    Utils.GetModelSpecRoutesToOwner(name, date, u);
  }

  /** On its own catalog the Google entry point prices the converted usage against the dispatcher's spec. */
  lemma CalcGooglePriceViaDispatcher(name: string, date: Timestamp, usage: Google.GoogleUsage)
    requires name in Google.Models
    ensures var u := Google.ConvertUsage(usage);
            CalcGooglePrice(name, date, usage) == PriceWith(u, Utils.GetModelSpec(name, date, u))
  {
    var u := Google.ConvertUsage(usage);
    assert Utils.Owner(name) == Some(Utils.GoogleProvider);
    Utils.GetModelSpecRoutesToOwner(name, date, u);
  }

  /** On its own catalog the Anthropic entry point prices the converted usage against the dispatcher's spec. */
  lemma CalcAnthropicPriceViaDispatcher(name: string, date: Timestamp, usage: Anthropic.AnthropicUsage)
    requires name in Anthropic.Models
    ensures var u := Anthropic.ConvertUsage(usage);
            CalcAnthropicPrice(name, date, usage) == PriceWith(u, Utils.GetModelSpec(name, date, u))
  {
    var u := Anthropic.ConvertUsage(usage);
    assert Utils.Owner(name) == Some(Utils.AnthropicProvider);
    Utils.GetModelSpecRoutesToOwner(name, date, u);
  }
}
