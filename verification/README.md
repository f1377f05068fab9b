# llm-pricing, modelled in Dafny

This project models llm-pricing's core. The library computes what one call to a
hosted large language model costs, given:

- the provider (OpenAI, Google or Anthropic);
- the model name;
- the call date;
- the token usage the provider reported.

Each provider module holds four things:

- the provider's model catalog, the names in source order;
- the converter from the provider's raw usage record to the library's normalised `Usage`;
- the alias resolver, which maps a generic name such as `gpt-4o` or `gemini-1.5-pro` to a dated snapshot, sometimes depending on the call date;
- the price switch, which maps a resolved name to a `ModelSpec` of per-million-token prices.

`Utils` holds the parts shared by all providers:

- `CalcPrice`, the pricing formula;
- the combined name list `Models`;
- the dispatcher `GetModelSpec`, which routes a name to the catalog that owns it.

`LlmPricing` holds the three public entry points. Each one converts the usage, looks the spec up and prices the usage.

Modelling choices:

- A thrown `Error` is a `Failure(UnknownModel(message))` carrying the source's exact message text.
- Prices are exact `real`s.
- Token counts are `nat`s.
- A date is an `int` count of milliseconds since the Unix epoch, UTC.
- The cutover thresholds are the UTC midnights that `new Date("YYYY-MM-DD")` denotes.
- "After" is strict, as in `isAfter`.

Each operation has a partner definition, and lemmas connect the two:

- **Alias resolvers.** Each resolver is written as the source's switch. `Aliases` restates it as data: a table from alias to a chain of cutovers, newest first. Lemmas prove the switch and the table agree at every name and date. Threshold, monotonicity and closure facts are then proved about the table.
- **Usage converters.** Each converter has an inverse (`UsageOf`), and a round-trip lemma holds for every input.
- **`CalcPrice`.** It is written as the source computes it, with JavaScript truthiness tests on each counter. Its contract equates it with `Formula`, the plain sum of count × price / 1 000 000.
- **The dispatcher.** It is checked against `Owner`, an independent account of which catalog lists a name.

## Model

| member | source | states |
|---|---|---|
| Aliases.FirstPassed | src/openai/index.ts:67-78 | The first cutover a date is strictly after is within the chain, really is passed, and no newer cutover is |
| Aliases.Resolve | src/openai/index.ts:67-78 | A chain's resolution is always its oldest name or one of its cutover targets |
| Aliases.ResolveStep | src/openai/index.ts:67-78 | Resolution tests the newest cutover first and otherwise falls through to the older ones, as the if-chain does |
| Aliases.FirstPassedMonotone | src/openai/index.ts:67-78 | On a newest-first chain a later date never selects an older cutover |
| Aliases.OnThreshold | src/openai/index.ts:68-77 | A date exactly equal to a threshold is not after it, so the next older branch is taken |
| Aliases.JustAfterThreshold | src/openai/index.ts:68-77 | One millisecond after a threshold, that threshold's branch is taken |
| Aliases.ResolveOnThreshold | src/openai/index.ts:67-78 | On a threshold an alias means the next older target, or the oldest name after the last cutover |
| Aliases.ResolveJustAfterThreshold | src/openai/index.ts:67-78 | Just after a threshold an alias means that cutover's target |
| Aliases.BeforeAllThresholds | src/openai/index.ts:78 | A date after no threshold resolves to the chain's oldest name |
| Aliases.ResolveIn | src/openai/index.ts:113-114 | Names outside an alias table resolve to themselves; aliases resolve to something their chain produces |
| OpenAI.ResolveAlias | src/openai/index.ts:65-116 | The inner `getModelAlias` switch; specified by `OpenAI.ResolveAliasMatchesTable` and the threshold, monotonicity, closure and idempotence lemmas below |
| OpenAI.PriceOf | src/openai/index.ts:118-223 | The price switch over resolved names, `None` for the `default` branch; specified by `OpenAI.PricedNamesListed` and `OpenAI.GetModelSpecPrices` |
| OpenAI.GetModelSpec | src/openai/index.ts:58-224 | `getOpenAIModelSpec`: resolve, then price, throwing "Unknown model name: <name>"; specified by `OpenAI.GetModelSpecSucceedsIffListed` and the spec lemmas below |
| OpenAI.ConvertUsage | src/openai/index.ts:49-56 | Prompt and completion tokens become input and output tokens, both cache counters stay absent; the raw record is recovered exactly |
| OpenAI.ResolveAliasMatchesTable | src/openai/index.ts:65-116 | The resolver switch equals resolution in the alias table at every name and date |
| OpenAI.AliasTableNewestFirst | src/openai/index.ts:67-90 | Every alias's thresholds strictly decrease in the order the switch tests them |
| OpenAI.ResolveAliasAtThreshold | src/openai/index.ts:67-90 | For every alias and cutover: on the threshold date the older branch applies, one millisecond later the newer one |
| OpenAI.ResolveAliasMonotone | src/openai/index.ts:67-90 | A later call date never selects an older entry of an alias's history |
| OpenAI.Gpt35TurboThresholds | src/openai/index.ts:67-78 | `gpt-3.5-turbo` is -1106, -0613, -0301 on 2024-02-08, 2023-11-06, 2023-06-27 and -0125, -1106, -0613 one millisecond later |
| OpenAI.Gpt4AliasDirections | src/openai/index.ts:80-90 | `gpt-4` resolves to -0314 strictly after 2023-06-27 and to -0613 otherwise; `gpt-4-32k` to -0613 after and -0314 otherwise |
| OpenAI.FixedAliasesIgnoreDate | src/openai/index.ts:92-111 | The aliases with no cutover are exactly the seven fixed aliases, and each resolves to one name at every date |
| OpenAI.ResolveAliasStaysInCatalog | src/openai/index.ts:12-45 | A catalog name resolves to a catalog name |
| OpenAI.ResolveAliasOutsideCatalog | src/openai/index.ts:113-114 | A name outside the catalog passes through the resolver unchanged |
| OpenAI.ResolveAliasIdempotent | src/openai/index.ts:65-116 | Resolving a resolved name again, at any date, changes nothing |
| OpenAI.PricedNamesListed | src/openai/index.ts:118-219 | Every name the price switch knows is in the catalog |
| OpenAI.GetModelSpecSucceedsIffListed | src/openai/index.ts:118-222 | The lookup succeeds exactly for the 32 catalog names, at every date; the throw is unreachable from the catalog |
| OpenAI.GetModelSpecPrices | src/openai/index.ts:119-219 | Every OpenAI spec has positive input and output prices and no cache price |
| OpenAI.Gpt4oSpec | src/openai/index.ts:101-102 | `gpt-4o` at any date yields the `gpt-4o-2024-05-13` entry, 5 in and 15 out |
| OpenAI.Gpt4TurboFamilySpec | src/openai/index.ts:155-162 | The four GPT-4 Turbo snapshots all yield 10 in and 30 out |
| OpenAI.Gpt4PriceIgnoresDate | src/openai/index.ts:164-176 | Both `gpt-4` snapshots cost 30/60 and both `gpt-4-32k` snapshots 60/120, so the date never changes those prices |
| Anthropic.ResolveAlias | src/anthropic/index.ts:55-72 | The inner `getModelAlias` switch; specified by `Anthropic.ResolveAliasMatchesTable`, `Anthropic.ResolveAliasStaysInCatalog` and `Anthropic.ResolveAliasIgnoresDate` |
| Anthropic.PriceOf | src/anthropic/index.ts:74-134 | The price switch over resolved names; specified by `Anthropic.CachePricesByFamily`, `Anthropic.GetModelSpecPrices` and the spelling lemmas |
| Anthropic.GetModelSpec | src/anthropic/index.ts:48-135 | `getAnthropicModelSpec`: resolve, then price, throwing "Unknown model: <name>"; specified by `Anthropic.GetModelSpecSucceedsIffListed` |
| Anthropic.ConvertUsage | src/anthropic/index.ts:37-46 | The four raw counters map to input, output, cache-read and cache-write (cache creation) tokens; the raw record is recovered exactly |
| Anthropic.ResolveAliasIgnoresDate | src/anthropic/index.ts:54-72 | The resolver's result never depends on the date |
| Anthropic.ResolveAliasMatchesTable | src/anthropic/index.ts:59-71 | The resolver switch equals resolution in the alias table, whose four chains have no cutover, at every name and date |
| Anthropic.ResolveAliasStaysInCatalog | src/anthropic/index.ts:59-71 | Each of `claude-3-5-sonnet`, `claude-3-sonnet`, `claude-3-opus` and `claude-3-haiku` resolves to its dated target, which is a catalog name; every other string, listed or not, resolves to itself |
| Anthropic.ResolveAliasIdempotent | src/anthropic/index.ts:54-72 | Resolving a resolved name again changes nothing |
| Anthropic.GetModelSpecSucceedsIffListed | src/anthropic/index.ts:74-134 | The lookup succeeds exactly for the 19 catalog names; the throw is unreachable from the catalog |
| Anthropic.OpusSpellingsAgree | src/anthropic/index.ts:75-83 | The generic, dated, Bedrock and Vertex spellings of Claude 3 Opus yield one spec |
| Anthropic.Sonnet35SpellingsAgree | src/anthropic/index.ts:85-93 | The four spellings of Claude 3.5 Sonnet yield one spec |
| Anthropic.SonnetSpellingsAgree | src/anthropic/index.ts:95-103 | The four spellings of Claude 3 Sonnet yield one spec |
| Anthropic.HaikuSpellingsAgree | src/anthropic/index.ts:105-113 | The four spellings of Claude 3 Haiku yield one spec |
| Anthropic.CachePricesByFamily | src/anthropic/index.ts:75-131 | Every priced Claude 3 name defines both cache prices; `claude-2.1`, `claude-2.0` and `claude-instant-1.2` define neither |
| Anthropic.GetModelSpecPrices | src/anthropic/index.ts:75-131 | Every Anthropic price, cache prices included where defined, is positive |
| Anthropic.SonnetSpecsEqual | src/anthropic/index.ts:85-103 | The dated Claude 3.5 Sonnet and Claude 3 Sonnet specs are equal: 3 in, 15 out, 0.3 cache read, 3.75 cache write |
| Google.ResolveAlias | src/google/index.ts:42-61 | The inner `getModelAlias` switch; specified by `Google.ResolveAliasMatchesTable` and `Google.CutoverIsStrict` |
| Google.IsMinimum128k | src/google/index.ts:63 | The low-tier test; specified by `Google.LowTierIff` and `Google.TierBoundary` |
| Google.PriceOf | src/google/index.ts:65-122 | The price switch over resolved names and the tier; specified by `Google.GetModelSpecPrices` and `Google.SpecMonotoneInInputTokens` |
| Google.GetModelSpec | src/google/index.ts:34-123 | `getGoogleModelSpec`: resolve, then price at the tier, throwing "Unknown model name: <name>"; specified by `Google.GetModelSpecSucceedsIffPriced` |
| Google.ConvertUsage | src/google/index.ts:25-32 | Prompt and candidate counts become input and output tokens, both cache counters stay absent; the raw record is recovered exactly |
| Google.ResolveAliasMatchesTable | src/google/index.ts:42-61 | The resolver switch equals resolution in the alias table at every name and date |
| Google.CutoverIsStrict | src/google/index.ts:47-57 | On 2024-10-01 itself the generic 1.5 names still mean -001; one millisecond later they mean -002 |
| Google.ResolveAliasStaysInCatalog | src/google/index.ts:12-21 | A catalog name resolves to a catalog name |
| Google.ResolveAliasIdempotent | src/google/index.ts:42-61 | Resolving a resolved name again, at any date, changes nothing |
| Google.LowTierIff | src/google/index.ts:63 | The low tier applies exactly when the input count is absent, zero, or at most 128000 |
| Google.TierBoundary | src/google/index.ts:63 | 128000 input tokens is the low tier and 128001 is not |
| Google.GetModelSpecSucceedsIffPriced | src/google/index.ts:65-122 | The lookup succeeds exactly for the catalog names other than `gemini-1.0-flash` |
| Google.Gemini10FlashUnpriced | src/google/index.ts:120-122 | `gemini-1.0-flash` is listed but always fails with "Unknown model name: gemini-1.0-flash" |
| Google.GetModelSpecPrices | src/google/index.ts:66-118 | No Google spec defines a cache price, and its input and output prices are positive |
| Google.SpecMonotoneInInputTokens | src/google/index.ts:63-112 | For a fixed name and date, more input tokens never lower the input or output price |
| Google.Gemini10ProSpec | src/google/index.ts:114-118 | `gemini-1.0-pro` yields 0.125 in and 0.375 out whatever the date and usage |
| Google.Gemini15ProLongContext | src/google/index.ts:47-50 | `gemini-1.5-pro` after 2024-10-01 with 200000 input tokens yields the -002 high tier, 5 in and 10 out |
| Utils.CalcPrice | src/utils.ts:19-44 | The truthiness-guarded sum of components equals the reference sum of count × price / 1 000 000; it is non-negative when the prices are |
| Utils.Component | src/utils.ts:20-37 | One truthiness-guarded summand of the cost; specified by `Utils.ComponentIsTerm` |
| Utils.ComponentIsTerm | src/utils.ts:20-37 | A guarded component equals its reference term, whether or not the count is truthy or the price defined |
| Utils.CalcPriceOfCounts | src/utils.ts:19-44 | The cost is the four counts, absent ones as 0, times their prices, undefined ones as 0, per million |
| Utils.CalcPriceWithoutCache | src/utils.ts:19-44 | With both cache counters absent, only input and output tokens are charged |
| Utils.CalcPriceWithCache | src/utils.ts:19-44 | With all four counters present, each is charged at its price, an undefined cache price charging nothing |
| Utils.ZeroUsageIsFree | src/utils.ts:20-37 | A usage whose counters are all absent or zero costs exactly 0 |
| Utils.ZeroCountersContributeNothing | src/utils.ts:20-37 | Setting any one counter to zero costs the same as leaving it absent |
| Utils.UnpricedCacheIgnored | src/utils.ts:26-37 | A cache counter the spec has no price for never changes the cost, whatever its value |
| Utils.TermAdditive | src/utils.ts:20-37 | One component over the combined counts of two calls is the sum of their components |
| Utils.CalcPriceAdditive | src/utils.ts:19-44 | The cost of two calls' usage together is the sum of their costs |
| Utils.CalcPriceLinearInEachCounter | src/utils.ts:19-44 | Setting a counter to t adds exactly t × its price / 1 000 000 to the cost without it |
| Utils.TermMonotone | src/utils.ts:20-37 | At a non-negative price, a component grows with its count |
| Utils.CalcPriceMonotone | src/utils.ts:19-44 | With non-negative prices, a usage no larger in any counter never costs more |
| Utils.TermPriceMonotone | src/utils.ts:20-25 | A component grows with its price |
| Utils.CalcPriceMonotoneInSpec | src/utils.ts:19-44 | Dearer input and output prices, with equal cache prices, never make the same usage cheaper |
| Utils.Owner | src/utils.ts:56-66 | A name belongs to OpenAI, Google or Anthropic exactly when that catalog lists it, and to none exactly when `MODELS` omits it |
| Utils.OpenAINamesShaped | src/openai/index.ts:12-45 | Every OpenAI name begins "gp", "o", "ch", "d" or "b" |
| Utils.GoogleNamesShaped | src/google/index.ts:12-21 | Every Google name begins "ge" |
| Utils.AnthropicNamesShaped | src/anthropic/index.ts:12-33 | Every Anthropic name begins "a" or "cl" |
| Utils.CatalogsDisjoint | src/utils.ts:68-72 | The three catalogs are pairwise disjoint |
| Utils.UnlistedShape | src/utils.ts:56-66 | A name of none of the three shapes is in no catalog |
| Utils.ModelsShape | src/utils.ts:68-72 | `MODELS` has 59 entries: the OpenAI names, then the Google names, then the Anthropic names; it lists exactly the owned names |
| Utils.GetModelSpec | src/utils.ts:51-67 | `getModelSpec`, the dispatcher; specified by `Utils.GetModelSpecRoutesToOwner`, `Utils.GetModelSpecSucceedsIff` and `Utils.UnknownNameFails` |
| Utils.GetModelSpecRoutesToOwner | src/utils.ts:51-66 | The dispatcher returns exactly the owning provider's lookup result, and "Unknown model: <name>" for an unowned name |
| Utils.GetModelSpecUsageOnlyForGoogle | src/utils.ts:56-64 | Outside the Google catalog the dispatcher's result does not depend on the usage |
| Utils.GetModelSpecSucceedsIff | src/utils.ts:51-67 | The dispatcher succeeds exactly for the 59 listed names other than `gemini-1.0-flash` |
| Utils.GetModelSpecNonNegative | src/utils.ts:51-64 | Every spec the dispatcher returns has non-negative prices |
| Utils.UnknownNameFails | src/utils.ts:66 | Every name no catalog lists fails with "Unknown model: <name>", at every date and usage |
| LlmPricing.CalcOpenAIPrice | src/mod.ts:21-29 | `calcOpenAIPrice`; specified by `LlmPricing.CalcOpenAIPriceFailsIffUnlisted`, `LlmPricing.CalcOpenAIPriceIsCost` and `LlmPricing.CalcOpenAIPriceViaDispatcher` |
| LlmPricing.CalcGooglePrice | src/mod.ts:31-39 | `calcGooglePrice`; specified by `LlmPricing.CalcGooglePriceFailsIffUnpriced`, `LlmPricing.CalcGooglePriceIsCost` and `LlmPricing.CalcGooglePriceViaDispatcher` |
| LlmPricing.CalcAnthropicPrice | src/mod.ts:41-49 | `calcAnthropicPrice`; specified by `LlmPricing.CalcAnthropicPriceFailsIffUnlisted`, `LlmPricing.CalcAnthropicPriceIsCost` and `LlmPricing.CalcAnthropicPriceViaDispatcher` |
| LlmPricing.CalcOpenAIPriceFailsIffUnlisted | src/mod.ts:21-29 | `calcOpenAIPrice` succeeds exactly for catalog names, and otherwise fails with "Unknown model name: <name>" |
| LlmPricing.CalcOpenAIPriceIsCost | src/mod.ts:21-29 | Its result is prompt tokens × input price + completion tokens × output price, per million, at the looked-up spec, and is non-negative |
| LlmPricing.CalcGooglePriceFailsIffUnpriced | src/mod.ts:31-39 | `calcGooglePrice` succeeds exactly for catalog names other than `gemini-1.0-flash`, failing with the lookup's message |
| LlmPricing.CalcGooglePriceIsCost | src/mod.ts:31-39 | Its result is prompt × input price + candidates × output price, per million, and the tier follows the prompt count: low exactly at or below 128000 |
| LlmPricing.CalcGooglePriceMonotoneInPrompt | src/mod.ts:31-39 | More prompt tokens never make a Google call cheaper, across the tier boundary included |
| LlmPricing.CalcAnthropicPriceFailsIffUnlisted | src/mod.ts:41-49 | `calcAnthropicPrice` succeeds exactly for catalog names, and otherwise fails with "Unknown model: <name>" |
| LlmPricing.CalcAnthropicPriceIsCost | src/mod.ts:41-49 | Its result charges input, output, cache-read and cache-creation tokens at their prices per million, and is non-negative |
| LlmPricing.Gpt4oMillionPromptTokens | src/mod.ts:21-29 | `gpt-4o` on any date with one million prompt tokens and no completion costs 5 |
| LlmPricing.Claude35SonnetWithCacheRead | src/mod.ts:41-49 | `claude-3-5-sonnet` with one million input and one million cache-read tokens costs 3.3 |
| LlmPricing.Gemini10FlashFails | src/mod.ts:31-39 | `calcGooglePrice` on `gemini-1.0-flash` fails with the lookup's error |
| LlmPricing.UnknownModelFailsEverywhere | src/mod.ts:21-49 | Every name no catalog lists fails on all three entry points, each with its provider's message: "Unknown model name: <name>" for OpenAI and Google, "Unknown model: <name>" for Anthropic |
| LlmPricing.CalcOpenAIPriceViaDispatcher | src/mod.ts:21-29 | On OpenAI names the entry point equals pricing the converted usage against the dispatcher's spec |
| LlmPricing.CalcGooglePriceViaDispatcher | src/mod.ts:31-39 | On Google names the entry point equals pricing the converted usage against the dispatcher's spec, which sees the converted usage |
| LlmPricing.CalcAnthropicPriceViaDispatcher | src/mod.ts:41-49 | On Anthropic names the entry point equals pricing the converted usage against the dispatcher's spec |

## Left out

- decimal.js arithmetic and the final `toNumber()`: prices are exact reals, so rounding to 20 significant digits and conversion to a binary double are not modelled.
- `Date` values and date-fns: a date is a millisecond count. Parsing of the threshold strings is fixed to the UTC midnights they denote. Invalid dates are not modelled.
- Token counts are `nat`. Negative, fractional and NaN counts, which TypeScript's `number` admits, are not modelled.
- The TypeScript literal types on model names are compile-time only, so every lookup accepts any string and the error paths are modelled.
- Whether the prices and cutover dates match the providers' current published prices is outside the model.
- The lists are not proved free of duplicates. Membership, order and length are proved.
- The `gpt-4` alias, unlike `gpt-4-32k`, moves to the older snapshot `gpt-4-0314` after 2023-06-27. This is modelled as written. Both snapshots have the same price, so no cost depends on it.
- Google's input-token tiering applies to the -001 models as well as the -002 ones (src/google/index.ts:66-112).
- The `gpt-3.5-turbo` history has exactly three thresholds (src/openai/index.ts:67-78).
- The comment at src/google/index.ts:48 says the -002 models apply on or after 2024-10-01, but line 49 tests strict `isAfter`. The model follows the code, so 2024-10-01 itself still resolves to -001.
- The public `ModelNames` union type and re-exports carry no behaviour and are not modelled.
