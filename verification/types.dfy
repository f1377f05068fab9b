/** The records shared by every provider catalog: normalised usage, price specs,
    call dates and the one error the library raises. */
module Types {
  import opened Wrappers

  /** A call date: milliseconds since the Unix epoch, UTC. */
  type Timestamp = int

  /** Strict "is after": a date equal to the threshold is not after it. */
  predicate IsAfter(date: Timestamp, threshold: Timestamp) {
    date > threshold
  }

  /** Token counts of one call, normalised across providers. Every counter is optional. */
  datatype Usage = Usage(
    inputTokens: Option<nat>,
    outputTokens: Option<nat>,
    cacheReadTokens: Option<nat>,
    cacheWriteTokens: Option<nat>)

  /** Prices per million tokens. Input and output are mandatory, cache prices optional. */
  datatype ModelSpec = ModelSpec(
    pricePerInputMegaToken: real,
    pricePerOutputMegaToken: real,
    pricePerCacheReadMegaToken: Option<real>,
    pricePerCacheWriteMegaToken: Option<real>)

  /** A spec without prompt-cache prices. */
  function Plain(input: real, output: real): ModelSpec {
    ModelSpec(input, output, None, None)
  }

  /** A spec with all four prices. */
  function Cached(input: real, output: real, cacheRead: real, cacheWrite: real): ModelSpec {
    ModelSpec(input, output, Some(cacheRead), Some(cacheWrite))
  }

  predicate HasNoCachePrices(spec: ModelSpec) {
    spec.pricePerCacheReadMegaToken.None? && spec.pricePerCacheWriteMegaToken.None?
  }

  predicate HasAllCachePrices(spec: ModelSpec) {
    spec.pricePerCacheReadMegaToken.Some? && spec.pricePerCacheWriteMegaToken.Some?
  }

  /** Every price the spec defines is non-negative. */
  predicate NonNegativePrices(spec: ModelSpec) {
    && spec.pricePerInputMegaToken >= 0.0
    && spec.pricePerOutputMegaToken >= 0.0
    && spec.pricePerCacheReadMegaToken.GetOr(0.0) >= 0.0
    && spec.pricePerCacheWriteMegaToken.GetOr(0.0) >= 0.0
  }

  /** The library's only failure: a thrown `Error` with this message. */
  datatype PricingError = UnknownModel(message: string)
}
