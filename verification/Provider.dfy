/** What the gateway learns from a provider call (internal/provider/provider.go, internal/endpoint/pool.go). */
module Providers {
  import opened Options

  /** provider.Error; durations are nanoseconds. */
  datatype ProviderError = ProviderError(statusCode: int, retryAfter: int) {
    predicate Retryable() {
      statusCode == 429 || statusCode == 408 || statusCode >= 500 || statusCode == 0
    }
  }

  /** What errors.Is and errors.As find in an error's chain. */
  datatype CallError = CallError(canceled: bool, provider: Option<ProviderError>, deadline: bool, timeout: bool, net: bool)

  /** endpoint.Result, what the gateway reports about one provider call; latency in nanoseconds. */
  datatype CallResult = CallResult(success: bool, statusCode: int, latency: int, retryable: bool)
}
