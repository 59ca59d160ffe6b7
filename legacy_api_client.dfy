/** The older client of src/services/apiClient.ts: the URL is the base URL followed
    by the endpoint, the retry is a recursive call with one retry fewer, and the
    health probe reports `response.ok`. */
module LegacyApiClient {
  import opened Wrappers
  import opened Json
  import opened ApiTypes
  import opened ApiClient

  class LegacyAPIClient {
    const baseUrl: string
    const retryConfig: RetryConfig

    /** The private constructor behind `getInstance`: base URL from the environment,
        three retries one second apart. */
    constructor (env: Option<string>)
      ensures baseUrl == BaseUrlFromEnv(env)
      ensures retryConfig == RetryConfig(3, 1000)
    {
      baseUrl := BaseUrlFromEnv(env);
      retryConfig := RetryConfig(3, 1000);
    }

    /** The fetch of `request(method, endpoint, data)`: `${baseUrl}${endpoint}`. */
    function Target(httpMethod: string, endpoint: string, data: Option<Payload>): (req: FetchRequest)
      ensures req.url == Absolute(baseUrl + endpoint)
      ensures req.httpMethod == Some(httpMethod) && req.body == BodyOf(data)
      ensures req.contentType == Some("application/json")
    {
      FetchRequest(Absolute(baseUrl + endpoint), Some(httpMethod), Some("application/json"), BodyOf(data))
    }

    /** `request(method, endpoint, data, retries = maxRetries)`: an `APIError` is
        rethrown, any other failure is retried by a recursive call with `retries - 1`
        after the delay, and the last one becomes a `NetworkError`. It follows the
        same discipline as the newer client, `ApiClient.Run`. */
    method Request(httpMethod: string, endpoint: string, data: Option<Payload>, retries: Option<int>, net: Network, from: nat)
      returns (c: Completion)
      ensures c == Run(net, from, Target(httpMethod, endpoint, data), retries.GetOr(retryConfig.maxRetries), retryConfig.delayMs)
      decreases Budget(retries.GetOr(retryConfig.maxRetries))
    {
      var req := Target(httpMethod, endpoint, data);
      var remaining := retries.GetOr(retryConfig.maxRetries);
      match Classify(net(from))
      case Resolved(body) =>
        c := Completion(Ok(body), [Fetch(req)]);
      case Rejected(e) =>
        c := Completion(Err(e), [Fetch(req)]);
      case Failed(t) =>
        if remaining > 0 {
          var rest := Request(httpMethod, endpoint, data, Some(remaining - 1), net, from + 1);
          c := Completion(rest.result, [Fetch(req), Delay(retryConfig.delayMs)] + rest.trace);
        } else {
          c := Completion(Err(NetworkError(FailureMessage(t))), [Fetch(req)]);
        }
    }

    /** `checkHealth()`: one fetch of `${baseUrl}/health`; the answer is `response.ok`,
        and a rejected fetch gives `false` instead of an error. */
    method CheckHealth(net: Network, from: nat) returns (healthy: bool, trace: seq<Event>)
      ensures trace == [Fetch(FetchRequest(Absolute(baseUrl + "/health"), None, None, None))]
      ensures healthy <==> net(from).Responded? && IsOkStatus(net(from).status)
    {
      trace := [Fetch(FetchRequest(Absolute(baseUrl + "/health"), None, None, None))];
      match net(from)
      case Responded(status, _) => healthy := IsOkStatus(status);
      case FetchRejected(_) => healthy := false;
    }
  }

  /** Both clients make the same attempts and settle the same way on the same network;
      they differ only in how they form the URL. */
  lemma SameRetryDiscipline(client: APIClient, legacy: LegacyAPIClient, opts: RequestOptions, net: Network, from: nat)
    requires opts.httpMethod.Some? && opts.endpoint.Some?
    requires client.config.retryConfig == legacy.retryConfig
    ensures client.Spec(opts, net, from).result
            == Run(net, from, legacy.Target(opts.httpMethod.value, opts.endpoint.value, opts.data),
                   opts.retries.GetOr(legacy.retryConfig.maxRetries), legacy.retryConfig.delayMs).result
  {
    SameResultAnyTarget(net, from, RequestTarget(client.config, opts),
                        legacy.Target(opts.httpMethod.value, opts.endpoint.value, opts.data),
                        RetriesFor(client.config, opts), legacy.retryConfig.delayMs);
  }

  /** The settled value of `Run` does not depend on what is fetched or how long each delay is. */
  lemma {:induction false} SameResultAnyTarget(net: Network, at: nat, a: FetchRequest, b: FetchRequest, remaining: int, delayMs: int)
    ensures Run(net, at, a, remaining, delayMs).result == Run(net, at, b, remaining, delayMs).result
    decreases Budget(remaining)
  {
    if Classify(net(at)).Failed? && remaining > 0 {
      SameResultAnyTarget(net, at + 1, a, b, remaining - 1, delayMs);
    }
  }
}
