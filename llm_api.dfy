/** `queryLLM` of src/services/api/llm.ts: the health probe, then one chat request
    through the shared client with a JSON body of the question and the model. */
module LlmApi {
  import opened Wrappers
  import opened Json
  import opened ApiTypes
  import opened ApiClient
  import Health

  const ApiServiceUnavailable: string := "API service is not available"

  /** The options of the chat request: a POST of `{question, model}` to `/api/chat`. */
  function ChatOptions(question: string, model: string): (opts: RequestOptions)
    ensures opts.httpMethod == Some("POST") && opts.endpoint == Some("/api/chat")
    ensures opts.data == Some(JsonData(JObj(map["question" := JStr(question), "model" := JStr(model)])))
    ensures opts.retries.None? && opts.isFormData.None?
  {
    RequestOptions(Some("POST"), Some("/api/chat"),
                   Some(JsonData(JObj(map["question" := JStr(question), "model" := JStr(model)]))), None, None)
  }

  /** What `queryLLM(question, model)` settles to and what it fetches. */
  function QueryLLMSpec(client: APIClient, question: string, model: string, net: Network, from: nat): (Result<Json, Error>, seq<Event>) {
    var (healthy, probe) := Health.Spec(client, net, from);
    if !healthy then (Err(LLMError(ApiServiceUnavailable)), probe)
    else
      var c := client.Spec(ChatOptions(question, model), net, from + Fetches(probe));
      (c.result, probe + c.trace)
  }

  /** `queryLLM(question, model)`. */
  method QueryLLM(client: APIClient, question: string, model: string, net: Network, from: nat)
    returns (r: Result<Json, Error>, trace: seq<Event>)
    ensures (r, trace) == QueryLLMSpec(client, question, model, net, from)
  {
    var healthy, probe := Health.CheckAPIHealth(client, net, from);
    if !healthy {
      return Err(LLMError(ApiServiceUnavailable)), probe;
    }
    var c := client.Request(ChatOptions(question, model), net, from + Fetches(probe));
    r := c.result;
    trace := probe + c.trace;
  }

  /** An unhealthy API fails with the `LLMError` before any chat request; a healthy one
      is followed by the client's request, whose outcome is returned unchanged and every
      fetch of which is a POST to `/api/chat` of exactly the question and the model. */
  lemma QueryLLMOutcome(client: APIClient, question: string, model: string, net: Network, from: nat)
    ensures var (healthy, probe) := Health.Spec(client, net, from);
      var (r, trace) := QueryLLMSpec(client, question, model, net, from);
      && (!healthy ==> r == Err(LLMError(ApiServiceUnavailable)) && trace == probe)
      && (healthy ==> r == client.Spec(ChatOptions(question, model), net, from + Fetches(probe)).result)
      && |probe| <= |trace| && trace[..|probe|] == probe
      && (healthy ==> forall e :: e in trace[|probe|..] && e.Fetch? ==>
            e.request == FetchRequest(WithBase("/api/chat", client.config.baseUrl), Some("POST"), Some("application/json"),
                                      Some(JObj(map["question" := JStr(question), "model" := JStr(model)]))))
  {
    var (healthy, probe) := Health.Spec(client, net, from);
    if healthy {
      var opts := ChatOptions(question, model);
      var at := from + Fetches(probe);
      RequestFetches(net, at, RequestTarget(client.config, opts), RetriesFor(client.config, opts), client.config.retryConfig.delayMs);
      var (r, trace) := QueryLLMSpec(client, question, model, net, from);
      assert trace[|probe|..] == client.Spec(opts, net, at).trace;
      assert Truthy(JObj(map["question" := JStr(question), "model" := JStr(model)]));
    }
  }
}
