/** The `useLLM` hook of src/hooks/useLLM.ts: the model choice, the stored API key and
    queries through `queryLLM`, with one error notification per failed query. */
module UseLLM {
  import opened Wrappers
  import opened Json
  import opened ApiTypes
  import opened ApiClient
  import opened LocalStorage
  import opened Notifications
  import opened LlmApi
  import Health

  const InitialModel: string := "ollama/llama2"
  const ApiErrorPrefix: string := "API Error: "
  const ConnectionNotice: string := "Unable to connect to the server. Please check your connection."
  const UnexpectedNotice: string := "An unexpected error occurred"

  /** The notification text for a failed query, by the error's class. */
  function ErrorNotice(e: Error): (message: string)
    ensures e.APIError? ==> message == ApiErrorPrefix + e.message
    ensures e.NetworkError? ==> message == ConnectionNotice
    ensures !e.APIError? && !e.NetworkError? ==> message == UnexpectedNotice
  {
    match e
    case APIError(m, _, _) => ApiErrorPrefix + m
    case NetworkError(_) => ConnectionNotice
    case _ => UnexpectedNotice
  }

  class UseLLMState {
    var currentModel: string
    const client: APIClient

    constructor (client: APIClient)
      ensures currentModel == InitialModel && this.client == client
    {
      currentModel := InitialModel;
      this.client := client;
    }

    /** `switchModel(model)`: no validation. */
    method SwitchModel(model: string)
      modifies this
      ensures currentModel == model
    {
      currentModel := model;
    }

    /** `setApiKey(key)`: stores the key under `llm_api_key`. */
    method SetApiKey(key: string, storage: Storage)
      modifies storage
      ensures storage.items == old(storage.items)[ApiKeyItem := key]
    {
      storage.SetItem(ApiKeyItem, key);
    }

    /** `checkAPIAvailability()`: the health verdict (which never throws). */
    method CheckAPIAvailability(net: Network, from: nat) returns (available: bool, trace: seq<Event>)
      ensures (available, trace) == Health.Spec(client, net, from)
    {
      available, trace := Health.CheckAPIHealth(client, net, from);
    }

    /** `handleQuery(question)`: the response as it is, or the original error rethrown
        after exactly one error notification. */
    method HandleQuery(question: string, net: Network, from: nat)
      returns (r: Result<Json, Error>, notices: seq<NotificationRequest>, trace: seq<Event>)
      ensures (r, trace) == QueryLLMSpec(client, question, currentModel, net, from)
      ensures r.Ok? ==> notices == []
      ensures r.Err? ==> notices == [NotificationRequest(Failure, ErrorNotice(r.error))]
    {
      r, trace := QueryLLM(client, question, currentModel, net, from);
      notices := if r.Err? then [NotificationRequest(Failure, ErrorNotice(r.error))] else [];
    }
  }

  /** What a failed query shows: an API that answers unhealthy gives the `LLMError`,
      which is neither an `APIError` nor a `NetworkError`, so the notice is the generic
      one; a query whose every attempt fails at the transport level shows the connection
      notice. */
  lemma QueryNotices(client: APIClient, question: string, model: string, net: Network, from: nat)
    ensures !Health.Spec(client, net, from).0 ==>
              QueryLLMSpec(client, question, model, net, from).0.Err?
              && ErrorNotice(QueryLLMSpec(client, question, model, net, from).0.error) == UnexpectedNotice
    ensures var at := from + Fetches(Health.Spec(client, net, from).1);
            Health.Spec(client, net, from).0
            && (forall j :: at <= j <= at + Budget(client.config.retryConfig.maxRetries) ==> FailsAt(net, j)) ==>
              QueryLLMSpec(client, question, model, net, from).0.Err?
              && ErrorNotice(QueryLLMSpec(client, question, model, net, from).0.error) == ConnectionNotice
  {
    var (healthy, probe) := Health.Spec(client, net, from);
    var at := from + Fetches(probe);
    if healthy && forall j :: at <= j <= at + Budget(client.config.retryConfig.maxRetries) ==> FailsAt(net, j) {
      var opts := ChatOptions(question, model);
      assert RetriesFor(client.config, opts) == client.config.retryConfig.maxRetries;
      ExhaustsBudget(net, from + Fetches(probe), RequestTarget(client.config, opts), RetriesFor(client.config, opts),
                     client.config.retryConfig.delayMs);
    }
  }
}
