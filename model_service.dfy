/** `ModelService` of src/services/model/modelService.ts: the model query path that
    checks the API, then (for a local model) Ollama, and sends the question as a form
    through the shared client. */
module ModelService {
  import opened Wrappers
  import opened Json
  import opened ApiTypes
  import opened ApiClient
  import opened ModelCatalog
  import opened FormData
  import opened LocalStorage
  import Health

  const ApiServerUnavailable: string := "API server is not available. Please start the server."
  const LocalModelUnavailable: string := "Local model unavailable. Please ensure Ollama is running."

  /** The fixed address `checkOllamaHealth` probes. */
  const OllamaHealthProbe: Event := Fetch(FetchRequest(Absolute("http://localhost:11434/api/health"), None, None, None))

  /** `isLocalModel(modelId)` against a catalog: the entry's `isLocal`, false for an
      unknown id or an entry without the field. */
  function IsLocalModel(models: seq<ModelConfig>, modelId: string): (r: bool)
    ensures r <==> Find(models, modelId).Some? && Find(models, modelId).value.isLocal == Some(true)
  {
    match Find(models, modelId)
    case None => false
    case Some(m) => m.isLocal.GetOr(false)
  }

  /** No model of the shipped catalog is local. */
  lemma NoLocalModels(modelId: string)
    ensures !IsLocalModel(AvailableModels, modelId)
  {
    CatalogNotLocal();
  }

  /** The form `query` builds: question, model, and the stored API key only for a
      non-local model whose stored key is a non-empty string. */
  function QueryForm(question: string, modelId: string, isLocal: bool, storedKey: Option<string>): seq<(string, string)> {
    var form := [("question", question), ("model", modelId)];
    if !isLocal && storedKey.Some? && storedKey.value != "" then form + [("apiKey", storedKey.value)] else form
  }

  /** The form is the one `buildChatRequest` would build when given the key `query` adds. */
  lemma QueryFormIsChatRequest(question: string, modelId: string, isLocal: bool, storedKey: Option<string>)
    ensures QueryForm(question, modelId, isLocal, storedKey)
            == ChatFields(question, modelId,
                          if !isLocal && storedKey.Some? && storedKey.value != "" then storedKey else None)
  {
  }

  /** The options of the chat request: a POST of the form to `/api/chat`, flagged as a form. */
  function ChatOptions(form: seq<(string, string)>): (opts: RequestOptions)
    ensures opts.httpMethod == Some("POST") && opts.endpoint == Some("/api/chat")
    ensures opts.data == Some(FormBody(form)) && opts.isFormData == Some(true) && opts.retries.None?
  {
    RequestOptions(Some("POST"), Some("/api/chat"), Some(FormBody(form)), None, Some(true))
  }

  class ModelServiceInstance {
    const apiClient: APIClient
    /** The catalog the service consults: `availableModels`. */
    const catalog: seq<ModelConfig>

    /** The private constructor behind `getInstance`, holding the shared client. */
    constructor (apiClient: APIClient)
      ensures this.apiClient == apiClient && catalog == AvailableModels
    {
      this.apiClient := apiClient;
      catalog := AvailableModels;
    }

    /** What `query(question, modelId)` settles to and what it fetches, given the stored key. */
    function QuerySpec(question: string, modelId: string, storedKey: Option<string>, net: Network, from: nat)
      : (Result<Json, Error>, seq<Event>)
    {
      var (healthy, probe) := Health.Spec(apiClient, net, from);
      var at := from + Fetches(probe);
      var isLocal := IsLocalModel(catalog, modelId);
      if !healthy then (Err(PlainError(ApiServerUnavailable)), probe)
      else if isLocal && !(net(at).Responded? && IsOkStatus(net(at).status)) then
        (Err(PlainError(LocalModelUnavailable)), probe + [OllamaHealthProbe])
      else
        var ollama := if isLocal then [OllamaHealthProbe] else [];
        var c := apiClient.Spec(ChatOptions(QueryForm(question, modelId, isLocal, storedKey)), net, at + |ollama|);
        (c.result, probe + ollama + c.trace)
    }

    /** `checkOllamaHealth()`: `response.ok` of the fixed probe, false when fetch throws. */
    method CheckOllamaHealth(net: Network, from: nat) returns (healthy: bool, trace: seq<Event>)
      ensures trace == [OllamaHealthProbe]
      ensures healthy <==> net(from).Responded? && IsOkStatus(net(from).status)
    {
      trace := [OllamaHealthProbe];
      match net(from)
      case Responded(status, _) => healthy := IsOkStatus(status);
      case FetchRejected(_) => healthy := false;
    }

    /** `query(question, modelId)`; errors of the request are rethrown as they are. */
    method Query(question: string, modelId: string, storage: Storage, net: Network, from: nat)
      returns (r: Result<Json, Error>, trace: seq<Event>)
      ensures (r, trace) == QuerySpec(question, modelId, storage.GetItem(ApiKeyItem), net, from)
    {
      var healthy, probe := Health.CheckAPIHealth(apiClient, net, from);
      if !healthy {
        return Err(PlainError(ApiServerUnavailable)), probe;
      }
      var at := from + Fetches(probe);
      var isLocal := IsLocalModel(catalog, modelId);
      var ollama: seq<Event> := [];
      if isLocal {
        var ollamaHealthy, ollamaTrace := CheckOllamaHealth(net, at);
        if !ollamaHealthy {
          return Err(PlainError(LocalModelUnavailable)), probe + ollamaTrace;
        }
        ollama := ollamaTrace;
      }
      var form := new Form();
      form.Append("question", question);
      form.Append("model", modelId);
      if !isLocal {
        var apiKey := storage.GetItem(ApiKeyItem);
        if apiKey.Some? && apiKey.value != "" {
          form.Append("apiKey", apiKey.value);
        }
      }
      var c := apiClient.Request(ChatOptions(form.entries), net, at + |ollama|);
      r := c.result;
      trace := probe + ollama + c.trace;
    }
  }

  /** The guard order of `query`: an unhealthy API fails first with nothing fetched after
      the probe; otherwise, with the shipped catalog, Ollama is never probed and every
      later fetch is a POST to `/api/chat` whose body is the text `{}`, because the form
      is passed through `JSON.stringify`: the question, the model and the key never reach
      the server. The answer is then exactly what the client's request with that form
      returns, starting after the probe's fetches. */
  lemma QueryOutcome(s: ModelServiceInstance, question: string, modelId: string, storedKey: Option<string>, net: Network, from: nat)
    requires s.catalog == AvailableModels
    ensures var (healthy, probe) := Health.Spec(s.apiClient, net, from);
      var (r, trace) := s.QuerySpec(question, modelId, storedKey, net, from);
      && (!healthy ==> r == Err(PlainError(ApiServerUnavailable)) && trace == probe)
      && |probe| <= |trace| && trace[..|probe|] == probe
      && (healthy ==> forall e :: e in trace[|probe|..] && e.Fetch? ==>
            e.request == FetchRequest(WithBase("/api/chat", s.apiClient.config.baseUrl), Some("POST"),
                                      Some("application/json"), Some(JObj(map[]))))
      && (healthy ==> r == s.apiClient.Spec(ChatOptions(QueryForm(question, modelId, false, storedKey)), net,
                                            from + Fetches(probe)).result)
  {
    var (healthy, probe) := Health.Spec(s.apiClient, net, from);
    if healthy {
      var c := s.apiClient.Spec(ChatOptions(QueryForm(question, modelId, false, storedKey)), net, from + Fetches(probe));
      HealthyQuery(s, question, modelId, storedKey, net, from);
      QueryFetchesChat(s, question, modelId, storedKey, net, from);
      var trace := s.QuerySpec(question, modelId, storedKey, net, from).1;
      assert trace[..|probe|] == probe;
    } else {
      assert s.QuerySpec(question, modelId, storedKey, net, from) == (Err(PlainError(ApiServerUnavailable)), probe);
    }
  }

  /** After a healthy probe, every fetch `query` makes is the chat POST. */
  lemma QueryFetchesChat(s: ModelServiceInstance, question: string, modelId: string, storedKey: Option<string>, net: Network, from: nat)
    requires s.catalog == AvailableModels
    ensures var (healthy, probe) := Health.Spec(s.apiClient, net, from);
      var (r, trace) := s.QuerySpec(question, modelId, storedKey, net, from);
      healthy ==> forall e :: e in trace[|probe|..] && e.Fetch? ==>
            e.request == FetchRequest(WithBase("/api/chat", s.apiClient.config.baseUrl), Some("POST"),
                                      Some("application/json"), Some(JObj(map[])))
  {
    var (healthy, probe) := Health.Spec(s.apiClient, net, from);
    if healthy {
      var c := s.apiClient.Spec(ChatOptions(QueryForm(question, modelId, false, storedKey)), net, from + Fetches(probe));
      HealthyQuery(s, question, modelId, storedKey, net, from);
      ChatFetches(s.apiClient, QueryForm(question, modelId, false, storedKey), net, from + Fetches(probe));
      var trace := s.QuerySpec(question, modelId, storedKey, net, from).1;
      assert trace[|probe|..] == c.trace by { assert trace == probe + c.trace; }
      forall e | e in trace[|probe|..] && e.Fetch?
        ensures e.request == FetchRequest(WithBase("/api/chat", s.apiClient.config.baseUrl), Some("POST"),
                                          Some("application/json"), Some(JObj(map[])))
      {
        assert e in c.trace;
      }
    }
  }

  /** Every fetch of a chat request is the same POST to `/api/chat`, whatever the form. */
  lemma ChatFetches(client: APIClient, form: seq<(string, string)>, net: Network, at: nat)
    ensures forall e :: e in client.Spec(ChatOptions(form), net, at).trace && e.Fetch? ==>
              e.request == FetchRequest(WithBase("/api/chat", client.config.baseUrl), Some("POST"),
                                        Some("application/json"), Some(JObj(map[])))
  {
    var opts := ChatOptions(form);
    RequestFetches(net, at, RequestTarget(client.config, opts), RetriesFor(client.config, opts),
                   client.config.retryConfig.delayMs);
  }

  /** With the shipped catalog and a healthy API, `query` is the probe followed by one
      client request carrying the non-local form. */
  lemma HealthyQuery(s: ModelServiceInstance, question: string, modelId: string, storedKey: Option<string>, net: Network, from: nat)
    requires s.catalog == AvailableModels
    ensures var (healthy, probe) := Health.Spec(s.apiClient, net, from);
      var c := s.apiClient.Spec(ChatOptions(QueryForm(question, modelId, false, storedKey)), net, from + Fetches(probe));
      healthy ==> s.QuerySpec(question, modelId, storedKey, net, from) == (c.result, probe + c.trace)
  {
    var (healthy, probe) := Health.Spec(s.apiClient, net, from);
    var at := from + Fetches(probe);
    var c := s.apiClient.Spec(ChatOptions(QueryForm(question, modelId, false, storedKey)), net, at);
    NoLocalModels(modelId);
    assert probe + [] + c.trace == probe + c.trace;
  }
}
