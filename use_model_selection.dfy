/** The `useModelSelection` hook of src/hooks/useModelSelection.ts: the selected model,
    switching with validation, the availability warning and queries through
    `ModelService`. Notifications the hook shows are returned as lists of requests. */
module UseModelSelection {
  import opened Wrappers
  import opened Json
  import opened ApiTypes
  import opened ModelCatalog
  import opened OllamaClient
  import opened ModelManager
  import opened ModelService
  import opened LocalStorage
  import opened Notifications

  const InitialModel: string := "gpt-3.5-turbo"
  const SwitchedTo: string := "Switched to "

  /** The warning of the availability effect: only for an unhealthy model with a message. */
  function AvailabilityNotices(h: ModelHealthCheck): (notices: seq<NotificationRequest>)
    ensures |notices| <= 1
    ensures notices != [] <==> !h.isHealthy && h.message.Some? && h.message.value != ""
    ensures notices != [] ==> notices[0] == NotificationRequest(Warning, h.message.value)
  {
    if !h.isHealthy && h.message.Some? && h.message.value != "" then [NotificationRequest(Warning, h.message.value)] else []
  }

  /** `queryModel`'s result: `response.text`, with every failure, including reading
      `text` of a `null` body, rethrown as a plain `Error` with the same message. */
  function TextOf(response: Result<Json, Error>): (r: Result<Option<Json>, Error>)
    ensures r.Err? <==> response.Err? || response.value.JNull?
    ensures r.Err? ==> r.error.PlainError?
    ensures response.Err? ==> r.error.message == response.error.message
    ensures r.Ok? && r.value.Some? ==> response.value.JObj? && "text" in response.value.fields
                                       && r.value.value == response.value.fields["text"]
  {
    match response
    case Err(e) => Err(PlainError(e.message))
    case Ok(body) =>
      match Property(body, "text")
      case Err(message) => Err(PlainError(message))
      case Ok(text) => Ok(text)
  }

  class UseModelSelectionState {
    var currentModel: string
    const modelManager: ModelManagerService
    const modelService: ModelServiceInstance

    constructor (modelManager: ModelManagerService, modelService: ModelServiceInstance)
      ensures currentModel == InitialModel
      ensures this.modelManager == modelManager && this.modelService == modelService
    {
      currentModel := InitialModel;
      this.modelManager := modelManager;
      this.modelService := modelService;
    }

    /** `switchModel(modelId)`: an unknown id keeps the model and reports the validation
        error; a known one is selected and announced by name. */
    method SwitchModel(modelId: string) returns (notices: seq<NotificationRequest>)
      modifies this
      ensures modelId !in CatalogIds(AvailableModels) ==>
                currentModel == old(currentModel) && notices == [NotificationRequest(Failure, InvalidModelPrefix + modelId)]
      ensures modelId in CatalogIds(AvailableModels) ==>
                currentModel == modelId && notices == [NotificationRequest(Info, SwitchedTo + Lookup(modelId).value.name)]
    {
      match modelManager.ValidateModel(modelId) {
        case Err(e) =>
          notices := [NotificationRequest(Failure, e.message)];
        case Ok(_) =>
          currentModel := modelId;
          var model := modelManager.GetModelConfig(modelId);
          notices := if model.Some? then [NotificationRequest(Info, SwitchedTo + model.value.name)] else [];
      }
    }

    /** The availability effect for the current model. */
    method CheckAvailability(net: Network, from: nat) returns (notices: seq<NotificationRequest>, trace: seq<Event>)
      ensures Lookup(currentModel).None? ==>
                notices == [NotificationRequest(Warning, InvalidModelPrefix + currentModel)] && trace == []
      ensures Lookup(currentModel).Some? && Lookup(currentModel).value.isLocal != Some(true) ==>
                notices == [] && trace == []
      ensures Lookup(currentModel).Some? && Lookup(currentModel).value.isLocal == Some(true) ==>
                notices == AvailabilityNotices(HealthFrom(net(from)))
                && trace == [Fetch(FetchRequest(Absolute(modelManager.ollamaProvider.baseUrl + "/api/health"), None, None, None))]
    {
      var h;
      h, trace := modelManager.CheckModelAvailability(currentModel, net, from);
      notices := AvailabilityNotices(h);
    }

    /** `queryModel(question)` with the key the storage holds. */
    method QueryModel(question: string, storage: Storage, net: Network, from: nat)
      returns (r: Result<Option<Json>, Error>, trace: seq<Event>)
      ensures var (response, t) := modelService.QuerySpec(question, currentModel, storage.GetItem(ApiKeyItem), net, from);
              r == TextOf(response) && trace == t
    {
      var response;
      response, trace := modelService.Query(question, currentModel, storage, net, from);
      r := TextOf(response);
    }
  }
}
