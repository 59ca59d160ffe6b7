/** `ModelManager` of src/services/model/modelManager.ts: catalog lookups, model
    validation, the availability check and whether a model needs an API key. */
module ModelManager {
  import opened Wrappers
  import opened ApiTypes
  import opened ModelCatalog
  import opened OllamaClient

  const InvalidModelPrefix: string := "Invalid model: "

  class ModelManagerService {
    const ollamaProvider: OllamaProvider

    /** The private constructor behind `getInstance`: a provider on the default URL. */
    constructor ()
      ensures fresh(ollamaProvider) && ollamaProvider.baseUrl == DefaultOllamaUrl
    {
      ollamaProvider := new OllamaProvider(None);
    }

    /** `getModelConfig(modelId)`. */
    function GetModelConfig(modelId: string): (r: Option<ModelConfig>)
      ensures r.Some? <==> modelId in CatalogIds(AvailableModels)
      ensures r.Some? ==> r.value in AvailableModels && r.value.id == modelId
    {
      Lookup(modelId)
    }

    /** `checkModelAvailability(modelId)`: an unknown id is reported invalid, a model
        marked local asks Ollama, and any other model is available without a probe. */
    method CheckModelAvailability(modelId: string, net: Network, from: nat)
      returns (h: ModelHealthCheck, trace: seq<Event>)
      ensures GetModelConfig(modelId).None? ==>
                h == ModelHealthCheck(false, Some(InvalidModelPrefix + modelId)) && trace == []
      ensures GetModelConfig(modelId).Some? && GetModelConfig(modelId).value.isLocal == Some(true) ==>
                h == HealthFrom(net(from))
                && trace == [Fetch(FetchRequest(Absolute(ollamaProvider.baseUrl + "/api/health"), None, None, None))]
      ensures GetModelConfig(modelId).Some? && GetModelConfig(modelId).value.isLocal != Some(true) ==>
                h == ModelHealthCheck(true, None) && trace == []
    {
      var model := GetModelConfig(modelId);
      if model.None? {
        return ModelHealthCheck(false, Some(InvalidModelPrefix + modelId)), [];
      }
      if model.value.isLocal == Some(true) {
        h, trace := ollamaProvider.CheckHealth(net, from);
        return;
      }
      return ModelHealthCheck(true, None), [];
    }

    /** `validateModel(modelId)`: throws for an id the catalog does not have. */
    function ValidateModel(modelId: string): (r: Result<(), Error>)
      ensures r.Err? <==> modelId !in CatalogIds(AvailableModels)
      ensures r.Err? ==> r.error == PlainError(InvalidModelPrefix + modelId)
    {
      if GetModelConfig(modelId).None? then Err(PlainError(InvalidModelPrefix + modelId)) else Ok(())
    }

    /** `requiresApiKey(modelId)`: the model's provider is OpenAI or Anthropic. */
    function RequiresApiKey(modelId: string): (r: bool)
      ensures r <==> modelId in CatalogIds(AvailableModels) && Lookup(modelId).value.provider != Ollama
    {
      var model := GetModelConfig(modelId);
      model.Some? && (model.value.provider == OpenAI || model.value.provider == Anthropic)
    }
  }

  /** With the shipped catalog no availability check ever probes Ollama: a known model is
      available, an unknown one invalid. */
  lemma AvailabilityNeverProbes(modelId: string)
    ensures Lookup(modelId).Some? ==> Lookup(modelId).value.isLocal != Some(true)
  {
    CatalogNotLocal();
  }

  /** Exactly the catalog's cloud models need a key: the OpenAI and Anthropic ones. */
  lemma KeyNeededForCloudModels(m: ModelManagerService)
    ensures m.RequiresApiKey("gpt-3.5-turbo") && m.RequiresApiKey("gpt-4") && m.RequiresApiKey("claude-2")
    ensures !m.RequiresApiKey("ollama/llama2") && !m.RequiresApiKey("ollama/mistral") && !m.RequiresApiKey("ollama/codellama")
  {
    CloudProviders();
    CatalogDistinct();
    assert CatalogIds(AvailableModels)[3] == "ollama/llama2";
    assert CatalogIds(AvailableModels)[4] == "ollama/mistral";
    assert CatalogIds(AvailableModels)[5] == "ollama/codellama";
  }
}
