/** The model catalog `availableModels` of src/config/models.ts. It is typed against
    the model configuration of src/types/llm.ts, which has no `isLocal` field, so no
    entry sets it; the field is kept here as an absent option because the services
    read it. */
module ModelCatalog {
  import opened Wrappers
  import opened Strings

  datatype Provider = OpenAI | Anthropic | Ollama

  datatype ModelConfig = ModelConfig(id: string, name: string, description: string, provider: Provider, isLocal: Option<bool>)

  const OllamaPrefix: string := "ollama/"

  const AvailableModels: seq<ModelConfig> := [
    ModelConfig("gpt-3.5-turbo", "GPT-3.5 Turbo", "Fast and efficient for most queries", OpenAI, None),
    ModelConfig("gpt-4", "GPT-4", "Most capable model for complex tasks", OpenAI, None),
    ModelConfig("claude-2", "Claude 2", "Balanced performance with strong reasoning", Anthropic, None),
    ModelConfig("ollama/llama2", "Llama 2", "Open source large language model", Ollama, None),
    ModelConfig("ollama/mistral", "Mistral", "Efficient open source model", Ollama, None),
    ModelConfig("ollama/codellama", "CodeLlama", "Specialized for code generation", Ollama, None)
  ]

  function CatalogIds(models: seq<ModelConfig>): (ids: seq<string>)
    ensures |ids| == |models|
    ensures forall i :: 0 <= i < |models| ==> ids[i] == models[i].id
  {
    seq(|models|, i requires 0 <= i < |models| => models[i].id)
  }

  /** `models.find(m => m.id === id)`. */
  function Find(models: seq<ModelConfig>, id: string): (r: Option<ModelConfig>)
    ensures r.Some? <==> id in CatalogIds(models)
    ensures r.Some? ==> r.value in models && r.value.id == id
  {
    if models == [] then None
    else if models[0].id == id then Some(models[0])
    else
      assert CatalogIds(models) == [models[0].id] + CatalogIds(models[1..]);
      Find(models[1..], id)
  }

  /** The catalog entry with the given id, if any. */
  function Lookup(id: string): (r: Option<ModelConfig>)
    ensures r.Some? <==> id in CatalogIds(AvailableModels)
    ensures r.Some? ==> r.value in AvailableModels && r.value.id == id
  {
    Find(AvailableModels, id)
  }

  /** The catalog has six entries and no two share an id (they differ in length or in
      their first character). */
  lemma CatalogDistinct()
    ensures |AvailableModels| == 6
    ensures forall i, j :: 0 <= i < j < |AvailableModels| ==> AvailableModels[i].id != AvailableModels[j].id
  {
    var ms := AvailableModels;
    assert |ms[0].id| == 13 && |ms[1].id| == 5 && |ms[2].id| == 8;
    assert |ms[3].id| == 13 && |ms[4].id| == 14 && |ms[5].id| == 16;
    assert ms[0].id[0] == 'g' && ms[3].id[0] == 'o';
  }

  /** No catalog entry is marked local. */
  lemma CatalogNotLocal()
    ensures forall m :: m in AvailableModels ==> m.isLocal.None?
  {
  }

  /** The Ollama provider is given exactly to the ids under the `ollama/` prefix. */
  lemma OllamaExactlyPrefixed()
    ensures forall m :: m in AvailableModels ==> (m.provider == Ollama <==> StartsWith(m.id, OllamaPrefix))
  {
    var ms := AvailableModels;
    assert !StartsWith(ms[0].id, OllamaPrefix) by { assert ms[0].id[0] != OllamaPrefix[0]; }
    assert !StartsWith(ms[1].id, OllamaPrefix) by { assert ms[1].id[0] != OllamaPrefix[0]; }
    assert !StartsWith(ms[2].id, OllamaPrefix) by { assert ms[2].id[0] != OllamaPrefix[0]; }
    assert StartsWith(ms[3].id, OllamaPrefix) by { assert ms[3].id[..7] == OllamaPrefix; }
    assert StartsWith(ms[4].id, OllamaPrefix) by { assert ms[4].id[..7] == OllamaPrefix; }
    assert StartsWith(ms[5].id, OllamaPrefix) by { assert ms[5].id[..7] == OllamaPrefix; }
    forall m | m in ms ensures m.provider == Ollama <==> StartsWith(m.id, OllamaPrefix) {
      var k :| 0 <= k < |ms| && ms[k] == m;
    }
  }

  /** The cloud entries of the catalog: the two OpenAI models and the Anthropic one. */
  lemma CloudProviders()
    ensures Lookup("gpt-3.5-turbo").Some? && Lookup("gpt-3.5-turbo").value.provider == OpenAI
    ensures Lookup("gpt-4").Some? && Lookup("gpt-4").value.provider == OpenAI
    ensures Lookup("claude-2").Some? && Lookup("claude-2").value.provider == Anthropic
  {
    assert CatalogIds(AvailableModels)[0] == "gpt-3.5-turbo";
    assert CatalogIds(AvailableModels)[1] == "gpt-4";
    assert CatalogIds(AvailableModels)[2] == "claude-2";
    CatalogDistinct();
  }
}
