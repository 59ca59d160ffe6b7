/** `ModelManager` of api/models/manager.py: provider selection by model name and the
    message list sent to a provider. */
module PyManager {
  import opened Wrappers
  import opened Strings
  import opened PyTypes

  const DefaultSystemPrompt: string := "You are a helpful AI assistant. Analyze all provided content and context to give clear, accurate, and concise responses."
  const ContextHeader: string := "Context:\n"
  const ContextFooter: string := "\n\nUse this context to help answer the question."

  /** The provider `get_provider` constructs, with what it is given. */
  datatype ProviderChoice =
    | OllamaChoice(config: PyModelConfig)
    | OpenAIChoice(config: PyModelConfig, apiKey: Option<string>)
    | AnthropicChoice(config: PyModelConfig, apiKey: Option<string>)

  /** The configuration `get_provider` builds for a model name. */
  function ConfigFor(model: string): (c: PyModelConfig)
    ensures c.name == model && c.temperatureTenths == 7 && !c.supportsAudio
    ensures c.supportsVision <==> model == "gpt-4-vision-preview"
  {
    PyModelConfig(model, 7, model in ["gpt-4-vision-preview"], false)
  }

  /** `get_provider(model, api_key)`: the `ollama/` prefix is tested first, then `gpt-`,
      then exactly `claude-2`; any other name is unsupported. */
  function GetProvider(model: string, apiKey: Option<string>): (r: Result<ProviderChoice, PyError>)
    ensures StartsWith(model, "ollama/") ==> r == Ok(OllamaChoice(ConfigFor(model)))
    ensures !StartsWith(model, "ollama/") && StartsWith(model, "gpt-") ==> r == Ok(OpenAIChoice(ConfigFor(model), apiKey))
    ensures !StartsWith(model, "ollama/") && !StartsWith(model, "gpt-") && model == "claude-2"
            ==> r == Ok(AnthropicChoice(ConfigFor(model), apiKey))
    ensures r.Err? <==> !StartsWith(model, "ollama/") && !StartsWith(model, "gpt-") && model != "claude-2"
    ensures r.Err? ==> r.error == ValueError("Unsupported model: " + model)
  {
    var config := ConfigFor(model);
    if StartsWith(model, "ollama/") then Ok(OllamaChoice(config))
    else if StartsWith(model, "gpt-") then Ok(OpenAIChoice(config, apiKey))
    else if model == "claude-2" then Ok(AnthropicChoice(config, apiKey))
    else Err(ValueError("Unsupported model: " + model))
  }

  /** `create_messages(question, context)`: the default system prompt, then one system
      message with the context when the context is a non-empty list, then the question. */
  function CreateMessages(question: string, context: Option<seq<string>>): (ms: seq<LCMessage>)
    ensures |ms| == (if context.Some? && context.value != [] then 3 else 2)
    ensures ms[0] == LCMessage(SystemRole, DefaultSystemPrompt)
    ensures ms[|ms| - 1] == LCMessage(HumanRole, question)
    ensures |ms| == 3 ==> ms[1] == LCMessage(SystemRole, ContextHeader + Join(context.value, "\n\n") + ContextFooter)
  {
    var first := [LCMessage(SystemRole, DefaultSystemPrompt)];
    var middle := if context.Some? && context.value != [] then
                    [LCMessage(SystemRole, ContextHeader + Join(context.value, "\n\n") + ContextFooter)]
                  else [];
    first + middle + [LCMessage(HumanRole, question)]
  }

  /** The names the backend accepts are those the browser catalog uses, and the catalog's
      cloud names all resolve to the matching provider. */
  lemma CatalogNamesSupported(key: Option<string>)
    ensures GetProvider("gpt-3.5-turbo", key).Ok? && GetProvider("gpt-3.5-turbo", key).value.OpenAIChoice?
    ensures GetProvider("gpt-4", key).Ok? && GetProvider("gpt-4", key).value.OpenAIChoice?
    ensures GetProvider("claude-2", key) == Ok(AnthropicChoice(ConfigFor("claude-2"), key))
    ensures GetProvider("ollama/llama2", key).Ok? && GetProvider("ollama/llama2", key).value.OllamaChoice?
  {
    assert StartsWith("gpt-3.5-turbo", "gpt-") && "gpt-3.5-turbo"[0] != "ollama/"[0];
    assert StartsWith("gpt-4", "gpt-") && "gpt-4"[0] != "ollama/"[0];
    assert "claude-2"[0] != "gpt-"[0] && "claude-2"[0] != "ollama/"[0];
    assert StartsWith("ollama/llama2", "ollama/");
  }
}
