/** `LLMService` of src/lib/llm.ts: a model choice and an API key held in the browser,
    a dispatch to a LangChain chat model, and a retrieval-augmented query. The
    similarity search and the model's prediction are parameters. */
module LlmService {
  import opened Wrappers
  import opened Strings
  import opened ApiTypes
  import opened ChatTypes

  datatype Vendor = OpenAIChat | AnthropicChat

  /** The chat model `getModelInstance` constructs. */
  datatype ChatModel = ChatModel(vendor: Vendor, modelName: string, temperature: real, apiKey: string)

  const Temperature: real := 0.7
  const ApiKeyRequired: string := "API key is required"

  /** The documents' texts, in the order of the search results. */
  function Contents(docs: seq<SourceDocument>): (r: seq<string>)
    ensures |r| == |docs|
    ensures forall i :: 0 <= i < |docs| ==> r[i] == docs[i].pageContent
  {
    seq(|docs|, i requires 0 <= i < |docs| => docs[i].pageContent)
  }

  /** The context of the prompt: the documents' texts joined by blank lines. */
  function Context(docs: seq<SourceDocument>): string {
    Join(Contents(docs), "\n\n")
  }

  /** The prompt given to the model. */
  function Prompt(docs: seq<SourceDocument>, question: string): string {
    "Context: " + Context(docs) + "\n\nQuestion: " + question + "\n\nAnswer:"
  }

  class LLMServiceInstance {
    var currentModel: string
    var apiKey: string

    /** The private constructor behind `getInstance`. */
    constructor ()
      ensures currentModel == "gpt-3.5-turbo" && apiKey == ""
    {
      currentModel := "gpt-3.5-turbo";
      apiKey := "";
    }

    /** `setModel(model)`: no validation. */
    method SetModel(model: string)
      modifies this
      ensures currentModel == model && apiKey == old(apiKey)
    {
      currentModel := model;
    }

    /** `setApiKey(key)`: no validation. */
    method SetApiKey(key: string)
      modifies this
      ensures apiKey == key && currentModel == old(currentModel)
    {
      apiKey := key;
    }

    /** `getModelInstance()`: no key, no model; `claude-2` is Anthropic's, `gpt-4` is
        OpenAI's GPT-4, and every other id, the Ollama ones included, falls back to
        OpenAI's GPT-3.5 Turbo; the temperature is always 0.7. */
    function GetModelInstance(): (r: Result<ChatModel, Error>)
      reads this
      ensures r.Err? <==> apiKey == ""
      ensures r.Err? ==> r.error == PlainError(ApiKeyRequired)
      ensures r.Ok? ==> r.value.temperature == Temperature && r.value.apiKey == apiKey
      ensures r.Ok? ==> (r.value.vendor == AnthropicChat <==> currentModel == "claude-2")
      ensures r.Ok? && currentModel == "claude-2" ==> r.value.modelName == "claude-2"
      ensures r.Ok? && currentModel != "claude-2" ==>
                r.value.modelName == (if currentModel == "gpt-4" then "gpt-4" else "gpt-3.5-turbo")
    {
      if apiKey == "" then Err(PlainError(ApiKeyRequired))
      else if currentModel == "claude-2" then Ok(ChatModel(AnthropicChat, "claude-2", Temperature, apiKey))
      else if currentModel == "gpt-4" then Ok(ChatModel(OpenAIChat, "gpt-4", Temperature, apiKey))
      else Ok(ChatModel(OpenAIChat, "gpt-3.5-turbo", Temperature, apiKey))
    }

    /** `query(question)`: `search` is what the similarity search returns and `predict` what
        the model answers. Returns the answer and the prompt the model was given; without a
        key nothing is searched or predicted. */
    method Query(question: string, search: seq<SourceDocument>, predict: string)
      returns (r: Result<LLMResponse, Error>, prompt: Option<string>)
      ensures apiKey == "" ==> r == Err(PlainError(ApiKeyRequired)) && prompt.None?
      ensures apiKey != "" ==> prompt == Some(Prompt(search, question))
                               && r == Ok(LLMResponse(predict, Some(search)))
    {
      var model := GetModelInstance();
      if model.Err? {
        return Err(model.error), None;
      }
      prompt := Some(Prompt(search, question));
      r := Ok(LLMResponse(predict, Some(search)));
    }
  }

  /** The prompt places the context before the question: with no documents the context is
      empty, with one it is that document's text. */
  lemma PromptShape(doc: SourceDocument, question: string)
    ensures Prompt([], question) == "Context: " + "\n\nQuestion: " + question + "\n\nAnswer:"
    ensures Prompt([doc], question) == "Context: " + doc.pageContent + "\n\nQuestion: " + question + "\n\nAnswer:"
  {
    assert Contents([]) == [];
    assert Contents([doc]) == [doc.pageContent];
  }

  /** Each further document adds a blank line and its text to the end of the context, so
      the context of any list is its texts in order, separated by blank lines. */
  lemma ContextAppend(docs: seq<SourceDocument>, doc: SourceDocument)
    requires docs != []
    ensures Context(docs + [doc]) == Context(docs) + "\n\n" + doc.pageContent
  {
    assert Contents(docs + [doc]) == Contents(docs) + [doc.pageContent];
    JoinAppend(Contents(docs), doc.pageContent, "\n\n");
  }
}
