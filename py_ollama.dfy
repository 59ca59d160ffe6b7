/** The two Ollama providers of the Python backend: api/models/providers/ollama.py and
    the older api/models/ollama_provider.py, which differs only in not taking a `files`
    argument. Each posts the last message to Ollama's generate endpoint. The HTTP
    exchange is a parameter. */
module PyOllama {
  import opened Wrappers
  import opened Strings
  import opened Json
  import opened PyTypes
  import OllamaClient

  const OllamaGenerateUrl: string := "http://localhost:11434/api/generate"
  const OllamaPrefix: string := "ollama/"
  const RequestFailedPrefix: string := "Ollama request failed: "
  const ConnectFailed: string := "Failed to connect to Ollama service"

  /** The JSON body of the request. */
  datatype GenerateRequest = GenerateRequest(model: string, prompt: string, stream: bool)

  /** How `client.post` went: a response with its status, its text and what `json()`
      gives, or an `httpx.RequestError`. */
  datatype HttpOutcome =
    | HttpResponse(statusCode: int, text: string, body: Result<Json, PyError>)
    | RequestError

  /** `config.name.replace("ollama/", "")`: Python removes every occurrence. */
  function ModelNameFrom(name: string): string {
    ReplaceAll(name, OllamaPrefix, "")
  }

  /** `result["response"]` for the decoded body. */
  function ResponseField(result: Json): (r: Result<Json, PyError>)
    ensures r.Ok? <==> result.JObj? && "response" in result.fields
    ensures r.Ok? ==> r.value == result.fields["response"]
    ensures result.JObj? && "response" !in result.fields ==> r == Err(KeyError("response"))
    ensures !result.JObj? ==> r == Err(TypeError)
  {
    match result
    case JObj(fields) => if "response" in fields then Ok(fields["response"]) else Err(KeyError("response"))
    case _ => Err(TypeError)
  }

  /** What `generate_response(messages)` returns or raises, and the request it sends.
      Indexing an empty message list raises before anything is sent. */
  function Generate(modelName: string, messages: seq<LCMessage>, outcome: HttpOutcome)
    : (r: (Result<Json, PyError>, Option<GenerateRequest>))
    ensures messages == [] ==> r == (Err(IndexError), None)
    ensures messages != [] ==> r.1 == Some(GenerateRequest(modelName, messages[|messages| - 1].content, false))
    ensures messages != [] && outcome.RequestError? ==> r.0 == Err(HTTPException(503, ConnectFailed))
    ensures messages != [] && outcome.HttpResponse? && outcome.statusCode != 200 ==>
              r.0 == Err(HTTPException(outcome.statusCode, RequestFailedPrefix + outcome.text))
    ensures messages != [] && outcome.HttpResponse? && outcome.statusCode == 200 ==>
              r.0 == (match outcome.body case Err(e) => Err(e) case Ok(result) => ResponseField(result))
  {
    if messages == [] then (Err(IndexError), None)
    else
      var request := GenerateRequest(modelName, messages[|messages| - 1].content, false);
      match outcome
      case RequestError => (Err(HTTPException(503, ConnectFailed)), Some(request))
      case HttpResponse(status, text, body) =>
        if status != 200 then (Err(HTTPException(status, RequestFailedPrefix + text)), Some(request))
        else
          match body
          case Err(e) => (Err(e), Some(request))
          case Ok(result) => (ResponseField(result), Some(request))
  }

  /** `OllamaProvider` of api/models/providers/ollama.py. */
  class OllamaProvider {
    const modelName: string

    constructor (config: PyModelConfig)
      ensures modelName == ModelNameFrom(config.name)
    {
      modelName := ModelNameFrom(config.name);
    }

    /** `generate_response(messages, files)`: `files` is accepted and not used. */
    method GenerateResponse(messages: seq<LCMessage>, files: Option<seq<FileContent>>, outcome: HttpOutcome)
      returns (r: Result<Json, PyError>, sent: Option<GenerateRequest>)
      ensures (r, sent) == Generate(modelName, messages, outcome)
    {
      if messages == [] {
        return Err(IndexError), None;
      }
      sent := Some(GenerateRequest(modelName, messages[|messages| - 1].content, false));
      match outcome {
        case RequestError =>
          r := Err(HTTPException(503, ConnectFailed));
        case HttpResponse(status, text, body) =>
          if status != 200 {
            r := Err(HTTPException(status, RequestFailedPrefix + text));
          } else if body.Err? {
            r := Err(body.error);
          } else {
            r := ResponseField(body.value);
          }
      }
    }
  }

  /** `OllamaProvider` of api/models/ollama_provider.py. */
  class LegacyOllamaProvider {
    const modelName: string

    constructor (config: PyModelConfig)
      ensures modelName == ModelNameFrom(config.name)
    {
      modelName := ModelNameFrom(config.name);
    }

    /** `generate_response(messages)`. */
    method GenerateResponse(messages: seq<LCMessage>, outcome: HttpOutcome)
      returns (r: Result<Json, PyError>, sent: Option<GenerateRequest>)
      ensures (r, sent) == Generate(modelName, messages, outcome)
    {
      if messages == [] {
        return Err(IndexError), None;
      }
      sent := Some(GenerateRequest(modelName, messages[|messages| - 1].content, false));
      match outcome {
        case RequestError =>
          r := Err(HTTPException(503, ConnectFailed));
        case HttpResponse(status, text, body) =>
          if status != 200 {
            r := Err(HTTPException(status, RequestFailedPrefix + text));
          } else if body.Err? {
            r := Err(body.error);
          } else {
            r := ResponseField(body.value);
          }
      }
    }
  }

  /** Python drops every `ollama/` of the name, so a doubled prefix disappears entirely
      (the browser's provider would keep the second one). */
  lemma ModelNameStripsAll(rest: string)
    ensures ModelNameFrom(OllamaPrefix + rest) == ModelNameFrom(rest)
    ensures ModelNameFrom(OllamaPrefix + OllamaPrefix + rest) == ModelNameFrom(rest)
  {
    ReplaceAllOfPrefixed(OllamaPrefix, rest, "");
    ReplaceAllOfPrefixed(OllamaPrefix, OllamaPrefix + rest, "");
    assert OllamaPrefix + OllamaPrefix + rest == OllamaPrefix + (OllamaPrefix + rest);
  }

  /** A name without the prefix is kept as it is. */
  lemma PlainNameKept(name: string)
    requires forall i: nat :: !OccursAt(name, OllamaPrefix, i)
    ensures ModelNameFrom(name) == name
  {
    ReplaceWithoutOccurrence(name, OllamaPrefix, "");
  }

  /** The browser and the backend map a doubled prefix differently: for a rest without
      the prefix, the browser's `getModelName` keeps one `ollama/` and the backend none. */
  lemma NameMappingsDiffer(rest: string)
    requires forall i: nat :: !OccursAt(rest, OllamaPrefix, i)
    ensures OllamaClient.GetModelName(OllamaPrefix + OllamaPrefix + rest) == OllamaPrefix + rest
    ensures ModelNameFrom(OllamaPrefix + OllamaPrefix + rest) == rest
  {
    OllamaClient.GetModelNameStripsOnce(rest, rest);
    ModelNameStripsAll(rest);
    PlainNameKept(rest);
  }
}
