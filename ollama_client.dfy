/** The browser-side Ollama provider of src/services/model/providers/ollama.ts: a
    health probe of the local Ollama server and the model-name mapping. */
module OllamaClient {
  import opened Wrappers
  import opened Strings
  import opened ApiTypes
  import opened ModelCatalog

  const DefaultOllamaUrl: string := "http://localhost:11434"
  const OllamaUnavailable: string := "Ollama service is not available"
  const OllamaUnreachable: string := "Unable to connect to Ollama service"

  /** `ModelHealthCheck` of src/services/model/types.ts. */
  datatype ModelHealthCheck = ModelHealthCheck(isHealthy: bool, message: Option<string>)

  /** The health verdict for one probe outcome: OK, not OK, or a fetch that threw. */
  function HealthFrom(outcome: FetchOutcome): (h: ModelHealthCheck)
    ensures h.isHealthy <==> outcome.Responded? && IsOkStatus(outcome.status)
    ensures h.isHealthy <==> h.message.None?
    ensures outcome.Responded? && !IsOkStatus(outcome.status) ==> h.message == Some(OllamaUnavailable)
    ensures outcome.FetchRejected? ==> h.message == Some(OllamaUnreachable)
  {
    match outcome
    case Responded(status, _) =>
      ModelHealthCheck(IsOkStatus(status), if IsOkStatus(status) then None else Some(OllamaUnavailable))
    case FetchRejected(_) => ModelHealthCheck(false, Some(OllamaUnreachable))
  }

  class OllamaProvider {
    const baseUrl: string

    /** `new OllamaProvider(baseUrl = 'http://localhost:11434')`. */
    constructor (baseUrl: Option<string>)
      ensures this.baseUrl == baseUrl.GetOr(DefaultOllamaUrl)
    {
      this.baseUrl := baseUrl.GetOr(DefaultOllamaUrl);
    }

    /** `checkHealth()`: one fetch of `${baseUrl}/api/health`; never throws. */
    method CheckHealth(net: Network, from: nat) returns (h: ModelHealthCheck, trace: seq<Event>)
      ensures trace == [Fetch(FetchRequest(Absolute(baseUrl + "/api/health"), None, None, None))]
      ensures h == HealthFrom(net(from))
    {
      trace := [Fetch(FetchRequest(Absolute(baseUrl + "/api/health"), None, None, None))];
      h := HealthFrom(net(from));
    }
  }

  /** `getModelName(modelId)`: `modelId.replace('ollama/', '')`, which removes the first
      occurrence only. */
  function GetModelName(modelId: string): (r: string)
    ensures StartsWith(modelId, OllamaPrefix) ==> r == modelId[|OllamaPrefix|..]
    ensures (forall i: nat :: !OccursAt(modelId, OllamaPrefix, i)) ==> r == modelId
    ensures (exists i: nat :: OccursAt(modelId, OllamaPrefix, i)) ==> |r| == |modelId| - |OllamaPrefix|
  {
    assert StartsWith(modelId, OllamaPrefix) ==> OccursAt(modelId, OllamaPrefix, 0);
    ReplaceFirst(modelId, OllamaPrefix, "")
  }

  /** An id under the prefix loses exactly that prefix, even when the rest repeats it;
      an id without the prefix anywhere is returned as it is. */
  lemma GetModelNameStripsOnce(rest: string, other: string)
    requires forall i: nat :: !OccursAt(other, OllamaPrefix, i)
    ensures GetModelName(OllamaPrefix + rest) == rest
    ensures GetModelName(other) == other
    ensures GetModelName(OllamaPrefix + OllamaPrefix + rest) == OllamaPrefix + rest
  {
    ReplaceFirstOfPrefixed(OllamaPrefix, rest);
    ReplaceFirstOfPrefixed(OllamaPrefix, OllamaPrefix + rest);
    assert OllamaPrefix + OllamaPrefix + rest == OllamaPrefix + (OllamaPrefix + rest);
    ReplaceWithoutOccurrence(other, OllamaPrefix, "");
  }
}
