/** What the transport layer sends and receives: configuration, request options,
    the requests handed to `fetch`, the scripted outcomes of those fetches, and the
    errors the client code throws. */
module ApiTypes {
  import opened Wrappers
  import opened Json

  /** `RetryConfig` of src/services/api/types.ts. */
  datatype RetryConfig = RetryConfig(maxRetries: int, delayMs: int)

  /** `APIConfig` of src/services/api/types.ts. */
  datatype APIConfig = APIConfig(baseUrl: string, retryConfig: RetryConfig)

  const LocalApiUrl: string := "http://localhost:8000"

  /** `import.meta.env.VITE_API_URL || 'http://localhost:8000'`: an unset or empty
      environment value falls back to the local address. */
  function BaseUrlFromEnv(env: Option<string>): (r: string)
    ensures env.Some? && env.value != "" ==> r == env.value
    ensures env.None? || env.value == "" ==> r == LocalApiUrl
  {
    if env.Some? && env.value != "" then env.value else LocalApiUrl
  }

  /** `defaultConfig` of src/services/api/config.ts: three retries, one second apart. */
  function DefaultConfig(env: Option<string>): (c: APIConfig)
    ensures c.retryConfig == RetryConfig(3, 1000)
    ensures c.baseUrl == BaseUrlFromEnv(env)
  {
    APIConfig(BaseUrlFromEnv(env), RetryConfig(3, 1000))
  }

  /** The `data` of a request: a plain value, or a `FormData` with its entries. */
  datatype Payload = JsonData(value: Json) | FormBody(entries: seq<(string, string)>)

  /** `APIRequestOptions`; every field may be `undefined`. */
  datatype RequestOptions = RequestOptions(
    httpMethod: Option<string>,
    endpoint: Option<string>,
    data: Option<Payload>,
    retries: Option<int>,
    isFormData: Option<bool>)

  /** A fetch target: `new URL(reference, base)` (resolution is not computed), or a
      URL string built by concatenation. */
  datatype Url = WithBase(reference: string, base: string) | Absolute(href: string)

  /** What one call of `fetch` is given; `body` is the value whose JSON text is sent. */
  datatype FetchRequest = FetchRequest(url: Url, httpMethod: Option<string>, contentType: Option<string>, body: Option<Json>)

  /** What a rejected promise carries: an `Error` object with its message, or some
      other thrown value. */
  datatype Thrown = ErrorInstance(message: string) | NonErrorValue

  /** The outcome of `response.json()`. */
  datatype ParsedBody = Parsed(value: Json) | Unparseable(syntaxError: string)

  /** The scripted outcome of one `fetch`: a response (of any status), or a rejection
      at the transport level. */
  datatype FetchOutcome = Responded(status: int, body: ParsedBody) | FetchRejected(reason: Thrown)

  /** `response.ok`. */
  predicate IsOkStatus(status: int) {
    200 <= status <= 299
  }

  /** The network as the program sees it: the i-th fetch the program makes gets the
      i-th outcome. */
  type Network = nat -> FetchOutcome

  /** Observable steps of the transport: a fetch, or a wait of `ms` milliseconds. */
  datatype Event = Fetch(request: FetchRequest) | Delay(ms: int)

  /** Number of fetches in a trace. */
  function Fetches(trace: seq<Event>): (n: nat)
    ensures n <= |trace|
  {
    if trace == [] then 0 else (if trace[0].Fetch? then 1 else 0) + Fetches(trace[1..])
  }

  lemma {:induction false} FetchesAppend(a: seq<Event>, b: seq<Event>)
    ensures Fetches(a + b) == Fetches(a) + Fetches(b)
  {
    if a == [] {
      assert a + b == b;
    } else {
      assert (a + b)[1..] == a[1..] + b;
      FetchesAppend(a[1..], b);
    }
  }

  /** The errors the client code throws: `APIError`, `NetworkError` and `LLMError` of
      src/utils/errors.ts (not part of this model; taken to be `Error` subclasses that
      keep their message), a plain `Error`, and the runtime's `TypeError`. */
  datatype Error =
    | APIError(message: string, status: int, data: Json)
    | NetworkError(message: string)
    | LLMError(message: string)
    | PlainError(message: string)
    | TypeError(message: string)

  /** `data ? JSON.stringify(data) : undefined`. A `FormData` object is truthy and has
      no enumerable own properties, so it is sent as the text `{}`. */
  function BodyOf(data: Option<Payload>): (r: Option<Json>)
    ensures data.None? ==> r.None?
    ensures data.Some? && data.value.FormBody? ==> r == Some(JObj(map[]))
    ensures data.Some? && data.value.JsonData? ==> (r.Some? <==> Truthy(data.value.value))
    ensures r.Some? && data.value.JsonData? ==> r.value == data.value.value
  {
    match data
    case None => None
    case Some(JsonData(v)) => if Truthy(v) then Some(v) else None
    case Some(FormBody(_)) => Some(JObj(map[]))
  }

  const RequestFailed: string := "Request failed"

  /** The `APIError` that `handleResponse` throws for a non-OK response: message
      `errorData?.detail || 'Request failed'`, the response status, and the parsed
      error body (`null` when it does not parse). */
  function ApiErrorFrom(status: int, body: ParsedBody): (e: Error)
    ensures e.APIError? && e.status == status
    ensures body.Unparseable? ==> e.message == RequestFailed && e.data == JNull
    ensures body.Parsed? ==> e.data == body.value
    ensures (body.Parsed? && OptionalProperty(body.value, "detail").Some?
             && Truthy(OptionalProperty(body.value, "detail").value))
            ==> e.message == JsString(OptionalProperty(body.value, "detail").value)
    ensures (body.Unparseable? || OptionalProperty(body.value, "detail").None?
             || !Truthy(OptionalProperty(body.value, "detail").value))
            ==> e.message == RequestFailed
  {
    var errorData := if body.Parsed? then body.value else JNull;
    var detail := OptionalProperty(errorData, "detail");
    var message := if detail.Some? && Truthy(detail.value) then JsString(detail.value) else RequestFailed;
    APIError(message, status, errorData)
  }

  /** A string `detail` is the message itself; a list-valued `detail`, as a validation
      error body carries, is converted by `String(...)`, so two objects give
      "[object Object],[object Object]". */
  lemma DetailMessages(status: int, text: string, a: Json, b: Json)
    requires text != "" && a.JObj? && b.JObj?
    ensures ApiErrorFrom(status, Parsed(JObj(map["detail" := JStr(text)]))).message == text
    ensures ApiErrorFrom(status, Parsed(JObj(map["detail" := JArr([a, b])]))).message
            == "[object Object],[object Object]"
  {
    ObjectPairString(a, b);
  }

  /** `String([a, b])` for two objects. */
  lemma ObjectPairString(a: Json, b: Json)
    requires a.JObj? && b.JObj?
    ensures JsString(JArr([a, b])) == "[object Object],[object Object]"
  {
    var items := [a, b];
    var parts := seq(|items|, i requires 0 <= i < |items| => if items[i].JNull? then "" else JsString(items[i]));
    assert parts == ["[object Object]", "[object Object]"];
    assert parts[1..] == ["[object Object]"];
  }
}
