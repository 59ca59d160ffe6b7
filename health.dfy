/** `checkAPIHealth` of src/services/api/health.ts. It calls the shared client as
    `request('GET', '/health')`, but `request` destructures a single options object:
    the string `'GET'` has none of the option fields, so the method, endpoint, data
    and retries all arrive `undefined`. The request therefore targets the reference
    `"undefined"` under the base URL, with the default retry budget. */
module Health {
  import opened Wrappers
  import opened Json
  import opened ApiTypes
  import opened ApiClient

  /** The options `request` actually reads from the positional call. */
  const PositionalCallOptions: RequestOptions := RequestOptions(None, None, None, None, None)

  /** `response.status === 'ok'` on the settled request; a thrown error (from the
      request, or from reading `status` of a `null` body) gives `false`. */
  function Verdict(r: Result<Json, Error>): (healthy: bool)
    ensures healthy <==> r.Ok? && r.value.JObj? && "status" in r.value.fields
                         && r.value.fields["status"] == JStr("ok")
  {
    match r
    case Err(_) => false
    case Ok(body) =>
      match Property(body, "status")
      case Err(_) => false
      case Ok(status) => status == Some(JStr("ok"))
  }

  /** What `checkAPIHealth()` returns and does when its fetches meet `net` from `from`. */
  function Spec(client: APIClient, net: Network, from: nat): (bool, seq<Event>) {
    var c := client.Spec(PositionalCallOptions, net, from);
    (Verdict(c.result), c.trace)
  }

  /** `checkAPIHealth()`: never throws; true only when the request resolves to a
      body whose `status` is `'ok'`. */
  method CheckAPIHealth(client: APIClient, net: Network, from: nat) returns (healthy: bool, trace: seq<Event>)
    ensures (healthy, trace) == Spec(client, net, from)
  {
    var c := client.Request(PositionalCallOptions, net, from);
    healthy := Verdict(c.result);
    trace := c.trace;
  }

  /** The probe never reaches `/health`: every fetch it makes targets `"undefined"`
      under the base URL with no method and no body, and the shared client's full
      retry budget applies. */
  lemma ProbeTarget(client: APIClient, net: Network, from: nat)
    ensures forall e :: e in Spec(client, net, from).1 && e.Fetch? ==>
              e.request == FetchRequest(WithBase("undefined", client.config.baseUrl), None, Some("application/json"), None)
    ensures 1 <= Fetches(Spec(client, net, from).1) <= Budget(client.config.retryConfig.maxRetries) + 1
  {
    RequestFetches(net, from, RequestTarget(client.config, PositionalCallOptions),
                   client.config.retryConfig.maxRetries, client.config.retryConfig.delayMs);
  }

  /** A healthy verdict needs a resolved request, so a probe whose every allowed attempt
      fails at the transport level reports the API as down. */
  lemma UnreachableIsUnhealthy(client: APIClient, net: Network, from: nat)
    requires forall j :: from <= j <= from + Budget(client.config.retryConfig.maxRetries) ==> FailsAt(net, j)
    ensures !Spec(client, net, from).0
  {
    ExhaustsBudget(net, from, RequestTarget(client.config, PositionalCallOptions),
                   client.config.retryConfig.maxRetries, client.config.retryConfig.delayMs);
  }
}
