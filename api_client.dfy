/** The shared HTTP client of src/services/api/client.ts: every request resolves its
    endpoint against the configured base URL and is retried, after a fixed delay, as
    long as the failure happens at the transport level and retries remain. A non-OK
    response is a definitive rejection and is never retried. */
module ApiClient {
  import opened Wrappers
  import opened Json
  import opened ApiTypes

  /** How one attempt ends, as `attemptRequest`'s `try`/`catch` sees it. */
  datatype Attempt =
    | Resolved(body: Json)     // OK response whose body parsed
    | Rejected(error: Error)   // APIError from a non-OK response: rethrown as is
    | Failed(thrown: Thrown)   // anything else: the fetch rejected, or the OK body did not parse

  /** `handleResponse` applied to one fetch outcome. */
  function Classify(o: FetchOutcome): (a: Attempt)
    ensures o.FetchRejected? ==> a == Failed(o.reason)
    ensures o.Responded? && !IsOkStatus(o.status) ==> a == Rejected(ApiErrorFrom(o.status, o.body))
    ensures o.Responded? && IsOkStatus(o.status) && o.body.Parsed? ==> a == Resolved(o.body.value)
    ensures o.Responded? && IsOkStatus(o.status) && o.body.Unparseable? ==> a == Failed(ErrorInstance(o.body.syntaxError))
  {
    match o
    case FetchRejected(t) => Failed(t)
    case Responded(status, body) =>
      if !IsOkStatus(status) then Rejected(ApiErrorFrom(status, body))
      else if body.Parsed? then Resolved(body.value)
      else Failed(ErrorInstance(body.syntaxError))
  }

  const ConnectFailed: string := "Failed to connect to API"

  /** `error instanceof Error ? error.message : 'Failed to connect to API'`. */
  function FailureMessage(t: Thrown): (m: string)
    ensures t.ErrorInstance? ==> m == t.message
    ensures t.NonErrorValue? ==> m == ConnectFailed
  {
    match t
    case ErrorInstance(message) => message
    case NonErrorValue => ConnectFailed
  }

  /** The settled value of a request together with everything it did. */
  datatype Completion = Completion(result: Result<Json, Error>, trace: seq<Event>)

  /** `attemptRequest(remaining)`, with the attempt reading the `at`-th network outcome. */
  function Run(net: Network, at: nat, req: FetchRequest, remaining: int, delayMs: int): (c: Completion)
    ensures c.trace != [] && c.trace[0] == Fetch(req) && c.trace[|c.trace| - 1] == Fetch(req)
    ensures Classify(net(at)).Resolved? ==> c.result == Ok(Classify(net(at)).body)
    decreases if remaining > 0 then remaining else 0
  {
    match Classify(net(at))
    case Resolved(body) => Completion(Ok(body), [Fetch(req)])
    case Rejected(e) => Completion(Err(e), [Fetch(req)])
    case Failed(t) =>
      if remaining > 0 then
        var rest := Run(net, at + 1, req, remaining - 1, delayMs);
        Completion(rest.result, [Fetch(req), Delay(delayMs)] + rest.trace)
      else Completion(Err(NetworkError(FailureMessage(t))), [Fetch(req)])
  }

  /** Retries left once `remaining` is clamped at zero: the number of retries allowed. */
  function Budget(remaining: int): nat {
    if remaining > 0 then remaining else 0
  }

  /** The number of fetches `Run` makes: one, plus one per retried transport failure. */
  function Attempts(net: Network, at: nat, remaining: int): (n: nat)
    ensures 1 <= n <= Budget(remaining) + 1
    decreases Budget(remaining)
  {
    if Classify(net(at)).Failed? && remaining > 0 then 1 + Attempts(net, at + 1, remaining - 1) else 1
  }

  /** The `j`-th fetch fails at the transport level (or its OK body does not parse). */
  predicate FailsAt(net: Network, j: nat) {
    Classify(net(j)).Failed?
  }

  /** `n` fetches of the same request with one delay between consecutive ones. */
  function Schedule(req: FetchRequest, delayMs: int, n: nat): (t: seq<Event>)
    requires n >= 1
  {
    if n == 1 then [Fetch(req)] else [Fetch(req), Delay(delayMs)] + Schedule(req, delayMs, n - 1)
  }

  /** A schedule alternates fetch and delay, starts and ends with a fetch, and
      every fetch repeats the same request. */
  lemma {:induction false} ScheduleShape(req: FetchRequest, delayMs: int, n: nat)
    requires n >= 1
    ensures |Schedule(req, delayMs, n)| == 2 * n - 1
    ensures forall i :: 0 <= i < 2 * n - 1 && i % 2 == 0 ==> Schedule(req, delayMs, n)[i] == Fetch(req)
    ensures forall i :: 0 <= i < 2 * n - 1 && i % 2 == 1 ==> Schedule(req, delayMs, n)[i] == Delay(delayMs)
    ensures Fetches(Schedule(req, delayMs, n)) == n
    ensures forall e :: e in Schedule(req, delayMs, n) ==> e == Fetch(req) || e == Delay(delayMs)
  {
    if n > 1 {
      ScheduleShape(req, delayMs, n - 1);
      var tail := Schedule(req, delayMs, n - 1);
      FetchesAppend([Fetch(req), Delay(delayMs)], tail);
      assert Fetches([Fetch(req), Delay(delayMs)]) == 1 by {
        assert [Fetch(req), Delay(delayMs)][1..] == [Delay(delayMs)];
        assert [Delay(delayMs)][1..] == [];
      }
      forall i | 2 <= i < 2 * n - 1
        ensures Schedule(req, delayMs, n)[i] == tail[i - 2]
      {
      }
    }
  }

  /** Every request's trace is the schedule of as many attempts as `Attempts` counts:
      at most `retries + 1` fetches, all of the same request, with one delay before each
      retry and none before the first attempt or after the last. */
  lemma {:induction false} RunFollowsSchedule(net: Network, at: nat, req: FetchRequest, remaining: int, delayMs: int)
    ensures Run(net, at, req, remaining, delayMs).trace == Schedule(req, delayMs, Attempts(net, at, remaining))
    decreases Budget(remaining)
  {
    if Classify(net(at)).Failed? && remaining > 0 {
      RunFollowsSchedule(net, at + 1, req, remaining - 1, delayMs);
    }
  }

  /** If the first `k - 1` attempts fail at the transport level and attempt `k` gets an
      OK response with a body, the request resolves to that body after exactly `k`
      fetches, provided `k` is within the retry budget. */
  lemma {:induction false} SucceedsOnAttempt(net: Network, at: nat, req: FetchRequest, remaining: int, delayMs: int, k: nat)
    requires 1 <= k <= Budget(remaining) + 1
    requires forall j :: at <= j < at + k - 1 ==> FailsAt(net, j)
    requires Classify(net(at + k - 1)).Resolved?
    ensures Run(net, at, req, remaining, delayMs).result == Ok(Classify(net(at + k - 1)).body)
    ensures Attempts(net, at, remaining) == k
    decreases k
  {
    if k > 1 {
      assert FailsAt(net, at);
      SucceedsOnAttempt(net, at + 1, req, remaining - 1, delayMs, k - 1);
    }
  }

  /** A non-OK response ends the request with its `APIError` whatever budget remains:
      if it answers attempt `k`, exactly `k` fetches happen. */
  lemma {:induction false} RejectedOnAttempt(net: Network, at: nat, req: FetchRequest, remaining: int, delayMs: int, k: nat)
    requires 1 <= k <= Budget(remaining) + 1
    requires forall j :: at <= j < at + k - 1 ==> FailsAt(net, j)
    requires net(at + k - 1).Responded? && !IsOkStatus(net(at + k - 1).status)
    ensures Run(net, at, req, remaining, delayMs).result
            == Err(ApiErrorFrom(net(at + k - 1).status, net(at + k - 1).body))
    ensures Attempts(net, at, remaining) == k
    decreases k
  {
    if k > 1 {
      assert FailsAt(net, at);
      RejectedOnAttempt(net, at + 1, req, remaining - 1, delayMs, k - 1);
    }
  }

  /** When every allowed attempt fails at the transport level, the request fails with a
      `NetworkError` carrying the last failure's message, after `retries + 1` fetches. */
  lemma {:induction false} ExhaustsBudget(net: Network, at: nat, req: FetchRequest, remaining: int, delayMs: int)
    requires forall j :: at <= j <= at + Budget(remaining) ==> FailsAt(net, j)
    ensures FailsAt(net, at + Budget(remaining))
    ensures Run(net, at, req, remaining, delayMs).result
            == Err(NetworkError(FailureMessage(Classify(net(at + Budget(remaining))).thrown)))
    ensures Attempts(net, at, remaining) == Budget(remaining) + 1
    decreases Budget(remaining)
  {
    assert FailsAt(net, at);
    if remaining > 0 {
      ExhaustsBudget(net, at + 1, req, remaining - 1, delayMs);
    }
  }

  /** The failure taxonomy at this layer has exactly two kinds: the server was reached
      and rejected the request, or it was not reached. */
  lemma {:induction false} FailureKinds(net: Network, at: nat, req: FetchRequest, remaining: int, delayMs: int)
    ensures Run(net, at, req, remaining, delayMs).result.Err? ==>
              Run(net, at, req, remaining, delayMs).result.error.APIError?
              || Run(net, at, req, remaining, delayMs).result.error.NetworkError?
    decreases Budget(remaining)
  {
    if Classify(net(at)).Failed? && remaining > 0 {
      FailureKinds(net, at + 1, req, remaining - 1, delayMs);
    }
  }

  /** Every fetch a request makes is its target, and it makes between one and
      `retries + 1` of them. */
  lemma RequestFetches(net: Network, at: nat, req: FetchRequest, remaining: int, delayMs: int)
    ensures forall e :: e in Run(net, at, req, remaining, delayMs).trace && e.Fetch? ==> e.request == req
    ensures 1 <= Fetches(Run(net, at, req, remaining, delayMs).trace) <= Budget(remaining) + 1
  {
    var n := Attempts(net, at, remaining);
    RunFollowsSchedule(net, at, req, remaining, delayMs);
    ScheduleShape(req, delayMs, n);
  }

  /** The fetch a request makes on every attempt: the endpoint resolved against the
      base URL (`new URL(undefined, base)` reads the reference `"undefined"`), the
      method, a JSON content type and the JSON-stringified data. `isFormData` is not
      read. */
  function RequestTarget(config: APIConfig, opts: RequestOptions): (req: FetchRequest)
    ensures req.url == WithBase(opts.endpoint.GetOr("undefined"), config.baseUrl)
    ensures req.httpMethod == opts.httpMethod && req.contentType == Some("application/json")
    ensures req.body == BodyOf(opts.data)
  {
    FetchRequest(WithBase(opts.endpoint.GetOr("undefined"), config.baseUrl), opts.httpMethod,
                 Some("application/json"), BodyOf(opts.data))
  }

  /** `retries ?? this.config.retryConfig.maxRetries`: only an absent value defaults. */
  function RetriesFor(config: APIConfig, opts: RequestOptions): (r: int)
    ensures opts.retries.Some? ==> r == opts.retries.value
    ensures opts.retries.None? ==> r == config.retryConfig.maxRetries
  {
    opts.retries.GetOr(config.retryConfig.maxRetries)
  }

  class APIClient {
    const config: APIConfig

    /** `new APIClient(config)`; an absent config takes `defaultConfig`. */
    constructor (config: Option<APIConfig>, env: Option<string>)
      ensures this.config == config.GetOr(DefaultConfig(env))
    {
      this.config := config.GetOr(DefaultConfig(env));
    }

    /** What `request(opts)` does when its fetches meet `net` from index `from` on. */
    function Spec(opts: RequestOptions, net: Network, from: nat): Completion {
      Run(net, from, RequestTarget(config, opts), RetriesFor(config, opts), config.retryConfig.delayMs)
    }

    /** `request(opts)`: the recursion of `attemptRequest` run as a loop. */
    method Request(opts: RequestOptions, net: Network, from: nat) returns (c: Completion)
      ensures c == Spec(opts, net, from)
    {
      var req := RequestTarget(config, opts);
      var delayMs := config.retryConfig.delayMs;
      var remaining := RetriesFor(config, opts);
      var at := from;
      var trace: seq<Event> := [];
      while true
        invariant Spec(opts, net, from)
                  == Completion(Run(net, at, req, remaining, delayMs).result,
                                trace + Run(net, at, req, remaining, delayMs).trace)
        decreases Budget(remaining)
      {
        match Classify(net(at))
        case Resolved(body) =>
          return Completion(Ok(body), trace + [Fetch(req)]);
        case Rejected(e) =>
          return Completion(Err(e), trace + [Fetch(req)]);
        case Failed(t) =>
          if remaining > 0 {
            trace := trace + [Fetch(req), Delay(delayMs)];
            remaining := remaining - 1;
            at := at + 1;
          } else {
            return Completion(Err(NetworkError(FailureMessage(t))), trace + [Fetch(req)]);
          }
      }
    }
  }

  /** The static `APIClient.instance` slot behind `getInstance`. */
  class ClientSlot {
    var instance: APIClient?

    constructor ()
      ensures instance == null
    {
      instance := null;
    }

    /** `APIClient.getInstance(config)`: the first call creates the client from its
        argument (or the default config); later calls return that same client and
        ignore their argument. */
    method GetInstance(config: Option<APIConfig>, env: Option<string>) returns (c: APIClient)
      modifies this
      ensures instance == c
      ensures old(instance) != null ==> c == old(instance)
      ensures old(instance) == null ==> fresh(c) && c.config == config.GetOr(DefaultConfig(env))
    {
      if instance == null {
        instance := new APIClient(config, env);
      }
      c := instance;
    }
  }

  /** Two calls of `getInstance` give one object, configured by the first call. */
  method GetInstanceTwice(slot: ClientSlot, first: Option<APIConfig>, second: Option<APIConfig>, env: Option<string>)
    returns (a: APIClient, b: APIClient)
    requires slot.instance == null
    modifies slot
    ensures a == b && b.config == first.GetOr(DefaultConfig(env))
  {
    a := slot.GetInstance(first, env);
    b := slot.GetInstance(second, env);
  }
}
