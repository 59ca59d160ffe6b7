/** The `useAPIStatus` hook of src/hooks/useAPIStatus.ts: an offline flag refreshed by
    one check on mount and then every thirty seconds until unmount. The interval
    becomes the `polling` flag and each firing a call of `Tick`. */
module UseAPIStatus {
  import opened Wrappers
  import opened ApiTypes
  import opened ApiClient
  import opened Notifications
  import Health

  const ServerNotRunning: string := "API server is not running. Please start the server to enable all features."
  const PollIntervalMs: nat := 30000

  /** The outcome of one `checkStatus()`: the new offline flag and the notices shown, given
      what `checkAPIHealth()` did (a verdict, or a thrown error). */
  function ApplyCheck(outcome: Result<bool, Error>): (r: (bool, seq<NotificationRequest>))
    ensures r.0 <==> outcome.Err? || !outcome.value
    ensures r.1 == (if outcome == Ok(false) then [NotificationRequest(Warning, ServerNotRunning)] else [])
  {
    match outcome
    case Err(_) => (true, [])
    case Ok(available) => (!available, if !available then [NotificationRequest(Warning, ServerNotRunning)] else [])
  }

  class UseAPIStatusState {
    var isOffline: bool
    var polling: bool
    const client: APIClient

    constructor (client: APIClient)
      ensures isOffline && !polling && this.client == client
    {
      isOffline := true;
      polling := false;
      this.client := client;
    }

    /** `checkStatus()`. The flag and the warning depend only on this check, so every
        check that finds the API down warns again. */
    method CheckStatus(net: Network, from: nat) returns (notices: seq<NotificationRequest>, trace: seq<Event>)
      modifies this
      ensures (isOffline, notices) == ApplyCheck(Ok(Health.Spec(client, net, from).0))
      ensures trace == Health.Spec(client, net, from).1
      ensures polling == old(polling)
    {
      var available;
      available, trace := Health.CheckAPIHealth(client, net, from);
      var applied := ApplyCheck(Ok(available));
      isOffline := applied.0;
      notices := applied.1;
    }

    /** The effect on mount: an immediate check, then the interval is set. */
    method Mount(net: Network, from: nat) returns (notices: seq<NotificationRequest>, trace: seq<Event>)
      modifies this
      ensures (isOffline, notices) == ApplyCheck(Ok(Health.Spec(client, net, from).0))
      ensures trace == Health.Spec(client, net, from).1
      ensures polling
    {
      notices, trace := CheckStatus(net, from);
      polling := true;
    }

    /** One firing of the interval. */
    method Tick(net: Network, from: nat) returns (notices: seq<NotificationRequest>, trace: seq<Event>)
      requires polling
      modifies this
      ensures (isOffline, notices) == ApplyCheck(Ok(Health.Spec(client, net, from).0))
      ensures trace == Health.Spec(client, net, from).1
      ensures polling
    {
      notices, trace := CheckStatus(net, from);
    }

    /** The effect's cleanup: `clearInterval`. */
    method Unmount()
      modifies this
      ensures !polling && isOffline == old(isOffline)
    {
      polling := false;
    }
  }
}
