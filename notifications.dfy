/** The notification list of src/components/Notification/NotificationContext.tsx. Each
    `showNotification` appends a notification with a fresh id and sets a five-second
    timer that removes it; every timer waits the same time, so they fire in the order
    they were set. Timers become the queue `timers` of the ids still to expire, fired
    by `Expire`. */
module Notifications {
  import opened Wrappers

  datatype Kind = Success | Failure | Info | Warning

  /** What a caller passes to `showNotification`: everything but the id. */
  datatype NotificationRequest = NotificationRequest(kind: Kind, message: string)

  /** `NotificationProps`. */
  datatype Notification = Notification(id: string, kind: Kind, message: string)

  const ExpiryMs: nat := 5000
  const OutsideProvider: string := "useNotification must be used within a NotificationProvider"

  function IdsOf(ns: seq<Notification>): (ids: seq<string>)
    ensures |ids| == |ns|
    ensures forall i :: 0 <= i < |ns| ==> ids[i] == ns[i].id
  {
    seq(|ns|, i requires 0 <= i < |ns| => ns[i].id)
  }

  /** `prev.filter(n => n.id !== id)`. */
  function Without(ns: seq<Notification>, id: string): (r: seq<Notification>)
    ensures forall n :: n in r <==> n in ns && n.id != id
  {
    if ns == [] then [] else (if ns[0].id == id then [] else [ns[0]]) + Without(ns[1..], id)
  }

  /** Removing the id of the first notification of a list whose ids are distinct
      drops exactly that notification. */
  lemma {:induction false} WithoutFirst(ns: seq<Notification>)
    requires ns != []
    requires forall i, j :: 0 <= i < j < |ns| ==> ns[i].id != ns[j].id
    ensures Without(ns, ns[0].id) == ns[1..]
  {
    NoMatchKept(ns[1..], ns[0].id);
  }

  lemma {:induction false} NoMatchKept(ns: seq<Notification>, id: string)
    requires forall i :: 0 <= i < |ns| ==> ns[i].id != id
    ensures Without(ns, id) == ns
  {
    if ns != [] {
      NoMatchKept(ns[1..], id);
    }
  }

  class NotificationProvider {
    var notifications: seq<Notification>
    var timers: seq<string>
    ghost var shown: nat
    ghost var expired: nat

    /** The pending timers are exactly the visible notifications, oldest first, so the
        visible count is the number shown less the number expired. */
    ghost predicate Valid()
      reads this
    {
      && IdsOf(notifications) == timers
      && (forall i, j :: 0 <= i < j < |notifications| ==> notifications[i].id != notifications[j].id)
      && |notifications| + expired == shown
    }

    constructor ()
      ensures notifications == [] && timers == [] && Valid()
    {
      notifications := [];
      timers := [];
      shown := 0;
      expired := 0;
    }

    /** `showNotification(request)` with the id `generateUniqueId` returns. */
    method Show(request: NotificationRequest, freshId: string)
      requires Valid() && freshId !in timers
      modifies this
      ensures notifications == old(notifications) + [Notification(freshId, request.kind, request.message)]
      ensures timers == old(timers) + [freshId]
      ensures shown == old(shown) + 1 && expired == old(expired)
      ensures Valid()
    {
      notifications := notifications + [Notification(freshId, request.kind, request.message)];
      timers := timers + [freshId];
      shown := shown + 1;
    }

    /** The oldest timer firing: the notification with its id goes, the others stay in
        their order. */
    method Expire()
      requires Valid() && timers != []
      modifies this
      ensures notifications == Without(old(notifications), old(timers)[0]) == old(notifications)[1..]
      ensures timers == old(timers)[1..]
      ensures expired == old(expired) + 1 && shown == old(shown)
      ensures Valid()
    {
      WithoutFirst(notifications);
      notifications := Without(notifications, timers[0]);
      timers := timers[1..];
      expired := expired + 1;
      assert IdsOf(notifications) == old(IdsOf(notifications))[1..];
    }
  }

  /** `useNotification()`: the provider's `showNotification`, or an error outside one. */
  function UseNotification(context: Option<NotificationProvider>): (r: Result<NotificationProvider, string>)
    ensures r.Err? <==> context.None?
    ensures r.Err? ==> r.error == OutsideProvider
    ensures r.Ok? ==> r.value == context.value
  {
    match context
    case None => Err(OutsideProvider)
    case Some(p) => Ok(p)
  }
}
