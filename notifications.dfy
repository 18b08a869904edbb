/**
 * The notification queue (src/composables/useNotification.ts): one shared state with the
 * toasts on screen and the id the next toast gets.
 */
module Notifications {
  import opened Common
  import Seqs

  datatype Kind = Success | Error | Warning | Info

  datatype Notification = Notification(id: int, kind: Kind, message: string, timeout: int)

  /** `timeout: number = 4000`. */
  const DefaultTimeout: int := 4000

  /** Ids strictly increase along the queue and all lie in `[1, nextId)`. */
  predicate IdsIncreasing(ns: seq<Notification>, nextId: int)
  {
    && 1 <= nextId
    && (forall i, j :: 0 <= i < j < |ns| ==> ns[i].id < ns[j].id)
    && (forall k :: 0 <= k < |ns| ==> 1 <= ns[k].id < nextId)
  }

  /** Strictly increasing ids are unique. */
  lemma IncreasingIdsAreUnique(ns: seq<Notification>, nextId: int, i: nat, j: nat)
    requires IdsIncreasing(ns, nextId)
    requires i < |ns| && j < |ns| && ns[i].id == ns[j].id
    ensures i == j
  {
  }

  /** `(n) => n.id === id`. */
  function HasId(id: int): Notification -> bool
  {
    (n: Notification) => n.id == id
  }

  /** `removeNotification(id)` on the queue: `Seqs.RemoveFirst` by id, the same splice the stores use. */
  function Removed(ns: seq<Notification>, id: int): (r: seq<Notification>)
    ensures var i := Seqs.FindIndex(ns, HasId(id));
      && (i == -1 ==> r == ns)
      && (0 <= i ==> |r| == |ns| - 1 && r == ns[..i] + ns[i + 1..])
  {
    Seqs.SpliceIsRemoveFirst(ns, HasId(id));
    Seqs.RemoveFirst(ns, HasId(id))
  }

  /** Pushing a notification with id `nextId` and moving the counter on keeps the ids increasing. */
  lemma PushKeepsIncreasing(ns: seq<Notification>, nextId: int, n: Notification)
    requires IdsIncreasing(ns, nextId) && n.id == nextId
    ensures IdsIncreasing(ns + [n], nextId + 1)
  {
  }

  /** Removing a notification keeps the ids increasing, and afterwards no notification has that id. */
  lemma RemoveKeepsIncreasing(ns: seq<Notification>, nextId: int, id: int)
    requires IdsIncreasing(ns, nextId)
    ensures IdsIncreasing(Removed(ns, id), nextId)
    ensures forall k :: 0 <= k < |Removed(ns, id)| ==> Removed(ns, id)[k].id != id
  {
    var i := Seqs.FindIndex(ns, HasId(id));
    if i != -1 {
      var r := Removed(ns, id);
      assert forall k :: 0 <= k < |r| ==> r[k] == if k < i then ns[k] else ns[k + 1];
      forall k | 0 <= k < |r| ensures r[k].id != id {
        if k < i { assert ns[k].id < ns[i].id; } else { assert ns[i].id < ns[k + 1].id; }
      }
    }
  }

  /** `reactive({ notifications: [], nextId: 1 })` and the functions of `useNotification()`. */
  class NotificationState {
    var notifications: seq<Notification>
    var nextId: int

    predicate Valid()
      reads this
    {
      IdsIncreasing(notifications, nextId)
    }

    constructor()
      ensures notifications == [] && nextId == 1 && Valid()
    {
      notifications := [];
      nextId := 1;
    }

    /**
     * `addNotification(type, message, timeout = 4000)`: take the current `nextId`, advance it,
     * push the notification and report whether its removal timer was started.
     */
    method AddNotification(kind: Kind, message: string, timeout: Option<int>) returns (id: int, scheduled: bool)
      requires Valid()
      modifies this
      ensures id == old(nextId) && nextId == old(nextId) + 1
      ensures notifications == old(notifications) + [Notification(id, kind, message, OrDefault(timeout, DefaultTimeout))]
      ensures scheduled <==> OrDefault(timeout, DefaultTimeout) > 0
      ensures Valid()
    {
      var t := OrDefault(timeout, DefaultTimeout);
      id := nextId;
      nextId := nextId + 1;
      var notification := Notification(id, kind, message, t);
      PushKeepsIncreasing(notifications, id, notification);
      notifications := notifications + [notification];
      scheduled := t > 0;
    }

    /** `removeNotification(id)`: `findIndex`, then `splice(index, 1)` when found. */
    method RemoveNotification(id: int)
      requires Valid()
      modifies this
      ensures notifications == Removed(old(notifications), id) && nextId == old(nextId)
      ensures Valid()
    {
      var index := Seqs.FindIndex(notifications, HasId(id));
      if index > -1 {
        notifications := notifications[..index] + notifications[index + 1..];
      }
      RemoveKeepsIncreasing(old(notifications), nextId, id);
    }

    /** `showSuccess(message, timeout)`. */
    method ShowSuccess(message: string, timeout: Option<int>) returns (id: int)
      requires Valid()
      modifies this
      ensures id == old(nextId) && nextId == old(nextId) + 1
      ensures notifications == old(notifications) + [Notification(id, Success, message, OrDefault(timeout, DefaultTimeout))]
      ensures Valid()
    {
      var scheduled;
      id, scheduled := AddNotification(Success, message, timeout);
    }

    /** `showError(message, timeout)`. */
    method ShowError(message: string, timeout: Option<int>) returns (id: int)
      requires Valid()
      modifies this
      ensures id == old(nextId) && nextId == old(nextId) + 1
      ensures notifications == old(notifications) + [Notification(id, Error, message, OrDefault(timeout, DefaultTimeout))]
      ensures Valid()
    {
      var scheduled;
      id, scheduled := AddNotification(Error, message, timeout);
    }

    /** `showWarning(message, timeout)`. */
    method ShowWarning(message: string, timeout: Option<int>) returns (id: int)
      requires Valid()
      modifies this
      ensures id == old(nextId) && nextId == old(nextId) + 1
      ensures notifications == old(notifications) + [Notification(id, Warning, message, OrDefault(timeout, DefaultTimeout))]
      ensures Valid()
    {
      var scheduled;
      id, scheduled := AddNotification(Warning, message, timeout);
    }

    /** `showInfo(message, timeout)`. */
    method ShowInfo(message: string, timeout: Option<int>) returns (id: int)
      requires Valid()
      modifies this
      ensures id == old(nextId) && nextId == old(nextId) + 1
      ensures notifications == old(notifications) + [Notification(id, Info, message, OrDefault(timeout, DefaultTimeout))]
      ensures Valid()
    {
      var scheduled;
      id, scheduled := AddNotification(Info, message, timeout);
    }
  }
}
