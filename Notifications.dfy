/** The notification and alert lists kept by the notification hook (frontend hooks/useNotifications.ts):
    adding, marking read, toggling, updating and removing entries, and the two counters. */
module Notifications {
  import opened Wrappers
  import opened Seqs
  import opened Market

  datatype NotificationKind = Success | Error | Warning | Info

  /** `timestamp` is in milliseconds; it is supplied by the caller. */
  datatype Notification = Notification(
    id: string,
    title: string,
    message: string,
    kind: NotificationKind,
    timestamp: int,
    read: bool)

  /** `alertType` is one of "OI_INCREASE", "OI_DECREASE", "PRICE_ABOVE", "PRICE_BELOW" by the
      declared type, but a stored list may hold anything, so it is kept as a string. */
  datatype Alert = Alert(
    id: string,
    symbol: string,
    strike: string,
    optionType: OptionSide,
    alertType: string,
    threshold: real,
    percentage: real,
    isActive: bool,
    createdAt: int)

  /** An alert before it is given an id and a creation time. */
  datatype AlertDraft = AlertDraft(
    symbol: string,
    strike: string,
    optionType: OptionSide,
    alertType: string,
    threshold: real,
    percentage: real,
    isActive: bool)

  /** A partial alert: the fields that are present overwrite the alert's. */
  datatype AlertUpdate = AlertUpdate(
    id: Option<string>,
    symbol: Option<string>,
    strike: Option<string>,
    optionType: Option<OptionSide>,
    alertType: Option<string>,
    threshold: Option<real>,
    percentage: Option<real>,
    isActive: Option<bool>,
    createdAt: Option<int>)

  function Pick<T>(update: Option<T>, current: T): T
  {
    if update.Some? then update.value else current
  }

  /** `{ ...alert, ...updates }`: every field the update gives overwrites the alert's, every
      field it leaves out keeps the alert's value. */
  function ApplyUpdate(alert: Alert, u: AlertUpdate): (r: Alert)
    ensures r.id == (if u.id.Some? then u.id.value else alert.id)
    ensures r.symbol == (if u.symbol.Some? then u.symbol.value else alert.symbol)
    ensures r.strike == (if u.strike.Some? then u.strike.value else alert.strike)
    ensures r.optionType == (if u.optionType.Some? then u.optionType.value else alert.optionType)
    ensures r.alertType == (if u.alertType.Some? then u.alertType.value else alert.alertType)
    ensures r.threshold == (if u.threshold.Some? then u.threshold.value else alert.threshold)
    ensures r.percentage == (if u.percentage.Some? then u.percentage.value else alert.percentage)
    ensures r.isActive == (if u.isActive.Some? then u.isActive.value else alert.isActive)
    ensures r.createdAt == (if u.createdAt.Some? then u.createdAt.value else alert.createdAt)
  {
    Alert(
      Pick(u.id, alert.id), Pick(u.symbol, alert.symbol), Pick(u.strike, alert.strike),
      Pick(u.optionType, alert.optionType), Pick(u.alertType, alert.alertType),
      Pick(u.threshold, alert.threshold), Pick(u.percentage, alert.percentage),
      Pick(u.isActive, alert.isActive), Pick(u.createdAt, alert.createdAt))
  }

  const NoChanges: AlertUpdate := AlertUpdate(None, None, None, None, None, None, None, None, None)

  /** Applying an update twice is applying it once, and the empty update changes nothing. */
  lemma ApplyUpdateIdempotent(alert: Alert, u: AlertUpdate)
    ensures ApplyUpdate(ApplyUpdate(alert, u), u) == ApplyUpdate(alert, u)
    ensures ApplyUpdate(alert, NoChanges) == alert
  {
  }

  /** `markAsRead(id)`: every notification with that id becomes read; nothing else changes. */
  function MarkRead(notifications: seq<Notification>, id: string): (r: seq<Notification>)
    ensures |r| == |notifications|
    ensures forall i :: 0 <= i < |r| ==>
      r[i].read == (notifications[i].read || notifications[i].id == id)
      && r[i].(read := notifications[i].read) == notifications[i]
  {
    Map(notifications, (n: Notification) => if n.id == id then n.(read := true) else n)
  }

  /** `markAllAsRead()`: every notification becomes read; nothing else changes. */
  function MarkAllRead(notifications: seq<Notification>): (r: seq<Notification>)
    ensures |r| == |notifications|
    ensures forall i :: 0 <= i < |r| ==> r[i].read && r[i].(read := notifications[i].read) == notifications[i]
  {
    Map(notifications, (n: Notification) => n.(read := true))
  }

  predicate IsUnread(n: Notification) { !n.read }

  /** `getUnreadCount()`: how many notifications are unread; 0 exactly when all are read. */
  function UnreadCount(notifications: seq<Notification>): (count: nat)
    ensures count <= |notifications|
    ensures count == 0 <==> forall i :: 0 <= i < |notifications| ==> notifications[i].read
  {
    if forall i :: 0 <= i < |notifications| ==> notifications[i].read then
      FilterDropsAll(notifications, IsUnread);
      |Filter(notifications, IsUnread)|
    else
      var i :| 0 <= i < |notifications| && !notifications[i].read;
      assert notifications[i] in Filter(notifications, IsUnread);
      |Filter(notifications, IsUnread)|
  }

  /** After marking all as read the unread count is 0. */
  lemma UnreadAfterMarkAll(notifications: seq<Notification>)
    ensures UnreadCount(MarkAllRead(notifications)) == 0
  {
  }

  /** Marking one id read removes exactly the unread notifications with that id from the unread ones. */
  lemma {:induction false} UnreadAfterMarkRead(notifications: seq<Notification>, id: string)
    ensures Filter(MarkRead(notifications, id), IsUnread)
      == Filter(Filter(notifications, IsUnread), (n: Notification) => n.id != id)
  {
    var otherId := (n: Notification) => n.id != id;
    if notifications != [] {
      var n, rest := notifications[0], notifications[1..];
      var marked := MarkRead(notifications, id);
      UnreadAfterMarkRead(rest, id);
      assert marked[1..] == MarkRead(rest, id);
      var head := if IsUnread(n) then [n] else [];
      assert Filter(notifications, IsUnread) == head + Filter(rest, IsUnread);
      FilterAppend(head, Filter(rest, IsUnread), otherId);
      assert Filter(head, otherId) == (if IsUnread(n) && n.id != id then [n] else []);
      assert IsUnread(marked[0]) <==> IsUnread(n) && n.id != id;
      assert Filter(marked, IsUnread)
        == (if IsUnread(marked[0]) then [marked[0]] else []) + Filter(marked[1..], IsUnread);
    }
  }

  /** `toggleAlert(id)`: `isActive` flips on the alerts with that id; nothing else changes. */
  function ToggleAlerts(alerts: seq<Alert>, id: string): (r: seq<Alert>)
    ensures |r| == |alerts|
    ensures forall i :: 0 <= i < |r| ==>
      (r[i].isActive <==> (alerts[i].isActive != (alerts[i].id == id)))
      && r[i].(isActive := alerts[i].isActive) == alerts[i]
  {
    Map(alerts, (a: Alert) => if a.id == id then a.(isActive := !a.isActive) else a)
  }

  /** Toggling the same id twice restores the list. */
  lemma ToggleTwice(alerts: seq<Alert>, id: string)
    ensures ToggleAlerts(ToggleAlerts(alerts, id), id) == alerts
  {
    var twice := ToggleAlerts(ToggleAlerts(alerts, id), id);
    assert forall i :: 0 <= i < |alerts| ==> twice[i] == alerts[i];
  }

  /** `updateAlert(id, updates)`: the alerts with that id take the given fields; the others are untouched. */
  function UpdateAlerts(alerts: seq<Alert>, id: string, u: AlertUpdate): (r: seq<Alert>)
    ensures |r| == |alerts|
    ensures forall i :: 0 <= i < |r| ==> alerts[i].id != id ==> r[i] == alerts[i]
  {
    Map(alerts, (a: Alert) => if a.id == id then ApplyUpdate(a, u) else a)
  }

  /** A matching alert becomes the alert spread with the update: it takes every field the
      update gives (a supplied id included) and keeps every field the update leaves out. */
  lemma UpdateAlertsOnMatch(alerts: seq<Alert>, id: string, u: AlertUpdate, i: int)
    requires 0 <= i < |alerts| && alerts[i].id == id
    ensures UpdateAlerts(alerts, id, u)[i] == ApplyUpdate(alerts[i], u)
    ensures var a, b := UpdateAlerts(alerts, id, u)[i], alerts[i];
      && (u.id.Some? ==> a.id == u.id.value) && (u.id.None? ==> a.id == id)
      && (u.symbol.Some? ==> a.symbol == u.symbol.value) && (u.symbol.None? ==> a.symbol == b.symbol)
      && (u.strike.Some? ==> a.strike == u.strike.value) && (u.strike.None? ==> a.strike == b.strike)
      && (u.optionType.Some? ==> a.optionType == u.optionType.value) && (u.optionType.None? ==> a.optionType == b.optionType)
      && (u.alertType.Some? ==> a.alertType == u.alertType.value) && (u.alertType.None? ==> a.alertType == b.alertType)
      && (u.threshold.Some? ==> a.threshold == u.threshold.value) && (u.threshold.None? ==> a.threshold == b.threshold)
      && (u.percentage.Some? ==> a.percentage == u.percentage.value) && (u.percentage.None? ==> a.percentage == b.percentage)
      && (u.isActive.Some? ==> a.isActive == u.isActive.value) && (u.isActive.None? ==> a.isActive == b.isActive)
      && (u.createdAt.Some? ==> a.createdAt == u.createdAt.value) && (u.createdAt.None? ==> a.createdAt == b.createdAt)
      && (u == NoChanges ==> a == b)
  {
  }

  predicate IsActive(a: Alert) { a.isActive }

  /** `getActiveAlertsCount()`: how many alerts are active; 0 exactly when none is. */
  function ActiveCount(alerts: seq<Alert>): (count: nat)
    ensures count <= |alerts|
    ensures count == 0 <==> forall i :: 0 <= i < |alerts| ==> !alerts[i].isActive
  {
    if forall i :: 0 <= i < |alerts| ==> !alerts[i].isActive then
      FilterDropsAll(alerts, IsActive);
      |Filter(alerts, IsActive)|
    else
      var i :| 0 <= i < |alerts| && alerts[i].isActive;
      assert alerts[i] in Filter(alerts, IsActive);
      |Filter(alerts, IsActive)|
  }

  /** The hook's two lists. */
  class NotificationCenter {
    var notifications: seq<Notification>
    var alerts: seq<Alert>

    constructor ()
      ensures notifications == [] && alerts == []
    {
      notifications := [];
      alerts := [];
    }

    /** New notifications go first, unread, with the caller's id and time. */
    method AddNotification(title: string, message: string, kind: NotificationKind, id: string, now: int)
      modifies this`notifications
      ensures notifications == [Notification(id, title, message, kind, now, false)] + old(notifications)
    {
      var newNotification := Notification(id, title, message, kind, now, false);
      notifications := [newNotification] + notifications;
    }

    method MarkAsRead(id: string)
      modifies this`notifications
      ensures notifications == MarkRead(old(notifications), id)
    {
      notifications := MarkRead(notifications, id);
    }

    method MarkAllAsRead()
      modifies this`notifications
      ensures notifications == MarkAllRead(old(notifications))
      ensures GetUnreadCount() == 0
    {
      notifications := MarkAllRead(notifications);
    }

    /** Drops every notification with the id and keeps the others in order. */
    method RemoveNotification(id: string)
      modifies this`notifications
      ensures notifications == Filter(old(notifications), (n: Notification) => n.id != id)
    {
      notifications := Filter(notifications, (n: Notification) => n.id != id);
    }

    method ClearAllNotifications()
      modifies this`notifications
      ensures notifications == []
    {
      notifications := [];
    }

    /** New alerts go last, with the caller's id and time. */
    method AddAlert(draft: AlertDraft, id: string, now: int)
      modifies this`alerts
      ensures alerts == old(alerts) + [Alert(id, draft.symbol, draft.strike, draft.optionType,
        draft.alertType, draft.threshold, draft.percentage, draft.isActive, now)]
    {
      var newAlert := Alert(id, draft.symbol, draft.strike, draft.optionType,
        draft.alertType, draft.threshold, draft.percentage, draft.isActive, now);
      alerts := alerts + [newAlert];
    }

    method UpdateAlert(id: string, updates: AlertUpdate)
      modifies this`alerts
      ensures alerts == UpdateAlerts(old(alerts), id, updates)
    {
      alerts := UpdateAlerts(alerts, id, updates);
    }

    /** Drops every alert with the id and keeps the others in order. */
    method RemoveAlert(id: string)
      modifies this`alerts
      ensures alerts == Filter(old(alerts), (a: Alert) => a.id != id)
    {
      alerts := Filter(alerts, (a: Alert) => a.id != id);
    }

    method ToggleAlert(id: string)
      modifies this`alerts
      ensures alerts == ToggleAlerts(old(alerts), id)
    {
      alerts := ToggleAlerts(alerts, id);
    }

    /** `getUnreadCount()`: at most the number of notifications, and 0 exactly when all are read. */
    function GetUnreadCount(): (count: nat)
      reads this
      ensures count <= |notifications|
      ensures count == 0 <==> forall i :: 0 <= i < |notifications| ==> notifications[i].read
    {
      UnreadCount(notifications)
    }

    /** `getActiveAlertsCount()`: at most the number of alerts, and 0 exactly when none is active. */
    function GetActiveAlertsCount(): (count: nat)
      reads this
      ensures count <= |alerts|
      ensures count == 0 <==> forall i :: 0 <= i < |alerts| ==> !alerts[i].isActive
    {
      ActiveCount(alerts)
    }
  }
}
