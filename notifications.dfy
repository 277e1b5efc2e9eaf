/** The notification centre (`contexts/NotificationContext.tsx`):
    notifications are put in front, stamped with the current millisecond as
    their id, removed by id, and a low-stock warning is raised when some item
    is at or below its reorder level and no such warning is present yet. The
    clock is the `now` parameter; the effect that raises the warning is the
    `CheckLowStock` method, run after each change of the inventory or of the
    notifications. */
module Notifications {
  import opened Types
  import opened Collections
  import Text
  import Dashboard

  datatype Level = InfoLevel | WarningLevel | ErrorLevel

  datatype Notification = Notification(id: int, title: string, message: string, level: Level)

  const LowStockTitle := "Low Stock Alert"

  /** `prev.filter(n => n.id !== id)`. */
  function Without(notifications: seq<Notification>, id: int): (r: seq<Notification>)
    ensures forall n :: n in r <==> n in notifications && n.id != id
  {
    Filter(notifications, (n: Notification) => n.id != id)
  }

  /** Removal keeps the order of the rest: removing from a concatenation
      removes from each part. */
  lemma WithoutAppend(a: seq<Notification>, b: seq<Notification>, id: int)
    ensures Without(a + b, id) == Without(a, id) + Without(b, id)
  {
    FilterAppend(a, b, (n: Notification) => n.id != id);
  }

  /** One notification is kept exactly when it has another id. */
  lemma WithoutSingle(n: Notification, id: int)
    ensures Without([n], id) == if n.id != id then [n] else []
  {
    assert [n][..0] == [];
  }

  /** `notifications.some(n => n.title.includes('Low Stock Alert'))`. */
  predicate HasLowStockAlert(notifications: seq<Notification>) {
    exists i :: 0 <= i < |notifications| && Text.Contains(notifications[i].title, LowStockTitle)
  }

  function LowStockAlert(count: nat, now: int): Notification {
    Notification(now, LowStockTitle, Text.NatText(count) + " item(s) are below reorder level.", WarningLevel)
  }

  /** The notifications after the low-stock effect has run. */
  function AfterCheck(notifications: seq<Notification>, inventory: seq<InventoryItem>, now: int): (r: seq<Notification>)
    ensures Dashboard.LowStockCount(inventory) == 0 || HasLowStockAlert(notifications) ==> r == notifications
    ensures Dashboard.LowStockCount(inventory) > 0 && !HasLowStockAlert(notifications) ==>
      r == [LowStockAlert(Dashboard.LowStockCount(inventory), now)] + notifications
  {
    var count := Dashboard.LowStockCount(inventory);
    if count > 0 && !HasLowStockAlert(notifications) then [LowStockAlert(count, now)] + notifications
    else notifications
  }

  /** A list headed by a low-stock warning has one. */
  lemma AlertInFront(count: nat, now: int, rest: seq<Notification>)
    ensures HasLowStockAlert([LowStockAlert(count, now)] + rest)
  {
    var n := LowStockAlert(count, now);
    assert Text.StartsWith(n.title, LowStockTitle);
    assert ([n] + rest)[0] == n;
  }

  /** The warning is raised at most once: running the effect again, at any
      later instant, adds nothing. */
  lemma AlertRaisedOnce(notifications: seq<Notification>, inventory: seq<InventoryItem>, t1: int, t2: int)
    ensures var once := AfterCheck(notifications, inventory, t1);
      AfterCheck(once, inventory, t2) == once
  {
    var once := AfterCheck(notifications, inventory, t1);
    if once != notifications {
      AlertInFront(Dashboard.LowStockCount(inventory), t1, notifications);
    }
  }

  /** After the effect there is a low-stock warning whenever some item is
      low, and the warning counts the low items. */
  lemma AlertWhenLow(notifications: seq<Notification>, inventory: seq<InventoryItem>, now: int)
    requires exists i :: 0 <= i < |inventory| && inventory[i].quantity <= inventory[i].reorderLevel
    ensures HasLowStockAlert(AfterCheck(notifications, inventory, now))
  {
    var r := AfterCheck(notifications, inventory, now);
    if !HasLowStockAlert(notifications) {
      AlertInFront(Dashboard.LowStockCount(inventory), now, notifications);
    } else {
      var i :| 0 <= i < |notifications| && Text.Contains(notifications[i].title, LowStockTitle);
      assert r[i] == notifications[i];
    }
  }

  class NotificationCenter {
    var notifications: seq<Notification>

    constructor()
      ensures notifications == []
    {
      notifications := [];
    }

    /** `addNotification`: puts one notification in front, `info` unless
        told otherwise. */
    method Add(title: string, message: string, now: int, level: Level := InfoLevel)
      modifies this
      ensures notifications == [Notification(now, title, message, level)] + old(notifications)
    {
      notifications := [Notification(now, title, message, level)] + notifications;
    }

    /** `removeNotification`: drops every notification with the id and
        keeps the others in order. */
    method Remove(id: int)
      modifies this
      ensures notifications == Without(old(notifications), id)
    {
      notifications := Without(notifications, id);
    }

    /** The low-stock effect. */
    method CheckLowStock(inventory: seq<InventoryItem>, now: int)
      modifies this
      ensures notifications == AfterCheck(old(notifications), inventory, now)
    {
      var count := Dashboard.LowStockCount(inventory);
      if count > 0 && !HasLowStockAlert(notifications) {
        Add(LowStockTitle, Text.NatText(count) + " item(s) are below reorder level.", now, WarningLevel);
      }
    }
  }
}
