/**
 * The `ui` slice of the Redux store: sidebar and offline flags, the
 * notification list with its cached unread count, and the snackbar.
 *
 * `Reduce` is the meaning of each reducer on an immutable value; the class
 * `UiState` holds the same fields and updates them in place, each method
 * proved to agree with `Reduce`. The typed and untyped versions of the
 * slice have the same reducers, so one model serves both.
 */
module UiSlice {
  import opened Common

  datatype Notification = Notification(
    id: string, kind: string, title: string, message: string, timestamp: string, read: bool)

  datatype Severity = Success | Error | Warning | Info

  datatype Snackbar = Snackbar(open: bool, message: string, severity: Severity)

  datatype UiValue = UiValue(
    sidebarOpen: bool,
    notifications: seq<Notification>,
    unreadCount: int,
    isOffline: bool,
    snackbar: Snackbar)

  /** The actions the slice exports; `ShowSnackbar`'s severity is optional in the payload. */
  datatype Action =
    | ToggleSidebar
    | SetSidebarOpen(open: bool)
    | SetNotifications(payload: seq<Notification>)
    | AddNotification(notification: Notification)
    | MarkNotificationRead(target: string)
    | MarkAllNotificationsRead
    | SetOfflineMode(offline: bool)
    | ShowSnackbar(text: string, level: Option<Severity>)
    | HideSnackbar

  predicate IsUnread(n: Notification) {
    !n.read
  }

  /** Number of records whose `read` flag is false. */
  function UnreadCount(ns: seq<Notification>): nat {
    Count(ns, IsUnread)
  }

  /** The cached counter agrees with the list. */
  predicate Consistent(v: UiValue) {
    v.unreadCount == UnreadCount(v.notifications)
  }

  function Initial(): UiValue {
    UiValue(true, [], 0, false, Snackbar(false, "", Info))
  }

  /** Index of the first record with the given id (`Array.prototype.find`). */
  function FindFirst(ns: seq<Notification>, id: string): (r: Option<nat>)
    ensures r.Some? ==> r.value < |ns| && ns[r.value].id == id
    ensures r.Some? ==> forall j :: 0 <= j < r.value ==> ns[j].id != id
    ensures r.None? <==> forall j :: 0 <= j < |ns| ==> ns[j].id != id
  {
    if ns == [] then None
    else if ns[0].id == id then Some(0)
    else match FindFirst(ns[1..], id)
      case None => None
      case Some(k) => Some(k + 1)
  }

  /** Every record with its `read` flag set, in the same order. */
  function AllRead(ns: seq<Notification>): (r: seq<Notification>)
    ensures |r| == |ns|
    ensures forall i :: 0 <= i < |r| ==> r[i] == ns[i].(read := true)
  {
    seq(|ns|, i requires 0 <= i < |ns| => ns[i].(read := true))
  }

  function Reduce(v: UiValue, a: Action): UiValue {
    match a
    case ToggleSidebar => v.(sidebarOpen := !v.sidebarOpen)
    case SetSidebarOpen(open) => v.(sidebarOpen := open)
    case SetNotifications(payload) =>
      v.(notifications := payload, unreadCount := UnreadCount(payload))
    case AddNotification(n) =>
      v.(notifications := [n] + v.notifications,
         unreadCount := if n.read then v.unreadCount else v.unreadCount + 1)
    case MarkNotificationRead(id) =>
      (match FindFirst(v.notifications, id)
       case Some(i) =>
         if !v.notifications[i].read then
           v.(notifications := v.notifications[i := v.notifications[i].(read := true)],
              unreadCount := v.unreadCount - 1)
         else v
       case None => v)
    case MarkAllNotificationsRead =>
      v.(notifications := AllRead(v.notifications), unreadCount := 0)
    case SetOfflineMode(offline) => v.(isOffline := offline)
    case ShowSnackbar(text, level) => v.(snackbar := Snackbar(true, text, level.GetOr(Info)))
    case HideSnackbar => v.(snackbar := v.snackbar.(open := false))
  }

  function ReduceAll(v: UiValue, actions: seq<Action>): UiValue
    decreases |actions|
  {
    if actions == [] then v else ReduceAll(Reduce(v, actions[0]), actions[1..])
  }

  /** Every reducer keeps the cached unread count equal to the number of unread records. */
  lemma ReducePreservesConsistent(v: UiValue, a: Action)
    requires Consistent(v)
    ensures Consistent(Reduce(v, a))
  {
    match a
    case AddNotification(n) =>
      CountPrepend(n, v.notifications, IsUnread);
    case MarkNotificationRead(id) =>
      match FindFirst(v.notifications, id) {
        case Some(i) =>
          CountUpdate(v.notifications, IsUnread, i, v.notifications[i].(read := true));
        case None =>
      }
    case MarkAllNotificationsRead =>
      CountNone(AllRead(v.notifications), IsUnread);
    case _ =>
  }

  /** From the initial state, any sequence of actions leaves a consistent, non-negative count. */
  lemma {:induction false} ReduceAllConsistent(v: UiValue, actions: seq<Action>)
    requires Consistent(v)
    ensures Consistent(ReduceAll(v, actions))
    ensures ReduceAll(v, actions).unreadCount >= 0
    decreases |actions|
  {
    if actions != [] {
      ReducePreservesConsistent(v, actions[0]);
      ReduceAllConsistent(Reduce(v, actions[0]), actions[1..]);
    }
  }

  lemma InitialConsistent()
    ensures Consistent(Initial())
    ensures Initial().sidebarOpen && !Initial().isOffline
    ensures Initial().notifications == [] && Initial().unreadCount == 0
    ensures Initial().snackbar == Snackbar(false, "", Info)
  {
  }

  /** `setNotifications` installs the payload and counts its unread records. */
  lemma SetNotificationsEffect(v: UiValue, payload: seq<Notification>)
    ensures Reduce(v, SetNotifications(payload)).notifications == payload
    ensures Consistent(Reduce(v, SetNotifications(payload)))
    ensures Reduce(v, SetNotifications(payload)).unreadCount <= |payload|
  {
  }

  /** `addNotification` prepends and raises the count exactly when the record is unread. */
  lemma {:induction false} AddNotificationEffect(v: UiValue, n: Notification)
    requires Consistent(v)
    ensures var r := Reduce(v, AddNotification(n));
      |r.notifications| == |v.notifications| + 1 && r.notifications[0] == n &&
      r.notifications[1..] == v.notifications &&
      UnreadCount(r.notifications) == UnreadCount(v.notifications) + (if n.read then 0 else 1)
  {
    CountPrepend(n, v.notifications, IsUnread);
  }

  /** Whether the first record carrying `id` is unread decides whether anything changes. */
  predicate HasUnreadFirst(ns: seq<Notification>, id: string) {
    exists i :: 0 <= i < |ns| && ns[i].id == id && !ns[i].read &&
      forall j :: 0 <= j < i ==> ns[j].id != id
  }

  /**
   * `markNotificationRead` is a no-op unless the first record with that id is
   * unread; then it flips exactly that record and lowers the count by one.
   */
  lemma {:induction false} MarkNotificationReadEffect(v: UiValue, id: string)
    requires Consistent(v)
    ensures var r := Reduce(v, MarkNotificationRead(id));
      (r == v <==> !HasUnreadFirst(v.notifications, id)) &&
      |r.notifications| == |v.notifications| &&
      (HasUnreadFirst(v.notifications, id) ==> UnreadCount(r.notifications) == UnreadCount(v.notifications) - 1) &&
      (forall i :: 0 <= i < |r.notifications| && r.notifications[i] != v.notifications[i] ==>
        r.notifications[i] == v.notifications[i].(read := true) && v.notifications[i].id == id)
  {
    var ns := v.notifications;
    match FindFirst(ns, id)
    case Some(i) =>
      if !ns[i].read {
        assert HasUnreadFirst(ns, id);
        CountUpdate(ns, IsUnread, i, ns[i].(read := true));
        assert Reduce(v, MarkNotificationRead(id)).notifications[i] != ns[i];
      } else {
        assert forall k :: 0 <= k < |ns| && ns[k].id == id && (forall j :: 0 <= j < k ==> ns[j].id != id) ==> k == i;
      }
    case None =>
  }

  /** Marking the same id twice is the same as marking it once. */
  lemma {:induction false} MarkNotificationReadIdempotent(v: UiValue, id: string)
    ensures var once := Reduce(v, MarkNotificationRead(id));
      Reduce(once, MarkNotificationRead(id)) == once
  {
    var ns := v.notifications;
    match FindFirst(ns, id)
    case Some(i) =>
      if !ns[i].read {
        var ns' := ns[i := ns[i].(read := true)];
        assert ns'[i].id == id && ns'[i].read;
        assert forall j :: 0 <= j < i ==> ns'[j].id != id;
        assert FindFirst(ns', id) == Some(i);
      }
    case None =>
  }

  /** `markAllNotificationsRead` leaves nothing unread, keeps length and order, and is idempotent. */
  lemma MarkAllNotificationsReadEffect(v: UiValue)
    ensures var r := Reduce(v, MarkAllNotificationsRead);
      UnreadCount(r.notifications) == 0 && r.unreadCount == 0 &&
      |r.notifications| == |v.notifications| &&
      (forall i :: 0 <= i < |r.notifications| ==> r.notifications[i].id == v.notifications[i].id) &&
      Reduce(r, MarkAllNotificationsRead) == r
  {
    var r := Reduce(v, MarkAllNotificationsRead);
    CountNone(r.notifications, IsUnread);
    assert AllRead(r.notifications) == r.notifications;
  }

  /** Two toggles restore the sidebar flag. */
  lemma ToggleSidebarTwice(v: UiValue)
    ensures Reduce(Reduce(v, ToggleSidebar), ToggleSidebar) == v
    ensures Reduce(v, ToggleSidebar).sidebarOpen == !v.sidebarOpen
  {
  }

  /** The layout and snackbar actions never touch the notification list or its count. */
  lemma LayoutActionsKeepNotifications(v: UiValue, a: Action)
    requires a.ToggleSidebar? || a.SetSidebarOpen? || a.SetOfflineMode? || a.ShowSnackbar? || a.HideSnackbar?
    ensures Reduce(v, a).notifications == v.notifications
    ensures Reduce(v, a).unreadCount == v.unreadCount
  {
  }

  /** `showSnackbar` opens with the message and the severity, `info` when none is given; `hideSnackbar` only closes. */
  lemma SnackbarEffect(v: UiValue, text: string, level: Option<Severity>)
    ensures Reduce(v, ShowSnackbar(text, level)).snackbar.open
    ensures Reduce(v, ShowSnackbar(text, level)).snackbar.message == text
    ensures level.None? ==> Reduce(v, ShowSnackbar(text, level)).snackbar.severity == Info
    ensures level.Some? ==> Reduce(v, ShowSnackbar(text, level)).snackbar.severity == level.value
    ensures Reduce(v, HideSnackbar) == v.(snackbar := Snackbar(false, v.snackbar.message, v.snackbar.severity))
  {
  }

  /** The unread count is zero exactly when every record is read. */
  lemma NoUnreadIff(ns: seq<Notification>)
    ensures UnreadCount(ns) == 0 <==> forall i :: 0 <= i < |ns| ==> ns[i].read
  {
    if UnreadCount(ns) == 0 {
      forall i | 0 <= i < |ns| ensures ns[i].read {
        FilterMembership(ns, IsUnread, ns[i]);
      }
    } else {
      var f := Filter(ns, IsUnread);
      FilterMembership(ns, IsUnread, f[0]);
    }
    if forall i :: 0 <= i < |ns| ==> ns[i].read {
      CountNone(ns, IsUnread);
    }
  }

  /** The slice state, updated in place by the reducers. */
  class UiState {
    var sidebarOpen: bool
    var notifications: seq<Notification>
    var unreadCount: int
    var isOffline: bool
    var snackbar: Snackbar

    function Value(): UiValue
      reads this
    {
      UiValue(sidebarOpen, notifications, unreadCount, isOffline, snackbar)
    }

    constructor ()
      ensures Value() == Initial()
      ensures sidebarOpen && notifications == [] && unreadCount == 0 && !isOffline
      ensures snackbar == Snackbar(false, "", Info)
    {
      sidebarOpen := true;
      notifications := [];
      unreadCount := 0;
      isOffline := false;
      snackbar := Snackbar(false, "", Info);
    }

    method ToggleSidebar()
      modifies this
      ensures Value() == Reduce(old(Value()), Action.ToggleSidebar)
    {
      sidebarOpen := !sidebarOpen;
    }

    method SetSidebarOpen(open: bool)
      modifies this
      ensures Value() == Reduce(old(Value()), Action.SetSidebarOpen(open))
    {
      sidebarOpen := open;
    }

    /** Replaces the list and recounts, one record at a time. */
    method SetNotifications(payload: seq<Notification>)
      modifies this
      ensures Value() == Reduce(old(Value()), Action.SetNotifications(payload))
      ensures Consistent(Value())
    {
      var count := 0;
      var i := |payload|;
      while i > 0
        invariant 0 <= i <= |payload|
        invariant count == UnreadCount(payload[i..])
        invariant Value() == old(Value())
      {
        i := i - 1;
        CountPrepend(payload[i], payload[i + 1..], IsUnread);
        assert payload[i..] == [payload[i]] + payload[i + 1..];
        if !payload[i].read {
          count := count + 1;
        }
      }
      assert payload[0..] == payload;
      notifications := payload;
      unreadCount := count;
    }

    method AddNotification(n: Notification)
      modifies this
      ensures Value() == Reduce(old(Value()), Action.AddNotification(n))
    {
      notifications := [n] + notifications;
      if !n.read {
        unreadCount := unreadCount + 1;
      }
    }

    /** Finds the first record with the id and, if it is unread, marks it and decrements the count. */
    method MarkNotificationRead(id: string)
      modifies this
      ensures Value() == Reduce(old(Value()), Action.MarkNotificationRead(id))
    {
      var i := 0;
      while i < |notifications| && notifications[i].id != id
        invariant 0 <= i <= |notifications|
        invariant forall j :: 0 <= j < i ==> notifications[j].id != id
      {
        i := i + 1;
      }
      if i < |notifications| && !notifications[i].read {
        notifications := notifications[i := notifications[i].(read := true)];
        unreadCount := unreadCount - 1;
      }
    }

    method MarkAllNotificationsRead()
      modifies this
      ensures Value() == Reduce(old(Value()), Action.MarkAllNotificationsRead)
    {
      var i := 0;
      while i < |notifications|
        invariant 0 <= i <= |notifications| == |old(notifications)|
        invariant forall j :: 0 <= j < i ==> notifications[j] == old(notifications)[j].(read := true)
        invariant forall j :: i <= j < |notifications| ==> notifications[j] == old(notifications)[j]
        invariant sidebarOpen == old(sidebarOpen) && isOffline == old(isOffline)
        invariant snackbar == old(snackbar) && unreadCount == old(unreadCount)
      {
        notifications := notifications[i := notifications[i].(read := true)];
        i := i + 1;
      }
      unreadCount := 0;
    }

    method SetOfflineMode(offline: bool)
      modifies this
      ensures Value() == Reduce(old(Value()), Action.SetOfflineMode(offline))
    {
      isOffline := offline;
    }

    method ShowSnackbar(text: string, level: Option<Severity>)
      modifies this
      ensures Value() == Reduce(old(Value()), Action.ShowSnackbar(text, level))
    {
      var severity := if level.Some? then level.value else Info;
      snackbar := Snackbar(true, text, severity);
    }

    method HideSnackbar()
      modifies this
      ensures Value() == Reduce(old(Value()), Action.HideSnackbar)
    {
      snackbar := snackbar.(open := false);
    }

    /** Applies an action by calling the matching reducer. */
    method Dispatch(a: Action)
      modifies this
      ensures Value() == Reduce(old(Value()), a)
    {
      match a
      case ToggleSidebar => ToggleSidebar();
      case SetSidebarOpen(open) => SetSidebarOpen(open);
      case SetNotifications(payload) => SetNotifications(payload);
      case AddNotification(n) => AddNotification(n);
      case MarkNotificationRead(id) => MarkNotificationRead(id);
      case MarkAllNotificationsRead => MarkAllNotificationsRead();
      case SetOfflineMode(offline) => SetOfflineMode(offline);
      case ShowSnackbar(text, level) => ShowSnackbar(text, level);
      case HideSnackbar => HideSnackbar();
    }
  }
}
