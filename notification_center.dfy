/**
 * The notification page. The typed page derives its counts and the
 * all/unread/read view from the fetched list; the untyped page works on the
 * store slice: it loads the list (falling back to five sample records when
 * the fetch fails) and dispatches the mark-read reducers whether or not the
 * server call succeeded.
 */
module NotificationCenter {
  import opened Common
  import opened UiSlice

  datatype FilterChoice = All | Unread | Read

  predicate IsRead(n: Notification) {
    n.read
  }

  /** The list shown under the selected filter button. */
  function Filtered(ns: seq<Notification>, choice: FilterChoice): seq<Notification> {
    match choice
    case Unread => Filter(ns, IsUnread)
    case Read => Filter(ns, IsRead)
    case All => ns
  }

  /** The unread and read views split the list, each in the original order; 'all' is the list itself. */
  lemma FilterViewsPartition(ns: seq<Notification>)
    ensures |Filtered(ns, Unread)| + |Filtered(ns, Read)| == |ns|
    ensures IsSubsequence(Filtered(ns, Unread), ns) && IsSubsequence(Filtered(ns, Read), ns)
    ensures Filtered(ns, All) == ns
    ensures forall i :: 0 <= i < |Filtered(ns, Unread)| ==> !Filtered(ns, Unread)[i].read
    ensures forall i :: 0 <= i < |Filtered(ns, Read)| ==> Filtered(ns, Read)[i].read
  {
    FilterPartition(ns, IsUnread, IsRead);
    FilterIsSubsequence(ns, IsUnread);
    FilterIsSubsequence(ns, IsRead);
  }

  /** The 'Read' button's figure, total minus unread, is the size of the read view. */
  lemma ReadButtonCount(ns: seq<Notification>)
    ensures |ns| - UnreadCount(ns) == |Filtered(ns, Read)|
    ensures UnreadCount(ns) == |Filtered(ns, Unread)|
  {
    FilterPartition(ns, IsUnread, IsRead);
  }

  /** Per-type counters of the metric cards. */
  datatype TypeCounts = TypeCounts(info: nat, warning: nat, error: nat, success: nat)

  function CountKind(ns: seq<Notification>, kind: string): nat {
    Count(ns, (n: Notification) => n.kind == kind)
  }

  function ByType(ns: seq<Notification>): TypeCounts {
    TypeCounts(CountKind(ns, "INFO"), CountKind(ns, "WARNING"), CountKind(ns, "ERROR"), CountKind(ns, "SUCCESS"))
  }

  predicate KnownKind(n: Notification) {
    n.kind in {"INFO", "WARNING", "ERROR", "SUCCESS"}
  }

  /** When every record has one of the four types, the four counters add up to the total. */
  lemma {:induction false} ByTypeSumsToTotal(ns: seq<Notification>)
    requires forall i :: 0 <= i < |ns| ==> KnownKind(ns[i])
    ensures var c := ByType(ns); c.info + c.warning + c.error + c.success == |ns|
  {
    if ns != [] {
      ByTypeSumsToTotal(ns[1..]);
      assert ns == [ns[0]] + ns[1..];
      CountPrepend(ns[0], ns[1..], (n: Notification) => n.kind == "INFO");
      CountPrepend(ns[0], ns[1..], (n: Notification) => n.kind == "WARNING");
      CountPrepend(ns[0], ns[1..], (n: Notification) => n.kind == "ERROR");
      CountPrepend(ns[0], ns[1..], (n: Notification) => n.kind == "SUCCESS");
    }
  }

  /** Typed page: 'Mark All as Read' is disabled with nothing unread or while the request is pending. */
  function MarkAllDisabled(ns: seq<Notification>, pending: bool): (disabled: bool)
    ensures !disabled <==> !pending && exists i :: 0 <= i < |ns| && !ns[i].read
  {
    NoUnreadIff(ns);
    UnreadCount(ns) == 0 || pending
  }

  function Sample(id: nat, kind: string, title: string, message: string, timestamp: string, read: bool): Notification {
    Notification(Decimal(id), kind, title, message, timestamp, read)
  }

  /** The records the untyped page installs when the fetch fails. */
  const MockNotifications: seq<Notification> := [
    Sample(1, "WARNING", "High Traffic Alert", "High traffic alert on Main Street", "2024-01-14T10:30:00", false),
    Sample(2, "INFO", "Simulation Complete", "Peak hour simulation completed", "2024-01-14T09:15:00", false),
    Sample(3, "SUCCESS", "System Update", "System updated successfully", "2024-01-13T14:20:00", true),
    Sample(4, "ERROR", "Sensor Malfunction", "Traffic sensor offline", "2024-01-13T08:45:00", true),
    Sample(5, "INFO", "New Event Scheduled", "Marathon event added", "2024-01-12T16:00:00", true)
  ]

  /** Two of the five sample records are unread, and each type occurs. */
  lemma MockCounts()
    ensures |MockNotifications| == 5 && UnreadCount(MockNotifications) == 2
    ensures ByType(MockNotifications) == TypeCounts(2, 1, 1, 1)
  {
    var m := MockNotifications;
    assert m == [m[0]] + m[1..] && m[1..] == [m[1]] + m[2..] && m[2..] == [m[2]] + m[3..];
    assert m[3..] == [m[3]] + m[4..] && m[4..] == [m[4]] + [];
    assert m[1..][1..] == m[2..] && m[2..][1..] == m[3..] && m[3..][1..] == m[4..] && m[4..][1..] == [];
  }

  /** The untyped page: a loading flag over the shared store slice. */
  class NotificationPage {
    var loading: bool
    const store: UiState

    constructor (store: UiState)
      ensures this.store == store && !loading
    {
      this.store := store;
      loading := false;
    }

    /** Loads the server's list, or the samples when the fetch failed (`response` is `None`). */
    method FetchNotifications(response: Option<seq<Notification>>)
      modifies this, store
      ensures !loading
      ensures store.Value() == Reduce(old(store.Value()), SetNotifications(response.GetOr(MockNotifications)))
      ensures response.None? ==> !MarkAllButtonDisabled()
    {
      loading := true;
      match response {
        case Some(data) => store.SetNotifications(data);
        case None =>
          store.SetNotifications(MockNotifications);
          MockFallback(old(store.Value()));
      }
      loading := false;
    }

    /** Marks one record read in the store whatever the server answered. */
    method HandleMarkAsRead(id: string, serverSucceeded: bool)
      modifies store
      ensures store.Value() == Reduce(old(store.Value()), MarkNotificationRead(id))
    {
      if serverSucceeded {
        store.MarkNotificationRead(id);
      } else {
        store.MarkNotificationRead(id);
      }
    }

    /** Marks every record read in the store whatever the server answered. */
    method HandleMarkAllAsRead(serverSucceeded: bool)
      modifies store
      ensures store.Value() == Reduce(old(store.Value()), MarkAllNotificationsRead)
    {
      if serverSucceeded {
        store.MarkAllNotificationsRead();
      } else {
        store.MarkAllNotificationsRead();
      }
    }

    /**
     * Untyped page: 'Mark All as Read' is disabled when the store's counter is 0.
     * While the counter is consistent with the list, that is the typed page's
     * condition with no request pending.
     */
    function MarkAllButtonDisabled(): (disabled: bool)
      reads store
      ensures Consistent(store.Value()) ==> (disabled <==> MarkAllDisabled(store.notifications, false))
      ensures Consistent(store.Value()) ==> (!disabled <==> exists i :: 0 <= i < |store.notifications| && !store.notifications[i].read)
    {
      store.unreadCount == 0
    }
  }

  /** After a failed fetch the store holds the samples and counts two unread; the button is then enabled. */
  lemma MockFallback(v: UiValue)
    ensures Reduce(v, SetNotifications(MockNotifications)).unreadCount == 2
    ensures Consistent(Reduce(v, SetNotifications(MockNotifications)))
  {
    MockCounts();
  }

}
