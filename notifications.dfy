/**
 * The notification bell (src/components/NotificationBell.tsx): the unread
 * notifications of the signed-in user, kept newest first, extended by the
 * store's insert events and shortened by clicks.
 */
module Bell {

  import opened Wrappers
  import opened Types
  import opened Seqs

  /** The load query: the user's unread notifications, in the store's order. */
  function UnreadFor(store: seq<Notification>, username: string): (r: seq<Notification>)
    ensures IsSubsequence(r, store)
    ensures forall n :: n in r <==> n in store && n.userId == username && !n.isRead
    ensures forall n :: multiset(r)[n] == if n.userId == username && !n.isRead then multiset(store)[n] else 0
  {
    FilterIsSubsequence(store, (n: Notification) => n.userId == username && !n.isRead);
    FilterCount(store, (n: Notification) => n.userId == username && !n.isRead);
    Filter(store, (n: Notification) => n.userId == username && !n.isRead)
  }

  /** `notifications.filter(n => n.id !== id)`. */
  function RemoveById(ns: seq<Notification>, id: string): (r: seq<Notification>)
    ensures IsSubsequence(r, ns)
    ensures forall n :: n in r <==> n in ns && n.id != id
    ensures forall n :: multiset(r)[n] == if n.id != id then multiset(ns)[n] else 0
  {
    FilterIsSubsequence(ns, (n: Notification) => n.id != id);
    FilterCount(ns, (n: Notification) => n.id != id);
    Filter(ns, (n: Notification) => n.id != id)
  }

  /** Removing an id no notification carries changes nothing. */
  lemma RemoveAbsentId(ns: seq<Notification>, id: string)
    requires forall i :: 0 <= i < |ns| ==> ns[i].id != id
    ensures RemoveById(ns, id) == ns
  {
    FilterAll(ns, (n: Notification) => n.id != id);
  }

  /** Removing the id of a just prepended notification also removes it from where it came. */
  lemma RemovePrepended(n: Notification, ns: seq<Notification>)
    ensures RemoveById([n] + ns, n.id) == RemoveById(ns, n.id)
  {
    assert ([n] + ns)[1..] == ns;
  }

  /** `if (notif.link) router.push(notif.link)`: a missing or empty link does not navigate. */
  function Destination(n: Notification): (r: Option<string>)
    ensures r.Some? <==> n.link.Some? && n.link.value != ""
    ensures r.Some? ==> r == n.link
  {
    if n.link.Some? && n.link.value != "" then n.link else None
  }

  /** The bell's state. */
  class NotificationBell {
    const username: string
    var notifications: seq<Notification>
    var showNotifications: bool

    /** Everything listed belongs to the signed-in user. */
    predicate AllMine()
      reads this
    {
      forall i :: 0 <= i < |notifications| ==> notifications[i].userId == username
    }

    predicate AllUnread()
      reads this
    {
      forall i :: 0 <= i < |notifications| ==> !notifications[i].isRead
    }

    /** The red dot. */
    predicate ShowsBadge()
      reads this
    {
      |notifications| > 0
    }

    constructor (username: string)
      ensures this.username == username && notifications == [] && !showNotifications
      ensures AllMine() && AllUnread() && !ShowsBadge()
    {
      this.username := username;
      notifications, showNotifications := [], false;
    }

    /** `loadNotifications`; a failed query leaves the list as it was. */
    method Load(store: seq<Notification>, failed: bool)
      modifies this`notifications
      ensures failed ==> notifications == old(notifications)
      ensures !failed ==> notifications == UnreadFor(store, username) && AllMine() && AllUnread()
    {
      if !failed {
        notifications := UnreadFor(store, username);
      }
    }

    /**
     * The insert event of the realtime channel. The channel is subscribed with
     * the user's name as filter, so only the user's own rows arrive.
     */
    method OnInsert(n: Notification)
      requires n.userId == username
      modifies this`notifications
      ensures notifications == [n] + old(notifications)
      ensures old(AllMine()) ==> AllMine()
      ensures old(AllUnread()) && !n.isRead ==> AllUnread()
      ensures ShowsBadge()
    {
      notifications := [n] + notifications;
    }

    method Toggle()
      modifies this`showNotifications
      ensures showNotifications == !old(showNotifications)
    {
      showNotifications := !showNotifications;
    }

    /**
     * The first half of `handleNotificationClick`, up to the mark-read
     * `await`: the panel closes and the store is asked to mark the row read
     * (`markRead` names it). The handler's closure holds the list as it was
     * when the handler was made; `captured` is that list.
     */
    method ClickStart(n: Notification) returns (markRead: string, captured: seq<Notification>)
      modifies this`showNotifications
      ensures !showNotifications && markRead == n.id && captured == notifications
    {
      showNotifications := false;
      markRead := n.id;
      captured := notifications;
    }

    /**
     * The second half, after the `await`: the list becomes the captured list
     * without the clicked id (not the current list: the handler does not use
     * the `prev =>` form), and the link is followed when there is one.
     */
    method ClickFinish(n: Notification, captured: seq<Notification>) returns (navigate: Option<string>)
      modifies this`notifications
      ensures notifications == RemoveById(captured, n.id)
      ensures navigate == Destination(n)
    {
      notifications := RemoveById(captured, n.id);
      navigate := Destination(n);
    }

    /** A click with no event in between: the clicked row leaves the list. */
    method Click(n: Notification) returns (markRead: string, navigate: Option<string>)
      modifies this`notifications, this`showNotifications
      ensures !showNotifications && markRead == n.id
      ensures notifications == RemoveById(old(notifications), n.id)
      ensures navigate == Destination(n)
      ensures old(AllMine()) ==> AllMine()
      ensures old(AllUnread()) ==> AllUnread()
    {
      var captured;
      markRead, captured := ClickStart(n);
      navigate := ClickFinish(n, captured);
    }

    /**
     * A click during which the channel delivers `m`: the finishing step
     * overwrites the list with the captured one, so `m` is gone from the
     * bell although it was never clicked.
     */
    method ClickAcrossInsert(n: Notification, m: Notification) returns (markRead: string, navigate: Option<string>)
      requires m.userId == username
      modifies this`notifications, this`showNotifications
      ensures notifications == RemoveById(old(notifications), n.id)
      ensures m !in old(notifications) ==> m !in notifications
    {
      var captured;
      markRead, captured := ClickStart(n);
      OnInsert(m);
      navigate := ClickFinish(n, captured);
    }
  }

  /**
   * The lost insert, on values: filtering the captured list drops a row `m`
   * that arrived after the capture, while filtering the current list, as a
   * `prev =>` update would, keeps it.
   */
  lemma InsertDuringClickLost(captured: seq<Notification>, m: Notification, id: string)
    requires m !in captured && m.id != id
    ensures m !in RemoveById(captured, id)
    ensures m in RemoveById([m] + captured, id)
  {
    assert ([m] + captured)[0] == m;
  }
}
