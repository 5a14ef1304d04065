/**
 * The page frame (src/components/Layout.jsx): the header's notification bell and panel, the
 * mobile menu, and the logout button.
 */
module Layout {
  import opened IdLists

  datatype Notification = Notification(id: int, text: string, time: string)

  function NotificationId(n: Notification): int { n.id }

  function InitialNotifications(): seq<Notification>
  {
    [ Notification(1, "Instagram automation completed", "2 min ago"),
      Notification(2, "New followers gained: +15", "1 hour ago"),
      Notification(3, "TikTok engagement up by 23%", "3 hours ago") ]
  }

  /** The list after dismissing notification `id`: exactly the entries with other ids remain. */
  function WithoutNotification(ns: seq<Notification>, id: int): (r: seq<Notification>)
    ensures forall n :: n in r <==> n in ns && n.id != id
  {
    RemoveId(ns, NotificationId, id)
  }

  /**
   * Dismissing keeps the other entries in order, removes every copy with that id, changes nothing
   * for an absent id, and so is idempotent.
   */
  lemma WithoutNotificationSpec(ns: seq<Notification>, id: int)
    ensures IsSubsequence(WithoutNotification(ns, id), ns)
    ensures forall n :: multiset(WithoutNotification(ns, id))[n] == if n.id == id then 0 else multiset(ns)[n]
    ensures (forall n :: n in ns ==> n.id != id) ==> WithoutNotification(ns, id) == ns
    ensures WithoutNotification(WithoutNotification(ns, id), id) == WithoutNotification(ns, id)
  {
    RemoveIdKeepsOrder(ns, NotificationId, id);
    RemoveIdCounts(ns, NotificationId, id);
    if forall n :: n in ns ==> n.id != id {
      RemoveAbsentId(ns, NotificationId, id);
    }
    RemoveIdIdempotent(ns, NotificationId, id);
  }

  /** The red dot on the bell: `notifications.length > 0`. */
  predicate BadgeShown(ns: seq<Notification>): (b: bool)
    ensures b <==> exists n :: n in ns
  {
    assert |ns| > 0 ==> ns[0] in ns;
    |ns| > 0
  }

  /** What the notification panel shows. */
  datatype Panel = Closed | Entries(items: seq<Notification>) | NoNewNotifications

  function PanelView(showNotifications: bool, ns: seq<Notification>): (p: Panel)
    ensures p == Closed <==> !showNotifications
    ensures p == NoNewNotifications <==> showNotifications && ns == []
    ensures p.Entries? ==> p.items == ns && BadgeShown(ns)
  {
    if !showNotifications then Closed
    else if |ns| > 0 then Entries(ns)
    else NoNewNotifications
  }

  /** With the panel open, the badge is shown exactly when the "No new notifications" text is not. */
  lemma BadgeExcludesEmptyText(ns: seq<Notification>)
    ensures BadgeShown(ns) <==> PanelView(true, ns) != NoNewNotifications
  {
  }

  /** After a dismissal the badge stays exactly when some entry with another id remains. */
  lemma BadgeAfterDismiss(ns: seq<Notification>, id: int)
    ensures BadgeShown(WithoutNotification(ns, id)) <==> exists n :: n in ns && n.id != id
  {
    var r := WithoutNotification(ns, id);
    if BadgeShown(r) {
      assert r[0] in r;
    }
  }

  /** What the logout button does, in order. */
  datatype Effect = CallLogout | Navigate(path: string)

  class LayoutState {
    var isMobileMenuOpen: bool
    var notifications: seq<Notification>
    var showNotifications: bool

    constructor ()
      ensures !isMobileMenuOpen && !showNotifications
      ensures notifications == InitialNotifications() && BadgeShown(notifications)
    {
      isMobileMenuOpen := false;
      notifications := InitialNotifications();
      showNotifications := false;
    }

    /** Calls the application's logout first and navigates to the login route after it. */
    method HandleLogout() returns (effects: seq<Effect>)
      ensures |effects| == 2 && effects[0] == CallLogout && effects[1] == Navigate("/login")
    {
      effects := [CallLogout];
      effects := effects + [Navigate("/login")];
    }

    method ToggleMobileMenu()
      modifies this`isMobileMenuOpen
      ensures isMobileMenuOpen == !old(isMobileMenuOpen)
    {
      isMobileMenuOpen := !isMobileMenuOpen;
    }

    method CloseMobileMenu()
      modifies this`isMobileMenuOpen
      ensures !isMobileMenuOpen
    {
      isMobileMenuOpen := false;
    }

    method ToggleNotifications()
      modifies this`showNotifications
      ensures showNotifications == !old(showNotifications)
    {
      showNotifications := !showNotifications;
    }

    method ClearNotification(id: int)
      modifies this`notifications
      ensures notifications == WithoutNotification(old(notifications), id)
    {
      notifications := RemoveId(notifications, NotificationId, id);
    }
  }

  /** A client of the frame: each toggle undone by a second one, and a close that sticks. */
  method MenuToggleClient(l: LayoutState)
    modifies l
  {
    var menu, panel, ns := l.isMobileMenuOpen, l.showNotifications, l.notifications;
    l.ToggleMobileMenu();
    l.ToggleMobileMenu();
    assert l.isMobileMenuOpen == menu;
    l.ToggleNotifications();
    l.ToggleNotifications();
    assert l.showNotifications == panel && l.notifications == ns;
    l.CloseMobileMenu();
    l.CloseMobileMenu();
    assert !l.isMobileMenuOpen;
  }
}
