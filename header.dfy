/** The top bar: which navigation item is active, the notification badge, and the three pop-up flags. */
module Header {
  import opened Seqs
  import opened Router

  /** The two navigation items' paths. */
  const NavPaths: seq<string> := [DashboardPath, ListPath]

  /** The pages the SLOs item covers. */
  const SloPages: seq<string> := [ListPath, CreatePath, EditPath, DetailsPath]

  /** `isActivePath(path)` at `pathname`. */
  predicate IsActivePath(pathname: string, path: string) {
    if path == ListPath then pathname in SloPages else pathname == path
  }

  /** The SLOs item is active on its four pages, the dashboard item on its own page only, and never both. */
  lemma ActiveItems(pathname: string)
    ensures IsActivePath(pathname, ListPath) <==> pathname in SloPages
    ensures IsActivePath(pathname, DashboardPath) <==> pathname == DashboardPath
    ensures !(IsActivePath(pathname, DashboardPath) && IsActivePath(pathname, ListPath))
  {
  }

  /** Any path other than the SLOs item's is active exactly on itself. */
  lemma OtherItemsExact(pathname: string, path: string)
    requires path != ListPath
    ensures IsActivePath(pathname, path) <==> pathname == path
  {
  }

  /** A notification as the bar reads it. */
  datatype Notification = Notification(id: nat, title: string, kind: string)

  const Notifications: seq<Notification> := [
    Notification(1, "SLO Breach Alert", "error"),
    Notification(2, "SLO Recovery", "success"),
    Notification(3, "Maintenance Window", "warning")]

  /** `unreadCount`: the error notifications. */
  function UnreadCount(ns: seq<Notification>): (n: nat)
    ensures n <= |ns|
    ensures n > 0 <==> exists i :: 0 <= i < |ns| && ns[i].kind == "error"
  {
    var r := Filter(ns, (x: Notification) => x.kind == "error");
    assert |r| > 0 ==> r[0] in ns;
    |r|
  }

  /** The badge over the bell is shown only with some unread notification. */
  predicate BadgeShown(ns: seq<Notification>) {
    UnreadCount(ns) > 0
  }

  /** The bar's three notifications hold one error, so the badge shows 1. */
  lemma MockUnread()
    ensures UnreadCount(Notifications) == 1 && BadgeShown(Notifications)
  {
    var p := (x: Notification) => x.kind == "error";
    assert Notifications[1..][1..][1..] == [];
    assert Filter(Notifications[1..][1..][1..], p) == [];
    assert Filter(Notifications[1..][1..], p) == [];
    assert Filter(Notifications[1..], p) == [];
    assert Filter(Notifications, p) == [Notifications[0]];
  }

  /** The bar's state: the notification list, the profile menu and the mobile menu. */
  class Bar {
    var isNotificationOpen: bool
    var isProfileOpen: bool
    var isMobileMenuOpen: bool

    /** Mounting: everything closed. */
    constructor ()
      ensures !isNotificationOpen && !isProfileOpen && !isMobileMenuOpen
    {
      isNotificationOpen := false;
      isProfileOpen := false;
      isMobileMenuOpen := false;
    }

    /** The bell. */
    method ToggleNotifications()
      modifies this
      ensures isNotificationOpen == !old(isNotificationOpen)
      ensures isProfileOpen == old(isProfileOpen) && isMobileMenuOpen == old(isMobileMenuOpen)
    {
      isNotificationOpen := !isNotificationOpen;
    }

    /** The profile button. */
    method ToggleProfile()
      modifies this
      ensures isProfileOpen == !old(isProfileOpen)
      ensures isNotificationOpen == old(isNotificationOpen) && isMobileMenuOpen == old(isMobileMenuOpen)
    {
      isProfileOpen := !isProfileOpen;
    }

    /** The mobile menu button. */
    method ToggleMobileMenu()
      modifies this
      ensures isMobileMenuOpen == !old(isMobileMenuOpen)
      ensures isNotificationOpen == old(isNotificationOpen) && isProfileOpen == old(isProfileOpen)
    {
      isMobileMenuOpen := !isMobileMenuOpen;
    }

    /** A link in the mobile menu: closes that menu only. */
    method ChooseMobileLink()
      modifies this
      ensures !isMobileMenuOpen
      ensures isNotificationOpen == old(isNotificationOpen) && isProfileOpen == old(isProfileOpen)
    {
      isMobileMenuOpen := false;
    }
  }
}
