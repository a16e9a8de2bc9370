/** The side bar: one constant navigation list per role, and the active entry. */
module SideBar {
  import opened Common
  import opened Types

  /** A navigation entry's text and target path (the icon is left out). */
  datatype NavItem = NavItem(name: string, href: string)

  const AdminNavigation := [
    NavItem("Dashboard", "/"),
    NavItem("Inventory", "/inventory"),
    NavItem("Sales", "/sales"),
    NavItem("Users", "/users"),
    NavItem("Settings", "/settings")]

  const CashierNavigation := [NavItem("POS", "/pos")]

  const ManagerNavigation := [
    NavItem("Dashboard", "/"),
    NavItem("Inventory", "/inventory"),
    NavItem("Users", "/users")]

  /** The list for the signed-in user's role: `user?.role` compared with each role in turn. */
  function Navigation(user: Option<User>): seq<NavItem> {
    var role := RoleOf(user);
    if role == Some("admin") then AdminNavigation
    else if role == Some("manager") then ManagerNavigation
    else if role == Some("cashier") then CashierNavigation
    else []
  }

  /** Each role gets its own list; no user, or any other role, gets none. The manager's
      list is the admin's without Sales and Settings, and the cashier's shares no entry
      with either. */
  lemma NavigationByRole(user: Option<User>)
    ensures RoleOf(user) == Some("admin") ==> Navigation(user) == AdminNavigation && |Navigation(user)| == 5
    ensures RoleOf(user) == Some("manager") ==> Navigation(user) == ManagerNavigation
    ensures RoleOf(user) == Some("cashier") ==> Navigation(user) == [NavItem("POS", "/pos")]
    ensures RoleOf(user) !in {Some("admin"), Some("manager"), Some("cashier")} ==> Navigation(user) == []
    ensures user.None? ==> Navigation(user) == []
    ensures forall e :: e in ManagerNavigation ==> e in AdminNavigation
    ensures forall e :: e in CashierNavigation ==> e !in AdminNavigation && e !in ManagerNavigation
  {
  }

  /** `isActive`: the pathname equals the entry's href exactly. */
  predicate IsActive(pathname: string, item: NavItem) {
    pathname == item.href
  }

  /** The indices of the entries whose `isActive` holds. */
  function ActiveEntries(navigation: seq<NavItem>, pathname: string): (r: set<int>)
    ensures forall k :: k in r <==> 0 <= k < |navigation| && IsActive(pathname, navigation[k])
  {
    set k | 0 <= k < |navigation| && IsActive(pathname, navigation[k])
  }

  /** The entries of every list have distinct hrefs. */
  predicate DistinctHrefs(navigation: seq<NavItem>) {
    forall i, j :: 0 <= i < j < |navigation| ==> navigation[i].href != navigation[j].href
  }

  /** In a list with distinct hrefs, at most one entry is active for any path, and a
      path that is some entry's href makes exactly that entry active. */
  lemma ActiveEntryUnique(navigation: seq<NavItem>, pathname: string)
    requires DistinctHrefs(navigation)
    ensures |ActiveEntries(navigation, pathname)| <= 1
    ensures forall k :: 0 <= k < |navigation| ==> ActiveEntries(navigation, navigation[k].href) == {k}
  {
    var act := ActiveEntries(navigation, pathname);
    if act != {} {
      var a :| a in act;
      forall m | m in act
        ensures m == a
      {
        assert navigation[m].href == navigation[a].href;
      }
      assert act == {a};
    }
    forall k | 0 <= k < |navigation|
      ensures ActiveEntries(navigation, navigation[k].href) == {k}
    {
      var hits := ActiveEntries(navigation, navigation[k].href);
      forall m | m in hits
        ensures m == k
      {
        assert navigation[m].href == navigation[k].href;
      }
      assert k in hits;
    }
  }

  /** Whatever the path, at most one entry of the signed-in user's list is active; a path
      that is some entry's href makes exactly that entry active. */
  lemma AtMostOneActive(user: Option<User>, pathname: string)
    ensures |ActiveEntries(Navigation(user), pathname)| <= 1
    ensures forall k :: 0 <= k < |Navigation(user)| ==>
      ActiveEntries(Navigation(user), Navigation(user)[k].href) == {k}
  {
    assert DistinctHrefs(Navigation(user));
    ActiveEntryUnique(Navigation(user), pathname);
  }

  // ---------------------------------------------------------------------------
  // The entries' classes

  /** The class strings of an entry's link and of its icon. */
  datatype Look = Look(link: string, icon: string)

  const LinkBase := "group flex items-center px-2 py-2 text-sm font-medium rounded-md "
  const IconBase := "mr-3 h-5 w-5 flex-shrink-0 "

  /** The two class strings as written: each template literal holds `Ksh{` where a
      substitution `${` was meant, so the conditional is literal text and the strings are
      the same for every entry and every path. */
  function LookAsWritten(pathname: string, item: NavItem): Look {
    Look(LinkBase + "Ksh{\n                      isActive\n                        ? 'bg-indigo-50 text-indigo-600'\n                        : 'text-gray-600 hover:bg-gray-50 hover:text-gray-900'\n                    }", IconBase + "Ksh{\n                        isActive\n                          ? 'text-indigo-600'\n                          : 'text-gray-400 group-hover:text-gray-500'\n                      }")
  }

  /** On the admin's dashboard path the active "Dashboard" entry and the inactive
      "Inventory" entry get the same classes: the highlight never shows which entry is
      active. */
  lemma HighlightIgnoresPath()
    ensures IsActive("/", AdminNavigation[0]) && !IsActive("/", AdminNavigation[1])
    ensures LookAsWritten("/", AdminNavigation[0]) == LookAsWritten("/", AdminNavigation[1])
  {
  }

  const ActiveLook := Look(LinkBase + "bg-indigo-50 text-indigo-600", IconBase + "text-indigo-600")
  const InactiveLook := Look(LinkBase + "text-gray-600 hover:bg-gray-50 hover:text-gray-900",
                             IconBase + "text-gray-400 group-hover:text-gray-500")

  /** The classes as evidently intended: the active entry's, or the inactive ones'. */
  function IntendedLook(pathname: string, item: NavItem): (r: Look)
    ensures r == ActiveLook <==> IsActive(pathname, item)
    ensures r == InactiveLook <==> !IsActive(pathname, item)
  {
    assert |ActiveLook.icon| != |InactiveLook.icon|;
    if IsActive(pathname, item) then ActiveLook else InactiveLook
  }

  /** The indices of the entries drawn with the active classes. */
  function Highlighted(navigation: seq<NavItem>, pathname: string): set<int> {
    set k | 0 <= k < |navigation| && IntendedLook(pathname, navigation[k]) == ActiveLook
  }

  /** With the intended classes, the highlighted entries are exactly the active ones, so
      at most one entry of the signed-in user's list is highlighted, and visiting an
      entry's path highlights exactly that entry. */
  lemma HighlightFollowsPath(user: Option<User>, pathname: string)
    ensures Highlighted(Navigation(user), pathname) == ActiveEntries(Navigation(user), pathname)
    ensures |Highlighted(Navigation(user), pathname)| <= 1
    ensures forall k :: 0 <= k < |Navigation(user)| ==>
      Highlighted(Navigation(user), Navigation(user)[k].href) == {k}
  {
    var navigation := Navigation(user);
    forall path: string | true
      ensures Highlighted(navigation, path) == ActiveEntries(navigation, path)
    {
    }
    AtMostOneActive(user, pathname);
  }
}
