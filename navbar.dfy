/** The top navigation bar: the links shown for the signed-in user and role, the role
    label, and the confirmed logout. */
module NavBar {
  import opened Common
  import opened Types
  import opened AuthSlice

  /** A link's text and target path. */
  datatype Link = Link(text: string, to: string)

  const DashboardLink := Link("Dashboard", "/dashboard")
  const UsersLink := Link("Manage Users", "/users")
  const InventoryLink := Link("Inventory", "/inventory")
  const PosLink := Link("POS", "/pos")
  const SalesLink := Link("Sales", "/sales")
  const LoginLink := Link("Login", "/login")
  const RegisterLink := Link("Register", "/register")

  /** The links in the bar, in order. `user` is the store's user and `role` the store's
      own `role` field. */
  function Links(user: Option<User>, role: Option<string>): seq<Link> {
    if user.None? then [LoginLink, RegisterLink]
    else
      [DashboardLink]
      + (if role == Some("admin") then [UsersLink] else [])
      + (if role == Some("admin") || role == Some("manager") then [InventoryLink] else [])
      + (if role == Some("admin") || role == Some("cashier") then [PosLink] else [])
      + [SalesLink]
  }

  /** Without a user the bar holds exactly Login and Register. With one, Dashboard comes
      first and Sales last, Login and Register are gone, and each gated link is shown
      exactly when its roles say so. */
  lemma LinksByRole(user: Option<User>, role: Option<string>)
    ensures user.None? ==> Links(user, role) == [LoginLink, RegisterLink]
    ensures user.Some? ==> var r := Links(user, role);
      && |r| >= 2 && r[0] == DashboardLink && r[|r| - 1] == SalesLink
      && LoginLink !in r && RegisterLink !in r
      && (UsersLink in r <==> role == Some("admin"))
      && (InventoryLink in r <==> role == Some("admin") || role == Some("manager"))
      && (PosLink in r <==> role == Some("admin") || role == Some("cashier"))
  {
  }

  /** An admin sees all five links; a user whose role is none of the three sees only
      Dashboard and Sales. */
  lemma LinksForAdminAndUnknownRole(u: User, role: Option<string>)
    ensures Links(Some(u), Some("admin")) == [DashboardLink, UsersLink, InventoryLink, PosLink, SalesLink]
    ensures role !in {Some("admin"), Some("manager"), Some("cashier")} ==>
      Links(Some(u), role) == [DashboardLink, SalesLink]
  {
  }

  /** The role label: the role with its first character upper-cased, or "N/A" for a missing
      or empty role. */
  function RoleLabel(role: Option<string>): (r: string)
    ensures !TruthyString(role) ==> r == "N/A"
    ensures TruthyString(role) ==>
      (|r| == |role.value| && r[0] == UpperChar(role.value[0]) && r[1..] == role.value[1..])
  {
    if TruthyString(role) then [UpperChar(role.value[0])] + role.value[1..] else "N/A"
  }

  /** The three roles as the bar labels them. */
  lemma RoleLabels()
    ensures RoleLabel(Some("admin")) == "Admin"
    ensures RoleLabel(Some("manager")) == "Manager"
    ensures RoleLabel(Some("cashier")) == "Cashier"
    ensures RoleLabel(None) == "N/A" && RoleLabel(Some("")) == "N/A"
  {
    assert RoleLabel(Some("admin")) == [UpperChar('a')] + "dmin";
    assert RoleLabel(Some("manager")) == [UpperChar('m')] + "anager";
    assert RoleLabel(Some("cashier")) == [UpperChar('c')] + "ashier";
  }

  /** `handleLogout`: when the confirmation is accepted the store logs out and the bar
      navigates to the login page; otherwise nothing changes. */
  method HandleLogout(confirmed: bool, store: AuthStore) returns (navigateTo: Option<string>)
    modifies store
    ensures store.allUsers == old(store.allUsers)
    ensures confirmed ==> (navigateTo == Some("/login")
      && store.user == None && store.role == None && !store.isAuthenticated && store.stored == Missing)
    ensures !confirmed ==> (navigateTo == None
      && store.user == old(store.user) && store.role == old(store.role)
      && store.isAuthenticated == old(store.isAuthenticated) && store.stored == old(store.stored))
  {
    navigateTo := None;
    if confirmed {
      store.Logout();
      navigateTo := Some("/login");
    }
  }
}
