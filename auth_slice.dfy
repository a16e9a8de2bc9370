/** The `auth` slice: the signed-in user, the authenticated flag, the role, and the list of
    all users kept for administration. The browser's `localStorage` entry `user` is kept
    as a ghost field, so that what a reload would restore can be stated. */
module AuthSlice {
  import opened Common
  import opened Types

  /** The `user` entry of `localStorage`: missing, or present with the JSON it holds
      (`Stored(None)` is the text `null`). */
  datatype StoredUser = Missing | Stored(user: Option<User>)

  /** `JSON.parse(localStorage.getItem('user')) || null` */
  function RestoredUser(stored: StoredUser): Option<User> {
    if stored.Stored? then stored.user else None
  }

  /** `!!localStorage.getItem('user')`: any entry counts, whatever it holds. */
  predicate RestoredAuthenticated(stored: StoredUser) {
    stored.Stored?
  }

  /** `JSON.parse(localStorage.getItem('user'))?.role || null`: an empty role becomes null. */
  function RestoredRole(stored: StoredUser): Option<string> {
    var role := RoleOf(RestoredUser(stored));
    if TruthyString(role) then role else None
  }

  /** The state a reload starts from: a restored user is always authenticated, the role is
      the restored user's non-empty role, and with no entry there is neither user nor role. */
  lemma RestoredStateConsistent(stored: StoredUser)
    ensures RestoredUser(stored).Some? ==> RestoredAuthenticated(stored)
    ensures RestoredRole(stored).Some? ==>
      RestoredUser(stored).Some? && RestoredUser(stored).value.role == RestoredRole(stored)
    ensures stored == Missing ==> RestoredUser(stored).None? && RestoredRole(stored).None?
    ensures forall u: User :: stored == Stored(Some(u)) && TruthyString(u.role) ==> RestoredRole(stored) == u.role
  {
  }

  // ---------------------------------------------------------------------------
  // Lists of users

  /** The fields an `editUser` payload carries; an absent field keeps the user's value. */
  datatype UserPatch = UserPatch(
    id: Option<int>,
    username: Option<string>,
    email: Option<string>,
    role: Option<string>,
    loginTime: Option<string>,
    logoutTime: Option<string>)

  /** `{ ...user, ...patch }` */
  function Merge(user: User, patch: UserPatch): (r: User)
    ensures r.id == (if patch.id.Some? then patch.id.value else user.id)
    ensures r.username == (if patch.username.Some? then patch.username.value else user.username)
    ensures r.email == (if patch.email.Some? then patch.email.value else user.email)
    ensures r.role == (if patch.role.Some? then patch.role else user.role)
    ensures r.loginTime == (if patch.loginTime.Some? then patch.loginTime else user.loginTime)
    ensures r.logoutTime == (if patch.logoutTime.Some? then patch.logoutTime else user.logoutTime)
  {
    User(
      if patch.id.Some? then patch.id.value else user.id,
      if patch.username.Some? then patch.username.value else user.username,
      if patch.email.Some? then patch.email.value else user.email,
      if patch.role.Some? then patch.role else user.role,
      if patch.loginTime.Some? then patch.loginTime else user.loginTime,
      if patch.logoutTime.Some? then patch.logoutTime else user.logoutTime)
  }

  /** An empty patch changes nothing, and merging the same patch twice is merging it once. */
  lemma MergeLaws(user: User, patch: UserPatch)
    ensures Merge(user, UserPatch(None, None, None, None, None, None)) == user
    ensures Merge(Merge(user, patch), patch) == Merge(user, patch)
  {
  }

  /** `users.filter(user => user.id !== id)` */
  function WithoutUser(users: seq<User>, id: int): seq<User> {
    Filter(users, (u: User) => u.id != id)
  }

  /** Merge `patch` into the first user whose id is `id`, if there is one. */
  function EditedUsers(users: seq<User>, id: int, patch: UserPatch): seq<User> {
    UpdateFirst(users, (u: User) => u.id == id, (u: User) => Merge(u, patch))
  }

  /** Removal by id drops exactly the users with that id and keeps the order of the rest. */
  lemma WithoutUserRemovesExactly(users: seq<User>, id: int)
    ensures forall u :: u in WithoutUser(users, id) <==> u in users && u.id != id
    ensures IsSubsequence(WithoutUser(users, id), users)
    ensures WithoutUser(WithoutUser(users, id), id) == WithoutUser(users, id)
  {
    var keep := (u: User) => u.id != id;
    forall u {
      FilterMembership(users, keep, u);
    }
    FilterIsSubsequence(users, keep);
    FilterIdempotent(users, keep);
  }

  /** Editing merges into the first user with the id and keeps that user's other fields;
      it has no effect without such a user, and the other users are untouched. */
  lemma EditedUsersChangesOne(users: seq<User>, id: int, patch: UserPatch)
    ensures var r := EditedUsers(users, id, patch);
      && |r| == |users|
      && ((forall i :: 0 <= i < |users| ==> users[i].id != id) ==> r == users)
      && forall k :: IsFirstMatch(users, (u: User) => u.id == id, k) ==>
           r[k] == Merge(users[k], patch) && forall j :: 0 <= j < |users| && j != k ==> r[j] == users[j]
  {
  }

  // ---------------------------------------------------------------------------
  // The store

  class AuthStore {
    var user: Option<User>
    var isAuthenticated: bool
    var role: Option<string>
    var allUsers: seq<User>
    ghost var stored: StoredUser

    /** The initial state, read from what `localStorage` holds. */
    constructor (entry: StoredUser)
      ensures user == RestoredUser(entry) && isAuthenticated == RestoredAuthenticated(entry)
      ensures role == RestoredRole(entry) && allUsers == [] && stored == entry
    {
      user := RestoredUser(entry);
      isAuthenticated := RestoredAuthenticated(entry);
      role := RestoredRole(entry);
      allUsers := [];
      stored := entry;
    }

    /** `login`: `now` is the ISO time the clock gives. The store keeps the user stamped
        with the login time and no logout time; storage keeps the user as given. */
    method Login(payload: User, now: string)
      modifies this
      ensures user == Some(payload.(loginTime := Some(now), logoutTime := None))
      ensures isAuthenticated && role == payload.role
      ensures stored == Stored(Some(payload)) && allUsers == old(allUsers)
    {
      user := Some(payload.(loginTime := Some(now), logoutTime := None));
      isAuthenticated := true;
      role := payload.role;
      stored := Stored(Some(payload));
    }

    /** `logout`: signed out in the store and in storage. */
    method Logout()
      modifies this
      ensures user == None && role == None && !isAuthenticated
      ensures stored == Missing && allUsers == old(allUsers)
    {
      user := None;
      role := None;
      isAuthenticated := false;
      stored := Missing;
    }

    /** `setUser`: user and role change, the authenticated flag does not. */
    method SetUser(payload: User)
      modifies this
      ensures user == Some(payload) && role == payload.role
      ensures isAuthenticated == old(isAuthenticated) && allUsers == old(allUsers) && stored == old(stored)
    {
      user := Some(payload);
      role := payload.role;
    }

    method AddUser(payload: User)
      modifies this
      ensures allUsers == old(allUsers) + [payload]
      ensures user == old(user) && isAuthenticated == old(isAuthenticated) && role == old(role) && stored == old(stored)
    {
      allUsers := allUsers + [payload];
    }

    method EditUser(id: int, patch: UserPatch)
      modifies this
      ensures allUsers == EditedUsers(old(allUsers), id, patch)
      ensures user == old(user) && isAuthenticated == old(isAuthenticated) && role == old(role) && stored == old(stored)
    {
      allUsers := EditedUsers(allUsers, id, patch);
    }

    method DeleteUser(id: int)
      modifies this
      ensures allUsers == WithoutUser(old(allUsers), id)
      ensures user == old(user) && isAuthenticated == old(isAuthenticated) && role == old(role) && stored == old(stored)
    {
      allUsers := WithoutUser(allUsers, id);
    }

    method SetUsers(payload: seq<User>)
      modifies this
      ensures allUsers == payload
      ensures user == old(user) && isAuthenticated == old(isAuthenticated) && role == old(role) && stored == old(stored)
    {
      allUsers := payload;
    }
  }

  /** Logging out twice leaves the same state as logging out once, and a reload after a
      logout starts signed out. */
  method LogoutTwice(store: AuthStore)
    modifies store
    ensures store.user == None && store.role == None && !store.isAuthenticated
    ensures !RestoredAuthenticated(store.stored) && RestoredUser(store.stored).None?
    ensures store.allUsers == old(store.allUsers)
  {
    store.Logout();
    store.Logout();
  }

  /** A reload after a login restores an authenticated session for the same user, with
      the user's role when it is non-empty. */
  lemma ReloadAfterLogin(payload: User)
    ensures RestoredAuthenticated(Stored(Some(payload)))
    ensures RestoredUser(Stored(Some(payload))) == Some(payload)
    ensures RestoredRole(Stored(Some(payload))) == (if TruthyString(payload.role) then payload.role else None)
  {
  }
}
