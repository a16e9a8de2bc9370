/** The `users` slice used by the user-management page: the user list with its
    `loading` and `error` flags, and the four request thunks reduced to their outcomes. */
module UsersSlice {
  import opened Common
  import opened Types
  import opened AuthSlice

  /** Replace the first user whose id is `updated.id` by `updated`, if there is one. */
  function ReplaceUser(users: seq<User>, updated: User): seq<User> {
    UpdateFirst(users, (u: User) => u.id == updated.id, (u: User) => updated)
  }

  /** Replacing by id makes the first user with that id `updated`; it has no effect
      without such a user, and the other users are untouched. */
  lemma ReplaceUserChangesOne(users: seq<User>, updated: User)
    ensures var r := ReplaceUser(users, updated);
      && |r| == |users|
      && ((forall i :: 0 <= i < |users| ==> users[i].id != updated.id) ==> r == users)
      && forall k :: IsFirstMatch(users, (u: User) => u.id == updated.id, k) ==>
           r[k] == updated && forall j :: 0 <= j < |users| && j != k ==> r[j] == users[j]
  {
  }

  class UsersStore {
    var users: seq<User>
    var loading: bool
    var error: Option<string>

    constructor ()
      ensures users == [] && !loading && error == None
    {
      users, loading, error := [], false, None;
    }

    /** `resetError`: only the error is cleared. */
    method ResetError()
      modifies this
      ensures error == None && users == old(users) && loading == old(loading)
    {
      error := None;
    }

    /** Every `pending` case of the four thunks. */
    method Pending()
      modifies this
      ensures loading && error == None && users == old(users)
    {
      loading := true;
      error := None;
    }

    /** Every `rejected` case of the four thunks; the payload is the error's message. */
    method Rejected(message: string)
      modifies this
      ensures !loading && error == Some(message) && users == old(users)
    {
      loading := false;
      error := Some(message);
    }

    /** `fetchUsers.fulfilled`: the list is replaced; `error` is left as it is. */
    method FetchUsersFulfilled(payload: seq<User>)
      modifies this
      ensures !loading && users == payload && error == old(error)
    {
      loading := false;
      users := payload;
    }

    /** `addUser.fulfilled`: exactly one user is appended at the end. */
    method AddUserFulfilled(payload: User)
      modifies this
      ensures !loading && users == old(users) + [payload] && error == old(error)
    {
      loading := false;
      users := users + [payload];
    }

    /** `updateUser.fulfilled`: the first user with the payload's id is replaced. */
    method UpdateUserFulfilled(payload: User)
      modifies this
      ensures !loading && users == ReplaceUser(old(users), payload) && error == old(error)
    {
      loading := false;
      users := ReplaceUser(users, payload);
    }

    /** `deleteUser.fulfilled`: every user with the id is removed. */
    method DeleteUserFulfilled(id: int)
      modifies this
      ensures !loading && users == WithoutUser(old(users), id) && error == old(error)
    {
      loading := false;
      users := WithoutUser(users, id);
    }

    /** `fetchUsers`: `reply` is the backend's list or the error's message. A fulfilled
        request ends with no error, because `pending` cleared it. */
    method FetchUsers(reply: Result<seq<User>>)
      modifies this
      ensures !loading
      ensures reply.Ok? ==> users == reply.value && error == None
      ensures reply.Err? ==> users == old(users) && error == Some(reply.error)
    {
      Pending();
      if reply.Ok? {
        FetchUsersFulfilled(reply.value);
      } else {
        Rejected(reply.error);
      }
    }

    /** `addUser`: `reply` is the created user the backend answers with. */
    method AddUser(reply: Result<User>)
      modifies this
      ensures !loading
      ensures reply.Ok? ==> users == old(users) + [reply.value] && error == None
      ensures reply.Err? ==> users == old(users) && error == Some(reply.error)
    {
      Pending();
      if reply.Ok? {
        AddUserFulfilled(reply.value);
      } else {
        Rejected(reply.error);
      }
    }

    /** `updateUser`: `reply` is the updated user the backend answers with. */
    method UpdateUser(reply: Result<User>)
      modifies this
      ensures !loading
      ensures reply.Ok? ==> users == ReplaceUser(old(users), reply.value) && error == None
      ensures reply.Err? ==> users == old(users) && error == Some(reply.error)
    {
      Pending();
      if reply.Ok? {
        UpdateUserFulfilled(reply.value);
      } else {
        Rejected(reply.error);
      }
    }

    /** `deleteUser`: `failure` is the error's message, `None` when the backend succeeded. */
    method DeleteUser(id: int, failure: Option<string>)
      modifies this
      ensures !loading
      ensures failure.None? ==> users == WithoutUser(old(users), id) && error == None
      ensures failure.Some? ==> users == old(users) && error == failure
    {
      Pending();
      if failure.None? {
        DeleteUserFulfilled(id);
      } else {
        Rejected(failure.value);
      }
    }
  }
}
