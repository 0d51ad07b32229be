/** The admin user state of the client (client/src/redux/slices/adminSlice.js):
    the user list and the reducers of the fetch, add, update and delete
    requests. */
module AdminSlice {
  import opened Common
  import opened IdLists

  /** A user as the admin list holds it; a record without `_id` has the
      empty id. */
  datatype UserRow = UserRow(id: string, name: string, email: string, role: string)

  function UserId(u: UserRow): string {
    u.id
  }

  /** The fulfilled payload of the fetch: an array, or anything else. */
  datatype UsersPayload = UserArray(list: seq<UserRow>) | NotAnArray

  /** The fulfilled payload of the add request: missing, or an object
      with an optional `user` field; `own` is the object itself read as a
      user record. */
  datatype AddUserPayload = NoPayload | Payload(user: Option<UserRow>, own: UserRow)

  /** `action.payload?.user || action.payload`. */
  function NewUserOf(p: AddUserPayload): (r: Option<UserRow>)
    ensures p.NoPayload? <==> r.None?
    ensures p.Payload? && p.user.Some? ==> r == p.user
    ensures p.Payload? && p.user.None? ==> r == Some(p.own)
  {
    match p
    case NoPayload => None
    case Payload(user, own) => if user.Some? then user else Some(own)
  }

  class AdminUserState {
    var users: seq<UserRow>
    var loading: bool
    var error: Option<string>

    constructor ()
      ensures users == [] && !loading && error == None
    {
      users, loading, error := [], false, None;
    }

    /** The pending case of every request. */
    method Pending()
      modifies this
      ensures loading && error == None && users == old(users)
    {
      loading := true;
      error := None;
    }

    method FetchFulfilled(payload: UsersPayload)
      modifies this
      ensures !loading && error == old(error)
      ensures users == (if payload.UserArray? then payload.list else [])
    {
      loading := false;
      users := if payload.UserArray? then payload.list else [];
    }

    /** A failed fetch also empties the list. */
    method FetchRejected(payloadMessage: Option<string>)
      modifies this
      ensures !loading && error == Some(OrElse(payloadMessage, "Failed to fetch users"))
      ensures users == []
    {
      loading := false;
      error := Some(OrElse(payloadMessage, "Failed to fetch users"));
      users := [];
    }

    /** The new user is appended only when it has a truthy `_id`. */
    method AddFulfilled(payload: AddUserPayload)
      modifies this
      ensures !loading && error == old(error)
      ensures var u := NewUserOf(payload);
        && (u.Some? && u.value.id != "" ==> users == old(users) + [u.value])
        && (!(u.Some? && u.value.id != "") ==> users == old(users))
      ensures var u := NewUserOf(payload);
        UniqueIds(old(users), UserId) && (u.Some? ==> IndexOfId(old(users), UserId, u.value.id) == -1) ==>
          UniqueIds(users, UserId)
    {
      loading := false;
      var newUser := NewUserOf(payload);
      if newUser.Some? && newUser.value.id != "" {
        if UniqueIds(users, UserId) && IndexOfId(users, UserId, newUser.value.id) == -1 {
          AppendNewIdUnique(users, UserId, newUser.value);
        }
        users := users + [newUser.value];
      }
    }

    /** `payloadMessage` and `payloadError` are the payload's `message`
        and `error` fields. */
    method AddRejected(payloadMessage: Option<string>, payloadError: Option<string>)
      modifies this
      ensures !loading && users == old(users)
      ensures error == Some(OrElse(payloadMessage, OrElse(payloadError,
        "Failed to add user. Check console for details (400 Bad Request).")))
    {
      loading := false;
      var errorMessage := OrElse(payloadMessage, OrElse(payloadError,
        "Failed to add user. Check console for details (400 Bad Request)."));
      error := Some(errorMessage);
    }

    /** The first user with the updated user's id is replaced in place;
        the list keeps its length. */
    method UpdateFulfilled(updated: UserRow)
      modifies this
      ensures !loading && error == old(error)
      ensures var i := IndexOfId(old(users), UserId, updated.id);
        users == (if i == -1 then old(users) else old(users)[i := updated])
      ensures |users| == |old(users)|
      ensures UniqueIds(old(users), UserId) ==> UniqueIds(users, UserId)
    {
      loading := false;
      var userIndex := IndexOfId(users, UserId, updated.id);
      if userIndex != -1 {
        if UniqueIds(users, UserId) {
          ReplaceSameIdUnique(users, UserId, userIndex, updated);
        }
        users := users[userIndex := updated];
      }
    }

    method UpdateRejected(payloadMessage: Option<string>)
      modifies this
      ensures !loading && error == Some(OrElse(payloadMessage, "Failed to update user"))
      ensures users == old(users)
    {
      loading := false;
      error := Some(OrElse(payloadMessage, "Failed to update user"));
    }

    /** Every user with that id leaves the list; the others keep their
        order. */
    method DeleteFulfilled(id: string)
      modifies this
      ensures !loading && error == old(error)
      ensures users == RemoveById(old(users), UserId, id)
      ensures UniqueIds(old(users), UserId) && IndexOfId(old(users), UserId, id) >= 0 ==>
        var i := IndexOfId(old(users), UserId, id);
        users == old(users)[..i] + old(users)[i + 1..]
    {
      loading := false;
      if UniqueIds(users, UserId) && IndexOfId(users, UserId, id) >= 0 {
        RemoveUniqueId(users, UserId, id);
      }
      users := RemoveById(users, UserId, id);
    }

    method DeleteRejected(payloadMessage: Option<string>)
      modifies this
      ensures !loading && error == Some(OrElse(payloadMessage, "Failed to delete user"))
      ensures users == old(users)
    {
      loading := false;
      error := Some(OrElse(payloadMessage, "Failed to delete user"));
    }
  }
}
