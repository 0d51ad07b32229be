/** The authentication state of the client (client/src/redux/slices/authSlice.js):
    the signed-in user, the guest identifier and the browser's local
    storage, which the reducers write to.

    Local storage is a map from keys to strings; `new Date().getTime()` is
    the parameter `now`. The user record read back from storage is decoded
    by a function given to the constructor (JSON parsing is not part of
    this model). */
module AuthSlice {
  import opened Common

  datatype AuthUser = AuthUser(id: string, name: string, email: string, role: string)

  const GuestIdKey: string := "guestId"
  const UserInfoKey: string := "userInfo"
  const UserTokenKey: string := "userToken"

  /** `localStorage.getItem(key)`: null when the key is absent. */
  function GetItem(storage: map<string, string>, key: string): (r: Option<string>)
    ensures r.Some? <==> key in storage
    ensures r.Some? ==> r.value == storage[key]
  {
    if key in storage then Some(storage[key]) else None
  }

  class AuthState {
    var user: Option<AuthUser>
    var guestId: string
    var loading: bool
    var error: Option<string>
    var storage: map<string, string>

    /** The guest identifier is always truthy and always the one in
        storage. */
    ghost predicate Valid()
      reads this
    {
      Truthy(Some(guestId)) && GuestIdKey in storage && storage[GuestIdKey] == guestId
    }

    /** The initial state: `initializeGuestId` keeps a stored guest
        identifier and otherwise mints and stores `"guest_" + now`; the
        user is the decoded stored `userInfo`, or none when there is no
        truthy one. */
    constructor (stored: map<string, string>, now: nat, decodeUserInfo: string -> AuthUser)
      ensures Valid()
      ensures Truthy(GetItem(stored, GuestIdKey)) ==> guestId == stored[GuestIdKey] && storage == stored
      ensures !Truthy(GetItem(stored, GuestIdKey)) ==>
        guestId == GuestIdAt(now) && storage == stored[GuestIdKey := GuestIdAt(now)]
      ensures Truthy(GetItem(stored, UserInfoKey)) ==> user == Some(decodeUserInfo(stored[UserInfoKey]))
      ensures !Truthy(GetItem(stored, UserInfoKey)) ==> user == None
      ensures !loading && error == None
    {
      var items := stored;
      var initialGuestId := GetItem(items, GuestIdKey);
      if !Truthy(initialGuestId) {
        GuestIdAtInjective(now, now);
        initialGuestId := Some(GuestIdAt(now));
        items := items[GuestIdKey := initialGuestId.value];
      }
      var userInfo := GetItem(items, UserInfoKey);
      assert userInfo == GetItem(stored, UserInfoKey);
      user := if Truthy(userInfo) then Some(decodeUserInfo(userInfo.value)) else None;
      guestId := initialGuestId.value;
      loading := false;
      error := None;
      storage := items;
    }

    /** Signs out: no user, a new stored guest identifier, the stored
        credentials removed, no error and not loading. */
    method Logout(now: nat)
      modifies this
      ensures Valid()
      ensures user == None && guestId == GuestIdAt(now)
      ensures storage == (old(storage) - {UserInfoKey, UserTokenKey})[GuestIdKey := GuestIdAt(now)]
      ensures UserInfoKey !in storage && UserTokenKey !in storage
      ensures error == None && !loading
    {
      GuestIdAtInjective(now, now);
      user := None;
      guestId := GuestIdAt(now);
      storage := storage - {UserInfoKey, UserTokenKey};
      storage := storage[GuestIdKey := guestId];
      error := None;
      loading := false;
    }

    /** Mints a new guest identifier; nothing else changes. */
    method GenerateNewGuestId(now: nat)
      modifies this
      ensures Valid()
      ensures guestId == GuestIdAt(now) && storage == old(storage)[GuestIdKey := GuestIdAt(now)]
      ensures user == old(user) && loading == old(loading) && error == old(error)
    {
      GuestIdAtInjective(now, now);
      guestId := GuestIdAt(now);
      storage := storage[GuestIdKey := guestId];
    }

    /** The pending case of login and registration. */
    method Pending()
      modifies this
      requires Valid()
      ensures Valid()
      ensures loading && error == None
      ensures user == old(user) && guestId == old(guestId) && storage == old(storage)
    {
      loading := true;
      error := None;
    }

    /** The fulfilled case of login and registration: the returned user is
        signed in and the guest identifier is rotated. */
    method SignedIn(payload: AuthUser, now: nat)
      modifies this
      ensures Valid()
      ensures !loading && error == old(error)
      ensures user == Some(payload)
      ensures guestId == GuestIdAt(now) && storage == old(storage)[GuestIdKey := GuestIdAt(now)]
    {
      GuestIdAtInjective(now, now);
      loading := false;
      user := Some(payload);
      guestId := GuestIdAt(now);
      storage := storage[GuestIdKey := guestId];
    }

    /** The rejected case of login and registration: the error is the
        rejection's message. */
    method Rejected(message: string)
      modifies this
      requires Valid()
      ensures Valid()
      ensures !loading && error == Some(message)
      ensures user == old(user) && guestId == old(guestId) && storage == old(storage)
    {
      loading := false;
      error := Some(message);
    }
  }
}
