/** The admin user routes (server/routes/adminRoutes.js): list, create,
    update and delete users.

    The user collection is a sequence in storage order. The routes keep
    ids and emails unique; the id of a created user is supplied by the
    caller. Passwords are stored as given (hashing is not part of this
    model). */
module AdminUsers {
  import opened Common

  datatype User = User(id: string, name: string, email: string, password: string, role: string)

  /** A user as the list and the create response show it: no password. */
  datatype PublicUser = PublicUser(id: string, name: string, email: string, role: string)

  function ToPublic(u: User): (p: PublicUser)
    ensures p.id == u.id && p.name == u.name && p.email == u.email && p.role == u.role
  {
    PublicUser(u.id, u.name, u.email, u.role)
  }

  datatype Reply =
    | UserList(users: seq<PublicUser>)
    | UserCreated(message: string, created: PublicUser)
    | UserUpdated(message: string, updated: User)
    | Notice(status: nat, message: string)

  /** `User.findById(id)`: the index of the first user with that id. */
  function FindUser(users: seq<User>, id: string): (r: Option<nat>)
    ensures r.Some? ==> r.value < |users| && users[r.value].id == id
    ensures r.None? <==> forall j :: 0 <= j < |users| ==> users[j].id != id
  {
    if users == [] then None
    else if users[0].id == id then Some(0)
    else
      var r := FindUser(users[1..], id);
      assert forall j :: 1 <= j < |users| ==> users[j] == users[1..][j - 1];
      if r.None? then None else Some(r.value + 1)
  }

  /** `User.findOne({ email })` finds a user. */
  predicate EmailTaken(users: seq<User>, email: string) {
    exists j :: 0 <= j < |users| && users[j].email == email
  }

  ghost predicate UniqueUsers(users: seq<User>) {
    forall i, j :: 0 <= i < j < |users| ==> users[i].id != users[j].id && users[i].email != users[j].email
  }

  /** The record PUT /api/admin/users/:id saves: each of name, email and
      role takes the new value when it is truthy and keeps the old one
      otherwise; id and password never change. */
  function UpdatedUser(u: User, name: Option<string>, email: Option<string>, role: Option<string>): (r: User)
    ensures Truthy(name) ==> r.name == name.value
    ensures !Truthy(name) ==> r.name == u.name
    ensures Truthy(email) ==> r.email == email.value
    ensures !Truthy(email) ==> r.email == u.email
    ensures Truthy(role) ==> r.role == role.value
    ensures !Truthy(role) ==> r.role == u.role
    ensures r.id == u.id && r.password == u.password
  {
    u.(name := OrElse(name, u.name), email := OrElse(email, u.email), role := OrElse(role, u.role))
  }

  /** The update is refused exactly when it asks for a different, truthy
      email that some user already holds. */
  predicate EmailConflict(users: seq<User>, u: User, email: Option<string>) {
    Truthy(email) && email.value != u.email && EmailTaken(users, email.value)
  }

  /** An update the route accepts keeps ids and emails unique. */
  lemma UpdateKeepsUnique(users: seq<User>, i: nat, name: Option<string>, email: Option<string>, role: Option<string>)
    requires UniqueUsers(users) && i < |users|
    requires !EmailConflict(users, users[i], email)
    ensures UniqueUsers(users[i := UpdatedUser(users[i], name, email, role)])
  {
    var r := users[i := UpdatedUser(users[i], name, email, role)];
    forall a, b | 0 <= a < b < |r|
      ensures r[a].id != r[b].id && r[a].email != r[b].email
    {
      if a == i {
        assert r[b] == users[b];
      } else if b == i {
        assert r[a] == users[a];
      }
    }
  }

  /** Removing the user at `i` drops exactly the users with that id and
      keeps ids and emails unique. */
  lemma RemoveUserAtEffect(users: seq<User>, i: nat)
    requires UniqueUsers(users) && i < |users|
    ensures UniqueUsers(users[..i] + users[i + 1..])
    ensures forall u :: u in users ==> (u in users[..i] + users[i + 1..] <==> u.id != users[i].id)
  {
    var rest := users[..i] + users[i + 1..];
    assert forall m :: 0 <= m < |rest| ==> rest[m] == users[if m < i then m else m + 1];
    forall u | u in users
      ensures u in rest <==> u.id != users[i].id
    {
      var k :| 0 <= k < |users| && users[k] == u;
      if k < i {
        assert rest[k] == u;
      } else if k > i {
        assert rest[k - 1] == u;
      }
    }
  }

  class UserTable {
    var users: seq<User>

    ghost predicate Valid()
      reads this
    {
      UniqueUsers(users)
    }

    constructor (initial: seq<User>)
      requires UniqueUsers(initial)
      ensures Valid() && users == initial
    {
      users := initial;
    }

    /** GET /api/admin/users: every user without the password, in storage
        order. */
    method List() returns (resp: Reply)
      ensures resp.UserList?
      ensures |resp.users| == |users|
      ensures forall i :: 0 <= i < |users| ==> resp.users[i] == ToPublic(users[i])
    {
      var listed: seq<PublicUser> := [];
      var n := 0;
      while n < |users|
        invariant 0 <= n <= |users|
        invariant |listed| == n
        invariant forall i :: 0 <= i < n ==> listed[i] == ToPublic(users[i])
      {
        listed := listed + [ToPublic(users[n])];
        n := n + 1;
      }
      resp := UserList(listed);
    }

    /** POST /api/admin/users. `freshId` is the id the database assigns. */
    method Create(name: string, email: string, password: string, role: Option<string>, freshId: string)
      returns (resp: Reply)
      requires Valid()
      requires forall j :: 0 <= j < |users| ==> users[j].id != freshId
      modifies this
      ensures Valid()
      ensures EmailTaken(old(users), email) ==>
        users == old(users) && resp == Notice(400, "User already exists")
      ensures !EmailTaken(old(users), email) ==>
        var u := User(freshId, name, email, password, OrElse(role, "customer"));
        && users == old(users) + [u]
        && resp == UserCreated("User created successfully", ToPublic(u))
    {
      if EmailTaken(users, email) {
        return Notice(400, "User already exists");
      }
      var user := User(freshId, name, email, password, OrElse(role, "customer"));
      users := users + [user];
      resp := UserCreated("User created successfully", ToPublic(user));
    }

    /** PUT /api/admin/users/:id. The response echoes the saved record. */
    method Update(id: string, name: Option<string>, email: Option<string>, role: Option<string>)
      returns (resp: Reply)
      requires Valid()
      modifies this
      ensures Valid()
      ensures FindUser(old(users), id).None? ==>
        users == old(users) && resp == Notice(404, "User not found")
      ensures FindUser(old(users), id).Some? ==>
        var i := FindUser(old(users), id).value;
        && (EmailConflict(old(users), old(users)[i], email) ==>
              users == old(users) && resp == Notice(400, "Email already taken by another user."))
        && (!EmailConflict(old(users), old(users)[i], email) ==>
              && users == old(users)[i := UpdatedUser(old(users)[i], name, email, role)]
              && resp == UserUpdated("User updated successfully", users[i]))
    {
      var found := FindUser(users, id);
      if found.None? {
        return Notice(404, "User not found");
      }
      var i := found.value;
      var user := users[i];
      user := user.(name := OrElse(name, user.name));
      if Truthy(email) && email.value != user.email {
        if EmailTaken(users, email.value) {
          return Notice(400, "Email already taken by another user.");
        }
      }
      user := user.(email := OrElse(email, user.email));
      user := user.(role := OrElse(role, user.role));
      assert user == UpdatedUser(users[i], name, email, role);
      UpdateKeepsUnique(users, i, name, email, role);
      users := users[i := user];
      resp := UserUpdated("User updated successfully", user);
    }

    /** DELETE /api/admin/users/:id. */
    method Delete(id: string) returns (resp: Reply)
      requires Valid()
      modifies this
      ensures Valid()
      ensures FindUser(old(users), id).None? ==>
        users == old(users) && resp == Notice(404, "User not found")
      ensures FindUser(old(users), id).Some? ==>
        var i := FindUser(old(users), id).value;
        && users == old(users)[..i] + old(users)[i + 1..]
        && resp == Notice(200, "User deleted successfully")
      ensures forall u :: u in old(users) ==> (u in users <==> u.id != id)
    {
      var found := FindUser(users, id);
      if found.None? {
        return Notice(404, "User not found");
      }
      var i := found.value;
      RemoveUserAtEffect(users, i);
      users := users[..i] + users[i + 1..];
      resp := Notice(200, "User deleted successfully");
    }
  }
}
