/** The gateway's user store (gateway-service `UserService`).

    A user names an owner; creating or updating one first asks the owner
    service whether that owner exists, and gives up without a reply.
    Passwords are stored encoded; the encoder is a parameter of the service. */
module Users {
  import opened Common
  import opened Messaging

  /** A stored user. `password` holds the encoded password. */
  datatype User = User(username: string, password: string, role: Role, ownerId: Uuid)

  type Store = map<Uuid, User>

  /** A user as the service hands it out (and takes it in `updateUser`). */
  datatype UserDto = UserDto(id: Uuid, username: string, password: string, role: Role, ownerId: Uuid)

  /** `convertToDto`: the dto carries the record under its id. */
  function ToDto(id: Uuid, u: User): (r: UserDto)
    ensures r.id == id && User(r.username, r.password, r.role, r.ownerId) == u
  {
    UserDto(id, u.username, u.password, u.role, u.ownerId)
  }

  /** `findByUsername(username).isPresent()`. */
  predicate UsernameTaken(s: Store, username: string): (taken: bool)
    ensures taken <==> username in (set k | k in s :: s[k].username)
  {
    exists k | k in s :: s[k].username == username
  }

  /** No two users share a username. */
  ghost predicate UniqueUsernames(s: Store) {
    forall a, b | a in s && b in s && a != b :: s[a].username != s[b].username
  }

  /** `findByUsername`: the id of the user with that name. The query expects
      at most one row, which is what the precondition says. */
  function FindByUsername(s: Store, username: string): (r: Option<Uuid>)
    requires UniqueUsernames(s)
    ensures r.Some? <==> UsernameTaken(s, username)
    ensures r.Some? ==> r.value in s && s[r.value].username == username
  {
    if UsernameTaken(s, username) then
      var k :| k in s && s[k].username == username;
      Some(k)
    else None
  }

  /** `deleteByUsername`. */
  function WithoutUsername(s: Store, username: string): (r: Store)
    ensures !UsernameTaken(r, username)
    ensures forall k :: k in r <==> k in s && s[k].username != username
    ensures forall k | k in r :: r[k] == s[k]
  {
    map k | k in s && s[k].username != username :: s[k]
  }

  /** `deleteByOwnerId`. */
  function WithoutOwner(s: Store, ownerId: Uuid): (r: Store)
    ensures forall k | k in r :: r[k].ownerId != ownerId
    ensures forall k :: k in r <==> k in s && s[k].ownerId != ownerId
    ensures forall k | k in r :: r[k] == s[k]
  {
    map k | k in s && s[k].ownerId != ownerId :: s[k]
  }

  /** Adding a user under a name nobody has keeps names unique, and the name
      then finds exactly the new user. */
  lemma CreatedKeepsUnique(s: Store, id: Uuid, u: User)
    requires UniqueUsernames(s) && id !in s && !UsernameTaken(s, u.username)
    ensures UniqueUsernames(s[id := u])
    ensures FindByUsername(s[id := u], u.username) == Some(id)
  {
    var t := s[id := u];
    forall a, b | a in t && b in t && a != b
      ensures t[a].username != t[b].username
    {
      if a == id {
        assert b in s;
      } else if b == id {
        assert a in s;
      }
    }
    assert t[id].username == u.username;
  }

  /** Deleting users keeps names unique: every store below a unique store is. */
  lemma SubStoreKeepsUnique(s: Store, r: Store)
    requires UniqueUsernames(s)
    requires forall k | k in r :: k in s && r[k] == s[k]
    ensures UniqueUsernames(r)
  {
  }

  /** On unique names, deleting by username removes at most the one user
      `findByUsername` finds, and that one. */
  lemma WithoutUsernameRemovesTheFoundUser(s: Store, username: string)
    requires UniqueUsernames(s)
    ensures FindByUsername(s, username).None? ==> WithoutUsername(s, username) == s
    ensures FindByUsername(s, username).Some? ==>
      WithoutUsername(s, username) == s - {FindByUsername(s, username).value}
  {
    var r := WithoutUsername(s, username);
    if FindByUsername(s, username).Some? {
      var found := FindByUsername(s, username).value;
      assert r.Keys == s.Keys - {found};
    } else {
      assert r.Keys == s.Keys;
    }
  }

  /** `updateUser` on the store: the four fields are replaced, with the new
      password encoded. */
  function Rewritten(s: Store, dto: UserDto, encode: string -> string): (r: Store)
    requires dto.id in s
    ensures r.Keys == s.Keys
    ensures ToDto(dto.id, r[dto.id]) == dto.(password := encode(dto.password))
    ensures forall k | k in s && k != dto.id :: r[k] == s[k]
  {
    s[dto.id := User(dto.username, encode(dto.password), dto.role, dto.ownerId)]
  }

  /** `updateUser` does not look for the new username among the other users:
      renaming a user to another user's name passes. */
  lemma RewriteCanDuplicateUsername(s: Store, encode: string -> string)
    requires s == map[1 := User("ann", "x", "ROLE_USER", 7), 2 := User("bob", "y", "ROLE_USER", 8)]
    ensures UniqueUsernames(s)
    ensures !UniqueUsernames(Rewritten(s, UserDto(2, "ann", "z", "ROLE_USER", 8), encode))
  {
    var r := Rewritten(s, UserDto(2, "ann", "z", "ROLE_USER", 8), encode);
    assert r[1].username == r[2].username;
  }

  class UserService {
    /** The `PasswordEncoder`. */
    const encode: string -> string
    /** The user repository. */
    var users: Store
    /** Requests this service published, in order. */
    var sent: seq<Published>

    constructor (encoder: string -> string)
      ensures encode == encoder && users == map[] && sent == []
    {
      encode := encoder;
      users := map[];
      sent := [];
    }

    /** `getUser`. */
    function GetUser(id: Uuid): (r: Option<UserDto>)
      reads this
      ensures r.Some? <==> id in users
      ensures r.Some? ==> r.value == ToDto(id, users[id]) && r.value.id == id
    {
      if id in users then Some(ToDto(id, users[id])) else None
    }

    /** `createUser`: needs a reply from the owner service and an unused
        username; then stores the user under a fresh id. */
    method CreateUser(username: string, password: string, role: Role, ownerId: Uuid,
                      correlationId: string, ownerReply: Option<Body>) returns (r: Option<UserDto>)
      modifies this`users, this`sent
      ensures sent == old(sent) + [OwnerLookup(correlationId, ownerId)]
      ensures r.Some? <==> ownerReply.Some? && !UsernameTaken(old(users), username)
      ensures r.None? ==> users == old(users)
      ensures r.Some? ==>
        && r.value.id !in old(users)
        && users == old(users)[r.value.id := User(username, encode(password), role, ownerId)]
        && r == GetUser(r.value.id)
      ensures UniqueUsernames(old(users)) ==> UniqueUsernames(users)
    {
      sent := sent + [OwnerLookup(correlationId, ownerId)];
      if ownerReply.None? {
        return None;
      }
      if UsernameTaken(users, username) {
        return None;
      }
      ghost var unused := Bound(users.Keys);
      assert unused !in users;
      var id :| id !in users;
      var user := User(username, encode(password), role, ownerId);
      users := users[id := user];
      r := Some(ToDto(id, user));
      if UniqueUsernames(old(users)) {
        CreatedKeepsUnique(old(users), id, user);
      }
    }

    /** `deleteUser`: `deleteById`, which ignores an unknown id. */
    method DeleteUser(id: Uuid)
      modifies this`users
      ensures users == old(users) - {id}
    {
      users := users - {id};
    }

    /** `deleteUserByUsername`. */
    method DeleteUserByUsername(username: string)
      modifies this`users
      ensures users == WithoutUsername(old(users), username)
    {
      users := map k | k in users && users[k].username != username :: users[k];
    }

    /** `deleteAllUsersForOwner`. */
    method DeleteAllUsersForOwner(ownerId: Uuid)
      modifies this`users
      ensures users == WithoutOwner(old(users), ownerId)
    {
      users := map k | k in users && users[k].ownerId != ownerId :: users[k];
    }

    /** `updateUser`: an unknown id is refused before anything is sent; then
        the new owner must answer; then the fields are overwritten. */
    method UpdateUser(dto: UserDto, correlationId: string, ownerReply: Option<Body>) returns (r: Option<UserDto>)
      modifies this`users, this`sent
      ensures dto.id !in old(users) ==> sent == old(sent)
      ensures dto.id in old(users) ==> sent == old(sent) + [OwnerLookup(correlationId, dto.ownerId)]
      ensures r.Some? <==> dto.id in old(users) && ownerReply.Some?
      ensures r.None? ==> users == old(users)
      ensures r.Some? ==>
        && users == Rewritten(old(users), dto, encode)
        && r == Some(dto.(password := encode(dto.password)))
        && r == GetUser(dto.id)
    {
      if dto.id !in users {
        return None;
      }
      var user := users[dto.id];
      sent := sent + [OwnerLookup(correlationId, dto.ownerId)];
      if ownerReply.None? {
        return None;
      }
      user := user.(username := dto.username, password := encode(dto.password), role := dto.role, ownerId := dto.ownerId);
      users := users[dto.id := user];
      r := Some(ToDto(dto.id, user));
    }
  }
}
