/** The user table of the newest generation (`server/api/users`). Emails are matched under
    the store's collation (locale "en", strength 2: case-insensitive), given as the key
    function `collate`; bcrypt's `hash(password, rounds)` is the uninterpreted `hash`. */
module UsersController {
  import opened Wrappers
  import opened Errors
  import opened Http
  import Ids
  import Unique

  const SaltRounds := 12
  const UsedEmailError := ExpressError("Email is already used", 406)
  const InvalidRequest := ExpressError("Invalid request", 400)

  /** A stored user record. `isAdmin` defaults to false and no operation here sets it. */
  datatype User = User(name: string, email: string, passwordHash: string, isAdmin: bool)

  /** A whole stored document, hash included: what `User.create` and `getUser` return. */
  datatype UserDoc = UserDoc(id: string, user: User)

  /** A document selected with `-passwordHash`. */
  datatype UserView = UserView(id: string, name: string, email: string, isAdmin: bool)

  function Hide(id: string, u: User): UserView {
    UserView(id, u.name, u.email, u.isAdmin)
  }

  /** The key emails are compared by: the email under the collation. */
  function EmailKey(collate: string -> string): User -> string {
    (u: User) => collate(u.email)
  }

  /** No two stored users have emails equal under the collation. */
  ghost predicate EmailsUnique(users: map<string, User>, collate: string -> string) {
    Unique.KeysUnique(users, EmailKey(collate))
  }

  /** The ids whose email equals `email` under the collation. */
  function EmailOwners(users: map<string, User>, collate: string -> string, email: string): set<string> {
    Unique.Holders(users, EmailKey(collate), collate(email))
  }

  /** The loaded record after `updateUser`'s field assignments: only truthy arguments change
      it, the role never changes, and with no truthy argument it is untouched. */
  function Patched(u: User, name: Option<string>, email: Option<string>, password: Option<string>,
                   hash: (string, nat) -> string): (v: User)
    ensures v.isAdmin == u.isAdmin
    ensures Truthy(name) ==> v.name == name.value
    ensures !Truthy(name) ==> v.name == u.name
    ensures Truthy(email) ==> v.email == email.value
    ensures !Truthy(email) ==> v.email == u.email
    ensures Truthy(password) ==> v.passwordHash == hash(password.value, SaltRounds)
    ensures !Truthy(password) ==> v.passwordHash == u.passwordHash
    ensures !Truthy(name) && !Truthy(email) && !Truthy(password) ==> v == u
  {
    User(if Truthy(name) then name.value else u.name,
         if Truthy(email) then email.value else u.email,
         if Truthy(password) then hash(password.value, SaltRounds) else u.passwordHash,
         u.isAdmin)
  }

  class UserTable {
    var users: map<string, User>
    const collate: string -> string
    const hash: (string, nat) -> string

    ghost predicate Valid()
      reads this
    {
      EmailsUnique(users, collate)
    }

    constructor (collate: string -> string, hash: (string, nat) -> string)
      ensures Valid() && users == map[] && this.collate == collate && this.hash == hash
    {
      this.collate := collate;
      this.hash := hash;
      users := map[];
    }

    /** `createUser`: refused with `UsedEmailError` when any stored email matches under
        the collation, nothing inserted; otherwise exactly one new record under a fresh id. */
    method CreateUser(name: string, email: string, password: string) returns (r: Result<UserDoc, Error>)
      requires Valid()
      modifies this
      ensures Valid()
      ensures r.Failure? <==> EmailOwners(old(users), collate, email) != {}
      ensures r.Failure? ==> r.error == UsedEmailError && users == old(users)
      ensures r.Success? ==>
                r.value.id !in old(users) &&
                r.value.user == User(name, email, hash(password, SaltRounds), false) &&
                users == old(users)[r.value.id := r.value.user]
    {
      if EmailOwners(users, collate, email) != {} {
        return Failure(UsedEmailError);
      }
      Ids.FreshIdExists(users.Keys);
      var id :| id !in users.Keys;
      var user := User(name, email, hash(password, SaltRounds), false);
      Unique.StorePreservesUnique(users, EmailKey(collate), id, user);
      users := users[id := user];
      r := Success(UserDoc(id, user));
    }

    /** `getUser` (used by login): the whole record, hash included, of the one user whose
        email matches under the collation, or null. */
    method GetUser(email: string) returns (r: Option<UserDoc>)
      requires Valid()
      ensures r.None? <==> EmailOwners(users, collate, email) == {}
      ensures r.Some? ==> r.value.id in users && users[r.value.id] == r.value.user
      ensures r.Some? ==> EmailOwners(users, collate, email) == {r.value.id}
    {
      var owners := EmailOwners(users, collate, email);
      if owners == {} {
        r := None;
      } else {
        var id :| id in owners;
        forall other | other in owners ensures other == id {
          Unique.HoldersAtMostOne(users, EmailKey(collate), collate(email), other, id);
        }
        r := Some(UserDoc(id, users[id]));
      }
    }

    /** `getUserById`: the record without its hash, or null. */
    function GetUserById(userId: string): (r: Option<UserView>)
      reads this
      ensures r.Some? <==> userId in users
      ensures r.Some? ==> r.value == Hide(userId, users[userId])
      ensures r.Some? ==> r.value.id == userId && r.value.name == users[userId].name
    {
      if userId in users then Some(Hide(userId, users[userId])) else None
    }

    /** `getUserByEmail`: like `getUser`, without the hash. */
    method GetUserByEmail(email: string) returns (r: Option<UserView>)
      requires Valid()
      ensures r.None? <==> EmailOwners(users, collate, email) == {}
      ensures r.Some? ==> r.value.id in users && r.value == Hide(r.value.id, users[r.value.id])
      ensures r.Some? ==> EmailOwners(users, collate, email) == {r.value.id}
    {
      var doc := GetUser(email);
      r := if doc.Some? then Some(Hide(doc.value.id, doc.value.user)) else None;
    }

    /** `getUsersByName`: every user whose name matches under the collation, without hashes. */
    function GetUsersByName(name: string): (r: set<UserView>)
      reads this
      ensures forall id :: id in users && collate(users[id].name) == collate(name) ==> Hide(id, users[id]) in r
      ensures forall v :: v in r ==> v.id in users && v == Hide(v.id, users[v.id]) && collate(v.name) == collate(name)
    {
      set id | id in users && collate(users[id].name) == collate(name) :: Hide(id, users[id])
    }

    /** `getUsers`: every user, without hashes. */
    function GetUsers(): (r: set<UserView>)
      reads this
      ensures forall id :: id in users ==> Hide(id, users[id]) in r
      ensures forall v :: v in r ==> v.id in users && v == Hide(v.id, users[v.id])
    {
      set id | id in users :: Hide(id, users[id])
    }

    /** `updateUser`: an unknown id is refused with "Invalid request" (400), an email owned
        by another user with `UsedEmailError` (406), before anything is written; the user's
        own email is accepted. Otherwise only truthy fields change, and with none of them
        nothing is saved and the result is null. */
    method UpdateUser(userId: string, name: Option<string>, email: Option<string>, password: Option<string>)
      returns (r: Result<Option<UserView>, Error>)
      requires Valid()
      modifies this
      ensures Valid()
      ensures userId !in old(users) ==> r == Failure(InvalidRequest)
      ensures userId in old(users) && Truthy(email) && EmailOwners(old(users), collate, email.value) - {userId} != {} ==>
                r == Failure(UsedEmailError)
      ensures r.Failure? ==> users == old(users)
      ensures r.Success? <==>
                userId in old(users) && !(Truthy(email) && EmailOwners(old(users), collate, email.value) - {userId} != {})
      ensures r.Success? ==> users == old(users)[userId := Patched(old(users)[userId], name, email, password, hash)]
      ensures r.Success? && !Truthy(name) && !Truthy(email) && !Truthy(password) ==>
                r.value.None? && users == old(users)
      ensures r.Success? && (Truthy(name) || Truthy(email) || Truthy(password)) ==>
                r.value == Some(Hide(userId, users[userId]))
    {
      if userId !in users {
        return Failure(InvalidRequest);
      }
      var user := users[userId];
      if Truthy(email) {
        if EmailOwners(users, collate, email.value) - {userId} != {} {
          return Failure(UsedEmailError);
        }
        user := user.(email := email.value);
      }
      if Truthy(name) {
        user := user.(name := name.value);
      }
      if Truthy(password) {
        user := user.(passwordHash := hash(password.value, SaltRounds));
      }
      if Truthy(name) || Truthy(email) || Truthy(password) {
        assert user.email == users[userId].email || Truthy(email);
        Unique.StorePreservesUnique(users, EmailKey(collate), userId, user);
        users := users[userId := user];
        return Success(Some(Hide(userId, users[userId])));
      }
      assert users[userId := user] == users;
      return Success(None);
    }

    /** `deleteUser`: removes the record and returns it without its hash, or null. */
    method DeleteUser(userId: string) returns (r: Option<UserView>)
      requires Valid()
      modifies this
      ensures Valid()
      ensures users == old(users) - {userId}
      ensures r.Some? <==> userId in old(users)
      ensures r.Some? ==> r.value == Hide(userId, old(users)[userId])
    {
      r := if userId in users then Some(Hide(userId, users[userId])) else None;
      users := users - {userId};
    }
  }
}
