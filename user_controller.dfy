/** The user table of the middle generation (`server/api/user`): emails are matched
    exactly, failures are plain errors without a status, and `getUserByEmail` returns the
    whole record, hash included. */
module UserController {
  import opened Wrappers
  import opened Errors
  import opened Http
  import Ids
  import Unique

  const SaltRounds := 12
  const EmailInUse := PlainError("Email is already in use")
  const InvalidRequest := PlainError("Invalid request")

  /** A stored user record; this generation's schema has no role field. */
  datatype User = User(name: string, email: string, passwordHash: string)

  datatype UserDoc = UserDoc(id: string, user: User)

  /** A document selected with `-passwordHash`. */
  datatype UserView = UserView(id: string, name: string, email: string)

  function Hide(id: string, u: User): UserView {
    UserView(id, u.name, u.email)
  }

  /** Emails are compared exactly. */
  function EmailKey(u: User): string {
    u.email
  }

  /** No two stored users have the same email. */
  ghost predicate EmailsUnique(users: map<string, User>) {
    Unique.KeysUnique(users, EmailKey)
  }

  /** The ids holding exactly `email`. */
  function EmailOwners(users: map<string, User>, email: string): set<string> {
    Unique.Holders(users, EmailKey, email)
  }

  /** The loaded record after `updateUser`'s field assignments: only truthy arguments change
      it, and with no truthy argument it is untouched. */
  function Patched(u: User, name: Option<string>, email: Option<string>, password: Option<string>,
                   hash: (string, nat) -> string): (v: User)
    ensures Truthy(name) ==> v.name == name.value
    ensures !Truthy(name) ==> v.name == u.name
    ensures Truthy(email) ==> v.email == email.value
    ensures !Truthy(email) ==> v.email == u.email
    ensures Truthy(password) ==> v.passwordHash == hash(password.value, SaltRounds)
    ensures !Truthy(password) ==> v.passwordHash == u.passwordHash
    ensures !Truthy(name) && !Truthy(email) && !Truthy(password) ==> v == u
  {
    User(if Truthy(name) then name.value else u.name,
         if Truthy(email) then email.value else u.email,
         if Truthy(password) then hash(password.value, SaltRounds) else u.passwordHash)
  }

  /** The lookup behind `getUserById`, on the records themselves. */
  function ViewById(users: map<string, User>, userId: string): Option<UserView> {
    if userId in users then Some(Hide(userId, users[userId])) else None
  }

  class UserTable {
    var users: map<string, User>
    const hash: (string, nat) -> string

    ghost predicate Valid()
      reads this
    {
      EmailsUnique(users)
    }

    constructor (hash: (string, nat) -> string)
      ensures Valid() && users == map[] && this.hash == hash
    {
      this.hash := hash;
      users := map[];
    }

    /** `createUser`: refused with "Email is already in use" when a user has exactly that
        email, nothing inserted; otherwise one new record with the hashed password. */
    method CreateUser(name: string, email: string, password: string) returns (r: Result<UserDoc, Error>)
      requires Valid()
      modifies this
      ensures Valid()
      ensures r.Failure? <==> EmailOwners(old(users), email) != {}
      ensures r.Failure? ==> r.error == EmailInUse && users == old(users)
      ensures r.Success? ==>
                r.value.id !in old(users) &&
                r.value.user == User(name, email, hash(password, SaltRounds)) &&
                users == old(users)[r.value.id := r.value.user]
    {
      if EmailOwners(users, email) != {} {
        return Failure(EmailInUse);
      }
      Ids.FreshIdExists(users.Keys);
      var id :| id !in users.Keys;
      var user := User(name, email, hash(password, SaltRounds));
      Unique.StorePreservesUnique(users, EmailKey, id, user);
      users := users[id := user];
      r := Success(UserDoc(id, user));
    }

    /** `getUserById`: the record without its hash, or null. */
    function GetUserById(userId: string): (r: Option<UserView>)
      reads this
      ensures r.Some? <==> userId in users
      ensures r.Some? ==> r.value == Hide(userId, users[userId])
      ensures r.Some? ==> r.value.id == userId && r.value.email == users[userId].email
    {
      ViewById(users, userId)
    }

    /** `getUserByEmail`: the whole record of the user with exactly this email, or null. */
    method GetUserByEmail(email: string) returns (r: Option<UserDoc>)
      requires Valid()
      ensures r.None? <==> EmailOwners(users, email) == {}
      ensures r.Some? ==> r.value.id in users && users[r.value.id] == r.value.user && r.value.user.email == email
    {
      var owners := EmailOwners(users, email);
      if owners == {} {
        r := None;
      } else {
        var id :| id in owners;
        r := Some(UserDoc(id, users[id]));
      }
    }

    /** `getUsers`: every user, without hashes. */
    function GetUsers(): (r: set<UserView>)
      reads this
      ensures forall id :: id in users ==> Hide(id, users[id]) in r
      ensures forall v :: v in r ==> v.id in users && v == Hide(v.id, users[v.id])
    {
      set id | id in users :: Hide(id, users[id])
    }

    /** `updateUser`: "Invalid request" for an unknown id; "Email is already in use" for an
        email another user holds, before anything is saved; the user's own email is
        accepted. Only truthy fields change; with none of them the result is null and
        nothing is saved. */
    method UpdateUser(userId: string, name: Option<string>, email: Option<string>, password: Option<string>)
      returns (r: Result<Option<UserView>, Error>)
      requires Valid()
      modifies this
      ensures Valid()
      ensures userId !in old(users) ==> r == Failure(InvalidRequest)
      ensures userId in old(users) && Truthy(email) && EmailOwners(old(users), email.value) - {userId} != {} ==>
                r == Failure(EmailInUse)
      ensures r.Failure? ==> users == old(users)
      ensures r.Success? <==>
                userId in old(users) && !(Truthy(email) && EmailOwners(old(users), email.value) - {userId} != {})
      ensures r.Success? ==> users == old(users)[userId := Patched(old(users)[userId], name, email, password, hash)]
      ensures r.Success? && !Truthy(name) && !Truthy(email) && !Truthy(password) ==>
                r.value.None? && users == old(users)
      ensures r.Success? && (Truthy(name) || Truthy(email) || Truthy(password)) ==>
                r.value == Some(Hide(userId, users[userId]))
    {
      if userId !in users {
        return Failure(InvalidRequest);
      }
      var user := users[userId];
      if Truthy(email) {
        if EmailOwners(users, email.value) - {userId} != {} {
          return Failure(EmailInUse);
        }
        user := user.(email := email.value);
      }
      if Truthy(name) {
        user := user.(name := name.value);
      }
      if Truthy(password) {
        user := user.(passwordHash := hash(password.value, SaltRounds));
      }
      if Truthy(name) || Truthy(email) || Truthy(password) {
        Unique.StorePreservesUnique(users, EmailKey, userId, user);
        users := users[userId := user];
        return Success(Some(Hide(userId, users[userId])));
      }
      assert users[userId := user] == users;
      return Success(None);
    }

    /** `deleteUser`: removes the record and returns it without its hash, or null. */
    method DeleteUser(userId: string) returns (r: Option<UserView>)
      requires Valid()
      modifies this
      ensures Valid()
      ensures users == old(users) - {userId}
      ensures r.Some? <==> userId in old(users)
      ensures r.Some? ==> r.value == Hide(userId, old(users)[userId])
    {
      r := if userId in users then Some(Hide(userId, users[userId])) else None;
      users := users - {userId};
    }
  }
}
