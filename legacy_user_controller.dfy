/** The user table of the oldest generation (`src/controllers/user.ts`): every lookup that
    finds nothing throws, and `updateUser` overwrites every field unconditionally. The clock
    (`Date.now()`) is the parameter `now`. */
module LegacyUserController {
  import opened Wrappers
  import opened Errors
  import Ids
  import Unique

  const SaltRounds := 10
  const EmailExists := PlainError("User with this email already exists")
  const UserNotFound := PlainError("User was not found")
  const UsersNotFound := PlainError("Users were not found")

  datatype User = User(name: string, email: string, passwordHash: string, createdAt: int, updatedAt: int)

  datatype UserDoc = UserDoc(id: string, user: User)

  /** Emails are compared exactly. */
  function EmailKey(u: User): string {
    u.email
  }

  /** No two stored users have the same email. */
  ghost predicate EmailsUnique(users: map<string, User>) {
    Unique.KeysUnique(users, EmailKey)
  }

  /** The ids holding exactly `email`. */
  function EmailOwners(users: map<string, User>, email: string): set<string> {
    Unique.Holders(users, EmailKey, email)
  }

  class UserTable {
    var users: map<string, User>
    const hash: (string, nat) -> string

    ghost predicate Valid()
      reads this
    {
      EmailsUnique(users)
    }

    constructor (hash: (string, nat) -> string)
      ensures Valid() && users == map[] && this.hash == hash
    {
      this.hash := hash;
      users := map[];
    }

    /** `createUser`: refused when a user has exactly this email; otherwise stores
        `hash(password, 10)` with both timestamps set to `now`. */
    method CreateUser(name: string, email: string, password: string, now: int) returns (r: Result<UserDoc, Error>)
      requires Valid()
      modifies this
      ensures Valid()
      ensures r.Failure? <==> EmailOwners(old(users), email) != {}
      ensures r.Failure? ==> r.error == EmailExists && users == old(users)
      ensures r.Success? ==>
                r.value.id !in old(users) &&
                r.value.user == User(name, email, hash(password, SaltRounds), now, now) &&
                users == old(users)[r.value.id := r.value.user]
    {
      if EmailOwners(users, email) != {} {
        return Failure(EmailExists);
      }
      Ids.FreshIdExists(users.Keys);
      var id :| id !in users.Keys;
      var user := User(name, email, hash(password, SaltRounds), now, now);
      Unique.StorePreservesUnique(users, EmailKey, id, user);
      users := users[id := user];
      r := Success(UserDoc(id, user));
    }

    /** `getUserById`: throws "User was not found" exactly when the id is absent. */
    function GetUserById(id: string): (r: Result<UserDoc, Error>)
      reads this
      ensures r.Failure? <==> id !in users
      ensures r.Failure? ==> r.error == UserNotFound
      ensures r.Success? ==> r.value.id == id && users[id] == r.value.user
    {
      if id in users then Success(UserDoc(id, users[id])) else Failure(UserNotFound)
    }

    /** `getUserByEmail`: throws "User was not found" exactly when nobody has the email. */
    method GetUserByEmail(email: string) returns (r: Result<UserDoc, Error>)
      ensures r.Failure? <==> EmailOwners(users, email) == {}
      ensures r.Failure? ==> r.error == UserNotFound
      ensures r.Success? ==> r.value.id in users && users[r.value.id] == r.value.user && r.value.user.email == email
    {
      var owners := EmailOwners(users, email);
      if owners == {} {
        r := Failure(UserNotFound);
      } else {
        var id :| id in owners;
        r := Success(UserDoc(id, users[id]));
      }
    }

    /** `getUsers`: throws "Users were not found" on an empty table, else every document. */
    function GetUsers(): (r: Result<set<UserDoc>, Error>)
      reads this
      ensures r.Failure? <==> users == map[]
      ensures r.Failure? ==> r.error == UsersNotFound
      ensures r.Success? ==> forall id :: id in users ==> UserDoc(id, users[id]) in r.value
      ensures r.Success? ==> forall d :: d in r.value ==> d.id in users && users[d.id] == d.user
    {
      if users == map[] then Failure(UsersNotFound)
      else Success(set id | id in users :: UserDoc(id, users[id]))
    }

    /** `updateUser`: "User was not found" for an unknown id; refused when another user has
        exactly the new email; otherwise name, email, hash and `updatedAt` are all
        overwritten, whatever their values, and the modified document is returned. */
    method UpdateUser(id: string, name: string, email: string, password: string, now: int)
      returns (r: Result<UserDoc, Error>)
      requires Valid()
      modifies this
      ensures Valid()
      ensures id !in old(users) ==> r == Failure(UserNotFound)
      ensures id in old(users) && EmailOwners(old(users), email) - {id} != {} ==> r == Failure(EmailExists)
      ensures r.Failure? ==> users == old(users)
      ensures r.Success? <==> id in old(users) && EmailOwners(old(users), email) - {id} == {}
      ensures r.Success? ==>
                r.value == UserDoc(id, User(name, email, hash(password, SaltRounds), old(users)[id].createdAt, now)) &&
                users == old(users)[id := r.value.user]
    {
      if id !in users {
        return Failure(UserNotFound);
      }
      var user := users[id];
      if EmailOwners(users, email) - {id} != {} {
        return Failure(EmailExists);
      }
      var passwordHash := hash(password, SaltRounds);
      user := user.(name := name, email := email, passwordHash := passwordHash, updatedAt := now);
      Unique.StorePreservesUnique(users, EmailKey, id, user);
      users := users[id := user];
      r := Success(UserDoc(id, user));
    }

    /** `deleteUser`: "User was not found" when absent; otherwise removes and returns it. */
    method DeleteUser(id: string) returns (r: Result<UserDoc, Error>)
      requires Valid()
      modifies this
      ensures Valid()
      ensures users == old(users) - {id}
      ensures r.Failure? <==> id !in old(users)
      ensures r.Failure? ==> r.error == UserNotFound
      ensures r.Success? ==> r.value == UserDoc(id, old(users)[id])
    {
      r := if id in users then Success(UserDoc(id, users[id])) else Failure(UserNotFound);
      users := users - {id};
    }
  }
}
