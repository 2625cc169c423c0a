/** Tables keyed by id whose records must not share a key: the user tables keep emails
    unique, exactly or under the store's collation. */
module Unique {

  /** No two ids hold records with the same key. */
  ghost predicate KeysUnique<U>(m: map<string, U>, key: U -> string) {
    forall a, b :: a in m && b in m && a != b ==> key(m[a]) != key(m[b])
  }

  /** The ids whose record has key `k`. */
  function Holders<U>(m: map<string, U>, key: U -> string, k: string): set<string> {
    set id | id in m && key(m[id]) == k
  }

  /** With unique keys a key has at most one holder. */
  lemma HoldersAtMostOne<U>(m: map<string, U>, key: U -> string, k: string, a: string, b: string)
    requires KeysUnique(m, key)
    requires a in Holders(m, key, k) && b in Holders(m, key, k)
    ensures a == b
  {
  }

  /** Storing `u` under `id` keeps keys unique when nobody but `id` holds its key: the
      check of `createUser` (no holder at all) and of `updateUser` (no other holder). */
  lemma StorePreservesUnique<U>(m: map<string, U>, key: U -> string, id: string, u: U)
    requires KeysUnique(m, key)
    requires Holders(m, key, key(u)) <= {id}
    ensures KeysUnique(m[id := u], key)
  {
    var m' := m[id := u];
    forall a, b | a in m' && b in m' && a != b
      ensures key(m'[a]) != key(m'[b])
    {
      if a == id {
        assert b !in Holders(m, key, key(u));
      } else if b == id {
        assert a !in Holders(m, key, key(u));
      }
    }
  }
}
