/** Document ids: opaque strings, and a store can always pick one it does not hold yet. */
module Ids {

  /** Some length exceeds the length of every string in the finite set `ids`. */
  lemma {:induction false} LongerThanAll(ids: set<string>) returns (n: nat)
    ensures forall x :: x in ids ==> |x| < n
    decreases ids
  {
    if ids == {} {
      n := 0;
    } else {
      var x :| x in ids;
      var m := LongerThanAll(ids - {x});
      n := if |x| < m then m else |x| + 1;
    }
  }

  /** Every finite set of ids misses some id: new documents can be given a fresh one. */
  lemma FreshIdExists(ids: set<string>)
    ensures exists id :: id !in ids
  {
    var n := LongerThanAll(ids);
    var unused := seq(n, _ => 'x');
    assert unused !in ids;
  }
}
