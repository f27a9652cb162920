/** What holds because of something that happened and has not been ended. */
module Lasting {

  /** Something happened before `n`, and nothing has ended it. */
  ghost predicate Since(n: nat, starts: nat -> bool, ends: nat -> bool) {
    exists i: nat | i < n :: starts(i) && forall j: nat | i < j < n :: !ends(j)
  }

  lemma SinceNext(n: nat, starts: nat -> bool, ends: nat -> bool)
    ensures Since(n + 1, starts, ends) <==> starts(n) || (Since(n, starts, ends) && !ends(n))
  {
    if i: nat :| i < n + 1 && starts(i) && forall j: nat | i < j < n + 1 :: !ends(j) {
      if i < n { assert !ends(n) && forall j: nat | i < j < n :: !ends(j); }
    }
  }
}
