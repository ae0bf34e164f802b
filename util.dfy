/** Small facts about sequences and integers shared by the loop proofs. */
module Util {
  /** A loop bound as a count: `range(1, n + 1)` is empty for negative `n`. */
  function Max0(n: int): nat {
    if n < 0 then 0 else n
  }

  lemma AppendAssoc<T>(a: seq<T>, b: seq<T>, c: seq<T>)
    ensures a + b + c == a + (b + c)
  {
  }

  lemma PrefixTrans<T>(a: seq<T>, b: seq<T>, c: seq<T>)
    requires a <= b && b <= c
    ensures a <= c
  {
  }
}
