/** Two facts about sequence concatenation that the row-level proofs lean
    on; they hold for sequences of any element type. */
module Seqs {

  /** Concatenation is associative. */
  lemma SeqAssoc<T>(a: seq<T>, b: seq<T>, c: seq<T>)
    ensures a + (b + c) == (a + b) + c
  {
  }

  /** With `b` non-empty, the last element of `a + b` is that of `b`, and
      dropping it drops it from `b`. */
  lemma InitOfConcat<T>(a: seq<T>, b: seq<T>)
    requires |b| > 0
    ensures (a + b)[..|a + b| - 1] == a + b[..|b| - 1]
    ensures (a + b)[|a + b| - 1] == b[|b| - 1]
  {
  }
}
