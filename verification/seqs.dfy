/** Facts about concatenation, stated once for any element type so that
    proofs about particular sequences need not rediscover them. */
module Seqs {
  /** Concatenation is associative. */
  lemma {:induction false} ConcatAssoc<T>(a: seq<T>, b: seq<T>, c: seq<T>)
    ensures (a + b) + c == a + (b + c)
  {
  }

  /** The empty sequence is a unit of concatenation. */
  lemma {:induction false} ConcatNil<T>(a: seq<T>)
    ensures [] + a == a && a + [] == a
  {
  }
}
