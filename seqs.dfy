/** Generic sequence facts used by the text proofs. */
module Seqs {

  /** Concatenation is associative; stated once so that proofs about string literals need not unfold it. */
  lemma Associative<T>(a: seq<T>, b: seq<T>, c: seq<T>)
    ensures (a + b) + c == a + (b + c)
  {
  }
}
