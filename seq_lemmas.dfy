/** Sequence facts the trace-accumulating loops use at every step. */
module SeqLemmas {

  /** Concatenation regroups: stated once so the loops need not re-derive it element by element. */
  lemma AppendAssoc<T>(a: seq<T>, b: seq<T>, c: seq<T>)
    ensures a + (b + c) == (a + b) + c
  {
  }
}
