/** A value that may be absent, and a law of sequences the proofs lean on. */
module Options {

  datatype Option<+T> = None | Some(value: T)

  lemma ConcatAssociates<T>(a: seq<T>, b: seq<T>, c: seq<T>)
    ensures (a + b) + c == a + (b + c)
  {
  }
}
