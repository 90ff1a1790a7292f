/** What several modules need: optional values, and regrouping of sequences. */
module Prelude {
  datatype Option<+T> = None | Some(value: T)

  lemma {:induction false} Associate<T>(a: seq<T>, b: seq<T>, c: seq<T>)
    ensures a + b + c == a + (b + c)
  {
  }
}
