/** The operation logs (frames sent, events emitted, calls made) are sequences that only grow at the end. */
module Logs {

  /** Appending to a log in two steps is appending once. */
  lemma AppendAssociative<T>(a: seq<T>, b: seq<T>, c: seq<T>)
    ensures (a + b) + c == a + (b + c)
  {
  }
}
