/** What all modules share. */
module Basics {

  /** A value that may be missing: a nil reference, or a key that a map does not hold */
  datatype Option<T> = None | Some(value: T)

  lemma CountAppended<T>(s: seq<T>, last: T, x: T)
    ensures multiset(s + [last])[x] == multiset(s)[x] + (if last == x then 1 else 0)
  {
  }

  lemma Associative<T>(a: seq<T>, b: seq<T>, c: seq<T>)
    ensures a + b + c == a + (b + c)
  {
  }
}
