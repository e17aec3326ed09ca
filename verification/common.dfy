/** Small shared vocabulary: an optional value, used wherever the modelled
    code can fail (an `Err` from the operational-transform crate, a refused
    offset, a `todo!` panic), and a few facts about sequences that the
    proofs use as stepping stones. */
module Common {

  datatype Option<+T> = None | Some(value: T)

  /** The head and the tail of a concatenation whose first part is not
      empty. */
  lemma SeqConsAppend<T>(x: seq<T>, y: seq<T>)
    requires x != []
    ensures (x + y)[0] == x[0] && (x + y)[1..] == x[1..] + y
  {
  }

  /** A non-empty sequence is its head followed by its tail. */
  lemma SeqCons<T>(a: seq<T>)
    requires a != []
    ensures a == [a[0]] + a[1..]
  {
  }

  /** Dropping the last element of a concatenation whose second part is not
      empty. */
  lemma SeqDropLast<T>(x: seq<T>, m: seq<T>)
    requires m != []
    ensures (x + m)[..|x + m| - 1] == x + m[..|m| - 1]
    ensures (x + m)[|x + m| - 1] == m[|m| - 1]
  {
  }

  /** A non-empty sequence is its front followed by its last element. */
  lemma SeqLast<T>(t: seq<T>)
    requires t != []
    ensures t == t[..|t| - 1] + [t[|t| - 1]]
  {
  }

  /** Concatenation is associative. */
  lemma SeqAssoc<T>(p: seq<T>, q: seq<T>, r: seq<T>)
    ensures (p + q) + r == p + (q + r)
  {
  }

  /** The empty sequence in front of a concatenation. */
  lemma SeqEmptyFront<T>(x: seq<T>, y: seq<T>)
    requires x == []
    ensures x + y == y
  {
  }
}
