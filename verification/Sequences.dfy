/** Concatenation is associative, for where the solver has to be told. */
module Sequences {
  lemma Assoc<T>(x: seq<T>, y: seq<T>, z: seq<T>)
    ensures x + (y + z) == x + y + z
  {
  }

  lemma AssocFour<T>(w: seq<T>, x: seq<T>, y: seq<T>, z: seq<T>)
    ensures w + (x + (y + z)) == w + x + y + z
    ensures w + (x + y + z) == w + x + y + z
  {
  }
}
