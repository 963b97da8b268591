/** Small facts about sequences shared by the loops of the model. */
module Sequences {
  /** A prefix one longer is the prefix with the next element appended. */
  lemma TakeSnoc<T>(s: seq<T>, i: nat)
    requires i < |s|
    ensures s[..i + 1] == s[..i] + [s[i]]
  {
  }

  /** Dropping `a` elements and then `n` more drops `a + n`. */
  lemma DropDrop<T>(s: seq<T>, a: nat, n: nat)
    requires a + n <= |s|
    ensures s[a..][n..] == s[a + n..]
  {
  }

  /** Appending `a` and then `b` appends `a + b`. */
  lemma AppendAppend<T>(s0: seq<T>, s1: seq<T>, s: seq<T>, a: seq<T>, b: seq<T>)
    requires s1 == s0 + a && s == s1 + b
    ensures s == s0 + a + b && s == s0 + (a + b)
  {
  }
}
