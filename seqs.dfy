/** Definitions every part of the model shares: an optional value and small facts about sequences. */
module Seqs {
  datatype Option<T> = None | Some(value: T)

  // Each fact below is its own lemma so that the solver proves it without
  // the definitions of a larger proof in view.

  lemma Assoc3<T>(a: seq<T>, b: seq<T>, c: seq<T>)
    ensures a + b + c == a + (b + c)
  {
  }

  lemma Assoc4<T>(a: seq<T>, b: seq<T>, c: seq<T>, d: seq<T>)
    ensures a + b + c + d == a + (b + c + d)
  {
  }

  lemma Assoc5<T>(a: seq<T>, b: seq<T>, c: seq<T>, d: seq<T>, e: seq<T>)
    ensures a + b + c + d + e == a + (b + c + d + e)
  {
  }

  lemma Assoc6<T>(a: seq<T>, b: seq<T>, c: seq<T>, d: seq<T>, e: seq<T>, f: seq<T>)
    ensures a + b + c + d + e + f == a + (b + c + d + e + f)
  {
  }

  lemma AppendNil<T>(xs: seq<T>)
    ensures xs + [] == xs
  {
  }

  lemma NilAppend<T>(nil: seq<T>, xs: seq<T>)
    requires nil == []
    ensures nil + xs == xs
  {
  }

  /** Pushing and then popping restores the stack. */
  lemma PushPop<T>(s: seq<T>, x: T)
    ensures (s + [x])[..|s|] == s
  {
  }
}
