/** Order-preserving subsequences, the shape of every list the event screen derives from another. */
module Subsequences {

  /** `a` is obtained from `b` by deleting elements, keeping the order of the rest. */
  ghost predicate IsSubsequence<T>(a: seq<T>, b: seq<T>)
    decreases |b|
  {
    if a == [] then true
    else if b == [] then false
    else (a[0] == b[0] && IsSubsequence(a[1..], b[1..])) || IsSubsequence(a, b[1..])
  }

  lemma {:induction false} SubsequenceReflexive<T>(a: seq<T>)
    ensures IsSubsequence(a, a)
    decreases |a|
  {
    if a != [] {
      SubsequenceReflexive(a[1..]);
    }
  }

  /** A sequence is a subsequence of itself with anything put in front. */
  lemma {:induction false} SubsequenceOfPrefixed<T>(b: seq<T>, c: seq<T>)
    ensures IsSubsequence(c, b + c)
    decreases |b|
  {
    if b == [] {
      assert b + c == c;
      SubsequenceReflexive(c);
    } else if c != [] {
      SubsequenceOfPrefixed(b[1..], c);
      assert (b + c)[1..] == b[1..] + c;
    }
  }

  /** Appending the same tail to both sides keeps the relation. */
  lemma {:induction false} SubsequenceAppend<T>(a: seq<T>, b: seq<T>, c: seq<T>)
    requires IsSubsequence(a, b)
    ensures IsSubsequence(a + c, b + c)
    decreases |b|
  {
    if a == [] {
      assert a + c == c;
      SubsequenceOfPrefixed(b, c);
    } else {
      assert (a + c)[0] == a[0] && (b + c)[0] == b[0];
      assert (a + c)[1..] == a[1..] + c;
      assert (b + c)[1..] == b[1..] + c;
      if a[0] == b[0] && IsSubsequence(a[1..], b[1..]) {
        SubsequenceAppend(a[1..], b[1..], c);
      } else {
        SubsequenceAppend(a, b[1..], c);
      }
    }
  }
}
