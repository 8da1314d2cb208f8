/** Sequences without one of their elements. */
module Sequences {
  function Drop<T>(s: seq<T>, k: nat): (r: seq<T>)
    requires k < |s|
    ensures |r| == |s| - 1
  {
    s[..k] + s[k + 1..]
  }

  lemma DropEnds<T>(s: seq<T>)
    requires s != []
    ensures Drop(s, 0) == s[1..] && Drop(s, |s| - 1) == s[..|s| - 1]
  {
  }
}
