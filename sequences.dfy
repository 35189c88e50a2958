/** Facts about sequences that the loops building result lists rely on. */
module Sequences {

  /** Appending to a list built by appends gives the same list whichever way
      the appends are grouped. */
  lemma ConcatAssociative<T>(a: seq<T>, b: seq<T>, c: seq<T>)
    ensures (a + b) + c == a + (b + c)
  {
  }

  /** `f` applied to each element, in order. */
  function Map<A, B>(f: A -> B, s: seq<A>): (r: seq<B>)
    ensures |r| == |s| && forall k | 0 <= k < |s| :: r[k] == f(s[k])
  {
    seq(|s|, k requires 0 <= k < |s| => f(s[k]))
  }

  /** Mapping one more element appends its image. */
  lemma MapAppendOne<A, B>(f: A -> B, s: seq<A>, i: nat)
    requires i < |s|
    ensures Map(f, s[..i + 1]) == Map(f, s[..i]) + [f(s[i])]
  {
    var longer, shorter := Map(f, s[..i + 1]), Map(f, s[..i]) + [f(s[i])];
    forall k | 0 <= k < |longer|
      ensures longer[k] == shorter[k]
    {
      if k < i {
        assert s[..i + 1][k] == s[..i][k];
      }
    }
  }
}
