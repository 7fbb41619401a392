/** Sequences transformed element by element. */
module Seqs {
  /** f applied to each element. */
  function Map<A, B>(f: A -> B, s: seq<A>): (r: seq<B>)
    ensures |r| == |s| && forall i :: 0 <= i < |s| ==> r[i] == f(s[i])
  {
    seq(|s|, i requires 0 <= i < |s| => f(s[i]))
  }

  lemma MapConcat<A, B>(f: A -> B, u: seq<A>, w: seq<A>)
    ensures Map(f, u + w) == Map(f, u) + Map(f, w)
  {
    var s := u + w;
    assert forall i :: 0 <= i < |u| ==> s[i] == u[i];
    assert forall i :: 0 <= i < |w| ==> s[|u| + i] == w[i];
  }

  lemma MapPrefix<A, B>(f: A -> B, s: seq<A>, i: nat)
    requires i <= |s|
    ensures Map(f, s)[..i] == Map(f, s[..i])
  {
  }
}
