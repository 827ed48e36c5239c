/** Sequences whose order does not matter. */
module Sequences {
  /** The images of all elements, in order. */
  function MapSeq<S, T>(f: S -> T, s: seq<S>): (t: seq<T>)
    ensures |t| == |s| && forall i :: 0 <= i < |s| ==> t[i] == f(s[i])
  {
    seq(|s|, i requires 0 <= i < |s| => f(s[i]))
  }

  function Without<S>(s: seq<S>, k: nat): seq<S>
    requires k < |s|
  {
    s[..k] + s[k + 1..]
  }

  lemma {:induction false} WithoutOne<S>(s: seq<S>, k: nat)
    requires k < |s|
    ensures multiset(s) == multiset{s[k]} + multiset(Without(s, k))
  {
    assert s == s[..k] + [s[k]] + s[k + 1..];
  }

  lemma {:induction false} OneImageLess<S, T>(f: S -> T, s: seq<S>, k: nat)
    requires k < |s|
    ensures multiset(MapSeq(f, s)) == multiset{f(s[k])} + multiset(MapSeq(f, Without(s, k)))
  {
    WithoutOne(MapSeq(f, s), k);
    assert MapSeq(f, Without(s, k)) == Without(MapSeq(f, s), k);
  }

  /** The bag of images depends only on the bag of elements. */
  lemma {:induction false} MapSeqKeepsOrderOut<S, T>(f: S -> T, s: seq<S>, t: seq<S>)
    requires multiset(s) == multiset(t)
    ensures multiset(MapSeq(f, s)) == multiset(MapSeq(f, t))
    decreases |s|
  {
    hide MapSeq, Without;
    if s == [] {
      assert |t| == |multiset(t)| == 0;
    } else {
      assert s[0] in multiset(t);
      var k :| 0 <= k < |t| && t[k] == s[0];
      WithoutOne(s, 0);
      WithoutOne(t, k);
      assert multiset(Without(s, 0)) == multiset(s) - multiset{s[0]};
      MapSeqKeepsOrderOut(f, Without(s, 0), Without(t, k));
      OneImageLess(f, s, 0);
      OneImageLess(f, t, k);
    }
  }
}
