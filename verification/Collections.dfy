// Small facts about sequences and finite sets, kept apart so that the proofs that use
// them stay small.

module Collections {

  lemma SplitLast<T>(u: seq<T>, w: seq<T>)
    requires w != []
    ensures u + w == (u + w[..|w| - 1]) + [w[|w| - 1]]
  {
  }

  lemma DropLast<T>(s: seq<T>, x: T)
    ensures (s + [x])[..|s + [x]| - 1] == s && (s + [x])[|s + [x]| - 1] == x
  {
  }

  lemma {:induction false} SubsetCard<T>(a: set<T>, b: set<T>)
    requires a <= b
    ensures |a| <= |b|
  {
    if a != {} {
      var x :| x in a;
      SubsetCard(a - {x}, b - {x});
    }
  }

  lemma DiffCard<T>(a: set<T>, b: set<T>)
    requires b <= a
    ensures |a - b| == |a| - |b|
  {
    assert a == (a - b) + b;
  }

  function Swapped<T>(s: seq<T>, i: nat, k: nat): (r: seq<T>)
    requires i < |s| && k < |s|
    ensures |r| == |s|
  {
    s[i := s[k]][k := s[i]]
  }

  lemma SwapMultiset<T>(s: seq<T>, i: nat, k: nat)
    requires i < |s| && k < |s|
    ensures multiset(Swapped(s, i, k)) == multiset(s)
  {
  }

  // A random index below size.
  function Draw(value: nat, size: nat): (r: nat)
    requires size > 0
    ensures r < size
  {
    value % size
  }

  // The first k exchanges of a shuffle, with the random numbers from position d on.
  function Mixed<T>(rand: nat -> nat, d: nat, s: seq<T>, k: nat): (r: seq<T>)
    requires k <= |s|
    ensures multiset(r) == multiset(s) && |r| == |s|
  {
    if k == 0 then s
    else
      var t := Mixed(rand, d, s, k - 1);
      SwapMultiset(t, k - 1, Draw(rand(d + k - 1), |s|));
      Swapped(t, k - 1, Draw(rand(d + k - 1), |s|))
  }

  lemma MixedNone<T>(rand: nat -> nat, d: nat, s: seq<T>)
    ensures Mixed(rand, d, s, 0) == s
  {
  }

  lemma MixedNext<T>(rand: nat -> nat, d: nat, s: seq<T>, i: nat)
    requires i < |s|
    ensures Mixed(rand, d, s, i + 1) == Swapped(Mixed(rand, d, s, i), i, Draw(rand(d + i), |s|))
  {
  }
}
