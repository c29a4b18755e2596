// What the stamps of the implication graph answer, and what they leave out.

module ImplicationAnswers {
  import opened Sat
  import Collections
  import opened Formula
  import opened ImplicationGraph

  // ---------- all graphs ----------

  // An interval lies inside another one exactly if the literal can be reached by literals
  // that had no stamp when the outer one got its own.
  lemma InsideExactly(E: Edges, n: nat, s: Stamps, a: Lit, b: Lit)
    requires Searching(E, n, s, []) && Started(s, a) != 0
    ensures Inside(s, a, b) <==> a != b && Reach(After(E, s, a), a, b)
  {
    assert !IsOpen(s, a) && !IsOpen(s, b);
    if a != b {
      if p :| Path(After(E, s, a), p) && p[0] == a && p[|p| - 1] == b {
        PathInside(E, n, s, a, p, |p| - 1);
      }
    }
  }

  lemma {:induction false} PathInside(E: Edges, n: nat, s: Stamps, a: Lit, p: seq<Lit>, k: nat)
    requires Searching(E, n, s, []) && Started(s, a) != 0 && Path(After(E, s, a), p) && p[0] == a && k < |p|
    ensures p[k] == a || Inside(s, a, p[k])
  {
    if k > 0 {
      PathInside(E, n, s, a, p, k - 1);
      assert (p[k - 1], p[k - 1 + 1]) in After(E, s, a);
      assert !IsOpen(s, p[k - 1]) && !IsOpen(s, a);
    }
  }

  // The answer for every graph.
  lemma SaysExactly(big: BIG, E: Edges, a: Lit, b: Lit)
    requires big.Stamped(E) && a.v < big.n && b.v < big.n
    ensures var s := Stamps(big.start, big.stop, 0);
      big.Says(a, b) <==> a != b && (Reach(After(E, s, a), a, b) || Reach(After(E, s, Neg(b)), Neg(b), Neg(a)))
  {
    hide Searching, Tree, Reach, Inside, After, BIG.Stamped, BIG.Says;
    var t := big.Finished(E);
    big.SaysInside(t, a, b);
    InsideExactly(E, big.n, t, a, b);
    InsideExactly(E, big.n, t, Neg(b), Neg(a));
    AfterSame(E, t, Stamps(big.start, big.stop, 0), a);
    AfterSame(E, t, Stamps(big.start, big.stop, 0), Neg(b));
    NegInjective(a, b);
  }

  lemma AfterSame(E: Edges, s: Stamps, t: Stamps, a: Lit)
    requires s.start == t.start
    ensures After(E, s, a) == After(E, t, a)
  {
  }

  lemma NegInjective(a: Lit, b: Lit)
    ensures Neg(a) == Neg(b) <==> a == b
  {
    assert Neg(Neg(a)) == a && Neg(Neg(b)) == b;
  }

  // A literal that the search was not started with follows from a predecessor.
  lemma FoundSays(big: BIG, E: Edges, l: Lit)
    requires big.Stamped(E) && l.v < big.n && InRange(E, big.n)
    ensures l !in big.starts ==> exists p :: (p, l) in E && big.Says(p, l)
    ensures l in big.starts ==> Root(E, l) || NoRootReaches(E, big.n, l)
  {
    hide Searching, Tree, BIG.Stamped, BIG.Says;
    var t := big.Finished(E);
    if l !in big.starts {
      FoundInside(E, big.n, t, big.starts, l);
      var p :| (p, l) in E && Inside(t, p, l);
      big.SaysInside(t, p, l);
    }
  }

  ghost predicate InRange(E: Edges, n: nat) {
    forall a, b :: (a, b) in E ==> a.v < n && b.v < n
  }

  lemma FoundInside(E: Edges, n: nat, s: Stamps, starts: set<Lit>, l: Lit)
    requires Searching(E, n, s, []) && Tree(E, s, starts) && Started(s, l) != 0 && l !in starts
    ensures exists p :: (p, l) in E && Inside(s, p, l)
  {
    var p :| FoundFrom(E, s, p, l);
    assert !IsOpen(s, p);
  }

  // ---------- where nothing is missed ----------

  // Every literal of the path after the first one has no other predecessor.
  ghost predicate OneWay(E: Edges, p: seq<Lit>) {
    Path(E, p) && forall i, x :: 1 <= i < |p| && (x, p[i]) in E ==> x == p[i - 1]
  }

  ghost predicate Rooted(E: Edges, n: nat, l: Lit) {
    !NoRootReaches(E, n, l)
  }

  // Along such a path the intervals are nested, for all random numbers.
  lemma {:induction false} OneWayInside(E: Edges, n: nat, s: Stamps, starts: set<Lit>, p: seq<Lit>, k: nat)
    requires Searching(E, n, s, []) && Tree(E, s, starts) && StartsOk(E, n, starts) && SkewSymmetric(E)
    requires OneWay(E, p) && Rooted(E, n, p[0]) && 0 < k < |p|
    requires forall i :: 0 <= i < |p| ==> Started(s, p[i]) != 0
    ensures Inside(s, p[0], p[k]) && Rooted(E, n, p[k])
  {
    if k > 1 { OneWayInside(E, n, s, starts, p, k - 1); }
    NotStart(E, n, starts, p[k - 1], p[k]);
    FoundInside(E, n, s, starts, p[k]);
    var q :| (q, p[k]) in E && Inside(s, q, p[k]);
    assert q == p[k - 1];
  }

  lemma NotStart(E: Edges, n: nat, starts: set<Lit>, x: Lit, l: Lit)
    requires StartsOk(E, n, starts) && SkewSymmetric(E) && (x, l) in E && Rooted(E, n, x)
    ensures l !in starts && Rooted(E, n, l)
  {
    var r: Lit :| r.v < n && Root(E, r) && Reach(E, r, x);
    ReachStep(E, r, x, l);
    assert (Neg(l), Neg(x)) in E;
  }

  lemma OneWaySays(big: BIG, E: Edges, p: seq<Lit>)
    requires big.Stamped(E) && SkewSymmetric(E) && InRange(E, big.n) && OneWay(E, p) && |p| > 1 && Rooted(E, big.n, p[0])
    ensures big.Says(p[0], p[|p| - 1]) && big.Says(Neg(p[|p| - 1]), Neg(p[0]))
  {
    hide Searching, Tree, Rooted, Inside, BIG.Stamped, BIG.Says, SkewSymmetric;
    var t := big.Finished(E);
    var a, b := p[0], p[|p| - 1];
    forall i | 0 <= i < |p| ensures p[i].v < big.n {
      if i > 0 { assert (p[i - 1], p[i - 1 + 1]) in E; } else { assert (p[0], p[0 + 1]) in E; }
    }
    hide OneWay;
    OneWayInside(E, big.n, t, big.starts, p, |p| - 1);
    assert Neg(Neg(a)) == a && Neg(Neg(b)) == b;
    big.SaysInside(t, a, b);
    big.SaysInside(t, Neg(b), Neg(a));
  }

  ghost predicate NoCycle(E: Edges) {
    forall a, b :: (a, b) in E ==> !Reach(E, b, a)
  }

  // Nothing that a reaches has two predecessors that it reaches, or another one.
  ghost predicate TreeBelow(E: Edges, a: Lit) {
    forall x, y, l :: (x, l) in E && (y, l) in E && Reach(E, a, x) ==> x == y
  }

  ghost predicate OnePredecessor(E: Edges) {
    forall x, y, l :: (x, l) in E && (y, l) in E ==> x == y
  }

  lemma {:induction false} TreePath(E: Edges, a: Lit, p: seq<Lit>, k: nat)
    requires Path(E, p) && p[0] == a && k < |p|
    ensures Reach(E, a, p[k])
  {
    if k == 0 {
      ReachRefl(E, a);
    } else {
      TreePath(E, a, p, k - 1);
      assert (p[k - 1], p[k - 1 + 1]) in E;
      ReachStep(E, a, p[k - 1], p[k]);
    }
  }

  // Without cycles, the answer is exactly reachability if what the one literal reaches is a
  // tree, or what the complement of the other one reaches.
  lemma TreeSays(big: BIG, E: Edges, a: Lit, b: Lit)
    requires big.Stamped(E) && SkewSymmetric(E) && InRange(E, big.n) && NoCycle(E)
    requires a.v < big.n && b.v < big.n && a != b && (TreeBelow(E, a) || TreeBelow(E, Neg(b)))
    ensures big.Says(a, b) <==> Reach(E, a, b)
  {
    hide Searching, Tree, BIG.Stamped, BIG.Says, Reach, NoCycle, TreeBelow, SkewSymmetric, InRange;
    if big.Says(a, b) {
      var t := big.Finished(E);
      big.SaysInside(t, a, b);
      ImpliesReaches(E, big.n, t, a, b);
    }
    if Reach(E, a, b) {
      NegInjective(a, b);
      ReachContraposed(E, a, b);
      assert Neg(Neg(a)) == a && Neg(Neg(b)) == b;
      if TreeBelow(E, a) {
        TreeReaches(big, E, a, b);
      } else {
        TreeReaches(big, E, Neg(b), Neg(a));
      }
    }
  }

  lemma TreeReaches(big: BIG, E: Edges, a: Lit, b: Lit)
    requires big.Stamped(E) && SkewSymmetric(E) && InRange(E, big.n) && NoCycle(E)
    requires a.v < big.n && a != b && TreeBelow(E, a) && Reach(E, a, b)
    ensures big.Says(a, b) && big.Says(Neg(b), Neg(a))
  {
    var p :| Path(E, p) && p[0] == a && p[|p| - 1] == b;
    forall i, x | 1 <= i < |p| && (x, p[i]) in E ensures x == p[i - 1] {
      TreePath(E, a, p, i - 1);
      assert (p[i - 1], p[i - 1 + 1]) in E;
    }
    AllRooted(E, big.n, [a]);
    OneWaySays(big, E, p);
  }

  // The same for all literals if none has two predecessors.
  lemma ForestSays(big: BIG, E: Edges, a: Lit, b: Lit)
    requires big.Stamped(E) && SkewSymmetric(E) && InRange(E, big.n) && NoCycle(E) && OnePredecessor(E)
    requires a.v < big.n && b.v < big.n && a != b
    ensures big.Says(a, b) <==> Reach(E, a, b)
  {
    TreeSays(big, E, a, b);
  }

  // ---------- every literal has a root, if there is no cycle ----------

  ghost predicate Distinct(n: nat, p: seq<Lit>) {
    (forall i :: 0 <= i < |p| ==> p[i].v < n) && forall i, j :: 0 <= i < j < |p| ==> p[i] != p[j]
  }

  lemma {:induction false} AllRooted(E: Edges, n: nat, p: seq<Lit>)
    requires NoCycle(E) && SkewSymmetric(E) && InRange(E, n) && Path(E, p) && Distinct(n, p)
    ensures Rooted(E, n, p[|p| - 1])
    decreases 2 * n - |p|
  {
    TreePath(E, p[0], p, |p| - 1);
    if !Root(E, p[0]) {
      var x :| (Neg(p[0]), x) in E;
      var y := Neg(x);
      assert (Neg(x), Neg(Neg(p[0]))) in E && Neg(Neg(p[0])) == p[0];
      forall i | 0 <= i < |p| ensures p[i] != y {
        TreePath(E, p[0], p, i);
      }
      var q := [y] + p;
      assert Path(E, q) && Distinct(n, q);
      DistinctBound(n, q);
      AllRooted(E, n, q);
    }
  }

  ghost function Codes(p: seq<Lit>): set<nat> {
    set i | 0 <= i < |p| :: Code(p[i])
  }

  lemma DistinctBound(n: nat, p: seq<Lit>)
    requires Distinct(n, p)
    ensures |p| <= 2 * n
  {
    CodesCount(n, p);
    Numbers(2 * n);
    Collections.SubsetCard(Codes(p), Upto(2 * n));
  }

  lemma {:induction false} CodesCount(n: nat, p: seq<Lit>)
    requires Distinct(n, p)
    ensures |Codes(p)| == |p|
  {
    if p != [] {
      var m := |p| - 1;
      CodesCount(n, p[..m]);
      assert Codes(p) == Codes(p[..m]) + {Code(p[m])};
      forall i | 0 <= i < m ensures Code(p[i]) != Code(p[m]) {
        if Code(p[i]) == Code(p[m]) { CodeInjective(p[i], p[m]); }
      }
    }
  }

  ghost function Upto(n: nat): (r: set<nat>)
    ensures forall c: nat :: c in r <==> c < n
  {
    if n == 0 then {} else Upto(n - 1) + {n - 1}
  }

  lemma {:induction false} Numbers(n: nat)
    ensures |Upto(n)| == n
  {
    if n > 0 { Numbers(n - 1); }
  }

  // ---------- a graph where something is always missed ----------

  // Three literals that imply each other in a circle, and the contrapositives.
  ghost function Circle(a: Lit, b: Lit, c: Lit): Edges {
    iset{(a, b), (b, c), (c, a), (Neg(b), Neg(a)), (Neg(c), Neg(b)), (Neg(a), Neg(c))}
  }

  // The intervals of the three are nested in the order of the edges, from the first one on.
  ghost predicate Nested(s: Stamps, x: Lit, y: Lit, z: Lit) {
    && Inside(s, x, y) && Inside(s, x, z) && Inside(s, y, z)
    && !Inside(s, y, x) && !Inside(s, z, x) && !Inside(s, z, y)
  }

  lemma CircleFrom(E: Edges, n: nat, s: Stamps, starts: set<Lit>, x: Lit, y: Lit, z: Lit)
    requires Searching(E, n, s, []) && Tree(E, s, starts) && (x, y) in E && (y, z) in E
    requires forall q :: (q, z) in E ==> q == y
    requires 0 < Started(s, x) < Started(s, y) && Started(s, x) < Started(s, z)
    ensures Nested(s, x, y, z)
  {
    hide Searching, EdgesDone;
    EdgeInside(E, n, s, x, y);
    NotIn(E, n, s, starts, x, y, z);
    FoundInside(E, n, s, starts, z);
    AllStopped(E, n, s, x);
    AllStopped(E, n, s, y);
    AllStopped(E, n, s, z);
  }

  // An edge to a literal with a later stamp leads into the interval.
  lemma EdgeInside(E: Edges, n: nat, s: Stamps, x: Lit, y: Lit)
    requires Searching(E, n, s, []) && (x, y) in E && 0 < Started(s, x) < Started(s, y)
    ensures Inside(s, x, y)
  {
    hide OpenReaches, Reach;
    assert !IsOpen(s, x);
  }

  lemma AllStopped(E: Edges, n: nat, s: Stamps, x: Lit)
    requires Searching(E, n, s, []) && Started(s, x) != 0
    ensures Started(s, x) < Stopped(s, x)
  {
    hide OpenReaches, ClosedReaches, EdgesDone;
    assert !IsOpen(s, x);
  }

  lemma NotIn(E: Edges, n: nat, s: Stamps, starts: set<Lit>, x: Lit, y: Lit, z: Lit)
    requires Searching(E, n, s, []) && Tree(E, s, starts) && (y, z) in E && Inside(s, x, y)
    requires 0 < Started(s, x) < Started(s, z) && Started(s, y) != 0
    ensures z !in starts && Stopped(s, z) != 0
  {
    hide OpenReaches, ClosedReaches;
    assert !IsOpen(s, y) && !IsOpen(s, z);
  }

  lemma CircleNested(E: Edges, n: nat, s: Stamps, starts: set<Lit>, x: Lit, y: Lit, z: Lit)
    requires Searching(E, n, s, []) && Tree(E, s, starts) && (x, y) in E && (y, z) in E && (z, x) in E
    requires x != y && y != z && z != x
    requires forall q :: ((q, z) in E ==> q == y) && ((q, x) in E ==> q == z) && ((q, y) in E ==> q == x)
    requires Started(s, x) != 0 && Started(s, y) != 0 && Started(s, z) != 0
    requires Started(s, x) != Started(s, y) && Started(s, y) != Started(s, z) && Started(s, z) != Started(s, x)
    ensures Nested(s, x, y, z) || Nested(s, y, z, x) || Nested(s, z, x, y)
  {
    hide Searching, Tree, Nested;
    if Started(s, x) < Started(s, y) && Started(s, x) < Started(s, z) {
      CircleFrom(E, n, s, starts, x, y, z);
    } else if Started(s, y) < Started(s, z) {
      CircleFrom(E, n, s, starts, y, z, x);
    } else {
      CircleFrom(E, n, s, starts, z, x, y);
    }
  }

  // x reaches y, and the answer is no.
  ghost predicate Missed(big: BIG, E: Edges, x: Lit, y: Lit)
    reads big
  {
    x != y && Reach(E, x, y) && !big.Says(x, y)
  }

  // Whatever the random numbers are, one of these three answers is wrong.
  lemma CircleMisses(big: BIG, a: Lit, b: Lit, c: Lit)
    requires a.v != b.v && b.v != c.v && c.v != a.v && a.v < big.n && b.v < big.n && c.v < big.n
    requires big.Stamped(Circle(a, b, c))
    ensures var E := Circle(a, b, c); Missed(big, E, b, a) || Missed(big, E, c, b) || Missed(big, E, a, c)
  {
    var E := Circle(a, b, c);
    CircleEdges(a, b, c);
    CircleReaches(a, b, c);
    hide Circle, Searching, Tree, Nested, Inside, Reach, BIG.Stamped, BIG.Says;
    var t := big.Finished(E);
    StampsDiffer(E, big.n, t);
    CircleNested(E, big.n, t, big.starts, a, b, c);
    CircleNested(E, big.n, t, big.starts, Neg(a), Neg(c), Neg(b));
    OneIsMissed(t, a, b, c);
    big.SaysInside(t, b, a);
    big.SaysInside(t, c, b);
    big.SaysInside(t, a, c);
  }

  lemma CircleEdges(a: Lit, b: Lit, c: Lit)
    requires a.v != b.v && b.v != c.v && c.v != a.v
    ensures var E := Circle(a, b, c);
      && (a, b) in E && (b, c) in E && (c, a) in E
      && (Neg(a), Neg(c)) in E && (Neg(c), Neg(b)) in E && (Neg(b), Neg(a)) in E
      && (forall q :: ((q, a) in E ==> q == c) && ((q, b) in E ==> q == a) && ((q, c) in E ==> q == b))
      && (forall q :: ((q, Neg(a)) in E ==> q == Neg(b)) && ((q, Neg(b)) in E ==> q == Neg(c)) && ((q, Neg(c)) in E ==> q == Neg(a)))
  {
  }

  lemma CircleReaches(a: Lit, b: Lit, c: Lit)
    ensures var E := Circle(a, b, c); Reach(E, b, a) && Reach(E, c, b) && Reach(E, a, c)
  {
    var E := Circle(a, b, c);
    TwoSteps(E, a, b, c);
    TwoSteps(E, b, c, a);
    TwoSteps(E, c, a, b);
  }

  lemma TwoSteps(E: Edges, x: Lit, y: Lit, z: Lit)
    requires (x, y) in E && (y, z) in E
    ensures Reach(E, x, z)
  {
    ReachRefl(E, x);
    ReachStep(E, x, x, y);
    ReachStep(E, x, y, z);
  }

  lemma StampsDiffer(E: Edges, n: nat, s: Stamps)
    requires Searching(E, n, s, [])
    ensures forall l, k :: l != k && Started(s, l) == Started(s, k) ==> Started(s, l) == 0
  {
  }

  // The circle and its contrapositive are nested in opposite orders.
  lemma OneIsMissed(s: Stamps, a: Lit, b: Lit, c: Lit)
    requires Nested(s, a, b, c) || Nested(s, b, c, a) || Nested(s, c, a, b)
    requires Nested(s, Neg(a), Neg(c), Neg(b)) || Nested(s, Neg(c), Neg(b), Neg(a)) || Nested(s, Neg(b), Neg(a), Neg(c))
    ensures (!Inside(s, b, a) && !Inside(s, Neg(a), Neg(b))) || (!Inside(s, c, b) && !Inside(s, Neg(b), Neg(c)))
         || (!Inside(s, a, c) && !Inside(s, Neg(c), Neg(a)))
  {
    hide Inside, Neg;
  }
}
