// The binary implication graph: adjacency lists in slices of one array, and start and
// stop stamps of a depth first search that answer reachability (class BIG of
// coprocessor/CoprocessorTypes.h).

module ImplicationGraph {
  import opened Collections
  import opened Sat
  import opened Formula

  // ---------- reachability ----------

  type Edges = iset<(Lit, Lit)>

  ghost predicate Path(E: Edges, p: seq<Lit>) {
    p != [] && forall i :: 0 <= i < |p| - 1 ==> (p[i], p[i + 1]) in E
  }

  ghost predicate Reach(E: Edges, a: Lit, b: Lit) {
    exists p :: Path(E, p) && p[0] == a && p[|p| - 1] == b
  }

  lemma ReachRefl(E: Edges, a: Lit)
    ensures Reach(E, a, a)
  {
    assert Path(E, [a]) && [a][0] == a;
  }

  lemma ReachStep(E: Edges, a: Lit, b: Lit, c: Lit)
    requires Reach(E, a, b) && (b, c) in E
    ensures Reach(E, a, c)
  {
    var p :| Path(E, p) && p[0] == a && p[|p| - 1] == b;
    var q := p + [c];
    assert Path(E, q) && q[0] == a && q[|q| - 1] == c;
  }

  lemma ReachMore(E: Edges, D: Edges, a: Lit, b: Lit)
    requires Reach(E, a, b) && E <= D
    ensures Reach(D, a, b)
  {
    var p :| Path(E, p) && p[0] == a && p[|p| - 1] == b;
    assert Path(D, p);
  }

  ghost predicate SkewSymmetric(E: Edges) {
    forall a, b :: (a, b) in E ==> (Neg(b), Neg(a)) in E
  }

  // If a reaches b, the complement of b reaches the complement of a.
  lemma ReachContraposed(E: Edges, a: Lit, b: Lit)
    requires SkewSymmetric(E) && Reach(E, a, b)
    ensures Reach(E, Neg(b), Neg(a))
  {
    var p :| Path(E, p) && p[0] == a && p[|p| - 1] == b;
    var n := |p|;
    var q := seq(n, i requires 0 <= i < n => Neg(p[n - 1 - i]));
    forall i | 0 <= i < n - 1 ensures (q[i], q[i + 1]) in E {
      assert (p[n - 2 - i], p[n - 2 - i + 1]) in E;
    }
    assert Path(E, q) && q[0] == Neg(b) && q[|q| - 1] == Neg(a);
  }

  // ---------- stamps ----------

  // The state of the search: the stack holds the started literals that are not stopped.
  datatype Stamps = Stamps(start: seq<nat>, stop: seq<nat>, stamp: nat)

  ghost predicate Below(n: nat, l: Lit) {
    l.v < n
  }

  function Started(s: Stamps, l: Lit): nat {
    if Code(l) < |s.start| then s.start[Code(l)] else 0
  }

  function Stopped(s: Stamps, l: Lit): nat {
    if Code(l) < |s.stop| then s.stop[Code(l)] else 0
  }

  predicate IsOpen(s: Stamps, l: Lit) {
    Started(s, l) != 0 && Stopped(s, l) == 0
  }

  predicate IsClosed(s: Stamps, l: Lit) {
    Started(s, l) != 0 && Stopped(s, l) != 0
  }

  ghost predicate ShapeOk(n: nat, s: Stamps) {
    && |s.start| == |s.stop| == 2 * n
    && (forall l :: Started(s, l) <= s.stamp && Stopped(s, l) <= s.stamp)
    && (forall l :: IsClosed(s, l) ==> Started(s, l) < Stopped(s, l))
    && (forall l :: Started(s, l) == 0 ==> Stopped(s, l) == 0)
    && (forall l, k :: l != k && Started(s, l) == Started(s, k) ==> Started(s, l) == 0)
  }

  // The edges to literals that had no stamp when a got its own.
  ghost function After(E: Edges, s: Stamps, a: Lit): Edges {
    iset x: Lit, y: Lit | (x, y) in E && Started(s, a) < Started(s, y) :: (x, y)
  }

  // Everything that was started later than an open literal is reachable from it, by such
  // edges.
  ghost predicate OpenReaches(E: Edges, s: Stamps) {
    forall a, b :: IsOpen(s, a) && Started(s, a) < Started(s, b) ==> Reach(After(E, s, a), a, b)
  }

  // Everything that was started inside the interval of a closed literal is reachable from
  // it in the same way and was stopped inside the interval, too.
  ghost predicate ClosedReaches(E: Edges, s: Stamps) {
    forall a, b :: IsClosed(s, a) && Started(s, a) < Started(s, b) < Stopped(s, a) ==>
      Reach(After(E, s, a), a, b) && IsClosed(s, b) && Stopped(s, b) < Stopped(s, a)
  }

  // Everything that a closed literal implies was started before it was closed.
  ghost predicate EdgesDone(E: Edges, s: Stamps) {
    forall a, b :: IsClosed(s, a) && (a, b) in E ==> 0 < Started(s, b) < Stopped(s, a)
  }

  // A literal that the search was not started with was found by an edge from a literal
  // whose interval contains its own.
  ghost predicate FoundFrom(E: Edges, s: Stamps, p: Lit, l: Lit) {
    (p, l) in E && 0 < Started(s, p) < Started(s, l) && (IsOpen(s, p) || (IsClosed(s, l) && Stopped(s, l) < Stopped(s, p)))
  }

  // The others lie in no interval.
  ghost predicate Tree(E: Edges, s: Stamps, starts: set<Lit>) {
    && (forall l :: Started(s, l) != 0 && l !in starts ==> exists p :: FoundFrom(E, s, p, l))
    && (forall l :: l in starts ==> Started(s, l) != 0)
    && (forall l, a :: l in starts && 0 < Started(s, a) < Started(s, l) ==> 0 < Stopped(s, a) < Started(s, l))
  }

  ghost predicate StackOk(s: Stamps, stack: seq<Lit>) {
    && (forall l :: IsOpen(s, l) <==> l in stack)
    && (forall i, j :: 0 <= i < j < |stack| ==> Started(s, stack[i]) < Started(s, stack[j]))
  }

  ghost predicate Searching(E: Edges, n: nat, s: Stamps, stack: seq<Lit>) {
    ShapeOk(n, s) && OpenReaches(E, s) && ClosedReaches(E, s) && EdgesDone(E, s) && StackOk(s, stack)
  }

  function Start(s: Stamps, l: Lit): (r: Stamps)
    requires Code(l) < |s.start|
    ensures forall k :: Started(r, k) == if k == l then s.stamp + 1 else Started(s, k)
    ensures forall k :: Stopped(r, k) == Stopped(s, k)
  {
    var r := s.(start := s.start[Code(l) := s.stamp + 1], stamp := s.stamp + 1);
    assert forall k :: Code(k) == Code(l) ==> k == l;
    r
  }

  function Stop(s: Stamps, l: Lit): (r: Stamps)
    requires Code(l) < |s.stop|
    ensures forall k :: Stopped(r, k) == if k == l then s.stamp + 1 else Stopped(s, k)
    ensures forall k :: Started(r, k) == Started(s, k)
  {
    var r := s.(stop := s.stop[Code(l) := s.stamp + 1], stamp := s.stamp + 1);
    assert forall k :: Code(k) == Code(l) ==> k == l;
    r
  }

  lemma StartAfter(E: Edges, s: Stamps, l: Lit, a: Lit, b: Lit)
    requires Started(s, l) == 0 && Code(l) < |s.start| && a != l && Reach(After(E, s, a), a, b)
    ensures Reach(After(E, Start(s, l), a), a, b)
  {
    ReachMore(After(E, s, a), After(E, Start(s, l), a), a, b);
  }

  // The open literals reach what the top implies.
  lemma StartReach(E: Edges, n: nat, s: Stamps, stack: seq<Lit>, l: Lit, a: Lit)
    requires Searching(E, n, s, stack) && l.v < n && Started(s, l) == 0 && Code(l) < |s.start|
    requires stack == [] || (stack[|stack| - 1], l) in E
    requires a in stack
    ensures Reach(After(E, Start(s, l), a), a, l)
  {
    hide ClosedReaches, EdgesDone, Reach;
    var r, top := Start(s, l), stack[|stack| - 1];
    assert top in stack && IsOpen(s, a);
    if a == top {
      ReachRefl(After(E, r, a), a);
    } else {
      var i :| 0 <= i < |stack| && stack[i] == a;
      assert Reach(After(E, s, a), a, top);
      StartAfter(E, s, l, a, top);
    }
    assert (top, l) in After(E, r, a);
    ReachStep(After(E, r, a), a, top, l);
  }

  // A literal is put on the stack: a root, or an implied literal of the top.
  lemma StartKeeps(E: Edges, n: nat, s: Stamps, stack: seq<Lit>, l: Lit)
    requires Searching(E, n, s, stack) && l.v < n && Started(s, l) == 0
    requires stack == [] || (stack[|stack| - 1], l) in E
    ensures Searching(E, n, Start(s, l), stack + [l])
  {
    hide After, Reach;
    var r := Start(s, l);
    forall a, b | a != l && Reach(After(E, s, a), a, b) ensures Reach(After(E, r, a), a, b) {
      StartAfter(E, s, l, a, b);
    }
    forall a | IsOpen(r, a) && a != l ensures Reach(After(E, r, a), a, l) {
      assert a in stack;
      StartReach(E, n, s, stack, l, a);
    }
    forall k ensures IsOpen(r, k) <==> k in stack + [l] {}
    forall i, j | 0 <= i < j < |stack + [l]| ensures Started(r, (stack + [l])[i]) < Started(r, (stack + [l])[j]) {
      assert stack[i] in stack;
      if j < |stack| { assert stack[j] in stack; }
    }
  }

  lemma SameAfter(E: Edges, s: Stamps, t: Stamps, a: Lit)
    requires forall k :: Started(t, k) == Started(s, k)
    ensures After(E, t, a) == After(E, s, a)
  {
  }

  // The top of the stack is done.
  lemma StopKeeps(E: Edges, n: nat, s: Stamps, stack: seq<Lit>)
    requires Searching(E, n, s, stack) && stack != []
    requires Code(stack[|stack| - 1]) < 2 * n
    requires forall b :: (stack[|stack| - 1], b) in E ==> Started(s, b) != 0
    ensures Searching(E, n, Stop(s, stack[|stack| - 1]), stack[..|stack| - 1])
  {
    hide After, Reach, StackOk;
    TopIsLast(E, n, s, stack);
    StopStack(s, stack);
    var top := stack[|stack| - 1];
    var r := Stop(s, top);
    forall a ensures After(E, r, a) == After(E, s, a) { SameAfter(E, s, r, a); }
    StopShape(n, s, top);
    hide ShapeOk;
  }

  lemma StopShape(n: nat, s: Stamps, top: Lit)
    requires ShapeOk(n, s) && Code(top) < 2 * n && Started(s, top) != 0
    ensures ShapeOk(n, Stop(s, top))
  {
  }

  lemma StopStack(s: Stamps, stack: seq<Lit>)
    requires StackOk(s, stack) && stack != [] && Code(stack[|stack| - 1]) < |s.stop|
    ensures StackOk(Stop(s, stack[|stack| - 1]), stack[..|stack| - 1])
  {
    var top, front := stack[|stack| - 1], stack[..|stack| - 1];
    var r := Stop(s, top);
    assert stack == front + [top];
    forall k ensures IsOpen(r, k) <==> k in front {
      assert k in stack <==> k in front || k == top;
      if k == top {
        forall i | 0 <= i < |front| ensures front[i] != top { assert front[i] == stack[i]; }
      }
    }
    forall i, j | 0 <= i < j < |front| ensures Started(r, front[i]) < Started(r, front[j]) {
      assert front[i] == stack[i] && front[j] == stack[j];
    }
  }

  // ---------- what the stamps say ----------

  // The intervals of two literals are nested or disjoint.
  lemma Parentheses(E: Edges, n: nat, s: Stamps, a: Lit, b: Lit)
    requires Searching(E, n, s, []) && Started(s, a) != 0 && Started(s, b) != 0 && Started(s, a) < Started(s, b)
    ensures Stopped(s, a) <= Started(s, b) || (Stopped(s, b) < Stopped(s, a) && Reach(E, a, b))
  {
    assert IsClosed(s, a) && IsClosed(s, b) by {
      assert !IsOpen(s, a) && !IsOpen(s, b);
    }
    if Started(s, b) < Stopped(s, a) { ReachMore(After(E, s, a), E, a, b); }
  }

  predicate Inside(s: Stamps, outer: Lit, inner: Lit) {
    Started(s, outer) < Started(s, inner) && Stopped(s, outer) > Stopped(s, inner)
  }

  lemma InsideReaches(E: Edges, n: nat, s: Stamps, a: Lit, b: Lit)
    requires Searching(E, n, s, []) && Inside(s, a, b)
    ensures Reach(E, a, b)
  {
    assert !IsOpen(s, b) && !IsOpen(s, a);
    ReachMore(After(E, s, a), E, a, b);
  }

  lemma StartTree(E: Edges, n: nat, s: Stamps, stack: seq<Lit>, starts: set<Lit>, l: Lit)
    requires Searching(E, n, s, stack) && Tree(E, s, starts) && l.v < n && Started(s, l) == 0
    requires stack != [] ==> (stack[|stack| - 1], l) in E
    ensures Tree(E, Start(s, l), if stack == [] then starts + {l} else starts)
  {
    hide Searching;
    Bounds(E, n, s, stack);
    var r := Start(s, l);
    forall k | Started(s, k) != 0 && k !in starts ensures exists p :: FoundFrom(E, r, p, k) {
      var p :| FoundFrom(E, s, p, k);
      StartFound(E, s, l, p, k);
    }
    if stack != [] {
      TopIsLast(E, n, s, stack);
      assert FoundFrom(E, r, stack[|stack| - 1], l);
    }
  }

  lemma Bounds(E: Edges, n: nat, s: Stamps, stack: seq<Lit>)
    requires Searching(E, n, s, stack)
    ensures |s.start| == |s.stop| == 2 * n && forall b :: Stopped(s, b) <= s.stamp && Started(s, b) <= s.stamp
    ensures stack == [] ==> forall b :: Started(s, b) != 0 ==> IsClosed(s, b)
  {
    hide OpenReaches, ClosedReaches, EdgesDone;
    forall b | stack == [] && Started(s, b) != 0 ensures IsClosed(s, b) { assert b !in stack; }
  }

  lemma StartFound(E: Edges, s: Stamps, l: Lit, p: Lit, k: Lit)
    requires Code(l) < |s.start| && Started(s, l) == 0 && FoundFrom(E, s, p, k) && Started(s, k) != 0
    ensures FoundFrom(E, Start(s, l), p, k)
  {
  }

  lemma StopTree(E: Edges, n: nat, s: Stamps, stack: seq<Lit>, starts: set<Lit>)
    requires Searching(E, n, s, stack) && Tree(E, s, starts) && stack != [] && Code(stack[|stack| - 1]) < 2 * n
    ensures Tree(E, Stop(s, stack[|stack| - 1]), starts)
  {
    hide Searching;
    Bounds(E, n, s, stack);
    var top := stack[|stack| - 1];
    var r := Stop(s, top);
    TopIsLast(E, n, s, stack);
    forall k | Started(r, k) != 0 && k !in starts ensures exists p :: FoundFrom(E, r, p, k) {
      var p :| FoundFrom(E, s, p, k);
      StopFound(E, s, top, p, k);
    }
  }

  // The top of the stack is open, and what was started later is closed.
  lemma TopIsLast(E: Edges, n: nat, s: Stamps, stack: seq<Lit>)
    requires Searching(E, n, s, stack) && stack != []
    ensures IsOpen(s, stack[|stack| - 1]) && forall b :: Started(s, stack[|stack| - 1]) < Started(s, b) ==> IsClosed(s, b)
    ensures forall b :: Stopped(s, b) <= s.stamp && Started(s, b) <= s.stamp
  {
    hide OpenReaches, ClosedReaches, EdgesDone;
    var top := stack[|stack| - 1];
    assert top in stack;
    forall b | b in stack ensures Started(s, b) <= Started(s, top) {
      var k :| 0 <= k < |stack| && stack[k] == b;
    }
    forall b | Started(s, top) < Started(s, b) ensures IsClosed(s, b) {
      assert b !in stack;
    }
  }

  lemma StopFound(E: Edges, s: Stamps, top: Lit, p: Lit, l: Lit)
    requires Code(top) < |s.stop| && IsOpen(s, top) && forall b :: Started(s, top) < Started(s, b) ==> IsClosed(s, b)
    requires forall b :: Stopped(s, b) <= s.stamp
    requires FoundFrom(E, s, p, l)
    ensures FoundFrom(E, Stop(s, top), p, l)
  {
  }

  // The second comparison of implies uses the complements.
  lemma ImpliesReaches(E: Edges, n: nat, s: Stamps, a: Lit, b: Lit)
    requires Searching(E, n, s, []) && SkewSymmetric(E) && (Inside(s, a, b) || Inside(s, Neg(b), Neg(a)))
    ensures Reach(E, a, b)
  {
    if Inside(s, a, b) {
      InsideReaches(E, n, s, a, b);
    } else {
      InsideReaches(E, n, s, Neg(b), Neg(a));
      ReachContraposed(E, Neg(b), Neg(a));
      assert Neg(Neg(a)) == a && Neg(Neg(b)) == b;
    }
  }

  // ---------- the edges of a clause list ----------

  predicate UsesClause(c: Cls) {
    !c.deleted && |c.lits| == 2
  }

  // A binary clause {a, b} is read as two implications.
  function EdgeOf(c: Cls, l: Lit): (r: seq<Lit>) {
    if !UsesClause(c) then []
    else if l == Neg(c.lits[0]) then [c.lits[1]]
    else if l == Neg(c.lits[1]) then [c.lits[0]]
    else []
  }

  // The literals that l implies directly, in the order of the clauses.
  function EdgesFrom(ca: seq<Cls>, list: seq<CRef>, l: Lit): (r: seq<Lit>)
    requires forall i :: 0 <= i < |list| ==> list[i] < |ca|
  {
    if list == [] then [] else EdgesFrom(ca, list[..|list| - 1], l) + EdgeOf(ca[list[|list| - 1]], l)
  }

  ghost predicate ListInRange(ca: seq<Cls>, list: seq<CRef>) {
    forall i :: 0 <= i < |list| ==> list[i] < |ca|
  }

  // Binary clauses have two different literals, over known variables.
  ghost predicate BinaryOk(c: Cls, n: nat) {
    UsesClause(c) ==> c.lits[0] != c.lits[1] && forall l :: l in c.lits ==> l.v < n
  }

  ghost predicate BinariesOk(ca: seq<Cls>, list: seq<CRef>, n: nat) {
    forall i :: 0 <= i < |list| ==> list[i] < |ca| && BinaryOk(ca[list[i]], n)
  }

  lemma {:induction false} EdgeFromClause(ca: seq<Cls>, list: seq<CRef>, n: nat, a: Lit, b: Lit)
    requires BinariesOk(ca, list, n)
    ensures b in EdgesFrom(ca, list, a) <==>
              exists i :: 0 <= i < |list| && UsesClause(ca[list[i]]) && b in EdgeOf(ca[list[i]], a)
  {
    if list != [] {
      var k := |list| - 1;
      EdgeFromClause(ca, list[..k], n, a, b);
      if b in EdgesFrom(ca, list, a) && b !in EdgesFrom(ca, list[..k], a) {
        assert UsesClause(ca[list[k]]) && b in EdgeOf(ca[list[k]], a);
      }
      if i :| 0 <= i < |list| && UsesClause(ca[list[i]]) && b in EdgeOf(ca[list[i]], a) {
        if i < k { assert list[..k][i] == list[i]; }
      }
    }
  }

  // Every edge comes with its contraposition.
  lemma EdgesSkew(ca: seq<Cls>, list: seq<CRef>, n: nat, a: Lit, b: Lit)
    requires BinariesOk(ca, list, n) && b in EdgesFrom(ca, list, a)
    ensures Neg(a) in EdgesFrom(ca, list, Neg(b))
    ensures a.v < n && b.v < n
  {
    EdgeFromClause(ca, list, n, a, b);
    EdgeFromClause(ca, list, n, Neg(b), Neg(a));
    var i :| 0 <= i < |list| && UsesClause(ca[list[i]]) && b in EdgeOf(ca[list[i]], a);
    var c := ca[list[i]].lits;
    assert Neg(Neg(a)) == a && Neg(Neg(b)) == b;
    assert c[0] in c && c[1] in c;
    assert Neg(a) in EdgeOf(ca[list[i]], Neg(b));
  }

  // An edge is an implication in every model of the clauses.
  lemma EdgeHolds(ca: seq<Cls>, list: seq<CRef>, n: nat, a: Lit, b: Lit, m: Model)
    requires BinariesOk(ca, list, n) && b in EdgesFrom(ca, list, a) && Holds(m, a)
    requires forall i :: 0 <= i < |list| && !ca[list[i]].deleted ==> SatClause(m, ca[list[i]].lits)
    ensures Holds(m, b)
  {
    hide EdgesFrom;
    EdgeFromClause(ca, list, n, a, b);
    var i :| 0 <= i < |list| && UsesClause(ca[list[i]]) && b in EdgeOf(ca[list[i]], a);
    var c := ca[list[i]].lits;
    assert SatClause(m, c);
    var l :| l in c && Holds(m, l);
    assert c == [c[0], c[1]];
  }

  ghost function EdgeSet(ca: seq<Cls>, list: seq<CRef>): Edges
    requires ListInRange(ca, list)
  {
    iset a: Lit, b: Lit | b in EdgesFrom(ca, list, a) :: (a, b)
  }

  // The edges are those of the binary clauses that are still there.
  lemma EdgeSetIs(ca: seq<Cls>, list: seq<CRef>, n: nat, a: Lit, b: Lit)
    requires BinariesOk(ca, list, n)
    ensures (a, b) in EdgeSet(ca, list) <==>
              exists i :: i in list && !ca[i].deleted && (ca[i].lits == [Neg(a), b] || ca[i].lits == [b, Neg(a)])
  {
    EdgeFromClause(ca, list, n, a, b);
    assert Neg(Neg(a)) == a;
    if i :| 0 <= i < |list| && UsesClause(ca[list[i]]) && b in EdgeOf(ca[list[i]], a) {
      assert list[i] in list && Neg(Neg(ca[list[i]].lits[0])) == ca[list[i]].lits[0];
      assert Neg(Neg(ca[list[i]].lits[1])) == ca[list[i]].lits[1];
    }
    if i :| i in list && !ca[i].deleted && (ca[i].lits == [Neg(a), b] || ca[i].lits == [b, Neg(a)]) {
      var k :| 0 <= k < |list| && list[k] == i;
      assert UsesClause(ca[list[k]]) && b in EdgeOf(ca[list[k]], a);
    }
  }

  lemma {:induction false} PathHolds(ca: seq<Cls>, list: seq<CRef>, n: nat, p: seq<Lit>, m: Model, k: nat)
    requires BinariesOk(ca, list, n) && Path(EdgeSet(ca, list), p) && k < |p| && Holds(m, p[0])
    requires forall i :: 0 <= i < |list| && !ca[list[i]].deleted ==> SatClause(m, ca[list[i]].lits)
    ensures Holds(m, p[k])
  {
    if k > 0 {
      PathHolds(ca, list, n, p, m, k - 1);
      assert (p[k - 1], p[k - 1 + 1]) in EdgeSet(ca, list);
      EdgeHolds(ca, list, n, p[k - 1], p[k], m);
    }
  }

  // Reachable literals are implied by the clauses.
  lemma ReachHolds(ca: seq<Cls>, list: seq<CRef>, n: nat, a: Lit, b: Lit, m: Model)
    requires BinariesOk(ca, list, n) && Reach(EdgeSet(ca, list), a, b) && Holds(m, a)
    requires forall i :: 0 <= i < |list| && !ca[list[i]].deleted ==> SatClause(m, ca[list[i]].lits)
    ensures Holds(m, b)
  {
    var p :| Path(EdgeSet(ca, list), p) && p[0] == a && p[|p| - 1] == b;
    PathHolds(ca, list, n, p, m, |p| - 1);
  }

  // ---------- the packed representation ----------

  ghost function Sum(s: seq<nat>): nat {
    if s == [] then 0 else Sum(s[..|s| - 1]) + s[|s| - 1]
  }

  lemma SumNext(s: seq<nat>, k: nat)
    requires k < |s|
    ensures Sum(s[..k + 1]) == Sum(s[..k]) + s[k]
  {
    assert s[..k + 1][..k] == s[..k];
  }

  lemma {:induction false} SumMonotone(s: seq<nat>, i: nat, k: nat)
    requires i <= k <= |s|
    ensures Sum(s[..i]) <= Sum(s[..k])
  {
    if i < k {
      SumMonotone(s, i, k - 1);
      SumNext(s, k - 1);
    }
  }

  ghost predicate PartAt(part: seq<CRef>, list: seq<CRef>, from: nat) {
    from + |part| <= |list| && forall k :: 0 <= k < |part| ==> part[k] == list[from + k]
  }

  lemma OnePart(list: seq<CRef>)
    ensures PartAt(list, list, 0)
  {
  }

  lemma TwoParts(list: seq<CRef>, a: seq<CRef>, b: seq<CRef>)
    requires list == a + b
    ensures PartAt(a, list, 0) && PartAt(b, list, |a|) && |list| == |a| + |b|
  {
  }

  class BIG {
    var n: nat                  // the variables that existed when the graph was built
    var sizes: array<nat>       // by literal: how many edges
    var big: array<nat>         // by literal: where its edges begin
    var storage: array<Lit>
    var start: seq<nat>
    var stop: seq<nat>
    ghost var starts: set<Lit>  // the literals that the search was started with
    const rand: nat -> nat      // the values that rand() returns
    var drawn: nat

    ghost var room: seq<nat>    // by literal: how many edges fit

    constructor (random: nat -> nat)
      ensures Packed() && n == 0 && start == [] && stop == [] && fresh(sizes) && fresh(big) && fresh(storage)
    {
      n, start, stop, rand, drawn, room := 0, [], [], random, 0, [];
      sizes, big, storage := new nat[0], new nat[0], new Lit[0];
    }

    // Every literal has its own region of the storage.
    ghost predicate Packed()
      reads `n, `sizes, `big, `storage, `room, sizes, big
    {
      && sizes.Length == big.Length == |room| == 2 * n && sizes != big
      && (forall c :: 0 <= c < 2 * n ==> sizes[c] <= room[c] && big[c] + room[c] <= storage.Length)
      && (forall c, d :: 0 <= c < d < 2 * n ==> big[c] + room[c] <= big[d])
    }

    ghost function Slice(c: nat): (r: seq<Lit>)
      reads `n, `sizes, `big, `storage, `room, sizes, big, storage
      requires Packed() && c < 2 * n
      ensures |r| == sizes[c]
    {
      storage[..][big[c]..big[c] + sizes[c]]
    }

    // Two regions do not overlap.
    lemma RegionFacts(c: nat, d: nat)
      requires Packed() && c < 2 * n && d < 2 * n
      ensures 2 * n == sizes.Length == big.Length && big[c] + sizes[c] <= storage.Length && big[d] + sizes[d] <= storage.Length
      ensures c != d ==> big[c] + sizes[c] <= big[d] || big[d] + sizes[d] <= big[c]
    {
    }

    // getArray and getSize: the literals that l implies directly.
    ghost function Adjacent(l: Lit): (r: seq<Lit>)
      reads `n, `sizes, `big, `storage, `room, sizes, big, storage
      requires Packed()
    {
      if l.v < n then Slice(Code(l)) else []
    }

    // Appends an edge to the list of the literal with code c.
    method PutEdge(c: nat, l: Lit)
      requires Packed() && c < 2 * n && sizes[c] < room[c]
      modifies sizes, storage
      ensures Packed() && Slice(c) == old(Slice(c)) + [l]
      ensures forall d :: 0 <= d < 2 * n && d != c ==> Slice(d) == old(Slice(d)) && sizes[d] == old(sizes[d])
      ensures sizes[c] == old(sizes[c]) + 1
    {
      storage[big[c] + sizes[c]] := l;
      sizes[c] := sizes[c] + 1;
      forall d | 0 <= d < 2 * n && d != c ensures Slice(d) == old(Slice(d)) {
        if d < c { assert big[d] + room[d] <= big[c]; } else { assert big[c] + room[c] <= big[d]; }
      }
    }

    // The sizes are those of the first i clauses.
    ghost predicate Counts(ca: seq<Cls>, list: seq<CRef>, i: nat)
      reads `n, `sizes, sizes
      requires sizes.Length == 2 * n && ListInRange(ca, list) && i <= |list|
    {
      forall l: Lit :: l.v < n ==> sizes[Code(l)] == |EdgesFrom(ca, list[..i], l)|
    }

    lemma NothingCounted(ca: seq<Cls>, list: seq<CRef>)
      requires ListInRange(ca, list) && sizes.Length == 2 * n && forall c :: 0 <= c < 2 * n ==> sizes[c] == 0
      ensures Counts(ca, list, 0) && Sum(sizes[..]) == 0
    {
      ZeroSum(sizes[..]);
    }

    // First pass of create: how many edges each literal gets from one part of the clauses.
    method CountEdges(ca: seq<Cls>, part: seq<CRef>, before: nat, ghost list: seq<CRef>, ghost from: nat) returns (sum: nat)
      requires BinariesOk(ca, list, n) && sizes.Length == 2 * n && PartAt(part, list, from)
      requires Counts(ca, list, from) && before == Sum(sizes[..])
      modifies sizes
      ensures Counts(ca, list, from + |part|) && sum == Sum(sizes[..])
    {
      hide Counts, Sum, EdgesFrom, BinaryOk;
      sum := before;
      var i := 0;
      while i < |part|
        invariant 0 <= i <= |part| && sum == Sum(sizes[..]) && Counts(ca, list, from + i)
      {
        assert part[i] == list[from + i];
        var added := CountOne(ca[part[i]], ca, list, from + i);
        sum := sum + added;
        i := i + 1;
      }
    }

    method CountOne(c: Cls, ghost ca: seq<Cls>, ghost list: seq<CRef>, ghost i: nat) returns (added: nat)
      requires BinariesOk(ca, list, n) && sizes.Length == 2 * n && i < |list| && c == ca[list[i]] && Counts(ca, list, i)
      modifies sizes
      ensures Counts(ca, list, i + 1) && Sum(sizes[..]) == old(Sum(sizes[..])) + added
    {
      hide Counts, Sum, EdgesFrom;
      added := 0;
      if UsesClause(c) {
        CountClause(Code(Neg(c.lits[0])), Code(Neg(c.lits[1])), ca, list, i);
        added := 2;
      } else {
        CountsNext(ca, list, i);
      }
    }

    lemma CountsNext(ca: seq<Cls>, list: seq<CRef>, i: nat)
      requires sizes.Length == 2 * n && ListInRange(ca, list) && i < |list| && Counts(ca, list, i) && !UsesClause(ca[list[i]])
      ensures Counts(ca, list, i + 1)
    {
      EdgesNext(ca, list, i);
    }

    method CountClause(c0: nat, c1: nat, ghost ca: seq<Cls>, ghost list: seq<CRef>, ghost i: nat)
      requires BinariesOk(ca, list, n) && sizes.Length == 2 * n && i < |list| && UsesClause(ca[list[i]]) && Counts(ca, list, i)
      requires c0 == Code(Neg(ca[list[i]].lits[0])) && c1 == Code(Neg(ca[list[i]].lits[1]))
      modifies sizes
      ensures Counts(ca, list, i + 1) && Sum(sizes[..]) == old(Sum(sizes[..])) + 2
    {
      assert BinaryOk(ca[list[i]], n);
      EdgesNext(ca, list, i);
      EdgeCounts(ca[list[i]], n);
      hide EdgesFrom, EdgeOf, Sum;
      SumIncrement(sizes[..], c0);
      ghost var s0 := sizes[..];
      sizes[c0] := sizes[c0] + 1;
      assert sizes[..] == s0[c0 := s0[c0] + 1];
      SumIncrement(sizes[..], c1);
      ghost var s1 := sizes[..];
      sizes[c1] := sizes[c1] + 1;
      assert sizes[..] == s1[c1 := s1[c1] + 1];
    }

    // The regions have room for the edges of the whole list.
    ghost predicate RoomFor(ca: seq<Cls>, list: seq<CRef>)
      reads `n, `room
      requires ListInRange(ca, list) && |room| == 2 * n
    {
      forall l: Lit :: l.v < n ==> room[Code(l)] == |EdgesFrom(ca, list, l)|
    }

    lemma RoomAsCounted(ca: seq<Cls>, list: seq<CRef>)
      requires sizes.Length == 2 * n && ListInRange(ca, list) && Counts(ca, list, |list|) && room == sizes[..]
      ensures RoomFor(ca, list)
    {
      assert list[..|list|] == list;
    }

    // Second pass: the regions follow each other, and no list has an edge yet.
    method LayOut(sum: nat, ghost ca: seq<Cls>, ghost list: seq<CRef>)
      requires sizes.Length == big.Length == 2 * n && sizes != big && sum == Sum(sizes[..]) && storage.Length == sum
      requires ListInRange(ca, list) && Counts(ca, list, |list|)
      modifies sizes, big, `room
      ensures Packed() && RoomFor(ca, list) && forall c :: 0 <= c < 2 * n ==> sizes[c] == 0
    {
      room := sizes[..];
      RoomAsCounted(ca, list);
      hide RoomFor, Counts, EdgesFrom;
      PlaceLists();
      assert room[..2 * n] == room;
      forall c | 0 <= c < 2 * n ensures big[c] + room[c] <= storage.Length {
        SumNext(room, c);
        SumMonotone(room, c + 1, 2 * n);
      }
      forall c, d | 0 <= c < d < 2 * n ensures big[c] + room[c] <= big[d] {
        SumNext(room, c);
        SumMonotone(room, c + 1, d);
      }
    }

    method PlaceLists()
      requires sizes.Length == big.Length == 2 * n && sizes != big && room == sizes[..]
      modifies sizes, big
      ensures forall c :: 0 <= c < 2 * n ==> big[c] == Sum(room[..c]) && sizes[c] == 0
    {
      hide Sum;
      var sum := 0;
      EmptySum(room);
      var i := 0;
      while i < 2 * n
        invariant 0 <= i <= 2 * n && sum == Sum(room[..i])
        invariant forall c :: 0 <= c < i ==> big[c] == Sum(room[..c]) && sizes[c] == 0
        invariant forall c :: i <= c < 2 * n ==> sizes[c] == room[c]
      {
        SumNext(room, i);
        big[i] := sum;
        sum := sum + sizes[i];
        sizes[i] := 0;
        i := i + 1;
      }
    }

    // The lists hold the edges of the first i clauses.
    ghost predicate Filled(ca: seq<Cls>, list: seq<CRef>, i: nat)
      reads `n, `sizes, `big, `storage, `room, sizes, big, storage
      requires Packed() && ListInRange(ca, list) && i <= |list|
    {
      forall l: Lit :: l.v < n ==> Slice(Code(l)) == EdgesFrom(ca, list[..i], l)
    }

    lemma FilledNext(ca: seq<Cls>, list: seq<CRef>, i: nat)
      requires Packed() && ListInRange(ca, list) && i < |list| && Filled(ca, list, i) && !UsesClause(ca[list[i]])
      ensures Filled(ca, list, i + 1)
    {
      EdgesNext(ca, list, i);
    }

    lemma NothingFilled(ca: seq<Cls>, list: seq<CRef>)
      requires Packed() && ListInRange(ca, list) && forall c :: 0 <= c < 2 * n ==> sizes[c] == 0
      ensures Filled(ca, list, 0)
    {
    }

    // Third pass: the binary clauses of one part are added.
    method FillEdges(ca: seq<Cls>, part: seq<CRef>, ghost list: seq<CRef>, ghost from: nat)
      requires BinariesOk(ca, list, n) && Packed() && PartAt(part, list, from)
      requires Filled(ca, list, from) && RoomFor(ca, list)
      modifies sizes, storage
      ensures Packed() && Filled(ca, list, from + |part|)
    {
      hide Filled, EdgesFrom, Packed;
      var i := 0;
      while i < |part|
        invariant 0 <= i <= |part| && Packed() && Filled(ca, list, from + i)
      {
        assert part[i] == list[from + i];
        FillOne(ca[part[i]], ca, list, from + i);
        i := i + 1;
      }
    }

    method FillOne(c: Cls, ghost ca: seq<Cls>, ghost list: seq<CRef>, ghost i: nat)
      requires BinariesOk(ca, list, n) && Packed() && i < |list| && c == ca[list[i]] && Filled(ca, list, i)
      requires RoomFor(ca, list)
      modifies sizes, storage
      ensures Packed() && Filled(ca, list, i + 1)
    {
      hide Filled, EdgesFrom;
      if UsesClause(c) {
        AddClauseEdges(c.lits[0], c.lits[1], ca, list, i);
      } else {
        FilledNext(ca, list, i);
      }
    }

    // The two edges of one clause.
    method PutTwo(c0: nat, l1: Lit, c1: nat, l0: Lit)
      requires Packed() && c0 < 2 * n && c1 < 2 * n && c0 != c1 && sizes[c0] < room[c0] && sizes[c1] < room[c1]
      modifies sizes, storage
      ensures Packed()
      ensures forall d :: 0 <= d < 2 * n ==>
        Slice(d) == old(Slice(d)) + if d == c0 then [l1] else if d == c1 then [l0] else []
    {
      PutEdge(c0, l1);
      PutEdge(c1, l0);
    }

    ghost function Slices(k: nat): (r: seq<seq<Lit>>)
      reads `n, `sizes, `big, `storage, `room, sizes, big, storage
      requires Packed() && k <= 2 * n
      ensures |r| == k && forall c :: 0 <= c < k ==> r[c] == Slice(c)
    {
      if k == 0 then [] else Slices(k - 1) + [Slice(k - 1)]
    }

    // The lists in which the edges of a binary clause go have room for them.
    lemma RoomForTwo(ca: seq<Cls>, list: seq<CRef>, i: nat, l0: Lit, l1: Lit)
      requires BinariesOk(ca, list, n) && Packed() && i < |list| && UsesClause(ca[list[i]])
      requires l0 == ca[list[i]].lits[0] && l1 == ca[list[i]].lits[1]
      requires RoomFor(ca, list)
      requires Filled(ca, list, i)
      ensures var c0, c1 := Code(Neg(l0)), Code(Neg(l1));
        c0 < 2 * n && c1 < 2 * n && c0 != c1 && sizes[c0] < room[c0] && sizes[c1] < room[c1]
    {
      hide EdgesFrom, EdgeOf;
      assert BinaryOk(ca[list[i]], n);
      EdgesOfClause(ca[list[i]], n);
      EdgesFit(ca, list, i, Neg(l0));
      EdgesFit(ca, list, i, Neg(l1));
      assert sizes[Code(Neg(l0))] == |Slice(Code(Neg(l0)))|;
      assert sizes[Code(Neg(l1))] == |Slice(Code(Neg(l1)))|;
    }

    lemma FilledTwo(ca: seq<Cls>, list: seq<CRef>, i: nat, l0: Lit, l1: Lit, slices: seq<seq<Lit>>)
      requires BinariesOk(ca, list, n) && Packed() && i < |list| && UsesClause(ca[list[i]]) && |slices| == 2 * n
      requires l0 == ca[list[i]].lits[0] && l1 == ca[list[i]].lits[1]
      requires forall l: Lit :: l.v < n ==> slices[Code(l)] == EdgesFrom(ca, list[..i], l)
      requires forall d :: 0 <= d < 2 * n ==>
        Slice(d) == slices[d] + if d == Code(Neg(l0)) then [l1] else if d == Code(Neg(l1)) then [l0] else []
      ensures Filled(ca, list, i + 1)
    {
      hide EdgesFrom, EdgeOf, Packed;
      assert BinaryOk(ca[list[i]], n);
      EdgesNext(ca, list, i);
      EdgesOfClause(ca[list[i]], n);
    }

    lemma FilledSlices(ca: seq<Cls>, list: seq<CRef>, i: nat)
      requires BinariesOk(ca, list, n) && Packed() && i <= |list| && Filled(ca, list, i)
      ensures forall l: Lit :: l.v < n ==> Slices(2 * n)[Code(l)] == EdgesFrom(ca, list[..i], l)
    {
    }

    method AddClauseEdges(l0: Lit, l1: Lit, ghost ca: seq<Cls>, ghost list: seq<CRef>, ghost i: nat)
      requires BinariesOk(ca, list, n) && Packed() && i < |list| && UsesClause(ca[list[i]])
      requires l0 == ca[list[i]].lits[0] && l1 == ca[list[i]].lits[1]
      requires RoomFor(ca, list)
      requires Filled(ca, list, i)
      modifies sizes, storage
      ensures Packed() && Filled(ca, list, i + 1)
    {
      hide *;
      ghost var slices := Slices(2 * n);
      RoomForTwo(ca, list, i, l0, l1);
      FilledSlices(ca, list, i);
      PutTwo(Code(Neg(l0)), l1, Code(Neg(l1)), l0);
      FilledTwo(ca, list, i, l0, l1, slices);
    }

    // create: the adjacency lists are the binary clauses read as implications.
    method Create(ca: seq<Cls>, nVars: nat, list: seq<CRef>)
      requires BinariesOk(ca, list, nVars)
      modifies `n, `sizes, `big, `storage, `room
      ensures Packed() && n == nVars && fresh(sizes) && fresh(big) && fresh(storage)
      ensures forall l :: Adjacent(l) == EdgesFrom(ca, list, l)
    {
      hide EdgesFrom, BinaryOk, Counts, Sum, RoomFor, Filled, PartAt, Adjacent, Packed;
      n := nVars;
      sizes := new nat[2 * nVars](_ => 0);
      OnePart(list);
      NothingCounted(ca, list);
      var sum := CountEdges(ca, list, 0, list, 0);
      Allocate(ca, sum, list);
      FillEdges(ca, list, list, 0);
      AllFilled(ca, list);
    }

    // create for two lists, the clauses and the learnt clauses.
    method CreateFromBoth(ca: seq<Cls>, nVars: nat, list1: seq<CRef>, list2: seq<CRef>)
      requires BinariesOk(ca, list1 + list2, nVars)
      modifies `n, `sizes, `big, `storage, `room
      ensures Packed() && n == nVars && fresh(sizes) && fresh(big) && fresh(storage)
      ensures forall l :: Adjacent(l) == EdgesFrom(ca, list1 + list2, l)
    {
      CreateParts(ca, nVars, list1, list2, list1 + list2);
    }

    method CreateParts(ca: seq<Cls>, nVars: nat, list1: seq<CRef>, list2: seq<CRef>, ghost list: seq<CRef>)
      requires BinariesOk(ca, list, nVars) && list == list1 + list2
      modifies `n, `sizes, `big, `storage, `room
      ensures Packed() && n == nVars && fresh(sizes) && fresh(big) && fresh(storage)
      ensures forall l :: Adjacent(l) == EdgesFrom(ca, list, l)
    {
      hide EdgesFrom, BinaryOk, Counts, Sum, RoomFor, Filled, PartAt, Adjacent, Packed;
      n := nVars;
      sizes := new nat[2 * nVars](_ => 0);
      TwoParts(list, list1, list2);
      NothingCounted(ca, list);
      var sum := CountEdges(ca, list1, 0, list, 0);
      sum := CountEdges(ca, list2, sum, list, |list1|);
      Allocate(ca, sum, list);
      FillEdges(ca, list1, list, 0);
      FillEdges(ca, list2, list, |list1|);
      AllFilled(ca, list);
    }

    method Allocate(ca: seq<Cls>, sum: nat, ghost list: seq<CRef>)
      requires sizes.Length == 2 * n && ListInRange(ca, list) && Counts(ca, list, |list|) && sum == Sum(sizes[..])
      modifies sizes, `big, `storage, `room
      ensures Packed() && RoomFor(ca, list) && Filled(ca, list, 0) && sizes == old(sizes) && fresh(big) && fresh(storage)
    {
      hide Counts, Sum, RoomFor, Filled, Packed;
      storage := new Lit[sum];
      big := new nat[2 * n];
      LayOut(sum, ca, list);
      NothingFilled(ca, list);
    }

    lemma AllFilled(ca: seq<Cls>, list: seq<CRef>)
      requires BinariesOk(ca, list, n) && Packed() && Filled(ca, list, |list|)
      ensures forall l :: Adjacent(l) == EdgesFrom(ca, list, l)
    {
      assert list[..|list|] == list;
      forall l: Lit | l.v >= n ensures EdgesFrom(ca, list, l) == [] {
        NoEdgesBeyond(ca, list, n, l);
      }
    }

    // ---------- the search ----------

    // shuffle: the edges of one literal are exchanged at random.
    method Shuffle(c: nat)
      requires Packed() && c < 2 * n
      modifies storage, `drawn
      ensures Packed() && forall d :: 0 <= d < 2 * n && d != c ==> Slice(d) == old(Slice(d))
      ensures Slice(c) == Mixed(rand, old(drawn), old(Slice(c)), LessOne(sizes[c])) && SameMembers(old(Slice(c)), Slice(c))
    {
      hide OnlyRegion, SameMembers, Mixed, Packed, Slices, Slice;
      RegionFacts(c, c);
      ghost var st, slices := storage[..], Slices(2 * n);
      SlicesOf();
      ShuffleCells(big[c], sizes[c]);
      SliceIs(c);
      RegionSlice(st, storage[..], big[c], big[c] + sizes[c]);
      OtherSlices(st, slices, c);
    }

    lemma SliceIs(c: nat)
      requires Packed() && c < 2 * n
      ensures big[c] + sizes[c] <= storage.Length && Slice(c) == storage[..][big[c]..big[c] + sizes[c]]
    {
    }

    lemma SlicesOf()
      requires Packed()
      ensures 2 * n == sizes.Length == big.Length
      ensures forall d :: 0 <= d < 2 * n ==>
        big[d] + sizes[d] <= storage.Length && Slices(2 * n)[d] == Slice(d) == storage[..][big[d]..big[d] + sizes[d]]
    {
    }

    // The other lists are the same when one region has changed.
    lemma OtherSlices(st: seq<Lit>, slices: seq<seq<Lit>>, c: nat)
      requires Packed() && c < 2 * n == |slices| && OnlyRegion(st, storage[..], big[c], big[c] + sizes[c])
      requires forall d :: 0 <= d < 2 * n ==> big[d] + sizes[d] <= |st| && slices[d] == st[big[d]..big[d] + sizes[d]]
      ensures forall d :: 0 <= d < 2 * n && d != c ==> Slice(d) == slices[d]
    {
      hide OnlyRegion;
      forall d | 0 <= d < 2 * n && d != c ensures Slice(d) == slices[d] {
        RegionFacts(c, d);
        BesideRegion(st, storage[..], big[c], big[c] + sizes[c], big[d], big[d] + sizes[d]);
      }
    }

    method ShuffleCells(adj: nat, size: nat)
      requires adj + size <= storage.Length
      modifies storage, `drawn
      ensures OnlyRegion(old(storage[..]), storage[..], adj, adj + size)
      ensures storage[..][adj..adj + size] == Mixed(rand, old(drawn), old(storage[..][adj..adj + size]), LessOne(size))
    {
      hide OnlyRegion, Draw, Swapped, Mixed;
      ghost var st := storage[..];
      SameRegion(st, adj, adj + size);
      MixedNone(rand, drawn, st[adj..adj + size]);
      var i := 0;
      while i + 1 < size
        invariant 0 <= i <= LessOne(size) && OnlyRegion(st, storage[..], adj, adj + size) && drawn == old(drawn) + i
        invariant storage[..][adj..adj + size] == Mixed(rand, old(drawn), st[adj..adj + size], i)
      {
        var rnd := Draw(rand(drawn), size);
        drawn := drawn + 1;
        SwapInRegion(st, storage[..], adj, adj + size, adj + i, adj + rnd);
        SwappedSlice(storage[..], adj, adj + size, adj + i, adj + rnd);
        MixedNext(rand, old(drawn), st[adj..adj + size], i);
        SwapCells(storage, adj + i, adj + rnd);
        i := i + 1;
      }
    }

    // The lists hold the edges E, in any order.
    ghost predicate ListsAre(E: Edges)
      reads `n, `sizes, `big, `storage, `room, sizes, big, storage
    {
      && Packed() && (forall a: Lit, b: Lit :: (a, b) in E <==> a.v < n && b in Slice(Code(a)))
      && (forall a: Lit, b: Lit :: (a, b) in E ==> b.v < n)
    }

    method ShuffleKeeps(l: Lit, ghost E: Edges)
      requires ListsAre(E) && l.v < n
      modifies storage, `drawn
      ensures ListsAre(E) && forall d :: 0 <= d < 2 * n && d != Code(l) ==> Slice(d) == old(Slice(d))
      ensures Slice(Code(l)) == Mixed(rand, old(drawn), old(Slice(Code(l))), LessOne(sizes[Code(l)]))
    {
      hide Mixed;
      Shuffle(Code(l));
      hide Slice, Packed;
      forall a: Lit, b: Lit ensures (a, b) in E <==> a.v < n && b in Slice(Code(a)) {
        assert a.v < n ==> SameMembers(old(Slice(Code(a))), Slice(Code(a)));
      }
    }

    // ---------- duplicate edges ----------

    // Sorts cells by repeatedly selecting the least literal that is left.
    method SortCells(adj: nat, size: nat)
      requires adj + size <= storage.Length
      modifies storage
      ensures OnlyRegion(old(storage[..]), storage[..], adj, adj + size) && Ascending(storage[..], adj, adj + size)
    {
      hide OnlyRegion, Swapped, Ascending, Least;
      ghost var st := storage[..];
      SameRegion(st, adj, adj + size);
      StartLeast(st, adj, adj + size);
      var i := 0;
      while i + 1 < size
        invariant 0 <= i <= size && OnlyRegion(st, storage[..], adj, adj + size)
        invariant Ascending(storage[..], adj, adj + i) && Least(storage[..], adj, adj + i, adj + size)
      {
        var best := FindLeast(adj + i, adj + size);
        SwapInRegion(st, storage[..], adj, adj + size, adj + i, best);
        NextLeast(storage[..], adj, adj + i, adj + size, best);
        SwapCells(storage, adj + i, best);
        i := i + 1;
      }
      LastLeast(storage[..], adj, adj + i, adj + size);
    }

    method FindLeast(from: nat, to: nat) returns (best: nat)
      requires from < to <= storage.Length
      ensures from <= best < to && forall k :: from <= k < to ==> Code(storage[best]) <= Code(storage[k])
    {
      hide Code;
      best := from;
      var j := from + 1;
      while j < to
        invariant from < j <= to && from <= best < j
        invariant forall k :: from <= k < j ==> Code(storage[best]) <= Code(storage[k])
      {
        if Code(storage[j]) < Code(storage[best]) { best := j; }
        j := j + 1;
      }
    }

    // Keeps one of several equal neighbours; returns how many cells are kept.
    method CompactCells(adj: nat, size: nat) returns (kept: nat)
      requires 0 < size && adj + size <= storage.Length && Ascending(storage[..], adj, adj + size)
      modifies storage
      ensures 0 < kept <= size && Compacted(old(storage[..]), storage[..], adj, size, kept, size)
    {
      hide Compacted, Ascending;
      ghost var st := storage[..];
      var j := 0;
      StartCompact(st, adj, size);
      var i := 1;
      while i < size
        invariant 1 <= i <= size && 0 <= j < i && Compacted(st, storage[..], adj, i, j + 1, size)
      {
        CompactStep(st, storage[..], adj, i, j, size);
        if storage[adj + i] != storage[adj + j] {
          j := j + 1;
          storage[adj + j] := storage[adj + i];
        }
        i := i + 1;
      }
      kept := j + 1;
    }

    // Sorts and compacts cells.
    method SortAndCompact(b: nat, size: nat) returns (kept: nat)
      requires 0 < size && b + size <= storage.Length
      modifies storage
      ensures kept <= size && Strict(storage[..][b..b + kept])
      ensures SameMembers(old(storage[..][b..b + size]), storage[..][b..b + kept])
      ensures SameOutside(old(storage[..]), storage[..], b, b + size)
    {
      hide OnlyRegion, Ascending, Compacted, SameMembers, Strict, SameOutside;
      ghost var st0 := storage[..];
      SortCells(b, size);
      ghost var st1 := storage[..];
      kept := CompactCells(b, size);
      UniqueRegion(st0, st1, storage[..], b, size, kept);
    }

    method UniqueCells(c: nat) returns (kept: nat)
      requires Packed() && c < 2 * n && sizes[c] > 0
      modifies storage
      ensures Packed() && kept <= sizes[c]
      ensures Strict(storage[..][big[c]..big[c] + kept])
      ensures SameMembers(old(Slice(c)), storage[..][big[c]..big[c] + kept])
      ensures forall d :: 0 <= d < 2 * n && d != c ==> Slice(d) == old(Slice(d))
    {
      hide SameMembers, Strict, SameOutside;
      RegionFacts(c, c);
      ghost var st0 := storage[..];
      kept := SortAndCompact(big[c], sizes[c]);
      forall d | 0 <= d < 2 * n && d != c ensures Slice(d) == old(Slice(d)) {
        RegionFacts(c, d);
        OtherRegion(st0, storage[..], big[c], big[c] + sizes[c], big[d], big[d] + sizes[d]);
      }
    }

    method ShrinkList(c: nat, kept: nat)
      requires Packed() && c < 2 * n && kept <= sizes[c]
      modifies sizes
      ensures Packed() && Slice(c) == old(storage[..][big[c]..big[c] + kept])
      ensures forall d :: 0 <= d < 2 * n && d != c ==> Slice(d) == old(Slice(d))
    {
      sizes[c] := kept;
    }

    // The edges of one literal: sorted, each once.
    method UniqueEdges(c: nat)
      requires Packed() && c < 2 * n
      modifies storage, sizes
      ensures Packed() && Strict(Slice(c))
      ensures forall d :: 0 <= d < 2 * n ==> SameMembers(old(Slice(d)), Slice(d))
      ensures forall d :: 0 <= d < 2 * n && d != c ==> Slice(d) == old(Slice(d))
    {
      RegionFacts(c, c);
      hide SameMembers;
      if sizes[c] > 0 {
        var kept := UniqueCells(c);
        ShrinkList(c, kept);
      }
      forall d | 0 <= d < 2 * n ensures SameMembers(old(Slice(d)), Slice(d)) {
        SameMembersRefl(Slice(d));
      }
    }

    // removeDuplicateEdges: the edges stay, each is stored once.
    method RemoveDuplicateEdges(nVars: nat, ghost E: Edges)
      requires ListsAre(E)
      modifies storage, sizes
      ensures ListsAre(E)
      ensures forall l: Lit :: l.v < n && l.v < nVars ==> Strict(Slice(Code(l)))
    {
      hide Packed, Slice, Strict;
      var maxVar := if n < nVars then n else nVars;
      var c := 0;
      while c < 2 * maxVar
        invariant 0 <= c <= 2 * maxVar && ListsAre(E) && forall d :: 0 <= d < c ==> Strict(Slice(d))
      {
        UniqueKeeps(c, E);
        c := c + 1;
      }
    }

    method UniqueKeeps(c: nat, ghost E: Edges)
      requires ListsAre(E) && c < 2 * n
      modifies storage, sizes
      ensures ListsAre(E) && Strict(Slice(c))
      ensures forall d :: 0 <= d < 2 * n && d != c ==> Slice(d) == old(Slice(d))
    {
      UniqueEdges(c);
      hide Slice, Packed, Strict;
      forall a: Lit, b: Lit ensures (a, b) in E <==> a.v < n && b in Slice(Code(a)) {
        assert a.v < n ==> SameMembers(old(Slice(Code(a))), Slice(Code(a)));
      }
    }

    // The search keeps its positions in a buffer of its own.
    ghost predicate Apart(index: array<nat>)
      reads `sizes, `big, `storage
    {
      && (index as object) != this && index != sizes && index != big && (index as object) != storage
    }

    // The search has come to this stack; index says how many edges of each literal on it
    // have been followed.
    ghost predicate Stamping(E: Edges, stamp: nat, stack: seq<Lit>, index: seq<nat>)
      reads this, sizes, big, storage
    {
      && ListsAre(E) && |index| == 2 * n && Searching(E, n, Stamps(start, stop, stamp), stack)
      && Tree(E, Stamps(start, stop, stamp), starts)
      && (forall l :: l in stack ==> l.v < n && index[Code(l)] <= sizes[Code(l)])
    }

    // Every edge that has been followed leads to a literal with a stamp, or to the next one.
    ghost predicate Followed(stack: seq<Lit>, index: seq<nat>, next: seq<Lit>)
      reads `n, `start, `sizes, `big, `storage, `room, sizes, big, storage
    {
      Packed() && FollowedIn(n, Slices(2 * n), start, stack, index, next)
    }

    // A literal gets its start stamp and is put on the stack.
    method Push(l: Lit, stamp: nat, stack: seq<Lit>, index: array<nat>, ghost E: Edges) returns (stamp': nat)
      requires Stamping(E, stamp, stack, index[..]) && l.v < n && Apart(index)
      requires Started(Stamps(start, stop, stamp), l) == 0
      requires stack == [] || (stack[|stack| - 1], l) in E
      modifies storage, index, `drawn, `start, `starts
      ensures Stamping(E, stamp', stack + [l], index[..])
      ensures start == old(start)[Code(l) := stamp'] && stamp' == stamp + 1
      ensures starts == old(starts) + if stack == [] then {l} else {}
      ensures index[..] == old(index[..])[Code(l) := 0]
      ensures Packed() && old(Packed()) && |Slices(2 * n)| == 2 * n
      ensures Slices(2 * n) == old(Slices(2 * n))[Code(l) := Mixed(rand, old(drawn), old(Slice(Code(l))), LessOne(|old(Slice(Code(l)))|))]
    {
      hide ListsAre, Searching, Stamping, Tree, Mixed, Slice, OnStack, Packed, Slices;
      PushFacts(l, stamp, stack, index[..], E);
      ghost var was := index[..];
      stamp' := stamp + 1;
      start := start[Code(l) := stamp'];
      starts := starts + if stack == [] then {l} else {};
      index[Code(l)] := 0;
      assert index[..] == was[Code(l) := 0];
      ShuffleList(l, E);
      StampingParts(E, stamp', stack + [l], index[..]);
    }

    method ShuffleList(l: Lit, ghost E: Edges)
      requires ListsAre(E) && l.v < n
      modifies storage, `drawn
      ensures ListsAre(E) && Packed() && old(Packed()) && |Slices(2 * n)| == 2 * n
      ensures Slices(2 * n) == old(Slices(2 * n))[Code(l) := Mixed(rand, old(drawn), old(Slice(Code(l))), LessOne(|old(Slice(Code(l)))|))]
    {
      hide ListsAre, Mixed, Slice, Packed;
      ListsPacked(E);
      ghost var slices := Slices(2 * n);
      ShuffleKeeps(l, E);
      ListsPacked(E);
      assert Slices(2 * n) == slices[Code(l) := Slice(Code(l))];
    }

    lemma ListsPacked(E: Edges)
      requires ListsAre(E)
      ensures Packed() && sizes.Length == 2 * n && forall c :: 0 <= c < 2 * n ==> |Slice(c)| == sizes[c]
    {
    }

    lemma PushFacts(l: Lit, stamp: nat, stack: seq<Lit>, index: seq<nat>, E: Edges)
      requires Stamping(E, stamp, stack, index) && l.v < n
      requires Started(Stamps(start, stop, stamp), l) == 0
      requires stack == [] || (stack[|stack| - 1], l) in E
      ensures ListsAre(E) && Code(l) < |start| && |index| == 2 * n
      ensures Searching(E, n, Stamps(start[Code(l) := stamp + 1], stop, stamp + 1), stack + [l])
      ensures Tree(E, Stamps(start[Code(l) := stamp + 1], stop, stamp + 1), starts + if stack == [] then {l} else {})
      ensures OnStack(stack + [l], index[Code(l) := 0], sizes[..], n)
    {
      hide Searching, Tree, OnStack, ListsAre;
      InShape(E, stamp, stack, index);
      StackBounds(E, stamp, stack, index);
      StartKeeps(E, n, Stamps(start, stop, stamp), stack, l);
      StartTree(E, n, Stamps(start, stop, stamp), stack, starts, l);
      assert starts + {} == starts;
      IndexStart(stack, l, index, sizes[..], n);
    }

    lemma Lengths(E: Edges, stamp: nat, stack: seq<Lit>, index: seq<nat>)
      requires Stamping(E, stamp, stack, index)
      ensures |index| == sizes.Length == 2 * n
    {
      hide Searching, Tree;
      ListsPacked(E);
    }

    lemma StackBounds(E: Edges, stamp: nat, stack: seq<Lit>, index: seq<nat>)
      requires Stamping(E, stamp, stack, index)
      ensures OnStack(stack, index, sizes[..], n)
    {
      hide Searching, Tree;
      ListsPacked(E);
    }

    lemma StampingParts(E: Edges, stamp: nat, stack: seq<Lit>, index: seq<nat>)
      requires ListsAre(E) && |index| == 2 * n && Searching(E, n, Stamps(start, stop, stamp), stack)
      requires Tree(E, Stamps(start, stop, stamp), starts)
      requires OnStack(stack, index, sizes[..], n)
      ensures Stamping(E, stamp, stack, index)
    {
      hide Searching;
    }

    // The next edge of the top of the stack; its target is pushed if it is new.
    method FollowEdge(stamp: nat, stack: seq<Lit>, index: array<nat>, ghost E: Edges)
      returns (stamp': nat, stack': seq<Lit>)
      requires Stamping(E, stamp, stack, index[..]) && Apart(index) && stack != []
      requires stack[|stack| - 1].v < n && index[Code(stack[|stack| - 1])] < sizes[Code(stack[|stack| - 1])]
      requires Followed(stack, index[..], [])
      modifies storage, index, `drawn, `start, `starts
      ensures Stamping(E, stamp', stack', index[..]) && Later(old(start), start)
      ensures Followed(stack', index[..], []) && starts == old(starts)
      ensures Zeros(start) <= old(Zeros(start))
      ensures Zeros(start) == old(Zeros(start)) ==>
        stack' == stack && Remaining(stack, index[..], sizes[..]) < old(Remaining(stack, index[..], sizes[..]))
    {
      hide Stamping, Remaining, Later, FollowedIn, Mixed, Searching, Tree, ListsAre, Packed, Slice;
      Lengths(E, stamp, stack, index[..]);
      ghost var c := Code(stack[|stack| - 1]);
      assert index[..][c] == index[c] && sizes[..][c] == sizes[c];
      var impliedLit := NextEdge(stamp, stack, index, index[..], sizes[..], E);
      InShape(E, stamp, stack, index[..]);
      LaterRefl(start);
      if start[Code(impliedLit)] != 0 {
        stamp', stack' := stamp, stack;
        AlreadyStamped(n, Slices(2 * n), start, stack, index[..], impliedLit);
      } else {
        ZerosSet(start, Code(impliedLit), stamp + 1);
        LaterSet(start, Code(impliedLit), stamp + 1);
        NotOnStack(E, stamp, stack, index[..], impliedLit);
        ghost var slices, start0, ind := Slices(2 * n), start, index[..];
        stamp' := Push(impliedLit, stamp, stack, index, E);
        stack' := stack + [impliedLit];
        PushFollowed(n, slices, start0, stack, ind, impliedLit, stamp', Slices(2 * n)[Code(impliedLit)]);
      }
    }

    lemma NotOnStack(E: Edges, stamp: nat, stack: seq<Lit>, index: seq<nat>, l: Lit)
      requires Stamping(E, stamp, stack, index) && l.v < n && Started(Stamps(start, stop, stamp), l) == 0
      ensures l !in stack
    {
    }

    // Takes the next edge of the top of the stack.
    method NextEdge(stamp: nat, stack: seq<Lit>, index: array<nat>, ghost ind0: seq<nat>, ghost size: seq<nat>, ghost E: Edges)
      returns (impliedLit: Lit)
      requires Stamping(E, stamp, stack, ind0) && Apart(index) && stack != [] && Followed(stack, ind0, [])
      requires index[..] == ind0 && sizes[..] == size
      requires stack[|stack| - 1].v < n && ind0[Code(stack[|stack| - 1])] < size[Code(stack[|stack| - 1])]
      modifies index
      ensures Stamping(E, stamp, stack, index[..]) && Followed(stack, index[..], [impliedLit])
      ensures (stack[|stack| - 1], impliedLit) in E && impliedLit.v < n
      ensures Remaining(stack, index[..], size) < Remaining(stack, ind0, size)
    {
      hide Stamping, ListsAre, Searching, Remaining, Slice, Code, Packed, FollowedIn;
      AdvancedStamping(E, stamp, stack, ind0, size);
      TopEdge(E, stamp, stack, ind0, size);
      var c := Code(stack[|stack| - 1]);
      impliedLit := storage[big[c] + index[c]];
      OneFollowed(n, Slices(2 * n), start, stack, ind0, c, impliedLit);
      Bump(index, c);
    }

    lemma TopEdge(E: Edges, stamp: nat, stack: seq<Lit>, index: seq<nat>, size: seq<nat>)
      requires Stamping(E, stamp, stack, index) && stack != [] && stack[|stack| - 1].v < n
      requires sizes[..] == size && index[Code(stack[|stack| - 1])] < size[Code(stack[|stack| - 1])]
      ensures var top := stack[|stack| - 1]; var c := Code(top);
        && |index| == sizes.Length == big.Length && c < |index| && big[c] + index[c] < storage.Length
        && (top, storage[big[c] + index[c]]) in E && storage[big[c] + index[c]].v < n
        && Packed() && c < 2 * n && index[c] < |Slices(2 * n)[c]| && Slices(2 * n)[c][index[c]] == storage[big[c] + index[c]]
        && (forall l :: l in stack && Code(l) == c ==> l == top)
    {
      hide Searching;
      CodesOnStack(stack);
      EdgeAt(Code(stack[|stack| - 1]), index[Code(stack[|stack| - 1])], E);
    }

    lemma AdvancedStamping(E: Edges, stamp: nat, stack: seq<Lit>, index: seq<nat>, size: seq<nat>)
      requires Stamping(E, stamp, stack, index) && stack != [] && stack[|stack| - 1].v < n
      requires sizes[..] == size && index[Code(stack[|stack| - 1])] < size[Code(stack[|stack| - 1])]
      ensures var c := Code(stack[|stack| - 1]);
        Stamping(E, stamp, stack, index[c := index[c] + 1])
        && Remaining(stack, index[c := index[c] + 1], size) < Remaining(stack, index, size)
    {
      DistinctStack(E, stamp, stack, index);
      hide Searching, Remaining, Slice;
      var c := Code(stack[|stack| - 1]);
      Advanced(stack, index, index[c := index[c] + 1], size, n);
    }

    lemma DistinctStack(E: Edges, stamp: nat, stack: seq<Lit>, index: seq<nat>)
      requires Stamping(E, stamp, stack, index)
      ensures forall i, j :: 0 <= i < j < |stack| ==> stack[i] != stack[j]
    {
    }

    lemma EdgeAt(c: nat, k: nat, E: Edges)
      requires ListsAre(E) && c < 2 * n && k < sizes[c]
      ensures big[c] + k < storage.Length && storage[big[c] + k] == Slice(c)[k]
      ensures forall a: Lit :: a.v < n && Code(a) == c ==> (a, Slice(c)[k]) in E && Slice(c)[k].v < n
    {
      RegionFacts(c, c);
      assert Slice(c)[k] in Slice(c);
    }

    lemma CodesOnStack(stack: seq<Lit>)
      ensures forall l, k :: l in stack && k in stack && Code(l) == Code(k) ==> l == k
    {
    }

    lemma AllFollowed(E: Edges, stamp: nat, stack: seq<Lit>, index: seq<nat>)
      requires Stamping(E, stamp, stack, index) && stack != [] && Followed(stack, index, [])
      requires stack[|stack| - 1].v < n && index[Code(stack[|stack| - 1])] == sizes[Code(stack[|stack| - 1])]
      ensures forall b :: (stack[|stack| - 1], b) in E ==> Started(Stamps(start, stop, stamp), b) != 0
    {
      hide Searching, Tree;
      var top := stack[|stack| - 1];
      assert top in stack;
      ListsPacked(E);
      forall b | (top, b) in E ensures Started(Stamps(start, stop, stamp), b) != 0 {
        var k :| 0 <= k < |Slice(Code(top))| && Slice(Code(top))[k] == b;
        assert Slices(2 * n)[Code(top)][k] == b;
      }
    }

    // The top of the stack has no edge left.
    method Pop(stamp: nat, stack: seq<Lit>, ghost index: seq<nat>, ghost E: Edges) returns (stamp': nat, stack': seq<Lit>)
      requires Stamping(E, stamp, stack, index) && stack != [] && Followed(stack, index, [])
      requires stack[|stack| - 1].v < n && index[Code(stack[|stack| - 1])] == sizes[Code(stack[|stack| - 1])]
      modifies `stop
      ensures Stamping(E, stamp', stack', index) && stack' == stack[..|stack| - 1]
      ensures Followed(stack', index, [])
      ensures stop == old(stop)[Code(stack[|stack| - 1]) := stamp'] && stamp' == stamp + 1
    {
      hide ListsAre, OpenReaches, ClosedReaches, ShapeOk, EdgesDone, FollowedIn, Tree;
      var current := stack[|stack| - 1];
      assert current in stack;
      InShape(E, stamp, stack, index);
      AllFollowed(E, stamp, stack, index);
      FewerFollowed(n, Slices(2 * n), start, stack, index);
      StopKeeps(E, n, Stamps(start, stop, stamp), stack);
      StopTree(E, n, Stamps(start, stop, stamp), stack, starts);
      stamp' := stamp + 1;
      stop := stop[Code(current) := stamp'];
      stack' := stack[..|stack| - 1];
    }

    // stampLiteral: depth first search from the literal, unless it has a stamp.
    method StampLiteral(literal: Lit, stamp: nat, index: array<nat>, ghost E: Edges) returns (stamp': nat)
      requires Stamping(E, stamp, [], index[..]) && literal.v < n && Apart(index)
      modifies storage, index, `drawn, `start, `stop, `starts
      ensures Stamping(E, stamp', [], index[..])
      ensures starts == old(starts) + if Code(literal) < |old(start)| && old(start)[Code(literal)] == 0 then {literal} else {}
      ensures Later(old(start), start) && Code(literal) < |start| && start[Code(literal)] != 0
    {
      hide Searching, Tree, ListsAre, FollowedIn, Mixed, Packed, Slices, Later;
      LaterRefl(start);
      InShape(E, stamp, [], index[..]);
      if start[Code(literal)] != 0 { return stamp; }
      LaterSet(start, Code(literal), stamp + 1);
      ghost var start0 := start;
      stamp' := Push(literal, stamp, [], index, E);
      ghost var pushed := start;
      assert [] + [literal] == [literal];
      NoneFollowed(literal, stamp', index[..], E);
      stamp' := Search([literal], stamp', index, E);
      LaterTrans(start0, pushed, start);
      StillStamped(pushed, start, Code(literal));
    }

    lemma NoneFollowed(l: Lit, stamp: nat, index: seq<nat>, E: Edges)
      requires Stamping(E, stamp, [l], index) && index[Code(l)] == 0
      ensures Followed([l], index, [])
    {
      InShape(E, stamp, [l], index);
      ListsPacked(E);
    }

    // Searches until the stack is empty.
    method Search(stack0: seq<Lit>, stamp: nat, index: array<nat>, ghost E: Edges) returns (stamp': nat)
      requires Stamping(E, stamp, stack0, index[..]) && Apart(index) && Followed(stack0, index[..], [])
      modifies storage, index, `drawn, `start, `stop, `starts
      ensures Stamping(E, stamp', [], index[..]) && Later(old(start), start) && starts == old(starts)
    {
      ghost var start0 := start;
      LaterRefl(start);
      hide *;
      var stack := stack0;
      stamp' := stamp;
      while stack != []
        invariant Stamping(E, stamp', stack, index[..]) && Later(start0, start) && Followed(stack, index[..], [])
        invariant starts == old(starts)
        decreases Zeros(start), Remaining(stack, index[..], sizes[..]), |stack|
      {
        ghost var mid := start;
        stamp', stack := StampStep(stamp', stack, index, E);
        LaterTrans(start0, mid, start);
      }
    }

    // Leaves the top of the stack, or follows its next edge.
    method StampStep(stamp: nat, stack: seq<Lit>, index: array<nat>, ghost E: Edges) returns (stamp': nat, stack': seq<Lit>)
      requires Stamping(E, stamp, stack, index[..]) && Apart(index) && stack != [] && Followed(stack, index[..], [])
      modifies storage, index, `drawn, `start, `stop, `starts
      ensures Stamping(E, stamp', stack', index[..]) && Later(old(start), start) && Zeros(start) <= old(Zeros(start))
      ensures Followed(stack', index[..], []) && starts == old(starts)
      ensures Zeros(start) == old(Zeros(start)) ==>
        Remaining(stack', index[..], sizes[..]) <= old(Remaining(stack, index[..], sizes[..]))
      ensures Zeros(start) == old(Zeros(start)) && |stack'| >= |stack| ==>
        Remaining(stack', index[..], sizes[..]) < old(Remaining(stack, index[..], sizes[..]))
    {
      InShape(E, stamp, stack, index[..]);
      LaterRefl(start);
      var current := stack[|stack| - 1];
      TopInRange(E, stamp, stack, index[..]);
      hide Stamping, Later, Zeros, Remaining, FollowedIn;
      if index[Code(current)] == sizes[Code(current)] {
        stamp', stack' := Pop(stamp, stack, index[..], E);
      } else {
        stamp', stack' := FollowEdge(stamp, stack, index, E);
      }
    }

    lemma StillStamped(was: seq<nat>, now: seq<nat>, c: nat)
      requires Later(was, now) && c < |was| && was[c] != 0
      ensures c < |now| && now[c] != 0
    {
    }

    lemma InShape(E: Edges, stamp: nat, stack: seq<Lit>, index: seq<nat>)
      requires Stamping(E, stamp, stack, index)
      ensures |start| == |stop| == 2 * n
    {
    }

    lemma TopInRange(E: Edges, stamp: nat, stack: seq<Lit>, index: seq<nat>)
      requires Stamping(E, stamp, stack, index) && stack != []
      ensures var l := stack[|stack| - 1]; l.v < n && index[Code(l)] <= sizes[Code(l)]
      ensures var l := stack[|stack| - 1]; index[Code(l)] == sizes[Code(l)] ==>
                Remaining(stack, index, sizes[..]) == Remaining(stack[..|stack| - 1], index, sizes[..])
    {
      assert stack[|stack| - 1] in stack;
    }

    // ---------- generateImplied and implies ----------

    // The literals are exchanged at random.
    method ShuffleLits(lits: seq<Lit>) returns (r: seq<Lit>)
      modifies `drawn
      ensures r == Mixed(rand, old(drawn), lits, |lits|) && drawn == old(drawn) + |lits|
    {
      hide Swapped, Draw, Mixed;
      r := lits;
      MixedNone(rand, drawn, lits);
      var i := 0;
      while i < |lits|
        invariant 0 <= i <= |lits| == |r| && r == Mixed(rand, old(drawn), lits, i) && drawn == old(drawn) + i
      {
        var rnd := Draw(rand(drawn), |lits|);
        drawn := drawn + 1;
        MixedNext(rand, old(drawn), lits, i);
        r := Swapped(r, i, rnd);
        i := i + 1;
      }
    }

    // A literal is a root if its complement does not imply a literal.
    method Roots() returns (lits: seq<Lit>)
      requires Packed()
      ensures forall l :: l in lits <==> l.v < n && |Slice(Code(Neg(l)))| == 0
    {
      lits := [];
      var v := 0;
      while v < n
        invariant 0 <= v <= n && forall l :: l in lits <==> l.v < v && |Slice(Code(Neg(l)))| == 0
      {
        var pos := Lit(v, false);
        NextRoots(lits, v);
        if sizes[Code(pos)] == 0 { lits := lits + [Neg(pos)]; }
        if sizes[Code(Neg(pos))] == 0 { lits := lits + [pos]; }
        v := v + 1;
      }
    }

    lemma NextRoots(lits: seq<Lit>, v: nat)
      requires Packed() && v < n && forall l :: l in lits <==> l.v < v && |Slice(Code(Neg(l)))| == 0
      ensures var pos := Lit(v, false);
        forall l :: (l in lits || (l == Neg(pos) && sizes[Code(pos)] == 0) || (l == pos && sizes[Code(Neg(pos))] == 0))
          <==> l.v < v + 1 && |Slice(Code(Neg(l)))| == 0
    {
      var pos := Lit(v, false);
      forall l: Lit | l.v == v ensures l == pos || l == Neg(pos) {}
    }

    // The literals that have no stamp yet.
    method Unstamped() returns (lits: seq<Lit>)
      requires |start| == 2 * n
      ensures forall l :: l in lits <==> l.v < n && start[Code(l)] == 0
    {
      lits := [];
      var v := 0;
      while v < n
        invariant 0 <= v <= n && forall l :: l in lits <==> l.v < v && start[Code(l)] == 0
      {
        var pos := Lit(v, false);
        forall l: Lit | l.v == v ensures l == pos || l == Neg(pos) {}
        if start[Code(pos)] == 0 { lits := lits + [pos]; }
        if start[Code(Neg(pos))] == 0 { lits := lits + [Neg(pos)]; }
        v := v + 1;
      }
    }

    method StampAll(lits: seq<Lit>, stamp: nat, index: array<nat>, ghost E: Edges) returns (stamp': nat)
      requires Stamping(E, stamp, [], index[..]) && Apart(index) && forall l :: l in lits ==> l.v < n
      modifies storage, index, `drawn, `start, `stop, `starts
      ensures Stamping(E, stamp', [], index[..]) && Later(old(start), start)
      ensures forall l :: l in lits ==> Code(l) < |start| && start[Code(l)] != 0
      ensures forall l :: l in starts ==> l in old(starts) || (l in lits && !HasStamp(old(start), l))
    {
      hide Stamping;
      stamp' := stamp;
      LaterRefl(start);
      ghost var start0 := start;
      var i := 0;
      while i < |lits|
        invariant 0 <= i <= |lits| && Stamping(E, stamp', [], index[..]) && Later(start0, start)
        invariant forall k :: 0 <= k < i ==> Code(lits[k]) < |start| && start[Code(lits[k])] != 0
        invariant forall l :: l in starts ==> l in old(starts) || (l in lits && !HasStamp(start0, l))
      {
        ghost var mid := start;
        StillWithout(start0, mid, lits[i]);
        stamp' := StampLiteral(lits[i], stamp', index, E);
        LaterTrans(start0, mid, start);
        i := i + 1;
      }
    }

    // The stamps are those of a finished search of all literals.
    ghost predicate Stamped(E: Edges)
      reads `n, `start, `stop, `starts
    {
      && (exists stamp :: Searching(E, n, Stamps(start, stop, stamp), []) && Tree(E, Stamps(start, stop, stamp), starts))
      && StartsOk(E, n, starts) && forall l: Lit :: l.v < n ==> HasStamp(start, l)
    }

    // generateImplied: roots first, then everything that has no stamp, both in random
    // order.
    method GenerateImplied(nVars: nat, ghost E: Edges)
      requires ListsAre(E) && n <= nVars && (n == 0 ==> start == stop == [])
      modifies storage, `drawn, `start, `stop, `starts
      ensures ListsAre(E) && Stamped(E)
    {
      hide ListsAre, Searching, Tree;
      var maxVar := if n < nVars then n else nVars;
      starts := {};
      if maxVar == 0 {
        NothingStamped(E, n, 1);
        assert start == seq(2 * n, _ => 0) && stop == seq(2 * n, _ => 0);
        assert Searching(E, n, Stamps(start, stop, 1), []) && Tree(E, Stamps(start, stop, 1), starts);
        return;
      }
      start := seq(2 * maxVar, _ => 0);
      stop := seq(2 * maxVar, _ => 0);
      var index := new nat[2 * maxVar](_ => 0);
      NothingStamped(E, n, 1);
      assert Stamping(E, 1, [], index[..]);
      var stamp := StampRoots(index, E);
      var lits := StampRest(stamp, index, E);
    }

    method StampRoots(index: array<nat>, ghost E: Edges) returns (stamp: nat)
      requires Stamping(E, 1, [], index[..]) && Apart(index) && starts == {}
      modifies storage, index, `drawn, `start, `stop, `starts
      ensures Stamping(E, stamp, [], index[..])
      ensures (forall l :: l in starts ==> Root(E, l)) && forall l: Lit :: l.v < n && Root(E, l) ==> HasStamp(start, l)
    {
      hide Searching, Tree, Mixed;
      var lits := Roots();
      ghost var roots := lits;
      RootsAre(E, lits);
      lits := ShuffleLits(lits);
      SameLits(roots, lits);
      stamp := StampAll(lits, 1, index, E);
    }

    lemma RootsAre(E: Edges, lits: seq<Lit>)
      requires ListsAre(E) && forall l :: l in lits <==> l.v < n && |Slice(Code(Neg(l)))| == 0
      ensures forall l :: l in lits <==> l.v < n && Root(E, l)
    {
      forall l: Lit | l.v < n ensures |Slice(Code(Neg(l)))| == 0 <==> Root(E, l) {
        var s := Slice(Code(Neg(l)));
        if |s| > 0 {
          assert s[0] in s;
          assert (Neg(l), s[0]) in E;
        }
      }
    }

    method StampRest(stamp0: nat, index: array<nat>, ghost E: Edges) returns (lits: seq<Lit>)
      requires Stamping(E, stamp0, [], index[..]) && Apart(index)
      requires (forall l :: l in starts ==> Root(E, l)) && forall l: Lit :: l.v < n && Root(E, l) ==> HasStamp(start, l)
      modifies storage, index, `drawn, `start, `stop, `starts
      ensures ListsAre(E) && Stamped(E)
    {
      hide Searching, Tree, Mixed;
      InShape(E, stamp0, [], index[..]);
      RootsDone(E, stamp0, index[..]);
      lits := Unstamped();
      ghost var unstamped, start0 := lits, start;
      lits := ShuffleLits(lits);
      SameLits(unstamped, lits);
      var stamp := StampAll(lits, stamp0, index, E);
      InShape(E, stamp, [], index[..]);
      forall l: Lit | l.v < n ensures HasStamp(start, l) {
        assert l in unstamped || start0[Code(l)] != 0;
      }
    }

    // What the roots reach has a stamp.
    lemma RootsDone(E: Edges, stamp: nat, index: seq<nat>)
      requires Stamping(E, stamp, [], index) && forall l: Lit :: l.v < n && Root(E, l) ==> HasStamp(start, l)
      ensures forall l: Lit :: !HasStamp(start, l) ==> NoRootReaches(E, n, l)
    {
      var s := Stamps(start, stop, stamp);
      forall l: Lit, r: Lit | !HasStamp(start, l) && r.v < n && Root(E, r) ensures !Reach(E, r, l) {
        assert HasStamp(start, r);
        if p :| Path(E, p) && p[0] == r && p[|p| - 1] == l {
          PathStarted(E, n, s, p, |p| - 1);
        }
      }
    }

    // The intervals of two literals, or of their complements, are nested.
    ghost predicate Says(from: Lit, to: Lit)
      reads `n, `start, `stop
    {
      var s := Stamps(start, stop, 0);
      start != [] && from.v < n && to.v < n && (Inside(s, from, to) || Inside(s, Neg(to), Neg(from)))
    }

    // implies: compares the intervals of the two literals, and of their complements.
    // Before the first search there are no stamps, and the answer is no.
    method Implies(from: Lit, to: Lit, ghost E: Edges) returns (r: bool)
      requires (start == [] || Stamped(E)) && SkewSymmetric(E)
      ensures r <==> Says(from, to)
      ensures r ==> Reach(E, from, to) && from.v < n && to.v < n
    {
      hide Searching, Tree, Reach, SkewSymmetric;
      if start == [] || from.v >= n || to.v >= n { return false; }
      ghost var s := Finished(E);
      SaysInside(s, from, to);
      r := (start[Code(from)] < start[Code(to)] && stop[Code(from)] > stop[Code(to)])
        || (start[Code(Neg(to))] < start[Code(Neg(from))] && stop[Code(Neg(to))] > stop[Code(Neg(from))]);
      if r {
        ImpliesReaches(E, n, s, from, to);
      }
    }

    // The stamps of the finished search.
    lemma Finished(E: Edges) returns (s: Stamps)
      requires Stamped(E)
      ensures Searching(E, n, s, []) && Tree(E, s, starts) && StartsOk(E, n, starts) && s.start == start && s.stop == stop
      ensures |start| == |stop| == 2 * n && forall l: Lit :: l.v < n ==> Started(s, l) != 0
    {
      var stamp :| Searching(E, n, Stamps(start, stop, stamp), []) && Tree(E, Stamps(start, stop, stamp), starts);
      s := Stamps(start, stop, stamp);
      hide Tree, OpenReaches, ClosedReaches, EdgesDone, StackOk;
      forall l: Lit | l.v < n ensures Started(s, l) != 0 { assert HasStamp(start, l); }
    }

    lemma SaysInside(s: Stamps, a: Lit, b: Lit)
      requires s.start == start && s.stop == stop && |start| == |stop| == 2 * n
      ensures Says(a, b) <==> a.v < n && b.v < n && (Inside(s, a, b) || Inside(s, Neg(b), Neg(a)))
      ensures a.v < n ==> Code(a) < |start| && Started(s, a) == start[Code(a)] && Stopped(s, a) == stop[Code(a)]
      ensures a.v < n ==> Code(Neg(a)) < |start| && Started(s, Neg(a)) == start[Code(Neg(a))] && Stopped(s, Neg(a)) == stop[Code(Neg(a))]
      ensures b.v < n ==> Code(b) < |start| && Started(s, b) == start[Code(b)] && Stopped(s, b) == stop[Code(b)]
      ensures b.v < n ==> Code(Neg(b)) < |start| && Started(s, Neg(b)) == start[Code(Neg(b))] && Stopped(s, Neg(b)) == stop[Code(Neg(b))]
    {
    }

    // The directly implied literals as a list.
    method Children(l: Lit, ghost E: Edges) returns (r: seq<Lit>)
      requires ListsAre(E)
      ensures forall x :: x in r <==> (l, x) in E
    {
      if l.v >= n { return []; }
      RegionFacts(Code(l), Code(l));
      r := storage[..][big[Code(l)]..big[Code(l)] + sizes[Code(l)]];
      assert r == Slice(Code(l));
    }

    // isChild: is there an edge?
    method IsChild(parent: Lit, child: Lit, ghost E: Edges) returns (r: bool)
      requires ListsAre(E)
      ensures r <==> (parent, child) in E
    {
      if parent.v >= n { return false; }
      RegionFacts(Code(parent), Code(parent));
      var j := 0;
      while j < sizes[Code(parent)]
        invariant 0 <= j <= sizes[Code(parent)] && forall k :: 0 <= k < j ==> Slice(Code(parent))[k] != child
      {
        if storage[big[Code(parent)] + j] == child {
          assert Slice(Code(parent))[j] == child;
          return true;
        }
        j := j + 1;
      }
      r := false;
    }
  }

  ghost predicate HasStamp(start: seq<nat>, l: Lit) {
    Code(l) < |start| && start[Code(l)] != 0
  }

  lemma StillWithout(was: seq<nat>, now: seq<nat>, l: Lit)
    requires Later(was, now)
    ensures HasStamp(was, l) ==> HasStamp(now, l)
  {
  }

  // A literal is a root if its complement does not imply a literal.
  ghost predicate Root(E: Edges, l: Lit) {
    forall x :: (Neg(l), x) !in E
  }

  ghost predicate NoRootReaches(E: Edges, n: nat, l: Lit) {
    forall r: Lit :: r.v < n && Root(E, r) ==> !Reach(E, r, l)
  }

  // The search starts with roots, and then with what no root reaches.
  ghost predicate StartsOk(E: Edges, n: nat, starts: set<Lit>) {
    forall l :: l in starts ==> Root(E, l) || NoRootReaches(E, n, l)
  }

  lemma {:induction false} PathStarted(E: Edges, n: nat, s: Stamps, p: seq<Lit>, k: nat)
    requires Searching(E, n, s, []) && Path(E, p) && k < |p| && Started(s, p[0]) != 0
    ensures Started(s, p[k]) != 0
  {
    if k > 0 {
      PathStarted(E, n, s, p, k - 1);
      assert !IsOpen(s, p[k - 1]);
      assert (p[k - 1], p[k - 1 + 1]) in E;
    }
  }

  // Only the cells from b up to e have changed, and only their order.
  ghost predicate OnlyRegion(st0: seq<Lit>, st: seq<Lit>, b: nat, e: nat) {
    && |st| == |st0| && b <= e <= |st| && multiset(st[b..e]) == multiset(st0[b..e])
    && forall k :: 0 <= k < b || e <= k < |st| ==> st[k] == st0[k]
  }

  lemma SameRegion(st: seq<Lit>, b: nat, e: nat)
    requires b <= e <= |st|
    ensures OnlyRegion(st, st, b, e)
  {
  }

  method Bump(a: array<nat>, c: nat)
    requires c < a.Length
    modifies a
    ensures a[..] == old(a[..])[c := old(a[c]) + 1]
  {
    a[c] := a[c] + 1;
  }

  method SwapCells(a: array<Lit>, i: nat, k: nat)
    requires i < a.Length && k < a.Length
    modifies a
    ensures a[..] == Swapped(old(a[..]), i, k)
  {
    a[i], a[k] := a[k], a[i];
  }

  lemma SwapInRegion(st0: seq<Lit>, st: seq<Lit>, b: nat, e: nat, i: nat, k: nat)
    requires OnlyRegion(st0, st, b, e) && b <= i < e && b <= k < e
    ensures OnlyRegion(st0, Swapped(st, i, k), b, e)
  {
    hide Swapped;
    SwappedSlice(st, b, e, i, k);
    SwapMultiset(st[b..e], i - b, k - b);
    SwappedElsewhere(st, i, k);
  }

  lemma SwappedElsewhere(st: seq<Lit>, i: nat, k: nat)
    requires i < |st| && k < |st|
    ensures |Swapped(st, i, k)| == |st| && forall j :: 0 <= j < |st| && j != i && j != k ==> Swapped(st, i, k)[j] == st[j]
  {
  }

  lemma SwappedSlice(st: seq<Lit>, b: nat, e: nat, i: nat, k: nat)
    requires b <= i < e <= |st| && b <= k < e
    ensures Swapped(st, i, k)[b..e] == Swapped(st[b..e], i - b, k - b)
  {
  }

  ghost predicate SameMembers(s: seq<Lit>, t: seq<Lit>) {
    forall l :: l in s <==> l in t
  }

  lemma SameMembersRefl(s: seq<Lit>)
    ensures SameMembers(s, s)
  {
  }

  ghost predicate Ascending(st: seq<Lit>, lo: nat, hi: nat) {
    forall i, j :: lo <= i < j < hi <= |st| ==> Code(st[i]) <= Code(st[j])
  }

  // Sorted, without duplicates.
  ghost predicate Strict(s: seq<Lit>) {
    forall i, j :: 0 <= i < j < |s| ==> Code(s[i]) < Code(s[j])
  }

  // What comes before mid is not greater than what follows.
  ghost predicate Least(st: seq<Lit>, lo: nat, mid: nat, hi: nat) {
    forall i, j :: lo <= i < mid <= j < hi <= |st| ==> Code(st[i]) <= Code(st[j])
  }

  lemma StartLeast(st: seq<Lit>, lo: nat, hi: nat)
    ensures Ascending(st, lo, lo) && Least(st, lo, lo, hi)
  {
  }

  lemma NextLeast(st: seq<Lit>, lo: nat, mid: nat, hi: nat, best: nat)
    requires lo <= mid <= best < hi <= |st| && Ascending(st, lo, mid) && Least(st, lo, mid, hi)
    requires forall k :: mid <= k < hi ==> Code(st[best]) <= Code(st[k])
    ensures Ascending(Swapped(st, mid, best), lo, mid + 1) && Least(Swapped(st, mid, best), lo, mid + 1, hi)
  {
    hide Code;
  }

  lemma LastLeast(st: seq<Lit>, lo: nat, mid: nat, hi: nat)
    requires lo <= mid <= hi <= mid + 1 && hi <= |st| && Ascending(st, lo, mid) && Least(st, lo, mid, hi)
    ensures Ascending(st, lo, hi)
  {
  }

  // The first i cells of the region have been compacted to the first kept cells.
  ghost predicate Compacted(st0: seq<Lit>, st: seq<Lit>, b: nat, i: nat, kept: nat, size: nat) {
    && 0 < kept <= i <= size && b + size <= |st| == |st0|
    && Strict(st[b..b + kept]) && SameMembers(st0[b..b + i], st[b..b + kept])
    && st[b + kept - 1] == st0[b + i - 1]
    && Ascending(st0, b, b + size)
    && forall k :: 0 <= k < b || b + i <= k < |st| ==> st[k] == st0[k]
  }

  lemma StartCompact(st: seq<Lit>, b: nat, size: nat)
    requires 0 < size && b + size <= |st| && Ascending(st, b, b + size)
    ensures Compacted(st, st, b, 1, 1, size)
  {
  }

  lemma CompactStep(st0: seq<Lit>, st: seq<Lit>, b: nat, i: nat, j: nat, size: nat)
    requires i < size && Compacted(st0, st, b, i, j + 1, size)
    ensures b + size <= |st| == |st0| && j < i
    ensures st[b + i] == st[b + j] ==> Compacted(st0, st, b, i + 1, j + 1, size)
    ensures st[b + i] != st[b + j] ==> Compacted(st0, st[b + j + 1 := st[b + i]], b, i + 1, j + 2, size)
  {
    hide Ascending, Strict;
    assert st[b + i] == st0[b + i];
    assert st0[b..b + i + 1] == st0[b..b + i] + [st0[b + i]];
    if st[b + i] == st[b + j] {
      assert st[b..b + j + 1][j] == st[b + j];
    } else {
      var st' := st[b + j + 1 := st[b + i]];
      assert st'[b..b + j + 2] == st[b..b + j + 1] + [st[b + i]];
      AscendingNext(st0, b, i, size);
      StrictNext(st[b..b + j + 1], st[b + i]);
    }
  }

  lemma AscendingNext(st: seq<Lit>, b: nat, i: nat, size: nat)
    requires 0 < i < size && b + size <= |st| && Ascending(st, b, b + size)
    ensures Code(st[b + i - 1]) <= Code(st[b + i])
  {
  }

  lemma StrictNext(s: seq<Lit>, l: Lit)
    requires s != [] && Strict(s) && Code(s[|s| - 1]) <= Code(l) && s[|s| - 1] != l
    ensures Strict(s + [l])
  {
    if Code(s[|s| - 1]) == Code(l) { CodeInjective(s[|s| - 1], l); }
    hide Code;
  }

  ghost predicate SameOutside(st0: seq<Lit>, st: seq<Lit>, b: nat, e: nat) {
    |st| == |st0| && b <= e <= |st| && forall k :: 0 <= k < b || e <= k < |st| ==> st[k] == st0[k]
  }

  lemma OtherRegion(st0: seq<Lit>, st: seq<Lit>, b: nat, e: nat, b2: nat, e2: nat)
    requires SameOutside(st0, st, b, e) && b2 <= e2 <= |st0| && (e <= b2 || e2 <= b)
    ensures |st| == |st0| && st[b2..e2] == st0[b2..e2]
  {
  }

  lemma UniqueRegion(st0: seq<Lit>, st1: seq<Lit>, st2: seq<Lit>, b: nat, size: nat, kept: nat)
    requires OnlyRegion(st0, st1, b, b + size) && Compacted(st1, st2, b, size, kept, size)
    ensures b + size <= |st0| == |st2| && kept <= size && SameOutside(st0, st2, b, b + size)
    ensures Strict(st2[b..b + kept]) && SameMembers(st0[b..b + size], st2[b..b + kept])
  {
    RegionSlice(st0, st1, b, b + size);
  }

  // The region keeps its elements.
  lemma RegionSlice(st0: seq<Lit>, st: seq<Lit>, b: nat, e: nat)
    requires OnlyRegion(st0, st, b, e)
    ensures SameMembers(st0[b..e], st[b..e])
  {
    assert forall l :: l in st[b..e] <==> l in multiset(st[b..e]);
    assert forall l :: l in st0[b..e] <==> l in multiset(st0[b..e]);
  }

  // The regions beside it are the same.
  lemma BesideRegion(st0: seq<Lit>, st: seq<Lit>, b: nat, e: nat, b2: nat, e2: nat)
    requires OnlyRegion(st0, st, b, e) && b2 <= e2 <= |st| && (e <= b2 || e2 <= b)
    ensures st[b2..e2] == st0[b2..e2]
  {
  }

  function LessOne(n: nat): (r: nat)
    ensures r <= n && (n > 0 ==> r == n - 1)
  {
    if n > 0 then n - 1 else 0
  }

  lemma EmptySum(s: seq<nat>)
    ensures Sum(s[..0]) == 0
  {
  }

  lemma ZeroSum(s: seq<nat>)
    requires forall i :: 0 <= i < |s| ==> s[i] == 0
    ensures Sum(s) == 0
  {
  }

  lemma {:induction false} SumIncrement(s: seq<nat>, i: nat)
    requires i < |s|
    ensures Sum(s[i := s[i] + 1]) == Sum(s) + 1
  {
    var n := |s| - 1;
    if i < n {
      SumIncrement(s[..n], i);
      assert s[i := s[i] + 1][..n] == s[..n][i := s[i] + 1];
    } else {
      assert s[i := s[i] + 1][..n] == s[..n];
    }
  }

  lemma EdgesNext(ca: seq<Cls>, list: seq<CRef>, i: nat)
    requires ListInRange(ca, list) && i < |list|
    ensures forall l :: EdgesFrom(ca, list[..i + 1], l) == EdgesFrom(ca, list[..i], l) + EdgeOf(ca[list[i]], l)
  {
    assert list[..i + 1][..i] == list[..i];
  }

  lemma EdgesOfClause(c: Cls, n: nat)
    requires UsesClause(c) && BinaryOk(c, n)
    ensures c.lits[0].v < n && c.lits[1].v < n && Code(Neg(c.lits[0])) != Code(Neg(c.lits[1]))
    ensures forall l: Lit :: EdgeOf(c, l) == if Code(l) == Code(Neg(c.lits[0])) then [c.lits[1]]
                                             else if Code(l) == Code(Neg(c.lits[1])) then [c.lits[0]] else []
    ensures EdgeOf(c, Neg(c.lits[0])) != [] && EdgeOf(c, Neg(c.lits[1])) != []
  {
    assert c.lits[0] in c.lits && c.lits[1] in c.lits;
    CodesDiffer(Neg(c.lits[0]), Neg(c.lits[1]));
    assert Neg(Neg(c.lits[0])) == c.lits[0] && Neg(Neg(c.lits[1])) == c.lits[1];
    forall l ensures (Code(l) == Code(Neg(c.lits[0])) <==> l == Neg(c.lits[0])) && (Code(l) == Code(Neg(c.lits[1])) <==> l == Neg(c.lits[1])) {
      CodesDiffer(l, Neg(c.lits[0]));
      CodesDiffer(l, Neg(c.lits[1]));
    }
  }

  lemma EdgeCounts(c: Cls, n: nat)
    requires UsesClause(c) && BinaryOk(c, n)
    ensures c.lits[0].v < n && c.lits[1].v < n && Code(Neg(c.lits[0])) != Code(Neg(c.lits[1]))
    ensures forall l: Lit :: |EdgeOf(c, l)| == if Code(l) == Code(Neg(c.lits[0])) || Code(l) == Code(Neg(c.lits[1])) then 1 else 0
  {
    assert c.lits[0] in c.lits && c.lits[1] in c.lits;
    CodesDiffer(Neg(c.lits[0]), Neg(c.lits[1]));
    assert Neg(Neg(c.lits[0])) == c.lits[0] && Neg(Neg(c.lits[1])) == c.lits[1];
    forall l ensures (Code(l) == Code(Neg(c.lits[0])) <==> l == Neg(c.lits[0])) && (Code(l) == Code(Neg(c.lits[1])) <==> l == Neg(c.lits[1])) {
      CodesDiffer(l, Neg(c.lits[0]));
      CodesDiffer(l, Neg(c.lits[1]));
    }
  }

  lemma CodesDiffer(a: Lit, b: Lit)
    ensures Code(a) == Code(b) <==> a == b
  {
    if Code(a) == Code(b) { CodeInjective(a, b); }
  }

  lemma {:induction false} PrefixFits(ca: seq<Cls>, list: seq<CRef>, i: nat, l: Lit)
    requires ListInRange(ca, list) && i <= |list|
    ensures |EdgesFrom(ca, list[..i], l)| <= |EdgesFrom(ca, list, l)|
    decreases |list| - i
  {
    if i < |list| {
      PrefixFits(ca, list, i + 1, l);
      EdgesNext(ca, list, i);
    } else {
      assert list[..i] == list;
    }
  }

  lemma EdgesFit(ca: seq<Cls>, list: seq<CRef>, i: nat, l: Lit)
    requires ListInRange(ca, list) && i < |list| && EdgeOf(ca[list[i]], l) != []
    ensures |EdgesFrom(ca, list[..i], l)| < |EdgesFrom(ca, list, l)|
  {
    PrefixFits(ca, list, i + 1, l);
    EdgesNext(ca, list, i);
  }

  lemma {:induction false} NoEdgesBeyond(ca: seq<Cls>, list: seq<CRef>, n: nat, l: Lit)
    requires BinariesOk(ca, list, n) && l.v >= n
    ensures EdgesFrom(ca, list, l) == []
  {
    if list != [] {
      var k := |list| - 1;
      NoEdgesBeyond(ca, list[..k], n, l);
      assert BinaryOk(ca[list[k]], n);
      if UsesClause(ca[list[k]]) {
        assert ca[list[k]].lits[0] in ca[list[k]].lits && ca[list[k]].lits[1] in ca[list[k]].lits;
      }
    }
  }

  // Every edge of a literal on the stack that has been followed leads to a literal with a
  // start stamp, or to the next one.
  ghost predicate FollowedIn(n: nat, slices: seq<seq<Lit>>, start: seq<nat>, stack: seq<Lit>, index: seq<nat>, next: seq<Lit>) {
    && |slices| == |start| == |index| == 2 * n
    && forall l, k :: l in stack && l.v < n && 0 <= k < index[Code(l)] && k < |slices[Code(l)]| ==>
         Started(Stamps(start, [], 0), slices[Code(l)][k]) != 0 || slices[Code(l)][k] in next
  }

  lemma AlreadyStamped(n: nat, slices: seq<seq<Lit>>, start: seq<nat>, stack: seq<Lit>, index: seq<nat>, l: Lit)
    requires FollowedIn(n, slices, start, stack, index, [l]) && Code(l) < |start| && start[Code(l)] != 0
    ensures FollowedIn(n, slices, start, stack, index, [])
  {
  }

  lemma OneFollowed(n: nat, slices: seq<seq<Lit>>, start: seq<nat>, stack: seq<Lit>, index: seq<nat>, c: nat, l: Lit)
    requires FollowedIn(n, slices, start, stack, index, []) && c < 2 * n && index[c] < |slices[c]| && slices[c][index[c]] == l
    ensures FollowedIn(n, slices, start, stack, index[c := index[c] + 1], [l])
  {
  }

  lemma PushFollowed(n: nat, slices: seq<seq<Lit>>, start: seq<nat>, stack: seq<Lit>, index: seq<nat>, l: Lit, stamp: nat, mixed: seq<Lit>)
    requires FollowedIn(n, slices, start, stack, index, [l]) && l.v < n && l !in stack && stamp != 0
    ensures FollowedIn(n, slices[Code(l) := mixed], start[Code(l) := stamp], stack + [l], index[Code(l) := 0], [])
  {
    forall k | k in stack ensures Code(k) != Code(l) {
      if Code(k) == Code(l) { CodeInjective(k, l); }
    }
  }

  lemma FewerFollowed(n: nat, slices: seq<seq<Lit>>, start: seq<nat>, stack: seq<Lit>, index: seq<nat>)
    requires FollowedIn(n, slices, start, stack, index, []) && stack != []
    ensures FollowedIn(n, slices, start, stack[..|stack| - 1], index, [])
  {
  }

  ghost predicate OnStack(stack: seq<Lit>, index: seq<nat>, sizes: seq<nat>, n: nat) {
    |index| == |sizes| == 2 * n && forall k :: k in stack ==> k.v < n && index[Code(k)] <= sizes[Code(k)]
  }

  lemma IndexStart(stack: seq<Lit>, l: Lit, index: seq<nat>, sizes: seq<nat>, n: nat)
    requires OnStack(stack, index, sizes, n) && l.v < n
    ensures OnStack(stack + [l], index[Code(l) := 0], sizes, n)
  {
    forall k | k in stack + [l] ensures k.v < n && index[Code(l) := 0][Code(k)] <= sizes[Code(k)] {
      CodesDiffer(k, l);
    }
  }

  // ---------- progress of the search ----------

  ghost function Zeros(s: seq<nat>): nat {
    if s == [] then 0 else Zeros(s[..|s| - 1]) + if s[|s| - 1] == 0 then 1 else 0
  }

  lemma {:induction false} ZerosSet(s: seq<nat>, i: nat, x: nat)
    requires i < |s| && s[i] == 0 && x != 0
    ensures Zeros(s[i := x]) == Zeros(s) - 1
  {
    var n := |s| - 1;
    if i < n {
      ZerosSet(s[..n], i, x);
      assert s[i := x][..n] == s[..n][i := x];
    } else {
      assert s[i := x][..n] == s[..n];
    }
  }

  // No stamp is taken back.
  ghost predicate Later(was: seq<nat>, now: seq<nat>) {
    |was| == |now| && forall i :: 0 <= i < |was| && was[i] != 0 ==> now[i] == was[i]
  }

  lemma LaterRefl(s: seq<nat>)
    ensures Later(s, s)
  {
  }

  // The edges that the literals on the stack have left.
  ghost function Remaining(stack: seq<Lit>, index: seq<nat>, sizes: seq<nat>): nat {
    if stack == [] then 0
    else
      var l := stack[|stack| - 1];
      Remaining(stack[..|stack| - 1], index, sizes)
        + if Code(l) < |index| && Code(l) < |sizes| && index[Code(l)] <= sizes[Code(l)] then sizes[Code(l)] - index[Code(l)] else 0
  }

  lemma {:induction false} RemainingSame(stack: seq<Lit>, index: seq<nat>, index': seq<nat>, sizes: seq<nat>)
    requires |index| == |index'| && forall l :: l in stack && Code(l) < |index| ==> index'[Code(l)] == index[Code(l)]
    ensures Remaining(stack, index', sizes) == Remaining(stack, index, sizes)
  {
    if stack != [] {
      RemainingSame(stack[..|stack| - 1], index, index', sizes);
    }
  }

  lemma Advanced(stack: seq<Lit>, index: seq<nat>, index': seq<nat>, sizes: seq<nat>, n: nat)
    requires stack != [] && |index| == |sizes| == 2 * n && stack[|stack| - 1].v < n
    requires forall i, j :: 0 <= i < j < |stack| ==> stack[i] != stack[j]
    requires index[Code(stack[|stack| - 1])] < sizes[Code(stack[|stack| - 1])]
    requires index' == index[Code(stack[|stack| - 1]) := index[Code(stack[|stack| - 1])] + 1]
    ensures Remaining(stack, index', sizes) < Remaining(stack, index, sizes)
  {
    var front, top := stack[..|stack| - 1], stack[|stack| - 1];
    forall l | l in front && Code(l) < |index| ensures index'[Code(l)] == index[Code(l)] {
      CodesDiffer(l, top);
    }
    RemainingSame(front, index, index', sizes);
  }

  lemma LaterSet(s: seq<nat>, i: nat, x: nat)
    requires i < |s| && s[i] == 0 && x != 0
    ensures Later(s, s[i := x])
  {
  }

  lemma LaterTrans(a: seq<nat>, b: seq<nat>, c: seq<nat>)
    requires Later(a, b) && Later(b, c)
    ensures Later(a, c)
  {
  }

  lemma SameLits(a: seq<Lit>, b: seq<Lit>)
    requires multiset(a) == multiset(b)
    ensures forall l :: l in a <==> l in b
  {
    forall l ensures l in a <==> l in b {
      assert l in a <==> l in multiset(a);
      assert l in b <==> l in multiset(b);
    }
  }

  lemma NothingStamped(E: Edges, n: nat, stamp: nat)
    ensures Searching(E, n, Stamps(seq(2 * n, _ => 0), seq(2 * n, _ => 0), stamp), [])
    ensures Tree(E, Stamps(seq(2 * n, _ => 0), seq(2 * n, _ => 0), stamp), {})
  {
  }

  // ---------- from the clauses to the answers ----------

  ghost predicate SatList(m: Model, ca: seq<Cls>, list: seq<CRef>)
    requires ListInRange(ca, list)
  {
    forall i :: 0 <= i < |list| && !ca[list[i]].deleted ==> SatClause(m, ca[list[i]].lits)
  }

  lemma EdgeSetFacts(ca: seq<Cls>, list: seq<CRef>, n: nat)
    requires BinariesOk(ca, list, n)
    ensures SkewSymmetric(EdgeSet(ca, list))
    ensures forall a, b :: (a, b) in EdgeSet(ca, list) ==> a.v < n && b.v < n
  {
    forall a, b | (a, b) in EdgeSet(ca, list)
      ensures (Neg(b), Neg(a)) in EdgeSet(ca, list) && a.v < n && b.v < n
    {
      EdgesSkew(ca, list, n, a, b);
    }
  }

  // Builds the graph of the binary clauses of a list, without stamps.
  method StartGraph(big: BIG, ca: seq<Cls>, nVars: nat, list: seq<CRef>)
    requires BinariesOk(ca, list, nVars)
    modifies big
    ensures big.n == nVars && big.ListsAre(EdgeSet(ca, list)) && big.start == big.stop == []
    ensures SkewSymmetric(EdgeSet(ca, list)) && fresh(big.storage)
  {
    big.start, big.stop := [], [];
    big.Create(ca, nVars, list);
    EdgeSetFacts(ca, list, nVars);
    forall a: Lit, b: Lit ensures (a, b) in EdgeSet(ca, list) <==> a.v < nVars && b in big.Slice(Code(a)) {
      assert big.Adjacent(a) == EdgesFrom(ca, list, a);
    }
  }

  // Builds and stamps it.
  method BuildGraph(big: BIG, ca: seq<Cls>, nVars: nat, list: seq<CRef>)
    requires BinariesOk(ca, list, nVars)
    modifies big
    ensures big.n == nVars && big.ListsAre(EdgeSet(ca, list)) && big.Stamped(EdgeSet(ca, list))
    ensures SkewSymmetric(EdgeSet(ca, list)) && fresh(big.storage)
  {
    StartGraph(big, ca, nVars, list);
    big.GenerateImplied(nVars, EdgeSet(ca, list));
  }

  // What implies answers is true in every model of the clauses.
  method ImpliesSound(big: BIG, ca: seq<Cls>, list: seq<CRef>, from: Lit, to: Lit) returns (r: bool)
    requires BinariesOk(ca, list, big.n) && (big.start == [] || big.Stamped(EdgeSet(ca, list)))
    ensures r ==> forall m: Model :: SatList(m, ca, list) && Holds(m, from) ==> Holds(m, to)
  {
    EdgeSetFacts(ca, list, big.n);
    r := big.Implies(from, to, EdgeSet(ca, list));
    if r {
      forall m: Model | SatList(m, ca, list) && Holds(m, from) ensures Holds(m, to) {
        ReachHolds(ca, list, big.n, from, to, m);
      }
    }
  }
}
