// What one simplification step owes to the rest of a run, and why each kind of clause
// replacement pays it. A step turns a formula F into G and pushes repair clauses e.

module Steps {
  import opened Sat
  import opened Undo

  // Every model of G, repaired with e, is a model of F, and G is satisfiable if F is.
  ghost predicate Step(F: set<Clause>, G: set<Clause>, e: seq<Clause>) {
    && (forall m: Model {:trigger SatAll(m, G)} :: SatAll(m, G) ==> SatAll(Extend(e, m), F))
    && (Satisfiable(F) ==> Satisfiable(G))
  }

  lemma StepCompose(F: set<Clause>, G: set<Clause>, H: set<Clause>, e: seq<Clause>, f: seq<Clause>)
    requires Step(F, G, e) && Step(G, H, f)
    ensures Step(F, H, e + f)
  {
    forall m: Model | SatAll(m, H) ensures SatAll(Extend(e + f, m), F) {
      ExtendConcat(e, f, m);
      assert SatAll(Extend(f, m), G);
    }
  }

  lemma EquivalentStep(F: set<Clause>, G: set<Clause>)
    requires forall m: Model :: SatAll(m, F) <==> SatAll(m, G)
    ensures Step(F, G, [])
  {
    if Satisfiable(F) {
      var m: Model :| SatAll(m, F);
      assert SatAll(m, G);
    }
  }

  // ---------- flipping one literal ----------

  // Every clause that contains ~p has a true literal on another variable.
  ghost predicate FlipSafe(R: set<Clause>, m: Model, p: Lit) {
    forall d :: d in R && Neg(p) in d ==> exists x :: x in d && x.v != p.v && Holds(m, x)
  }

  lemma FlipKeeps(R: set<Clause>, m: Model, p: Lit)
    requires SatAll(m, R) && FlipSafe(R, m, p)
    ensures SatAll(Assign(m, p), R)
  {
    forall d | d in R ensures SatClause(Assign(m, p), d) {
      FlipKeepsClause(m, d, p);
    }
  }

  function Without(c: Clause, p: Lit): (r: Clause)
    ensures forall l :: l in r <==> l in c && l != p
  {
    if c == [] then []
    else if c[0] == p then Without(c[1..], p)
    else [c[0]] + Without(c[1..], p)
  }

  // The order in which addToExtension stores a clause: the pivot first.
  function PivotFirst(c: Clause, p: Lit): (r: Clause)
    ensures r != [] && r[0] == p
    ensures forall l :: l in r <==> l == p || l in c
  {
    [p] + Without(c, p)
  }

  lemma RepairOne(c: Clause, p: Lit, m: Model)
    requires p in c
    ensures Extend([PivotFirst(c, p)], m) == if SatClause(m, c) then m else Assign(m, p)
  {
    var k := PivotFirst(c, p);
    assert [k][..0] == [];
    assert SatClause(m, k) <==> SatClause(m, c) by {
      if SatClause(m, k) { var l :| l in k && Holds(m, l); assert l in c; }
      if SatClause(m, c) { var l :| l in c && Holds(m, l); assert l in k; }
    }
  }

  // c is given up for the weaker clauses K; its repair clause flips p.
  lemma RepairStep(R: set<Clause>, c: Clause, p: Lit, K: set<Clause>)
    requires p in c
    requires forall m: Model :: SatAll(m, R + K) && !SatClause(m, c) ==> FlipSafe(R, m, p)
    requires forall m: Model :: SatAll(m, R + {c}) ==> SatAll(m, K)
    ensures Step(R + {c}, R + K, [PivotFirst(c, p)])
  {
    forall m: Model | SatAll(m, R + K)
      ensures SatAll(Extend([PivotFirst(c, p)], m), R + {c})
    {
      RepairOne(c, p, m);
      SatAllUnion(m, R, K);
      if !SatClause(m, c) {
        FlipKeeps(R, m, p);
        assert Holds(Assign(m, p), p);
      }
    }
    if Satisfiable(R + {c}) {
      var m: Model :| SatAll(m, R + {c});
      SatAllUnion(m, R, {c});
      SatAllUnion(m, R, K);
    }
  }

  // ---------- blocked, covered and shrunk clauses ----------

  // Resolving c with d on p gives a tautology: some other literal of c clashes with d.
  predicate Clash(c: Clause, p: Lit, d: Clause) {
    exists x :: x in c && x != p && Neg(x) in d
  }

  predicate Blocked(R: set<Clause>, c: Clause, p: Lit) {
    p in c && forall d :: d in R && Neg(p) in d ==> Clash(c, p, d)
  }

  // Every partner of c on p clashes with c or contains all of L.
  predicate Covered(R: set<Clause>, c: Clause, p: Lit, L: set<Lit>) {
    p in c && forall d :: d in R && Neg(p) in d ==>
      Clash(c, p, d) || (forall l :: l in L ==> l in d && l.v != p.v)
  }

  lemma ClashSafe(m: Model, c: Clause, p: Lit, d: Clause)
    requires p in c && !Tautology(c) && Clash(c, p, d) && !SatClause(m, c)
    ensures exists x :: x in d && x.v != p.v && Holds(m, x)
  {
    var x :| x in c && x != p && Neg(x) in d;
    assert x != Neg(p);
    assert Holds(m, Neg(x));
  }

  lemma CoveredSafe(R: set<Clause>, c: Clause, p: Lit, L: set<Lit>, m: Model)
    requires Covered(R, c, p, L) && !Tautology(c)
    requires !SatClause(m, c)
    requires exists l :: l in L && Holds(m, l)
    ensures FlipSafe(R, m, p)
  {
    var l :| l in L && Holds(m, l);
    forall d | d in R && Neg(p) in d
      ensures exists x :: x in d && x.v != p.v && Holds(m, x)
    {
      if Clash(c, p, d) { ClashSafe(m, c, p, d); }
    }
  }

  // Blocked clause elimination.
  lemma BlockedStep(R: set<Clause>, c: Clause, p: Lit)
    requires Blocked(R, c, p) && !Tautology(c)
    ensures Step(R + {c}, R, [PivotFirst(c, p)])
  {
    forall m: Model | SatAll(m, R + {}) && !SatClause(m, c) ensures FlipSafe(R, m, p) {
      forall d | d in R && Neg(p) in d
        ensures exists x :: x in d && x.v != p.v && Holds(m, x)
      {
        ClashSafe(m, c, p, d);
      }
    }
    RepairStep(R, c, p, {});
    assert R + {} == R;
  }

  // Covered literal addition: k is c with the literals L added.
  lemma CoveredAdditionStep(R: set<Clause>, c: Clause, p: Lit, L: set<Lit>, k: Clause)
    requires Covered(R, c, p, L) && !Tautology(c)
    requires Lits(k) == Lits(c) + L
    ensures Step(R + {c}, R + {k}, [PivotFirst(c, p)])
  {
    forall m: Model | SatAll(m, R + {k}) && !SatClause(m, c) ensures FlipSafe(R, m, p) {
      assert SatClause(m, k);
      var l :| l in k && Holds(m, l);
      assert l in Lits(k);
      CoveredSafe(R, c, p, L, m);
    }
    forall m: Model | SatAll(m, R + {c}) ensures SatAll(m, {k}) {
      assert SatClause(m, c);
      var l :| l in c && Holds(m, l);
      assert l in Lits(c);
      assert l in Lits(k);
    }
    RepairStep(R, c, p, {k});
  }

  // Covered literal elimination and blocked clause minimisation: k keeps the pivot and
  // drops literals that every partner of k contains, unless it clashes with k.
  lemma ShrinkStep(R: set<Clause>, c: Clause, p: Lit, k: Clause)
    requires !Tautology(c)
    requires Lits(k) <= Lits(c)
    requires Covered(R, k, p, Lits(c) - Lits(k))
    ensures Step(R + {c}, R + {k}, [])
  {
    assert forall l :: l in k ==> l in Lits(k);
    assert forall l :: l in k ==> l in c;
    forall m: Model | SatAll(m, R + {k}) ensures SatAll(m, R + {c}) {
      SatAllUnion(m, R, {k});
      SatAllUnion(m, R, {c});
      assert SatClause(m, k);
      var l :| l in k && Holds(m, l);
      assert l in c;
    }
    if Satisfiable(R + {c}) {
      var m: Model :| SatAll(m, R + {c});
      SatAllUnion(m, R, {c});
      if SatClause(m, k) {
        SatAllUnion(m, R, {k});
      } else {
        assert SatClause(m, c);
        var l :| l in c && Holds(m, l);
        assert l in Lits(c) - Lits(k);
        CoveredSafe(R, k, p, Lits(c) - Lits(k), m);
        FlipKeeps(R, m, p);
        assert Holds(Assign(m, p), p);
        SatAllUnion(Assign(m, p), R, {k});
      }
    }
  }

  // ---------- variable elimination ----------

  // Some literal of c other than p is true.
  ghost predicate BodySat(m: Model, c: Clause, p: Lit) {
    exists x :: x in c && x != p && Holds(m, x)
  }

  ghost predicate AllBodies(m: Model, cs: seq<Clause>, p: Lit) {
    forall i :: 0 <= i < |cs| ==> BodySat(m, cs[i], p)
  }

  function Pivoted(cs: seq<Clause>, p: Lit): (r: seq<Clause>)
    ensures |r| == |cs| && forall i :: 0 <= i < |cs| ==> r[i] == PivotFirst(cs[i], p)
  {
    seq(|cs|, i requires 0 <= i < |cs| => PivotFirst(cs[i], p))
  }

  // The two models differ at most on variable v.
  ghost predicate SameBut(a: Model, b: Model, v: nat) {
    forall l: Lit {:trigger Holds(a, l)} {:trigger Holds(b, l)} :: l.v != v ==> (Holds(a, l) <==> Holds(b, l))
  }

  lemma BodySatSame(a: Model, b: Model, c: Clause, p: Lit)
    requires SameBut(a, b, p.v) && !Tautology(c) && p in c
    ensures BodySat(a, c, p) <==> BodySat(b, c, p)
  {
    forall x | x in c && x != p ensures x.v != p.v {
      assert x != Neg(p);
    }
    if BodySat(a, c, p) { var x :| x in c && x != p && Holds(a, x); assert Holds(b, x); }
    if BodySat(b, c, p) { var x :| x in c && x != p && Holds(b, x); assert Holds(a, x); }
  }

  lemma SatByBodyOrPivot(m: Model, c: Clause, p: Lit)
    requires p in c
    ensures SatClause(m, c) <==> Holds(m, p) || BodySat(m, c, p)
  {
    if SatClause(m, c) { var x :| x in c && Holds(m, x); }
  }

  // Replaying the clauses on p: p ends up true exactly if it was true before or some
  // body is false; no other variable changes.
  lemma {:induction false} ReplayPivoted(cs: seq<Clause>, p: Lit, m: Model)
    requires forall i :: 0 <= i < |cs| ==> p in cs[i] && !Tautology(cs[i])
    ensures SameBut(Extend(Pivoted(cs, p), m), m, p.v)
    ensures Holds(Extend(Pivoted(cs, p), m), p) <==> Holds(m, p) || !AllBodies(m, cs, p)
    decreases |cs|
  {
    if cs != [] {
      var last := |cs| - 1;
      var c, front := cs[last], cs[..last];
      assert Pivoted(cs, p)[..last] == Pivoted(front, p);
      hide BodySat, AllBodies, SameBut, PivotFirst, Repair;
      var m' := Repair(PivotFirst(c, p), m);
      ReplayOne(c, p, m);
      ReplayPivoted(front, p, m');
      SameBodies(front, c, p, m', m);
      assert cs == front + [c];
      SameButTrans(Extend(Pivoted(cs, p), m), m', m, p.v);
    }
  }

  // Replaying one clause on p.
  lemma ReplayOne(c: Clause, p: Lit, m: Model)
    requires p in c
    ensures SameBut(Repair(PivotFirst(c, p), m), m, p.v)
    ensures Holds(Repair(PivotFirst(c, p), m), p) <==> Holds(m, p) || !BodySat(m, c, p)
  {
    var k := PivotFirst(c, p);
    if SatClause(m, k) { var l :| l in k && Holds(m, l); assert l in c; }
    if SatClause(m, c) { var l :| l in c && Holds(m, l); assert l in k; }
    SatByBodyOrPivot(m, c, p);
  }

  lemma SameBodies(front: seq<Clause>, c: Clause, p: Lit, m': Model, m: Model)
    requires SameBut(m', m, p.v) && forall i :: 0 <= i < |front| ==> p in front[i] && !Tautology(front[i])
    ensures AllBodies(m, front + [c], p) <==> AllBodies(m', front, p) && BodySat(m, c, p)
  {
    hide BodySat, SameBut;
    var cs := front + [c];
    assert forall i :: 0 <= i < |front| ==> cs[i] == front[i];
    assert cs[|front|] == c;
    forall i | 0 <= i < |front| ensures BodySat(m', front[i], p) <==> BodySat(m, cs[i], p) {
      BodySatSame(m', m, front[i], p);
    }
  }

  lemma SameButTrans(a: Model, b: Model, c: Model, v: nat)
    requires SameBut(a, b, v) && SameBut(b, c, v)
    ensures SameBut(a, c, v)
  {
  }

  // R has no clause on x's variable. If in every model of R all bodies of one polarity
  // are true, the clauses on x may go: the undo stack gets the clauses with ~x and then
  // the unit clause x.
  lemma EliminationStep(R: set<Clause>, pos: seq<Clause>, neg: seq<Clause>, x: Lit)
    requires forall d, l :: d in R && l in d ==> l.v != x.v
    requires forall i :: 0 <= i < |pos| ==> x in pos[i] && !Tautology(pos[i])
    requires forall i :: 0 <= i < |neg| ==> Neg(x) in neg[i] && !Tautology(neg[i])
    requires forall m: Model :: SatAll(m, R) ==> AllBodies(m, pos, x) || AllBodies(m, neg, Neg(x))
    ensures Step(R + (set c | c in pos) + (set c | c in neg), R, Pivoted(neg, Neg(x)) + [[x]])
  {
    var F := R + (set c | c in pos) + (set c | c in neg);
    forall m: Model | SatAll(m, R)
      ensures SatAll(Extend(Pivoted(neg, Neg(x)) + [[x]], m), F)
    {
      EliminationRepairs(R, pos, neg, x, m);
    }
    if Satisfiable(F) {
      var m: Model :| SatAll(m, F);
      assert SatAll(m, R);
    }
  }

  lemma EliminationRepairs(R: set<Clause>, pos: seq<Clause>, neg: seq<Clause>, x: Lit, m: Model)
    requires forall d, l :: d in R && l in d ==> l.v != x.v
    requires forall i :: 0 <= i < |pos| ==> x in pos[i] && !Tautology(pos[i])
    requires forall i :: 0 <= i < |neg| ==> Neg(x) in neg[i] && !Tautology(neg[i])
    requires SatAll(m, R) && (AllBodies(m, pos, x) || AllBodies(m, neg, Neg(x)))
    ensures SatAll(Extend(Pivoted(neg, Neg(x)) + [[x]], m), R + (set c | c in pos) + (set c | c in neg))
  {
    ExtendConcat(Pivoted(neg, Neg(x)), [[x]], m);
    assert [[x]][..0] == [];
    var m1 := Extend([[x]], m);
    assert m1 == Repair([x], m);
    assert Holds(m1, x) by { if SatClause(m, [x]) { } }
    var out := Extend(Pivoted(neg, Neg(x)), m1);
    ReplayPivoted(neg, Neg(x), m1);
    assert SameBut(m1, m, x.v) && SameBut(out, m, x.v);
    assert Holds(out, x) <==> !Holds(out, Neg(x));
    forall i | 0 <= i < |neg| ensures SatClause(out, neg[i]) && (BodySat(m1, neg[i], Neg(x)) <==> BodySat(m, neg[i], Neg(x))) {
      BodySatSame(m1, m, neg[i], Neg(x));
      BodySatSame(out, m1, neg[i], Neg(x));
      SatByBodyOrPivot(out, neg[i], Neg(x));
    }
    assert AllBodies(m1, neg, Neg(x)) <==> AllBodies(m, neg, Neg(x));
    forall i | 0 <= i < |pos| ensures SatClause(out, pos[i]) {
      BodySatSame(out, m, pos[i], x);
      SatByBodyOrPivot(out, pos[i], x);
    }
    forall d | d in R ensures SatClause(out, d) {
      var l :| l in d && Holds(m, l);
      assert Holds(out, l);
    }
  }
}
