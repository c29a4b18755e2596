// Naive unit propagation and the two redundancy criteria a proof checker rests on: a
// clause can be added if it is RUP (reverse unit propagation gives a conflict) or RAT
// (all its resolvents on the first literal are RUP or tautologies).

module ReverseUnitPropagation {
  import opened Sat

  // The order of literals does not matter here, but how often a clause repeats one does.
  type LitBag = multiset<Lit>

  ghost predicate SatBag(m: Model, d: LitBag) {
    exists l :: l in d && Holds(m, l)
  }

  ghost predicate SatBags(m: Model, B: set<LitBag>) {
    forall d :: d in B ==> SatBag(m, d)
  }

  ghost predicate HasModel(B: set<LitBag>) {
    exists m: Model :: SatBags(m, B)
  }

  // Every model of B is a model of D.
  ghost predicate Follows(B: set<LitBag>, D: set<LitBag>) {
    forall m: Model {:trigger SatBags(m, B)} :: SatBags(m, B) ==> SatBags(m, D)
  }

  lemma SatBagsUnion(m: Model, B: set<LitBag>, d: LitBag)
    ensures SatBags(m, B + {d}) <==> SatBags(m, B) && SatBag(m, d)
  {
    if SatBags(m, B + {d}) {
      assert d in B + {d};
      forall e | e in B ensures SatBag(m, e) {
        assert e in B + {d};
      }
    }
  }

  // ---------- naive unit propagation ----------

  // All literals of d but one occurrence of l are false.
  ghost predicate Forces(d: LitBag, t: seq<Lit>, l: Lit) {
    d[l] == 1 && forall x :: x in d && x != l ==> Neg(x) in t
  }

  ghost predicate Falsified(d: LitBag, t: seq<Lit>) {
    forall x :: x in d ==> Neg(x) in t
  }

  ghost predicate Forced(B: set<LitBag>, t: seq<Lit>, l: Lit) {
    exists d :: d in B && Forces(d, t, l)
  }

  // From position n on, every literal is forced by a clause and the literals before it.
  ghost predicate Derivation(B: set<LitBag>, n: nat, t: seq<Lit>) {
    forall i :: n <= i < |t| ==> Forced(B, t[..i], t[i])
  }

  ghost predicate SomeFalsified(B: set<LitBag>, t: seq<Lit>) {
    exists d :: d in B && Falsified(d, t)
  }

  // Unit propagation from the literals of a reaches a conflict, in some order.
  ghost predicate UnitConflict(B: set<LitBag>, a: seq<Lit>) {
    exists t :: a <= t && Derivation(B, |a|, t) && SomeFalsified(B, t)
  }

  // Two literals, or two occurrences of one, are not false.
  ghost predicate TwoFree(d: LitBag, t: seq<Lit>) {
    exists x, y :: x in d && y in d && (x != y || d[x] > 1) && Neg(x) !in t && Neg(y) !in t
  }

  ghost predicate SomeTrue(d: LitBag, t: seq<Lit>) {
    exists x :: x in d && x in t
  }

  ghost predicate Closed(B: set<LitBag>, t: seq<Lit>) {
    forall d :: d in B ==> SomeTrue(d, t) || TwoFree(d, t)
  }

  ghost predicate Consistent(t: seq<Lit>) {
    forall x :: x in t ==> Neg(x) !in t
  }

  lemma ExtendDerivation(B: set<LitBag>, n: nat, t: seq<Lit>, l: Lit)
    requires n <= |t| && Derivation(B, n, t) && Forced(B, t, l)
    ensures Derivation(B, n, t + [l])
  {
    var t' := t + [l];
    forall i | n <= i < |t'| ensures Forced(B, t'[..i], t'[i]) {
      if i < |t| {
        assert t'[..i] == t[..i];
      } else {
        assert t'[..i] == t;
      }
    }
  }

  // What a closed trail contains: everything naive propagation can derive.
  lemma {:induction false} ClosedContains(B: set<LitBag>, a: seq<Lit>, t: seq<Lit>, closed: seq<Lit>, i: nat)
    requires Closed(B, closed) && Consistent(closed) && forall x :: x in a ==> x in closed
    requires a <= t && Derivation(B, |a|, t) && i <= |t|
    ensures forall k :: 0 <= k < i ==> t[k] in closed
  {
    if i > 0 {
      ClosedContains(B, a, t, closed, i - 1);
      var l := t[i - 1];
      if i <= |a| {
        assert l == a[i - 1];
      } else {
        assert Forced(B, t[..i - 1], l);
        var d :| d in B && Forces(d, t[..i - 1], l);
        forall x | x in d && x != l ensures Neg(x) in closed && x !in closed {
          assert Neg(x) in t[..i - 1];
          assert Neg(Neg(x)) == x;
        }
        assert SomeTrue(d, closed) || TwoFree(d, closed);
      }
    }
  }

  lemma NotFalsified(d: LitBag, t: seq<Lit>, closed: seq<Lit>)
    requires SomeTrue(d, closed) || TwoFree(d, closed)
    requires Consistent(closed) && forall x :: x in t ==> x in closed
    ensures !Falsified(d, t)
  {
    if SomeTrue(d, closed) {
      var x :| x in d && x in closed;
      assert Neg(x) !in t;
    } else {
      var x, y :| x in d && y in d && (x != y || d[x] > 1) && Neg(x) !in closed && Neg(y) !in closed;
      assert Neg(x) !in t;
    }
  }

  // A closed and consistent trail means that there is no conflict, in any order.
  lemma ClosedNoConflict(B: set<LitBag>, a: seq<Lit>, closed: seq<Lit>)
    requires Closed(B, closed) && Consistent(closed) && forall x :: x in a ==> x in closed
    ensures !UnitConflict(B, a)
  {
    forall t | a <= t && Derivation(B, |a|, t) ensures !SomeFalsified(B, t) {
      ClosedContains(B, a, t, closed, |t|);
      forall d | d in B ensures !Falsified(d, t) {
        NotFalsified(d, t, closed);
      }
    }
  }

  // More clauses, more conflicts.
  lemma MoreClauses(B: set<LitBag>, D: set<LitBag>, a: seq<Lit>)
    requires UnitConflict(B, a) && B <= D
    ensures UnitConflict(D, a)
  {
    var t :| a <= t && Derivation(B, |a|, t) && SomeFalsified(B, t);
    forall i | |a| <= i < |t| ensures Forced(D, t[..i], t[i]) {
      var d :| d in B && Forces(d, t[..i], t[i]);
      assert d in D;
    }
    assert Derivation(D, |a|, t);
    var d :| d in B && Falsified(d, t);
    assert d in D && SomeFalsified(D, t);
  }

  // ---------- soundness ----------

  lemma {:induction false} DerivedHold(B: set<LitBag>, a: seq<Lit>, t: seq<Lit>, m: Model, i: nat)
    requires SatBags(m, B) && a <= t && Derivation(B, |a|, t) && i <= |t|
    requires forall x :: x in a ==> Holds(m, x)
    ensures forall k :: 0 <= k < i ==> Holds(m, t[k])
  {
    if i > 0 {
      DerivedHold(B, a, t, m, i - 1);
      if i <= |a| {
        assert t[i - 1] == a[i - 1];
      } else {
        assert Forced(B, t[..i - 1], t[i - 1]);
        var d :| d in B && Forces(d, t[..i - 1], t[i - 1]);
        assert SatBag(m, d);
        var x :| x in d && Holds(m, x);
        forall y | y in t[..i - 1] ensures Holds(m, y) {
          var k :| 0 <= k < i - 1 && t[k] == y;
        }
      }
    }
  }

  lemma NoneFalsified(B: set<LitBag>, t: seq<Lit>, m: Model)
    requires SatBags(m, B) && forall x :: x in t ==> Holds(m, x)
    ensures !SomeFalsified(B, t)
  {
    forall d | d in B ensures !Falsified(d, t) {
      assert SatBag(m, d);
      var x :| x in d && Holds(m, x);
      assert !Holds(m, Neg(x));
      assert Neg(x) !in t;
    }
  }

  // No model of B makes all the literals of a true.
  lemma ConflictRefutes(B: set<LitBag>, a: seq<Lit>, m: Model)
    requires UnitConflict(B, a) && SatBags(m, B)
    ensures exists x :: x in a && !Holds(m, x)
  {
    var t :| a <= t && Derivation(B, |a|, t) && SomeFalsified(B, t);
    if forall x :: x in a ==> Holds(m, x) {
      DerivedHold(B, a, t, m, |t|);
      NoneFalsified(B, t, m);
    }
  }

  function Complements(c: Clause): (r: seq<Lit>)
    ensures |r| == |c| && forall i :: 0 <= i < |c| ==> r[i] == Neg(c[i])
  {
    seq(|c|, i requires 0 <= i < |c| => Neg(c[i]))
  }

  // The clause follows by reverse unit propagation, or is a tautology.
  ghost predicate Rup(B: set<LitBag>, c: Clause) {
    Tautology(c) || UnitConflict(B, Complements(c))
  }

  lemma RupFollows(B: set<LitBag>, c: Clause)
    requires Rup(B, c)
    ensures Follows(B, B + {multiset(c)})
  {
    forall m: Model | SatBags(m, B) ensures SatBags(m, B + {multiset(c)}) {
      SatBagsUnion(m, B, multiset(c));
      if Tautology(c) {
        var l :| l in c && Neg(l) in c;
        assert l in multiset(c) && Neg(l) in multiset(c);
        assert Holds(m, l) || Holds(m, Neg(l));
      } else {
        ConflictRefutes(B, Complements(c), m);
        var x :| x in Complements(c) && !Holds(m, x);
        var i :| 0 <= i < |c| && Complements(c)[i] == x;
        assert c[i] in multiset(c) && Holds(m, c[i]);
      }
    }
  }

  // ---------- RAT ----------

  // The literals that a resolvent of c (on its first literal) with d is tested for.
  ghost predicate ResolventOf(c: Clause, d: LitBag, r: Clause)
    requires c != []
  {
    forall l :: l in r <==> l in c[1..] || (l in d && l != Neg(c[0]))
  }

  // Some literal of d other than ~c[0] clashes with the rest of c.
  ghost predicate ClashesRest(c: Clause, d: LitBag)
    requires c != []
  {
    exists y :: y in d && y != Neg(c[0]) && Neg(y) in c[1..]
  }

  ghost predicate ResolventRup(B: set<LitBag>, c: Clause, d: LitBag)
    requires c != []
  {
    ClashesRest(c, d) || exists r :: ResolventOf(c, d, r) && Rup(B, r)
  }

  // All clauses of B with ~c[0] have been dealt with.
  ghost predicate Rat(B: set<LitBag>, c: Clause)
    requires c != []
  {
    forall d :: d in B && Neg(c[0]) in d ==> ResolventRup(B, c, d)
  }

  lemma RatFlip(B: set<LitBag>, c: Clause, d: LitBag, m: Model)
    requires c != [] && SatBags(m, B) && !SatBag(m, multiset(c)) && d in B && Neg(c[0]) in d
    requires ResolventRup(B, c, d)
    ensures SatBag(Assign(m, c[0]), d)
  {
    var x := c[0];
    assert forall l :: l in c ==> !Holds(m, l) by {
      forall l | l in c ensures !Holds(m, l) { assert l in multiset(c); }
    }
    var m' := Assign(m, x);
    if ClashesRest(c, d) {
      var y :| y in d && y != Neg(x) && Neg(y) in c[1..];
      assert Neg(y) in c;
      assert Holds(m, y);
      assert Holds(m', y);
    } else {
      var r :| ResolventOf(c, d, r) && Rup(B, r);
      RupFollows(B, r);
      SatBagsUnion(m, B, multiset(r));
      var y :| y in multiset(r) && Holds(m, y);
      assert y in r;
      assert y !in c[1..];
      assert Holds(m', y);
    }
  }

  // A RAT clause keeps a satisfiable set satisfiable.
  lemma RatKeepsModel(B: set<LitBag>, c: Clause)
    requires c != [] && Rat(B, c) && HasModel(B)
    ensures HasModel(B + {multiset(c)})
  {
    var m: Model :| SatBags(m, B);
    SatBagsUnion(m, B, multiset(c));
    if !SatBag(m, multiset(c)) {
      var m' := Assign(m, c[0]);
      forall d | d in B ensures SatBag(m', d) {
        if Neg(c[0]) in d {
          RatFlip(B, c, d, m);
        } else {
          assert SatBag(m, d);
          var l :| l in d && Holds(m, l);
          assert Holds(m', l);
        }
      }
      assert c[0] in multiset(c) && Holds(m', c[0]);
      SatBagsUnion(m', B, multiset(c));
    }
  }

  // ---------- the order of the starting literals does not matter ----------

  lemma ForcedMore(B: set<LitBag>, t: seq<Lit>, t': seq<Lit>, l: Lit)
    requires Forced(B, t, l) && forall x :: x in t ==> x in t'
    ensures Forced(B, t', l)
  {
    var d :| d in B && Forces(d, t, l);
    assert Forces(d, t', l);
  }

  lemma UnitConflictReordered(B: set<LitBag>, a: seq<Lit>, a': seq<Lit>)
    requires UnitConflict(B, a) && forall x :: x in a ==> x in a'
    ensures UnitConflict(B, a')
  {
    var t :| a <= t && Derivation(B, |a|, t) && SomeFalsified(B, t);
    var t' := a' + t[|a|..];
    forall i | |a'| <= i < |t'| ensures Forced(B, t'[..i], t'[i]) {
      var k := |a| + i - |a'|;
      assert t'[i] == t[k];
      forall x | x in t[..k] ensures x in t'[..i] {
        var n :| 0 <= n < k && t[n] == x;
        PrefixMember(a, a', t, t', n, i);
      }
      ForcedMore(B, t[..k], t'[..i], t[k]);
    }
    var d :| d in B && Falsified(d, t);
    forall x | x in d ensures Neg(x) in t' {
      var n :| 0 <= n < |t| && t[n] == Neg(x);
      PrefixMember(a, a', t, t', n, |t'|);
      assert t'[..|t'|] == t';
    }
    assert Falsified(d, t');
    assert a' <= t' && Derivation(B, |a'|, t');
  }

  lemma PrefixMember(a: seq<Lit>, a': seq<Lit>, t: seq<Lit>, t': seq<Lit>, n: nat, i: nat)
    requires a <= t && t' == a' + t[|a|..] && n < |t| && |a'| <= i <= |t'| && (n < |a| || n - |a| + |a'| < i)
    requires forall x :: x in a ==> x in a'
    ensures t[n] in t'[..i]
  {
    if n < |a| {
      assert t[n] == a[n] && a[n] in a;
      var k :| 0 <= k < |a'| && a'[k] == t[n];
      assert t'[..i][k] == t[n];
    } else {
      assert t'[..i][n - |a| + |a'|] == t[n];
    }
  }

  lemma RupSameLits(B: set<LitBag>, r: Clause, r': Clause)
    requires Rup(B, r) && forall l :: l in r <==> l in r'
    ensures Rup(B, r')
  {
    if !Tautology(r') {
      forall x | x in Complements(r) ensures x in Complements(r') {
        var i :| 0 <= i < |r| && Complements(r)[i] == x;
        assert r[i] in r';
        var k :| 0 <= k < |r'| && r'[k] == r[i];
        assert Complements(r')[k] == x;
      }
      UnitConflictReordered(B, Complements(r), Complements(r'));
    }
  }

  // ---------- repeated literals ----------

  // The clause without repetitions.
  function Support(d: LitBag): (r: LitBag)
    ensures forall l :: l in r <==> l in d
    ensures forall l :: r[l] <= 1
  {
    multiset(set l | l in d)
  }

  ghost function Supports(B: set<LitBag>): set<LitBag> {
    set d | d in B :: Support(d)
  }

  // Repetitions hide units, so that propagation finds fewer conflicts, if anything.
  lemma RepeatsOnlyHide(B: set<LitBag>, a: seq<Lit>)
    requires UnitConflict(B, a)
    ensures UnitConflict(Supports(B), a)
  {
    hide Support;
    var t :| a <= t && Derivation(B, |a|, t) && SomeFalsified(B, t);
    forall i | |a| <= i < |t| ensures Forced(Supports(B), t[..i], t[i]) {
      var d :| d in B && Forces(d, t[..i], t[i]);
      assert t[i] in Support(d) && Support(d)[t[i]] <= 1;
      assert Support(d) in Supports(B) && Forces(Support(d), t[..i], t[i]);
    }
    var d :| d in B && Falsified(d, t);
    assert Support(d) in Supports(B) && Falsified(Support(d), t);
    assert Derivation(Supports(B), |a|, t) && SomeFalsified(Supports(B), t);
  }

  // Without repetitions it is the propagation on sets of literals.
  lemma NoRepeatsNoDifference(B: set<LitBag>)
    requires forall d, l :: d in B ==> d[l] <= 1
    ensures Supports(B) == B
  {
    forall d | d in B ensures Support(d) == d {
      forall l ensures Support(d)[l] == d[l] {
        assert l in Support(d) <==> l in d;
      }
    }
  }

  // x or x, not x or not x: no unit is seen.
  lemma RepeatsHideConflict(x: Lit)
    ensures var B := {multiset{x, x}, multiset{Neg(x), Neg(x)}};
      !UnitConflict(B, []) && UnitConflict(Supports(B), []) && !HasModel(B)
  {
    hide Support, UnitConflict;
    var p, n: LitBag := multiset{x, x}, multiset{Neg(x), Neg(x)};
    TwiceFree(x);
    TwiceFree(Neg(x));
    ClosedNoConflict({p, n}, [], []);
    SinglesConflict(Supports({p, n}), Support(p), Support(n), x);
    forall m: Model ensures !SatBag(m, p) || !SatBag(m, n) {}
    forall m: Model ensures !SatBags(m, {p, n}) {
      assert p in {p, n} && n in {p, n};
    }
  }

  lemma TwiceFree(x: Lit)
    ensures TwoFree(multiset{x, x}, [])
  {
    var d: LitBag := multiset{x, x};
    assert x in d && d[x] > 1 && Neg(x) !in [];
  }

  lemma SinglesConflict(B: set<LitBag>, p: LitBag, n: LitBag, x: Lit)
    requires p in B && n in B && p[x] == 1 && (forall l :: l in p <==> l == x) && (forall l :: l in n <==> l == Neg(x))
    ensures UnitConflict(B, [])
  {
    var t := [x];
    assert Neg(Neg(x)) == x;
    assert Forces(p, t[..0], x);
    assert [] <= t && Derivation(B, 0, t) && Falsified(n, t);
    assert SomeFalsified(B, t);
  }
}
