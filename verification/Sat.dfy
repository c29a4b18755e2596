// Literals, clauses, total assignments and satisfaction: the base shared by the
// simplifier, the proof checker and the implication graph.

module Sat {

  datatype Lit = Lit(v: nat, neg: bool)

  // A clause keeps its literals in the order the solver stores them.
  type Clause = seq<Lit>

  // A total assignment. Variables beyond the end of the vector are true, the value
  // with which extendModel fills a vector that is too short.
  type Model = seq<bool>

  function Neg(l: Lit): Lit {
    Lit(l.v, !l.neg)
  }

  // The array index of a literal, by which clauses are sorted.
  function Code(l: Lit): nat {
    2 * l.v + if l.neg then 1 else 0
  }

  predicate Holds(m: Model, l: Lit) {
    (l.v < |m| ==> m[l.v]) != l.neg
  }

  predicate SatClause(m: Model, c: Clause) {
    exists l :: l in c && Holds(m, l)
  }

  predicate SatAll(m: Model, F: set<Clause>) {
    forall c :: c in F ==> SatClause(m, c)
  }

  ghost predicate Satisfiable(F: set<Clause>) {
    exists m: Model :: SatAll(m, F)
  }

  ghost predicate Entails(F: set<Clause>, c: Clause) {
    forall m: Model :: SatAll(m, F) ==> SatClause(m, c)
  }

  function Lits(c: Clause): set<Lit> {
    set l | l in c
  }

  // Clauses of the formula are sorted by literal code, without duplicate or
  // complementary literals.
  predicate Sorted(c: Clause) {
    forall i, j :: 0 <= i < j < |c| ==> Code(c[i]) < Code(c[j])
  }

  predicate Tautology(c: Clause) {
    exists l :: l in c && Neg(l) in c
  }

  predicate Proper(c: Clause) {
    Sorted(c) && !Tautology(c)
  }

  // The assignment that differs from m at most on l's variable and makes l true.
  function Assign(m: Model, l: Lit): (r: Model)
    ensures forall k: Lit {:trigger Holds(r, k)} :: Holds(r, k) <==> if k.v == l.v then k == l else Holds(m, k)
  {
    var wide := if l.v < |m| then m else m + seq(l.v + 1 - |m|, _ => true);
    wide[l.v := !l.neg]
  }

  lemma CodeInjective(a: Lit, b: Lit)
    requires Code(a) == Code(b)
    ensures a == b
  {
  }

  // A clause that survives a flip of p: it either does not contain the literal that
  // becomes false, or another of its literals was already true.
  lemma FlipKeepsClause(m: Model, d: Clause, p: Lit)
    requires SatClause(m, d)
    requires Neg(p) in d ==> exists x :: x in d && x.v != p.v && Holds(m, x)
    ensures SatClause(Assign(m, p), d)
  {
    var x :| x in d && Holds(m, x) && (Neg(p) in d ==> x.v != p.v);
    assert Holds(Assign(m, p), x);
  }

  lemma SatAllUnion(m: Model, F: set<Clause>, G: set<Clause>)
    ensures SatAll(m, F + G) <==> SatAll(m, F) && SatAll(m, G)
  {
    if SatAll(m, F) && SatAll(m, G) {
      forall c | c in F + G ensures SatClause(m, c) {}
    }
  }

  lemma SatAllSingle(m: Model, c: Clause)
    ensures SatAll(m, {c}) <==> SatClause(m, c)
  {
    assert c in {c};
  }
}
