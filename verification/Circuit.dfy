// Gates that are completely encoded in the formula (coprocessor/Circuit.cc).

module Circuit {
  import opened Sat
  import opened Formula
  import opened Collections
  import opened ImplicationGraph
  import Answers = ImplicationAnswers

  // ---------- gates and what they mean ----------

  // And: output <-> conjunction of the inputs. Xor and FaSum: an odd number of the three
  // or four literals is true.
  datatype Gate =
    | And(output: Lit, inputs: seq<Lit>)
    | Xor(a: Lit, b: Lit, c: Lit)
    | FaSum(x: Lit, a: Lit, b: Lit, c: Lit)

  predicate Odd(m: Model, a: Lit, b: Lit, c: Lit) {
    (Holds(m, a) != Holds(m, b)) != Holds(m, c)
  }

  predicate GateHolds(m: Model, g: Gate) {
    match g
    case And(output, inputs) => Holds(m, output) <==> forall i :: 0 <= i < |inputs| ==> Holds(m, inputs[i])
    case Xor(a, b, c) => Odd(m, a, b, c)
    case FaSum(x, a, b, c) => Odd(m, x, a, b) != Holds(m, c)
  }

  // The clauses that the circuit was extracted from.
  datatype Source = Source(ca: seq<Cls>, list: seq<CRef>, n: nat)

  ghost predicate SourceOk(s: Source) {
    && BinariesOk(s.ca, s.list, s.n)
    && forall i :: 0 <= i < |s.list| && !s.ca[s.list[i]].deleted ==> Proper(s.ca[s.list[i]].lits)
  }

  ghost predicate SatSource(m: Model, s: Source) {
    ListInRange(s.ca, s.list) && SatList(m, s.ca, s.list)
  }

  ghost predicate Entailed(s: Source, g: Gate) {
    forall m: Model {:trigger SatSource(m, s)} :: SatSource(m, s) ==> GateHolds(m, g)
  }

  ghost predicate ClauseEntailed(s: Source, c: Clause) {
    forall m: Model {:trigger SatSource(m, s)} :: SatSource(m, s) ==> SatClause(m, c)
  }

  ghost predicate Implied(s: Source, a: Lit, b: Lit) {
    forall m: Model {:trigger SatSource(m, s)} :: SatSource(m, s) && Holds(m, a) ==> Holds(m, b)
  }

  lemma ImpliedClause(s: Source, a: Lit, b: Lit, c: Clause)
    requires Implied(s, a, b) && Neg(a) in c && b in c
    ensures ClauseEntailed(s, c)
  {
    forall m: Model | SatSource(m, s) ensures SatClause(m, c) {
      assert Holds(m, a) || Holds(m, Neg(a));
    }
  }

  lemma LargerClause(s: Source, d: Clause, c: Clause)
    requires ClauseEntailed(s, d) && forall l :: l in d ==> l in c
    ensures ClauseEntailed(s, c)
  {
    forall m: Model | SatSource(m, s) ensures SatClause(m, c) {
      assert SatClause(m, d);
      var l :| l in d && Holds(m, l);
      assert l in c;
    }
  }

  lemma StoredEntailed(s: Source, i: nat)
    requires SourceOk(s) && i < |s.list| && !s.ca[s.list[i]].deleted
    ensures ClauseEntailed(s, s.ca[s.list[i]].lits)
  {
  }

  // ---------- ternary and quaternary clauses ----------

  // The other literals of a clause with three literals.
  datatype Ternary = Ternary(l1: Lit, l2: Lit)

  // The other literals of a clause with four literals, ordered by code.
  datatype Quad = Quad(l1: Lit, l2: Lit, l3: Lit)

  function MakeQuad(a: Lit, b: Lit, c: Lit): (q: Quad)
    ensures Code(q.l1) <= Code(q.l2) <= Code(q.l3)
    ensures multiset{q.l1, q.l2, q.l3} == multiset{a, b, c}
  {
    var (a1, b1) := if Code(a) > Code(b) then (b, a) else (a, b);
    var (b2, c2) := if Code(b1) > Code(c) then (c, b1) else (b1, c);
    var (a3, b3) := if Code(a1) > Code(b2) then (b2, a1) else (a1, b2);
    Quad(a3, b3, c2)
  }

  type Ternaries = map<Lit, seq<Ternary>>
  type Quads = map<Lit, seq<Quad>>

  function TernariesOf(t: Ternaries, l: Lit): seq<Ternary> {
    if l in t then t[l] else []
  }

  function QuadsOf(q: Quads, l: Lit): seq<Quad> {
    if l in q then q[l] else []
  }

  ghost predicate TernaryEntailed(s: Source, l: Lit, t: Ternary) {
    ClauseEntailed(s, [l, t.l1, t.l2])
  }

  ghost predicate QuadEntailed(s: Source, l: Lit, q: Quad) {
    ClauseEntailed(s, [l, q.l1, q.l2, q.l3])
  }

  ghost predicate TernariesOk(s: Source, t: Ternaries) {
    forall l, x :: x in TernariesOf(t, l) ==> TernaryEntailed(s, l, x)
  }

  ghost predicate QuadsOk(s: Source, q: Quads) {
    forall l, x :: x in QuadsOf(q, l) ==> QuadEntailed(s, l, x)
  }

  method AddTernary(ghost s: Source, t: Ternaries, l: Lit, a: Lit, b: Lit) returns (r: Ternaries)
    requires TernariesOk(s, t) && ClauseEntailed(s, [l, a, b])
    ensures TernariesOk(s, r) && TernariesOf(r, l) == TernariesOf(t, l) + [Ternary(a, b)]
    ensures forall k :: k != l ==> TernariesOf(r, k) == TernariesOf(t, k)
  {
    hide ClauseEntailed;
    assert TernaryEntailed(s, l, Ternary(a, b));
    r := t[l := TernariesOf(t, l) + [Ternary(a, b)]];
    hide TernaryEntailed;
    forall k, x | x in TernariesOf(r, k) ensures TernaryEntailed(s, k, x) {
      if k == l { assert x in TernariesOf(t, l) || x == Ternary(a, b); }
    }
  }

  method AddQuad(ghost s: Source, q: Quads, l: Lit, a: Lit, b: Lit, c: Lit) returns (r: Quads)
    requires QuadsOk(s, q) && ClauseEntailed(s, [l, a, b, c])
    ensures QuadsOk(s, r) && QuadsOf(r, l) == QuadsOf(q, l) + [MakeQuad(a, b, c)]
    ensures forall k :: k != l ==> QuadsOf(r, k) == QuadsOf(q, k)
  {
    var quad := MakeQuad(a, b, c);
    QuadLits(a, b, c);
    LargerClause(s, [l, a, b, c], [l, quad.l1, quad.l2, quad.l3]);
    assert QuadEntailed(s, l, quad);
    r := q[l := QuadsOf(q, l) + [quad]];
    hide QuadEntailed, ClauseEntailed, MakeQuad;
    forall k, x | x in QuadsOf(r, k) ensures QuadEntailed(s, k, x) {
      if k == l { assert x in QuadsOf(q, l) || x == quad; }
    }
  }

  lemma QuadLits(a: Lit, b: Lit, c: Lit)
    ensures var q := MakeQuad(a, b, c); forall l :: l in [a, b, c] ==> l in [q.l1, q.l2, q.l3]
  {
  }

  // ---------- queries ----------

  // The graph belongs to the source.
  ghost predicate GraphOk(big: BIG, s: Source)
    reads big, big.sizes, big.big, big.storage
  {
    && SourceOk(s) && big.n == s.n && big.ListsAre(EdgeSet(s.ca, s.list))
    && (big.start == [] || big.Stamped(EdgeSet(s.ca, s.list)))
  }

  lemma ReachImplied(s: Source, a: Lit, b: Lit)
    requires SourceOk(s) && Reach(EdgeSet(s.ca, s.list), a, b)
    ensures Implied(s, a, b)
  {
    forall m: Model | SatSource(m, s) && Holds(m, a) ensures Holds(m, b) {
      ReachHolds(s.ca, s.list, s.n, a, b, m);
    }
  }

  lemma EdgeImplied(s: Source, a: Lit, b: Lit)
    requires SourceOk(s) && (a, b) in EdgeSet(s.ca, s.list)
    ensures Implied(s, a, b)
  {
    ReachRefl(EdgeSet(s.ca, s.list), a);
    ReachStep(EdgeSet(s.ca, s.list), a, a, b);
    ReachImplied(s, a, b);
  }

  // What the graph answers: its edges, and its stamps.
  datatype View = View(edges: Edges, says: Edges)

  ghost function ViewOf(big: BIG, s: Source): View
    reads big
  {
    View(if ListInRange(s.ca, s.list) then EdgeSet(s.ca, s.list) else iset{}, iset a: Lit, b: Lit | big.Says(a, b) :: (a, b))
  }

  ghost predicate Knows(v: View, a: Lit, b: Lit) {
    (a, b) in v.edges || (a, b) in v.says
  }

  method Implies(big: BIG, a: Lit, b: Lit, ghost s: Source) returns (r: bool)
    requires GraphOk(big, s)
    ensures r ==> Implied(s, a, b)
    ensures r <==> (a, b) in ViewOf(big, s).says
  {
    EdgeSetFacts(s.ca, s.list, s.n);
    r := big.Implies(a, b, EdgeSet(s.ca, s.list));
    if r { ReachImplied(s, a, b); }
  }

  method IsChild(big: BIG, a: Lit, b: Lit, ghost s: Source) returns (r: bool)
    requires GraphOk(big, s)
    ensures r ==> Implied(s, a, b)
    ensures r <==> (a, b) in ViewOf(big, s).edges
  {
    r := big.IsChild(a, b, EdgeSet(s.ca, s.list));
    if r { EdgeImplied(s, a, b); }
  }

  method ChildOrImplied(big: BIG, a: Lit, b: Lit, ghost s: Source) returns (r: bool)
    requires GraphOk(big, s)
    ensures r ==> Implied(s, a, b)
    ensures r <==> Knows(ViewOf(big, s), a, b)
  {
    hide Implied, GraphOk;
    r := IsChild(big, a, b, s);
    if !r { r := Implies(big, a, b, s); }
  }

  // isOneChild: is one of the two literals implied directly?
  method IsOneChild(big: BIG, parent: Lit, b: Lit, c: Lit, ghost s: Source) returns (r: bool)
    requires GraphOk(big, s)
    ensures r ==> Implied(s, parent, b) || Implied(s, parent, c)
    ensures r <==> (parent, b) in ViewOf(big, s).edges || (parent, c) in ViewOf(big, s).edges
  {
    hide Implied, GraphOk;
    r := IsChild(big, parent, b, s);
    if !r { r := IsChild(big, parent, c, s); }
  }

  // ---------- AND gates ----------

  ghost predicate AllEntailed(s: Source, gates: seq<Gate>) {
    forall g :: g in gates ==> Entailed(s, g)
  }

  ghost predicate UnitsEntailed(s: Source, units: seq<Lit>) {
    forall u :: u in units ==> ClauseEntailed(s, [u])
  }

  // Marked literals are implied by pos, apart from its complement.
  ghost predicate MarksOk(s: Source, pos: Lit, marks: set<Lit>) {
    forall x :: x in marks ==> x == Neg(pos) || Implied(s, pos, x)
  }

  lemma NoSelfEdge(s: Source, a: Lit)
    requires SourceOk(s)
    ensures (a, a) !in EdgeSet(s.ca, s.list)
  {
    EdgeFromClause(s.ca, s.list, s.n, a, a);
    forall i | 0 <= i < |s.list| && UsesClause(s.ca[s.list[i]]) ensures a !in EdgeOf(s.ca[s.list[i]], a) {
      var c := s.ca[s.list[i]].lits;
      assert Proper(c) && c[0] in c && c[1] in c;
    }
  }

  // If a literal implies x and its complement, its own complement holds.
  lemma ContradictionUnit(s: Source, pos: Lit, x: Lit)
    requires Implied(s, pos, x) && Implied(s, pos, Neg(x))
    ensures ClauseEntailed(s, [Neg(pos)])
  {
    forall m: Model | SatSource(m, s) ensures SatClause(m, [Neg(pos)]) {
      assert Neg(pos) in [Neg(pos)];
    }
  }

  // Marks what pos implies directly; a contradiction yields a unit clause.
  method MarkChildren(big: BIG, pos: Lit, ghost s: Source) returns (marks: set<Lit>, lits: seq<Lit>, contradiction: bool)
    requires GraphOk(big, s)
    ensures MarksOk(s, pos, marks)
    ensures contradiction ==> ClauseEntailed(s, [Neg(pos)]) && lits == []
    ensures contradiction <==> Torn(ViewOf(big, s), pos)
    ensures !contradiction ==> MarksAre(ViewOf(big, s), pos, marks) && ChildrenAre(ViewOf(big, s), pos, lits)
  {
    hide Implied, ClauseEntailed;
    var list := big.Children(pos, EdgeSet(s.ca, s.list));
    marks, lits, contradiction := {Neg(pos)}, [], false;
    var i := 0;
    while i < |list|
      invariant 0 <= i <= |list| && MarksOk(s, pos, marks)
      invariant forall x :: x in marks <==> x == Neg(pos) || x in list[..i]
      invariant NoDup(lits) && forall x :: x in lits <==> x in list[..i] && x != Neg(pos)
      invariant forall x :: x in list[..i] ==> Neg(x) !in list[..i]
    {
      assert list[..i + 1] == list[..i] + [list[i]];
      assert list[i] in list;
      EdgeImplied(s, pos, list[i]);
      if Neg(list[i]) in marks {
        NoSelfEdge(s, pos);
        assert Neg(Neg(list[i])) == list[i] && Neg(Neg(pos)) == pos;
        ContradictionUnit(s, pos, list[i]);
        assert Neg(list[i]) in list[..i] ==> Neg(list[i]) in list;
        return marks, [], true;
      }
      if list[i] !in marks {
        marks := marks + {list[i]};
        lits := lits + [list[i]];
      }
      i := i + 1;
    }
    assert list[..i] == list;
  }

  // pos implies some literal and its complement directly.
  ghost predicate Torn(v: View, pos: Lit) {
    exists x :: (pos, x) in v.edges && (pos, Neg(x)) in v.edges
  }

  ghost predicate MarksAre(v: View, pos: Lit, marks: set<Lit>) {
    forall x :: x in marks <==> x == Neg(pos) || (pos, x) in v.edges
  }

  // The literals that pos implies directly, each once.
  ghost predicate ChildrenAre(v: View, pos: Lit, lits: seq<Lit>) {
    NoDup(lits) && forall x :: x in lits <==> (pos, x) in v.edges && x != Neg(pos)
  }

  // pos implies the complements of the other literals of the clause.
  ghost predicate Follows(v: View, pos: Lit, c: Clause) {
    forall l :: l in c && l != pos ==> Knows(v, pos, Neg(l))
  }

  // The complements of the other literals of a clause.
  function Inputs(c: Clause, output: Lit): (r: seq<Lit>)
    ensures forall l :: l in r <==> Neg(l) in c && Neg(l) != output
  {
    if c == [] then []
    else
      assert Neg(Neg(c[0])) == c[0];
      assert forall l :: Neg(l) == c[0] <==> l == Neg(c[0]) by {
        forall l ensures Neg(l) == c[0] <==> l == Neg(c[0]) { assert Neg(Neg(l)) == l; }
      }
      (if c[0] == output then [] else [Neg(c[0])]) + Inputs(c[1..], output)
  }

  lemma AndEntailed(s: Source, c: Clause, pos: Lit)
    requires ClauseEntailed(s, c) && pos in c && forall l :: l in c && l != pos ==> Implied(s, pos, Neg(l))
    ensures Entailed(s, And(pos, Inputs(c, pos)))
  {
    var ins := Inputs(c, pos);
    forall m: Model | SatSource(m, s) ensures GateHolds(m, And(pos, ins)) {
      if Holds(m, pos) {
        forall i | 0 <= i < |ins| ensures Holds(m, ins[i]) {
          assert ins[i] in ins;
          assert Neg(Neg(ins[i])) == ins[i];
          assert Implied(s, pos, Neg(Neg(ins[i])));
        }
      }
      if forall i :: 0 <= i < |ins| ==> Holds(m, ins[i]) {
        assert SatClause(m, c);
        forall l | l in c && l != pos ensures !Holds(m, l) {
          assert Neg(Neg(l)) == l;
          assert Neg(l) in ins;
          var i :| 0 <= i < |ins| && ins[i] == Neg(l);
        }
      }
    }
  }

  // Every literal of the clause has a complement that is marked or implied.
  method AllImplied(big: BIG, c: Clause, pos: Lit, marks: set<Lit>, ghost s: Source) returns (r: bool)
    requires GraphOk(big, s) && MarksOk(s, pos, marks) && MarksAre(ViewOf(big, s), pos, marks)
    ensures r ==> forall l :: l in c && l != pos ==> Implied(s, pos, Neg(l))
    ensures r <==> Follows(ViewOf(big, s), pos, c)
  {
    hide Implied, GraphOk;
    var j := 0;
    while j < |c|
      invariant 0 <= j <= |c| && forall k :: 0 <= k < j && c[k] != pos ==> Implied(s, pos, Neg(c[k]))
      invariant forall k :: 0 <= k < j && c[k] != pos ==> Knows(ViewOf(big, s), pos, Neg(c[k]))
    {
      assert Neg(c[j]) == Neg(pos) <==> c[j] == pos by { assert Neg(Neg(c[j])) == c[j] && Neg(Neg(pos)) == pos; }
      if Neg(c[j]) in marks {
      } else {
        var implied := Implies(big, pos, Neg(c[j]), s);
        if !implied {
          assert c[j] in c && !Knows(ViewOf(big, s), pos, Neg(c[j]));
          return false;
        }
      }
      j := j + 1;
    }
    r := true;
  }

  // A clause of the list that yields a gate.
  ghost predicate AndFits(v: View, s: Source, pos: Lit, size: nat, i: CRef) {
    i < |s.ca| && !s.ca[i].deleted && 3 <= |s.ca[i].lits| <= size + 1 && Follows(v, pos, s.ca[i].lits)
  }

  // The gates of the clauses that fit, in the order of the list.
  ghost function AndsOf(v: View, s: Source, pos: Lit, size: nat, occ: seq<CRef>): (r: seq<Gate>)
    ensures forall i :: i in occ && AndFits(v, s, pos, size, i) ==> And(pos, Inputs(s.ca[i].lits, pos)) in r
  {
    if occ == [] then []
    else
      var n := |occ| - 1;
      assert occ == occ[..n] + [occ[n]];
      AndsOf(v, s, pos, size, occ[..n]) + if AndFits(v, s, pos, size, occ[n]) then [And(pos, Inputs(s.ca[occ[n]].lits, pos))] else []
  }

  // The same for ternary clauses.
  ghost function TernaryAndsOf(v: View, pos: Lit, list: seq<Ternary>): (r: seq<Gate>)
    ensures forall x :: x in list && Follows(v, pos, [x.l1, x.l2]) ==> And(pos, Inputs([pos, x.l1, x.l2], pos)) in r
  {
    if list == [] then []
    else
      var n := |list| - 1;
      assert list == list[..n] + [list[n]];
      TernaryAndsOf(v, pos, list[..n])
        + if Follows(v, pos, [list[n].l1, list[n].l2]) then [And(pos, Inputs([pos, list[n].l1, list[n].l2], pos))] else []
  }

  // The clauses with pos that are to be tried: they are part of the source.
  ghost predicate OccOk(s: Source, pos: Lit, occ: seq<CRef>) {
    ListInRange(s.ca, s.list) && forall i :: i in occ ==> i in s.list && (!s.ca[i].deleted ==> pos in s.ca[i].lits)
  }

  lemma OccEntailed(s: Source, pos: Lit, occ: seq<CRef>, i: CRef)
    requires SourceOk(s) && OccOk(s, pos, occ) && i in occ && !s.ca[i].deleted
    ensures ClauseEntailed(s, s.ca[i].lits) && pos in s.ca[i].lits
  {
    var k :| 0 <= k < |s.list| && s.list[k] == i;
    StoredEntailed(s, k);
  }

  lemma OneMoreGate(s: Source, gates: seq<Gate>, g: Gate)
    requires AllEntailed(s, gates) && Entailed(s, g)
    ensures AllEntailed(s, gates + [g])
  {
  }

  // getANDGates for one polarity: clauses of any size, or only ternary ones.
  method AndGatesOf(big: BIG, s: Source, pos: Lit, genAnd: bool, occ: seq<CRef>, t: Ternaries, gates: seq<Gate>)
    returns (r: seq<Gate>, units: seq<Lit>, ghost children: seq<Lit>)
    requires GraphOk(big, s) && OccOk(s, pos, occ) && TernariesOk(s, t) && AllEntailed(s, gates)
    ensures AllEntailed(s, r) && gates <= r && UnitsEntailed(s, units)
    ensures AndsAre(ViewOf(big, s), s, pos, genAnd, occ, t, gates, r, units, children)
  {
    hide ClauseEntailed, Entailed, Implied, MarksOk, TernaryEntailed, AllEntailed, GraphOk, Torn, MarksAre, ChildrenAre;
    r, units := gates, [];
    var marks, lits, contradiction := MarkChildren(big, pos, s);
    children := lits;
    if contradiction { units := [Neg(pos)]; }
    if |lits| > 1 {
      if genAnd {
        r := GeneralAnds(big, s, pos, occ, marks, |lits|, gates);
      } else {
        r := TernaryAnds(big, s, pos, TernariesOf(t, pos), marks, gates);
      }
    }
  }

  // All gates with this output, or a unit if the output implies a contradiction.
  ghost predicate AndsAre(v: View, s: Source, pos: Lit, genAnd: bool, occ: seq<CRef>, t: Ternaries, gates: seq<Gate>,
                          r: seq<Gate>, units: seq<Lit>, children: seq<Lit>) {
    if Torn(v, pos) then r == gates && units == [Neg(pos)]
    else
      && units == [] && ChildrenAre(v, pos, children)
      && r == gates + if |children| <= 1 then []
                      else if genAnd then AndsOf(v, s, pos, |children|, occ) else TernaryAndsOf(v, pos, TernariesOf(t, pos))
  }

  method GeneralAnds(big: BIG, s: Source, pos: Lit, occ: seq<CRef>, marks: set<Lit>, size: nat, gates: seq<Gate>) returns (r: seq<Gate>)
    requires GraphOk(big, s) && OccOk(s, pos, occ) && MarksOk(s, pos, marks) && AllEntailed(s, gates)
    requires MarksAre(ViewOf(big, s), pos, marks)
    ensures AllEntailed(s, r) && gates <= r
    ensures r == gates + AndsOf(ViewOf(big, s), s, pos, size, occ)
  {
    hide ClauseEntailed, Entailed, Implied, MarksOk, AllEntailed, MarksAre, Follows, Inputs;
    r := gates;
    var i := 0;
    while i < |occ|
      invariant 0 <= i <= |occ| && AllEntailed(s, r) && gates <= r
      invariant r == gates + AndsOf(ViewOf(big, s), s, pos, size, occ[..i])
    {
      assert occ[i] in occ;
      assert occ[..i + 1][..i] == occ[..i];
      var c := s.ca[occ[i]];
      if !c.deleted && 3 <= |c.lits| <= size + 1 {
        var all := AllImplied(big, c.lits, pos, marks, s);
        if all {
          OccEntailed(s, pos, occ, occ[i]);
          AndEntailed(s, c.lits, pos);
          OneMoreGate(s, r, And(pos, Inputs(c.lits, pos)));
          r := r + [And(pos, Inputs(c.lits, pos))];
        }
      }
      i := i + 1;
    }
    assert occ[..i] == occ;
  }

  method TernaryAnds(big: BIG, s: Source, pos: Lit, list: seq<Ternary>, marks: set<Lit>, gates: seq<Gate>) returns (r: seq<Gate>)
    requires GraphOk(big, s) && MarksOk(s, pos, marks) && AllEntailed(s, gates)
    requires MarksAre(ViewOf(big, s), pos, marks)
    requires forall x :: x in list ==> TernaryEntailed(s, pos, x)
    ensures AllEntailed(s, r) && gates <= r
    ensures r == gates + TernaryAndsOf(ViewOf(big, s), pos, list)
  {
    hide ClauseEntailed, Entailed, Implied, MarksOk, AllEntailed, MarksAre, Follows, Inputs;
    r := gates;
    var i := 0;
    while i < |list|
      invariant 0 <= i <= |list| && AllEntailed(s, r) && gates <= r
      invariant r == gates + TernaryAndsOf(ViewOf(big, s), pos, list[..i])
    {
      assert list[..i + 1][..i] == list[..i];
      assert TernaryEntailed(s, pos, list[i]);
      var c := [pos, list[i].l1, list[i].l2];
      var all := AllImplied(big, [list[i].l1, list[i].l2], pos, marks, s);
      if all {
        TernaryGate(s, pos, list[i].l1, list[i].l2);
        OneMoreGate(s, r, And(pos, Inputs(c, pos)));
        r := r + [And(pos, Inputs(c, pos))];
      }
      i := i + 1;
    }
    assert list[..i] == list;
  }

  lemma TernaryGate(s: Source, pos: Lit, l1: Lit, l2: Lit)
    requires ClauseEntailed(s, [pos, l1, l2]) && forall l :: l in [l1, l2] && l != pos ==> Implied(s, pos, Neg(l))
    ensures Entailed(s, And(pos, Inputs([pos, l1, l2], pos)))
  {
    AndEntailed(s, [pos, l1, l2], pos);
  }

  // ---------- XOR gates ----------

  // The four clauses of a parity constraint over three literals.
  lemma XorEntailed(s: Source, a: Lit, b: Lit, c: Lit)
    requires ClauseEntailed(s, [a, b, c]) && ClauseEntailed(s, [a, Neg(b), Neg(c)])
    requires ClauseEntailed(s, [Neg(a), Neg(b), c]) && ClauseEntailed(s, [Neg(a), b, Neg(c)])
    ensures Entailed(s, Xor(b, c, a))
  {
    forall m: Model | SatSource(m, s) ensures Odd(m, b, c, a) {
      Three(m, a, b, c);
      Three(m, a, Neg(b), Neg(c));
      Three(m, Neg(a), Neg(b), c);
      Three(m, Neg(a), b, Neg(c));
    }
  }

  lemma Three(m: Model, a: Lit, b: Lit, c: Lit)
    ensures SatClause(m, [a, b, c]) <==> Holds(m, a) || Holds(m, b) || Holds(m, c)
  {
    assert a in [a, b, c] && b in [a, b, c] && c in [a, b, c];
  }

  // A ternary clause with the literals x and y.
  predicate HasBoth(t: Ternary, x: Lit, y: Lit) {
    (t.l1 == x || t.l2 == x) && (t.l1 == y || t.l2 == y)
  }

  lemma BothEntailed(s: Source, a: Lit, t: Ternary, x: Lit, y: Lit)
    requires TernaryEntailed(s, a, t) && HasBoth(t, x, y) && x != y
    ensures ClauseEntailed(s, [a, x, y])
  {
    LargerClause(s, [a, t.l1, t.l2], [a, x, y]);
  }

  ghost predicate HoldsBoth(list: seq<Ternary>, from: nat, x: Lit, y: Lit) {
    exists j :: from <= j < |list| && HasBoth(list[j], x, y)
  }

  method FindBoth(list: seq<Ternary>, from: nat, a: Lit, x: Lit, y: Lit, ghost s: Source) returns (found: bool)
    requires from <= |list| && x != y && forall t :: t in list ==> TernaryEntailed(s, a, t)
    ensures found ==> ClauseEntailed(s, [a, x, y])
    ensures found <==> HoldsBoth(list, from, x, y)
  {
    hide ClauseEntailed, TernaryEntailed;
    var j := from;
    while j < |list|
      invariant from <= j <= |list| && forall k :: from <= k < j ==> !HasBoth(list[k], x, y)
    {
      if HasBoth(list[j], x, y) {
        BothEntailed(s, a, list[j], x, y);
        return true;
      }
      j := j + 1;
    }
    found := false;
  }

  // What the search for one clause of a gate says: found, not found, or give up the
  // remaining candidates (the code leaves its loop when it only finds a direct edge).
  datatype Search = Found | Missing | Leave

  // The clause {a, b, c} in the form of an implication: from ~a to b or c, or from ~b to c.
  method SearchBinary(big: BIG, a: Lit, b: Lit, c: Lit, ghost s: Source) returns (r: Search)
    requires GraphOk(big, s)
    ensures r == Found ==> ClauseEntailed(s, [a, b, c])
    ensures r == ByGraph(ViewOf(big, s), a, b, c)
  {
    hide ClauseEntailed, Implied, GraphOk;
    NegNeg(a);
    NegNeg(b);
    var first := Implies(big, Neg(a), b, s);
    var second := false;
    if !first { second := Implies(big, Neg(a), c, s); }
    if first || second {
      ImpliedClause(s, Neg(a), if first then b else c, [a, b, c]);
      return Found;
    }
    var child := IsOneChild(big, Neg(a), b, c, s);
    if child { return Leave; }
    var third := Implies(big, Neg(b), c, s);
    if third {
      ImpliedClause(s, Neg(b), c, [a, b, c]);
      return Found;
    }
    child := IsChild(big, Neg(b), c, s);
    r := if child then Leave else Missing;
  }

  // Stamps are asked before edges; an edge that the stamps do not know ends the search.
  ghost function ByGraph(v: View, a: Lit, b: Lit, c: Lit): Search {
    if (Neg(a), b) in v.says || (Neg(a), c) in v.says then Found
    else if (Neg(a), b) in v.edges || (Neg(a), c) in v.edges then Leave
    else if (Neg(b), c) in v.says then Found
    else if (Neg(b), c) in v.edges then Leave
    else Missing
  }

  lemma NegNeg(a: Lit)
    ensures Neg(Neg(a)) == a
  {
  }

  method SearchClause(big: BIG, list: seq<Ternary>, from: nat, a: Lit, b: Lit, c: Lit, ghost s: Source) returns (r: Search)
    requires GraphOk(big, s) && from <= |list| && b != c && forall t :: t in list ==> TernaryEntailed(s, a, t)
    ensures r == Found ==> ClauseEntailed(s, [a, b, c])
    ensures r == if HoldsBoth(list, from, b, c) then Found else ByGraph(ViewOf(big, s), a, b, c)
  {
    hide GraphOk, ClauseEntailed, TernaryEntailed, ByGraph;
    var found := FindBoth(list, from, a, b, c, s);
    if found {
      r := Found;
    } else {
      r := SearchBinary(big, a, b, c, s);
    }
  }

  // One candidate clause {a, b, c}, number i in the list of a: the other three clauses
  // of the gate have to be found.
  method CheckXor(big: BIG, t: Ternaries, a: Lit, i: nat, ghost s: Source) returns (r: Search, gate: Gate)
    requires GraphOk(big, s) && TernariesOk(s, t) && i < |TernariesOf(t, a)|
    ensures gate.Xor? && (r == Found ==> Entailed(s, gate))
    ensures r == XorAt(ViewOf(big, s), t, a, i) && gate == Xor(TernariesOf(t, a)[i].l1, TernariesOf(t, a)[i].l2, a)
  {
    hide ClauseEntailed, Entailed, TernaryEntailed, GraphOk, HoldsBoth, ByGraph;
    var list := TernariesOf(t, a);
    var b, c := list[i].l1, list[i].l2;
    gate := Xor(b, c, a);
    if b.v == c.v || b.v == a.v || a.v == c.v { return Missing, gate; }
    assert list[i] in list;
    TernaryIs(s, a, list[i]);
    r := SearchClause(big, list, i + 1, a, Neg(b), Neg(c), s);
    if r != Found { return; }
    r := SearchClause(big, TernariesOf(t, Neg(a)), 0, Neg(a), Neg(b), c, s);
    if r != Found { return; }
    r := SearchClause(big, TernariesOf(t, Neg(a)), 0, Neg(a), b, Neg(c), s);
    if r != Found { return; }
    XorEntailed(s, a, b, c);
    if !(a.v < c.v && a.v < b.v) { r := Missing; }
  }

  ghost function SearchAt(v: View, list: seq<Ternary>, from: nat, a: Lit, b: Lit, c: Lit): Search {
    if HoldsBoth(list, from, b, c) then Found else ByGraph(v, a, b, c)
  }

  // The result for entry i of the list of a: the second clause of the gate is looked for
  // behind the entry, the other two among the clauses with the complement.
  ghost function XorAt(v: View, t: Ternaries, a: Lit, i: nat): Search
    requires i < |TernariesOf(t, a)|
  {
    var b, c, others := TernariesOf(t, a)[i].l1, TernariesOf(t, a)[i].l2, TernariesOf(t, Neg(a));
    if b.v == c.v || b.v == a.v || a.v == c.v then Missing
    else if SearchAt(v, TernariesOf(t, a), i + 1, a, Neg(b), Neg(c)) != Found then
      SearchAt(v, TernariesOf(t, a), i + 1, a, Neg(b), Neg(c))
    else if SearchAt(v, others, 0, Neg(a), Neg(b), c) != Found then SearchAt(v, others, 0, Neg(a), Neg(b), c)
    else if SearchAt(v, others, 0, Neg(a), b, Neg(c)) != Found then SearchAt(v, others, 0, Neg(a), b, Neg(c))
    else if a.v < c.v && a.v < b.v then Found
    else Missing
  }

  // The gates from entry i on, up to the first entry that ends the search.
  ghost function XorsFrom(v: View, t: Ternaries, a: Lit, i: nat): seq<Gate>
    requires i <= |TernariesOf(t, a)|
    decreases |TernariesOf(t, a)| - i
  {
    if i == |TernariesOf(t, a)| || XorAt(v, t, a, i) == Leave then []
    else
      (if XorAt(v, t, a, i) == Found then [Xor(TernariesOf(t, a)[i].l1, TernariesOf(t, a)[i].l2, a)] else [])
        + XorsFrom(v, t, a, i + 1)
  }

  lemma TernaryIs(s: Source, a: Lit, t: Ternary)
    requires TernaryEntailed(s, a, t)
    ensures ClauseEntailed(s, [a, t.l1, t.l2])
  {
  }

  method XorGatesOf(big: BIG, t: Ternaries, a: Lit, gates: seq<Gate>, ghost s: Source) returns (r: seq<Gate>)
    requires GraphOk(big, s) && TernariesOk(s, t) && AllEntailed(s, gates)
    ensures AllEntailed(s, r) && gates <= r
    ensures r == gates + XorsFrom(ViewOf(big, s), t, a, 0)
  {
    hide Entailed, AllEntailed, TernariesOk, GraphOk, XorAt;
    r := gates;
    var i := 0;
    while i < |TernariesOf(t, a)|
      invariant 0 <= i <= |TernariesOf(t, a)| && AllEntailed(s, r) && gates <= r
      invariant gates + XorsFrom(ViewOf(big, s), t, a, 0) == r + XorsFrom(ViewOf(big, s), t, a, i)
    {
      var found, gate := CheckXor(big, t, a, i, s);
      if found == Leave { return; }
      if found == Found {
        OneMoreGate(s, r, gate);
        r := r + [gate];
      }
      i := i + 1;
    }
  }

  // ---------- redundant and contradictory gates ----------

  // Two XOR gates over the same variables, or two sum gates with the variables in the
  // same order.
  predicate SameVariables(g: Gate, h: Gate) {
    match (g, h)
    case (Xor(a, b, c), Xor(d, e, f)) => a.v == d.v && ((b.v == e.v && c.v == f.v) || (c.v == e.v && b.v == f.v))
    case (FaSum(x, a, b, c), FaSum(y, d, e, f)) => x.v == y.v && a.v == d.v && b.v == e.v && c.v == f.v
    case _ => false
  }

  predicate Polarity(g: Gate)
    requires g.Xor? || g.FaSum?
  {
    match g
    case Xor(a, b, c) => (a.neg != b.neg) != c.neg
    case FaSum(x, a, b, c) => (a.neg != b.neg) != (c.neg != x.neg)
  }

  // The variable of the literal is true.
  predicate VarTrue(m: Model, l: Lit) {
    Holds(m, Lit(l.v, false))
  }

  lemma HoldsByVar(m: Model, l: Lit)
    ensures Holds(m, l) <==> VarTrue(m, l) != l.neg
  {
  }

  // Gates over the same variables say the same, or the opposite of each other.
  lemma SamePolarity(m: Model, g: Gate, h: Gate)
    requires SameVariables(g, h)
    ensures Polarity(g) == Polarity(h) ==> (GateHolds(m, g) <==> GateHolds(m, h))
    ensures Polarity(g) != Polarity(h) ==> !(GateHolds(m, g) && GateHolds(m, h))
  {
    match (g, h) {
      case (Xor(a, b, c), Xor(d, e, f)) =>
        HoldsByVar(m, a); HoldsByVar(m, b); HoldsByVar(m, c);
        HoldsByVar(m, d); HoldsByVar(m, e); HoldsByVar(m, f);
      case (FaSum(x, a, b, c), FaSum(y, d, e, f)) =>
        HoldsByVar(m, x); HoldsByVar(m, a); HoldsByVar(m, b); HoldsByVar(m, c);
        HoldsByVar(m, y); HoldsByVar(m, d); HoldsByVar(m, e); HoldsByVar(m, f);
    }
  }

  ghost predicate NoSourceModel(s: Source) {
    forall m: Model :: !SatSource(m, s)
  }

  // Two entailed gates over the same variables with opposite parity: the formula fails.
  lemma OppositeGatesFail(s: Source, g: Gate, h: Gate)
    requires Entailed(s, g) && Entailed(s, h) && SameVariables(g, h) && Polarity(g) != Polarity(h)
    ensures NoSourceModel(s)
  {
    forall m: Model ensures !SatSource(m, s) {
      SamePolarity(m, g, h);
    }
  }

  // Every gate of a comes from b or says what a gate that is still there says.
  ghost predicate SameMeaning(m: Model, a: seq<Gate>, b: seq<Gate>) {
    (forall g :: g in a ==> GateHolds(m, g)) <==> (forall g :: g in b ==> GateHolds(m, g))
  }

  ghost predicate Distinct(gates: seq<Gate>, from: nat, to: nat) {
    forall p, q :: from <= p < q < to && q < |gates| ==> !SameVariables(gates[p], gates[q])
  }

  lemma DropGate(s: Source, gates: seq<Gate>, first: nat, i: nat)
    requires first <= i < |gates| && AllEntailed(s, gates)
    ensures AllEntailed(s, SwapRemove(gates, i)) && |SwapRemove(gates, i)| == |gates| - 1
    ensures SwapRemove(gates, i)[..first] == gates[..first]
    ensures Distinct(gates, first, i) ==> Distinct(SwapRemove(gates, i), first, i)
    ensures forall g :: g in SwapRemove(gates, i) ==> g in gates
  {
    var r := SwapRemove(gates, i);
    assert forall k :: 0 <= k < |r| ==> r[k] == if k == i then gates[|gates| - 1] else gates[k];
    forall g | g in r ensures g in gates {
      var k :| 0 <= k < |r| && r[k] == g;
    }
  }

  // What a gate says is still said after an equivalent one has been dropped.
  lemma DropKeepsMeaning(m: Model, gates: seq<Gate>, i: nat, j: nat)
    requires j < i < |gates| && SameVariables(gates[i], gates[j]) && Polarity(gates[i]) == Polarity(gates[j])
    ensures SameMeaning(m, gates, SwapRemove(gates, i))
  {
    var r := SwapRemove(gates, i);
    assert forall k :: 0 <= k < |r| ==> r[k] == if k == i then gates[|gates| - 1] else gates[k];
    SamePolarity(m, gates[i], gates[j]);
    if forall g :: g in r ==> GateHolds(m, g) {
      assert r[j] in r;
      forall g | g in gates ensures GateHolds(m, g) {
        var k :| 0 <= k < |gates| && gates[k] == g;
        if k == |gates| - 1 && k != i { assert r[i] == g && r[i] in r; }
        else if k != i { assert r[k] in r; }
      }
    }
    if forall g :: g in gates ==> GateHolds(m, g) {
      forall g | g in r ensures GateHolds(m, g) {
        var k :| 0 <= k < |r| && r[k] == g;
        assert gates[if k == i then |gates| - 1 else k] in gates;
      }
    }
  }

  // A gate that repeats an earlier new one is dropped; a gate that contradicts an earlier
  // one shows that the formula has no model.
  method RemoveRedundant(gates: seq<Gate>, oldGates: nat, ghost s: Source) returns (r: seq<Gate>, failed: bool)
    requires oldGates <= |gates| && AllEntailed(s, gates)
    ensures AllEntailed(s, r) && oldGates <= |r| && r[..oldGates] == gates[..oldGates]
    ensures failed ==> NoSourceModel(s)
    ensures failed <==> Contradiction(gates, oldGates)
    ensures !failed ==> Distinct(r, oldGates, |r|)
    ensures forall k :: oldGates <= k < |gates| ==> Represented(gates[k], r, oldGates)
    ensures forall m: Model {:trigger SameMeaning(m, gates, r)} :: SameMeaning(m, gates, r)
  {
    hide Entailed, SameVariables, GateHolds, SwapRemove, Represented, Contradiction, Subset;
    r, failed := gates, false;
    SubsetRefl(gates, oldGates);
    AllRepresented(gates, oldGates);
    var i := oldGates + 1;
    while i < |r|
      invariant oldGates < i && AllEntailed(s, r) && oldGates <= |r| && r[..oldGates] == gates[..oldGates]
      invariant Distinct(r, oldGates, i)
      invariant forall k :: oldGates <= k < |gates| ==> Represented(gates[k], r, oldGates)
      invariant Subset(r, gates, oldGates)
      invariant forall m: Model {:trigger SameMeaning(m, gates, r)} :: SameMeaning(m, gates, r)
      decreases 2 * |r| - i
    {
      var j := oldGates;
      while j < i && !SameVariables(r[i], r[j])
        invariant oldGates <= j <= i && forall k :: oldGates <= k < j ==> !SameVariables(r[i], r[k])
      {
        j := j + 1;
      }
      if j == i {
        NextDistinct(r, oldGates, i);
        i := i + 1;
      } else {
        assert r[i] in r && r[j] in r;
        SameKind(r[i], r[j]);
        if Polarity(r[i]) == Polarity(r[j]) {
          DropGate(s, r, oldGates, i);
          MeaningStays(gates, r, i, j);
          forall k | oldGates <= k < |gates| ensures Represented(gates[k], SwapRemove(r, i), oldGates) {
            StaysRepresented(gates[k], r, oldGates, i, j);
          }
          SubsetDrop(r, gates, oldGates, i);
          r := SwapRemove(r, i);
        } else {
          OppositeGatesFail(s, r[i], r[j]);
          FoundContradiction(r, gates, oldGates, i, j);
          failed := true;
          return;
        }
      }
    }
    NoContradiction(gates, r, oldGates);
  }

  // Two of the new gates have the same variables and opposite polarity.
  ghost predicate Contradiction(gates: seq<Gate>, from: nat) {
    exists p, q :: from <= p < |gates| && from <= q < |gates| && Opposite(gates[p], gates[q])
  }

  ghost predicate Opposite(g: Gate, h: Gate) {
    SameVariables(g, h) && (g.Xor? || g.FaSum?) && (h.Xor? || h.FaSum?) && Polarity(g) != Polarity(h)
  }

  ghost predicate Subset(r: seq<Gate>, gates: seq<Gate>, from: nat) {
    forall k :: from <= k < |r| ==> IsAt(gates, from, r[k])
  }

  ghost predicate IsAt(gates: seq<Gate>, from: nat, g: Gate) {
    exists p :: from <= p < |gates| && gates[p] == g
  }

  lemma SubsetRefl(gates: seq<Gate>, from: nat)
    ensures Subset(gates, gates, from)
  {
    forall k | from <= k < |gates| ensures IsAt(gates, from, gates[k]) {
      var g := gates[k];
      assert gates[k] == g;
    }
  }

  lemma SubsetDrop(r: seq<Gate>, gates: seq<Gate>, from: nat, i: nat)
    requires from <= i < |r| && Subset(r, gates, from)
    ensures Subset(SwapRemove(r, i), gates, from)
  {
    var now := SwapRemove(r, i);
    assert forall k :: 0 <= k < |now| ==> now[k] == if k == i then r[|r| - 1] else r[k];
  }

  lemma FoundContradiction(r: seq<Gate>, gates: seq<Gate>, from: nat, i: nat, j: nat)
    requires from <= i < |r| && from <= j < |r| && Subset(r, gates, from) && Opposite(r[i], r[j])
    ensures Contradiction(gates, from)
  {
    assert IsAt(gates, from, r[i]) && IsAt(gates, from, r[j]);
    var p :| from <= p < |gates| && gates[p] == r[i];
    var q :| from <= q < |gates| && gates[q] == r[j];
    assert Opposite(gates[p], gates[q]);
  }

  // Distinct gates represent nothing contradictory.
  lemma NoContradiction(gates: seq<Gate>, r: seq<Gate>, from: nat)
    requires Distinct(r, from, |r|) && forall k :: from <= k < |gates| ==> Represented(gates[k], r, from)
    ensures !Contradiction(gates, from)
  {
    forall p, q | from <= p < |gates| && from <= q < |gates| ensures !Opposite(gates[p], gates[q]) {
      assert Represented(gates[p], r, from) && Represented(gates[q], r, from);
      var k :| from <= k < |r| && SameGate(gates[p], r[k]);
      var m :| from <= m < |r| && SameGate(gates[q], r[m]);
      if Opposite(gates[p], gates[q]) {
        OppositeRepresented(gates[p], gates[q], r[k], r[m]);
        SymmetricVariables(r[k], r[m]);
      }
    }
  }

  lemma OppositeRepresented(g: Gate, h: Gate, g': Gate, h': Gate)
    requires Opposite(g, h) && SameGate(g, g') && SameGate(h, h')
    ensures SameVariables(g', h') && g' != h'
  {
  }

  // The same parity constraint over the same variables.
  ghost predicate SameGate(g: Gate, h: Gate) {
    g == h || (SameVariables(g, h) && (g.Xor? || g.FaSum?) && (h.Xor? || h.FaSum?) && Polarity(g) == Polarity(h))
  }

  ghost predicate Represented(g: Gate, r: seq<Gate>, from: nat) {
    exists k :: from <= k < |r| && SameGate(g, r[k])
  }

  lemma AllRepresented(gates: seq<Gate>, from: nat)
    ensures forall k :: from <= k < |gates| ==> Represented(gates[k], gates, from)
  {
    forall k | from <= k < |gates| ensures Represented(gates[k], gates, from) {
      assert SameGate(gates[k], gates[k]);
    }
  }

  lemma SameGateTrans(g: Gate, h: Gate, k: Gate)
    requires SameGate(g, h) && SameGate(h, k)
    ensures SameGate(g, k)
  {
  }

  lemma StaysRepresented(g: Gate, r: seq<Gate>, from: nat, i: nat, j: nat)
    requires from <= j < i < |r| && Represented(g, r, from) && SameVariables(r[i], r[j])
    requires (r[i].Xor? || r[i].FaSum?) && (r[j].Xor? || r[j].FaSum?) && Polarity(r[i]) == Polarity(r[j])
    ensures Represented(g, SwapRemove(r, i), from)
  {
    var now := SwapRemove(r, i);
    var k :| from <= k < |r| && SameGate(g, r[k]);
    assert forall m :: 0 <= m < |now| ==> now[m] == if m == i then r[|r| - 1] else r[m];
    if k == i {
      assert SameGate(r[i], r[j]);
      SameGateTrans(g, r[i], r[j]);
      hide SameGate;
      assert SameGate(g, now[j]);
    } else if k == |r| - 1 {
      assert SameGate(g, now[i]);
    } else {
      assert SameGate(g, now[k]);
    }
  }

  lemma SameKind(g: Gate, h: Gate)
    requires SameVariables(g, h)
    ensures (g.Xor? || g.FaSum?) && (h.Xor? || h.FaSum?)
  {
  }

  lemma NextDistinct(gates: seq<Gate>, from: nat, i: nat)
    requires i < |gates| && Distinct(gates, from, i) && forall k :: from <= k < i ==> !SameVariables(gates[i], gates[k])
    ensures Distinct(gates, from, i + 1)
  {
    forall k | from <= k < i ensures !SameVariables(gates[k], gates[i]) {
      SymmetricVariables(gates[i], gates[k]);
    }
  }

  lemma SymmetricVariables(g: Gate, h: Gate)
    ensures SameVariables(g, h) <==> SameVariables(h, g)
  {
  }

  lemma MeaningStays(gates: seq<Gate>, r: seq<Gate>, i: nat, j: nat)
    requires forall m: Model {:trigger SameMeaning(m, gates, r)} :: SameMeaning(m, gates, r)
    requires j < i < |r| && SameVariables(r[i], r[j]) && Polarity(r[i]) == Polarity(r[j])
    ensures forall m: Model {:trigger SameMeaning(m, gates, SwapRemove(r, i))} :: SameMeaning(m, gates, SwapRemove(r, i))
  {
    forall m: Model ensures SameMeaning(m, gates, SwapRemove(r, i)) {
      assert SameMeaning(m, gates, r);
      DropKeepsMeaning(m, r, i, j);
    }
  }

  // ---------- full adder sum gates ----------

  // The eight clauses of a parity constraint over four literals.
  function SumClause(j: nat, a: Lit, b: Lit, c: Lit, d: Lit): (r: Clause)
    requires j < 8
    ensures |r| == 4
  {
    match j
    case 0 => [a, b, c, d]
    case 1 => [Neg(a), Neg(b), c, d]
    case 2 => [Neg(a), b, Neg(c), d]
    case 3 => [a, Neg(b), Neg(c), d]
    case 4 => [Neg(a), b, c, Neg(d)]
    case 5 => [a, Neg(b), c, Neg(d)]
    case 6 => [a, b, Neg(c), Neg(d)]
    case _ => [Neg(a), Neg(b), Neg(c), Neg(d)]
  }

  lemma Four(m: Model, a: Lit, b: Lit, c: Lit, d: Lit)
    ensures SatClause(m, [a, b, c, d]) <==> Holds(m, a) || Holds(m, b) || Holds(m, c) || Holds(m, d)
  {
    assert a in [a, b, c, d] && b in [a, b, c, d] && c in [a, b, c, d] && d in [a, b, c, d];
  }

  // What has been found so far: each marked clause follows from the formula.
  ghost predicate FoundOk(s: Source, found: seq<bool>, a: Lit, b: Lit, c: Lit, d: Lit) {
    |found| == 8 && forall j :: 0 <= j < 8 && found[j] ==> ClauseEntailed(s, SumClause(j, a, b, c, d))
  }

  lemma SumSat(m: Model, a: Lit, b: Lit, c: Lit, d: Lit)
    requires forall j :: 0 <= j < 8 ==> SatClause(m, SumClause(j, a, b, c, d))
    ensures Odd(m, a, b, c) != Holds(m, d)
  {
    assert SatClause(m, SumClause(0, a, b, c, d)) && SatClause(m, SumClause(1, a, b, c, d));
    assert SatClause(m, SumClause(2, a, b, c, d)) && SatClause(m, SumClause(3, a, b, c, d));
    assert SatClause(m, SumClause(4, a, b, c, d)) && SatClause(m, SumClause(5, a, b, c, d));
    assert SatClause(m, SumClause(6, a, b, c, d)) && SatClause(m, SumClause(7, a, b, c, d));
    Four(m, a, b, c, d);
    Four(m, Neg(a), Neg(b), c, d);
    Four(m, Neg(a), b, Neg(c), d);
    Four(m, a, Neg(b), Neg(c), d);
    Four(m, Neg(a), b, c, Neg(d));
    Four(m, a, Neg(b), c, Neg(d));
    Four(m, a, b, Neg(c), Neg(d));
    Four(m, Neg(a), Neg(b), Neg(c), Neg(d));
  }

  lemma SumEntailed(s: Source, found: seq<bool>, a: Lit, b: Lit, c: Lit, d: Lit)
    requires FoundOk(s, found, a, b, c, d) && forall j :: 0 <= j < 8 ==> found[j]
    ensures Entailed(s, FaSum(a, b, c, d))
  {
    forall m: Model | SatSource(m, s) ensures GateHolds(m, FaSum(a, b, c, d)) {
      forall j | 0 <= j < 8 ensures SatClause(m, SumClause(j, a, b, c, d)) {
        assert ClauseEntailed(s, SumClause(j, a, b, c, d));
      }
      SumSat(m, a, b, c, d);
    }
  }

  // One line of the table of binary clauses: the implication from -> to covers the
  // clauses number j and k.
  datatype Row = Row(from: Lit, to: Lit, j: nat, k: nat)

  function Table(a: Lit, b: Lit, c: Lit, d: Lit): (r: seq<Row>)
    ensures |r| == 24
  {
    [Row(a, d, 1, 2), Row(a, Neg(d), 4, 7), Row(Neg(a), d, 3, 3), Row(Neg(a), Neg(d), 5, 6),
     Row(a, c, 1, 4), Row(a, Neg(c), 2, 7), Row(Neg(a), c, 5, 5), Row(Neg(a), Neg(c), 3, 6),
     Row(a, b, 2, 4), Row(a, Neg(b), 1, 7), Row(Neg(a), b, 6, 6), Row(Neg(a), Neg(b), 3, 5),
     Row(b, d, 1, 3), Row(b, Neg(d), 5, 7), Row(Neg(b), d, 2, 2), Row(Neg(b), Neg(d), 4, 6),
     Row(b, c, 1, 5), Row(b, Neg(c), 3, 7), Row(Neg(b), c, 4, 4), Row(Neg(b), Neg(c), 2, 6),
     Row(c, d, 2, 3), Row(c, Neg(d), 6, 7), Row(Neg(c), d, 1, 1), Row(Neg(c), Neg(d), 4, 5)]
  }

  // A line is right if both clauses contain the implication as a binary clause.
  predicate RowRight(row: Row, a: Lit, b: Lit, c: Lit, d: Lit) {
    && 0 < row.j < 8 && 0 < row.k < 8
    && Neg(row.from) in SumClause(row.j, a, b, c, d) && row.to in SumClause(row.j, a, b, c, d)
    && Neg(row.from) in SumClause(row.k, a, b, c, d) && row.to in SumClause(row.k, a, b, c, d)
  }

  lemma TableRight(a: Lit, b: Lit, c: Lit, d: Lit, i: nat)
    requires i < 24
    ensures RowRight(Table(a, b, c, d)[i], a, b, c, d)
  {
    NegNeg(a);
    NegNeg(b);
    NegNeg(c);
    NegNeg(d);
    if i < 8 { TableFirst(a, b, c, d, i); }
    else if i < 16 { TableSecond(a, b, c, d, i); }
    else { TableThird(a, b, c, d, i); }
  }

  lemma TableFirst(a: Lit, b: Lit, c: Lit, d: Lit, i: nat)
    requires i < 8
    ensures RowRight(Table(a, b, c, d)[i], a, b, c, d)
  {
    NegNeg(a);
    NegNeg(b);
    NegNeg(c);
    NegNeg(d);
  }

  lemma TableSecond(a: Lit, b: Lit, c: Lit, d: Lit, i: nat)
    requires 8 <= i < 16
    ensures RowRight(Table(a, b, c, d)[i], a, b, c, d)
  {
    NegNeg(a);
    NegNeg(b);
    NegNeg(c);
    NegNeg(d);
  }

  lemma TableThird(a: Lit, b: Lit, c: Lit, d: Lit, i: nat)
    requires 16 <= i < 24
    ensures RowRight(Table(a, b, c, d)[i], a, b, c, d)
  {
    NegNeg(a);
    NegNeg(b);
    NegNeg(c);
    NegNeg(d);
  }

  ghost function LineOf(a: Lit, b: Lit, c: Lit, d: Lit, j: nat, x: nat, y: nat): (i: nat)
    requires j < 8 && x < y < 4
    ensures i < 24
  {
    var e := SumClause(j, a, b, c, d);
    PairStart(x, y) + PairLine(e[x].neg == [a, b, c, d][x].neg, e[y].neg == [a, b, c, d][y].neg)
  }

  lemma LineNumbers(a: Lit, b: Lit, c: Lit, d: Lit, j: nat, x: nat, y: nat)
    requires 1 <= j < 8 && x < y < 4
    ensures var row := Table(a, b, c, d)[LineOf(a, b, c, d, j, x, y)]; row.j == j || row.k == j
  {
  }

  lemma LineFrom(a: Lit, b: Lit, c: Lit, d: Lit, j: nat, x: nat, y: nat)
    requires 1 <= j < 8 && x < y < 4
    ensures Neg(Table(a, b, c, d)[LineOf(a, b, c, d, j, x, y)].from) == SumClause(j, a, b, c, d)[x]
  {
    NegNeg(a);
    NegNeg(b);
    NegNeg(c);
    NegNeg(d);
  }

  lemma LineTo(a: Lit, b: Lit, c: Lit, d: Lit, j: nat, x: nat, y: nat)
    requires 1 <= j < 8 && x < y < 4
    ensures Table(a, b, c, d)[LineOf(a, b, c, d, j, x, y)].to == SumClause(j, a, b, c, d)[y]
  {
  }

  // No line is missing: every binary clause inside a clause is a line that covers it.
  lemma TableComplete(a: Lit, b: Lit, c: Lit, d: Lit, j: nat, x: nat, y: nat)
    requires 1 <= j < 8 && x < y < 4
    ensures var e := SumClause(j, a, b, c, d); exists i :: 0 <= i < 24 && LineFor(Table(a, b, c, d)[i], j, e[x], e[y])
  {
    var e := SumClause(j, a, b, c, d);
    var i := LineOf(a, b, c, d, j, x, y);
    LineNumbers(a, b, c, d, j, x, y);
    LineFrom(a, b, c, d, j, x, y);
    LineTo(a, b, c, d, j, x, y);
    hide Table, SumClause, LineOf;
    assert LineFor(Table(a, b, c, d)[i], j, e[x], e[y]);
  }

  ghost predicate LineFor(row: Row, j: nat, l: Lit, k: Lit) {
    (row.j == j || row.k == j) && Neg(row.from) == l && row.to == k
  }

  // Where the four lines for two of the variables begin.
  ghost function PairStart(x: nat, y: nat): (i: nat)
    requires x < y < 4
    ensures i <= 20
  {
    if x == 0 then (if y == 3 then 0 else if y == 2 then 4 else 8)
    else if x == 1 then (if y == 3 then 12 else 16)
    else 20
  }

  ghost function PairLine(first: bool, second: bool): (i: nat)
    ensures i < 4
  {
    (if first then 2 else 0) + if second then 0 else 1
  }

  // First, binary clauses are looked up in the graph.
  method FoundByImplication(big: BIG, a: Lit, b: Lit, c: Lit, d: Lit, ghost s: Source) returns (found: seq<bool>)
    requires GraphOk(big, s) && ClauseEntailed(s, [a, b, c, d])
    ensures FoundOk(s, found, a, b, c, d) && found[0]
    ensures forall j :: 1 <= j < 8 ==> (found[j] <==> Covered(ViewOf(big, s), a, b, c, d, 24, j))
  {
    hide ClauseEntailed, Implied, SumClause, Table, GraphOk, Knows;
    found := [true, false, false, false, false, false, false, false];
    SumZero(a, b, c, d);
    var table := Table(a, b, c, d);
    var i := 0;
    while i < 24
      invariant 0 <= i <= 24 && FoundOk(s, found, a, b, c, d) && found[0]
      invariant forall j :: 1 <= j < 8 ==> (found[j] <==> Covered(ViewOf(big, s), a, b, c, d, i, j))
    {
      TableRight(a, b, c, d, i);
      var row := table[i];
      var implied := ChildOrImplied(big, row.from, row.to, s);
      if implied {
        ImpliedClause(s, row.from, row.to, SumClause(row.j, a, b, c, d));
        ImpliedClause(s, row.from, row.to, SumClause(row.k, a, b, c, d));
        found := found[row.j := true][row.k := true];
      }
      i := i + 1;
    }
  }

  // One of the first n lines of the table covers clause j, and the graph knows it.
  ghost predicate Covered(v: View, a: Lit, b: Lit, c: Lit, d: Lit, n: nat, j: nat) {
    exists i :: 0 <= i < n && i < 24 && CoversClause(Table(a, b, c, d)[i], v, j)
  }

  ghost predicate CoversClause(row: Row, v: View, j: nat) {
    (row.j == j || row.k == j) && Knows(v, row.from, row.to)
  }

  lemma SumZero(a: Lit, b: Lit, c: Lit, d: Lit)
    ensures SumClause(0, a, b, c, d) == [a, b, c, d]
  {
  }

  // A ternary clause inside lits, looked up in the list of its first literal.
  method TernaryInside(t: Ternaries, lits: Clause, ghost s: Source) returns (found: bool)
    requires TernariesOk(s, t) && |lits| == 4
    ensures found ==> ClauseEntailed(s, lits)
    ensures found <==> TernaryIn(t, lits)
  {
    hide ClauseEntailed;
    var tList := TernariesOf(t, lits[0]);
    var ti := 0;
    while ti < |tList|
      invariant 0 <= ti <= |tList| && forall k :: 0 <= k < ti ==> !TwoOf(tList[k], lits)
    {
      var tern := tList[ti];
      if (tern.l1 == lits[1] && (tern.l2 == lits[2] || tern.l2 == lits[3]))
        || (tern.l1 == lits[2] && (tern.l2 == lits[1] || tern.l2 == lits[3]))
        || (tern.l1 == lits[3] && (tern.l2 == lits[2] || tern.l2 == lits[1]))
      {
        assert TwoOf(tern, lits);
        assert TernaryEntailed(s, lits[0], tern);
        LargerClause(s, [lits[0], tern.l1, tern.l2], lits);
        return true;
      }
      ti := ti + 1;
    }
    found := false;
  }

  // Both literals are at different places among the last three.
  ghost predicate TwoOf(x: Ternary, lits: Clause)
    requires |lits| == 4
  {
    exists i, k :: 1 <= i < 4 && 1 <= k < 4 && i != k && x.l1 == lits[i] && x.l2 == lits[k]
  }

  // Some ternary clause consists of the first literal and two others.
  ghost predicate TernaryIn(t: Ternaries, lits: Clause)
    requires |lits| == 4
  {
    exists x :: x in TernariesOf(t, lits[0]) && TwoOf(x, lits)
  }

  method QuadInside(q: Quads, lits: Clause, ghost s: Source) returns (found: bool)
    requires QuadsOk(s, q) && |lits| == 4
    ensures found ==> ClauseEntailed(s, lits)
    ensures found <==> Quad(lits[1], lits[2], lits[3]) in QuadsOf(q, lits[0])
  {
    hide ClauseEntailed;
    var qList := QuadsOf(q, lits[0]);
    var qi := 0;
    while qi < |qList|
      invariant 0 <= qi <= |qList| && Quad(lits[1], lits[2], lits[3]) !in qList[..qi]
    {
      assert qList[..qi + 1] == qList[..qi] + [qList[qi]];
      if qList[qi].l1 == lits[1] && qList[qi].l2 == lits[2] && qList[qi].l3 == lits[3] {
        assert QuadEntailed(s, lits[0], qList[qi]);
        LargerClause(s, [lits[0], qList[qi].l1, qList[qi].l2, qList[qi].l3], lits);
        return true;
      }
      qi := qi + 1;
    }
    found := false;
  }

  // Ternary clauses with one of the first two literals, then clauses of four literals.
  method FindSumClause(t: Ternaries, q: Quads, lits: Clause, ghost s: Source) returns (found: bool)
    requires TernariesOk(s, t) && QuadsOk(s, q) && |lits| == 4
    ensures found ==> ClauseEntailed(s, lits)
    ensures found <==> InTables(t, q, lits)
  {
    hide ClauseEntailed, TernariesOk, QuadsOk, TernaryIn;
    found := TernaryInside(t, lits, s);
    if !found {
      var swapped := [lits[1], lits[0], lits[2], lits[3]];
      found := TernaryInside(t, swapped, s);
      if found { LargerClause(s, swapped, lits); }
    }
    if !found {
      found := QuadInside(q, lits, s);
    }
  }

  // A ternary clause with one of the first two literals, or the clause itself.
  ghost predicate InTables(t: Ternaries, q: Quads, lits: Clause)
    requires |lits| == 4
  {
    TernaryIn(t, lits) || TernaryIn(t, [lits[1], lits[0], lits[2], lits[3]]) || Quad(lits[1], lits[2], lits[3]) in QuadsOf(q, lits[0])
  }

  // All eight clauses are there.
  ghost predicate SumAt(v: View, t: Ternaries, q: Quads, a: Lit, x: Quad) {
    forall j :: 1 <= j < 8 ==>
      Covered(v, a, x.l1, x.l2, x.l3, 24, j) || InTables(t, q, SumClause(j, a, x.l1, x.l2, x.l3))
  }

  // The gates of the entries of a list whose first variable is the least.
  ghost function SumsOf(v: View, t: Ternaries, q: Quads, a: Lit, list: seq<Quad>): (r: seq<Gate>)
    ensures forall x :: x in list && x.l1.v >= a.v && x.l2.v >= a.v && x.l3.v >= a.v && SumAt(v, t, q, a, x) ==>
              FaSum(a, x.l1, x.l2, x.l3) in r
  {
    if list == [] then []
    else
      var x := list[|list| - 1];
      assert list == list[..|list| - 1] + [x];
      SumsOf(v, t, q, a, list[..|list| - 1])
        + if x.l1.v >= a.v && x.l2.v >= a.v && x.l3.v >= a.v && SumAt(v, t, q, a, x) then [FaSum(a, x.l1, x.l2, x.l3)] else []
  }

  method CheckSum(big: BIG, t: Ternaries, q: Quads, a: Lit, quad: Quad, ghost s: Source) returns (full: bool)
    requires GraphOk(big, s) && TernariesOk(s, t) && QuadsOk(s, q) && QuadEntailed(s, a, quad)
    ensures full ==> Entailed(s, FaSum(a, quad.l1, quad.l2, quad.l3))
    ensures full <==> SumAt(ViewOf(big, s), t, q, a, quad)
  {
    hide ClauseEntailed, Entailed, SumClause, TernariesOk, QuadsOk, GraphOk, Covered, InTables;
    var b, c, d := quad.l1, quad.l2, quad.l3;
    var found := FoundByImplication(big, a, b, c, d, s);
    var j := 1;
    while j < 8
      invariant 1 <= j <= 8 && FoundOk(s, found, a, b, c, d) && found[0]
      invariant forall k :: 1 <= k < j ==>
        (found[k] <==> Covered(ViewOf(big, s), a, b, c, d, 24, k) || InTables(t, q, SumClause(k, a, b, c, d)))
      invariant forall k :: j <= k < 8 ==> (found[k] <==> Covered(ViewOf(big, s), a, b, c, d, 24, k))
    {
      if !found[j] {
        var present := FindSumClause(t, q, SumClause(j, a, b, c, d), s);
        found := found[j := present];
      }
      j := j + 1;
    }
    full := true;
    j := 0;
    while j < 8
      invariant 0 <= j <= 8 && full == forall k :: 0 <= k < j ==> found[k]
    {
      full := full && found[j];
      j := j + 1;
    }
    if full { SumEntailed(s, found, a, b, c, d); }
  }

  method SumGatesOf(big: BIG, t: Ternaries, q: Quads, a: Lit, gates: seq<Gate>, ghost s: Source) returns (r: seq<Gate>)
    requires GraphOk(big, s) && TernariesOk(s, t) && QuadsOk(s, q) && AllEntailed(s, gates)
    ensures AllEntailed(s, r) && gates <= r
    ensures r == gates + SumsOf(ViewOf(big, s), t, q, a, QuadsOf(q, a))
  {
    hide Entailed, AllEntailed, TernariesOk, GraphOk, SumAt;
    r := gates;
    var cList := QuadsOf(q, a);
    var i := 0;
    while i < |cList|
      invariant 0 <= i <= |cList| && AllEntailed(s, r) && gates <= r
      invariant r == gates + SumsOf(ViewOf(big, s), t, q, a, cList[..i])
    {
      assert cList[..i + 1][..i] == cList[..i];
      var quad := cList[i];
      if quad.l1.v >= a.v && quad.l2.v >= a.v && quad.l3.v >= a.v {
        assert QuadEntailed(s, a, quad);
        var full := CheckSum(big, t, q, a, quad, s);
        if full {
          OneMoreGate(s, r, FaSum(a, quad.l1, quad.l2, quad.l3));
          r := r + [FaSum(a, quad.l1, quad.l2, quad.l3)];
        }
      }
      i := i + 1;
    }
    assert cList[..i] == cList;
  }

  // ---------- all gates ----------

  // The options; blocked, ITE and exactly-one gates are off.
  datatype Options = Options(implied: bool, findAnd: bool, genAnd: bool, findXor: bool, findSum: bool)

  // The j-th of the other literals when position j of a clause is left out.
  function Others3(c: Clause, j: nat): (r: Ternary)
    requires |c| == 3 && j < 3
  {
    Ternary(if j == 0 then c[2] else c[0], if j == 1 then c[2] else c[1])
  }

  function Others4(c: Clause, j: nat): (r: Quad)
    requires |c| == 4 && j < 4
  {
    MakeQuad(if j == 0 then c[3] else c[0], if j == 1 then c[3] else c[1], if j == 2 then c[3] else c[2])
  }

  // The clause can be found in the tables by each of its literals.
  ghost predicate Listed(c: Cls, t: Ternaries, q: Quads) {
    && (!c.deleted && |c.lits| == 3 ==> forall j :: 0 <= j < 3 ==> Others3(c.lits, j) in TernariesOf(t, c.lits[j]))
    && (!c.deleted && |c.lits| == 4 ==> forall j :: 0 <= j < 4 ==> Others4(c.lits, j) in QuadsOf(q, c.lits[j]))
  }

  ghost predicate Grown(t: Ternaries, q: Quads, t': Ternaries, q': Quads) {
    && (forall l :: TernariesOf(t, l) <= TernariesOf(t', l))
    && (forall l :: QuadsOf(q, l) <= QuadsOf(q', l))
  }

  lemma StillListed(c: Cls, t: Ternaries, q: Quads, t': Ternaries, q': Quads)
    requires Listed(c, t, q) && Grown(t, q, t', q')
    ensures Listed(c, t', q')
  {
  }

  // Every entry comes from a live clause with three literals.
  ghost predicate FromClauses(s: Source, t: Ternaries) {
    forall l, x :: x in TernariesOf(t, l) ==> FromClause(s, l, x)
  }

  ghost predicate FromClause(s: Source, l: Lit, x: Ternary) {
    exists i: CRef, j: nat :: LiveTernary(s, i) && j < 3 && s.ca[i].lits[j] == l && x == Others3(s.ca[i].lits, j)
  }

  ghost predicate LiveTernary(s: Source, i: CRef) {
    i in s.list && i < |s.ca| && !s.ca[i].deleted && |s.ca[i].lits| == 3
  }

  method ListTernary(s: Source, c: Clause, t: Ternaries, ghost i: CRef) returns (r: Ternaries)
    requires TernariesOk(s, t) && ClauseEntailed(s, c) && |c| == 3
    requires FromClauses(s, t) && LiveTernary(s, i) && s.ca[i].lits == c
    ensures TernariesOk(s, r) && (forall l :: TernariesOf(t, l) <= TernariesOf(r, l))
    ensures FromClauses(s, r)
    ensures forall j :: 0 <= j < 3 ==> Others3(c, j) in TernariesOf(r, c[j])
  {
    hide ClauseEntailed, TernariesOk, FromClauses, LiveTernary, SourceOk;
    r := t;
    var j := 0;
    while j < 3
      invariant 0 <= j <= 3 && TernariesOk(s, r) && forall l :: TernariesOf(t, l) <= TernariesOf(r, l)
      invariant FromClauses(s, r)
      invariant forall k :: 0 <= k < j ==> Others3(c, k) in TernariesOf(r, c[k])
    {
      var o := Others3(c, j);
      LargerClause(s, c, [c[j], o.l1, o.l2]);
      assert FromClause(s, c[j], o);
      ghost var was := r;
      r := AddTernary(s, r, c[j], o.l1, o.l2);
      OneMoreFrom(s, was, r, c[j], o);
      j := j + 1;
    }
  }

  lemma OneMoreFrom(s: Source, t: Ternaries, r: Ternaries, l: Lit, o: Ternary)
    requires FromClauses(s, t) && FromClause(s, l, o) && TernariesOf(r, l) == TernariesOf(t, l) + [o]
    requires forall k :: k != l ==> TernariesOf(r, k) == TernariesOf(t, k)
    ensures FromClauses(s, r)
  {
    hide FromClause;
    forall k, x | x in TernariesOf(r, k) ensures FromClause(s, k, x) {
      assert k == l && x !in TernariesOf(t, l) ==> x == o;
    }
  }

  lemma OtherLits4(c: Clause, j: nat)
    requires |c| == 4 && j < 4
    ensures forall l :: l in c ==>
      l in [c[j], if j == 0 then c[3] else c[0], if j == 1 then c[3] else c[1], if j == 2 then c[3] else c[2]]
  {
  }

  method ListQuadAt(s: Source, c: Clause, j: nat, q: Quads) returns (r: Quads)
    requires QuadsOk(s, q) && ClauseEntailed(s, c) && |c| == 4 && j < 4
    ensures QuadsOk(s, r) && (forall l :: QuadsOf(q, l) <= QuadsOf(r, l)) && Others4(c, j) in QuadsOf(r, c[j])
  {
    hide ClauseEntailed, QuadsOk, MakeQuad;
    var a, b, d := if j == 0 then c[3] else c[0], if j == 1 then c[3] else c[1], if j == 2 then c[3] else c[2];
    OtherLits4(c, j);
    LargerClause(s, c, [c[j], a, b, d]);
    r := AddQuad(s, q, c[j], a, b, d);
  }

  method ListQuad(s: Source, c: Clause, q: Quads) returns (r: Quads)
    requires QuadsOk(s, q) && ClauseEntailed(s, c) && |c| == 4
    ensures QuadsOk(s, r) && (forall l :: QuadsOf(q, l) <= QuadsOf(r, l))
    ensures forall j :: 0 <= j < 4 ==> Others4(c, j) in QuadsOf(r, c[j])
  {
    hide ClauseEntailed, QuadsOk, Others4;
    r := q;
    var j := 0;
    while j < 4
      invariant 0 <= j <= 4 && QuadsOk(s, r) && forall l :: QuadsOf(q, l) <= QuadsOf(r, l)
      invariant forall k :: 0 <= k < j ==> Others4(c, k) in QuadsOf(r, c[k])
    {
      r := ListQuadAt(s, c, j, r);
      j := j + 1;
    }
  }

  method ListClause(s: Source, i: nat, t: Ternaries, q: Quads) returns (t': Ternaries, q': Quads)
    requires SourceOk(s) && TernariesOk(s, t) && QuadsOk(s, q) && i < |s.list| && FromClauses(s, t)
    ensures FromClauses(s, t')
    ensures TernariesOk(s, t') && QuadsOk(s, q') && Grown(t, q, t', q') && Listed(s.ca[s.list[i]], t', q')
  {
    hide ClauseEntailed, TernariesOk, QuadsOk, FromClauses;
    t', q' := t, q;
    var c := s.ca[s.list[i]];
    if !c.deleted {
      StoredEntailed(s, i);
      if |c.lits| == 3 {
        t' := ListTernary(s, c.lits, t, s.list[i]);
      } else if |c.lits| == 4 {
        q' := ListQuad(s, c.lits, q);
      }
    }
  }

  // The tables of all clauses with three or four literals.
  method ListClauses(s: Source) returns (t: Ternaries, q: Quads)
    requires SourceOk(s)
    ensures TernariesOk(s, t) && QuadsOk(s, q) && FromClauses(s, t)
    ensures forall i :: 0 <= i < |s.list| ==> Listed(s.ca[s.list[i]], t, q)
  {
    hide Listed, Grown, FromClause;
    t, q := map[], map[];
    var i := 0;
    while i < |s.list|
      invariant 0 <= i <= |s.list| && TernariesOk(s, t) && QuadsOk(s, q) && FromClauses(s, t)
      invariant forall k :: 0 <= k < i ==> Listed(s.ca[s.list[k]], t, q)
    {
      var t', q' := ListClause(s, i, t, q);
      forall k | 0 <= k < i ensures Listed(s.ca[s.list[k]], t', q') {
        StillListed(s.ca[s.list[k]], t, q, t', q');
      }
      t, q := t', q';
      i := i + 1;
    }
  }

  // getANDGates, getXORGates and getFASUMGates, for both literals of a variable.

  method AndGates(big: BIG, s: Source, v: nat, genAnd: bool, occs: Lit -> seq<CRef>, t: Ternaries, gates: seq<Gate>)
    returns (r: seq<Gate>, units: seq<Lit>)
    requires GraphOk(big, s) && TernariesOk(s, t) && AllEntailed(s, gates) && forall l :: OccOk(s, l, occs(l))
    ensures AllEntailed(s, r) && gates <= r && UnitsEntailed(s, units)
    ensures forall p :: AndsFound(ViewOf(big, s), s, Lit(v, p), genAnd, occs(Lit(v, p)), t, r, units)
  {
    hide AllEntailed, GraphOk, TernariesOk, OccOk, AndsAre, AndsFound, UnitsEntailed;
    var more;
    ghost var first, second;
    ghost var mid;
    r, units, first := AndGatesOf(big, s, Lit(v, false), genAnd, occs(Lit(v, false)), t, gates);
    mid := r;
    r, more, second := AndGatesOf(big, s, Lit(v, true), genAnd, occs(Lit(v, true)), t, r);
    AndsAreFound(ViewOf(big, s), s, Lit(v, false), genAnd, occs(Lit(v, false)), t, gates, mid, units, first, r, units + more);
    AndsAreFound(ViewOf(big, s), s, Lit(v, true), genAnd, occs(Lit(v, true)), t, mid, r, more, second, r, units + more);
    UnitsTogether(s, units, more);
    units := units + more;
    forall p ensures AndsFound(ViewOf(big, s), s, Lit(v, p), genAnd, occs(Lit(v, p)), t, r, units) {
      assert p == false || p == true;
    }
  }

  // A contradiction yields a unit, and every clause that fits yields a gate, if the output
  // implies two literals.
  ghost predicate AndsFound(v: View, s: Source, pos: Lit, genAnd: bool, occ: seq<CRef>, t: Ternaries, gates: seq<Gate>, units: seq<Lit>) {
    && (Torn(v, pos) ==> Neg(pos) in units)
    && (!Torn(v, pos) ==> exists children :: ChildrenAre(v, pos, children) && FitsFound(v, s, pos, genAnd, occ, t, gates, |children|))
  }

  ghost predicate FitsFound(v: View, s: Source, pos: Lit, genAnd: bool, occ: seq<CRef>, t: Ternaries, gates: seq<Gate>, size: nat) {
    size > 1 ==>
      && (genAnd ==> forall i :: i in occ && AndFits(v, s, pos, size, i) ==> And(pos, Inputs(s.ca[i].lits, pos)) in gates)
      && (!genAnd ==> forall x :: x in TernariesOf(t, pos) && Follows(v, pos, [x.l1, x.l2]) ==> And(pos, Inputs([pos, x.l1, x.l2], pos)) in gates)
  }

  lemma AndsAreFound(v: View, s: Source, pos: Lit, genAnd: bool, occ: seq<CRef>, t: Ternaries, gates: seq<Gate>,
                     r: seq<Gate>, units: seq<Lit>, children: seq<Lit>, more: seq<Gate>, moreUnits: seq<Lit>)
    requires AndsAre(v, s, pos, genAnd, occ, t, gates, r, units, children)
    requires r <= more && forall u :: u in units ==> u in moreUnits
    ensures AndsFound(v, s, pos, genAnd, occ, t, more, moreUnits)
  {
    hide Torn, ChildrenAre, AndFits, Follows, Inputs;
    forall g | g in r ensures g in more {}
  }

  method XorGates(big: BIG, s: Source, v: nat, t: Ternaries, gates: seq<Gate>) returns (r: seq<Gate>, failed: bool)
    requires GraphOk(big, s) && TernariesOk(s, t) && AllEntailed(s, gates)
    ensures AllEntailed(s, r) && gates <= r && (failed ==> NoSourceModel(s))
    ensures !failed ==> Distinct(r, |gates|, |r|)
    ensures AllIn(XorsFrom(ViewOf(big, s), t, Lit(v, false), 0) + XorsFrom(ViewOf(big, s), t, Lit(v, true), 0), r)
    ensures failed <==> Contradiction(XorsFrom(ViewOf(big, s), t, Lit(v, false), 0) + XorsFrom(ViewOf(big, s), t, Lit(v, true), 0), 0)
  {
    hide AllEntailed, GraphOk, TernariesOk, Distinct, NoSourceModel, SameMeaning, XorsFrom, Represented, AllIn, Contradiction;
    r := XorGatesOf(big, t, Lit(v, false), gates, s);
    r := XorGatesOf(big, t, Lit(v, true), r, s);
    ghost var found := r;
    r, failed := RemoveRedundant(r, |gates|, s);
    PrefixOfPrefix(gates, found, r);
    RepresentedIn(found[|gates|..], found, r, |gates|);
    LaterContradiction(found, |gates|);
    assert found[|gates|..] == XorsFrom(ViewOf(big, s), t, Lit(v, false), 0) + XorsFrom(ViewOf(big, s), t, Lit(v, true), 0);
  }

  method SumGates(big: BIG, s: Source, v: nat, t: Ternaries, q: Quads, gates: seq<Gate>) returns (r: seq<Gate>, failed: bool)
    requires GraphOk(big, s) && TernariesOk(s, t) && QuadsOk(s, q) && AllEntailed(s, gates)
    ensures AllEntailed(s, r) && gates <= r && (failed ==> NoSourceModel(s))
    ensures !failed ==> Distinct(r, |gates|, |r|)
    ensures AllIn(SumsAt(ViewOf(big, s), t, q, Lit(v, false)) + SumsAt(ViewOf(big, s), t, q, Lit(v, true)), r)
    ensures failed <==> Contradiction(SumsAt(ViewOf(big, s), t, q, Lit(v, false)) + SumsAt(ViewOf(big, s), t, q, Lit(v, true)), 0)
  {
    hide AllEntailed, GraphOk, TernariesOk, QuadsOk, Distinct, NoSourceModel, SameMeaning, SumsOf, Represented, AllIn, Contradiction;
    r := SumGatesOf(big, t, q, Lit(v, false), gates, s);
    r := SumGatesOf(big, t, q, Lit(v, true), r, s);
    ghost var found := r;
    r, failed := RemoveRedundant(r, |gates|, s);
    PrefixOfPrefix(gates, found, r);
    RepresentedIn(found[|gates|..], found, r, |gates|);
    LaterContradiction(found, |gates|);
    assert found[|gates|..] == SumsAt(ViewOf(big, s), t, q, Lit(v, false)) + SumsAt(ViewOf(big, s), t, q, Lit(v, true));
  }

  ghost function SumsAt(v: View, t: Ternaries, q: Quads, a: Lit): seq<Gate> {
    SumsOf(v, t, q, a, QuadsOf(q, a))
  }

  lemma UnitsTogether(s: Source, a: seq<Lit>, b: seq<Lit>)
    requires UnitsEntailed(s, a) && UnitsEntailed(s, b)
    ensures UnitsEntailed(s, a + b)
  {
    hide ClauseEntailed;
  }

  // The gates of both literals of a variable, or the same constraints in another form.
  ghost predicate AllIn(found: seq<Gate>, r: seq<Gate>) {
    forall g :: g in found ==> exists h :: h in r && SameGate(g, h)
  }

  lemma LaterContradiction(gates: seq<Gate>, from: nat)
    requires from <= |gates|
    ensures Contradiction(gates, from) <==> Contradiction(gates[from..], 0)
  {
    hide Opposite;
    var later := gates[from..];
    assert forall k :: 0 <= k < |later| ==> later[k] == gates[from + k];
    if p, q :| from <= p < |gates| && from <= q < |gates| && Opposite(gates[p], gates[q]) {
      assert Opposite(later[p - from], later[q - from]);
    }
    if p: nat, q: nat :| p < |later| && q < |later| && Opposite(later[p], later[q]) {
      assert Opposite(gates[from + p], gates[from + q]);
    }
  }

  lemma RepresentedIn(found: seq<Gate>, all: seq<Gate>, r: seq<Gate>, from: nat)
    requires forall k :: from <= k < |all| ==> Represented(all[k], r, from)
    requires from <= |all| && all[from..] == found
    ensures AllIn(found, r)
  {
    hide SameGate;
    forall g | g in found ensures exists h :: h in r && SameGate(g, h) {
      var k :| 0 <= k < |found| && found[k] == g;
      assert all[from + k] == g;
      var m :| from <= m < |r| && SameGate(g, r[m]);
      assert r[m] in r;
    }
  }

  lemma PrefixOfPrefix<T>(a: seq<T>, b: seq<T>, c: seq<T>)
    requires a <= b && |a| <= |c| && c[..|a|] == b[..|a|]
    ensures a <= c
  {
  }

  // getGatesWithOutput
  method GatesWithOutput(big: BIG, s: Source, v: nat, o: Options, occs: Lit -> seq<CRef>, t: Ternaries, q: Quads, gates: seq<Gate>)
    returns (r: seq<Gate>, units: seq<Lit>, failed: bool)
    requires GraphOk(big, s) && TernariesOk(s, t) && QuadsOk(s, q) && AllEntailed(s, gates)
    requires forall l :: OccOk(s, l, occs(l))
    ensures AllEntailed(s, r) && gates <= r && UnitsEntailed(s, units) && (failed ==> NoSourceModel(s))
    ensures OutputFound(ViewOf(big, s), s, o, occs, t, q, v, r, units)
    ensures failed <==> OutputFails(ViewOf(big, s), o, t, q, v)
  {
    hide AllEntailed, GraphOk, TernariesOk, QuadsOk, Distinct, NoSourceModel, OccOk, AndsFound, AllIn, XorsFrom, SumsOf, Contradiction;
    r, units, failed := gates, [], false;
    var failedSum := false;
    if o.findAnd { r, units := AndGates(big, s, v, o.genAnd, occs, t, r); }
    ghost var first := r;
    if o.findXor { r, failed := XorGates(big, s, v, t, r); }
    ghost var second := r;
    if o.findSum { r, failedSum := SumGates(big, s, v, t, q, r); }
    failed := failed || failedSum;
    forall p ensures o.findAnd ==> AndsFound(ViewOf(big, s), s, Lit(v, p), o.genAnd, occs(Lit(v, p)), t, r, units) {
      if o.findAnd { AndsStay(ViewOf(big, s), s, Lit(v, p), o.genAnd, occs(Lit(v, p)), t, first, units, r, units); }
    }
    if o.findXor { StillIn(XorsFrom(ViewOf(big, s), t, Lit(v, false), 0) + XorsFrom(ViewOf(big, s), t, Lit(v, true), 0), second, r); }
  }

  // Two gates with this output contradict each other.
  ghost predicate OutputFails(v: View, o: Options, t: Ternaries, q: Quads, x: nat) {
    || (o.findXor && Contradiction(XorsFrom(v, t, Lit(x, false), 0) + XorsFrom(v, t, Lit(x, true), 0), 0))
    || (o.findSum && Contradiction(SumsAt(v, t, q, Lit(x, false)) + SumsAt(v, t, q, Lit(x, true)), 0))
  }

  // What is found for one variable.
  ghost predicate OutputFound(v: View, s: Source, o: Options, occs: Lit -> seq<CRef>, t: Ternaries, q: Quads, x: nat,
                              gates: seq<Gate>, units: seq<Lit>) {
    && (o.findAnd ==> forall p :: AndsFound(v, s, Lit(x, p), o.genAnd, occs(Lit(x, p)), t, gates, units))
    && (o.findXor ==> AllIn(XorsFrom(v, t, Lit(x, false), 0) + XorsFrom(v, t, Lit(x, true), 0), gates))
    && (o.findSum ==> AllIn(SumsAt(v, t, q, Lit(x, false)) + SumsAt(v, t, q, Lit(x, true)), gates))
  }

  lemma AndsStay(v: View, s: Source, pos: Lit, genAnd: bool, occ: seq<CRef>, t: Ternaries, gates: seq<Gate>, units: seq<Lit>,
                 more: seq<Gate>, moreUnits: seq<Lit>)
    requires AndsFound(v, s, pos, genAnd, occ, t, gates, units) && gates <= more && forall u :: u in units ==> u in moreUnits
    ensures AndsFound(v, s, pos, genAnd, occ, t, more, moreUnits)
  {
    hide Torn, ChildrenAre, AndFits, Follows, Inputs;
    if !Torn(v, pos) {
      var children :| ChildrenAre(v, pos, children) && FitsFound(v, s, pos, genAnd, occ, t, gates, |children|);
      forall g | g in gates ensures g in more {}
      assert FitsFound(v, s, pos, genAnd, occ, t, more, |children|);
    }
  }

  lemma StillIn(found: seq<Gate>, gates: seq<Gate>, more: seq<Gate>)
    requires AllIn(found, gates) && gates <= more
    ensures AllIn(found, more)
  {
    hide SameGate;
    forall g | g in found ensures exists h :: h in more && SameGate(g, h) {
      var h :| h in gates && SameGate(g, h);
      assert h in more;
    }
  }

  lemma OutputStays(v: View, s: Source, o: Options, occs: Lit -> seq<CRef>, t: Ternaries, q: Quads, x: nat,
                    gates: seq<Gate>, units: seq<Lit>, more: seq<Gate>, moreUnits: seq<Lit>)
    requires OutputFound(v, s, o, occs, t, q, x, gates, units) && gates <= more && forall u :: u in units ==> u in moreUnits
    ensures OutputFound(v, s, o, occs, t, q, x, more, moreUnits)
  {
    hide AndsFound, AllIn, XorsFrom, SumsOf;
    if o.findAnd {
      forall p ensures AndsFound(v, s, Lit(x, p), o.genAnd, occs(Lit(x, p)), t, more, moreUnits) {
        AndsStay(v, s, Lit(x, p), o.genAnd, occs(Lit(x, p)), t, gates, units, more, moreUnits);
      }
    }
    if o.findXor { StillIn(XorsFrom(v, t, Lit(x, false), 0) + XorsFrom(v, t, Lit(x, true), 0), gates, more); }
    if o.findSum { StillIn(SumsAt(v, t, q, Lit(x, false)) + SumsAt(v, t, q, Lit(x, true)), gates, more); }
  }

  method ExtractFrom(big: BIG, s: Source, o: Options, occs: Lit -> seq<CRef>)
    returns (gates: seq<Gate>, units: seq<Lit>, failed: bool, ghost t: Ternaries, ghost q: Quads)
    requires GraphOk(big, s) && forall l :: OccOk(s, l, occs(l))
    ensures AllEntailed(s, gates) && UnitsEntailed(s, units) && (failed ==> NoSourceModel(s))
    ensures AllFound(ViewOf(big, s), s, o, occs, t, q, gates, units)
    ensures failed <==> exists x :: 0 <= x < s.n && OutputFails(ViewOf(big, s), o, t, q, x)
  {
    hide AllEntailed, OutputFails, TernariesOk, QuadsOk, NoSourceModel, OccOk, OutputFound, UnitsEntailed, Listed, FromClauses, SourceOk, AllFound;
    hide BIG.ListsAre, BIG.Stamped, EdgeSet;
    var ts, qs := ListClauses(s);
    t, q := ts, qs;
    gates, units, failed := [], [], false;
    NoneYet(s);
    for v := 0 to s.n
      invariant AllEntailed(s, gates) && UnitsEntailed(s, units) && (failed ==> NoSourceModel(s))
      invariant forall x :: 0 <= x < v ==> OutputFound(ViewOf(big, s), s, o, occs, t, q, x, gates, units)
      invariant failed <==> exists x :: 0 <= x < v && OutputFails(ViewOf(big, s), o, t, q, x)
    {
      var more, failedNow;
      ghost var was := gates;
      gates, more, failedNow := GatesWithOutput(big, s, v, o, occs, ts, qs, gates);
      UnitsTogether(s, units, more);
      OneMoreOutput(ViewOf(big, s), s, o, occs, t, q, v, was, units, gates, more);
      units, failed := units + more, failed || failedNow;
    }
    FoundAll(ViewOf(big, s), s, o, occs, t, q, gates, units);
  }

  lemma NoneYet(s: Source)
    ensures UnitsEntailed(s, []) && AllEntailed(s, [])
  {
  }

  lemma OneMoreOutput(v: View, s: Source, o: Options, occs: Lit -> seq<CRef>, t: Ternaries, q: Quads, n: nat,
                      was: seq<Gate>, units: seq<Lit>, gates: seq<Gate>, more: seq<Lit>)
    requires forall x :: 0 <= x < n ==> OutputFound(v, s, o, occs, t, q, x, was, units)
    requires OutputFound(v, s, o, occs, t, q, n, gates, more) && was <= gates
    ensures forall x :: 0 <= x < n + 1 ==> OutputFound(v, s, o, occs, t, q, x, gates, units + more)
  {
    hide OutputFound;
    forall x | 0 <= x < n + 1 ensures OutputFound(v, s, o, occs, t, q, x, gates, units + more) {
      if x < n {
        OutputStays(v, s, o, occs, t, q, x, was, units, gates, units + more);
      } else {
        OutputStays(v, s, o, occs, t, q, x, gates, more, gates, units + more);
      }
    }
  }

  lemma FoundAll(v: View, s: Source, o: Options, occs: Lit -> seq<CRef>, t: Ternaries, q: Quads, gates: seq<Gate>, units: seq<Lit>)
    requires SourceOk(s) && FromClauses(s, t) && forall i :: 0 <= i < |s.list| ==> Listed(s.ca[s.list[i]], t, q)
    requires forall x :: 0 <= x < s.n ==> OutputFound(v, s, o, occs, t, q, x, gates, units)
    ensures AllFound(v, s, o, occs, t, q, gates, units)
  {
    hide OutputFound, Listed, FromClauses;
  }

  // The tables hold the clauses, and every variable has been tried as output.
  ghost predicate AllFound(v: View, s: Source, o: Options, occs: Lit -> seq<CRef>, t: Ternaries, q: Quads, gates: seq<Gate>, units: seq<Lit>) {
    && FromClauses(s, t) && ListInRange(s.ca, s.list) && (forall i :: 0 <= i < |s.list| ==> Listed(s.ca[s.list[i]], t, q))
    && forall x :: 0 <= x < s.n ==> OutputFound(v, s, o, occs, t, q, x, gates, units)
  }

  // ---------- nothing is missed ----------

  // The clause is stored and live.
  ghost predicate Stored(s: Source, c: Clause) {
    exists i :: 0 <= i < |s.list| && s.list[i] < |s.ca| && s.ca[s.list[i]] == Cls(c, false)
  }

  // The four clauses of the parity constraint with a, b and c.
  ghost predicate FourStored(s: Source, a: Lit, b: Lit, c: Lit) {
    && Stored(s, [a, b, c]) && Stored(s, [a, Neg(b), Neg(c)])
    && Stored(s, [Neg(a), Neg(b), c]) && Stored(s, [Neg(a), b, Neg(c)])
  }

  ghost predicate EightStored(s: Source, a: Lit, b: Lit, c: Lit, d: Lit) {
    forall j :: 0 <= j < 8 ==> Stored(s, SumClause(j, a, b, c, d))
  }

  // Two literals over variables of a live ternary clause with a.
  ghost predicate Near(s: Source, a: Lit, x: Lit, y: Lit) {
    exists i: CRef :: LiveTernary(s, i) && a in s.ca[i].lits && VarIn(x, s.ca[i].lits) && VarIn(y, s.ca[i].lits)
  }

  ghost predicate VarIn(x: Lit, c: Clause) {
    exists l :: l in c && l.v == x.v
  }

  // The stamps know all edges inside ternary clauses with a, so that none of them ends the
  // search.
  ghost predicate Undisturbed(v: View, s: Source, a: Lit) {
    forall x, y :: Near(s, a, x, y) && (x, y) in v.edges ==> (x, y) in v.says
  }

  lemma NeverLeaves(v: View, s: Source, t: Ternaries, a: Lit, k: nat)
    requires FromClauses(s, t) && k < |TernariesOf(t, a)| && Undisturbed(v, s, a)
    ensures XorAt(v, t, a, k) != Leave
  {
    var e := TernariesOf(t, a)[k];
    assert FromClause(s, a, e);
    var i: CRef, j: nat :| LiveTernary(s, i) && j < 3 && s.ca[i].lits[j] == a && e == Others3(s.ca[i].lits, j);
    NearAll(s, a, e, i, j);
    hide Near, HoldsBoth;
    NegNeg(a);
    NegNeg(e.l1);
    NegNeg(e.l2);
  }

  lemma NearAll(s: Source, a: Lit, e: Ternary, i: CRef, j: nat)
    requires LiveTernary(s, i) && j < 3 && s.ca[i].lits[j] == a && e == Others3(s.ca[i].lits, j)
    ensures forall x: Lit, y: Lit :: (x.v == a.v || x.v == e.l1.v || x.v == e.l2.v) && (y.v == a.v || y.v == e.l1.v || y.v == e.l2.v) ==>
      Near(s, a, x, y)
  {
    var c := s.ca[i].lits;
    assert c[0] in c && c[1] in c && c[2] in c;
    assert e.l1 in c && e.l2 in c && a in c;
  }

  lemma {:induction false} XorReached(v: View, t: Ternaries, a: Lit, i: nat, k: nat)
    requires k <= i < |TernariesOf(t, a)| && XorAt(v, t, a, i) == Found
    requires forall m :: 0 <= m < |TernariesOf(t, a)| ==> XorAt(v, t, a, m) != Leave
    ensures Xor(TernariesOf(t, a)[i].l1, TernariesOf(t, a)[i].l2, a) in XorsFrom(v, t, a, k)
    decreases i - k
  {
    hide XorAt;
    if k < i { XorReached(v, t, a, i, k + 1); }
  }

  // Of two entries the first one finds the second one, and the clauses with the complement.
  lemma FirstFinds(v: View, t: Ternaries, a: Lit, i: nat, j: nat, b: Lit, c: Lit)
    requires a.v < b.v < c.v && i < j < |TernariesOf(t, a)|
    requires TernariesOf(t, a)[i] == Ternary(c, b) && TernariesOf(t, a)[j] == Ternary(Neg(c), Neg(b))
    requires Ternary(Neg(c), b) in TernariesOf(t, Neg(a)) && Ternary(c, Neg(b)) in TernariesOf(t, Neg(a))
    ensures XorAt(v, t, a, i) == Found
  {
    var others := TernariesOf(t, Neg(a));
    assert HasBoth(TernariesOf(t, a)[j], Neg(c), Neg(b));
    var k :| 0 <= k < |others| && others[k] == Ternary(Neg(c), b);
    assert HasBoth(others[k], Neg(c), b);
    var m :| 0 <= m < |others| && others[m] == Ternary(c, Neg(b));
    assert HasBoth(others[m], c, Neg(b));
  }

  lemma StoredTernary(s: Source, t: Ternaries, q: Quads, a: Lit, b: Lit, c: Lit)
    requires ListInRange(s.ca, s.list) && Stored(s, [a, b, c]) && forall i :: 0 <= i < |s.list| ==> Listed(s.ca[s.list[i]], t, q)
    ensures Ternary(c, b) in TernariesOf(t, a)
  {
    var i :| 0 <= i < |s.list| && s.ca[s.list[i]] == Cls([a, b, c], false);
    assert Listed(s.ca[s.list[i]], t, q);
    assert Others3([a, b, c], 0) == Ternary(c, b);
  }

  // The gate is found in the list of its least literal.
  lemma XorFound(v: View, s: Source, t: Ternaries, q: Quads, a: Lit, b: Lit, c: Lit)
    requires FromClauses(s, t) && ListInRange(s.ca, s.list) && forall i :: 0 <= i < |s.list| ==> Listed(s.ca[s.list[i]], t, q)
    requires a.v < b.v < c.v && FourStored(s, a, b, c) && Undisturbed(v, s, a)
    ensures exists g :: g in XorsFrom(v, t, a, 0) && SameGate(Xor(c, b, a), g)
  {
    hide Listed, FromClauses, XorsFrom, XorAt, Undisturbed;
    var list := TernariesOf(t, a);
    StoredTernary(s, t, q, a, b, c);
    StoredTernary(s, t, q, a, Neg(b), Neg(c));
    StoredTernary(s, t, q, Neg(a), Neg(b), c);
    StoredTernary(s, t, q, Neg(a), b, Neg(c));
    forall k | 0 <= k < |list| ensures XorAt(v, t, a, k) != Leave { NeverLeaves(v, s, t, a, k); }
    var i :| 0 <= i < |list| && list[i] == Ternary(c, b);
    var j :| 0 <= j < |list| && list[j] == Ternary(Neg(c), Neg(b));
    NegNeg(b);
    NegNeg(c);
    if i < j {
      FirstFinds(v, t, a, i, j, b, c);
      XorReached(v, t, a, i, 0);
    } else {
      FirstFinds(v, t, a, j, i, Neg(b), Neg(c));
      XorReached(v, t, a, j, 0);
      assert SameGate(Xor(c, b, a), Xor(Neg(c), Neg(b), a));
    }
  }

  // All parity constraints over three variables, in the order of the variables.
  ghost predicate AllXors(v: View, s: Source, gates: seq<Gate>) {
    forall a: Lit, b: Lit, c: Lit :: a.v < b.v < c.v && a.v < s.n && FourStored(s, a, b, c) && Undisturbed(v, s, a) ==>
      exists g :: g in gates && SameGate(Xor(c, b, a), g)
  }

  lemma AllXorsFound(v: View, s: Source, o: Options, occs: Lit -> seq<CRef>, t: Ternaries, q: Quads, gates: seq<Gate>, units: seq<Lit>)
    requires SourceOk(s) && o.findXor && AllFound(v, s, o, occs, t, q, gates, units)
    ensures AllXors(v, s, gates)
  {
    hide SourceOk, XorsFrom, SumsOf, AndsFound, Listed, FromClauses, SameGate, Undisturbed;
    forall a: Lit, b: Lit, c: Lit | a.v < b.v < c.v && a.v < s.n && FourStored(s, a, b, c) && Undisturbed(v, s, a)
      ensures exists g :: g in gates && SameGate(Xor(c, b, a), g)
    {
      XorFound(v, s, t, q, a, b, c);
      var g :| g in XorsFrom(v, t, a, 0) && SameGate(Xor(c, b, a), g);
      assert OutputFound(v, s, o, occs, t, q, a.v, gates, units);
      assert a == Lit(a.v, false) || a == Lit(a.v, true);
      assert g in XorsFrom(v, t, Lit(a.v, false), 0) + XorsFrom(v, t, Lit(a.v, true), 0);
      var h :| h in gates && SameGate(g, h);
      SameGateTrans(Xor(c, b, a), g, h);
    }
  }

  // No parity constraint is there in both forms: two such constraints are noticed.
  ghost predicate NoOpposites(v: View, s: Source) {
    forall a: Lit, b: Lit, c: Lit :: a.v < b.v < c.v && a.v < s.n && Undisturbed(v, s, a) ==>
      !(FourStored(s, a, b, c) && FourStored(s, a, b, Neg(c)))
  }

  lemma NoneOpposite(v: View, s: Source, o: Options, occs: Lit -> seq<CRef>, t: Ternaries, q: Quads, gates: seq<Gate>, units: seq<Lit>)
    requires SourceOk(s) && o.findXor && AllFound(v, s, o, occs, t, q, gates, units)
    requires forall x :: 0 <= x < s.n ==> !OutputFails(v, o, t, q, x)
    ensures NoOpposites(v, s)
  {
    hide SourceOk, XorsFrom, SumsOf, Listed, FromClauses, Undisturbed, OutputFound;
    forall a: Lit, b: Lit, c: Lit | a.v < b.v < c.v && a.v < s.n && Undisturbed(v, s, a)
      ensures !(FourStored(s, a, b, c) && FourStored(s, a, b, Neg(c)))
    {
      if FourStored(s, a, b, c) && FourStored(s, a, b, Neg(c)) {
        BothFail(v, s, o, t, q, a, b, c);
      }
    }
  }

  lemma BothFail(v: View, s: Source, o: Options, t: Ternaries, q: Quads, a: Lit, b: Lit, c: Lit)
    requires FromClauses(s, t) && ListInRange(s.ca, s.list) && forall i :: 0 <= i < |s.list| ==> Listed(s.ca[s.list[i]], t, q)
    requires o.findXor && a.v < b.v < c.v && Undisturbed(v, s, a) && FourStored(s, a, b, c) && FourStored(s, a, b, Neg(c))
    ensures OutputFails(v, o, t, q, a.v)
  {
    hide XorsFrom, SumsOf, Listed, FromClauses, Undisturbed, SameGate, Contradiction;
    XorFound(v, s, t, q, a, b, c);
    XorFound(v, s, t, q, a, b, Neg(c));
    assert a == Lit(a.v, false) || a == Lit(a.v, true);
    OppositeFound(XorsFrom(v, t, Lit(a.v, false), 0) + XorsFrom(v, t, Lit(a.v, true), 0), XorsFrom(v, t, a, 0), a, b, c);
  }

  lemma OppositeFound(all: seq<Gate>, found: seq<Gate>, a: Lit, b: Lit, c: Lit)
    requires forall g :: g in found ==> g in all
    requires exists g :: g in found && SameGate(Xor(c, b, a), g)
    requires exists g :: g in found && SameGate(Xor(Neg(c), b, a), g)
    ensures Contradiction(all, 0)
  {
    var g :| g in found && SameGate(Xor(c, b, a), g);
    var h :| h in found && SameGate(Xor(Neg(c), b, a), h);
    var p :| 0 <= p < |all| && all[p] == g;
    var q :| 0 <= q < |all| && all[q] == h;
    OppositeStays(a, b, c, g, h);
    assert Opposite(all[p], all[q]);
  }

  lemma OppositeStays(a: Lit, b: Lit, c: Lit, g: Gate, h: Gate)
    requires SameGate(Xor(c, b, a), g) && SameGate(Xor(Neg(c), b, a), h)
    ensures Opposite(g, h)
  {
  }

  // All eight clauses of a parity constraint over four variables.
  ghost predicate AllSums(s: Source, gates: seq<Gate>) {
    forall a: Lit, b: Lit, c: Lit, d: Lit :: a.v < b.v < c.v < d.v && a.v < s.n && EightStored(s, a, b, c, d) ==>
      exists g :: g in gates && SameGate(FaSum(a, b, c, d), g)
  }

  lemma StoredQuad(s: Source, t: Ternaries, q: Quads, a: Lit, b: Lit, c: Lit, d: Lit)
    requires ListInRange(s.ca, s.list) && Stored(s, [a, b, c, d]) && forall i :: 0 <= i < |s.list| ==> Listed(s.ca[s.list[i]], t, q)
    requires b.v < c.v < d.v
    ensures Quad(b, c, d) in QuadsOf(q, a)
  {
    hide Others4, MakeQuad;
    var i :| 0 <= i < |s.list| && s.ca[s.list[i]] == Cls([a, b, c, d], false);
    assert Listed(s.ca[s.list[i]], t, q);
    FirstOthers(a, b, c, d);
  }

  lemma FirstOthers(a: Lit, b: Lit, c: Lit, d: Lit)
    requires b.v < c.v < d.v
    ensures Others4([a, b, c, d], 0) == Quad(b, c, d)
  {
    assert Others4([a, b, c, d], 0) == MakeQuad(d, b, c);
  }

  lemma SumFound(v: View, s: Source, t: Ternaries, q: Quads, a: Lit, b: Lit, c: Lit, d: Lit)
    requires ListInRange(s.ca, s.list) && forall i :: 0 <= i < |s.list| ==> Listed(s.ca[s.list[i]], t, q)
    requires a.v < b.v < c.v < d.v && EightStored(s, a, b, c, d)
    ensures FaSum(a, b, c, d) in SumsAt(v, t, q, a)
  {
    hide Listed, Covered;
    assert Stored(s, SumClause(0, a, b, c, d));
    StoredQuad(s, t, q, a, b, c, d);
    forall j | 1 <= j < 8 ensures InTables(t, q, SumClause(j, a, b, c, d)) {
      var e := SumClause(j, a, b, c, d);
      SumVariables(j, a, b, c, d);
      assert e == [e[0], e[1], e[2], e[3]];
      StoredQuad(s, t, q, e[0], e[1], e[2], e[3]);
    }
    hide InTables, SumClause;
    assert SumAt(v, t, q, a, Quad(b, c, d));
  }

  lemma SumVariables(j: nat, a: Lit, b: Lit, c: Lit, d: Lit)
    requires j < 8
    ensures var e := SumClause(j, a, b, c, d); e[0].v == a.v && e[1].v == b.v && e[2].v == c.v && e[3].v == d.v
  {
  }

  lemma AllSumsFound(v: View, s: Source, o: Options, occs: Lit -> seq<CRef>, t: Ternaries, q: Quads, gates: seq<Gate>, units: seq<Lit>)
    requires SourceOk(s) && o.findSum && AllFound(v, s, o, occs, t, q, gates, units)
    ensures AllSums(s, gates)
  {
    hide SourceOk, XorsFrom, SumsOf, AndsFound, Listed, FromClauses, SameGate;
    forall a: Lit, b: Lit, c: Lit, d: Lit | a.v < b.v < c.v < d.v && a.v < s.n && EightStored(s, a, b, c, d)
      ensures exists g :: g in gates && SameGate(FaSum(a, b, c, d), g)
    {
      SumFound(v, s, t, q, a, b, c, d);
      assert OutputFound(v, s, o, occs, t, q, a.v, gates, units);
      assert a == Lit(a.v, false) || a == Lit(a.v, true);
      assert FaSum(a, b, c, d) in SumsAt(v, t, q, Lit(a.v, false)) + SumsAt(v, t, q, Lit(a.v, true));
    }
  }

  // The lists of the clauses with a literal are complete.
  ghost predicate OccsComplete(s: Source, occs: Lit -> seq<CRef>) {
    forall l, i :: i in s.list && i < |s.ca| && !s.ca[i].deleted && l in s.ca[i].lits ==> i in occs(l)
  }

  // The clause has the output, and the output implies the complements of the others directly.
  ghost predicate AndStored(v: View, s: Source, pos: Lit, i: CRef) {
    && i in s.list && i < |s.ca| && !s.ca[i].deleted && |s.ca[i].lits| >= 3 && pos in s.ca[i].lits
    && forall l :: l in s.ca[i].lits && l != pos ==> (pos, Neg(l)) in v.edges
  }

  ghost predicate AllAnds(v: View, s: Source, genAnd: bool, gates: seq<Gate>, units: seq<Lit>) {
    && (forall pos: Lit :: pos.v < s.n && Torn(v, pos) ==> Neg(pos) in units)
    && forall pos: Lit, i: CRef :: pos.v < s.n && AndStored(v, s, pos, i) && !Torn(v, pos) && (genAnd || |s.ca[i].lits| == 3) ==>
         exists ins :: And(pos, ins) in gates && forall l :: l in ins <==> Neg(l) in s.ca[i].lits && Neg(l) != pos
  }

  // The output has at least one child for every other literal.
  lemma EnoughChildren(v: View, s: Source, pos: Lit, i: CRef, children: seq<Lit>)
    requires SourceOk(s) && AndStored(v, s, pos, i) && ChildrenAre(v, pos, children)
    ensures |children| > 1 && |s.ca[i].lits| <= |children| + 1
  {
    var c := s.ca[i].lits;
    StoredProper(s, i);
    var mapped := set l | l in c && l != pos :: Neg(l);
    forall x | x in mapped ensures x in Lits(children) {
      var l :| l in c && l != pos && x == Neg(l);
      NegNeg(l);
      NegNeg(pos);
    }
    SubsetCard(mapped, Lits(children));
    OtherCount(c, pos);
    AtMost(children);
  }

  lemma StoredProper(s: Source, i: CRef)
    requires SourceOk(s) && i in s.list && i < |s.ca| && !s.ca[i].deleted
    ensures Proper(s.ca[i].lits)
  {
    var k :| 0 <= k < |s.list| && s.list[k] == i;
  }

  lemma {:induction false} AtMost(p: seq<Lit>)
    ensures |Lits(p)| <= |p|
  {
    if p != [] {
      AtMost(p[1..]);
      assert p == [p[0]] + p[1..];
      assert Lits(p) == {p[0]} + Lits(p[1..]);
    }
  }

  // A clause without repetitions has one literal more than the complements of the others.
  lemma OtherCount(c: Clause, pos: Lit)
    requires Sorted(c) && pos in c
    ensures |set l | l in c && l != pos :: Neg(l)| == |c| - 1
  {
    NegatedCount(c);
    var all, others := set l | l in c :: Neg(l), set l | l in c && l != pos :: Neg(l);
    forall l | l in c && l != pos ensures Neg(l) != Neg(pos) { NegNeg(l); NegNeg(pos); }
    assert all == others + {Neg(pos)};
  }

  lemma {:induction false} NegatedCount(c: Clause)
    requires Sorted(c)
    ensures |set l | l in c :: Neg(l)| == |c|
  {
    if c == [] {
      assert (set l | l in c :: Neg(l)) == {};
    } else {
      var m := |c| - 1;
      NegatedCount(c[..m]);
      assert c == c[..m] + [c[m]];
      SortedPrefix(c, m);
      forall l | l in c[..m] ensures Neg(l) != Neg(c[m]) { NegNeg(l); NegNeg(c[m]); }
      assert (set l | l in c :: Neg(l)) == (set l | l in c[..m] :: Neg(l)) + {Neg(c[m])};
    }
  }

  lemma AllAndsFound(v: View, s: Source, o: Options, occs: Lit -> seq<CRef>, t: Ternaries, q: Quads, gates: seq<Gate>, units: seq<Lit>)
    requires SourceOk(s) && o.findAnd && AllFound(v, s, o, occs, t, q, gates, units) && OccsComplete(s, occs)
    ensures AllAnds(v, s, o.genAnd, gates, units)
  {
    hide SourceOk, XorsFrom, SumsOf, Listed, FromClauses, AllIn, Torn, OccsComplete;
    forall pos: Lit | pos.v < s.n ensures AndsFound(v, s, pos, o.genAnd, occs(pos), t, gates, units) {
      assert OutputFound(v, s, o, occs, t, q, pos.v, gates, units);
      assert pos == Lit(pos.v, pos.neg);
    }
    forall pos: Lit, i: CRef | pos.v < s.n && AndStored(v, s, pos, i) && !Torn(v, pos) && (o.genAnd || |s.ca[i].lits| == 3)
      ensures exists ins :: And(pos, ins) in gates && forall l :: l in ins <==> Neg(l) in s.ca[i].lits && Neg(l) != pos
    {
      AndFound(v, s, pos, i, o.genAnd, occs, t, q, gates, units);
    }
  }

  lemma AndFound(v: View, s: Source, pos: Lit, i: CRef, genAnd: bool, occs: Lit -> seq<CRef>, t: Ternaries, q: Quads,
                 gates: seq<Gate>, units: seq<Lit>)
    requires SourceOk(s) && AndStored(v, s, pos, i) && !Torn(v, pos) && (genAnd || |s.ca[i].lits| == 3)
    requires AndsFound(v, s, pos, genAnd, occs(pos), t, gates, units) && OccsComplete(s, occs)
    requires forall k :: 0 <= k < |s.list| ==> s.list[k] < |s.ca| && Listed(s.ca[s.list[k]], t, q)
    ensures exists ins :: And(pos, ins) in gates && forall l :: l in ins <==> Neg(l) in s.ca[i].lits && Neg(l) != pos
  {
    hide Torn, SourceOk;
    var c := s.ca[i].lits;
    var children :| ChildrenAre(v, pos, children) && FitsFound(v, s, pos, genAnd, occs(pos), t, gates, |children|);
    EnoughChildren(v, s, pos, i, children);
    hide ChildrenAre;
    if genAnd {
      assert AndFits(v, s, pos, |children|, i) && i in occs(pos);
      assert And(pos, Inputs(c, pos)) in gates;
    } else {
      var k :| 0 <= k < |s.list| && s.list[k] == i;
      var j :| 0 <= j < 3 && c[j] == pos;
      var x := Others3(c, j);
      assert x in TernariesOf(t, pos);
      SameThree(c, j);
      assert Follows(v, pos, [x.l1, x.l2]);
      assert And(pos, Inputs([pos, x.l1, x.l2], pos)) in gates;
    }
  }

  lemma SameThree(c: Clause, j: nat)
    requires |c| == 3 && j < 3
    ensures forall l :: l in [c[j], Others3(c, j).l1, Others3(c, j).l2] <==> l in c
    ensures forall l :: l in [Others3(c, j).l1, Others3(c, j).l2] ==> l in c
  {
    assert c == [c[0], c[1], c[2]];
  }

  // Without binary clauses inside the ternary clauses nothing can disturb the search.
  lemma NoBinariesInside(v: View, s: Source, a: Lit)
    requires SourceOk(s) && v.edges == EdgeSet(s.ca, s.list)
    requires forall i: CRef, k :: LiveTernary(s, i) && a in s.ca[i].lits && 0 <= k < |s.list| && UsesClause(s.ca[s.list[k]]) ==>
      !(VarIn(s.ca[s.list[k]].lits[0], s.ca[i].lits) && VarIn(s.ca[s.list[k]].lits[1], s.ca[i].lits))
    ensures Undisturbed(v, s, a)
  {
    hide VarIn, EdgeSet;
    forall x, y | (x, y) in v.edges ensures !Near(s, a, x, y) {
      var k := ClauseOfEdge(s, x, y);
      forall i: CRef | LiveTernary(s, i) && a in s.ca[i].lits ensures !(VarIn(x, s.ca[i].lits) && VarIn(y, s.ca[i].lits)) {
        SameVarIn(x, s.ca[s.list[k]].lits[0], s.ca[s.list[k]].lits[1], y, s.ca[i].lits);
      }
    }
  }

  lemma ClauseOfEdge(s: Source, x: Lit, y: Lit) returns (k: nat)
    requires SourceOk(s) && (x, y) in EdgeSet(s.ca, s.list)
    ensures k < |s.list| && s.list[k] < |s.ca| && UsesClause(s.ca[s.list[k]])
    ensures var c := s.ca[s.list[k]].lits; (x.v == c[0].v && y.v == c[1].v) || (x.v == c[1].v && y.v == c[0].v)
  {
    EdgeFromClause(s.ca, s.list, s.n, x, y);
    k :| 0 <= k < |s.list| && UsesClause(s.ca[s.list[k]]) && y in EdgeOf(s.ca[s.list[k]], x);
  }

  lemma SameVarIn(x: Lit, l: Lit, k: Lit, y: Lit, c: Clause)
    requires (x.v == l.v && y.v == k.v) || (x.v == k.v && y.v == l.v)
    ensures VarIn(x, c) && VarIn(y, c) <==> VarIn(l, c) && VarIn(k, c)
  {
  }

  // Nor can they in a graph whose edges the stamps all know.
  lemma ForestUndisturbed(big: BIG, s: Source, a: Lit)
    requires SourceOk(s) && big.n == s.n && big.Stamped(EdgeSet(s.ca, s.list))
    requires Answers.NoCycle(EdgeSet(s.ca, s.list)) && Answers.OnePredecessor(EdgeSet(s.ca, s.list))
    ensures Undisturbed(ViewOf(big, s), s, a)
  {
    hide Near;
    var E := EdgeSet(s.ca, s.list);
    EdgeSetFacts(s.ca, s.list, s.n);
    forall x, y | Near(s, a, x, y) && (x, y) in E ensures (x, y) in ViewOf(big, s).says {
      ReachRefl(E, x);
      ReachStep(E, x, x, y);
      NoSelfEdge(s, x);
      Answers.ForestSays(big, E, x, y);
    }
  }

  // extractGates: builds the graph and looks for gates with each variable as output.
  method ExtractGates(big: BIG, s: Source, o: Options, occs: Lit -> seq<CRef>)
    returns (gates: seq<Gate>, units: seq<Lit>, failed: bool)
    requires SourceOk(s) && forall l :: OccOk(s, l, occs(l))
    modifies big
    ensures AllEntailed(s, gates) && UnitsEntailed(s, units) && (failed ==> NoSourceModel(s))
    ensures o.findAnd && OccsComplete(s, occs) ==> AllAnds(ViewOf(big, s), s, o.genAnd, gates, units)
    ensures o.findXor ==> AllXors(ViewOf(big, s), s, gates)
    ensures o.findSum ==> AllSums(s, gates)
    ensures o.findXor && !failed ==> NoOpposites(ViewOf(big, s), s)
    ensures big.n == s.n && if o.implied then big.Stamped(EdgeSet(s.ca, s.list)) else big.start == []
  {
    hide AllFound, AllEntailed, UnitsEntailed, NoSourceModel, OccOk, AllAnds, AllXors, AllSums, OutputFails, NoOpposites;
    if o.implied {
      BuildGraph(big, s.ca, s.n, s.list);
    } else {
      StartGraph(big, s.ca, s.n, s.list);
    }
    ghost var t, q;
    gates, units, failed, t, q := ExtractFrom(big, s, o, occs);
    ghost var v := ViewOf(big, s);
    if o.findAnd && OccsComplete(s, occs) { AllAndsFound(v, s, o, occs, t, q, gates, units); }
    if o.findXor {
      AllXorsFound(v, s, o, occs, t, q, gates, units);
      if !failed { NoneOpposite(v, s, o, occs, t, q, gates, units); }
    }
    if o.findSum { AllSumsFound(v, s, o, occs, t, q, gates, units); }
  }
}
