// Bounded variable elimination with gate definitions (coprocessor/techniques/BVE.cc).

module VariableElimination {
  import opened Collections
  import opened Sat
  import opened Undo
  import opened Steps
  import opened Formula
  import opened Propagation
  import opened Resolvents
  import opened Definitions
  import BlockedClauses

  // ---------- the clauses on one variable ----------

  // The clauses on x and ~x in list order, as they were when the elimination of x began.
  // The first pl and nl of them are the definition, if there is one.
  datatype Job = Job(x: Lit, pos: seq<CRef>, neg: seq<CRef>, pos0: seq<Clause>, neg0: seq<Clause>, pl: nat, nl: nat)

  // All clauses are on the same literal.
  predicate OneSided(j: Job) {
    j.pos == [] || j.neg == []
  }

  predicate HasDefinition(j: Job) {
    j.pl < |j.pos| || j.nl < |j.neg|
  }

  // Pairs of which at least one clause is part of the definition; pairs inside the
  // definition are left out, too.
  predicate Considered(j: Job, a: nat, b: nat) {
    && a < |j.pos| && b < |j.neg|
    && !(a >= j.pl && b >= j.nl) && !(HasDefinition(j) && a < j.pl && b < j.nl)
  }

  ghost predicate SideOk(list: seq<CRef>, lits: seq<Clause>, p: Lit) {
    && |list| == |lits| && NoDup(list)
    && forall i :: 0 <= i < |lits| ==> p in lits[i] && Proper(lits[i])
  }

  ghost predicate JobOk(j: Job) {
    && SideOk(j.pos, j.pos0, j.x) && SideOk(j.neg, j.neg0, Neg(j.x))
    && (HasDefinition(j) ==> j.pl <= |j.pos| && j.nl <= |j.neg| && Defines(j.x, j.pos0[..j.pl], j.neg0[..j.nl]))
  }

  function Flip(j: Job): Job {
    Job(Neg(j.x), j.neg, j.pos, j.neg0, j.pos0, j.nl, j.pl)
  }

  lemma DefinesFlip(x: Lit, pos: seq<Clause>, neg: seq<Clause>)
    requires Defines(x, pos, neg)
    ensures Defines(Neg(x), neg, pos)
  {
    assert Neg(Neg(x)) == x;
    forall m: Model ensures SomeFalseBody(m, Neg(x), neg, pos) {
      assert SomeFalseBody(m, x, pos, neg);
    }
    forall i, k | 0 <= i < |neg| && 0 <= k < |pos| ensures Clash(neg[i], Neg(x), pos[k]) {
      Symmetric(pos[k], neg[i], x, 0, 0, []);
    }
  }

  lemma FlipOk(j: Job)
    requires JobOk(j)
    ensures JobOk(Flip(j)) && Flip(Flip(j)) == j
    ensures forall a, b :: Considered(Flip(j), b, a) <==> Considered(j, a, b)
  {
    assert Neg(Neg(j.x)) == j.x;
    if HasDefinition(j) { DefinesFlip(j.x, j.pos0[..j.pl], j.neg0[..j.nl]); }
  }

  // ---------- pairs that need no resolvent ----------

  ghost predicate TrueBody(trail: seq<Lit>, c: Clause, p: Lit) {
    exists y :: y in c && y != p && y in trail
  }

  // The resolvent of c and d is a tautology or satisfied by the trail.
  ghost predicate Settled(trail: seq<Lit>, c: Clause, x: Lit, d: Clause) {
    Clash(c, x, d) || TrueBody(trail, c, x) || TrueBody(trail, d, Neg(x))
  }

  ghost predicate IsResolvent(r: Cls, c: Clause, x: Lit, d: Clause) {
    !r.deleted && forall l :: l in r.lits ==> (l in c && l != x) || (l in d && l != Neg(x))
  }

  ghost predicate Resolved(ca: seq<Cls>, trail: seq<Lit>, c: Clause, x: Lit, d: Clause) {
    Settled(trail, c, x, d) || exists r :: 0 <= r < |ca| && IsResolvent(ca[r], c, x, d)
  }

  lemma SettledFlip(trail: seq<Lit>, c: Clause, x: Lit, d: Clause)
    ensures Settled(trail, c, x, d) <==> Settled(trail, d, Neg(x), c)
  {
    Symmetric(c, d, x, 0, 0, []);
    assert Neg(Neg(x)) == x;
  }

  lemma SettledMeans(m: Model, trail: seq<Lit>, c: Clause, x: Lit, d: Clause)
    requires Settled(trail, c, x, d) && AllHold(m, trail) && !Tautology(d) && Neg(x) in d
    ensures BodySat(m, c, x) || BodySat(m, d, Neg(x))
  {
    if Clash(c, x, d) {
      var y :| y in c && y != x && Neg(y) in d;
      assert Neg(y) != Neg(x);
      assert Holds(m, y) || Holds(m, Neg(y));
    }
  }

  lemma ResolvedMeans(m: Model, ca: seq<Cls>, trail: seq<Lit>, c: Clause, x: Lit, d: Clause)
    requires Resolved(ca, trail, c, x, d) && AllHold(m, trail) && !Tautology(d) && Neg(x) in d
    requires forall r :: 0 <= r < |ca| && IsResolvent(ca[r], c, x, d) ==> SatClause(m, ca[r].lits)
    ensures BodySat(m, c, x) || BodySat(m, d, Neg(x))
  {
    if Settled(trail, c, x, d) {
      SettledMeans(m, trail, c, x, d);
    } else {
      var r :| 0 <= r < |ca| && IsResolvent(ca[r], c, x, d);
      var l :| l in ca[r].lits && Holds(m, l);
    }
  }

  // ---------- clauses while they shrink ----------

  ghost predicate Tracked(ca: seq<Cls>, list: seq<CRef>, lits: seq<Clause>, trail: seq<Lit>, satisfied: bool) {
    |list| == |lits| && forall i :: 0 <= i < |list| ==>
      list[i] < |ca| && SimplifiedBy(Cls(lits[i], false), ca[list[i]], trail, satisfied)
  }

  lemma SimplifiedTrans(a: Cls, b: Cls, c: Cls, t: seq<Lit>, t': seq<Lit>, ok: bool)
    requires SimplifiedBy(a, b, t, ok) && SimplifiedBy(b, c, t', ok) && t <= t'
    ensures SimplifiedBy(a, c, t', ok)
  {
    assert forall l :: l in t ==> l in t';
  }

  lemma SimplifiedWeaker(a: Cls, b: Cls, t: seq<Lit>)
    requires SimplifiedBy(a, b, t, true)
    ensures SimplifiedBy(a, b, t, false)
  {
  }

  lemma TrackedLater(was: seq<Cls>, ca: seq<Cls>, list: seq<CRef>, lits: seq<Clause>, t: seq<Lit>, t': seq<Lit>, satisfied: bool)
    requires Tracked(was, list, lits, t, satisfied) && Simplified(was, ca, t', true) && t <= t'
    ensures Tracked(ca, list, lits, t', satisfied)
  {
    hide SimplifiedBy;
    forall i | 0 <= i < |list| ensures SimplifiedBy(Cls(lits[i], false), ca[list[i]], t', satisfied) {
      assert SimplifiedBy(was[list[i]], ca[list[i]], t', true);
      SimplifiedWeaker(was[list[i]], ca[list[i]], t');
      SimplifiedTrans(Cls(lits[i], false), was[list[i]], ca[list[i]], t, t', satisfied);
    }
  }

  // A clause loses its body only where the trail makes it false.
  lemma SameBody(m: Model, c0: Clause, c: Cls, p: Lit, trail: seq<Lit>)
    requires SimplifiedBy(Cls(c0, false), c, trail, false) && !c.deleted && AllHold(m, trail)
    ensures BodySat(m, c0, p) <==> BodySat(m, c.lits, p)
  {
    if BodySat(m, c0, p) {
      var y :| y in c0 && y != p && Holds(m, y);
      assert y !in c.lits ==> Holds(m, Neg(y));
    }
  }

  // Propagation drops a clause only if its body is true.
  lemma DroppedBody(c0: Clause, c: Cls, p: Lit, trail: seq<Lit>)
    requires SimplifiedBy(Cls(c0, false), c, trail, true) && c.deleted && Unassigned(trail, p)
    ensures TrueBody(trail, c0, p)
  {
  }

  ghost predicate NoneAssigned(c: Clause, trail: seq<Lit>) {
    forall l :: l in c ==> Unassigned(trail, l)
  }

  // For two clauses that are still there, being settled means to clash.
  lemma SettledClash(trail: seq<Lit>, c0: Clause, c: Cls, x: Lit, d0: Clause, d: Cls)
    requires TrailOk(trail) && Settled(trail, c0, x, d0)
    requires SimplifiedBy(Cls(c0, false), c, trail, false) && !c.deleted && NoneAssigned(c.lits, trail)
    requires SimplifiedBy(Cls(d0, false), d, trail, false) && !d.deleted && NoneAssigned(d.lits, trail)
    ensures Clash(c.lits, x, d.lits)
  {
    forall y | y in trail ensures y !in c0 && y !in d0 {
      assert Neg(y) !in trail;
    }
    assert Clash(c0, x, d0);
    var y :| y in c0 && y != x && Neg(y) in d0;
    assert Neg(Neg(y)) == y;
    assert y !in c.lits ==> Neg(y) in trail;
    assert Neg(y) !in d.lits ==> y in trail;
  }

  lemma ClashBefore(c0: Clause, c: Clause, x: Lit, d0: Clause, d: Clause)
    requires (forall l :: l in c ==> l in c0) && (forall l :: l in d ==> l in d0)
    ensures Clash(c, x, d) ==> Clash(c0, x, d0)
  {
  }

  // ---------- the state during one elimination ----------

  ghost predicate Lists(data: CoprocessorData, j: Job)
    reads data`occs
  {
    List(data.occs, j.x) == j.pos && List(data.occs, Neg(j.x)) == j.neg
  }

  // x is still free, and the clauses on x have at most shrunk or been satisfied.
  ghost predicate Working(data: CoprocessorData, j: Job, satisfied: bool)
    reads data`ca, data`occs, data`trail
  {
    && JobOk(j) && Lists(data, j) && Unassigned(data.trail, j.x)
    && Tracked(data.ca, j.pos, j.pos0, data.trail, satisfied)
    && Tracked(data.ca, j.neg, j.neg0, data.trail, satisfied)
  }

  // A unit clause has decided x: its clauses are gone.
  ghost predicate Gone(data: CoprocessorData, x: Lit)
    reads data`occs, data`trail
  {
    !Unassigned(data.trail, x) && List(data.occs, x) == [] && List(data.occs, Neg(x)) == []
  }

  ghost predicate Steady(data: CoprocessorData)
    reads data
  {
    BlockedClauses.Ready(data) && data.Sound() && NoUnits(data.ca) && Implies(data.origin, data.F())
  }

  // Every model of the one is a model of the other.
  ghost predicate Implies(f: set<Clause>, g: set<Clause>) {
    forall m: Model {:trigger SatAll(m, f)} :: SatAll(m, f) ==> SatAll(m, g)
  }

  lemma ImpliesMore(o: set<Clause>, f: set<Clause>, c: Clause)
    requires Implies(o, f) && Entails(f, c)
    ensures Implies(o, f + {c})
  {
    forall m: Model | SatAll(m, o) ensures SatAll(m, f + {c}) {
      SatAllUnion(m, f, {c});
      SatAllSingle(m, c);
    }
  }

  lemma ImpliesEquiv(o: set<Clause>, f: set<Clause>, g: set<Clause>)
    requires Implies(o, f) && Equiv(f, g)
    ensures Implies(o, g)
  {
  }

  lemma ImpliesFewer(o: set<Clause>, f: set<Clause>, g: set<Clause>)
    requires Implies(o, f) && g <= f
    ensures Implies(o, g)
  {
    forall m: Model | SatAll(m, o) ensures SatAll(m, g) {
      assert SatAll(m, f);
    }
  }

  lemma FewerImplied(o: set<Clause>, ca: seq<Cls>, cr: CRef, trail: seq<Lit>, ok: bool)
    requires cr < |ca| && !ca[cr].deleted && Implies(o, FormulaOf(ca, trail, ok))
    ensures Implies(o, FormulaOf(Dropped(ca, cr), trail, ok))
  {
    FormulaDelete(ca, cr, trail, ok);
    ImpliesFewer(o, FormulaOf(ca, trail, ok), FormulaOf(Dropped(ca, cr), trail, ok));
  }

  // With u on the trail, some clause decides the variable of x.
  ghost predicate DecidesBy(ca: seq<Cls>, x: Lit, u: Lit) {
    exists i :: 0 <= i < |ca| && DecidingClause(ca[i], x, u)
  }

  ghost predicate DecidingClause(c: Cls, x: Lit, u: Lit) {
    !c.deleted && Neg(u) in c.lits && forall l :: l in c.lits ==> l == Neg(u) || l.v == x.v
  }

  lemma DecidedNow(was: seq<Cls>, data: CoprocessorData, x: Lit, u: Lit)
    requires Steady(data) && u in data.trail && Simplified(was, data.ca, data.trail, true)
    ensures DecidesBy(was, x, u) ==> !Unassigned(data.trail, x)
  {
    hide Step, OccsOk, Implies, DecidingClause, SimplifiedBy;
    if DecidesBy(was, x, u) {
      var i :| 0 <= i < |was| && DecidingClause(was[i], x, u);
      assert data.trail[..data.qhead] == data.trail;
      assert SimplifiedBy(was[i], data.ca[i], data.trail, true);
      PropagatedLiteral(data.ca[i], data.trail, u);
      DecidingDropped(was[i], data.ca[i], x, u, data.trail);
      DecidingSatisfied(was[i], data.ca[i], x, u, data.trail);
    }
  }

  lemma PropagatedLiteral(c: Cls, trail: seq<Lit>, u: Lit)
    requires u in trail && (!c.deleted ==> forall l :: l in c.lits ==> Unassigned(trail, l))
    ensures !c.deleted ==> Neg(u) !in c.lits
  {
    assert Neg(Neg(u)) == u;
  }

  // Nothing but literals of one variable would be left.
  lemma DecidingDropped(a: Cls, c: Cls, x: Lit, u: Lit, trail: seq<Lit>)
    requires DecidingClause(a, x, u) && SimplifiedBy(a, c, trail, true) && (!c.deleted ==> Neg(u) !in c.lits)
    ensures !c.deleted ==> |c.lits| <= 1 || !Proper(c.lits)
  {
    if !c.deleted && |c.lits| > 1 {
      var y, z := c.lits[0], c.lits[1];
      assert y in c.lits && z in c.lits;
      assert y.v == x.v && z.v == x.v;
      assert y == z || Neg(y) == z;
    }
  }

  lemma DecidingSatisfied(a: Cls, c: Cls, x: Lit, u: Lit, trail: seq<Lit>)
    requires DecidingClause(a, x, u) && SimplifiedBy(a, c, trail, true) && TrailOk(trail) && u in trail
    ensures c.deleted ==> !Unassigned(trail, x)
  {
    if c.deleted {
      var l :| l in a.lits && l in trail;
      assert l == x || l == Neg(x) || l == Neg(u);
    }
  }

  // A unit that was found is put on the trail and propagated.
  method PropagateUnit(data: CoprocessorData, u: Lit, ghost j: Job, ghost satisfied: bool) returns (status: LBool)
    requires Steady(data) && Working(data, j, satisfied) && Entails(data.F(), [u])
    modifies data`ca, data`occs, data`trail, data`ok, data`qhead
    ensures data.Valid() && data.Sound() && (status == False <==> !data.ok)
    ensures status != False ==> Steady(data) && u in data.trail && old(data.trail) <= data.trail
    ensures |data.ca| == |old(data.ca)|
    ensures status != False ==> Simplified(old(data.ca), data.ca, data.trail, true)
    ensures status != False ==> Gone(data, j.x) || Working(data, j, satisfied)
    ensures status != False && DecidesBy(old(data.ca), j.x, u) ==> Gone(data, j.x)
  {
    hide Tracked, JobOk, OccsOk, ClausesOk, Propagated, Step, FormulaOf, Simplified, Equiv, NoUnits, DecidesBy, Implies, PivotsFree;
    ghost var was, occs, trail, f := data.ca, data.occs, data.trail, data.F();
    UnitStep(data, u);
    ImpliesMore(data.origin, data.F(), [u]);
    FormulaUnit(data.ca, data.trail, u, true);
    status := data.Enqueue(u);
    if status == False { return; }
    if status == True {
      ghost var mid := data.F();
      assert data.qhead == |trail|;
      status := Process(data);
      PropagationStep(data.input, mid, data.F(), Segs(data.undo));
      ImpliesEquiv(data.origin, mid, data.F());
      if status == False { return; }
      assert data.trail[|trail|] == u;
      CutLists(occs, data.occs, trail, data.trail, j.x);
    } else {
      SimplifiedRefl(data.ca, data.trail, data.ok);
    }
    DecidedNow(was, data, j.x, u);
    if Unassigned(data.trail, j.x) {
      TrackedLater(was, data.ca, j.pos, j.pos0, trail, data.trail, satisfied);
      TrackedLater(was, data.ca, j.neg, j.neg0, trail, data.trail, satisfied);
    }
  }

  lemma UnitStep(data: CoprocessorData, u: Lit)
    requires data.Valid() && data.Sound() && data.ok && Entails(data.F(), [u])
    ensures Step(data.input, FormulaOf(data.ca, data.trail + [u], true), Segs(data.undo))
    ensures Neg(u) in data.trail ==> Step(data.input, FormulaOf(data.ca, data.trail, false), Segs(data.undo))
  {
    var f, segs := data.F(), Segs(data.undo);
    FormulaUnit(data.ca, data.trail, u, true);
    EntailedStep(data.input, f, [u], segs);
    if Neg(u) in data.trail {
      forall m: Model ensures SatAll(m, f) <==> SatAll(m, FormulaOf(data.ca, data.trail, false)) {
        SatFormula(m, data.ca, data.trail, true);
        SatFormula(m, data.ca, data.trail, false);
        SatUnit(m, u);
        assert Holds(m, u) ==> !Holds(m, Neg(u));
      }
      EquivalentStep(f, FormulaOf(data.ca, data.trail, false));
      StepCompose(data.input, f, FormulaOf(data.ca, data.trail, false), segs, []);
      assert segs + [] == segs;
    }
  }

  lemma SatUnit(m: Model, u: Lit)
    ensures SatClause(m, [u]) <==> Holds(m, u)
  {
    assert u in [u];
  }

  lemma EntailedStep(input: set<Clause>, f: set<Clause>, c: Clause, segs: seq<Clause>)
    requires Step(input, f, segs) && Entails(f, c)
    ensures Step(input, f + {c}, segs)
  {
    forall m: Model ensures SatAll(m, f) <==> SatAll(m, f + {c}) {
      SatAllUnion(m, f, {c});
      SatAllSingle(m, c);
    }
    EquivalentStep(f, f + {c});
    StepCompose(input, f, f + {c}, segs, []);
    assert segs + [] == segs;
  }

  lemma PropagationStep(input: set<Clause>, f: set<Clause>, g: set<Clause>, segs: seq<Clause>)
    requires Step(input, f, segs) && Equiv(f, g)
    ensures Step(input, g, segs)
  {
    EquivalentStep(f, g);
    StepCompose(input, f, g, segs, []);
    assert segs + [] == segs;
  }

  lemma CutLists(was: Occs, now: Occs, before: seq<Lit>, trail: seq<Lit>, x: Lit)
    requires before <= trail && ListsCut(was, now, trail[|before|..]) && Unassigned(before, x)
    ensures Unassigned(trail, x) ==> List(now, x) == List(was, x) && List(now, Neg(x)) == List(was, Neg(x))
    ensures !Unassigned(trail, x) ==> List(now, x) == [] && List(now, Neg(x)) == []
  {
    var more := trail[|before|..];
    assert trail == before + more;
    assert Neg(Neg(x)) == x;
    assert Unassigned(trail, x) <==> Unassigned(more, x);
    assert Unassigned(more, x) <==> Unassigned(more, Neg(x));
  }

  // ---------- anticipateElimination ----------

  datatype Config = Config(findGate: bool, funcDepOnly: bool, blocked: bool, earlyAbort: bool, bceOnly: bool,
                           grow: int, growTotal: int)

  class BoundedVariableElimination {
    var posStats: seq<nat>
    var negStats: seq<nat>
    var totallyAddedClauses: int

    constructor ()
      ensures totallyAddedClauses == 0 && Cleared()
    {
      posStats, negStats, totallyAddedClauses := [], [], 0;
    }

    // Between two variables nothing has been counted.
    ghost predicate Cleared()
      reads `posStats, `negStats
    {
      posStats == [] && negStats == []
    }

    lemma NothingCounted()
      requires posStats == [] && negStats == []
      ensures Cleared()
    {
    }

    lemma ClearedIs()
      requires Cleared()
      ensures posStats == [] && negStats == []
    {
    }
  }

  // A pair that yields a clause with at least two literals.
  ghost predicate IsProductive(j: Job, a: nat, b: nat)
    requires JobOk(j)
  {
    Considered(j, a, b) && !Clash(j.pos0[a], j.x, j.neg0[b]) && |ResolventLits(j.pos0[a], j.neg0[b], j.x)| > 1
  }

  ghost function Productive(j: Job): set<(nat, nat)>
    requires JobOk(j)
  {
    set a, b | 0 <= a < |j.pos| && 0 <= b < |j.neg| && IsProductive(j, a, b) :: (a, b)
  }

  // No considered pair yields a unit or empty clause.
  ghost predicate NoSmallResolvents(j: Job)
    requires JobOk(j)
  {
    forall a: nat, b: nat :: Considered(j, a, b) ==> Clash(j.pos0[a], j.x, j.neg0[b]) || IsProductive(j, a, b)
  }

  ghost predicate Unshrunk(ca: seq<Cls>, list: seq<CRef>, lits: seq<Clause>) {
    |list| == |lits| && forall i :: 0 <= i < |list| ==> list[i] < |ca| && ca[list[i]] == Cls(lits[i], false)
  }

  lemma InBounds(data: CoprocessorData, j: Job, satisfied: bool)
    requires Working(data, j, satisfied)
    ensures |j.pos| == |j.pos0| && |j.neg| == |j.neg0|
    ensures forall a :: 0 <= a < |j.pos| ==> j.pos[a] < |data.ca|
    ensures forall b :: 0 <= b < |j.neg| ==> j.neg[b] < |data.ca|
  {
  }

  lemma LiveFacts(data: CoprocessorData, j: Job, a: nat, satisfied: bool)
    requires Steady(data) && Working(data, j, satisfied) && a < |j.pos| && !data.ca[j.pos[a]].deleted
    ensures Proper(data.ca[j.pos[a]].lits) && NoneAssigned(data.ca[j.pos[a]].lits, data.trail)
    ensures j.x in data.ca[j.pos[a]].lits && |data.ca[j.pos[a]].lits| > 1
    ensures forall l :: l in data.ca[j.pos[a]].lits ==> l in j.pos0[a]
    ensures SimplifiedBy(Cls(j.pos0[a], false), data.ca[j.pos[a]], data.trail, false)
  {
    assert InList(data.occs, j.x, j.pos[a]);
    assert data.trail[..data.qhead] == data.trail;
    SimplifiedWeakerAll(j.pos0[a], data.ca[j.pos[a]], data.trail, satisfied);
  }

  lemma SimplifiedWeakerAll(c0: Clause, c: Cls, t: seq<Lit>, satisfied: bool)
    requires SimplifiedBy(Cls(c0, false), c, t, satisfied)
    ensures SimplifiedBy(Cls(c0, false), c, t, false)
  {
  }

  lemma LiveFactsNeg(data: CoprocessorData, j: Job, b: nat, satisfied: bool)
    requires Steady(data) && Working(data, j, satisfied) && b < |j.neg| && !data.ca[j.neg[b]].deleted
    ensures Proper(data.ca[j.neg[b]].lits) && NoneAssigned(data.ca[j.neg[b]].lits, data.trail)
    ensures Neg(j.x) in data.ca[j.neg[b]].lits && |data.ca[j.neg[b]].lits| > 1
    ensures forall l :: l in data.ca[j.neg[b]].lits ==> l in j.neg0[b]
    ensures SimplifiedBy(Cls(j.neg0[b], false), data.ca[j.neg[b]], data.trail, false)
  {
    assert InList(data.occs, Neg(j.x), j.neg[b]);
    assert data.trail[..data.qhead] == data.trail;
    SimplifiedWeakerAll(j.neg0[b], data.ca[j.neg[b]], data.trail, satisfied);
  }

  // The clauses and the trail at some point of a run.
  datatype Snapshot = Snapshot(ca: seq<Cls>, trail: seq<Lit>)

  ghost function Snap(data: CoprocessorData): Snapshot
    reads data`ca, data`trail
  {
    Snapshot(data.ca, data.trail)
  }

  predicate NotOn(c: Clause, v: nat) {
    forall l :: l in c ==> l.v != v
  }

  // Deleted clauses stay deleted, those that are not on v are at most simplified, and new
  // ones come at the end.
  ghost predicate Kept(was: Snapshot, now: Snapshot, v: nat) {
    && was.trail <= now.trail && |was.ca| <= |now.ca|
    && (forall i :: 0 <= i < |was.ca| && was.ca[i].deleted ==> now.ca[i].deleted)
    && (forall i :: 0 <= i < |was.ca| && NotOn(was.ca[i].lits, v) ==> SimplifiedBy(was.ca[i], now.ca[i], now.trail, true))
  }

  lemma KeptStep(was: seq<Cls>, t: seq<Lit>, ca: seq<Cls>, t': seq<Lit>, v: nat)
    requires t <= t' && ((was <= ca && t == t') || Simplified(was, ca, t', true))
    ensures Kept(Snapshot(was, t), Snapshot(ca, t'), v)
  {
    if was <= ca && t == t' {
      forall i | 0 <= i < |was| ensures SimplifiedBy(was[i], ca[i], t', true) {
        assert ca[i] == was[i];
      }
    }
  }

  lemma KeptSame(data: CoprocessorData, v: nat)
    ensures Kept(Snap(data), Snap(data), v)
  {
    KeptStep(data.ca, data.trail, data.ca, data.trail, v);
  }

  lemma KeptTrans(a: Snapshot, b: Snapshot, c: Snapshot, v: nat)
    requires Kept(a, b, v) && Kept(b, c, v)
    ensures Kept(a, c, v)
  {
    hide SimplifiedBy;
    forall i | 0 <= i < |a.ca| && NotOn(a.ca[i].lits, v) ensures SimplifiedBy(a.ca[i], c.ca[i], c.trail, true) {
      assert SimplifiedBy(a.ca[i], b.ca[i], b.trail, true);
      StillNotOn(a.ca[i], b.ca[i], b.trail, v);
      SimplifiedTrans(a.ca[i], b.ca[i], c.ca[i], b.trail, c.trail, true);
    }
  }

  // No clause is dropped unless the trail satisfies it, and none is added.
  ghost predicate Shrunk(was: Snapshot, now: Snapshot) {
    was.trail <= now.trail && Simplified(was.ca, now.ca, now.trail, true)
  }

  lemma ShrunkStep(was: seq<Cls>, t: seq<Lit>, ca: seq<Cls>, t': seq<Lit>)
    requires t <= t' && Simplified(was, ca, t', true)
    ensures Shrunk(Snapshot(was, t), Snapshot(ca, t'))
  {
  }

  lemma ShrunkSame(data: CoprocessorData)
    ensures Shrunk(Snap(data), Snap(data))
  {
    SimplifiedRefl(data.ca, data.trail, true);
  }

  lemma ShrunkTrans(a: Snapshot, b: Snapshot, c: Snapshot)
    requires Shrunk(a, b) && Shrunk(b, c)
    ensures Shrunk(a, c)
  {
    hide SimplifiedBy;
    forall i | 0 <= i < |a.ca| ensures SimplifiedBy(a.ca[i], c.ca[i], c.trail, true) {
      SimplifiedTrans(a.ca[i], b.ca[i], c.ca[i], b.trail, c.trail, true);
    }
  }

  lemma ShrunkKept(was: Snapshot, now: Snapshot, v: nat)
    requires Shrunk(was, now)
    ensures Kept(was, now, v) && |was.ca| == |now.ca|
  {
    hide SimplifiedBy;
    KeptStep(was.ca, was.trail, now.ca, now.trail, v);
  }

  lemma StillNotOn(a: Cls, b: Cls, t: seq<Lit>, v: nat)
    requires SimplifiedBy(a, b, t, true) && NotOn(a.lits, v)
    ensures NotOn(b.lits, v)
  {
  }

  // What two clauses that are still there say about their originals.
  lemma PairFacts(data: CoprocessorData, j: Job, a: nat, b: nat, satisfied: bool)
    requires Steady(data) && Working(data, j, satisfied) && a < |j.pos| && b < |j.neg|
    requires !data.ca[j.pos[a]].deleted && !data.ca[j.neg[b]].deleted
    ensures Settled(data.trail, j.pos0[a], j.x, j.neg0[b]) <==> Clash(data.ca[j.pos[a]].lits, j.x, data.ca[j.neg[b]].lits)
    ensures ResolventLits(data.ca[j.pos[a]].lits, data.ca[j.neg[b]].lits, j.x) <= ResolventLits(j.pos0[a], j.neg0[b], j.x)
    ensures |ResolventLits(data.ca[j.pos[a]].lits, data.ca[j.neg[b]].lits, j.x)| <= |ResolventLits(j.pos0[a], j.neg0[b], j.x)|
    ensures |ResolventLits(data.ca[j.pos[a]].lits, data.ca[j.neg[b]].lits, j.x)| > 0
  {
    hide NoneAssigned, SimplifiedBy, Tracked;
    LiveFacts(data, j, a, satisfied);
    LiveFactsNeg(data, j, b, satisfied);
    var p, n := data.ca[j.pos[a]], data.ca[j.neg[b]];
    ClashBefore(j.pos0[a], p.lits, j.x, j.neg0[b], n.lits);
    if Settled(data.trail, j.pos0[a], j.x, j.neg0[b]) {
      SettledClash(data.trail, j.pos0[a], p, j.x, j.neg0[b], n);
    }
    SmallerResolvent(p.lits, n.lits, j.pos0[a], j.neg0[b], j.x);
  }

  lemma SmallerResolvent(p: Clause, n: Clause, p0: Clause, n0: Clause, x: Lit)
    requires (forall l :: l in p ==> l in p0) && (forall l :: l in n ==> l in n0)
    requires Sorted(p) && |p| > 1
    ensures ResolventLits(p, n, x) <= ResolventLits(p0, n0, x)
    ensures 0 < |ResolventLits(p, n, x)| <= |ResolventLits(p0, n0, x)|
  {
    SubsetCard(ResolventLits(p, n, x), ResolventLits(p0, n0, x));
    assert p[0] != p[1];
    var l := if p[0] == x then p[1] else p[0];
    assert l in p && l != x;
    assert l in ResolventLits(p, n, x);
  }

  // A resolvent of two clauses of the formula follows from it.
  lemma ResolventEntailed(data: CoprocessorData, i: CRef, k: CRef, x: Lit, r: Clause)
    requires i < |data.ca| && k < |data.ca| && !data.ca[i].deleted && !data.ca[k].deleted
    requires Lits(r) == ResolventLits(data.ca[i].lits, data.ca[k].lits, x)
    ensures Entails(data.F(), r)
  {
    forall m: Model | SatAll(m, data.F()) ensures SatClause(m, r) {
      SatFormula(m, data.ca, data.trail, data.ok);
      assert ClsSat(m, data.ca[i]) && ClsSat(m, data.ca[k]);
      var l :| l in data.ca[i].lits && Holds(m, l);
      var y :| y in data.ca[k].lits && Holds(m, y);
      var w := if l != x then l else y;
      assert w in Lits(r);
    }
  }

  lemma SingleLiteral(r: Clause, s: set<Lit>)
    requires Sorted(r) && Lits(r) == s
    ensures |r| == |s|
  {
    SortedSize(r);
  }

  // A unit resolvent satisfies one of the two clauses.
  lemma UnitSettles(trail: seq<Lit>, p: Clause, n: Clause, p0: Clause, n0: Clause, x: Lit, u: Lit)
    requires u in ResolventLits(p, n, x) && u in trail
    requires (forall l :: l in p ==> l in p0) && (forall l :: l in n ==> l in n0)
    ensures Settled(trail, p0, x, n0)
  {
  }

  method UnitPair(data: CoprocessorData, v: nat, a: nat, b: nat, ghost j: Job, ghost satisfied: bool) returns (status: LBool)
    requires Steady(data) && Working(data, j, satisfied) && j.x == Lit(v, false) && a < |j.pos| && b < |j.neg|
    requires !data.ca[j.pos[a]].deleted && !data.ca[j.neg[b]].deleted
    requires !Clash(data.ca[j.pos[a]].lits, j.x, data.ca[j.neg[b]].lits)
    requires |ResolventLits(data.ca[j.pos[a]].lits, data.ca[j.neg[b]].lits, j.x)| == 1
    modifies data`ca, data`occs, data`trail, data`ok, data`qhead
    ensures data.Valid() && data.Sound() && (status == False <==> !data.ok)
    ensures status != False ==> Steady(data) && old(data.trail) <= data.trail
    ensures status != False ==> Simplified(old(data.ca), data.ca, data.trail, true)
    ensures status != False ==> Gone(data, j.x) || Working(data, j, satisfied)
    ensures status != False ==> Settled(data.trail, j.pos0[a], j.x, j.neg0[b])
    ensures |data.ca| == |old(data.ca)|
    ensures status != False && PairDecides(old(data.ca), j, a, b) ==> Gone(data, j.x)
  {
    hide Tracked, OccsOk, ClausesOk, TrailOk, Propagated, NoUnits, Clash, SideOk, Step, Settled, ResolventLits, Sorted, Lits, Simplified;
    hide DecidesBy, PairDecides, Implies, PivotsFree;
    ghost var was := data.ca;
    var x := Lit(v, false);
    InBounds(data, j, satisfied);
    var cp, cn := List(data.occs, x)[a], List(data.occs, Neg(x))[b];
    LiveFacts(data, j, a, satisfied);
    LiveFactsNeg(data, j, b, satisfied);
    ghost var p, n := data.ca[cp].lits, data.ca[cn].lits;
    var taut, resolvent := Resolve(data.ca[cp].lits, data.ca[cn].lits, v);
    SingleLiteral(resolvent, ResolventLits(p, n, x));
    ResolventEntailed(data, cp, cn, x, resolvent);
    assert resolvent == [resolvent[0]];
    ghost var u := resolvent[0];
    assert u in ResolventLits(p, n, x) by { assert u in Lits(resolvent) by { MemberLits(resolvent, u); } }
    status := PropagateUnit(data, resolvent[0], j, satisfied);
    if status != False {
      UnitSettles(data.trail, p, n, j.pos0[a], j.neg0[b], x, u);
    }
    OnlyUnit(was, j, a, b, u);
  }

  // The resolvent of the two clauses is a unit that decides x.
  ghost predicate PairDecides(ca: seq<Cls>, j: Job, a: nat, b: nat) {
    && a < |j.pos| && b < |j.neg| && j.pos[a] < |ca| && j.neg[b] < |ca|
    && exists u :: u in ResolventLits(ca[j.pos[a]].lits, ca[j.neg[b]].lits, j.x) && DecidesBy(ca, j.x, u)
  }

  lemma OnlyUnit(ca: seq<Cls>, j: Job, a: nat, b: nat, u: Lit)
    requires a < |j.pos| && b < |j.neg| && j.pos[a] < |ca| && j.neg[b] < |ca|
    requires var r := ResolventLits(ca[j.pos[a]].lits, ca[j.neg[b]].lits, j.x); |r| == 1 && u in r
    ensures PairDecides(ca, j, a, b) ==> DecidesBy(ca, j.x, u)
  {
    var r := ResolventLits(ca[j.pos[a]].lits, ca[j.neg[b]].lits, j.x);
    forall y | y in r ensures y == u {
      if y != u { SubsetCard({y, u}, r); }
    }
  }

  lemma MemberLits(c: Clause, l: Lit)
    ensures l in c <==> l in Lits(c)
  {
  }

  // Nothing has happened to the database.
  ghost predicate Untouched(data: CoprocessorData, ca: seq<Cls>, occs: Occs, trail: seq<Lit>)
    reads data`ca, data`occs, data`trail
  {
    data.ca == ca && data.occs == occs && data.trail == trail
  }

  lemma FreshPair(data: CoprocessorData, j: Job, a: nat, b: nat)
    requires JobOk(j) && Considered(j, a, b)
    requires Unshrunk(data.ca, j.pos, j.pos0) && Unshrunk(data.ca, j.neg, j.neg0)
    ensures data.ca[j.pos[a]].lits == j.pos0[a] && data.ca[j.neg[b]].lits == j.neg0[b]
  {
  }

  // The very first pair already yields a unit that decides x.
  ghost predicate FirstDecides(ca: seq<Cls>, j: Job) {
    && JobOk(j) && Considered(j, 0, 0) && Unshrunk(ca, j.pos, j.pos0) && Unshrunk(ca, j.neg, j.neg0)
    && !Clash(j.pos0[0], j.x, j.neg0[0]) && |ResolventLits(j.pos0[0], j.neg0[0], j.x)| == 1 && PairDecides(ca, j, 0, 0)
  }

  // One pair: counts its resolvent, or puts a unit resolvent on the trail. There is no
  // empty resolvent, because unit clauses are not kept in the database.
  method AnticipatePair(cfg: Config, data: CoprocessorData, bve: BoundedVariableElimination, v: nat, a: nat, b: nat,
      clausesToUse: int, resolvents: nat, binariesOnly: bool, ghost j: Job)
    returns (status: LBool, resolvents': nat, binariesOnly': bool, ghost counted: bool)
    requires Steady(data) && Working(data, j, true) && j.x == Lit(v, false) && Considered(j, a, b)
    requires !data.ca[j.pos[a]].deleted && !data.ca[j.neg[b]].deleted
    requires a < |bve.posStats| && b < |bve.negStats|
    modifies bve`posStats, bve`negStats, data`ca, data`occs, data`trail, data`ok, data`qhead
    ensures data.Valid() && data.Sound() && (status == False <==> !data.ok)
    ensures resolvents' == resolvents + (if counted then 1 else 0)
    ensures bve.posStats == old(bve.posStats)[a := old(bve.posStats[a]) + if counted then 1 else 0]
    ensures bve.negStats == old(bve.negStats)[b := old(bve.negStats[b]) + if counted then 1 else 0]
    ensures binariesOnly' == (binariesOnly || (counted && cfg.earlyAbort && resolvents' > clausesToUse))
    ensures counted ==> IsProductive(j, a, b)
    ensures status != False ==> Steady(data) && old(data.trail) <= data.trail
    ensures status != False ==> Gone(data, j.x) || Working(data, j, true)
    ensures status != False ==> counted || Settled(data.trail, j.pos0[a], j.x, j.neg0[b])
    ensures |data.ca| == |old(data.ca)| && (status != False ==> Shrunk(old(Snap(data)), Snap(data)))
    ensures old(Unshrunk(data.ca, j.pos, j.pos0)) && old(Unshrunk(data.ca, j.neg, j.neg0)) && NoSmallResolvents(j) ==>
      (counted <==> IsProductive(j, a, b)) && status != False && Untouched(data, old(data.ca), old(data.occs), old(data.trail))
    ensures FirstDecides(old(data.ca), j) && a == 0 && b == 0 && status != False ==> Gone(data, j.x) && !counted
  {
    hide Tracked, OccsOk, ClausesOk, TrailOk, Propagated, NoUnits, Clash, SideOk, Step, Settled, ResolventLits, Defines, PairDecides, Implies, PivotsFree;
    status, resolvents', binariesOnly', counted := Undef, resolvents, binariesOnly, false;
    var x := Lit(v, false);
    InBounds(data, j, true);
    var cp, cn := List(data.occs, x)[a], List(data.occs, Neg(x))[b];
    LiveFacts(data, j, a, true);
    LiveFactsNeg(data, j, b, true);
    PairFacts(data, j, a, b, true);
    var newLits := TryResolve(data.ca[cp].lits, data.ca[cn].lits, v);
    ClashBefore(j.pos0[a], data.ca[cp].lits, x, j.neg0[b], data.ca[cn].lits);
    SettledByClash(data.trail, j.pos0[a], x, j.neg0[b]);
    if newLits > 1 {
      bve.posStats := bve.posStats[a := bve.posStats[a] + 1];
      bve.negStats := bve.negStats[b := bve.negStats[b] + 1];
      counted := true;
      resolvents' := resolvents + 1;
      if cfg.earlyAbort && resolvents' > clausesToUse { binariesOnly' := true; }
    } else if newLits == 1 {
      ghost var was, trail := data.ca, data.trail;
      status := UnitPair(data, v, a, b, j, true);
      if status != False { ShrunkStep(was, trail, data.ca, data.trail); }
    }
  }

  lemma SettledByClash(trail: seq<Lit>, c: Clause, x: Lit, d: Clause)
    ensures Clash(c, x, d) ==> Settled(trail, c, x, d)
  {
  }

  // ---------- the loops of anticipateElimination ----------

  predicate Before(i: nat, k: nat, a: nat, b: nat) {
    i < a || (i == a && k < b)
  }

  // The pairs whose resolvents have been counted.
  ghost predicate Counted(j: Job, S: set<(nat, nat)>, a: nat, b: nat)
    requires JobOk(j)
  {
    forall i, k :: (i, k) in S ==> IsProductive(j, i, k) && Before(i, k, a, b)
  }

  // Every pair before (a, b) has been counted or needs no resolvent.
  ghost predicate Tested(j: Job, trail: seq<Lit>, S: set<(nat, nat)>, a: nat, b: nat)
    requires JobOk(j)
  {
    forall i: nat, k: nat :: Considered(j, i, k) && Before(i, k, a, b) ==>
      (i, k) in S || Settled(trail, j.pos0[i], j.x, j.neg0[k])
  }

  ghost predicate StatsFor(j: Job, posStats: seq<nat>, negStats: seq<nat>, S: set<(nat, nat)>) {
    && |posStats| >= |j.pos| && |negStats| >= |j.neg|
    && (forall i, k :: (i, k) in S ==> i < |posStats| && k < |negStats| && posStats[i] > 0 && negStats[k] > 0)
    && CountedRows(posStats, S) && CountedColumns(negStats, S)
  }

  ghost predicate InRow(S: set<(nat, nat)>, i: nat) {
    exists k :: (i, k) in S
  }

  ghost predicate InColumn(S: set<(nat, nat)>, k: nat) {
    exists i :: (i, k) in S
  }

  // Only pairs of S have been counted.
  ghost predicate CountedRows(posStats: seq<nat>, S: set<(nat, nat)>) {
    forall i :: 0 <= i < |posStats| && posStats[i] > 0 ==> InRow(S, i)
  }

  ghost predicate CountedColumns(negStats: seq<nat>, S: set<(nat, nat)>) {
    forall k :: 0 <= k < |negStats| && negStats[k] > 0 ==> InColumn(S, k)
  }

  ghost predicate AllZero(stats: seq<nat>) {
    forall i :: 0 <= i < |stats| ==> stats[i] == 0
  }

  lemma SettledLater(t: seq<Lit>, t': seq<Lit>, c: Clause, x: Lit, d: Clause)
    requires t <= t' && Settled(t, c, x, d)
    ensures Settled(t', c, x, d)
  {
    assert forall y :: y in t ==> y in t';
  }

  lemma TestedStep(j: Job, t: seq<Lit>, t': seq<Lit>, S: set<(nat, nat)>, S': set<(nat, nat)>, a: nat, b: nat)
    requires JobOk(j) && Tested(j, t, S, a, b) && t <= t' && S <= S'
    requires Considered(j, a, b) ==> (a, b) in S' || Settled(t', j.pos0[a], j.x, j.neg0[b])
    ensures Tested(j, t', S', a, b + 1)
  {
    hide Defines, Settled;
    forall i: nat, k: nat | Considered(j, i, k) && Before(i, k, a, b + 1)
      ensures (i, k) in S' || Settled(t', j.pos0[i], j.x, j.neg0[k])
    {
      if Before(i, k, a, b) {
        if (i, k) !in S { SettledLater(t, t', j.pos0[i], j.x, j.neg0[k]); }
      }
    }
  }

  lemma TestedRow(j: Job, t: seq<Lit>, S: set<(nat, nat)>, a: nat, b: nat)
    requires JobOk(j) && Tested(j, t, S, a, b) && a < |j.pos|
    requires b >= |j.neg| || TrueBody(t, j.pos0[a], j.x)
    ensures Tested(j, t, S, a + 1, 0)
  {
  }

  lemma CountOne(j: Job, S: set<(nat, nat)>, a: nat, b: nat)
    requires JobOk(j) && Counted(j, S, a, b)
    ensures (a, b) !in S
    ensures Counted(j, S, a, b + 1) && (IsProductive(j, a, b) ==> Counted(j, S + {(a, b)}, a, b + 1))
    ensures |S + {(a, b)}| == |S| + 1
  {
  }

  lemma CountRow(j: Job, S: set<(nat, nat)>, a: nat, b: nat)
    requires JobOk(j) && Counted(j, S, a, b)
    ensures Counted(j, S, a + 1, 0)
  {
  }

  lemma StatsOne(j: Job, posStats: seq<nat>, negStats: seq<nat>, S: set<(nat, nat)>, a: nat, b: nat)
    requires StatsFor(j, posStats, negStats, S) && a < |posStats| && b < |negStats|
    ensures StatsFor(j, posStats[a := posStats[a] + 1], negStats[b := negStats[b] + 1], S + {(a, b)})
    ensures posStats[a := posStats[a] + 0] == posStats && negStats[b := negStats[b] + 0] == negStats
  {
    var ps, ns := posStats[a := posStats[a] + 1], negStats[b := negStats[b] + 1];
    forall i, k | (i, k) in S + {(a, b)}
      ensures i < |ps| && k < |ns| && ps[i] > 0 && ns[k] > 0
    {
      assert (i, k) in S || (i == a && k == b);
    }
    MorePos(posStats, ps, S, a, b);
    MoreNeg(negStats, ns, S, a, b);
    hide CountedRows, CountedColumns;
  }

  lemma MorePos(stats: seq<nat>, now: seq<nat>, S: set<(nat, nat)>, a: nat, b: nat)
    requires a < |stats| && now == stats[a := stats[a] + 1] && CountedRows(stats, S)
    ensures CountedRows(now, S + {(a, b)})
  {
    forall i | 0 <= i < |now| && now[i] > 0 ensures InRow(S + {(a, b)}, i) {
      if i == a {
        assert (a, b) in S + {(a, b)};
      } else {
        assert InRow(S, i);
        var k :| (i, k) in S;
        assert (i, k) in S + {(a, b)};
      }
    }
  }

  lemma MoreNeg(stats: seq<nat>, now: seq<nat>, S: set<(nat, nat)>, a: nat, b: nat)
    requires b < |stats| && now == stats[b := stats[b] + 1] && CountedColumns(stats, S)
    ensures CountedColumns(now, S + {(a, b)})
  {
    forall k | 0 <= k < |now| && now[k] > 0 ensures InColumn(S + {(a, b)}, k) {
      if k == b {
        assert (a, b) in S + {(a, b)};
      } else {
        assert InColumn(S, k);
        var i :| (i, k) in S;
        assert (i, k) in S + {(a, b)};
      }
    }
  }

  ghost predicate Anticipating(data: CoprocessorData, bve: BoundedVariableElimination, j: Job, S: set<(nat, nat)>,
                               a: nat, b: nat, binariesOnly: bool)
    reads data`ca, data`occs, data`trail, bve`posStats, bve`negStats
  {
    && Working(data, j, true) && StatsFor(j, bve.posStats, bve.negStats, S)
    && (!binariesOnly ==> Tested(j, data.trail, S, a, b))
  }

  // The counters of one run of anticipateElimination.
  ghost predicate CounterOk(cfg: Config, j: Job, S: set<(nat, nat)>, a: nat, b: nat, resolvents: nat, binariesOnly: bool,
                            clausesToUse: int)
  {
    && JobOk(j) && Counted(j, S, a, b) && |S| == resolvents
    && (binariesOnly ==> cfg.earlyAbort && resolvents > clausesToUse)
    && (cfg.earlyAbort && resolvents > clausesToUse && resolvents > 0 ==> binariesOnly)
  }

  lemma WorkingJob(data: CoprocessorData, j: Job, satisfied: bool)
    requires Working(data, j, satisfied)
    ensures JobOk(j) && List(data.occs, j.x) == j.pos && List(data.occs, Neg(j.x)) == j.neg
    ensures |j.pos| == |j.pos0| && |j.neg| == |j.neg0|
  {
  }

  // A deleted clause was satisfied, so none of its resolvents is needed.
  lemma DeletedSettles(data: CoprocessorData, j: Job, a: nat, b: nat)
    requires Working(data, j, true) && a < |j.pos| && b < |j.neg|
    ensures j.pos[a] < |data.ca| && data.ca[j.pos[a]].deleted ==> TrueBody(data.trail, j.pos0[a], j.x)
    ensures j.pos[a] < |data.ca| && data.ca[j.pos[a]].deleted ==> Settled(data.trail, j.pos0[a], j.x, j.neg0[b])
    ensures j.neg[b] < |data.ca| && data.ca[j.neg[b]].deleted ==> Settled(data.trail, j.pos0[a], j.x, j.neg0[b])
  {
    hide SideOk, Defines, SimplifiedBy, TrueBody;
    assert SimplifiedBy(Cls(j.pos0[a], false), data.ca[j.pos[a]], data.trail, true);
    assert SimplifiedBy(Cls(j.neg0[b], false), data.ca[j.neg[b]], data.trail, true);
    if data.ca[j.pos[a]].deleted { DroppedBody(j.pos0[a], data.ca[j.pos[a]], j.x, data.trail); }
    if data.ca[j.neg[b]].deleted {
      assert Neg(Neg(j.x)) == j.x;
      DroppedBody(j.neg0[b], data.ca[j.neg[b]], Neg(j.x), data.trail);
    }
  }

  // The pairs of an unchanged database with no small resolvents.
  ghost predicate Quiet(ca: seq<Cls>, j: Job) {
    JobOk(j) && Unshrunk(ca, j.pos, j.pos0) && Unshrunk(ca, j.neg, j.neg0) && NoSmallResolvents(j)
  }

  method AnticipateStep(cfg: Config, data: CoprocessorData, bve: BoundedVariableElimination, v: nat, a: nat, b: nat,
      pl: nat, nl: nat, hasDefinition: bool, clausesToUse: int, resolvents0: nat, binariesOnly0: bool,
      ghost j: Job, ghost S0: set<(nat, nat)>)
    returns (status: LBool, resolvents: nat, binariesOnly: bool, ghost S: set<(nat, nat)>)
    requires Steady(data) && Anticipating(data, bve, j, S0, a, b, binariesOnly0) && j.x == Lit(v, false)
    requires a < |j.pos| && b < |j.neg| && j.pos[a] < |data.ca| && !data.ca[j.pos[a]].deleted
    requires pl == j.pl && nl == j.nl && hasDefinition == HasDefinition(j)
    requires CounterOk(cfg, j, S0, a, b, resolvents0, binariesOnly0, clausesToUse)
    modifies bve`posStats, bve`negStats, data`ca, data`occs, data`trail, data`ok, data`qhead
    ensures data.Valid() && data.Sound() && (status == False <==> !data.ok)
    ensures status != False ==> Steady(data) && old(data.trail) <= data.trail
    ensures status != False ==> CounterOk(cfg, j, S, a, b + 1, resolvents, binariesOnly, clausesToUse)
    ensures status != False ==> Gone(data, j.x) || Anticipating(data, bve, j, S, a, b + 1, binariesOnly)
    ensures Quiet(old(data.ca), j) ==> status != False && Untouched(data, old(data.ca), old(data.occs), old(data.trail))
    ensures |data.ca| == |old(data.ca)| && (status != False ==> Shrunk(old(Snap(data)), Snap(data)))
    ensures FirstDecides(old(data.ca), j) && a == 0 && b == 0 && !binariesOnly0 && status != False ==>
      Gone(data, j.x) && resolvents == resolvents0 && !binariesOnly
    ensures binariesOnly0 && j.neg[b] < |old(data.ca)| && |old(data.ca)[j.neg[b]].lits| > 2 ==>
      status == Undef && Untouched(data, old(data.ca), old(data.occs), old(data.trail)) && resolvents == resolvents0 && S == S0
  {
    FirstPair(data.ca, j);
    InBounds(data, j, true);
    DeletedSettles(data, j, a, b);
    SteadyFacts(data);
    WorkingJob(data, j, true);
    ShrunkSame(data);
    var cn := List(data.occs, Lit(v, true))[b];
    SkipPair(cfg, data, bve, j, S0, a, b, resolvents0, binariesOnly0, clausesToUse);
    hide *;
    status, resolvents, binariesOnly, S := Undef, resolvents0, binariesOnly0, S0;
    if (a >= pl && b >= nl) || (hasDefinition && a < pl && b < nl) || data.ca[cn].deleted {
    } else if binariesOnly && |data.ca[cn].lits| > 2 {
    } else {
      PairOk(data, bve, j, S0, a, b, pl, nl, hasDefinition, binariesOnly0);
      status, resolvents, binariesOnly, S :=
        TestPair(cfg, data, bve, v, a, b, clausesToUse, resolvents, binariesOnly, j, S);
    }
  }

  lemma SkipPair(cfg: Config, data: CoprocessorData, bve: BoundedVariableElimination, j: Job, S: set<(nat, nat)>, a: nat, b: nat,
                 resolvents: nat, binariesOnly: bool, clausesToUse: int)
    requires Anticipating(data, bve, j, S, a, b, binariesOnly) && a < |j.pos| && b < |j.neg|
    requires CounterOk(cfg, j, S, a, b, resolvents, binariesOnly, clausesToUse)
    ensures CounterOk(cfg, j, S, a, b + 1, resolvents, binariesOnly, clausesToUse)
    ensures binariesOnly || !Considered(j, a, b) || (j.neg[b] < |data.ca| && data.ca[j.neg[b]].deleted) ==>
      Anticipating(data, bve, j, S, a, b + 1, binariesOnly)
  {
    hide Counted, Tested, StatsFor, IsProductive, Settled, SideOk, Defines, Tracked;
    CountOne(j, S, a, b);
    DeletedSettles(data, j, a, b);
    if !binariesOnly && (!Considered(j, a, b) || (j.neg[b] < |data.ca| && data.ca[j.neg[b]].deleted)) {
      TestedStep(j, data.trail, data.trail, S, S, a, b);
    }
  }

  lemma PairOk(data: CoprocessorData, bve: BoundedVariableElimination, j: Job, S: set<(nat, nat)>, a: nat, b: nat,
               pl: nat, nl: nat, hasDefinition: bool, binariesOnly: bool)
    requires Anticipating(data, bve, j, S, a, b, binariesOnly) && a < |j.pos| && b < |j.neg|
    requires pl == j.pl && nl == j.nl && hasDefinition == HasDefinition(j)
    ensures !((a >= pl && b >= nl) || (hasDefinition && a < pl && b < nl)) ==> Considered(j, a, b)
    ensures a < |bve.posStats| && b < |bve.negStats| && j.neg[b] < |data.ca|
  {
    StatsLength(j, bve.posStats, bve.negStats, S);
    InBounds(data, j, true);
  }

  // The pair is tested.
  method TestPair(cfg: Config, data: CoprocessorData, bve: BoundedVariableElimination, v: nat, a: nat, b: nat,
      clausesToUse: int, resolvents0: nat, binariesOnly0: bool, ghost j: Job, ghost S0: set<(nat, nat)>)
    returns (status: LBool, resolvents: nat, binariesOnly: bool, ghost S: set<(nat, nat)>)
    requires Steady(data) && Anticipating(data, bve, j, S0, a, b, binariesOnly0) && j.x == Lit(v, false)
    requires Considered(j, a, b) && j.pos[a] < |data.ca| && j.neg[b] < |data.ca|
    requires !data.ca[j.pos[a]].deleted && !data.ca[j.neg[b]].deleted && a < |bve.posStats| && b < |bve.negStats|
    requires CounterOk(cfg, j, S0, a, b, resolvents0, binariesOnly0, clausesToUse)
    modifies bve`posStats, bve`negStats, data`ca, data`occs, data`trail, data`ok, data`qhead
    ensures data.Valid() && data.Sound() && (status == False <==> !data.ok)
    ensures status != False ==> Steady(data) && old(data.trail) <= data.trail
    ensures status != False ==> CounterOk(cfg, j, S, a, b + 1, resolvents, binariesOnly, clausesToUse)
    ensures status != False ==> Gone(data, j.x) || Anticipating(data, bve, j, S, a, b + 1, binariesOnly)
    ensures Quiet(old(data.ca), j) ==> status != False && Untouched(data, old(data.ca), old(data.occs), old(data.trail))
    ensures |data.ca| == |old(data.ca)| && (status != False ==> Shrunk(old(Snap(data)), Snap(data)))
    ensures FirstDecides(old(data.ca), j) && a == 0 && b == 0 && !binariesOnly0 && status != False ==>
      Gone(data, j.x) && resolvents == resolvents0 && !binariesOnly
  {
    hide FirstDecides, Implies, PivotsFree, Counted, Tested, StatsFor, IsProductive, Settled, SideOk, Defines, NoSmallResolvents;
    hide Unshrunk, Tracked, Shrunk, OccsOk, ClausesOk, TrailOk, Propagated, NoUnits, Step, BlockedClauses.Ready;
    S := S0;
    CountOne(j, S, a, b);
    StatsOne(j, bve.posStats, bve.negStats, S, a, b);
    ghost var counted, trail := false, data.trail;
    status, resolvents, binariesOnly, counted :=
      AnticipatePair(cfg, data, bve, v, a, b, clausesToUse, resolvents0, binariesOnly0, j);
    if counted { S := S + {(a, b)}; }
    if status != False && !binariesOnly { TestedStep(j, trail, data.trail, S0, S, a, b); }
  }

  lemma FirstPair(ca: seq<Cls>, j: Job)
    ensures FirstDecides(ca, j) ==> Considered(j, 0, 0) && |j.pos| > 0 && |j.neg| > 0
    ensures FirstDecides(ca, j) ==> j.neg[0] < |ca| && !ca[j.neg[0]].deleted && j.pos[0] < |ca| && !ca[j.pos[0]].deleted
  {
  }

  lemma StatsLength(j: Job, posStats: seq<nat>, negStats: seq<nat>, S: set<(nat, nat)>)
    requires StatsFor(j, posStats, negStats, S)
    ensures |posStats| >= |j.pos| && |negStats| >= |j.neg|
  {
  }

  // One clause with x against all clauses with ~x.
  method AnticipateClause(cfg: Config, data: CoprocessorData, bve: BoundedVariableElimination, v: nat, a: nat,
      pl: nat, nl: nat, hasDefinition: bool, clausesToUse: int, resolvents0: nat, binariesOnly0: bool,
      ghost j: Job, ghost S0: set<(nat, nat)>)
    returns (status: LBool, resolvents: nat, binariesOnly: bool, ghost S: set<(nat, nat)>)
    requires Steady(data) && Anticipating(data, bve, j, S0, a, 0, binariesOnly0) && j.x == Lit(v, false)
    requires a < |j.pos| && j.pos[a] < |data.ca| && !data.ca[j.pos[a]].deleted
    requires pl == j.pl && nl == j.nl && hasDefinition == HasDefinition(j)
    requires CounterOk(cfg, j, S0, a, 0, resolvents0, binariesOnly0, clausesToUse)
    modifies bve`posStats, bve`negStats, data`ca, data`occs, data`trail, data`ok, data`qhead
    ensures data.Valid() && data.Sound() && (status == False <==> !data.ok)
    ensures status != False ==> Steady(data) && old(data.trail) <= data.trail
    ensures status != False ==> CounterOk(cfg, j, S, a + 1, 0, resolvents, binariesOnly, clausesToUse)
    ensures status != False ==> Gone(data, j.x) || Anticipating(data, bve, j, S, a + 1, 0, binariesOnly)
    ensures Quiet(old(data.ca), j) ==> status != False && Untouched(data, old(data.ca), old(data.occs), old(data.trail))
    ensures |data.ca| == |old(data.ca)| && (status != False ==> Shrunk(old(Snap(data)), Snap(data)))
    ensures FirstDecides(old(data.ca), j) && a == 0 && !binariesOnly0 && status != False ==>
      Gone(data, j.x) && resolvents == resolvents0 && !binariesOnly
  {
    ghost var deciding, quiet := FirstDecides(data.ca, j) && a == 0 && !binariesOnly0, Quiet(data.ca, j);
    ghost var start, occs0 := Snap(data), data.occs;
    status, resolvents, binariesOnly, S := Undef, resolvents0, binariesOnly0, S0;
    var x := Lit(v, false);
    SteadyFacts(data);
    AnticipatingJob(data, bve, j, S, a, 0, binariesOnly);
    FirstPair(data.ca, j);
    var cp := List(data.occs, x)[a];
    RowStarts(cfg, data, bve, j, S, a, resolvents, binariesOnly, clausesToUse);
    SnapIs(data);
    ghost var b;
    status, resolvents, binariesOnly, S, b := AnticipatePairs(cfg, data, bve, v, a, pl, nl, hasDefinition, clausesToUse,
      resolvents, binariesOnly, j, S, cp, start, occs0, quiet, deciding);
    if status == False { return; }
    hide *;
    RowEnds(cfg, data, bve, j, S, a, b, resolvents, binariesOnly, clausesToUse);
    SinceFacts(data, start, occs0, quiet);
  }

  // The loop over the clauses with ~x.
  method AnticipatePairs(cfg: Config, data: CoprocessorData, bve: BoundedVariableElimination, v: nat, a: nat,
      pl: nat, nl: nat, hasDefinition: bool, clausesToUse: int, resolvents0: nat, binariesOnly0: bool,
      ghost j: Job, ghost S0: set<(nat, nat)>, cp: CRef, ghost start: Snapshot, ghost occs0: Occs, ghost quiet: bool,
      ghost deciding: bool)
    returns (status: LBool, resolvents: nat, binariesOnly: bool, ghost S: set<(nat, nat)>, ghost n: nat)
    requires RowInv(cfg, data, bve, j, S0, a, 0, resolvents0, binariesOnly0, clausesToUse) && j.x == Lit(v, false)
    requires Since(data, start, occs0, quiet) && data.ca == start.ca && (quiet ==> Quiet(start.ca, j))
    requires a < |j.pos| && cp == j.pos[a] < |data.ca| && !data.ca[cp].deleted
    requires pl == j.pl && nl == j.nl && hasDefinition == HasDefinition(j)
    requires deciding ==> FirstDecides(start.ca, j) && a == 0 && !binariesOnly0 && 0 < |List(data.occs, Neg(j.x))|
    modifies bve`posStats, bve`negStats, data`ca, data`occs, data`trail, data`ok, data`qhead
    ensures data.Valid() && data.Sound() && (status == False <==> !data.ok) && |data.ca| == |start.ca|
    ensures status != False ==> RowInv(cfg, data, bve, j, S, a, n, resolvents, binariesOnly, clausesToUse)
    ensures status != False ==> n >= |List(data.occs, Neg(j.x))| || data.ca[cp].deleted
    ensures status != False ==> Since(data, start, occs0, quiet)
    ensures quiet ==> status != False
    ensures deciding && status != False ==> Gone(data, j.x) && resolvents == resolvents0 && !binariesOnly
  {
    hide *;
    status, resolvents, binariesOnly, S, n := Undef, resolvents0, binariesOnly0, S0, 0;
    var b := 0;
    RowSteady(cfg, data, bve, j, S, a, 0, resolvents, binariesOnly, clausesToUse);
    while b < |List(data.occs, Neg(Lit(v, false)))|
      invariant status != False && data.ok && RowInv(cfg, data, bve, j, S, a, b, resolvents, binariesOnly, clausesToUse)
      invariant Since(data, start, occs0, quiet) && |data.ca| == |start.ca| && (Gone(data, j.x) || !data.ca[cp].deleted)
      invariant deciding ==> resolvents == resolvents0 && !binariesOnly && (if b == 0 then data.ca == start.ca && 0 < |List(data.occs, Neg(j.x))| else Gone(data, j.x))
      decreases if Gone(data, j.x) then 0 else 1, |j.neg| - b
    {
      RowListed(cfg, data, bve, j, S, a, b, resolvents, binariesOnly, clausesToUse);
      status, resolvents, binariesOnly, S := AnticipateNext(cfg, data, bve, v, a, b, pl, nl, hasDefinition, clausesToUse,
        resolvents, binariesOnly, j, S, start, occs0, quiet);
      if status == False { return; }
      b := b + 1;
      if data.ca[cp].deleted { break; }
    }
    n := b;
    RowSteady(cfg, data, bve, j, S, a, b, resolvents, binariesOnly, clausesToUse);
  }

  lemma RowSteady(cfg: Config, data: CoprocessorData, bve: BoundedVariableElimination, j: Job, S: set<(nat, nat)>,
                  a: nat, b: nat, resolvents: nat, binariesOnly: bool, clausesToUse: int)
    requires RowInv(cfg, data, bve, j, S, a, b, resolvents, binariesOnly, clausesToUse)
    ensures data.Valid() && data.Sound() && data.ok
  {
  }

  lemma SnapIs(data: CoprocessorData)
    ensures Snap(data) == Snapshot(data.ca, data.trail)
  {
  }

  // The state before the pair (a, b) is looked at.
  ghost predicate RowInv(cfg: Config, data: CoprocessorData, bve: BoundedVariableElimination, j: Job, S: set<(nat, nat)>,
                         a: nat, b: nat, resolvents: nat, binariesOnly: bool, clausesToUse: int)
    reads data, bve
  {
    && Steady(data) && CounterOk(cfg, j, S, a, b, resolvents, binariesOnly, clausesToUse)
    && (Gone(data, j.x) || (Anticipating(data, bve, j, S, a, b, binariesOnly) && b <= |j.neg|))
  }

  // What has happened since some point of the run.
  ghost predicate Since(data: CoprocessorData, start: Snapshot, occs: Occs, quiet: bool)
    reads data`ca, data`occs, data`trail
  {
    |data.ca| == |start.ca| && Shrunk(start, Snap(data)) && (quiet ==> Untouched(data, start.ca, occs, start.trail))
  }

  lemma SinceFacts(data: CoprocessorData, start: Snapshot, occs: Occs, quiet: bool)
    requires Since(data, start, occs, quiet)
    ensures |data.ca| == |start.ca| && Shrunk(start, Snap(data)) && start.trail <= data.trail
    ensures quiet ==> Untouched(data, start.ca, occs, start.trail)
  {
  }

  lemma RowStarts(cfg: Config, data: CoprocessorData, bve: BoundedVariableElimination, j: Job, S: set<(nat, nat)>,
                  a: nat, resolvents: nat, binariesOnly: bool, clausesToUse: int)
    requires Steady(data) && Anticipating(data, bve, j, S, a, 0, binariesOnly)
    requires CounterOk(cfg, j, S, a, 0, resolvents, binariesOnly, clausesToUse)
    ensures RowInv(cfg, data, bve, j, S, a, 0, resolvents, binariesOnly, clausesToUse)
    ensures forall quiet :: Since(data, Snap(data), data.occs, quiet)
  {
    ShrunkSame(data);
  }

  // As long as the list is not empty, the variable is not gone.
  lemma RowListed(cfg: Config, data: CoprocessorData, bve: BoundedVariableElimination, j: Job, S: set<(nat, nat)>,
                  a: nat, b: nat, resolvents: nat, binariesOnly: bool, clausesToUse: int)
    requires RowInv(cfg, data, bve, j, S, a, b, resolvents, binariesOnly, clausesToUse) && b < |List(data.occs, Neg(j.x))|
    ensures !Gone(data, j.x) && b < |j.neg|
  {
    AnticipatingJob(data, bve, j, S, a, b, binariesOnly);
  }

  lemma RowEnds(cfg: Config, data: CoprocessorData, bve: BoundedVariableElimination, j: Job, S: set<(nat, nat)>,
                a: nat, b: nat, resolvents: nat, binariesOnly: bool, clausesToUse: int)
    requires RowInv(cfg, data, bve, j, S, a, b, resolvents, binariesOnly, clausesToUse) && a < |j.pos| && j.pos[a] < |data.ca|
    requires b >= |List(data.occs, Neg(j.x))| || data.ca[j.pos[a]].deleted
    ensures Steady(data) && data.Valid() && data.Sound() && data.ok
    ensures CounterOk(cfg, j, S, a + 1, 0, resolvents, binariesOnly, clausesToUse)
    ensures Gone(data, j.x) || Anticipating(data, bve, j, S, a + 1, 0, binariesOnly)
    ensures Gone(data, j.x) || b >= |j.neg| || data.ca[j.pos[a]].deleted
  {
    hide Anticipating, CounterOk;
    CountersRow(cfg, j, S, a, b, resolvents, binariesOnly, clausesToUse);
    if !Gone(data, j.x) {
      AnticipatingJob(data, bve, j, S, a, b, binariesOnly);
      RowDone(cfg, data, bve, j, S, a, b, binariesOnly);
    }
  }

  // One pair of the row.
  method AnticipateNext(cfg: Config, data: CoprocessorData, bve: BoundedVariableElimination, v: nat, a: nat, b: nat,
      pl: nat, nl: nat, hasDefinition: bool, clausesToUse: int, resolvents0: nat, binariesOnly0: bool,
      ghost j: Job, ghost S0: set<(nat, nat)>, ghost start: Snapshot, ghost occs0: Occs, ghost quiet: bool)
    returns (status: LBool, resolvents: nat, binariesOnly: bool, ghost S: set<(nat, nat)>)
    requires RowInv(cfg, data, bve, j, S0, a, b, resolvents0, binariesOnly0, clausesToUse) && !Gone(data, j.x) && b < |j.neg|
    requires Since(data, start, occs0, quiet) && (quiet ==> Quiet(start.ca, j)) && j.x == Lit(v, false)
    requires a < |j.pos| && j.pos[a] < |data.ca| && !data.ca[j.pos[a]].deleted
    requires pl == j.pl && nl == j.nl && hasDefinition == HasDefinition(j)
    modifies bve`posStats, bve`negStats, data`ca, data`occs, data`trail, data`ok, data`qhead
    ensures data.Valid() && data.Sound() && (status == False <==> !data.ok) && |data.ca| == |start.ca|
    ensures status != False ==> RowInv(cfg, data, bve, j, S, a, b + 1, resolvents, binariesOnly, clausesToUse)
    ensures status != False ==> Since(data, start, occs0, quiet)
    ensures quiet ==> status != False
    ensures FirstDecides(old(data.ca), j) && a == 0 && b == 0 && !binariesOnly0 && status != False ==>
      Gone(data, j.x) && resolvents == resolvents0 && !binariesOnly
  {
    hide Steady, Anticipating, CounterOk, Shrunk, Quiet, FirstDecides, Gone;
    ghost var mid := Snap(data);
    status, resolvents, binariesOnly, S :=
      AnticipateStep(cfg, data, bve, v, a, b, pl, nl, hasDefinition, clausesToUse, resolvents0, binariesOnly0, j, S0);
    if status != False { ShrunkTrans(start, mid, Snap(data)); }
  }

  lemma RowDone(cfg: Config, data: CoprocessorData, bve: BoundedVariableElimination, j: Job, S: set<(nat, nat)>,
                a: nat, b: nat, binariesOnly: bool)
    requires Anticipating(data, bve, j, S, a, b, binariesOnly) && a < |j.pos| && j.pos[a] < |data.ca|
    requires b >= |j.neg| || data.ca[j.pos[a]].deleted
    ensures Anticipating(data, bve, j, S, a + 1, 0, binariesOnly)
  {
    hide Tested, Tracked, SideOk, Defines, Settled, TrueBody;
    WorkingJob(data, j, true);
    if b < |j.neg| { DeletedSettles(data, j, a, b); }
    if !binariesOnly { TestedRow(j, data.trail, S, a, b); }
  }

  lemma CountersRow(cfg: Config, j: Job, S: set<(nat, nat)>, a: nat, b: nat, resolvents: nat, binariesOnly: bool, clausesToUse: int)
    requires CounterOk(cfg, j, S, a, b, resolvents, binariesOnly, clausesToUse)
    ensures CounterOk(cfg, j, S, a + 1, 0, resolvents, binariesOnly, clausesToUse)
  {
    CountRow(j, S, a, b);
  }

  const INT32_MAX := 0x7FFF_FFFF

  // How many clauses may take the place of the live clauses on a variable.
  function Limit(cfg: Config, totallyAdded: int, live: nat): int {
    live + cfg.grow + if cfg.growTotal != INT32_MAX && cfg.growTotal > cfg.grow then cfg.growTotal - totallyAdded else 0
  }

  ghost function NumLive(ca: seq<Cls>, list: seq<CRef>): (n: nat)
    requires InRange(ca, list)
    ensures n <= |list|
  {
    if list == [] then 0
    else NumLive(ca, list[..|list| - 1]) + if ca[list[|list| - 1]].deleted then 0 else 1
  }

  lemma {:induction false} AllLive(ca: seq<Cls>, list: seq<CRef>)
    requires InRange(ca, list) && forall i :: 0 <= i < |list| ==> !ca[list[i]].deleted
    ensures NumLive(ca, list) == |list|
  {
    if list != [] {
      AllLive(ca, list[..|list| - 1]);
    }
  }

  method CountLive(ca: seq<Cls>, list: seq<CRef>, start: int) returns (n: int)
    requires InRange(ca, list)
    ensures n == start + NumLive(ca, list)
  {
    n := start;
    var i := 0;
    while i < |list|
      invariant 0 <= i <= |list| && n == start + NumLive(ca, list[..i])
    {
      assert list[..i + 1][..i] == list[..i];
      n := if ca[list[i]].deleted then n else n + 1;
      i := i + 1;
    }
    assert list[..i] == list;
  }

  lemma UnshrunkLive(ca: seq<Cls>, list: seq<CRef>, lits: seq<Clause>)
    requires Unshrunk(ca, list, lits)
    ensures InRange(ca, list) && NumLive(ca, list) == |list|
  {
    AllLive(ca, list);
  }

  lemma AnticipationStarts(data: CoprocessorData, bve: BoundedVariableElimination, j: Job)
    requires Working(data, j, true) && |bve.posStats| >= |j.pos| && |bve.negStats| >= |j.neg|
    requires AllZero(bve.posStats) && AllZero(bve.negStats)
    ensures Anticipating(data, bve, j, {}, 0, 0, false)
  {
  }

  lemma CountersStart(cfg: Config, j: Job, clausesToUse: int)
    requires JobOk(j)
    ensures CounterOk(cfg, j, {}, 0, 0, 0, false, clausesToUse)
  {
  }

  // What anticipateElimination knows at its end.
  ghost predicate Anticipated(data: CoprocessorData, bve: BoundedVariableElimination, j: Job, S: set<(nat, nat)>)
    reads data`ca, data`occs, data`trail, bve`posStats, bve`negStats
  {
    Working(data, j, true) && StatsFor(j, bve.posStats, bve.negStats, S) && Tested(j, data.trail, S, |j.pos|, 0)
  }

  // With nothing but tautologies and clauses of two or more literals, all resolvents are
  // counted.
  lemma QuietCountsAll(data: CoprocessorData, j: Job, S: set<(nat, nat)>)
    requires Steady(data) && Working(data, j, true) && Tested(j, data.trail, S, |j.pos|, 0) && Quiet(data.ca, j)
    ensures Productive(j) <= S
  {
    forall i: nat, k: nat | (i, k) in Productive(j) ensures (i, k) in S {
      assert IsProductive(j, i, k) && Before(i, k, |j.pos|, 0);
      PairFacts(data, j, i, k, true);
      FreshPair(data, j, i, k);
    }
  }

  lemma CountedProductive(j: Job, S: set<(nat, nat)>, a: nat, b: nat)
    requires JobOk(j) && Counted(j, S, a, b)
    ensures S <= Productive(j) && |S| <= |Productive(j)|
  {
    forall q | q in S ensures q in Productive(j) {
      assert (q.0, q.1) in S;
    }
    SubsetCard(S, Productive(j));
  }

  lemma SteadyFacts(data: CoprocessorData)
    requires Steady(data)
    ensures data.Valid() && data.Sound() && data.ok
  {
  }

  lemma AnticipatingJob(data: CoprocessorData, bve: BoundedVariableElimination, j: Job, S: set<(nat, nat)>,
                        a: nat, b: nat, binariesOnly: bool)
    requires Anticipating(data, bve, j, S, a, b, binariesOnly)
    ensures JobOk(j) && List(data.occs, j.x) == j.pos && List(data.occs, Neg(j.x)) == j.neg
    ensures forall i :: 0 <= i < |j.pos| ==> j.pos[i] < |data.ca|
  {
    InBounds(data, j, true);
  }

  // One round of the loop over the clauses with x: deleted clauses are skipped, and long
  // ones once the count has been given up.
  method AnticipateRow(cfg: Config, data: CoprocessorData, bve: BoundedVariableElimination, v: nat, i: nat,
      pl: nat, nl: nat, hasDefinition: bool, clausesToUse: int, resolvents0: nat, binariesOnly0: bool,
      ghost j: Job, ghost S0: set<(nat, nat)>, ghost start: Snapshot, ghost occs0: Occs, ghost quiet: bool)
    returns (status: LBool, resolvents: nat, binariesOnly: bool, ghost S: set<(nat, nat)>)
    requires RowInv(cfg, data, bve, j, S0, i, 0, resolvents0, binariesOnly0, clausesToUse) && !Gone(data, j.x) && i < |j.pos|
    requires Since(data, start, occs0, quiet) && (quiet ==> Quiet(start.ca, j)) && j.x == Lit(v, false)
    requires pl == j.pl && nl == j.nl && hasDefinition == HasDefinition(j)
    modifies bve`posStats, bve`negStats, data`ca, data`occs, data`trail, data`ok, data`qhead
    ensures data.Valid() && data.Sound() && (status == False <==> !data.ok) && |data.ca| == |start.ca|
    ensures status != False ==> RowInv(cfg, data, bve, j, S, i + 1, 0, resolvents, binariesOnly, clausesToUse)
    ensures status != False ==> Since(data, start, occs0, quiet)
    ensures quiet ==> status != False
    ensures FirstDecides(old(data.ca), j) && i == 0 && !binariesOnly0 && status != False ==>
      Gone(data, j.x) && resolvents == resolvents0 && !binariesOnly
    ensures binariesOnly0 && j.pos[i] < |old(data.ca)| && |old(data.ca)[j.pos[i]].lits| > 2 ==>
      status == Undef && Untouched(data, old(data.ca), old(data.occs), old(data.trail)) && resolvents == resolvents0 && S == S0
  {
    FirstPair(data.ca, j);
    RowParts(cfg, data, bve, j, S0, i, 0, resolvents0, binariesOnly0, clausesToUse);
    SinceFacts(data, start, occs0, quiet);
    hide Anticipating, CounterOk, Quiet, Steady, Unassigned, Shrunk, FirstDecides;
    ghost var mid := Snap(data);
    var cp := List(data.occs, Lit(v, false))[i];
    if data.ca[cp].deleted || (binariesOnly0 && |data.ca[cp].lits| > 2) {
      status, resolvents, binariesOnly, S := Undef, resolvents0, binariesOnly0, S0;
      SkipRow(cfg, data, bve, j, S, i, resolvents, binariesOnly, clausesToUse);
    } else {
      status, resolvents, binariesOnly, S :=
        AnticipateClause(cfg, data, bve, v, i, pl, nl, hasDefinition, clausesToUse, resolvents0, binariesOnly0, j, S0);
      if status != False { ShrunkTrans(start, mid, Snap(data)); }
    }
  }

  lemma RowParts(cfg: Config, data: CoprocessorData, bve: BoundedVariableElimination, j: Job, S: set<(nat, nat)>,
                 a: nat, b: nat, resolvents: nat, binariesOnly: bool, clausesToUse: int)
    requires RowInv(cfg, data, bve, j, S, a, b, resolvents, binariesOnly, clausesToUse)
    ensures Steady(data) && data.Valid() && data.Sound() && data.ok && JobOk(j)
    ensures !Gone(data, j.x) ==> List(data.occs, j.x) == j.pos && List(data.occs, Neg(j.x)) == j.neg
    ensures !Gone(data, j.x) ==> forall i :: 0 <= i < |j.pos| ==> j.pos[i] < |data.ca|
    ensures Gone(data, j.x) ==> List(data.occs, j.x) == []
    ensures CounterOk(cfg, j, S, a, b, resolvents, binariesOnly, clausesToUse)
    ensures Gone(data, j.x) || Anticipating(data, bve, j, S, a, b, binariesOnly)
  {
    if !Gone(data, j.x) { AnticipatingJob(data, bve, j, S, a, b, binariesOnly); }
  }

  // The loop over the clauses with x.
  method AnticipateRows(cfg: Config, data: CoprocessorData, bve: BoundedVariableElimination, v: nat,
      pl: nat, nl: nat, clausesToUse: int, ghost j: Job)
    returns (status: LBool, resolvents: nat, binariesOnly: bool, ghost S: set<(nat, nat)>, ghost a: nat)
    requires Steady(data) && Anticipating(data, bve, j, {}, 0, 0, false) && j.x == Lit(v, false) && pl == j.pl && nl == j.nl
    modifies bve`posStats, bve`negStats, data`ca, data`occs, data`trail, data`ok, data`qhead
    ensures data.Valid() && data.Sound() && (status == False <==> !data.ok) && |data.ca| == |old(data.ca)|
    ensures status != False ==> Steady(data) && Shrunk(old(Snap(data)), Snap(data))
    ensures status != False ==> CounterOk(cfg, j, S, a, 0, resolvents, binariesOnly, clausesToUse)
    ensures status != False ==> Gone(data, j.x) || (Anticipating(data, bve, j, S, a, 0, binariesOnly) && a == |j.pos|)
    ensures Quiet(old(data.ca), j) ==> status != False && Untouched(data, old(data.ca), old(data.occs), old(data.trail))
    ensures FirstDecides(old(data.ca), j) && status != False ==> Gone(data, j.x) && resolvents == 0 && !binariesOnly
  {
    ghost var start, occs0 := Snap(data), data.occs;
    ghost var quiet, deciding := Quiet(data.ca, j), FirstDecides(data.ca, j);
    FirstPair(data.ca, j);
    AnticipatingJob(data, bve, j, {}, 0, 0, false);
    CountersStart(cfg, j, clausesToUse);
    RowStarts(cfg, data, bve, j, {}, 0, 0, false, clausesToUse);
    SnapIs(data);
    SameDefinition(j);
    status, resolvents, binariesOnly, S, a := AnticipateAll(cfg, data, bve, v, pl, nl, clausesToUse, j, start, occs0, quiet, deciding);
    if status == False { return; }
    hide *;
    RowParts(cfg, data, bve, j, S, a, 0, resolvents, binariesOnly, clausesToUse);
    SinceFacts(data, start, occs0, quiet);
  }

  method AnticipateAll(cfg: Config, data: CoprocessorData, bve: BoundedVariableElimination, v: nat,
      pl: nat, nl: nat, clausesToUse: int, ghost j: Job, ghost start: Snapshot, ghost occs0: Occs, ghost quiet: bool,
      ghost deciding: bool)
    returns (status: LBool, resolvents: nat, binariesOnly: bool, ghost S: set<(nat, nat)>, ghost n: nat)
    requires RowInv(cfg, data, bve, j, {}, 0, 0, 0, false, clausesToUse) && j.x == Lit(v, false) && pl == j.pl && nl == j.nl
    requires Since(data, start, occs0, quiet) && data.ca == start.ca && (quiet ==> Quiet(start.ca, j))
    requires |List(data.occs, j.x)| == |j.pos| && |List(data.occs, Neg(j.x))| == |j.neg|
    requires HasDefinition(j) <==> j.pl < |j.pos| || j.nl < |j.neg|
    requires deciding ==> FirstDecides(start.ca, j) && 0 < |List(data.occs, j.x)|
    modifies bve`posStats, bve`negStats, data`ca, data`occs, data`trail, data`ok, data`qhead
    ensures data.Valid() && data.Sound() && (status == False <==> !data.ok) && |data.ca| == |start.ca|
    ensures status != False ==> RowInv(cfg, data, bve, j, S, n, 0, resolvents, binariesOnly, clausesToUse)
    ensures status != False ==> Gone(data, j.x) || n == |j.pos|
    ensures status != False ==> Since(data, start, occs0, quiet)
    ensures quiet ==> status != False
    ensures deciding && status != False ==> Gone(data, j.x) && resolvents == 0 && !binariesOnly
  {
    hide *;
    status, resolvents, S, binariesOnly, n := Undef, 0, {}, false, 0;
    var x := Lit(v, false);
    var hasDefinition := pl < |List(data.occs, x)| || nl < |List(data.occs, Neg(x))|;
    RowParts(cfg, data, bve, j, S, 0, 0, resolvents, binariesOnly, clausesToUse);
    var a := 0;
    while a < |List(data.occs, x)|
      invariant status != False && data.ok && RowInv(cfg, data, bve, j, S, a, 0, resolvents, binariesOnly, clausesToUse)
      invariant Since(data, start, occs0, quiet) && |data.ca| == |start.ca| && (Gone(data, j.x) || a <= |j.pos|)
      invariant deciding ==> resolvents == 0 && !binariesOnly
      invariant deciding ==> if a == 0 then data.ca == start.ca && 0 < |List(data.occs, j.x)| else Gone(data, j.x)
      decreases if Gone(data, j.x) then 0 else 1, |j.pos| - a
    {
      RowParts(cfg, data, bve, j, S, a, 0, resolvents, binariesOnly, clausesToUse);
      status, resolvents, binariesOnly, S := AnticipateRow(cfg, data, bve, v, a, pl, nl, hasDefinition, clausesToUse,
        resolvents, binariesOnly, j, S, start, occs0, quiet);
      if status == False { return; }
      a := a + 1;
    }
    n := a;
    RowParts(cfg, data, bve, j, S, a, 0, resolvents, binariesOnly, clausesToUse);
  }

  lemma SameDefinition(j: Job)
    ensures HasDefinition(j) <==> j.pl < |j.pos| || j.nl < |j.neg|
  {
  }

  // The limit that an early abort compares with.
  method ClausesToUse(cfg: Config, ca: seq<Cls>, pos: seq<CRef>, neg: seq<CRef>, totallyAdded: int) returns (n: int)
    requires InRange(ca, pos) && InRange(ca, neg)
    ensures cfg.earlyAbort ==> n == Limit(cfg, totallyAdded, NumLive(ca, pos) + NumLive(ca, neg))
  {
    n := 0;
    if cfg.earlyAbort {
      n := CountLive(ca, pos, n);
      n := CountLive(ca, neg, n);
      n := n + cfg.grow;
      if cfg.growTotal != INT32_MAX && cfg.growTotal > cfg.grow {
        n := n + (cfg.growTotal - totallyAdded);
      }
    }
  }

  // anticipateElimination: counts the resolvents without building them. True means that
  // the count was given up because it exceeds the limit.
  method AnticipateElimination(cfg: Config, data: CoprocessorData, bve: BoundedVariableElimination, v: nat,
      pl: nat, nl: nat, ghost j: Job)
    returns (status: LBool, resolvents: nat, ghost S: set<(nat, nat)>)
    requires Steady(data) && Working(data, j, true) && j.x == Lit(v, false) && pl == j.pl && nl == j.nl
    requires Unshrunk(data.ca, j.pos, j.pos0) && Unshrunk(data.ca, j.neg, j.neg0)
    requires |bve.posStats| >= |j.pos| && |bve.negStats| >= |j.neg| && AllZero(bve.posStats) && AllZero(bve.negStats)
    modifies bve`posStats, bve`negStats, data`ca, data`occs, data`trail, data`ok, data`qhead
    ensures data.Valid() && data.Sound() && (status == False <==> !data.ok) && |data.ca| == |old(data.ca)|
    ensures status != False ==> Steady(data) && Shrunk(old(Snap(data)), Snap(data))
    ensures status != False ==> S <= Productive(j) && |S| == resolvents <= |Productive(j)|
    ensures status == True ==> cfg.earlyAbort && resolvents > Limit(cfg, bve.totallyAddedClauses, |j.pos| + |j.neg|)
    ensures status == Undef && cfg.earlyAbort && resolvents > 0 ==>
      resolvents <= Limit(cfg, bve.totallyAddedClauses, |j.pos| + |j.neg|)
    ensures status != False ==> Gone(data, j.x) || Working(data, j, true)
    ensures status == Undef ==> Gone(data, j.x) || Anticipated(data, bve, j, S)
    ensures NoSmallResolvents(j) ==>
      status != False && Untouched(data, old(data.ca), old(data.occs), old(data.trail))
      && (status == Undef ==> S == Productive(j))
    ensures FirstDecides(old(data.ca), j) && status != False ==> Gone(data, j.x) && resolvents == 0 && status == Undef
  {
    hide FirstDecides, Implies, PivotsFree;
    hide Tested, StatsFor, Settled, CounterOk, Unshrunk, Productive, SideOk, Defines, Tracked, NoSmallResolvents, Limit;
    hide Shrunk, OccsOk, ClausesOk, TrailOk, Propagated, NoUnits, Step;
    UnshrunkLive(data.ca, j.pos, j.pos0);
    UnshrunkLive(data.ca, j.neg, j.neg0);
    AnticipationStarts(data, bve, j);
    var x := Lit(v, false);
    var clausesToUse := ClausesToUse(cfg, data.ca, List(data.occs, x), List(data.occs, Neg(x)), bve.totallyAddedClauses);
    var binariesOnly;
    ghost var a, was := 0, data.ca;
    status, resolvents, binariesOnly, S, a := AnticipateRows(cfg, data, bve, v, pl, nl, clausesToUse, j);
    if status == False { return; }
    AnticipationEnds(cfg, data, bve, j, S, a, resolvents, binariesOnly, clausesToUse, was);
    status := if binariesOnly then True else Undef;
  }

  lemma SkipRow(cfg: Config, data: CoprocessorData, bve: BoundedVariableElimination, j: Job, S: set<(nat, nat)>, a: nat,
                resolvents: nat, binariesOnly: bool, clausesToUse: int)
    requires Anticipating(data, bve, j, S, a, 0, binariesOnly) && a < |j.pos| && j.pos[a] < |data.ca|
    requires data.ca[j.pos[a]].deleted || binariesOnly
    requires CounterOk(cfg, j, S, a, 0, resolvents, binariesOnly, clausesToUse)
    ensures Anticipating(data, bve, j, S, a + 1, 0, binariesOnly)
    ensures CounterOk(cfg, j, S, a + 1, 0, resolvents, binariesOnly, clausesToUse)
  {
    hide Tested, Tracked, SideOk, Defines, Settled, TrueBody, StatsFor;
    CountersRow(cfg, j, S, a, 0, resolvents, binariesOnly, clausesToUse);
    if !binariesOnly {
      RowDone(cfg, data, bve, j, S, a, 0, binariesOnly);
    }
  }

  lemma AnticipationEnds(cfg: Config, data: CoprocessorData, bve: BoundedVariableElimination, j: Job, S: set<(nat, nat)>, a: nat,
                         resolvents: nat, binariesOnly: bool, clausesToUse: int, was: seq<Cls>)
    requires Steady(data) && CounterOk(cfg, j, S, a, 0, resolvents, binariesOnly, clausesToUse)
    requires Gone(data, j.x) || (Anticipating(data, bve, j, S, a, 0, binariesOnly) && a == |j.pos|)
    ensures S <= Productive(j) && |S| == resolvents <= |Productive(j)|
    ensures binariesOnly ==> cfg.earlyAbort && resolvents > clausesToUse
    ensures !binariesOnly && cfg.earlyAbort && resolvents > 0 ==> resolvents <= clausesToUse
    ensures Gone(data, j.x) || Working(data, j, true)
    ensures !binariesOnly ==> Gone(data, j.x) || Anticipated(data, bve, j, S)
    ensures !binariesOnly && !Gone(data, j.x) && data.ca == was && Quiet(was, j) ==> S == Productive(j)
  {
    hide Steady, Working, Tested, StatsFor, Settled, Unshrunk, Productive, NoSmallResolvents;
    CountedProductive(j, S, a, 0);
    if !binariesOnly && !Gone(data, j.x) && data.ca == was && Quiet(was, j) {
      QuietCountsAll(data, j, S);
    }
  }

  // ---------- removeBlockedClauses ----------

  ghost predicate SomeDeleted(ca: seq<Cls>, i: CRef, k: CRef) {
    i < |ca| && k < |ca| && (ca[i].deleted || ca[k].deleted)
  }

  // Every considered pair in which a clause is deleted is settled.
  ghost predicate DeletedSettled(ca: seq<Cls>, trail: seq<Lit>, j: Job)
    requires JobOk(j)
  {
    forall a: nat, b: nat :: Considered(j, a, b) && SomeDeleted(ca, j.pos[a], j.neg[b]) ==>
      Settled(trail, j.pos0[a], j.x, j.neg0[b])
  }

  ghost predicate RowSettled(trail: seq<Lit>, j: Job, a: nat)
    requires JobOk(j)
  {
    forall b: nat :: Considered(j, a, b) ==> Settled(trail, j.pos0[a], j.x, j.neg0[b])
  }

  lemma BodySatLive(m: Model, data: CoprocessorData, j: Job, a: nat)
    requires Working(data, j, false) && a < |j.pos| && j.pos[a] < |data.ca| && !data.ca[j.pos[a]].deleted
    requires AllHold(m, data.trail)
    ensures BodySat(m, j.pos0[a], j.x) <==> BodySat(m, data.ca[j.pos[a]].lits, j.x)
  {
    SameBody(m, j.pos0[a], data.ca[j.pos[a]], j.x, data.trail);
  }

  lemma NegInRange(j: Job, b: nat)
    requires JobOk(j) && b < |j.neg|
    ensures !Tautology(j.neg0[b]) && Neg(j.x) in j.neg0[b]
  {
    assert Proper(j.neg0[b]);
  }

  lemma FalseDefinition(m: Model, j: Job)
    requires JobOk(j) && HasDefinition(j)
    ensures (exists i :: 0 <= i < j.pl && !BodySat(m, j.pos0[i], j.x)) || (exists k :: 0 <= k < j.nl && !BodySat(m, j.neg0[k], Neg(j.x)))
  {
    assert SomeFalseBody(m, j.x, j.pos0[..j.pl], j.neg0[..j.nl]);
    if !AllBodies(m, j.pos0[..j.pl], j.x) {
      var i :| 0 <= i < j.pl && !BodySat(m, j.pos0[..j.pl][i], j.x);
      assert !BodySat(m, j.pos0[i], j.x);
    } else {
      var k :| 0 <= k < j.nl && !BodySat(m, j.neg0[..j.nl][k], Neg(j.x));
      assert !BodySat(m, j.neg0[k], Neg(j.x));
    }
  }

  // A clause p whose considered pairs are all settled is blocked by the others: with its
  // body false, the bodies of all clauses with ~x are true.
  lemma BlockedBody(data: CoprocessorData, j: Job, a: nat, b: nat, m: Model)
    requires Working(data, j, false) && DeletedSettled(data.ca, data.trail, j) && RowSettled(data.trail, j, a)
    requires a < |j.pos| && b < |j.neg| && AllHold(m, data.trail)
    requires forall i :: 0 <= i < |j.pos| && i != a && j.pos[i] < |data.ca| && !data.ca[j.pos[i]].deleted ==> BodySat(m, data.ca[j.pos[i]].lits, j.x)
    ensures BodySat(m, j.pos0[a], j.x) || BodySat(m, j.neg0[b], Neg(j.x))
  {
    hide Tracked, Settled, Defines, Lists;
    NegInRange(j, b);
    InBounds(data, j, false);
    if Considered(j, a, b) {
      SettledMeans(m, data.trail, j.pos0[a], j.x, j.neg0[b]);
    } else if a < j.pl && b < j.nl {
      DefinitionClash(j, a, b);
      SettledByClash(data.trail, j.pos0[a], j.x, j.neg0[b]);
      SettledMeans(m, data.trail, j.pos0[a], j.x, j.neg0[b]);
    } else {
      FalseDefinition(m, j);
      if i :| 0 <= i < j.pl && !BodySat(m, j.pos0[i], j.x) {
        assert Considered(j, i, b);
        if data.ca[j.pos[i]].deleted {
          SettledMeans(m, data.trail, j.pos0[i], j.x, j.neg0[b]);
        } else {
          BodySatLive(m, data, j, i);
        }
      } else {
        var k :| 0 <= k < j.nl && !BodySat(m, j.neg0[k], Neg(j.x));
        assert Considered(j, a, k);
        NegInRange(j, k);
        SettledMeans(m, data.trail, j.pos0[a], j.x, j.neg0[k]);
      }
    }
  }

  lemma DefinitionClash(j: Job, a: nat, b: nat)
    requires JobOk(j) && HasDefinition(j) && a < j.pl && b < j.nl
    ensures Clash(j.pos0[a], j.x, j.neg0[b])
  {
    assert Clash(j.pos0[..j.pl][a], j.x, j.neg0[..j.nl][b]);
  }

  // In a model of the other clauses, the clauses with x other than the one at a are true
  // without x if x is false.
  lemma OtherBodies(data: CoprocessorData, j: Job, a: nat, m: Model)
    requires Steady(data) && Working(data, j, false) && a < |j.pos| && j.pos[a] < |data.ca|
    requires SatAll(m, BlockedClauses.Rest(data, j.pos[a])) && !Holds(m, j.x)
    ensures AllHold(m, data.trail)
    ensures forall i :: 0 <= i < |j.pos| && i != a && j.pos[i] < |data.ca| && !data.ca[j.pos[i]].deleted ==> BodySat(m, data.ca[j.pos[i]].lits, j.x)
  {
    var rest := Dropped(data.ca, j.pos[a]);
    SatFormula(m, rest, data.trail, data.ok);
    forall i | 0 <= i < |j.pos| && i != a && j.pos[i] < |data.ca| && !data.ca[j.pos[i]].deleted
      ensures BodySat(m, data.ca[j.pos[i]].lits, j.x)
    {
      assert j.pos[i] != j.pos[a];
      assert rest[j.pos[i]] == data.ca[j.pos[i]];
      assert ClsSat(m, rest[j.pos[i]]);
      LiveFacts(data, j, i, false);
      SatByBodyOrPivot(m, data.ca[j.pos[i]].lits, j.x);
    }
  }

  // The pivot can be flipped.
  lemma BlockedFlip(data: CoprocessorData, j: Job, a: nat, m: Model)
    requires Steady(data) && Working(data, j, false) && a < |j.pos| && j.pos[a] < |data.ca| && !data.ca[j.pos[a]].deleted
    requires DeletedSettled(data.ca, data.trail, j) && RowSettled(data.trail, j, a)
    requires SatAll(m, BlockedClauses.Rest(data, j.pos[a])) && !SatClause(m, data.ca[j.pos[a]].lits)
    ensures FlipSafe(BlockedClauses.Rest(data, j.pos[a]), m, j.x)
  {
    hide DeletedSettled, RowSettled, Tracked, NoUnits, Step;
    var x, p := j.x, data.ca[j.pos[a]].lits;
    LiveFacts(data, j, a, false);
    SatByBodyOrPivot(m, p, x);
    OtherBodies(data, j, a, m);
    BodySatLive(m, data, j, a);
    forall d | d in BlockedClauses.Rest(data, j.pos[a]) && Neg(x) in d
      ensures exists y :: y in d && y.v != x.v && Holds(m, y)
    {
      BlockedClauses.PartnersListed(data, j.pos[a], x, d);
      var b :| 0 <= b < |j.neg| && j.neg[b] < |data.ca| && !data.ca[j.neg[b]].deleted && data.ca[j.neg[b]].lits == d;
      BlockedBody(data, j, a, b, m);
      LiveFactsNeg(data, j, b, false);
      SameBody(m, j.neg0[b], data.ca[j.neg[b]], Neg(x), data.trail);
      var y :| y in d && y != Neg(x) && Holds(m, y);
      assert !Tautology(d) && y.v != x.v;
    }
  }

  lemma BlockedRemoval(data: CoprocessorData, j: Job, a: nat)
    requires Steady(data) && Working(data, j, false) && a < |j.pos| && j.pos[a] < |data.ca| && !data.ca[j.pos[a]].deleted
    requires DeletedSettled(data.ca, data.trail, j) && RowSettled(data.trail, j, a)
    ensures Step(data.input, BlockedClauses.Rest(data, j.pos[a]), Segs(data.undo) + [PivotFirst(data.ca[j.pos[a]].lits, j.x)])
  {
    hide DeletedSettled, RowSettled, Tracked, NoUnits, FlipSafe, OccsOk;
    var R, p := BlockedClauses.Rest(data, j.pos[a]), data.ca[j.pos[a]].lits;
    LiveFacts(data, j, a, false);
    FormulaDelete(data.ca, j.pos[a], data.trail, data.ok);
    assert R + {} == R;
    forall m: Model | SatAll(m, R + {}) && !SatClause(m, p) ensures FlipSafe(R, m, j.x) {
      BlockedFlip(data, j, a, m);
    }
    RepairStep(R, p, j.x, {});
    StepCompose(data.input, data.F(), R, Segs(data.undo), [PivotFirst(p, j.x)]);
  }

  lemma PivotedFree(frozen: set<nat>, cs: seq<Clause>, p: Lit)
    requires p.v !in frozen
    ensures PivotsFree(frozen, Pivoted(cs, p))
  {
  }

  lemma DroppedStays(data: CoprocessorData, j: Job, a: nat)
    requires Working(data, j, false) && a < |j.pos| && j.pos[a] < |data.ca|
    requires DeletedSettled(data.ca, data.trail, j) && RowSettled(data.trail, j, a)
    ensures Tracked(Dropped(data.ca, j.pos[a]), j.pos, j.pos0, data.trail, false)
    ensures Tracked(Dropped(data.ca, j.pos[a]), j.neg, j.neg0, data.trail, false)
    ensures DeletedSettled(Dropped(data.ca, j.pos[a]), data.trail, j)
  {
    var ca, cb := data.ca, Dropped(data.ca, j.pos[a]);
    forall i: nat, b: nat | Considered(j, i, b) && SomeDeleted(cb, j.pos[i], j.neg[b])
      ensures Settled(data.trail, j.pos0[i], j.x, j.neg0[b])
    {
      if i != a { assert j.pos[i] != j.pos[a]; }
    }
  }

  // The live clauses among the first entries whose counter is zero.
  ghost function Unproductive(ca: seq<Cls>, list: seq<CRef>, stats: seq<nat>): (r: seq<Clause>)
    requires InRange(ca, list) && |stats| >= |list|
  {
    if list == [] then []
    else
      var n := |list| - 1;
      Unproductive(ca, list[..n], stats) + if !ca[list[n]].deleted && stats[n] == 0 then [ca[list[n]].lits] else []
  }

  // Only entries with counter zero are deleted, up to position n all of them.
  ghost predicate BlockedDropped(was: seq<Cls>, ca: seq<Cls>, list: seq<CRef>, stats: seq<nat>, n: nat)
    requires |stats| >= |list|
  {
    && |ca| == |was|
    && (forall i :: 0 <= i < |ca| ==> ca[i] == was[i] || (ca[i] == was[i].(deleted := true) && i in list))
    && (forall a :: 0 <= a < |list| && list[a] < |ca| ==>
          ca[list[a]] == if a < n && stats[a] == 0 then was[list[a]].(deleted := true) else was[list[a]])
  }

  lemma DropNext(was: seq<Cls>, ca: seq<Cls>, list: seq<CRef>, stats: seq<nat>, n: nat)
    requires |stats| >= |list| && NoDup(list) && n < |list| && list[n] < |ca|
    requires BlockedDropped(was, ca, list, stats, n)
    ensures ca[list[n]].deleted || stats[n] != 0 ==> BlockedDropped(was, ca, list, stats, n + 1)
    ensures stats[n] == 0 ==> BlockedDropped(was, Dropped(ca, list[n]), list, stats, n + 1)
  {
  }

  lemma PivotedAppend(cs: seq<Clause>, c: Clause, p: Lit)
    ensures Pivoted(cs + [c], p) == Pivoted(cs, p) + [PivotFirst(c, p)]
  {
    assert forall i :: 0 <= i < |cs| ==> (cs + [c])[i] == cs[i];
  }

  lemma UnproductiveNext(ca: seq<Cls>, list: seq<CRef>, stats: seq<nat>, n: nat)
    requires InRange(ca, list) && |stats| >= |list| && n < |list|
    ensures Unproductive(ca, list[..n + 1], stats)
         == Unproductive(ca, list[..n], stats) + if !ca[list[n]].deleted && stats[n] == 0 then [ca[list[n]].lits] else []
  {
    assert list[..n + 1][..n] == list[..n];
  }

  // Counter zero means that all considered pairs of the clause are settled.
  ghost predicate ZeroSettled(trail: seq<Lit>, j: Job, stats: seq<nat>)
    requires JobOk(j) && |stats| >= |j.pos|
  {
    forall a :: 0 <= a < |j.pos| && stats[a] == 0 ==> RowSettled(trail, j, a)
  }

  // removeBlockedClauses: the clauses without a counted resolvent go to the undo stack.
  method RemoveBlockedClauses(data: CoprocessorData, stats: seq<nat>, l: Lit, ghost j: Job)
    requires Steady(data) && Working(data, j, false) && l == j.x && |stats| >= |j.pos| && l.v !in data.frozen
    requires DeletedSettled(data.ca, data.trail, j) && ZeroSettled(data.trail, j, stats)
    modifies data`ca, data`undo
    ensures Steady(data) && Working(data, j, false) && DeletedSettled(data.ca, data.trail, j)
    ensures InRange(old(data.ca), j.pos) && BlockedDropped(old(data.ca), data.ca, j.pos, stats, |j.pos|)
    ensures Segs(data.undo) == Segs(old(data.undo)) + Pivoted(Unproductive(old(data.ca), j.pos, stats), l)
  {
    hide Tracked, SideOk, Defines, DeletedSettled, ZeroSettled, OccsOk, ClausesOk, TrailOk, Propagated, Step, FormulaOf;
    hide BlockedDropped, Unproductive, Pivoted, Segs, NoUnits;
    ghost var was, segs := data.ca, Segs(data.undo);
    SideList(data, j);
    InBounds(data, j, false);
    StartDropping(was, j.pos, stats, segs, l);
    hide *;
    var ci := 0;
    while ci < |List(data.occs, l)|
      invariant 0 <= ci <= |j.pos| == |List(data.occs, l)| && Steady(data) && Working(data, j, false)
      invariant DeletedSettled(data.ca, data.trail, j) && ZeroSettled(data.trail, j, stats)
      invariant InRange(was, j.pos) && BlockedDropped(was, data.ca, j.pos, stats, ci)
      invariant Segs(data.undo) == segs + Pivoted(Unproductive(was, j.pos[..ci], stats), l)
    {
      DropAt(data, stats, l, ci, j, was, segs);
      ci := ci + 1;
    }
    assert j.pos[..ci] == j.pos;
  }

  lemma SideList(data: CoprocessorData, j: Job)
    requires Working(data, j, false)
    ensures List(data.occs, j.x) == j.pos
  {
  }

  method DropAt(data: CoprocessorData, stats: seq<nat>, l: Lit, ci: nat, ghost j: Job, ghost was: seq<Cls>, ghost segs: seq<Clause>)
    requires Steady(data) && Working(data, j, false) && l == j.x && |stats| >= |j.pos| && ci < |j.pos| && l.v !in data.frozen
    requires DeletedSettled(data.ca, data.trail, j) && ZeroSettled(data.trail, j, stats)
    requires InRange(was, j.pos) && BlockedDropped(was, data.ca, j.pos, stats, ci)
    requires Segs(data.undo) == segs + Pivoted(Unproductive(was, j.pos[..ci], stats), l)
    modifies data`ca, data`undo
    ensures Steady(data) && Working(data, j, false) && DeletedSettled(data.ca, data.trail, j)
    ensures BlockedDropped(was, data.ca, j.pos, stats, ci + 1)
    ensures Segs(data.undo) == segs + Pivoted(Unproductive(was, j.pos[..ci + 1], stats), l)
  {
    SideList(data, j);
    SideNoDup(data, j);
    hide Working, Tracked, SideOk, Defines, DeletedSettled, OccsOk, ClausesOk, TrailOk, Propagated, Step, FormulaOf;
    hide BlockedDropped, Unproductive, RowSettled, NoUnits, Pivoted;
    UnproductiveNext(was, j.pos, stats, ci);
    DropNext(was, data.ca, j.pos, stats, ci);
    var cr := List(data.occs, l)[ci];
    SameHere(was, data.ca, j.pos, stats, ci);
    if !data.ca[cr].deleted {
      if stats[ci] == 0 {
        DropOne(data, cr, l, ci, j);
        PivotedAppend(Unproductive(was, j.pos[..ci], stats), was[cr].lits, l);
        Regroup(segs, Pivoted(Unproductive(was, j.pos[..ci], stats), l), PivotFirst(was[cr].lits, l));
      }
    } else {
      NothingNew(Unproductive(was, j.pos[..ci], stats));
    }
  }

  lemma Regroup(a: seq<Clause>, b: seq<Clause>, c: Clause)
    ensures a + (b + [c]) == (a + b) + [c]
  {
  }

  lemma NothingNew(s: seq<Clause>)
    ensures s + [] == s
  {
  }

  lemma SideNoDup(data: CoprocessorData, j: Job)
    requires Working(data, j, false)
    ensures NoDup(j.pos) && forall i :: 0 <= i < |j.pos| ==> j.pos[i] < |data.ca|
  {
  }

  lemma SameHere(was: seq<Cls>, ca: seq<Cls>, list: seq<CRef>, stats: seq<nat>, n: nat)
    requires |stats| >= |list| && n < |list| && list[n] < |ca| && BlockedDropped(was, ca, list, stats, n)
    ensures |was| == |ca| && ca[list[n]] == was[list[n]]
  {
  }

  lemma StartDropping(ca: seq<Cls>, list: seq<CRef>, stats: seq<nat>, segs: seq<Clause>, l: Lit)
    requires |stats| >= |list| && InRange(ca, list)
    ensures BlockedDropped(ca, ca, list, stats, 0)
    ensures segs == segs + Pivoted(Unproductive(ca, list[..0], stats), l)
  {
  }

  // One blocked clause.
  method DropOne(data: CoprocessorData, cr: CRef, l: Lit, ghost a: nat, ghost j: Job)
    requires Steady(data) && Working(data, j, false) && a < |j.pos| && cr == j.pos[a] && l == j.x && l.v !in data.frozen
    requires cr < |data.ca| && !data.ca[cr].deleted
    requires DeletedSettled(data.ca, data.trail, j) && RowSettled(data.trail, j, a)
    modifies data`ca, data`undo
    ensures Steady(data) && Working(data, j, false) && DeletedSettled(data.ca, data.trail, j)
    ensures data.ca == Dropped(old(data.ca), cr)
    ensures Segs(data.undo) == Segs(old(data.undo)) + [PivotFirst(old(data.ca)[cr].lits, l)]
  {
    hide Tracked, SideOk, Defines, DeletedSettled, OccsOk, ClausesOk, TrailOk, Propagated, Step, FormulaOf, RowSettled, NoUnits, PivotFirst, PivotsFree, Implies;
    LiveFacts(data, j, a, false);
    BlockedRemoval(data, j, a);
    DroppedStays(data, j, a);
    DropKeepsNoUnits(data.ca, cr);
    var c := data.ca[cr].lits;
    OnePivotFree(data.frozen, c, l);
    PivotsFreeConcat(data.frozen, Segs(data.undo), [PivotFirst(c, l)]);
    FewerImplied(data.origin, data.ca, cr, data.trail, data.ok);
    data.Delete(cr);
    data.AddToExtension(c, l);
  }

  // ---------- resolveSet ----------

  ghost predicate ResolvedUpTo(j: Job, ca: seq<Cls>, trail: seq<Lit>, a: nat, b: nat)
    requires JobOk(j)
  {
    forall i: nat, k: nat :: Considered(j, i, k) && Before(i, k, a, b) ==> Resolved(ca, trail, j.pos0[i], j.x, j.neg0[k])
  }

  ghost predicate Resolving(data: CoprocessorData, j: Job, a: nat, b: nat)
    reads data`ca, data`occs, data`trail
  {
    Working(data, j, false) && DeletedSettled(data.ca, data.trail, j) && ResolvedUpTo(j, data.ca, data.trail, a, b)
  }

  // The new clauses belong to distinct pairs of S.
  ghost predicate Created(base: nat, n: nat, C: set<(nat, nat)>, S: set<(nat, nat)>, a: nat, b: nat) {
    n == base + |C| && C <= S && forall i, k :: (i, k) in C ==> Before(i, k, a, b)
  }

  lemma ResolvedLater(was: seq<Cls>, ca: seq<Cls>, t: seq<Lit>, t': seq<Lit>, c: Clause, x: Lit, d: Clause)
    requires Resolved(was, t, c, x, d) && t <= t'
    requires Simplified(was, ca, t', true) || (was <= ca && t' == t)
    ensures Resolved(ca, t', c, x, d)
  {
    hide Settled;
    if Settled(t, c, x, d) {
      SettledLater(t, t', c, x, d);
    } else {
      var r :| 0 <= r < |was| && IsResolvent(was[r], c, x, d);
      if Simplified(was, ca, t', true) {
        ResolventLater(was[r], ca[r], t', c, x, d);
      } else {
        assert ca[r] == was[r];
      }
    }
  }

  lemma ResolventLater(r: Cls, r': Cls, t: seq<Lit>, c: Clause, x: Lit, d: Clause)
    requires IsResolvent(r, c, x, d) && SimplifiedBy(r, r', t, true)
    ensures IsResolvent(r', c, x, d) || Settled(t, c, x, d)
  {
    if r'.deleted {
      var y :| y in r.lits && y in t;
    }
  }

  lemma ResolvedAllLater(j: Job, was: seq<Cls>, ca: seq<Cls>, t: seq<Lit>, t': seq<Lit>, a: nat, b: nat)
    requires JobOk(j) && ResolvedUpTo(j, was, t, a, b) && t <= t'
    requires Simplified(was, ca, t', true) || (was <= ca && t' == t)
    ensures ResolvedUpTo(j, ca, t', a, b)
  {
    hide Resolved, Simplified, Defines;
    forall i: nat, k: nat | Considered(j, i, k) && Before(i, k, a, b)
      ensures Resolved(ca, t', j.pos0[i], j.x, j.neg0[k])
    {
      ResolvedLater(was, ca, t, t', j.pos0[i], j.x, j.neg0[k]);
    }
  }

  lemma DeletedLater(j: Job, was: seq<Cls>, ca: seq<Cls>, t: seq<Lit>, t': seq<Lit>)
    requires JobOk(j) && DeletedSettled(was, t, j) && t <= t' && Simplified(was, ca, t', true) && Unassigned(t', j.x)
    requires Tracked(was, j.pos, j.pos0, t, false) && Tracked(was, j.neg, j.neg0, t, false)
    ensures DeletedSettled(ca, t', j)
  {
    hide Defines, Settled, TrueBody, SideOk;
    forall a: nat, b: nat | Considered(j, a, b) && SomeDeleted(ca, j.pos[a], j.neg[b])
      ensures |j.pos0| == |j.pos| && |j.neg0| == |j.neg| && Settled(t', j.pos0[a], j.x, j.neg0[b])
    {
      if SomeDeleted(was, j.pos[a], j.neg[b]) {
        SettledLater(t, t', j.pos0[a], j.x, j.neg0[b]);
      } else if ca[j.pos[a]].deleted {
        NewlyDropped(j.pos0[a], was[j.pos[a]], ca[j.pos[a]], j.x, t, t');
        SettledByBody(t', j.pos0[a], j.x, j.neg0[b]);
      } else {
        assert Neg(Neg(j.x)) == j.x;
        NewlyDropped(j.neg0[b], was[j.neg[b]], ca[j.neg[b]], Neg(j.x), t, t');
        SettledByBody(t', j.pos0[a], j.x, j.neg0[b]);
      }
    }
  }

  lemma SettledByBody(t: seq<Lit>, c: Clause, x: Lit, d: Clause)
    ensures TrueBody(t, c, x) || TrueBody(t, d, Neg(x)) ==> Settled(t, c, x, d)
  {
  }

  lemma NewlyDropped(c0: Clause, c: Cls, c': Cls, p: Lit, t: seq<Lit>, t': seq<Lit>)
    requires SimplifiedBy(Cls(c0, false), c, t, false) && SimplifiedBy(c, c', t', true)
    requires !c.deleted && c'.deleted && Unassigned(t', p)
    ensures TrueBody(t', c0, p)
  {
    var y :| y in c.lits && y in t';
    assert y in c0 && y != p;
  }

  lemma ResolvedStep(j: Job, ca: seq<Cls>, t: seq<Lit>, a: nat, b: nat)
    requires JobOk(j) && ResolvedUpTo(j, ca, t, a, b)
    requires Considered(j, a, b) ==> Resolved(ca, t, j.pos0[a], j.x, j.neg0[b])
    ensures ResolvedUpTo(j, ca, t, a, b + 1)
  {
    hide Resolved, Defines;
    forall i: nat, k: nat | Considered(j, i, k) && Before(i, k, a, b + 1)
      ensures Resolved(ca, t, j.pos0[i], j.x, j.neg0[k])
    {
      assert Before(i, k, a, b) || (i == a && k == b);
    }
  }

  lemma ResolvedRow(j: Job, ca: seq<Cls>, t: seq<Lit>, a: nat, b: nat)
    requires JobOk(j) && ResolvedUpTo(j, ca, t, a, b) && a < |j.pos|
    requires b >= |j.neg| || RowSettled(t, j, a)
    ensures ResolvedUpTo(j, ca, t, a + 1, 0)
  {
    hide Settled, Defines;
    forall i: nat, k: nat | Considered(j, i, k) && Before(i, k, a + 1, 0)
      ensures Resolved(ca, t, j.pos0[i], j.x, j.neg0[k])
    {
      if !Before(i, k, a, b) { assert i == a; }
    }
  }

  lemma DeletedRow(data: CoprocessorData, j: Job, a: nat)
    requires Working(data, j, false) && DeletedSettled(data.ca, data.trail, j)
    requires a < |j.pos| && j.pos[a] < |data.ca| && data.ca[j.pos[a]].deleted
    ensures RowSettled(data.trail, j, a)
  {
    InBounds(data, j, false);
  }

  lemma ResolventProper(p: Clause, n: Clause, x: Lit, r: Clause, trail: seq<Lit>)
    requires Proper(p) && Proper(n) && x in p && Neg(x) in n && !Clash(p, x, n) && Sorted(r) && Lits(r) == ResolventLits(p, n, x)
    requires NoneAssigned(p, trail) && NoneAssigned(n, trail)
    ensures Proper(r) && NoneAssigned(r, trail) && x !in r && Neg(x) !in r
    ensures forall l :: l in r ==> (l in p && l != x) || (l in n && l != Neg(x))
  {
    assert forall l :: l in r <==> l in Lits(r);
    forall l | l in r ensures Neg(l) !in r {
      assert Neg(Neg(l)) == l;
    }
    assert Neg(Neg(x)) == x;
  }

  // A resolvent with at least two literals joins the database.
  method StoreResolvent(data: CoprocessorData, cp: CRef, cn: CRef, ps: Clause, ghost j: Job, ghost a: nat, ghost b: nat)
    requires Steady(data) && Resolving(data, j, a, b) && a < |j.pos| && b < |j.neg| && cp == j.pos[a] && cn == j.neg[b]
    requires cp < |data.ca| && cn < |data.ca| && !data.ca[cp].deleted && !data.ca[cn].deleted
    requires !Clash(data.ca[cp].lits, j.x, data.ca[cn].lits)
    requires Sorted(ps) && |ps| > 1 && Lits(ps) == ResolventLits(data.ca[cp].lits, data.ca[cn].lits, j.x)
    modifies data`ca, data`occs
    ensures Steady(data) && Resolving(data, j, a, b) && Resolved(data.ca, data.trail, j.pos0[a], j.x, j.neg0[b])
    ensures data.ca == old(data.ca) + [Cls(ps, false)]
  {
    hide Tracked, SideOk, Defines, DeletedSettled, ResolvedUpTo, Step, NoneAssigned, Sorted, Lits, ResolventLits, Settled, Clash;
    ghost var was, trail := data.ca, data.trail;
    LiveFacts(data, j, a, false);
    LiveFactsNeg(data, j, b, false);
    ResolventProper(data.ca[cp].lits, data.ca[cn].lits, j.x, ps, data.trail);
    ResolventEntailed(data, cp, cn, j.x, ps);
    EntailedStep(data.input, data.F(), ps, Segs(data.undo));
    ImpliesMore(data.origin, data.F(), ps);
    FormulaAdd(data.ca, ps, data.trail, data.ok);
    UnassignedAll(data, ps);
    var cr := data.AddClause(ps);
    AppendKeeps(was, data.ca, trail, j, a, b, Cls(ps, false));
  }

  lemma UnassignedAll(data: CoprocessorData, ps: Clause)
    requires Steady(data) && NoneAssigned(ps, data.trail)
    ensures forall l :: l in ps ==> Unassigned(data.trail[..data.qhead], l)
  {
    assert data.trail[..data.qhead] == data.trail;
  }

  lemma AppendKeeps(was: seq<Cls>, ca: seq<Cls>, trail: seq<Lit>, j: Job, a: nat, b: nat, c: Cls)
    requires JobOk(j) && ca == was + [c] && a < |j.pos| && b < |j.neg|
    requires Tracked(was, j.pos, j.pos0, trail, false) && Tracked(was, j.neg, j.neg0, trail, false)
    requires DeletedSettled(was, trail, j) && ResolvedUpTo(j, was, trail, a, b)
    requires IsResolvent(c, j.pos0[a], j.x, j.neg0[b])
    ensures Tracked(ca, j.pos, j.pos0, trail, false) && Tracked(ca, j.neg, j.neg0, trail, false)
    ensures DeletedSettled(ca, trail, j) && ResolvedUpTo(j, ca, trail, a, b)
    ensures Resolved(ca, trail, j.pos0[a], j.x, j.neg0[b])
    ensures |c.lits| > 1 && NoUnits(was) ==> NoUnits(ca)
  {
    hide SideOk, Defines, Settled, SimplifiedBy;
    assert ca[|was|] == c;
    ResolvedAllLater(j, was, ca, trail, trail, a, b);
    forall i: nat, k: nat | Considered(j, i, k) && SomeDeleted(ca, j.pos[i], j.neg[k])
      ensures |j.pos0| == |j.pos| && |j.neg0| == |j.neg| && Settled(trail, j.pos0[i], j.x, j.neg0[k])
    {
      assert SomeDeleted(was, j.pos[i], j.neg[k]);
    }
  }

  // The pair is resolved: a longer resolvent is stored, a unit is propagated.
  method ResolvePair(data: CoprocessorData, v: nat, a: nat, b: nat, ghost j: Job) returns (status: LBool, ghost stored: bool)
    requires Steady(data) && Resolving(data, j, a, b) && j.x == Lit(v, false) && Considered(j, a, b)
    requires j.pos[a] < |data.ca| && j.neg[b] < |data.ca|
    requires !data.ca[j.pos[a]].deleted && !data.ca[j.neg[b]].deleted
    modifies data`ca, data`occs, data`trail, data`ok, data`qhead
    ensures data.Valid() && data.Sound() && (status == False <==> !data.ok)
    ensures status != False ==> Steady(data) && old(data.trail) <= data.trail && Kept(old(Snap(data)), Snap(data), j.x.v)
    ensures status != False ==> Gone(data, j.x) || Resolving(data, j, a, b + 1)
    ensures |data.ca| == |old(data.ca)| + if stored then 1 else 0
    ensures stored ==> !old(Settled(data.trail, j.pos0[a], j.x, j.neg0[b]))
  {
    hide Tracked, SideOk, Defines, DeletedSettled, ResolvedUpTo, NoneAssigned, Sorted, Lits, ResolventLits, Settled, Clash, Resolved;
    hide OccsOk, ClausesOk, TrailOk, Propagated, Step, NoUnits, Simplified, Unshrunk;
    status, stored := Undef, false;
    var x := Lit(v, false);
    var cp, cn := List(data.occs, x)[a], List(data.occs, Neg(x))[b];
    LiveFacts(data, j, a, false);
    LiveFactsNeg(data, j, b, false);
    PairFacts(data, j, a, b, false);
    ghost var was, trail := data.ca, data.trail;
    var taut, ps := Resolve(data.ca[cp].lits, data.ca[cn].lits, v);
    if !taut {
      SingleLiteral(ps, ResolventLits(data.ca[cp].lits, data.ca[cn].lits, x));
      if |ps| == 1 {
        status := UnitPair(data, v, a, b, j, false);
        if status != False && !Gone(data, x) {
          DeletedLater(j, was, data.ca, trail, data.trail);
          ResolvedAllLater(j, was, data.ca, trail, data.trail, a, b);
        }
      } else if |ps| > 1 {
        StoreResolvent(data, cp, cn, ps, j, a, b);
        stored := true;
      }
    }
    if status != False {
      KeptStep(was, trail, data.ca, data.trail, j.x.v);
      if !Gone(data, x) {
        WorkingJob(data, j, false);
        SettledResolved(data.ca, data.trail, j.pos0[a], x, j.neg0[b]);
        ResolvedStep(j, data.ca, data.trail, a, b);
      }
    }
  }

  lemma SettledResolved(ca: seq<Cls>, trail: seq<Lit>, c: Clause, x: Lit, d: Clause)
    ensures Settled(trail, c, x, d) ==> Resolved(ca, trail, c, x, d)
  {
  }

  lemma CreateOne(base: nat, n: nat, C: set<(nat, nat)>, S: set<(nat, nat)>, a: nat, b: nat)
    requires Created(base, n, C, S, a, b)
    ensures Created(base, n, C, S, a, b + 1) && Created(base, n, C, S, a + 1, 0)
    ensures (a, b) in S ==> Created(base, n + 1, C + {(a, b)}, S, a, b + 1)
  {
    assert (a, b) !in C;
    forall i, k | (i, k) in C + {(a, b)} ensures Before(i, k, a, b + 1) {
      assert (i, k) in C || (i == a && k == b);
    }
  }

  lemma TestedAt(j: Job, trail: seq<Lit>, S: set<(nat, nat)>, a: nat, b: nat)
    requires JobOk(j) && Tested(j, trail, S, |j.pos|, 0) && Considered(j, a, b)
    ensures (a, b) in S || Settled(trail, j.pos0[a], j.x, j.neg0[b])
  {
    assert Before(a, b, |j.pos|, 0);
  }

  lemma TestedLater(j: Job, t: seq<Lit>, t': seq<Lit>, S: set<(nat, nat)>, a: nat, b: nat)
    requires JobOk(j) && Tested(j, t, S, a, b) && t <= t'
    ensures Tested(j, t', S, a, b)
  {
    hide Settled, Defines;
    forall i: nat, k: nat | Considered(j, i, k) && Before(i, k, a, b)
      ensures |j.pos0| == |j.pos| && |j.neg0| == |j.neg| && ((i, k) in S || Settled(t', j.pos0[i], j.x, j.neg0[k]))
    {
      if (i, k) !in S { SettledLater(t, t', j.pos0[i], j.x, j.neg0[k]); }
    }
  }

  // resolveSet before the pair (a, b): S are the pairs that were anticipated.
  ghost predicate ResolveInv(data: CoprocessorData, j: Job, S: set<(nat, nat)>, a: nat, b: nat)
    reads data`ca, data`occs, data`trail
  {
    Resolving(data, j, a, b) && Tested(j, data.trail, S, |j.pos|, 0)
  }

  method ResolveStep(data: CoprocessorData, v: nat, a: nat, b: nat, pl: nat, nl: nat, hasDefinition: bool,
      ghost j: Job, ghost S: set<(nat, nat)>, ghost base: nat, ghost C0: set<(nat, nat)>)
    returns (status: LBool, ghost C: set<(nat, nat)>)
    requires Steady(data) && ResolveInv(data, j, S, a, b) && j.x == Lit(v, false)
    requires a < |j.pos| && b < |j.neg| && j.pos[a] < |data.ca| && !data.ca[j.pos[a]].deleted
    requires pl == j.pl && nl == j.nl && hasDefinition == HasDefinition(j)
    requires Created(base, |data.ca|, C0, S, a, b)
    modifies data`ca, data`occs, data`trail, data`ok, data`qhead
    ensures data.Valid() && data.Sound() && (status == False <==> !data.ok)
    ensures status != False ==> Steady(data) && old(data.trail) <= data.trail && Kept(old(Snap(data)), Snap(data), j.x.v)
    ensures status != False ==> Created(base, |data.ca|, C, S, a, b + 1)
    ensures status != False ==> Gone(data, j.x) || ResolveInv(data, j, S, a, b + 1)
  {
    hide Tracked, SideOk, Defines, DeletedSettled, ResolvedUpTo, NoneAssigned, Settled, Resolved, Created, Tested;
    hide OccsOk, ClausesOk, TrailOk, Propagated, Step, NoUnits;
    status, C := Undef, C0;
    InBounds(data, j, false);
    CreateOne(base, |data.ca|, C0, S, a, b);
    KeptSame(data, j.x.v);
    var cn := List(data.occs, Lit(v, true))[b];
    if (a >= pl && b >= nl) || (hasDefinition && a < pl && b < nl) {
      ResolvedStep(j, data.ca, data.trail, a, b);
    } else if data.ca[cn].deleted {
      DeletedPair(data, j, a, b);
      SettledResolved(data.ca, data.trail, j.pos0[a], j.x, j.neg0[b]);
      ResolvedStep(j, data.ca, data.trail, a, b);
    } else {
      TestedAt(j, data.trail, S, a, b);
      ghost var stored, trail := false, data.trail;
      status, stored := ResolvePair(data, v, a, b, j);
      if stored { C := C0 + {(a, b)}; }
      if status != False { TestedLater(j, trail, data.trail, S, |j.pos|, 0); }
    }
  }

  lemma DeletedPair(data: CoprocessorData, j: Job, a: nat, b: nat)
    requires Working(data, j, false) && DeletedSettled(data.ca, data.trail, j) && Considered(j, a, b)
    requires j.neg[b] < |data.ca| && data.ca[j.neg[b]].deleted
    ensures Settled(data.trail, j.pos0[a], j.x, j.neg0[b])
  {
    InBounds(data, j, false);
    assert SomeDeleted(data.ca, j.pos[a], j.neg[b]);
  }

  // One clause with x against all clauses with ~x.
  method ResolveRow(data: CoprocessorData, v: nat, a: nat, pl: nat, nl: nat, hasDefinition: bool,
      ghost j: Job, ghost S: set<(nat, nat)>, ghost base: nat, ghost C0: set<(nat, nat)>)
    returns (status: LBool, ghost C: set<(nat, nat)>)
    requires Steady(data) && ResolveInv(data, j, S, a, 0) && j.x == Lit(v, false)
    requires a < |j.pos| && j.pos[a] < |data.ca| && !data.ca[j.pos[a]].deleted
    requires pl == j.pl && nl == j.nl && hasDefinition == HasDefinition(j)
    requires Created(base, |data.ca|, C0, S, a, 0)
    modifies data`ca, data`occs, data`trail, data`ok, data`qhead
    ensures data.Valid() && data.Sound() && (status == False <==> !data.ok)
    ensures status != False ==> Steady(data) && old(data.trail) <= data.trail && Kept(old(Snap(data)), Snap(data), j.x.v)
    ensures status != False ==> Created(base, |data.ca|, C, S, a + 1, 0)
    ensures status != False ==> Gone(data, j.x) || ResolveInv(data, j, S, a + 1, 0)
    ensures OneSided(j) ==> data.trail == old(data.trail)
  {
    hide ResolveInv, Created, Steady, Unassigned, Step, FormulaOf, OccsOk, ClausesOk, TrailOk, Propagated;
    hide HasDefinition, WellFormed, NoEmptySegment, PivotsFree;
    status, C := Undef, C0;
    var x := Lit(v, false);
    ResolveJob(data, j, S, a, 0);
    SteadyFacts(data);
    KeptSame(data, j.x.v);
    var cp := List(data.occs, x)[a];
    var b := 0;
    while b < |List(data.occs, Neg(x))|
      invariant Steady(data) && old(data.trail) <= data.trail && Kept(old(Snap(data)), Snap(data), j.x.v) && status != False
      invariant Gone(data, x) || (ResolveInv(data, j, S, a, b) && b <= |j.neg| && !data.ca[cp].deleted)
      invariant Created(base, |data.ca|, C, S, a, b)
      invariant OneSided(j) ==> data.trail == old(data.trail)
      decreases if Gone(data, x) then 0 else 1, |j.neg| - b
    {
      ResolveJob(data, j, S, a, b);
      ghost var mid := Snap(data);
      status, C := ResolveStep(data, v, a, b, pl, nl, hasDefinition, j, S, base, C);
      if status == False { return; }
      KeptTrans(old(Snap(data)), mid, Snap(data), j.x.v);
      b := b + 1;
      if data.ca[cp].deleted { break; }
    }
    SteadyFacts(data);
    CreateOne(base, |data.ca|, C, S, a, b);
    if !Gone(data, x) {
      ResolveJob(data, j, S, a, b);
      ResolveRowDone(data, j, S, a, b);
    }
  }

  lemma ResolveJob(data: CoprocessorData, j: Job, S: set<(nat, nat)>, a: nat, b: nat)
    requires ResolveInv(data, j, S, a, b)
    ensures JobOk(j) && List(data.occs, j.x) == j.pos && List(data.occs, Neg(j.x)) == j.neg
    ensures forall i :: 0 <= i < |j.pos| ==> j.pos[i] < |data.ca|
  {
    InBounds(data, j, false);
  }

  lemma ResolveRowDone(data: CoprocessorData, j: Job, S: set<(nat, nat)>, a: nat, b: nat)
    requires ResolveInv(data, j, S, a, b) && a < |j.pos| && j.pos[a] < |data.ca|
    requires b >= |j.neg| || data.ca[j.pos[a]].deleted
    ensures ResolveInv(data, j, S, a + 1, 0)
  {
    hide Tracked, SideOk, Defines, DeletedSettled, ResolvedUpTo, Settled, Tested, RowSettled;
    WorkingJob(data, j, false);
    if b < |j.neg| { DeletedRow(data, j, a); }
    ResolvedRow(j, data.ca, data.trail, a, b);
  }

  // One round of the loop over the clauses with x.
  method ResolveNext(data: CoprocessorData, v: nat, i: nat, pl: nat, nl: nat, hasDefinition: bool,
      ghost j: Job, ghost S: set<(nat, nat)>, ghost base: nat, ghost C0: set<(nat, nat)>)
    returns (status: LBool, ghost C: set<(nat, nat)>)
    requires Steady(data) && ResolveInv(data, j, S, i, 0) && j.x == Lit(v, false) && i < |j.pos|
    requires pl == j.pl && nl == j.nl && hasDefinition == HasDefinition(j)
    requires Created(base, |data.ca|, C0, S, i, 0)
    modifies data`ca, data`occs, data`trail, data`ok, data`qhead
    ensures data.Valid() && data.Sound() && (status == False <==> !data.ok)
    ensures status != False ==> Steady(data) && Kept(old(Snap(data)), Snap(data), j.x.v)
    ensures status != False ==> Created(base, |data.ca|, C, S, i + 1, 0)
    ensures status != False ==> Gone(data, j.x) || ResolveInv(data, j, S, i + 1, 0)
    ensures OneSided(j) ==> data.trail == old(data.trail)
  {
    hide ResolveInv, Created, Steady, Unassigned, Kept;
    SteadyFacts(data);
    ResolveJob(data, j, S, i, 0);
    KeptSame(data, j.x.v);
    var cp := List(data.occs, Lit(v, false))[i];
    if data.ca[cp].deleted {
      status, C := Undef, C0;
      ResolveRowDone(data, j, S, i, 0);
      CreateOne(base, |data.ca|, C, S, i, 0);
    } else {
      status, C := ResolveRow(data, v, i, pl, nl, hasDefinition, j, S, base, C0);
    }
  }

  // resolveSet: afterwards every considered pair has its resolvent in the formula or does
  // not need one. Only anticipated pairs yield new clauses.
  method ResolveSet(data: CoprocessorData, v: nat, pl: nat, nl: nat, ghost j: Job, ghost S: set<(nat, nat)>)
    returns (status: LBool, ghost a: nat)
    requires Steady(data) && Working(data, j, false) && DeletedSettled(data.ca, data.trail, j)
    requires j.x == Lit(v, false) && pl == j.pl && nl == j.nl && Tested(j, data.trail, S, |j.pos|, 0)
    modifies data`ca, data`occs, data`trail, data`ok, data`qhead
    ensures data.Valid() && data.Sound() && (status == False <==> !data.ok)
    ensures status != False ==> Steady(data) && Kept(old(Snap(data)), Snap(data), j.x.v)
    ensures status != False ==> |data.ca| <= |old(data.ca)| + |S|
    ensures status != False ==> Gone(data, j.x) || (Resolving(data, j, a, 0) && a == |j.pos|)
    ensures OneSided(j) ==> data.trail == old(data.trail)
  {
    hide ResolveInv, Created, Steady, Unassigned, Kept, Gone, Working, DeletedSettled, Tested, JobOk, OneSided;
    ghost var C: set<(nat, nat)> := {};
    ghost var start := Snap(data);
    ResolveStarts(data, j, S);
    ResolveJob(data, j, S, 0, 0);
    SteadyFacts(data);
    SnapIs(data);
    SameDefinition(j);
    status, C, a := ResolveRows(data, v, pl, nl, j, S, start);
    if status == False { return; }
    SteadyFacts(data);
    CreatedBound(|start.ca|, |data.ca|, C, S, a, 0);
    if !Gone(data, j.x) { ResolveEnds(data, j, S, a); }
  }

  method ResolveRows(data: CoprocessorData, v: nat, pl: nat, nl: nat, ghost j: Job, ghost S: set<(nat, nat)>, ghost start: Snapshot)
    returns (status: LBool, ghost C: set<(nat, nat)>, ghost n: nat)
    requires Steady(data) && data.Valid() && data.Sound() && data.ok && ResolveInv(data, j, S, 0, 0)
    requires Created(|start.ca|, |data.ca|, {}, S, 0, 0) && Kept(start, Snap(data), j.x.v) && data.trail == start.trail
    requires j.x == Lit(v, false) && pl == j.pl && nl == j.nl
    requires |List(data.occs, j.x)| == |j.pos| && |List(data.occs, Neg(j.x))| == |j.neg|
    requires HasDefinition(j) <==> j.pl < |j.pos| || j.nl < |j.neg|
    modifies data`ca, data`occs, data`trail, data`ok, data`qhead
    ensures data.Valid() && data.Sound() && (status == False <==> !data.ok)
    ensures status != False ==> Steady(data) && Kept(start, Snap(data), j.x.v)
    ensures status != False ==> Created(|start.ca|, |data.ca|, C, S, n, 0)
    ensures status != False ==> Gone(data, j.x) || (ResolveInv(data, j, S, n, 0) && n == |j.pos|)
    ensures OneSided(j) ==> data.trail == start.trail
  {
    hide *;
    status, C, n := Undef, {}, 0;
    var x := Lit(v, false);
    var hasDefinition := pl < |List(data.occs, x)| || nl < |List(data.occs, Neg(x))|;
    var i := 0;
    while i < |List(data.occs, x)|
      invariant status != False && data.ok && Steady(data) && Kept(start, Snap(data), j.x.v)
      invariant Gone(data, x) || (ResolveInv(data, j, S, i, 0) && i <= |j.pos|)
      invariant Created(|start.ca|, |data.ca|, C, S, i, 0)
      invariant OneSided(j) ==> data.trail == start.trail
      decreases if Gone(data, x) then 0 else 1, |j.pos| - i
    {
      NotGone(data, x);
      ResolveJob(data, j, S, i, 0);
      ghost var mid := Snap(data);
      status, C := ResolveNext(data, v, i, pl, nl, hasDefinition, j, S, |start.ca|, C);
      if status == False { return; }
      SteadyFacts(data);
      KeptTrans(start, mid, Snap(data), j.x.v);
      i := i + 1;
    }
    n := i;
    SteadyFacts(data);
    if !Gone(data, x) { ResolveJob(data, j, S, i, 0); }
  }

  lemma NotGone(data: CoprocessorData, x: Lit)
    ensures |List(data.occs, x)| > 0 || |List(data.occs, Neg(x))| > 0 ==> !Gone(data, x)
  {
  }

  lemma CreatedBound(base: nat, n: nat, C: set<(nat, nat)>, S: set<(nat, nat)>, a: nat, b: nat)
    requires Created(base, n, C, S, a, b)
    ensures n <= base + |S|
  {
    SubsetCard(C, S);
  }

  lemma ResolveStarts(data: CoprocessorData, j: Job, S: set<(nat, nat)>)
    requires Working(data, j, false) && DeletedSettled(data.ca, data.trail, j) && Tested(j, data.trail, S, |j.pos|, 0)
    ensures ResolveInv(data, j, S, 0, 0) && Created(|data.ca|, |data.ca|, {}, S, 0, 0)
    ensures Kept(Snap(data), Snap(data), j.x.v)
  {
  }

  lemma ResolveEnds(data: CoprocessorData, j: Job, S: set<(nat, nat)>, a: nat)
    requires ResolveInv(data, j, S, a, 0)
    ensures Resolving(data, j, a, 0)
  {
  }

  // ---------- removeClauses ----------

  ghost function DropAll(ca: seq<Cls>, list: seq<CRef>): (r: seq<Cls>)
    ensures |r| == |ca| && forall i :: 0 <= i < |ca| ==> r[i] == if i in list then ca[i].(deleted := true) else ca[i]
  {
    seq(|ca|, i requires 0 <= i < |ca| => if i in list then ca[i].(deleted := true) else ca[i])
  }

  // The clauses of the list that are still there, in list order.
  ghost function LiveLits(ca: seq<Cls>, list: seq<CRef>): (r: seq<Clause>)
    requires InRange(ca, list)
  {
    if list == [] then []
    else
      var n := |list| - 1;
      LiveLits(ca, list[..n]) + if ca[list[n]].deleted then [] else [ca[list[n]].lits]
  }

  lemma {:induction false} LiveLitsFrom(ca: seq<Cls>, list: seq<CRef>, c: Clause)
    requires InRange(ca, list)
    ensures c in LiveLits(ca, list) <==> exists k :: 0 <= k < |list| && !ca[list[k]].deleted && ca[list[k]].lits == c
  {
    if list != [] {
      var n := |list| - 1;
      LiveLitsFrom(ca, list[..n], c);
      if k :| 0 <= k < |list| && !ca[list[k]].deleted && ca[list[k]].lits == c {
        if k < n { assert list[..n][k] == list[k]; }
      }
    }
  }

  lemma LiveLitsNext(ca: seq<Cls>, list: seq<CRef>, n: nat)
    requires InRange(ca, list) && n < |list|
    ensures LiveLits(ca, list[..n + 1]) == LiveLits(ca, list[..n]) + if ca[list[n]].deleted then [] else [ca[list[n]].lits]
  {
    assert list[..n + 1][..n] == list[..n];
  }

  lemma DropAllNext(ca: seq<Cls>, list: seq<CRef>, n: nat)
    requires n < |list| && list[n] < |ca| && NoDup(list)
    ensures DropAll(ca, list[..n])[list[n]] == ca[list[n]]
    ensures DropAll(ca, list[..n + 1]) == Dropped(DropAll(ca, list[..n]), list[n])
  {
    assert list[..n + 1] == list[..n] + [list[n]];
  }

  lemma DropAllStart(ca: seq<Cls>, list: seq<CRef>)
    ensures DropAll(ca, list[..0]) == ca && list[..|list|] == list
  {
  }

  // What removeClauses pushes.
  ghost function Pushed(undoLit: Option<Lit>, cs: seq<Clause>): seq<Clause> {
    if undoLit.None? then [] else Pivoted(cs, undoLit.value)
  }

  lemma PushedNext(undoLit: Option<Lit>, cs: seq<Clause>, c: Clause)
    ensures Pushed(undoLit, cs + [c]) == Pushed(undoLit, cs) + if undoLit.None? then [] else [PivotFirst(c, undoLit.value)]
    ensures Pushed(undoLit, cs + []) == Pushed(undoLit, cs)
  {
    assert cs + [] == cs;
    if undoLit.Some? { PivotedAppend(cs, c, undoLit.value); }
  }

  // removeClauses: deletes the clauses of the list, and pushes them if a literal is given.
  method RemoveClauses(data: CoprocessorData, list: seq<CRef>, undoLit: Option<Lit>)
    requires data.Valid() && InRange(data.ca, list) && NoDup(list)
    requires undoLit.Some? ==> ListFor(data.ca, list, undoLit.value)
    modifies data`ca, data`undo
    ensures data.Valid() && data.ca == DropAll(old(data.ca), list)
    ensures Segs(data.undo) == Segs(old(data.undo)) + Pushed(undoLit, LiveLits(old(data.ca), list))
  {
    hide DropAll, LiveLits, Pushed, OccsOk, ClausesOk, TrailOk, Propagated, NoDup;
    ghost var was, segs := data.ca, Segs(data.undo);
    DropAllStart(was, list);
    PushedStart(undoLit, was, list, segs);
    var i := 0;
    while i < |list|
      invariant 0 <= i <= |list| && data.Valid() && data.ca == DropAll(was, list[..i])
      invariant Segs(data.undo) == segs + Pushed(undoLit, LiveLits(was, list[..i]))
    {
      LiveLitsNext(was, list, i);
      DropAllNext(was, list, i);
      PushedNext(undoLit, LiveLits(was, list[..i]), was[list[i]].lits);
      var cr := list[i];
      DropAllLength(was, list, i);
      if !data.ca[cr].deleted {
        var c := data.ca[cr].lits;
        data.Delete(cr);
        if undoLit.Some? { data.AddToExtension(c, undoLit.value); }
      } else {
        DropTwice(data.ca, cr);
      }
      RegroupSegs(segs, Pushed(undoLit, LiveLits(was, list[..i])), was[cr], undoLit);
      i := i + 1;
    }
  }

  lemma PushedStart(undoLit: Option<Lit>, ca: seq<Cls>, list: seq<CRef>, segs: seq<Clause>)
    requires InRange(ca, list)
    ensures segs == segs + Pushed(undoLit, LiveLits(ca, list[..0]))
  {
  }

  lemma DropAllLength(ca: seq<Cls>, list: seq<CRef>, n: nat)
    requires n <= |list|
    ensures |DropAll(ca, list[..n])| == |ca|
  {
  }

  lemma DropTwice(ca: seq<Cls>, i: CRef)
    requires i < |ca| && ca[i].deleted
    ensures Dropped(ca, i) == ca
  {
  }

  lemma RegroupSegs(segs: seq<Clause>, p: seq<Clause>, c: Cls, undoLit: Option<Lit>)
    ensures undoLit.Some? ==> segs + (p + [PivotFirst(c.lits, undoLit.value)]) == (segs + p) + [PivotFirst(c.lits, undoLit.value)]
    ensures segs + (p + []) == segs + p
  {
  }

  // ---------- why the clauses on x can go ----------

  lemma FormulaDropAll(ca: seq<Cls>, list: seq<CRef>, trail: seq<Lit>, ok: bool)
    requires InRange(ca, list)
    ensures FormulaOf(ca, trail, ok) == FormulaOf(DropAll(ca, list), trail, ok) + (set c | c in LiveLits(ca, list))
  {
    var cb := DropAll(ca, list);
    forall c | c in Live(ca) ensures c in Live(cb) || c in LiveLits(ca, list) {
      var i :| 0 <= i < |ca| && !ca[i].deleted && ca[i].lits == c;
      if i in list {
        var k :| 0 <= k < |list| && list[k] == i;
        LiveLitsFrom(ca, list, c);
      } else {
        assert cb[i] == ca[i];
      }
    }
    forall c | c in Live(cb) || c in LiveLits(ca, list) ensures c in Live(ca) {
      LiveLitsFrom(ca, list, c);
      if c in Live(cb) {
        var i :| 0 <= i < |cb| && !cb[i].deleted && cb[i].lits == c;
        assert ca[i] == cb[i];
      }
    }
  }

  // The database without the clauses on x.
  ghost function WithoutVariable(data: CoprocessorData, j: Job): seq<Cls>
    reads data`ca
  {
    DropAll(DropAll(data.ca, j.pos), j.neg)
  }

  // Nothing that is left mentions x.
  lemma VariableFree(data: CoprocessorData, j: Job)
    requires Steady(data) && Working(data, j, false)
    ensures NoLive(WithoutVariable(data, j), j.x) && NoLive(WithoutVariable(data, j), Neg(j.x))
    ensures forall d, l: Lit :: d in FormulaOf(WithoutVariable(data, j), data.trail, data.ok) && l in d ==> l.v != j.x.v
  {
    var cb := WithoutVariable(data, j);
    forall i, l: Lit | 0 <= i < |cb| && !cb[i].deleted && l in cb[i].lits ensures l.v != j.x.v {
      assert !data.ca[i].deleted && l in data.ca[i].lits;
      assert InList(data.occs, l, i);
      assert l.v == j.x.v ==> l == j.x || l == Neg(j.x);
    }
    forall d, l: Lit | d in FormulaOf(cb, data.trail, data.ok) && l in d ensures l.v != j.x.v {
      if d in Units(data.trail) {
        assert l in data.trail;
      } else {
        var i :| 0 <= i < |cb| && !cb[i].deleted && cb[i].lits == d;
      }
    }
  }

  // A resolvent is not one of the clauses on x.
  lemma ResolventStays(data: CoprocessorData, j: Job, r: CRef, a: nat, b: nat)
    requires Steady(data) && Working(data, j, false) && a < |j.pos| && b < |j.neg| && r < |data.ca|
    requires IsResolvent(data.ca[r], j.pos0[a], j.x, j.neg0[b])
    ensures WithoutVariable(data, j)[r] == data.ca[r]
  {
    hide Tracked, Step, Defines;
    InBounds(data, j, false);
    assert Proper(j.pos0[a]) && Proper(j.neg0[b]);
    assert Neg(Neg(j.x)) == j.x;
    assert j.x !in data.ca[r].lits && Neg(j.x) !in data.ca[r].lits;
    assert r in j.pos <==> InList(data.occs, j.x, r);
    assert r in j.neg <==> InList(data.occs, Neg(j.x), r);
  }

  lemma ConsideredBody(data: CoprocessorData, j: Job, n: nat, m: Model, a: nat, b: nat)
    requires Steady(data) && Resolving(data, j, n, 0) && n == |j.pos| && Considered(j, a, b)
    requires AllHold(m, data.trail) && AllSat(m, WithoutVariable(data, j))
    ensures BodySat(m, j.pos0[a], j.x) || BodySat(m, j.neg0[b], Neg(j.x))
  {
    hide Tracked, Step, Defines, DeletedSettled, Settled, NoUnits, OccsOk;
    NegInRange(j, b);
    assert Before(a, b, n, 0);
    forall r | 0 <= r < |data.ca| && IsResolvent(data.ca[r], j.pos0[a], j.x, j.neg0[b])
      ensures SatClause(m, data.ca[r].lits)
    {
      ResolventStays(data, j, r, a, b);
      assert ClsSat(m, WithoutVariable(data, j)[r]);
    }
    ResolvedMeans(m, data.ca, data.trail, j.pos0[a], j.x, j.neg0[b]);
  }

  // In a model of what is left, no clause with x and clause with ~x both depend on x.
  lemma PairBody(data: CoprocessorData, j: Job, n: nat, m: Model, a: nat, b: nat)
    requires Steady(data) && Resolving(data, j, n, 0) && n == |j.pos| && a < |j.pos| && b < |j.neg|
    requires AllHold(m, data.trail) && AllSat(m, WithoutVariable(data, j))
    ensures BodySat(m, j.pos0[a], j.x) || BodySat(m, j.neg0[b], Neg(j.x))
  {
    hide Steady, Resolving, Settled, BodySat;
    ResolvingJob(data, j, n);
    if Considered(j, a, b) {
      ConsideredBody(data, j, n, m, a, b);
    } else if a < j.pl && b < j.nl {
      DefinitionClash(j, a, b);
      NegInRange(j, b);
      SettledByClash(data.trail, j.pos0[a], j.x, j.neg0[b]);
      SettledMeans(m, data.trail, j.pos0[a], j.x, j.neg0[b]);
    } else {
      FalseDefinition(m, j);
      if i :| 0 <= i < j.pl && !BodySat(m, j.pos0[i], j.x) {
        ConsideredBody(data, j, n, m, i, b);
      } else {
        var k :| 0 <= k < j.nl && !BodySat(m, j.neg0[k], Neg(j.x));
        ConsideredBody(data, j, n, m, a, k);
      }
    }
  }

  lemma ResolvingJob(data: CoprocessorData, j: Job, n: nat)
    requires Resolving(data, j, n, 0)
    ensures JobOk(j) && Working(data, j, false)
    ensures |j.pos| == |j.pos0| && |j.neg| == |j.neg0|
  {
  }

  // All bodies of one polarity are true.
  lemma OneSide(data: CoprocessorData, j: Job, n: nat, m: Model)
    requires Steady(data) && Resolving(data, j, n, 0) && n == |j.pos| && InRange(data.ca, j.pos) && InRange(data.ca, j.neg)
    requires AllHold(m, data.trail) && AllSat(m, WithoutVariable(data, j))
    ensures AllBodies(m, LiveLits(data.ca, j.pos), j.x) || AllBodies(m, LiveLits(data.ca, j.neg), Neg(j.x))
  {
    hide Resolving, Steady, LiveLits;
    ResolvingJob(data, j, n);
    var ps, ns := LiveLits(data.ca, j.pos), LiveLits(data.ca, j.neg);
    if !AllBodies(m, ps, j.x) && !AllBodies(m, ns, Neg(j.x)) {
      var s :| 0 <= s < |ps| && !BodySat(m, ps[s], j.x);
      var t :| 0 <= t < |ns| && !BodySat(m, ns[t], Neg(j.x));
      LiveLitsFrom(data.ca, j.pos, ps[s]);
      LiveLitsFrom(data.ca, j.neg, ns[t]);
      var a :| 0 <= a < |j.pos| && !data.ca[j.pos[a]].deleted && data.ca[j.pos[a]].lits == ps[s];
      var b :| 0 <= b < |j.neg| && !data.ca[j.neg[b]].deleted && data.ca[j.neg[b]].lits == ns[t];
      PairBody(data, j, n, m, a, b);
      LivePairBody(data, j, n, m, a, b);
      assert false;
    }
  }

  lemma LivePairBody(data: CoprocessorData, j: Job, n: nat, m: Model, a: nat, b: nat)
    requires Resolving(data, j, n, 0) && a < |j.pos| && b < |j.neg| && AllHold(m, data.trail)
    requires j.pos[a] < |data.ca| && j.neg[b] < |data.ca| && !data.ca[j.pos[a]].deleted && !data.ca[j.neg[b]].deleted
    requires |j.pos| == |j.pos0| && |j.neg| == |j.neg0|
    ensures BodySat(m, j.pos0[a], j.x) <==> BodySat(m, data.ca[j.pos[a]].lits, j.x)
    ensures BodySat(m, j.neg0[b], Neg(j.x)) <==> BodySat(m, data.ca[j.neg[b]].lits, Neg(j.x))
  {
    SameBody(m, j.pos0[a], data.ca[j.pos[a]], j.x, data.trail);
    SameBody(m, j.neg0[b], data.ca[j.neg[b]], Neg(j.x), data.trail);
  }

  lemma LiveLitsOn(data: CoprocessorData, j: Job, satisfied: bool)
    requires Steady(data) && Working(data, j, satisfied) && InRange(data.ca, j.pos) && InRange(data.ca, j.neg)
    ensures forall i :: 0 <= i < |LiveLits(data.ca, j.pos)| ==> j.x in LiveLits(data.ca, j.pos)[i] && !Tautology(LiveLits(data.ca, j.pos)[i])
    ensures forall i :: 0 <= i < |LiveLits(data.ca, j.neg)| ==> Neg(j.x) in LiveLits(data.ca, j.neg)[i] && !Tautology(LiveLits(data.ca, j.neg)[i])
  {
    hide LiveLits;
    var ps, ns := LiveLits(data.ca, j.pos), LiveLits(data.ca, j.neg);
    forall i | 0 <= i < |ps| ensures j.x in ps[i] && !Tautology(ps[i]) {
      LiveLitsFrom(data.ca, j.pos, ps[i]);
      var a :| 0 <= a < |j.pos| && !data.ca[j.pos[a]].deleted && data.ca[j.pos[a]].lits == ps[i];
      LiveFacts(data, j, a, satisfied);
    }
    forall i | 0 <= i < |ns| ensures Neg(j.x) in ns[i] && !Tautology(ns[i]) {
      LiveLitsFrom(data.ca, j.neg, ns[i]);
      var b :| 0 <= b < |j.neg| && !data.ca[j.neg[b]].deleted && data.ca[j.neg[b]].lits == ns[i];
      LiveFactsNeg(data, j, b, satisfied);
    }
  }

  // Dropping the clauses with x does not touch those with ~x.
  lemma {:induction false} DisjointLists(ca: seq<Cls>, pos: seq<CRef>, neg: seq<CRef>)
    requires InRange(ca, pos) && InRange(ca, neg) && forall k :: 0 <= k < |neg| && !ca[neg[k]].deleted ==> neg[k] !in pos
    ensures LiveLits(DropAll(ca, pos), neg) == LiveLits(ca, neg)
  {
    if neg != [] {
      DisjointLists(ca, pos, neg[..|neg| - 1]);
    }
  }

  lemma NotInBoth(data: CoprocessorData, j: Job)
    requires Steady(data) && Working(data, j, false) && InRange(data.ca, j.pos) && InRange(data.ca, j.neg)
    ensures LiveLits(DropAll(data.ca, j.pos), j.neg) == LiveLits(data.ca, j.neg)
  {
    forall k | 0 <= k < |j.neg| && !data.ca[j.neg[k]].deleted ensures j.neg[k] !in j.pos {
      LiveFactsNeg(data, j, k, false);
      assert j.neg[k] in j.pos <==> InList(data.occs, j.x, j.neg[k]);
    }
    DisjointLists(data.ca, j.pos, j.neg);
  }

  // The elimination is a step whose repairs are the clauses with ~x and then x.
  lemma EliminationSound(data: CoprocessorData, j: Job, n: nat)
    requires Steady(data) && Resolving(data, j, n, 0) && n == |j.pos| && InRange(data.ca, j.pos) && InRange(data.ca, j.neg)
    ensures Step(data.input, FormulaOf(WithoutVariable(data, j), data.trail, data.ok),
              Segs(data.undo) + (Pivoted(LiveLits(data.ca, j.neg), Neg(j.x)) + [[j.x]]))
  {
    hide Resolving, LiveLits, DropAll, NoUnits, Step, OccsOk, FormulaOf;
    ResolvingJob(data, j, n);
    var R := FormulaOf(WithoutVariable(data, j), data.trail, data.ok);
    var ps, ns := LiveLits(data.ca, j.pos), LiveLits(data.ca, j.neg);
    NotInBoth(data, j);
    FormulaDropAll(data.ca, j.pos, data.trail, data.ok);
    DropInRange(data.ca, j.pos, j.neg);
    FormulaDropAll(DropAll(data.ca, j.pos), j.neg, data.trail, data.ok);
    assert data.F() == R + (set c | c in ps) + (set c | c in ns);
    VariableFree(data, j);
    LiveLitsOn(data, j, false);
    forall m: Model | SatAll(m, R) ensures AllBodies(m, ps, j.x) || AllBodies(m, ns, Neg(j.x)) {
      SatFormula(m, WithoutVariable(data, j), data.trail, data.ok);
      OneSide(data, j, n, m);
    }
    EliminationStep(R, ps, ns, j.x);
    StepCompose(data.input, data.F(), R, Segs(data.undo), Pivoted(ns, Neg(j.x)) + [[j.x]]);
  }

  lemma DropInRange(ca: seq<Cls>, pos: seq<CRef>, neg: seq<CRef>)
    requires InRange(ca, neg)
    ensures InRange(DropAll(ca, pos), neg)
  {
  }

  lemma EmptyLists(ca: seq<Cls>, occs: Occs, x: Lit)
    requires OccsOk(ca, occs) && NoLive(ca, x) && NoLive(ca, Neg(x))
    ensures OccsOk(ca, occs[x := []][Neg(x) := []])
  {
    ClearList(ca, occs, x);
    ClearList(ca, occs[x := []], Neg(x));
  }

  lemma ClearList(ca: seq<Cls>, occs: Occs, l: Lit)
    requires OccsOk(ca, occs) && NoLive(ca, l)
    ensures OccsOk(ca, occs[l := []])
  {
    var now := occs[l := []];
    assert forall k :: List(now, k) == if k == l then [] else List(occs, k);
    forall i, k | 0 <= i < |ca| && !ca[i].deleted && k in ca[i].lits ensures InList(now, k, i) {
      assert InList(occs, k, i);
    }
    forall k, i: CRef | InList(now, k, i) ensures i < |ca| && (!ca[i].deleted ==> k in ca[i].lits) {
      assert InList(occs, k, i);
    }
    forall k ensures NoDup(List(now, k)) {
      assert NoDup(List(occs, k));
    }
  }

  lemma AllFewerImplied(data: CoprocessorData, j: Job)
    requires Implies(data.origin, data.F()) && InRange(data.ca, j.pos) && InRange(data.ca, j.neg)
    ensures Implies(data.origin, FormulaOf(WithoutVariable(data, j), data.trail, data.ok))
  {
    hide Implies, FormulaOf, DropAll, LiveLits;
    FormulaDropAll(data.ca, j.pos, data.trail, data.ok);
    DropInRange(data.ca, j.pos, j.neg);
    FormulaDropAll(DropAll(data.ca, j.pos), j.neg, data.trail, data.ok);
    ImpliesFewer(data.origin, data.F(), FormulaOf(WithoutVariable(data, j), data.trail, data.ok));
  }

  // A variable that the trail decides is in no live clause.
  lemma GoneFree(data: CoprocessorData, x: Lit)
    requires Steady(data) && Gone(data, x)
    ensures NoLive(data.ca, x) && NoLive(data.ca, Neg(x))
  {
    assert data.trail[..data.qhead] == data.trail;
    assert Neg(Neg(x)) == x;
  }

  lemma DropAllKeeps(ca: seq<Cls>, list: seq<CRef>, trail: seq<Lit>, v: nat)
    requires forall k :: 0 <= k < |list| ==> list[k] < |ca| && (ca[list[k]].deleted || !NotOn(ca[list[k]].lits, v))
    ensures NoUnits(ca) ==> NoUnits(DropAll(ca, list))
    ensures Kept(Snapshot(ca, trail), Snapshot(DropAll(ca, list), trail), v)
    ensures list == [] ==> DropAll(ca, list) == ca
  {
    var cb := DropAll(ca, list);
    forall i | 0 <= i < |ca| && NotOn(ca[i].lits, v) ensures SimplifiedBy(ca[i], cb[i], trail, true) {
      if i in list {
        var k :| 0 <= k < |list| && list[k] == i;
      }
    }
  }

  lemma UnitUndo(x: Lit)
    ensures PivotFirst([x], x) == [x]
  {
    var c := [x];
    assert c[1..] == [];
    assert Without(c, x) == Without(c[1..], x);
  }

  lemma RegroupFour(a: seq<Clause>, b: seq<Clause>, c: Clause)
    ensures (a + []) + b + [c] == a + (b + [c])
  {
  }

  // The last part of an elimination: the clauses with x are dropped, those with ~x are
  // put on the undo stack, and then the unit clause x, unless x has a value.
  method DropVariable(data: CoprocessorData, v: nat, ghost j: Job, ghost n: nat)
    requires Steady(data) && j.x == Lit(v, false)
    requires (Gone(data, j.x) || (Resolving(data, j, n, 0) && n == |j.pos|)) && v !in data.frozen
    modifies data`ca, data`occs, data`undo
    ensures Steady(data) && Kept(old(Snap(data)), Snap(data), j.x.v) && |data.ca| == |old(data.ca)|
    ensures List(data.occs, j.x) == [] && List(data.occs, Neg(j.x)) == []
    ensures NoLive(data.ca, j.x) && NoLive(data.ca, Neg(j.x))
    ensures Unassigned(data.trail, j.x) ==> data.ca == old(WithoutVariable(data, j)) && InRange(old(data.ca), j.neg)
    ensures Unassigned(data.trail, j.x) ==>
      Segs(data.undo) == Segs(old(data.undo)) + (Pivoted(LiveLits(old(data.ca), j.neg), Neg(j.x)) + [[j.x]])
    ensures !Unassigned(data.trail, j.x) ==> data.ca == old(data.ca) && data.undo == old(data.undo)
    ensures Unassigned(data.trail, j.x) ==> JobOk(j) && ResolvedUpTo(j, data.ca, data.trail, |j.pos|, 0)
  {
    var x := Lit(v, false);
    if data.Value(x) == Undef {
      DropFree(data, v, j, n);
    } else {
      GoneFree(data, x);
    }
    EmptyLists(data.ca, data.occs, x);
    data.occs := data.occs[x := []][Neg(x) := []];
  }

  method DropFree(data: CoprocessorData, v: nat, ghost j: Job, ghost n: nat)
    requires Steady(data) && j.x == Lit(v, false) && Resolving(data, j, n, 0) && n == |j.pos| && v !in data.frozen
    modifies data`ca, data`undo
    ensures Steady(data) && Kept(old(Snap(data)), Snap(data), j.x.v)
    ensures JobOk(j) && ResolvedUpTo(j, data.ca, data.trail, |j.pos|, 0)
    ensures NoLive(data.ca, j.x) && NoLive(data.ca, Neg(j.x))
    ensures data.ca == old(WithoutVariable(data, j)) && InRange(old(data.ca), j.neg)
    ensures Segs(data.undo) == Segs(old(data.undo)) + (Pivoted(LiveLits(old(data.ca), j.neg), Neg(j.x)) + [[j.x]])
  {
    hide LiveLits, DropAll, OccsOk, ClausesOk, TrailOk, Propagated, Step, FormulaOf, NoUnits, NoLive, Kept;
    hide DeletedSettled, ResolvedUpTo, Tracked, Implies, PivotsFree, Pivoted, JobOk;
    ghost var result := WithoutVariable(data, j);
    BothLists(data, j);
    DroppedFacts(data, j, n);
    DropLists(data, Lit(v, false), j);
    SteadyAgain(data, result);
  }

  method DropLists(data: CoprocessorData, x: Lit, ghost j: Job)
    requires data.Valid() && List(data.occs, x) == j.pos && List(data.occs, Neg(x)) == j.neg && InRange(data.ca, j.pos) && NoDup(j.pos)
    requires InRange(data.ca, j.neg) && InRange(DropAll(data.ca, j.pos), j.neg) && NoDup(j.neg)
    requires ListFor(DropAll(data.ca, j.pos), j.neg, Neg(x)) && LiveLits(DropAll(data.ca, j.pos), j.neg) == LiveLits(data.ca, j.neg)
    modifies data`ca, data`undo
    ensures data.Valid() && data.ca == DropAll(DropAll(old(data.ca), j.pos), j.neg)
    ensures Segs(data.undo) == Segs(old(data.undo)) + (Pivoted(LiveLits(old(data.ca), j.neg), Neg(x)) + [[x]])
  {
    hide LiveLits, DropAll, OccsOk, ClausesOk, TrailOk, Propagated, InRange, NoDup, ListFor, Pushed, Pivoted, Segs, PivotFirst;
    ghost var ca, segs := data.ca, Segs(data.undo);
    UnitUndo(x);
    RemoveClauses(data, List(data.occs, x), None);
    RemoveClauses(data, List(data.occs, Neg(x)), Some(Neg(x)));
    PushedCases(x, LiveLits(ca, j.pos), LiveLits(ca, j.neg));
    RegroupFour(segs, Pivoted(LiveLits(ca, j.neg), Neg(x)), [x]);
    data.AddToExtension([x], x);
  }

  lemma PushedCases(x: Lit, ps: seq<Clause>, ns: seq<Clause>)
    ensures Pushed(None, ps) == [] && Pushed(Some(Neg(x)), ns) == Pivoted(ns, Neg(x)) && x in [x]
  {
  }

  // What the two calls of removeClauses need.
  lemma BothLists(data: CoprocessorData, j: Job)
    requires Steady(data) && Working(data, j, false)
    ensures List(data.occs, j.x) == j.pos && List(data.occs, Neg(j.x)) == j.neg && data.Valid()
    ensures InRange(data.ca, j.pos) && NoDup(j.pos) && InRange(data.ca, j.neg)
    ensures InRange(DropAll(data.ca, j.pos), j.neg) && NoDup(j.neg) && ListFor(DropAll(data.ca, j.pos), j.neg, Neg(j.x))
    ensures LiveLits(DropAll(data.ca, j.pos), j.neg) == LiveLits(data.ca, j.neg)
  {
    hide LiveLits, Step, Propagated, TrailOk;
    InBoth(data, j);
    DropInRange(data.ca, j.pos, j.neg);
    NotInBoth(data, j);
    NegListFor(data, j);
  }

  // What holds when the clauses in both lists are gone and have been pushed.
  lemma DroppedFacts(data: CoprocessorData, j: Job, n: nat)
    requires Steady(data) && Resolving(data, j, n, 0) && n == |j.pos| && j.x.v !in data.frozen
    requires InRange(data.ca, j.pos) && InRange(data.ca, j.neg)
    ensures var result := WithoutVariable(data, j);
      && JobOk(j) && ResolvedUpTo(j, result, data.trail, |j.pos|, 0)
      && NoLive(result, j.x) && NoLive(result, Neg(j.x)) && NoUnits(result)
      && Kept(Snap(data), Snapshot(result, data.trail), j.x.v)
      && Implies(data.origin, FormulaOf(result, data.trail, data.ok))
      && Step(data.input, FormulaOf(result, data.trail, data.ok),
            Segs(data.undo) + (Pivoted(LiveLits(data.ca, j.neg), Neg(j.x)) + [[j.x]]))
      && (data.frozenMet || PivotsFree(data.frozen, Segs(data.undo) + (Pivoted(LiveLits(data.ca, j.neg), Neg(j.x)) + [[j.x]])))
    ensures data.ok && data.qhead == |data.trail|
  {
    hide LiveLits, DropAll, OccsOk, ClausesOk, TrailOk, Propagated, Step, FormulaOf, NoUnits, NoLive, Kept;
    hide DeletedSettled, ResolvedUpTo, Tracked, Implies, PivotsFree;
    EliminationSound(data, j, n);
    VariableFree(data, j);
    OnVariable(data, j);
    DropAllKeeps(data.ca, j.pos, data.trail, j.x.v);
    DropAllKeeps(DropAll(data.ca, j.pos), j.neg, data.trail, j.x.v);
    KeptTrans(Snap(data), Snapshot(DropAll(data.ca, j.pos), data.trail), Snapshot(WithoutVariable(data, j), data.trail), j.x.v);
    StillResolved(data, j, n);
    AllFewerImplied(data, j);
    PivotedFree(data.frozen, LiveLits(data.ca, j.neg), Neg(j.x));
    UnitFree(data.frozen, j.x);
    PivotsFreeConcat(data.frozen, Pivoted(LiveLits(data.ca, j.neg), Neg(j.x)), [[j.x]]);
    PivotsFreeConcat(data.frozen, Segs(data.undo), Pivoted(LiveLits(data.ca, j.neg), Neg(j.x)) + [[j.x]]);
  }

  lemma UnitFree(frozen: set<nat>, x: Lit)
    requires x.v !in frozen
    ensures PivotsFree(frozen, [[x]])
  {
  }

  lemma SteadyAgain(data: CoprocessorData, ca: seq<Cls>)
    requires data.Valid() && data.ok && data.qhead == |data.trail| && data.ca == ca && NoUnits(ca)
    requires Implies(data.origin, FormulaOf(ca, data.trail, data.ok)) && Step(data.input, FormulaOf(ca, data.trail, data.ok), Segs(data.undo))
    requires data.frozenMet || PivotsFree(data.frozen, Segs(data.undo))
    ensures Steady(data) && Snap(data) == Snapshot(ca, data.trail)
  {
  }

  // The clauses in the two lists are on the variable, or deleted.
  lemma OnVariable(data: CoprocessorData, j: Job)
    requires data.Valid() && Lists(data, j) && InRange(data.ca, j.pos) && InRange(data.ca, j.neg)
    ensures forall k :: 0 <= k < |j.pos| ==> data.ca[j.pos[k]].deleted || !NotOn(data.ca[j.pos[k]].lits, j.x.v)
    ensures forall k :: 0 <= k < |j.neg| ==> var c := DropAll(data.ca, j.pos)[j.neg[k]]; c.deleted || !NotOn(c.lits, j.x.v)
  {
    forall k | 0 <= k < |j.pos| ensures data.ca[j.pos[k]].deleted || !NotOn(data.ca[j.pos[k]].lits, j.x.v) {
      assert InList(data.occs, j.x, j.pos[k]);
    }
    forall k | 0 <= k < |j.neg| ensures var c := DropAll(data.ca, j.pos)[j.neg[k]]; c.deleted || !NotOn(c.lits, j.x.v) {
      assert InList(data.occs, Neg(j.x), j.neg[k]);
      assert Neg(j.x).v == j.x.v;
    }
  }

  // The resolvents stay when the clauses on the variable go.
  lemma StillResolved(data: CoprocessorData, j: Job, n: nat)
    requires Steady(data) && Resolving(data, j, n, 0) && n == |j.pos|
    ensures JobOk(j) && ResolvedUpTo(j, WithoutVariable(data, j), data.trail, |j.pos|, 0)
  {
    hide Tracked, Step, Defines, DeletedSettled, Settled, NoUnits, OccsOk;
    var cb := WithoutVariable(data, j);
    forall i: nat, k: nat | Considered(j, i, k) && Before(i, k, n, 0) ensures Resolved(cb, data.trail, j.pos0[i], j.x, j.neg0[k]) {
      assert Resolved(data.ca, data.trail, j.pos0[i], j.x, j.neg0[k]);
      if !Settled(data.trail, j.pos0[i], j.x, j.neg0[k]) {
        var r :| 0 <= r < |data.ca| && IsResolvent(data.ca[r], j.pos0[i], j.x, j.neg0[k]);
        ResolventStays(data, j, r, i, k);
        assert IsResolvent(cb[r], j.pos0[i], j.x, j.neg0[k]);
      }
    }
  }

  lemma InBoth(data: CoprocessorData, j: Job)
    requires Working(data, j, false)
    ensures InRange(data.ca, j.pos) && InRange(data.ca, j.neg) && NoDup(j.pos) && NoDup(j.neg)
  {
  }

  lemma NegListFor(data: CoprocessorData, j: Job)
    requires data.Valid() && Lists(data, j)
    ensures ListFor(data.ca, List(data.occs, Neg(j.x)), Neg(j.x))
  {
    ListsFor(data.ca, data.occs, Neg(j.x));
  }

  // ---------- one variable ----------

  predicate AllAlive(ca: seq<Cls>, list: seq<CRef>) {
    forall k :: 0 <= k < |list| ==> list[k] < |ca| && !ca[list[k]].deleted
  }

  // Removes the entries of deleted clauses, without keeping the order behind the first
  // live entries.
  method RemoveDeleted(ca: seq<Cls>, list: seq<CRef>, ghost front: nat) returns (r: seq<CRef>)
    requires InRange(ca, list) && NoDup(list) && LivePrefix(ca, list, front)
    ensures NoDup(r) && InRange(ca, r) && forall x :: x in r <==> x in list && !ca[x].deleted
    ensures front <= |r| && r[..front] == list[..front]
    ensures |r| <= |list| && (AllAlive(ca, list) ==> r == list)
  {
    r := list;
    var i := 0;
    while i < |r|
      invariant 0 <= i <= |r| <= |list| && NoDup(r) && front <= |r| && r[..front] == list[..front]
      invariant InRange(ca, r) && forall x :: x in r ==> x in list
      invariant forall x :: x in list && !ca[x].deleted ==> x in r
      invariant forall k :: 0 <= k < i ==> !ca[r[k]].deleted
      invariant AllAlive(ca, list) ==> r == list
      decreases |r| - i
    {
      assert r[i] in list;
      if ca[r[i]].deleted {
        BehindFront(ca, list, r, i, front);
        SwapRemoveNoDup(r, i);
        SwapRemoveFront(r, i, front);
        r := SwapRemove(r, i);
      } else {
        i := i + 1;
      }
    }
  }

  lemma BehindFront(ca: seq<Cls>, list: seq<CRef>, r: seq<CRef>, i: nat, front: nat)
    requires LivePrefix(ca, list, front) && front <= |r| && r[..front] == list[..front]
    requires i < |r| && r[i] < |ca| && ca[r[i]].deleted
    ensures front <= i
  {
    forall k | 0 <= k < front ensures r[k] == list[k] {
      assert r[..front][k] == list[..front][k];
    }
  }

  lemma SwapRemoveFront(r: seq<CRef>, i: nat, front: nat)
    requires front <= i < |r|
    ensures SwapRemove(r, i)[..front] == r[..front]
    ensures forall k :: 0 <= k < i ==> SwapRemove(r, i)[k] == r[k]
  {
  }

  lemma CleanKeepsOccs(ca: seq<Cls>, occs: Occs, l: Lit, list: seq<CRef>)
    requires OccsOk(ca, occs) && NoDup(list) && InRange(ca, list)
    requires forall i :: i in list <==> i in List(occs, l) && i < |ca| && !ca[i].deleted
    ensures OccsOk(ca, occs[l := list])
  {
    var now := occs[l := list];
    assert forall k :: List(now, k) == if k == l then list else List(occs, k);
    forall i, k | 0 <= i < |ca| && !ca[i].deleted && k in ca[i].lits ensures InList(now, k, i) {
      assert InList(occs, k, i);
    }
    forall k, i: CRef | InList(now, k, i) ensures i < |ca| && (!ca[i].deleted ==> k in ca[i].lits) {
      assert InList(occs, k, i);
    }
    forall k ensures NoDup(List(now, k)) {
      assert NoDup(List(occs, k));
    }
  }

  lemma LitsOfPrefix(ca: seq<Cls>, list: seq<CRef>, r: seq<CRef>, n: nat)
    requires n <= |list| && n <= |r| && InRange(ca, r) && InRange(ca, list[..n]) && r[..n] == list[..n]
    ensures LitsAt(ca, r)[..n] == LitsAt(ca, list[..n])
  {
    forall k | 0 <= k < n ensures LitsAt(ca, r)[k] == LitsAt(ca, list[..n])[k] {
      assert r[..n][k] == list[..n][k];
    }
  }

  // The list of l holds exactly the live clauses with l.
  ghost predicate CleanList(ca: seq<Cls>, list: seq<CRef>, l: Lit) {
    NoDup(list) && forall i: CRef :: i in list <==> i < |ca| && !ca[i].deleted && l in ca[i].lits
  }

  method CleanLiteral(data: CoprocessorData, l: Lit, ghost front: nat) returns (count: nat)
    requires data.Valid() && LivePrefix(data.ca, List(data.occs, l), front)
    modifies data`occs
    ensures data.Valid() && count == |List(data.occs, l)| && CleanList(data.ca, List(data.occs, l), l)
    ensures front <= |List(data.occs, l)| <= |List(old(data.occs), l)|
    ensures List(data.occs, l)[..front] == List(old(data.occs), l)[..front]
    ensures forall k :: k != l ==> List(data.occs, k) == List(old(data.occs), k)
    ensures AllAlive(data.ca, List(old(data.occs), l)) ==> List(data.occs, l) == List(old(data.occs), l)
  {
    hide ClausesOk, TrailOk, Propagated, AllAlive;
    ListsFor(data.ca, data.occs, l);
    var list := RemoveDeleted(data.ca, List(data.occs, l), front);
    CleanKeepsOccs(data.ca, data.occs, l, list);
    forall i: CRef ensures i in list <==> i < |data.ca| && !data.ca[i].deleted && l in data.ca[i].lits {
      assert i in List(data.occs, l) <==> InList(data.occs, l, i);
    }
    data.occs := data.occs[l := list];
    count := |list|;
  }

  lemma CleanTracked(ca: seq<Cls>, list: seq<CRef>, l: Lit, trail: seq<Lit>)
    requires CleanList(ca, list, l) && ClausesOk(ca)
    ensures InRange(ca, list) && SideOk(list, LitsAt(ca, list), l)
    ensures Unshrunk(ca, list, LitsAt(ca, list)) && Tracked(ca, list, LitsAt(ca, list), trail, true)
  {
    forall k | 0 <= k < |list| ensures list[k] < |ca| && !ca[list[k]].deleted && l in ca[list[k]].lits {
      assert list[k] in list;
    }
  }

  // The job that the cleaned lists make up.
  ghost predicate JobFrom(data: CoprocessorData, v: nat, pl: nat, nl: nat, j: Job)
    reads data`ca, data`occs, data`trail
  {
    && Working(data, j, true) && j.x == Lit(v, false) && j.pl == pl && j.nl == nl
    && Unshrunk(data.ca, j.pos, j.pos0) && Unshrunk(data.ca, j.neg, j.neg0)
    && CleanList(data.ca, j.pos, j.x) && CleanList(data.ca, j.neg, Neg(j.x))
  }

  // Looks for a definition and cleans the two lists; the clauses of the definition stay
  // in front.
  method PrepareLists(cfg: Config, data: CoprocessorData, v: nat) returns (found: bool, pl: nat, nl: nat)
    requires Steady(data)
    modifies data`occs
    ensures Steady(data)
    ensures forall l: Lit :: l.v != v ==> List(data.occs, l) == List(old(data.occs), l)
    ensures found ==> DefinedInFront(data.ca, List(data.occs, Lit(v, false)), List(data.occs, Lit(v, true)), Lit(v, false), pl, nl)
    ensures !found ==> pl == |List(data.occs, Lit(v, false))| && nl == |List(data.occs, Lit(v, true))|
    ensures !cfg.findGate ==> !found && data.occs == old(data.occs)
    ensures found <==> cfg.findGate && GateExists(data.ca, List(old(data.occs), Lit(v, false)), List(old(data.occs), Lit(v, true)), Lit(v, false))
  {
    var x := Lit(v, false);
    found, pl, nl := false, |List(data.occs, x)|, |List(data.occs, Neg(x))|;
    if cfg.findGate {
      found, pl, nl := FindGates(data, v, pl, nl);
    }
  }

  method CleanLists(data: CoprocessorData, v: nat, found: bool, pl: nat, nl: nat)
    returns (posCount: nat, negCount: nat, ghost j: Job)
    requires Steady(data) && Unassigned(data.trail, Lit(v, false))
    requires found ==> DefinedInFront(data.ca, List(data.occs, Lit(v, false)), List(data.occs, Lit(v, true)), Lit(v, false), pl, nl)
    requires !found ==> pl == |List(data.occs, Lit(v, false))| && nl == |List(data.occs, Lit(v, true))|
    modifies data`occs
    ensures Steady(data) && JobFrom(data, v, pl, nl, j) && posCount == |j.pos| && negCount == |j.neg|
    ensures !found ==> |j.pos| <= pl && |j.neg| <= nl
    ensures found ==> pl <= |j.pos0| && nl <= |j.neg0| && Defines(j.x, j.pos0[..pl], j.neg0[..nl])
    ensures AllAlive(data.ca, List(old(data.occs), j.x)) ==> j.pos == List(old(data.occs), j.x)
    ensures AllAlive(data.ca, List(old(data.occs), Neg(j.x))) ==> j.neg == List(old(data.occs), Neg(j.x))
  {
    hide AllAlive, OccsOk, Propagated, TrailOk, Defines, NoUnits, Step;
    var x := Lit(v, false);
    ghost var p0, n0 := List(data.occs, x), List(data.occs, Neg(x));
    posCount := CleanLiteral(data, x, if found then pl else 0);
    negCount := CleanLiteral(data, Neg(x), if found then nl else 0);
    ghost var pos, neg := List(data.occs, x), List(data.occs, Neg(x));
    CleanTracked(data.ca, pos, x, data.trail);
    CleanTracked(data.ca, neg, Neg(x), data.trail);
    j := Job(x, pos, neg, LitsAt(data.ca, pos), LitsAt(data.ca, neg), pl, nl);
    if found {
      PrefixInRange(data.ca, p0, pl);
      PrefixInRange(data.ca, n0, nl);
      LitsOfPrefix(data.ca, p0, pos, pl);
      LitsOfPrefix(data.ca, n0, neg, nl);
    }
  }

  lemma ZeroMeansSettled(trail: seq<Lit>, j: Job, posStats: seq<nat>, negStats: seq<nat>, S: set<(nat, nat)>)
    requires JobOk(j) && JobOk(Flip(j)) && StatsFor(j, posStats, negStats, S) && Tested(j, trail, S, |j.pos|, 0)
    ensures ZeroSettled(trail, j, posStats) && ZeroSettled(trail, Flip(j), negStats)
  {
    hide Settled, Defines;
    FlipOk(j);
    forall a: nat, b: nat | Considered(j, a, b) && (posStats[a] == 0 || negStats[b] == 0)
      ensures |j.pos0| == |j.pos| && |j.neg0| == |j.neg| && Settled(trail, j.pos0[a], j.x, j.neg0[b])
      ensures Settled(trail, j.neg0[b], Neg(j.x), j.pos0[a])
    {
      TestedAt(j, trail, S, a, b);
      SettledFlip(trail, j.pos0[a], j.x, j.neg0[b]);
    }
  }

  lemma FlipWorking(data: CoprocessorData, j: Job, satisfied: bool)
    requires Working(data, j, satisfied)
    ensures Working(data, Flip(j), satisfied)
    ensures DeletedSettled(data.ca, data.trail, j) ==> DeletedSettled(data.ca, data.trail, Flip(j))
  {
    hide Tracked, Settled, Defines, SideOk;
    FlipOk(j);
    assert Neg(Neg(j.x)) == j.x;
    if DeletedSettled(data.ca, data.trail, j) {
      forall b: nat, a: nat | Considered(Flip(j), b, a) && SomeDeleted(data.ca, j.neg[b], j.pos[a])
        ensures |j.pos0| == |j.pos| && |j.neg0| == |j.neg| && Settled(data.trail, j.neg0[b], Neg(j.x), j.pos0[a])
      {
        JobLengths(j);
        assert SomeDeleted(data.ca, j.pos[a], j.neg[b]);
        SettledFlip(data.trail, j.pos0[a], j.x, j.neg0[b]);
      }
    }
  }

  lemma JobLengths(j: Job)
    requires JobOk(j)
    ensures |j.pos| == |j.pos0| && |j.neg| == |j.neg0|
  {
  }

  lemma WorkingWeaker(data: CoprocessorData, j: Job)
    requires Working(data, j, true)
    ensures Working(data, j, false) && DeletedSettled(data.ca, data.trail, j)
  {
    hide Settled, Defines, TrueBody;
    forall i | 0 <= i < |j.pos|
      ensures j.pos[i] < |data.ca| && SimplifiedBy(Cls(j.pos0[i], false), data.ca[j.pos[i]], data.trail, false)
    {
      SimplifiedWeaker(Cls(j.pos0[i], false), data.ca[j.pos[i]], data.trail);
    }
    forall i | 0 <= i < |j.neg|
      ensures j.neg[i] < |data.ca| && SimplifiedBy(Cls(j.neg0[i], false), data.ca[j.neg[i]], data.trail, false)
    {
      SimplifiedWeaker(Cls(j.neg0[i], false), data.ca[j.neg[i]], data.trail);
    }
    forall a: nat, b: nat | Considered(j, a, b) && SomeDeleted(data.ca, j.pos[a], j.neg[b])
      ensures Settled(data.trail, j.pos0[a], j.x, j.neg0[b])
    {
      DeletedSettles(data, j, a, b);
    }
  }

  // Both calls of removeBlockedClauses.
  method RemoveBlockedBoth(data: CoprocessorData, bve: BoundedVariableElimination, v: nat, ghost j: Job, ghost S: set<(nat, nat)>)
    returns (ghost between: seq<Cls>)
    requires Steady(data) && j.x == Lit(v, false) && Working(data, j, false) && DeletedSettled(data.ca, data.trail, j)
    requires v !in data.frozen
    requires StatsFor(j, bve.posStats, bve.negStats, S) && Tested(j, data.trail, S, |j.pos|, 0)
    modifies data`ca, data`undo
    ensures Steady(data) && Working(data, j, false) && DeletedSettled(data.ca, data.trail, j)
    ensures Kept(old(Snap(data)), Snap(data), j.x.v) && |data.ca| == |old(data.ca)|
    ensures |bve.posStats| >= |j.pos| && |bve.negStats| >= |j.neg|
    ensures BlockedDropped(old(data.ca), between, j.pos, bve.posStats, |j.pos|)
    ensures BlockedDropped(between, data.ca, j.neg, bve.negStats, |j.neg|)
  {
    hide Steady, Tracked, DeletedSettled, StatsFor, Tested, ZeroSettled, BlockedDropped, Kept, Unproductive, SideOk, Defines;
    ghost var was := Snap(data);
    FlipOk(j);
    InBounds(data, j, false);
    BothOn(data, j);
    StatsLength(j, bve.posStats, bve.negStats, S);
    ZeroMeansSettled(data.trail, j, bve.posStats, bve.negStats, S);
    RemoveBlockedClauses(data, bve.posStats, Lit(v, false), j);
    DroppedKept(was, data.ca, j.pos, bve.posStats, |j.pos|, v);
    FlipWorking(data, j, false);
    ghost var mid := Snap(data);
    between := data.ca;
    BothOn(data, j);
    RemoveBlockedClauses(data, bve.negStats, Lit(v, true), Flip(j));
    DroppedKept(mid, data.ca, j.neg, bve.negStats, |j.neg|, v);
    FlipWorking(data, Flip(j), false);
    KeptTrans(was, mid, Snap(data), v);
  }

  lemma BothOn(data: CoprocessorData, j: Job)
    requires Steady(data) && Working(data, j, false)
    ensures forall k :: 0 <= k < |j.pos| ==> j.pos[k] < |data.ca| && (data.ca[j.pos[k]].deleted || !NotOn(data.ca[j.pos[k]].lits, j.x.v))
    ensures forall k :: 0 <= k < |j.neg| ==> j.neg[k] < |data.ca| && (data.ca[j.neg[k]].deleted || !NotOn(data.ca[j.neg[k]].lits, j.x.v))
  {
    forall k | 0 <= k < |j.pos| ensures j.pos[k] < |data.ca| && (data.ca[j.pos[k]].deleted || !NotOn(data.ca[j.pos[k]].lits, j.x.v)) {
      assert InList(data.occs, j.x, j.pos[k]);
    }
    forall k | 0 <= k < |j.neg| ensures j.neg[k] < |data.ca| && (data.ca[j.neg[k]].deleted || !NotOn(data.ca[j.neg[k]].lits, j.x.v)) {
      assert InList(data.occs, Neg(j.x), j.neg[k]);
      assert Neg(j.x).v == j.x.v;
    }
  }

  lemma DroppedKept(was: Snapshot, ca: seq<Cls>, list: seq<CRef>, stats: seq<nat>, n: nat, v: nat)
    requires |stats| >= |list| && BlockedDropped(was.ca, ca, list, stats, n)
    requires forall k :: 0 <= k < |list| ==> list[k] < |was.ca| && (was.ca[list[k]].deleted || !NotOn(was.ca[list[k]].lits, v))
    ensures Kept(was, Snapshot(ca, was.trail), v) && |ca| == |was.ca|
  {
    forall i | 0 <= i < |was.ca| && NotOn(was.ca[i].lits, v) ensures SimplifiedBy(was.ca[i], ca[i], was.trail, true) {
      assert i in list ==> exists k :: 0 <= k < |list| && list[k] == i;
    }
  }

  lemma NothingToTest(j: Job, trail: seq<Lit>)
    requires JobOk(j) && (|j.pos| == 0 || |j.neg| == 0)
    ensures Tested(j, trail, {}, |j.pos|, 0)
  {
  }

  lemma FreshStats(j: Job, posStats: seq<nat>, negStats: seq<nat>)
    requires |posStats| >= |j.pos| && |negStats| >= |j.neg| && AllZero(posStats) && AllZero(negStats)
    ensures StatsFor(j, posStats, negStats, {})
  {
  }

  method GrowStats(stats: seq<nat>, n: nat) returns (r: seq<nat>)
    ensures stats == [] ==> forall i :: 0 <= i < |r| ==> r[i] == 0
    ensures |r| >= n && |r| >= |stats| && r[..|stats|] == stats && forall i :: |stats| <= i < |r| ==> r[i] == 0
  {
    r := if |stats| >= n then stats else stats + seq(n - |stats|, _ => 0);
  }

  // There are no more resolvents than pairs.
  lemma ProductiveBound(j: Job)
    requires JobOk(j)
    ensures |Productive(j)| <= |j.pos| * |j.neg|
  {
    hide IsProductive;
    var pairs := Pairs(|j.pos|, |j.neg|);
    forall q | q in Productive(j) ensures q in pairs {
    }
    SubsetCard(Productive(j), pairs);
  }

  ghost function Row(a: nat, m: nat): (r: set<(nat, nat)>)
    ensures |r| == m && forall i: nat, b: nat :: (i, b) in r <==> i == a && b < m
  {
    if m == 0 then {} else Row(a, m - 1) + {(a, m - 1)}
  }

  ghost function Pairs(n: nat, m: nat): (r: set<(nat, nat)>)
    ensures |r| == n * m && forall a: nat, b: nat :: (a, b) in r <==> a < n && b < m
  {
    if n == 0 then {}
    else
      var front, last := Pairs(n - 1, m), Row(n - 1, m);
      assert front !! last by {
        forall q | q in front ensures q !in last {
          assert (q.0, q.1) in front;
          assert (q.0, q.1) !in last;
        }
      }
      assert n * m == (n - 1) * m + m;
      front + last
  }

  lemma JobParts(data: CoprocessorData, v: nat, pl: nat, nl: nat, j: Job)
    requires JobFrom(data, v, pl, nl, j)
    ensures Working(data, j, true) && JobOk(j) && j.x == Lit(v, false) && j.pl == pl && j.nl == nl
    ensures Unshrunk(data.ca, j.pos, j.pos0) && Unshrunk(data.ca, j.neg, j.neg0)
  {
  }

  lemma FirstHasPair(ca: seq<Cls>, j: Job)
    ensures FirstDecides(ca, j) ==> |j.pos| > 0 && |j.neg| > 0
  {
  }

  // Nothing is anticipated for a variable that occurs on one side only.
  lemma NothingAnticipated(data: CoprocessorData, bve: BoundedVariableElimination, j: Job)
    requires Working(data, j, true) && (|j.pos| == 0 || |j.neg| == 0) && |bve.posStats| >= |j.pos| && |bve.negStats| >= |j.neg|
    requires AllZero(bve.posStats) && AllZero(bve.negStats)
    ensures Anticipated(data, bve, j, {})
  {
    hide Tested, StatsFor, Tracked, SideOk, Defines;
    NothingToTest(j, data.trail);
    FreshStats(j, bve.posStats, bve.negStats);
  }

  lemma SidesCount(j: Job, posCount: nat, negCount: nat)
    requires posCount == |j.pos| && negCount == |j.neg|
    ensures OneSided(j) <==> posCount == 0 || negCount == 0
  {
  }

  // Counts the resolvents if the variable occurs on both sides.
  method CountResolvents(cfg: Config, data: CoprocessorData, bve: BoundedVariableElimination, v: nat, pl: nat, nl: nat,
      posCount: nat, negCount: nat, ghost j: Job)
    returns (status: LBool, resolvents: nat, ghost S: set<(nat, nat)>)
    requires Steady(data) && JobFrom(data, v, pl, nl, j) && posCount == |j.pos| && negCount == |j.neg| && bve.Cleared()
    modifies bve`posStats, bve`negStats, data`ca, data`occs, data`trail, data`ok, data`qhead
    ensures data.Valid() && data.Sound() && (status == False <==> !data.ok)
    ensures JobOk(j) && NoSmallResolvents(j) ==> status != False && Snap(data) == old(Snap(data)) && (status == Undef ==> S == Productive(j))
    ensures status == True ==> cfg.earlyAbort
    ensures status != False ==> Steady(data) && Shrunk(old(Snap(data)), Snap(data))
    ensures status != False ==> |S| == resolvents <= posCount * negCount
    ensures status == True ==> resolvents > Limit(cfg, bve.totallyAddedClauses, posCount + negCount)
    ensures status != False ==> Gone(data, j.x) || Working(data, j, true)
    ensures status == Undef ==> Gone(data, j.x) || Anticipated(data, bve, j, S)
    ensures status != False && FirstDecides(old(data.ca), j) ==> Gone(data, j.x) && resolvents == 0 && status == Undef
    ensures OneSided(j) ==> data.trail == old(data.trail)
    ensures status != False ==> CountOk(cfg, bve.totallyAddedClauses, j, resolvents)
  {
    CountStarts(cfg, bve.totallyAddedClauses, j);
    SidesCount(j, posCount, negCount);
    JobParts(data, v, pl, nl, j);
    SteadyFacts(data);
    ShrunkSame(data);
    FirstHasPair(data.ca, j);
    ProductiveBound(j);
    bve.ClearedIs();
    hide *;
    status, resolvents, S := Undef, 0, {};
    bve.posStats := GrowStats(bve.posStats, posCount);
    bve.negStats := GrowStats(bve.negStats, negCount);
    ZerosOnly(bve.posStats);
    ZerosOnly(bve.negStats);
    SnapIs(data);
    NoPairs(j);
    if posCount != 0 && negCount != 0 {
      status, resolvents, S := AnticipateElimination(cfg, data, bve, v, pl, nl, j);
      if status != False { CountEnds(cfg, bve.totallyAddedClauses, j, resolvents, S, status); }
    } else {
      NothingAnticipated(data, bve, j);
    }
  }

  lemma ZerosOnly(stats: seq<nat>)
    requires forall i :: 0 <= i < |stats| ==> stats[i] == 0
    ensures AllZero(stats)
  {
  }

  lemma NoPairs(j: Job)
    ensures JobOk(j) && (|j.pos| == 0 || |j.neg| == 0) ==> Productive(j) == {}
  {
  }

  lemma CountStarts(cfg: Config, total: int, j: Job)
    ensures |j.pos| == 0 || |j.neg| == 0 ==> CountOk(cfg, total, j, 0)
  {
    if JobOk(j) && (|j.pos| == 0 || |j.neg| == 0) { assert Productive(j) == {}; }
  }

  lemma CountEnds(cfg: Config, total: int, j: Job, resolvents: nat, S: set<(nat, nat)>, status: LBool)
    requires JobOk(j) && |S| == resolvents <= |Productive(j)|
    requires status == True ==> cfg.earlyAbort && resolvents > Limit(cfg, total, |j.pos| + |j.neg|)
    requires NoSmallResolvents(j) && status != True ==> S == Productive(j)
    ensures CountOk(cfg, total, j, resolvents)
  {
    hide JobOk, Productive, NoSmallResolvents;
  }

  lemma AnticipatedParts(data: CoprocessorData, bve: BoundedVariableElimination, j: Job, S: set<(nat, nat)>)
    requires Anticipated(data, bve, j, S)
    ensures Working(data, j, true)
    ensures StatsFor(j, bve.posStats, bve.negStats, S) && Tested(j, data.trail, S, |j.pos|, 0)
  {
  }

  lemma FreeIsNotGone(data: CoprocessorData, x: Lit)
    requires data.Value(x) == Undef
    ensures !Gone(data, x)
  {
  }

  lemma JobVariable(data: CoprocessorData, v: nat, pl: nat, nl: nat, j: Job)
    requires JobFrom(data, v, pl, nl, j)
    ensures j.x == Lit(v, false)
  {
  }

  method Anticipation(cfg: Config, data: CoprocessorData, bve: BoundedVariableElimination, v: nat, pl: nat, nl: nat,
      posCount: nat, negCount: nat, ghost j: Job)
    returns (status: LBool, resolvents: nat, ghost S: set<(nat, nat)>)
    requires Steady(data) && JobFrom(data, v, pl, nl, j) && posCount == |j.pos| && negCount == |j.neg| && v !in data.frozen && bve.Cleared()
    modifies bve`posStats, bve`negStats, data`ca, data`occs, data`trail, data`ok, data`qhead, data`undo
    ensures data.Valid() && data.Sound() && (status == False <==> !data.ok)
    ensures status != False ==> Steady(data) && Kept(old(Snap(data)), Snap(data), j.x.v) && |data.ca| == |old(data.ca)|
    ensures status != False ==> |S| == resolvents <= posCount * negCount
    ensures status == True ==> resolvents > Limit(cfg, bve.totallyAddedClauses, posCount + negCount)
    ensures status != False ==> Gone(data, j.x) || (Working(data, j, false) && DeletedSettled(data.ca, data.trail, j))
    ensures status == Undef ==> Gone(data, j.x) || Tested(j, data.trail, S, |j.pos|, 0)
    ensures status != False && FirstDecides(old(data.ca), j) ==>
      Gone(data, j.x) && resolvents == 0 && status == Undef && Shrunk(old(Snap(data)), Snap(data))
    ensures OneSided(j) ==> data.trail == old(data.trail)
    ensures status != False ==> CountOk(cfg, bve.totallyAddedClauses, j, resolvents)
    ensures status != False ==> BlockedGone(cfg, old(Snap(data)), Snap(data), bve.totallyAddedClauses, j, resolvents)
  {
    hide *;
    JobVariable(data, v, pl, nl, j);
    SnapIs(data);
    ghost var was := Snap(data);
    NothingGone(cfg, was, bve.totallyAddedClauses, j);
    SteadyFacts(data);
    JobFree(data, v, pl, nl, j);
    status, resolvents, S := CountResolvents(cfg, data, bve, v, pl, nl, posCount, negCount, j);
    if status == False { return; }
    SteadyFacts(data);
    SnapIs(data);
    ShrunkKept(was, Snap(data), v);
    if !Gone(data, j.x) {
      if status == Undef { AnticipatedParts(data, bve, j, S); }
      WorkingWeaker(data, j);
    }
    BlockedClauses.ValueIs(data, Lit(v, false));
    if status == Undef && cfg.blocked {
      if data.Value(Lit(v, false)) == Undef {
        FreeIsNotGone(data, j.x);
        ghost var mid := Snap(data);
        ghost var between := RemoveBlockedBoth(data, bve, v, j, S);
        KeptTrans(was, mid, Snap(data), v);
        SteadyFacts(data);
        SnapIs(data);
        BothGone(cfg, was, mid, between, Snap(data), bve.totallyAddedClauses, j, resolvents, S, bve.posStats, bve.negStats);
      }
    }
  }

  // The clauses that have no resolvent left are gone, and nothing else has changed, if no
  // resolvent is unit or empty and counting was not given up.
  ghost predicate BlockedGone(cfg: Config, was: Snapshot, now: Snapshot, total: int, j: Job, resolvents: nat) {
    JobOk(j) && NoSmallResolvents(j) && (!cfg.earlyAbort || resolvents <= Limit(cfg, total, |j.pos| + |j.neg|)) ==>
      && now.trail == was.trail && |now.ca| == |was.ca|
      && (forall i :: 0 <= i < |now.ca| && i !in j.pos && i !in j.neg ==> now.ca[i] == was.ca[i])
      && (forall a :: 0 <= a < |j.pos| && j.pos[a] < |now.ca| ==>
            now.ca[j.pos[a]] == if cfg.blocked && Fruitless(j, a) then was.ca[j.pos[a]].(deleted := true) else was.ca[j.pos[a]])
      && (forall b :: 0 <= b < |j.neg| && j.neg[b] < |now.ca| ==>
            now.ca[j.neg[b]] == if cfg.blocked && FruitlessNeg(j, b) then was.ca[j.neg[b]].(deleted := true) else was.ca[j.neg[b]])
  }

  // No considered pair of the clause yields a resolvent.
  ghost predicate Fruitless(j: Job, a: nat)
    requires JobOk(j)
  {
    forall b :: (a, b) !in Productive(j)
  }

  ghost predicate FruitlessNeg(j: Job, b: nat)
    requires JobOk(j)
  {
    forall a :: (a, b) !in Productive(j)
  }

  lemma NothingGone(cfg: Config, was: Snapshot, total: int, j: Job)
    ensures !cfg.blocked ==> forall r: nat :: BlockedGone(cfg, was, was, total, j, r)
    ensures cfg.earlyAbort ==> forall r: nat :: r > Limit(cfg, total, |j.pos| + |j.neg|) ==> BlockedGone(cfg, was, was, total, j, r)
    ensures !(JobOk(j) && NoSmallResolvents(j)) ==> forall r: nat, now: Snapshot :: BlockedGone(cfg, was, now, total, j, r)
  {
    hide JobOk, NoSmallResolvents, Limit;
  }

  lemma JobFree(data: CoprocessorData, v: nat, pl: nat, nl: nat, j: Job)
    requires JobFrom(data, v, pl, nl, j) && data.Valid()
    ensures JobOk(j) && Unassigned(data.trail, Lit(v, false))
    ensures NoDup(j.pos) && NoDup(j.neg) && forall i :: i in j.pos ==> i !in j.neg
  {
    CleanDisjoint(data.ca, j);
  }

  lemma BothGone(cfg: Config, was: Snapshot, mid: Snapshot, between: seq<Cls>, now: Snapshot, total: int, j: Job, resolvents: nat,
                 S: set<(nat, nat)>, posStats: seq<nat>, negStats: seq<nat>)
    requires cfg.blocked && JobOk(j) && NoDup(j.pos) && NoDup(j.neg) && forall i :: i in j.pos ==> i !in j.neg
    requires NoSmallResolvents(j) ==> mid == was && S == Productive(j)
    requires StatsFor(j, posStats, negStats, S) && now.trail == mid.trail && |posStats| >= |j.pos| && |negStats| >= |j.neg|
    requires BlockedDropped(mid.ca, between, j.pos, posStats, |j.pos|) && BlockedDropped(between, now.ca, j.neg, negStats, |j.neg|)
    ensures BlockedGone(cfg, was, now, total, j, resolvents)
  {
    hide JobOk, NoSmallResolvents, Productive, NoDup, Limit, StatsFor, Fruitless, FruitlessNeg, BlockedDropped;
    if NoSmallResolvents(j) {
      ZeroIsFruitless(j, S, posStats, negStats);
      forall a | 0 <= a < |j.pos| ensures j.pos[a] !in j.neg { assert j.pos[a] in j.pos; }
      forall b | 0 <= b < |j.neg| ensures j.neg[b] !in j.pos { assert j.neg[b] in j.neg; }
      SideDropped(mid.ca, between, j.pos, posStats);
      SideDropped(between, now.ca, j.neg, negStats);
    }
  }

  lemma SideDropped(was: seq<Cls>, ca: seq<Cls>, list: seq<CRef>, stats: seq<nat>)
    requires |stats| >= |list| && BlockedDropped(was, ca, list, stats, |list|)
    ensures |ca| == |was| && forall i :: 0 <= i < |ca| && i !in list ==> ca[i] == was[i]
    ensures forall a :: 0 <= a < |list| && list[a] < |ca| ==>
      ca[list[a]] == if stats[a] == 0 then was[list[a]].(deleted := true) else was[list[a]]
  {
  }

  lemma ZeroIsFruitless(j: Job, S: set<(nat, nat)>, posStats: seq<nat>, negStats: seq<nat>)
    requires JobOk(j) && StatsFor(j, posStats, negStats, S) && S == Productive(j)
    ensures forall a :: 0 <= a < |j.pos| ==> (Fruitless(j, a) <==> posStats[a] == 0)
    ensures forall b :: 0 <= b < |j.neg| ==> (FruitlessNeg(j, b) <==> negStats[b] == 0)
  {
    hide JobOk, Productive;
    forall a | 0 <= a < |j.pos| ensures Fruitless(j, a) <==> posStats[a] == 0 {
      if posStats[a] > 0 {
        assert InRow(S, a);
        var k :| (a, k) in S;
      }
    }
    forall b | 0 <= b < |j.neg| ensures FruitlessNeg(j, b) <==> negStats[b] == 0 {
      if negStats[b] > 0 {
        assert InColumn(S, b);
        var k :| (k, b) in S;
      }
    }
  }

  // ---------- the decision, and its effect on the number of clauses ----------

  ghost function NewRefs(lo: nat, hi: nat): (r: set<nat>)
    requires lo <= hi
    ensures |r| == hi - lo && forall i :: i in r <==> lo <= i < hi
  {
    if lo == hi then {} else NewRefs(lo, hi - 1) + {hi - 1}
  }

  ghost function Refs(s: seq<CRef>): (r: set<nat>)
    ensures forall i :: i in r <==> i in s
    ensures NoDup(s) ==> |r| == |s|
  {
    if s == [] then {}
    else
      var front, l := s[..|s| - 1], s[|s| - 1];
      assert s == front + [l];
      assert NoDup(s) ==> l !in front;
      Refs(front) + {l}
  }

  lemma StaysDeleted(was: Snapshot, now: Snapshot, v: nat)
    requires Kept(was, now, v)
    ensures |was.ca| <= |now.ca| && forall i :: 0 <= i < |was.ca| && was.ca[i].deleted ==> now.ca[i].deleted
  {
  }

  // The live clauses whose references are not in the two lists.
  lemma LiveWithout(was: seq<Cls>, pos: seq<CRef>, neg: seq<CRef>)
    requires NoDup(pos) && NoDup(neg) && forall i :: i in pos ==> i !in neg
    requires forall i :: i in pos || i in neg ==> i < |was| && !was[i].deleted
    ensures |LiveSet(was) - Refs(pos) - Refs(neg)| == |LiveSet(was)| - |pos| - |neg|
  {
    DiffCard(LiveSet(was), Refs(pos));
    DiffCard(LiveSet(was) - Refs(pos), Refs(neg));
  }

  // An elimination that stores created clauses and drops the two lists.
  lemma LiveAfter(was: seq<Cls>, ca: seq<Cls>, pos: seq<CRef>, neg: seq<CRef>)
    requires |was| <= |ca| && forall i :: 0 <= i < |was| && was[i].deleted ==> ca[i].deleted
    ensures |LiveSet(ca)| <= |LiveSet(was)| + |ca| - |was|
    ensures Dropping(was, ca, pos, neg) ==> |LiveSet(ca)| <= |LiveSet(was)| - |pos| - |neg| + |ca| - |was|
  {
    var added := NewRefs(|was|, |ca|);
    assert LiveSet(ca) <= LiveSet(was) + added;
    SubsetCard(LiveSet(ca), LiveSet(was) + added);
    if Dropping(was, ca, pos, neg) {
      LiveWithout(was, pos, neg);
      var left := LiveSet(was) - Refs(pos) - Refs(neg);
      assert LiveSet(ca) <= left + added;
      SubsetCard(LiveSet(ca), left + added);
    }
  }

  ghost predicate Dropping(was: seq<Cls>, ca: seq<Cls>, pos: seq<CRef>, neg: seq<CRef>) {
    && NoDup(pos) && NoDup(neg) && (forall i :: i in pos ==> i !in neg)
    && (forall i :: i in pos || i in neg ==> i < |was| && !was[i].deleted)
    && (forall i :: i in pos || i in neg ==> i < |ca| && ca[i].deleted)
  }

  // The total growth that all eliminations together may reach.
  function GrowthBound(cfg: Config): nat {
    if cfg.growTotal + cfg.grow > 0 then cfg.growTotal + cfg.grow else 0
  }

  // Whether the resolvents may replace the clauses, and the new total.
  function Decision(cfg: Config, totallyAdded: int, resolvents: int, count: nat): (r: (bool, int))
    ensures !r.0 ==> r.1 == totallyAdded
    ensures r.0 ==> r.1 == totallyAdded + resolvents - count
    ensures totallyAdded <= GrowthBound(cfg) ==> r.1 <= GrowthBound(cfg)
    ensures resolvents > Limit(cfg, totallyAdded, count) ==> !r.0
  {
    var reducedClss := resolvents <= Limit(cfg, totallyAdded, count) && totallyAdded <= cfg.growTotal;
    (reducedClss, if reducedClss then totallyAdded + resolvents - count else totallyAdded)
  }

  // When the resolvents may replace the clauses: the total so far is within its bound, and
  // so is the new total; or, if there is no bound of its own for the total, the growth by
  // this one variable is.
  ghost predicate Accepted(cfg: Config, total: int, resolvents: int, count: int) {
    && total <= cfg.growTotal
    && (if cfg.growTotal > cfg.grow && cfg.growTotal != INT32_MAX then total + resolvents - count <= cfg.growTotal + cfg.grow
        else resolvents - count <= cfg.grow)
  }

  lemma DecisionIs(cfg: Config, total: int, resolvents: int, count: nat)
    ensures Decision(cfg, total, resolvents, count)
         == (Accepted(cfg, total, resolvents, count), if Accepted(cfg, total, resolvents, count) then total + resolvents - count else total)
  {
  }

  // What is known of the number of resolvents: it is that of all pairs that yield a clause,
  // unless one of them is a unit or counting was given up because there are too many.
  ghost predicate CountOk(cfg: Config, total: int, j: Job, resolvents: nat) {
    JobOk(j) ==>
      && resolvents <= |Productive(j)|
      && (NoSmallResolvents(j) ==>
            resolvents == |Productive(j)| || (cfg.earlyAbort && resolvents > Limit(cfg, total, |j.pos| + |j.neg|)))
  }

  // If no pair yields a unit, the decision is taken with the number of all pairs that yield
  // a clause.
  ghost predicate DecidedOnAll(cfg: Config, total: int, j: Job, resolvents: nat) {
    JobOk(j) ==>
      && resolvents <= |Productive(j)|
      && (NoSmallResolvents(j) ==>
            && (Accepted(cfg, total, resolvents, |j.pos| + |j.neg|) <==> Accepted(cfg, total, |Productive(j)|, |j.pos| + |j.neg|))
            && (Accepted(cfg, total, resolvents, |j.pos| + |j.neg|) || !cfg.earlyAbort ==> resolvents == |Productive(j)|))
  }

  lemma CountDecides(cfg: Config, total: int, j: Job, resolvents: nat)
    requires CountOk(cfg, total, j, resolvents)
    ensures DecidedOnAll(cfg, total, j, resolvents)
  {
    hide JobOk, Productive, NoSmallResolvents;
  }

  // If no resolvent is unit or empty, giving up early leads to the same decision as
  // counting all resolvents of the same job.
  method EarlyAbortDecidesTheSame(cfg: Config, data: CoprocessorData, bve: BoundedVariableElimination, v: nat,
      pl: nat, nl: nat, ghost j: Job)
    returns (early: (bool, int), all: (bool, int), count: nat)
    requires Steady(data) && bve.Cleared() && Working(data, j, true) && j.x == Lit(v, false) && pl == j.pl && nl == j.nl
    requires Unshrunk(data.ca, j.pos, j.pos0) && Unshrunk(data.ca, j.neg, j.neg0) && NoSmallResolvents(j)
    modifies bve`posStats, bve`negStats, data`ca, data`occs, data`trail, data`ok, data`qhead
    ensures data.Valid() && data.ok && Untouched(data, old(data.ca), old(data.occs), old(data.trail))
    ensures early == all && count == |Productive(j)| && all.0 == Accepted(cfg, old(bve.totallyAddedClauses), count, |j.pos| + |j.neg|)
  {
    hide OccsOk, ClausesOk, TrailOk, Propagated, NoUnits, Step, Tracked, StatsFor, Tested, SideOk, Defines, Settled;
    hide Productive, NoSmallResolvents, FirstDecides, Implies, PivotsFree, Shrunk, Decision, Accepted, AllZero, JobOk, Unshrunk;
    bve.ClearedIs();
    var n, m := |List(data.occs, Lit(v, false))|, |List(data.occs, Lit(v, true))|;
    var total := bve.totallyAddedClauses;
    var status, resolvents;
    ghost var S;
    bve.posStats := GrowStats(bve.posStats, n);
    bve.negStats := GrowStats(bve.negStats, m);
    ZerosOnly(bve.posStats);
    ZerosOnly(bve.negStats);
    status, resolvents, S := AnticipateElimination(cfg.(earlyAbort := true), data, bve, v, pl, nl, j);
    early := Decision(cfg, total, resolvents, n + m);
    bve.posStats := GrowStats([], n);
    bve.negStats := GrowStats([], m);
    ZerosOnly(bve.posStats);
    ZerosOnly(bve.negStats);
    status, resolvents, S := AnticipateElimination(cfg.(earlyAbort := false), data, bve, v, pl, nl, j);
    count := resolvents;
    assert S == Productive(j);
    DecisionIs(cfg, total, resolvents, n + m);
    all := Decision(cfg, total, resolvents, n + m);
  }

  // Resolving and dropping, once the decision has been taken.
  method Replace(data: CoprocessorData, v: nat, pl: nat, nl: nat, ghost j: Job, ghost S: set<(nat, nat)>)
    returns (status: LBool)
    requires Steady(data) && j.x == Lit(v, false) && pl == j.pl && nl == j.nl
    requires v !in data.frozen
    requires Gone(data, j.x) || (Working(data, j, false) && DeletedSettled(data.ca, data.trail, j) && Tested(j, data.trail, S, |j.pos|, 0))
    modifies data`ca, data`occs, data`trail, data`ok, data`qhead, data`undo
    ensures data.Valid() && data.Sound() && (status == False <==> !data.ok)
    ensures status != False ==> Steady(data) && Kept(old(Snap(data)), Snap(data), j.x.v) && |data.ca| <= |old(data.ca)| + |S|
    ensures status != False ==> NoLive(data.ca, j.x) && NoLive(data.ca, Neg(j.x))
    ensures status != False && Unassigned(data.trail, j.x) ==>
      forall i :: (i in j.pos || i in j.neg) ==> i < |data.ca| && data.ca[i].deleted
    ensures status != False && Unassigned(data.trail, j.x) ==> JobOk(j) && ResolvedUpTo(j, data.ca, data.trail, |j.pos|, 0)
    ensures old(Gone(data, j.x)) ==> status != False && Snap(data) == old(Snap(data))
    ensures OneSided(j) ==> data.trail == old(data.trail)
  {
    hide OccsOk, ClausesOk, TrailOk, Propagated, NoUnits, Step, Tracked, DeletedSettled, Tested, SideOk, Defines;
    hide Kept, LiveLits, NoLive, ResolvedUpTo;
    ghost var n := |j.pos|;
    ghost var was := Snap(data);
    status := Undef;
    KeptSame(data, v);
    if data.Value(Lit(v, false)) == Undef {    // the lists of an assigned variable are empty
      status, n := ResolveSet(data, v, pl, nl, j, S);
      if status == False { return; }
    }
    ghost var mid := Snap(data);
    if !Gone(data, j.x) { InBounds(data, j, false); }
    DropVariable(data, v, j, n);
    KeptTrans(was, mid, Snap(data), v);
  }

  lemma CleanDisjoint(ca: seq<Cls>, j: Job)
    requires ClausesOk(ca) && CleanList(ca, j.pos, j.x) && CleanList(ca, j.neg, Neg(j.x))
    ensures NoDup(j.pos) && NoDup(j.neg) && forall i :: i in j.pos ==> i !in j.neg
    ensures forall i :: i in j.pos || i in j.neg ==> i < |ca| && !ca[i].deleted
  {
    forall i | i in j.pos ensures i !in j.neg {
      assert Proper(ca[i].lits);
    }
  }

  // What the attempt to eliminate the variable of j does to the formula, and to the
  // running total of added clauses.
  ghost predicate Tried(cfg: Config, was: Snapshot, now: Snapshot, total: int, total': int, j: Job, resolvents: nat, eliminated: bool) {
    && Kept(was, now, j.x.v)
    && resolvents <= |j.pos| * |j.neg|
    && DecidedOnAll(cfg, total, j, resolvents)
    && (!eliminated ==> BlockedGone(cfg, was, now, total, j, resolvents))
    && (eliminated <==> Accepted(cfg, total, resolvents, |j.pos| + |j.neg|) && !cfg.bceOnly)
    && total' == (if Accepted(cfg, total, resolvents, |j.pos| + |j.neg|) then total + resolvents - |j.pos| - |j.neg| else total)
    && (eliminated ==> NoLive(now.ca, j.x) && NoLive(now.ca, Neg(j.x)))
    && (eliminated && Unassigned(now.trail, j.x) ==> JobOk(j) && ResolvedUpTo(j, now.ca, now.trail, |j.pos|, 0))
    && |LiveSet(now.ca)| <= |LiveSet(was.ca)| + TriedGrowth(j, now.trail, resolvents, eliminated)
    && (FirstDecides(was.ca, j) ==> resolvents == 0 && !Unassigned(now.trail, j.x) && Shrunk(was, now))
    && (OneSided(j) ==> now.trail == was.trail)
  }

  // The clauses on the variable only go for certain if the variable is still free. If a
  // unit clause has decided it, they may stay in shortened form.
  ghost function TriedGrowth(j: Job, trail: seq<Lit>, resolvents: nat, eliminated: bool): int {
    if !eliminated then 0 else if Unassigned(trail, j.x) then resolvents - (|j.pos| + |j.neg|) else resolvents
  }

  lemma TriedOnly(cfg: Config, was: Snapshot, now: Snapshot, total: int, j: Job, resolvents: nat)
    requires Kept(was, now, j.x.v) && |now.ca| == |was.ca| && resolvents <= |j.pos| * |j.neg|
    requires !Decision(cfg, total, resolvents, |j.pos| + |j.neg|).0 || cfg.bceOnly
    requires FirstDecides(was.ca, j) ==> resolvents == 0 && !Unassigned(now.trail, j.x) && Shrunk(was, now)
    requires OneSided(j) ==> now.trail == was.trail
    requires CountOk(cfg, total, j, resolvents) && BlockedGone(cfg, was, now, total, j, resolvents)
    ensures Tried(cfg, was, now, total, Decision(cfg, total, resolvents, |j.pos| + |j.neg|).1, j, resolvents, false)
  {
    hide Shrunk, FirstDecides, LiveSet, JobOk, Productive, NoSmallResolvents, CountOk, DecidedOnAll, BlockedGone;
    CountDecides(cfg, total, j, resolvents);
    DecisionIs(cfg, total, resolvents, |j.pos| + |j.neg|);
    StaysDeleted(was, now, j.x.v);
    LiveAfter(was.ca, now.ca, j.pos, j.neg);
  }

  lemma TriedReplaced(cfg: Config, was: Snapshot, now: Snapshot, total: int, j: Job, resolvents: nat)
    requires Kept(was, now, j.x.v) && |now.ca| <= |was.ca| + resolvents && resolvents <= |j.pos| * |j.neg|
    requires Decision(cfg, total, resolvents, |j.pos| + |j.neg|).0 && !cfg.bceOnly
    requires FirstDecides(was.ca, j) ==> resolvents == 0 && !Unassigned(now.trail, j.x) && Shrunk(was, now)
    requires OneSided(j) ==> now.trail == was.trail
    requires NoLive(now.ca, j.x) && NoLive(now.ca, Neg(j.x))
    requires Unassigned(now.trail, j.x) ==> JobOk(j) && ResolvedUpTo(j, now.ca, now.trail, |j.pos|, 0)
    requires Unassigned(now.trail, j.x) ==> Dropping(was.ca, now.ca, j.pos, j.neg)
    requires CountOk(cfg, total, j, resolvents)
    ensures Tried(cfg, was, now, total, Decision(cfg, total, resolvents, |j.pos| + |j.neg|).1, j, resolvents, true)
  {
    hide Shrunk, FirstDecides, LiveSet, NoLive, JobOk, ResolvedUpTo, Dropping, Productive, NoSmallResolvents, CountOk, DecidedOnAll, BlockedGone;
    CountDecides(cfg, total, j, resolvents);
    DecisionIs(cfg, total, resolvents, |j.pos| + |j.neg|);
    StaysDeleted(was, now, j.x.v);
    LiveAfter(was.ca, now.ca, j.pos, j.neg);
  }

  lemma AllDropped(data: CoprocessorData, was: seq<Cls>, v: nat, pl: nat, nl: nat, j: Job)
    requires data.Valid() && JobFrom(data, v, pl, nl, j) && was == data.ca
    ensures forall ca: seq<Cls> :: (forall i :: i in j.pos || i in j.neg ==> i < |ca| && ca[i].deleted) ==> Dropping(was, ca, j.pos, j.neg)
  {
    CleanDisjoint(was, j);
  }

  lemma GoneIs(data: CoprocessorData, x: Lit)
    ensures Gone(data, x) ==> !Unassigned(data.trail, x)
  {
  }

  // The decision, and the elimination if it is to be done.
  method Decide(cfg: Config, data: CoprocessorData, bve: BoundedVariableElimination, v: nat, pl: nat, nl: nat,
      count: nat, resolvents: nat, ghost j: Job, ghost S: set<(nat, nat)>, ghost start: Snapshot)
    returns (eliminated: bool)
    requires Steady(data) && v !in data.frozen && j.x == Lit(v, false) && pl == j.pl && nl == j.nl && count == |j.pos| + |j.neg|
    requires |S| == resolvents <= |j.pos| * |j.neg| && Kept(start, Snap(data), v) && |data.ca| == |start.ca|
    requires resolvents > Limit(cfg, bve.totallyAddedClauses, count) || Gone(data, j.x)
      || (Working(data, j, false) && DeletedSettled(data.ca, data.trail, j) && Tested(j, data.trail, S, |j.pos|, 0))
    requires FirstDecides(start.ca, j) ==> Gone(data, j.x) && resolvents == 0 && Shrunk(start, Snap(data))
    requires OneSided(j) ==> data.trail == start.trail
    requires CountOk(cfg, bve.totallyAddedClauses, j, resolvents)
    requires BlockedGone(cfg, start, Snap(data), bve.totallyAddedClauses, j, resolvents)
    requires forall ca: seq<Cls> {:trigger Dropping(start.ca, ca, j.pos, j.neg)} ::
      (forall i :: i in j.pos || i in j.neg ==> i < |ca| && ca[i].deleted) ==> Dropping(start.ca, ca, j.pos, j.neg)
    modifies bve`totallyAddedClauses, data`ca, data`occs, data`trail, data`ok, data`qhead, data`undo
    ensures data.Valid() && data.Sound() && (data.ok ==> Steady(data))
    ensures data.ok ==>
      Tried(cfg, start, Snap(data), old(bve.totallyAddedClauses), bve.totallyAddedClauses, j, resolvents, eliminated)
    ensures bve.totallyAddedClauses == Decision(cfg, old(bve.totallyAddedClauses), resolvents, count).1
  {
    hide *;
    ghost var between, total := Snap(data), bve.totallyAddedClauses;
    SnapIs(data);
    GoneIs(data, j.x);
    SteadyFacts(data);
    eliminated := false;
    var d := Decision(cfg, bve.totallyAddedClauses, resolvents, count);
    bve.totallyAddedClauses := d.1;
    if d.0 && !cfg.bceOnly {
      var status := Replace(data, v, pl, nl, j, S);
      if status == False { return; }
      eliminated := true;
      KeptTrans(start, between, Snap(data), v);
      SnapIs(data);
      TriedReplaced(cfg, start, Snap(data), total, j, resolvents);
      SteadyFacts(data);
    } else {
      TriedOnly(cfg, start, Snap(data), total, j, resolvents);
    }
  }

  // Anticipation, decision and elimination for cleaned lists.
  method TryEliminate(cfg: Config, data: CoprocessorData, bve: BoundedVariableElimination, v: nat, pl: nat, nl: nat,
      posCount: nat, negCount: nat, ghost j: Job)
    returns (eliminated: bool, ghost resolvents: nat)
    requires Steady(data) && JobFrom(data, v, pl, nl, j) && posCount == |j.pos| && negCount == |j.neg| && v !in data.frozen
    requires bve.Cleared()
    modifies bve, data`ca, data`occs, data`trail, data`ok, data`qhead, data`undo
    ensures data.Valid() && data.Sound() && (data.ok ==> Steady(data))
    ensures data.ok ==>
      Tried(cfg, old(Snap(data)), Snap(data), old(bve.totallyAddedClauses), bve.totallyAddedClauses, j, resolvents, eliminated)
    ensures data.ok ==> bve.Cleared()
    ensures old(bve.totallyAddedClauses) <= GrowthBound(cfg) ==> bve.totallyAddedClauses <= GrowthBound(cfg)
  {
    hide *;
    ghost var start := Snap(data);
    SteadyFacts(data);
    AllDropped(data, data.ca, v, pl, nl, j);
    JobParts(data, v, pl, nl, j);
    SnapIs(data);
    eliminated := false;
    var status, count;
    ghost var S;
    status, count, S := Anticipation(cfg, data, bve, v, pl, nl, posCount, negCount, j);
    resolvents := count;
    if status == False { return; }
    SnapIs(data);
    eliminated := Decide(cfg, data, bve, v, pl, nl, posCount + negCount, count, j, S, start);
    bve.posStats, bve.negStats := [], [];
    bve.NothingCounted();
  }
}
