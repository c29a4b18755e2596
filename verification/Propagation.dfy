// Unit propagation on the clause database (coprocessor/techniques/Propagation.cc).

module Propagation {
  import opened Sat
  import opened Undo
  import opened Steps
  import opened Formula

  ghost predicate Equiv(F: set<Clause>, G: set<Clause>) {
    forall m: Model {:trigger SatAll(m, F)} {:trigger SatAll(m, G)} :: SatAll(m, F) <==> SatAll(m, G)
  }

  // ---------- the four rewrites ----------

  function Dropped(ca: seq<Cls>, i: CRef): (r: seq<Cls>)
    requires i < |ca|
  {
    ca[i := ca[i].(deleted := true)]
  }

  function Stripped(ca: seq<Cls>, i: CRef, l: Lit): seq<Cls>
    requires i < |ca|
  {
    ca[i := ca[i].(lits := Without(ca[i].lits, l))]
  }

  lemma DropSatisfied(ca: seq<Cls>, i: CRef, trail: seq<Lit>, ok: bool, l: Lit)
    requires i < |ca| && l in ca[i].lits && l in trail
    ensures Equiv(FormulaOf(ca, trail, ok), FormulaOf(Dropped(ca, i), trail, ok))
  {
    forall m: Model ensures SatAll(m, FormulaOf(ca, trail, ok)) <==> SatAll(m, FormulaOf(Dropped(ca, i), trail, ok)) {
      SatFormula(m, ca, trail, ok);
      SatFormula(m, Dropped(ca, i), trail, ok);
      UpdateSat(m, ca, i, ca[i].(deleted := true));
    }
  }

  lemma StripFalse(ca: seq<Cls>, i: CRef, trail: seq<Lit>, ok: bool, l: Lit)
    requires i < |ca| && Neg(l) in trail
    ensures Equiv(FormulaOf(ca, trail, ok), FormulaOf(Stripped(ca, i, l), trail, ok))
  {
    forall m: Model ensures SatAll(m, FormulaOf(ca, trail, ok)) <==> SatAll(m, FormulaOf(Stripped(ca, i, l), trail, ok)) {
      SatFormula(m, ca, trail, ok);
      SatFormula(m, Stripped(ca, i, l), trail, ok);
      UpdateSat(m, ca, i, ca[i].(lits := Without(ca[i].lits, l)));
      if AllHold(m, trail) {
        assert Holds(m, Neg(l));
        StripSat(m, ca[i].lits, l);
        assert ClsSat(m, ca[i]) <==> ClsSat(m, ca[i].(lits := Without(ca[i].lits, l)));
      }
    }
  }

  lemma StripSat(m: Model, c: Clause, l: Lit)
    requires Holds(m, Neg(l))
    ensures SatClause(m, c) <==> SatClause(m, Without(c, l))
  {
    if SatClause(m, c) { var x :| x in c && Holds(m, x); assert x in Without(c, l); }
    if SatClause(m, Without(c, l)) { var x :| x in Without(c, l) && Holds(m, x); assert x in c; }
  }

  // A unit clause leaves the database and shows up on the trail, or as a conflict.
  lemma MoveUnit(ca: seq<Cls>, i: CRef, trail: seq<Lit>, ok: bool, u: Lit)
    requires i < |ca| && !ca[i].deleted && ca[i].lits == [u]
    ensures u !in trail ==> Equiv(FormulaOf(ca, trail, ok), FormulaOf(Dropped(ca, i), trail + [u], ok))
    ensures u in trail ==> Equiv(FormulaOf(ca, trail, ok), FormulaOf(Dropped(ca, i), trail, ok))
    ensures Neg(u) in trail ==> Equiv(FormulaOf(ca, trail, ok), FormulaOf(Dropped(ca, i), trail, false))
  {
    forall m: Model
      ensures u !in trail ==> (SatAll(m, FormulaOf(ca, trail, ok)) <==> SatAll(m, FormulaOf(Dropped(ca, i), trail + [u], ok)))
      ensures u in trail ==> (SatAll(m, FormulaOf(ca, trail, ok)) <==> SatAll(m, FormulaOf(Dropped(ca, i), trail, ok)))
      ensures Neg(u) in trail ==> !SatAll(m, FormulaOf(ca, trail, ok)) && !SatAll(m, FormulaOf(Dropped(ca, i), trail, false))
    {
      if Holds(m, u) { assert u in [u]; }
      assert SatClause(m, [u]) <==> Holds(m, u);
      assert ClsSat(m, ca[i]) <==> Holds(m, u);
      UpdateSat(m, ca, i, ca[i].(deleted := true));
      SatFormula(m, ca, trail, ok);
      SatFormula(m, Dropped(ca, i), trail, ok);
      SatFormula(m, Dropped(ca, i), trail, false);
      SatFormula(m, Dropped(ca, i), trail + [u], ok);
      assert AllHold(m, trail + [u]) <==> AllHold(m, trail) && Holds(m, u);
    }
  }

  lemma EmptyFails(ca: seq<Cls>, i: CRef, trail: seq<Lit>, ok: bool)
    requires i < |ca| && !ca[i].deleted && ca[i].lits == []
    ensures Equiv(FormulaOf(ca, trail, ok), FormulaOf(Dropped(ca, i), trail, false))
  {
    forall m: Model ensures !SatAll(m, FormulaOf(ca, trail, ok)) && !SatAll(m, FormulaOf(Dropped(ca, i), trail, false)) {
      SatFormula(m, ca, trail, ok);
      SatFormula(m, Dropped(ca, i), trail, false);
      assert !ClsSat(m, ca[i]);
    }
  }

  lemma {:induction false} WithoutProper(c: Clause, p: Lit)
    requires Proper(c)
    ensures Proper(Without(c, p)) && |Without(c, p)| <= |c|
  {
    if c != [] {
      assert Proper(c[1..]);
      WithoutProper(c[1..], p);
      var r := Without(c[1..], p);
      forall i | 0 <= i < |r| ensures Code(c[0]) < Code(r[i]) {
        assert r[i] in c[1..];
      }
    }
  }

  // ---------- what propagation did to each clause ----------

  // b[i] is a[i] without some literals that are false under the trail; a clause is only
  // dropped when the trail satisfies it.
  ghost predicate SimplifiedBy(a: Cls, b: Cls, trail: seq<Lit>, ok: bool) {
    && (a.deleted ==> b.deleted)
    && (forall l :: l in b.lits ==> l in a.lits)
    && (!b.deleted ==> forall l :: l in a.lits && l !in b.lits ==> Neg(l) in trail)
    && (ok && b.deleted && !a.deleted ==> exists l :: l in a.lits && l in trail)
  }

  ghost predicate Simplified(a: seq<Cls>, b: seq<Cls>, trail: seq<Lit>, ok: bool) {
    |a| == |b| && forall i :: 0 <= i < |a| ==> SimplifiedBy(a[i], b[i], trail, ok)
  }

  lemma SimplifiedSet(a: seq<Cls>, b: seq<Cls>, t: seq<Lit>, ok: bool, i: CRef, c: Cls, t': seq<Lit>, ok': bool)
    requires Simplified(a, b, t, ok) && i < |b| && t <= t' && (ok' ==> ok)
    requires SimplifiedBy(a[i], c, t', ok')
    ensures Simplified(a, b[i := c], t', ok')
  {
    forall l | l in t ensures l in t' {}
  }

  // ---------- the procedure ----------

  // Where a propagation started: the clauses, the formula and a bound on the trail.
  datatype Start = Start(was: seq<Cls>, f: set<Clause>, bound: nat)

  ghost function LiveSet(ca: seq<Cls>): set<nat> {
    set i | 0 <= i < |ca| && !ca[i].deleted
  }

  // Live clauses and trail literals together: no rewrite increases this number.
  ghost function Work(ca: seq<Cls>, trail: seq<Lit>): nat {
    |LiveSet(ca)| + |trail|
  }

  // The state inside a propagation. Every literal that joins the trail costs a clause.
  ghost predicate Busy(data: CoprocessorData, s: Start)
    reads data`ca, data`trail, data`ok, data`qhead
  {
    && ClausesOk(data.ca) && TrailOk(data.trail)
    && Simplified(s.was, data.ca, data.trail, data.ok)
    && Equiv(s.f, FormulaOf(data.ca, data.trail, data.ok))
    && data.qhead <= |data.trail| && Propagated(data.ca, data.trail[..data.qhead])
    && Work(data.ca, data.trail) <= s.bound
  }

  lemma FewerLive(ca: seq<Cls>, i: CRef, c: Cls)
    requires i < |ca|
    ensures !ca[i].deleted && c.deleted ==> |LiveSet(ca[i := c])| == |LiveSet(ca)| - 1
    ensures !ca[i].deleted && !c.deleted ==> LiveSet(ca[i := c]) == LiveSet(ca)
  {
    if !ca[i].deleted && c.deleted {
      assert LiveSet(ca[i := c]) == LiveSet(ca) - {i};
    }
  }

  ghost predicate NoLive(ca: seq<Cls>, l: Lit) {
    forall i :: 0 <= i < |ca| && !ca[i].deleted ==> l !in ca[i].lits
  }

  // Unit clauses are kept on the trail, not in the database.
  ghost predicate NoUnits(ca: seq<Cls>) {
    forall i :: 0 <= i < |ca| && !ca[i].deleted ==> |ca[i].lits| > 1
  }

  lemma StripKeepsNoUnits(ca: seq<Cls>, i: CRef, l: Lit)
    requires i < |ca| && !ca[i].deleted && NoUnits(ca)
    ensures |Stripped(ca, i, l)[i].lits| > 1 ==> NoUnits(Stripped(ca, i, l))
    ensures NoUnits(Dropped(Stripped(ca, i, l), i))
  {
  }

  lemma DropKeepsNoUnits(ca: seq<Cls>, i: CRef)
    requires i < |ca| && NoUnits(ca)
    ensures NoUnits(Dropped(ca, i))
  {
  }

  // Only the lists of propagated literals change: they are empty afterwards.
  ghost predicate ListsCut(was: Occs, now: Occs, done: seq<Lit>) {
    forall l :: List(now, l) == if Unassigned(done, l) then List(was, l) else []
  }

  lemma CutBoth(was: Occs, occs: Occs, now: Occs, trail: seq<Lit>, from: nat, q: nat)
    requires from <= q < |trail| && ListsCut(was, occs, trail[from..q])
    requires now == occs[trail[q] := []][Neg(trail[q]) := []]
    ensures ListsCut(was, now, trail[from..q + 1])
  {
    var l := trail[q];
    assert trail[from..q + 1] == trail[from..q] + [l];
    forall k ensures List(now, k) == if Unassigned(trail[from..q + 1], k) then List(was, k) else [] {
      assert Unassigned(trail[from..q + 1], k) <==> Unassigned(trail[from..q], k) && k != l && k != Neg(l);
      assert List(now, k) == if k == l || k == Neg(l) then [] else List(occs, k);
    }
  }

  method DropSatisfiedClause(data: CoprocessorData, cr: CRef, l: Lit, ghost s: Start)
    requires Busy(data, s) && OccsOk(data.ca, data.occs) && l in data.trail
    requires InList(data.occs, l, cr)
    modifies data`ca
    ensures Busy(data, s) && OccsOk(data.ca, data.occs)
    ensures cr < |data.ca| == |old(data.ca)| && data.ca[cr].deleted
    ensures forall i :: 0 <= i < |data.ca| && old(data.ca)[i].deleted ==> data.ca[i].deleted
    ensures NoUnits(old(data.ca)) ==> NoUnits(data.ca)
  {
    if !data.ca[cr].deleted {
      DropSatisfied(data.ca, cr, data.trail, data.ok, l);
      FewerLive(data.ca, cr, data.ca[cr].(deleted := true));
      DeleteKeepsOccs(data.ca, cr, data.occs);
      assert SimplifiedBy(s.was[cr], data.ca[cr], data.trail, data.ok);
      SimplifiedSet(s.was, data.ca, data.trail, data.ok, cr, data.ca[cr].(deleted := true), data.trail, data.ok);
      data.ca := Dropped(data.ca, cr);
    }
  }

  // Satisfied clauses are dropped and their list is given up.
  method DropPositive(data: CoprocessorData, l: Lit, ghost s: Start)
    requires Busy(data, s) && OccsOk(data.ca, data.occs) && l in data.trail
    modifies data`ca, data`occs
    ensures Busy(data, s) && OccsOk(data.ca, data.occs) && NoLive(data.ca, l)
    ensures data.occs == old(data.occs)[l := []] && (NoUnits(old(data.ca)) ==> NoUnits(data.ca))
  {
    hide Busy, OccsOk, NoUnits;
    var positive := List(data.occs, l);
    var i := 0;
    while i < |positive|
      invariant 0 <= i <= |positive| && data.occs == old(data.occs)
      invariant Busy(data, s) && OccsOk(data.ca, data.occs) && (NoUnits(old(data.ca)) ==> NoUnits(data.ca))
      invariant forall k :: 0 <= k < i ==> positive[k] < |data.ca| && data.ca[positive[k]].deleted
    {
      assert InList(data.occs, l, positive[i]);
      DropSatisfiedClause(data, positive[i], l, s);
      i := i + 1;
    }
    ListDone(data.ca, data.occs, l);
    data.occs := data.occs[l := []];
  }

  // Once every clause of a list is deleted, the list can be emptied.
  lemma ListDone(ca: seq<Cls>, occs: Occs, l: Lit)
    requires OccsOk(ca, occs)
    requires forall k :: 0 <= k < |List(occs, l)| ==> List(occs, l)[k] < |ca| && ca[List(occs, l)[k]].deleted
    ensures NoLive(ca, l) && OccsOk(ca, occs[l := []])
  {
    assert forall i :: 0 <= i < |ca| && !ca[i].deleted ==> !InList(occs, l, i);
    var occs' := occs[l := []];
    assert forall k :: List(occs', k) == if k == l then [] else List(occs, k);
    forall i, k | 0 <= i < |ca| && !ca[i].deleted && k in ca[i].lits ensures InList(occs', k, i) {
      assert InList(occs, k, i);
    }
    forall k, i: CRef | InList(occs', k, i) ensures i < |ca| && (!ca[i].deleted ==> k in ca[i].lits) {
      assert InList(occs, k, i);
    }
  }

  // One clause of the list of nl is done: it no longer contains nl or is deleted.
  lemma PendingDone(ca: seq<Cls>, occs: Occs, nl: Lit, pending: seq<CRef>, c: Cls)
    requires pending != [] && OccsOk(ca, occs[nl := pending]) && pending[0] < |ca|
    requires c.deleted || (!ca[pending[0]].deleted && nl !in c.lits)
    requires forall k :: k in c.lits ==> k in ca[pending[0]].lits
    requires !c.deleted ==> forall k :: k in ca[pending[0]].lits ==> k in c.lits || k == nl
    ensures OccsOk(ca[pending[0] := c], occs[nl := pending[1..]])
  {
    var was, now := occs[nl := pending], occs[nl := pending[1..]];
    var cb := ca[pending[0] := c];
    assert forall k :: List(was, k) == if k == nl then pending else List(occs, k);
    assert forall k :: List(now, k) == if k == nl then pending[1..] else List(occs, k);
    assert forall x :: x in pending ==> x == pending[0] || x in pending[1..];
    assert pending[0] !in pending[1..] by { assert NoDup(List(was, nl)); }
    forall i, k | 0 <= i < |cb| && !cb[i].deleted && k in cb[i].lits ensures InList(now, k, i) {
      assert k in ca[i].lits && InList(was, k, i);
    }
    forall k, i: CRef | InList(now, k, i) ensures i < |cb| && (!cb[i].deleted ==> k in cb[i].lits) {
      assert InList(was, k, i);
    }
    forall k ensures NoDup(List(now, k)) {
      assert NoDup(List(was, k));
    }
  }

  lemma PendingHead(ca: seq<Cls>, occs: Occs, nl: Lit, pending: seq<CRef>)
    requires pending != [] && OccsOk(ca, occs[nl := pending])
    ensures pending[0] < |ca|
  {
    assert InList(occs[nl := pending], nl, pending[0]);
  }

  lemma ShrinkKeeps(ca: seq<Cls>, i: CRef, c: Cls, done: seq<Lit>, l: Lit)
    requires i < |ca| && (forall k :: k in c.lits ==> k in ca[i].lits) && (!c.deleted ==> !ca[i].deleted)
    ensures Propagated(ca, done) ==> Propagated(ca[i := c], done)
    ensures NoLive(ca, l) ==> NoLive(ca[i := c], l)
    ensures ClausesOk(ca) && Proper(c.lits) ==> ClausesOk(ca[i := c])
  {
  }

  // Removes the false literal nl from one clause. An empty clause ends the propagation,
  // a unit clause moves to the trail.
  method StripClause(data: CoprocessorData, nl: Lit, l: Lit, pending: seq<CRef>, ghost s: Start)
    returns (empty: bool)
    requires Busy(data, s) && Neg(nl) in data.trail && NoLive(data.ca, l)
    requires pending != [] && OccsOk(data.ca, data.occs[nl := pending])
    modifies data`ca, data`trail, data`ok
    ensures Busy(data, s) && old(data.trail) <= data.trail && NoLive(data.ca, l)
    ensures OccsOk(data.ca, data.occs[nl := pending[1..]])
    ensures (empty ==> !data.ok) && (NoUnits(old(data.ca)) ==> NoUnits(data.ca))
    ensures pending[0] < |old(data.ca)|
    ensures empty <==> !old(data.ca)[pending[0]].deleted && Without(old(data.ca)[pending[0]].lits, nl) == []
  {
    hide Busy, OccsOk, NoLive, NoUnits;
    var cr := pending[0];
    PendingHead(data.ca, data.occs, nl, pending);
    empty := false;
    if data.ca[cr].deleted {
      PendingDone(data.ca, data.occs, nl, pending, data.ca[cr]);
      assert data.ca[cr := data.ca[cr]] == data.ca;
      return;
    }
    if NoUnits(data.ca) { StripKeepsNoUnits(data.ca, cr, nl); }
    RemoveLiteral(data, cr, nl, l, pending, s);
    if |data.ca[cr].lits| == 0 {
      DropEmpty(data, cr, l, s);
      empty := true;
    } else if |data.ca[cr].lits| == 1 {
      DropUnit(data, cr, l, s);
    }
  }

  method RemoveLiteral(data: CoprocessorData, cr: CRef, nl: Lit, l: Lit, ghost pending: seq<CRef>, ghost s: Start)
    requires Busy(data, s) && Neg(nl) in data.trail && NoLive(data.ca, l)
    requires pending != [] && OccsOk(data.ca, data.occs[nl := pending])
    requires cr == pending[0] && cr < |data.ca| && !data.ca[cr].deleted
    modifies data`ca
    ensures Busy(data, s) && NoLive(data.ca, l)
    ensures OccsOk(data.ca, data.occs[nl := pending[1..]])
    ensures data.ca == Stripped(old(data.ca), cr, nl)
  {
    var c := data.ca[cr].(lits := Without(data.ca[cr].lits, nl));
    PendingDone(data.ca, data.occs, nl, pending, c);
    ShrinkKeeps(data.ca, cr, c, data.trail[..data.qhead], l);
    FewerLive(data.ca, cr, c);
    WithoutProper(data.ca[cr].lits, nl);
    StripFalse(data.ca, cr, data.trail, data.ok, nl);
    assert SimplifiedBy(s.was[cr], data.ca[cr], data.trail, data.ok);
    SimplifiedSet(s.was, data.ca, data.trail, data.ok, cr, c, data.trail, data.ok);
    data.ca := Stripped(data.ca, cr, nl);
  }

  method DropEmpty(data: CoprocessorData, cr: CRef, l: Lit, ghost s: Start)
    requires Busy(data, s) && NoLive(data.ca, l)
    requires cr < |data.ca| && !data.ca[cr].deleted && data.ca[cr].lits == []
    modifies data`ca, data`ok
    ensures Busy(data, s) && NoLive(data.ca, l) && !data.ok && data.ca == Dropped(old(data.ca), cr)
    ensures forall occs :: OccsOk(old(data.ca), occs) ==> OccsOk(data.ca, occs)
  {
    EmptyFails(data.ca, cr, data.trail, data.ok);
    var c := data.ca[cr].(deleted := true);
    ShrinkKeeps(data.ca, cr, c, data.trail[..data.qhead], l);
    FewerLive(data.ca, cr, c);
    assert SimplifiedBy(s.was[cr], data.ca[cr], data.trail, data.ok);
    SimplifiedSet(s.was, data.ca, data.trail, data.ok, cr, c, data.trail, false);
    forall occs | OccsOk(data.ca, occs) ensures OccsOk(Dropped(data.ca, cr), occs) {
      DeleteKeepsOccs(data.ca, cr, occs);
    }
    data.ca := Dropped(data.ca, cr);
    data.ok := false;
  }

  method DropUnit(data: CoprocessorData, cr: CRef, l: Lit, ghost s: Start)
    requires Busy(data, s) && NoLive(data.ca, l)
    requires cr < |data.ca| && !data.ca[cr].deleted && |data.ca[cr].lits| == 1
    modifies data`ca, data`ok, data`trail
    ensures Busy(data, s) && NoLive(data.ca, l) && old(data.trail) <= data.trail
    ensures data.ca == Dropped(old(data.ca), cr)
    ensures forall occs :: OccsOk(old(data.ca), occs) ==> OccsOk(data.ca, occs)
  {
    hide OccsOk, Equiv, FormulaOf, Propagated, ClausesOk, NoLive, LiveSet, Simplified, SimplifiedBy;
    var u := data.ca[cr].lits[0];
    assert data.ca[cr].lits == [u];
    MoveUnit(data.ca, cr, data.trail, data.ok, u);
    var c := data.ca[cr].(deleted := true);
    ClauseProper(data.ca, cr);
    ShrinkKeeps(data.ca, cr, c, data.trail[..data.qhead], l);
    FewerLive(data.ca, cr, c);
    DeleteKeepsAll(data.ca, cr);
    UnitSimplified(s.was, data.ca, cr, u, data.trail, data.ok);
    var trail, ok := data.trail, data.ok;
    if data.Value(u) == Undef {
      trail := trail + [u];
      assert trail[..data.qhead] == data.trail[..data.qhead];
    } else if data.Value(u) == False {
      ok := false;
    }
    EquivTrans(s.f, data.F(), FormulaOf(Dropped(data.ca, cr), trail, ok));
    data.ca := Dropped(data.ca, cr);
    data.trail, data.ok := trail, ok;
  }

  lemma EquivTrans(f: set<Clause>, g: set<Clause>, h: set<Clause>)
    requires Equiv(f, g) && Equiv(g, h)
    ensures Equiv(f, h)
  {
  }

  lemma ClauseProper(ca: seq<Cls>, i: CRef)
    requires ClausesOk(ca) && i < |ca|
    ensures Proper(ca[i].lits)
  {
  }

  lemma DeleteKeepsAll(ca: seq<Cls>, cr: CRef)
    requires cr < |ca|
    ensures forall occs :: OccsOk(ca, occs) ==> OccsOk(Dropped(ca, cr), occs)
  {
    forall occs | OccsOk(ca, occs) ensures OccsOk(Dropped(ca, cr), occs) {
      DeleteKeepsOccs(ca, cr, occs);
    }
  }

  // A unit clause may go once its literal is on the trail or the formula has failed.
  lemma UnitSimplified(was: seq<Cls>, ca: seq<Cls>, cr: CRef, u: Lit, trail: seq<Lit>, ok: bool)
    requires Simplified(was, ca, trail, ok) && cr < |ca| && !ca[cr].deleted && ca[cr].lits == [u]
    ensures Simplified(was, Dropped(ca, cr), trail + [u], ok) && Simplified(was, Dropped(ca, cr), trail, false)
    ensures u in trail ==> Simplified(was, Dropped(ca, cr), trail, ok)
  {
    hide Simplified;
    var c := ca[cr].(deleted := true);
    UnitBy(was, ca, cr, u, trail, ok);
    SimplifiedSet(was, ca, trail, ok, cr, c, trail + [u], ok);
    SimplifiedSet(was, ca, trail, ok, cr, c, trail, false);
    if u in trail { SimplifiedSet(was, ca, trail, ok, cr, c, trail, ok); }
  }

  lemma UnitBy(was: seq<Cls>, ca: seq<Cls>, cr: CRef, u: Lit, trail: seq<Lit>, ok: bool)
    requires Simplified(was, ca, trail, ok) && cr < |ca| && !ca[cr].deleted && ca[cr].lits == [u]
    ensures var c := ca[cr].(deleted := true);
      && |was| == |ca| && SimplifiedBy(was[cr], c, trail + [u], ok) && SimplifiedBy(was[cr], c, trail, false)
      && (u in trail ==> SimplifiedBy(was[cr], c, trail, ok))
  {
    assert u in trail + [u];
    assert SimplifiedBy(was[cr], ca[cr], trail, ok);
  }

  // The false literal nl is removed from every clause and its list is given up.
  method StripNegative(data: CoprocessorData, l: Lit, ghost s: Start) returns (empty: bool)
    requires Busy(data, s) && OccsOk(data.ca, data.occs) && l in data.trail && NoLive(data.ca, l)
    modifies data`ca, data`occs, data`trail, data`ok
    ensures Busy(data, s) && OccsOk(data.ca, data.occs) && old(data.trail) <= data.trail
    ensures NoLive(data.ca, l) && (empty ==> !data.ok) && (!empty ==> NoLive(data.ca, Neg(l)))
    ensures NoUnits(old(data.ca)) ==> NoUnits(data.ca)
    ensures !empty ==> data.occs == old(data.occs)[Neg(l) := []]
  {
    hide Busy, OccsOk, NoUnits;
    var nl := Neg(l);
    var negative := List(data.occs, nl);
    SameOccs(data.ca, data.occs, nl);
    var i := 0;
    empty := false;
    while i < |negative| && !empty
      invariant 0 <= i <= |negative| && data.occs == old(data.occs)
      invariant Busy(data, s) && OccsOk(data.ca, data.occs[nl := negative[i..]])
      invariant old(data.trail) <= data.trail && NoLive(data.ca, l) && (empty ==> !data.ok)
      invariant NoUnits(old(data.ca)) ==> NoUnits(data.ca)
    {
      assert negative[i..][1..] == negative[i + 1..];
      empty := StripClause(data, nl, l, negative[i..], s);
      i := i + 1;
    }
    data.occs := data.occs[nl := negative[i..]];
    if !empty { EmptyList(data.ca, data.occs, nl); }
  }

  lemma SameOccs(ca: seq<Cls>, occs: Occs, l: Lit)
    requires OccsOk(ca, occs)
    ensures OccsOk(ca, occs[l := List(occs, l)])
  {
    var now := occs[l := List(occs, l)];
    assert forall k :: List(now, k) == List(occs, k);
    assert forall k, i: CRef {:trigger InList(now, k, i)} {:trigger InList(occs, k, i)} :: InList(now, k, i) <==> InList(occs, k, i);
  }

  lemma EmptyList(ca: seq<Cls>, occs: Occs, l: Lit)
    requires OccsOk(ca, occs) && List(occs, l) == []
    ensures NoLive(ca, l)
  {
    assert forall i: CRef :: !InList(occs, l, i);
  }

  lemma OneMorePropagated(ca: seq<Cls>, trail: seq<Lit>, q: nat)
    requires q < |trail| && Propagated(ca, trail[..q]) && NoLive(ca, trail[q]) && NoLive(ca, Neg(trail[q]))
    ensures Propagated(ca, trail[..q + 1])
  {
    var l := trail[q];
    assert trail[..q + 1] == trail[..q] + [l];
    forall i, k | 0 <= i < |ca| && !ca[i].deleted && k in ca[i].lits ensures Unassigned(trail[..q + 1], k) {
      assert Unassigned(trail[..q], k);
      assert k != l && k != Neg(l);
    }
  }

  lemma SimplifiedRefl(ca: seq<Cls>, trail: seq<Lit>, ok: bool)
    ensures Simplified(ca, ca, trail, ok)
  {
  }

  // Nothing has been done to the database.
  ghost predicate Idle(data: CoprocessorData, ca: seq<Cls>, occs: Occs, trail: seq<Lit>)
    reads data`ca, data`occs, data`trail
  {
    data.ca == ca && data.occs == occs && data.trail == trail
  }

  // Propagates every literal of the trail. The formula keeps its models; clauses only
  // lose false literals, and a clause disappears only when the trail satisfies it.
  method Process(data: CoprocessorData) returns (status: LBool)
    requires data.Valid()
    modifies data`ca, data`occs, data`trail, data`ok, data`qhead
    ensures data.Valid() && old(data.trail) <= data.trail
    ensures Equiv(old(data.F()), data.F())
    ensures Simplified(old(data.ca), data.ca, data.trail, data.ok)
    ensures status == (if data.ok then Undef else False)
    ensures data.ok ==> !data.HasToPropagate()
    ensures data.ok ==> ListsCut(old(data.occs), data.occs, data.trail[old(data.qhead)..])
    ensures NoUnits(old(data.ca)) ==> NoUnits(data.ca)
    ensures Work(data.ca, data.trail) <= old(Work(data.ca, data.trail))
    ensures !old(data.HasToPropagate()) ==> Idle(data, old(data.ca), old(data.occs), old(data.trail)) && data.ok == old(data.ok)
  {
    if !data.ok {
      SimplifiedRefl(data.ca, data.trail, data.ok);
      return False;
    }
    ghost var s := Start(data.ca, data.F(), Work(data.ca, data.trail));
    SimplifiedRefl(data.ca, data.trail, data.ok);
    PropagateAll(data, s);
    status := if data.ok then Undef else False;
  }

  lemma NothingCut(occs: Occs)
    ensures ListsCut(occs, occs, [])
  {
  }

  // Propagates one literal of the trail.
  method PropagateOne(data: CoprocessorData, ghost s: Start, ghost was: Occs, ghost from: nat) returns (empty: bool)
    requires Busy(data, s) && OccsOk(data.ca, data.occs) && from <= data.qhead < |data.trail|
    requires ListsCut(was, data.occs, data.trail[from..data.qhead])
    modifies data`ca, data`occs, data`trail, data`ok, data`qhead
    ensures Busy(data, s) && OccsOk(data.ca, data.occs) && old(data.trail) <= data.trail
    ensures (empty ==> !data.ok) && data.qhead == old(data.qhead) + if empty then 0 else 1
    ensures data.qhead <= |data.trail|
    ensures !empty ==> ListsCut(was, data.occs, data.trail[from..data.qhead])
    ensures NoUnits(old(data.ca)) ==> NoUnits(data.ca)
  {
    hide OccsOk, NoUnits, ListsCut, Simplified, Equiv, ClausesOk, TrailOk, FormulaOf, Work, Propagated;
    var l := data.trail[data.qhead];
    ghost var occs, trail := data.occs, data.trail;
    DropPositive(data, l, s);
    empty := StripNegative(data, l, s);
    if empty { return; }
    assert trail[from..data.qhead] == data.trail[from..data.qhead];
    CutBoth(was, occs, data.occs, data.trail, from, data.qhead);
    OneMorePropagated(data.ca, data.trail, data.qhead);
    data.qhead := data.qhead + 1;
  }

  lemma BusyBound(data: CoprocessorData, s: Start)
    requires Busy(data, s)
    ensures data.qhead <= |data.trail| <= s.bound
  {
  }

  method PropagateAll(data: CoprocessorData, ghost s: Start)
    requires Busy(data, s) && OccsOk(data.ca, data.occs)
    modifies data`ca, data`occs, data`trail, data`ok, data`qhead
    ensures Busy(data, s) && OccsOk(data.ca, data.occs) && old(data.trail) <= data.trail
    ensures data.ok ==> data.qhead == |data.trail|
    ensures old(data.qhead) <= |data.trail|
    ensures data.ok ==> ListsCut(old(data.occs), data.occs, data.trail[old(data.qhead)..])
    ensures NoUnits(old(data.ca)) ==> NoUnits(data.ca)
    ensures !old(data.HasToPropagate()) ==> Idle(data, old(data.ca), old(data.occs), old(data.trail)) && data.ok == old(data.ok)
  {
    hide OccsOk, NoUnits, ListsCut, Busy;
    ghost var from := data.qhead;
    NothingCut(data.occs);
    BusyBound(data, s);
    assert data.trail[from..data.qhead] == [];
    while data.qhead < |data.trail|
      invariant Busy(data, s) && OccsOk(data.ca, data.occs) && old(data.trail) <= data.trail
      invariant from <= data.qhead <= |data.trail| <= s.bound
      invariant ListsCut(old(data.occs), data.occs, data.trail[from..data.qhead])
      invariant NoUnits(old(data.ca)) ==> NoUnits(data.ca)
      invariant !old(data.HasToPropagate()) ==> data.qhead == |data.trail|
      invariant !old(data.HasToPropagate()) ==> Idle(data, old(data.ca), old(data.occs), old(data.trail)) && data.ok == old(data.ok)
      decreases s.bound - data.qhead
    {
      var empty := PropagateOne(data, s, old(data.occs), from);
      BusyBound(data, s);
      if empty { return; }
    }
    assert data.trail[from..data.qhead] == data.trail[from..];
  }
}
