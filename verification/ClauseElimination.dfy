// Covered clause elimination: asymmetric and covered literals are added to a clause
// until it is a tautology, subsumed or blocked (coprocessor/techniques/ClauseElimination.cc).

module ClauseElimination {
  import opened Collections
  import opened Sat
  import opened Undo
  import opened Steps
  import opened Formula
  import opened BlockedClauses
  import Propagation
  import Resolvents
  import Rup = ReverseUnitPropagation

  // ---------- what the virtual clause means ----------

  // R is the formula without the clause C that is processed. cla is C with its covered
  // literals, marked adds the asymmetric ones, segs are the repairs so far.
  ghost predicate VirtualClause(R: set<Clause>, C: Clause, cla: Clause, marked: set<Lit>, segs: seq<Clause>) {
    && (forall m: Model {:trigger SatAll(m, R)} :: SatAll(m, R) && !SatClause(m, cla) ==> NoneHolds(m, marked))
    && (forall m: Model {:trigger SatAll(m, R)} :: SatAll(m, R) && SatClause(m, cla) ==> SatAll(Extend(segs, m), R + {C}))
  }

  ghost predicate NoneHolds(m: Model, marked: set<Lit>) {
    forall x :: x in marked ==> !Holds(m, x)
  }

  ghost predicate Consistent(marked: set<Lit>) {
    forall x :: x in marked ==> Neg(x) !in marked
  }

  // d resolved on a with the marked literals is a tautology.
  ghost predicate MarkedTautology(d: Clause, l: Lit, marked: set<Lit>) {
    exists x :: x in d && x != l && Neg(x) in marked
  }

  lemma StartVirtual(R: set<Clause>, C: Clause)
    ensures VirtualClause(R, C, C, Lits(C), [])
  {
    forall m: Model | SatAll(m, R) && !SatClause(m, C) ensures NoneHolds(m, Lits(C)) {}
    forall m: Model | SatAll(m, R) && SatClause(m, C) ensures SatAll(Extend([], m), R + {C}) {}
  }

  // Asymmetric literal addition: all literals of d but k are marked.
  lemma AddAsymmetric(R: set<Clause>, C: Clause, cla: Clause, marked: set<Lit>, segs: seq<Clause>, d: Clause, k: Lit)
    requires VirtualClause(R, C, cla, marked, segs) && d in R
    requires forall x :: x in d ==> x in marked || x == k
    ensures VirtualClause(R, C, cla, marked + {Neg(k)}, segs)
  {
    forall m: Model | SatAll(m, R) && !SatClause(m, cla) ensures NoneHolds(m, marked + {Neg(k)}) {
      assert NoneHolds(m, marked);
      assert SatClause(m, d);
      var x :| x in d && Holds(m, x);
    }
  }

  // A clause of marked literals subsumes the virtual clause.
  lemma Subsumed(R: set<Clause>, C: Clause, cla: Clause, marked: set<Lit>, segs: seq<Clause>, d: Clause)
    requires VirtualClause(R, C, cla, marked, segs) && d in R
    requires forall x :: x in d ==> x in marked
    ensures Step(R + {C}, R, segs)
  {
    forall m: Model | SatAll(m, R) ensures SatAll(Extend(segs, m), R + {C}) {
      assert SatClause(m, d);
      var x :| x in d && Holds(m, x);
      assert !NoneHolds(m, marked);
    }
    ForgetClause(R, C);
  }

  lemma ForgetClause(R: set<Clause>, C: Clause)
    ensures Satisfiable(R + {C}) ==> Satisfiable(R)
  {
    if Satisfiable(R + {C}) {
      var m: Model :| SatAll(m, R + {C});
      SatAllUnion(m, R, {C});
    }
  }

  // Flipping a in a model that falsifies the virtual clause: a clause with ~a is kept
  // true by a tautology with the marked literals or by a covered literal.
  lemma MarkedFlip(R: set<Clause>, marked: set<Lit>, a: Lit, added: set<Lit>, m: Model)
    requires SatAll(m, R) && NoneHolds(m, marked) && Consistent(marked) && a in marked
    requires forall d :: d in R && Neg(a) in d ==>
               MarkedTautology(d, Neg(a), marked) || (added != {} && forall l :: l in added ==> l in d)
    requires added != {} ==> exists l :: l in added && Holds(m, l)
    requires forall l :: l in added ==> l.v != a.v
    ensures SatAll(Assign(m, a), R)
  {
    forall d | d in R && Neg(a) in d ensures exists x :: x in d && x.v != a.v && Holds(m, x) {
      if MarkedTautology(d, Neg(a), marked) {
        var x :| x in d && x != Neg(a) && Neg(x) in marked;
        assert !Holds(m, Neg(x)) && x != a;
      }
    }
    FlipKeeps(R, m, a);
  }

  // Covered literal addition on a, which is itself an original or covered literal.
  lemma AddCovered(R: set<Clause>, C: Clause, cla: Clause, marked: set<Lit>, segs: seq<Clause>, a: Lit, added: seq<Lit>)
    requires VirtualClause(R, C, cla, marked, segs) && Consistent(marked) && a in cla && a in marked
    requires added != [] && forall l :: l in added ==> l !in marked && Neg(l) !in marked
    requires forall d :: d in R && Neg(a) in d ==>
               MarkedTautology(d, Neg(a), marked) || (forall l :: l in added ==> l in d)
    ensures VirtualClause(R, C, cla + added, marked + Lits(added), segs + [PivotFirst(cla, a)])
  {
    assert forall l :: l in added ==> l.v != a.v by {
      forall l | l in added ensures l.v != a.v { assert l != a && l != Neg(a); }
    }
    forall m: Model | SatAll(m, R) && !SatClause(m, cla + added)
      ensures NoneHolds(m, marked + Lits(added))
    {
      forall x | x in cla + added ensures !Holds(m, x) {}
      assert !SatClause(m, cla);
      assert NoneHolds(m, marked);
      forall x | x in added ensures !Holds(m, x) { assert x in cla + added; }
    }
    forall m: Model | SatAll(m, R) && SatClause(m, cla + added)
      ensures SatAll(Extend(segs + [PivotFirst(cla, a)], m), R + {C})
    {
      ExtendConcat(segs, [PivotFirst(cla, a)], m);
      RepairOne(cla, a, m);
      if !SatClause(m, cla) {
        assert NoneHolds(m, marked);
        var l :| l in cla + added && Holds(m, l);
        assert l !in cla;
        assert added[0] in Lits(added);
        MarkedFlip(R, marked, a, Lits(added), m);
        assert Holds(Assign(m, a), a);
      }
    }
  }

  // The virtual clause is blocked on a.
  lemma BlockedVirtual(R: set<Clause>, C: Clause, cla: Clause, marked: set<Lit>, segs: seq<Clause>, a: Lit)
    requires VirtualClause(R, C, cla, marked, segs) && Consistent(marked) && a in cla && a in marked
    requires forall d :: d in R && Neg(a) in d ==> MarkedTautology(d, Neg(a), marked)
    ensures Step(R + {C}, R, segs + [PivotFirst(cla, a)])
  {
    forall m: Model | SatAll(m, R) ensures SatAll(Extend(segs + [PivotFirst(cla, a)], m), R + {C}) {
      ExtendConcat(segs, [PivotFirst(cla, a)], m);
      RepairOne(cla, a, m);
      if !SatClause(m, cla) {
        assert NoneHolds(m, marked);
        MarkedFlip(R, marked, a, {}, m);
        assert Holds(Assign(m, a), a);
      }
    }
    ForgetClause(R, C);
  }

  // ---------- the work data ----------

  class WorkData {
    var cla: seq<Lit>          // the clause with its covered literals
    var marked: set<Lit>       // the mark array: covered and asymmetric literals
    var toProcess: seq<Lit>
    var toUndo: seq<Mark>
  }

  // All literals of live clauses and their complements: a bound on the mark array.
  ghost function Universe(ca: seq<Cls>): set<Lit> {
    LiveLiterals(ca) + set l | l in LiveLiterals(ca) :: Neg(l)
  }

  ghost function LiveLiterals(ca: seq<Cls>): (r: set<Lit>)
    ensures forall l :: l in r <==> InLive(ca, l)
  {
    set i, l | 0 <= i < |ca| && !ca[i].deleted && l in ca[i].lits :: l
  }

  // No live clause mentions a frozen variable.
  ghost predicate FrozenAbsent(ca: seq<Cls>, frozen: set<nat>) {
    forall l :: InLive(ca, l) ==> l.v !in frozen
  }

  // All frozen variables of live clauses are those of the clause itself.
  ghost predicate FrozenOnlyIn(ca: seq<Cls>, cr: CRef, frozen: set<nat>)
    requires cr < |ca|
  {
    forall l :: InLive(ca, l) && l.v in frozen ==> l in ca[cr].lits || Neg(l) in ca[cr].lits
  }

  // Why an asymmetric literal is marked: a clause with its complement and otherwise only
  // marked literals.
  ghost predicate Witness(ca: seq<Cls>, cr: CRef, marked: set<Lit>, a: Lit, i: CRef) {
    i < |ca| && i != cr && !ca[i].deleted && Neg(a) in ca[i].lits
    && forall x :: x in ca[i].lits && x != Neg(a) ==> x in marked
  }

  ghost predicate Witnessed(ca: seq<Cls>, cr: CRef, marked: set<Lit>, a: Lit) {
    exists i: CRef :: Witness(ca, cr, marked, a, i)
  }

  ghost predicate MarksOk(ca: seq<Cls>, trail: seq<Lit>, cr: CRef, cla: seq<Lit>, marked: set<Lit>)
    requires cr < |ca|
  {
    && Consistent(marked) && marked <= Universe(ca)
    && (forall l :: l in marked ==> Unassigned(trail, l))
    && (forall l :: l in ca[cr].lits ==> l in cla) && (forall l :: l in cla ==> l in marked)
    && (forall a :: a in marked && a !in cla ==> Witnessed(ca, cr, marked, a))
    && |cla| <= |marked|
  }

  // Only covered literals may have frozen variables: the literals of the clause and the
  // asymmetric ones are asked.
  ghost predicate CoveredOrFree(frozen: set<nat>, C: Clause, cla: seq<Lit>, l: Lit) {
    l.v in frozen ==> l in cla && l !in C
  }

  ghost predicate QueueOk(frozen: set<nat>, C: Clause, cla: seq<Lit>, marked: set<Lit>, toProcess: seq<Lit>) {
    |toProcess| <= |marked| && forall l :: l in toProcess ==> l in marked && CoveredOrFree(frozen, C, cla, l)
  }

  ghost predicate PivotsOk(frozen: set<nat>, C: Clause, cla: seq<Lit>, segs: seq<Clause>) {
    forall i :: 0 <= i < |segs| ==> segs[i] != [] && CoveredOrFree(frozen, C, cla, segs[i][0])
  }

  // Covered literal addition has found a literal of a frozen variable.
  ghost predicate FrozenCovered(frozen: set<nat>, C: Clause, cla: seq<Lit>) {
    exists l :: l in cla && l !in C && l.v in frozen
  }

  // Only in this case a repair can change a frozen variable.
  lemma FreeUnlessCovered(frozen: set<nat>, C: Clause, cla: seq<Lit>, segs: seq<Clause>)
    requires PivotsOk(frozen, C, cla, segs)
    ensures !FrozenCovered(frozen, C, cla) ==> PivotsFree(frozen, segs)
  {
  }

  ghost predicate WorkOk(data: CoprocessorData, cr: CRef, w: WorkData)
    reads data, w
  {
    && Ready(data) && cr < |data.ca| && !data.ca[cr].deleted
    && MarksOk(data.ca, data.trail, cr, w.cla, w.marked)
    && QueueOk(data.frozen, data.ca[cr].lits, w.cla, w.marked, w.toProcess)
    && WellFormed(w.toUndo) && NoEmptySegment(w.toUndo)
    && PivotsOk(data.frozen, data.ca[cr].lits, w.cla, Segs(w.toUndo))
    && VirtualClause(Rest(data, cr), data.ca[cr].lits, w.cla, w.marked, Segs(w.toUndo))
  }

  // A live clause other than cr belongs to the rest.
  lemma InRest(data: CoprocessorData, cr: CRef, i: CRef)
    requires cr < |data.ca| && i < |data.ca| && i != cr && !data.ca[i].deleted
    ensures data.ca[i].lits in Rest(data, cr)
  {
    var rest := Propagation.Dropped(data.ca, cr);
    assert rest[i] == data.ca[i];
    assert rest[i].lits in Live(rest);
  }

  // ---------- asymmetric literal addition ----------

  datatype Ala = TooMany | Covers | Missing(lit: Lit)

  ghost predicate OnlyMissing(d: Clause, marked: set<Lit>, k: Lit) {
    && k in d && k !in marked && Neg(k) !in marked
    && forall x :: x in d ==> x in marked || x == k
  }

  // Two literals of d are not marked, or the complement of one is.
  ghost predicate Crowded(d: Clause, marked: set<Lit>) {
    || (exists x :: x in d && x !in marked && Neg(x) in marked)
    || (exists x, y :: x in d && y in d && x != y && x !in marked && y !in marked)
  }

  // Which literal of d is not marked: none, exactly one, or more (or a tautology).
  method FindAla(d: Clause, marked: set<Lit>) returns (r: Ala)
    requires NoDup(d)
    ensures r.Covers? <==> forall x :: x in d ==> x in marked
    ensures r.Missing? ==> OnlyMissing(d, marked, r.lit)
    ensures r.TooMany? ==> Crowded(d, marked)
  {
    r := Covers;
    var k := 0;
    while k < |d|
      invariant 0 <= k <= |d|
      invariant r.Covers? <==> forall x :: x in d[..k] ==> x in marked
      invariant !r.TooMany?
      invariant r.Missing? ==> r.lit in d && OnlyMissing(d[..k], marked, r.lit)
    {
      assert d[..k + 1] == d[..k] + [d[k]];
      assert d[k] in d[..k + 1];
      if d[k] in marked {
      } else if Neg(d[k]) in marked {
        assert d[k] in d;
        return TooMany;
      } else if r.Missing? {
        assert d[k] in d && d[k] !in d[..k];
        return TooMany;
      } else {
        r := Missing(d[k]);
      }
      k := k + 1;
    }
    assert d[..k] == d;
  }

  // Another live clause has only marked literals.
  ghost predicate SubsumedBy(ca: seq<Cls>, cr: CRef, marked: set<Lit>, i: CRef) {
    i < |ca| && i != cr && !ca[i].deleted && forall x :: x in ca[i].lits ==> x in marked
  }

  ghost predicate SubsumedNow(ca: seq<Cls>, cr: CRef, marked: set<Lit>) {
    exists i: CRef :: SubsumedBy(ca, cr, marked, i)
  }

  lemma SubsumedLater(ca: seq<Cls>, cr: CRef, marked: set<Lit>, more: set<Lit>)
    requires SubsumedNow(ca, cr, marked) && marked <= more
    ensures SubsumedNow(ca, cr, more)
  {
    var i: CRef :| SubsumedBy(ca, cr, marked, i);
    assert SubsumedBy(ca, cr, more, i);
  }

  // The clause can be removed with the repairs segs.
  ghost predicate CanRemove(data: CoprocessorData, cr: CRef, segs: seq<Clause>)
    reads data
    requires cr < |data.ca|
  {
    Step(Rest(data, cr) + {data.ca[cr].lits}, Rest(data, cr), segs)
  }

  lemma SubsumedCanGo(data: CoprocessorData, cr: CRef, w: WorkData)
    requires WorkOk(data, cr, w) && SubsumedNow(data.ca, cr, w.marked)
    ensures CanRemove(data, cr, Segs(w.toUndo))
  {
    var i: CRef :| SubsumedBy(data.ca, cr, w.marked, i);
    InRest(data, cr, i);
    Subsumed(Rest(data, cr), data.ca[cr].lits, w.cla, w.marked, Segs(w.toUndo), data.ca[i].lits);
  }

  // What the comparison with clause d does. Clauses that are too large for the queue are
  // skipped; if one literal is missing, its complement is marked, and queued if it may change.
  ghost predicate AlaStep(d: Clause, frozen: set<nat>, marked: set<Lit>, queue: seq<Lit>,
                          marked': set<Lit>, queue': seq<Lit>, doRemove: bool) {
    && (doRemove <==> |d| <= |queue| + 1 && forall x :: x in d ==> x in marked)
    && (doRemove || |d| > |queue| + 1 || Crowded(d, marked) ==> marked' == marked && queue' == queue)
    && (|d| <= |queue| + 1 ==> forall k :: OnlyMissing(d, marked, k) ==>
          marked' == marked + {Neg(k)} && queue' == if k.v in frozen then queue else queue + [Neg(k)])
  }

  // Compares the marks with clause i; may add one mark or find that the clause can go.
  method AlaClause(data: CoprocessorData, cr: CRef, w: WorkData, i: CRef, ghost order0: seq<Lit>)
    returns (doRemove: bool, ghost order: seq<Lit>)
    requires WorkOk(data, cr, w) && i < |data.ca| && i != cr && !data.ca[i].deleted
    requires Enumerates(order0, w.marked)
    modifies w`marked, w`toProcess
    ensures WorkOk(data, cr, w) && old(w.marked) <= w.marked && old(w.toProcess) <= w.toProcess
    ensures doRemove ==> SubsumedNow(data.ca, cr, w.marked)
    ensures AlaStep(data.ca[i].lits, data.frozen, old(w.marked), old(w.toProcess), w.marked, w.toProcess, doRemove)
    ensures Enumerates(order, w.marked) && Derives(data.ca, cr, order0, order)
  {
    hide VirtualClause, MarksOk, QueueOk, PivotsOk, Step, Crowded, Segs, Enumerates, Derives;
    doRemove, order := false, order0;
    NothingDerived(data.ca, cr, order0);
    var d := data.ca[i].lits;
    if |d| > |w.toProcess| + 1 {
      TooLarge(d, w.marked, w.toProcess);
      return;
    }
    ProperNow(data, i);
    SortedNoDup(d);
    var r := FindAla(d, w.marked);
    OneCase(d, w.marked, if r.Missing? then r.lit else Lit(0, false));
    if r.Covers? {
      assert SubsumedBy(data.ca, cr, w.marked, i);
      doRemove := true;
    } else if r.Missing? {
      MissingDerived(data.ca, cr, order, w.marked, i, r.lit);
      AddMark(data, cr, w, i, r.lit);
      order := order + [Neg(r.lit)];
    }
  }

  // All marked, one missing, or crowded: the cases exclude each other.
  lemma OneCase(d: Clause, marked: set<Lit>, k: Lit)
    ensures (forall x :: x in d ==> x in marked) || OnlyMissing(d, marked, k) ==> !Crowded(d, marked)
    ensures (forall x :: x in d ==> x in marked) ==> forall y :: !OnlyMissing(d, marked, y)
    ensures Crowded(d, marked) ==> (forall y :: !OnlyMissing(d, marked, y)) && exists x :: x in d && x !in marked
    ensures OnlyMissing(d, marked, k) ==> forall y :: OnlyMissing(d, marked, y) <==> y == k
    ensures OnlyMissing(d, marked, k) ==> exists x :: x in d && x !in marked
  {
  }

  lemma TooLarge(d: Clause, marked: set<Lit>, queue: seq<Lit>)
    requires |d| > |queue| + 1
    ensures AlaStep(d, {}, marked, queue, marked, queue, false)
  {
  }

  lemma SortedNoDup(c: Clause)
    requires Sorted(c)
    ensures NoDup(c)
  {
    forall i, j | 0 <= i < j < |c| ensures c[i] != c[j] {
      assert Code(c[i]) < Code(c[j]);
    }
  }

  method AddMark(data: CoprocessorData, cr: CRef, w: WorkData, i: CRef, k: Lit)
    requires WorkOk(data, cr, w) && i < |data.ca| && i != cr && !data.ca[i].deleted
    requires OnlyMissing(data.ca[i].lits, w.marked, k)
    modifies w`marked, w`toProcess
    ensures WorkOk(data, cr, w) && w.marked == old(w.marked) + {Neg(k)}
    ensures w.toProcess == if k.v in data.frozen then old(w.toProcess) else old(w.toProcess) + [Neg(k)]
  {
    hide VirtualClause, MarksOk, Ready, PivotsOk, QueueOk, Segs;
    var alaLit := Neg(k);
    MarkAsymmetric(data, cr, w, i, k);
    OriginalMarked(data.ca, data.trail, cr, w.cla, w.marked);
    QueueOne(data.frozen, data.ca[cr].lits, w.cla, w.marked, w.toProcess, alaLit);
    w.marked := w.marked + {alaLit};
    if alaLit.v !in data.frozen { w.toProcess := w.toProcess + [alaLit]; }
  }

  lemma OriginalMarked(ca: seq<Cls>, trail: seq<Lit>, cr: CRef, cla: seq<Lit>, marked: set<Lit>)
    requires cr < |ca| && MarksOk(ca, trail, cr, cla, marked)
    ensures forall l :: l in ca[cr].lits ==> l in marked
  {
  }

  lemma QueueOne(frozen: set<nat>, C: Clause, cla: seq<Lit>, marked: set<Lit>, toProcess: seq<Lit>, l: Lit)
    requires QueueOk(frozen, C, cla, marked, toProcess) && l !in marked
    ensures QueueOk(frozen, C, cla, marked + {l}, toProcess)
    ensures l.v !in frozen ==> QueueOk(frozen, C, cla, marked + {l}, toProcess + [l])
  {
    assert |marked + {l}| == |marked| + 1;
  }

  lemma MarkAsymmetric(data: CoprocessorData, cr: CRef, w: WorkData, i: CRef, k: Lit)
    requires WorkOk(data, cr, w) && i < |data.ca| && i != cr && !data.ca[i].deleted
    requires OnlyMissing(data.ca[i].lits, w.marked, k)
    ensures MarksOk(data.ca, data.trail, cr, w.cla, w.marked + {Neg(k)})
    ensures VirtualClause(Rest(data, cr), data.ca[cr].lits, w.cla, w.marked + {Neg(k)}, Segs(w.toUndo))
  {
    InRest(data, cr, i);
    AddAsymmetric(Rest(data, cr), data.ca[cr].lits, w.cla, w.marked, Segs(w.toUndo), data.ca[i].lits, k);
    MarkOneMore(data.ca, data.trail, cr, w.cla, w.marked, i, k, data.qhead);
  }

  lemma MarkOneMore(ca: seq<Cls>, trail: seq<Lit>, cr: CRef, cla: seq<Lit>, marked: set<Lit>, i: CRef, k: Lit, qhead: nat)
    requires cr < |ca| && MarksOk(ca, trail, cr, cla, marked)
    requires i < |ca| && i != cr && !ca[i].deleted && qhead == |trail| && Propagated(ca, trail[..qhead])
    requires OnlyMissing(ca[i].lits, marked, k)
    ensures MarksOk(ca, trail, cr, cla, marked + {Neg(k)})
  {
    var more := marked + {Neg(k)};
    assert trail[..qhead] == trail;
    assert Unassigned(trail, k);
    assert Neg(k) in Universe(ca);
    forall a | a in more && a !in cla ensures Witnessed(ca, cr, more, a) {
      if a == Neg(k) {
        assert Witness(ca, cr, more, a, i);
      } else {
        var j: CRef :| Witness(ca, cr, marked, a, j);
        assert Witness(ca, cr, more, a, j);
      }
    }
  }

  // No clause listed under l, of at most the given size, is part of C.
  ghost predicate NoSubset(ca: seq<Cls>, occs: Occs, cr: CRef, C: Clause, size: nat, l: Lit, n: nat)
    requires n <= |List(occs, l)|
  {
    forall j :: 0 <= j < n ==> var i := List(occs, l)[j];
      i < |ca| && (i != cr && !ca[i].deleted && |ca[i].lits| <= size + 1 ==> exists x :: x in ca[i].lits && x !in C)
  }

  // No clause can contribute an asymmetric literal.
  ghost predicate AllCrowded(ca: seq<Cls>, cr: CRef, marked: set<Lit>) {
    forall i :: 0 <= i < |ca| && i != cr && !ca[i].deleted ==> Crowded(ca[i].lits, marked)
  }

  // ---------- asymmetric literal addition is unit propagation ----------

  // The other live clauses.
  ghost function Others(ca: seq<Cls>, cr: CRef): set<Rup.LitBag> {
    set i | 0 <= i < |ca| && i != cr && !ca[i].deleted :: multiset(ca[i].lits)
  }

  // Unit propagation on the other clauses finds a conflict if all given literals are false.
  ghost predicate Refuted(ca: seq<Cls>, cr: CRef, lits: seq<Lit>) {
    Rup.UnitConflict(Others(ca, cr), Rup.Complements(lits))
  }

  ghost predicate Enumerates(order: seq<Lit>, marked: set<Lit>) {
    forall l :: l in order <==> l in marked
  }

  // From base on, the complement of every literal is propagated.
  ghost predicate Derives(ca: seq<Cls>, cr: CRef, base: seq<Lit>, order: seq<Lit>) {
    base <= order && Rup.Derivation(Others(ca, cr), |base|, Rup.Complements(order))
  }

  lemma NothingDerived(ca: seq<Cls>, cr: CRef, order: seq<Lit>)
    ensures Derives(ca, cr, order, order)
  {
  }

  lemma DerivesMore(ca: seq<Cls>, cr: CRef, base: seq<Lit>, mid: seq<Lit>, order: seq<Lit>)
    requires Derives(ca, cr, base, mid) && Derives(ca, cr, mid, order)
    ensures Derives(ca, cr, base, order)
  {
    hide Rup.Forced;
    var t, u := Rup.Complements(mid), Rup.Complements(order);
    forall i | |base| <= i < |u| ensures Rup.Forced(Others(ca, cr), u[..i], u[i]) {
      if i < |mid| {
        assert mid == order[..|mid|];
        assert u[..i] == t[..i] && u[i] == t[i];
      }
    }
  }

  lemma NegNeg(l: Lit)
    ensures Neg(Neg(l)) == l
  {
  }

  lemma ComplementsIn(order: seq<Lit>, l: Lit)
    ensures l in order <==> Neg(l) in Rup.Complements(order)
  {
    var t := Rup.Complements(order);
    if l in order {
      var i :| 0 <= i < |order| && order[i] == l;
      assert t[i] == Neg(l);
    }
    if Neg(l) in t {
      var i :| 0 <= i < |t| && t[i] == Neg(l);
      NegNeg(order[i]);
      NegNeg(l);
    }
  }

  // A mark that is set because one literal is missing is a propagated unit.
  lemma MissingDerived(ca: seq<Cls>, cr: CRef, order: seq<Lit>, marked: set<Lit>, i: CRef, k: Lit)
    requires i < |ca| && i != cr && !ca[i].deleted && NoDup(ca[i].lits)
    requires Enumerates(order, marked) && OnlyMissing(ca[i].lits, marked, k)
    ensures Enumerates(order + [Neg(k)], marked + {Neg(k)}) && Derives(ca, cr, order, order + [Neg(k)])
  {
    var d, t := multiset(ca[i].lits), Rup.Complements(order);
    assert d in Others(ca, cr);
    NoDupOnce(ca[i].lits, k);
    forall x | x in d && x != k ensures Neg(x) in t { ComplementsIn(order, x); }
    assert Rup.Forces(d, t, k);
    NegNeg(k);
    assert Rup.Complements(order + [Neg(k)]) == t + [k];
    Rup.ExtendDerivation(Others(ca, cr), |order|, t, k);
  }

  lemma {:induction false} NoDupOnce(c: Clause, k: Lit)
    requires NoDup(c) && k in c
    ensures multiset(c)[k] == 1
  {
    assert c == [c[0]] + c[1..];
    if c[0] == k {
      assert k !in c[1..];
    } else {
      NoDupOnce(c[1..], k);
    }
  }

  lemma SubsumedRefutes(ca: seq<Cls>, cr: CRef, base: seq<Lit>, order: seq<Lit>, marked: set<Lit>)
    requires Derives(ca, cr, base, order) && Enumerates(order, marked) && SubsumedNow(ca, cr, marked)
    ensures Refuted(ca, cr, base)
  {
    hide Rup.Derivation;
    var i: CRef :| SubsumedBy(ca, cr, marked, i);
    var d, t := multiset(ca[i].lits), Rup.Complements(order);
    assert d in Others(ca, cr);
    forall x | x in d ensures Neg(x) in t { ComplementsIn(order, x); }
    assert Rup.Falsified(d, t) && Rup.SomeFalsified(Others(ca, cr), t);
    assert Rup.Complements(base) <= t;
  }

  // If no clause can contribute any more, unit propagation has no conflict.
  lemma CrowdedNotRefuted(ca: seq<Cls>, cr: CRef, base: seq<Lit>, order: seq<Lit>, marked: set<Lit>)
    requires base <= order && Enumerates(order, marked) && Consistent(marked) && AllCrowded(ca, cr, marked)
    ensures !Refuted(ca, cr, base)
  {
    var B, t := Others(ca, cr), Rup.Complements(order);
    forall x | x in t ensures Neg(x) !in t {
      NegNeg(x);
      ComplementsIn(order, Neg(x));
      ComplementsIn(order, x);
    }
    forall d | d in B ensures Rup.SomeTrue(d, t) || Rup.TwoFree(d, t) {
      var i :| 0 <= i < |ca| && i != cr && !ca[i].deleted && d == multiset(ca[i].lits);
      CrowdedIsOpen(ca[i].lits, order, marked);
    }
    forall x | x in Rup.Complements(base) ensures x in t {}
    Rup.ClosedNoConflict(B, Rup.Complements(base), t);
  }

  lemma CrowdedIsOpen(c: Clause, order: seq<Lit>, marked: set<Lit>)
    requires Enumerates(order, marked) && Crowded(c, marked)
    ensures Rup.SomeTrue(multiset(c), Rup.Complements(order)) || Rup.TwoFree(multiset(c), Rup.Complements(order))
  {
    var d, t := multiset(c), Rup.Complements(order);
    if x :| x in c && x !in marked && Neg(x) in marked {
      ComplementsIn(order, Neg(x));
      NegNeg(x);
      assert x in d && x in t;
    } else {
      var x, y :| x in c && y in c && x != y && x !in marked && y !in marked;
      ComplementsIn(order, x);
      ComplementsIn(order, y);
      assert x in d && y in d;
    }
  }

  // Every mark is queued.
  ghost predicate Queued(marked: set<Lit>, queue: seq<Lit>) {
    forall l :: l in marked ==> l in queue
  }

  // The clause cannot contribute, or the queue from position i on will come back to it.
  ghost predicate Settled(d: Clause, marked: set<Lit>, queue: seq<Lit>, i: nat) {
    Crowded(d, marked) || exists k :: i <= k < |queue| && queue[k] in d
  }

  lemma SettledLater(d: Clause, marked: set<Lit>, queue: seq<Lit>, i: nat, marked': set<Lit>, queue': seq<Lit>)
    requires Settled(d, marked, queue, i) && i <= |queue| && queue <= queue' && marked <= marked' && Consistent(marked')
    requires Queued(marked', queue') && forall l :: l in queue ==> l in marked
    ensures Settled(d, marked', queue', i)
  {
    assert forall j :: 0 <= j < |queue| ==> queue[j] in marked;
    if k :| i <= k < |queue| && queue[k] in d {
      assert queue'[k] in d;
    } else if x :| x in d && x !in marked && x in marked' {
      var k :| 0 <= k < |queue'| && queue'[k] == x;
    }
  }

  lemma ThreeCases(d: Clause, marked: set<Lit>)
    ensures (forall x :: x in d ==> x in marked) || Crowded(d, marked) || exists k :: OnlyMissing(d, marked, k)
  {
    if x :| x in d && x !in marked {
      if !Crowded(d, marked) { assert OnlyMissing(d, marked, x); }
    }
  }

  // One comparison settles the clause.
  lemma StepSettles(d: Clause, frozen: set<nat>, marked: set<Lit>, queue: seq<Lit>, marked': set<Lit>, queue': seq<Lit>)
    requires AlaStep(d, frozen, marked, queue, marked', queue', false) && NoDup(d)
    requires Queued(marked, queue)
    ensures Crowded(d, marked')
  {
    ThreeCases(d, marked);
    if |d| > |queue| + 1 {
      LargeCrowded(d, marked, queue);
    } else if k :| OnlyMissing(d, marked, k) {
      assert k in d && k != Neg(k) && k !in marked';
    }
  }

  // A clause with two literals more than the queue has two that are not marked.
  lemma LargeCrowded(d: Clause, marked: set<Lit>, queue: seq<Lit>)
    requires NoDup(d) && |d| > |queue| + 1 && Queued(marked, queue)
    ensures Crowded(d, marked)
  {
    NoDupCard(d);
    AtMost(queue);
    SubsetCard(marked, Lits(queue));
    if forall x :: x in d ==> x in marked {
      SubsetCard(Lits(d), marked);
    } else {
      var x :| x in d && x !in marked;
      if forall y :: y in d && y != x ==> y in marked {
        SubsetCard(Lits(d), marked + {x});
      }
    }
  }

  lemma {:induction false} AtMost(queue: seq<Lit>)
    ensures |Lits(queue)| <= |queue|
  {
    if queue != [] {
      AtMost(queue[1..]);
      assert queue == [queue[0]] + queue[1..];
      assert Lits(queue) == {queue[0]} + Lits(queue[1..]);
    }
  }

  lemma {:induction false} NoDupCard(d: Clause)
    requires NoDup(d)
    ensures |Lits(d)| == |d|
  {
    if d != [] {
      NoDupCard(d[1..]);
      assert d == [d[0]] + d[1..];
      assert Lits(d) == {d[0]} + Lits(d[1..]);
    }
  }

  // All other clauses with at least two literals are settled.
  ghost predicate AllSettled(ca: seq<Cls>, cr: CRef, marked: set<Lit>, queue: seq<Lit>, i: nat) {
    forall k :: 0 <= k < |ca| && k != cr && !ca[k].deleted ==> Settled(ca[k].lits, marked, queue, i)
  }

  // Those of the first n clauses that contain l.
  ghost predicate ListSettled(ca: seq<Cls>, list: seq<CRef>, cr: CRef, n: nat, marked: set<Lit>, queue: seq<Lit>, i: nat)
    requires ListOk(ca, list) && n <= |list|
  {
    forall j :: 0 <= j < n && list[j] != cr && !ca[list[j]].deleted ==> Settled(ca[list[j]].lits, marked, queue, i)
  }

  // All clauses that contain l. A clause of which only one literal was missing at the start
  // has contributed.
  method AlaLiteral(data: CoprocessorData, cr: CRef, w: WorkData, l: Lit, ghost size: nat, ghost order0: seq<Lit>)
    returns (doRemove: bool, ghost order: seq<Lit>)
    requires WorkOk(data, cr, w) && size <= |w.toProcess| && Enumerates(order0, w.marked)
    modifies w`marked, w`toProcess
    ensures WorkOk(data, cr, w) && old(w.toProcess) <= w.toProcess && old(w.marked) <= w.marked
    ensures doRemove ==> SubsumedNow(data.ca, cr, w.marked)
    ensures Enumerates(order, w.marked) && Derives(data.ca, cr, order0, order)
    ensures !doRemove ==> forall j, k :: 0 <= j < |List(data.occs, l)| ==>
      Contributed(data.ca, cr, List(data.occs, l)[j], size, old(w.marked), w.marked, k)
    ensures ListOk(data.ca, List(data.occs, l))
    ensures !doRemove && old(Queued(w.marked, w.toProcess)) && FrozenAbsent(data.ca, data.frozen) ==>
      Queued(w.marked, w.toProcess)
      && ListSettled(data.ca, List(data.occs, l), cr, |List(data.occs, l)|, w.marked, w.toProcess, |old(w.toProcess)|)
    ensures !doRemove ==> NoSubset(data.ca, data.occs, cr, data.ca[cr].lits, size, l, |List(data.occs, l)|)
    ensures AllCrowded(data.ca, cr, old(w.marked)) ==> !doRemove && w.marked == old(w.marked) && w.toProcess == old(w.toProcess)
  {
    hide *;
    var lList := List(data.occs, l);
    ghost var m0, q0 := w.marked, w.toProcess;
    doRemove, order := false, order0;
    NothingDerived(data.ca, cr, order0);
    ReadyWork(data, cr, w, l);
    NeedsLive(data, cr, w);
    var j := 0;
    LookStart(data.ca, data.occs, cr, l, size, m0, q0, data.frozen);
    while j < |lList|
      invariant 0 <= j <= |lList| && lList == List(data.occs, l) && WorkOk(data, cr, w) && q0 <= w.toProcess && m0 <= w.marked && !doRemove
      invariant Enumerates(order, w.marked) && Derives(data.ca, cr, order0, order)
      invariant Looked(data.ca, data.occs, cr, l, size, j, m0, q0, data.frozen, w.marked, w.toProcess)
    {
      WorkSizes(data, cr, w, l, j);
      var i := lList[j];
      ghost var m, q := w.marked, w.toProcess;
      if i != cr && !data.ca[i].deleted {
        ghost var mid := order;
        doRemove, order := AlaClause(data, cr, w, i, mid);
        DerivesMore(data.ca, cr, order0, mid, order);
      }
      WorkSizes(data, cr, w, l, j);
      LookNext(data.ca, data.occs, cr, l, size, j, m0, q0, data.frozen, m, q, w.marked, w.toProcess, doRemove);
      if doRemove { return; }
      j := j + 1;
    }
    LookEnd(data.ca, data.occs, cr, l, size, m0, q0, data.frozen, w.marked, w.toProcess);
  }

  // What is known after the first n clauses that contain l.
  ghost predicate Looked(ca: seq<Cls>, occs: Occs, cr: CRef, l: Lit, size: nat, n: nat, m0: set<Lit>, q0: seq<Lit>,
                         frozen: set<nat>, m: set<Lit>, q: seq<Lit>)
  {
    && cr < |ca| && n <= |List(occs, l)| && ListOk(ca, List(occs, l)) && NoSubset(ca, occs, cr, ca[cr].lits, size, l, n)
    && (AllCrowded(ca, cr, m0) ==> m == m0 && q == q0)
    && (forall j, k :: 0 <= j < n ==> Contributed(ca, cr, List(occs, l)[j], size, m0, m, k))
    && (Queued(m0, q0) && FrozenAbsent(ca, frozen) ==> Queued(m, q) && ListSettled(ca, List(occs, l), cr, n, m, q, |q0|))
  }

  // If only k was missing in clause i, its complement is marked.
  ghost predicate Contributed(ca: seq<Cls>, cr: CRef, i: CRef, size: nat, m0: set<Lit>, m: set<Lit>, k: Lit) {
    i < |ca| && (i != cr && !ca[i].deleted && |ca[i].lits| <= size + 1 && OnlyMissing(ca[i].lits, m0, k) ==> Neg(k) in m)
  }

  lemma LookStart(ca: seq<Cls>, occs: Occs, cr: CRef, l: Lit, size: nat, m0: set<Lit>, q0: seq<Lit>, frozen: set<nat>)
    requires cr < |ca| && ListOk(ca, List(occs, l))
    ensures Looked(ca, occs, cr, l, size, 0, m0, q0, frozen, m0, q0)
  {
    hide Queued, FrozenAbsent, AllCrowded;
  }

  lemma LookEnd(ca: seq<Cls>, occs: Occs, cr: CRef, l: Lit, size: nat, m0: set<Lit>, q0: seq<Lit>, frozen: set<nat>, m: set<Lit>, q: seq<Lit>)
    requires Looked(ca, occs, cr, l, size, |List(occs, l)|, m0, q0, frozen, m, q)
    ensures ListOk(ca, List(occs, l)) && cr < |ca| && NoSubset(ca, occs, cr, ca[cr].lits, size, l, |List(occs, l)|)
    ensures forall j, k :: 0 <= j < |List(occs, l)| ==> Contributed(ca, cr, List(occs, l)[j], size, m0, m, k)
    ensures Queued(m0, q0) && FrozenAbsent(ca, frozen) ==> Queued(m, q) && ListSettled(ca, List(occs, l), cr, |List(occs, l)|, m, q, |q0|)
    ensures AllCrowded(ca, cr, m0) ==> m == m0 && q == q0
  {
    hide NoSubset, ListSettled, AllCrowded, Queued, FrozenAbsent, Contributed;
  }

  lemma WorkSizes(data: CoprocessorData, cr: CRef, w: WorkData, l: Lit, j: nat)
    requires WorkOk(data, cr, w) && j < |List(data.occs, l)|
    ensures cr < |data.ca| && |w.toProcess| <= |w.marked| && Consistent(w.marked)
    ensures forall x :: x in data.ca[cr].lits ==> x in w.marked
    ensures forall x :: x in w.toProcess ==> x in w.marked
    ensures List(data.occs, l)[j] < |data.ca| && NoDup(data.ca[List(data.occs, l)[j]].lits)
  {
    hide VirtualClause, Universe, Witnessed, PivotsOk;
    ListEntry(data, l, j);
    ProperAt(data.ca, List(data.occs, l)[j]);
    SortedNoDup(data.ca[List(data.occs, l)[j]].lits);
  }

  lemma LookNext(ca: seq<Cls>, occs: Occs, cr: CRef, l: Lit, size: nat, n: nat, m0: set<Lit>, q0: seq<Lit>, frozen: set<nat>,
                 m: set<Lit>, q: seq<Lit>, m': set<Lit>, q': seq<Lit>, doRemove: bool)
    requires n < |List(occs, l)| && Looked(ca, occs, cr, l, size, n, m0, q0, frozen, m, q)
    requires List(occs, l)[n] < |ca| && NoDup(ca[List(occs, l)[n]].lits)
    requires m0 <= m && q0 <= q && m <= m' && q <= q' && size <= |q0| && Consistent(m')
    requires (forall x :: x in ca[cr].lits ==> x in m) && forall x :: x in q ==> x in m
    requires var i := List(occs, l)[n];
      if i != cr && !ca[i].deleted then AlaStep(ca[i].lits, frozen, m, q, m', q', doRemove) else m' == m && q' == q && !doRemove
    ensures !doRemove ==> Looked(ca, occs, cr, l, size, n + 1, m0, q0, frozen, m', q')
    ensures doRemove ==> !AllCrowded(ca, cr, m0)
  {
    if doRemove {
      NotAllCrowded(ca, cr, List(occs, l)[n], m);
    } else {
      var i := List(occs, l)[n];
      LookContributed(ca, cr, List(occs, l), size, n, m0, m, q, m', q', frozen);
      LookSubset(ca, occs, cr, l, size, n, m, q, m', q', frozen);
      if Queued(m0, q0) && FrozenAbsent(ca, frozen) {
        LookSettled(ca, List(occs, l), cr, n, m, q, |q0|, m', q', frozen);
      }
      LookCrowded(ca, cr, i, m0, q0, m, q, m', q', frozen);
      hide NoSubset, ListSettled, AllCrowded, Queued, FrozenAbsent, Contributed, AlaStep;
    }
  }

  lemma NotAllCrowded(ca: seq<Cls>, cr: CRef, i: CRef, m: set<Lit>)
    requires i < |ca| && i != cr && !ca[i].deleted && forall x :: x in ca[i].lits ==> x in m
    ensures !AllCrowded(ca, cr, m)
  {
  }

  // With all clauses crowded, nothing happens.
  lemma LookCrowded(ca: seq<Cls>, cr: CRef, i: CRef, m0: set<Lit>, q0: seq<Lit>, m: set<Lit>, q: seq<Lit>, m': set<Lit>, q': seq<Lit>, frozen: set<nat>)
    requires i < |ca| && (AllCrowded(ca, cr, m0) ==> m == m0 && q == q0)
    requires if i != cr && !ca[i].deleted then AlaStep(ca[i].lits, frozen, m, q, m', q', false) else m' == m && q' == q
    ensures AllCrowded(ca, cr, m0) ==> m' == m0 && q' == q0
  {
    hide Crowded, OnlyMissing;
  }

  lemma LookSubset(ca: seq<Cls>, occs: Occs, cr: CRef, l: Lit, size: nat, n: nat, m: set<Lit>, q: seq<Lit>, m': set<Lit>, q': seq<Lit>, frozen: set<nat>)
    requires cr < |ca| && n < |List(occs, l)| && NoSubset(ca, occs, cr, ca[cr].lits, size, l, n) && size <= |q|
    requires List(occs, l)[n] < |ca| && forall x :: x in ca[cr].lits ==> x in m
    requires var i := List(occs, l)[n]; i != cr && !ca[i].deleted ==> AlaStep(ca[i].lits, frozen, m, q, m', q', false)
    ensures NoSubset(ca, occs, cr, ca[cr].lits, size, l, n + 1)
  {
    hide Crowded, OnlyMissing;
    var i := List(occs, l)[n];
    if i != cr && !ca[i].deleted && |ca[i].lits| <= size + 1 {
      var x :| x in ca[i].lits && x !in m;
    }
  }

  lemma LookContributed(ca: seq<Cls>, cr: CRef, list: seq<CRef>, size: nat, n: nat, m0: set<Lit>, m: set<Lit>, q: seq<Lit>,
                        m': set<Lit>, q': seq<Lit>, frozen: set<nat>)
    requires n < |list| && (forall j, k :: 0 <= j < n ==> Contributed(ca, cr, list[j], size, m0, m, k))
    requires list[n] < |ca| && m0 <= m && m <= m' && size <= |q|
    requires list[n] != cr && !ca[list[n]].deleted ==> AlaStep(ca[list[n]].lits, frozen, m, q, m', q', false)
    ensures forall j, k :: 0 <= j < n + 1 ==> Contributed(ca, cr, list[j], size, m0, m', k)
  {
    forall j, k | 0 <= j < n + 1 ensures Contributed(ca, cr, list[j], size, m0, m', k) {
      if j < n {
        assert Contributed(ca, cr, list[j], size, m0, m, k);
      } else {
        NowContributed(ca[list[n]].lits, frozen, m0, m, q, m', q', k);
        hide AlaStep, OnlyMissing;
      }
    }
  }

  lemma NowContributed(d: Clause, frozen: set<nat>, m0: set<Lit>, m: set<Lit>, q: seq<Lit>, m': set<Lit>, q': seq<Lit>, k: Lit)
    requires m0 <= m && m <= m'
    ensures AlaStep(d, frozen, m, q, m', q', false) && |d| <= |q| + 1 && OnlyMissing(d, m0, k) ==> Neg(k) in m'
  {
    if AlaStep(d, frozen, m, q, m', q', false) && |d| <= |q| + 1 && OnlyMissing(d, m0, k) && Neg(k) !in m {
      assert k !in m;
      assert OnlyMissing(d, m, k);
    }
  }

  lemma LookSettled(ca: seq<Cls>, list: seq<CRef>, cr: CRef, n: nat, m: set<Lit>, q: seq<Lit>, i: nat, m': set<Lit>, q': seq<Lit>, frozen: set<nat>)
    requires ListOk(ca, list) && n < |list| && FrozenAbsent(ca, frozen) && NoDup(ca[list[n]].lits)
    requires Queued(m, q) && ListSettled(ca, list, cr, n, m, q, i) && i <= |q| && forall x :: x in q ==> x in m
    requires m <= m' && q <= q' && Consistent(m')
    requires if list[n] != cr && !ca[list[n]].deleted then AlaStep(ca[list[n]].lits, frozen, m, q, m', q', false) else m' == m && q' == q
    ensures Queued(m', q') && ListSettled(ca, list, cr, n + 1, m', q', i)
  {
    if list[n] != cr && !ca[list[n]].deleted {
      StepSettles(ca[list[n]].lits, frozen, m, q, m', q');
      StaysQueued(ca, list[n], frozen, m, q, m', q');
    }
    hide Crowded, AlaStep, Queued, FrozenAbsent;
    forall j | 0 <= j < n + 1 && list[j] != cr && !ca[list[j]].deleted ensures Settled(ca[list[j]].lits, m', q', i) {
      if j < n {
        SettledLater(ca[list[j]].lits, m, q, i, m', q');
      }
    }
  }

  lemma StaysQueued(ca: seq<Cls>, i: CRef, frozen: set<nat>, m: set<Lit>, q: seq<Lit>, m': set<Lit>, q': seq<Lit>)
    requires i < |ca| && !ca[i].deleted && FrozenAbsent(ca, frozen) && Queued(m, q)
    requires AlaStep(ca[i].lits, frozen, m, q, m', q', false)
    ensures Queued(m', q')
  {
    var d := ca[i].lits;
    ThreeCases(d, m);
    if k :| OnlyMissing(d, m, k) && |d| <= |q| + 1 {
      assert InLive(ca, k);
    }
  }

  ghost predicate NoSubsetUpTo(ca: seq<Cls>, occs: Occs, cr: CRef, C: Clause, size: nat, queue: seq<Lit>, n: nat)
    requires n <= |queue|
  {
    forall k :: 0 <= k < n ==> NoSubset(ca, occs, cr, C, size, queue[k], |List(occs, queue[k])|)
  }

  lemma MarkBound(data: CoprocessorData, cr: CRef, w: WorkData)
    requires WorkOk(data, cr, w)
    ensures |w.toProcess| <= |w.marked| <= |Universe(data.ca)| && |w.cla| <= |w.marked|
  {
    SubsetCard(w.marked, Universe(data.ca));
  }

  // Asymmetric literal addition for all literals in the queue, which may grow. It finds
  // what unit propagation finds: the clause goes only if the other clauses have a conflict
  // once all marked literals are false, and always then, if nothing is frozen.
  method AlaPass(data: CoprocessorData, cr: CRef, w: WorkData, ghost base: seq<Lit>) returns (doRemove: bool)
    requires WorkOk(data, cr, w) && Enumerates(base, w.marked)
    modifies w`marked, w`toProcess
    ensures WorkOk(data, cr, w) && old(w.toProcess) <= w.toProcess
    ensures doRemove ==> SubsumedNow(data.ca, cr, w.marked) && Refuted(data.ca, cr, base)
    ensures !doRemove && old(Queued(w.marked, w.toProcess)) && Complete(data.ca, data.frozen) ==>
      !Refuted(data.ca, cr, base) && AllCrowded(data.ca, cr, w.marked) && Queued(w.marked, w.toProcess)
    ensures !doRemove ==>
      NoSubsetUpTo(data.ca, data.occs, cr, data.ca[cr].lits, |old(w.toProcess)|, w.toProcess, |w.toProcess|)
    ensures AllCrowded(data.ca, cr, old(w.marked)) ==> !doRemove && w.marked == old(w.marked) && w.toProcess == old(w.toProcess)
  {
    hide WorkOk, SubsumedNow, Segs, NoSubset, NoSubsetUpTo, AllCrowded, Universe, Enumerates, Derives, Refuted, Queued, Complete;
    hide AllSettled, ListSettled, FrozenAbsent, OnlyMissing, Consistent;
    doRemove := false;
    var i := 0;
    ghost var order, full := base, Queued(w.marked, w.toProcess) && Complete(data.ca, data.frozen);
    NeedsLive(data, cr, w);
    MarkBound(data, cr, w);
    NoneTried(data.ca, data.occs, cr, data.ca[cr].lits, |w.toProcess|, w.toProcess);
    NothingDerived(data.ca, cr, base);
    if full { SettledStart(data, cr, w); }
    CompleteParts(data.ca, data.frozen);
    while i < |w.toProcess|
      invariant 0 <= i <= |w.toProcess| <= |Universe(data.ca)| && WorkOk(data, cr, w)
      invariant old(w.toProcess) <= w.toProcess && Enumerates(order, w.marked) && Derives(data.ca, cr, base, order)
      invariant full ==> Queued(w.marked, w.toProcess) && AllSettled(data.ca, cr, w.marked, w.toProcess, i)
      invariant NoSubsetUpTo(data.ca, data.occs, cr, data.ca[cr].lits, |old(w.toProcess)|, w.toProcess, i)
      invariant AllCrowded(data.ca, cr, old(w.marked)) ==> w.marked == old(w.marked) && w.toProcess == old(w.toProcess)
      decreases |Universe(data.ca)| - i
    {
      ghost var queue, marked, mid := w.toProcess, w.marked, order;
      WorkMarks(data, cr, w);
      doRemove, order := AlaLiteral(data, cr, w, w.toProcess[i], |old(w.toProcess)|, mid);
      DerivesMore(data.ca, cr, base, mid, order);
      if doRemove {
        SubsumedRefutes(data.ca, cr, base, order, w.marked);
        return;
      }
      WorkMarks(data, cr, w);
      if full { SettledNext(data.ca, data.occs, data.frozen, cr, i, marked, queue, w.marked, w.toProcess); }
      MarkBound(data, cr, w);
      OneMoreTried(data.ca, data.occs, cr, data.ca[cr].lits, |old(w.toProcess)|, queue, w.toProcess, i);
      i := i + 1;
    }
    WorkMarks(data, cr, w);
    if full {
      SettledEnd(data.ca, cr, w.marked, w.toProcess);
      DerivesFrom(data.ca, cr, base, order);
      CrowdedNotRefuted(data.ca, cr, base, order, w.marked);
    }
  }

  // The condition on the database: clauses have at least two literals, and no frozen one.
  ghost predicate Complete(ca: seq<Cls>, frozen: set<nat>) {
    Propagation.NoUnits(ca) && FrozenAbsent(ca, frozen)
  }

  lemma CompleteParts(ca: seq<Cls>, frozen: set<nat>)
    ensures Complete(ca, frozen) ==> FrozenAbsent(ca, frozen)
  {
  }

  lemma DerivesFrom(ca: seq<Cls>, cr: CRef, base: seq<Lit>, order: seq<Lit>)
    requires Derives(ca, cr, base, order)
    ensures base <= order
  {
  }

  lemma WorkMarks(data: CoprocessorData, cr: CRef, w: WorkData)
    requires WorkOk(data, cr, w)
    ensures cr < |data.ca| && Consistent(w.marked) && |w.toProcess| <= |w.marked|
    ensures ClausesOk(data.ca) && OccsOk(data.ca, data.occs) && forall l :: l in w.toProcess ==> l in w.marked
  {
    hide VirtualClause, Universe, Witnessed, PivotsOk;
  }

  // In the beginning, a clause without marked literals has two that are not marked.
  lemma SettledStart(data: CoprocessorData, cr: CRef, w: WorkData)
    requires WorkOk(data, cr, w) && Queued(w.marked, w.toProcess) && Complete(data.ca, data.frozen)
    ensures AllSettled(data.ca, cr, w.marked, w.toProcess, 0)
  {
    WorkMarks(data, cr, w);
    hide WorkOk;
    forall k | 0 <= k < |data.ca| && k != cr && !data.ca[k].deleted ensures Settled(data.ca[k].lits, w.marked, w.toProcess, 0) {
      var d := data.ca[k].lits;
      ProperAt(data.ca, k);
      SortedNoDup(d);
      if x :| x in d && x in w.marked {
        var j :| 0 <= j < |w.toProcess| && w.toProcess[j] == x;
      } else {
        assert d[0] in d && d[1] in d && d[0] != d[1];
      }
    }
  }

  // Those that contain the literal are settled by it, the others by later literals.
  lemma SettledNext(ca: seq<Cls>, occs: Occs, frozen: set<nat>, cr: CRef, i: nat, m: set<Lit>, q: seq<Lit>, m': set<Lit>, q': seq<Lit>)
    requires i < |q| && AllSettled(ca, cr, m, q, i) && OccsOk(ca, occs) && ListOk(ca, List(occs, q[i]))
    requires ListSettled(ca, List(occs, q[i]), cr, |List(occs, q[i])|, m', q', |q|)
    requires q <= q' && m <= m' && Consistent(m') && Queued(m', q') && forall l :: l in q ==> l in m
    ensures AllSettled(ca, cr, m', q', i + 1)
  {
    hide Queued, Crowded, Consistent;
    forall k | 0 <= k < |ca| && k != cr && !ca[k].deleted ensures Settled(ca[k].lits, m', q', i + 1) {
      if q[i] in ca[k].lits {
        assert InList(occs, q[i], k);
        var j :| 0 <= j < |List(occs, q[i])| && List(occs, q[i])[j] == k;
        assert Settled(ca[k].lits, m', q', |q|);
      } else {
        assert Settled(ca[k].lits, m, q, i);
        assert Settled(ca[k].lits, m, q, i + 1);
        SettledLater(ca[k].lits, m, q, i + 1, m', q');
      }
    }
  }

  lemma SettledEnd(ca: seq<Cls>, cr: CRef, m: set<Lit>, q: seq<Lit>)
    requires AllSettled(ca, cr, m, q, |q|)
    ensures AllCrowded(ca, cr, m)
  {
    hide Crowded;
    forall k | 0 <= k < |ca| && k != cr && !ca[k].deleted ensures Crowded(ca[k].lits, m) {
      assert Settled(ca[k].lits, m, q, |q|);
    }
  }

  lemma NoneTried(ca: seq<Cls>, occs: Occs, cr: CRef, C: Clause, size: nat, queue: seq<Lit>)
    ensures NoSubsetUpTo(ca, occs, cr, C, size, queue, 0)
  {
  }

  lemma OneMoreTried(ca: seq<Cls>, occs: Occs, cr: CRef, C: Clause, size: nat, queue: seq<Lit>, longer: seq<Lit>, i: nat)
    requires i < |queue| && queue <= longer && NoSubsetUpTo(ca, occs, cr, C, size, queue, i)
    requires NoSubset(ca, occs, cr, C, size, queue[i], |List(occs, queue[i])|)
    ensures NoSubsetUpTo(ca, occs, cr, C, size, longer, i + 1)
  {
    hide NoSubset;
    assert forall k :: 0 <= k <= i ==> longer[k] == queue[k];
  }

  lemma NeedsLive(data: CoprocessorData, cr: CRef, w: WorkData)
    requires WorkOk(data, cr, w)
    ensures cr < |data.ca|
  {
  }

  // ---------- covered literal addition ----------

  // The unmarked literals of d, apart from l.
  function UnmarkedOf(d: seq<Lit>, l: Lit, marked: set<Lit>): seq<Lit> {
    if d == [] then []
    else UnmarkedOf(d[..|d| - 1], l, marked) + if d[|d| - 1] != l && d[|d| - 1] !in marked then [d[|d| - 1]] else []
  }

  // Those of the literals that d contains, apart from l.
  function Filtered(lits: seq<Lit>, d: Clause, l: Lit): seq<Lit> {
    if lits == [] then []
    else Filtered(lits[..|lits| - 1], d, l) + if lits[|lits| - 1] in d && lits[|lits| - 1] != l then [lits[|lits| - 1]] else []
  }

  // Stops at a tautology.
  method FirstCovered(d: Clause, l: Lit, marked: set<Lit>) returns (taut: bool, unmarked: seq<Lit>)
    requires Proper(d)
    ensures taut <==> MarkedTautology(d, l, marked)
    ensures !taut ==> unmarked == UnmarkedOf(d, l, marked)
    ensures !taut ==> NoDup(unmarked) && forall x :: x in unmarked <==> x in d && x != l && x !in marked
  {
    taut, unmarked := false, [];
    var j := 0;
    while j < |d|
      invariant 0 <= j <= |d| && unmarked == UnmarkedOf(d[..j], l, marked)
      invariant forall x :: x in d[..j] && x != l ==> Neg(x) !in marked
    {
      assert d[..j + 1] == d[..j] + [d[j]];
      assert d[..j + 1][..j] == d[..j];
      if d[j] != l {
        if Neg(d[j]) in marked {
          assert d[j] in d;
          return true, [];
        } else if d[j] !in marked {
          unmarked := unmarked + [d[j]];
        }
      }
      j := j + 1;
    }
    assert d[..j] == d;
    SortedNoDup(d);
    UnmarkedFacts(d, l, marked);
  }

  lemma {:induction false} UnmarkedFacts(d: seq<Lit>, l: Lit, marked: set<Lit>)
    requires NoDup(d)
    ensures NoDup(UnmarkedOf(d, l, marked))
    ensures forall x :: x in UnmarkedOf(d, l, marked) <==> x in d && x != l && x !in marked
  {
    if d != [] {
      assert d == d[..|d| - 1] + [d[|d| - 1]];
      UnmarkedFacts(d[..|d| - 1], l, marked);
    }
  }

  // Keeps the literals that d contains, in their order.
  method Filter(lits: seq<Lit>, d: Clause, l: Lit) returns (r: seq<Lit>)
    requires NoDup(lits)
    ensures r == Filtered(lits, d, l)
    ensures NoDup(r) && forall x :: x in r <==> x in lits && x in d && x != l
  {
    var tagged := Lits(d) - {l};
    r := [];
    var j := 0;
    while j < |lits|
      invariant 0 <= j <= |lits| && r == Filtered(lits[..j], d, l)
    {
      assert lits[..j + 1][..j] == lits[..j];
      if lits[j] in tagged { r := r + [lits[j]]; }
      j := j + 1;
    }
    assert lits[..j] == lits;
    FilteredFacts(lits, d, l);
  }

  lemma {:induction false} FilteredFacts(lits: seq<Lit>, d: Clause, l: Lit)
    requires NoDup(lits)
    ensures NoDup(Filtered(lits, d, l)) && forall x :: x in Filtered(lits, d, l) <==> x in lits && x in d && x != l
  {
    if lits != [] {
      assert lits == lits[..|lits| - 1] + [lits[|lits| - 1]];
      FilteredFacts(lits[..|lits| - 1], d, l);
    }
  }

  // A clause of the list that counts: it is there and no tautology with the marks.
  ghost predicate Partner(ca: seq<Cls>, i: CRef, l: Lit, marked: set<Lit>) {
    i < |ca| && !ca[i].deleted && !MarkedTautology(ca[i].lits, l, marked)
  }

  // The literals that the first n clauses leave; none, if none of them counts.
  ghost function CoveredUpTo(ca: seq<Cls>, list: seq<CRef>, n: nat, l: Lit, marked: set<Lit>): Resolvents.Option<seq<Lit>>
    requires n <= |list|
  {
    if n == 0 then Resolvents.None
    else
      var before := CoveredUpTo(ca, list, n - 1, l, marked);
      if !Partner(ca, list[n - 1], l, marked) then before
      else if before.None? then Resolvents.Some(UnmarkedOf(ca[list[n - 1]].lits, l, marked))
      else Resolvents.Some(Filtered(before.value, ca[list[n - 1]].lits, l))
  }

  // The literals that covered literal addition finds for the complement of l.
  ghost function CoveredSeq(ca: seq<Cls>, list: seq<CRef>, l: Lit, marked: set<Lit>): seq<Lit> {
    var r := CoveredUpTo(ca, list, |list|, l, marked);
    if r.None? then [] else r.value
  }

  lemma {:induction false} UnmarkedIn(d: seq<Lit>, l: Lit, marked: set<Lit>, x: Lit)
    ensures x in UnmarkedOf(d, l, marked) <==> x in d && x != l && x !in marked
  {
    if d != [] {
      assert d == d[..|d| - 1] + [d[|d| - 1]];
      UnmarkedIn(d[..|d| - 1], l, marked, x);
    }
  }

  lemma {:induction false} FilteredIn(lits: seq<Lit>, d: Clause, l: Lit, x: Lit)
    ensures x in Filtered(lits, d, l) <==> x in lits && x in d && x != l
  {
    if lits != [] {
      assert lits == lits[..|lits| - 1] + [lits[|lits| - 1]];
      FilteredIn(lits[..|lits| - 1], d, l, x);
    }
  }

  lemma {:induction false} CoveredExactUpTo(ca: seq<Cls>, list: seq<CRef>, n: nat, l: Lit, marked: set<Lit>, x: Lit)
    requires n <= |list|
    ensures CoveredUpTo(ca, list, n, l, marked).None? <==> forall k :: 0 <= k < n ==> !Partner(ca, list[k], l, marked)
    ensures CoveredUpTo(ca, list, n, l, marked).Some? ==>
      (x in CoveredUpTo(ca, list, n, l, marked).value <==>
        x != l && x !in marked && forall k :: 0 <= k < n && Partner(ca, list[k], l, marked) ==> x in ca[list[k]].lits)
  {
    hide Partner;
    if n > 0 {
      CoveredExactUpTo(ca, list, n - 1, l, marked, x);
      PartnerAllocated(ca, list[n - 1], l, marked);
      if Partner(ca, list[n - 1], l, marked) {
        UnmarkedIn(ca[list[n - 1]].lits, l, marked, x);
        if CoveredUpTo(ca, list, n - 1, l, marked).Some? {
          FilteredIn(CoveredUpTo(ca, list, n - 1, l, marked).value, ca[list[n - 1]].lits, l, x);
        }
      }
    }
  }

  lemma PartnerAllocated(ca: seq<Cls>, i: CRef, l: Lit, marked: set<Lit>)
    ensures Partner(ca, i, l, marked) ==> i < |ca|
  {
  }

  // Exactly the new literals that all clauses share which count, if any counts.
  lemma CoveredExact(ca: seq<Cls>, list: seq<CRef>, l: Lit, marked: set<Lit>, x: Lit)
    ensures x in CoveredSeq(ca, list, l, marked) <==>
      && x != l && x !in marked
      && (exists k :: 0 <= k < |list| && Partner(ca, list[k], l, marked))
      && (forall k :: 0 <= k < |list| && Partner(ca, list[k], l, marked) ==> x in ca[list[k]].lits)
  {
    hide Partner;
    CoveredExactUpTo(ca, list, |list|, l, marked, x);
  }

  // Once nothing is left, nothing comes back.
  lemma {:induction false} NothingComesBack(ca: seq<Cls>, list: seq<CRef>, n: nat, m: nat, l: Lit, marked: set<Lit>)
    requires n <= m <= |list| && CoveredUpTo(ca, list, n, l, marked) == Resolvents.Some([])
    ensures CoveredUpTo(ca, list, m, l, marked) == Resolvents.Some([])
  {
    if n < m { NothingComesBack(ca, list, n, m - 1, l, marked); }
  }

  // Each of the first n live clauses is a marked tautology or contains all of added.
  ghost predicate Shared(ca: seq<Cls>, list: seq<CRef>, n: nat, l: Lit, marked: set<Lit>, added: seq<Lit>)
    requires ListOk(ca, list) && n <= |list|
  {
    forall j :: 0 <= j < n && !ca[list[j]].deleted ==>
      MarkedTautology(ca[list[j]].lits, l, marked) || (forall x :: x in added ==> x in ca[list[j]].lits)
  }

  // The literals are new: neither they nor their complements are marked.
  ghost predicate Fresh(ca: seq<Cls>, trail: seq<Lit>, l: Lit, marked: set<Lit>, added: seq<Lit>) {
    NoDup(added) && forall x :: x in added ==>
      && x != l && x !in marked && Neg(x) !in marked && Neg(x) !in added
      && Unassigned(trail, x) && x in Universe(ca)
  }

  lemma FreshFromClause(data: CoprocessorData, i: CRef, l: Lit, marked: set<Lit>, added: seq<Lit>)
    requires Ready(data) && i < |data.ca| && !data.ca[i].deleted && !MarkedTautology(data.ca[i].lits, l, marked)
    requires NoDup(added) && forall x :: x in added <==> x in data.ca[i].lits && x != l && x !in marked
    ensures Fresh(data.ca, data.trail, l, marked, added)
  {
    ProperAt(data.ca, i);
    forall x | x in added ensures Unassigned(data.trail, x) && x in Universe(data.ca) {
      LiteralUnassigned(data, i, x);
    }
  }

  lemma FreshSubset(ca: seq<Cls>, trail: seq<Lit>, l: Lit, marked: set<Lit>, added: seq<Lit>, fewer: seq<Lit>)
    requires Fresh(ca, trail, l, marked, added) && NoDup(fewer) && forall x :: x in fewer ==> x in added
    ensures Fresh(ca, trail, l, marked, fewer)
  {
  }

  // The literals that all clauses with l share once tautologies are left aside. The
  // first such clause fills the vector, the others shrink it.
  method FindCovered(data: CoprocessorData, l: Lit, marked: set<Lit>) returns (added: seq<Lit>)
    requires Ready(data) && ListOk(data.ca, List(data.occs, l))
    ensures Shared(data.ca, List(data.occs, l), |List(data.occs, l)|, l, marked, added)
    ensures Fresh(data.ca, data.trail, l, marked, added)
    ensures added == CoveredSeq(data.ca, List(data.occs, l), l, marked)
  {
    hide Fresh, Ready, MarkedTautology, ClausesOk, OccsOk, UnmarkedOf, Filtered, Shared, CoveredUpTo;
    var lList := List(data.occs, l);
    added := [];
    NothingFound(data.ca, lList, data.trail, l, marked);
    var firstClause := true;
    var j := 0;
    while j < |lList|
      invariant 0 <= j <= |lList| && Fresh(data.ca, data.trail, l, marked, added)
      invariant Shared(data.ca, lList, j, l, marked, added)
      invariant firstClause ==> added == []
      invariant CoveredUpTo(data.ca, lList, j, l, marked) == if firstClause then Resolvents.None else Resolvents.Some(added)
    {
      var d := data.ca[lList[j]];
      if !d.deleted {
        ProperNow(data, lList[j]);
        var taut, unmarked := FirstCovered(d.lits, l, marked);
        if !taut {
          if firstClause {
            FreshFromClause(data, lList[j], l, marked, unmarked);
            added := unmarked;
            firstClause := false;
            FirstTaken(data.ca, lList, j, l, marked, added);
          } else {
            ghost var before := added;
            FreshNoDup(data.ca, data.trail, l, marked, added);
            added := Filter(added, d.lits, l);
            FreshSubset(data.ca, data.trail, l, marked, before, added);
            NextTaken(data.ca, lList, j, l, marked, before, added);
          }
          if |added| == 0 {
            NothingComesBack(data.ca, lList, j + 1, |lList|, l, marked);
            NothingShared(data.ca, lList, l, marked);
            return;
          }
        }
      }
      Skipped(data.ca, lList, j, l, marked, added);
      j := j + 1;
    }
  }

  lemma NothingFound(ca: seq<Cls>, list: seq<CRef>, trail: seq<Lit>, l: Lit, marked: set<Lit>)
    requires ListOk(ca, list)
    ensures Fresh(ca, trail, l, marked, []) && Shared(ca, list, 0, l, marked, [])
    ensures CoveredUpTo(ca, list, 0, l, marked) == Resolvents.None
  {
  }

  lemma NothingShared(ca: seq<Cls>, list: seq<CRef>, l: Lit, marked: set<Lit>)
    requires ListOk(ca, list)
    ensures Shared(ca, list, |list|, l, marked, [])
  {
  }

  // A clause that is deleted or a tautology changes nothing.
  lemma Skipped(ca: seq<Cls>, list: seq<CRef>, j: nat, l: Lit, marked: set<Lit>, added: seq<Lit>)
    requires ListOk(ca, list) && j < |list|
    ensures !Partner(ca, list[j], l, marked) ==> CoveredUpTo(ca, list, j + 1, l, marked) == CoveredUpTo(ca, list, j, l, marked)
    ensures !Partner(ca, list[j], l, marked) && Shared(ca, list, j, l, marked, added) ==> Shared(ca, list, j + 1, l, marked, added)
  {
    hide MarkedTautology;
  }

  lemma FirstTaken(ca: seq<Cls>, list: seq<CRef>, j: nat, l: Lit, marked: set<Lit>, added: seq<Lit>)
    requires ListOk(ca, list) && j < |list| && Partner(ca, list[j], l, marked)
    requires CoveredUpTo(ca, list, j, l, marked).None? && added == UnmarkedOf(ca[list[j]].lits, l, marked)
    requires forall x :: x in added ==> x in ca[list[j]].lits
    ensures CoveredUpTo(ca, list, j + 1, l, marked) == Resolvents.Some(added)
    ensures Shared(ca, list, j + 1, l, marked, added)
  {
    hide MarkedTautology, UnmarkedOf;
    forall k | 0 <= k < j ensures !Partner(ca, list[k], l, marked) {
      CoveredExactUpTo(ca, list, j, l, marked, l);
    }
  }

  lemma NextTaken(ca: seq<Cls>, list: seq<CRef>, j: nat, l: Lit, marked: set<Lit>, before: seq<Lit>, added: seq<Lit>)
    requires ListOk(ca, list) && j < |list| && Partner(ca, list[j], l, marked)
    requires CoveredUpTo(ca, list, j, l, marked) == Resolvents.Some(before) && Shared(ca, list, j, l, marked, before)
    requires added == Filtered(before, ca[list[j]].lits, l)
    requires forall x :: x in added ==> x in before && x in ca[list[j]].lits
    ensures CoveredUpTo(ca, list, j + 1, l, marked) == Resolvents.Some(added)
    ensures Shared(ca, list, j + 1, l, marked, added)
  {
    hide MarkedTautology, Filtered;
  }

  lemma FreshNoDup(ca: seq<Cls>, trail: seq<Lit>, l: Lit, marked: set<Lit>, added: seq<Lit>)
    requires Fresh(ca, trail, l, marked, added)
    ensures NoDup(added)
  {
  }

  lemma ProperNow(data: CoprocessorData, i: CRef)
    requires Ready(data) && i < |data.ca|
    ensures Proper(data.ca[i].lits)
  {
  }

  // The clause that caused the mark of a has nothing unmarked to share.
  lemma WitnessBlocks(ca: seq<Cls>, cr: CRef, list: seq<CRef>, trail: seq<Lit>, marked: set<Lit>, a: Lit, i: CRef, added: seq<Lit>)
    requires Witness(ca, cr, marked, a, i) && i in list && Consistent(marked) && ListOk(ca, list)
    requires Shared(ca, list, |list|, Neg(a), marked, added) && Fresh(ca, trail, Neg(a), marked, added)
    ensures forall x :: x !in added
  {
    var j :| 0 <= j < |list| && list[j] == i;
    assert !MarkedTautology(ca[i].lits, Neg(a), marked);
    assert forall x :: x in added ==> x in ca[i].lits;
  }

  // A literal that was only marked as asymmetric never yields covered literals.
  lemma OnlyRealLiteralsCover(data: CoprocessorData, cr: CRef, cla: seq<Lit>, marked: set<Lit>, a: Lit, added: seq<Lit>)
    requires Ready(data) && cr < |data.ca| && MarksOk(data.ca, data.trail, cr, cla, marked)
    requires a in marked && ListOk(data.ca, List(data.occs, Neg(a)))
    requires Shared(data.ca, List(data.occs, Neg(a)), |List(data.occs, Neg(a))|, Neg(a), marked, added)
    requires Fresh(data.ca, data.trail, Neg(a), marked, added)
    ensures a !in cla ==> forall x :: x !in added
  {
    hide Shared, Fresh;
    if a !in cla {
      assert Witnessed(data.ca, cr, marked, a);
      var i: CRef :| Witness(data.ca, cr, marked, a, i);
      assert InList(data.occs, Neg(a), i);
      WitnessBlocks(data.ca, cr, List(data.occs, Neg(a)), data.trail, marked, a, i, added);
    }
  }

  // The repair clause is copied to the undo vector: the pivot, then the other literals.
  method CopyUndo(w: WorkData, a: Lit) returns (doRemove: bool)
    requires Consistent(w.marked) && (forall l :: l in w.cla ==> l in w.marked)
    requires WellFormed(w.toUndo) && NoEmptySegment(w.toUndo)
    modifies w`toUndo
    ensures WellFormed(w.toUndo) && NoEmptySegment(w.toUndo)
    ensures Segs(w.toUndo) == Segs(old(w.toUndo)) + [PivotFirst(w.cla, a)]
    ensures !doRemove
  {
    doRemove := false;
    ghost var before := w.toUndo;
    hide Marks, Without, Segs, WellFormed, NoEmptySegment;
    w.toUndo := w.toUndo + [Sep, Of(a)];
    CopyStart(before, w.cla, a);
    var k := 0;
    while k < |w.cla|
      invariant 0 <= k <= |w.cla| && !doRemove
      invariant w.toUndo == before + [Sep] + Marks([a] + Without(w.cla[..k], a))
    {
      CopyNext(before, w.cla, k, a);
      if a != w.cla[k] {
        w.toUndo := w.toUndo + [Of(w.cla[k])];
      }
      if Neg(w.cla[k]) in w.marked {
        assert false;    // the marks never contain complementary literals
        doRemove := true;
      }
      k := k + 1;
    }
    assert w.cla[..k] == w.cla;
    CopyDone(before, w.cla, a);
  }

  lemma CopyStart(before: seq<Mark>, cla: seq<Lit>, a: Lit)
    ensures before + [Sep, Of(a)] == before + [Sep] + Marks([a] + Without(cla[..0], a))
  {
  }

  lemma CopyNext(before: seq<Mark>, cla: seq<Lit>, k: nat, a: Lit)
    requires k < |cla|
    ensures before + [Sep] + Marks([a] + Without(cla[..k + 1], a))
         == before + [Sep] + Marks([a] + Without(cla[..k], a)) + if a == cla[k] then [] else [Of(cla[k])]
  {
    WithoutNext(cla, k, a);
    MarksAppend([a] + Without(cla[..k], a), if a == cla[k] then [] else [cla[k]]);
  }

  lemma MarksAppend(c: Clause, d: Clause)
    ensures Marks(c + d) == Marks(c) + Marks(d)
  {
  }

  lemma CopyDone(before: seq<Mark>, cla: seq<Lit>, a: Lit)
    requires WellFormed(before) && NoEmptySegment(before)
    ensures var u := before + [Sep] + Marks([a] + Without(cla, a));
      WellFormed(u) && NoEmptySegment(u) && Segs(u) == Segs(before) + [PivotFirst(cla, a)]
  {
    SegsAppend(before, PivotFirst(cla, a));
  }

  lemma {:induction false} WithoutNext(c: Clause, k: nat, p: Lit)
    requires k < |c|
    ensures Without(c[..k + 1], p) == Without(c[..k], p) + if c[k] == p then [] else [c[k]]
  {
    if k > 0 {
      WithoutNext(c[1..], k - 1, p);
      assert c[..k + 1][1..] == c[1..][..k] && c[..k][1..] == c[1..][..k - 1];
    }
  }

  // The covered literals join the clause, the marks and the queue.
  method PushCovered(w: WorkData, added: seq<Lit>)
    requires NoDup(added) && forall x :: x in added ==> x !in w.marked
    modifies w`cla, w`marked, w`toProcess
    ensures w.cla == old(w.cla) + added && w.toProcess == old(w.toProcess) + added
    ensures w.marked == old(w.marked) + Lits(added) && |w.marked| == |old(w.marked)| + |added|
  {
    ghost var cla, queue, marked := w.cla, w.toProcess, w.marked;
    var k := 0;
    while k < |added|
      invariant 0 <= k <= |added|
      invariant w.cla == cla + added[..k]
      invariant w.toProcess == queue + added[..k]
      invariant w.marked == marked + Lits(added[..k])
      invariant |w.marked| == |marked| + k
    {
      TakeOne(cla, queue, marked, added, k);
      w.cla := w.cla + [added[k]];
      w.toProcess := w.toProcess + [added[k]];
      w.marked := w.marked + {added[k]};
      k := k + 1;
    }
    assert added[..k] == added;
  }

  lemma TakeOne(cla: seq<Lit>, queue: seq<Lit>, marked: set<Lit>, added: seq<Lit>, k: nat)
    requires k < |added| && NoDup(added) && forall x :: x in added ==> x !in marked
    ensures cla + added[..k + 1] == cla + added[..k] + [added[k]]
    ensures queue + added[..k + 1] == queue + added[..k] + [added[k]]
    ensures marked + Lits(added[..k + 1]) == marked + Lits(added[..k]) + {added[k]}
    ensures added[k] !in marked + Lits(added[..k])
  {
    assert added[..k + 1] == added[..k] + [added[k]];
  }

  lemma CoveredMarks(ca: seq<Cls>, trail: seq<Lit>, cr: CRef, cla: seq<Lit>, marked: set<Lit>, l: Lit, added: seq<Lit>)
    requires cr < |ca| && MarksOk(ca, trail, cr, cla, marked) && Fresh(ca, trail, l, marked, added)
    requires |marked + Lits(added)| == |marked| + |added|
    ensures MarksOk(ca, trail, cr, cla + added, marked + Lits(added))
  {
    var more := marked + Lits(added);
    forall a | a in more && a !in cla + added ensures Witnessed(ca, cr, more, a) {
      assert a in marked && a !in cla;
      var j: CRef :| Witness(ca, cr, marked, a, j);
      assert Witness(ca, cr, more, a, j);
    }
    forall x | x in more ensures Neg(x) !in more {
      assert Neg(Neg(x)) == x;
    }
  }

  lemma CoveredQueue(frozen: set<nat>, C: Clause, cla: seq<Lit>, marked: set<Lit>, toProcess: seq<Lit>, added: seq<Lit>)
    requires QueueOk(frozen, C, cla, marked, toProcess) && (forall l :: l in C ==> l in marked)
    requires forall x :: x in added ==> x !in marked
    requires |marked + Lits(added)| == |marked| + |added|
    ensures QueueOk(frozen, C, cla + added, marked + Lits(added), toProcess + added)
  {
  }

  // The clause, the marks, the queue and the repairs.
  datatype Grown = Grown(cla: seq<Lit>, marked: set<Lit>, queue: seq<Lit>, segs: seq<Clause>)

  ghost function GrownOf(w: WorkData): Grown
    reads w
    requires WellFormed(w.toUndo)
  {
    Grown(w.cla, w.marked, w.toProcess, Segs(w.toUndo))
  }

  // The effect of covered literal addition for the literal at position i of the queue.
  ghost function ClaNext(ca: seq<Cls>, occs: Occs, g: Grown, i: nat): Grown
    requires i < |g.queue|
  {
    var a := g.queue[i];
    var added := CoveredSeq(ca, List(occs, Neg(a)), Neg(a), g.marked);
    if added == [] then g
    else Grown(g.cla + added, g.marked + Lits(added), g.queue + added, g.segs + [PivotFirst(g.cla, a)])
  }

  // The same for the first n positions.
  ghost function ClaRun(ca: seq<Cls>, occs: Occs, g: Grown, n: nat): Grown {
    if n == 0 then g
    else
      var h := ClaRun(ca, occs, g, n - 1);
      if n - 1 < |h.queue| then ClaNext(ca, occs, h, n - 1) else h
  }

  lemma CoveredMeaning(data: CoprocessorData, cr: CRef, w: WorkData, a: Lit, added: seq<Lit>)
    requires WorkOk(data, cr, w) && a in w.cla && added != [] && ListOk(data.ca, List(data.occs, Neg(a)))
    requires Shared(data.ca, List(data.occs, Neg(a)), |List(data.occs, Neg(a))|, Neg(a), w.marked, added)
    requires Fresh(data.ca, data.trail, Neg(a), w.marked, added)
    ensures VirtualClause(Rest(data, cr), data.ca[cr].lits, w.cla + added, w.marked + Lits(added),
              Segs(w.toUndo) + [PivotFirst(w.cla, a)])
  {
    hide VirtualClause, Rest, PivotsOk, QueueOk;
    forall d | d in Rest(data, cr) && Neg(a) in d
      ensures MarkedTautology(d, Neg(a), w.marked) || (forall l :: l in added ==> l in d)
    {
      PartnersListed(data, cr, a, d);
    }
    AddCovered(Rest(data, cr), data.ca[cr].lits, w.cla, w.marked, Segs(w.toUndo), a, added);
  }

  // One successful covered literal addition on the literal a of the queue.
  method AddCoveredLiterals(data: CoprocessorData, cr: CRef, w: WorkData, a: Lit, added: seq<Lit>) returns (doRemove: bool)
    requires WorkOk(data, cr, w) && a in w.toProcess && added != [] && ListOk(data.ca, List(data.occs, Neg(a)))
    requires Shared(data.ca, List(data.occs, Neg(a)), |List(data.occs, Neg(a))|, Neg(a), w.marked, added)
    requires Fresh(data.ca, data.trail, Neg(a), w.marked, added)
    modifies w
    ensures WorkOk(data, cr, w) && !doRemove && |w.cla| > |old(w.cla)| && old(w.toProcess) <= w.toProcess
    ensures old(w.marked) <= w.marked
    ensures GrownOf(w) == old(Grown(w.cla + added, w.marked + Lits(added), w.toProcess + added, Segs(w.toUndo) + [PivotFirst(w.cla, a)]))
  {
    hide *;
    OnlyRealOnes(data, cr, w, a, added);
    FreshNew(data.ca, data.trail, Neg(a), w.marked, added);
    CoveredMeaning(data, cr, w, a, added);
    ghost var cla, marked, queue, segs := w.cla, w.marked, w.toProcess, Segs(w.toUndo);
    doRemove := CopyUndo(w, a);
    PushCovered(w, added);
    CoveredMarks(data.ca, data.trail, cr, cla, marked, Neg(a), added);
    CoveredQueue(data.frozen, data.ca[cr].lits, cla, marked, queue, added);
    OnePivot(data.frozen, data.ca[cr].lits, cla, added, segs, PivotFirst(cla, a), a);
    StillWorks(data, cr, w);
    GrownIs(w);
  }

  lemma GrownIs(w: WorkData)
    requires WellFormed(w.toUndo)
    ensures GrownOf(w) == Grown(w.cla, w.marked, w.toProcess, Segs(w.toUndo))
  {
  }

  lemma OnlyRealOnes(data: CoprocessorData, cr: CRef, w: WorkData, a: Lit, added: seq<Lit>)
    requires WorkOk(data, cr, w) && a in w.toProcess && added != [] && ListOk(data.ca, List(data.occs, Neg(a)))
    requires Shared(data.ca, List(data.occs, Neg(a)), |List(data.occs, Neg(a))|, Neg(a), w.marked, added)
    requires Fresh(data.ca, data.trail, Neg(a), w.marked, added)
    ensures a in w.cla && CoveredOrFree(data.frozen, data.ca[cr].lits, w.cla, a)
    ensures cr < |data.ca| && Consistent(w.marked) && (forall l :: l in w.cla ==> l in w.marked)
    ensures WellFormed(w.toUndo) && NoEmptySegment(w.toUndo)
    ensures MarksOk(data.ca, data.trail, cr, w.cla, w.marked) && QueueOk(data.frozen, data.ca[cr].lits, w.cla, w.marked, w.toProcess)
    ensures PivotsOk(data.frozen, data.ca[cr].lits, w.cla, Segs(w.toUndo)) && Ready(data) && !data.ca[cr].deleted
    ensures forall l :: l in data.ca[cr].lits ==> l in w.marked
    ensures PivotFirst(w.cla, a) != [] && PivotFirst(w.cla, a)[0] == a
  {
    hide VirtualClause, PivotsOk, Shared, Universe, Segs, Fresh, Ready;
    assert added[0] in added;
    OnlyRealLiteralsCover(data, cr, w.cla, w.marked, a, added);
  }

  lemma FreshNew(ca: seq<Cls>, trail: seq<Lit>, l: Lit, marked: set<Lit>, added: seq<Lit>)
    requires Fresh(ca, trail, l, marked, added)
    ensures NoDup(added) && forall x :: x in added ==> x !in marked
  {
  }

  lemma StillWorks(data: CoprocessorData, cr: CRef, w: WorkData)
    requires Ready(data) && cr < |data.ca| && !data.ca[cr].deleted
    requires MarksOk(data.ca, data.trail, cr, w.cla, w.marked)
    requires QueueOk(data.frozen, data.ca[cr].lits, w.cla, w.marked, w.toProcess)
    requires WellFormed(w.toUndo) && NoEmptySegment(w.toUndo)
    requires PivotsOk(data.frozen, data.ca[cr].lits, w.cla, Segs(w.toUndo))
    requires VirtualClause(Rest(data, cr), data.ca[cr].lits, w.cla, w.marked, Segs(w.toUndo))
    ensures WorkOk(data, cr, w)
  {
  }

  lemma OnePivot(frozen: set<nat>, C: Clause, cla: seq<Lit>, added: seq<Lit>, segs: seq<Clause>, s: Clause, a: Lit)
    requires PivotsOk(frozen, C, cla, segs) && s != [] && s[0] == a && CoveredOrFree(frozen, C, cla, a)
    ensures PivotsOk(frozen, C, cla + added, segs + [s])
  {
    var now := segs + [s];
    forall i | 0 <= i < |now| ensures now[i] != [] && CoveredOrFree(frozen, C, cla + added, now[i][0]) {
      if i < |segs| { assert now[i] == segs[i] && CoveredOrFree(frozen, C, cla, segs[i][0]); }
    }
  }

  // Covered literal addition for the literals of the queue; if the clause is known to be
  // subsumed, only for the first one. Returns the size of the queue after the last
  // literal, or the given size if the loop was left before.
  method ClaPass(data: CoprocessorData, cr: CRef, w: WorkData, doRemove: bool, oldSize: int) returns (size: int)
    requires WorkOk(data, cr, w)
    modifies w
    ensures WorkOk(data, cr, w) && |w.cla| >= |old(w.cla)| && old(w.toProcess) <= w.toProcess
    ensures old(w.marked) <= w.marked && (old(Queued(w.marked, w.toProcess)) ==> Queued(w.marked, w.toProcess))
    ensures |w.cla| == |old(w.cla)| ==> w.marked == old(w.marked)
    ensures !doRemove && old(w.toProcess) != [] ==> size == |w.toProcess|
    ensures !doRemove ==> Passed(data.ca, data.occs, old(GrownOf(w)), GrownOf(w))
  {
    hide WorkOk, Shared, Fresh, Universe, CoveredSeq, Segs, PivotFirst, ClaRun, Queued, Lits;
    size := oldSize;
    var i := 0;
    WorkFormed(data, cr, w);
    ghost var g0 := GrownOf(w);
    ClaRunStart(data.ca, data.occs, g0);
    MarkBound(data, cr, w);
    while i < |w.toProcess|
      invariant 0 <= i <= |w.toProcess| <= |Universe(data.ca)| && WorkOk(data, cr, w)
      invariant old(w.toProcess) <= w.toProcess && |w.cla| >= |old(w.cla)| && old(w.marked) <= w.marked
      invariant old(Queued(w.marked, w.toProcess)) ==> Queued(w.marked, w.toProcess)
      invariant |w.cla| == |old(w.cla)| ==> w.marked == old(w.marked)
      invariant !doRemove || i == 0
      invariant i > 0 ==> size == |w.toProcess|
      invariant WellFormed(w.toUndo) && GrownOf(w) == ClaRun(data.ca, data.occs, g0, i)
      invariant forall k :: 0 <= k < i ==> k < |ClaRun(data.ca, data.occs, g0, k).queue|
      decreases |Universe(data.ca)| - i
    {
      ghost var g := GrownOf(w);
      ClaRunStep(data.ca, data.occs, g0, i);
      var a := w.toProcess[i];
      ReadyWork(data, cr, w, Neg(a));
      var added := FindCovered(data, Neg(a), w.marked);
      if |added| > 0 {
        QueuedToo(w.marked, w.toProcess, added);
        var taut := AddCoveredLiterals(data, cr, w, a, added);
      }
      WorkFormed(data, cr, w);
      MarkBound(data, cr, w);
      if doRemove { return; }
      size := |w.toProcess|;
      i := i + 1;
    }
    assert PassedIn(data.ca, data.occs, g0, GrownOf(w), i);
  }

  lemma QueuedToo(marked: set<Lit>, queue: seq<Lit>, added: seq<Lit>)
    ensures Queued(marked, queue) ==> Queued(marked + Lits(added), queue + added)
  {
  }

  // One pass, until every literal of the queue has been taken.
  ghost predicate Passed(ca: seq<Cls>, occs: Occs, g: Grown, h: Grown) {
    exists n: nat :: PassedIn(ca, occs, g, h, n)
  }

  ghost predicate PassedIn(ca: seq<Cls>, occs: Occs, g: Grown, h: Grown, n: nat) {
    h == ClaRun(ca, occs, g, n) && n == |h.queue| && forall k: nat :: k < n ==> k < |ClaRun(ca, occs, g, k).queue|
  }

  lemma WorkFormed(data: CoprocessorData, cr: CRef, w: WorkData)
    requires WorkOk(data, cr, w)
    ensures WellFormed(w.toUndo)
  {
  }

  lemma ClaRunStart(ca: seq<Cls>, occs: Occs, g: Grown)
    ensures ClaRun(ca, occs, g, 0) == g
  {
  }

  lemma ClaRunStep(ca: seq<Cls>, occs: Occs, g: Grown, i: nat)
    ensures ClaRun(ca, occs, g, i + 1) ==
      if i < |ClaRun(ca, occs, g, i).queue| then ClaNext(ca, occs, ClaRun(ca, occs, g, i), i) else ClaRun(ca, occs, g, i)
  {
  }

  lemma ReadyWork(data: CoprocessorData, cr: CRef, w: WorkData, l: Lit)
    requires WorkOk(data, cr, w)
    ensures Ready(data) && ListOk(data.ca, List(data.occs, l))
  {
    ListInRange(data, l);
  }

  // ---------- the final blocked clause test ----------

  // markedBCE for one clause.
  method MarkedBceClause(l: Lit, c: Clause, marked: set<Lit>) returns (r: bool)
    ensures r <==> MarkedTautology(c, l, marked)
  {
    var i := 0;
    while i < |c|
      invariant 0 <= i <= |c| && forall k :: 0 <= k < i ==> c[k] == l || Neg(c[k]) !in marked
    {
      if c[i] != l && Neg(c[i]) in marked {
        assert c[i] in c;
        return true;
      }
      i := i + 1;
    }
    r := false;
  }

  ghost predicate AllListed(ca: seq<Cls>, list: seq<CRef>, n: nat, l: Lit, marked: set<Lit>)
    requires n <= |list| && ListOk(ca, list)
  {
    forall j :: 0 <= j < n ==> MarkedTautology(ca[list[j]].lits, l, marked)
  }

  // markedBCE: is l a blocking literal of the marked literals? Deleted clauses that are
  // still listed count as well.
  method MarkedBce(data: CoprocessorData, l: Lit, marked: set<Lit>) returns (r: bool)
    requires ListOk(data.ca, List(data.occs, Neg(l)))
    ensures r <==> l.v !in data.frozen && AllListed(data.ca, List(data.occs, Neg(l)), |List(data.occs, Neg(l))|, Neg(l), marked)
  {
    hide MarkedTautology;
    var nl := Neg(l);
    if nl.v in data.frozen { return false; }
    var i := 0;
    while i < |List(data.occs, nl)|
      invariant 0 <= i <= |List(data.occs, nl)| && AllListed(data.ca, List(data.occs, nl), i, nl, marked)
    {
      r := MarkedBceClause(nl, data.ca[List(data.occs, nl)[i]].lits, marked);
      if !r { return; }
      i := i + 1;
    }
    r := true;
  }

  // Some original literal, whose variable may change, blocks the clause.
  ghost predicate OriginallyBlocked(data: CoprocessorData, C: Clause, a: Lit)
    reads data
  {
    && a in C && a.v !in data.frozen && ListOk(data.ca, List(data.occs, Neg(a)))
    && AllListed(data.ca, List(data.occs, Neg(a)), |List(data.occs, Neg(a))|, Neg(a), Lits(C))
  }

  lemma BlockedCanGo(data: CoprocessorData, cr: CRef, w: WorkData, a: Lit)
    requires WorkOk(data, cr, w) && a in w.cla && ListOk(data.ca, List(data.occs, Neg(a)))
    requires AllListed(data.ca, List(data.occs, Neg(a)), |List(data.occs, Neg(a))|, Neg(a), w.marked)
    ensures CanRemove(data, cr, Segs(w.toUndo) + [PivotFirst(w.cla, a)])
  {
    hide VirtualClause, Rest, PivotsOk, QueueOk;
    forall d | d in Rest(data, cr) && Neg(a) in d ensures MarkedTautology(d, Neg(a), w.marked) {
      PartnersListed(data, cr, a, d);
    }
    BlockedVirtual(Rest(data, cr), data.ca[cr].lits, w.cla, w.marked, Segs(w.toUndo), a);
  }

  lemma MoreTautologies(ca: seq<Cls>, list: seq<CRef>, l: Lit, marked: set<Lit>, more: set<Lit>)
    requires ListOk(ca, list) && AllListed(ca, list, |list|, l, marked) && marked <= more
    ensures AllListed(ca, list, |list|, l, more)
  {
    forall j | 0 <= j < |list| ensures MarkedTautology(ca[list[j]].lits, l, more) {
      assert MarkedTautology(ca[list[j]].lits, l, marked);
    }
  }

  // The virtual clause is blocked on the literal, whose variable may change.
  ghost predicate MarkedBlocked(data: CoprocessorData, marked: set<Lit>, a: Lit)
    reads data
  {
    && a.v !in data.frozen && ListOk(data.ca, List(data.occs, Neg(a)))
    && AllListed(data.ca, List(data.occs, Neg(a)), |List(data.occs, Neg(a))|, Neg(a), marked)
  }

  // Tries every literal of the covered clause as blocking literal.
  method FinalBce(data: CoprocessorData, cr: CRef, w: WorkData) returns (doRemove: bool)
    requires WorkOk(data, cr, w)
    modifies w`toUndo
    ensures WellFormed(w.toUndo) && NoEmptySegment(w.toUndo)
    ensures PivotsOk(data.frozen, data.ca[cr].lits, w.cla, Segs(w.toUndo))
    ensures doRemove ==> CanRemove(data, cr, Segs(w.toUndo))
    ensures !doRemove ==> forall a :: !OriginallyBlocked(data, data.ca[cr].lits, a)
    ensures doRemove <==> exists i :: 0 <= i < |w.cla| && MarkedBlocked(data, w.marked, w.cla[i])
    ensures Segs(old(w.toUndo)) <= Segs(w.toUndo)
  {
    hide WorkOk, VirtualClause, AllListed, Ready, Segs, MarkedBlocked, OriginallyBlocked, CanRemove, PivotsOk;
    var i := 0;
    WorkFacts(data, cr, w);
    doRemove := false;
    while i < |w.cla|
      invariant 0 <= i <= |w.cla| && WorkOk(data, cr, w) && w.toUndo == old(w.toUndo) && !doRemove
      invariant forall k :: 0 <= k < i ==> !OriginallyBlocked(data, data.ca[cr].lits, w.cla[k])
      invariant forall k :: 0 <= k < i ==> !MarkedBlocked(data, w.marked, w.cla[k])
    {
      doRemove := BlockedOn(data, cr, w, i);
      if doRemove { return; }
      i := i + 1;
    }
    forall a ensures !OriginallyBlocked(data, data.ca[cr].lits, a) {
      OnlyOriginals(data, data.ca[cr].lits, a);
      if a in data.ca[cr].lits { assert a in w.cla; }
    }
  }

  lemma OnlyOriginals(data: CoprocessorData, c: Clause, a: Lit)
    ensures OriginallyBlocked(data, c, a) ==> a in c
  {
  }

  lemma WorkFacts(data: CoprocessorData, cr: CRef, w: WorkData)
    requires WorkOk(data, cr, w)
    ensures cr < |data.ca| && WellFormed(w.toUndo) && NoEmptySegment(w.toUndo)
    ensures PivotsOk(data.frozen, data.ca[cr].lits, w.cla, Segs(w.toUndo))
    ensures forall l :: l in data.ca[cr].lits ==> l in w.cla
  {
  }

  // One literal of the covered clause is tried.
  method BlockedOn(data: CoprocessorData, cr: CRef, w: WorkData, i: nat) returns (doRemove: bool)
    requires WorkOk(data, cr, w) && i < |w.cla|
    modifies w`toUndo
    ensures WellFormed(w.toUndo) && NoEmptySegment(w.toUndo) && (!doRemove ==> w.toUndo == old(w.toUndo))
    ensures PivotsOk(data.frozen, data.ca[cr].lits, w.cla, Segs(w.toUndo))
    ensures doRemove ==> CanRemove(data, cr, Segs(w.toUndo))
    ensures !doRemove ==> WorkOk(data, cr, w) && !OriginallyBlocked(data, data.ca[cr].lits, w.cla[i])
    ensures doRemove <==> MarkedBlocked(data, w.marked, w.cla[i])
    ensures Segs(old(w.toUndo)) <= Segs(w.toUndo)
  {
    hide VirtualClause, AllListed, Ready, Segs, OriginallyBlocked, CanRemove;
    var a := w.cla[i];
    ReadyWork(data, cr, w, Neg(a));
    doRemove := MarkedBce(data, a, w.marked);
    if doRemove {
      BlockedCanGo(data, cr, w, a);
      OnePivot(data.frozen, data.ca[cr].lits, w.cla, [], Segs(w.toUndo), PivotFirst(w.cla, a), a);
      assert w.cla + [] == w.cla;
      var taut := CopyUndo(w, a);
    } else {
      NotBlocked(data, cr, w, a);
    }
  }

  lemma NotBlocked(data: CoprocessorData, cr: CRef, w: WorkData, a: Lit)
    requires WorkOk(data, cr, w) && ListOk(data.ca, List(data.occs, Neg(a)))
    requires a.v in data.frozen || !AllListed(data.ca, List(data.occs, Neg(a)), |List(data.occs, Neg(a))|, Neg(a), w.marked)
    ensures !OriginallyBlocked(data, data.ca[cr].lits, a)
  {
    if OriginallyBlocked(data, data.ca[cr].lits, a) {
      MoreTautologies(data.ca, List(data.occs, Neg(a)), Neg(a), Lits(data.ca[cr].lits), w.marked);
    }
  }

  // ---------- eliminate ----------

  // The literals that may be flipped.
  function FreeOf(c: seq<Lit>, frozen: set<nat>): seq<Lit> {
    if c == [] then [] else FreeOf(c[..|c| - 1], frozen) + if c[|c| - 1].v !in frozen then [c[|c| - 1]] else []
  }

  // Fills the work data with the literals of the clause; those that may be flipped are
  // queued.
  method LoadClause(c: Clause, frozen: set<nat>, w: WorkData)
    requires Proper(c)
    modifies w
    ensures w.toUndo == [] && w.cla == c && w.marked == Lits(c) && |w.marked| == |c| && |w.toProcess| <= |c|
    ensures w.toProcess == FreeOf(c, frozen) && forall l :: l in w.toProcess ==> l in c && l.v !in frozen
    ensures (forall l :: l in c ==> l.v !in frozen) ==> w.toProcess == c
  {
    hide FreeOf, Proper, Lits;
    w.cla, w.marked, w.toProcess, w.toUndo := [], {}, [], [];
    NoneFree(c, frozen);
    var i := 0;
    while i < |c|
      invariant 0 <= i <= |c| && w.toUndo == []
      invariant w.cla == c[..i] && w.marked == Lits(c[..i]) && |w.marked| == i && w.toProcess == FreeOf(c[..i], frozen)
    {
      MarksNext(c, i);
      FreeNext(c, i, frozen);
      assert c[..i + 1] == c[..i] + [c[i]];
      w.marked := w.marked + {c[i]};
      w.cla := w.cla + [c[i]];
      if c[i].v !in frozen { w.toProcess := w.toProcess + [c[i]]; }
      i := i + 1;
    }
    assert c[..i] == c;
    FreeFacts(c, frozen);
  }

  lemma NoneFree(c: Clause, frozen: set<nat>)
    ensures FreeOf(c[..0], frozen) == [] && Lits(c[..0]) == {}
  {
  }

  lemma MarksNext(c: Clause, i: nat)
    requires Proper(c) && i < |c|
    ensures Lits(c[..i + 1]) == Lits(c[..i]) + {c[i]} && c[i] !in Lits(c[..i])
  {
    SortedPrefix(c, i);
    assert c[..i + 1] == c[..i] + [c[i]];
  }

  lemma FreeNext(c: seq<Lit>, i: nat, frozen: set<nat>)
    requires i < |c|
    ensures FreeOf(c[..i + 1], frozen) == FreeOf(c[..i], frozen) + if c[i].v !in frozen then [c[i]] else []
  {
    assert c[..i + 1][..i] == c[..i];
  }

  lemma {:induction false} FreeFacts(c: seq<Lit>, frozen: set<nat>)
    ensures |FreeOf(c, frozen)| <= |c| && forall l :: l in FreeOf(c, frozen) ==> l in c && l.v !in frozen
    ensures (forall l :: l in c ==> l.v !in frozen) ==> FreeOf(c, frozen) == c
  {
    if c != [] {
      FreeFacts(c[..|c| - 1], frozen);
      assert c == c[..|c| - 1] + [c[|c| - 1]];
    }
  }

  // The work data of the untouched clause.
  method StartWork(data: CoprocessorData, cr: CRef, w: WorkData)
    requires Ready(data) && cr < |data.ca| && !data.ca[cr].deleted
    modifies w
    ensures WorkOk(data, cr, w) && w.toUndo == []
    ensures GrownOf(w) == StartOf(data.ca[cr].lits, data.frozen)
    ensures (forall l :: l in data.ca[cr].lits ==> l.v !in data.frozen) ==> w.toProcess == data.ca[cr].lits
  {
    hide Ready, VirtualClause, MarksOk, FreeOf;
    ProperNow(data, cr);
    LoadClause(data.ca[cr].lits, data.frozen, w);
    StartMarks(data, cr, w.marked);
    StartVirtual(Rest(data, cr), data.ca[cr].lits);
  }

  // What the work starts from.
  ghost function StartOf(C: Clause, frozen: set<nat>): Grown {
    Grown(C, Lits(C), FreeOf(C, frozen), [])
  }

  lemma StartMarks(data: CoprocessorData, cr: CRef, marked: set<Lit>)
    requires Ready(data) && cr < |data.ca| && !data.ca[cr].deleted
    requires marked == Lits(data.ca[cr].lits) && |data.ca[cr].lits| == |marked|
    ensures MarksOk(data.ca, data.trail, cr, data.ca[cr].lits, marked)
  {
    ProperAt(data.ca, cr);
    forall l | l in marked ensures Unassigned(data.trail, l) {
      LiteralUnassigned(data, cr, l);
    }
  }

  // The clause contains another live, non-empty clause.
  ghost predicate HasSubset(data: CoprocessorData, cr: CRef, i: CRef)
    reads data
    requires cr < |data.ca|
  {
    i < |data.ca| && i != cr && !data.ca[i].deleted && data.ca[i].lits != []
    && forall x :: x in data.ca[i].lits ==> x in data.ca[cr].lits
  }

  lemma SubsetFound(data: CoprocessorData, cr: CRef, i: CRef)
    requires Ready(data) && cr < |data.ca| && HasSubset(data, cr, i)
    ensures !NoSubsetUpTo(data.ca, data.occs, cr, data.ca[cr].lits, |data.ca[cr].lits|, data.ca[cr].lits, |data.ca[cr].lits|)
  {
    var c, d := data.ca[cr].lits, data.ca[i].lits;
    ProperAt(data.ca, cr);
    ProperAt(data.ca, i);
    Resolvents.SortedSize(c);
    Resolvents.SortedSize(d);
    SubsetCard(Lits(d), Lits(c));
    assert d[0] in d;
    var k :| 0 <= k < |c| && c[k] == d[0];
    assert InList(data.occs, c[k], i);
    var j :| 0 <= j < |List(data.occs, c[k])| && List(data.occs, c[k])[j] == i;
    assert !NoSubset(data.ca, data.occs, cr, c, |c|, c[k], |List(data.occs, c[k])|);
  }

  // A longer queue says at least as much.
  lemma ShorterQueue(data: CoprocessorData, cr: CRef, C: Clause, size: nat, queue: seq<Lit>, longer: seq<Lit>)
    requires queue <= longer && NoSubsetUpTo(data.ca, data.occs, cr, C, size, longer, |longer|)
    ensures NoSubsetUpTo(data.ca, data.occs, cr, C, size, queue, |queue|)
  {
    forall k | 0 <= k < |queue| ensures NoSubset(data.ca, data.occs, cr, C, size, queue[k], |List(data.occs, queue[k])|) {
      assert queue[k] == longer[k];
    }
  }

  // One round: asymmetric literal addition, and covered literal addition unless the queue is
  // as long as after the last round.
  method GrowRound(data: CoprocessorData, cr: CRef, w: WorkData, level: nat, oldSize: int, ghost base: seq<Lit>)
    returns (doRemove: bool, done: bool, size: int, ghost order: seq<Lit>)
    requires WorkOk(data, cr, w) && Enumerates(base, w.marked) && WellFormed(w.toUndo)
    modifies w
    ensures WorkOk(data, cr, w) && WellFormed(w.toUndo) && |w.cla| <= |Universe(data.ca)| && Enumerates(order, w.marked)
    ensures doRemove ==> done && SubsumedNow(data.ca, cr, w.marked) && Refuted(data.ca, cr, base)
    ensures level < 2 ==> done && w.toUndo == old(w.toUndo)
    ensures !doRemove ==>
      NoSubsetUpTo(data.ca, data.occs, cr, data.ca[cr].lits, |old(w.toProcess)|, old(w.toProcess), |old(w.toProcess)|)
    ensures !doRemove && old(Queued(w.marked, w.toProcess)) && Complete(data.ca, data.frozen) ==>
      !Refuted(data.ca, cr, base) && Queued(w.marked, w.toProcess) && (done ==> AllCrowded(data.ca, cr, w.marked))
    ensures |w.cla| >= |old(w.cla)| && (!done ==> |w.cla| > |old(w.cla)|)
    ensures AllCrowded(data.ca, cr, old(w.marked)) ==> Crossed(data, level, oldSize, old(GrownOf(w)), GrownOf(w), size, done, doRemove)
  {
    hide WorkOk, SubsumedNow, NoSubsetUpTo, Universe, AllCrowded, Passed, Segs, Queued, Complete, Refuted, Enumerates;
    ghost var queue := w.toProcess;
    size, done := oldSize, true;
    NeedsLive(data, cr, w);
    doRemove := AlaPass(data, cr, w, base);
    if !doRemove { ShorterQueue(data, cr, data.ca[cr].lits, |queue|, queue, w.toProcess); }
    ghost var marked := w.marked;
    if oldSize != |w.toProcess| && level >= 2 {
      var outerOldClaSize := |w.cla|;
      size := ClaPass(data, cr, w, doRemove, oldSize);
      if doRemove { SubsumedLater(data.ca, cr, marked, w.marked); }
      done := outerOldClaSize == |w.cla| || doRemove;
    }
    WorkFormed(data, cr, w);
    MarkBound(data, cr, w);
    AnyOrder(w.marked);
    order :| Enumerates(order, w.marked);
  }

  // The round when asymmetric literal addition has nothing to add: covered literal addition
  // goes through the whole queue once.
  ghost predicate Crossed(data: CoprocessorData, level: nat, oldSize: int, g0: Grown, g: Grown, size: int, done: bool, doRemove: bool)
    reads data
  {
    && !doRemove
    && if level < 2 || oldSize == |g0.queue| then done && g == g0 && size == oldSize else
         Passed(data.ca, data.occs, g0, g) && (g0.queue != [] ==> size == |g.queue|) && (done <==> |g.cla| == |g0.cla|)
  }

  // Alternates asymmetric and covered literal addition until nothing new is found or the
  // clause turns out to be subsumed.
  method GrowClause(data: CoprocessorData, cr: CRef, w: WorkData, level: nat) returns (doRemove: bool, ghost mid: Grown)
    requires WorkOk(data, cr, w) && Enumerates(data.ca[cr].lits, w.marked)
    modifies w
    ensures WorkOk(data, cr, w) && (doRemove ==> SubsumedNow(data.ca, cr, w.marked))
    ensures level < 2 && doRemove ==> Refuted(data.ca, cr, data.ca[cr].lits)
    ensures !doRemove && old(Queued(w.marked, w.toProcess)) && Complete(data.ca, data.frozen) ==>
      !Refuted(data.ca, cr, data.ca[cr].lits) && AllCrowded(data.ca, cr, w.marked)
    ensures level < 2 ==> w.toUndo == old(w.toUndo)
    ensures !doRemove ==>
      NoSubsetUpTo(data.ca, data.occs, cr, data.ca[cr].lits, |old(w.toProcess)|, old(w.toProcess), |old(w.toProcess)|)
    ensures level >= 2 && AllCrowded(data.ca, cr, old(w.marked)) && old(w.toProcess) != [] ==>
      Passed(data.ca, data.occs, old(GrownOf(w)), mid)
      && (AllCrowded(data.ca, cr, mid.marked) && |mid.cla| > |old(w.cla)| ==> !doRemove && GrownOf(w) == mid)
  {
    hide WorkOk, SubsumedNow, NoSubsetUpTo, Universe, AllCrowded, Passed, Segs, Queued, Complete, Refuted, Enumerates;
    WorkFormed(data, cr, w);
    mid := GrownOf(w);
    ghost var start, alone := mid, level >= 2 && AllCrowded(data.ca, cr, w.marked) && w.toProcess != [];
    var oldProcessSize, done := -1, false;
    ghost var queue := w.toProcess;
    NeedsLive(data, cr, w);
    ghost var base, full := data.ca[cr].lits, Queued(w.marked, w.toProcess) && Complete(data.ca, data.frozen);
    MarkBound(data, cr, w);
    doRemove := false;
    ghost var first := true;
    while !done
      invariant WorkOk(data, cr, w) && |w.cla| <= |Universe(data.ca)| && WellFormed(w.toUndo)
      invariant Enumerates(base, w.marked) && (doRemove ==> done && SubsumedNow(data.ca, cr, w.marked))
      invariant first ==> !done && w.toProcess == queue && base == data.ca[cr].lits && GrownOf(w) == start && oldProcessSize == -1
      invariant level < 2 ==> w.toUndo == old(w.toUndo) && (!first ==> done) && (doRemove ==> Refuted(data.ca, cr, data.ca[cr].lits))
      invariant full && !doRemove ==> Queued(w.marked, w.toProcess) && (done ==> AllCrowded(data.ca, cr, w.marked))
      invariant !first && !doRemove && full ==> !Refuted(data.ca, cr, data.ca[cr].lits)
      invariant !first && !doRemove ==> NoSubsetUpTo(data.ca, data.occs, cr, data.ca[cr].lits, |queue|, queue, |queue|)
      invariant !first && alone ==> Passed(data.ca, data.occs, start, mid)
      invariant !first && alone && AllCrowded(data.ca, cr, mid.marked) && |mid.cla| > |start.cla| ==>
        !doRemove && GrownOf(w) == mid && oldProcessSize == |w.toProcess|
      decreases |Universe(data.ca)| - |w.cla|, !done
    {
      ghost var order;
      doRemove, done, oldProcessSize, order := GrowRound(data, cr, w, level, oldProcessSize, base);
      base := order;
      if first { mid := GrownOf(w); }
      first := false;
    }
  }

  lemma {:induction false} AnyOrder(marked: set<Lit>)
    ensures exists order :: Enumerates(order, marked)
  {
    if marked == {} {
      assert Enumerates([], marked);
    } else {
      var l :| l in marked;
      AnyOrder(marked - {l});
      var order :| Enumerates(order, marked - {l});
      assert Enumerates(order + [l], marked);
    }
  }

  // What elimination promises to find: a clause that contains another one, if all its
  // variables may change, and a clause that is blocked as it stands.
  ghost predicate MustGo(data: CoprocessorData, cr: CRef, level: nat)
    reads data
    requires cr < |data.ca|
  {
    !data.ca[cr].deleted && (FreeSuperset(data, cr) || (level > 2 && PlainlyBlocked(data, cr)))
  }

  ghost predicate FreeSuperset(data: CoprocessorData, cr: CRef)
    reads data
    requires cr < |data.ca|
  {
    (exists i: CRef :: HasSubset(data, cr, i)) && forall l :: l in data.ca[cr].lits ==> l.v !in data.frozen
  }

  ghost predicate PlainlyBlocked(data: CoprocessorData, cr: CRef)
    reads data
    requires cr < |data.ca|
  {
    exists a :: OriginallyBlocked(data, data.ca[cr].lits, a)
  }

  lemma NoFreeSuperset(data: CoprocessorData, cr: CRef, queue: seq<Lit>)
    requires Ready(data) && cr < |data.ca|
    requires (forall l :: l in data.ca[cr].lits ==> l.v !in data.frozen) ==> queue == data.ca[cr].lits
    requires NoSubsetUpTo(data.ca, data.occs, cr, data.ca[cr].lits, |queue|, queue, |queue|)
    ensures !FreeSuperset(data, cr)
  {
    if FreeSuperset(data, cr) {
      var i: CRef :| HasSubset(data, cr, i);
      SubsetFound(data, cr, i);
    }
  }

  lemma WorkPivots(data: CoprocessorData, cr: CRef, w: WorkData)
    requires WorkOk(data, cr, w)
    ensures WellFormed(w.toUndo) && NoEmptySegment(w.toUndo) && PivotsOk(data.frozen, data.ca[cr].lits, w.cla, Segs(w.toUndo))
  {
  }

  lemma StartQueued(ca: seq<Cls>, cr: CRef, frozen: set<nat>)
    requires cr < |ca| && !ca[cr].deleted
    ensures Enumerates(ca[cr].lits, Lits(ca[cr].lits))
    ensures Complete(ca, frozen) ==> Queued(Lits(ca[cr].lits), FreeOf(ca[cr].lits, frozen))
  {
    if Complete(ca, frozen) {
      forall l | l in ca[cr].lits ensures l.v !in frozen { assert InLive(ca, l); }
      FreeFacts(ca[cr].lits, frozen);
    }
  }

  // Decides whether the clause can go and collects the repairs.
  method Decide(data: CoprocessorData, w: WorkData, cr: CRef, level: nat) returns (doRemove: bool, ghost mid: Grown)
    requires Ready(data) && cr < |data.ca| && !data.ca[cr].deleted
    modifies w
    ensures WellFormed(w.toUndo) && NoEmptySegment(w.toUndo)
    ensures PivotsOk(data.frozen, data.ca[cr].lits, w.cla, Segs(w.toUndo))
    ensures doRemove ==> CanRemove(data, cr, Segs(w.toUndo))
    ensures MarksOk(data.ca, data.trail, cr, w.cla, w.marked)
    ensures level < 2 ==> w.toUndo == []
    ensures MustGo(data, cr, level) ==> doRemove
    ensures level < 2 && doRemove ==> Refuted(data.ca, cr, data.ca[cr].lits)
    ensures Complete(data.ca, data.frozen) && !doRemove ==> !Refuted(data.ca, cr, data.ca[cr].lits) && AllCrowded(data.ca, cr, w.marked)
    ensures level > 2 && AllCrowded(data.ca, cr, Lits(data.ca[cr].lits)) && FreeOf(data.ca[cr].lits, data.frozen) != [] ==>
      Passed(data.ca, data.occs, StartOf(data.ca[cr].lits, data.frozen), mid)
      && (AllCrowded(data.ca, cr, mid.marked) && |mid.cla| > |data.ca[cr].lits| ==>
            w.cla == mid.cla && w.marked == mid.marked && mid.segs <= Segs(w.toUndo)
            && (doRemove <==> exists i :: 0 <= i < |mid.cla| && MarkedBlocked(data, mid.marked, mid.cla[i])))
  {
    hide SubsumedNow, NoSubsetUpTo, Ready, OriginallyBlocked, HasSubset, CanRemove, VirtualClause, MarksOk, QueueOk, Segs;
    hide AllCrowded, Passed, FreeOf, MarkedBlocked, PivotsOk, Refuted, Complete, Enumerates, Queued;
    StartWork(data, cr, w);
    StartQueued(data.ca, cr, data.frozen);
    ghost var queue := w.toProcess;
    doRemove, mid := GrowClause(data, cr, w, level);
    WorkPivots(data, cr, w);
    if doRemove {
      SubsumedCanGo(data, cr, w);
    } else {
      NoFreeSuperset(data, cr, queue);
      if level > 2 { doRemove := FinalBce(data, cr, w); }
    }
  }

  // Removes the clause if it can be shown redundant; the repairs go to the undo stack.
  method Eliminate(data: CoprocessorData, w: WorkData, cr: CRef, level: nat) returns (removed: bool, ghost mid: Grown)
    requires Ready(data) && data.Sound() && cr < |data.ca| && level > 0
    modifies w, data`ca, data`undo, data`frozenMet
    ensures Ready(data) && data.Sound() && WellFormed(w.toUndo)
    ensures removed ==> !old(data.ca)[cr].deleted && data.ca == Propagation.Dropped(old(data.ca), cr)
    ensures removed ==> Segs(data.undo) == Segs(old(data.undo)) + Segs(w.toUndo)
    ensures removed ==> PivotsOk(data.frozen, old(data.ca)[cr].lits, w.cla, Segs(w.toUndo))
    ensures !removed ==> data.ca == old(data.ca) && data.undo == old(data.undo)
    ensures data.frozenMet == (old(data.frozenMet) || (removed && level >= 2 && FrozenCovered(data.frozen, old(data.ca)[cr].lits, w.cla)))
    ensures FrozenOnlyIn(old(data.ca), cr, data.frozen) ==> data.frozenMet == old(data.frozenMet)
    ensures level < 2 ==> data.undo == old(data.undo)
    ensures old(MustGo(data, cr, level)) ==> removed
    ensures level < 2 && removed ==> Refuted(old(data.ca), cr, old(data.ca)[cr].lits)
    ensures Complete(old(data.ca), data.frozen) && !old(data.ca)[cr].deleted && Refuted(old(data.ca), cr, old(data.ca)[cr].lits) ==> removed
    ensures (level > 2 && !old(data.ca)[cr].deleted && old(AllCrowded(data.ca, cr, Lits(data.ca[cr].lits)))
             && FreeOf(old(data.ca)[cr].lits, data.frozen) != []) ==>
      Passed(old(data.ca), data.occs, StartOf(old(data.ca)[cr].lits, data.frozen), mid)
      && (AllCrowded(old(data.ca), cr, mid.marked) && |mid.cla| > |old(data.ca)[cr].lits| ==>
            mid.segs <= Segs(w.toUndo)
            && (removed <==> exists i :: 0 <= i < |mid.cla| && old(MarkedBlocked(data, mid.marked, mid.cla[i]))))
  {
    hide Step, MustGo, CanRemove, Segs, OccsOk, ClausesOk, Propagated, TrailOk, PivotsOk, NoEmptySegment, PivotsFree;
    hide AllCrowded, Passed, FreeOf, MarkedBlocked, FrozenCovered, FormulaOf, VirtualClause, MarksOk, FrozenOnlyIn, Refuted, Complete;
    var segs := Segs(data.undo);
    if data.ca[cr].deleted {
      DeletedStays(data, cr, level);
      w.toUndo := [];
      return false, Grown([], {}, [], []);
    }
    ghost var c := data.ca[cr].lits;
    removed, mid := Decide(data, w, cr, level);
    if removed {
      RemovalStep(data, cr, Segs(w.toUndo));
      FreeUnlessCovered(data.frozen, c, w.cla, Segs(w.toUndo));
      PivotsFreeConcat(data.frozen, segs, Segs(w.toUndo));
      NoneCovered(data.ca, data.trail, cr, w.cla, w.marked, data.frozen);
      ghost var met := level >= 2 && FrozenCovered(data.frozen, c, w.cla);
      NoMarks(data.frozen, w.toUndo, segs);
      data.Delete(cr);
      if |w.toUndo| > 0 { data.AddExtensionToExtension(w.toUndo); }
      data.frozenMet := data.frozenMet || met;
    }
  }

  // If the other clauses mention no frozen variable that is not in the clause, there is no
  // such literal to find.
  lemma NoneCovered(ca: seq<Cls>, trail: seq<Lit>, cr: CRef, cla: seq<Lit>, marked: set<Lit>, frozen: set<nat>)
    requires cr < |ca| && MarksOk(ca, trail, cr, cla, marked)
    ensures FrozenOnlyIn(ca, cr, frozen) ==> !FrozenCovered(frozen, ca[cr].lits, cla)
  {
    hide Universe, Witnessed;
    if FrozenOnlyIn(ca, cr, frozen) {
      forall l | l in cla && l.v in frozen ensures l in ca[cr].lits {
        assert l in Universe(ca) && l in marked;
        UniverseIs(ca, l);
        assert Neg(Neg(l)) == l && Neg(l) !in marked;
      }
    }
  }

  lemma UniverseIs(ca: seq<Cls>, l: Lit)
    ensures l in Universe(ca) ==> InLive(ca, l) || InLive(ca, Neg(l))
  {
    hide InLive;
    if l in Universe(ca) && l !in LiveLiterals(ca) {
      var k :| k in LiveLiterals(ca) && l == Neg(k);
      assert Neg(l) == k;
    }
  }

  lemma AbsentOnlyIn(ca: seq<Cls>, cr: CRef, frozen: set<nat>)
    requires cr < |ca| && FrozenAbsent(ca, frozen)
    ensures FrozenOnlyIn(ca, cr, frozen)
  {
  }

  lemma NoMarks(frozen: set<nat>, marks: seq<Mark>, segs: seq<Clause>)
    requires WellFormed(marks)
    ensures marks == [] ==> segs + Segs(marks) == segs && PivotsFree(frozen, Segs(marks))
  {
  }

  lemma DeletedStays(data: CoprocessorData, cr: CRef, level: nat)
    requires cr < |data.ca| && data.ca[cr].deleted
    ensures !MustGo(data, cr, level)
  {
  }

  lemma RemovalStep(data: CoprocessorData, cr: CRef, e: seq<Clause>)
    requires data.Valid() && data.Sound() && cr < |data.ca| && !data.ca[cr].deleted && CanRemove(data, cr, e)
    ensures Step(data.input, Rest(data, cr), Segs(data.undo) + e)
  {
    FormulaDelete(data.ca, cr, data.trail, data.ok);
    StepCompose(data.input, data.F(), Rest(data, cr), Segs(data.undo), e);
  }

  // m is the size of the largest live clause of the list.
  ghost predicate LargestSize(ca: seq<Cls>, list: seq<CRef>, m: nat) {
    && (forall i :: 0 <= i < |list| && list[i] < |ca| && !ca[list[i]].deleted ==> |ca[list[i]].lits| <= m)
    && (m > 0 ==> exists i :: 0 <= i < |list| && list[i] < |ca| && !ca[list[i]].deleted && |ca[list[i]].lits| == m)
  }

  // The share of the largest size, and at least three.
  ghost predicate IsLimit(ca: seq<Cls>, list: seq<CRef>, percent: nat, limit: nat) {
    exists m: nat :: LargestSize(ca, list, m) && limit == if m * percent / 100 > 2 then m * percent / 100 else 3
  }

  // Only clauses above a share of the largest size are worth the work, never binary or
  // ternary ones.
  method SizeLimit(ca: seq<Cls>, list: seq<CRef>, percent: nat) returns (cceSize: nat)
    ensures IsLimit(ca, list, percent, cceSize)
  {
    var maxSize: nat := 0;
    var i := 0;
    while i < |list|
      invariant 0 <= i <= |list| && LargestSize(ca, list[..i], maxSize)
    {
      LargestNext(ca, list, i, maxSize);
      if list[i] < |ca| && !ca[list[i]].deleted && |ca[list[i]].lits| > maxSize {
        maxSize := |ca[list[i]].lits|;
      }
      i := i + 1;
    }
    assert list[..i] == list;
    var share := maxSize * percent / 100;
    cceSize := if share > 2 then share else 3;
  }

  lemma LargestNext(ca: seq<Cls>, list: seq<CRef>, i: nat, m: nat)
    requires i < |list| && LargestSize(ca, list[..i], m)
    ensures list[i] < |ca| && !ca[list[i]].deleted && |ca[list[i]].lits| > m ==> LargestSize(ca, list[..i + 1], |ca[list[i]].lits|)
    ensures !(list[i] < |ca| && !ca[list[i]].deleted && |ca[list[i]].lits| > m) ==> LargestSize(ca, list[..i + 1], m)
  {
    var more := list[..i + 1];
    assert more == list[..i] + [list[i]];
    assert more[i] == list[i];
    assert forall k :: 0 <= k < i ==> more[k] == list[..i][k];
    if m > 0 {
      var k :| 0 <= k < i && list[..i][k] < |ca| && !ca[list[..i][k]].deleted && |ca[list[..i][k]].lits| == m;
      assert more[k] == list[..i][k];
    }
  }

  // One clause of the list: small and deleted ones are left alone. Below level 2 a clause
  // goes only if unit propagation refutes its complement, and on a complete database, at any
  // level, it does go then.
  ghost predicate CceStep(frozen: set<nat>, level: nat, limit: nat, s: State, t: State, cr: CRef) {
    && t.occs == s.occs && t.trail == s.trail
    && (if cr >= |s.ca| || |s.ca[cr].lits| <= limit || s.ca[cr].deleted then t == s
        else
          && (t.ca == Propagation.Dropped(s.ca, cr) || t == s)
          && (level < 2 ==> t.undo == s.undo && (t.ca != s.ca ==> Refuted(s.ca, cr, s.ca[cr].lits)))
          && (Complete(s.ca, frozen) && Refuted(s.ca, cr, s.ca[cr].lits) ==> t.ca == Propagation.Dropped(s.ca, cr)))
  }

  ghost predicate CceRun(frozen: set<nat>, level: nat, limit: nat, order: seq<CRef>, states: seq<State>) {
    && |states| == |order| + 1
    && forall i :: 0 <= i < |order| ==> CceStep(frozen, level, limit, states[i], states[i + 1], order[i])
  }

  lemma CceNext(frozen: set<nat>, level: nat, limit: nat, order: seq<CRef>, i: nat, states: seq<State>, t: State)
    requires i < |order| && CceRun(frozen, level, limit, order[..i], states) && CceStep(frozen, level, limit, states[i], t, order[i])
    ensures CceRun(frozen, level, limit, order[..i + 1], states + [t])
  {
    hide CceStep;
  }

  // All clauses of the list that are large enough, one after the other.
  method ClauseEliminationRun(data: CoprocessorData, order: seq<CRef>, level: nat, percent: nat)
    returns (limit: nat, ghost states: seq<State>)
    requires Ready(data) && data.Sound() && level > 0
    modifies data`ca, data`undo, data`frozenMet
    ensures Ready(data) && data.Sound() && |data.ca| == |old(data.ca)|
    ensures level < 2 ==> data.undo == old(data.undo) && data.frozenMet == old(data.frozenMet)
    ensures FrozenAbsent(old(data.ca), data.frozen) ==> FrozenAbsent(data.ca, data.frozen) && data.frozenMet == old(data.frozenMet)
    ensures forall i :: 0 <= i < |data.ca| ==> data.ca[i] == old(data.ca)[i] || data.ca[i] == old(data.ca)[i].(deleted := true)
    ensures IsLimit(old(data.ca), order, percent, limit)
    ensures CceRun(data.frozen, level, limit, order, states) && states[0] == old(Now(data)) && states[|order|] == Now(data)
    ensures Complete(old(data.ca), data.frozen) ==> NoneRefuted(data.ca, limit, order)
  {
    hide OccsOk, ClausesOk, Propagated, TrailOk, Step, FormulaOf, PivotsFree, NoEmptySegment, Segs, OnlyFewer, CceStep;
    hide Complete, Refuted, CceRun, NoneRefuted, FrozenAbsent;
    var w := new WorkData;
    limit := SizeLimit(data.ca, order, percent);
    states := [Now(data)];
    ghost var was := data.ca;
    var i := 0;
    NoneYet(data.frozen, level, limit, order, data.ca, states);
    while i < |order|
      invariant 0 <= i <= |order| && Ready(data) && data.Sound() && |data.ca| == |old(data.ca)|
      invariant level < 2 ==> data.undo == old(data.undo) && data.frozenMet == old(data.frozenMet)
      invariant FrozenAbsent(old(data.ca), data.frozen) ==> FrozenAbsent(data.ca, data.frozen) && data.frozenMet == old(data.frozenMet)
      invariant OnlyFewer(was, data.ca)
      invariant |states| == i + 1 && states[0] == old(Now(data)) && states[i] == Now(data)
      invariant CceRun(data.frozen, level, limit, order[..i], states)
      invariant Complete(was, data.frozen) ==> NoneRefuted(data.ca, limit, order[..i])
    {
      ghost var s := Now(data);
      FewerComplete(was, data.ca, data.frozen);
      EliminateNext(data, w, order[i], level, limit);
      FewerYet(was, s.ca, data.ca);
      CceNext(data.frozen, level, limit, order, i, states, Now(data));
      if Complete(was, data.frozen) { RefutedNext(data.frozen, level, limit, s, Now(data), order, i); }
      states := states + [Now(data)];
      i := i + 1;
    }
    assert order[..i] == order;
    FewerMeans(was, data.ca);
  }

  // One entry of the list.
  method EliminateNext(data: CoprocessorData, w: WorkData, cr: CRef, level: nat, limit: nat)
    requires Ready(data) && data.Sound() && level > 0
    modifies w, data`ca, data`undo, data`frozenMet
    ensures Ready(data) && data.Sound() && data.Valid() && OnlyFewer(old(data.ca), data.ca)
    ensures level < 2 ==> data.undo == old(data.undo) && data.frozenMet == old(data.frozenMet)
    ensures FrozenAbsent(old(data.ca), data.frozen) ==> FrozenAbsent(data.ca, data.frozen) && data.frozenMet == old(data.frozenMet)
    ensures CceStep(data.frozen, level, limit, old(Now(data)), Now(data), cr)
  {
    hide MustGo, PivotsOk, OccsOk, ClausesOk, Propagated, TrailOk, Step, FormulaOf, AllCrowded, Passed, FreeOf, MarkedBlocked, FrozenCovered;
    hide PivotsFree, Complete, Refuted, FrozenAbsent, FrozenOnlyIn, Segs, NoEmptySegment;
    ghost var was := data.ca;
    if cr < |data.ca| && |data.ca[cr].lits| > limit && !data.ca[cr].deleted {
      if FrozenAbsent(data.ca, data.frozen) { AbsentOnlyIn(data.ca, cr, data.frozen); }
      ghost var mid;
      var removed;
      removed, mid := Eliminate(data, w, cr, level);
      StillAbsent(was, data.ca, data.frozen);
    }
  }

  lemma FewerYet(was: seq<Cls>, mid: seq<Cls>, ca: seq<Cls>)
    requires OnlyFewer(was, mid) && OnlyFewer(mid, ca)
    ensures OnlyFewer(was, ca) && |ca| == |was|
  {
  }

  lemma FewerMeans(was: seq<Cls>, ca: seq<Cls>)
    requires OnlyFewer(was, ca)
    ensures |ca| == |was| && forall i :: 0 <= i < |ca| ==> ca[i] == was[i] || ca[i] == was[i].(deleted := true)
  {
  }

  lemma NoneYet(frozen: set<nat>, level: nat, limit: nat, order: seq<CRef>, ca: seq<Cls>, states: seq<State>)
    requires |states| == 1
    ensures CceRun(frozen, level, limit, order[..0], states) && NoneRefuted(ca, limit, order[..0])
    ensures OnlyFewer(ca, ca) && |order[..0]| == 0
  {
  }

  ghost predicate OnlyFewer(was: seq<Cls>, ca: seq<Cls>) {
    |ca| == |was| && forall i :: 0 <= i < |ca| ==> ca[i] == was[i] || ca[i] == was[i].(deleted := true)
  }

  lemma FewerComplete(was: seq<Cls>, ca: seq<Cls>, frozen: set<nat>)
    requires OnlyFewer(was, ca)
    ensures Complete(was, frozen) ==> Complete(ca, frozen)
  {
    StillAbsent(was, ca, frozen);
    hide FrozenAbsent;
  }

  lemma StillAbsent(was: seq<Cls>, ca: seq<Cls>, frozen: set<nat>)
    requires OnlyFewer(was, ca)
    ensures FrozenAbsent(was, frozen) ==> FrozenAbsent(ca, frozen)
  {
    forall l | InLive(ca, l) ensures InLive(was, l) {}
  }

  // Every clause of the list that is left and large enough is no asymmetric tautology.
  ghost predicate NoneRefuted(ca: seq<Cls>, limit: nat, order: seq<CRef>) {
    forall i :: 0 <= i < |order| && order[i] < |ca| && !ca[order[i]].deleted && |ca[order[i]].lits| > limit ==>
      !Refuted(ca, order[i], ca[order[i]].lits)
  }

  // With fewer clauses, unit propagation finds less.
  lemma FewerRefuted(was: seq<Cls>, ca: seq<Cls>, cr: CRef, lits: seq<Lit>)
    requires OnlyFewer(was, ca) && Refuted(ca, cr, lits)
    ensures Refuted(was, cr, lits)
  {
    var B, D, a := Others(ca, cr), Others(was, cr), Rup.Complements(lits);
    forall d | d in B ensures d in D {
      var i :| 0 <= i < |ca| && i != cr && !ca[i].deleted && d == multiset(ca[i].lits);
      assert was[i] == ca[i];
    }
    Rup.MoreClauses(B, D, a);
  }

  lemma RefutedNext(frozen: set<nat>, level: nat, limit: nat, s: State, t: State, order: seq<CRef>, i: nat)
    requires i < |order| && CceStep(frozen, level, limit, s, t, order[i]) && Complete(s.ca, frozen)
    requires NoneRefuted(s.ca, limit, order[..i])
    ensures NoneRefuted(t.ca, limit, order[..i + 1])
  {
    hide Complete, Refuted;
    assert OnlyFewer(s.ca, t.ca);
    var more := order[..i + 1];
    assert forall k :: 0 <= k < i ==> more[k] == order[..i][k];
    forall k | 0 <= k < |more| && more[k] < |t.ca| && !t.ca[more[k]].deleted && |t.ca[more[k]].lits| > limit
      ensures !Refuted(t.ca, more[k], t.ca[more[k]].lits)
    {
      if Refuted(t.ca, more[k], t.ca[more[k]].lits) {
        FewerRefuted(s.ca, t.ca, more[k], t.ca[more[k]].lits);
      }
    }
  }

  // ---------- a repair that changes a frozen variable ----------

  // The literals a, b, c, d, f and g. Only the variables of a and g may change.
  function At(n: nat): Lit {
    Lit(n, false)
  }

  function Four(): Clause {
    [At(0), At(1), At(2), At(3)]
  }

  // If a then f.
  function ThenF(): Clause {
    [Neg(At(0)), At(4)]
  }

  // If f then g.
  function ThenG(): Clause {
    [Neg(At(4)), At(5)]
  }

  function ThreeClauses(): seq<Cls> {
    [Cls(Four(), false), Cls(ThenF(), false), Cls(ThenG(), false)]
  }

  lemma ThreeProper()
    ensures Proper(Four()) && Proper(ThenF()) && Proper(ThenG())
  {
  }

  method LoadThree() returns (data: CoprocessorData)
    ensures fresh(data) && Ready(data) && data.Sound() && LoadedThree(data)
  {
    data := new CoprocessorData({Four(), ThenF(), ThenG()}, {1, 2, 3, 4});
    StartsEmpty(data);
    AddThree(data);
  }

  method AddThree(data: CoprocessorData)
    requires Growing(data) && data.ca == [] && forall l :: List(data.occs, l) == []
    modifies data`ca, data`occs
    ensures Ready(data) && data.Sound() && LoadedThree(data)
  {
    hide Growing, Four, ThenF, ThenG, At, List, Proper, LoadedThree, Ready;
    ThreeProper();
    InThree();
    AddTo(data, Four());
    AddTo(data, ThenF());
    assert List(data.occs, Neg(At(0))) == [1];
    AddTo(data, ThenG());
    ThreeStored(data);
  }

  // The state after loading, apart from what all states have in common.
  ghost predicate LoadedThree(data: CoprocessorData)
    reads data
  {
    && data.ca == ThreeClauses() && data.frozen == {1, 2, 3, 4} && data.undo == [] && data.trail == [] && !data.frozenMet
    && List(data.occs, Neg(At(0))) == [1] && List(data.occs, Neg(At(4))) == [2] && List(data.occs, Neg(At(5))) == []
  }

  ghost predicate Growing(data: CoprocessorData)
    reads data
  {
    && Ready(data) && data.trail == [] && data.undo == [] && !data.frozenMet && data.frozen == {1, 2, 3, 4}
    && data.input == {Four(), ThenF(), ThenG()}
  }

  lemma StartsEmpty(data: CoprocessorData)
    requires data.Valid() && data.ok && !data.HasToPropagate() && data.ca == [] && data.trail == [] && data.undo == []
    requires !data.frozenMet && data.frozen == {1, 2, 3, 4} && data.input == {Four(), ThenF(), ThenG()}
    ensures Growing(data) && forall l :: List(data.occs, l) == []
  {
    forall l ensures List(data.occs, l) == [] {
      if List(data.occs, l) != [] { assert InList(data.occs, l, List(data.occs, l)[0]); }
    }
  }

  lemma InThree()
    ensures Neg(At(0)) !in Four() && Neg(At(4)) !in Four() && Neg(At(5)) !in Four()
    ensures Neg(At(0)) in ThenF() && Neg(At(4)) !in ThenF() && Neg(At(5)) !in ThenF()
    ensures Neg(At(0)) !in ThenG() && Neg(At(4)) in ThenG() && Neg(At(5)) !in ThenG()
  {
  }

  lemma NoLiveClauses()
    ensures Live([]) == {}
  {
  }

  method AddTo(data: CoprocessorData, c: Clause)
    requires Growing(data) && Proper(c)
    modifies data`ca, data`occs
    ensures Growing(data) && data.ca == old(data.ca) + [Cls(c, false)]
    ensures forall l :: List(data.occs, l) == List(old(data.occs), l) + if l in c then [|old(data.ca)|] else []
  {
    hide OccsOk, ClausesOk, Propagated, TrailOk;
    var cr := data.AddClause(c);
  }

  lemma ThreeStored(data: CoprocessorData)
    requires Growing(data) && data.ca == [] + [Cls(Four(), false)] + [Cls(ThenF(), false)] + [Cls(ThenG(), false)]
    requires List(data.occs, Neg(At(0))) == [1] && List(data.occs, Neg(At(4))) == [2] && List(data.occs, Neg(At(5))) == []
    ensures Ready(data) && data.Sound() && LoadedThree(data)
  {
    hide OccsOk, ClausesOk, Propagated, TrailOk, Step, Four, ThenF, ThenG, List, At, Live;
    assert data.ca == ThreeClauses();
    assert Live([]) == {} by { NoLiveClauses(); }
    FormulaAdd([], Four(), [], true);
    FormulaAdd([] + [Cls(Four(), false)], ThenF(), [], true);
    FormulaAdd([] + [Cls(Four(), false)] + [Cls(ThenF(), false)], ThenG(), [], true);
    assert data.F() == data.input;
    EquivalentStep(data.input, data.F());
  }

  // With the literals of the clause marked, no clause has exactly one literal left, and
  // neither when f and g are marked as well.
  lemma ThreeCrowded(marked: set<Lit>)
    requires At(0) in marked && Neg(At(0)) !in marked && Neg(At(4)) !in marked
    requires (At(4) !in marked && At(5) !in marked) || (At(4) in marked && At(5) in marked)
    ensures AllCrowded(ThreeClauses(), 0, marked)
  {
    var f, g := ThenF(), ThenG();
    assert Neg(Neg(At(0))) == At(0) && Neg(Neg(At(4))) == At(4);
    assert f[0] in f && g[0] in g && g[1] in g;
    assert Crowded(f, marked);
    assert Crowded(g, marked);
  }

  lemma CoveredByOne(ca: seq<Cls>, i: CRef, l: Lit, x: Lit, marked: set<Lit>)
    requires i < |ca| && ca[i] == Cls([l, x], false) && x != l && x !in marked && Neg(x) !in marked
    ensures CoveredSeq(ca, [i], l, marked) == [x]
  {
    var d := [l, x];
    assert d[..1] == [l] && [l][..0] == [];
    assert UnmarkedOf([], l, marked) == [];
    assert UnmarkedOf([l], l, marked) == [];
    assert UnmarkedOf(d, l, marked) == [x];
    assert Partner(ca, [i][0], l, marked);
    assert CoveredUpTo(ca, [i], 0, l, marked).None?;
    assert CoveredUpTo(ca, [i], 1, l, marked) == Resolvents.Some([x]);
  }

  lemma CoveredByNone(ca: seq<Cls>, l: Lit, marked: set<Lit>)
    ensures CoveredSeq(ca, [], l, marked) == []
  {
  }

  // After one and after two literals of the queue; the third one adds nothing.
  ghost function AfterA(): Grown {
    Grown(Four() + [At(4)], Lits(Four()) + {At(4)}, [At(0), At(4)], [PivotFirst(Four(), At(0))])
  }

  ghost function AfterF(): Grown {
    Grown(Four() + [At(4), At(5)], Lits(Four()) + {At(4), At(5)}, [At(0), At(4), At(5)],
      [PivotFirst(Four(), At(0)), PivotFirst(Four() + [At(4)], At(4))])
  }

  lemma FreeOfFour()
    ensures FreeOf(Four(), {1, 2, 3, 4}) == [At(0)]
  {
    hide FreeOf;
    var c := Four();
    NoneFree(c, {1, 2, 3, 4});
    FreeNext(c, 0, {1, 2, 3, 4});
    FreeNext(c, 1, {1, 2, 3, 4});
    FreeNext(c, 2, {1, 2, 3, 4});
    FreeNext(c, 3, {1, 2, 3, 4});
    assert c[..4] == c;
  }

  lemma RunOfFour(ca: seq<Cls>, occs: Occs, n: nat)
    requires ca == ThreeClauses()
    requires List(occs, Neg(At(0))) == [1] && List(occs, Neg(At(4))) == [2] && List(occs, Neg(At(5))) == []
    ensures var g := StartOf(Four(), {1, 2, 3, 4});
      ClaRun(ca, occs, g, n) == if n == 0 then g else if n == 1 then AfterA() else AfterF()
    decreases n
  {
    hide CoveredSeq, FreeOf, PivotFirst, ClaRun;
    FreeOfFour();
    var g := StartOf(Four(), {1, 2, 3, 4});
    ClaRunStart(ca, occs, g);
    if n > 0 {
      RunOfFour(ca, occs, n - 1);
      ClaRunStep(ca, occs, g, n - 1);
      if n == 1 {
        CoveredByOne(ca, 1, Neg(At(0)), At(4), g.marked);
        assert ClaNext(ca, occs, g, 0) == AfterA();
      } else if n == 2 {
        CoveredByOne(ca, 2, Neg(At(4)), At(5), AfterA().marked);
        assert ClaNext(ca, occs, AfterA(), 1) == AfterF();
      } else if n == 3 {
        CoveredByNone(ca, Neg(At(5)), AfterF().marked);
        assert ClaNext(ca, occs, AfterF(), 2) == AfterF();
      }
    }
  }

  lemma PassOfFour(ca: seq<Cls>, occs: Occs, mid: Grown)
    requires ca == ThreeClauses() && Passed(ca, occs, StartOf(Four(), {1, 2, 3, 4}), mid)
    requires List(occs, Neg(At(0))) == [1] && List(occs, Neg(At(4))) == [2] && List(occs, Neg(At(5))) == []
    ensures mid == AfterF()
  {
    var g := StartOf(Four(), {1, 2, 3, 4});
    var n: nat :| PassedIn(ca, occs, g, mid, n);
    FreeOfFour();
    RunOfFour(ca, occs, n);
  }

  lemma AfterFFacts()
    ensures |AfterF().cla| == 6 && AfterF().cla[5] == At(5) && |AfterF().segs| == 2
    ensures AfterF().segs[1] != [] && AfterF().segs[1][0] == At(4)
    ensures AllCrowded(ThreeClauses(), 0, AfterF().marked) && AllCrowded(ThreeClauses(), 0, Lits(Four()))
  {
    hide AllCrowded;
    ThreeCrowded(Lits(Four()));
    ThreeCrowded(AfterF().marked);
  }

  lemma BlockedOnG(data: CoprocessorData, marked: set<Lit>)
    requires data.frozen == {1, 2, 3, 4} && List(data.occs, Neg(At(5))) == []
    ensures MarkedBlocked(data, marked, At(5))
  {
  }

  lemma FrozenPushed(frozen: set<nat>, segs: seq<Clause>)
    requires frozen == {1, 2, 3, 4} && AfterF().segs <= segs
    ensures !PivotsFree(frozen, segs)
  {
    AfterFFacts();
    assert segs[1] == AfterF().segs[1];
  }

  // The clause goes, and a repair makes f true, although its variable is frozen.
  method FrozenPivot() returns (data: CoprocessorData)
    ensures data.Valid() && data.Sound() && data.frozenMet && !PivotsFree(data.frozen, Segs(data.undo))
  {
    data := LoadThree();
    hide *;
    PushFrozen(data);
  }

  method PushFrozen(data: CoprocessorData)
    requires Ready(data) && data.Sound() && LoadedThree(data)
    modifies data`ca, data`undo, data`frozenMet
    ensures data.Valid() && data.Sound() && data.frozenMet && !PivotsFree(data.frozen, Segs(data.undo))
  {
    var w := new WorkData;
    ghost var was, occs, mid := data.ca, data.occs, AfterF();
    ThreeFacts(data);
    hide *;
    var removed;
    removed, mid := Eliminate(data, w, 0, 3);
    PassOfFour(was, occs, mid);
    FrozenPushed(data.frozen, Segs(data.undo));
    RemainsReady(data);
  }

  lemma ThreeFacts(data: CoprocessorData)
    requires data.Valid() && LoadedThree(data)
    ensures data.ca == ThreeClauses() && |data.ca| == 3 && !data.ca[0].deleted && data.ca[0].lits == Four() && |Four()| == 4
    ensures data.frozen == {1, 2, 3, 4} && FreeOf(Four(), data.frozen) != [] && Segs(data.undo) == []
    ensures List(data.occs, Neg(At(0))) == [1] && List(data.occs, Neg(At(4))) == [2] && List(data.occs, Neg(At(5))) == []
    ensures AllCrowded(data.ca, 0, Lits(Four())) && AllCrowded(data.ca, 0, AfterF().marked)
    ensures |AfterF().cla| == 6 && MarkedBlocked(data, AfterF().marked, AfterF().cla[5])
  {
    FreeOfFour();
    AfterFFacts();
    BlockedOnG(data, AfterF().marked);
  }

  lemma RemainsReady(data: CoprocessorData)
    requires Ready(data) && data.Sound() && !PivotsFree(data.frozen, Segs(data.undo))
    ensures data.Valid() && data.frozenMet
  {
  }
}
