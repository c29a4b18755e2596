// The data every technique works on: the clause database with its occurrence lists,
// the trail of unit clauses and the undo stack (coprocessor/CoprocessorTypes.h).

module Formula {
  import opened Sat
  import opened Undo
  import opened Steps

  // A clause reference is an index into the allocator.
  type CRef = nat

  datatype Cls = Cls(lits: Clause, deleted: bool)

  // ---------- the formula a state stands for ----------

  function Live(ca: seq<Cls>): set<Clause> {
    set i | 0 <= i < |ca| && !ca[i].deleted :: ca[i].lits
  }

  function Units(trail: seq<Lit>): set<Clause> {
    set u | u in trail :: [u]
  }

  // A failed state contains the empty clause.
  function FormulaOf(ca: seq<Cls>, trail: seq<Lit>, ok: bool): set<Clause> {
    Live(ca) + Units(trail) + if ok then {} else {[]}
  }

  predicate ClsSat(m: Model, c: Cls) {
    c.deleted || SatClause(m, c.lits)
  }

  predicate AllSat(m: Model, ca: seq<Cls>) {
    forall i :: 0 <= i < |ca| ==> ClsSat(m, ca[i])
  }

  predicate AllHold(m: Model, trail: seq<Lit>) {
    forall u :: u in trail ==> Holds(m, u)
  }

  lemma SatFormula(m: Model, ca: seq<Cls>, trail: seq<Lit>, ok: bool)
    ensures SatAll(m, FormulaOf(ca, trail, ok)) <==> ok && AllSat(m, ca) && AllHold(m, trail)
  {
    var F := FormulaOf(ca, trail, ok);
    if SatAll(m, F) {
      assert !ok ==> [] in F;
      forall i | 0 <= i < |ca| ensures ClsSat(m, ca[i]) {
        if !ca[i].deleted { assert ca[i].lits in F; }
      }
      forall u | u in trail ensures Holds(m, u) {
        assert [u] in F;
        var l :| l in [u] && Holds(m, l);
      }
    }
    if ok && AllSat(m, ca) && AllHold(m, trail) {
      forall c | c in F ensures SatClause(m, c) {
        if c in Units(trail) {
          var u :| u in trail && c == [u];
          assert u in c;
        } else {
          var i :| 0 <= i < |ca| && !ca[i].deleted && c == ca[i].lits;
          assert ClsSat(m, ca[i]);
        }
      }
    }
  }

  lemma UpdateSat(m: Model, ca: seq<Cls>, i: CRef, c: Cls)
    requires i < |ca|
    ensures AllSat(m, ca[i := c]) && ClsSat(m, ca[i]) <==> AllSat(m, ca) && ClsSat(m, c)
    ensures (AllSat(m, ca) ==> ClsSat(m, ca[i])) && (AllSat(m, ca[i := c]) ==> ClsSat(m, c))
  {
    var cb := ca[i := c];
    assert cb[i] == c;
    if AllSat(m, cb) && ClsSat(m, ca[i]) {
      forall j | 0 <= j < |ca| ensures ClsSat(m, ca[j]) {
        if j != i { assert ca[j] == cb[j]; }
      }
    }
  }

  lemma FormulaDelete(ca: seq<Cls>, i: CRef, trail: seq<Lit>, ok: bool)
    requires i < |ca| && !ca[i].deleted
    ensures FormulaOf(ca, trail, ok)
         == FormulaOf(ca[i := ca[i].(deleted := true)], trail, ok) + {ca[i].lits}
  {
    var cb := ca[i := ca[i].(deleted := true)];
    forall c | c in Live(ca) ensures c in Live(cb) || c == ca[i].lits {
      var j :| 0 <= j < |ca| && !ca[j].deleted && c == ca[j].lits;
      if j != i { assert cb[j] == ca[j]; }
    }
    forall c | c in Live(cb) ensures c in Live(ca) {
      var j :| 0 <= j < |cb| && !cb[j].deleted && c == cb[j].lits;
      assert cb[j] == ca[j];
    }
  }

  lemma FormulaAdd(ca: seq<Cls>, c: Clause, trail: seq<Lit>, ok: bool)
    ensures FormulaOf(ca + [Cls(c, false)], trail, ok) == FormulaOf(ca, trail, ok) + {c}
  {
    var cb := ca + [Cls(c, false)];
    forall d | d in Live(ca) ensures d in Live(cb) {
      var j :| 0 <= j < |ca| && !ca[j].deleted && d == ca[j].lits;
      assert cb[j] == ca[j];
    }
    assert cb[|ca|].lits in Live(cb);
    forall d | d in Live(cb) ensures d in Live(ca) || d == c {
      var j :| 0 <= j < |cb| && !cb[j].deleted && d == cb[j].lits;
      if j < |ca| { assert cb[j] == ca[j]; }
    }
  }

  lemma FormulaReplace(ca: seq<Cls>, i: CRef, k: Clause, trail: seq<Lit>, ok: bool)
    requires i < |ca| && !ca[i].deleted
    ensures FormulaOf(ca[i := Cls(k, false)], trail, ok)
         == FormulaOf(ca[i := ca[i].(deleted := true)], trail, ok) + {k}
  {
    var cb, cd := ca[i := Cls(k, false)], ca[i := ca[i].(deleted := true)];
    forall c | c in Live(cb) ensures c in Live(cd) || c == k {
      var j :| 0 <= j < |cb| && !cb[j].deleted && c == cb[j].lits;
      if j != i { assert cd[j] == cb[j]; }
    }
    forall c | c in Live(cd) ensures c in Live(cb) {
      var j :| 0 <= j < |cd| && !cd[j].deleted && c == cd[j].lits;
      assert cb[j] == cd[j];
    }
    assert cb[i].lits in Live(cb);
  }

  lemma FormulaUnit(ca: seq<Cls>, trail: seq<Lit>, u: Lit, ok: bool)
    ensures FormulaOf(ca, trail + [u], ok) == FormulaOf(ca, trail, ok) + {[u]}
  {
    forall c | c in Units(trail + [u]) ensures c in Units(trail) || c == [u] {
      var x :| x in trail + [u] && c == [x];
    }
    forall c | c in Units(trail) ensures c in Units(trail + [u]) {
      var x :| x in trail && c == [x];
      assert x in trail + [u];
    }
    assert u in trail + [u];
  }

  // ---------- occurrence lists ----------

  type Occs = map<Lit, seq<CRef>>

  function List(occs: Occs, l: Lit): seq<CRef> {
    if l in occs then occs[l] else []
  }

  predicate InList(occs: Occs, l: Lit, i: CRef) {
    i in List(occs, l)
  }

  predicate NoDup<T(==)>(s: seq<T>) {
    forall i, j :: 0 <= i < j < |s| ==> s[i] != s[j]
  }

  // The lists name every live clause under each of its literals, and nothing else but
  // deleted clauses.
  ghost predicate OccsOk(ca: seq<Cls>, occs: Occs) {
    && (forall i, l :: 0 <= i < |ca| && !ca[i].deleted && l in ca[i].lits ==> InList(occs, l, i))
    && (forall l, i: CRef :: InList(occs, l, i) ==> i < |ca| && (!ca[i].deleted ==> l in ca[i].lits))
    && (forall l :: NoDup(List(occs, l)))
  }

  ghost predicate Unassigned(trail: seq<Lit>, l: Lit) {
    l !in trail && Neg(l) !in trail
  }

  ghost predicate TrailOk(trail: seq<Lit>) {
    NoDup(trail) && forall l :: l in trail ==> Neg(l) !in trail
  }

  // Propagated literals no longer occur in live clauses.
  ghost predicate Propagated(ca: seq<Cls>, done: seq<Lit>) {
    forall i, l :: 0 <= i < |ca| && !ca[i].deleted && l in ca[i].lits ==> Unassigned(done, l)
  }

  ghost predicate ClausesOk(ca: seq<Cls>) {
    forall i :: 0 <= i < |ca| ==> Proper(ca[i].lits)
  }

  // The literals that repairs make true are of other variables.
  ghost predicate PivotsFree(frozen: set<nat>, segs: seq<Clause>) {
    forall i :: 0 <= i < |segs| ==> segs[i] != [] && segs[i][0].v !in frozen
  }

  lemma PivotsFreeConcat(frozen: set<nat>, a: seq<Clause>, b: seq<Clause>)
    ensures PivotsFree(frozen, a) && PivotsFree(frozen, b) ==> PivotsFree(frozen, a + b)
  {
  }

  lemma OnePivotFree(frozen: set<nat>, c: Clause, p: Lit)
    requires p.v !in frozen
    ensures PivotsFree(frozen, [PivotFirst(c, p)])
  {
  }

  // Such repairs keep the values of these variables.
  lemma {:induction false} FrozenKeep(frozen: set<nat>, segs: seq<Clause>, m: Model, l: Lit)
    requires PivotsFree(frozen, segs) && l.v in frozen
    ensures Holds(Extend(segs, m), l) <==> Holds(m, l)
    decreases |segs|
  {
    if segs != [] {
      var n := |segs| - 1;
      FrozenKeep(frozen, segs[..n], Repair(segs[n], m), l);
      assert segs[n][0].v != l.v;
    }
  }

  // Removes one entry by moving the last one into its place.
  function SwapRemove<T>(s: seq<T>, i: nat): (r: seq<T>)
    requires i < |s|
    ensures |r| == |s| - 1
  {
    s[i := s[|s| - 1]][..|s| - 1]
  }

  lemma SwapRemoveNoDup<T>(s: seq<T>, i: nat)
    requires i < |s| && NoDup(s)
    ensures NoDup(SwapRemove(s, i))
    ensures forall x :: x in SwapRemove(s, i) <==> x in s && x != s[i]
  {
    var r, n := SwapRemove(s, i), |s| - 1;
    assert forall k :: 0 <= k < n ==> r[k] == if k == i then s[n] else s[k];
    forall x | x in s && x != s[i] ensures x in r {
      var k :| 0 <= k < |s| && s[k] == x;
      if k == n { assert r[i] == x; } else { assert r[k] == x; }
    }
  }

  lemma SortedPrefix(c: Clause, j: nat)
    requires Sorted(c) && j < |c|
    ensures c[j] !in c[..j]
  {
  }

  class CoprocessorData {
    var ca: seq<Cls>
    var occs: Occs
    var trail: seq<Lit>
    var qhead: nat
    var ok: bool
    var undo: seq<Mark>
    const frozen: set<nat>          // variables whose meaning must not change

    ghost const input: set<Clause>  // the formula that is to be loaded
    ghost var frozenMet: bool       // covered clause elimination has added a literal of a frozen variable
    ghost var origin: set<Clause>   // the formula with which variable elimination began

    constructor (ghost formula: set<Clause>, doNotTouch: set<nat>)
      ensures Valid() && ok && !HasToPropagate() && ca == [] && trail == [] && undo == []
      ensures F() == {} && input == formula && frozen == doNotTouch && !frozenMet
    {
      ca, occs, trail, qhead, ok, undo := [], map[], [], 0, true, [];
      frozen, input, frozenMet, origin := doNotTouch, formula, false, {};
    }

    ghost predicate Valid()
      reads this
    {
      && ClausesOk(ca) && OccsOk(ca, occs)
      && TrailOk(trail) && qhead <= |trail| && (ok ==> Propagated(ca, trail[..qhead]))
      && WellFormed(undo) && NoEmptySegment(undo)
    }

    ghost function F(): set<Clause>
      reads this
    {
      FormulaOf(ca, trail, ok)
    }

    // The run so far: every model of the current formula, extended with the undo stack,
    // is a model of the input, and the input has a model only if the formula has one.
    // The repairs do not change frozen variables, as long as covered clause elimination
    // has not met one.
    ghost predicate Sound()
      reads this
      requires WellFormed(undo)
    {
      Step(input, F(), Segs(undo)) && (frozenMet || PivotsFree(frozen, Segs(undo)))
    }

    function Value(l: Lit): LBool
      reads this
    {
      if l in trail then True else if Neg(l) in trail then False else Undef
    }

    predicate HasToPropagate()
      reads this
    {
      |trail| != qhead
    }

    // set_delete and removedClause.
    method Delete(cr: CRef)
      requires Valid() && cr < |ca|
      modifies `ca
      ensures Valid() && ca == old(ca)[cr := old(ca)[cr].(deleted := true)]
    {
      DeleteKeepsOccs(ca, cr, occs);
      ca := ca[cr := ca[cr].(deleted := true)];
    }

    // alloc and addClause: the new clause is entered in the list of each of its literals.
    method AddClause(c: Clause) returns (cr: CRef)
      requires Valid() && Proper(c)
      requires ok ==> forall l :: l in c ==> Unassigned(trail[..qhead], l)
      modifies `ca, `occs
      ensures Valid() && cr == |old(ca)| && ca == old(ca) + [Cls(c, false)]
      ensures forall l :: List(occs, l) == List(old(occs), l) + if l in c then [cr] else []
    {
      cr := |ca|;
      Enter(cr, c);
      AddKeepsOccs(ca, old(occs), c, occs);
      AddKeepsClauses(ca, c, trail[..qhead]);
      ca := ca + [Cls(c, false)];
    }

    method Enter(cr: CRef, c: Clause)
      requires Sorted(c)
      modifies `occs
      ensures forall l :: List(occs, l) == List(old(occs), l) + if l in c then [cr] else []
    {
      var j := 0;
      while j < |c|
        invariant 0 <= j <= |c|
        invariant forall l :: List(occs, l) == List(old(occs), l) + if l in c[..j] then [cr] else []
      {
        SortedPrefix(c, j);
        assert c[..j + 1] == c[..j] + [c[j]];
        occs := occs[c[j] := List(occs, c[j]) + [cr]];
        j := j + 1;
      }
      assert c[..j] == c;
    }

    // removeClauseFrom: the last entry of the list takes the place of the reference. The
    // result tells whether the reference was there.
    method RemoveClauseFrom(cr: CRef, l: Lit) returns (found: bool, ghost at: nat)
      modifies `occs
      ensures forall k :: k != l ==> List(occs, k) == List(old(occs), k)
      ensures found <==> cr in List(old(occs), l)
      ensures found ==> at < |List(old(occs), l)| && List(old(occs), l)[at] == cr && cr !in List(old(occs), l)[..at]
      ensures List(occs, l) == if found then SwapRemove(List(old(occs), l), at) else List(old(occs), l)
      ensures NoDup(List(old(occs), l)) ==> NoDup(List(occs, l))
      ensures NoDup(List(old(occs), l)) ==> forall i :: i in List(occs, l) <==> i in List(old(occs), l) && i != cr
    {
      var list := List(occs, l);
      at := 0;
      var i := 0;
      while i < |list|
        invariant 0 <= i <= |list| && occs == old(occs) && cr !in list[..i]
      {
        if list[i] == cr {
          if NoDup(list) { SwapRemoveNoDup(list, i); }
          occs := occs[l := SwapRemove(list, i)];
          return true, i;
        }
        i := i + 1;
      }
      assert list[..i] == list;
      found := false;
    }

    // enqueue: False on a conflict, Undef if the literal was true already.
    method Enqueue(l: Lit) returns (status: LBool)
      requires Valid()
      modifies `trail, `ok
      ensures Valid()
      ensures status == False <==> Neg(l) in old(trail)
      ensures status == True <==> Neg(l) !in old(trail) && l !in old(trail)
      ensures trail == if status == True then old(trail) + [l] else old(trail)
      ensures ok == (old(ok) && status != False)
    {
      assert trail[..qhead] == (trail + [l])[..qhead];
      if Value(l) == False {
        ok := false;
        status := False;
      } else if Value(l) == Undef {
        trail := trail + [l];
        status := True;
      } else {
        status := Undef;
      }
    }

    // addToExtension: the pivot is stored first.
    method AddToExtension(c: Clause, p: Lit)
      requires Valid() && p in c
      modifies `undo
      ensures Valid() && Segs(undo) == Segs(old(undo)) + [PivotFirst(c, p)]
    {
      SegsAppend(undo, PivotFirst(c, p));
      undo := undo + [Sep] + Marks(PivotFirst(c, p));
    }

    // addExtensionToExtension: copies a prepared piece of stack.
    method AddExtensionToExtension(marks: seq<Mark>)
      requires Valid() && WellFormed(marks) && NoEmptySegment(marks)
      modifies `undo
      ensures Valid() && Segs(undo) == Segs(old(undo)) + Segs(marks)
    {
      SegsConcat(undo, marks);
      undo := undo + marks;
    }
  }

  lemma DeleteKeepsOccs(ca: seq<Cls>, cr: CRef, occs: Occs)
    requires OccsOk(ca, occs) && cr < |ca|
    ensures OccsOk(ca[cr := ca[cr].(deleted := true)], occs)
  {
  }

  lemma AddKeepsOccs(ca: seq<Cls>, was: Occs, c: Clause, occs: Occs)
    requires OccsOk(ca, was)
    requires forall l :: List(occs, l) == List(was, l) + if l in c then [|ca|] else []
    ensures OccsOk(ca + [Cls(c, false)], occs)
  {
    forall l, i ensures InList(occs, l, i) <==> InList(was, l, i) || (i == |ca| && l in c) {
      if i == |ca| && l in c { assert List(occs, l)[|List(was, l)|] == i; }
    }
    forall l ensures NoDup(List(occs, l)) {
      assert forall k :: 0 <= k < |List(was, l)| ==> InList(was, l, List(was, l)[k]);
    }
  }

  lemma AddKeepsClauses(ca: seq<Cls>, c: Clause, done: seq<Lit>)
    requires ClausesOk(ca) && Proper(c)
    ensures ClausesOk(ca + [Cls(c, false)])
    ensures Propagated(ca, done) && (forall l :: l in c ==> Unassigned(done, l)) ==> Propagated(ca + [Cls(c, false)], done)
  {
  }
}
