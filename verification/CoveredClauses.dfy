// Covered literal addition (coprocessor/techniques/BCE.cc, coverdLiteralAddition).

module CoveredClauses {
  import opened Collections
  import opened Sat
  import opened Undo
  import opened Steps
  import opened Formula
  import opened Resolvents
  import opened BlockedClauses
  import Propagation

  // Some live clause among the first n can be resolved with c on p without a tautology.
  ghost predicate HasResolvent(ca: seq<Cls>, list: seq<CRef>, n: nat, c: Clause, p: Lit)
    requires ListOk(ca, list) && n <= |list|
  {
    !AllClash(ca, list, n, c, p)
  }

  // l is in every partner that does not clash.
  ghost predicate InAllPartners(ca: seq<Cls>, list: seq<CRef>, n: nat, c: Clause, p: Lit, l: Lit)
    requires ListOk(ca, list) && n <= |list|
  {
    forall k :: 0 <= k < n && !ca[list[k]].deleted && !Clash(c, p, ca[list[k]].lits) ==> l in ca[list[k]].lits
  }

  // lits is the intersection of the partners, without the literal that is resolved away.
  ghost predicate Intersection(ca: seq<Cls>, list: seq<CRef>, n: nat, c: Clause, p: Lit, lits: seq<Lit>)
    requires ListOk(ca, list) && n <= |list|
  {
    Sorted(lits) && forall l :: l in lits <==>
      HasResolvent(ca, list, n, c, p) && l != Neg(p) && InAllPartners(ca, list, n, c, p, l)
  }

  lemma NextInAll(ca: seq<Cls>, list: seq<CRef>, n: nat, c: Clause, p: Lit)
    requires ListOk(ca, list) && n < |list|
    ensures HasResolvent(ca, list, n + 1, c, p) <==>
              (HasResolvent(ca, list, n, c, p) || (!ca[list[n]].deleted && !Clash(c, p, ca[list[n]].lits)))
    ensures forall l {:trigger InAllPartners(ca, list, n + 1, c, p, l)} {:trigger InAllPartners(ca, list, n, c, p, l)} ::
              InAllPartners(ca, list, n + 1, c, p, l) <==>
              (InAllPartners(ca, list, n, c, p, l) && (ca[list[n]].deleted || Clash(c, p, ca[list[n]].lits) || l in ca[list[n]].lits))
  {
  }

  // With no partner before n, every literal is in all of them.
  lemma FirstPartner(ca: seq<Cls>, list: seq<CRef>, n: nat, c: Clause, p: Lit, l: Lit)
    requires ListOk(ca, list) && n <= |list| && !HasResolvent(ca, list, n, c, p)
    ensures InAllPartners(ca, list, n, c, p, l)
  {
  }

  // Intersects the partners of c on p. Stops once nothing is left.
  method Intersect(ca: seq<Cls>, list: seq<CRef>, c: Clause, p: Lit) returns (lits: seq<Lit>, canCla: bool)
    requires ClausesOk(ca) && Proper(c) && ListOk(ca, list)
    ensures Intersection(ca, list, |list|, c, p, lits)
    ensures lits != [] ==> canCla
  {
    hide HasResolvent, InAllPartners, ClausesOk, Proper;
    lits, canCla := [], false;
    StartIntersection(ca, list, c, p);
    var j := 0;
    while j < |list|
      invariant 0 <= j <= |list| && Intersection(ca, list, j, c, p, lits)
      invariant canCla <==> HasResolvent(ca, list, j, c, p)
    {
      NextInAll(ca, list, j, c, p);
      var d := ca[list[j]];
      if !d.deleted {
        ProperAt(ca, list[j]);
        var tautLit := TautologicResolvent(c, d.lits, p);
        if tautLit.None? {
          if !canCla {
            forall l { FirstPartner(ca, list, j, c, p, l); }
            lits := CopyExcept(d.lits, Neg(p));
            canCla := true;
          } else {
            lits := KeepMarked(lits, d.lits);
            if |lits| == 0 {
              EmptyForGood(ca, list, j + 1, c, p, lits);
              return;
            }
          }
        }
      }
      j := j + 1;
    }
    assert lits != [] ==> lits[0] in lits;
  }

  lemma StartIntersection(ca: seq<Cls>, list: seq<CRef>, c: Clause, p: Lit)
    requires ListOk(ca, list)
    ensures !HasResolvent(ca, list, 0, c, p)
  {
  }

  lemma EmptyForGood(ca: seq<Cls>, list: seq<CRef>, n: nat, c: Clause, p: Lit, lits: seq<Lit>)
    requires ListOk(ca, list) && n <= |list| && Intersection(ca, list, n, c, p, lits) && lits == []
    requires HasResolvent(ca, list, n, c, p)
    ensures Intersection(ca, list, |list|, c, p, lits)
  {
    forall l | l != Neg(p) ensures !InAllPartners(ca, list, |list|, c, p, l) {
      assert !InAllPartners(ca, list, n, c, p, l);
    }
  }

  method CopyExcept(d: Clause, l: Lit) returns (r: seq<Lit>)
    requires Sorted(d)
    ensures Sorted(r) && forall x :: x in r <==> x in d && x != l
  {
    r := [];
    var k := 0;
    while k < |d|
      invariant 0 <= k <= |d| && Sorted(r) && forall x :: x in r <==> x in d[..k] && x != l
    {
      assert d[..k + 1] == d[..k] + [d[k]];
      if d[k] != l {
        AppendSorted(d, k, r);
        r := r + [d[k]];
      }
      k := k + 1;
    }
    assert d[..k] == d;
  }

  // ---------- building the longer clause ----------

  // Clause::sort: insertion sort by literal code.
  method SortClause(c: Clause) returns (r: Clause)
    requires NoDup(c)
    ensures Sorted(r) && forall l :: l in r <==> l in c
  {
    r := [];
    var j := 0;
    while j < |c|
      invariant 0 <= j <= |c| && Sorted(r) && forall l :: l in r <==> l in c[..j]
    {
      assert c[..j + 1] == c[..j] + [c[j]];
      assert c[j] !in c[..j];
      r := Insert(r, c[j]);
      j := j + 1;
    }
    assert c[..j] == c;
  }

  method Insert(s: Clause, key: Lit) returns (r: Clause)
    requires Sorted(s) && key !in s
    ensures Sorted(r) && forall l :: l in r <==> l in s || l == key
  {
    var i := |s|;
    while i > 0 && Code(s[i - 1]) > Code(key)
      invariant 0 <= i <= |s| && forall k :: i <= k < |s| ==> Code(s[k]) > Code(key)
    {
      i := i - 1;
    }
    r := s[..i] + [key] + s[i..];
    InsertedAt(s, i, key);
  }

  lemma InsertedMembers(s: Clause, i: nat, key: Lit)
    requires i <= |s|
    ensures forall l :: l in s[..i] + [key] + s[i..] <==> l in s || l == key
  {
    assert s == s[..i] + s[i..];
  }

  lemma InsertedAt(s: Clause, i: nat, key: Lit)
    requires Sorted(s) && key !in s && i <= |s|
    requires (forall k :: i <= k < |s| ==> Code(s[k]) > Code(key)) && (i > 0 ==> Code(s[i - 1]) <= Code(key))
    ensures Sorted(s[..i] + [key] + s[i..])
    ensures forall l :: l in s[..i] + [key] + s[i..] <==> l in s || l == key
  {
    InsertedMembers(s, i, key);
    var r := s[..i] + [key] + s[i..];
    if i > 0 {
      assert s[i - 1] in s;
      assert Code(s[i - 1]) < Code(key) by { if Code(s[i - 1]) == Code(key) { CodeInjective(s[i - 1], key); } }
    }
    forall a, b | 0 <= a < b < |r| ensures Code(r[a]) < Code(r[b]) {
      assert r[a] == if a < i then s[a] else if a == i then key else s[a - 1];
      assert r[b] == if b < i then s[b] else if b == i then key else s[b - 1];
    }
  }

  // The literals of c that are not yet in lits are appended; a literal whose complement
  // is in lits would make the clause a tautology.
  method AppendRest(lits: seq<Lit>, c: Clause) returns (r: seq<Lit>, isTaut: bool)
    requires Sorted(lits) && Sorted(c)
    ensures isTaut <==> exists x :: x in c && Neg(x) in lits
    ensures !isTaut ==> NoDup(r) && forall l :: l in r <==> l in lits || l in c
  {
    r, isTaut := lits, false;
    var marked := Lits(lits);
    var k := 0;
    while k < |c|
      invariant 0 <= k <= |c| && NoDup(r)
      invariant forall l :: l in r <==> l in lits || l in c[..k]
      invariant forall x :: x in c[..k] ==> Neg(x) !in lits
    {
      assert c[..k + 1] == c[..k] + [c[k]];
      SortedPrefix(c, k);
      if Neg(c[k]) in marked {
        assert c[k] in c;
        isTaut := true;
        r := r + [c[k]];
        return;
      } else if c[k] !in marked {
        r := r + [c[k]];
      }
      k := k + 1;
    }
    assert c[..k] == c;
  }

  // The intersection never clashes with c, so the longer clause is not a tautology.
  lemma NoTautology(data: CoprocessorData, c: Clause, p: Lit, lits: seq<Lit>)
    requires data.Valid() && Proper(c) && ListOk(data.ca, List(data.occs, Neg(p)))
    requires Intersection(data.ca, List(data.occs, Neg(p)), |List(data.occs, Neg(p))|, c, p, lits)
    ensures forall x :: x in c ==> Neg(x) !in lits
    ensures forall l :: l in lits ==> l.v != p.v && Neg(l) !in lits
    ensures data.ok ==> forall l :: l in lits ==> Unassigned(data.trail[..data.qhead], l)
  {
    var list := List(data.occs, Neg(p));
    if lits != [] {
      assert lits[0] in lits;
      assert HasResolvent(data.ca, list, |list|, c, p);
      var k :| 0 <= k < |list| && !data.ca[list[k]].deleted && !Clash(c, p, data.ca[list[k]].lits);
      var d := data.ca[list[k]].lits;
      assert InList(data.occs, Neg(p), list[k]);
      assert Proper(d) && Neg(p) in d;
      forall l | l in lits ensures l in d && l != p {
        assert InAllPartners(data.ca, list, |list|, c, p, l);
      }
    }
  }

  lemma AdditionCovered(data: CoprocessorData, cr: CRef, p: Lit, lits: seq<Lit>)
    requires Ready(data) && cr < |data.ca| && !data.ca[cr].deleted && p in data.ca[cr].lits
    requires ListOk(data.ca, List(data.occs, Neg(p)))
    requires Intersection(data.ca, List(data.occs, Neg(p)), |List(data.occs, Neg(p))|, data.ca[cr].lits, p, lits)
    ensures Covered(Rest(data, cr), data.ca[cr].lits, p, Lits(lits))
  {
    LiteralUnassigned(data, cr, p);
    var c := data.ca[cr].lits;
    ProperAt(data.ca, cr);
    NoTautology(data, c, p, lits);
    var list := List(data.occs, Neg(p));
    forall d | d in Rest(data, cr) && Neg(p) in d && !Clash(c, p, d)
      ensures forall l :: l in Lits(lits) ==> l in d && l.v != p.v
    {
      PartnersListed(data, cr, p, d);
      forall l | l in lits ensures l in d {
        assert InAllPartners(data.ca, list, |list|, c, p, l);
      }
    }
  }

  // Clause cr is replaced by a longer one and goes to the undo stack with pivot p.
  method ReplaceByLonger(data: CoprocessorData, cr: CRef, p: Lit, lits: seq<Lit>, k: Clause)
    requires Ready(data) && data.Sound() && cr < |data.ca| && !data.ca[cr].deleted && p in data.ca[cr].lits
    requires Proper(k) && Lits(k) == Lits(data.ca[cr].lits) + Lits(lits)
    requires Covered(Rest(data, cr), data.ca[cr].lits, p, Lits(lits)) && p.v !in data.frozen
    requires forall l :: l in lits ==> Unassigned(data.trail[..data.qhead], l)
    modifies data`ca, data`occs, data`undo
    ensures Ready(data) && data.Sound()
    ensures data.ca == Propagation.Dropped(old(data.ca), cr) + [Cls(k, false)]
    ensures forall l :: List(data.occs, l) == List(old(data.occs), l) + if l in k then [|old(data.ca)|] else []
    ensures Segs(data.undo) == Segs(old(data.undo)) + [PivotFirst(old(data.ca)[cr].lits, p)]
  {
    hide *;
    ReadyParts(data);
    LongerUnassigned(data, cr, lits, k);
    ReplacedSound(data, cr, p, lits, k);
    StoreLonger(data, cr, p, k);
    SoundAgain(data);
  }

  // The three calls.
  method StoreLonger(data: CoprocessorData, cr: CRef, p: Lit, k: Clause)
    requires data.Valid() && cr < |data.ca| && p in data.ca[cr].lits && Proper(k)
    requires forall l :: l in k ==> Unassigned(data.trail[..data.qhead], l)
    modifies data`ca, data`occs, data`undo
    ensures data.Valid() && data.ca == Propagation.Dropped(old(data.ca), cr) + [Cls(k, false)]
    ensures forall l :: List(data.occs, l) == List(old(data.occs), l) + if l in k then [|old(data.ca)|] else []
    ensures Segs(data.undo) == Segs(old(data.undo)) + [PivotFirst(old(data.ca)[cr].lits, p)]
  {
    hide OccsOk, ClausesOk, Propagated, TrailOk, Proper, Segs, PivotFirst, Unassigned, List;
    var c := data.ca[cr].lits;
    data.Delete(cr);
    data.AddToExtension(c, p);
    var newClause := data.AddClause(k);
  }

  lemma ReadyParts(data: CoprocessorData)
    requires Ready(data)
    ensures data.Valid() && data.ok && data.qhead == |data.trail|
  {
  }

  // What holds for the state with the longer clause and the longer stack.
  lemma ReplacedSound(data: CoprocessorData, cr: CRef, p: Lit, lits: seq<Lit>, k: Clause)
    requires Ready(data) && data.Sound() && cr < |data.ca| && !data.ca[cr].deleted && p.v !in data.frozen
    requires Lits(k) == Lits(data.ca[cr].lits) + Lits(lits)
    requires Covered(Rest(data, cr), data.ca[cr].lits, p, Lits(lits))
    ensures var segs := Segs(data.undo) + [PivotFirst(data.ca[cr].lits, p)];
      && Step(data.input, FormulaOf(Propagation.Dropped(data.ca, cr) + [Cls(k, false)], data.trail, data.ok), segs)
      && (data.frozenMet || PivotsFree(data.frozen, segs))
  {
    hide Covered, Rest, OccsOk, ClausesOk, Propagated, TrailOk, Step, FormulaOf, PivotsFree;
    AdditionSound(data, cr, p, lits, k);
    OnePivotFree(data.frozen, data.ca[cr].lits, p);
    PivotsFreeConcat(data.frozen, Segs(data.undo), [PivotFirst(data.ca[cr].lits, p)]);
  }

  lemma SoundAgain(data: CoprocessorData)
    requires data.Valid() && data.ok && data.qhead == |data.trail|
    requires Step(data.input, FormulaOf(data.ca, data.trail, data.ok), Segs(data.undo))
    requires data.frozenMet || PivotsFree(data.frozen, Segs(data.undo))
    ensures Ready(data) && data.Sound()
  {
    hide OccsOk, ClausesOk, Propagated, TrailOk, Step, FormulaOf, PivotsFree;
  }

  lemma LongerUnassigned(data: CoprocessorData, cr: CRef, lits: seq<Lit>, k: Clause)
    requires Ready(data) && cr < |data.ca| && !data.ca[cr].deleted && Lits(k) == Lits(data.ca[cr].lits) + Lits(lits)
    requires forall l :: l in lits ==> Unassigned(data.trail[..data.qhead], l)
    ensures forall l :: l in k ==> Unassigned(data.trail[..data.qhead], l)
  {
    forall l | l in k ensures Unassigned(data.trail[..data.qhead], l) {
      assert l in Lits(k);
    }
  }

  lemma AdditionSound(data: CoprocessorData, cr: CRef, p: Lit, lits: seq<Lit>, k: Clause)
    requires Ready(data) && data.Sound() && cr < |data.ca| && !data.ca[cr].deleted
    requires Lits(k) == Lits(data.ca[cr].lits) + Lits(lits)
    requires Covered(Rest(data, cr), data.ca[cr].lits, p, Lits(lits))
    ensures Step(data.input, FormulaOf(Propagation.Dropped(data.ca, cr) + [Cls(k, false)], data.trail, data.ok),
              Segs(data.undo) + [PivotFirst(data.ca[cr].lits, p)])
  {
    var c := data.ca[cr].lits;
    ProperAt(data.ca, cr);
    FormulaDelete(data.ca, cr, data.trail, data.ok);
    FormulaAdd(Propagation.Dropped(data.ca, cr), k, data.trail, data.ok);
    CoveredAdditionStep(Rest(data, cr), c, p, Lits(lits), k);
    StepCompose(data.input, data.F(), Rest(data, cr) + {k}, Segs(data.undo), [PivotFirst(c, p)]);
  }

  // There is a partner, and all partners share a literal.
  ghost predicate CanExtend(ca: seq<Cls>, cr: CRef, list: seq<CRef>, p: Lit)
    requires cr < |ca| && ListOk(ca, list)
  {
    exists l :: HasResolvent(ca, list, |list|, ca[cr].lits, p) && l != Neg(p)
      && InAllPartners(ca, list, |list|, ca[cr].lits, p, l)
  }

  // cr is gone; the new last clause has its literals and those of all partners.
  ghost predicate ExtendedBy(was: seq<Cls>, ca: seq<Cls>, cr: CRef, list: seq<CRef>, p: Lit)
    requires cr < |was| && ListOk(was, list)
  {
    |ca| == |was| + 1 && ca[..|was|] == Propagation.Dropped(was, cr) && LongerBy(was, cr, list, p, ca[|was|])
  }

  // The clause has the literals of cr and those that all partners share.
  ghost predicate LongerBy(was: seq<Cls>, cr: CRef, list: seq<CRef>, p: Lit, longer: Cls)
    requires cr < |was| && ListOk(was, list)
  {
    !longer.deleted && forall l :: l in longer.lits <==>
      (l in was[cr].lits || (l != Neg(p) && InAllPartners(was, list, |list|, was[cr].lits, p, l)))
  }

  // Clause cr is tried on p: it is replaced by the longer clause, which is listed once under
  // each of its literals, and goes to the undo stack; or nothing changes.
  ghost predicate ExtendStep(s: State, t: State, cr: CRef, p: Lit) {
    && cr < |s.ca| && ListOk(s.ca, List(s.occs, Neg(p))) && t.trail == s.trail && WellFormed(s.undo) && WellFormed(t.undo)
    && (if CanExtend(s.ca, cr, List(s.occs, Neg(p)), p) then
          && ExtendedBy(s.ca, t.ca, cr, List(s.occs, Neg(p)), p)
          && (forall l :: List(t.occs, l) == List(s.occs, l) + if l in t.ca[|s.ca|].lits then [|s.ca|] else [])
          && Segs(t.undo) == Segs(s.undo) + [PivotFirst(s.ca[cr].lits, p)]
        else t == s)
  }

  // Extends one clause by the literals that all its resolution partners on p share.
  method ExtendClause(data: CoprocessorData, cr: CRef, p: Lit)
    requires Ready(data) && data.Sound() && cr < |data.ca| && !data.ca[cr].deleted && p in data.ca[cr].lits
    requires p.v !in data.frozen
    modifies data`ca, data`occs, data`undo
    ensures Ready(data) && data.Sound() && NoUnitsKept(old(data.ca), data.ca)
    ensures List(old(data.occs), p) <= List(data.occs, p)
    ensures ExtendStep(old(Now(data)), Now(data), cr, p)
  {
    hide Rest, Covered, Step, FormulaOf, HasResolvent, InAllPartners, Sorted, Intersection, CanExtend, ExtendedBy, NoUnitsKept;
    hide OccsOk, TrailOk, Propagated, PivotsFree, Tautology;
    var c := data.ca[cr].lits;
    ListInRange(data, Neg(p));
    ProperAt(data.ca, cr);
    NoUnitsRefl(data.ca);
    var lits, canCla := Intersect(data.ca, List(data.occs, Neg(p)), c, p);
    ghost var was, list := data.ca, List(data.occs, Neg(p));
    IntersectionMeans(was, cr, list, p, lits);
    if |lits| > 0 && canCla {
      NoTautology(data, c, p, lits);
      AdditionCovered(data, cr, p, lits);
      SortedIntersection(was, list, c, p, lits);
      var all, isTaut := AppendRest(lits, c);
      if !isTaut {
        var k := SortClause(all);
        LongerProper(c, lits, k);
        LongerNoUnits(data.ca, cr, k);
        ReplaceByLonger(data, cr, p, lits, k);
        IsExtended(was, cr, list, p, lits, k);
      }
    }
  }

  // There is something to add if and only if the intersection is not empty.
  lemma IntersectionMeans(ca: seq<Cls>, cr: CRef, list: seq<CRef>, p: Lit, lits: seq<Lit>)
    requires cr < |ca| && ListOk(ca, list) && Intersection(ca, list, |list|, ca[cr].lits, p, lits)
    ensures CanExtend(ca, cr, list, p) <==> |lits| > 0
  {
    hide HasResolvent, InAllPartners;
    if |lits| > 0 { assert lits[0] in lits; }
  }

  lemma SortedIntersection(ca: seq<Cls>, list: seq<CRef>, c: Clause, p: Lit, lits: seq<Lit>)
    requires ListOk(ca, list) && Intersection(ca, list, |list|, c, p, lits)
    ensures Sorted(lits)
  {
  }

  lemma IsExtended(was: seq<Cls>, cr: CRef, list: seq<CRef>, p: Lit, lits: seq<Lit>, k: Clause)
    requires cr < |was| && ListOk(was, list) && Intersection(was, list, |list|, was[cr].lits, p, lits) && lits != []
    requires forall l :: l in k <==> l in lits || l in was[cr].lits
    ensures ExtendedBy(was, Propagation.Dropped(was, cr) + [Cls(k, false)], cr, list, p)
  {
    hide HasResolvent, InAllPartners;
    var ca := Propagation.Dropped(was, cr) + [Cls(k, false)];
    assert ca[..|was|] == Propagation.Dropped(was, cr);
    assert lits[0] in lits;
  }

  lemma LongerNoUnits(ca: seq<Cls>, cr: CRef, k: Clause)
    requires cr < |ca| && !ca[cr].deleted && Sorted(ca[cr].lits) && Sorted(k) && Lits(ca[cr].lits) <= Lits(k)
    ensures NoUnitsKept(ca, Propagation.Dropped(ca, cr) + [Cls(k, false)])
  {
    SortedSize(ca[cr].lits);
    SortedSize(k);
    SubsetCard(Lits(ca[cr].lits), Lits(k));
  }

  lemma LongerProper(c: Clause, lits: seq<Lit>, k: Clause)
    requires !Tautology(c) && Sorted(k) && forall l :: l in k <==> l in lits || l in c
    requires forall x :: x in c ==> Neg(x) !in lits
    requires forall x :: x in lits ==> Neg(x) !in lits
    ensures Proper(k) && Lits(k) == Lits(c) + Lits(lits)
  {
    forall l | l in k ensures Neg(l) !in k {
      assert Neg(Neg(l)) == l;
    }
  }

  ghost predicate TryStep(s: State, t: State, cr: CRef, p: Lit) {
    cr < |s.ca| && if !s.ca[cr].deleted && LeastFrequent(s.occs, s.ca[cr].lits, p) then ExtendStep(s, t, cr, p) else t == s
  }

  // A clause of the list is extended if it is still there and p is among its least
  // frequent literals.
  method TryExtend(data: CoprocessorData, cr: CRef, p: Lit)
    requires Ready(data) && data.Sound() && cr < |data.ca| && (!data.ca[cr].deleted ==> p in data.ca[cr].lits)
    requires p.v !in data.frozen
    modifies data`ca, data`occs, data`undo
    ensures Ready(data) && data.Sound() && NoUnitsKept(old(data.ca), data.ca)
    ensures List(old(data.occs), p) <= List(data.occs, p)
    ensures TryStep(old(Now(data)), Now(data), cr, p)
  {
    hide Step, FormulaOf, InAllPartners, NoUnitsKept, LeastFrequent, ExtendStep;
    NoUnitsRefl(data.ca);
    ListInRange(data, Neg(p));
    if !data.ca[cr].deleted && LeastFrequent(data.occs, data.ca[cr].lits, p) {
      ExtendClause(data, cr, p);
    }
  }

  // The states between the clauses of the first n list entries, which are tried one after
  // the other.
  ghost predicate Tries(states: seq<State>, p: Lit, n: nat) {
    && |states| == n + 1 && n <= |List(states[0].occs, p)|
    && forall i :: 0 <= i < n ==> TryStep(states[i], states[i + 1], List(states[0].occs, p)[i], p)
  }

  lemma TriesNext(states: seq<State>, p: Lit, n: nat, t: State)
    requires Tries(states, p, n) && n < |List(states[0].occs, p)|
    requires TryStep(states[n], t, List(states[0].occs, p)[n], p)
    ensures Tries(states + [t], p, n + 1)
  {
    hide TryStep;
  }

  // Works on the clauses that were in the list of p at the start.
  method ExtendClausesOf(data: CoprocessorData, p: Lit) returns (ghost states: seq<State>)
    requires Ready(data) && data.Sound()
    modifies data`ca, data`occs, data`undo
    ensures Ready(data) && data.Sound() && NoUnitsKept(old(data.ca), data.ca)
    ensures LiteralTried(data.frozen, p, states) && states != [] && states[0] == old(Now(data)) && states[|states| - 1] == Now(data)
  {
    hide Step, FormulaOf, InAllPartners, NoUnitsKept, Tries, TryStep;
    NoUnitsRefl(data.ca);
    states := [Now(data)];
    NoneTried(states, p);
    if p.v in data.frozen { return; }
    ghost var list := List(data.occs, p);
    var listSize := |List(data.occs, p)|;
    var i := 0;
    while i < listSize
      invariant 0 <= i <= listSize == |list| && list <= List(data.occs, p) && Ready(data) && data.Sound()
      invariant NoUnitsKept(old(data.ca), data.ca)
      invariant |states| == i + 1 && states[0] == old(Now(data)) && states[i] == Now(data) && Tries(states, p, i)
    {
      ListEntry(data, p, i);
      ghost var mid := data.ca;
      TryExtend(data, List(data.occs, p)[i], p);
      NoUnitsTrans(old(data.ca), mid, data.ca);
      TriesNext(states, p, i, Now(data));
      states := states + [Now(data)];
      i := i + 1;
    }
  }

  // A frozen literal is left alone; otherwise all clauses of its list are tried.
  ghost predicate LiteralTried(frozen: set<nat>, p: Lit, states: seq<State>) {
    states != [] && Tries(states, p, if p.v in frozen then 0 else |List(states[0].occs, p)|)
  }

  lemma NoneTried(states: seq<State>, p: Lit)
    requires |states| == 1
    ensures Tries(states, p, 0)
  {
  }

  predicate LeastFrequent(occs: Occs, c: Clause, p: Lit): (r: bool)
    ensures r <==> forall l :: l in c ==> |List(occs, l)| >= |List(occs, p)|
  {
    forall k :: 0 <= k < |c| ==> |List(occs, c[k])| >= |List(occs, p)|
  }

  // What is left alone while the first k entries are tried: the clauses that are not among
  // them, and the partners.
  ghost predicate Elsewhere(s: State, t: State, p: Lit, k: nat)
    requires k <= |List(s.occs, p)|
  {
    && |s.ca| <= |t.ca| && List(t.occs, Neg(p)) == List(s.occs, Neg(p))
    && forall i :: 0 <= i < |s.ca| && i !in List(s.occs, p)[..k] ==> t.ca[i] == s.ca[i]
  }

  // Every entry of the list: its clause goes if and only if it is alive, p is then among its
  // least frequent literals and it can be extended by what its partners share at the start.
  ghost predicate Fate(states: seq<State>, p: Lit, k: nat, t: State)
    requires k < |states| && k < |List(states[0].occs, p)|
  {
    var s, cr := states[0], List(states[0].occs, p)[k];
    && cr < |s.ca| <= |t.ca| && ListOk(s.ca, List(s.occs, Neg(p)))
    && if !s.ca[cr].deleted && LeastFrequent(states[k].occs, s.ca[cr].lits, p) && CanExtend(s.ca, cr, List(s.occs, Neg(p)), p) then
         && t.ca[cr] == s.ca[cr].(deleted := true)
         && exists i :: |s.ca| <= i < |t.ca| && LongerBy(s.ca, cr, List(s.occs, Neg(p)), p, t.ca[i])
       else
         t.ca[cr] == s.ca[cr]
  }

  // Nothing else than the clauses of the list has changed, and each of them has its fate.
  ghost predicate Fates(states: seq<State>, p: Lit, k: nat, t: State)
    requires k < |states| && k <= |List(states[0].occs, p)|
  {
    Elsewhere(states[0], t, p, k) && forall i :: 0 <= i < k ==> Fate(states, p, i, t)
  }

  ghost predicate StartOk(s: State) {
    OccsOk(s.ca, s.occs) && ClausesOk(s.ca)
  }

  lemma {:induction false} AllFates(states: seq<State>, p: Lit, n: nat, k: nat)
    requires Tries(states, p, n) && k <= n && StartOk(states[0])
    ensures Fates(states, p, k, states[k])
  {
    if k > 0 {
      AllFates(states, p, n, k - 1);
      NextFate(states, p, n, k - 1);
    }
  }

  lemma NextFate(states: seq<State>, p: Lit, n: nat, k: nat)
    requires Tries(states, p, n) && k < n && StartOk(states[0]) && Fates(states, p, k, states[k])
    ensures Fates(states, p, k + 1, states[k + 1])
  {
    hide LeastFrequent, CanExtend, LongerBy, OccsOk, ClausesOk, Fate;
    var s, m, t, list := states[0], states[k], states[k + 1], List(states[0].occs, p);
    var cr := list[k];
    ListFacts(s, p, k);
    PartnersStay(states, p, k);
    assert cr in list;
    SameExtension(s.ca, m.ca, cr, List(s.occs, Neg(p)), p);
    assert list[..k + 1] == list[..k] + [cr];
    if t != m { NoComplement(s.ca, cr, List(s.occs, Neg(p)), p, t.ca[|m.ca|]); }
    assert forall i :: 0 <= i < |m.ca| && i != cr ==> t.ca[i] == m.ca[i];
    ThisFate(states, p, k);
    forall i | 0 <= i < k ensures Fate(states, p, i, t) {
      assert list[i] in list;
      FateStays(states, p, i, m, t);
    }
  }

  lemma ThisFate(states: seq<State>, p: Lit, k: nat)
    requires k < |states| - 1 && k < |List(states[0].occs, p)|
    requires var s, m, cr := states[0], states[k], List(states[0].occs, p)[k];
      && cr < |s.ca| <= |m.ca| && m.ca[cr] == s.ca[cr] && List(m.occs, Neg(p)) == List(s.occs, Neg(p))
      && ListOk(s.ca, List(s.occs, Neg(p))) && ListOk(m.ca, List(s.occs, Neg(p)))
      && (CanExtend(m.ca, cr, List(s.occs, Neg(p)), p) <==> CanExtend(s.ca, cr, List(s.occs, Neg(p)), p))
      && (forall d :: LongerBy(m.ca, cr, List(s.occs, Neg(p)), p, d) <==> LongerBy(s.ca, cr, List(s.occs, Neg(p)), p, d))
      && TryStep(m, states[k + 1], cr, p)
    ensures Fate(states, p, k, states[k + 1])
  {
    hide LeastFrequent, CanExtend, LongerBy;
  }

  // The partners are the same all the time.
  lemma PartnersStay(states: seq<State>, p: Lit, k: nat)
    requires k < |states| && k <= |List(states[0].occs, p)| && StartOk(states[0]) && Fates(states, p, k, states[k])
    ensures var s := states[0]; forall i :: i in List(s.occs, Neg(p)) ==> i < |s.ca| && states[k].ca[i] == s.ca[i]
  {
    var s, list := states[0], List(states[0].occs, p);
    forall i | i in List(s.occs, Neg(p)) ensures i < |s.ca| && states[k].ca[i] == s.ca[i] {
      if i in list[..k] {
        var j :| 0 <= j < k && list[j] == i;
        ListFacts(s, p, j);
        hide LeastFrequent, CanExtend, LongerBy;
        assert Fate(states, p, j, states[k]);
      } else {
        assert InList(s.occs, Neg(p), i);
      }
    }
  }

  lemma SameExtension(was: seq<Cls>, ca: seq<Cls>, cr: CRef, list: seq<CRef>, p: Lit)
    requires cr < |was| <= |ca| && ca[cr] == was[cr] && forall i :: i in list ==> i < |was| && ca[i] == was[i]
    ensures ListOk(was, list) && ListOk(ca, list)
    ensures CanExtend(ca, cr, list, p) <==> CanExtend(was, cr, list, p)
    ensures forall d :: LongerBy(ca, cr, list, p, d) <==> LongerBy(was, cr, list, p, d)
  {
    var c := was[cr].lits;
    forall k | 0 <= k < |list| ensures list[k] < |was| && ca[list[k]] == was[list[k]] {
      assert list[k] in list;
    }
    assert HasResolvent(ca, list, |list|, c, p) <==> HasResolvent(was, list, |list|, c, p);
    forall l ensures InAllPartners(ca, list, |list|, c, p, l) <==> InAllPartners(was, list, |list|, c, p, l) {}
    hide HasResolvent, InAllPartners;
  }

  lemma NoComplement(was: seq<Cls>, cr: CRef, list: seq<CRef>, p: Lit, d: Cls)
    requires cr < |was| && ListOk(was, list) && LongerBy(was, cr, list, p, d) && Neg(p) !in was[cr].lits
    ensures Neg(p) !in d.lits
  {
  }

  lemma FateStays(states: seq<State>, p: Lit, i: nat, m: State, t: State)
    requires i < |states| && i < |List(states[0].occs, p)| && Fate(states, p, i, m)
    requires List(states[0].occs, p)[i] < |m.ca| <= |t.ca| && t.ca[List(states[0].occs, p)[i]] == m.ca[List(states[0].occs, p)[i]]
    requires forall k :: |states[0].ca| <= k < |m.ca| ==> t.ca[k] == m.ca[k]
    ensures Fate(states, p, i, t)
  {
    hide LeastFrequent, CanExtend, LongerBy;
  }

  lemma ListFacts(s: State, p: Lit, k: nat)
    requires StartOk(s) && k < |List(s.occs, p)|
    ensures var list := List(s.occs, p); list[k] !in list[..k] && forall i :: 0 <= i < k ==> list[i] != list[k]
    ensures forall i :: i in List(s.occs, p) ==> i < |s.ca| && (!s.ca[i].deleted ==> p in s.ca[i].lits && Neg(p) !in s.ca[i].lits)
    ensures ListOk(s.ca, List(s.occs, Neg(p)))
    ensures forall i :: i in List(s.occs, Neg(p)) && !s.ca[i].deleted ==> i !in List(s.occs, p)
  {
    var list := List(s.occs, p);
    assert NoDup(list);
    forall i | i in list ensures i < |s.ca| && (!s.ca[i].deleted ==> p in s.ca[i].lits && Neg(p) !in s.ca[i].lits) {
      assert InList(s.occs, p, i);
      assert Proper(s.ca[i].lits);
    }
    forall i | i in List(s.occs, Neg(p)) ensures i < |s.ca| && (!s.ca[i].deleted ==> Neg(p) in s.ca[i].lits) {
      assert InList(s.occs, Neg(p), i);
    }
    forall j | 0 <= j < |List(s.occs, Neg(p))| ensures List(s.occs, Neg(p))[j] < |s.ca| {
      assert List(s.occs, Neg(p))[j] in List(s.occs, Neg(p));
    }
  }

  // For every order of the literals: all their clauses are tried, one literal after the
  // other.
  method CoveredLiteralAddition(data: CoprocessorData, order: seq<Lit>) returns (ghost runs: seq<seq<State>>)
    requires Ready(data) && data.Sound()
    modifies data`ca, data`occs, data`undo
    ensures Ready(data) && data.Sound() && NoUnitsKept(old(data.ca), data.ca)
    ensures Runs(data.frozen, order, old(Now(data)), runs, Now(data))
  {
    hide Step, FormulaOf, NoUnitsKept, Runs, LiteralTried;
    NoUnitsRefl(data.ca);
    runs := [];
    var i := 0;
    NoRuns(data.frozen, order, Now(data));
    while i < |order|
      invariant 0 <= i <= |order| && Ready(data) && data.Sound() && NoUnitsKept(old(data.ca), data.ca)
      invariant Runs(data.frozen, order[..i], old(Now(data)), runs, Now(data))
    {
      ghost var mid, was := data.ca, Now(data);
      ghost var states := ExtendClausesOf(data, order[i]);
      NoUnitsTrans(old(data.ca), mid, data.ca);
      RunsNext(data.frozen, order, i, old(Now(data)), runs, was, states, Now(data));
      runs := runs + [states];
      i := i + 1;
    }
    assert order[..i] == order;
  }

  // One run for each literal; each starts in the state in which the last one has ended.
  ghost predicate Runs(frozen: set<nat>, order: seq<Lit>, start: State, runs: seq<seq<State>>, end: State) {
    && |runs| == |order| && (forall i :: 0 <= i < |runs| ==> LiteralTried(frozen, order[i], runs[i]) && runs[i] != [])
    && (forall i :: 0 <= i < |runs| - 1 ==> runs[i][|runs[i]| - 1] == runs[i + 1][0])
    && (if runs == [] then start == end else runs[0][0] == start && runs[|runs| - 1][|runs[|runs| - 1]| - 1] == end)
  }

  lemma NoRuns(frozen: set<nat>, order: seq<Lit>, s: State)
    ensures Runs(frozen, order[..0], s, [], s)
  {
  }

  lemma RunsNext(frozen: set<nat>, order: seq<Lit>, i: nat, start: State, runs: seq<seq<State>>, s: State, states: seq<State>, t: State)
    requires i < |order| && Runs(frozen, order[..i], start, runs, s)
    requires LiteralTried(frozen, order[i], states) && states != [] && states[0] == s && states[|states| - 1] == t
    ensures Runs(frozen, order[..i + 1], start, runs + [states], t)
  {
    hide LiteralTried;
  }
}
