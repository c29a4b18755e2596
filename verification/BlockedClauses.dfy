// Blocked clause elimination and minimisation, covered literal elimination and covered
// literal addition (coprocessor/techniques/BCE.cc).

module BlockedClauses {
  import opened Collections
  import opened Sat
  import opened Undo
  import opened Steps
  import opened Formula
  import opened Resolvents
  import Propagation

  ghost function Work(ca: seq<Cls>, trail: seq<Lit>): nat {
    Propagation.Work(ca, trail)
  }

  datatype Config = Config(bce: bool, bcm: bool, cle: bool, conservative: bool, binary: bool, proof: bool)

  // ---------- filtering the candidates for covered literal elimination ----------

  // Keeps the literals that d contains.
  method KeepMarked(lits: seq<Lit>, d: Clause) returns (r: seq<Lit>)
    requires Sorted(lits)
    ensures Sorted(r) && forall l :: l in r <==> l in lits && l in d
  {
    var marked := Lits(d);
    r := [];
    var k := 0;
    while k < |lits|
      invariant 0 <= k <= |lits| && Sorted(r)
      invariant forall l :: l in r <==> l in lits[..k] && l in d
    {
      assert lits[..k + 1] == lits[..k] + [lits[k]];
      if lits[k] in marked {
        AppendSorted(lits, k, r);
        r := r + [lits[k]];
      }
      k := k + 1;
    }
    assert lits[..k] == lits;
  }

  lemma AppendSorted(lits: seq<Lit>, k: nat, r: seq<Lit>)
    requires Sorted(lits) && k < |lits| && Sorted(r) && forall l :: l in r ==> l in lits[..k]
    ensures Sorted(r + [lits[k]])
  {
    forall i | 0 <= i < |r| ensures Code(r[i]) < Code(lits[k]) {
      assert r[i] in lits[..k];
    }
  }

  // Drops the literals whose complement d contains; both vectors are sorted, so one
  // joint pass is enough.
  method DropNegated(lits: seq<Lit>, d: Clause) returns (r: seq<Lit>)
    requires Proper(lits) && Proper(d)
    ensures Sorted(r) && forall l :: l in r <==> l in lits && Neg(l) !in d
  {
    hide Proper;
    var k, l := 0, 0;
    r := [];
    while k < |lits| && l < |d|
      invariant 0 <= k <= |lits| && 0 <= l <= |d| && Filtered(lits, d, k, l, r)
      decreases |lits| - k + |d| - l
    {
      FilterStep(lits, d, k, l, r);
      if lits[k] == Neg(d[l]) {
        k, l := k + 1, l + 1;
      } else if lits[k] == d[l] {
        r, k, l := r + [lits[k]], k + 1, l + 1;
      } else if Code(lits[k]) < Code(d[l]) {
        r, k := r + [lits[k]], k + 1;
      } else {
        l := l + 1;
      }
    }
    while k < |lits|
      invariant 0 <= k <= |lits| && 0 <= l <= |d| && (k < |lits| ==> l == |d|) && Filtered(lits, d, k, l, r)
    {
      FilterRest(lits, d, k, r);
      r, k := r + [lits[k]], k + 1;
    }
    assert lits[..k] == lits;
  }

  // r holds the right literals of lits[..k], and no complement of a remaining literal
  // has been passed in d.
  ghost predicate Filtered(lits: seq<Lit>, d: Clause, k: nat, l: nat, r: seq<Lit>)
    requires k <= |lits| && l <= |d|
  {
    && Sorted(r)
    && (forall x :: x in r <==> x in lits[..k] && Neg(x) !in d)
    && (forall a, b :: k <= a < |lits| && 0 <= b < l ==> lits[a] != Neg(d[b]))
  }

  lemma FilterStep(lits: seq<Lit>, d: Clause, k: nat, l: nat, r: seq<Lit>)
    requires Proper(lits) && Proper(d) && k < |lits| && l < |d| && Filtered(lits, d, k, l, r)
    ensures lits[k] == Neg(d[l]) ==> Filtered(lits, d, k + 1, l + 1, r)
    ensures lits[k] == d[l] ==> Filtered(lits, d, k + 1, l + 1, r + [lits[k]])
    ensures lits[k] != Neg(d[l]) && Code(lits[k]) < Code(d[l]) ==> Filtered(lits, d, k + 1, l, r + [lits[k]])
    ensures lits[k] != Neg(d[l]) && Code(d[l]) < Code(lits[k]) ==> Filtered(lits, d, k, l + 1, r)
  {
    var x := lits[k];
    assert lits[..k + 1] == lits[..k] + [x];
    AppendSorted(lits, k, r);
    assert d[l] in d && x in lits;
    forall b | 0 <= b < |d| && d[b] == Neg(x)
      ensures l <= b
      ensures x != d[l] && !(x != Neg(d[l]) && Code(x) < Code(d[l]))
    {
      assert x == Neg(d[b]) && d[b] in d;
      if l < b { assert Code(d[l]) < Code(d[b]); }
    }
    forall a | k <= a < |lits| && lits[a] == Neg(d[l])
      ensures x == Neg(d[l]) ==> a == k
      ensures x != Neg(d[l]) ==> !(Code(d[l]) < Code(x))
      ensures x != d[l]
    {
      assert lits[a] in lits;
      if k < a { assert Code(x) < Code(lits[a]); }
    }
  }

  lemma FilterRest(lits: seq<Lit>, d: Clause, k: nat, r: seq<Lit>)
    requires Proper(lits) && Proper(d) && k < |lits| && Filtered(lits, d, k, |d|, r)
    ensures Filtered(lits, d, k + 1, |d|, r + [lits[k]])
  {
    assert lits[..k + 1] == lits[..k] + [lits[k]];
    AppendSorted(lits, k, r);
  }

  // ---------- comparing one clause with its partners ----------

  ghost predicate ListOk(ca: seq<Cls>, list: seq<CRef>) {
    forall k :: 0 <= k < |list| ==> list[k] < |ca|
  }

  // The first n live clauses of the list all clash with c.
  ghost predicate AllClash(ca: seq<Cls>, list: seq<CRef>, n: nat, c: Clause, p: Lit)
    requires ListOk(ca, list) && n <= |list|
  {
    forall k :: 0 <= k < n && !ca[list[k]].deleted ==> Clash(c, p, ca[list[k]].lits)
  }

  // What it takes for literal l of c to survive partner d.
  ghost predicate KeptBy(conservative: bool, c: Clause, p: Lit, d: Clause, l: Lit) {
    if Clash(c, p, d) then !conservative && Neg(l) !in d else l in d
  }

  ghost predicate Kept(conservative: bool, ca: seq<Cls>, list: seq<CRef>, n: nat, c: Clause, p: Lit, l: Lit)
    requires ListOk(ca, list) && n <= |list|
  {
    forall k :: 0 <= k < n && !ca[list[k]].deleted ==> KeptBy(conservative, c, p, ca[list[k]].lits, l)
  }

  // The recorded literals of c suffice for the clashes.
  ghost predicate ClashVia(reasons: set<Lit>, c: Clause, p: Lit, d: Clause) {
    exists x :: x in reasons && x in c && x != p && Neg(x) in d
  }

  ghost predicate AllClashVia(reasons: set<Lit>, ca: seq<Cls>, list: seq<CRef>, n: nat, c: Clause, p: Lit)
    requires ListOk(ca, list) && n <= |list|
  {
    forall k :: 0 <= k < n && !ca[list[k]].deleted ==> ClashVia(reasons, c, p, ca[list[k]].lits)
  }

  // The clash that is recorded for partner d: the one on the least literal.
  ghost predicate LeastClash(c: Clause, p: Lit, d: Clause, x: Lit) {
    && x in c && x != p && Neg(x) in d
    && forall y :: y in c && y != p && Neg(y) in d ==> Code(x) <= Code(y)
  }

  // The literal is recorded for one of the first n live partners.
  ghost predicate IsReason(ca: seq<Cls>, list: seq<CRef>, n: nat, c: Clause, p: Lit, x: Lit)
    requires ListOk(ca, list) && n <= |list|
  {
    exists k :: 0 <= k < n && !ca[list[k]].deleted && LeastClash(c, p, ca[list[k]].lits, x)
  }

  // The candidates for removal by covered literal elimination.
  ghost predicate CleLits(cfg: Config, ca: seq<Cls>, list: seq<CRef>, n: nat, c: Clause, p: Lit, lits: seq<Lit>)
    requires ListOk(ca, list) && n <= |list|
  {
    && Sorted(lits) && (forall l :: l in lits ==> l in c && l != p)
    && (!cfg.cle ==> lits == [])
    && (cfg.cle ==> forall l :: l in c && l != p ==> (l in lits <==> Kept(cfg.conservative, ca, list, n, c, p, l)))
  }

  datatype Analysis = Analysis(isBlocked: bool, canCle: bool, lits: seq<Lit>, reasons: set<Lit>)

  ghost predicate Analysed(cfg: Config, ca: seq<Cls>, list: seq<CRef>, n: nat, c: Clause, p: Lit, a: Analysis)
    requires ListOk(ca, list) && n <= |list|
  {
    && (a.isBlocked <==> (|c| > 2 || cfg.binary) && AllClash(ca, list, n, c, p))
    && CleLits(cfg, ca, list, n, c, p, a.lits)
    && (a.lits != [] ==> (a.canCle <==> !AllClash(ca, list, n, c, p)))
    && (cfg.bcm && AllClash(ca, list, n, c, p) ==> ReasonsOk(ca, list, n, c, p, a.reasons))
  }

  // Exactly the recorded literals, and they suffice.
  ghost predicate ReasonsOk(ca: seq<Cls>, list: seq<CRef>, n: nat, c: Clause, p: Lit, reasons: set<Lit>)
    requires ListOk(ca, list) && n <= |list|
  {
    && AllClashVia(reasons, ca, list, n, c, p)
    && forall x :: x in reasons <==> IsReason(ca, list, n, c, p, x)
  }

  lemma SkipDeleted(cfg: Config, ca: seq<Cls>, list: seq<CRef>, n: nat, c: Clause, p: Lit, a: Analysis)
    requires ListOk(ca, list) && n < |list| && ca[list[n]].deleted && Analysed(cfg, ca, list, n, c, p, a)
    ensures Analysed(cfg, ca, list, n + 1, c, p, a)
  {
    assert AllClash(ca, list, n + 1, c, p) <==> AllClash(ca, list, n, c, p);
    assert AllClashVia(a.reasons, ca, list, n + 1, c, p) <==> AllClashVia(a.reasons, ca, list, n, c, p);
    forall x ensures IsReason(ca, list, n + 1, c, p, x) <==> IsReason(ca, list, n, c, p, x) {}
    forall l | l in c && l != p
      ensures Kept(cfg.conservative, ca, list, n + 1, c, p, l) <==> Kept(cfg.conservative, ca, list, n, c, p, l)
    {
    }
  }

  lemma NextPartner(cfg: Config, ca: seq<Cls>, list: seq<CRef>, n: nat, c: Clause, p: Lit)
    requires ListOk(ca, list) && n < |list| && !ca[list[n]].deleted
    ensures AllClash(ca, list, n + 1, c, p) <==> AllClash(ca, list, n, c, p) && Clash(c, p, ca[list[n]].lits)
    ensures forall r :: AllClashVia(r, ca, list, n + 1, c, p) <==> AllClashVia(r, ca, list, n, c, p) && ClashVia(r, c, p, ca[list[n]].lits)
    ensures forall x :: IsReason(ca, list, n + 1, c, p, x) <==> IsReason(ca, list, n, c, p, x) || LeastClash(c, p, ca[list[n]].lits, x)
    ensures forall l :: Kept(cfg.conservative, ca, list, n + 1, c, p, l)
                   <==> Kept(cfg.conservative, ca, list, n, c, p, l) && KeptBy(cfg.conservative, c, p, ca[list[n]].lits, l)
  {
  }

  lemma MoreReasons(r: set<Lit>, s: set<Lit>, ca: seq<Cls>, list: seq<CRef>, n: nat, c: Clause, p: Lit)
    requires ListOk(ca, list) && n <= |list| && AllClashVia(r, ca, list, n, c, p) && r <= s
    ensures AllClashVia(s, ca, list, n, c, p)
  {
    forall k | 0 <= k < n && !ca[list[k]].deleted ensures ClashVia(s, c, p, ca[list[k]].lits) {
      assert ClashVia(r, c, p, ca[list[k]].lits);
    }
  }

  // A partner without clash ends the hope for a blocked clause.
  method MeetPartner(cfg: Config, ca: seq<Cls>, list: seq<CRef>, n: nat, c: Clause, p: Lit, a: Analysis)
    returns (r: Analysis)
    requires ClausesOk(ca) && Proper(c) && ListOk(ca, list) && n < |list| && !ca[list[n]].deleted
    requires Analysed(cfg, ca, list, n, c, p, a)
    requires !Clash(c, p, ca[list[n]].lits)
    ensures Analysed(cfg, ca, list, n + 1, c, p, r) && !r.isBlocked
    ensures cfg.cle && a.lits != [] ==> r.canCle
    ensures !cfg.cle || a.lits == [] ==> r.lits == []
  {
    var d := ca[list[n]].lits;
    NextPartner(cfg, ca, list, n, c, p);
    if !cfg.cle || a.lits == [] {
      r := a.(isBlocked := false);
    } else {
      var kept := KeepMarked(a.lits, d);
      r := a.(isBlocked := false, canCle := true, lits := kept);
    }
  }

  // A partner that clashes on tautLit.
  method MeetClash(cfg: Config, ca: seq<Cls>, list: seq<CRef>, n: nat, c: Clause, p: Lit, a: Analysis, tautLit: Lit)
    returns (r: Analysis)
    requires ClausesOk(ca) && Proper(c) && ListOk(ca, list) && n < |list| && !ca[list[n]].deleted
    requires Analysed(cfg, ca, list, n, c, p, a) && LeastClash(c, p, ca[list[n]].lits, tautLit)
    ensures Analysed(cfg, ca, list, n + 1, c, p, r)
  {
    NextPartner(cfg, ca, list, n, c, p);
    var lits := KeepAtClash(cfg, ca, list, n, c, p, a.lits);
    var reasons := a.reasons + if cfg.bcm then {tautLit} else {};
    RecordReason(cfg, ca, list, n, c, p, a.reasons, reasons, tautLit);
    r := a.(lits := lits, reasons := reasons);
    assert !AllClash(ca, list, n + 1, c, p) <==> !AllClash(ca, list, n, c, p);
    assert lits != [] ==> a.lits != [];
  }

  lemma RecordReason(cfg: Config, ca: seq<Cls>, list: seq<CRef>, n: nat, c: Clause, p: Lit,
                     before: set<Lit>, reasons: set<Lit>, tautLit: Lit)
    requires ListOk(ca, list) && n < |list| && !ca[list[n]].deleted
    requires Proper(c) && LeastClash(c, p, ca[list[n]].lits, tautLit)
    requires cfg.bcm && AllClash(ca, list, n, c, p) ==> ReasonsOk(ca, list, n, c, p, before)
    requires cfg.bcm ==> reasons == before + {tautLit}
    ensures cfg.bcm && AllClash(ca, list, n + 1, c, p) ==> ReasonsOk(ca, list, n + 1, c, p, reasons)
  {
    hide AllClash, AllClashVia, IsReason, LeastClash, Kept, Proper;
    NextPartner(cfg, ca, list, n, c, p);
    if cfg.bcm && AllClash(ca, list, n, c, p) {
      MoreReasons(before, reasons, ca, list, n, c, p);
      OneLeastClash(c, p, ca[list[n]].lits, tautLit, reasons);
    }
  }

  lemma OneLeastClash(c: Clause, p: Lit, d: Clause, x: Lit, reasons: set<Lit>)
    requires LeastClash(c, p, d, x) && x in reasons
    ensures ClashVia(reasons, c, p, d) && forall y :: LeastClash(c, p, d, y) <==> y == x
  {
    forall y | LeastClash(c, p, d, y) ensures y == x { CodeInjective(x, y); }
  }

  // With a clash, a candidate must not be needed for it: its complement is not in d.
  method KeepAtClash(cfg: Config, ca: seq<Cls>, list: seq<CRef>, n: nat, c: Clause, p: Lit, was: seq<Lit>)
    returns (lits: seq<Lit>)
    requires ClausesOk(ca) && Proper(c) && ListOk(ca, list) && n < |list| && !ca[list[n]].deleted
    requires CleLits(cfg, ca, list, n, c, p, was) && Clash(c, p, ca[list[n]].lits)
    ensures CleLits(cfg, ca, list, n + 1, c, p, lits) && (was == [] ==> lits == [])
  {
    NextPartner(cfg, ca, list, n, c, p);
    lits := was;
    if cfg.cle && |lits| > 0 {
      if cfg.conservative {
        lits := [];
      } else {
        assert !Tautology(was);
        lits := DropNegated(was, ca[list[n]].lits);
      }
    }
  }

  // Compares c with all clauses that contain the complement of p. isBlocked is exact,
  // and so is the set of literals that covered literal elimination may drop.
  method Analyse(cfg: Config, ca: seq<Cls>, list: seq<CRef>, c: Clause, p: Lit) returns (a: Analysis)
    requires ClausesOk(ca) && Proper(c) && ListOk(ca, list)
    ensures Analysed(cfg, ca, list, |list|, c, p, a)
  {
    hide Analysed, ClausesOk;
    a := StartAnalysis(cfg, ca, list, c, p);
    var j := 0;
    while j < |list|
      invariant 0 <= j <= |list| && Analysed(cfg, ca, list, j, c, p, a)
    {
      if ca[list[j]].deleted {
        SkipDeleted(cfg, ca, list, j, c, p, a);
      } else {
        ProperAt(ca, list[j]);
        var tautLit := TautologicResolvent(c, ca[list[j]].lits, p);
        if tautLit.None? {
          var stop := !cfg.cle || |a.lits| == 0;
          a := MeetPartner(cfg, ca, list, j, c, p, a);
          if stop || |a.lits| == 0 {
            StopEarly(cfg, ca, list, j + 1, c, p, a);
            return;
          }
        } else {
          a := MeetClash(cfg, ca, list, j, c, p, a, tautLit.value);
        }
      }
      j := j + 1;
    }
  }

  lemma ProperAt(ca: seq<Cls>, i: CRef)
    requires ClausesOk(ca) && i < |ca|
    ensures Proper(ca[i].lits)
  {
  }

  method StartAnalysis(cfg: Config, ca: seq<Cls>, list: seq<CRef>, c: Clause, p: Lit) returns (a: Analysis)
    requires Proper(c) && ListOk(ca, list)
    ensures Analysed(cfg, ca, list, 0, c, p, a)
  {
    var lits := [];
    if cfg.cle {
      var k := 0;
      while k < |c|
        invariant 0 <= k <= |c| && Sorted(lits)
        invariant forall l :: l in lits <==> l in c[..k] && l != p
      {
        assert c[..k + 1] == c[..k] + [c[k]];
        if p != c[k] {
          AppendSorted(c, k, lits);
          lits := lits + [c[k]];
        }
        k := k + 1;
      }
      assert c[..k] == c;
    }
    a := Analysis(|c| > 2 || cfg.binary, false, lits, {});
  }

  // Without blocked clause and without candidates the remaining partners do not matter.
  lemma StopEarly(cfg: Config, ca: seq<Cls>, list: seq<CRef>, n: nat, c: Clause, p: Lit, a: Analysis)
    requires ListOk(ca, list) && n <= |list| && Analysed(cfg, ca, list, n, c, p, a)
    requires !AllClash(ca, list, n, c, p) && a.lits == []
    ensures Analysed(cfg, ca, list, |list|, c, p, a)
  {
    assert !AllClash(ca, list, |list|, c, p);
    forall l | cfg.cle && l in c && l != p ensures !Kept(cfg.conservative, ca, list, |list|, c, p, l) {
      assert !Kept(cfg.conservative, ca, list, n, c, p, l);
    }
  }

  // ---------- from the occurrence list to the formula ----------

  // The database is consistent and there is nothing to propagate.
  ghost predicate Ready(data: CoprocessorData)
    reads data
  {
    data.Valid() && data.ok && data.qhead == |data.trail|
  }

  datatype State = State(ca: seq<Cls>, occs: Occs, trail: seq<Lit>, undo: seq<Mark>)

  ghost function Now(data: CoprocessorData): State
    reads data
  {
    State(data.ca, data.occs, data.trail, data.undo)
  }

  // The formula without clause cr.
  ghost function Rest(data: CoprocessorData, cr: CRef): set<Clause>
    reads data`ca, data`trail, data`ok
    requires cr < |data.ca|
  {
    FormulaOf(Propagation.Dropped(data.ca, cr), data.trail, data.ok)
  }

  // Every clause of the rest that contains the complement of p is on the list.
  lemma PartnersListed(data: CoprocessorData, cr: CRef, p: Lit, d: Clause)
    requires Ready(data) && cr < |data.ca| && Unassigned(data.trail, p)
    requires d in Rest(data, cr) && Neg(p) in d
    ensures exists k :: 0 <= k < |List(data.occs, Neg(p))| && List(data.occs, Neg(p))[k] < |data.ca|
              && !data.ca[List(data.occs, Neg(p))[k]].deleted && data.ca[List(data.occs, Neg(p))[k]].lits == d
  {
    var rest := Propagation.Dropped(data.ca, cr);
    assert d !in Units(data.trail);
    var i :| 0 <= i < |rest| && !rest[i].deleted && rest[i].lits == d;
    assert data.ca[i] == rest[i];
    assert InList(data.occs, Neg(p), i);
  }

  lemma LiteralUnassigned(data: CoprocessorData, cr: CRef, p: Lit)
    requires Ready(data) && cr < |data.ca| && !data.ca[cr].deleted && p in data.ca[cr].lits
    ensures Unassigned(data.trail, p)
  {
    assert data.trail[..data.qhead] == data.trail;
  }

  lemma ListInRange(data: CoprocessorData, l: Lit)
    requires data.Valid()
    ensures ListOk(data.ca, List(data.occs, l))
  {
    forall k | 0 <= k < |List(data.occs, l)| ensures List(data.occs, l)[k] < |data.ca| {
      assert InList(data.occs, l, List(data.occs, l)[k]);
    }
  }

  lemma BlockedInFormula(data: CoprocessorData, cr: CRef, p: Lit)
    requires Ready(data) && cr < |data.ca| && !data.ca[cr].deleted && p in data.ca[cr].lits
    requires ListOk(data.ca, List(data.occs, Neg(p)))
    requires AllClash(data.ca, List(data.occs, Neg(p)), |List(data.occs, Neg(p))|, data.ca[cr].lits, p)
    ensures Blocked(Rest(data, cr), data.ca[cr].lits, p)
  {
    LiteralUnassigned(data, cr, p);
    forall d | d in Rest(data, cr) && Neg(p) in d ensures Clash(data.ca[cr].lits, p, d) {
      PartnersListed(data, cr, p, d);
    }
  }

  // Unit clauses stay out of the database.
  ghost predicate NoUnitsKept(was: seq<Cls>, ca: seq<Cls>) {
    Propagation.NoUnits(was) ==> Propagation.NoUnits(ca)
  }

  lemma NoUnitsRefl(a: seq<Cls>)
    ensures NoUnitsKept(a, a)
  {
  }

  lemma NoUnitsTrans(a: seq<Cls>, b: seq<Cls>, c: seq<Cls>)
    requires NoUnitsKept(a, b) && NoUnitsKept(b, c)
    ensures NoUnitsKept(a, c)
  {
  }

  // ---------- the size of the database ----------

  function Weight(c: Cls): nat {
    if c.deleted then 0 else |c.lits|
  }

  // The literals of all live clauses, counted.
  ghost function Size(ca: seq<Cls>): nat {
    if ca == [] then 0 else Size(ca[..|ca| - 1]) + Weight(ca[|ca| - 1])
  }

  lemma {:induction false} SizeSet(ca: seq<Cls>, i: CRef, c: Cls)
    requires i < |ca|
    ensures Size(ca[i := c]) == Size(ca) - Weight(ca[i]) + Weight(c)
  {
    var n := |ca| - 1;
    if i == n {
      assert ca[i := c][..n] == ca[..n];
    } else {
      SizeSet(ca[..n], i, c);
      assert ca[i := c][..n] == ca[..n][i := c];
    }
  }

  lemma {:induction false} SizeNotMore(a: seq<Cls>, b: seq<Cls>)
    requires |a| == |b| && forall i :: 0 <= i < |a| ==> Weight(b[i]) <= Weight(a[i])
    ensures Size(b) <= Size(a)
  {
    if a != [] { SizeNotMore(a[..|a| - 1], b[..|b| - 1]); }
  }

  lemma FewerLiterals(c: Clause, k: Clause)
    requires Sorted(c) && Sorted(k) && Lits(k) <= Lits(c)
    ensures |k| <= |c| && (Lits(k) != Lits(c) ==> |k| < |c|)
  {
    SortedSize(c);
    SortedSize(k);
    SubsetCard(Lits(k), Lits(c));
    DiffCard(Lits(c), Lits(k));
    assert Lits(k) != Lits(c) ==> Lits(c) - Lits(k) != {};
  }

  lemma SizeSimplified(a: seq<Cls>, b: seq<Cls>, trail: seq<Lit>, ok: bool)
    requires Propagation.Simplified(a, b, trail, ok) && ClausesOk(a) && ClausesOk(b)
    ensures Size(b) <= Size(a)
  {
    forall i | 0 <= i < |a| ensures Weight(b[i]) <= Weight(a[i]) {
      assert Propagation.SimplifiedBy(a[i], b[i], trail, ok);
      if !b[i].deleted { FewerLiterals(a[i].lits, b[i].lits); }
    }
    SizeNotMore(a, b);
  }

  // ---------- the three rewrites of one clause ----------

  // Blocked clause elimination: the clause goes to the undo stack.
  method RemoveBlocked(data: CoprocessorData, cr: CRef, p: Lit)
    requires Ready(data) && data.Sound() && cr < |data.ca| && !data.ca[cr].deleted && p.v !in data.frozen
    requires Blocked(Rest(data, cr), data.ca[cr].lits, p)
    modifies data`ca, data`undo
    ensures Ready(data) && data.Sound()
    ensures data.ca == Propagation.Dropped(old(data.ca), cr)
    ensures Work(data.ca, data.trail) < old(Work(data.ca, data.trail)) && NoUnitsKept(old(data.ca), data.ca)
    ensures Size(data.ca) == old(Size(data.ca)) - |old(data.ca)[cr].lits|
    ensures Segs(data.undo) == Segs(old(data.undo)) + [PivotFirst(old(data.ca)[cr].lits, p)]
  {
    hide Size, OccsOk, Propagated, TrailOk, ClausesOk, Step, FormulaOf, PivotsFree;
    ProperAt(data.ca, cr);
    SizeSet(data.ca, cr, data.ca[cr].(deleted := true));
    ghost var was, segs := data.F(), Segs(data.undo);
    var c := data.ca[cr].lits;
    FormulaDelete(data.ca, cr, data.trail, data.ok);
    BlockedStep(Rest(data, cr), c, p);
    Propagation.FewerLive(data.ca, cr, data.ca[cr].(deleted := true));
    StepCompose(data.input, was, Rest(data, cr), segs, [PivotFirst(c, p)]);
    OnePivotFree(data.frozen, c, p);
    PivotsFreeConcat(data.frozen, segs, [PivotFirst(c, p)]);
    data.Delete(cr);
    data.AddToExtension(c, p);
  }

  // References to cr are gone from the lists of the removed literals.
  ghost predicate Unlisted(was: Occs, occs: Occs, cr: CRef, removed: set<Lit>) {
    && (forall l :: NoDup(List(occs, l)))
    && (forall l, i: CRef :: InList(occs, l, i) <==> InList(was, l, i) && !(i == cr && l in removed))
  }

  method Unlist(data: CoprocessorData, cr: CRef, l: Lit, ghost was: Occs, ghost removed: set<Lit>)
    requires Unlisted(was, data.occs, cr, removed)
    modifies data`occs
    ensures Unlisted(was, data.occs, cr, removed + {l})
    ensures forall k :: k != l ==> List(data.occs, k) == List(old(data.occs), k)
  {
    ghost var before := data.occs;
    var found;
    ghost var at;
    found, at := data.RemoveClauseFrom(cr, l);
    forall k ensures NoDup(List(data.occs, k)) {}
    forall k, i: CRef ensures InList(data.occs, k, i) <==> InList(before, k, i) && !(i == cr && k == l) {}
  }

  lemma ShrinkKeepsOccs(ca: seq<Cls>, was: Occs, occs: Occs, cr: CRef, k: Clause)
    requires OccsOk(ca, was) && cr < |ca| && !ca[cr].deleted
    requires Lits(k) <= Lits(ca[cr].lits)
    requires Unlisted(was, occs, cr, Lits(ca[cr].lits) - Lits(k))
    ensures OccsOk(ca[cr := Cls(k, false)], occs)
  {
    var cb := ca[cr := Cls(k, false)];
    assert forall l :: l in k <==> l in Lits(k);
    forall i, l | 0 <= i < |cb| && !cb[i].deleted && l in cb[i].lits ensures InList(occs, l, i) {
      assert l in ca[i].lits;
    }
    forall l, i: CRef | InList(occs, l, i) ensures i < |cb| && (!cb[i].deleted ==> l in cb[i].lits) {
      assert InList(was, l, i);
    }
  }

  // The shorter clause takes the place of the old one; a unit clause moves to the trail.
  // Returns false on a conflict.
  method StoreShrunk(data: CoprocessorData, cr: CRef, p: Lit, k: Clause, ghost was: Occs)
    returns (good: bool)
    requires ClausesOk(data.ca) && OccsOk(data.ca, was) && TrailOk(data.trail) && data.ok
    requires data.qhead == |data.trail| && Propagated(data.ca, data.trail[..data.qhead])
    requires WellFormed(data.undo) && NoEmptySegment(data.undo) && data.Sound()
    requires cr < |data.ca| && !data.ca[cr].deleted
    requires Proper(k) && Lits(k) <= Lits(data.ca[cr].lits)
    requires Unlisted(was, data.occs, cr, Lits(data.ca[cr].lits) - Lits(k))
    requires Covered(Rest(data, cr), k, p, Lits(data.ca[cr].lits) - Lits(k))
    modifies data`ca, data`trail, data`ok
    ensures data.Valid() && data.Sound() && good == data.ok && old(data.trail) <= data.trail
    ensures Work(data.ca, data.trail) <= old(Work(data.ca, data.trail))
    ensures |k| != 1 ==> data.ca == old(data.ca)[cr := Cls(k, false)] && data.ok && data.trail == old(data.trail)
    ensures |k| == 1 ==> data.ca == old(data.ca)[cr := Cls(k, true)]
    ensures |k| == 1 && Unassigned(old(data.trail), p) ==> data.ok && data.trail == old(data.trail) + [p]
    ensures NoUnitsKept(old(data.ca), data.ca)
    ensures Size(data.ca) <= old(Size(data.ca)) && (Lits(k) != Lits(old(data.ca)[cr].lits) ==> Size(data.ca) < old(Size(data.ca)))
  {
    hide Size, Propagation.NoUnits, OccsOk, Propagated, ClausesOk, TrailOk, Step, FormulaOf, PivotsFree, Rest, Covered, Unlisted;
    CoversPivot(data, cr, p, k);
    ProperAt(data.ca, cr);
    FewerLiterals(data.ca[cr].lits, k);
    SizeSet(data.ca, cr, Cls(k, false));
    SizeSet(data.ca, cr, Cls(k, true));
    ShrunkNoUnits(data.ca, cr, k);
    ShrinkStaysSound(data, cr, p, k);
    ShrinkKeepsOccs(data.ca, was, data.occs, cr, k);
    ShrinkKeepsClauses(data.ca, cr, k, data.trail[..data.qhead]);
    Propagation.FewerLive(data.ca, cr, Cls(k, false));
    data.ca := data.ca[cr := Cls(k, false)];
    good := true;
    if |k| == 1 {
      good := MoveToTrail(data, cr);
    }
  }

  lemma CoversPivot(data: CoprocessorData, cr: CRef, p: Lit, k: Clause)
    requires cr < |data.ca| && Covered(Rest(data, cr), k, p, Lits(data.ca[cr].lits) - Lits(k))
    ensures p in k && |k| > 0 && (|k| == 1 ==> k[0] == p)
  {
  }

  lemma ShrunkNoUnits(ca: seq<Cls>, cr: CRef, k: Clause)
    requires cr < |ca| && |k| > 0
    ensures |k| != 1 ==> NoUnitsKept(ca, ca[cr := Cls(k, false)])
    ensures |k| == 1 ==> NoUnitsKept(ca, ca[cr := Cls(k, true)])
  {
  }

  lemma ShrinkKeepsClauses(ca: seq<Cls>, cr: CRef, k: Clause, done: seq<Lit>)
    requires ClausesOk(ca) && Propagated(ca, done) && cr < |ca| && !ca[cr].deleted
    requires Proper(k) && Lits(k) <= Lits(ca[cr].lits)
    ensures ClausesOk(ca[cr := Cls(k, false)]) && Propagated(ca[cr := Cls(k, false)], done)
  {
    assert forall l :: l in k ==> l in Lits(k) && l in ca[cr].lits;
  }

  lemma ShrinkStaysSound(data: CoprocessorData, cr: CRef, p: Lit, k: Clause)
    requires WellFormed(data.undo) && data.Sound() && ClausesOk(data.ca)
    requires cr < |data.ca| && !data.ca[cr].deleted && Lits(k) <= Lits(data.ca[cr].lits)
    requires Covered(Rest(data, cr), k, p, Lits(data.ca[cr].lits) - Lits(k))
    ensures Step(data.input, FormulaOf(data.ca[cr := Cls(k, false)], data.trail, data.ok), Segs(data.undo))
  {
    FormulaDelete(data.ca, cr, data.trail, data.ok);
    FormulaReplace(data.ca, cr, k, data.trail, data.ok);
    ShrinkStep(Rest(data, cr), data.ca[cr].lits, p, k);
    StepCompose(data.input, data.F(), Rest(data, cr) + {k}, Segs(data.undo), []);
    assert Segs(data.undo) + [] == Segs(data.undo);
  }

  method MoveToTrail(data: CoprocessorData, cr: CRef) returns (good: bool)
    requires data.Valid() && data.Sound() && data.ok
    requires cr < |data.ca| && !data.ca[cr].deleted && |data.ca[cr].lits| == 1
    modifies data`ca, data`trail, data`ok
    ensures data.Valid() && data.Sound() && good == data.ok && old(data.trail) <= data.trail
    ensures data.ca == Propagation.Dropped(old(data.ca), cr)
    ensures Work(data.ca, data.trail) <= old(Work(data.ca, data.trail))
    ensures Unassigned(old(data.trail), old(data.ca)[cr].lits[0]) ==>
              data.ok && data.trail == old(data.trail) + [old(data.ca)[cr].lits[0]]
  {
    hide OccsOk, Propagated, ClausesOk, TrailOk, Step, FormulaOf, PivotsFree;
    var u := data.ca[cr].lits[0];
    ghost var f := data.F();
    Propagation.MoveUnit(data.ca, cr, data.trail, data.ok, u);
    Propagation.FewerLive(data.ca, cr, data.ca[cr].(deleted := true));
    var status := data.Enqueue(u);
    data.Delete(cr);
    good := status != False;
    assert Propagation.Equiv(f, data.F());
    EquivalentStep(f, data.F());
    StepCompose(data.input, f, data.F(), Segs(data.undo), []);
    assert Segs(data.undo) + [] == Segs(data.undo);
  }

  // ---------- blocked clause minimisation ----------

  // The reasons of the clashes and the pivot are enough for the clause to be blocked.
  lemma MinimisedCovered(data: CoprocessorData, cr: CRef, p: Lit, reasons: set<Lit>, k: Clause)
    requires Ready(data) && cr < |data.ca| && !data.ca[cr].deleted && p in data.ca[cr].lits
    requires ListOk(data.ca, List(data.occs, Neg(p)))
    requires AllClashVia(reasons, data.ca, List(data.occs, Neg(p)), |List(data.occs, Neg(p))|, data.ca[cr].lits, p)
    requires p in k && forall x :: x in reasons && x in data.ca[cr].lits ==> x in k
    ensures Covered(Rest(data, cr), k, p, Lits(data.ca[cr].lits) - Lits(k))
  {
    LiteralUnassigned(data, cr, p);
    forall d | d in Rest(data, cr) && Neg(p) in d ensures Clash(k, p, d) {
      PartnersListed(data, cr, p, d);
      assert ClashVia(reasons, data.ca[cr].lits, p, d);
    }
  }

  // k keeps the pivot and the reasons.
  ghost predicate KeepsReasons(c: Clause, p: Lit, reasons: set<Lit>, k: Clause) {
    p in k && forall x :: x in reasons && x in c ==> x in k
  }

  lemma AnyMinimisedCovered(data: CoprocessorData, cr: CRef, p: Lit, reasons: set<Lit>)
    requires Ready(data) && cr < |data.ca| && !data.ca[cr].deleted && p in data.ca[cr].lits
    requires ListOk(data.ca, List(data.occs, Neg(p)))
    requires AllClashVia(reasons, data.ca, List(data.occs, Neg(p)), |List(data.occs, Neg(p))|, data.ca[cr].lits, p)
    ensures forall k: Clause :: KeepsReasons(data.ca[cr].lits, p, reasons, k) ==>
      Covered(Rest(data, cr), k, p, Lits(data.ca[cr].lits) - Lits(k))
  {
    hide AllClashVia, Covered, Ready, Rest, Lits;
    forall k: Clause | KeepsReasons(data.ca[cr].lits, p, reasons, k)
      ensures Covered(Rest(data, cr), k, p, Lits(data.ca[cr].lits) - Lits(k))
    {
      MinimisedCovered(data, cr, p, reasons, k);
    }
  }

  // With a proof to be printed, only the first of the literals is lost.
  ghost predicate Loses(loses: set<Lit>, proof: bool, l: Lit) {
    l in loses && (proof ==> forall y :: y in loses ==> Code(l) <= Code(y))
  }

  // k is c without the literals, or without the first of them.
  ghost predicate Shortened(c: Clause, loses: set<Lit>, proof: bool, k: Clause) {
    Sorted(k) && forall l :: l in k <==> l in c && !Loses(loses, proof, l)
  }

  // The literals of c that are neither the pivot nor a reason.
  ghost function Unneeded(c: Clause, p: Lit, reasons: set<Lit>): set<Lit> {
    set l | l in c && l != p && l !in reasons
  }

  lemma NextUnneeded(c: Clause, k: nat, p: Lit, reasons: set<Lit>, proof: bool, kept: seq<Lit>, deletedSome: bool)
    requires Proper(c) && k < |c| && Shortened(c[..k], Unneeded(c[..k], p, reasons), proof, kept)
    requires deletedSome <==> Unneeded(c[..k], p, reasons) != {}
    ensures var u := Unneeded(c[..k + 1], p, reasons);
      if c[k] == p || (deletedSome && proof) || c[k] in reasons
      then Shortened(c[..k + 1], u, proof, kept + [c[k]]) && (deletedSome <==> u != {})
      else Shortened(c[..k + 1], u, proof, kept) && u != {}
  {
    hide Proper, Sorted, Lits;
    ShortenedIn(c[..k], Unneeded(c[..k], p, reasons), proof, kept);
    NextKept(c, k, kept);
    var was, u := Unneeded(c[..k], p, reasons), Unneeded(c[..k + 1], p, reasons);
    EarlierLess(c, k);
    hide Code;
    assert c[k] != p && c[k] !in reasons ==> u == was + {c[k]};
    assert c[k] == p || c[k] in reasons ==> u == was;
    forall l | l in was ensures Loses(u, proof, l) <==> Loses(was, proof, l) {}
    if deletedSome && proof {
      var y :| y in was;
      assert Code(y) < Code(c[k]);
    }
  }

  lemma EarlierLess(c: Clause, k: nat)
    requires Proper(c) && k < |c|
    ensures forall l :: l in c[..k] ==> Code(l) < Code(c[k])
  {
  }

  // Drops the clause from the lists of the literals it loses.
  method ScanReasons(data: CoprocessorData, cr: CRef, c: Clause, p: Lit, reasons: set<Lit>, proof: bool)
    returns (kept: seq<Lit>, deletedSome: bool)
    requires Proper(c) && forall l :: NoDup(List(data.occs, l))
    modifies data`occs
    ensures Shortened(c, Unneeded(c, p, reasons), proof, kept) && (deletedSome <==> Unneeded(c, p, reasons) != {})
    ensures Unlisted(old(data.occs), data.occs, cr, Lits(c) - Lits(kept))
    ensures p in c ==> List(data.occs, p) == List(old(data.occs), p) && List(data.occs, Neg(p)) == List(old(data.occs), Neg(p))
    ensures !deletedSome ==> kept == c && data.occs == old(data.occs)
  {
    hide Shortened, Unneeded, Unlisted, Proper, Lits;
    ghost var was := data.occs;
    NothingScanned(was, cr, c, p, reasons, proof);
    deletedSome := false;
    kept := [];
    var k := 0;
    while k < |c|
      invariant 0 <= k <= |c| && Shortened(c[..k], Unneeded(c[..k], p, reasons), proof, kept)
      invariant deletedSome <==> Unneeded(c[..k], p, reasons) != {}
      invariant Unlisted(was, data.occs, cr, Lits(c[..k]) - Lits(kept))
      invariant p in c ==> List(data.occs, p) == List(was, p) && List(data.occs, Neg(p)) == List(was, Neg(p))
      invariant !deletedSome ==> kept == c[..k] && data.occs == was
    {
      ShortenedIn(c[..k], Unneeded(c[..k], p, reasons), proof, kept);
      NextKept(c, k, kept);
      NextUnneeded(c, k, p, reasons, proof, kept, deletedSome);
      NotComplement(c, p, c[k]);
      if c[k] == p || (deletedSome && proof) || c[k] in reasons {
        kept := kept + [c[k]];
      } else {
        deletedSome := true;
        Unlist(data, cr, c[k], was, Lits(c[..k]) - Lits(kept));
      }
      k := k + 1;
    }
    assert c[..k] == c;
  }

  lemma NothingScanned(occs: Occs, cr: CRef, c: Clause, p: Lit, reasons: set<Lit>, proof: bool)
    requires forall l :: NoDup(List(occs, l))
    ensures Shortened(c[..0], Unneeded(c[..0], p, reasons), proof, []) && Unneeded(c[..0], p, reasons) == {}
    ensures Unlisted(occs, occs, cr, Lits(c[..0]) - Lits([]))
  {
  }

  lemma ShortenedIn(c: Clause, loses: set<Lit>, proof: bool, k: Clause)
    requires Shortened(c, loses, proof, k)
    ensures Sorted(k) && forall l :: l in k ==> l in c
  {
  }

  lemma NotComplement(c: Clause, p: Lit, l: Lit)
    requires Proper(c) && l in c
    ensures p in c ==> l != Neg(p)
  {
  }

  // What becomes of a clause that loses literals: nothing changes if there are none, and a
  // unit clause moves to the trail.
  ghost predicate ShortenedTo(c: Clause, loses: set<Lit>, proof: bool, now: Cls) {
    if loses == {} then now == Cls(c, false)
    else Shortened(c, loses, proof, now.lits) && (now.deleted <==> |now.lits| == 1)
  }

  // What one rewrite does to the rest of the state.
  ghost predicate OnlyShortened(was: seq<Cls>, occs0: Occs, trail0: seq<Lit>, ca: seq<Cls>, occs: Occs, trail: seq<Lit>, cr: CRef, p: Lit)
    requires cr < |was|
  {
    && |ca| == |was| && ca == was[cr := ca[cr]]
    && (occs == occs0 || Unlisted(occs0, occs, cr, Lits(was[cr].lits) - Lits(ca[cr].lits)))
    && trail == (if ca[cr].deleted then trail0 + [p] else trail0)
    && List(occs, p) == List(occs0, p) && List(occs, Neg(p)) == List(occs0, Neg(p))
  }

  // The shorter clause is stored, or moved to the trail if it is a unit.
  lemma StoredIs(s: State, t: State, cr: CRef, p: Lit, loses: set<Lit>, proof: bool, k: Clause)
    requires cr < |s.ca| && !s.ca[cr].deleted && Shortened(s.ca[cr].lits, loses, proof, k)
    requires loses == {} ==> t == s
    requires loses != {} ==> t.ca == s.ca[cr := Cls(k, |k| == 1)] && t.trail == if |k| == 1 then s.trail + [p] else s.trail
    requires loses != {} ==> Unlisted(s.occs, t.occs, cr, Lits(s.ca[cr].lits) - Lits(k))
    requires List(t.occs, p) == List(s.occs, p) && List(t.occs, Neg(p)) == List(s.occs, Neg(p))
    ensures OnlyShortened(s.ca, s.occs, s.trail, t.ca, t.occs, t.trail, cr, p)
    ensures ShortenedTo(s.ca[cr].lits, loses, proof, t.ca[cr])
    ensures loses != {} ==> Complemented(Lits(s.ca[cr].lits) - Lits(t.ca[cr].lits)) == Complemented(Lits(s.ca[cr].lits) - Lits(k))
    ensures loses == {} ==> Complemented(Lits(s.ca[cr].lits) - Lits(t.ca[cr].lits)) == {}
  {
    hide Unlisted, Shortened;
  }

  // Removes the literals that do not contribute to the clause being blocked on p.
  method Minimise(data: CoprocessorData, cr: CRef, p: Lit, reasons: set<Lit>, proof: bool)
    returns (good: bool, touched: set<Lit>)
    requires Ready(data) && data.Sound() && cr < |data.ca| && !data.ca[cr].deleted && p in data.ca[cr].lits
    requires ListOk(data.ca, List(data.occs, Neg(p)))
    requires AllClashVia(reasons, data.ca, List(data.occs, Neg(p)), |List(data.occs, Neg(p))|, data.ca[cr].lits, p)
    modifies data`ca, data`occs, data`trail, data`ok
    ensures data.Valid() && data.Sound() && good == data.ok && old(data.trail) <= data.trail
    ensures Work(data.ca, data.trail) <= old(Work(data.ca, data.trail))
    ensures good && NoUnitsKept(old(data.ca), data.ca)
    ensures OnlyShortened(old(data.ca), old(data.occs), old(data.trail), data.ca, data.occs, data.trail, cr, p)
    ensures ShortenedTo(old(data.ca)[cr].lits, Unneeded(old(data.ca)[cr].lits, p, reasons), proof, data.ca[cr])
    ensures touched == Complemented(Lits(old(data.ca)[cr].lits) - Lits(data.ca[cr].lits))
    ensures Size(data.ca) <= old(Size(data.ca)) && (touched != {} ==> Size(data.ca) < old(Size(data.ca)))
  {
    hide Size, Rest, Covered, Unlisted, Work, Propagation.NoUnits, Propagated, TrailOk, Step, FormulaOf, Shortened, Unneeded;
    hide OccsOk, ClausesOk, PivotsFree, AllClashVia, NoUnitsKept, Lits, KeepsReasons, Proper, OnlyShortened, ShortenedTo;
    ghost var before := Now(data);
    LiteralUnassigned(data, cr, p);
    AllDistinct(data);
    ProperAt(data.ca, cr);
    NoUnitsRefl(data.ca);
    var c := data.ca[cr].lits;
    ghost var was := data.occs;
    AnyMinimisedCovered(data, cr, p, reasons);
    var kept, deletedSome := ScanReasons(data, cr, c, p, reasons, proof);
    ShortenedIn(c, Unneeded(c, p, reasons), proof, kept);
    SortedSubset(c, kept);
    LosesSome(c, p, reasons, proof, kept);
    good, touched := true, {};
    if deletedSome {
      touched := Complemented(Lits(c) - Lits(kept));
      good := StoreShrunk(data, cr, p, kept, was);
    }
    StoredIs(before, Now(data), cr, p, Unneeded(c, p, reasons), proof, kept);
  }

  // The pivot and the reasons stay.
  lemma LosesSome(c: Clause, p: Lit, reasons: set<Lit>, proof: bool, k: Clause)
    requires Shortened(c, Unneeded(c, p, reasons), proof, k)
    ensures p in c ==> KeepsReasons(c, p, reasons, k)
    ensures Complemented({}) == {}
  {
  }

  // The literals that are queued when clauses lose the given ones.
  function Complemented(lost: set<Lit>): (r: set<Lit>)
    ensures forall l :: l in r <==> Neg(l) in lost
  {
    set l | l in lost :: Neg(l)
  }

  lemma NextKept(c: Clause, k: nat, kept: seq<Lit>)
    requires Proper(c) && k < |c| && Sorted(kept) && forall l :: l in kept ==> l in c[..k]
    ensures c[..k + 1] == c[..k] + [c[k]]
    ensures Sorted(kept + [c[k]]) && c[k] !in c[..k]
    ensures Lits(c[..k + 1]) - Lits(kept) == Lits(c[..k]) - Lits(kept) + {c[k]}
    ensures Lits(c[..k + 1]) - Lits(kept + [c[k]]) == Lits(c[..k]) - Lits(kept)
  {
    AppendSorted(c, k, kept);
    SortedPrefix(c, k);
  }

  lemma SortedSubset(c: Clause, kept: seq<Lit>)
    requires Proper(c) && Sorted(kept) && forall l :: l in kept ==> l in c
    ensures Proper(kept) && Lits(kept) <= Lits(c)
  {
  }

  // ---------- covered literal elimination ----------

  // Dropping any of the surviving candidates leaves a clause that is covered by the rest.
  lemma CleCovered(cfg: Config, data: CoprocessorData, cr: CRef, p: Lit, lits: seq<Lit>, k: Clause)
    requires Ready(data) && cr < |data.ca| && !data.ca[cr].deleted && p in data.ca[cr].lits
    requires cfg.cle && ListOk(data.ca, List(data.occs, Neg(p)))
    requires CleLits(cfg, data.ca, List(data.occs, Neg(p)), |List(data.occs, Neg(p))|, data.ca[cr].lits, p, lits)
    requires Lits(data.ca[cr].lits) - Lits(k) <= Lits(lits)
    requires forall x :: x in data.ca[cr].lits ==> x in k || x in lits
    ensures Covered(Rest(data, cr), k, p, Lits(data.ca[cr].lits) - Lits(k))
  {
    LiteralUnassigned(data, cr, p);
    var c, list := data.ca[cr].lits, List(data.occs, Neg(p));
    assert Proper(c);
    forall d | d in Rest(data, cr) && Neg(p) in d
      ensures Clash(k, p, d) || (forall l :: l in Lits(c) - Lits(k) ==> l in d && l.v != p.v)
    {
      PartnersListed(data, cr, p, d);
      forall l | l in Lits(c) - Lits(k) ensures l in lits && l != Neg(p) && KeptBy(cfg.conservative, c, p, d, l) {
        assert l in Lits(lits);
        assert Kept(cfg.conservative, data.ca, list, |list|, c, p, l);
      }
      if Clash(c, p, d) {
        var x :| x in c && x != p && Neg(x) in d;
        assert x !in Lits(c) - Lits(k);
        assert x in k by { assert x in Lits(c); }
      }
    }
  }

  // One joint pass over the clause and the literals to drop.
  method ScanCovered(data: CoprocessorData, cr: CRef, c: Clause, lits: seq<Lit>, p: Lit) returns (kept: seq<Lit>)
    requires Proper(c) && Sorted(lits) && forall l :: NoDup(List(data.occs, l))
    requires forall l :: l in lits ==> l in c && l != p
    modifies data`occs
    ensures Sorted(kept) && forall l :: l in kept <==> l in c && l !in lits
    ensures Unlisted(old(data.occs), data.occs, cr, Lits(c) - Lits(kept))
    ensures p in c ==> List(data.occs, p) == List(old(data.occs), p) && List(data.occs, Neg(p)) == List(old(data.occs), Neg(p))
  {
    hide Unlisted;
    ghost var was := data.occs;
    UnlistedStart(was, cr, c);
    kept := [];
    var k, l := 0, 0;
    while k < |c| && l < |lits|
      invariant 0 <= k <= |c| && 0 <= l <= |lits| && Dropping(c, lits, k, l, kept)
      invariant Unlisted(was, data.occs, cr, Lits(c[..k]) - Lits(kept))
      invariant p in c ==> List(data.occs, p) == List(was, p) && List(data.occs, Neg(p)) == List(was, Neg(p))
      decreases |c| - k + |lits| - l
    {
      NotComplement(c, p, c[k]);
      NextKept(c, k, kept);
      DropStep(c, lits, k, l, kept);
      if c[k] == lits[l] {
        Unlist(data, cr, c[k], was, Lits(c[..k]) - Lits(kept));
        k, l := k + 1, l + 1;
      } else if Code(c[k]) < Code(lits[l]) {
        kept, k := kept + [c[k]], k + 1;
      } else {
        l := l + 1;
      }
    }
    while k < |c|
      invariant 0 <= k <= |c| && 0 <= l <= |lits| && (k < |c| ==> l == |lits|) && Dropping(c, lits, k, l, kept)
      invariant Unlisted(was, data.occs, cr, Lits(c[..k]) - Lits(kept))
      invariant p in c ==> List(data.occs, p) == List(was, p) && List(data.occs, Neg(p)) == List(was, Neg(p))
    {
      NextKept(c, k, kept);
      DropRest(c, lits, k, kept);
      kept, k := kept + [c[k]], k + 1;
    }
    assert c[..k] == c;
  }

  ghost predicate Dropping(c: Clause, lits: seq<Lit>, k: nat, l: nat, kept: seq<Lit>)
    requires k <= |c| && l <= |lits|
  {
    && Sorted(kept) && (forall x :: x in kept <==> x in c[..k] && x !in lits)
    && (forall x :: x in c[..k] ==> x in kept || x in lits)
    && (forall a, b :: k <= a < |c| && 0 <= b < l ==> c[a] != lits[b])
  }

  lemma DropStep(c: Clause, lits: seq<Lit>, k: nat, l: nat, kept: seq<Lit>)
    requires Proper(c) && Sorted(lits) && k < |c| && l < |lits| && Dropping(c, lits, k, l, kept)
    ensures c[k] == lits[l] ==> Dropping(c, lits, k + 1, l + 1, kept)
    ensures Code(c[k]) < Code(lits[l]) ==> Dropping(c, lits, k + 1, l, kept + [c[k]])
    ensures Code(c[k]) > Code(lits[l]) ==> Dropping(c, lits, k, l + 1, kept)
  {
    assert c[..k + 1] == c[..k] + [c[k]];
    AppendSorted(c, k, kept);
    forall b | 0 <= b < |lits| && lits[b] == c[k] ensures l <= b && !(Code(c[k]) < Code(lits[l])) {
      if l < b { assert Code(lits[l]) < Code(lits[b]); }
    }
    forall a | k < a < |c| ensures Code(c[k]) < Code(c[a]) {}
  }

  lemma DropRest(c: Clause, lits: seq<Lit>, k: nat, kept: seq<Lit>)
    requires Proper(c) && k < |c| && Dropping(c, lits, k, |lits|, kept)
    ensures Dropping(c, lits, k + 1, |lits|, kept + [c[k]])
  {
    assert c[..k + 1] == c[..k] + [c[k]];
    AppendSorted(c, k, kept);
  }

  lemma UnlistedStart(occs: Occs, cr: CRef, c: Clause)
    requires forall l :: NoDup(List(occs, l))
    ensures Unlisted(occs, occs, cr, Lits(c[..0]) - Lits([]))
  {
  }

  // k is c without the dropped literals.
  ghost predicate Leaves(c: Clause, dropped: seq<Lit>, k: Clause) {
    forall l :: l in k <==> l in c && l !in dropped
  }

  lemma DroppedCovered(cfg: Config, data: CoprocessorData, cr: CRef, p: Lit, lits: seq<Lit>, dropped: seq<Lit>)
    requires Ready(data) && cr < |data.ca| && !data.ca[cr].deleted && p in data.ca[cr].lits
    requires cfg.cle && ListOk(data.ca, List(data.occs, Neg(p)))
    requires CleLits(cfg, data.ca, List(data.occs, Neg(p)), |List(data.occs, Neg(p))|, data.ca[cr].lits, p, lits)
    requires forall l :: l in dropped ==> l in lits
    ensures forall k: Clause :: Leaves(data.ca[cr].lits, dropped, k) ==>
              Lits(k) <= Lits(data.ca[cr].lits) && Covered(Rest(data, cr), k, p, Lits(data.ca[cr].lits) - Lits(k))
  {
    forall k: Clause | Leaves(data.ca[cr].lits, dropped, k)
      ensures Lits(k) <= Lits(data.ca[cr].lits) && Covered(Rest(data, cr), k, p, Lits(data.ca[cr].lits) - Lits(k))
    {
      assert forall l :: l in Lits(lits) <==> l in lits;
      CleCovered(cfg, data, cr, p, lits, k);
    }
  }

  // Drops the covered literals; with a proof to be printed, only one of them.
  method EliminateCovered(cfg: Config, data: CoprocessorData, cr: CRef, p: Lit, lits: seq<Lit>)
    returns (good: bool, touched: set<Lit>)
    requires Ready(data) && data.Sound() && cr < |data.ca| && !data.ca[cr].deleted && p in data.ca[cr].lits
    requires cfg.cle && lits != [] && ListOk(data.ca, List(data.occs, Neg(p)))
    requires CleLits(cfg, data.ca, List(data.occs, Neg(p)), |List(data.occs, Neg(p))|, data.ca[cr].lits, p, lits)
    modifies data`ca, data`occs, data`trail, data`ok
    ensures data.Valid() && data.Sound() && good == data.ok && old(data.trail) <= data.trail
    ensures Work(data.ca, data.trail) <= old(Work(data.ca, data.trail))
    ensures good && NoUnitsKept(old(data.ca), data.ca)
    ensures OnlyShortened(old(data.ca), old(data.occs), old(data.trail), data.ca, data.occs, data.trail, cr, p)
    ensures ShortenedTo(old(data.ca)[cr].lits, Lits(lits), cfg.proof, data.ca[cr])
    ensures touched == Complemented(Lits(old(data.ca)[cr].lits) - Lits(data.ca[cr].lits))
    ensures Size(data.ca) < old(Size(data.ca))
  {
    hide Rest, Covered, Unlisted, Proper, Sorted, Work, Step, Size, Propagation.NoUnits, FormulaOf, Propagated, Shortened, OnlyShortened, ShortenedTo;
    ghost var before := Now(data);
    hide OccsOk, ClausesOk, TrailOk, PivotsFree, CleLits, Leaves, Lits, NoUnitsKept;
    LiteralUnassigned(data, cr, p);
    AllDistinct(data);
    var c := data.ca[cr].lits;
    ghost var was := data.occs;
    var dropped := if cfg.proof then lits[..1] else lits;
    DroppedCovered(cfg, data, cr, p, lits, dropped);
    CleFacts(cfg, data.ca, List(data.occs, Neg(p)), c, p, lits);
    DroppedSorted(c, p, lits, dropped);
    ProperAt(data.ca, cr);
    var kept := ScanCovered(data, cr, c, dropped, p);
    LeavesThese(c, dropped, kept);
    SortedSubset(c, kept);
    FirstDropped(c, dropped, kept);
    DroppedAre(c, lits, cfg.proof, kept);
    touched := Complemented(Lits(dropped));
    good := StoreShrunk(data, cr, p, kept, was);
    StoredIs(before, Now(data), cr, p, Lits(lits), cfg.proof, kept);
  }

  lemma DroppedAre(c: Clause, lits: seq<Lit>, proof: bool, k: Clause)
    requires Sorted(lits) && Sorted(k) && lits != [] && forall l :: l in lits ==> l in c
    requires Leaves(c, if proof then lits[..1] else lits, k)
    ensures Shortened(c, Lits(lits), proof, k) && Lits(lits) != {}
    ensures Lits(if proof then lits[..1] else lits) == Lits(c) - Lits(k)
  {
    assert lits[0] in lits && lits[0] in Lits(lits);
    assert forall l :: l in lits[..1] <==> l == lits[0];
    forall l | l in lits ensures Loses(Lits(lits), proof, l) <==> !proof || l == lits[0] {
      if proof && Code(l) == Code(lits[0]) { CodeInjective(l, lits[0]); }
    }
  }

  lemma CleFacts(cfg: Config, ca: seq<Cls>, list: seq<CRef>, c: Clause, p: Lit, lits: seq<Lit>)
    requires ListOk(ca, list) && CleLits(cfg, ca, list, |list|, c, p, lits)
    ensures Sorted(lits) && forall l :: l in lits ==> l in c && l != p
  {
  }

  lemma LeavesThese(c: Clause, dropped: seq<Lit>, k: Clause)
    requires forall l :: l in k <==> l in c && l !in dropped
    ensures Leaves(c, dropped, k)
  {
  }

  lemma AllDistinct(data: CoprocessorData)
    requires data.Valid()
    ensures ClausesOk(data.ca) && OccsOk(data.ca, data.occs) && TrailOk(data.trail)
    ensures data.ok ==> Propagated(data.ca, data.trail[..data.qhead])
    ensures forall l :: NoDup(List(data.occs, l))
  {
  }

  lemma FirstDropped(c: Clause, dropped: seq<Lit>, k: Clause)
    requires dropped != [] && dropped[0] in c && Leaves(c, dropped, k)
    ensures Lits(k) != Lits(c)
  {
    assert dropped[0] in Lits(c) && dropped[0] !in Lits(k);
  }

  lemma DroppedSorted(c: Clause, p: Lit, lits: seq<Lit>, dropped: seq<Lit>)
    requires Sorted(lits) && (forall l :: l in lits ==> l in c && l != p)
    requires dropped == lits || (lits != [] && dropped == lits[..1])
    ensures Sorted(dropped) && forall l :: l in dropped ==> l in c && l != p
  {
    if dropped != lits {
      assert lits[0] in lits;
      assert dropped == [lits[0]];
    }
  }

  // ---------- one clause, one literal, one round ----------

  // Plain blocked clause elimination, without minimisation or literal elimination.
  predicate Plain(cfg: Config) {
    cfg.bce && !cfg.bcm && !cfg.cle
  }

  // Clause cr is blocked on p with respect to the whole database.
  ghost predicate Removable(cfg: Config, ca: seq<Cls>, occs: Occs, cr: CRef, p: Lit) {
    && cr < |ca| && !ca[cr].deleted && p in ca[cr].lits && (|ca[cr].lits| > 2 || cfg.binary)
    && ListOk(ca, List(occs, Neg(p)))
    && AllClash(ca, List(occs, Neg(p)), |List(occs, Neg(p))|, ca[cr].lits, p)
  }

  // The literals that minimisation drops: no clash was recorded for them.
  ghost function BcmLoses(ca: seq<Cls>, list: seq<CRef>, c: Clause, p: Lit): set<Lit>
    requires ListOk(ca, list)
  {
    set l | l in c && l != p && !IsReason(ca, list, |list|, c, p, l)
  }

  // The literals that covered literal elimination drops: they survive all live partners.
  ghost function CleLoses(cfg: Config, ca: seq<Cls>, list: seq<CRef>, c: Clause, p: Lit): set<Lit>
    requires ListOk(ca, list)
  {
    set l | l in c && l != p && Kept(cfg.conservative, ca, list, |list|, c, p, l)
  }

  // What becomes of clause cr when it is tried on p: a blocked clause is removed or
  // minimised, any other one loses its covered literals if some partner does not clash.
  ghost predicate Outcome(cfg: Config, was: seq<Cls>, occs: Occs, cr: CRef, p: Lit, now: Cls)
    requires cr < |was| && ListOk(was, List(occs, Neg(p)))
  {
    var c, list := was[cr].lits, List(occs, Neg(p));
    if cfg.bce && (|c| > 2 || cfg.binary) && AllClash(was, list, |list|, c, p) then
      if !cfg.bcm then now == Cls(c, true)
      else if |c| > 2 then ShortenedTo(c, BcmLoses(was, list, c, p), cfg.proof, now)
      else now == was[cr]
    else if cfg.cle && !AllClash(was, list, |list|, c, p) then
      ShortenedTo(c, CleLoses(cfg, was, list, c, p), cfg.proof, now)
    else
      now == was[cr]
  }

  // Blocked clauses are removed rather than minimised.
  ghost predicate Goes(cfg: Config, was: seq<Cls>, occs: Occs, cr: CRef, p: Lit) {
    cfg.bce && !cfg.bcm && Removable(cfg, was, occs, cr, p)
  }

  lemma LosesBcm(ca: seq<Cls>, list: seq<CRef>, c: Clause, p: Lit, reasons: set<Lit>)
    requires ListOk(ca, list) && ReasonsOk(ca, list, |list|, c, p, reasons)
    ensures Unneeded(c, p, reasons) == BcmLoses(ca, list, c, p)
  {
  }

  lemma LosesCle(cfg: Config, ca: seq<Cls>, list: seq<CRef>, c: Clause, p: Lit, lits: seq<Lit>)
    requires ListOk(ca, list) && CleLits(cfg, ca, list, |list|, c, p, lits) && cfg.cle
    ensures Lits(lits) == CleLoses(cfg, ca, list, c, p) && (lits == [] <==> Lits(lits) == {})
  {
    hide Kept;
    assert lits != [] ==> lits[0] in Lits(lits);
  }

  lemma OutcomeAnalysed(cfg: Config, was: seq<Cls>, occs: Occs, cr: CRef, p: Lit, a: Analysis, now: Cls)
    requires cr < |was| && ListOk(was, List(occs, Neg(p))) && !was[cr].deleted
    requires Analysed(cfg, was, List(occs, Neg(p)), |List(occs, Neg(p))|, was[cr].lits, p, a)
    requires var c := was[cr].lits;
      if cfg.bce && a.isBlocked then
        if !cfg.bcm then now == Cls(c, true)
        else if |c| > 2 then ShortenedTo(c, Unneeded(c, p, a.reasons), cfg.proof, now)
        else now == was[cr]
      else if cfg.cle && a.canCle && |a.lits| > 0 then ShortenedTo(c, Lits(a.lits), cfg.proof, now)
      else now == was[cr]
    ensures Outcome(cfg, was, occs, cr, p, now)
  {
    hide AllClash, CleLits, ReasonsOk, Kept, IsReason, Shortened, BcmLoses, CleLoses, Unneeded, Lits, ListOk;
    var c, list := was[cr].lits, List(occs, Neg(p));
    if cfg.bce && a.isBlocked && cfg.bcm { LosesBcm(was, list, c, p, a.reasons); }
    if cfg.cle { LosesCle(cfg, was, list, c, p, a.lits); }
  }

  lemma EarlyOutcome(cfg: Config, was: seq<Cls>, occs: Occs, cr: CRef, p: Lit)
    requires cr < |was| && ListOk(was, List(occs, Neg(p))) && |was[cr].lits| == 2 && !cfg.binary && !cfg.cle
    ensures Outcome(cfg, was, occs, cr, p, was[cr])
  {
  }

  // Clause cr is tried on p: exactly its outcome, and its repair clause if it is removed.
  ghost predicate Rewritten(cfg: Config, s: State, t: State, cr: CRef, p: Lit) {
    && cr < |s.ca| == |t.ca| && ListOk(s.ca, List(s.occs, Neg(p))) && Outcome(cfg, s.ca, s.occs, cr, p, t.ca[cr])
    && WellFormed(s.undo) && WellFormed(t.undo)
    && (Goes(cfg, s.ca, s.occs, cr, p) ==>
          && t.ca == Propagation.Dropped(s.ca, cr) && t.occs == s.occs && t.trail == s.trail
          && Segs(t.undo) == Segs(s.undo) + [PivotFirst(s.ca[cr].lits, p)])
    && (!Goes(cfg, s.ca, s.occs, cr, p) ==>
          OnlyShortened(s.ca, s.occs, s.trail, t.ca, t.occs, t.trail, cr, p) && t.undo == s.undo)
  }

  // The literals that are lost with the clause, or by it.
  ghost function LostBy(was: Cls, now: Cls): set<Lit> {
    if now.deleted && now.lits == was.lits then Lits(was.lits) else Lits(was.lits) - Lits(now.lits)
  }

  // Tries every enabled rewrite on one live clause that contains p. The literals that are
  // touched may have become blocking literals.
  method ProcessClause(cfg: Config, data: CoprocessorData, cr: CRef, p: Lit) returns (good: bool, touched: set<Lit>)
    requires Ready(data) && data.Sound() && cr < |data.ca| && !data.ca[cr].deleted && p in data.ca[cr].lits
    requires p.v !in data.frozen
    modifies data`ca, data`occs, data`trail, data`ok, data`undo
    ensures data.Valid() && data.Sound() && good && data.ok && old(data.trail) <= data.trail
    ensures Work(data.ca, data.trail) <= old(Work(data.ca, data.trail))
    ensures Size(data.ca) <= old(Size(data.ca)) && (touched != {} ==> Size(data.ca) < old(Size(data.ca)))
    ensures NoUnitsKept(old(data.ca), data.ca)
    ensures Rewritten(cfg, old(Now(data)), Now(data), cr, p) && List(data.occs, p) == List(old(data.occs), p)
    ensures touched == Complemented(LostBy(old(data.ca)[cr], data.ca[cr]))
    ensures !cfg.bcm && !cfg.cle ==> data.occs == old(data.occs)
  {
    hide Rest, Proper, Sorted, Step, FormulaOf, Size, Analysed, Outcome, ShortenedTo, Work, OccsOk, ClausesOk, Propagated;
    hide TrailOk, NoUnitsKept, PivotsFree, AllClash;
    var c := data.ca[cr].lits;
    good, touched := true, {};
    NoUnitsRefl(data.ca);
    ListInRange(data, Neg(p));
    SameState(data.ca, data.occs, data.trail, cr, p);
    if !cfg.binary && |c| == 2 && !cfg.cle {
      EarlyOutcome(cfg, data.ca, data.occs, cr, p);
      return;
    }
    ghost var was := data.ca;
    ValidParts(data);
    ProperAt(data.ca, cr);
    var a := Analyse(cfg, data.ca, List(data.occs, Neg(p)), c, p);
    AnalysedParts(cfg, data.ca, data.occs, cr, p, a);
    if cfg.bce && a.isBlocked {
      if !cfg.bcm {
        BlockedInFormula(data, cr, p);
        RemoveBlocked(data, cr, p);
        touched := Complemented(Lits(c));
      } else if |c| > 2 {
        good, touched := Minimise(data, cr, p, a.reasons, cfg.proof);
        NotAll(c, p, Unneeded(c, p, a.reasons), cfg.proof, data.ca[cr]);
      }
    } else if cfg.cle && a.canCle && |a.lits| > 0 {
      good, touched := EliminateCovered(cfg, data, cr, p, a.lits);
      NotAll(c, p, Lits(a.lits), cfg.proof, data.ca[cr]);
    }
    OutcomeAnalysed(cfg, was, old(data.occs), cr, p, a, data.ca[cr]);
  }

  lemma AnalysedParts(cfg: Config, ca: seq<Cls>, occs: Occs, cr: CRef, p: Lit, a: Analysis)
    requires cr < |ca| && !ca[cr].deleted && p in ca[cr].lits && ListOk(ca, List(occs, Neg(p)))
    requires Analysed(cfg, ca, List(occs, Neg(p)), |List(occs, Neg(p))|, ca[cr].lits, p, a)
    ensures a.isBlocked ==> AllClash(ca, List(occs, Neg(p)), |List(occs, Neg(p))|, ca[cr].lits, p)
    ensures a.isBlocked && cfg.bcm ==> AllClashVia(a.reasons, ca, List(occs, Neg(p)), |List(occs, Neg(p))|, ca[cr].lits, p)
    ensures CleLits(cfg, ca, List(occs, Neg(p)), |List(occs, Neg(p))|, ca[cr].lits, p, a.lits)
    ensures forall l :: l in a.lits ==> l in ca[cr].lits && l != p
    ensures Goes(cfg, ca, occs, cr, p) <==> cfg.bce && !cfg.bcm && a.isBlocked
  {
  }

  // A clause that moves to the trail has lost a literal.
  lemma NotAll(c: Clause, p: Lit, loses: set<Lit>, proof: bool, now: Cls)
    requires p in c && ShortenedTo(c, loses, proof, now) && forall l :: l in loses ==> l in c && l != p
    ensures now.deleted ==> now.lits != c
  {
    if now.deleted {
      var l :| l in loses;
      assert |c| >= 2;
    }
  }

  lemma SameState(ca: seq<Cls>, occs: Occs, trail: seq<Lit>, cr: CRef, p: Lit)
    requires cr < |ca| && !ca[cr].deleted
    ensures OnlyShortened(ca, occs, trail, ca, occs, trail, cr, p)
    ensures Complemented(LostBy(ca[cr], ca[cr])) == {}
  {
    assert LostBy(ca[cr], ca[cr]) == {};
  }

  lemma ValidParts(data: CoprocessorData)
    requires data.Valid()
    ensures ClausesOk(data.ca) && OccsOk(data.ca, data.occs)
  {
  }

  // The first n entries of the list of p have been tried, and nothing else has changed.
  ghost predicate Swept(cfg: Config, was: seq<Cls>, ca: seq<Cls>, occs: Occs, n: nat, p: Lit)
    requires n <= |List(occs, p)|
  {
    && |ca| == |was| && ListOk(was, List(occs, Neg(p))) && ListOk(was, List(occs, p))
    && (forall i :: 0 <= i < |ca| && (was[i].deleted || p !in was[i].lits) ==> ca[i] == was[i])
    && (forall k :: 0 <= k < n && !was[List(occs, p)[k]].deleted ==> Outcome(cfg, was, occs, List(occs, p)[k], p, ca[List(occs, p)[k]]))
    && (forall k :: n <= k < |List(occs, p)| ==> ca[List(occs, p)[k]] == was[List(occs, p)[k]])
  }

  // Rewriting clauses with p does not touch the partners of a clause with p.
  lemma PartnersUnchanged(cfg: Config, was: seq<Cls>, ca: seq<Cls>, occs: Occs, n: nat, p: Lit)
    requires n <= |List(occs, p)| && Swept(cfg, was, ca, occs, n, p) && OccsOk(was, occs) && ClausesOk(was)
    ensures forall k :: 0 <= k < |List(occs, Neg(p))| ==>
              List(occs, Neg(p))[k] < |was| && ca[List(occs, Neg(p))[k]] == was[List(occs, Neg(p))[k]]
  {
    hide Outcome;
    var list := List(occs, Neg(p));
    forall k | 0 <= k < |list| ensures list[k] < |was| && ca[list[k]] == was[list[k]] {
      assert InList(occs, Neg(p), list[k]);
      assert Proper(was[list[k]].lits);
    }
  }

  lemma SamePartners(cfg: Config, was: seq<Cls>, ca: seq<Cls>, occs0: Occs, occs: Occs, cr: CRef, p: Lit, now: Cls)
    requires cr < |was| == |ca| && ca[cr] == was[cr] && List(occs, Neg(p)) == List(occs0, Neg(p)) && ListOk(was, List(occs, Neg(p)))
    requires forall k :: 0 <= k < |List(occs, Neg(p))| ==> ca[List(occs, Neg(p))[k]] == was[List(occs, Neg(p))[k]]
    ensures ListOk(ca, List(occs, Neg(p)))
    ensures Outcome(cfg, ca, occs, cr, p, now) <==> Outcome(cfg, was, occs0, cr, p, now)
    ensures Goes(cfg, ca, occs, cr, p) <==> Goes(cfg, was, occs0, cr, p)
  {
    hide ShortenedTo;
    var c, list := was[cr].lits, List(occs, Neg(p));
    assert AllClash(ca, list, |list|, c, p) <==> AllClash(was, list, |list|, c, p);
    SameLoses(cfg, was, ca, list, c, p);
    hide AllClash, Kept, IsReason;
  }

  lemma SameLoses(cfg: Config, was: seq<Cls>, ca: seq<Cls>, list: seq<CRef>, c: Clause, p: Lit)
    requires |was| == |ca| && ListOk(was, list) && forall k :: 0 <= k < |list| ==> ca[list[k]] == was[list[k]]
    ensures BcmLoses(ca, list, c, p) == BcmLoses(was, list, c, p)
    ensures CleLoses(cfg, ca, list, c, p) == CleLoses(cfg, was, list, c, p)
  {
    forall l ensures IsReason(ca, list, |list|, c, p, l) <==> IsReason(was, list, |list|, c, p, l) {}
    forall l ensures Kept(cfg.conservative, ca, list, |list|, c, p, l) <==> Kept(cfg.conservative, was, list, |list|, c, p, l) {}
  }

  // One more entry of the list.
  lemma SweepOne(cfg: Config, s: State, p: Lit, n: nat, mid: State, now: State)
    requires n < |List(s.occs, p)| && Swept(cfg, s.ca, mid.ca, s.occs, n, p) && OccsOk(s.ca, s.occs) && ClausesOk(s.ca)
    requires List(mid.occs, Neg(p)) == List(s.occs, Neg(p)) && List(s.occs, p)[n] < |mid.ca|
    requires if mid.ca[List(s.occs, p)[n]].deleted then now == mid else Rewritten(cfg, mid, now, List(s.occs, p)[n], p)
    ensures Swept(cfg, s.ca, now.ca, s.occs, n + 1, p)
  {
    hide Outcome;
    var list, cr := List(s.occs, p), List(s.occs, p)[n];
    assert InList(s.occs, p, cr);
    assert mid.ca[cr] == s.ca[cr];
    PartnersUnchanged(cfg, s.ca, mid.ca, s.occs, n, p);
    if !mid.ca[cr].deleted { SamePartners(cfg, s.ca, mid.ca, s.occs, mid.occs, cr, p, now.ca[cr]); }
    assert NoDup(list);
    forall k | 0 <= k < |list| && k != n ensures now.ca[list[k]] == mid.ca[list[k]] {}
  }

  lemma SweepDone(cfg: Config, was: seq<Cls>, ca: seq<Cls>, occs: Occs, p: Lit)
    requires OccsOk(was, occs) && Swept(cfg, was, ca, occs, |List(occs, p)|, p)
    ensures AllOutcomes(cfg, was, ca, occs, p)
  {
    hide Outcome;
    forall i | 0 <= i < |ca| && !was[i].deleted && p in was[i].lits ensures Outcome(cfg, was, occs, i, p, ca[i]) {
      assert InList(occs, p, i);
      var k :| 0 <= k < |List(occs, p)| && List(occs, p)[k] == i;
    }
  }

  // Every clause with p has its outcome with respect to the clauses before, and the other
  // clauses stay.
  ghost predicate AllOutcomes(cfg: Config, was: seq<Cls>, ca: seq<Cls>, occs: Occs, p: Lit) {
    |ca| == |was| && ListOk(was, List(occs, Neg(p))) && forall i :: 0 <= i < |ca| ==>
      if was[i].deleted || p !in was[i].lits then ca[i] == was[i] else Outcome(cfg, was, occs, i, p, ca[i])
  }

  // Exactly the clauses that were blocked on p are gone.
  ghost predicate SweptAll(cfg: Config, was: seq<Cls>, ca: seq<Cls>, occs: Occs, p: Lit) {
    |ca| == |was| && forall i :: 0 <= i < |ca| ==>
      ca[i].lits == was[i].lits && (ca[i].deleted <==> was[i].deleted || Removable(cfg, was, occs, i, p))
  }

  lemma PlainOutcomes(cfg: Config, was: seq<Cls>, ca: seq<Cls>, occs: Occs, p: Lit)
    requires Plain(cfg) && AllOutcomes(cfg, was, ca, occs, p)
    ensures SweptAll(cfg, was, ca, occs, p)
  {
    hide AllClash;
  }

  // Clauses are only simplified by the literals of the trail, which may have grown.
  ghost predicate PropagatedFrom(s: State, t: State) {
    t.undo == s.undo && s.trail <= t.trail && Propagation.Simplified(s.ca, t.ca, t.trail, true)
  }

  // Unit propagation keeps the run sound.
  method Propagate(data: CoprocessorData)
    requires data.Valid() && data.Sound()
    modifies data`ca, data`occs, data`trail, data`ok, data`qhead
    ensures data.Valid() && data.Sound()
    ensures (data.ok ==> Ready(data)) && NoUnitsKept(old(data.ca), data.ca)
    ensures Work(data.ca, data.trail) <= old(Work(data.ca, data.trail)) && old(data.trail) <= data.trail
    ensures Size(data.ca) <= old(Size(data.ca))
    ensures !old(data.HasToPropagate()) ==>
      Propagation.Idle(data, old(data.ca), old(data.occs), old(data.trail)) && data.ok == old(data.ok)
    ensures data.ok ==> PropagatedFrom(old(Now(data)), Now(data))
  {
    hide Size, OccsOk, Propagated, TrailOk, Step, FormulaOf, Propagation.SimplifiedBy, PivotsFree;
    ghost var f, was := data.F(), data.ca;
    var status := Propagation.Process(data);
    SizeSimplified(was, data.ca, data.trail, data.ok);
    EquivalentStep(f, data.F());
    StepCompose(data.input, f, data.F(), Segs(data.undo), []);
    assert Segs(data.undo) + [] == Segs(data.undo);
  }

  lemma ListEntry(data: CoprocessorData, p: Lit, i: nat)
    requires data.Valid() && i < |List(data.occs, p)|
    ensures var cr := List(data.occs, p)[i];
            cr < |data.ca| && (!data.ca[cr].deleted ==> p in data.ca[cr].lits)
  {
    assert InList(data.occs, p, List(data.occs, p)[i]);
  }

  lemma StartSweep(cfg: Config, data: CoprocessorData, p: Lit, q: Queue)
    requires data.Valid()
    ensures Ready(data) ==> Sweeping(cfg, data, Now(data), p, 0, q)
    ensures QueuesLost(data.ca, data.ca, q)
  {
    hide Outcome;
    ListInRange(data, Neg(p));
    forall i | 0 <= i < |List(data.occs, p)| ensures List(data.occs, p)[i] < |data.ca| {
      ListEntry(data, p, i);
    }
  }

  lemma WorkBound(ca: seq<Cls>, trail: seq<Lit>)
    ensures |trail| <= Work(ca, trail)
  {
  }

  // The queue of literals: those of the current round and those for the next one.
  datatype Queue = Queue(heap: set<Lit>, nextRound: set<Lit>) {
    predicate Has(l: Lit) {
      l in heap || l in nextRound
    }

    // Literals that are still in the heap are only moved inside it.
    function Add(touched: set<Lit>): (r: Queue)
      ensures r.heap == heap && nextRound <= r.nextRound && (touched == {} ==> r == this)
      ensures forall l :: r.Has(l) <==> Has(l) || l in touched
    {
      Queue(heap, nextRound + (touched - heap))
    }
  }

  // Clause i has lost literal l, or has disappeared with it.
  ghost predicate HasLost(was: seq<Cls>, ca: seq<Cls>, i: CRef, l: Lit) {
    i < |was| == |ca| && !was[i].deleted && l in was[i].lits && (ca[i].deleted || l !in ca[i].lits)
  }

  // Literals of which a complement has disappeared from a clause are queued.
  ghost predicate QueuesLost(was: seq<Cls>, ca: seq<Cls>, q: Queue) {
    |ca| == |was| && forall i: CRef, l: Lit :: HasLost(was, ca, i, l) ==> q.Has(Neg(l))
  }

  // What one clause of the list means for the queue, unless it has become a unit.
  lemma LostOne(was: seq<Cls>, mid: seq<Cls>, ca: seq<Cls>, q: Queue, cr: CRef, touched: set<Lit>)
    requires QueuesLost(was, mid, q) && cr < |mid| == |ca| && mid[cr] == was[cr] && ca == mid[cr := ca[cr]]
    requires touched == Complemented(LostBy(mid[cr], ca[cr])) && (ca[cr].deleted ==> ca[cr].lits == mid[cr].lits)
    ensures QueuesLost(was, ca, q.Add(touched))
  {
    forall i: CRef, l: Lit | HasLost(was, ca, i, l) ensures q.Add(touched).Has(Neg(l)) {
      if i == cr {
        assert Neg(Neg(l)) == l && l in Lits(was[cr].lits);
      } else {
        assert HasLost(was, mid, i, l);
      }
    }
  }

  lemma LostSame(was: seq<Cls>, ca: seq<Cls>, q: Queue)
    requires QueuesLost(was, ca, q)
    ensures QueuesLost(was, ca, q.Add({}))
  {
  }

  // What has been achieved on the first i clauses of the list of p, as long as no unit has
  // been found.
  ghost predicate Sweeping(cfg: Config, data: CoprocessorData, s: State, p: Lit, i: nat, q: Queue)
    reads data
  {
    && Ready(data) && data.trail == s.trail && i <= |List(s.occs, p)|
    && List(data.occs, p) == List(s.occs, p) && List(data.occs, Neg(p)) == List(s.occs, Neg(p))
    && Swept(cfg, s.ca, data.ca, s.occs, i, p) && QueuesLost(s.ca, data.ca, q)
    && OccsOk(s.ca, s.occs) && ClausesOk(s.ca) && (!cfg.bcm && !cfg.cle ==> data.occs == s.occs)
  }

  // One entry of the list, as long as no unit has been found.
  lemma SweepEntry(cfg: Config, data: CoprocessorData, s: State, p: Lit, i: nat, mid: State, q: Queue, touched: set<Lit>)
    requires Ready(data) && i < |List(s.occs, p)| && List(s.occs, p)[i] < |mid.ca|
    requires mid.trail == s.trail && List(mid.occs, p) == List(s.occs, p) && List(mid.occs, Neg(p)) == List(s.occs, Neg(p))
    requires Swept(cfg, s.ca, mid.ca, s.occs, i, p) && QueuesLost(s.ca, mid.ca, q)
    requires OccsOk(s.ca, s.occs) && ClausesOk(s.ca) && (!cfg.bcm && !cfg.cle ==> mid.occs == s.occs && data.occs == mid.occs)
    requires var cr := List(s.occs, p)[i];
      if mid.ca[cr].deleted then Now(data) == mid && touched == {}
      else Rewritten(cfg, mid, Now(data), cr, p) && touched == Complemented(LostBy(mid.ca[cr], data.ca[cr]))
    requires data.trail == mid.trail
    ensures Sweeping(cfg, data, s, p, i + 1, q.Add(touched))
  {
    hide Outcome, OccsOk, ClausesOk, Propagated, QueuesLost;
    var cr := List(s.occs, p)[i];
    SweepOne(cfg, s, p, i, mid, Now(data));
    if mid.ca[cr].deleted {
      LostSame(s.ca, mid.ca, q);
    } else {
      OutcomeLits(cfg, mid, Now(data), cr, p);
      LostOne(s.ca, mid.ca, data.ca, q, cr, touched);
    }
  }

  lemma OutcomeLits(cfg: Config, s: State, t: State, cr: CRef, p: Lit)
    requires Rewritten(cfg, s, t, cr, p) && t.trail == s.trail
    ensures t.ca == s.ca[cr := t.ca[cr]] && (t.ca[cr].deleted ==> t.ca[cr].lits == s.ca[cr].lits)
  {
    hide Outcome;
    if !Goes(cfg, s.ca, s.occs, cr, p) { assert |s.trail + [p]| == |s.trail| + 1; }
  }

  lemma NothingMoved(cfg: Config, s: State, t: State, cr: CRef, p: Lit)
    requires Rewritten(cfg, s, t, cr, p) && !cfg.bcm && !cfg.cle && !s.ca[cr].deleted && p in s.ca[cr].lits
    ensures t.trail == s.trail
  {
    hide AllClash;
  }

  // One entry of the list of p. If a rewrite produced a unit, it is propagated at once,
  // and the list is started over when that changed it.
  method ProcessEntry(cfg: Config, data: CoprocessorData, p: Lit, i: nat, q0: Queue, ghost s: State)
    returns (good: bool, next: nat, q: Queue)
    requires data.Valid() && data.Sound() && data.ok && !data.HasToPropagate() && i < |List(data.occs, p)| && p.v !in data.frozen
    modifies data`ca, data`occs, data`trail, data`ok, data`undo, data`qhead
    ensures data.Valid() && data.Sound() && good == data.ok && NoUnitsKept(old(data.ca), data.ca)
    ensures Work(data.ca, data.trail) <= old(Work(data.ca, data.trail)) && old(data.trail) <= data.trail
    ensures Size(data.ca) <= old(Size(data.ca)) && (q != q0 ==> Size(data.ca) < old(Size(data.ca)))
    ensures q.heap == q0.heap && q0.nextRound <= q.nextRound
    ensures next == i + 1 || (next == 0 && |old(data.trail)| < |data.trail|)
    ensures next == i + 1 ==> |List(data.occs, p)| == |List(old(data.occs), p)|
    ensures good ==> !data.HasToPropagate()
    ensures good && old(Sweeping(cfg, data, s, p, i, q0)) && data.trail == old(data.trail) ==>
      next == i + 1 && Sweeping(cfg, data, s, p, next, q)
    ensures !cfg.bcm && !cfg.cle ==> good && data.trail == old(data.trail)
  {
    hide Swept, Rewritten, Outcome, List, OccsOk, ClausesOk, Propagated, TrailOk, FormulaOf, Work, Size, QueuesLost, PivotsFree;
    hide Sat.Sorted, Propagation.NoUnits;
    ghost var sweeping, mid0, ca0, trail0 := Sweeping(cfg, data, s, p, i, q0), Now(data), data.ca, data.trail;
    NoUnitsRefl(data.ca);
    ListEntry(data, p, i);
    ReadyNow(data);
    var cr, touched: set<Lit> := List(data.occs, p)[i], {};
    good, next, q := true, i + 1, q0;
    if !data.ca[cr].deleted {
      good, touched := ProcessClause(cfg, data, cr, p);
      if !good { return; }
      if !cfg.bcm && !cfg.cle { NothingMoved(cfg, mid0, Now(data), cr, p); }
    }
    if sweeping && data.trail == trail0 {
      ReadyNow(data);
      SweepEntry(cfg, data, s, p, i, mid0, q, touched);
    }
    q := q.Add(touched);
    if data.HasToPropagate() {
      var prevSize := |List(data.occs, p)|;
      ghost var mid := data.ca;
      Propagate(data);
      NoUnitsTrans(ca0, mid, data.ca);
      good := data.ok;
      if prevSize != |List(data.occs, p)| { next := 0; }
    }
  }

  // One literal that was tried, with the states before and after.
  datatype LitStep = LitStep(p: Lit, was: State, now: State)

  // Nothing happens for a frozen variable or one that has a value. Otherwise every clause
  // with the literal has its outcome, unless a unit is found.
  ghost predicate LitStepOk(cfg: Config, frozen: set<nat>, st: LitStep) {
    if st.p.v in frozen || !Unassigned(st.was.trail, st.p) then st.now == st.was
    else st.was.trail <= st.now.trail && (st.now.trail == st.was.trail ==> AllOutcomes(cfg, st.was.ca, st.now.ca, st.was.occs, st.p))
  }

  // The literals that were tried, one after the other, from one state to another.
  ghost predicate Trace(cfg: Config, frozen: set<nat>, start: State, steps: seq<LitStep>, end: State) {
    && (forall i :: 0 <= i < |steps| ==> LitStepOk(cfg, frozen, steps[i]))
    && (forall i :: 0 <= i < |steps| - 1 ==> steps[i].now == steps[i + 1].was)
    && (if steps == [] then start == end else steps[0].was == start && steps[|steps| - 1].now == end)
  }

  lemma TraceAppend(cfg: Config, frozen: set<nat>, start: State, steps: seq<LitStep>, st: LitStep)
    requires Trace(cfg, frozen, start, steps, st.was) && LitStepOk(cfg, frozen, st)
    ensures Trace(cfg, frozen, start, steps + [st], st.now)
  {
    hide LitStepOk;
  }

  // Literal l is tried by step i or later.
  ghost predicate TriedFrom(steps: seq<LitStep>, i: nat, l: Lit) {
    exists j :: i <= j < |steps| && steps[j].p == l
  }

  // Step i, which found no unit, took the complement of l from a clause.
  ghost predicate Freed(steps: seq<LitStep>, i: nat, l: Lit) {
    i < |steps| && steps[i].now.trail == steps[i].was.trail
    && exists c: CRef :: HasLost(steps[i].was.ca, steps[i].now.ca, c, Neg(l))
  }

  // Every literal that some clause contains at the beginning, and every literal whose
  // complement a clause loses later, is tried afterwards or still queued.
  ghost predicate Owed(wanted: set<Lit>, steps: seq<LitStep>, q: Queue) {
    && (forall l :: l in wanted ==> q.Has(l) || TriedFrom(steps, 0, l))
    && (forall i: nat, l: Lit :: Freed(steps, i, l) ==> q.Has(l) || TriedFrom(steps, i + 1, l))
  }

  lemma OwedAppend(wanted: set<Lit>, steps: seq<LitStep>, q0: Queue, st: LitStep, q: Queue)
    requires Owed(wanted, steps, q0) && q.heap == q0.heap - {st.p} && q0.nextRound <= q.nextRound
    requires st.now.trail == st.was.trail ==> QueuesLost(st.was.ca, st.now.ca, q)
    ensures Owed(wanted, steps + [st], q)
  {
    var more := steps + [st];
    assert more[|steps|] == st;
    forall l, i: nat | i <= |steps| && (q0.Has(l) || TriedFrom(steps, i, l)) ensures q.Has(l) || TriedFrom(more, i, l) {
      if TriedFrom(steps, i, l) {
        var j :| i <= j < |steps| && steps[j].p == l;
        assert more[j].p == l;
      } else if l == st.p {
        assert more[|steps|].p == l;
      }
    }
    forall i: nat, l: Lit | Freed(more, i, l) ensures q.Has(l) || TriedFrom(more, i + 1, l) {
      if i < |steps| {
        assert more[i] == steps[i];
        assert Freed(steps, i, l);
      } else {
        var c: CRef :| HasLost(st.was.ca, st.now.ca, c, Neg(l));
        assert Neg(Neg(l)) == l;
      }
    }
  }

  lemma ValueIs(data: CoprocessorData, p: Lit)
    ensures data.Value(p) == Undef <==> Unassigned(data.trail, p)
  {
  }

  // All clauses that contain p.
  method ProcessLiteral(cfg: Config, data: CoprocessorData, p: Lit, q0: Queue) returns (good: bool, q: Queue)
    requires data.Valid() && data.Sound() && data.ok
    modifies data`ca, data`occs, data`trail, data`ok, data`undo, data`qhead
    ensures data.Valid() && data.Sound() && good == data.ok && NoUnitsKept(old(data.ca), data.ca)
    ensures Work(data.ca, data.trail) <= old(Work(data.ca, data.trail))
    ensures Size(data.ca) <= old(Size(data.ca)) && (q != q0 ==> Size(data.ca) < old(Size(data.ca)))
    ensures q.heap == q0.heap && q0.nextRound <= q.nextRound
    ensures good && old(Ready(data)) ==> Ready(data) && LitStepOk(cfg, data.frozen, LitStep(p, old(Now(data)), Now(data)))
    ensures good && old(Ready(data)) && data.trail == old(data.trail) ==> QueuesLost(old(data.ca), data.ca, q)
    ensures !cfg.bcm && !cfg.cle && old(Ready(data)) ==> good && data.trail == old(data.trail) && data.occs == old(data.occs)
  {
    hide AllOutcomes, Swept, OccsOk, ClausesOk, Propagated, TrailOk, FormulaOf, Work, Size, QueuesLost, PivotsFree, Step;
    hide Sat.Sorted, Propagation.NoUnits;
    good, q := true, q0;
    NoUnitsRefl(data.ca);
    StartSweep(cfg, data, p, q);
    ValueIs(data, p);
    if p.v in data.frozen || data.Value(p) != Undef { return; }
    ghost var ready, s := Ready(data), Now(data);
    ghost var was, bound := data.ca, Work(data.ca, data.trail);
    var i: nat := 0;
    while i < |List(data.occs, p)| && !data.HasToPropagate()
      invariant data.Valid() && data.Sound() && data.ok
      invariant Work(data.ca, data.trail) <= bound && NoUnitsKept(was, data.ca)
      invariant Size(data.ca) <= Size(was) && (q != q0 ==> Size(data.ca) < Size(was))
      invariant q.heap == q0.heap && q0.nextRound <= q.nextRound && s.trail <= data.trail
      invariant ready && data.trail == s.trail ==> Sweeping(cfg, data, s, p, i, q)
      invariant ready && !cfg.bcm && !cfg.cle ==> data.trail == s.trail
      decreases bound - |data.trail|, |List(data.occs, p)| - i
    {
      WorkBound(data.ca, data.trail);
      ghost var mid := data.ca;
      good, i, q := ProcessEntry(cfg, data, p, i, q, s);
      NoUnitsTrans(was, mid, data.ca);
      WorkBound(data.ca, data.trail);
      if !good { return; }
    }
    if ready && data.trail == s.trail { SweepDone(cfg, was, data.ca, s.occs, p); }
    if data.HasToPropagate() {
      ghost var mid := data.ca;
      Propagate(data);
      NoUnitsTrans(was, mid, data.ca);
      good := data.ok;
    }
  }

  lemma ReadyNow(data: CoprocessorData)
    requires data.Valid() && data.ok && !data.HasToPropagate()
    ensures Ready(data)
  {
  }

  // Some live clause contains the literal.
  ghost predicate InLive(ca: seq<Cls>, l: Lit) {
    exists i :: 0 <= i < |ca| && !ca[i].deleted && l in ca[i].lits
  }

  // Its variable may change, too.
  ghost predicate Candidate(data: CoprocessorData, l: Lit)
    reads data`ca
  {
    l.v !in data.frozen && InLive(data.ca, l)
  }

  method Candidates(data: CoprocessorData) returns (r: set<Lit>)
    ensures forall l :: l in r <==> Candidate(data, l)
  {
    r := {};
    var i := 0;
    while i < |data.ca|
      invariant 0 <= i <= |data.ca|
      invariant forall l :: l in r <==> l.v !in data.frozen && exists k :: 0 <= k < i && !data.ca[k].deleted && l in data.ca[k].lits
    {
      if !data.ca[i].deleted {
        var c := data.ca[i].lits;
        r := r + set l | l in c && l.v !in data.frozen;
      }
      i := i + 1;
    }
  }

  // Every literal that blocks a clause is queued.
  ghost predicate BlockersQueued(cfg: Config, data: CoprocessorData, q: Queue)
    reads data`ca, data`occs
  {
    forall i: CRef, l: Lit :: l.v !in data.frozen && Removable(cfg, data.ca, data.occs, i, l) ==> q.Has(l)
  }

  // A clause becomes blocked only when a partner disappears.
  lemma NewlyRemovable(cfg: Config, was: seq<Cls>, ca: seq<Cls>, occs: Occs, q: Queue, p: Lit, i: CRef, l: Lit)
    requires SweptAll(cfg, was, ca, occs, p) && QueuesLost(was, ca, q) && OccsOk(was, occs)
    requires Removable(cfg, ca, occs, i, l) && !Removable(cfg, was, occs, i, l)
    ensures q.Has(l)
  {
    hide Clash, QueuesLost;
    var list := List(occs, Neg(l));
    assert ca[i].lits == was[i].lits && !was[i].deleted;
    var k :| 0 <= k < |list| && !was[list[k]].deleted && !Clash(was[i].lits, l, was[list[k]].lits);
    assert ca[list[k]].deleted;
    assert InList(occs, Neg(l), list[k]);
    QueuedFor(was, ca, q, list[k], l);
  }

  lemma QueuedFor(was: seq<Cls>, ca: seq<Cls>, q: Queue, i: CRef, l: Lit)
    requires QueuesLost(was, ca, q) && i < |was| && !was[i].deleted && Neg(l) in was[i].lits && ca[i].deleted
    ensures q.Has(l)
  {
    assert HasLost(was, ca, i, Neg(l)) && Neg(Neg(l)) == l;
  }

  lemma SweptKeepsQueue(cfg: Config, was: seq<Cls>, ca: seq<Cls>, occs: Occs, p: Lit, frozen: set<nat>, q0: Queue, q: Queue)
    requires SweptAll(cfg, was, ca, occs, p) && QueuesLost(was, ca, q) && OccsOk(was, occs) && ClausesOk(was)
    requires forall i: CRef, l: Lit :: l.v !in frozen && Removable(cfg, was, occs, i, l) ==> l == p || q0.Has(l)
    requires q.heap == q0.heap && q0.nextRound <= q.nextRound
    ensures forall i: CRef, l: Lit :: l.v !in frozen && Removable(cfg, ca, occs, i, l) ==> q.Has(l)
  {
    forall i: CRef, l: Lit | l.v !in frozen && Removable(cfg, ca, occs, i, l) ensures q.Has(l) {
      if !Removable(cfg, was, occs, i, l) {
        NewlyRemovable(cfg, was, ca, occs, q, p, i, l);
      }
    }
  }

  lemma CandidatesBlock(cfg: Config, data: CoprocessorData, q: Queue)
    requires forall l :: Candidate(data, l) ==> q.Has(l)
    ensures BlockersQueued(cfg, data, q)
  {
    forall i: CRef, l: Lit | l.v !in data.frozen && Removable(cfg, data.ca, data.occs, i, l) ensures q.Has(l) {
      assert Candidate(data, l);
    }
  }

  // One literal of the heap is tried.
  method TryLiteral(cfg: Config, data: CoprocessorData, q0: Queue, right: Lit)
    returns (good: bool, q: Queue, ghost st: LitStep)
    requires data.Valid() && data.Sound() && data.ok && right in q0.heap
    modifies data`ca, data`occs, data`trail, data`ok, data`undo, data`qhead
    ensures data.Valid() && data.Sound() && good == data.ok && NoUnitsKept(old(data.ca), data.ca)
    ensures q.heap == q0.heap - {right} && |q.heap| < |q0.heap| && q0.nextRound <= q.nextRound
    ensures Size(data.ca) <= old(Size(data.ca)) && (q.nextRound != q0.nextRound ==> Size(data.ca) < old(Size(data.ca)))
    ensures Plain(cfg) && old(Ready(data)) && old(BlockersQueued(cfg, data, q0)) ==> Ready(data) && BlockersQueued(cfg, data, q)
    ensures st == LitStep(right, old(Now(data)), Now(data))
    ensures good && old(Ready(data)) ==> Ready(data) && LitStepOk(cfg, data.frozen, st)
    ensures good && old(Ready(data)) && st.now.trail == st.was.trail ==> QueuesLost(st.was.ca, st.now.ca, q)
  {
    hide SweptAll, OccsOk, ClausesOk, Propagated, TrailOk, FormulaOf, Size, QueuesLost, Removable, Work, AllOutcomes;
    hide Sat.Sorted, Propagation.NoUnits;
    ghost var plain := Plain(cfg) && Ready(data) && BlockersQueued(cfg, data, q0);
    ghost var was, occs := data.ca, data.occs;
    ghost var free := right.v !in data.frozen && data.Value(right) == Undef;
    ValueIs(data, right);
    AssignedBlocksNothing(cfg, data, right);
    var rest := Queue(q0.heap - {right}, q0.nextRound);
    good, q := ProcessLiteral(cfg, data, right, rest);
    if plain && free {
      PlainOutcomes(cfg, was, data.ca, occs, right);
      SweptKeepsQueue(cfg, was, data.ca, occs, right, data.frozen, rest, q);
    }
    st := LitStep(right, old(Now(data)), Now(data));
  }

  // Literals of live clauses have no value.
  lemma AssignedBlocksNothing(cfg: Config, data: CoprocessorData, p: Lit)
    requires data.Valid()
    ensures Ready(data) && data.Value(p) != Undef ==> forall i: CRef :: !Removable(cfg, data.ca, data.occs, i, p)
    ensures OccsOk(data.ca, data.occs) && ClausesOk(data.ca)
  {
    if Ready(data) && data.Value(p) != Undef {
      forall i: CRef ensures !Removable(cfg, data.ca, data.occs, i, p) {
        if i < |data.ca| && !data.ca[i].deleted && p in data.ca[i].lits { LiteralUnassigned(data, i, p); }
      }
    }
  }

  // One round: the literals of the heap, in the order of a heuristic. Every literal that
  // is tried costs a step, if steps are limited.
  method Round(cfg: Config, data: CoprocessorData, q0: Queue, limit: Option<nat>, steps0: nat,
      ghost start: State, ghost wanted: set<Lit>, ghost tried0: seq<LitStep>)
    returns (q: Queue, steps: nat, ghost tried: seq<LitStep>)
    requires data.Valid() && data.Sound() && data.ok && q0.nextRound == {}
    modifies data`ca, data`occs, data`trail, data`ok, data`undo, data`qhead
    ensures data.Valid() && data.Sound() && NoUnitsKept(old(data.ca), data.ca)
    ensures Size(data.ca) <= old(Size(data.ca)) && (q.nextRound != {} ==> Size(data.ca) < old(Size(data.ca)))
    ensures data.ok ==> q.heap == {} || (limit.Some? && limit.value <= steps)
    ensures data.ok && Plain(cfg) && old(Ready(data)) && old(BlockersQueued(cfg, data, q0)) ==> Ready(data) && BlockersQueued(cfg, data, q)
    ensures data.ok && old(Traced(cfg, data, start, wanted, tried0, q0)) ==> Traced(cfg, data, start, wanted, tried, q)
    ensures data.ok ==> steps - steps0 == |tried| - |tried0|
  {
    hide OccsOk, ClausesOk, Propagated, TrailOk, FormulaOf, Step, Size, BlockersQueued, NoUnitsKept, Ready, Traced, LitStepOk, QueuesLost;
    ghost var plain := Plain(cfg) && Ready(data) && BlockersQueued(cfg, data, q0);
    ghost var traced := Traced(cfg, data, start, wanted, tried0, q0);
    ghost var ca0 := data.ca;
    NoUnitsRefl(data.ca);
    q, steps, tried := q0, steps0, tried0;
    while q.heap != {} && (limit.None? || limit.value > steps)
      invariant data.Valid() && data.Sound() && data.ok && NoUnitsKept(ca0, data.ca)
      invariant Size(data.ca) <= Size(ca0) && (q.nextRound != {} ==> Size(data.ca) < Size(ca0))
      invariant plain ==> Ready(data) && BlockersQueued(cfg, data, q)
      invariant traced ==> Traced(cfg, data, start, wanted, tried, q)
      invariant steps - steps0 == |tried| - |tried0|
      decreases |q.heap|
    {
      var right :| right in q.heap;
      ghost var mid, ready, before, was := data.ca, Ready(data), q, Now(data);
      ghost var st;
      TracedParts(cfg, data, start, wanted, tried, q);
      var good;
      good, q, st := TryLiteral(cfg, data, q, right);
      NoUnitsTrans(ca0, mid, data.ca);
      if !good { return; }
      if traced { TracedNext(cfg, data, start, wanted, tried, before, st, q); }
      tried := tried + [st];
      steps := steps + 1;
    }
  }

  // Rounds over the queued literals until no literal is queued any more. Without a limit
  // it is run to the end; plain elimination then has left no blocked clause.
  method BlockedClauseElimination(cfg: Config, data: CoprocessorData, limit: Option<nat>)
    returns (finished: bool, ghost tried: seq<LitStep>)
    requires data.Valid() && data.Sound() && data.ok
    modifies data`ca, data`occs, data`trail, data`ok, data`undo, data`qhead
    ensures data.Valid() && data.Sound() && NoUnitsKept(old(data.ca), data.ca)
    ensures limit.None? && data.ok ==> finished
    ensures finished && Plain(cfg) && old(Ready(data)) ==> Ready(data) && NothingBlocked(cfg, data)
    ensures data.ok && old(Ready(data)) ==> Trace(cfg, data.frozen, old(Now(data)), tried, Now(data))
    ensures finished && old(Ready(data)) ==>
      && data.ok
      && (forall l :: old(Candidate(data, l)) ==> TriedFrom(tried, 0, l))
      && (forall i: nat, l: Lit :: Freed(tried, i, l) ==> TriedFrom(tried, i + 1, l))
  {
    hide OccsOk, ClausesOk, Propagated, TrailOk, FormulaOf, Step, Size, BlockersQueued, NoUnitsKept, Ready, Candidate, NothingBlocked;
    hide Traced, LitStepOk;
    ghost var plain, ca0 := Plain(cfg) && Ready(data), data.ca;
    ghost var ready, start := Ready(data), Now(data);
    NoUnitsRefl(data.ca);
    tried := [];
    var steps := 0;
    var lits := Candidates(data);
    var q := Queue({}, lits);
    CandidatesBlock(cfg, data, q);
    NothingTried(cfg, data, lits, q);
    while true
      invariant data.Valid() && data.Sound() && data.ok && NoUnitsKept(ca0, data.ca)
      invariant q.heap == {} && (plain ==> Ready(data) && BlockersQueued(cfg, data, q))
      invariant ready ==> Traced(cfg, data, start, lits, tried, q)
      decreases Size(data.ca)
    {
      ghost var mid := data.ca;
      NextRound(cfg, data, q);
      TracedRound(cfg, data, start, lits, tried, q);
      q, steps, tried := Round(cfg, data, Queue(q.nextRound, {}), limit, steps, start, lits, tried);
      NoUnitsTrans(ca0, mid, data.ca);
      if !data.ok {
        return false, tried;
      }
      if q.nextRound == {} || !(limit.None? || limit.value > steps) { break; }
    }
    finished := q.heap == {} && q.nextRound == {};
    TracedParts(cfg, data, start, lits, tried, q);
    if finished && plain { QueueEmpty(cfg, data, q); }
  }

  // The literals that were tried lead from the start to this state, and the queue holds
  // the ones that are still to be tried.
  ghost predicate Traced(cfg: Config, data: CoprocessorData, start: State, wanted: set<Lit>, tried: seq<LitStep>, q: Queue)
    reads data
  {
    Ready(data) && Trace(cfg, data.frozen, start, tried, Now(data)) && Owed(wanted, tried, q)
  }

  lemma TracedParts(cfg: Config, data: CoprocessorData, start: State, wanted: set<Lit>, tried: seq<LitStep>, q: Queue)
    ensures Traced(cfg, data, start, wanted, tried, q) ==>
      Ready(data) && Trace(cfg, data.frozen, start, tried, Now(data)) && Owed(wanted, tried, q)
    ensures Traced(cfg, data, start, wanted, tried, q) && q.heap == {} && q.nextRound == {} ==>
      && (forall l :: l in wanted ==> TriedFrom(tried, 0, l))
      && (forall i: nat, l: Lit :: Freed(tried, i, l) ==> TriedFrom(tried, i + 1, l))
  {
    hide Ready, Trace, TriedFrom, Freed;
  }

  lemma NothingTried(cfg: Config, data: CoprocessorData, wanted: set<Lit>, q: Queue)
    requires q == Queue({}, wanted)
    ensures Ready(data) ==> Traced(cfg, data, Now(data), wanted, [], q)
  {
    hide Ready;
  }

  lemma TracedNext(cfg: Config, data: CoprocessorData, start: State, wanted: set<Lit>, tried: seq<LitStep>, q0: Queue, st: LitStep, q: Queue)
    requires Ready(data) && Trace(cfg, data.frozen, start, tried, st.was) && Owed(wanted, tried, q0)
    requires LitStepOk(cfg, data.frozen, st) && st.now == Now(data)
    requires q.heap == q0.heap - {st.p} && q0.nextRound <= q.nextRound
    requires st.now.trail == st.was.trail ==> QueuesLost(st.was.ca, st.now.ca, q)
    ensures Traced(cfg, data, start, wanted, tried + [st], q)
  {
    hide Ready, Owed, Trace, LitStepOk, QueuesLost;
    TraceAppend(cfg, data.frozen, start, tried, st);
    OwedAppend(wanted, tried, q0, st, q);
  }

  lemma TracedRound(cfg: Config, data: CoprocessorData, start: State, wanted: set<Lit>, tried: seq<LitStep>, q: Queue)
    requires q.heap == {}
    ensures Traced(cfg, data, start, wanted, tried, q) ==> Traced(cfg, data, start, wanted, tried, Queue(q.nextRound, {}))
  {
    hide Ready, Trace, TriedFrom, Freed;
  }

  lemma NextRound(cfg: Config, data: CoprocessorData, q: Queue)
    requires q.heap == {}
    ensures BlockersQueued(cfg, data, q) ==> BlockersQueued(cfg, data, Queue(q.nextRound, {}))
  {
  }

  // No live clause is blocked, except binary ones if they are excluded and clauses that
  // only literals of frozen variables block.
  ghost predicate NothingBlocked(cfg: Config, data: CoprocessorData)
    reads data
  {
    forall cr: CRef, p: Lit :: cr < |data.ca| && !data.ca[cr].deleted && p.v !in data.frozen && (|data.ca[cr].lits| > 2 || cfg.binary) ==>
      !Blocked(Rest(data, cr), data.ca[cr].lits, p)
  }

  lemma QueueEmpty(cfg: Config, data: CoprocessorData, q: Queue)
    requires Ready(data) && BlockersQueued(cfg, data, q) && q.heap == {} && q.nextRound == {}
    ensures NothingBlocked(cfg, data)
  {
    forall cr: CRef, p: Lit | cr < |data.ca| && !data.ca[cr].deleted && p.v !in data.frozen && (|data.ca[cr].lits| > 2 || cfg.binary)
      ensures !Blocked(Rest(data, cr), data.ca[cr].lits, p)
    {
      if Blocked(Rest(data, cr), data.ca[cr].lits, p) {
        BlockedRemovable(cfg, data, cr, p);
      }
    }
  }

  lemma BlockedRemovable(cfg: Config, data: CoprocessorData, cr: CRef, p: Lit)
    requires Ready(data) && cr < |data.ca| && !data.ca[cr].deleted && (|data.ca[cr].lits| > 2 || cfg.binary)
    requires Blocked(Rest(data, cr), data.ca[cr].lits, p)
    ensures Removable(cfg, data.ca, data.occs, cr, p)
  {
    ListInRange(data, Neg(p));
    var list, rest := List(data.occs, Neg(p)), Propagation.Dropped(data.ca, cr);
    ProperAt(data.ca, cr);
    forall k | 0 <= k < |list| && !data.ca[list[k]].deleted ensures Clash(data.ca[cr].lits, p, data.ca[list[k]].lits) {
      assert InList(data.occs, Neg(p), list[k]);
      assert list[k] != cr;
      assert rest[list[k]] == data.ca[list[k]];
      assert rest[list[k]].lits in Live(rest);
    }
  }
}
