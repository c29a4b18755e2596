// Detection of the clauses that define a variable as an AND gate, which are moved to the
// front of the occurrence lists (findGates, coprocessor/techniques/BVE.cc).

module Definitions {
  import opened Collections
  import opened Sat
  import opened Steps
  import opened Formula
  import Resolvents

  // ---------- what a definition is good for ----------

  // In every assignment some defining clause leaves x without a choice.
  ghost predicate SomeFalseBody(m: Model, x: Lit, pos: seq<Clause>, neg: seq<Clause>) {
    !AllBodies(m, pos, x) || !AllBodies(m, neg, Neg(x))
  }

  ghost predicate Defines(x: Lit, pos: seq<Clause>, neg: seq<Clause>) {
    && (forall m: Model {:trigger AllBodies(m, pos, x)} :: SomeFalseBody(m, x, pos, neg))
    && (forall i, j :: 0 <= i < |pos| && 0 <= j < |neg| ==> Clash(pos[i], x, neg[j]))
  }

  // The binary clause {p, ~c}.
  ghost predicate Binary(d: Clause, p: Lit, c: Lit) {
    c != Neg(p) && Lits(d) == {p, Neg(c)}
  }

  ghost predicate SomeBinary(bins: seq<Clause>, p: Lit, c: Lit) {
    exists i :: 0 <= i < |bins| && Binary(bins[i], p, c)
  }

  ghost predicate BinaryOf(d: Clause, p: Lit, g: Clause) {
    exists c :: c in g && Binary(d, p, c)
  }

  // p is the AND of the complements of the other literals of g: g is {~p, c1, .., ck} and
  // bins holds {p, ~ci} for every i and nothing else.
  ghost predicate AndGate(p: Lit, bins: seq<Clause>, g: Clause) {
    && Neg(p) in g && p !in g
    && (forall c :: c in g && c != Neg(p) ==> SomeBinary(bins, p, c))
    && (forall i :: 0 <= i < |bins| ==> BinaryOf(bins[i], p, g))
  }

  lemma BinaryBody(m: Model, d: Clause, p: Lit, c: Lit)
    requires Binary(d, p, c) && Holds(m, c)
    ensures !BodySat(m, d, p)
  {
    forall l | l in d && l != p ensures !Holds(m, l) {
      assert l in Lits(d);
    }
  }

  lemma GateBodyFalse(m: Model, p: Lit, bins: seq<Clause>, g: Clause)
    requires AndGate(p, bins, g)
    ensures BodySat(m, g, Neg(p)) ==> !AllBodies(m, bins, p)
  {
    hide BinaryOf, Binary;
    if BodySat(m, g, Neg(p)) {
      hide SomeBinary;
      var c :| c in g && c != Neg(p) && Holds(m, c);
      BinaryFor(bins, p, c, m);
    }
  }

  lemma BinaryFor(bins: seq<Clause>, p: Lit, c: Lit, m: Model)
    requires SomeBinary(bins, p, c) && Holds(m, c)
    ensures !AllBodies(m, bins, p)
  {
    hide Binary;
    var i :| 0 <= i < |bins| && Binary(bins[i], p, c);
    BinaryBody(m, bins[i], p, c);
  }

  lemma GateClash(p: Lit, d: Clause, g: Clause)
    requires BinaryOf(d, p, g)
    ensures Clash(d, p, g) && Clash(g, Neg(p), d)
  {
    var c :| c in g && Binary(d, p, c);
    assert Neg(c) in Lits(d) && Neg(Neg(c)) == c;
  }

  // Either polarity of an AND gate is a definition.
  lemma GateDefines(p: Lit, bins: seq<Clause>, g: Clause)
    requires AndGate(p, bins, g)
    ensures Defines(p, bins, [g]) && Defines(Neg(p), [g], bins)
  {
    hide SomeBinary, BinaryOf;
    forall m: Model ensures SomeFalseBody(m, p, bins, [g]) && SomeFalseBody(m, Neg(p), [g], bins) {
      GateBodyFalse(m, p, bins, g);
      assert AllBodies(m, [g], Neg(p)) <==> BodySat(m, [g][0], Neg(p));
    }
    forall i | 0 <= i < |bins| ensures Clash(bins[i], p, g) && Clash(g, Neg(p), bins[i]) {
      GateClash(p, bins[i], g);
    }
  }

  // ---------- rearranging a list ----------

  ghost predicate Rearranged(s: seq<CRef>, t: seq<CRef>) {
    |s| == |t| && NoDup(t) && forall x :: x in s <==> x in t
  }

  lemma SwapRearranges(s: seq<CRef>, i: nat, j: nat)
    requires i < |s| && j < |s| && NoDup(s)
    ensures Rearranged(s, Swapped(s, i, j))
  {
    var t := Swapped(s, i, j);
    assert forall k :: 0 <= k < |s| ==> t[k] == if k == i then s[j] else if k == j then s[i] else s[k];
    forall x | x in s ensures x in t {
      var k :| 0 <= k < |s| && s[k] == x;
      assert t[if k == i then j else if k == j then i else k] == x;
    }
  }

  lemma RearrangedTrans(s: seq<CRef>, t: seq<CRef>, u: seq<CRef>)
    requires Rearranged(s, t) && Rearranged(t, u)
    ensures Rearranged(s, u)
  {
  }

  lemma RearrangeKeepsOccs(ca: seq<Cls>, occs: Occs, l: Lit, list: seq<CRef>)
    requires OccsOk(ca, occs) && Rearranged(List(occs, l), list)
    ensures OccsOk(ca, occs[l := list])
  {
    var now := occs[l := list];
    assert forall k, i: CRef {:trigger InList(now, k, i)} :: InList(now, k, i) <==> InList(occs, k, i);
    forall k ensures NoDup(List(now, k)) {
      assert NoDup(List(occs, k));
    }
  }

  // ---------- findGates ----------

  ghost predicate LiveBinary(ca: seq<Cls>, i: CRef, p: Lit, c: Lit) {
    i < |ca| && !ca[i].deleted && Binary(ca[i].lits, p, c)
  }

  ghost predicate HasBinary(ca: seq<Cls>, list: seq<CRef>, from: nat, p: Lit, c: Lit) {
    exists k :: from <= k < |list| && LiveBinary(ca, list[k], p, c)
  }

  // The clauses of a list contain its literal.
  ghost predicate ListFor(ca: seq<Cls>, list: seq<CRef>, p: Lit) {
    forall k :: 0 <= k < |list| ==> list[k] < |ca| && (!ca[list[k]].deleted ==> p in ca[list[k]].lits)
  }

  predicate IsBinary(ca: seq<Cls>, i: CRef)
    requires i < |ca|
  {
    !ca[i].deleted && |ca[i].lits| == 2
  }

  function Other(c: Clause, p: Lit): Lit
    requires |c| == 2
  {
    if c[0] == p then c[1] else c[0]
  }

  lemma BinaryShape(ca: seq<Cls>, i: CRef, p: Lit)
    requires i < |ca| && ClausesOk(ca) && IsBinary(ca, i) && p in ca[i].lits
    ensures LiveBinary(ca, i, p, Neg(Other(ca[i].lits, p)))
    ensures forall c :: LiveBinary(ca, i, p, c) ==> c == Neg(Other(ca[i].lits, p))
  {
    var d, o := ca[i].lits, Other(ca[i].lits, p);
    assert Proper(d);
    assert d[0] != d[1];
    assert Lits(d) == {d[0], d[1]} == {p, o};
    assert Neg(Neg(o)) == o;
    forall c | LiveBinary(ca, i, p, c) ensures c == Neg(o) {
      assert o in {p, Neg(c)} && o != p;
    }
  }

  lemma BinarySize(ca: seq<Cls>, i: CRef, p: Lit, c: Lit)
    requires ClausesOk(ca) && LiveBinary(ca, i, p, c)
    ensures IsBinary(ca, i) && p in ca[i].lits
  {
    var d := ca[i].lits;
    assert Proper(d);
    assert p in Lits(d) && Neg(c) in Lits(d);
    Resolvents.SortedSize(d);
    assert Neg(Neg(c)) == c;
    assert |{p, Neg(c)}| == 2;
  }

  // Marks the complement of the other literal of every binary clause.
  method MarkBinaries(ca: seq<Cls>, list: seq<CRef>, p: Lit) returns (marks: set<Lit>)
    requires ClausesOk(ca) && ListFor(ca, list, p)
    ensures forall c :: c in marks <==> HasBinary(ca, list, 0, p, c)
  {
    hide ClausesOk, LiveBinary;
    marks := {};
    var i := 0;
    while i < |list|
      invariant 0 <= i <= |list|
      invariant forall c :: c in marks <==> exists k :: 0 <= k < i && LiveBinary(ca, list[k], p, c)
    {
      if IsBinary(ca, list[i]) {
        BinaryShape(ca, list[i], p);
        marks := marks + {Neg(Other(ca[list[i]].lits, p))};
      } else {
        NotBinary(ca, list[i], p);
      }
      i := i + 1;
    }
  }

  lemma NotBinary(ca: seq<Cls>, i: CRef, p: Lit)
    requires ClausesOk(ca) && i < |ca| && !IsBinary(ca, i)
    ensures forall c :: !LiveBinary(ca, i, p, c)
  {
    forall c | LiveBinary(ca, i, p, c) ensures false {
      BinarySize(ca, i, p, c);
    }
  }

  // Every literal of the clause but p's complement is marked.
  method AllMarked(d: Clause, np: Lit, marks: set<Lit>) returns (r: bool)
    ensures r <==> forall c :: c in d && c != np ==> c in marks
  {
    var j := 0;
    while j < |d|
      invariant 0 <= j <= |d| && forall k :: 0 <= k < j ==> d[k] == np || d[k] in marks
    {
      if d[j] != np && d[j] !in marks { return false; }
      j := j + 1;
    }
    r := true;
  }

  // Clause d together with binary clauses from the list is an AND gate.
  ghost predicate IsGate(ca: seq<Cls>, list: seq<CRef>, p: Lit, i: CRef) {
    i < |ca| && !ca[i].deleted && forall c :: c in ca[i].lits && c != Neg(p) ==> HasBinary(ca, list, 0, p, c)
  }

  ghost predicate Front(ca: seq<Cls>, list: seq<CRef>, placed: nat, p: Lit, c: Lit)
    requires placed <= |list|
  {
    exists k :: 0 <= k < placed && LiveBinary(ca, list[k], p, c)
  }

  ghost predicate TakenFor(ca: seq<Cls>, i: CRef, p: Lit, taken: set<Lit>) {
    exists c :: c in taken && LiveBinary(ca, i, p, c)
  }

  // The first placed entries are binary clauses for distinct literals of g.
  ghost predicate Placed(ca: seq<Cls>, list: seq<CRef>, placed: nat, p: Lit, g: Clause, taken: set<Lit>)
    requires placed <= |list|
  {
    && taken <= Lits(g) - {Neg(p)} && |taken| == placed
    && (forall c :: c in taken ==> Front(ca, list, placed, p, c))
    && (forall k :: 0 <= k < placed ==> TakenFor(ca, list[k], p, taken))
  }

  lemma FrontGrows(ca: seq<Cls>, list: seq<CRef>, placed: nat, k: nat, p: Lit, c: Lit)
    requires placed <= k < |list|
    ensures Front(ca, list, placed, p, c) ==> Front(ca, Swapped(list, placed, k), placed + 1, p, c)
    ensures LiveBinary(ca, list[k], p, c) ==> Front(ca, Swapped(list, placed, k), placed + 1, p, c)
  {
    hide LiveBinary;
    var now := Swapped(list, placed, k);
    assert now[placed] == list[k];
    if Front(ca, list, placed, p, c) {
      var j :| 0 <= j < placed && LiveBinary(ca, list[j], p, c);
      assert now[j] == list[j];
    }
  }

  lemma TakenGrows(ca: seq<Cls>, i: CRef, p: Lit, taken: set<Lit>, c: Lit)
    ensures TakenFor(ca, i, p, taken) || LiveBinary(ca, i, p, c) ==> TakenFor(ca, i, p, taken + {c})
  {
    hide LiveBinary;
    if TakenFor(ca, i, p, taken) {
      var d :| d in taken && LiveBinary(ca, i, p, d);
      assert d in taken + {c};
    }
    assert c in taken + {c};
  }

  lemma PlaceOne(ca: seq<Cls>, list: seq<CRef>, placed: nat, k: nat, p: Lit, g: Clause, taken: set<Lit>, c: Lit)
    requires placed <= k < |list| && Placed(ca, list, placed, p, g, taken)
    requires c in g && c != Neg(p) && c !in taken && LiveBinary(ca, list[k], p, c)
    ensures Placed(ca, Swapped(list, placed, k), placed + 1, p, g, taken + {c})
  {
    hide LiveBinary, Front, TakenFor;
    var now := Swapped(list, placed, k);
    forall d | d in taken + {c} ensures Front(ca, now, placed + 1, p, d) {
      FrontGrows(ca, list, placed, k, p, d);
    }
    forall j | 0 <= j < placed + 1 ensures TakenFor(ca, now[j], p, taken + {c}) {
      assert now[j] == if j == placed then list[k] else list[j];
      TakenGrows(ca, now[j], p, taken, c);
    }
  }

  // What is not yet taken can still be found further back.
  ghost predicate Remaining(ca: seq<Cls>, list: seq<CRef>, from: nat, p: Lit, g: Clause, taken: set<Lit>) {
    forall c :: c in g && c != Neg(p) && c !in taken ==> HasBinary(ca, list, from, p, c)
  }

  lemma StillRemaining(ca: seq<Cls>, list: seq<CRef>, placed: nat, k: nat, p: Lit, g: Clause, taken: set<Lit>, more: set<Lit>)
    requires placed <= k < |list| && Remaining(ca, list, k, p, g, taken) && taken <= more
    requires forall c :: LiveBinary(ca, list[k], p, c) && c in g && c != Neg(p) ==> c in more
    ensures Remaining(ca, list, k + 1, p, g, more) && Remaining(ca, Swapped(list, placed, k), k + 1, p, g, more)
  {
    hide LiveBinary;
    var now := Swapped(list, placed, k);
    forall c | c in g && c != Neg(p) && c !in more
      ensures HasBinary(ca, list, k + 1, p, c) && HasBinary(ca, now, k + 1, p, c)
    {
      assert c !in taken;
      assert HasBinary(ca, list, k, p, c);
      var j :| k <= j < |list| && LiveBinary(ca, list[j], p, c);
      assert j != k;
      assert now[j] == list[j];
    }
  }

  // Moves one binary clause per literal of g to the front; the marks of g's literals have
  // been reset, so that no literal is taken twice.
  method PlaceBinaries(ca: seq<Cls>, list: seq<CRef>, p: Lit, g: Clause, marks: set<Lit>)
    returns (r: seq<CRef>, placed: nat)
    requires ClausesOk(ca) && ListFor(ca, list, p) && NoDup(list)
    requires forall c :: c in marks <==> HasBinary(ca, list, 0, p, c)
    requires Proper(g) && Neg(p) in g && forall c :: c in g && c != Neg(p) ==> c in marks
    ensures Rearranged(list, r) && placed == |g| - 1 && placed <= |r|
    ensures Placed(ca, r, placed, p, g, Lits(g) - {Neg(p)})
  {
    StartPlacing(ca, list, p, g, marks);
    hide *;
    var mark := marks - Lits(g);
    ghost var taken: set<Lit> := {};
    r, placed := list, 0;
    var k := 0;
    while k < |r|
      invariant 0 <= placed <= k <= |r| && Rearranged(list, r)
      invariant mark == (marks - Lits(g)) + taken
      invariant Placed(ca, r, placed, p, g, taken) && Remaining(ca, r, k, p, g, taken)
    {
      r, placed, mark, taken := PlaceAt(ca, list, r, placed, k, p, g, marks, mark, taken);
      k := k + 1;
    }
    AllPlaced(ca, r, placed, p, g, taken);
  }

  // Looks at one entry of the list.
  method PlaceAt(ca: seq<Cls>, ghost list: seq<CRef>, r0: seq<CRef>, placed0: nat, k: nat, p: Lit, ghost g: Clause,
      ghost marks: set<Lit>, mark0: set<Lit>, ghost taken0: set<Lit>)
    returns (r: seq<CRef>, placed: nat, mark: set<Lit>, ghost taken: set<Lit>)
    requires ClausesOk(ca) && ListFor(ca, list, p) && Rearranged(list, r0) && placed0 <= k < |r0|
    requires forall c :: c in marks <==> HasBinary(ca, list, 0, p, c)
    requires mark0 == (marks - Lits(g)) + taken0
    requires Placed(ca, r0, placed0, p, g, taken0) && Remaining(ca, r0, k, p, g, taken0)
    ensures placed <= k + 1 <= |r| == |r0| && Rearranged(list, r) && mark == (marks - Lits(g)) + taken
    ensures Placed(ca, r, placed, p, g, taken) && Remaining(ca, r, k + 1, p, g, taken)
  {
    hide ClausesOk, LiveBinary, HasBinary, Placed, Remaining, IsBinary, Rearranged, ListFor;
    r, placed, mark, taken := r0, placed0, mark0, taken0;
    RearrangedFor(ca, list, r, p, k);
    if IsBinary(ca, r[k]) {
      BinaryShape(ca, r[k], p);
      var c := Neg(Other(ca[r[k]].lits, p));
      if c !in mark {
        Unplaced(ca, list, r, k, p, g, marks, taken, c);
        PlaceNext(ca, list, r, placed, k, p, g, taken, c);
        r, placed, mark, taken := Swapped(r, placed, k), placed + 1, mark + {c}, taken + {c};
      } else {
        StillRemaining(ca, r, placed, k, p, g, taken, taken);
      }
    } else {
      NotBinary(ca, r[k], p);
      StillRemaining(ca, r, placed, k, p, g, taken, taken);
    }
  }

  lemma PlaceNext(ca: seq<Cls>, list: seq<CRef>, r: seq<CRef>, placed: nat, k: nat, p: Lit, g: Clause, taken: set<Lit>, c: Lit)
    requires placed <= k < |r| && Rearranged(list, r) && Placed(ca, r, placed, p, g, taken) && Remaining(ca, r, k, p, g, taken)
    requires c in g && c != Neg(p) && c !in taken && LiveBinary(ca, r[k], p, c)
    requires forall d :: LiveBinary(ca, r[k], p, d) ==> d == c
    ensures Rearranged(list, Swapped(r, placed, k)) && Placed(ca, Swapped(r, placed, k), placed + 1, p, g, taken + {c})
    ensures Remaining(ca, Swapped(r, placed, k), k + 1, p, g, taken + {c})
  {
    hide LiveBinary, Placed, Remaining;
    PlaceOne(ca, r, placed, k, p, g, taken, c);
    StillRemaining(ca, r, placed, k, p, g, taken, taken + {c});
    SwapRearranges(r, placed, k);
    RearrangedTrans(list, r, Swapped(r, placed, k));
  }

  lemma RearrangedFor(ca: seq<Cls>, list: seq<CRef>, r: seq<CRef>, p: Lit, k: nat)
    requires ListFor(ca, list, p) && Rearranged(list, r) && k < |r|
    ensures r[k] < |ca| && (IsBinary(ca, r[k]) ==> p in ca[r[k]].lits && |ca[r[k]].lits| == 2)
  {
    assert r[k] in list;
  }

  lemma StartPlacing(ca: seq<Cls>, list: seq<CRef>, p: Lit, g: Clause, marks: set<Lit>)
    requires NoDup(list) && forall c :: c in marks <==> HasBinary(ca, list, 0, p, c)
    requires forall c :: c in g && c != Neg(p) ==> c in marks
    ensures Rearranged(list, list) && Placed(ca, list, 0, p, g, {}) && Remaining(ca, list, 0, p, g, {})
  {
  }

  // A binary clause that is found unmarked belongs to a literal of g.
  lemma Unplaced(ca: seq<Cls>, list: seq<CRef>, r: seq<CRef>, k: nat, p: Lit, g: Clause, marks: set<Lit>, taken: set<Lit>, c: Lit)
    requires Rearranged(list, r) && k < |r| && LiveBinary(ca, r[k], p, c)
    requires forall c :: c in marks <==> HasBinary(ca, list, 0, p, c)
    requires c !in (marks - Lits(g)) + taken
    ensures c in g && c != Neg(p) && c !in taken
  {
    assert r[k] in list;
    var j :| 0 <= j < |list| && list[j] == r[k];
    assert LiveBinary(ca, list[j], p, c);
    assert HasBinary(ca, list, 0, p, c);
  }

  lemma AllPlaced(ca: seq<Cls>, r: seq<CRef>, placed: nat, p: Lit, g: Clause, taken: set<Lit>)
    requires placed <= |r| && Placed(ca, r, placed, p, g, taken) && Remaining(ca, r, |r|, p, g, taken)
    requires Proper(g) && Neg(p) in g
    ensures placed == |g| - 1 && taken == Lits(g) - {Neg(p)}
  {
    hide LiveBinary, Front, TakenFor;
    forall c | c in Lits(g) - {Neg(p)} ensures c in taken {
      assert !HasBinary(ca, r, |r|, p, c);
    }
    assert taken == Lits(g) - {Neg(p)};
    Resolvents.SortedSize(g);
  }

  // ---------- findGates for one polarity, and for both ----------

  ghost predicate InRange(ca: seq<Cls>, list: seq<CRef>) {
    forall k :: 0 <= k < |list| ==> list[k] < |ca|
  }

  ghost function LitsAt(ca: seq<Cls>, list: seq<CRef>): (r: seq<Clause>)
    requires InRange(ca, list)
    ensures |r| == |list| && forall k :: 0 <= k < |list| ==> r[k] == ca[list[k]].lits
  {
    seq(|list|, k requires 0 <= k < |list| => ca[list[k]].lits)
  }

  ghost predicate LivePrefix(ca: seq<Cls>, list: seq<CRef>, n: nat) {
    n <= |list| && forall k :: 0 <= k < n ==> list[k] < |ca| && !ca[list[k]].deleted
  }

  lemma PrefixInRange(ca: seq<Cls>, list: seq<CRef>, n: nat)
    requires LivePrefix(ca, list, n)
    ensures InRange(ca, list[..n])
  {
  }

  ghost predicate SomeGate(ca: seq<Cls>, pList: seq<CRef>, nList: seq<CRef>, p: Lit) {
    exists k :: 0 <= k < |nList| && IsGate(ca, pList, p, nList[k])
  }

  // The front of the two lists is an AND gate for p.
  ghost predicate GateInFront(ca: seq<Cls>, pList: seq<CRef>, nList: seq<CRef>, p: Lit, n: nat) {
    && LivePrefix(ca, pList, n) && LivePrefix(ca, nList, 1)
    && (PrefixInRange(ca, pList, n); AndGate(p, LitsAt(ca, pList[..n]), ca[nList[0]].lits))
  }

  lemma FrontBinary(ca: seq<Cls>, pList: seq<CRef>, n: nat, p: Lit, c: Lit)
    requires LivePrefix(ca, pList, n) && Front(ca, pList, n, p, c)
    ensures (PrefixInRange(ca, pList, n); SomeBinary(LitsAt(ca, pList[..n]), p, c))
  {
    PrefixInRange(ca, pList, n);
    var k :| 0 <= k < n && LiveBinary(ca, pList[k], p, c);
    assert Binary(LitsAt(ca, pList[..n])[k], p, c);
  }

  lemma TakenBinary(ca: seq<Cls>, i: CRef, p: Lit, g: Clause, taken: set<Lit>)
    requires TakenFor(ca, i, p, taken) && taken <= Lits(g)
    ensures i < |ca| && !ca[i].deleted && BinaryOf(ca[i].lits, p, g)
  {
    var c :| c in taken && LiveBinary(ca, i, p, c);
    assert c in Lits(g);
  }

  lemma PlacedGate(ca: seq<Cls>, pList: seq<CRef>, nList: seq<CRef>, p: Lit, n: nat)
    requires n <= |pList| && LivePrefix(ca, nList, 1) && ClausesOk(ca)
    requires Neg(p) in ca[nList[0]].lits
    requires Placed(ca, pList, n, p, ca[nList[0]].lits, Lits(ca[nList[0]].lits) - {Neg(p)})
    ensures GateInFront(ca, pList, nList, p, n)
  {
    hide TakenFor, Front, LiveBinary, SomeBinary, BinaryOf;
    var g := ca[nList[0]].lits;
    ProperClause(ca, nList[0]);
    forall k | 0 <= k < n ensures pList[k] < |ca| && !ca[pList[k]].deleted && BinaryOf(ca[pList[k]].lits, p, g) {
      TakenBinary(ca, pList[k], p, g, Lits(g) - {Neg(p)});
    }
    PrefixInRange(ca, pList, n);
    forall c | c in g && c != Neg(p) ensures SomeBinary(LitsAt(ca, pList[..n]), p, c) {
      assert c in Lits(g) - {Neg(p)};
      FrontBinary(ca, pList, n, p, c);
    }
    assert !Tautology(g);
  }

  // Looks for a clause with ~p whose other literals all imply p's complement through
  // binary clauses, and moves the clauses of the gate to the front.
  method FindGateFor(ca: seq<Cls>, pList: seq<CRef>, nList: seq<CRef>, p: Lit)
    returns (found: bool, ps: seq<CRef>, ns: seq<CRef>, pClauses: nat)
    requires ClausesOk(ca) && ListFor(ca, pList, p) && ListFor(ca, nList, Neg(p)) && NoDup(pList) && NoDup(nList)
    ensures Rearranged(pList, ps) && Rearranged(nList, ns)
    ensures found <==> SomeGate(ca, pList, nList, p)
    ensures found ==> GateInFront(ca, ps, ns, p, pClauses)
    ensures !found ==> ps == pList && ns == nList
  {
    hide ClausesOk, HasBinary, Placed, GateInFront;
    var marks := MarkBinaries(ca, pList, p);
    ps, ns, found, pClauses := pList, nList, false, 0;
    var i := 0;
    while i < |nList|
      invariant 0 <= i <= |nList| && forall k :: 0 <= k < i ==> !IsGate(ca, pList, p, nList[k])
    {
      if !ca[nList[i]].deleted {
        var g := ca[nList[i]].lits;
        found := AllMarked(g, Neg(p), marks);
        if found {
          assert IsGate(ca, pList, p, nList[i]);
          ProperClause(ca, nList[i]);
          pClauses := |g| - 1;
          SwapRearranges(nList, 0, i);
          ns := Swapped(nList, 0, i);
          var placed;
          ps, placed := PlaceBinaries(ca, pList, p, g, marks);
          assert pClauses == placed;    // the assertion at the end of findGates
          PlacedGate(ca, ps, ns, p, placed);
          return;
        }
      }
      i := i + 1;
    }
  }

  lemma ProperClause(ca: seq<Cls>, i: CRef)
    requires ClausesOk(ca) && i < |ca|
    ensures Proper(ca[i].lits)
  {
  }

  // The limits say how many clauses at the front of the two lists define x.
  ghost predicate DefinedInFront(ca: seq<Cls>, pos: seq<CRef>, neg: seq<CRef>, x: Lit, pl: nat, nl: nat) {
    && LivePrefix(ca, pos, pl) && LivePrefix(ca, neg, nl)
    && (PrefixInRange(ca, pos, pl); PrefixInRange(ca, neg, nl);
        Defines(x, LitsAt(ca, pos[..pl]), LitsAt(ca, neg[..nl])))
  }

  lemma GateIsDefinition(ca: seq<Cls>, pList: seq<CRef>, nList: seq<CRef>, p: Lit, n: nat)
    requires GateInFront(ca, pList, nList, p, n)
    ensures DefinedInFront(ca, pList, nList, p, n, 1)
    ensures DefinedInFront(ca, nList, pList, Neg(p), 1, n)
  {
    var g := ca[nList[0]].lits;
    PrefixInRange(ca, pList, n);
    PrefixInRange(ca, nList, 1);
    GateDefines(p, LitsAt(ca, pList[..n]), g);
    assert LitsAt(ca, nList[..1]) == [g];
  }

  // Lists that are too short are not worth a gate.
  predicate WorthGate(pos: nat, neg: nat) {
    (pos >= 3 || neg >= 3) && pos >= 2 && neg >= 2
  }

  ghost predicate GateExists(ca: seq<Cls>, pos: seq<CRef>, neg: seq<CRef>, x: Lit) {
    && |pos| >= 2 && |neg| >= 2 && |pos| + |neg| >= 5
    && (SomeGate(ca, pos, neg, x) || SomeGate(ca, neg, pos, Neg(x)))
  }

  // findGates: for the positive literal first. Nothing but the order of the two lists
  // changes; a gate is found exactly if there is one.
  method FindGates(data: CoprocessorData, v: nat, pLimit: nat, nLimit: nat)
    returns (found: bool, pl: nat, nl: nat)
    requires data.Valid()
    modifies data`occs
    ensures data.Valid()
    ensures var x := Lit(v, false);
      && Rearranged(List(old(data.occs), x), List(data.occs, x))
      && Rearranged(List(old(data.occs), Neg(x)), List(data.occs, Neg(x)))
      && (forall l: Lit :: l.v != v ==> List(data.occs, l) == List(old(data.occs), l))
      && (found <==> GateExists(data.ca, List(old(data.occs), x), List(old(data.occs), Neg(x)), x))
      && (found ==> DefinedInFront(data.ca, List(data.occs, x), List(data.occs, Neg(x)), x, pl, nl))
    ensures !found ==> pl == pLimit && nl == nLimit && data.occs == old(data.occs)
  {
    hide ClausesOk, OccsOk, SomeGate, GateInFront, DefinedInFront, TrailOk, Propagated;
    var x := Lit(v, false);
    found, pl, nl := false, pLimit, nLimit;
    var pos, neg := List(data.occs, x), List(data.occs, Neg(x));
    ListsFor(data.ca, data.occs, x);
    ListsFor(data.ca, data.occs, Neg(x));
    if !WorthGate(|pos|, |neg|) { return; }
    var ps, ns, n;
    found, ps, ns, n := FindGateFor(data.ca, pos, neg, x);
    if found {
      GateIsDefinition(data.ca, ps, ns, x, n);
      pl, nl := n, 1;
      StoreLists(data, x, ps, ns);
      return;
    }
    found, ns, ps, n := FindGateFor(data.ca, neg, pos, Neg(x));
    if found {
      GateIsDefinition(data.ca, ns, ps, Neg(x), n);
      pl, nl := 1, n;
      StoreLists(data, x, ps, ns);
    }
  }

  lemma ListsFor(ca: seq<Cls>, occs: Occs, p: Lit)
    requires OccsOk(ca, occs)
    ensures ListFor(ca, List(occs, p), p) && NoDup(List(occs, p)) && Rearranged(List(occs, p), List(occs, p))
  {
    forall k | 0 <= k < |List(occs, p)|
      ensures List(occs, p)[k] < |ca| && (!ca[List(occs, p)[k]].deleted ==> p in ca[List(occs, p)[k]].lits)
    {
      assert InList(occs, p, List(occs, p)[k]);
    }
  }

  method StoreLists(data: CoprocessorData, x: Lit, ps: seq<CRef>, ns: seq<CRef>)
    requires OccsOk(data.ca, data.occs)
    requires Rearranged(List(data.occs, x), ps) && Rearranged(List(data.occs, Neg(x)), ns)
    modifies data`occs
    ensures OccsOk(data.ca, data.occs) && List(data.occs, x) == ps && List(data.occs, Neg(x)) == ns
    ensures forall l :: l != x && l != Neg(x) ==> List(data.occs, l) == List(old(data.occs), l)
  {
    hide OccsOk, Rearranged;
    RearrangeKeepsOccs(data.ca, data.occs, x, ps);
    ghost var now := data.occs[x := ps];
    assert List(now, Neg(x)) == List(data.occs, Neg(x));
    RearrangeKeepsOccs(data.ca, now, Neg(x), ns);
    data.occs := data.occs[x := ps][Neg(x) := ns];
  }
}
