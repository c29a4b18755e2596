// The undo stack: a flat vector of literals in which every repair clause is preceded
// by the separator lit_Undef, and the walk that turns a model of the simplified
// formula into a model of the original one (coprocessor/CoprocessorTypes.h).

module Undo {
  import opened Sat
  import opened Collections

  // One cell of the stack: lit_Undef or a literal.
  datatype Mark = Sep | Of(lit: Lit)

  datatype LBool = True | False | Undef

  // The total assignment that a vector of truth values stands for once its free
  // variables have been set to true.
  function AsModel(s: seq<LBool>): (m: Model)
    ensures |m| == |s|
  {
    seq(|s|, i requires 0 <= i < |s| => s[i] != False)
  }

  ghost predicate SameModel(a: Model, b: Model) {
    forall l: Lit {:trigger Holds(a, l)} {:trigger Holds(b, l)} :: Holds(a, l) <==> Holds(b, l)
  }

  // ---------- the stack as a list of repair clauses ----------

  predicate WellFormed(u: seq<Mark>) {
    u != [] ==> u[0] == Sep
  }

  function Marks(c: Clause): (r: seq<Mark>)
    ensures |r| == |c| && forall i :: 0 <= i < |c| ==> r[i] == Of(c[i])
  {
    seq(|c|, i requires 0 <= i < |c| => Of(c[i]))
  }

  function Push(s: seq<Clause>, k: Mark): (r: seq<Clause>)
    requires k != Sep ==> s != []
    ensures r != []
  {
    if k == Sep then s + [[]]
    else s[..|s| - 1] + [s[|s| - 1] + [k.lit]]
  }

  // The repair clauses of a stack, oldest first.
  function Segs(u: seq<Mark>): (s: seq<Clause>)
    requires WellFormed(u)
    ensures u != [] ==> s != []
  {
    if u == [] then [] else Push(Segs(u[..|u| - 1]), u[|u| - 1])
  }

  lemma SegsPush(u: seq<Mark>, k: Mark)
    requires WellFormed(u) && (u == [] ==> k == Sep)
    ensures Segs(u + [k]) == Push(Segs(u), k)
  {
    assert (u + [k])[..|u|] == u;
  }

  lemma MarksLast(u: seq<Mark>, c: Clause)
    requires c != []
    ensures u + Marks(c) == (u + Marks(c[..|c| - 1])) + [Of(c[|c| - 1])]
  {
    var m := Marks(c[..|c| - 1]) + [Of(c[|c| - 1])];
    assert Marks(c) == m;
  }

  lemma PushLast(s: seq<Clause>, c: Clause)
    requires c != []
    ensures Push(s + [c[..|c| - 1]], Of(c[|c| - 1])) == s + [c]
  {
    DropLast(s, c[..|c| - 1]);
    assert c[..|c| - 1] + [c[|c| - 1]] == c;
  }

  lemma {:induction false} SegsAppend(u: seq<Mark>, c: Clause)
    requires WellFormed(u)
    ensures Segs(u + [Sep] + Marks(c)) == Segs(u) + [c]
    decreases |c|
  {
    hide Segs, Push, Marks;
    if c == [] {
      NoMarks();
      assert u + [Sep] + Marks(c) == u + [Sep];
      SegsPush(u, Sep);
      PushSep(Segs(u));
    } else {
      var d, l := c[..|c| - 1], c[|c| - 1];
      SegsAppend(u, d);
      MarksLast(u + [Sep], c);
      SegsPush(u + [Sep] + Marks(d), Of(l));
      PushLast(Segs(u), c);
    }
  }

  lemma NoMarks()
    ensures Marks([]) == []
  {
  }

  lemma PushSep(s: seq<Clause>)
    ensures Push(s, Sep) == s + [[]]
  {
  }

  lemma PushConcat(a: seq<Clause>, s: seq<Clause>, k: Mark)
    requires k != Sep ==> s != []
    ensures Push(a + s, k) == a + Push(s, k)
  {
    if k == Sep {
      assert (a + s) + [[]] == a + (s + [[]]);
    } else {
      var t := a + s;
      assert t[..|t| - 1] == a + s[..|s| - 1];
      assert t[|t| - 1] == s[|s| - 1];
    }
  }

  lemma {:induction false} SegsConcat(u: seq<Mark>, w: seq<Mark>)
    requires WellFormed(u) && WellFormed(w)
    ensures Segs(u + w) == Segs(u) + Segs(w)
    decreases |w|
  {
    if w == [] {
      assert u + w == u;
    } else {
      var front, k := w[..|w| - 1], w[|w| - 1];
      SegsConcat(u, front);
      SegsPush(u + front, k);
      PushConcat(Segs(u), Segs(front), k);
      SplitLast(u, w);
    }
  }

  // ---------- the meaning of the stack ----------

  function Repair(c: Clause, m: Model): Model {
    if c == [] || SatClause(m, c) then m else Assign(m, c[0])
  }

  // Repairs run from the newest clause to the oldest.
  function Extend(segs: seq<Clause>, m: Model): Model {
    if segs == [] then m
    else Extend(segs[..|segs| - 1], Repair(segs[|segs| - 1], m))
  }

  lemma {:induction false} ExtendConcat(s: seq<Clause>, e: seq<Clause>, m: Model)
    ensures Extend(s + e, m) == Extend(s, Extend(e, m))
    decreases |e|
  {
    if e == [] {
      assert s + e == s;
    } else {
      var last := |e| - 1;
      assert (s + e)[..|s + e| - 1] == s + e[..last];
      ExtendConcat(s, e[..last], Repair(e[last], m));
    }
  }

  lemma SameModelSat(a: Model, b: Model, c: Clause)
    requires SameModel(a, b)
    ensures SatClause(a, c) <==> SatClause(b, c)
  {
    if SatClause(a, c) {
      var l :| l in c && Holds(a, l);
      assert Holds(b, l);
    }
    if SatClause(b, c) {
      var l :| l in c && Holds(b, l);
      assert Holds(a, l);
    }
  }

  lemma {:induction false} ExtendCongruent(segs: seq<Clause>, a: Model, b: Model)
    requires SameModel(a, b)
    ensures SameModel(Extend(segs, a), Extend(segs, b))
    decreases |segs|
  {
    if segs != [] {
      var c := segs[|segs| - 1];
      SameModelSat(a, b, c);
      ExtendCongruent(segs[..|segs| - 1], Repair(c, a), Repair(c, b));
    }
  }

  lemma SameModelSatAll(a: Model, b: Model, F: set<Clause>)
    requires SameModel(a, b)
    ensures SatAll(a, F) <==> SatAll(b, F)
  {
    forall c | c in F ensures SatClause(a, c) <==> SatClause(b, c) {
      SameModelSat(a, b, c);
    }
  }

  // ---------- extendModel ----------

  predicate NoEmptySegment(u: seq<Mark>) {
    && (forall i :: 0 <= i < |u| && u[i] == Sep ==> i + 1 < |u| && u[i + 1] != Sep)
  }

  // The literals in the cells from i up to e.
  ghost function Cells(u: seq<Mark>, i: nat, e: nat): (c: Clause)
    requires i <= e <= |u|
    requires forall j :: i <= j < e ==> u[j] != Sep
    ensures |c| == e - i && forall j :: i <= j < e ==> c[j - i] == u[j].lit
  {
    seq(e - i, k requires 0 <= k < e - i => u[i + k].lit)
  }

  // The segment that starts at separator i and ends before e is the last one of u[..e].
  lemma SegsLast(u: seq<Mark>, i: nat, e: nat)
    requires WellFormed(u) && i < e <= |u| && u[i] == Sep
    requires forall j :: i < j < e ==> u[j] != Sep
    ensures Segs(u[..e]) == Segs(u[..i]) + [Cells(u, i + 1, e)]
  {
    var c := Cells(u, i + 1, e);
    var w := u[..i] + [Sep] + Marks(c);
    assert forall j :: 0 <= j < e ==> w[j] == u[..e][j];
    assert w == u[..e];
    SegsAppend(u[..i], c);
  }

  // Reading one segment changes the model exactly as Repair does.
  lemma ReadSegment(u: seq<Mark>, i: nat, e: nat, before: Model, after: Model)
    requires WellFormed(u) && i < e <= |u| && u[i] == Sep
    requires forall j :: i < j < e ==> u[j] != Sep
    requires SameModel(after, Repair(Cells(u, i + 1, e), before))
    ensures SameModel(Extend(Segs(u[..e]), before), Extend(Segs(u[..i]), after))
  {
    SegsLast(u, i, e);
    var c := Cells(u, i + 1, e);
    var s := Segs(u[..i]);
    assert (s + [c])[..|s|] == s;
    ExtendCongruent(s, after, Repair(c, before));
  }

  // A vector that is too short is filled with true, which it stood for already.
  method GrowTo(s: seq<LBool>, v: nat) returns (r: seq<LBool>)
    ensures |s| <= |r| && v < |r| && (Undef !in s ==> Undef !in r)
    ensures SameModel(AsModel(r), AsModel(s))
  {
    r := if v < |s| then s else s + seq(v + 1 - |s|, _ => True);
  }

  function SetTrue(s: seq<LBool>, l: Lit): (r: seq<LBool>)
    requires l.v < |s|
    ensures |r| == |s| && (Undef !in s ==> Undef !in r)
    ensures SameModel(AsModel(r), Assign(AsModel(s), l))
  {
    s[l.v := if l.neg then False else True]
  }

  // The cells between i and e have been read and found false.
  ghost predicate AllFalse(u: seq<Mark>, i: int, e: nat, m: Model)
    requires -1 <= i < e <= |u|
  {
    forall j :: i < j < e ==> u[j] != Sep && !Holds(m, u[j].lit)
  }

  lemma OneMoreFalse(u: seq<Mark>, i: nat, e: nat, m: Model, after: Model)
    requires 0 < i < e <= |u| && AllFalse(u, i, e, m) && SameModel(m, after)
    requires u[i] != Sep && !Holds(after, u[i].lit)
    ensures AllFalse(u, i - 1, e, after)
  {
    forall j | i < j < e ensures !Holds(after, u[j].lit) {
      assert !Holds(m, u[j].lit);
    }
  }

  lemma UnsatisfiedSegment(u: seq<Mark>, i: nat, e: nat, m: Model, after: Model)
    requires WellFormed(u) && NoEmptySegment(u) && i < e <= |u| && u[i] == Sep
    requires e < |u| ==> u[e] == Sep
    requires AllFalse(u, i, e, m)
    requires i + 1 < |u| && u[i + 1] != Sep && SameModel(after, Assign(m, u[i + 1].lit))
    ensures SameModel(Extend(Segs(u[..e]), m), Extend(Segs(u[..i]), after))
  {
    var c := Cells(u, i + 1, e);
    assert !SatClause(m, c);
    ReadSegment(u, i, e, m, after);
  }

  lemma SatisfiedSegment(u: seq<Mark>, i: nat, seen: nat, e: nat, m: Model)
    requires WellFormed(u) && i < seen < e <= |u| && u[i] == Sep
    requires forall j :: i < j < e ==> u[j] != Sep
    requires Holds(m, u[seen].lit)
    ensures SameModel(Extend(Segs(u[..e]), m), Extend(Segs(u[..i]), m))
  {
    assert Cells(u, i + 1, e)[seen - i - 1] == u[seen].lit;
    ReadSegment(u, i, e, m, m);
  }

  // Walks the stack backwards. A clause with a true literal is skipped up to its
  // separator; when the separator is reached, the clause is false and its first
  // literal is made true.
  method ExtendModel(undo: seq<Mark>, model: seq<LBool>) returns (out: seq<LBool>)
    requires WellFormed(undo) && NoEmptySegment(undo)
    ensures |model| <= |out| && Undef !in out
    ensures SameModel(AsModel(out), Extend(Segs(undo), AsModel(model)))
  {
    out := SetFreeVariables(model);
    var i := |undo| - 1;
    ghost var e := |undo|;     // the end of the segment that is being read
    ghost var goal := Extend(Segs(undo), AsModel(model));
    assert undo[..e] == undo;
    while i >= 0
      invariant -1 <= i < |undo| && (if i == -1 then e == 0 else i < e <= |undo|)
      invariant e < |undo| ==> undo[e] == Sep
      invariant i >= 0 ==> AllFalse(undo, i, e, AsModel(out))
      invariant |model| <= |out| && Undef !in out
      invariant SameModel(goal, Extend(Segs(undo[..e]), AsModel(out)))
      decreases i + 1
    {
      ghost var before := AsModel(out);
      if undo[i] == Sep {
        var satLit := undo[i + 1].lit;
        out := GrowTo(out, satLit.v);
        out := SetTrue(out, satLit);
        UnsatisfiedSegment(undo, i, e, before, AsModel(out));
        e := i;
      } else {
        var c := undo[i].lit;
        out := GrowTo(out, c.v);
        ExtendCongruent(Segs(undo[..e]), before, AsModel(out));
        if out[c.v] == (if c.neg then False else True) {
          ghost var seen := i;
          i := SkipClause(undo, i);
          SatisfiedSegment(undo, i, seen, e, AsModel(out));
          e := i;
        } else {
          OneMoreFalse(undo, i, e, before, AsModel(out));
        }
      }
      i := i - 1;
    }
    assert undo[..0] == [];
  }

  // Moves left to the separator of the clause that contains cell i.
  method SkipClause(undo: seq<Mark>, i: nat) returns (r: nat)
    requires WellFormed(undo) && i < |undo| && undo[i] != Sep
    ensures r < i && undo[r] == Sep && forall j :: r < j <= i ==> undo[j] != Sep
  {
    r := i;
    while undo[r] != Sep
      invariant r <= i && forall j :: r < j <= i ==> undo[j] != Sep
      decreases r
    {
      r := r - 1;
    }
  }

  // Free variables are set to true.
  method SetFreeVariables(model: seq<LBool>) returns (out: seq<LBool>)
    ensures |out| == |model| && Undef !in out && AsModel(out) == AsModel(model)
  {
    out := model;
    for j := 0 to |model|
      invariant |out| == |model|
      invariant forall k :: 0 <= k < j ==> out[k] != Undef
      invariant forall k :: 0 <= k < |out| ==> (out[k] == False <==> model[k] == False)
    {
      if out[j] == Undef { out := out[j := True]; }
    }
  }
}
