// Resolution of sorted clauses by merging (coprocessor/techniques/BVE.h) and the
// clash test of blocked clause elimination (coprocessor/techniques/BCE.cc).

module Resolvents {
  import opened Sat
  import opened Steps

  datatype Option<T> = None | Some(value: T)

  // A literal of c, other than p, whose complement is in d.
  ghost predicate Clashes(c: Clause, p: Lit, d: Clause, a: nat, b: nat) {
    a < |c| && b < |d| && c[a] != p && d[b] == Neg(c[a])
  }

  // Any clash of two sorted clauses lies at or beyond the two merge positions.
  ghost predicate NoClashBefore(c: Clause, p: Lit, d: Clause, i: nat, j: nat) {
    forall a: nat, b: nat :: Clashes(c, p, d, a, b) ==> i <= a && j <= b
  }

  // The pair of positions decides who advances; a clash that involves a literal that is
  // passed over would have been met already.
  lemma AdvanceMerge(c: Clause, p: Lit, d: Clause, i: nat, j: nat)
    requires Proper(c) && Proper(d) && i < |c| && j < |d| && NoClashBefore(c, p, d, i, j)
    ensures c[i] == p ==> NoClashBefore(c, p, d, i + 1, j)
    ensures d[j] == Neg(p) ==> NoClashBefore(c, p, d, i, j + 1)
    ensures c[i] == d[j] ==> NoClashBefore(c, p, d, i + 1, j + 1)
    ensures c[i] != Neg(d[j]) && Code(c[i]) < Code(d[j]) ==> NoClashBefore(c, p, d, i + 1, j)
    ensures c[i] != Neg(d[j]) && Code(d[j]) < Code(c[i]) ==> NoClashBefore(c, p, d, i, j + 1)
  {
    forall a: nat, b: nat | Clashes(c, p, d, a, b)
      ensures c[i] == d[j] ==> a != i && b != j
      ensures c[i] != Neg(d[j]) && Code(c[i]) < Code(d[j]) ==> a != i
      ensures c[i] != Neg(d[j]) && Code(d[j]) < Code(c[i]) ==> b != j
    {
      assert d[b] in d && c[a] in c && d[j] in d && c[i] in c;
      if a == i && j < b { assert Code(d[j]) < Code(d[b]); }
      if b == j && i < a { assert Code(c[i]) < Code(c[a]); }
    }
  }

  // tautologicResolvent: lit_Undef if resolving c and d on l gives no tautology, and
  // otherwise the smallest literal of c that clashes with d.
  method TautologicResolvent(c: Clause, d: Clause, l: Lit) returns (r: Option<Lit>)
    requires Proper(c) && Proper(d)
    ensures r.None? <==> !Clash(c, l, d)
    ensures r.Some? ==> r.value in c && r.value != l && Neg(r.value) in d
    ensures r.Some? ==> forall x :: x in c && x != l && Neg(x) in d ==> Code(r.value) <= Code(x)
  {
    var i, j := 0, 0;
    while i < |c| && j < |d|
      invariant i <= |c| && j <= |d| && NoClashBefore(c, l, d, i, j)
      decreases |c| - i + |d| - j
    {
      AdvanceMerge(c, l, d, i, j);
      if c[i] == l {
        i := i + 1;
      } else if d[j] == Neg(l) {
        j := j + 1;
      } else if c[i] == d[j] {
        i, j := i + 1, j + 1;
      } else if c[i] == Neg(d[j]) {
        FirstClash(c, l, d, i, j);
        return Some(c[i]);
      } else if Code(c[i]) < Code(d[j]) {
        i := i + 1;
      } else {
        j := j + 1;
      }
    }
    NoClash(c, l, d, i, j);
    r := None;
  }

  lemma FirstClash(c: Clause, l: Lit, d: Clause, i: nat, j: nat)
    requires Sorted(c) && Clashes(c, l, d, i, j) && NoClashBefore(c, l, d, i, j)
    ensures forall x :: x in c && x != l && Neg(x) in d ==> Code(c[i]) <= Code(x)
  {
    forall x | x in c && x != l && Neg(x) in d ensures Code(c[i]) <= Code(x) {
      var a :| 0 <= a < |c| && c[a] == x;
      var b :| 0 <= b < |d| && d[b] == Neg(x);
      assert Clashes(c, l, d, a, b);
    }
  }

  lemma NoClash(c: Clause, l: Lit, d: Clause, i: nat, j: nat)
    requires NoClashBefore(c, l, d, i, j) && (i == |c| || j == |d|)
    ensures !Clash(c, l, d)
  {
    forall x | x in c && x != l ensures Neg(x) !in d {
      var a :| 0 <= a < |c| && c[a] == x;
      forall b | 0 <= b < |d| ensures d[b] != Neg(x) {
        assert !Clashes(c, l, d, a, b);
      }
    }
  }

  // ---------- resolve and tryResolve ----------

  // The literals of the resolvent of c and d on x.
  function ResolventLits(c: Clause, d: Clause, x: Lit): set<Lit> {
    (Lits(c) - {x}) + (Lits(d) - {Neg(x)})
  }

  // out holds the merged literals of c[..i] and d[..j]; what is left is not smaller.
  ghost predicate Merged(c: Clause, d: Clause, x: Lit, i: nat, j: nat, out: Clause)
    requires i <= |c| && j <= |d|
  {
    && Sorted(out) && !Tautology(out)
    && (forall l :: l in out <==> (l in c[..i] && l != x) || (l in d[..j] && l != Neg(x)))
    && (out != [] ==>
         && (forall k :: i <= k < |c| && c[k] != x ==> Code(out[|out| - 1]) <= Code(c[k]))
         && (forall k :: j <= k < |d| && d[k] != Neg(x) ==> Code(out[|out| - 1]) <= Code(d[k])))
  }

  // The effect of checkPush on the merged literals.
  function CheckPush(out: Clause, l: Lit): (r: (Clause, bool)) {
    if out != [] && out[|out| - 1] == l then (out, false)
    else if out != [] && out[|out| - 1] == Neg(l) then (out, true)
    else (out + [l], false)
  }

  lemma SkipPivot(c: Clause, d: Clause, x: Lit, i: nat, j: nat, out: Clause)
    requires i <= |c| && j <= |d| && Merged(c, d, x, i, j, out)
    ensures i < |c| && c[i] == x ==> Merged(c, d, x, i + 1, j, out)
    ensures j < |d| && d[j] == Neg(x) ==> Merged(c, d, x, i, j + 1, out)
  {
    if i < |c| { assert c[..i + 1] == c[..i] + [c[i]]; }
    if j < |d| { assert d[..j + 1] == d[..j] + [d[j]]; }
  }

  // Taking the next literal of the first clause, when it is not larger than the next one
  // of the second clause.
  lemma TakeFirst(c: Clause, d: Clause, x: Lit, i: nat, j: nat, out: Clause)
    requires Proper(c) && Proper(d) && i < |c| && j <= |d| && Merged(c, d, x, i, j, out)
    requires c[i] != x && (forall k :: j <= k < |d| && d[k] != Neg(x) ==> Code(c[i]) <= Code(d[k]))
    ensures var (out', taut) := CheckPush(out, c[i]);
            if taut then Clash(c, x, d) else Merged(c, d, x, i + 1, j, out')
  {
    var l := c[i];
    assert c[..i + 1] == c[..i] + [l];
    assert l in c;
    if out != [] {
      var last := out[|out| - 1];
      assert last in out;
      if last == Neg(l) {
        assert last in d[..j];
      } else {
        LastNear(c, d, x, i, j, out);
        GrowSorted(out, l);
      }
    }
  }

  // Nothing smaller than the last merged literal can clash with the next literal.
  lemma LastNear(c: Clause, d: Clause, x: Lit, i: nat, j: nat, out: Clause)
    requires Proper(c) && Proper(d) && i < |c| && j <= |d| && Merged(c, d, x, i, j, out)
    requires c[i] != x && out != [] && out[|out| - 1] != Neg(c[i])
    ensures Neg(c[i]) !in out
  {
  }

  lemma GrowSorted(out: Clause, l: Lit)
    requires Sorted(out) && !Tautology(out) && out != [] && Code(out[|out| - 1]) <= Code(l)
    requires Neg(l) !in out
    ensures var o := CheckPush(out, l).0; Sorted(o) && !Tautology(o)
  {
  }

  lemma Symmetric(c: Clause, d: Clause, x: Lit, i: nat, j: nat, out: Clause)
    requires i <= |c| && j <= |d|
    ensures Merged(c, d, x, i, j, out) <==> Merged(d, c, Neg(x), j, i, out)
    ensures Clash(c, x, d) <==> Clash(d, Neg(x), c)
  {
    if Clash(c, x, d) {
      var y :| y in c && y != x && Neg(y) in d;
      assert Neg(y) in d && Neg(y) != Neg(x) && Neg(Neg(y)) in c;
    }
    if Clash(d, Neg(x), c) {
      var y :| y in d && y != Neg(x) && Neg(y) in c;
      assert Neg(y) in c && Neg(y) != x && Neg(Neg(y)) in d;
    }
  }

  lemma TakeSecond(c: Clause, d: Clause, x: Lit, i: nat, j: nat, out: Clause)
    requires Proper(c) && Proper(d) && i <= |c| && j < |d| && Merged(c, d, x, i, j, out)
    requires d[j] != Neg(x) && (forall k :: i <= k < |c| && c[k] != x ==> Code(d[j]) <= Code(c[k]))
    ensures var (out', taut) := CheckPush(out, d[j]);
            if taut then Clash(c, x, d) else Merged(c, d, x, i, j + 1, out')
  {
    Symmetric(c, d, x, i, j, out);
    TakeFirst(d, c, Neg(x), j, i, out);
    Symmetric(c, d, x, i, j + 1, CheckPush(out, d[j]).0);
  }

  // What the loops of resolve and tryResolve know between two literals.
  lemma MergeDone(c: Clause, d: Clause, x: Lit, out: Clause)
    requires Merged(c, d, x, |c|, |d|, out)
    ensures Lits(out) == ResolventLits(c, d, x) && Sorted(out) && !Clash(c, x, d)
  {
    assert c[..|c|] == c && d[..|d|] == d;
  }

  lemma SmallerHead(c: Clause, d: Clause, i: nat, j: nat)
    requires Sorted(c) && Sorted(d) && i < |c| && j < |d|
    ensures Code(c[i]) < Code(d[j]) ==> forall k :: j <= k < |d| ==> Code(c[i]) <= Code(d[k])
    ensures Code(d[j]) <= Code(c[i]) ==> forall k :: i <= k < |c| ==> Code(d[j]) <= Code(c[k])
  {
  }

  // resolve: expects c with variable v positive and d with v negative. Reports a
  // tautology, or the sorted literals of the resolvent.
  method Resolve(c: Clause, d: Clause, v: nat) returns (taut: bool, resolvent: Clause)
    requires Proper(c) && Proper(d)
    ensures taut <==> Clash(c, Lit(v, false), d)
    ensures !taut ==> Sorted(resolvent) && Lits(resolvent) == ResolventLits(c, d, Lit(v, false))
  {
    hide Merged, Sorted;
    ghost var x := Lit(v, false);
    var i, j := 0, 0;
    resolvent, taut := [], false;
    MergeStart(c, d, x);
    while i < |c| && j < |d|
      invariant i <= |c| && j <= |d| && Merged(c, d, x, i, j, resolvent)
      decreases |c| - i + |d| - j
    {
      SkipPivot(c, d, x, i, j, resolvent);
      SmallerHead(c, d, i, j);
      if c[i] == Lit(v, false) { i := i + 1; }
      else if d[j] == Lit(v, true) { j := j + 1; }
      else if Code(c[i]) < Code(d[j]) {
        TakeFirst(c, d, x, i, j, resolvent);
        resolvent, taut := CheckPush(resolvent, c[i]).0, CheckPush(resolvent, c[i]).1;
        if taut { return; } else { i := i + 1; }
      } else {
        TakeSecond(c, d, x, i, j, resolvent);
        resolvent, taut := CheckPush(resolvent, d[j]).0, CheckPush(resolvent, d[j]).1;
        if taut { return; } else { j := j + 1; }
      }
    }
    while i < |c|
      invariant i <= |c| && j <= |d| && (i < |c| ==> j == |d|) && Merged(c, d, x, i, j, resolvent)
    {
      SkipPivot(c, d, x, i, j, resolvent);
      if c[i] == Lit(v, false) { i := i + 1; }
      else {
        TakeFirst(c, d, x, i, j, resolvent);
        resolvent, taut := CheckPush(resolvent, c[i]).0, CheckPush(resolvent, c[i]).1;
        if taut { return; } else { i := i + 1; }
      }
    }
    while j < |d|
      invariant i == |c| && j <= |d| && Merged(c, d, x, i, j, resolvent)
    {
      SkipPivot(c, d, x, i, j, resolvent);
      if d[j] == Lit(v, true) { j := j + 1; }
      else {
        TakeSecond(c, d, x, i, j, resolvent);
        resolvent, taut := CheckPush(resolvent, d[j]).0, CheckPush(resolvent, d[j]).1;
        if taut { return; } else { j := j + 1; }
      }
    }
    taut := false;
    MergeDone(c, d, x, resolvent);
  }

  lemma MergeStart(c: Clause, d: Clause, x: Lit)
    ensures Merged(c, d, x, 0, 0, [])
  {
  }

  // checkUpdatePrev only remembers the last literal and counts.
  function CheckUpdatePrev(prev: Option<Lit>, l: Lit): (Option<Lit>, int) {
    if prev == Some(l) then (prev, 0)
    else if prev == Some(Neg(l)) then (prev, -1)
    else (Some(l), 1)
  }

  // Counting and building go the same way.
  lemma SameStep(out: Clause, l: Lit)
    ensures var (prev, n) := CheckUpdatePrev(Last(out), l); var (out', taut) := CheckPush(out, l);
            (n == -1 <==> taut) && (!taut ==> prev == Last(out') && |out'| == |out| + n)
  {
  }

  function Last(out: Clause): Option<Lit> {
    if out == [] then None else Some(out[|out| - 1])
  }

  // tryResolve: -1 for a tautology, and otherwise the number of literals of the
  // resolvent, without building it.
  method TryResolve(c: Clause, d: Clause, v: nat) returns (r: int)
    requires Proper(c) && Proper(d)
    ensures r == if Clash(c, Lit(v, false), d) then -1 else |ResolventLits(c, d, Lit(v, false))|
  {
    hide Merged, Sorted, CheckPush, CheckUpdatePrev;
    ghost var x := Lit(v, false);
    ghost var out: Clause := [];
    var i, j := 0, 0;
    var prev: Option<Lit> := None;
    r := 0;
    MergeStart(c, d, x);
    while i < |c| && j < |d|
      invariant i <= |c| && j <= |d| && Merged(c, d, x, i, j, out) && prev == Last(out) && r == |out|
      decreases |c| - i + |d| - j
    {
      SkipPivot(c, d, x, i, j, out);
      SmallerHead(c, d, i, j);
      if c[i] == Lit(v, false) { i := i + 1; }
      else if d[j] == Lit(v, true) { j := j + 1; }
      else if Code(c[i]) < Code(d[j]) {
        TakeFirst(c, d, x, i, j, out);
        SameStep(out, c[i]);
        out := CheckPush(out, c[i]).0;
        var status := CheckUpdatePrev(prev, c[i]);
        if status.1 == -1 { return -1; }
        prev, i, r := status.0, i + 1, r + status.1;
      } else {
        TakeSecond(c, d, x, i, j, out);
        SameStep(out, d[j]);
        out := CheckPush(out, d[j]).0;
        var status := CheckUpdatePrev(prev, d[j]);
        if status.1 == -1 { return -1; }
        prev, j, r := status.0, j + 1, r + status.1;
      }
    }
    while i < |c|
      invariant i <= |c| && j <= |d| && (i < |c| ==> j == |d|)
      invariant Merged(c, d, x, i, j, out) && prev == Last(out) && r == |out|
    {
      SkipPivot(c, d, x, i, j, out);
      if c[i] == Lit(v, false) { i := i + 1; }
      else {
        TakeFirst(c, d, x, i, j, out);
        SameStep(out, c[i]);
        out := CheckPush(out, c[i]).0;
        var status := CheckUpdatePrev(prev, c[i]);
        if status.1 == -1 { return -1; }
        prev, i, r := status.0, i + 1, r + status.1;
      }
    }
    while j < |d|
      invariant i == |c| && j <= |d| && Merged(c, d, x, i, j, out) && prev == Last(out) && r == |out|
    {
      SkipPivot(c, d, x, i, j, out);
      if d[j] == Lit(v, true) { j := j + 1; }
      else {
        TakeSecond(c, d, x, i, j, out);
        SameStep(out, d[j]);
        out := CheckPush(out, d[j]).0;
        var status := CheckUpdatePrev(prev, d[j]);
        if status.1 == -1 { return -1; }
        prev, j, r := status.0, j + 1, r + status.1;
      }
    }
    MergeDone(c, d, x, out);
    SortedSize(out);
  }

  lemma {:induction false} SortedSize(c: Clause)
    requires Sorted(c)
    ensures |Lits(c)| == |c|
  {
    if c != [] {
      var front, l := c[..|c| - 1], c[|c| - 1];
      SortedSize(front);
      assert Lits(c) == Lits(front) + {l};
      assert l !in front;
    }
  }
}
