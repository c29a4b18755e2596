// Sorting the list of clauses with a bottom-up merge sort whose fields are aligned at
// the right end of the list (coprocessor/CoprocessorTypes.h).

module ClauseSort {
  import opened Sat
  import opened Formula

  // ---------- the order ----------

  // Lexicographic order.
  predicate Lex(x: seq<nat>, y: seq<nat>) {
    y != [] && (x == [] || x[0] < y[0] || (x[0] == y[0] && Lex(x[1..], y[1..])))
  }

  lemma {:induction false} LexAt(x: seq<nat>, y: seq<nat>, i: nat)
    requires i < |x| && i < |y| && x[i] != y[i] && forall k :: 0 <= k < i ==> x[k] == y[k]
    ensures Lex(x, y) <==> x[i] < y[i]
  {
    if i > 0 { LexAt(x[1..], y[1..], i - 1); }
  }

  lemma {:induction false} LexSelf(x: seq<nat>)
    ensures !Lex(x, x)
  {
    if x != [] { LexSelf(x[1..]); }
  }

  lemma {:induction false} LexAsymmetric(x: seq<nat>, y: seq<nat>)
    ensures !(Lex(x, y) && Lex(y, x))
    ensures !Lex(x, y) && !Lex(y, x) ==> x == y
  {
    if x != [] && y != [] {
      LexAsymmetric(x[1..], y[1..]);
      assert x == [x[0]] + x[1..] && y == [y[0]] + y[1..];
    }
  }

  lemma {:induction false} LexTransitive(x: seq<nat>, y: seq<nat>, z: seq<nat>)
    requires !Lex(y, x) && !Lex(z, y)
    ensures !Lex(z, x)
  {
    if x != [] && y != [] && z != [] && x[0] == y[0] == z[0] { LexTransitive(x[1..], y[1..], z[1..]); }
  }

  // What operator< compares, one after the other: deleted clauses come last, short ones
  // first; then the variables, then the literals.
  function Key(c: Cls): (k: seq<nat>)
    ensures |k| == 2 + 2 * |c.lits|
    ensures k[0] == (if c.deleted then 1 else 0) && k[1] == |c.lits|
    ensures forall i :: 0 <= i < |c.lits| ==> k[2 + i] == c.lits[i].v && k[2 + |c.lits| + i] == Code(c.lits[i])
  {
    [if c.deleted then 1 else 0, |c.lits|]
    + seq(|c.lits|, i requires 0 <= i < |c.lits| => c.lits[i].v)
    + seq(|c.lits|, i requires 0 <= i < |c.lits| => Code(c.lits[i]))
  }

  predicate Before(c: Cls, d: Cls) {
    Lex(Key(c), Key(d))
  }

  // The first n entries of the keys agree.
  ghost predicate SameUpTo(c: Cls, d: Cls, n: nat) {
    && n <= |Key(c)| && n <= |Key(d)| && forall k :: 0 <= k < n ==> Key(c)[k] == Key(d)[k]
  }

  lemma SameNext(c: Cls, d: Cls, n: nat)
    requires SameUpTo(c, d, n) && n < |Key(c)| && n < |Key(d)|
    ensures Key(c)[n] == Key(d)[n] ==> SameUpTo(c, d, n + 1)
    ensures Key(c)[n] != Key(d)[n] ==> (Before(c, d) <==> Key(c)[n] < Key(d)[n])
  {
    hide Lex;
    if Key(c)[n] != Key(d)[n] { LexAt(Key(c), Key(d), n); }
  }

  lemma FirstTwo(c: Cls, d: Cls)
    requires c.deleted == d.deleted && |c.lits| == |d.lits|
    ensures SameUpTo(c, d, 2)
  {
  }

  lemma NextVar(c: Cls, d: Cls, i: nat)
    requires SameUpTo(c, d, 2 + i) && |c.lits| == |d.lits| && i < |c.lits|
    ensures c.lits[i].v == d.lits[i].v ==> SameUpTo(c, d, 2 + (i + 1))
    ensures c.lits[i].v != d.lits[i].v ==> (Before(c, d) <==> c.lits[i].v < d.lits[i].v)
  {
    SameNext(c, d, 2 + i);
    hide Before, SameUpTo, Code;
    assert Key(c)[2 + i] == c.lits[i].v && Key(d)[2 + i] == d.lits[i].v;
  }

  lemma NextLit(c: Cls, d: Cls, i: nat)
    requires SameUpTo(c, d, 2 + |c.lits| + i) && |c.lits| == |d.lits| && i < |c.lits|
    ensures Code(c.lits[i]) == Code(d.lits[i]) ==> SameUpTo(c, d, 2 + |c.lits| + (i + 1))
    ensures Code(c.lits[i]) != Code(d.lits[i]) ==> (Before(c, d) <==> Code(c.lits[i]) < Code(d.lits[i]))
  {
    SameNext(c, d, 2 + |c.lits| + i);
    hide Before, SameUpTo, Code;
    var n := |c.lits|;
    assert Key(c)[2 + n + i] == Code(c.lits[i]) && Key(d)[2 + n + i] == Code(d.lits[i]);
  }

  method LessVars(c: Cls, d: Cls) returns (decided: bool, r: bool)
    requires c.deleted == d.deleted && |c.lits| == |d.lits|
    ensures decided ==> (r <==> Before(c, d))
    ensures !decided ==> SameUpTo(c, d, 2 + |c.lits|)
  {
    FirstTwo(c, d);
    hide *;
    var i := 0;
    while i < |c.lits|
      invariant 0 <= i <= |c.lits| && SameUpTo(c, d, 2 + i)
    {
      NextVar(c, d, i);
      if d.lits[i].v < c.lits[i].v { return true, false; }
      if c.lits[i].v < d.lits[i].v { return true, true; }
      i := i + 1;
    }
    decided, r := false, false;
  }

  // Clause::operator<
  method Less(c: Cls, d: Cls) returns (r: bool)
    ensures r <==> Before(c, d)
  {
    hide Lex;
    if c.deleted != d.deleted { LexAt(Key(c), Key(d), 0); }
    if d.deleted && !c.deleted { return true; }
    if !d.deleted && c.deleted { return false; }
    if |c.lits| != |d.lits| { LexAt(Key(c), Key(d), 1); }
    if |c.lits| > |d.lits| { return false; }
    if |c.lits| < |d.lits| { return true; }
    var decided;
    decided, r := LessVars(c, d);
    if decided { return; }
    r := LessLits(c, d);
  }

  method LessLits(c: Cls, d: Cls) returns (r: bool)
    requires |c.lits| == |d.lits| && SameUpTo(c, d, 2 + |c.lits|)
    ensures r <==> Before(c, d)
  {
    hide *;
    var n := |c.lits|;
    var i := 0;
    while i < n
      invariant 0 <= i <= n && SameUpTo(c, d, 2 + n + i)
    {
      NextLit(c, d, i);
      if Code(d.lits[i]) < Code(c.lits[i]) { return false; }
      if Code(c.lits[i]) < Code(d.lits[i]) { return true; }
      i := i + 1;
    }
    NotBefore(c, d);
    r := false;
  }

  lemma NotBefore(c: Cls, d: Cls)
    requires |c.lits| == |d.lits| && SameUpTo(c, d, 2 + 2 * |c.lits|)
    ensures !Before(c, d)
  {
    hide Lex;
    assert Key(c) == Key(d);
    LexSelf(Key(c));
  }

  // ---------- sorted stretches of a list ----------

  ghost predicate Known(ca: seq<Cls>, x: seq<CRef>) {
    forall i :: 0 <= i < |x| ==> x[i] < |ca|
  }

  // x does not come after y.
  ghost predicate Ordered(ca: seq<Cls>, x: CRef, y: CRef) {
    x < |ca| && y < |ca| && !Before(ca[y], ca[x])
  }

  lemma OrderedTrans(ca: seq<Cls>, x: CRef, y: CRef, z: CRef)
    requires Ordered(ca, x, y) && Ordered(ca, y, z)
    ensures Ordered(ca, x, z)
  {
    LexTransitive(Key(ca[x]), Key(ca[y]), Key(ca[z]));
  }

  ghost predicate SortedFrom(ca: seq<Cls>, x: seq<CRef>, lo: int, hi: int) {
    forall i, j :: 0 <= lo <= i < j < hi <= |x| ==> Ordered(ca, x[i], x[j])
  }

  function Clip(i: int): (r: nat)
    ensures r == if i > 0 then i else 0
  {
    if i > 0 then i else 0
  }

  // The first m elements consist of sorted stretches of length s, aligned at m.
  ghost predicate Runs(ca: seq<Cls>, x: seq<CRef>, m: int, s: nat)
    requires s > 0
    decreases Clip(m)
  {
    m <= 0 || (SortedFrom(ca, x, Clip(m - s), m) && Runs(ca, x, m - s, s))
  }

  // The elements from m up to n do.
  ghost predicate RunsDown(ca: seq<Cls>, x: seq<CRef>, n: int, m: int, s: nat)
    requires s > 0
    decreases Clip(n - m)
  {
    if n <= m then n == m else SortedFrom(ca, x, Clip(n - s), n) && RunsDown(ca, x, n - s, m, s)
  }

  lemma {:induction false} RunsDownNext(ca: seq<Cls>, x: seq<CRef>, n: int, m: int, s: nat)
    requires s > 0 && RunsDown(ca, x, n, m, s) && SortedFrom(ca, x, Clip(m - s), m)
    ensures RunsDown(ca, x, n, m - s, s)
    decreases Clip(n - m)
  {
    if n > m { RunsDownNext(ca, x, n - s, m, s); }
  }

  lemma {:induction false} RunsDownAll(ca: seq<Cls>, x: seq<CRef>, n: int, m: int, s: nat)
    requires s > 0 && RunsDown(ca, x, n, m, s) && m <= 0
    ensures Runs(ca, x, n, s)
    decreases Clip(n - m)
  {
    if n > 0 { RunsDownAll(ca, x, n - s, m, s); }
  }

  lemma {:induction false} RunsDownFrame(ca: seq<Cls>, x: seq<CRef>, y: seq<CRef>, n: int, m: int, s: nat)
    requires s > 0 && RunsDown(ca, x, n, m, s) && 0 <= m && n <= |x| == |y|
    requires forall k :: m <= k < |x| ==> x[k] == y[k]
    ensures RunsDown(ca, y, n, m, s)
    decreases Clip(n - m)
  {
    if n > m {
      Aligned(ca, x, n - s, m, s);
      RunsDownFrame(ca, x, y, n - s, m, s);
    }
  }

  lemma Aligned(ca: seq<Cls>, x: seq<CRef>, n: int, m: int, s: nat)
    requires s > 0 && RunsDown(ca, x, n, m, s)
    ensures n >= m
  {
  }

  // Single elements are sorted.
  lemma {:induction false} SingleRuns(ca: seq<Cls>, x: seq<CRef>, m: int)
    ensures Runs(ca, x, m, 1)
    decreases Clip(m)
  {
    if m > 0 { SingleRuns(ca, x, m - 1); }
  }

  // ---------- merging two stretches ----------

  // The first cells of b hold what has been taken from a, in order, and nothing that is
  // left comes before it.
  ghost predicate Merging(ca: seq<Cls>, a: seq<CRef>, b: seq<CRef>, lo: nat, hi: nat, stop: nat, i: nat, j: nat, cur: nat) {
    && lo <= i <= hi <= j <= stop <= |a| == |b| && cur == i + (j - hi)
    && multiset(b[lo..cur]) == multiset(a[lo..i]) + multiset(a[hi..j])
    && SortedFrom(ca, b, lo, cur)
    && (forall p, q :: lo <= p < cur && (i <= q < hi || j <= q < stop) ==> Ordered(ca, b[p], a[q]))
  }

  ghost predicate Halves(ca: seq<Cls>, a: seq<CRef>, lo: nat, hi: nat, stop: nat) {
    lo <= hi <= stop <= |a| && Known(ca, a) && SortedFrom(ca, a, lo, hi) && SortedFrom(ca, a, hi, stop)
  }

  lemma Taken(ca: seq<Cls>, a: seq<CRef>, b: seq<CRef>, b': seq<CRef>, lo: nat, hi: nat, stop: nat,
              i: nat, j: nat, cur: nat, left: bool)
    requires Halves(ca, a, lo, hi, stop) && Merging(ca, a, b, lo, hi, stop, i, j, cur)
    requires if left then i < hi else j < stop
    requires cur < |b| && b' == b[cur := a[if left then i else j]]
    requires left && j < stop ==> Ordered(ca, a[i], a[j])
    requires !left && i < hi ==> Ordered(ca, a[j], a[i])
    ensures Merging(ca, a, b', lo, hi, stop, if left then i + 1 else i, if left then j else j + 1, cur + 1)
  {
    hide Ordered;
    var k := if left then i else j;
    TakenMultiset(a, b, b', lo, hi, stop, i, j, cur, left);
    forall q | i <= q < hi || j <= q < stop ensures Ordered(ca, a[k], a[q]) {
      NextIsLeast(ca, a, lo, hi, stop, i, j, left, q);
    }
    assert forall p :: lo <= p < cur ==> b'[p] == b[p];
    assert b'[cur] == a[k];
  }

  lemma NextIsLeast(ca: seq<Cls>, a: seq<CRef>, lo: nat, hi: nat, stop: nat, i: nat, j: nat, left: bool, q: nat)
    requires Halves(ca, a, lo, hi, stop) && lo <= i <= hi <= j <= stop && (if left then i < hi else j < stop)
    requires left && j < stop ==> Ordered(ca, a[i], a[j])
    requires !left && i < hi ==> Ordered(ca, a[j], a[i])
    requires i <= q < hi || j <= q < stop
    ensures Ordered(ca, a[if left then i else j], a[q])
  {
    Reflexive(ca, a[if left then i else j]);
    hide Ordered;
    if left && j < q { OrderedTrans(ca, a[i], a[j], a[q]); }
    if !left && i < q < hi { OrderedTrans(ca, a[j], a[i], a[q]); }
  }

  lemma Reflexive(ca: seq<Cls>, x: CRef)
    requires x < |ca|
    ensures Ordered(ca, x, x)
  {
    LexSelf(Key(ca[x]));
  }

  lemma TakenMultiset(a: seq<CRef>, b: seq<CRef>, b': seq<CRef>, lo: nat, hi: nat, stop: nat,
                      i: nat, j: nat, cur: nat, left: bool)
    requires lo <= i <= hi <= j <= stop <= |a| == |b| && cur == i + (j - hi) && cur < |b|
    requires if left then i < hi else j < stop
    requires multiset(b[lo..cur]) == multiset(a[lo..i]) + multiset(a[hi..j]) && b' == b[cur := a[if left then i else j]]
    ensures multiset(b'[lo..cur + 1]) ==
      multiset(a[lo..if left then i + 1 else i]) + multiset(a[hi..if left then j else j + 1])
  {
    assert b'[lo..cur] == b[lo..cur];
    OneMore(b', lo, cur);
    if left { OneMore(a, lo, i); } else { OneMore(a, hi, j); }
  }

  lemma OneMore(s: seq<CRef>, lo: nat, i: nat)
    requires lo <= i < |s|
    ensures multiset(s[lo..i + 1]) == multiset(s[lo..i]) + multiset{s[i]}
  {
    assert s[lo..i + 1] == s[lo..i] + [s[i]];
  }

  // Merges a[lo..hi] and a[hi..stop] into b; of equal elements the right one comes first.
  method Merge(ca: seq<Cls>, a: array<CRef>, b: array<CRef>, lo: nat, hi: nat, stop: nat)
    requires a != b && a.Length == b.Length && Halves(ca, a[..], lo, hi, stop)
    modifies b
    ensures SortedFrom(ca, b[..], lo, stop) && multiset(b[lo..stop]) == multiset(a[lo..stop])
    ensures forall k :: 0 <= k < lo || stop <= k < b.Length ==> b[k] == old(b[k])
  {
    hide SortedFrom, Halves, Merging, Before, Ordered;
    ghost var x, b0 := a[..], b[..];
    var i: nat, j: nat, cur: nat := lo, hi, lo;
    StartMerging(ca, x, b[..], lo, hi, stop);
    while i < hi && j < stop
      invariant a[..] == x && Merging(ca, x, b[..], lo, hi, stop, i, j, cur)
      invariant i <= hi && j <= stop
      invariant forall k :: 0 <= k < lo || stop <= k < b.Length ==> b[k] == b0[k]
      decreases hi - i + stop - j
    {
      MergingBounds(ca, x, b[..], lo, hi, stop, i, j, cur);
      var less := Less(ca[a[i]], ca[a[j]]);
      LessDecides(ca, a[i], a[j]);
      ghost var was := b[..];
      if less {
        b[cur] := a[i];
        Taken(ca, x, was, b[..], lo, hi, stop, i, j, cur, true);
        i := i + 1;
      } else {
        b[cur] := a[j];
        Taken(ca, x, was, b[..], lo, hi, stop, i, j, cur, false);
        j := j + 1;
      }
      cur := cur + 1;
    }
    cur := CopyRest(ca, a, b, lo, hi, stop, i, j, cur, true);
    i := hi;
    cur := CopyRest(ca, a, b, lo, hi, stop, i, j, cur, false);
    MergingDone(ca, x, b[..], lo, hi, stop, cur);
  }

  // Copies what is left of one side.
  method CopyRest(ca: seq<Cls>, a: array<CRef>, b: array<CRef>, lo: nat, hi: nat, stop: nat, i0: nat, j0: nat, cur0: nat, left: bool)
    returns (cur: nat)
    requires a != b && a.Length == b.Length && Halves(ca, a[..], lo, hi, stop)
    requires Merging(ca, a[..], b[..], lo, hi, stop, i0, j0, cur0)
    requires left ==> i0 == hi || j0 == stop
    requires !left ==> i0 == hi
    modifies b
    ensures Merging(ca, a[..], b[..], lo, hi, stop, if left then hi else i0, if left then j0 else stop, cur)
    ensures forall k :: 0 <= k < lo || stop <= k < b.Length ==> b[k] == old(b[k])
  {
    hide SortedFrom, Halves, Merging, Ordered;
    ghost var x, b0 := a[..], b[..];
    var i: nat, j: nat := i0, j0;
    cur := cur0;
    MergingBounds(ca, x, b[..], lo, hi, stop, i, j, cur);
    while if left then i < hi else j < stop
      invariant a[..] == x && Merging(ca, x, b[..], lo, hi, stop, i, j, cur)
      invariant if left then j == j0 && i <= hi && (i == hi || j == stop) else i == i0 && j <= stop
      invariant forall k :: 0 <= k < lo || stop <= k < b.Length ==> b[k] == b0[k]
      decreases hi - i + stop - j
    {
      MergingBounds(ca, x, b[..], lo, hi, stop, i, j, cur);
      ghost var was := b[..];
      b[cur] := a[if left then i else j];
      Taken(ca, x, was, b[..], lo, hi, stop, i, j, cur, left);
      if left { i := i + 1; } else { j := j + 1; }
      cur := cur + 1;
    }
  }

  lemma StartMerging(ca: seq<Cls>, a: seq<CRef>, b: seq<CRef>, lo: nat, hi: nat, stop: nat)
    requires Halves(ca, a, lo, hi, stop) && |a| == |b|
    ensures Merging(ca, a, b, lo, hi, stop, lo, hi, lo)
  {
  }

  lemma MergingBounds(ca: seq<Cls>, a: seq<CRef>, b: seq<CRef>, lo: nat, hi: nat, stop: nat, i: nat, j: nat, cur: nat)
    requires Halves(ca, a, lo, hi, stop) && Merging(ca, a, b, lo, hi, stop, i, j, cur)
    ensures lo <= i <= hi <= j <= stop <= |a| == |b| && lo <= cur && (i < hi || j < stop ==> cur < stop)
    ensures forall k :: 0 <= k < |a| ==> a[k] < |ca|
  {
  }

  lemma LessDecides(ca: seq<Cls>, x: CRef, y: CRef)
    requires x < |ca| && y < |ca|
    ensures if Before(ca[x], ca[y]) then Ordered(ca, x, y) else Ordered(ca, y, x)
  {
    LexAsymmetric(Key(ca[x]), Key(ca[y]));
  }

  lemma MergingDone(ca: seq<Cls>, a: seq<CRef>, b: seq<CRef>, lo: nat, hi: nat, stop: nat, cur: nat)
    requires Merging(ca, a, b, lo, hi, stop, hi, stop, cur)
    ensures SortedFrom(ca, b, lo, stop) && multiset(b[lo..stop]) == multiset(a[lo..stop])
  {
    assert a[lo..stop] == a[lo..hi] + a[hi..stop];
  }

  // ---------- the sort ----------

  lemma TwoRuns(ca: seq<Cls>, a: seq<CRef>, m: nat, s: nat)
    requires s > 0 && 0 < m <= |a| && Known(ca, a) && Runs(ca, a, m, s)
    ensures Halves(ca, a, Clip(m - 2 * s), Clip(m - s), m) && Runs(ca, a, m - 2 * s, s)
  {
  }

  // One pass: stretches of length s become stretches of length 2 * s.
  method Pass(ca: seq<Cls>, a: array<CRef>, b: array<CRef>, s: nat)
    requires a != b && 0 < s < a.Length == b.Length && Known(ca, a[..]) && Runs(ca, a[..], a.Length, s)
    modifies b
    ensures Runs(ca, b[..], b.Length, 2 * s) && multiset(b[..]) == multiset(a[..])
  {
    hide Runs, RunsDown, Halves, SortedFrom, Known;
    ghost var x := a[..];
    var n := a.Length;
    var m := n;
    RunsDownStart(ca, b[..], n, 2 * s);
    while m > 0
      invariant m <= n && a[..] == x && Runs(ca, x, m, s) && RunsDown(ca, b[..], n, m, 2 * s)
      invariant multiset(b[Clip(m)..]) == multiset(x[Clip(m)..])
      decreases Clip(m)
    {
      var stop := m;
      TwoRuns(ca, x, m, s);
      m := m - 2 * s;
      var hi := if m + s > 0 then m + s else 0;
      var lo := if m > 0 then m else 0;
      ghost var was := b[..];
      Merge(ca, a, b, lo, hi, stop);
      NextField(ca, x, was, b[..], n, lo, stop, s);
    }
    assert b[0..] == b[..] && x[0..] == x;
    RunsDownAll(ca, b[..], n, m, 2 * s);
  }

  lemma RunsDownStart(ca: seq<Cls>, b: seq<CRef>, n: nat, s: nat)
    requires s > 0
    ensures RunsDown(ca, b, n, n, s)
  {
  }

  lemma NextField(ca: seq<Cls>, a: seq<CRef>, was: seq<CRef>, b: seq<CRef>, n: nat, lo: nat, stop: nat, s: nat)
    requires s > 0 && |a| == |was| == |b| == n && stop <= n && lo == Clip(stop - 2 * s)
    requires RunsDown(ca, was, n, stop, 2 * s) && SortedFrom(ca, b, lo, stop)
    requires multiset(was[stop..]) == multiset(a[stop..]) && multiset(b[lo..stop]) == multiset(a[lo..stop])
    requires forall k :: stop <= k < n ==> b[k] == was[k]
    ensures RunsDown(ca, b, n, stop - 2 * s, 2 * s) && multiset(b[lo..]) == multiset(a[lo..])
  {
    hide SortedFrom, RunsDown;
    RunsDownFrame(ca, was, b, n, stop, 2 * s);
    RunsDownNext(ca, b, n, stop, 2 * s);
    assert b[stop..] == was[stop..];
    assert b[lo..] == b[lo..stop] + b[stop..] && a[lo..] == a[lo..stop] + a[stop..];
  }

  lemma KnownPermuted(ca: seq<Cls>, x: seq<CRef>, y: seq<CRef>)
    requires Known(ca, x) && multiset(x) == multiset(y)
    ensures Known(ca, y)
  {
    forall i | 0 <= i < |y| ensures y[i] < |ca| {
      assert y[i] in multiset(x);
    }
  }

  // sortClauseLists for one list
  method SortClauseList(ca: seq<Cls>, clauseList: seq<CRef>) returns (r: seq<CRef>)
    requires Known(ca, clauseList)
    ensures multiset(r) == multiset(clauseList) && SortedFrom(ca, r, 0, |r|)
  {
    hide Runs, SortedFrom, Known;
    var n := |clauseList|;
    var a := new CRef[n](i requires 0 <= i < n => clauseList[i]);
    var b := new CRef[n];
    assert a[..] == clauseList;
    SingleRuns(ca, a[..], n);
    var s := 1;
    while s < n
      invariant s > 0 && a != b && a.Length == b.Length == n && fresh(a) && fresh(b)
      invariant Known(ca, a[..]) && Runs(ca, a[..], n, s) && multiset(a[..]) == multiset(clauseList)
    {
      Pass(ca, a, b, s);
      KnownPermuted(ca, a[..], b[..]);
      a, b := b, a;
      s := s + s;
    }
    r := a[..];
    PermutedLength(r, clauseList);
    WholeRun(ca, r, n, s);
  }

  lemma PermutedLength(x: seq<CRef>, y: seq<CRef>)
    requires multiset(x) == multiset(y)
    ensures |x| == |y|
  {
    assert |x| == |multiset(x)| && |y| == |multiset(y)|;
  }

  lemma WholeRun(ca: seq<Cls>, x: seq<CRef>, n: nat, s: nat)
    requires s > 0 && n <= s && |x| == n && Runs(ca, x, n, s)
    ensures SortedFrom(ca, x, 0, n)
  {
  }
}
