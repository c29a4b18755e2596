// The proof checker that follows a proof clause by clause, with two watched literals per
// clause (proofcheck/OnlineProofChecker.h).

module OnlineChecker {
  import opened Collections
  import opened Sat
  import opened Undo
  import opened Formula
  import opened ReverseUnitPropagation

  // ---------- the stored clauses ----------

  ghost function LiveBags(ca: seq<Cls>): set<LitBag> {
    set i | 0 <= i < |ca| && !ca[i].deleted :: multiset(ca[i].lits)
  }

  ghost function UnitBags(units: seq<Lit>): set<LitBag> {
    set u | u in units :: multiset{u}
  }

  // Clauses with at least two literals are in the database, units are kept apart.
  ghost function Stored(ca: seq<Cls>, units: seq<Lit>): set<LitBag> {
    LiveBags(ca) + UnitBags(units)
  }

  ghost predicate LitsBelow(c: seq<Lit>, n: nat) {
    forall l :: l in c ==> l.v < n
  }

  // Live clauses have at least two literals.
  ghost predicate DatabaseOk(ca: seq<Cls>, n: nat) {
    forall i :: 0 <= i < |ca| && !ca[i].deleted ==> |ca[i].lits| > 1 && LitsBelow(ca[i].lits, n)
  }

  // ---------- watches ----------

  datatype Watcher = Watcher(cref: CRef, blocker: Lit, binary: bool)

  type Watches = map<Lit, seq<Watcher>>

  function WatchList(watches: Watches, p: Lit): seq<Watcher> {
    if p in watches then watches[p] else []
  }

  predicate IsWatched(c: Clause, l: Lit) {
    |c| > 1 && (c[0] == l || c[1] == l)
  }

  // How many of the two watched positions hold l.
  function Slots(c: Clause, l: Lit): (r: nat)
    ensures r > 0 <==> IsWatched(c, l)
  {
    if |c| < 2 then 0 else (if c[0] == l then 1 else 0) + if c[1] == l then 1 else 0
  }

  function SlotsAt(ca: seq<Cls>, i: CRef, l: Lit): nat {
    if i < |ca| && !ca[i].deleted then Slots(ca[i].lits, l) else 0
  }

  // The two literals of a binary clause.
  predicate IsPair(c: Clause, a: Lit, b: Lit) {
    |c| == 2 && ((c[0] == a && c[1] == b) || (c[0] == b && c[1] == a))
  }

  // A watcher in the list of p belongs to a live clause; in a binary clause its blocker
  // is the other literal.
  ghost predicate WatcherOk(ca: seq<Cls>, p: Lit, w: Watcher) {
    && w.cref < |ca| && !ca[w.cref].deleted && w.blocker in ca[w.cref].lits
    && (w.binary <==> |ca[w.cref].lits| == 2)
    && (w.binary ==> IsPair(ca[w.cref].lits, Neg(p), w.blocker))
  }

  // How many watchers of clause i are in the list.
  ghost function Count(list: seq<Watcher>, i: CRef): nat {
    if list == [] then 0 else Count(list[..|list| - 1], i) + if list[|list| - 1].cref == i then 1 else 0
  }

  lemma {:induction false} CountConcat(a: seq<Watcher>, b: seq<Watcher>, i: CRef)
    ensures Count(a + b, i) == Count(a, i) + Count(b, i)
  {
    if b == [] {
      assert a + b == a;
    } else {
      var n := |b| - 1;
      assert (a + b)[..|a + b| - 1] == a + b[..n];
      CountConcat(a, b[..n], i);
    }
  }

  lemma CountMiddle(a: seq<Watcher>, w: Watcher, b: seq<Watcher>, i: CRef)
    ensures Count(a + ([w] + b), i) == Count(a, i) + (if w.cref == i then 1 else 0) + Count(b, i)
  {
    CountConcat(a, [w] + b, i);
    CountConcat([w], b, i);
  }

  lemma CountLast(a: seq<Watcher>, w: Watcher, i: CRef)
    ensures Count(a + [w], i) == Count(a, i) + if w.cref == i then 1 else 0
  {
    CountConcat(a, [w], i);
  }

  ghost predicate WatchedIn(list: seq<Watcher>, i: CRef) {
    exists j :: 0 <= j < |list| && list[j].cref == i
  }

  lemma {:induction false} CountIn(list: seq<Watcher>, i: CRef)
    ensures Count(list, i) > 0 <==> WatchedIn(list, i)
  {
    if list != [] {
      var front, n := list[..|list| - 1], |list| - 1;
      CountIn(front, i);
      if WatchedIn(front, i) {
        var j :| 0 <= j < n && front[j].cref == i;
        assert list[j].cref == i;
      } else if WatchedIn(list, i) {
        var j :| 0 <= j < |list| && list[j].cref == i;
        if j < n { assert front[j].cref == i; }
      }
    }
  }

  ghost predicate ListOk(ca: seq<Cls>, p: Lit, list: seq<Watcher>) {
    && (forall j :: 0 <= j < |list| ==> WatcherOk(ca, p, list[j]))
    && (forall i: CRef :: Count(list, i) == SlotsAt(ca, i, Neg(p)))
  }

  // Every live clause is in the lists of its first two literals, twice if they are equal,
  // and the lists hold nothing else.
  ghost predicate WatchesOk(ca: seq<Cls>, watches: Watches) {
    forall p :: ListOk(ca, p, WatchList(watches, p))
  }

  // ---------- the assignment ----------

  function ValueOf(assigns: seq<LBool>, l: Lit): LBool
    requires l.v < |assigns|
  {
    if assigns[l.v] == Undef then Undef else if (assigns[l.v] == True) != l.neg then True else False
  }

  ghost predicate AssignsOk(assigns: seq<LBool>, trail: seq<Lit>) {
    && LitsBelow(trail, |assigns|) && NoDup(trail)
    && (forall l: Lit :: l.v < |assigns| ==> (l in trail <==> ValueOf(assigns, l) == True))
  }

  lemma AssignsConsistent(assigns: seq<LBool>, trail: seq<Lit>)
    requires AssignsOk(assigns, trail)
    ensures Consistent(trail)
    ensures forall l: Lit :: l.v < |assigns| ==> (Neg(l) in trail <==> ValueOf(assigns, l) == False)
  {
    forall l: Lit | l.v < |assigns| ensures Neg(l) in trail <==> ValueOf(assigns, l) == False {
      assert Neg(l).v == l.v;
    }
  }

  function Assigned(assigns: seq<LBool>, p: Lit): (r: seq<LBool>)
    requires p.v < |assigns|
    ensures |r| == |assigns|
  {
    assigns[p.v := if p.neg then False else True]
  }

  lemma AssignOne(assigns: seq<LBool>, trail: seq<Lit>, p: Lit)
    requires AssignsOk(assigns, trail) && p.v < |assigns| && ValueOf(assigns, p) == Undef
    ensures AssignsOk(Assigned(assigns, p), trail + [p])
    ensures Room(Assigned(assigns, p), trail + [p]) == Room(assigns, trail)
  {
    var now := Assigned(assigns, p);
    forall l: Lit | l.v < |now| ensures l in trail + [p] <==> ValueOf(now, l) == True {
      if l.v == p.v { assert l == p || l == Neg(p); }
      assert l in trail + [p] <==> l in trail || l == p;
    }
    FreeSplit(assigns, p.v);
    FreeSplit(now, p.v);
    assert now[..p.v] == assigns[..p.v] && now[p.v + 1..] == assigns[p.v + 1..];
  }

  // Every enqueued literal uses up a free variable.
  ghost function Room(assigns: seq<LBool>, trail: seq<Lit>): nat {
    |trail| + FreeVars(assigns)
  }

  ghost function FreeVars(assigns: seq<LBool>): nat {
    if assigns == [] then 0 else (if assigns[0] == Undef then 1 else 0) + FreeVars(assigns[1..])
  }

  lemma {:induction false} FreeSplit(assigns: seq<LBool>, i: nat)
    requires i < |assigns|
    ensures FreeVars(assigns) == FreeVars(assigns[..i]) + (if assigns[i] == Undef then 1 else 0) + FreeVars(assigns[i + 1..])
  {
    if i > 0 {
      FreeSplit(assigns[1..], i - 1);
      assert assigns[1..][..i - 1] == assigns[..i][1..];
      assert assigns[1..][i..] == assigns[i + 1..];
    }
  }

  // ---------- swapping literals inside a clause ----------

  lemma SwapLitsSame(c: Clause, i: nat, j: nat)
    requires i < |c| && j < |c|
    ensures multiset(Swapped(c, i, j)) == multiset(c)
    ensures forall l :: l in Swapped(c, i, j) <==> l in c
  {
    SwapMultiset(c, i, j);
    forall l ensures l in Swapped(c, i, j) <==> l in c {
      assert l in multiset(Swapped(c, i, j)) <==> l in multiset(c);
    }
  }

  // The same clause with its literals in another order.
  lemma ReorderKeeps(ca: seq<Cls>, i: CRef, c: Clause, n: nat, units: seq<Lit>)
    requires i < |ca| && !ca[i].deleted && multiset(c) == multiset(ca[i].lits) && |c| == |ca[i].lits|
    requires DatabaseOk(ca, n) && forall l :: l in c <==> l in ca[i].lits
    ensures DatabaseOk(ca[i := Cls(c, false)], n) && Stored(ca[i := Cls(c, false)], units) == Stored(ca, units)
  {
    var cb := ca[i := Cls(c, false)];
    forall d | d in LiveBags(ca) ensures d in LiveBags(cb) {
      var k :| 0 <= k < |ca| && !ca[k].deleted && d == multiset(ca[k].lits);
      assert d == multiset(cb[k].lits) && !cb[k].deleted;
    }
    forall d | d in LiveBags(cb) ensures d in LiveBags(ca) {
      var k :| 0 <= k < |cb| && !cb[k].deleted && d == multiset(cb[k].lits);
      assert d == multiset(ca[k].lits) && !ca[k].deleted;
    }
  }

  // ---------- one watcher of the long pass ----------

  // Reordering a clause behind its watched literals, or exchanging the two, changes no list.
  lemma ReorderWatches(ca: seq<Cls>, i: CRef, c: Clause, watches: Watches)
    requires WatchesOk(ca, watches) && i < |ca| && !ca[i].deleted && |c| == |ca[i].lits| > 2
    requires forall l :: l in c <==> l in ca[i].lits
    requires forall l :: Slots(c, l) == Slots(ca[i].lits, l)
    ensures WatchesOk(ca[i := Cls(c, false)], watches)
  {
    hide Slots;
    var cb := ca[i := Cls(c, false)];
    forall p ensures ListOk(cb, p, WatchList(watches, p)) {
      assert ListOk(ca, p, WatchList(watches, p));
      forall k: CRef ensures SlotsAt(cb, k, Neg(p)) == SlotsAt(ca, k, Neg(p)) {}
      forall j | 0 <= j < |WatchList(watches, p)| ensures WatcherOk(cb, p, WatchList(watches, p)[j]) {
        assert WatcherOk(ca, p, WatchList(watches, p)[j]);
      }
    }
  }

  // The blocking literal of a long clause may be any of its literals.
  lemma NewBlocker(ca: seq<Cls>, watches: Watches, p: Lit, kept: seq<Watcher>, w: Watcher, rest: seq<Watcher>, b: Lit)
    requires WatchesOk(ca, watches[p := kept + ([w] + rest)]) && !w.binary
    requires w.cref < |ca| && b in ca[w.cref].lits
    ensures WatchesOk(ca, watches[p := kept + ([w.(blocker := b)] + rest)])
  {
    var was, now := watches[p := kept + ([w] + rest)], watches[p := kept + ([w.(blocker := b)] + rest)];
    var l0, l1 := kept + ([w] + rest), kept + ([w.(blocker := b)] + rest);
    assert forall k :: 0 <= k < |l0| ==> l1[k] == if k == |kept| then w.(blocker := b) else l0[k];
    assert ListOk(ca, p, WatchList(was, p));
    assert l0[|kept|] == w;
    forall i: CRef ensures Count(l1, i) == Count(l0, i) {
      CountMiddle(kept, w, rest, i);
      CountMiddle(kept, w.(blocker := b), rest, i);
    }
    forall q ensures ListOk(ca, q, WatchList(now, q)) {
      assert ListOk(ca, q, WatchList(was, q));
    }
  }

  // c is d with its second literal, l, exchanged for a later one.
  ghost predicate Rewatched(d: Clause, c: Clause, l: Lit, other: Lit) {
    && |c| == |d| > 2 && (forall x :: x in c <==> x in d)
    && c[0] == d[0] && d[1] == l && c[1] == other && other != l
  }

  lemma RewatchedLits(d: Clause, c: Clause, l: Lit, other: Lit, x: Lit)
    requires Rewatched(d, c, l, other)
    ensures Slots(c, x) == Slots(d, x) + (if x == other then 1 else 0) - if x == l then 1 else 0
    ensures IsWatched(c, x) ==> x == other || IsWatched(d, x)
  {
  }

  function Moved(watches: Watches, p: Lit, left: seq<Watcher>, q: Lit, w: Watcher): Watches {
    watches[q := WatchList(watches, q) + [w]][p := left]
  }

  // Watchers are not affected by what happens to the order of a long clause.
  lemma WatcherStays(ca: seq<Cls>, cr: CRef, c: Clause, p: Lit, w: Watcher)
    requires cr < |ca| && !ca[cr].deleted && |c| == |ca[cr].lits| > 2 && (forall x :: x in c <==> x in ca[cr].lits)
    requires WatcherOk(ca, p, w)
    ensures WatcherOk(ca[cr := Cls(c, false)], p, w)
  {
  }

  // The clause leaves the list of p and joins the list of its new watch.
  lemma MoveWatch(ca: seq<Cls>, watches: Watches, p: Lit, kept: seq<Watcher>, w: Watcher, rest: seq<Watcher>, c: Clause, other: Lit)
    requires WatchesOk(ca, watches[p := kept + ([w] + rest)])
    requires w.cref < |ca| && Rewatched(ca[w.cref].lits, c, Neg(p), other) && !ca[w.cref].deleted
    ensures Neg(other) != p
    ensures WatchesOk(ca[w.cref := Cls(c, false)], Moved(watches, p, kept + rest, Neg(other), Watcher(w.cref, c[0], false)))
  {
    var cb, q, w' := ca[w.cref := Cls(c, false)], Neg(other), Watcher(w.cref, c[0], false);
    var was, now := watches[p := kept + ([w] + rest)], Moved(watches, p, kept + rest, q, w');
    assert Neg(Neg(p)) == p && Neg(Neg(q)) == q;
    forall r ensures ListOk(cb, r, WatchList(now, r)) {
      assert ListOk(ca, r, WatchList(was, r));
      forall i: CRef ensures Count(WatchList(now, r), i) == SlotsAt(cb, i, Neg(r)) {
        MoveCount(ca, watches, p, kept, w, rest, c, other, r, i);
      }
      MoveOk(ca, watches, p, kept, w, rest, c, other, r);
    }
  }

  lemma MoveCount(ca: seq<Cls>, watches: Watches, p: Lit, kept: seq<Watcher>, w: Watcher, rest: seq<Watcher>, c: Clause, other: Lit,
      r: Lit, i: CRef)
    requires w.cref < |ca| && Rewatched(ca[w.cref].lits, c, Neg(p), other) && !ca[w.cref].deleted
    requires ListOk(ca, r, WatchList(watches[p := kept + ([w] + rest)], r))
    ensures Count(WatchList(Moved(watches, p, kept + rest, Neg(other), Watcher(w.cref, c[0], false)), r), i)
      == SlotsAt(ca[w.cref := Cls(c, false)], i, Neg(r))
  {
    RewatchedOther(ca[w.cref].lits, c, Neg(p), other);
    var was := WatchList(watches[p := kept + ([w] + rest)], r);
    assert Count(was, i) == SlotsAt(ca, i, Neg(r));
    SlotsMoved(ca, w.cref, c, Neg(p), other, i, Neg(r));
    hide *;
    assert Neg(Neg(p)) == p && Neg(Neg(r)) == r && Neg(Neg(other)) == other by { DoubleNeg(p); DoubleNeg(r); DoubleNeg(other); }
    MovedCount(watches, p, kept, w, rest, Neg(other), Watcher(w.cref, c[0], false), r, i);
  }

  lemma DoubleNeg(l: Lit)
    ensures Neg(Neg(l)) == l
  {
  }

  lemma SlotsMoved(ca: seq<Cls>, cr: CRef, c: Clause, l: Lit, other: Lit, i: CRef, x: Lit)
    requires cr < |ca| && Rewatched(ca[cr].lits, c, l, other) && !ca[cr].deleted
    ensures SlotsAt(ca[cr := Cls(c, false)], i, x)
      == SlotsAt(ca, i, x) + if i != cr then 0 else (if x == other then 1 else 0) - if x == l then 1 else 0
  {
    RewatchedLits(ca[cr].lits, c, l, other, x);
    hide Rewatched, Slots;
  }

  lemma MovedCount(watches: Watches, p: Lit, kept: seq<Watcher>, w: Watcher, rest: seq<Watcher>, q: Lit, w': Watcher, r: Lit, i: CRef)
    requires q != p && w'.cref == w.cref
    ensures Count(WatchList(Moved(watches, p, kept + rest, q, w'), r), i)
      == Count(WatchList(watches[p := kept + ([w] + rest)], r), i)
         + if i != w.cref then 0 else (if r == q then 1 else 0) - if r == p then 1 else 0
  {
    hide Count;
    CountMiddle(kept, w, rest, i);
    CountConcat(kept, rest, i);
    CountLast(WatchList(watches, q), w', i);
  }

  lemma RewatchedOther(d: Clause, c: Clause, l: Lit, other: Lit)
    requires Rewatched(d, c, l, other)
    ensures other != l && |c| > 2
  {
  }

  lemma MoveOk(ca: seq<Cls>, watches: Watches, p: Lit, kept: seq<Watcher>, w: Watcher, rest: seq<Watcher>, c: Clause, other: Lit, r: Lit)
    requires w.cref < |ca| && Rewatched(ca[w.cref].lits, c, Neg(p), other) && !ca[w.cref].deleted
    requires ListOk(ca, r, WatchList(watches[p := kept + ([w] + rest)], r))
    ensures var list := WatchList(Moved(watches, p, kept + rest, Neg(other), Watcher(w.cref, c[0], false)), r);
      forall j :: 0 <= j < |list| ==> WatcherOk(ca[w.cref := Cls(c, false)], r, list[j])
  {
    hide Slots, Count;
    var cb, w' := ca[w.cref := Cls(c, false)], Watcher(w.cref, c[0], false);
    var l0, l1 := WatchList(watches[p := kept + ([w] + rest)], r), WatchList(Moved(watches, p, kept + rest, Neg(other), w'), r);
    forall j | 0 <= j < |l1| ensures WatcherOk(cb, r, l1[j]) {
      hide WatcherOk;
      if r == p {
        var k := if j < |kept| then j else j + 1;
        assert l1[j] == l0[k];
        WatcherStays(ca, w.cref, c, r, l0[k]);
      } else if j < |l0| {
        assert l1[j] == l0[j];
        WatcherStays(ca, w.cref, c, r, l0[j]);
      } else {
        assert l1[j] == w';
        NewWatcherOk(ca, w.cref, c, r);
      }
    }
  }

  lemma NewWatcherOk(ca: seq<Cls>, cr: CRef, c: Clause, r: Lit)
    requires cr < |ca| && |c| > 2
    ensures WatcherOk(ca[cr := Cls(c, false)], r, Watcher(cr, c[0], false))
  {
  }

  // ---------- what propagation has achieved ----------

  // Clauses of which a watched literal has been propagated as false are satisfied.
  ghost predicate Done(ca: seq<Cls>, trail: seq<Lit>, done: seq<Lit>) {
    forall i, l :: 0 <= i < |ca| && !ca[i].deleted && IsWatched(ca[i].lits, l) && Neg(l) in done ==>
      SomeTrue(multiset(ca[i].lits), trail)
  }

  // Only the order of literals has changed.
  ghost predicate SameClauses(was: seq<Cls>, ca: seq<Cls>) {
    |was| == |ca| && forall i :: 0 <= i < |ca| ==>
      && ca[i].deleted == was[i].deleted && multiset(ca[i].lits) == multiset(was[i].lits) && |ca[i].lits| == |was[i].lits|
  }

  lemma SomeTrueLater(d: LitBag, t: seq<Lit>, t': seq<Lit>)
    requires SomeTrue(d, t) && t <= t'
    ensures SomeTrue(d, t')
  {
    var x :| x in d && x in t;
    assert x in t';
  }

  lemma DoneLater(ca: seq<Cls>, t: seq<Lit>, t': seq<Lit>, done: seq<Lit>)
    requires Done(ca, t, done) && t <= t'
    ensures Done(ca, t', done)
  {
    hide SomeTrue, IsWatched;
    forall i, l | 0 <= i < |ca| && !ca[i].deleted && IsWatched(ca[i].lits, l) && Neg(l) in done
      ensures SomeTrue(multiset(ca[i].lits), t')
    {
      SomeTrueLater(multiset(ca[i].lits), t, t');
    }
  }

  // A reordered clause that watches no new false literal.
  lemma DoneReorder(ca: seq<Cls>, i: CRef, c: Clause, t: seq<Lit>, done: seq<Lit>)
    requires Done(ca, t, done) && i < |ca| && !ca[i].deleted && multiset(c) == multiset(ca[i].lits)
    requires forall l :: IsWatched(c, l) && Neg(l) in done ==> IsWatched(ca[i].lits, l)
    ensures Done(ca[i := Cls(c, false)], t, done)
  {
    hide SomeTrue, IsWatched;
  }

  ghost predicate Progress(ca: seq<Cls>, units: seq<Lit>, assigns: seq<LBool>, trail: seq<Lit>, B: set<LitBag>, a: seq<Lit>) {
    && DatabaseOk(ca, |assigns|) && LitsBelow(units, |assigns|) && AssignsOk(assigns, trail)
    && Stored(ca, units) == B && a <= trail && Derivation(B, |a|, trail)
  }

  lemma ProgressForced(ca: seq<Cls>, units: seq<Lit>, assigns: seq<LBool>, trail: seq<Lit>, B: set<LitBag>, a: seq<Lit>, p: Lit)
    requires Progress(ca, units, assigns, trail, B, a) && Forced(B, trail, p)
    requires p.v < |assigns| && ValueOf(assigns, p) == Undef
    ensures Progress(ca, units, Assigned(assigns, p), trail + [p], B, a)
    ensures Room(Assigned(assigns, p), trail + [p]) == Room(assigns, trail)
  {
    AssignOne(assigns, trail, p);
    ExtendDerivation(B, |a|, trail, p);
    assert forall l :: l in units ==> l.v < |Assigned(assigns, p)|;
  }

  lemma StoredClause(ca: seq<Cls>, units: seq<Lit>, i: CRef)
    requires i < |ca| && !ca[i].deleted
    ensures multiset(ca[i].lits) in Stored(ca, units)
  {
  }

  // All literals of a stored clause but the one at position k are false.
  lemma ClauseForces(ca: seq<Cls>, units: seq<Lit>, assigns: seq<LBool>, trail: seq<Lit>, B: set<LitBag>, a: seq<Lit>, i: CRef, k: nat)
    requires Progress(ca, units, assigns, trail, B, a) && i < |ca| && !ca[i].deleted && k < |ca[i].lits|
    requires forall n :: 0 <= n < |ca[i].lits| && n != k ==>
      ca[i].lits[n].v < |assigns| && ValueOf(assigns, ca[i].lits[n]) == False
    ensures ca[i].lits[k].v < |assigns|
    ensures ValueOf(assigns, ca[i].lits[k]) != False ==> Forced(B, trail, ca[i].lits[k])
    ensures ValueOf(assigns, ca[i].lits[k]) == False ==> SomeFalsified(B, trail)
  {
    var c := ca[i].lits;
    var d, l := multiset(c), c[k];
    assert l in c;
    StoredClause(ca, units, i);
    AssignsConsistent(assigns, trail);
    forall x | x in d && x != l ensures Neg(x) in trail {
      assert x in c;
    }
    if ValueOf(assigns, l) == False {
      assert Falsified(d, trail);
    } else {
      OneCopy(c, k);
      assert Forces(d, trail, l);
    }
  }

  lemma OneCopy(c: Clause, k: nat)
    requires k < |c| && forall n :: 0 <= n < |c| && n != k ==> c[n] != c[k]
    ensures multiset(c)[c[k]] == 1
  {
    assert c == c[..k] + [c[k]] + c[k + 1..];
    assert c[k] !in c[..k] && c[k] !in c[k + 1..];
  }

  lemma TwoCopies(c: Clause)
    requires |c| > 1
    ensures multiset(c)[c[0]] > 0 && multiset(c)[c[1]] > 0 && (c[0] == c[1] ==> multiset(c)[c[0]] > 1)
  {
    assert c == [c[0]] + [c[1]] + c[2..];
  }

  lemma ReorderProgress(ca: seq<Cls>, units: seq<Lit>, assigns: seq<LBool>, trail: seq<Lit>, B: set<LitBag>, a: seq<Lit>, i: CRef, c: Clause)
    requires Progress(ca, units, assigns, trail, B, a) && i < |ca| && !ca[i].deleted
    requires multiset(c) == multiset(ca[i].lits) && |c| == |ca[i].lits| && forall l :: l in c <==> l in ca[i].lits
    ensures Progress(ca[i := Cls(c, false)], units, assigns, trail, B, a)
    ensures SameClauses(ca, ca[i := Cls(c, false)])
  {
    ReorderKeeps(ca, i, c, |assigns|, units);
  }

  // What is known at the end of a propagation without conflict.
  lemma PropagationClosed(ca: seq<Cls>, units: seq<Lit>, assigns: seq<LBool>, trail: seq<Lit>, B: set<LitBag>, a: seq<Lit>)
    requires Progress(ca, units, assigns, trail, B, a) && Done(ca, trail, trail) && forall u :: u in units ==> u in trail
    ensures Closed(B, trail) && !UnitConflict(B, a)
  {
    forall d | d in B ensures SomeTrue(d, trail) || TwoFree(d, trail) {
      if d in UnitBags(units) {
        var u :| u in units && d == multiset{u};
        assert u in d;
      } else {
        var i :| 0 <= i < |ca| && !ca[i].deleted && d == multiset(ca[i].lits);
        var c := ca[i].lits;
        TwoCopies(c);
        assert IsWatched(c, c[0]) && IsWatched(c, c[1]);
      }
    }
    AssignsConsistent(assigns, trail);
    forall x | x in a ensures x in trail {
      var k :| 0 <= k < |a| && a[k] == x;
      assert trail[k] == x;
    }
    ClosedNoConflict(B, a, trail);
  }

  lemma ConflictFound(B: set<LitBag>, a: seq<Lit>, trail: seq<Lit>)
    requires a <= trail && Derivation(B, |a|, trail) && SomeFalsified(B, trail)
    ensures UnitConflict(B, a)
  {
  }

  class OnlineProofChecker {
    var ok: bool                  // no empty clause so far
    const drat: bool              // the format: DRAT, or else DRUP
    var ca: seq<Cls>
    var unitClauses: seq<Lit>
    var occ: Occs
    var watches: Watches
    var trail: seq<Lit>
    var qhead: nat
    var assigns: seq<LBool>

    ghost var parsed: set<LitBag>  // the input formula
    ghost var ratUsed: bool        // a clause was accepted that does not follow
    ghost var clean: bool          // and nothing has invalidated such a clause

    // What the accepted clauses have to do with the input formula.
    ghost predicate History()
      reads this
    {
      && (!ratUsed ==> clean && Follows(parsed, Formula()))
      && (!drat ==> !ratUsed)
      && (clean ==> (HasModel(parsed) ==> HasModel(Formula())))
    }

    // The clauses that count as derived; a checker that is not ok has the empty clause.
    ghost function Formula(): set<LitBag>
      reads `ca, `unitClauses, `ok
    {
      Stored(ca, unitClauses) + if ok then {} else {multiset{}}
    }

    ghost predicate Structures()
      reads `ca, `watches, `occ, `unitClauses, `assigns, `trail
    {
      && DatabaseOk(ca, |assigns|) && WatchesOk(ca, watches) && OccExact(ca, occ)
      && LitsBelow(unitClauses, |assigns|) && AssignsOk(assigns, trail)
    }

    ghost predicate Valid()
      reads this
    {
      Structures() && History()
    }

    constructor (dratProof: bool)
      ensures Valid() && ok && drat == dratProof && parsed == {} && Formula() == {} && !ratUsed
    {
      ok, drat, ca, unitClauses, occ, watches := true, dratProof, [], [], map[], map[];
      trail, qhead, assigns, parsed, ratUsed, clean := [], 0, [], {}, false, true;
    }

    // ---------- variables ----------

    // newVar, until all variables of the clause exist.
    method NewVars(cls: Clause)
      requires Structures()
      modifies `assigns
      ensures Structures() && LitsBelow(cls, |assigns|) && old(assigns) <= assigns
    {
      var i := 0;
      while i < |cls|
        invariant 0 <= i <= |cls| && Structures() && old(assigns) <= assigns && LitsBelow(cls[..i], |assigns|)
      {
        while |assigns| <= cls[i].v
          invariant Structures() && old(assigns) <= assigns && LitsBelow(cls[..i], |assigns|)
          decreases cls[i].v + 1 - |assigns|
        {
          MoreVars(ca, unitClauses, assigns, trail);
          assigns := assigns + [Undef];
        }
        assert cls[..i + 1] == cls[..i] + [cls[i]];
        i := i + 1;
      }
      assert cls[..i] == cls;
    }

    method CancelUntil()
      requires AssignsOk(assigns, trail)
      modifies `assigns, `trail, `qhead
      ensures AssignsOk(assigns, trail) && trail == [] && qhead == 0 && |assigns| == |old(assigns)|
    {
      var c := |trail|;
      while c > 0
        invariant 0 <= c <= |trail| && |assigns| == |old(assigns)| && AssignsOk(assigns, trail[..c])
      {
        c := c - 1;
        UnassignOne(assigns, trail[..c + 1]);
        assert trail[..c + 1][..c] == trail[..c];
        assigns := assigns[trail[c].v := Undef];
      }
      qhead := 0;
      trail := [];
      assert trail == trail[..0];
    }

    // ---------- propagate ----------

    ghost predicate Propagating(B: set<LitBag>, a: seq<Lit>)
      reads `ca, `unitClauses, `assigns, `trail
    {
      Progress(ca, unitClauses, assigns, trail, B, a)
    }

    method UncheckedEnqueue(p: Lit, ghost B: set<LitBag>, ghost a: seq<Lit>)
      requires Propagating(B, a) && p.v < |assigns| && ValueOf(assigns, p) == Undef && Forced(B, trail, p)
      modifies `trail, `assigns
      ensures Propagating(B, a) && trail == old(trail) + [p] && |assigns| == |old(assigns)|
      ensures Room(assigns, trail) == old(Room(assigns, trail))
    {
      ProgressForced(ca, unitClauses, assigns, trail, B, a, p);
      assigns := Assigned(assigns, p);
      trail := trail + [p];
    }

    // Stored unit clauses come first.
    method PropagateUnits(ghost B: set<LitBag>, ghost a: seq<Lit>) returns (conflict: bool)
      requires Propagating(B, a)
      modifies `trail, `assigns
      ensures Propagating(B, a) && |assigns| == |old(assigns)| && Room(assigns, trail) == old(Room(assigns, trail))
      ensures conflict ==> SomeFalsified(B, trail)
      ensures !conflict ==> forall u :: u in unitClauses ==> u in trail
    {
      hide Progress, Forced, SomeFalsified;
      var i := 0;
      while i < |unitClauses|
        invariant 0 <= i <= |unitClauses| && Propagating(B, a) && |assigns| == |old(assigns)|
        invariant Room(assigns, trail) == old(Room(assigns, trail))
        invariant forall k :: 0 <= k < i ==> unitClauses[k] in trail
      {
        var l := unitClauses[i];
        UnitFacts(ca, unitClauses, assigns, trail, B, a, l);
        if ValueOf(assigns, l) == True {
        } else if ValueOf(assigns, l) == False {
          return true;
        } else {
          UncheckedEnqueue(l, B, a);
        }
        i := i + 1;
      }
      conflict := false;
    }

    // The first pass over the list of p: binary clauses.
    method PropagateBinary(p: Lit, ghost B: set<LitBag>, ghost a: seq<Lit>) returns (conflict: bool)
      requires Propagating(B, a) && WatchesOk(ca, watches) && p in trail
      modifies `trail, `assigns
      ensures Propagating(B, a) && |assigns| == |old(assigns)| && old(trail) <= trail
      ensures Room(assigns, trail) == old(Room(assigns, trail))
      ensures conflict ==> SomeFalsified(B, trail)
      ensures !conflict ==> forall w :: w in WatchList(watches, p) && w.binary ==> w.blocker in trail
    {
      hide Progress, WatcherOk, Forced;
      var wbin := WatchList(watches, p);
      assert ListOk(ca, p, wbin);
      var k := 0;
      while k < |wbin|
        invariant 0 <= k <= |wbin| && Propagating(B, a) && |assigns| == |old(assigns)| && old(trail) <= trail
        invariant Room(assigns, trail) == old(Room(assigns, trail))
        invariant forall n :: 0 <= n < k && wbin[n].binary ==> wbin[n].blocker in trail
      {
        if wbin[k].binary {
          var imp := wbin[k].blocker;
          BinaryFacts(ca, unitClauses, assigns, trail, B, a, p, wbin[k]);
          if ValueOf(assigns, imp) == False {
            return true;
          }
          if ValueOf(assigns, imp) == Undef {
            UncheckedEnqueue(imp, B, a);
          }
        }
        k := k + 1;
      }
      conflict := false;
    }

    // What the second pass keeps while it works on the list of p: the entries before the
    // current one have been handled, rest is still to come.
    ghost predicate LongPass(B: set<LitBag>, a: seq<Lit>, p: Lit, list: seq<Watcher>, done: seq<Lit>)
      reads `ca, `unitClauses, `assigns, `trail, `watches
    {
      && Propagating(B, a) && WatchesOk(ca, watches[p := list]) && p in trail
      && Done(ca, trail, done) && forall l :: l in done ==> l in trail
    }

    // Makes ~p the second literal of the clause.
    method OrderWatches(p: Lit, w: Watcher, ghost kept: seq<Watcher>, ghost rest: seq<Watcher>, ghost B: set<LitBag>,
        ghost a: seq<Lit>, ghost done: seq<Lit>)
      requires LongPass(B, a, p, kept + ([w] + rest), done) && !w.binary
      modifies `ca
      ensures LongPass(B, a, p, kept + ([w] + rest), done) && SameClauses(old(ca), ca)
      ensures w.cref < |ca| && !ca[w.cref].deleted && |ca[w.cref].lits| > 2
      ensures ca[w.cref].lits[1] == Neg(p) && LitsBelow(ca[w.cref].lits, |assigns|) && w.blocker in ca[w.cref].lits
    {
      WatcherHere(ca, watches, p, kept, w, rest);
      DatabaseAt(ca, |assigns|, w.cref);
      var c := ca[w.cref].lits;
      if c[0] == Neg(p) {
        var d := Swapped(c, 0, 1);
        SwapLitsSame(c, 0, 1);
        ReorderProgress(ca, unitClauses, assigns, trail, B, a, w.cref, d);
        ReorderWatches(ca, w.cref, d, watches[p := kept + ([w] + rest)]);
        DoneReorder(ca, w.cref, d, trail, done);
        ca := ca[w.cref := Cls(d, false)];
      }
    }

    // The first literal from position 2 on that is not false.
    method FindNewWatch(c: Clause) returns (k: nat)
      requires |c| > 1 && LitsBelow(c, |assigns|)
      ensures 2 <= k <= |c| && (k < |c| ==> ValueOf(assigns, c[k]) != False)
      ensures forall n :: 2 <= n < k ==> ValueOf(assigns, c[n]) == False
    {
      k := 2;
      while k < |c|
        invariant 2 <= k <= |c| && forall n :: 2 <= n < k ==> ValueOf(assigns, c[n]) == False
      {
        if ValueOf(assigns, c[k]) != False { return; }
        k := k + 1;
      }
    }

    // Exchanges ~p for literal k and moves the watcher.
    method Rewatch(p: Lit, w: Watcher, k: nat, ghost kept: seq<Watcher>, ghost rest: seq<Watcher>, ghost B: set<LitBag>,
        ghost a: seq<Lit>, ghost done: seq<Lit>)
      requires LongPass(B, a, p, kept + ([w] + rest), done)
      requires w.cref < |ca| && !ca[w.cref].deleted && |ca[w.cref].lits| > 2
      requires ca[w.cref].lits[1] == Neg(p) && LitsBelow(ca[w.cref].lits, |assigns|)
      requires 2 <= k < |ca[w.cref].lits| && ValueOf(assigns, ca[w.cref].lits[k]) != False
      modifies `ca, `watches
      ensures LongPass(B, a, p, kept + rest, done) && SameClauses(old(ca), ca)
    {
      var c := ca[w.cref].lits;
      var d := Swapped(c, 1, k);
      SwapLitsSame(c, 1, k);
      assert Rewatched(c, d, Neg(p), d[1]);
      ReorderProgress(ca, unitClauses, assigns, trail, B, a, w.cref, d);
      MoveWatch(ca, watches, p, kept, w, rest, d, d[1]);
      NewWatchFree(assigns, trail, d[1], done);
      DoneRewatched(ca, w.cref, d, Neg(p), trail, done);
      ca := ca[w.cref := Cls(d, false)];
      watches := watches[Neg(d[1]) := WatchList(watches, Neg(d[1])) + [Watcher(w.cref, d[0], false)]];
    }

    // The clause is not satisfied by its blocker: look at its other literals.
    method InspectClause(p: Lit, w: Watcher, kept: seq<Watcher>, ghost rest: seq<Watcher>, ghost B: set<LitBag>,
        ghost a: seq<Lit>, ghost done: seq<Lit>)
      returns (kept': seq<Watcher>, conflict: bool)
      requires LongPass(B, a, p, kept + ([w] + rest), done) && !w.binary && w.cref < |ca| && !ca[w.cref].deleted
      requires |ca[w.cref].lits| > 2
      requires ca[w.cref].lits[1] == Neg(p) && LitsBelow(ca[w.cref].lits, |assigns|)
      requires w.blocker in ca[w.cref].lits && ValueOf(assigns, w.blocker) != True
      modifies `ca, `watches, `trail, `assigns
      ensures LongPass(B, a, p, kept' + rest, done) && SameClauses(old(ca), ca)
      ensures |assigns| == |old(assigns)| && old(trail) <= trail && Room(assigns, trail) == old(Room(assigns, trail))
      ensures conflict ==> SomeFalsified(B, trail)
      ensures kept' == kept || (exists w': Watcher :: w'.cref == w.cref && kept' == kept + [w'])
      ensures kept' != kept && !conflict ==> SomeTrue(multiset(ca[w.cref].lits), trail)
    {
      hide WatchesOk, Done, Progress, Stored;
      conflict := false;
      SameRefl(ca);
      var first := ca[w.cref].lits[0];
      ghost var c := ca[w.cref].lits;
      assert first.v < |assigns|;
      var w' := w.(blocker := first);
      NewBlocker(ca, watches, p, kept, w, rest, first);
      Shift(kept, w', rest);
      LongFacts(ca, unitClauses, assigns, trail, B, a, p, w.cref);
      if first != w.blocker && ValueOf(assigns, first) == True {
        kept' := kept + [w'];
        TrueAt(c, trail, first);
        return;
      }
      var k := FindNewWatch(ca[w.cref].lits);
      if k < |ca[w.cref].lits| {
        Rewatch(p, w, k, kept, rest, B, a, done);
        kept' := kept;
      } else {
        kept' := kept + [w'];
        if ValueOf(assigns, first) == False {
          conflict := true;
        } else {
          ghost var trail0 := trail;
          UncheckedEnqueue(first, B, a);
          DoneLater(ca, trail0, trail, done);
          assert trail[|trail0|] == first;
          TrueAt(c, trail, first);
        }
      }
    }

    // One long clause of the list of p. Its watcher is kept, moved to another list, or
    // shows a unit or false clause.
    method PropagateLong(p: Lit, w: Watcher, kept: seq<Watcher>, ghost rest: seq<Watcher>, ghost B: set<LitBag>,
        ghost a: seq<Lit>, ghost done: seq<Lit>)
      returns (kept': seq<Watcher>, conflict: bool)
      requires LongPass(B, a, p, kept + ([w] + rest), done) && !w.binary
      modifies `ca, `watches, `trail, `assigns
      ensures LongPass(B, a, p, kept' + rest, done) && SameClauses(old(ca), ca)
      ensures |assigns| == |old(assigns)| && old(trail) <= trail && Room(assigns, trail) == old(Room(assigns, trail))
      ensures conflict ==> SomeFalsified(B, trail)
      ensures kept' == kept || (exists w': Watcher :: w'.cref == w.cref && kept' == kept + [w'])
      ensures w.cref < |ca| && (kept' != kept && !conflict ==> SomeTrue(multiset(ca[w.cref].lits), trail))
    {
      hide WatchesOk, Done, Progress, Stored, SameClauses;
      WatcherHere(ca, watches, p, kept, w, rest);
      BlockerFacts(ca, unitClauses, assigns, trail, B, a, p, w);
      SameRefl(ca);
      ghost var ca0 := ca;
      if ValueOf(assigns, w.blocker) == True {
        kept', conflict := kept + [w], false;
        Shift(kept, w, rest);
        TrueAt(ca[w.cref].lits, trail, w.blocker);
      } else {
        OrderWatches(p, w, kept, rest, B, a, done);
        ghost var ca1 := ca;
        kept', conflict := InspectClause(p, w, kept, rest, B, a, done);
        SameTrans(ca0, ca1, ca);
      }
    }

    // The second pass over the list of p: longer clauses. The list is compacted while it
    // is read; a conflict leaves the rest as it is.
    method PropagateList(p: Lit, ghost B: set<LitBag>, ghost a: seq<Lit>, ghost done: seq<Lit>) returns (conflict: bool)
      requires Propagating(B, a) && WatchesOk(ca, watches) && p in trail && Done(ca, trail, done)
      requires forall l :: l in done ==> l in trail
      requires forall w :: w in WatchList(watches, p) && w.binary ==> w.blocker in trail
      modifies `ca, `watches, `trail, `assigns
      ensures Propagating(B, a) && WatchesOk(ca, watches) && SameClauses(old(ca), ca)
      ensures |assigns| == |old(assigns)| && old(trail) <= trail && Room(assigns, trail) == old(Room(assigns, trail))
      ensures conflict ==> SomeFalsified(B, trail)
      ensures !conflict ==> Done(ca, trail, done + [p])
    {
      hide WatchesOk, Done, Progress, Stored, SameClauses, SomeTrue, ListOk, WatcherOk;
      var ws := WatchList(watches, p);
      var kept: seq<Watcher> := [];
      var i := 0;
      ghost var ca0 := ca;
      SameRefl(ca);
      ListStart(ca, unitClauses, assigns, watches, p, trail, B, a);
      while i < |ws|
        invariant 0 <= i <= |ws| && LongPass(B, a, p, kept + ws[i..], done) && SameClauses(ca0, ca)
        invariant |assigns| == |old(assigns)| && old(trail) <= trail && Room(assigns, trail) == old(Room(assigns, trail))
        invariant Handled(ca0, kept, trail) && BinaryHandled(ca0, ws[i..], trail)
      {
        assert ws[i..] == [ws[i]] + ws[i + 1..];
        ghost var trail0, kept0, mid := trail, kept, ca;
        if ws[i].binary {
          kept := kept + [ws[i]];
          Shift(kept0, ws[i], ws[i + 1..]);
          HandledBinary(ca0, kept0, ws[i], ws[i + 1..], trail);
        } else {
          kept, conflict := PropagateLong(p, ws[i], kept, ws[i + 1..], B, a, done);
          SameTrans(ca0, mid, ca);
          if conflict {
            watches := watches[p := kept + ws[i + 1..]];
            return;
          }
          HandledLong(ca0, ca, kept0, kept, ws[i], ws[i + 1..], trail0, trail);
        }
        i := i + 1;
      }
      assert kept + ws[i..] == kept;
      ListDone(ca0, ca, watches, p, kept, trail, done);
      watches := watches[p := kept];
      conflict := false;
    }

    // propagate: true exactly if naive unit propagation from the literals on the trail
    // runs into a conflict with the stored clauses. Clauses stay in the lists of their
    // first two literals.
    method Propagate() returns (conflict: bool)
      requires DatabaseOk(ca, |assigns|) && WatchesOk(ca, watches) && LitsBelow(unitClauses, |assigns|)
      requires AssignsOk(assigns, trail) && qhead == 0
      modifies `ca, `watches, `trail, `assigns, `qhead
      ensures conflict <==> UnitConflict(old(Stored(ca, unitClauses)), old(trail))
      ensures !conflict ==> Closed(old(Stored(ca, unitClauses)), trail)
      ensures DatabaseOk(ca, |assigns|) && WatchesOk(ca, watches) && SameClauses(old(ca), ca)
      ensures Stored(ca, unitClauses) == old(Stored(ca, unitClauses))
      ensures AssignsOk(assigns, trail) && |assigns| == |old(assigns)| && old(trail) <= trail
    {
      hide WatchesOk, Done, Stored, SameClauses, Closed, DatabaseOk, AssignsOk, UnitConflict, LitsBelow;
      ghost var B, a, ca0 := Stored(ca, unitClauses), trail, ca;
      SameRefl(ca);
      assert Derivation(B, |a|, a);
      conflict := PropagateUnits(B, a);
      if conflict {
        ConflictFound(B, a, trail);
        return;
      }
      NothingDone(ca, trail);
      assert trail[..0] == [];
      while qhead < |trail|
        invariant qhead <= |trail| && Propagating(B, a) && WatchesOk(ca, watches) && SameClauses(ca0, ca)
        invariant Done(ca, trail, trail[..qhead]) && (forall u :: u in unitClauses ==> u in trail)
        invariant |assigns| == |old(assigns)| && Room(assigns, trail) == old(Room(assigns, trail))
        decreases Room(assigns, trail) - qhead
      {
        ghost var q, t, mid := qhead, trail, ca;
        conflict := PropagateNext(B, a);
        SameTrans(ca0, mid, ca);
        if conflict {
          ConflictFound(B, a, trail);
          return;
        }
      }
      assert trail[..qhead] == trail;
      PropagationClosed(ca, unitClauses, assigns, trail, B, a);
      conflict := false;
    }

    // Takes the next literal from the trail and runs both passes over its list.
    method PropagateNext(ghost B: set<LitBag>, ghost a: seq<Lit>) returns (conflict: bool)
      requires Propagating(B, a) && WatchesOk(ca, watches) && qhead < |trail| && Done(ca, trail, trail[..qhead])
      modifies `ca, `watches, `trail, `assigns, `qhead
      ensures Propagating(B, a) && WatchesOk(ca, watches) && SameClauses(old(ca), ca) && old(trail) <= trail
      ensures |assigns| == |old(assigns)| && Room(assigns, trail) == old(Room(assigns, trail))
      ensures conflict ==> SomeFalsified(B, trail)
      ensures !conflict ==> qhead == old(qhead) + 1 && Done(ca, trail, trail[..qhead])
    {
      hide WatchesOk, Done, Stored, SameClauses, Progress;
      var p := trail[qhead];
      ghost var done, t := trail[..qhead], trail;
      qhead := qhead + 1;
      SameRefl(ca);
      conflict := PropagateBinary(p, B, a);
      if conflict { return; }
      DoneLater(ca, t, trail, done);
      InPrefix(t, trail, done);
      conflict := PropagateList(p, B, a, done);
      if conflict {
        qhead := |trail|;
        return;
      }
      assert trail[..qhead] == done + [p];
    }

    // ---------- storing clauses ----------

    method AttachClause(cr: CRef)
      requires cr < |ca| && !ca[cr].deleted && |ca[cr].lits| > 1
      modifies `watches
      ensures forall p :: WatchList(watches, p) == WatchList(old(watches), p) + NewWatchers(cr, ca[cr].lits, p)
    {
      var c := ca[cr].lits;
      var binary := |c| == 2;
      watches := watches[Neg(c[0]) := WatchList(watches, Neg(c[0])) + [Watcher(cr, c[1], binary)]];
      watches := watches[Neg(c[1]) := WatchList(watches, Neg(c[1])) + [Watcher(cr, c[0], binary)]];
    }

    // Enters the new clause in the occurrence list of each of its literals.
    method EnterOccurrences(cr: CRef, cls: Clause)
      modifies `occ
      ensures Entered(old(occ), occ, cr, multiset(cls))
    {
      ghost var occ0 := occ;
      var i := 0;
      while i < |cls|
        invariant 0 <= i <= |cls| && Entered(occ0, occ, cr, multiset(cls[..i]))
      {
        assert cls[..i + 1] == cls[..i] + [cls[i]];
        EnteredOne(occ0, occ, cr, multiset(cls[..i]), cls[i]);
        occ := occ[cls[i] := List(occ, cls[i]) + [cr]];
        i := i + 1;
      }
      assert cls[..i] == cls;
    }

    // Unit clauses are kept apart from longer ones.
    method Store(cls: Clause)
      requires Structures() && cls != [] && LitsBelow(cls, |assigns|)
      modifies `ca, `occ, `watches, `unitClauses
      ensures Structures() && Stored(ca, unitClauses) == Stored(old(ca), old(unitClauses)) + {multiset(cls)}
      ensures |cls| > 1 ==> unitClauses == old(unitClauses)
    {
      hide DatabaseOk, WatchesOk, OccExact, Stored, AssignsOk, NewWatchers;
      if |cls| > 1 {
        ghost var ca0, occ0, watches0 := ca, occ, watches;
        var cr := |ca|;
        ca := ca + [Cls(cls, false)];
        EnterOccurrences(cr, cls);
        AttachClause(cr);
        StoreKeeps(ca0, cls, occ0, occ, watches0, watches, |assigns|, unitClauses);
      } else {
        UnitStored(ca, unitClauses, cls[0]);
        assert cls == [cls[0]];
        unitClauses := unitClauses + [cls[0]];
      }
    }

    // addParsedclause: a clause of the input formula is not checked.
    method AddParsedClause(cls: Clause)
      requires Valid()
      modifies this
      ensures Valid() && parsed == old(parsed) + {multiset(cls)}
      ensures Formula() == old(Formula()) + {multiset(cls)} && ratUsed == old(ratUsed)
      ensures ok == (old(ok) && cls != [])
    {
      hide DatabaseOk, WatchesOk, OccExact, Stored, AssignsOk, LitsBelow, Follows, HasModel;
      ghost var f := Formula();
      if |cls| == 0 {
        ok := false;
        assert multiset(cls) == multiset{};
      } else {
        NewVars(cls);
        Store(cls);
      }
      ParsedHistory(parsed, f, multiset(cls));
      assert Structures();
      assert Formula() == f + {multiset(cls)};
      parsed := parsed + {multiset(cls)};
      clean := clean && !ratUsed;
      assert Structures();
      assert !ratUsed ==> clean && Follows(parsed, Formula());
      assert clean ==> (HasModel(parsed) ==> HasModel(Formula()));
    }

    // ---------- checking clauses ----------

    // Enqueues the complements of the literals; a clause with complementary literals is a
    // conflict at once.
    method EnqueueComplements(lits: Clause) returns (conflict: bool)
      requires AssignsOk(assigns, trail) && trail == [] && LitsBelow(lits, |assigns|)
      modifies `assigns, `trail
      ensures AssignsOk(assigns, trail) && |assigns| == |old(assigns)|
      ensures conflict <==> Tautology(lits)
      ensures !conflict ==> forall l :: l in trail <==> Neg(l) in lits
    {
      hide AssignsOk, LitsBelow, Tautology, ValueOf, Assigned;
      var i := 0;
      NothingComplemented(lits);
      AllBelow(lits, |assigns|);
      while i < |lits|
        invariant 0 <= i <= |lits| && AssignsOk(assigns, trail) && |assigns| == |old(assigns)|
        invariant Complemented(trail, lits[..i])
      {
        var l := lits[i];
        ComplementNext(assigns, trail, lits, i);
        if ValueOf(assigns, l) == Undef {
          AssignOne(assigns, trail, Neg(l));
          assigns := Assigned(assigns, Neg(l));
          trail := trail + [Neg(l)];
        } else if ValueOf(assigns, Neg(l)) == False {
          return true;
        }
        i := i + 1;
      }
      assert lits[..i] == lits;
      NoTautology(assigns, trail, lits);
      conflict := false;
    }

    // The clause is tested by reverse unit propagation.
    method CheckRup(lits: Clause) returns (conflict: bool)
      requires Structures() && LitsBelow(lits, |assigns|)
      modifies `ca, `watches, `trail, `assigns, `qhead
      ensures conflict <==> Rup(old(Stored(ca, unitClauses)), lits)
      ensures Structures() && SameClauses(old(ca), ca) && |assigns| == |old(assigns)|
      ensures Stored(ca, unitClauses) == old(Stored(ca, unitClauses))
    {
      hide DatabaseOk, WatchesOk, OccExact, Stored, AssignsOk, UnitConflict, Tautology;
      ghost var ca0 := ca;
      SameRefl(ca);
      CancelUntil();
      conflict := EnqueueComplements(lits);
      if !conflict {
        SameStart(Stored(ca, unitClauses), trail, lits);
        conflict := Propagate();
        OccReordered(ca0, ca, occ);
      }
    }

    // Builds the resolvent of cls and d on the first literal of cls.
    method BuildResolvent(cls: Clause, d: Clause) returns (taut: bool, lits: Clause)
      requires cls != []
      ensures taut <==> ClashesRest(cls, multiset(d))
      ensures !taut ==> ResolventOf(cls, multiset(d), lits) && forall l :: l in lits ==> l in cls || l in d
    {
      var rest := cls[1..];
      var marked := Lits(rest);
      taut, lits := false, rest;
      var j := 0;
      while j < |d|
        invariant 0 <= j <= |d|
        invariant forall l :: l in lits <==> l in rest || (l in d[..j] && l != Neg(cls[0]))
        invariant forall y :: y in d[..j] && y != Neg(cls[0]) ==> Neg(y) !in rest
      {
        assert d[..j + 1] == d[..j] + [d[j]];
        assert d[j] in d;
        if d[j] != Neg(cls[0]) {
          if Neg(d[j]) in marked {
            assert d[j] in multiset(d);
            return true, lits;
          } else if d[j] !in marked {
            lits := lits + [d[j]];
          }
        }
        j := j + 1;
      }
      assert d[..j] == d;
    }

    // One resolvent on the first literal is built and tested.
    method CheckResolvent(cls: Clause, ref: CRef, ghost ca0: seq<Cls>, ghost B: set<LitBag>) returns (passed: bool)
      requires Structures() && cls != [] && LitsBelow(cls, |assigns|) && SameClauses(ca0, ca) && Stored(ca, unitClauses) == B
      requires ref < |ca| && !ca[ref].deleted && Neg(cls[0]) in ca[ref].lits
      modifies `ca, `watches, `trail, `assigns, `qhead
      ensures Structures() && SameClauses(ca0, ca) && |assigns| == |old(assigns)| && Stored(ca, unitClauses) == B
      ensures ref < |ca0| && (passed <==> ResolventRup(B, cls, multiset(ca0[ref].lits)))
      ensures !passed ==> !RatLive(LiveBags(ca0), B, cls)
    {
      hide DatabaseOk, WatchesOk, OccExact, Stored, AssignsOk, Rup, ResolventRup, ResolventOf, ClashesRest, RatLive, LiveBags;
      DatabaseAt(ca, |assigns|, ref);
      ghost var mid := ca;
      var d := ca[ref].lits;
      assert Neg(cls[0]) in multiset(d);
      assert multiset(d) == multiset(ca0[ref].lits);
      var taut, lits := BuildResolvent(cls, d);
      if taut {
        TautDecides(B, cls, multiset(d));
        passed := true;
      } else {
        passed := CheckRup(lits);
        SameTrans(ca0, mid, ca);
        ResolventDecides(B, cls, multiset(d), lits);
      }
      if !passed { NotAllRat(ca0, B, cls, ref); }
    }

    // All resolvents on the first literal are tested; only clauses of at least two
    // literals are in the occurrence lists.
    method CheckRat(cls: Clause) returns (accepted: bool)
      requires Structures() && cls != [] && LitsBelow(cls, |assigns|)
      modifies `ca, `watches, `trail, `assigns, `qhead
      ensures accepted <==> RatLive(old(LiveBags(ca)), old(Stored(ca, unitClauses)), cls)
      ensures Structures() && SameClauses(old(ca), ca) && |assigns| == |old(assigns)|
      ensures Stored(ca, unitClauses) == old(Stored(ca, unitClauses))
    {
      hide DatabaseOk, WatchesOk, Stored, AssignsOk, ResolventRup, RatLive, OccExact, SameClauses, LiveBags;
      ghost var ca0, B := ca, Stored(ca, unitClauses);
      SameRefl(ca);
      var list := List(occ, Neg(cls[0]));
      var i := 0;
      while i < |list|
        invariant 0 <= i <= |list| && Structures() && SameClauses(ca0, ca) && |assigns| == |old(assigns)|
        invariant Stored(ca, unitClauses) == B
        invariant forall k :: 0 <= k < i ==> list[k] < |ca0| && ResolventRup(B, cls, multiset(ca0[list[k]].lits))
      {
        ListedLive(ca, occ, Neg(cls[0]), i);
        var passed := CheckResolvent(cls, list[i], ca0, B);
        if !passed {
          return false;
        }
        i := i + 1;
      }
      AllRat(ca0, ca, occ, B, cls);
      accepted := true;
    }

    // ---------- the operations of the proof ----------

    // The two tests. The second one needs a first literal; without one, the clause is
    // not accepted.
    method Check(cls: Clause) returns (accepted: bool, rup: bool)
      requires Structures()
      modifies `ca, `watches, `trail, `assigns, `qhead
      ensures rup <==> Rup(old(Stored(ca, unitClauses)), cls)
      ensures accepted <==> Accepted(old(LiveBags(ca)), old(Stored(ca, unitClauses)), drat, cls)
      ensures Structures() && Stored(ca, unitClauses) == old(Stored(ca, unitClauses)) && LitsBelow(cls, |assigns|)
    {
      hide DatabaseOk, WatchesOk, OccExact, Stored, AssignsOk, Rup, RatLive, SameClauses, LitsBelow, LiveBags;
      NewVars(cls);
      ghost var ca0 := ca;
      rup := CheckRup(cls);
      SameLive(ca0, ca);
      accepted := rup;
      if !accepted && drat && |cls| > 0 {
        accepted := CheckRat(cls);
      }
    }

    // addClause: true if the clause is accepted, that is if it is RUP or, in the DRAT
    // format, passes the test on its first literal. The clause is only stored if it is
    // not merely to be checked.
    method AddClause(cls: Clause, checkOnly: bool) returns (accepted: bool)
      requires Valid()
      modifies this
      ensures Valid() && parsed == old(parsed)
      ensures !old(ok) ==> accepted
      ensures old(ok) ==> (accepted <==> Accepted(old(LiveBags(ca)), old(Stored(ca, unitClauses)), drat, cls))
      ensures Formula() == old(Formula()) + if old(ok) && accepted && !checkOnly then {multiset(cls)} else {}
      ensures ok == (old(ok) && !(accepted && !checkOnly && cls == []))
    {
      if !ok { return true; }
      ghost var rup, live, B := false, LiveBags(ca), Stored(ca, unitClauses);
      assert B == live + UnitBags(unitClauses);
      hide Structures, Stored, Rup, RatLive, Follows, HasModel, Accepted, LiveBags;
      accepted, rup := Check(cls);
      if accepted { AcceptedRat(live, B, drat, cls); }
      if accepted && !checkOnly {
        Accept(cls, live, rup);
      }
    }

    method Accept(cls: Clause, ghost live: set<LitBag>, ghost rup: bool)
      requires Valid() && ok && LitsBelow(cls, |assigns|)
      requires Stored(ca, unitClauses) == live + UnitBags(unitClauses)
      requires if rup then Rup(Stored(ca, unitClauses), cls) else drat && cls != [] && RatLive(live, Stored(ca, unitClauses), cls)
      modifies this
      ensures Valid() && parsed == old(parsed) && Formula() == old(Formula()) + {multiset(cls)}
      ensures ok == (cls != [])
    {
      hide DatabaseOk, WatchesOk, OccExact, Stored, AssignsOk, LitsBelow, Rup, RatLive, Follows, HasModel;
      ghost var B, f, units := Stored(ca, unitClauses), Formula(), unitClauses;
      assert f == B;
      AcceptedHistory(parsed, live, B, unitClauses, cls, rup);
      if |cls| == 0 {
        ok := false;
        assert multiset(cls) == multiset{};
      } else {
        clean := clean && (rup || Neg(cls[0]) !in unitClauses);
        ratUsed := ratUsed || !rup;
        Store(cls);
      }
      assert Formula() == f + {multiset(cls)};
      assert Structures();
      assert !ratUsed ==> clean && Follows(parsed, Formula());
      assert clean ==> (HasModel(parsed) ==> HasModel(Formula()));
    }

    // ---------- removing clauses ----------

    // removeUnSort: the watcher of the clause is replaced by the last one of the list.
    method RemoveWatcher(p: Lit, cr: CRef)
      requires Count(WatchList(watches, p), cr) > 0
      modifies `watches
      ensures forall q :: q != p ==> WatchList(watches, q) == WatchList(old(watches), q)
      ensures Fewer(WatchList(old(watches), p), WatchList(watches, p), cr, 1)
    {
      var ts := WatchList(watches, p);
      CountIn(ts, cr);
      var j := 0;
      while ts[j].cref != cr
        invariant 0 <= j < |ts| && forall k :: 0 <= k < j ==> ts[k].cref != cr
        decreases |ts| - j
      {
        j := j + 1;
      }
      OneFewer(ts, j);
      watches := watches[p := SwapRemove(ts, j)];
    }

    method DetachClause(cr: CRef)
      requires DatabaseOk(ca, |assigns|) && WatchesOk(ca, watches) && cr < |ca| && !ca[cr].deleted
      modifies `watches
      ensures WatchesOk(ca[cr := ca[cr].(deleted := true)], watches)
    {
      var c := ca[cr].lits;
      ghost var w0 := watches;
      DatabaseAt(ca, |assigns|, cr);
      WatchedFirstTwo(ca, watches, cr);
      hide WatchesOk, DatabaseOk, Fewer, Count, Slots;
      RemoveWatcher(Neg(c[0]), cr);
      ghost var w1 := watches;
      StillWatched(w0, w1, cr, c);
      RemoveWatcher(Neg(c[1]), cr);
      DetachedWatches(ca, cr, w0, w1, watches);
    }

    // The literal whose list is searched.
    method ShortList(cls: Clause) returns (k: nat)
      requires |cls| > 1
      ensures k == ShortIndex(occ, cls, |cls|) < |cls|
    {
      k := 0;
      var i := 1;
      while i < |cls|
        invariant 1 <= i <= |cls| && k == ShortIndex(occ, cls, i) < i
      {
        if |List(occ, cls[i])| < |List(occ, LitOfCode(k))| { k := i; }
        i := i + 1;
      }
    }

    // The position of a clause with the given literals in the list of one of them. The
    // literal with a short list is chosen.
    method FindClause(cls: Clause) returns (found: bool, smallestIndex: nat, pos: nat)
      requires Structures() && |cls| > 1
      ensures smallestIndex == ShortIndex(occ, cls, |cls|) < |cls|
      ensures found <==> exists i :: Matches(ca, i, cls, cls[smallestIndex])
      ensures found ==> pos < |List(occ, cls[smallestIndex])|
      ensures found ==> Matches(ca, List(occ, cls[smallestIndex])[pos], cls, cls[smallestIndex])
    {
      hide WatchesOk, AssignsOk, DatabaseOk, LiveBags, OccExact, ShortIndex;
      var marked := Lits(cls);
      smallestIndex := ShortList(cls);
      var list := List(occ, cls[smallestIndex]);
      pos := 0;
      while pos < |list|
        invariant 0 <= pos <= |list| && forall k :: 0 <= k < pos ==> !Matches(ca, list[k], cls, cls[smallestIndex])
      {
        ListedLive(ca, occ, cls[smallestIndex], pos);
        if |ca[list[pos]].lits| == |cls| {
          var hit := AllIn(ca[list[pos]].lits, marked);
          if hit {
            assert Matches(ca, list[pos], cls, cls[smallestIndex]);
            return true, smallestIndex, pos;
          }
        }
        pos := pos + 1;
      }
      MatchListed(ca, occ, cls, cls[smallestIndex]);
      found := false;
    }

    // Takes the reference out of the list of l, once.
    method RemoveOccurrence(l: Lit, ref: CRef)
      modifies `occ
      ensures forall k :: k != l ==> List(occ, k) == List(old(occ), k)
      ensures multiset(List(occ, l)) == multiset(List(old(occ), l)) - multiset{ref}
    {
      var list := List(occ, l);
      var j := 0;
      while j < |list|
        invariant 0 <= j <= |list| && occ == old(occ) && ref !in list[..j]
      {
        if list[j] == ref {
          SwapRemoveCount(list, j);
          occ := occ[l := SwapRemove(list, j)];
          return;
        }
        j := j + 1;
      }
      assert list[..j] == list;
    }

    // The reference leaves all lists: first the one in which it was found.
    method RemoveOccurrences(cls: Clause, smallestIndex: nat, ref: CRef)
      requires smallestIndex < |cls|
      modifies `occ
      ensures Withdrawn(old(occ), occ, ref, multiset(cls))
    {
      hide Withdrawn, Handed, SwapRemove;
      ghost var occ0 := occ;
      RemoveOccurrence(cls[smallestIndex], ref);
      NothingWithdrawn(occ0, ref);
      HandedNext(cls, smallestIndex, 0);
      WithdrawnOne(occ0, occ0, occ, ref, multiset{}, cls[smallestIndex]);
      var i := 0;
      while i < |cls|
        invariant 0 <= i <= |cls| && Withdrawn(occ0, occ, ref, Handed(cls, smallestIndex, i))
      {
        HandedNext(cls, smallestIndex, i);
        if i != smallestIndex {
          ghost var mid := occ;
          RemoveOccurrence(cls[i], ref);
          WithdrawnOne(occ0, mid, occ, ref, Handed(cls, smallestIndex, i), cls[i]);
        }
        i := i + 1;
      }
    }

    method RemoveLong(cls: Clause) returns (removed: bool)
      requires Structures() && |cls| > 1 && Removable(ca, cls)
      modifies `ca, `occ, `watches
      ensures Structures()
      ensures removed <==> multiset(cls) in LiveBags(old(ca))
      ensures removed ==> exists i: CRef :: IsLive(old(ca), i, multiset(cls)) && ca == old(ca)[i := old(ca)[i].(deleted := true)]
      ensures !removed ==> ca == old(ca)
    {
      var smallestIndex, pos;
      hide LiveBags;
      removed, smallestIndex, pos := FindClause(cls);
      MatchIsClause(ca, cls, smallestIndex);
      if !removed { return; }
      hide WatchesOk, AssignsOk, DatabaseOk, Removable, Withdrawn, LitsBelow, OccExact;
      var ref := List(occ, cls[smallestIndex])[pos];
      ghost var occ0 := occ;
      RemoveOccurrences(cls, smallestIndex, ref);
      RemovedOccurrences(ca, |assigns|, occ0, occ, ref, cls);
      DetachClause(ref);
      ca := ca[ref := ca[ref].(deleted := true)];
    }

    // A unit clause is removed once.
    method RemoveUnit(l: Lit) returns (removed: bool)
      requires Structures()
      modifies `unitClauses
      ensures Structures() && (removed <==> l in old(unitClauses))
      ensures removed ==> multiset(unitClauses) == multiset(old(unitClauses)) - multiset{l}
      ensures !removed ==> unitClauses == old(unitClauses)
    {
      hide WatchesOk, AssignsOk, DatabaseOk, OccExact;
      var i := 0;
      while i < |unitClauses|
        invariant 0 <= i <= |unitClauses| && unitClauses == old(unitClauses) && l !in unitClauses[..i]
      {
        if unitClauses[i] == l {
          SwapRemoveCount(unitClauses, i);
          unitClauses := SwapRemove(unitClauses, i);
          return true;
        }
        i := i + 1;
      }
      assert unitClauses[..i] == unitClauses;
      removed := false;
    }

    // removeClause: true if the clause was found, or if there is nothing to do.
    method RemoveClause(cls: Clause) returns (removed: bool)
      requires Valid() && (|cls| > 1 ==> Removable(ca, cls))
      modifies this
      ensures Valid() && parsed == old(parsed) && ok == old(ok) && Formula() <= old(Formula())
      ensures cls == [] || !old(ok) ==> removed && Formula() == old(Formula())
      ensures |cls| == 1 && ok ==> (removed <==> cls[0] in old(unitClauses)) && ca == old(ca)
      ensures |cls| == 1 && ok && removed ==> multiset(unitClauses) == multiset(old(unitClauses)) - multiset{cls[0]}
      ensures |cls| > 1 && ok ==> unitClauses == old(unitClauses)
      ensures |cls| > 1 && ok ==> (removed <==> multiset(cls) in LiveBags(old(ca)))
      ensures |cls| > 1 && ok && removed ==>
        exists i: CRef :: IsLive(old(ca), i, multiset(cls)) && ca == old(ca)[i := old(ca)[i].(deleted := true)]
      ensures !removed ==> Formula() == old(Formula())
    {
      hide Structures, Follows, HasModel, Removable, LiveBags, IsLive, Stored;
      if |cls| == 0 || !ok { return true; }
      ghost var f, ca0, units0 := Formula(), ca, unitClauses;
      if |cls| == 1 {
        removed := RemoveUnit(cls[0]);
        FewerUnits(ca, units0, unitClauses);
      } else {
        removed := RemoveLong(cls);
        FewerClauses(ca0, ca, unitClauses, multiset(cls));
      }
      FewerHistory(parsed, f, Formula());
    }
  }

  ghost predicate Handled(ca: seq<Cls>, list: seq<Watcher>, trail: seq<Lit>) {
    forall w :: w in list ==> w.cref < |ca| && SomeTrue(multiset(ca[w.cref].lits), trail)
  }

  ghost predicate BinaryHandled(ca: seq<Cls>, list: seq<Watcher>, trail: seq<Lit>) {
    forall w :: w in list && w.binary ==> w.cref < |ca| && SomeTrue(multiset(ca[w.cref].lits), trail)
  }

  lemma ListStart(ca: seq<Cls>, units: seq<Lit>, assigns: seq<LBool>, watches: Watches, p: Lit, trail: seq<Lit>, B: set<LitBag>, a: seq<Lit>)
    requires Progress(ca, units, assigns, trail, B, a) && WatchesOk(ca, watches)
    requires forall w :: w in WatchList(watches, p) && w.binary ==> w.blocker in trail
    ensures BinaryHandled(ca, WatchList(watches, p), trail) && Handled(ca, [], trail)
    ensures WatchesOk(ca, watches[p := [] + WatchList(watches, p)])
    ensures WatchList(watches, p)[0..] == WatchList(watches, p)
  {
    var list := WatchList(watches, p);
    assert ListOk(ca, p, list);
    forall w | w in list && w.binary ensures w.cref < |ca| && SomeTrue(multiset(ca[w.cref].lits), trail) {
      var k :| 0 <= k < |list| && list[k] == w;
      assert WatcherOk(ca, p, list[k]);
      TrueAt(ca[w.cref].lits, trail, w.blocker);
    }
    var now := watches[p := [] + list];
    assert forall r :: WatchList(now, r) == WatchList(watches, r);
  }

  lemma HandledBinary(ca: seq<Cls>, kept: seq<Watcher>, w: Watcher, rest: seq<Watcher>, trail: seq<Lit>)
    requires Handled(ca, kept, trail) && BinaryHandled(ca, [w] + rest, trail) && w.binary
    ensures Handled(ca, kept + [w], trail) && BinaryHandled(ca, rest, trail)
  {
    assert w in [w] + rest;
    forall x | x in rest ensures x in [w] + rest {}
  }

  lemma HandledLong(ca0: seq<Cls>, ca: seq<Cls>, kept: seq<Watcher>, kept': seq<Watcher>, w: Watcher, rest: seq<Watcher>, t: seq<Lit>, t': seq<Lit>)
    requires Handled(ca0, kept, t) && BinaryHandled(ca0, [w] + rest, t) && t <= t' && SameClauses(ca0, ca)
    requires kept' == kept || (exists w': Watcher :: w'.cref == w.cref && kept' == kept + [w'])
    requires w.cref < |ca| && (kept' != kept ==> SomeTrue(multiset(ca[w.cref].lits), t'))
    ensures Handled(ca0, kept', t') && BinaryHandled(ca0, rest, t')
  {
    hide SomeTrue;
    forall x | x in kept ensures SomeTrue(multiset(ca0[x.cref].lits), t') {
      SomeTrueLater(multiset(ca0[x.cref].lits), t, t');
    }
    forall x | x in rest && x.binary ensures x.cref < |ca0| && SomeTrue(multiset(ca0[x.cref].lits), t') {
      assert x in [w] + rest;
      SomeTrueLater(multiset(ca0[x.cref].lits), t, t');
    }
  }

  lemma KeptIn(ca: seq<Cls>, watches: Watches, p: Lit, kept: seq<Watcher>, i: CRef)
    requires WatchesOk(ca, watches[p := kept]) && i < |ca| && !ca[i].deleted && IsWatched(ca[i].lits, Neg(p))
    ensures WatchedIn(kept, i)
  {
    assert ListOk(ca, p, WatchList(watches[p := kept], p));
    assert Count(kept, i) == SlotsAt(ca, i, Neg(p));
    CountIn(kept, i);
  }

  // Once all watchers of p have been handled, p has been propagated.
  lemma ListDone(ca0: seq<Cls>, ca: seq<Cls>, watches: Watches, p: Lit, kept: seq<Watcher>, trail: seq<Lit>, done: seq<Lit>)
    requires WatchesOk(ca, watches[p := kept]) && Handled(ca0, kept, trail) && SameClauses(ca0, ca) && Done(ca, trail, done)
    ensures Done(ca, trail, done + [p])
  {
    hide SomeTrue, ListOk;
    forall i, l | 0 <= i < |ca| && !ca[i].deleted && IsWatched(ca[i].lits, l) && Neg(l) in done + [p]
      ensures SomeTrue(multiset(ca[i].lits), trail)
    {
      if Neg(l) !in done {
        assert Neg(Neg(l)) == l && Neg(l) == p;
        KeptIn(ca, watches, p, kept, i);
        var j :| 0 <= j < |kept| && kept[j].cref == i;
        assert kept[j] in kept;
      }
    }
  }

  lemma UnitFacts(ca: seq<Cls>, units: seq<Lit>, assigns: seq<LBool>, trail: seq<Lit>, B: set<LitBag>, a: seq<Lit>, l: Lit)
    requires Progress(ca, units, assigns, trail, B, a) && l in units
    ensures l.v < |assigns| && Forced(B, trail, l)
    ensures ValueOf(assigns, l) == False ==> SomeFalsified(B, trail)
    ensures ValueOf(assigns, l) == True ==> l in trail
  {
    assert multiset{l} in B;
    AssignsConsistent(assigns, trail);
    assert Forces(multiset{l}, trail, l);
    if ValueOf(assigns, l) == False {
      assert Falsified(multiset{l}, trail);
    }
  }

  // The blocker of a binary watcher is the other literal of its clause.
  lemma BinaryFacts(ca: seq<Cls>, units: seq<Lit>, assigns: seq<LBool>, trail: seq<Lit>, B: set<LitBag>, a: seq<Lit>, p: Lit, w: Watcher)
    requires Progress(ca, units, assigns, trail, B, a) && WatcherOk(ca, p, w) && w.binary && p in trail
    ensures w.blocker.v < |assigns|
    ensures ValueOf(assigns, w.blocker) != False ==> Forced(B, trail, w.blocker)
    ensures ValueOf(assigns, w.blocker) == False ==> SomeFalsified(B, trail)
    ensures ValueOf(assigns, w.blocker) == True ==> w.blocker in trail
  {
    var c := ca[w.cref].lits;
    AssignsConsistent(assigns, trail);
    assert Neg(Neg(p)) == p;
    assert Neg(p).v < |assigns|;
    ClauseForces(ca, units, assigns, trail, B, a, w.cref, if c[0] == Neg(p) then 1 else 0);
  }

  lemma WatcherHere(ca: seq<Cls>, watches: Watches, p: Lit, kept: seq<Watcher>, w: Watcher, rest: seq<Watcher>)
    requires WatchesOk(ca, watches[p := kept + ([w] + rest)])
    ensures WatcherOk(ca, p, w) && IsWatched(ca[w.cref].lits, Neg(p))
  {
    var list := kept + ([w] + rest);
    assert ListOk(ca, p, WatchList(watches[p := list], p));
    assert list[|kept|] == w;
    CountMiddle(kept, w, rest, w.cref);
    assert Count(list, w.cref) == SlotsAt(ca, w.cref, Neg(p));
  }

  lemma DatabaseAt(ca: seq<Cls>, n: nat, i: CRef)
    requires DatabaseOk(ca, n) && i < |ca| && !ca[i].deleted
    ensures |ca[i].lits| > 1 && LitsBelow(ca[i].lits, n)
  {
  }

  lemma NewWatchFree(assigns: seq<LBool>, trail: seq<Lit>, l: Lit, done: seq<Lit>)
    requires AssignsOk(assigns, trail) && l.v < |assigns| && ValueOf(assigns, l) != False
    requires forall x :: x in done ==> x in trail
    ensures Neg(l) !in done
  {
    AssignsConsistent(assigns, trail);
  }

  lemma DoneRewatched(ca: seq<Cls>, i: CRef, d: Clause, l: Lit, t: seq<Lit>, done: seq<Lit>)
    requires Done(ca, t, done) && i < |ca| && !ca[i].deleted && multiset(d) == multiset(ca[i].lits) && |d| > 1
    requires Rewatched(ca[i].lits, d, l, d[1]) && Neg(d[1]) !in done
    ensures Done(ca[i := Cls(d, false)], t, done)
  {
    forall x | IsWatched(d, x) && Neg(x) in done ensures IsWatched(ca[i].lits, x) {
      RewatchedLits(ca[i].lits, d, l, d[1], x);
    }
    DoneReorder(ca, i, d, t, done);
  }

  lemma SameRefl(ca: seq<Cls>)
    ensures SameClauses(ca, ca)
  {
  }

  lemma SameTrans(a: seq<Cls>, b: seq<Cls>, c: seq<Cls>)
    requires SameClauses(a, b) && SameClauses(b, c)
    ensures SameClauses(a, c) && |c| == |a|
  {
  }

  lemma Shift(kept: seq<Watcher>, w: Watcher, rest: seq<Watcher>)
    ensures kept + ([w] + rest) == (kept + [w]) + rest
    ensures kept + [w] != kept
  {
  }

  lemma TrueAt(c: Clause, trail: seq<Lit>, l: Lit)
    requires l in c && l in trail
    ensures SomeTrue(multiset(c), trail)
  {
    assert l in multiset(c);
  }

  lemma BlockerFacts(ca: seq<Cls>, units: seq<Lit>, assigns: seq<LBool>, trail: seq<Lit>, B: set<LitBag>, a: seq<Lit>, p: Lit, w: Watcher)
    requires Progress(ca, units, assigns, trail, B, a) && WatcherOk(ca, p, w)
    ensures w.cref < |ca| && w.blocker.v < |assigns|
    ensures ValueOf(assigns, w.blocker) == True ==> w.blocker in trail
  {
    DatabaseAt(ca, |assigns|, w.cref);
  }

  // The first literal of a clause whose other literals are false.
  lemma LongFacts(ca: seq<Cls>, units: seq<Lit>, assigns: seq<LBool>, trail: seq<Lit>, B: set<LitBag>, a: seq<Lit>, p: Lit, i: CRef)
    requires Progress(ca, units, assigns, trail, B, a) && p in trail && i < |ca| && !ca[i].deleted
    requires |ca[i].lits| > 2 && ca[i].lits[1] == Neg(p) && LitsBelow(ca[i].lits, |assigns|)
    ensures var c := ca[i].lits;
      && (ValueOf(assigns, c[0]) == True ==> c[0] in trail)
      && ((forall n :: 2 <= n < |c| ==> ValueOf(assigns, c[n]) == False) ==>
            if ValueOf(assigns, c[0]) == False then SomeFalsified(B, trail) else Forced(B, trail, c[0]))
  {
    var c := ca[i].lits;
    AssignsConsistent(assigns, trail);
    assert Neg(Neg(p)) == p;
    if forall n :: 2 <= n < |c| ==> ValueOf(assigns, c[n]) == False {
      forall n | 0 <= n < |c| && n != 0 ensures c[n].v < |assigns| && ValueOf(assigns, c[n]) == False {
        assert c[n] in c;
      }
      ClauseForces(ca, units, assigns, trail, B, a, i, 0);
    }
  }

  lemma NothingDone(ca: seq<Cls>, trail: seq<Lit>)
    ensures Done(ca, trail, [])
  {
  }

  lemma InPrefix(t: seq<Lit>, t': seq<Lit>, done: seq<Lit>)
    requires t <= t' && done <= t
    ensures forall l :: l in done ==> l in t'
  {
    forall l | l in done ensures l in t' {
      var k :| 0 <= k < |done| && done[k] == l;
      assert t'[k] == l;
    }
  }

  // ---------- occurrence lists and variables ----------

  // How often the list of l names clause i.
  function Occ(occ: Occs, l: Lit, i: CRef): nat {
    multiset(List(occ, l))[i]
  }

  // The lists name exactly the live clauses, once for each occurrence of the literal.
  ghost predicate OccExact(ca: seq<Cls>, occ: Occs) {
    forall l, i: CRef :: Occ(occ, l, i) == if i < |ca| && !ca[i].deleted then multiset(ca[i].lits)[l] else 0
  }

  lemma ListedLive(ca: seq<Cls>, occ: Occs, l: Lit, k: nat)
    requires OccExact(ca, occ) && k < |List(occ, l)|
    ensures List(occ, l)[k] < |ca| && !ca[List(occ, l)[k]].deleted && l in ca[List(occ, l)[k]].lits
  {
    var i := List(occ, l)[k];
    assert i in multiset(List(occ, l));
    assert Occ(occ, l, i) > 0;
    assert l in multiset(ca[i].lits);
  }

  lemma LiveListed(ca: seq<Cls>, occ: Occs, l: Lit, i: CRef)
    requires OccExact(ca, occ) && i < |ca| && !ca[i].deleted && l in ca[i].lits
    ensures i in List(occ, l)
  {
    assert l in multiset(ca[i].lits);
    assert Occ(occ, l, i) > 0;
    assert i in multiset(List(occ, l));
  }

  lemma MoreVars(ca: seq<Cls>, units: seq<Lit>, assigns: seq<LBool>, trail: seq<Lit>)
    requires DatabaseOk(ca, |assigns|) && LitsBelow(units, |assigns|) && AssignsOk(assigns, trail)
    ensures DatabaseOk(ca, |assigns| + 1) && LitsBelow(units, |assigns| + 1) && AssignsOk(assigns + [Undef], trail)
  {
  }

  // The last literal of the trail loses its value.
  lemma UnassignOne(assigns: seq<LBool>, trail: seq<Lit>)
    requires AssignsOk(assigns, trail) && trail != []
    ensures trail[|trail| - 1].v < |assigns|
    ensures AssignsOk(assigns[trail[|trail| - 1].v := Undef], trail[..|trail| - 1])
  {
    var n := |trail| - 1;
    var p := trail[n];
    assert p in trail && p.v < |assigns|;
    var now := assigns[p.v := Undef];
    assert Neg(p) !in trail by { AssignsConsistent(assigns, trail); }
    assert trail == trail[..n] + [p];
    forall l: Lit | l.v < |now| ensures l in trail[..n] <==> ValueOf(now, l) == True {
      assert l in trail <==> l in trail[..n] || l == p;
      if l.v == p.v { assert l == p || l == Neg(p); }
    }
  }

  // ---------- storing and removing ----------

  function NewWatchers(cr: CRef, c: Clause, p: Lit): (r: seq<Watcher>)
    requires |c| > 1
  {
    (if p == Neg(c[0]) then [Watcher(cr, c[1], |c| == 2)] else [])
      + if p == Neg(c[1]) then [Watcher(cr, c[0], |c| == 2)] else []
  }

  lemma NewWatchersCount(cr: CRef, c: Clause, p: Lit, i: CRef)
    requires |c| > 1
    ensures Count(NewWatchers(cr, c, p), i) == if i == cr then Slots(c, Neg(p)) else 0
  {
    assert Neg(Neg(c[0])) == c[0] && Neg(Neg(c[1])) == c[1] && Neg(Neg(p)) == p;
    var a: seq<Watcher> := if p == Neg(c[0]) then [Watcher(cr, c[1], |c| == 2)] else [];
    var b: seq<Watcher> := if p == Neg(c[1]) then [Watcher(cr, c[0], |c| == 2)] else [];
    CountConcat(a, b, i);
  }

  lemma AttachedList(ca: seq<Cls>, c: Clause, p: Lit, list: seq<Watcher>)
    requires ListOk(ca, p, list) && |c| > 1
    ensures ListOk(ca + [Cls(c, false)], p, list + NewWatchers(|ca|, c, p))
  {
    hide Slots, Count;
    var cb, more := ca + [Cls(c, false)], list + NewWatchers(|ca|, c, p);
    assert cb[|ca|] == Cls(c, false) && c[0] in c && c[1] in c;
    assert Neg(Neg(c[0])) == c[0] && Neg(Neg(c[1])) == c[1];
    forall j | 0 <= j < |more| ensures WatcherOk(cb, p, more[j]) {
      if j < |list| {
        assert more[j] == list[j] && WatcherOk(ca, p, list[j]);
        assert cb[list[j].cref] == ca[list[j].cref];
      }
    }
    forall i: CRef ensures Count(more, i) == SlotsAt(cb, i, Neg(p)) {
      NewWatchersCount(|ca|, c, p, i);
      CountConcat(list, NewWatchers(|ca|, c, p), i);
      assert i < |ca| ==> cb[i] == ca[i];
    }
  }

  lemma AttachedWatches(ca: seq<Cls>, c: Clause, was: Watches, watches: Watches)
    requires WatchesOk(ca, was) && |c| > 1
    requires forall p :: WatchList(watches, p) == WatchList(was, p) + NewWatchers(|ca|, c, p)
    ensures WatchesOk(ca + [Cls(c, false)], watches)
  {
    forall p ensures ListOk(ca + [Cls(c, false)], p, WatchList(watches, p)) {
      hide ListOk, NewWatchers;
      assert ListOk(ca, p, WatchList(was, p));
      AttachedList(ca, c, p, WatchList(was, p));
    }
  }

  // The lists of the literals have got the reference, as often as the literals occur.
  ghost predicate Entered(was: Occs, occ: Occs, cr: CRef, d: LitBag) {
    forall l, i: CRef :: Occ(occ, l, i) == Occ(was, l, i) + if i == cr then d[l] else 0
  }

  lemma EnteredOne(was: Occs, occ: Occs, cr: CRef, d: LitBag, l: Lit)
    requires Entered(was, occ, cr, d)
    ensures Entered(was, occ[l := List(occ, l) + [cr]], cr, d + multiset{l})
  {
    hide Occ;
    var now := occ[l := List(occ, l) + [cr]];
    forall k, i: CRef ensures Occ(now, k, i) == Occ(was, k, i) + if i == cr then (d + multiset{l})[k] else 0 {
      OccPushed(occ, cr, l, k, i);
      assert Occ(occ, k, i) == Occ(was, k, i) + if i == cr then d[k] else 0;
    }
  }

  lemma OccPushed(occ: Occs, cr: CRef, l: Lit, k: Lit, i: CRef)
    ensures Occ(occ[l := List(occ, l) + [cr]], k, i) == Occ(occ, k, i) + if k == l && i == cr then 1 else 0
  {
    assert List(occ[l := List(occ, l) + [cr]], k) == List(occ, k) + if k == l then [cr] else [];
  }

  lemma EnteredOccurrences(ca: seq<Cls>, c: Clause, was: Occs, occ: Occs)
    requires OccExact(ca, was) && Entered(was, occ, |ca|, multiset(c))
    ensures OccExact(ca + [Cls(c, false)], occ)
  {
    hide Occ;
    var cb := ca + [Cls(c, false)];
    forall l, i: CRef ensures Occ(occ, l, i) == if i < |cb| && !cb[i].deleted then multiset(cb[i].lits)[l] else 0 {
      assert i < |ca| ==> cb[i] == ca[i];
    }
  }

  lemma StoreKeeps(ca: seq<Cls>, c: Clause, was: Occs, occ: Occs, watches0: Watches, watches: Watches, n: nat, units: seq<Lit>)
    requires DatabaseOk(ca, n) && WatchesOk(ca, watches0) && OccExact(ca, was)
    requires |c| > 1 && LitsBelow(c, n) && Entered(was, occ, |ca|, multiset(c))
    requires forall p :: WatchList(watches, p) == WatchList(watches0, p) + NewWatchers(|ca|, c, p)
    ensures DatabaseOk(ca + [Cls(c, false)], n) && WatchesOk(ca + [Cls(c, false)], watches)
    ensures OccExact(ca + [Cls(c, false)], occ)
    ensures Stored(ca + [Cls(c, false)], units) == Stored(ca, units) + {multiset(c)}
  {
    hide *;
    AttachedWatches(ca, c, watches0, watches);
    EnteredOccurrences(ca, c, was, occ);
    DatabaseGrows(ca, c, n);
    BagJoins(ca, c, units);
  }

  lemma DatabaseGrows(ca: seq<Cls>, c: Clause, n: nat)
    requires DatabaseOk(ca, n) && |c| > 1 && LitsBelow(c, n)
    ensures DatabaseOk(ca + [Cls(c, false)], n)
  {
  }

  lemma BagJoins(ca: seq<Cls>, c: Clause, units: seq<Lit>)
    ensures Stored(ca + [Cls(c, false)], units) == Stored(ca, units) + {multiset(c)}
  {
    var cb := ca + [Cls(c, false)];
    assert cb[|ca|] == Cls(c, false);
    forall d | d in LiveBags(ca) ensures d in LiveBags(cb) {
      var k :| 0 <= k < |ca| && !ca[k].deleted && d == multiset(ca[k].lits);
      assert cb[k] == ca[k];
    }
    forall d | d in LiveBags(cb) ensures d in LiveBags(ca) || d == multiset(c) {
      var k :| 0 <= k < |cb| && !cb[k].deleted && d == multiset(cb[k].lits);
      if k < |ca| { assert cb[k] == ca[k]; }
    }
    assert multiset(c) in LiveBags(cb);
  }

  lemma UnitStored(ca: seq<Cls>, units: seq<Lit>, u: Lit)
    ensures Stored(ca, units + [u]) == Stored(ca, units) + {multiset([u])}
  {
    assert multiset([u]) == multiset{u};
    forall d | d in UnitBags(units + [u]) ensures d in UnitBags(units) || d == multiset{u} {
      var x :| x in units + [u] && d == multiset{x};
    }
    forall d | d in UnitBags(units) ensures d in UnitBags(units + [u]) {
      var x :| x in units && d == multiset{x};
      assert x in units + [u];
    }
    assert u in units + [u];
  }

  lemma ParsedHistory(parsed: set<LitBag>, f: set<LitBag>, d: LitBag)
    ensures Follows(parsed, f) ==> Follows(parsed + {d}, f + {d})
    ensures Follows(parsed, f) ==> (HasModel(parsed) ==> HasModel(f))
    ensures Follows(parsed, f) ==> (HasModel(parsed + {d}) ==> HasModel(f + {d}))
  {
    if Follows(parsed, f) {
      forall m: Model | SatBags(m, parsed + {d}) ensures SatBags(m, f + {d}) {
        SatBagsUnion(m, parsed, d);
        SatBagsUnion(m, f, d);
      }
      if HasModel(parsed + {d}) {
        var m: Model :| SatBags(m, parsed + {d});
      }
    }
  }

  // ---------- checking ----------

  // The trail holds the complements, of which no two are complementary.
  ghost predicate Complemented(trail: seq<Lit>, lits: Clause) {
    forall l :: l in trail <==> Neg(l) in lits
  }

  lemma NothingComplemented(lits: Clause)
    ensures Complemented([], lits[..0])
  {
  }

  lemma AllBelow(lits: Clause, n: nat)
    requires LitsBelow(lits, n)
    ensures forall i :: 0 <= i < |lits| ==> lits[i].v < n
  {
  }

  lemma ComplementNext(assigns: seq<LBool>, trail: seq<Lit>, lits: Clause, i: nat)
    requires AssignsOk(assigns, trail) && i < |lits| && LitsBelow(lits, |assigns|) && Complemented(trail, lits[..i])
    ensures lits[i].v < |assigns|
    ensures ValueOf(assigns, lits[i]) == Undef ==>
      ValueOf(assigns, Neg(lits[i])) == Undef && Complemented(trail + [Neg(lits[i])], lits[..i + 1])
    ensures ValueOf(assigns, lits[i]) == False ==> Complemented(trail, lits[..i + 1])
    ensures ValueOf(assigns, lits[i]) == True <==> ValueOf(assigns, Neg(lits[i])) == False
    ensures ValueOf(assigns, lits[i]) == True ==> Tautology(lits)
  {
    var l := lits[i];
    assert l in lits && Neg(Neg(l)) == l && Neg(l).v == l.v;
    AssignsConsistent(assigns, trail);
    assert lits[..i + 1] == lits[..i] + [l];
    assert forall k: Lit :: Neg(k) == l <==> k == Neg(l);
    if ValueOf(assigns, l) == True {
      assert l in trail && Neg(l) in lits[..i];
    }
  }

  lemma NoTautology(assigns: seq<LBool>, trail: seq<Lit>, lits: Clause)
    requires AssignsOk(assigns, trail) && Complemented(trail, lits)
    ensures !Tautology(lits)
  {
    AssignsConsistent(assigns, trail);
    forall l | l in lits ensures Neg(l) !in lits {
      assert Neg(Neg(l)) == l;
      assert Neg(l) in trail && l !in trail;
    }
  }

  lemma SameStart(B: set<LitBag>, trail: seq<Lit>, lits: Clause)
    requires forall l :: l in trail <==> Neg(l) in lits
    ensures UnitConflict(B, trail) <==> UnitConflict(B, Complements(lits))
  {
    hide UnitConflict;
    forall l ensures l in Complements(lits) <==> l in trail {
      if l in trail {
        var k :| 0 <= k < |lits| && lits[k] == Neg(l);
        assert Complements(lits)[k] == Neg(Neg(l)) == l;
      }
      if l in Complements(lits) {
        var k :| 0 <= k < |lits| && Complements(lits)[k] == l;
        assert Neg(l) == Neg(Neg(lits[k])) == lits[k];
      }
    }
    if UnitConflict(B, trail) { UnitConflictReordered(B, trail, Complements(lits)); }
    if UnitConflict(B, Complements(lits)) { UnitConflictReordered(B, Complements(lits), trail); }
  }

  // The occurrence lists do not depend on the order of literals.
  lemma OccReordered(was: seq<Cls>, ca: seq<Cls>, occ: Occs)
    requires OccExact(was, occ) && SameClauses(was, ca)
    ensures OccExact(ca, occ)
  {
    hide Occ;
  }

  // Every stored clause of at least two literals with ~cls[0] passes the test.
  ghost predicate RatLive(live: set<LitBag>, B: set<LitBag>, cls: Clause)
    requires cls != []
  {
    forall d :: d in live && Neg(cls[0]) in d ==> ResolventRup(B, cls, d)
  }

  lemma ResolventDecides(B: set<LitBag>, cls: Clause, d: LitBag, lits: Clause)
    requires cls != [] && !ClashesRest(cls, d) && ResolventOf(cls, d, lits)
    ensures ResolventRup(B, cls, d) <==> Rup(B, lits)
  {
    if ResolventRup(B, cls, d) {
      var r :| ResolventOf(cls, d, r) && Rup(B, r);
      RupSameLits(B, r, lits);
    }
  }

  lemma TautDecides(B: set<LitBag>, cls: Clause, d: LitBag)
    requires cls != [] && ClashesRest(cls, d)
    ensures ResolventRup(B, cls, d)
  {
  }

  lemma NotAllRat(ca: seq<Cls>, B: set<LitBag>, cls: Clause, i: CRef)
    requires cls != [] && i < |ca| && !ca[i].deleted && Neg(cls[0]) in multiset(ca[i].lits) && !ResolventRup(B, cls, multiset(ca[i].lits))
    ensures !RatLive(LiveBags(ca), B, cls)
  {
    assert multiset(ca[i].lits) in LiveBags(ca);
  }

  lemma AllRat(was: seq<Cls>, ca: seq<Cls>, occ: Occs, B: set<LitBag>, cls: Clause)
    requires cls != [] && OccExact(ca, occ) && SameClauses(was, ca)
    requires forall i: CRef :: i in List(occ, Neg(cls[0])) ==> i < |was| && ResolventRup(B, cls, multiset(was[i].lits))
    ensures RatLive(LiveBags(was), B, cls)
  {
    forall d | d in LiveBags(was) && Neg(cls[0]) in d ensures ResolventRup(B, cls, d) {
      var i :| 0 <= i < |was| && !was[i].deleted && d == multiset(was[i].lits);
      assert Neg(cls[0]) in multiset(ca[i].lits);
      LiveListed(ca, occ, Neg(cls[0]), i);
    }
  }

  // Which clauses addClause accepts.
  ghost predicate Accepted(live: set<LitBag>, B: set<LitBag>, drat: bool, cls: Clause) {
    Rup(B, cls) || (drat && cls != [] && RatLive(live, B, cls))
  }

  lemma SameLive(was: seq<Cls>, ca: seq<Cls>)
    requires SameClauses(was, ca)
    ensures LiveBags(ca) == LiveBags(was)
  {
    forall d | d in LiveBags(was) ensures d in LiveBags(ca) {
      var i :| 0 <= i < |was| && !was[i].deleted && d == multiset(was[i].lits);
      assert !ca[i].deleted && d == multiset(ca[i].lits);
    }
    forall d | d in LiveBags(ca) ensures d in LiveBags(was) {
      var i :| 0 <= i < |ca| && !ca[i].deleted && d == multiset(ca[i].lits);
      assert !was[i].deleted && d == multiset(was[i].lits);
    }
  }

  // A clause accepted by the test on its first literal keeps the stored clauses
  // satisfiable, provided the complement of that literal is not a stored unit clause.
  lemma RatAcceptedKeepsModel(live: set<LitBag>, units: seq<Lit>, cls: Clause)
    requires cls != [] && RatLive(live, live + UnitBags(units), cls) && Neg(cls[0]) !in units
    requires HasModel(live + UnitBags(units))
    ensures HasModel(live + UnitBags(units) + {multiset(cls)})
  {
    var B := live + UnitBags(units);
    NoSuchUnit(units, Neg(cls[0]));
    assert Rat(B, cls);
    RatKeepsModel(B, cls);
  }

  lemma NoSuchUnit(units: seq<Lit>, l: Lit)
    requires l !in units
    ensures forall d :: d in UnitBags(units) ==> l !in d
  {
  }

  // What an accepted clause does to the history of a run.
  lemma AcceptedHistory(parsed: set<LitBag>, live: set<LitBag>, B: set<LitBag>, units: seq<Lit>, cls: Clause, rup: bool)
    requires B == live + UnitBags(units)
    requires if rup then Rup(B, cls) else cls != [] && RatLive(live, B, cls)
    ensures rup && Follows(parsed, B) ==> Follows(parsed, B + {multiset(cls)})
    ensures (rup || Neg(cls[0]) !in units) && (HasModel(parsed) ==> HasModel(B)) ==>
              (HasModel(parsed) ==> HasModel(B + {multiset(cls)}))
  {
    if rup {
      RupFollows(B, cls);
      if HasModel(B) {
        var m: Model :| SatBags(m, B);
        assert SatBags(m, B + {multiset(cls)});
      }
    } else if Neg(cls[0]) !in units && HasModel(B) {
      RatAcceptedKeepsModel(live, units, cls);
    }
  }

  lemma AcceptedRat(live: set<LitBag>, B: set<LitBag>, drat: bool, cls: Clause)
    requires Accepted(live, B, drat, cls)
    ensures Rup(B, cls) || (drat && cls != [] && RatLive(live, B, cls))
  {
  }

  // ---------- removing ----------

  function LitOfCode(n: nat): (l: Lit)
    ensures Code(l) == n
  {
    Lit(n / 2, n % 2 == 1)
  }

  // What the search for a clause asks for.
  predicate IsCopy(c: Clause, cls: Clause) {
    |c| == |cls| && Lits(c) <= Lits(cls)
  }

  method AllIn(c: Clause, marked: set<Lit>) returns (r: bool)
    ensures r <==> Lits(c) <= marked
  {
    var hit := 0;
    while hit < |c|
      invariant 0 <= hit <= |c| && forall k :: 0 <= k < hit ==> c[k] in marked
    {
      if c[hit] !in marked {
        assert c[hit] in Lits(c);
        return false;
      }
      hit := hit + 1;
    }
    r := true;
  }

  lemma {:induction false} LitsSize(c: Clause)
    ensures |Lits(c)| <= |c| && (NoDup(c) <==> |Lits(c)| == |c|)
  {
    if c != [] {
      var front, l := c[..|c| - 1], c[|c| - 1];
      LitsSize(front);
      assert c == front + [l];
      assert Lits(c) == Lits(front) + {l};
      if NoDup(c) {
        assert l !in front;
      } else if NoDup(front) {
        assert l in Lits(front);
      }
    }
  }

  lemma {:induction false} NoDupBag(c: Clause, l: Lit)
    requires NoDup(c)
    ensures multiset(c)[l] == if l in c then 1 else 0
  {
    if c != [] {
      var front := c[..|c| - 1];
      assert c == front + [c[|c| - 1]];
      NoDupBag(front, l);
    }
  }

  // A match without repeated literals is the clause, in some order.
  lemma CopySame(c: Clause, cls: Clause)
    requires IsCopy(c, cls) && NoDup(c)
    ensures multiset(c) == multiset(cls)
  {
    LitsSize(c);
    LitsSize(cls);
    SubsetCard(Lits(c), Lits(cls));
    DiffCard(Lits(cls), Lits(c));
    assert Lits(cls) == (Lits(cls) - Lits(c)) + Lits(c);
    forall l ensures multiset(c)[l] == multiset(cls)[l] {
      NoDupBag(c, l);
      NoDupBag(cls, l);
      assert l in c <==> l in Lits(c);
      assert l in cls <==> l in Lits(cls);
    }
  }

  // Every match is the clause in some order. Otherwise the lists of the clause that is
  // removed would keep references to it, which the code asserts does not happen.
  ghost predicate Removable(ca: seq<Cls>, cls: Clause) {
    forall i :: 0 <= i < |ca| && !ca[i].deleted && IsCopy(ca[i].lits, cls) ==> multiset(ca[i].lits) == multiset(cls)
  }

  // Only stored clauses with repeated literals can be taken for others.
  lemma NoRepeatsRemovable(ca: seq<Cls>, cls: Clause)
    requires forall i :: 0 <= i < |ca| && !ca[i].deleted ==> NoDup(ca[i].lits)
    ensures Removable(ca, cls)
  {
    forall i | 0 <= i < |ca| && !ca[i].deleted && IsCopy(ca[i].lits, cls) ensures multiset(ca[i].lits) == multiset(cls) {
      CopySame(ca[i].lits, cls);
    }
  }

  lemma RepeatedNotRemovable(x: Lit, y: Lit)
    requires x != y
    ensures !Removable([Cls([x, x], false)], [x, y])
  {
    var ca := [Cls([x, x], false)];
    assert Lits([x, x]) == {x} && x in Lits([x, y]);
    assert y in multiset([x, y]) && y !in multiset([x, x]);
    assert ca[0].lits == [x, x] && IsCopy(ca[0].lits, [x, y]);
  }

  ghost predicate IsLive(ca: seq<Cls>, i: CRef, d: LitBag) {
    i < |ca| && !ca[i].deleted && multiset(ca[i].lits) == d
  }

  lemma CopyIs(ca: seq<Cls>, i: CRef, cls: Clause)
    requires Removable(ca, cls) && i < |ca| && !ca[i].deleted
    ensures IsCopy(ca[i].lits, cls) <==> IsLive(ca, i, multiset(cls))
    ensures |ca[i].lits| == |cls| && Lits(ca[i].lits) <= Lits(cls) <==> IsLive(ca, i, multiset(cls))
    ensures IsLive(ca, i, multiset(cls)) ==> multiset(cls) in LiveBags(ca)
  {
    var c := ca[i].lits;
    if multiset(c) == multiset(cls) {
      assert |multiset(c)| == |multiset(cls)|;
      forall l | l in Lits(c) ensures l in Lits(cls) {
        assert l in multiset(c);
        assert l in multiset(cls);
      }
    }
  }

  // What the look-up in the list of l takes for the clause.
  ghost predicate Matches(ca: seq<Cls>, i: CRef, cls: Clause, l: Lit) {
    i < |ca| && !ca[i].deleted && l in ca[i].lits && IsCopy(ca[i].lits, cls)
  }

  // The literal of which the list is searched: the comparison that chooses it looks up the
  // best index so far as if it were a literal.
  ghost function ShortIndex(occ: Occs, cls: Clause, n: nat): (r: nat)
    requires 0 < n <= |cls|
    ensures r < n
  {
    if n == 1 then 0
    else
      var best := ShortIndex(occ, cls, n - 1);
      if |List(occ, cls[n - 1])| < |List(occ, LitOfCode(best))| then n - 1 else best
  }

  lemma MatchListed(ca: seq<Cls>, occ: Occs, cls: Clause, l: Lit)
    requires OccExact(ca, occ)
    ensures forall i :: Matches(ca, i, cls, l) ==> i in List(occ, l)
  {
    forall i | Matches(ca, i, cls, l) ensures i in List(occ, l) {
      LiveListed(ca, occ, l, i);
    }
  }

  // If all matches are the clause in some order, the look-up finds the clause if it is
  // stored, and nothing else.
  lemma MatchIsClause(ca: seq<Cls>, cls: Clause, k: nat)
    requires Removable(ca, cls) && k < |cls|
    ensures (exists i :: Matches(ca, i, cls, cls[k])) <==> multiset(cls) in LiveBags(ca)
    ensures forall i :: Matches(ca, i, cls, cls[k]) ==> IsLive(ca, i, multiset(cls))
  {
    hide IsCopy, Removable;
    forall i | Matches(ca, i, cls, cls[k]) ensures IsLive(ca, i, multiset(cls)) && multiset(cls) in LiveBags(ca) {
      CopyIs(ca, i, cls);
    }
    if multiset(cls) in LiveBags(ca) {
      var i :| 0 <= i < |ca| && !ca[i].deleted && multiset(cls) == multiset(ca[i].lits);
      assert cls[k] in multiset(cls);
      assert cls[k] in multiset(ca[i].lits);
      CopyIs(ca, i, cls);
      assert Matches(ca, i, cls, cls[k]);
    }
  }

  // The stored clauses, each as often as it is stored.
  ghost function BagsOf(ca: seq<Cls>): multiset<LitBag> {
    if ca == [] then multiset{} else BagsOf(ca[..|ca| - 1]) + BagOf(ca[|ca| - 1])
  }

  ghost function BagOf(c: Cls): multiset<LitBag> {
    if c.deleted then multiset{} else multiset{multiset(c.lits)}
  }

  // Removing a match takes one copy of the clause that was found: it has as many literals
  // as the clause that was asked for, and only literals of it. For a clause that repeats no
  // literal, another one goes if and only if the one that was found repeats a literal.
  lemma MatchRemoved(ca: seq<Cls>, i: CRef, cls: Clause, l: Lit)
    requires Matches(ca, i, cls, l)
    ensures var d := multiset(ca[i].lits);
      && d in BagsOf(ca) && BagsOf(ca[i := ca[i].(deleted := true)]) == BagsOf(ca) - multiset{d}
      && |d| == |cls| && (forall x :: x in d ==> x in cls)
      && (NoDup(cls) ==> (d == multiset(cls) <==> NoDup(ca[i].lits)))
  {
    var d := multiset(ca[i].lits);
    OneBagLess(ca, i);
    forall x | x in d ensures x in cls {
      assert x in Lits(ca[i].lits);
    }
    if NoDup(ca[i].lits) { CopySame(ca[i].lits, cls); }
    if NoDup(cls) && d == multiset(cls) { SameNoDup(cls, ca[i].lits); }
  }

  lemma {:induction false} OneBagLess(ca: seq<Cls>, i: CRef)
    requires i < |ca| && !ca[i].deleted
    ensures var d := multiset(ca[i].lits); d in BagsOf(ca) && BagsOf(ca[i := ca[i].(deleted := true)]) == BagsOf(ca) - multiset{d}
  {
    hide BagOf;
    var n, c := |ca| - 1, ca[i];
    var cb, d := ca[i := c.(deleted := true)], multiset(c.lits);
    BagOfCase(c);
    if i < n {
      OneBagLess(ca[..n], i);
      assert cb[..n] == ca[..n][i := c.(deleted := true)] && cb[n] == ca[n];
      TakenFirst(BagsOf(ca[..n]), BagOf(ca[n]), d);
    } else {
      assert cb[..n] == ca[..n];
      TakenLast(BagsOf(ca[..n]), d);
    }
  }

  lemma BagOfCase(c: Cls)
    ensures !c.deleted ==> BagOf(c) == multiset{multiset(c.lits)} && BagOf(c.(deleted := true)) == multiset{}
  {
  }

  lemma TakenFirst(a: multiset<LitBag>, b: multiset<LitBag>, d: LitBag)
    requires d in a
    ensures d in a + b && (a - multiset{d}) + b == (a + b) - multiset{d}
  {
  }

  lemma TakenLast(a: multiset<LitBag>, d: LitBag)
    ensures d in a + multiset{d} && a + multiset{} == (a + multiset{d}) - multiset{d}
  {
  }

  lemma SameNoDup(c: Clause, d: Clause)
    requires NoDup(c) && multiset(d) == multiset(c)
    ensures NoDup(d)
  {
    forall i, k | 0 <= i < k < |d| ensures d[i] != d[k] {
      assert d == d[..k] + [d[k]] + d[k + 1..];
      NoDupBag(c, d[k]);
      assert d[i] in d[..k];
    }
  }

  // References to cr have left the lists, one for each literal of d.
  ghost predicate Withdrawn(was: Occs, occ: Occs, cr: CRef, d: LitBag) {
    forall l, i: CRef :: Occ(occ, l, i) == if i != cr then Occ(was, l, i) else Less(Occ(was, l, i), d[l])
  }

  lemma NothingWithdrawn(occ: Occs, cr: CRef)
    ensures Withdrawn(occ, occ, cr, multiset{})
  {
  }

  // The literals whose lists have been treated: one first, and then in order.
  function Handed(cls: Clause, first: nat, i: nat): LitBag
    requires first < |cls| && i <= |cls|
  {
    multiset(cls[..i]) + if i <= first then multiset{cls[first]} else multiset{}
  }

  lemma HandedNext(cls: Clause, first: nat, i: nat)
    requires first < |cls| && i < |cls|
    ensures Handed(cls, first, i + 1) == if i == first then Handed(cls, first, i) else Handed(cls, first, i) + multiset{cls[i]}
    ensures Handed(cls, first, 0) == multiset{} + multiset{cls[first]} && Handed(cls, first, |cls|) == multiset(cls)
  {
    assert cls[..i + 1] == cls[..i] + [cls[i]];
    assert cls[..|cls|] == cls;
  }

  function Less(a: nat, b: nat): (r: nat)
    ensures b <= a ==> r == a - b
  {
    if b <= a then a - b else 0
  }

  lemma WithdrawnOne(was: Occs, mid: Occs, occ: Occs, cr: CRef, d: LitBag, l: Lit)
    requires Withdrawn(was, mid, cr, d)
    requires forall k :: k != l ==> List(occ, k) == List(mid, k)
    requires multiset(List(occ, l)) == multiset(List(mid, l)) - multiset{cr}
    ensures Withdrawn(was, occ, cr, d + multiset{l})
  {
    hide Occ, Less, List;
    forall k, i: CRef ensures Occ(occ, k, i) == if i != cr then Occ(was, k, i) else Less(Occ(was, k, i), (d + multiset{l})[k]) {
      assert Occ(mid, k, i) == if i != cr then Occ(was, k, i) else Less(Occ(was, k, i), d[k]);
      OccTaken(mid, occ, cr, l, k, i);
      LessTwice(Occ(was, k, i), d[k]);
    }
  }

  lemma OccTaken(mid: Occs, occ: Occs, cr: CRef, l: Lit, k: Lit, i: CRef)
    requires k != l ==> List(occ, k) == List(mid, k)
    requires multiset(List(occ, l)) == multiset(List(mid, l)) - multiset{cr}
    ensures Occ(occ, k, i) == if k == l && i == cr then Less(Occ(mid, k, i), 1) else Occ(mid, k, i)
  {
  }

  lemma LessTwice(a: nat, b: nat)
    ensures Less(Less(a, b), 1) == Less(a, b + 1)
  {
  }

  lemma RemovedOccurrences(ca: seq<Cls>, n: nat, was: Occs, occ: Occs, ref: CRef, cls: Clause)
    requires DatabaseOk(ca, n) && OccExact(ca, was) && IsLive(ca, ref, multiset(cls))
    requires Withdrawn(was, occ, ref, multiset(cls))
    ensures OccExact(ca[ref := ca[ref].(deleted := true)], occ)
    ensures DatabaseOk(ca[ref := ca[ref].(deleted := true)], n)
  {
    hide Occ;
    var cb := ca[ref := ca[ref].(deleted := true)];
    forall l, i: CRef ensures Occ(occ, l, i) == if i < |cb| && !cb[i].deleted then multiset(cb[i].lits)[l] else 0 {
      assert Occ(was, l, i) == if i < |ca| && !ca[i].deleted then multiset(ca[i].lits)[l] else 0;
    }
  }

  lemma SwapRemoveElements<T>(s: seq<T>, i: nat)
    requires i < |s|
    ensures forall k :: 0 <= k < |s| - 1 ==> SwapRemove(s, i)[k] == if k == i then s[|s| - 1] else s[k]
  {
  }

  // The list has lost n watchers of clause cr, and nothing else.
  ghost predicate Fewer(before: seq<Watcher>, after: seq<Watcher>, cr: CRef, n: nat) {
    && (forall i: CRef :: Count(before, i) == Count(after, i) + if i == cr then n else 0)
    && (forall k :: 0 <= k < |after| ==> after[k] in before)
  }

  lemma OneFewer(list: seq<Watcher>, j: nat)
    requires j < |list|
    ensures Fewer(list, SwapRemove(list, j), list[j].cref, 1)
  {
    var n, after := |list| - 1, SwapRemove(list, j);
    SwapRemoveElements(list, j);
    forall i: CRef ensures Count(list, i) == Count(after, i) + if i == list[j].cref then 1 else 0 {
      CountLast(list[..n], list[n], i);
      assert list == list[..n] + [list[n]];
      if j < n {
        assert list[..n] == list[..j] + ([list[j]] + list[j + 1..n]);
        assert after == list[..j] + ([list[n]] + list[j + 1..n]);
        CountMiddle(list[..j], list[j], list[j + 1..n], i);
        CountMiddle(list[..j], list[n], list[j + 1..n], i);
      } else {
        assert after == list[..n];
      }
    }
  }

  lemma FewerNone(list: seq<Watcher>, cr: CRef)
    ensures Fewer(list, list, cr, 0)
  {
  }

  lemma FewerTwice(a: seq<Watcher>, b: seq<Watcher>, c: seq<Watcher>, cr: CRef, n: nat, k: nat)
    requires Fewer(a, b, cr, n) && Fewer(b, c, cr, k)
    ensures Fewer(a, c, cr, n + k)
  {
    hide Count;
  }

  // One list after all watchers of cr have been taken out.
  lemma DetachedList(ca: seq<Cls>, cr: CRef, p: Lit, before: seq<Watcher>, after: seq<Watcher>)
    requires ListOk(ca, p, before) && cr < |ca| && !ca[cr].deleted && Fewer(before, after, cr, Slots(ca[cr].lits, Neg(p)))
    ensures ListOk(ca[cr := ca[cr].(deleted := true)], p, after)
  {
    hide Slots, Count;
    var cb := ca[cr := ca[cr].(deleted := true)];
    CountIn(after, cr);
    forall k | 0 <= k < |after| ensures WatcherOk(cb, p, after[k]) {
      var j :| 0 <= j < |before| && before[j] == after[k];
      assert WatcherOk(ca, p, before[j]);
      assert after[k].cref == cr ==> WatchedIn(after, cr);
    }
    forall i: CRef ensures Count(after, i) == SlotsAt(cb, i, Neg(p)) {
      assert Count(before, i) == SlotsAt(ca, i, Neg(p));
    }
  }

  lemma WatchedFirstTwo(ca: seq<Cls>, watches: Watches, cr: CRef)
    requires WatchesOk(ca, watches) && cr < |ca| && !ca[cr].deleted && |ca[cr].lits| > 1
    ensures var c := ca[cr].lits;
      && Count(WatchList(watches, Neg(c[0])), cr) == Slots(c, c[0]) > 0
      && Count(WatchList(watches, Neg(c[1])), cr) == Slots(c, c[1]) > 0 && (c[0] == c[1] ==> Slots(c, c[0]) > 1)
  {
    var c := ca[cr].lits;
    assert Neg(Neg(c[0])) == c[0] && Neg(Neg(c[1])) == c[1];
    assert ListOk(ca, Neg(c[0]), WatchList(watches, Neg(c[0]))) && ListOk(ca, Neg(c[1]), WatchList(watches, Neg(c[1])));
    assert SlotsAt(ca, cr, c[0]) == Slots(c, c[0]) && SlotsAt(ca, cr, c[1]) == Slots(c, c[1]);
  }

  lemma StillWatched(w0: Watches, w1: Watches, cr: CRef, c: Clause)
    requires |c| > 1 && Count(WatchList(w0, Neg(c[1])), cr) > 0
    requires c[0] == c[1] ==> Count(WatchList(w0, Neg(c[0])), cr) > 1
    requires forall q :: q != Neg(c[0]) ==> WatchList(w1, q) == WatchList(w0, q)
    requires Fewer(WatchList(w0, Neg(c[0])), WatchList(w1, Neg(c[0])), cr, 1)
    ensures Count(WatchList(w1, Neg(c[1])), cr) > 0
  {
    hide Count;
    assert Neg(Neg(c[0])) == c[0] && Neg(Neg(c[1])) == c[1];
  }

  lemma DetachedWatches(ca: seq<Cls>, cr: CRef, w0: Watches, w1: Watches, w2: Watches)
    requires WatchesOk(ca, w0) && cr < |ca| && !ca[cr].deleted && |ca[cr].lits| > 1
    requires var p := Neg(ca[cr].lits[0]);
      Fewer(WatchList(w0, p), WatchList(w1, p), cr, 1) && forall q :: q != p ==> WatchList(w1, q) == WatchList(w0, q)
    requires var p := Neg(ca[cr].lits[1]);
      Fewer(WatchList(w1, p), WatchList(w2, p), cr, 1) && forall q :: q != p ==> WatchList(w2, q) == WatchList(w1, q)
    ensures WatchesOk(ca[cr := ca[cr].(deleted := true)], w2)
  {
    hide Fewer, ListOk;
    var c := ca[cr].lits;
    forall p ensures ListOk(ca[cr := ca[cr].(deleted := true)], p, WatchList(w2, p)) {
      assert Neg(Neg(p)) == p && Neg(Neg(c[0])) == c[0] && Neg(Neg(c[1])) == c[1];
      FewerNone(WatchList(w0, p), cr);
      FewerNone(WatchList(w1, p), cr);
      FewerTwice(WatchList(w0, p), WatchList(w1, p), WatchList(w2, p), cr,
        if p == Neg(c[0]) then 1 else 0, if p == Neg(c[1]) then 1 else 0);
      DetachedList(ca, cr, p, WatchList(w0, p), WatchList(w2, p));
    }
  }

  lemma SwapRemoveCount<T>(s: seq<T>, i: nat)
    requires i < |s|
    ensures multiset(SwapRemove(s, i)) == multiset(s) - multiset{s[i]}
    ensures forall x :: x in SwapRemove(s, i) ==> x in s
  {
    var n := |s| - 1;
    assert SwapRemove(s, i) == Swapped(s, i, n)[..n];
    SwapMultiset(s, i, n);
    assert Swapped(s, i, n) == SwapRemove(s, i) + [s[i]];
  }

  lemma FewerUnits(ca: seq<Cls>, was: seq<Lit>, units: seq<Lit>)
    ensures multiset(units) <= multiset(was) ==> Stored(ca, units) <= Stored(ca, was)
  {
    if multiset(units) <= multiset(was) {
      forall u | u in units ensures u in was {
        assert u in multiset(units);
        assert u in multiset(was);
      }
    }
  }

  lemma FewerClauses(was: seq<Cls>, ca: seq<Cls>, units: seq<Lit>, b: LitBag)
    ensures (exists i: CRef :: IsLive(was, i, b) && ca == was[i := was[i].(deleted := true)]) ==> Stored(ca, units) <= Stored(was, units)
  {
    if i: CRef :| IsLive(was, i, b) && ca == was[i := was[i].(deleted := true)] {
      forall d | d in LiveBags(ca) ensures d in LiveBags(was) {
        var k :| 0 <= k < |ca| && !ca[k].deleted && d == multiset(ca[k].lits);
        assert was[k] == ca[k];
      }
    }
  }

  lemma FewerHistory(parsed: set<LitBag>, f: set<LitBag>, g: set<LitBag>)
    requires g <= f
    ensures Follows(parsed, f) ==> Follows(parsed, g)
    ensures HasModel(f) ==> HasModel(g)
  {
    forall m: Model | SatBags(m, f) ensures SatBags(m, g) {}
    if HasModel(f) {
      var m: Model :| SatBags(m, f);
      assert SatBags(m, g);
    }
  }

  // ---------- what an accepted proof shows ----------

  lemma EmptyClauseUnsat(B: set<LitBag>)
    requires multiset{} in B
    ensures !HasModel(B)
  {
    forall m: Model ensures !SatBags(m, B) {
      var e: LitBag := multiset{};
      assert e in B && !SatBag(m, e);
    }
  }

  // In the DRUP format, an empty clause shows that the parsed formula has no model.
  lemma DrupRunSound(c: OnlineProofChecker)
    requires c.Valid() && !c.drat && !c.ok
    ensures !HasModel(c.parsed)
  {
    CleanRunSound(c);
  }

  // In the DRAT format the same holds as long as no clause was accepted on a literal whose
  // complement is a stored unit clause, and no clause was parsed after such additions.
  lemma CleanRunSound(c: OnlineProofChecker)
    requires c.Valid() && c.clean && !c.ok
    ensures !HasModel(c.parsed)
  {
    assert multiset{} in c.Formula();
    EmptyClauseUnsat(c.Formula());
  }

  // The second test does not see unit clauses: x is accepted although ~x is stored.
  lemma UnitAccepted(x: Lit)
    ensures Accepted({}, UnitBags([Neg(x)]), true, [x])
    ensures HasModel(UnitBags([Neg(x)])) && !HasModel(UnitBags([Neg(x)]) + {multiset([x])})
  {
    UnitBagsModel([Neg(x)], Assign([], Neg(x)));
    assert RatLive({}, UnitBags([Neg(x)]), [x]);
    forall m: Model ensures !SatBags(m, UnitBags([Neg(x)]) + {multiset([x])}) {
      UnitNeeds(m, x);
    }
  }

  lemma UnitBagsModel(units: seq<Lit>, m: Model)
    requires forall u :: u in units ==> Holds(m, u)
    ensures SatBags(m, UnitBags(units))
  {
    forall d | d in UnitBags(units) ensures SatBag(m, d) {
      var u :| u in units && d == multiset{u};
      assert u in d;
    }
  }

  lemma UnitNeeds(m: Model, x: Lit)
    ensures !SatBags(m, UnitBags([Neg(x)]) + {multiset([x])})
  {
    var p, n: LitBag := multiset([x]), multiset{Neg(x)};
    assert Neg(x) in [Neg(x)];
    assert n in UnitBags([Neg(x)]) + {p} && p in UnitBags([Neg(x)]) + {p};
    assert SatBag(m, n) <==> Holds(m, Neg(x));
    assert p == multiset{x};
    assert SatBag(m, p) <==> Holds(m, x);
  }

  // Whatever clause passes the second test: if the complement of its first literal is a
  // stored unit clause, only the other literals can make it true.
  lemma RatExact(live: set<LitBag>, units: seq<Lit>, cls: Clause)
    requires cls != [] && RatLive(live, live + UnitBags(units), cls)
    ensures var B := live + UnitBags(units);
      HasModel(B + {multiset(cls)}) <==> if Neg(cls[0]) in units then HasModel(B + {multiset(cls[1..])}) else HasModel(B)
  {
    var B := live + UnitBags(units);
    if Neg(cls[0]) !in units {
      if HasModel(B) { RatAcceptedKeepsModel(live, units, cls); }
      if HasModel(B + {multiset(cls)}) {
        var m: Model :| SatBags(m, B + {multiset(cls)});
        SatBagsUnion(m, B, multiset(cls));
      }
    } else {
      assert multiset{Neg(cls[0])} in B;
      forall m: Model ensures SatBags(m, B + {multiset(cls)}) <==> SatBags(m, B + {multiset(cls[1..])}) {
        SatBagsUnion(m, B, multiset(cls));
        SatBagsUnion(m, B, multiset(cls[1..]));
        if SatBags(m, B) { FirstFalse(m, cls); }
      }
    }
  }

  lemma FirstFalse(m: Model, cls: Clause)
    requires cls != [] && SatBag(m, multiset{Neg(cls[0])})
    ensures SatBag(m, multiset(cls)) <==> SatBag(m, multiset(cls[1..]))
  {
    assert Holds(m, Neg(cls[0]));
    assert cls == [cls[0]] + cls[1..];
    if SatBag(m, multiset(cls)) {
      var l :| l in multiset(cls) && Holds(m, l);
      assert l in cls[1..];
      assert l in multiset(cls[1..]);
    }
    if SatBag(m, multiset(cls[1..])) {
      var l :| l in multiset(cls[1..]) && Holds(m, l);
      assert l in cls;
      assert l in multiset(cls);
    }
  }

  // Two clauses that repeat a literal: the checker rejects the empty clause, although the
  // formula has no model and propagation on sets of literals would show it.
  method RepeatedRejected(x: Lit) returns (c: OnlineProofChecker, accepted: bool)
    ensures !accepted && !HasModel(c.parsed) && UnitConflict(Supports(c.parsed), [])
  {
    c := ParseBoth([x, x], [Neg(x), Neg(x)]);
    RepeatsHideConflict(x);
    BothRepeated(x);
    EmptyNotAccepted(c.parsed);
    hide *;
    accepted := c.AddClause([], false);
  }

  // A checker for the DRAT format: the formula is a single unit clause, and the proof adds
  // its complement and then the empty clause. Both are accepted, although the formula has a
  // model.
  method RatIgnoresUnits(x: Lit) returns (c: OnlineProofChecker, first: bool, second: bool)
    ensures fresh(c) && c.Valid() && c.drat && c.parsed == {multiset([Neg(x)])} && HasModel(c.parsed)
    ensures first && second && !c.ok
  {
    hide *;
    c := ParseUnit(Neg(x));
    OneUnitStored(c.ca, c.unitClauses, Neg(x));
    UnitAccepted(x);
    first := c.AddClause([x], false);
    OkFormula(c);
    UnitsConflict(c.ca, x, Stored(c.ca, c.unitClauses));
    second := c.AddClause([], false);
  }

  method ParseUnit(u: Lit) returns (c: OnlineProofChecker)
    ensures fresh(c) && c.Valid() && c.ok && c.drat && c.parsed == {multiset([u])} && LongOnly(c.ca)
    ensures Stored(c.ca, c.unitClauses) == {multiset([u])} && c.Formula() == {multiset([u])}
  {
    c := new OnlineProofChecker(true);
    hide *;
    c.AddParsedClause([u]);
    OkFormula(c);
    DatabaseLong(c);
  }

  ghost predicate LongOnly(ca: seq<Cls>) {
    forall i :: 0 <= i < |ca| && !ca[i].deleted ==> |ca[i].lits| > 1
  }

  lemma DatabaseLong(c: OnlineProofChecker)
    requires c.Valid()
    ensures LongOnly(c.ca)
  {
  }

  lemma LiveAreLong(ca: seq<Cls>)
    requires LongOnly(ca)
    ensures forall d :: d in LiveBags(ca) ==> |d| > 1
  {
    forall d | d in LiveBags(ca) ensures |d| > 1 {
      var i :| 0 <= i < |ca| && !ca[i].deleted && d == multiset(ca[i].lits);
    }
  }

  // A single stored unit clause is no clause of the database.
  lemma OneUnitStored(ca: seq<Cls>, units: seq<Lit>, u: Lit)
    requires LongOnly(ca) && Stored(ca, units) == {multiset([u])}
    ensures LiveBags(ca) == {} && Stored(ca, units) == UnitBags([u])
  {
    LiveAreLong(ca);
    assert LiveBags(ca) <= Stored(ca, units) && |multiset([u])| == 1;
    assert u in [u] && multiset([u]) == multiset{u};
    assert UnitBags([u]) == {multiset{u}};
  }

  lemma UnitsConflict(ca: seq<Cls>, x: Lit, B: set<LitBag>)
    ensures B == {multiset([Neg(x)])} + {multiset([x])} ==> forall live :: Accepted(live, B, true, [])
  {
    if B == {multiset([Neg(x)])} + {multiset([x])} {
      SinglesConflict(B, multiset([x]), multiset([Neg(x)]), x);
      assert Complements([]) == [];
    }
  }

  // A DRUP checker for a formula of two clauses.
  method ParseBoth(a: Clause, b: Clause) returns (c: OnlineProofChecker)
    requires a != [] && b != []
    ensures fresh(c) && c.Valid() && c.ok && !c.drat && c.parsed == {multiset(a), multiset(b)}
    ensures Stored(c.ca, c.unitClauses) == c.parsed
  {
    c := new OnlineProofChecker(false);
    hide *;
    c.AddParsedClause(a);
    c.AddParsedClause(b);
    OkFormula(c);
  }

  lemma BothRepeated(x: Lit)
    ensures {multiset([x, x]), multiset([Neg(x), Neg(x)])} == {multiset{x, x}, multiset{Neg(x), Neg(x)}}
  {
    assert multiset([x, x]) == multiset{x, x} && multiset([Neg(x), Neg(x)]) == multiset{Neg(x), Neg(x)};
  }

  lemma OkFormula(c: OnlineProofChecker)
    ensures c.ok ==> c.Formula() == Stored(c.ca, c.unitClauses)
  {
  }

  lemma EmptyNotAccepted(B: set<LitBag>)
    requires !UnitConflict(B, [])
    ensures forall live :: !Accepted(live, B, false, [])
  {
    assert Complements([]) == [];
  }
}
