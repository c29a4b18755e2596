// Renaming the variables of the formula at random, and renaming a model back
// (coprocessor/Shuffler.cc).

module Shuffler {
  import opened Collections
  import opened Sat
  import opened Undo
  import opened Formula

  // ---------- signed permutations ----------

  // Different variables have different images, below n.
  ghost predicate SignedPermutation(rep: seq<Lit>, n: nat) {
    && |rep| == n
    && (forall i :: 0 <= i < n ==> rep[i].v < n)
    && (forall i, j :: 0 <= i < j < n ==> rep[i].v != rep[j].v)
  }

  // The new name of a literal.
  function Renamed(rep: seq<Lit>, l: Lit): Lit
    requires l.v < |rep|
  {
    if l.neg then Neg(rep[l.v]) else rep[l.v]
  }

  ghost predicate InRange(c: Clause, n: nat) {
    forall l :: l in c ==> l.v < n
  }

  function RenamedAll(rep: seq<Lit>, c: Clause): (r: Clause)
    requires InRange(c, |rep|)
    ensures |r| == |c| && forall i :: 0 <= i < |c| ==> r[i] == Renamed(rep, c[i])
  {
    seq(|c|, i requires 0 <= i < |c| => Renamed(rep, c[i]))
  }

  lemma SwapKeepsPermutation(rep: seq<Lit>, n: nat, i: nat, k: nat)
    requires SignedPermutation(rep, n) && i < n && k < n
    ensures SignedPermutation(Swapped(rep, i, k), n)
  {
  }

  lemma FlipKeepsPermutation(rep: seq<Lit>, n: nat, i: nat)
    requires SignedPermutation(rep, n) && i < n
    ensures SignedPermutation(rep[i := Neg(rep[i])], n)
  {
  }

  ghost predicate IsImage(rep: seq<Lit>, v: nat) {
    exists i :: 0 <= i < |rep| && rep[i].v == v
  }

  ghost function Images(rep: seq<Lit>): (r: set<nat>)
    ensures forall v :: v in r <==> IsImage(rep, v)
  {
    if rep == [] then {}
    else
      var n := |rep| - 1;
      assert rep == rep[..n] + [rep[n]];
      assert forall v :: IsImage(rep[..n], v) || v == rep[n].v <==> IsImage(rep, v) by {
        forall v | IsImage(rep[..n], v) ensures IsImage(rep, v) { var i :| 0 <= i < n && rep[..n][i].v == v; assert rep[i].v == v; }
        forall v | IsImage(rep, v) && v != rep[n].v ensures IsImage(rep[..n], v) {
          var i :| 0 <= i < |rep| && rep[i].v == v;
          assert rep[..n][i].v == v;
        }
      }
      Images(rep[..n]) + {rep[n].v}
  }

  lemma {:induction false} ImageCard(rep: seq<Lit>)
    requires forall i, j :: 0 <= i < j < |rep| ==> rep[i].v != rep[j].v
    ensures |Images(rep)| == |rep|
  {
    if rep != [] {
      var n := |rep| - 1;
      ImageCard(rep[..n]);
      assert !IsImage(rep[..n], rep[n].v);
    }
  }

  ghost function Below(n: nat): (r: set<nat>)
    ensures |r| == n && forall v: nat :: v in r <==> v < n
  {
    if n == 0 then {} else Below(n - 1) + {n - 1}
  }

  // Every variable below n is the new name of one.
  lemma Onto(rep: seq<Lit>, n: nat, v: nat)
    requires SignedPermutation(rep, n) && v < n
    ensures IsImage(rep, v)
  {
    ImageCard(rep);
    if v !in Images(rep) {
      SubsetCard(Images(rep), Below(n) - {v});
    }
  }

  // ---------- renaming and truth ----------

  // m is the unshuffled form of s: a variable has the truth value of its new name.
  ghost predicate Unshuffled(rep: seq<Lit>, s: Model, m: Model) {
    forall l: Lit {:trigger Holds(m, l)} :: l.v < |rep| ==> (Holds(m, l) <==> Holds(s, Renamed(rep, l)))
  }

  // A clause, in whatever order its new literals are stored.
  ghost predicate IsShuffled(rep: seq<Lit>, c: Clause, d: Clause) {
    InRange(c, |rep|) && multiset(d) == multiset(RenamedAll(rep, c))
  }

  lemma ShuffledLits(rep: seq<Lit>, c: Clause, d: Clause, l: Lit)
    requires IsShuffled(rep, c, d)
    ensures l in d <==> exists i :: 0 <= i < |c| && Renamed(rep, c[i]) == l
  {
    var r := RenamedAll(rep, c);
    assert l in d <==> l in multiset(d);
    assert l in r <==> l in multiset(r);
    if i :| 0 <= i < |c| && Renamed(rep, c[i]) == l { assert r[i] == l; }
    if l in r { var i :| 0 <= i < |r| && r[i] == l; assert Renamed(rep, c[i]) == l; }
  }

  lemma {:induction false} NoDupOnce<T>(s: seq<T>, x: T)
    requires NoDup(s)
    ensures multiset(s)[x] <= 1
  {
    if s != [] {
      var front, last := s[..|s| - 1], s[|s| - 1];
      assert s == front + [last];
      NoDupOnce(front, x);
      assert last !in front;
    }
  }

  lemma PermutedNoDup<T>(s: seq<T>, t: seq<T>)
    requires NoDup(s) && multiset(t) == multiset(s)
    ensures NoDup(t)
  {
    forall i, k | 0 <= i < k < |t| ensures t[i] != t[k] {
      assert t == t[..k] + [t[k]] + t[k + 1..];
      NoDupOnce(s, t[k]);
      assert t[i] in t[..k];
    }
  }

  // The unshuffled model says about a clause what the model says about its new form.
  lemma ShuffledSat(rep: seq<Lit>, c: Clause, d: Clause, s: Model, m: Model)
    requires IsShuffled(rep, c, d) && Unshuffled(rep, s, m)
    ensures SatClause(m, c) <==> SatClause(s, d)
  {
    if SatClause(m, c) {
      var l :| l in c && Holds(m, l);
      var i :| 0 <= i < |c| && c[i] == l;
      ShuffledLits(rep, c, d, Renamed(rep, l));
      assert Holds(s, Renamed(rep, l));
    }
    if SatClause(s, d) {
      var k :| k in d && Holds(s, k);
      ShuffledLits(rep, c, d, k);
      var i :| 0 <= i < |c| && Renamed(rep, c[i]) == k;
      assert Holds(m, c[i]);
    }
  }

  // Every model has a shuffled form: the renaming is a bijection.
  lemma HasShuffledForm(rep: seq<Lit>, n: nat, m: Model) returns (s: Model)
    requires SignedPermutation(rep, n)
    ensures Unshuffled(rep, s, m)
  {
    forall v | 0 <= v < n ensures IsImage(rep, v) { Onto(rep, n, v); }
    s := seq(n, v requires 0 <= v < n => FromPreimage(rep, n, m, v));
    forall l: Lit | l.v < n ensures Holds(m, l) <==> Holds(s, Renamed(rep, l)) {
      FromPreimageIs(rep, n, m, l.v);
      assert s[rep[l.v].v] == FromPreimage(rep, n, m, rep[l.v].v);
    }
  }

  ghost function FromPreimage(rep: seq<Lit>, n: nat, m: Model, v: nat): bool
    requires SignedPermutation(rep, n) && IsImage(rep, v)
  {
    var i :| 0 <= i < n && rep[i].v == v;
    Holds(m, Lit(i, rep[i].neg))
  }

  lemma FromPreimageIs(rep: seq<Lit>, n: nat, m: Model, i: nat)
    requires SignedPermutation(rep, n) && i < n
    ensures IsImage(rep, rep[i].v) && FromPreimage(rep, n, m, rep[i].v) == Holds(m, Lit(i, rep[i].neg))
  {
    forall j | 0 <= j < n && rep[j].v == rep[i].v ensures j == i {
      assert !(j < i) && !(i < j);
    }
  }

  // ---------- the shuffler ----------

  // All clauses of a list have been shuffled, and nothing else.
  ghost predicate ListShuffled(rep: seq<Lit>, list: seq<CRef>, ca: seq<Cls>, ca': seq<Cls>) {
    && |ca'| == |ca|
    && (forall i: CRef :: i < |ca| ==> ca'[i].deleted == ca[i].deleted)
    && (forall i: CRef :: i < |ca| && i in list ==> IsShuffled(rep, ca[i].lits, ca'[i].lits))
    && (forall i: CRef :: i < |ca| && i !in list ==> ca'[i] == ca[i])
  }

  ghost predicate ListInRange(list: seq<CRef>, ca: seq<Cls>, n: nat) {
    NoDup(list) && forall i :: 0 <= i < |list| ==> list[i] < |ca| && InRange(ca[list[i]].lits, n)
  }

  // The renaming that the random numbers determine: after k exchanges, and after all of
  // them and k changes of sign.
  function Swaps(rand: nat -> nat, vars: nat, k: nat): (r: seq<Lit>)
    requires k <= vars
    ensures |r| == vars
  {
    if k == 0 then seq(vars, v requires 0 <= v < vars => Lit(v, false))
    else Swapped(Swaps(rand, vars, k - 1), k - 1, Draw(rand(k - 1), vars))
  }

  function Flips(rand: nat -> nat, vars: nat, k: nat): (r: seq<Lit>)
    requires k <= vars
    ensures |r| == vars
  {
    if k == 0 then Swaps(rand, vars, vars)
    else
      var r := Flips(rand, vars, k - 1);
      if Draw(rand(vars + k - 1), 2) == 1 then r[k - 1 := Neg(r[k - 1])] else r
  }

  lemma SwapsStart(rand: nat -> nat, vars: nat, rep: seq<Lit>)
    requires |rep| == vars && forall v :: 0 <= v < vars ==> rep[v] == Lit(v, false)
    ensures SignedPermutation(rep, vars) && rep == Swaps(rand, vars, 0)
  {
  }

  lemma SwapsNext(rand: nat -> nat, vars: nat, k: nat)
    requires k < vars
    ensures Swaps(rand, vars, k + 1) == Swapped(Swaps(rand, vars, k), k, Draw(rand(k), vars))
  {
  }

  lemma FlipsStart(rand: nat -> nat, vars: nat)
    ensures Flips(rand, vars, 0) == Swaps(rand, vars, vars)
  {
  }

  lemma FlipsNext(rand: nat -> nat, vars: nat, k: nat)
    requires k < vars
    ensures var r := Flips(rand, vars, k);
      Flips(rand, vars, k + 1) == if Draw(rand(vars + k), 2) == 1 then r[k := Neg(r[k])] else r
  {
  }

  function Renaming(rand: nat -> nat, vars: nat): (r: seq<Lit>)
    ensures |r| == vars
  {
    Flips(rand, vars, vars)
  }

  class VarShuffler {
    var variables: nat
    var replacedBy: seq<Lit>
    var shuffledAlready: bool
    const rand: nat -> nat   // the random numbers after seeding
    var drawn: nat

    constructor (random: nat -> nat)
      ensures Valid() && !shuffledAlready && rand == random
    {
      variables, replacedBy, shuffledAlready, drawn, rand := 0, [], false, 0, random;
    }

    ghost predicate Valid()
      reads `variables, `replacedBy, `shuffledAlready
    {
      SignedPermutation(replacedBy, variables) && (!shuffledAlready ==> variables == 0)
    }

    method SetSeed()
      modifies `drawn
      ensures drawn == 0
    {
      drawn := 0;
    }

    method Next(size: nat) returns (r: nat)
      requires size > 0
      modifies `drawn
      ensures r == Draw(rand(old(drawn)), size) && drawn == old(drawn) + 1
    {
      r := Draw(rand(drawn), size);
      drawn := drawn + 1;
    }

    // setupShuffling: the renaming is chosen once.
    method SetupShuffling(vars: nat)
      requires SignedPermutation(replacedBy, variables) && drawn == 0
      modifies `variables, `replacedBy, `drawn
      ensures SignedPermutation(replacedBy, variables)
      ensures old(variables) != 0 ==> variables == old(variables) && replacedBy == old(replacedBy)
      ensures old(variables) == 0 ==> variables == vars && replacedBy == Renaming(rand, vars)
    {
      hide SignedPermutation, Swaps, Flips;
      if variables != 0 { return; }
      variables := vars;
      replacedBy := seq(vars, v requires 0 <= v < vars => Lit(v, false));
      SwapsStart(rand, vars, replacedBy);
      for v := 0 to vars
        invariant SignedPermutation(replacedBy, variables) && variables == vars
        invariant drawn == v && replacedBy == Swaps(rand, vars, v)
      {
        var r := Next(vars);
        PermutationSize(replacedBy, vars);
        SwapKeepsPermutation(replacedBy, vars, v, r);
        SwapsNext(rand, vars, v);
        replacedBy := Swapped(replacedBy, v, r);
      }
      FlipsStart(rand, vars);
      for v := 0 to vars
        invariant SignedPermutation(replacedBy, variables) && variables == vars
        invariant drawn == vars + v && replacedBy == Flips(rand, vars, v)
      {
        PermutationSize(replacedBy, vars);
        FlipsNext(rand, vars, v);
        var r := Next(2);
        if r == 1 {
          FlipKeepsPermutation(replacedBy, vars, v);
          replacedBy := replacedBy[v := Neg(replacedBy[v])];
        }
      }
    }

    // Exchanges the elements of a list at random.
    method Mix<T>(s: seq<T>) returns (r: seq<T>)
      modifies `drawn
      ensures r == Mixed(rand, old(drawn), s, |s|)
    {
      hide Mixed, Swapped;
      r := s;
      MixedNone(rand, drawn, s);
      for j := 0 to |s|
        invariant drawn == old(drawn) + j && r == Mixed(rand, old(drawn), s, j)
      {
        MixedNext(rand, old(drawn), s, j);
        var k := Next(|s|);
        r := Swapped(r, j, k);
      }
    }

    // shuffle for a list of literals
    method ShuffleLits(lits: seq<Lit>, shuffleOrder: bool) returns (r: seq<Lit>)
      requires InRange(lits, |replacedBy|)
      modifies `drawn
      ensures IsShuffled(replacedBy, lits, r) && |r| == |lits|
      ensures r == if shuffleOrder then Mixed(rand, old(drawn), RenamedAll(replacedBy, lits), |lits|) else RenamedAll(replacedBy, lits)
    {
      hide Mixed;
      r := lits;
      for i := 0 to |lits|
        invariant |r| == |lits| && forall k :: 0 <= k < i ==> r[k] == Renamed(replacedBy, lits[k])
        invariant forall k :: i <= k < |lits| ==> r[k] == lits[k]
      {
        assert lits[i] in lits;
        var l := r[i];
        r := r[i := if l.neg then Neg(replacedBy[l.v]) else replacedBy[l.v]];
      }
      assert r == RenamedAll(replacedBy, lits);
      if shuffleOrder {
        r := Mix(r);
      }
    }

    // shuffle for a list of clauses
    method ShuffleClauses(clauses: seq<CRef>, ca: seq<Cls>, shuffleOrder: bool) returns (r: seq<CRef>, ca': seq<Cls>)
      requires ListInRange(clauses, ca, |replacedBy|)
      modifies `drawn
      ensures ListShuffled(replacedBy, clauses, ca, ca') && multiset(r) == multiset(clauses)
      ensures if shuffleOrder then exists d :: r == Mixed(rand, d, clauses, |clauses|) else r == clauses
    {
      hide IsShuffled, InRange, Mixed;
      ca' := ca;
      for i := 0 to |clauses|
        invariant |ca'| == |ca| && forall k: CRef :: k < |ca| ==> ca'[k].deleted == ca[k].deleted
        invariant forall k :: 0 <= k < i ==> IsShuffled(replacedBy, ca[clauses[k]].lits, ca'[clauses[k]].lits)
        invariant forall k: CRef :: k < |ca| && k !in clauses[..i] ==> ca'[k] == ca[k]
      {
        assert clauses[i] !in clauses[..i];
        var lits := ShuffleLits(ca'[clauses[i]].lits, shuffleOrder);
        ca' := ca'[clauses[i] := ca'[clauses[i]].(lits := lits)];
      }
      assert clauses[..|clauses|] == clauses;
      r := clauses;
      if shuffleOrder {
        r := Mix(r);
      }
    }

    // process: the formula is shuffled only once.
    method Process(clauses: seq<CRef>, learnts: seq<CRef>, trail: seq<Lit>, vars: nat, ca: seq<Cls>, shuffleOrder: bool)
      returns (clauses': seq<CRef>, learnts': seq<CRef>, trail': seq<Lit>, ca': seq<Cls>)
      requires Valid() && (!shuffledAlready ==> ListInRange(clauses + learnts, ca, vars) && InRange(trail, vars))
      modifies this
      ensures Valid() && shuffledAlready
      ensures old(shuffledAlready) ==> replacedBy == old(replacedBy) && variables == old(variables)
      ensures old(shuffledAlready) ==> clauses' == clauses && learnts' == learnts && trail' == trail && ca' == ca
      ensures !old(shuffledAlready) ==> variables == vars && replacedBy == Renaming(rand, vars)
      ensures !old(shuffledAlready) ==> IsShuffled(replacedBy, trail, trail')
      ensures !old(shuffledAlready) ==> ListShuffled(replacedBy, clauses + learnts, ca, ca')
      ensures !old(shuffledAlready) ==> multiset(clauses') == multiset(clauses) && multiset(learnts') == multiset(learnts)
      ensures !old(shuffledAlready) && shuffleOrder ==> exists d :: clauses' == Mixed(rand, d, clauses, |clauses|)
      ensures !old(shuffledAlready) && shuffleOrder ==> exists d :: learnts' == Mixed(rand, d, learnts, |learnts|)
      ensures !shuffleOrder ==> clauses' == clauses && learnts' == learnts
    {
      hide Mixed;
      hide IsShuffled, InRange, SignedPermutation, NoDup;
      clauses', learnts', trail', ca' := clauses, learnts, trail, ca;
      if shuffledAlready { return; }
      SplitLists(clauses, learnts, ca, vars);
      SetSeed();
      SetupShuffling(vars);
      PermutationSize(replacedBy, vars);
      clauses', ca' := ShuffleClauses(clauses, ca, shuffleOrder);
      StillInRange(clauses, learnts, ca, ca', vars, replacedBy);
      ghost var mid := ca';
      learnts', ca' := ShuffleClauses(learnts, ca', shuffleOrder);
      BothLists(replacedBy, clauses, learnts, ca, mid, ca');
      trail' := ShuffleLits(trail, shuffleOrder);
      shuffledAlready := true;
    }

    // unshuffle: afterwards a variable has the truth value of its new name.
    method Unshuffle(model: seq<LBool>, vars: nat) returns (r: seq<LBool>)
      requires Valid() && vars == |model| && (shuffledAlready ==> vars == variables)
      modifies `variables, `replacedBy, `drawn
      ensures Valid() && |r| == |model|
      ensures !shuffledAlready ==> r == model
      ensures shuffledAlready ==> replacedBy == old(replacedBy) && Unshuffled(replacedBy, AsModel(model), AsModel(r))
    {
      r := model;
      if !shuffledAlready { return; }
      var max := if vars < |model| then vars else |model|;
      SetSeed();
      SetupShuffling(vars);
      assert replacedBy == old(replacedBy);
      for v := 0 to max
        invariant |r| == |model|
        invariant forall k :: 0 <= k < v ==> r[k] == OldValue(model, replacedBy[k])
      {
        r := r[v := if replacedBy[v].neg then (if model[replacedBy[v].v] == False then True else False)
                    else model[replacedBy[v].v]];
      }
      OldValues(replacedBy, model, r);
    }
  }

  // The value of the new name, as unshuffle copies it.
  ghost function OldValue(model: seq<LBool>, l: Lit): LBool
    requires l.v < |model|
  {
    if l.neg then (if model[l.v] == False then True else False) else model[l.v]
  }

  lemma OldValues(rep: seq<Lit>, model: seq<LBool>, r: seq<LBool>)
    requires SignedPermutation(rep, |model|) && |r| == |model|
    requires forall k :: 0 <= k < |model| ==> r[k] == OldValue(model, rep[k])
    ensures Unshuffled(rep, AsModel(model), AsModel(r))
  {
    forall l: Lit | l.v < |rep| ensures Holds(AsModel(r), l) <==> Holds(AsModel(model), Renamed(rep, l)) {
      assert r[l.v] == OldValue(model, rep[l.v]);
    }
  }

  lemma PermutationSize(rep: seq<Lit>, n: nat)
    requires SignedPermutation(rep, n)
    ensures |rep| == n
  {
  }

  lemma SplitLists(a: seq<CRef>, b: seq<CRef>, ca: seq<Cls>, n: nat)
    requires ListInRange(a + b, ca, n)
    ensures ListInRange(a, ca, n) && ListInRange(b, ca, n) && forall i: CRef :: i in a ==> i !in b
  {
    var c := a + b;
    assert forall i :: 0 <= i < |a| ==> c[i] == a[i];
    assert forall i :: 0 <= i < |b| ==> c[|a| + i] == b[i];
    forall i, j | 0 <= i < |a| && 0 <= j < |b| ensures a[i] != b[j] {
      assert c[i] != c[|a| + j];
    }
  }

  // The second list is not touched by shuffling the first.
  lemma StillInRange(a: seq<CRef>, b: seq<CRef>, ca: seq<Cls>, mid: seq<Cls>, n: nat, rep: seq<Lit>)
    requires ListInRange(b, ca, n) && ListShuffled(rep, a, ca, mid) && forall i: CRef :: i in a ==> i !in b
    ensures ListInRange(b, mid, n)
  {
    hide NoDup, IsShuffled, InRange;
    forall i | 0 <= i < |b| ensures b[i] < |mid| && InRange(mid[b[i]].lits, n) {
      assert b[i] in b;
    }
  }

  lemma BothLists(rep: seq<Lit>, a: seq<CRef>, b: seq<CRef>, ca: seq<Cls>, mid: seq<Cls>, last: seq<Cls>)
    requires ListShuffled(rep, a, ca, mid) && ListShuffled(rep, b, mid, last) && forall i: CRef :: i in a ==> i !in b
    ensures ListShuffled(rep, a + b, ca, last)
  {
    hide IsShuffled;
    forall i: CRef | i < |ca| && i in a + b ensures IsShuffled(rep, ca[i].lits, last[i].lits) {
      assert i in a || i in b;
    }
  }

  // ---------- what the shuffled formula means ----------

  // The live clauses of a list and the literals of the trail hold.
  ghost predicate SatFormula(m: Model, ca: seq<Cls>, list: seq<CRef>, trail: seq<Lit>) {
    && (forall i: CRef :: i < |ca| && i in list && !ca[i].deleted ==> SatClause(m, ca[i].lits))
    && (forall l :: l in trail ==> Holds(m, l))
  }

  // Shuffled is what process leaves behind.
  ghost predicate FormulaShuffled(rep: seq<Lit>, ca: seq<Cls>, list: seq<CRef>, trail: seq<Lit>,
                                  ca': seq<Cls>, list': seq<CRef>, trail': seq<Lit>) {
    ListShuffled(rep, list, ca, ca') && multiset(list') == multiset(list) && IsShuffled(rep, trail, trail')
  }

  // A model of the shuffled formula, unshuffled, is a model of the original one, and
  // only these are.
  lemma UnshuffledModel(rep: seq<Lit>, ca: seq<Cls>, list: seq<CRef>, trail: seq<Lit>,
                        ca': seq<Cls>, list': seq<CRef>, trail': seq<Lit>, s: Model, m: Model)
    requires FormulaShuffled(rep, ca, list, trail, ca', list', trail') && Unshuffled(rep, s, m)
    ensures SatFormula(m, ca, list, trail) <==> SatFormula(s, ca', list', trail')
  {
    hide IsShuffled, Unshuffled;
    assert forall i: CRef :: i in list <==> i in multiset(list);
    assert forall i: CRef :: i in list' <==> i in multiset(list');
    forall i: CRef | i < |ca| && i in list ensures SatClause(m, ca[i].lits) <==> SatClause(s, ca'[i].lits) {
      ShuffledSat(rep, ca[i].lits, ca'[i].lits, s, m);
    }
    ShuffledTrail(rep, trail, trail', s, m);
  }

  lemma ShuffledTrail(rep: seq<Lit>, trail: seq<Lit>, trail': seq<Lit>, s: Model, m: Model)
    requires IsShuffled(rep, trail, trail') && Unshuffled(rep, s, m)
    ensures (forall l :: l in trail ==> Holds(m, l)) <==> (forall l :: l in trail' ==> Holds(s, l))
  {
    if forall l :: l in trail ==> Holds(m, l) {
      forall l | l in trail' ensures Holds(s, l) {
        ShuffledLits(rep, trail, trail', l);
        var i :| 0 <= i < |trail| && Renamed(rep, trail[i]) == l;
        assert Holds(m, trail[i]);
      }
    }
    if forall l :: l in trail' ==> Holds(s, l) {
      forall l | l in trail ensures Holds(m, l) {
        var i :| 0 <= i < |trail| && trail[i] == l;
        ShuffledLits(rep, trail, trail', Renamed(rep, l));
        assert Holds(s, Renamed(rep, l));
      }
    }
  }

  // Shuffling keeps the answer to the satisfiability question.
  lemma ShuffledSatisfiable(rep: seq<Lit>, n: nat, ca: seq<Cls>, list: seq<CRef>, trail: seq<Lit>,
                            ca': seq<Cls>, list': seq<CRef>, trail': seq<Lit>)
    requires SignedPermutation(rep, n) && FormulaShuffled(rep, ca, list, trail, ca', list', trail')
    ensures (exists m: Model :: SatFormula(m, ca, list, trail)) <==> (exists s: Model :: SatFormula(s, ca', list', trail'))
  {
    hide FormulaShuffled, SatFormula, SignedPermutation, Unshuffled;
    if m: Model :| SatFormula(m, ca, list, trail) {
      var s := HasShuffledForm(rep, n, m);
      UnshuffledModel(rep, ca, list, trail, ca', list', trail', s, m);
    }
    if s: Model :| SatFormula(s, ca', list', trail') {
      var m := UnshuffledForm(rep, n, s);
      UnshuffledModel(rep, ca, list, trail, ca', list', trail', s, m);
    }
  }

  lemma UnshuffledForm(rep: seq<Lit>, n: nat, s: Model) returns (m: Model)
    requires SignedPermutation(rep, n)
    ensures Unshuffled(rep, s, m)
  {
    m := seq(n, v requires 0 <= v < n => Holds(s, rep[v]));
    forall l: Lit | l.v < n ensures Holds(m, l) <==> Holds(s, Renamed(rep, l)) {
      assert m[l.v] == Holds(s, rep[l.v]);
    }
  }
}
