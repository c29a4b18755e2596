// What shuffling does to frozen variables: the clauses are renamed, the flags are not
// (coprocessor/Coprocessor.cc, coprocessor/Shuffler.cc).

module FrozenVariables {
  import opened Collections
  import opened Sat
  import opened Undo
  import opened Steps
  import opened Formula
  import opened Propagation
  import opened Preprocessor
  import Blocked = BlockedClauses
  import Run = EliminationRun
  import Shuffler
  import Variables = VariableElimination

  // ---------- all stacks ----------

  // Whatever a sound run leaves on the undo stack, if its pivots are not frozen: a model
  // of what is left, extended, gives the new name p the value that it had.
  ghost predicate AlwaysKept(frozen: set<nat>, p: Lit) {
    forall input: set<Clause>, left: set<Clause>, segs: seq<Clause>, s: Model {:trigger Step(input, left, segs), SatAll(s, left)} ::
      Step(input, left, segs) && PivotsFree(frozen, segs) && SatAll(s, left) ==> (Holds(Extend(segs, s), p) <==> Holds(s, p))
  }

  // Exactly the variables whose new name is frozen are safe.
  lemma AlwaysKeptExactly(rep: seq<Lit>, frozen: set<nat>, v: nat)
    requires v < |rep|
    ensures AlwaysKept(frozen, rep[v]) <==> rep[v].v in frozen
  {
    var p := rep[v];
    if p.v in frozen {
      forall input: set<Clause>, left: set<Clause>, segs: seq<Clause>, s: Model
        | Step(input, left, segs) && PivotsFree(frozen, segs) && SatAll(s, left)
        ensures Holds(Extend(segs, s), p) <==> Holds(s, p)
      {
        FrozenKeep(frozen, segs, s, p);
      }
    } else {
      var s := Assign([], Neg(p));
      OneUnit(p);
      assert SatAll(s, {});
      RepairedUnit(p, s);
    }
  }

  // A unit clause that is repaired.
  lemma OneUnit(p: Lit)
    ensures Step({[p]}, {}, [[p]])
  {
    forall m: Model ensures SatAll(Extend([[p]], m), {[p]}) {
      RepairedUnit(p, m);
      SatAllSingle(Extend([[p]], m), [p]);
      assert p in [p];
    }
    assert SatAll([], {});
  }

  lemma RepairedUnit(p: Lit, m: Model)
    ensures Holds(Extend([[p]], m), p)
  {
    assert [[p]][..0] == [];
    assert Extend([[p]], m) == Repair([p], m);
    if SatClause(m, [p]) { var l :| l in [p] && Holds(m, l); }
  }

  // ---------- a run for every variable ----------

  function Two(l: Lit, k: Lit): Clause {
    if Code(l) < Code(k) then [l, k] else [k, l]
  }

  // Variable v must be true, but no unit clause says so.
  function Forcing(v: nat, u: nat): (r: seq<Clause>)
    ensures |r| == 2
  {
    [Two(Lit(v, false), Lit(u, false)), Two(Lit(v, false), Lit(u, true))]
  }

  lemma TwoFacts(l: Lit, k: Lit)
    requires l.v != k.v
    ensures Proper(Two(l, k)) && |Two(l, k)| == 2 && forall x :: x in Two(l, k) <==> x == l || x == k
  {
  }

  lemma ForcingFacts(v: nat, u: nat, n: nat)
    requires v != u && v < n && u < n
    ensures forall i :: 0 <= i < 2 ==> Proper(Forcing(v, u)[i]) && |Forcing(v, u)[i]| == 2 && Lit(v, false) in Forcing(v, u)[i]
    ensures VariablesBelow(Prefix(Forcing(v, u), 2), n)
    ensures forall m: Model :: SatAll(m, Prefix(Forcing(v, u), 2)) ==> Holds(m, Lit(v, false))
  {
    hide Two;
    var a, b := Forcing(v, u)[0], Forcing(v, u)[1];
    TwoFacts(Lit(v, false), Lit(u, false));
    TwoFacts(Lit(v, false), Lit(u, true));
    forall m: Model | SatAll(m, Prefix(Forcing(v, u), 2)) ensures Holds(m, Lit(v, false)) {
      assert a in Prefix(Forcing(v, u), 2) && b in Prefix(Forcing(v, u), 2);
      var x :| x in a && Holds(m, x);
      var y :| y in b && Holds(m, y);
    }
  }

  // Only variable elimination, with no growth.
  const ELIMINATION := Options(Variables.Config(false, false, false, false, false, 0, 0),
                               Blocked.Config(true, false, false, false, false, false), 0, 0)

  // Both clauses contain the new name.
  lemma BothContain(rep: seq<Lit>, n: nat, v: nat, u: nat, sorted: seq<Clause>)
    requires v != u && v < n && u < n && Shuffler.SignedPermutation(rep, n) && SortedForms(rep, Forcing(v, u), sorted)
    ensures |sorted| == 2 && AllLong(sorted)
    ensures forall k :: 0 <= k < 2 ==> Proper(sorted[k]) && rep[v] in sorted[k] && Neg(rep[v]) !in sorted[k]
  {
    hide Forcing, Proper;
    ForcingFacts(v, u, n);
    forall k | 0 <= k < 2 ensures |sorted[k]| == 2 && rep[v] in sorted[k] && Neg(rep[v]) !in sorted[k] {
      assert IsForm(rep, Forcing(v, u), sorted[k]);
      var i :| 0 <= i < 2 && Shuffler.IsShuffled(rep, Forcing(v, u)[i], sorted[k]);
      FormContains(rep, Forcing(v, u)[i], sorted[k], v);
    }
  }

  lemma FormContains(rep: seq<Lit>, c: Clause, d: Clause, v: nat)
    requires Shuffler.IsShuffled(rep, c, d) && Lit(v, false) in c && Proper(d)
    ensures |d| == |c| && v < |rep| && rep[v] in d && Neg(rep[v]) !in d
  {
    var e := Shuffler.RenamedAll(rep, c);
    assert |multiset(d)| == |multiset(e)|;
    var i :| 0 <= i < |c| && c[i] == Lit(v, false);
    Shuffler.ShuffledLits(rep, c, d, rep[v]);
  }

  // The job has both clauses, all on one side; so nothing is left.
  lemma NothingLeft(frozen: set<nat>, p: Lit, sorted: seq<Clause>, r: Run.Round)
    requires |sorted| == 2 && forall k :: 0 <= k < 2 ==> p in sorted[k] && Neg(p) !in sorted[k]
    requires p.v !in frozen && r.was == Variables.Snapshot(Unmarked(sorted), []) && r.total == 0
    requires Run.RoundOk(ELIMINATION.bve, frozen, Run.Choice(p.v, false, false), r)
    ensures LiveSet(r.now.ca) == {} && r.now.trail == []
  {
    hide Variables.JobOk, Variables.Kept, Variables.Shrunk, Variables.FirstDecides, Variables.ResolvedUpTo, NoLive, Variables.Unshrunk;
    OnBoth(p, sorted);
    OnOneSide(p, sorted, r);
    assert |r.j.pos| * |r.j.neg| == 0;
  }

  lemma OnBoth(p: Lit, sorted: seq<Clause>)
    requires |sorted| == 2 && forall k :: 0 <= k < 2 ==> p in sorted[k]
    ensures Run.ClausesOn(Unmarked(sorted), p.v) == {0, 1} && LiveSet(Unmarked(sorted)) == {0, 1}
  {
    var ca := Unmarked(sorted);
    assert p in ca[0].lits && p in ca[1].lits;
  }

  lemma OnOneSide(p: Lit, sorted: seq<Clause>, r: Run.Round)
    requires |sorted| == 2 && forall k :: 0 <= k < 2 ==> p in sorted[k] && Neg(p) !in sorted[k]
    requires r.was == Variables.Snapshot(Unmarked(sorted), []) && Run.JobOn(ELIMINATION.bve, r.was, r.occs, p.v, r.j)
    ensures Variables.OneSided(r.j) && |r.j.pos| + |r.j.neg| == 2
  {
    hide Variables.JobOk, Variables.Unshrunk;
    OnBoth(p, sorted);
    assert Neg(Neg(p)) == p && (p == Lit(p.v, false) || p == Lit(p.v, true));
    if r.j.pos != [] { assert r.j.pos[0] in r.j.pos; }
    if r.j.neg != [] { assert r.j.neg[0] in r.j.neg; }
  }

  // What the run leaves: nothing if the new name is not frozen, and otherwise everything.
  lemma WhatIsLeft(frozen: set<nat>, p: Lit, sorted: seq<Clause>, rounds: seq<Run.Round>, now: Variables.Snapshot)
    requires |sorted| == 2 && forall k :: 0 <= k < 2 ==> p in sorted[k] && Neg(p) !in sorted[k]
    requires EliminationRounds(ELIMINATION.bve, frozen, sorted, [Run.Choice(p.v, false, false)], rounds, now)
    ensures p.v !in frozen ==> LiveSet(now.ca) == {} && now.trail == []
    ensures p.v in frozen ==> now == Variables.Snapshot(Unmarked(sorted), [])
  {
    hide Run.RoundOk, LiveSet, Run.StateOk;
    assert |rounds| == 1;
    var r := rounds[0];
    if p.v !in frozen {
      NothingLeft(frozen, p, sorted, r);
    } else {
      NotTried(frozen, p, r);
    }
  }

  lemma NotTried(frozen: set<nat>, p: Lit, r: Run.Round)
    requires p.v in frozen && Run.RoundOk(ELIMINATION.bve, frozen, Run.Choice(p.v, false, false), r)
    ensures r.now == r.was
  {
  }

  // An assignment in which p has the given value and all other variables are true.
  function OnlyAt(n: nat, p: Lit, value: bool): (model: seq<LBool>)
    requires p.v < n
    ensures |model| == n && (Holds(AsModel(model), p) <==> value)
  {
    seq(n, v requires 0 <= v < n => if v != p.v || p.neg != value then True else False)
  }

  lemma ModelOfRest(m: Model, data: CoprocessorData, p: Lit, sorted: seq<Clause>)
    requires data.ok && |sorted| == 2 && forall k :: 0 <= k < 2 ==> p in sorted[k]
    requires (LiveSet(data.ca) == {} && data.trail == []) || (data.ca == Unmarked(sorted) && data.trail == [] && Holds(m, p))
    ensures SatAll(m, data.F())
  {
    forall i | 0 <= i < |data.ca| ensures ClsSat(m, data.ca[i]) {
      if LiveSet(data.ca) == {} { assert i !in LiveSet(data.ca); }
    }
    SatFormula(m, data.ca, data.trail, data.ok);
  }

  // The run cannot fail: its input has a model.
  lemma ForcingNeverFails(data: CoprocessorData, rep: seq<Lit>, n: nat, v: nat, u: nat)
    requires data.Valid() && data.Sound() && Shuffler.SignedPermutation(rep, n) && v != u && v < n && u < n
    requires RenamedInput(rep, Forcing(v, u), data.input)
    ensures data.ok
  {
    var m: Model := Assign([], Lit(v, false));
    forall c | c in Prefix(Forcing(v, u), 2) ensures SatClause(m, c) {
      assert Lit(v, false) in c;
    }
    var s := Shuffler.HasShuffledForm(rep, n, m);
    assert SatAll(s, data.input);
    SatisfiabilityKept(data);
  }

  // The whole path, for any random numbers, two variables v and u and set of flags: in the
  // run on these two clauses, v keeps the value that the model gives to its new name if
  // and only if the new name is frozen, whether v was or not.
  method KeptExactly(shuffler: Shuffler.VarShuffler, vars: nat, v: nat, u: nat, frozen: set<nat>, shuffleOrder: bool)
    returns (data: CoprocessorData, model: seq<LBool>, out: seq<LBool>)
    requires shuffler.Valid() && !shuffler.shuffledAlready && v != u && v < vars && u < vars
    modifies shuffler
    ensures shuffler.Valid() && shuffler.replacedBy == Shuffler.Renaming(shuffler.rand, vars) && |out| == vars
    ensures data.Valid() && data.Sound() && data.frozen == frozen && !data.frozenMet
    ensures SatAll(AsModel(model), data.F()) && SatAll(AsModel(out), Prefix(Forcing(v, u), 2))
    ensures var p := shuffler.replacedBy[v];
      (Holds(AsModel(out), Lit(v, false)) <==> Holds(AsModel(model), p)) <==> p.v in frozen
  {
    hide Shuffler.SignedPermutation, Shuffler.Renaming, SortedForms, EliminationRounds, RenamedInput, AllLong, Forcing, VariablesBelow;
    hide Step, FormulaOf, OccsOk, ClausesOk, TrailOk, Propagated, Prefix, LiveSet, NewNamesKept, PivotsFree, Proper;
    ForcingFacts(v, u, vars);
    var p := Shuffler.Renaming(shuffler.rand, vars)[v];
    var schedule := [VariableElimination([Run.Choice(p.v, false, false)])];
    ghost var sorted, rounds;
    data, sorted, rounds := PreprocessShuffled(ELIMINATION, Forcing(v, u), frozen, schedule, shuffler, vars, shuffleOrder);
    BothContain(shuffler.replacedBy, vars, v, u, sorted);
    ForcingNeverFails(data, shuffler.replacedBy, vars, v, u);
    WhatIsLeft(frozen, p, sorted, rounds, Variables.Snap(data));
    NewNameBelow(shuffler.replacedBy, vars, v);
    model := OnlyAt(vars, p, p.v in frozen);
    ModelOfRest(AsModel(model), data, p, sorted);
    out := ExtendToUnshuffled(data, shuffler, Forcing(v, u), model, vars);
    NewNameOf(shuffler.replacedBy, frozen, v, model, out);
  }

  lemma NewNameBelow(rep: seq<Lit>, n: nat, v: nat)
    requires Shuffler.SignedPermutation(rep, n) && v < n
    ensures rep[v].v < n
  {
  }

  lemma NewNameOf(rep: seq<Lit>, frozen: set<nat>, v: nat, model: seq<LBool>, out: seq<LBool>)
    requires NewNamesKept(rep, frozen, model, out) && v < |rep|
    ensures rep[v].v in frozen ==> (Holds(AsModel(out), Lit(v, false)) <==> Holds(AsModel(model), rep[v]))
  {
    assert Shuffler.Renamed(rep, Lit(v, false)) == rep[v];
  }

  // ---------- one input ----------

  // Random numbers that exchange two variables.
  function Ones(n: nat): nat {
    1
  }

  lemma Exchanged()
    ensures Shuffler.Renaming(Ones, 2) == [Lit(1, true), Lit(0, true)]
  {
  }

  // Variable 0 is frozen and becomes variable 1, which is not: it changes its value.
  method FrozenLost() returns (data: CoprocessorData, model: seq<LBool>, out: seq<LBool>)
    ensures data.Valid() && data.Sound() && data.frozen == {0} && !data.frozenMet && |out| == 2
    ensures SatAll(AsModel(model), data.F()) && SatAll(AsModel(out), Prefix(Forcing(0, 1), 2))
    ensures !(Holds(AsModel(out), Lit(0, false)) <==> Holds(AsModel(model), Lit(1, true)))
  {
    hide Shuffler.Renaming, Shuffler.SignedPermutation, Forcing, Step, FormulaOf, OccsOk, ClausesOk, TrailOk, Propagated, Prefix, PivotsFree;
    var shuffler := new Shuffler.VarShuffler(Ones);
    Exchanged();
    data, model, out := KeptExactly(shuffler, 2, 0, 1, {0}, false);
  }
}
