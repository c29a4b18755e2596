// The loop of bve_worker over the variables (coprocessor/techniques/BVE.cc), and how far
// the number of clauses can grow in it.

module EliminationRun {
  import opened Collections
  import opened Sat
  import opened Undo
  import opened Steps
  import opened Formula
  import opened Propagation
  import opened Resolvents
  import opened Definitions
  import opened VariableElimination
  import BlockedClauses

  // What the heap or the random queue yields, and whether the two cut-offs, heuristics on
  // the number of occurrences, apply to it.
  datatype Choice = Choice(v: nat, cutGates: bool, cutAnticipation: bool)

  // One round of the loop: the states and totals before and after it, and what has been
  // tried in between.
  datatype Round = Round(was: Snapshot, occs: Occs, now: Snapshot, total: int, totalAfter: int,
                         tried: bool, j: Job, resolvents: nat, eliminated: bool)

  // The live clauses on a variable.
  ghost function ClausesOn(ca: seq<Cls>, v: nat): set<CRef> {
    set i | 0 <= i < |ca| && !ca[i].deleted && !NotOn(ca[i].lits, v)
  }

  // A gate with v as output is looked for and found.
  ghost predicate Gate(cfg: Config, was: Snapshot, occs: Occs, v: nat) {
    cfg.findGate && GateExists(was.ca, List(occs, Lit(v, false)), List(occs, Lit(v, true)), Lit(v, false))
  }

  // The job lists the live clauses on v. Without a search for definitions the lists keep
  // their order, unless a deleted clause is removed from them.
  ghost predicate JobOn(cfg: Config, was: Snapshot, occs: Occs, v: nat, j: Job) {
    && JobOk(j) && j.x == Lit(v, false) && |ClausesOn(was.ca, v)| == |j.pos| + |j.neg|
    && Unshrunk(was.ca, j.pos, j.pos0) && Unshrunk(was.ca, j.neg, j.neg0)
    && CleanList(was.ca, j.pos, j.x) && CleanList(was.ca, j.neg, Neg(j.x))
    && (!Gate(cfg, was, occs, v) ==> !HasDefinition(j))
    && (Gate(cfg, was, occs, v) ==> j.pl <= |j.pos0| && j.nl <= |j.neg0| && Defines(j.x, j.pos0[..j.pl], j.neg0[..j.nl]))
    && (!cfg.findGate && AllAlive(was.ca, List(occs, j.x)) ==> j.pos == List(occs, j.x))
    && (!cfg.findGate && AllAlive(was.ca, List(occs, Neg(j.x))) ==> j.neg == List(occs, Neg(j.x)))
  }

  // No test of bve_worker skips the variable.
  ghost predicate MustTry(cfg: Config, frozen: set<nat>, c: Choice, was: Snapshot) {
    && c.v !in frozen && !c.cutGates && !c.cutAnticipation && !cfg.funcDepOnly
    && Unassigned(was.trail, Lit(c.v, false)) && ClausesOn(was.ca, c.v) != {}
  }

  // Which variables are tried: free ones that may change and are listed somewhere, unless a
  // cut-off applies or a gate is demanded and there is none.
  ghost predicate Tries(cfg: Config, frozen: set<nat>, c: Choice, was: Snapshot, occs: Occs) {
    && c.v !in frozen && !c.cutGates && Unassigned(was.trail, Lit(c.v, false))
    && (|List(occs, Lit(c.v, false))| > 0 || |List(occs, Lit(c.v, true))| > 0)
    && (Gate(cfg, was, occs, c.v) || !(cfg.funcDepOnly || c.cutAnticipation))
  }

  ghost predicate RoundOk(cfg: Config, frozen: set<nat>, c: Choice, r: Round) {
    && (r.tried <==> Tries(cfg, frozen, c, r.was, r.occs))
    && (MustTry(cfg, frozen, c, r.was) ==> r.tried)
    && (!r.tried ==> r.now == r.was && r.totalAfter == r.total && !r.eliminated)
    && (r.tried ==> c.v !in frozen && Unassigned(r.was.trail, Lit(c.v, false)))
    && (r.tried ==> JobOn(cfg, r.was, r.occs, c.v, r.j))
    && (r.tried ==> Tried(cfg, r.was, r.now, r.total, r.totalAfter, r.j, r.resolvents, r.eliminated))
  }

  lemma JobOccurrences(ca: seq<Cls>, j: Job)
    requires ClausesOk(ca) && CleanList(ca, j.pos, j.x) && CleanList(ca, j.neg, Neg(j.x))
    ensures |ClausesOn(ca, j.x.v)| == |j.pos| + |j.neg|
  {
    CleanDisjoint(ca, j);
    assert ClausesOn(ca, j.x.v) == Refs(j.pos) + Refs(j.neg) by {
      forall i: CRef | i < |ca| && !ca[i].deleted && !NotOn(ca[i].lits, j.x.v) ensures i in j.pos || i in j.neg {
        var l :| l in ca[i].lits && l.v == j.x.v;
        assert l == j.x || l == Neg(j.x);
      }
      forall i: CRef | i in j.pos || i in j.neg ensures i in ClausesOn(ca, j.x.v) {
        assert j.x.v == Neg(j.x).v;
      }
    }
    assert Refs(j.pos) !! Refs(j.neg);
  }

  // The listed clauses are the live clauses on the variable.
  lemma Listed(data: CoprocessorData, v: nat)
    requires data.Valid()
    ensures ClausesOn(data.ca, v) != {} ==> |List(data.occs, Lit(v, false))| > 0 || |List(data.occs, Lit(v, true))| > 0
  {
    if ClausesOn(data.ca, v) != {} {
      var i :| i in ClausesOn(data.ca, v);
      var l :| l in data.ca[i].lits && l.v == v;
      assert InList(data.occs, l, i);
      assert l == Lit(v, false) || l == Lit(v, true);
    }
  }

  lemma JobStarts(cfg: Config, data: CoprocessorData, occs: Occs, v: nat, pl: nat, nl: nat, j: Job)
    requires data.Valid() && JobFrom(data, v, pl, nl, j)
    requires !Gate(cfg, Snap(data), occs, v) ==> |j.pos| <= pl && |j.neg| <= nl
    requires Gate(cfg, Snap(data), occs, v) ==> pl <= |j.pos0| && nl <= |j.neg0| && Defines(j.x, j.pos0[..pl], j.neg0[..nl])
    requires !cfg.findGate && AllAlive(data.ca, List(occs, j.x)) ==> j.pos == List(occs, j.x)
    requires !cfg.findGate && AllAlive(data.ca, List(occs, Neg(j.x))) ==> j.neg == List(occs, Neg(j.x))
    ensures JobOn(cfg, Snap(data), occs, v, j)
  {
    JobOccurrences(data.ca, j);
  }

  // One round of bve_worker.
  method EliminateVariable(cfg: Config, data: CoprocessorData, bve: BoundedVariableElimination, c: Choice)
    returns (eliminated: bool, ghost r: Round)
    requires Steady(data) && bve.Cleared()
    modifies bve, data`ca, data`occs, data`trail, data`ok, data`qhead, data`undo
    ensures data.Valid() && data.Sound() && (data.ok ==> Steady(data))
    ensures data.ok ==> RoundOk(cfg, data.frozen, c, r) && r.eliminated == eliminated
    ensures data.ok ==> r.was == old(Snap(data)) && r.occs == old(data.occs) && r.now == Snap(data)
    ensures data.ok ==> r.total == old(bve.totallyAddedClauses) && r.totalAfter == bve.totallyAddedClauses && bve.Cleared()
    ensures old(bve.totallyAddedClauses) <= GrowthBound(cfg) ==> bve.totallyAddedClauses <= GrowthBound(cfg)
  {
    hide Steady, OccsOk, TrailOk, Propagated, ClausesOk, NoUnits, GrowthBound, JobOn, Tried, JobFrom, AllAlive, DefinedInFront, ClausesOn;
    SteadyFacts(data);
    Listed(data, c.v);
    eliminated := false;
    var x := Lit(c.v, false);
    ghost var none := Job(x, [], [], [], [], 0, 0);
    ghost var occs := data.occs;
    r := Round(Snap(data), occs, Snap(data), bve.totallyAddedClauses, bve.totallyAddedClauses, false, none, 0, false);
    if data.Value(Neg(x)) != Undef || data.Value(x) != Undef { return; }
    if |List(data.occs, x)| == 0 && |List(data.occs, Neg(x))| == 0 { return; }
    if c.v in data.frozen || c.cutGates { return; }
    assert Lit(c.v, true) == Neg(x);
    var foundGate, pl, nl := PrepareLists(cfg, data, c.v);
    if !foundGate && (cfg.funcDepOnly || c.cutAnticipation) { SteadyFacts(data); return; }
    var posCount, negCount;
    ghost var j;
    posCount, negCount, j := CleanLists(data, c.v, foundGate, pl, nl);
    SteadyFacts(data);
    JobStarts(cfg, data, occs, c.v, pl, nl, j);
    ghost var resolvents;
    eliminated, resolvents := TryEliminate(cfg, data, bve, c.v, pl, nl, posCount, negCount, j);
    r := Round(r.was, occs, Snap(data), r.total, bve.totallyAddedClauses, true, j, resolvents, eliminated);
  }

  // ---------- whole runs ----------

  ghost function StateAt(start: Snapshot, rounds: seq<Round>, i: nat): Snapshot
    requires i <= |rounds|
  {
    if i == 0 then start else rounds[i - 1].now
  }

  ghost function TotalAt(total: int, rounds: seq<Round>, i: nat): int
    requires i <= |rounds|
  {
    if i == 0 then total else rounds[i - 1].totalAfter
  }

  // What holds in every state of the loop: the formula f with which it began entails the
  // clauses and the trail.
  ghost predicate StateOk(f: set<Clause>, s: Snapshot) {
    ClausesOk(s.ca) && NoUnits(s.ca) && TrailOk(s.trail) && Implies(f, FormulaOf(s.ca, s.trail, true))
  }

  // The rounds of a run, one for every choice, each beginning where the last one ended.
  ghost predicate Run(cfg: Config, frozen: set<nat>, f: set<Clause>, choices: seq<Choice>, rounds: seq<Round>,
                      start: Snapshot, occs: Occs, total: int) {
    && |rounds| == |choices| && (rounds != [] ==> rounds[0].occs == occs)
    && forall i :: 0 <= i < |rounds| ==>
         RoundFrom(cfg, frozen, f, choices[i], rounds[i], StateAt(start, rounds, i), TotalAt(total, rounds, i))
  }

  ghost predicate RoundFrom(cfg: Config, frozen: set<nat>, f: set<Clause>, c: Choice, r: Round, was: Snapshot, total: int) {
    RoundOk(cfg, frozen, c, r) && StateOk(f, r.now) && r.was == was && r.total == total
  }

  // The clauses on the variable of a round that a unit clause decides before it is
  // eliminated: the code counts them as removed, but they may stay in shortened form.
  ghost function Surplus(r: Round): nat {
    if r.eliminated && !Unassigned(r.now.trail, r.j.x) then |ClausesOn(r.was.ca, r.j.x.v)| else 0
  }

  ghost function TotalSurplus(rounds: seq<Round>): nat {
    if rounds == [] then 0 else TotalSurplus(rounds[..|rounds| - 1]) + Surplus(rounds[|rounds| - 1])
  }

  // The growth of the number of live clauses that the total of the code accounts for.
  function Accounted(cfg: Config, total: int, totalAfter: int): int {
    if cfg.bceOnly then 0 else totalAfter - total
  }

  lemma RoundGrowth(cfg: Config, frozen: set<nat>, c: Choice, r: Round)
    requires RoundOk(cfg, frozen, c, r)
    ensures |LiveSet(r.now.ca)| <= |LiveSet(r.was.ca)| + Accounted(cfg, r.total, r.totalAfter) + Surplus(r)
    ensures r.was.trail <= r.now.trail && (r.was.trail == r.now.trail ==> Surplus(r) == 0)
  {
    hide LiveSet, ClausesOn, JobOk, Unshrunk, CleanList, AllAlive, FirstDecides, NoLive, ResolvedUpTo;
  }

  lemma RunNext(cfg: Config, frozen: set<nat>, f: set<Clause>, choices: seq<Choice>, rounds: seq<Round>,
                start: Snapshot, occs: Occs, total: int, c: Choice, r: Round)
    requires Run(cfg, frozen, f, choices, rounds, start, occs, total) && RoundOk(cfg, frozen, c, r) && StateOk(f, r.now)
    requires r.was == StateAt(start, rounds, |rounds|) && r.total == TotalAt(total, rounds, |rounds|)
    requires rounds == [] ==> r.occs == occs
    ensures Run(cfg, frozen, f, choices + [c], rounds + [r], start, occs, total)
    ensures StateAt(start, rounds + [r], |rounds| + 1) == r.now && TotalAt(total, rounds + [r], |rounds| + 1) == r.totalAfter
    ensures TotalSurplus(rounds + [r]) == TotalSurplus(rounds) + Surplus(r)
  {
    hide RoundOk, StateOk, Surplus;
    var longer, more := rounds + [r], choices + [c];
    assert RoundFrom(cfg, frozen, f, c, r, StateAt(start, rounds, |rounds|), TotalAt(total, rounds, |rounds|));
    hide RoundFrom;
    forall i: nat | i < |longer|
      ensures RoundFrom(cfg, frozen, f, more[i], longer[i], StateAt(start, longer, i), TotalAt(total, longer, i))
    {
      StateBefore(start, total, rounds, r, i);
      RoundBefore(choices, rounds, c, r, i);
    }
    SurplusNext(rounds, r);
  }

  lemma StateBefore(start: Snapshot, total: int, rounds: seq<Round>, r: Round, i: nat)
    requires i <= |rounds|
    ensures StateAt(start, rounds + [r], i) == StateAt(start, rounds, i) && TotalAt(total, rounds + [r], i) == TotalAt(total, rounds, i)
  {
    assert i > 0 ==> (rounds + [r])[i - 1] == rounds[i - 1];
  }

  lemma RoundBefore(choices: seq<Choice>, rounds: seq<Round>, c: Choice, r: Round, i: nat)
    requires i <= |rounds| == |choices|
    ensures (rounds + [r])[i] == (if i < |rounds| then rounds[i] else r)
    ensures (choices + [c])[i] == (if i < |rounds| then choices[i] else c)
  {
  }

  lemma SurplusNext(rounds: seq<Round>, r: Round)
    ensures TotalSurplus(rounds + [r]) == TotalSurplus(rounds) + Surplus(r)
  {
    hide Surplus;
    assert (rounds + [r])[..|rounds|] == rounds;
  }

  // No literal outside the trail follows from the formula.
  ghost predicate NoHiddenUnits(f: set<Clause>, trail: seq<Lit>) {
    forall l: Lit :: Entails(f, [l]) ==> l in trail
  }

  lemma FreshLiteral(trail: seq<Lit>) returns (l: Lit)
    ensures l !in trail
  {
    var n := FreshVariable(trail);
    l := Lit(n, false);
  }

  function FreshVariable(trail: seq<Lit>): (n: nat)
    ensures forall l :: l in trail ==> l.v < n
  {
    if trail == [] then 0
    else
      var n := FreshVariable(trail[1..]);
      if trail[0].v < n then n else trail[0].v + 1
  }

  // A formula without hidden units has a model.
  lemma Consistent(f: set<Clause>, trail: seq<Lit>)
    requires NoHiddenUnits(f, trail)
    ensures Satisfiable(f)
  {
    var l := FreshLiteral(trail);
    assert !Entails(f, [l]);
  }

  // Every literal on the trail follows from the formula with which the run began.
  lemma TrailFollows(f: set<Clause>, s: Snapshot, l: Lit)
    requires StateOk(f, s) && l in s.trail
    ensures Entails(f, [l])
  {
    forall m: Model | SatAll(m, f) ensures SatClause(m, [l]) {
      SatFormula(m, s.ca, s.trail, true);
      assert l in [l];
    }
  }

  lemma TrailStays(f: set<Clause>, trail: seq<Lit>, s: Snapshot)
    requires NoHiddenUnits(f, trail) && StateOk(f, s) && trail <= s.trail
    ensures s.trail == trail
  {
    if |s.trail| > |trail| {
      var l := s.trail[|trail|];
      TrailFollows(f, s, l);
    }
  }

  // ---------- a condition on the clauses ----------

  // Every clause has a positive and a negative literal.
  predicate Mixed(ca: seq<Cls>) {
    forall i :: 0 <= i < |ca| && !ca[i].deleted ==> HasSign(ca[i].lits, false) && HasSign(ca[i].lits, true)
  }

  predicate HasSign(c: Clause, neg: bool) {
    exists l :: l in c && l.neg == neg
  }

  // The trail, with one value for all other variables.
  ghost function Uniform(trail: seq<Lit>, n: nat, value: bool): Model {
    seq(n, v requires 0 <= v < n => if value then Lit(v, true) !in trail else Lit(v, false) in trail)
  }

  function ClausesBelow(ca: seq<Cls>): (n: nat)
    ensures forall i, l :: 0 <= i < |ca| && l in ca[i].lits ==> l.v < n
  {
    if ca == [] then 0
    else
      var n, k := ClausesBelow(ca[..|ca| - 1]), FreshVariable(ca[|ca| - 1].lits);
      if k < n then n else k
  }

  lemma UniformModel(ca: seq<Cls>, trail: seq<Lit>, n: nat, value: bool)
    requires TrailOk(trail) && Propagated(ca, trail) && Mixed(ca)
    requires FreshVariable(trail) <= n && ClausesBelow(ca) <= n
    ensures SatAll(Uniform(trail, n, value), FormulaOf(ca, trail, true))
  {
    var m := Uniform(trail, n, value);
    forall u | u in trail ensures Holds(m, u) {
      assert Neg(u) !in trail;
      assert u == Lit(u.v, u.neg) && Neg(u) == Lit(u.v, !u.neg);
    }
    forall i | 0 <= i < |ca| ensures ClsSat(m, ca[i]) {
      if !ca[i].deleted {
        assert HasSign(ca[i].lits, !value);
        var l :| l in ca[i].lits && l.neg == !value;
        assert Unassigned(trail, l) && l == Lit(l.v, !value) && Neg(l) == Lit(l.v, value);
        assert Holds(m, l);
      }
    }
    SatFormula(m, ca, trail, true);
  }

  lemma UniformFalse(trail: seq<Lit>, n: nat, l: Lit)
    requires TrailOk(trail) && l.v < n && l !in trail
    ensures !Holds(Uniform(trail, n, l.neg), l)
  {
    assert l == Lit(l.v, l.neg) && Neg(l) == Lit(l.v, !l.neg);
  }

  // A caller can tell from the clauses that nothing is hidden.
  lemma MixedHidesNothing(ca: seq<Cls>, trail: seq<Lit>)
    requires TrailOk(trail) && Propagated(ca, trail) && Mixed(ca)
    ensures NoHiddenUnits(FormulaOf(ca, trail, true), trail)
  {
    forall l: Lit | l !in trail ensures !Entails(FormulaOf(ca, trail, true), [l]) {
      var n := FreshVariable(trail) + ClausesBelow(ca) + l.v + 1;
      UniformModel(ca, trail, n, l.neg);
      UniformFalse(trail, n, l);
      assert !SatClause(Uniform(trail, n, l.neg), [l]);
    }
  }

  lemma StateIsOk(data: CoprocessorData)
    requires Steady(data)
    ensures StateOk(data.origin, Snap(data))
  {
  }

  // A satisfiable formula never fails.
  lemma NeverFails(was: set<Clause>, input: set<Clause>, segs: seq<Clause>, data: CoprocessorData)
    requires Step(input, was, segs) && data.Valid() && data.Sound() && data.input == input && Satisfiable(was)
    ensures data.ok
  {
    var m: Model :| SatAll(m, was);
    assert SatAll(Extend(segs, m), input);
    var k: Model :| SatAll(k, data.F());
    SatFormula(k, data.ca, data.trail, data.ok);
  }

  // What the loop knows.
  ghost predicate GrowthOk(cfg: Config, rounds: seq<Round>, start: Snapshot, now: Snapshot, total: int, totalAfter: int) {
    && now == StateAt(start, rounds, |rounds|) && totalAfter == TotalAt(total, rounds, |rounds|)
    && |LiveSet(now.ca)| <= |LiveSet(start.ca)| + Accounted(cfg, total, totalAfter) + TotalSurplus(rounds)
    && start.trail <= now.trail && (now.trail == start.trail ==> TotalSurplus(rounds) == 0)
  }

  lemma LastState(cfg: Config, rounds: seq<Round>, start: Snapshot, now: Snapshot, total: int, totalAfter: int)
    requires GrowthOk(cfg, rounds, start, now, total, totalAfter)
    ensures now == StateAt(start, rounds, |rounds|)
  {
  }

  lemma GrowthNext(cfg: Config, frozen: set<nat>, f: set<Clause>, choices: seq<Choice>, rounds: seq<Round>,
                    start: Snapshot, occs: Occs, total: int, c: Choice, r: Round)
    requires Run(cfg, frozen, f, choices, rounds, start, occs, total) && RoundOk(cfg, frozen, c, r) && StateOk(f, r.now)
    requires GrowthOk(cfg, rounds, start, r.was, total, r.total) && (rounds == [] ==> r.occs == occs)
    ensures Run(cfg, frozen, f, choices + [c], rounds + [r], start, occs, total)
    ensures GrowthOk(cfg, rounds + [r], start, r.now, total, r.totalAfter)
  {
    hide RoundOk, StateOk, Run, LiveSet, StateAt, TotalAt, TotalSurplus, Surplus;
    RunNext(cfg, frozen, f, choices, rounds, start, occs, total, c, r);
    RoundGrowth(cfg, frozen, c, r);
  }

  // A variable is counted in at most one round of a run.
  lemma DecidedOnce(cfg: Config, frozen: set<nat>, f: set<Clause>, choices: seq<Choice>, rounds: seq<Round>,
                    start: Snapshot, occs: Occs, total: int, i: nat, k: nat)
    requires Run(cfg, frozen, f, choices, rounds, start, occs, total) && i < k < |rounds|
    requires Surplus(rounds[i]) > 0 && Surplus(rounds[k]) > 0
    ensures choices[i].v != choices[k].v
  {
    hide StateOk, Tried;
    TrailsGrow(cfg, frozen, f, choices, rounds, start, occs, total, i, k);
  }

  lemma {:induction false} TrailsGrow(cfg: Config, frozen: set<nat>, f: set<Clause>, choices: seq<Choice>, rounds: seq<Round>,
                                      start: Snapshot, occs: Occs, total: int, i: nat, k: nat)
    requires Run(cfg, frozen, f, choices, rounds, start, occs, total) && i < k < |rounds|
    ensures rounds[i].now.trail <= rounds[k].was.trail
  {
    hide StateOk, RoundOk;
    if i + 1 < k {
      TrailsGrow(cfg, frozen, f, choices, rounds, start, occs, total, i, k - 1);
      RoundGrowth(cfg, frozen, choices[k - 1], rounds[k - 1]);
    }
  }

  // bve_worker: choices is what the heap or the random queue yields. The number of live
  // clauses follows the total of the code, except for the clauses on chosen variables that
  // a unit clause decides. If no literal outside the trail follows from the formula, there
  // are none, and the number stays within the growth bound.
  method BveWorker(cfg: Config, data: CoprocessorData, bve: BoundedVariableElimination, choices: seq<Choice>)
    returns (ghost rounds: seq<Round>)
    requires BlockedClauses.Ready(data) && data.Sound() && NoUnits(data.ca) && bve.totallyAddedClauses <= GrowthBound(cfg) && bve.Cleared()
    modifies bve, data`ca, data`occs, data`trail, data`ok, data`qhead, data`undo, data`origin
    ensures data.Valid() && data.Sound() && (data.ok ==> Steady(data))
    ensures bve.totallyAddedClauses <= GrowthBound(cfg) && data.origin == old(data.F()) && (data.ok ==> bve.Cleared())
    ensures data.ok ==> Run(cfg, data.frozen, data.origin, choices, rounds, old(Snap(data)), old(data.occs), old(bve.totallyAddedClauses))
    ensures data.ok ==> GrowthOk(cfg, rounds, old(Snap(data)), Snap(data), old(bve.totallyAddedClauses), bve.totallyAddedClauses)
    ensures Satisfiable(old(data.F())) ==> data.ok
    ensures NoHiddenUnits(old(data.F()), old(data.trail)) ==> data.ok && data.trail == old(data.trail) && TotalSurplus(rounds) == 0
    ensures NoHiddenUnits(old(data.F()), old(data.trail)) ==>
      |LiveSet(data.ca)| <= |LiveSet(old(data.ca))| + Accounted(cfg, old(bve.totallyAddedClauses), bve.totallyAddedClauses)
    ensures NoHiddenUnits(old(data.F()), old(data.trail)) && old(bve.totallyAddedClauses) == 0 ==>
      |LiveSet(data.ca)| <= |LiveSet(old(data.ca))| + GrowthBound(cfg)
    ensures Mixed(old(data.ca)) ==> NoHiddenUnits(old(data.F()), old(data.trail))
  {
    ghost var start, occs, total, segs, f := Snap(data), data.occs, bve.totallyAddedClauses, Segs(data.undo), data.F();
    data.origin := data.F();
    MixedStarts(data);
    WorkerStarts(cfg, data, start, total, choices);
    hide *;
    rounds := Rounds(cfg, data, bve, choices, start, occs, total, f);
    AccountedBound(cfg, total, bve.totallyAddedClauses);
    WorkerEnds(cfg, data, f, segs, rounds, start, total, bve.totallyAddedClauses);
    SnapIs(data);
  }

  method Rounds(cfg: Config, data: CoprocessorData, bve: BoundedVariableElimination, choices: seq<Choice>,
      ghost start: Snapshot, ghost occs: Occs, ghost total: int, ghost f: set<Clause>)
    returns (ghost rounds: seq<Round>)
    requires Steady(data) && data.Valid() && data.Sound() && data.origin == f && data.occs == occs
    requires Run(cfg, data.frozen, f, choices[..0], [], start, occs, total)
    requires GrowthOk(cfg, [], start, Snap(data), total, bve.totallyAddedClauses) && bve.totallyAddedClauses <= GrowthBound(cfg)
    requires bve.Cleared()
    modifies bve, data`ca, data`occs, data`trail, data`ok, data`qhead, data`undo
    ensures data.Valid() && data.Sound() && (data.ok ==> Steady(data) && bve.Cleared()) && bve.totallyAddedClauses <= GrowthBound(cfg)
    ensures data.ok ==> Run(cfg, data.frozen, f, choices, rounds, start, occs, total)
    ensures data.ok ==> GrowthOk(cfg, rounds, start, Snap(data), total, bve.totallyAddedClauses)
  {
    hide Steady, OccsOk, ClausesOk, TrailOk, Propagated, Step, FormulaOf, PivotsFree, NoEmptySegment, Run, GrowthOk, RoundOk, StateOk, Snap, GrowthBound;
    rounds := [];
    var i := 0;
    while i < |choices| && data.ok
      invariant 0 <= i <= |choices| && data.Valid() && data.Sound() && (data.ok ==> Steady(data))
      invariant bve.totallyAddedClauses <= GrowthBound(cfg) && (data.ok ==> bve.Cleared())
      invariant data.ok ==> |rounds| == i && (i == 0 ==> data.occs == occs)
      invariant data.ok ==> Run(cfg, data.frozen, f, choices[..i], rounds, start, occs, total)
      invariant data.ok ==> GrowthOk(cfg, rounds, start, Snap(data), total, bve.totallyAddedClauses)
    {
      ghost var r;
      var eliminated;
      eliminated, r := EliminateVariable(cfg, data, bve, choices[i]);
      if data.ok {
        StateIsOk(data);
        GrowthNext(cfg, data.frozen, f, choices[..i], rounds, start, occs, total, choices[i], r);
        NextChoice(choices, i);
        rounds := rounds + [r];
      }
      i := i + 1;
    }
    AllChoices(choices);
  }

  lemma MixedStarts(data: CoprocessorData)
    requires BlockedClauses.Ready(data)
    ensures Mixed(data.ca) ==> NoHiddenUnits(data.F(), data.trail)
  {
    assert data.trail[..data.qhead] == data.trail;
    if Mixed(data.ca) { MixedHidesNothing(data.ca, data.trail); }
  }

  lemma WorkerStarts(cfg: Config, data: CoprocessorData, start: Snapshot, total: int, choices: seq<Choice>)
    requires BlockedClauses.Ready(data) && data.Sound() && NoUnits(data.ca) && data.origin == data.F() && start == Snap(data)
    ensures Steady(data) && Run(cfg, data.frozen, data.F(), choices[..0], [], start, data.occs, total)
    ensures GrowthOk(cfg, [], start, Snap(data), total, total)
  {
  }

  lemma NextChoice(choices: seq<Choice>, i: nat)
    requires i < |choices|
    ensures choices[..i] + [choices[i]] == choices[..i + 1]
  {
  }

  lemma AccountedBound(cfg: Config, total: int, totalAfter: int)
    requires totalAfter <= GrowthBound(cfg)
    ensures total == 0 ==> Accounted(cfg, total, totalAfter) <= GrowthBound(cfg)
  {
  }

  lemma AllChoices(choices: seq<Choice>)
    ensures choices[..|choices|] == choices
  {
  }

  // At the end, hidden units are the only reason to fail or to exceed the bound.
  lemma WorkerEnds(cfg: Config, data: CoprocessorData, f: set<Clause>, segs: seq<Clause>, rounds: seq<Round>,
                   start: Snapshot, total: int, totalAfter: int)
    requires data.Valid() && data.Sound() && (data.ok ==> Steady(data) && data.origin == f) && Step(data.input, f, segs)
    requires data.ok ==> GrowthOk(cfg, rounds, start, Snap(data), total, totalAfter)
    ensures Satisfiable(f) ==> data.ok
    ensures NoHiddenUnits(f, start.trail) ==> data.ok && data.trail == start.trail && TotalSurplus(rounds) == 0
    ensures NoHiddenUnits(f, start.trail) ==> |LiveSet(data.ca)| <= |LiveSet(start.ca)| + Accounted(cfg, total, totalAfter)
  {
    hide Steady, NoHiddenUnits, LiveSet, Step, StateAt, TotalAt, TotalSurplus, FormulaOf, Accounted, StateOk, OccsOk, Satisfiable;
    if Satisfiable(f) { NeverFails(f, data.input, segs, data); }
    if NoHiddenUnits(f, start.trail) {
      Consistent(f, start.trail);
      NeverFails(f, data.input, segs, data);
      StateIsOk(data);
      TrailStays(f, start.trail, Snap(data));
    }
  }

  // ---------- a run that exceeds the bound ----------

  // Variables 0 to 11. The first four clauses are on variable 0: the first pair of them
  // yields the unit 1, which makes 0 false, and the fourth clause stays in shortened form.
  // The last seven are on variable 4 and have twelve resolvents.
  function ElevenAt(i: nat): Clause {
    if i == 0 then [Lit(0, false), Lit(1, false)]
    else if i == 1 then [Lit(0, true), Lit(1, false)]
    else if i == 2 then [Lit(0, true), Lit(1, true)]
    else if i == 3 then [Lit(0, false), Lit(2, false), Lit(3, false)]
    else [Lit(4, i >= 7), Lit(i + 1, false)]
  }

  function Eleven(n: nat): (ca: seq<Cls>)
    ensures |ca| == n && forall i :: 0 <= i < n ==> ca[i] == Cls(ElevenAt(i), false)
  {
    seq(n, i requires 0 <= i < n => Cls(ElevenAt(i), false))
  }

  const ONE_MORE := Config(false, false, false, false, false, 0, 1)

  lemma ElevenProper(i: nat)
    ensures Proper(ElevenAt(i)) && |ElevenAt(i)| > 1
  {
  }

  // Only the first four clauses are on variable 0.
  function ListAt(n: nat, neg: bool): seq<CRef> {
    if neg then if n < 2 then [] else if n == 2 then [1] else [1, 2]
    else if n == 0 then [] else if n < 4 then [0] else [0, 3]
  }

  ghost predicate FirstLists(occs: Occs, n: nat) {
    List(occs, Lit(0, false)) == ListAt(n, false) && List(occs, Lit(0, true)) == ListAt(n, true)
  }

  lemma ListNext(n: nat, neg: bool)
    ensures ListAt(n + 1, neg) == ListAt(n, neg) + if Lit(0, neg) in ElevenAt(n) then [n] else []
  {
  }

  method LoadOne(data: CoprocessorData, n: nat)
    requires data.Valid() && data.trail == [] && data.ca == Eleven(n) && FirstLists(data.occs, n)
    modifies data`ca, data`occs
    ensures data.Valid() && data.ca == Eleven(n + 1) && FirstLists(data.occs, n + 1)
  {
    hide OccsOk, ClausesOk, TrailOk, Propagated, Proper, ElevenAt, ListAt;
    ElevenProper(n);
    ListNext(n, false);
    ListNext(n, true);
    var cr := data.AddClause(ElevenAt(n));
  }

  lemma NothingListed(data: CoprocessorData)
    requires data.Valid() && data.ca == []
    ensures data.ca == Eleven(0) && FirstLists(data.occs, 0)
  {
    forall l ensures List(data.occs, l) == [] {
      var s := List(data.occs, l);
      assert |s| > 0 ==> InList(data.occs, l, s[0]);
    }
  }

  method LoadEleven() returns (data: CoprocessorData)
    ensures fresh(data) && LoadedEleven(data)
  {
    hide OccsOk, ClausesOk, TrailOk, Propagated, FirstLists, ElevenAt;
    data := new CoprocessorData(FormulaOf(Eleven(11), [], true), {});
    NothingListed(data);
    var n := 0;
    while n < 11
      invariant 0 <= n <= 11 && data.Valid() && data.ok && data.trail == [] && data.undo == [] && data.qhead == 0
      invariant data.ca == Eleven(n) && FirstLists(data.occs, n)
    {
      LoadOne(data, n);
      n := n + 1;
    }
    EquivalentStep(data.input, data.F());
    NoneUnit();
  }

  lemma NoneUnit()
    ensures NoUnits(Eleven(11)) && ClausesOk(Eleven(11))
  {
    forall i | 0 <= i < 11 ensures Proper(ElevenAt(i)) && |ElevenAt(i)| > 1 {
      ElevenProper(i);
    }
  }

  // Models that differ on all variables but 0 and 1.
  function HalfModel(first: bool, n: nat): Model {
    [false, true, first, !first, first] + seq(3, _ => !first) + seq(4 + n, _ => first)
  }

  lemma HalfModelHolds(first: bool, n: nat)
    ensures SatAll(HalfModel(first, n), FormulaOf(Eleven(11), [], true))
  {
    var m := HalfModel(first, n);
    forall i | 0 <= i < 11 ensures ClsSat(m, Eleven(11)[i]) {
      var c := ElevenAt(i);
      assert c[0] in c && c[1] in c;
      if i == 3 { assert c[2] in c; }
    }
    SatFormula(m, Eleven(11), [], true);
  }

  // Only units of the variables 0 and 1 follow.
  lemma FewUnits(s: Snapshot, l: Lit)
    requires StateOk(FormulaOf(Eleven(11), [], true), s) && l in s.trail
    ensures l.v < 2 && l != Lit(0, false)
  {
    TrailFollows(FormulaOf(Eleven(11), [], true), s, l);
    HalfModelHolds(true, l.v);
    HalfModelHolds(false, l.v);
    assert SatClause(HalfModel(true, l.v), [l]) && SatClause(HalfModel(false, l.v), [l]);
    assert Holds(HalfModel(true, l.v), l) && Holds(HalfModel(false, l.v), l);
  }

  // As long as clauses only shrink, the clauses on variable 4 stay as they are, and the
  // fourth clause stays alive.
  ghost predicate Remaining(s: Snapshot) {
    && |s.ca| == 11 && !s.ca[3].deleted && (forall l :: l in s.ca[3].lits ==> l in ElevenAt(3))
    && (forall i, l: Lit :: 0 <= i < 4 && l in s.ca[i].lits ==> l.v < 4)
    && (forall i, l: Lit :: 4 <= i < 11 ==> !s.ca[i].deleted && (l in s.ca[i].lits <==> l in ElevenAt(i)))
  }

  lemma Remains(was: Snapshot, s: Snapshot)
    requires was.ca == Eleven(11) && Shrunk(was, s) && StateOk(FormulaOf(Eleven(11), [], true), s)
    ensures Remaining(s)
  {
    hide StateOk, ElevenAt;
    forall l | l in s.trail ensures l.v < 2 && l != Lit(0, false) {
      FewUnits(s, l);
    }
    forall i | 0 <= i < 11 ensures ElevenVars(i) && SimplifiedBy(Cls(ElevenAt(i), false), s.ca[i], s.trail, true) {
      VarsOf(i);
      assert was.ca[i] == Cls(ElevenAt(i), false);
    }
    assert ElevenVars(3);
    forall i, l: Lit | 4 <= i < 11 ensures !s.ca[i].deleted && (l in s.ca[i].lits <==> l in ElevenAt(i)) {
      assert ElevenVars(i);
      assert l.v == Neg(l).v;
    }
  }

  predicate ElevenVars(i: nat) {
    && (i >= 4 ==> forall l :: l in ElevenAt(i) ==> l.v == 4 || l.v == i + 1)
    && (i < 4 ==> forall l :: l in ElevenAt(i) ==> l.v < 4)
    && (i == 3 ==> forall l :: l in ElevenAt(i) ==> l.v >= 2 || l == Lit(0, false))
  }

  lemma VarsOf(i: nat)
    ensures ElevenVars(i)
  {
  }

  lemma FirstRoundLists(r: Round)
    requires r.was == Snapshot(Eleven(11), []) && FirstLists(r.occs, 11) && JobOn(ONE_MORE, r.was, r.occs, 0, r.j)
    ensures JobOk(r.j) && r.j.x == Lit(0, false) && !HasDefinition(r.j) && r.j.pos == [0, 3] && r.j.neg == [1, 2]
    ensures Unshrunk(r.was.ca, r.j.pos, r.j.pos0) && Unshrunk(r.was.ca, r.j.neg, r.j.neg0)
  {
    hide JobOk, Unshrunk, CleanList, ClausesOn, ElevenAt, HasDefinition;
    assert AllAlive(Eleven(11), [0, 3]) && AllAlive(Eleven(11), [1, 2]);
    assert Neg(Lit(0, false)) == Lit(0, true);
  }

  lemma FirstResolvent()
    ensures ResolventLits(ElevenAt(0), ElevenAt(1), Lit(0, false)) == {Lit(1, false)}
    ensures !Clash(ElevenAt(0), Lit(0, false), ElevenAt(1)) && DecidesBy(Eleven(11), Lit(0, false), Lit(1, false))
  {
    var a, b, x, u := ElevenAt(0), ElevenAt(1), Lit(0, false), Lit(1, false);
    assert a[1] in a;
    assert forall l :: l in ResolventLits(a, b, x) <==> l == u;
    var c := ElevenAt(2);
    assert c[1] in c && Eleven(11)[2] == Cls(c, false);
    assert DecidingClause(Eleven(11)[2], x, u);
  }

  lemma FirstRoundDecides(r: Round)
    requires r.was == Snapshot(Eleven(11), []) && FirstLists(r.occs, 11) && JobOn(ONE_MORE, r.was, r.occs, 0, r.j)
    ensures FirstDecides(r.was.ca, r.j) && |r.j.pos| == 2 && |r.j.neg| == 2
  {
    hide JobOk, JobOn, ElevenAt, FirstLists, ResolventLits, DecidesBy, Clash;
    FirstRoundLists(r);
    FirstResolvent();
    var ca, j := Eleven(11), r.j;
    assert ca[0] == Cls(ElevenAt(0), false) && ca[1] == Cls(ElevenAt(1), false);
    assert j.pos0[0] == ElevenAt(0) && j.neg0[0] == ElevenAt(1);
    assert Lit(1, false) in ResolventLits(ElevenAt(0), ElevenAt(1), j.x);
  }

  lemma FirstRound(r: Round)
    requires r.was == Snapshot(Eleven(11), []) && FirstLists(r.occs, 11) && r.total == 0
    requires RoundOk(ONE_MORE, {}, Choice(0, false, false), r) && StateOk(FormulaOf(Eleven(11), [], true), r.now)
    ensures Remaining(r.now) && r.totalAfter == -4
  {
    hide StateOk, JobOn, FirstLists, Remaining, FirstDecides, Shrunk, LiveSet;
    TwiceOnZero();
    FirstRoundDecides(r);
    Remains(r.was, r.now);
  }

  lemma TwiceOnZero()
    ensures ClausesOn(Eleven(11), 0) != {}
  {
    var c := ElevenAt(0);
    assert c[0] in c;
    assert 0 in ClausesOn(Eleven(11), 0);
  }

  lemma ListIsRange(ca: seq<Cls>, list: seq<CRef>, l: Lit, lo: nat, hi: nat)
    requires CleanList(ca, list, l) && lo <= hi
    requires forall i: CRef :: i < |ca| && !ca[i].deleted && l in ca[i].lits <==> lo <= i < hi
    ensures |list| == hi - lo && forall i: CRef :: i in list <==> lo <= i < hi
  {
    assert Refs(list) == NewRefs(lo, hi);
  }

  lemma OnFourIn(s: Snapshot)
    requires Remaining(s)
    ensures forall i: CRef :: i < |s.ca| && !s.ca[i].deleted && Lit(4, false) in s.ca[i].lits <==> 4 <= i < 7
    ensures forall i: CRef :: i < |s.ca| && !s.ca[i].deleted && Lit(4, true) in s.ca[i].lits <==> 7 <= i < 11
  {
    hide ElevenAt;
    forall i: CRef | 4 <= i < 11
      ensures (Lit(4, false) in s.ca[i].lits <==> i < 7) && (Lit(4, true) in s.ca[i].lits <==> 7 <= i)
    {
      OnFour(i);
    }
  }

  lemma SecondRoundLists(s: Snapshot, occs: Occs, j: Job)
    requires Remaining(s) && JobOn(ONE_MORE, s, occs, 4, j)
    ensures |j.pos| == 3 && |j.neg| == 4 && !HasDefinition(j)
    ensures forall i: CRef :: (i in j.pos <==> 4 <= i < 7) && (i in j.neg <==> 7 <= i < 11)
  {
    hide JobOk, Unshrunk, ClausesOn, Remaining, CleanList, HasDefinition, AllAlive;
    OnFourIn(s);
    ListIsRange(s.ca, j.pos, Lit(4, false), 4, 7);
    ListIsRange(s.ca, j.neg, Lit(4, true), 7, 11);
  }

  lemma OnFour(i: nat)
    ensures i >= 4 ==> (Lit(4, false) in ElevenAt(i) <==> i < 7) && (Lit(4, true) in ElevenAt(i) <==> 7 <= i)
  {
    var c := ElevenAt(i);
    if i >= 4 { assert c[0] in c; }
  }

  lemma FourFree(s: Snapshot)
    requires StateOk(FormulaOf(Eleven(11), [], true), s)
    ensures Unassigned(s.trail, Lit(4, false))
  {
    hide StateOk;
    if Lit(4, false) in s.trail { FewUnits(s, Lit(4, false)); }
    if Lit(4, true) in s.trail { FewUnits(s, Lit(4, true)); }
  }

  lemma SecondRound(r: Round)
    requires Remaining(r.was) && r.total == -4 && StateOk(FormulaOf(Eleven(11), [], true), r.was)
    requires RoundOk(ONE_MORE, {}, Choice(4, false, false), r) && StateOk(FormulaOf(Eleven(11), [], true), r.now)
    ensures r.j.x == Lit(4, false) && JobOn(ONE_MORE, r.was, r.occs, 4, r.j) && Kept(r.was, r.now, 4)
    ensures JobOk(r.j) && |r.j.pos| == 3 && ResolvedUpTo(r.j, r.now.ca, r.now.trail, 3, 0)
  {
    hide StateOk, Remaining, FirstDecides, Shrunk, Kept, LiveSet, ResolvedUpTo, JobOk, CleanList, Unshrunk, NoLive;
    FourFree(r.was);
    FourFree(r.now);
    SomeOnFour(r.was);
    SecondRoundLists(r.was, r.occs, r.j);
  }

  lemma SomeOnFour(s: Snapshot)
    requires Remaining(s)
    ensures ClausesOn(s.ca, 4) != {}
  {
    OnFour(4);
    assert Lit(4, false) in s.ca[4].lits;
    assert 4 in ClausesOn(s.ca, 4);
  }

  // The m-th resolvent.
  ghost predicate ResolventAt(ca: seq<Cls>, r: nat, m: nat) {
    && r < |ca| && !ca[r].deleted && Lit(5 + m / 4, false) in ca[r].lits && Lit(8 + m % 4, false) in ca[r].lits
    && forall l :: l in ca[r].lits ==> l == Lit(5 + m / 4, false) || l == Lit(8 + m % 4, false)
  }

  lemma JobClauses(s: Snapshot, occs: Occs, j: Job, a: nat, b: nat)
    requires Remaining(s) && JobOn(ONE_MORE, s, occs, 4, j) && a < |j.pos| && b < |j.neg|
    ensures |j.pos| == |j.pos0| && |j.neg| == |j.neg0| && 4 <= j.pos[a] < 7 <= j.neg[b] < 11
    ensures forall l :: l in j.pos0[a] <==> l in ElevenAt(j.pos[a])
    ensures forall l :: l in j.neg0[b] <==> l in ElevenAt(j.neg[b])
  {
    hide JobOk, JobOn, ElevenAt;
    SecondRoundLists(s, occs, j);
    JobUnshrunk(s, occs, j);
    assert j.pos[a] in j.pos && j.neg[b] in j.neg;
    assert s.ca[j.pos[a]].lits == j.pos0[a] && s.ca[j.neg[b]].lits == j.neg0[b];
  }

  lemma JobUnshrunk(s: Snapshot, occs: Occs, j: Job)
    requires JobOn(ONE_MORE, s, occs, 4, j)
    ensures Unshrunk(s.ca, j.pos, j.pos0) && Unshrunk(s.ca, j.neg, j.neg0)
  {
  }

  lemma NotSettled(s: Snapshot, c: Clause, d: Clause, i: nat, k: nat)
    requires StateOk(FormulaOf(Eleven(11), [], true), s) && 4 <= i < 7 <= k
    requires (forall l :: l in c <==> l in ElevenAt(i)) && (forall l :: l in d <==> l in ElevenAt(k))
    ensures !Settled(s.trail, c, Lit(4, false), d)
  {
    hide StateOk;
    forall l | l in s.trail ensures l !in c && l !in d {
      FewUnits(s, l);
    }
  }

  lemma ResolventIs(s: Snapshot, c: Clause, d: Clause, i: nat, k: nat, r: nat)
    requires StateOk(FormulaOf(Eleven(11), [], true), s) && 4 <= i < 7 <= k && r < |s.ca|
    requires (forall l :: l in c <==> l in ElevenAt(i)) && (forall l :: l in d <==> l in ElevenAt(k))
    requires IsResolvent(s.ca[r], c, Lit(4, false), d)
    ensures forall l :: l in s.ca[r].lits <==> l == Lit(i + 1, false) || l == Lit(k + 1, false)
  {
    var e := s.ca[r].lits;
    assert Proper(e) && |e| > 1;
    assert e[0] in e && e[1] in e && Code(e[0]) < Code(e[1]);
  }

  lemma ResolventFound(r: Round, m: nat)
    requires m < 12 && Remaining(r.was) && StateOk(FormulaOf(Eleven(11), [], true), r.now)
    requires r.j.x == Lit(4, false) && JobOn(ONE_MORE, r.was, r.occs, 4, r.j)
    requires JobOk(r.j) && |r.j.pos| == 3 && ResolvedUpTo(r.j, r.now.ca, r.now.trail, 3, 0)
    ensures HasResolvent(r.now.ca, m)
  {
    hide StateOk, JobOk, JobOn, Settled, Remaining, ElevenAt, IsResolvent;
    var j := r.j;
    SecondRoundLists(r.was, r.occs, j);
    var i, k := 4 + m / 4, 7 + m % 4;
    assert i in j.pos && k in j.neg;
    var a: nat :| a < |j.pos| && j.pos[a] == i;
    var b: nat :| b < |j.neg| && j.neg[b] == k;
    JobClauses(r.was, r.occs, j, a, b);
    assert Considered(j, a, b) && Before(a, b, 3, 0);
    assert Resolved(r.now.ca, r.now.trail, j.pos0[a], j.x, j.neg0[b]);
    NotSettled(r.now, j.pos0[a], j.neg0[b], i, k);
    var n :| 0 <= n < |r.now.ca| && IsResolvent(r.now.ca[n], j.pos0[a], j.x, j.neg0[b]);
    ResolventIs(r.now, j.pos0[a], j.neg0[b], i, k, n);
    StillThere(r.now.ca[n], j.pos0[a], j.x, j.neg0[b]);
    assert ResolventAt(r.now.ca, n, m);
  }

  lemma StillThere(r: Cls, c: Clause, x: Lit, d: Clause)
    requires IsResolvent(r, c, x, d)
    ensures !r.deleted
  {
  }

  ghost predicate HasResolvent(ca: seq<Cls>, m: nat) {
    exists k :: ResolventAt(ca, k, m)
  }

  // Twelve different resolvents.
  lemma {:induction false} Gather(ca: seq<Cls>, n: nat) returns (S: set<nat>)
    requires n <= 12 && forall m: nat :: m < 12 ==> HasResolvent(ca, m)
    ensures |S| == n && S <= LiveSet(ca) && forall r :: r in S ==> exists m: nat :: m < n && ResolventAt(ca, r, m)
  {
    S := {};
    if n > 0 {
      var last: nat := n - 1;
      S := Gather(ca, last);
      assert HasResolvent(ca, last);
      var r :| ResolventAt(ca, r, last);
      forall m: nat | m < last ensures !ResolventAt(ca, r, m) {
        Different(ca, r, m, last);
      }
      S := S + {r};
    }
  }

  lemma Different(ca: seq<Cls>, r: nat, m: nat, n: nat)
    requires m < n < 12 && ResolventAt(ca, r, n)
    ensures !ResolventAt(ca, r, m)
  {
    assert m == 4 * (m / 4) + m % 4 && n == 4 * (n / 4) + n % 4;
  }

  // The fourth clause is none of them.
  lemma FourthStays(was: Snapshot, s: Snapshot)
    requires Remaining(was) && Kept(was, s, 4) && StateOk(FormulaOf(Eleven(11), [], true), was)
    requires StateOk(FormulaOf(Eleven(11), [], true), s)
    ensures 3 in LiveSet(s.ca) && forall m: nat :: m < 12 ==> !ResolventAt(s.ca, 3, m)
  {
    hide StateOk;
    forall l | l in s.trail ensures l !in ElevenAt(3) {
      FewUnits(s, l);
    }
    assert NotOn(was.ca[3].lits, 4);
    assert SimplifiedBy(was.ca[3], s.ca[3], s.trail, true);
  }

  // Eleven clauses have become at least thirteen.
  lemma Thirteen(r: Round)
    requires Remaining(r.was) && r.total == -4 && StateOk(FormulaOf(Eleven(11), [], true), r.was)
    requires RoundOk(ONE_MORE, {}, Choice(4, false, false), r) && StateOk(FormulaOf(Eleven(11), [], true), r.now)
    ensures |LiveSet(r.now.ca)| >= 13
  {
    hide StateOk, Remaining, RoundOk, JobOn, Kept, JobOk, ResolvedUpTo, LiveSet, HasResolvent, ResolventAt;
    SecondRound(r);
    forall m: nat | m < 12 ensures HasResolvent(r.now.ca, m) {
      ResolventFound(r, m);
    }
    var S := Gather(r.now.ca, 12);
    FourthStays(r.was, r.now);
    assert 3 !in S;
    SubsetCard(S + {3}, LiveSet(r.now.ca));
  }

  ghost predicate LoadedEleven(data: CoprocessorData)
    reads data
  {
    && BlockedClauses.Ready(data) && data.Sound() && NoUnits(data.ca) && data.frozen == {}
    && data.ca == Eleven(11) && data.trail == [] && FirstLists(data.occs, 11)
  }

  lemma ElevenStarts(data: CoprocessorData)
    requires LoadedEleven(data)
    ensures BlockedClauses.Ready(data) && data.Sound() && NoUnits(data.ca) && data.frozen == {} && data.ca == Eleven(11)
    ensures Snap(data) == Snapshot(Eleven(11), []) && FirstLists(data.occs, 11)
    ensures data.F() == FormulaOf(Eleven(11), [], true) && Satisfiable(data.F()) && |LiveSet(Eleven(11))| <= 11
  {
    HalfModelHolds(true, 0);
    assert LiveSet(Eleven(11)) <= NewRefs(0, 11);
    SubsetCard(LiveSet(Eleven(11)), NewRefs(0, 11));
  }

  lemma TwoRounds(choices: seq<Choice>, rounds: seq<Round>, start: Snapshot, occs: Occs, now: Snapshot, totalAfter: int)
    requires choices == [Choice(0, false, false), Choice(4, false, false)] && start == Snapshot(Eleven(11), [])
    requires Run(ONE_MORE, {}, FormulaOf(Eleven(11), [], true), choices, rounds, start, occs, 0)
    requires GrowthOk(ONE_MORE, rounds, start, now, 0, totalAfter) && FirstLists(occs, 11)
    ensures |LiveSet(now.ca)| >= 13
  {
    hide RoundOk, StateOk, Remaining, LiveSet, FirstLists;
    FirstRound(rounds[0]);
    Thirteen(rounds[1]);
  }

  // bve_worker, with a growth of one clause allowed in total: the eleven clauses become
  // at least thirteen.
  method BoundExceeded() returns (data: CoprocessorData, ghost was: seq<Cls>)
    ensures data.Valid() && data.Sound() && data.ok && |LiveSet(data.ca)| > |LiveSet(was)| + GrowthBound(ONE_MORE)
  {
    data := LoadEleven();
    was := data.ca;
    var bve := new BoundedVariableElimination();
    ElevenStarts(data);
    ghost var start, occs := Snap(data), data.occs;
    hide *;
    AtMostOne();
    var choices := [Choice(0, false, false), Choice(4, false, false)];
    ghost var rounds := BveWorker(ONE_MORE, data, bve, choices);
    TwoRounds(choices, rounds, start, occs, Snap(data), bve.totallyAddedClauses);
    SnapIs(data);
  }

  lemma AtMostOne()
    ensures GrowthBound(ONE_MORE) == 1
  {
  }
}
