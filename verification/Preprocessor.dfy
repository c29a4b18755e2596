// A whole run: the formula is loaded, techniques run in any order, and a model of what is
// left is turned into a model of the loaded formula (coprocessor/Coprocessor.cc).

module Preprocessor {
  import opened Collections
  import opened Sat
  import opened Undo
  import opened Steps
  import opened Formula
  import opened Propagation
  import Resolvents
  import Blocked = BlockedClauses
  import Covered = CoveredClauses
  import Elimination = ClauseElimination
  import Variables = VariableElimination
  import Run = EliminationRun
  import Shuffler
  import UndoFile

  // ---------- loading ----------

  ghost function Prefix(clauses: seq<Clause>, n: nat): set<Clause>
    requires n <= |clauses|
  {
    set i | 0 <= i < n :: clauses[i]
  }

  // The state stands for the clauses that have been read.
  ghost predicate Loaded(data: CoprocessorData, clauses: seq<Clause>, n: nat)
    reads data
    requires n <= |clauses|
  {
    && data.Valid() && data.qhead == 0 && data.undo == [] && NoUnits(data.ca)
    && Equiv(Prefix(clauses, n), data.F())
  }

  lemma PrefixNext(clauses: seq<Clause>, n: nat, m: Model)
    requires n < |clauses|
    ensures SatAll(m, Prefix(clauses, n + 1)) <==> SatAll(m, Prefix(clauses, n)) && SatClause(m, clauses[n])
  {
    if SatAll(m, Prefix(clauses, n + 1)) {
      forall c | c in Prefix(clauses, n) ensures SatClause(m, c) {
        assert c in Prefix(clauses, n + 1);
      }
      assert clauses[n] in Prefix(clauses, n + 1);
    }
  }

  lemma LoadedStep(clauses: seq<Clause>, n: nat, f: set<Clause>, g: set<Clause>)
    requires n < |clauses| && Equiv(Prefix(clauses, n), f)
    requires Joined(g, f, clauses[n])
    ensures Equiv(Prefix(clauses, n + 1), g)
  {
    forall m: Model ensures SatAll(m, Prefix(clauses, n + 1)) <==> SatAll(m, g) {
      PrefixNext(clauses, n, m);
    }
  }

  lemma EmptyFails(ca: seq<Cls>, trail: seq<Lit>, ok: bool, m: Model)
    ensures !SatAll(m, FormulaOf(ca, trail, false))
    ensures SatAll(m, FormulaOf(ca, trail, ok)) && SatClause(m, []) <==> SatAll(m, FormulaOf(ca, trail, false))
  {
    SatFormula(m, ca, trail, false);
  }

  // The effect of a unit clause on the formula, for each outcome of enqueue.
  lemma UnitLoads(ca: seq<Cls>, trail: seq<Lit>, u: Lit, m: Model)
    ensures SatAll(m, FormulaOf(ca, trail + [u], true)) <==> SatAll(m, FormulaOf(ca, trail, true)) && SatClause(m, [u])
    ensures u in trail ==>
      (SatAll(m, FormulaOf(ca, trail, true)) <==> SatAll(m, FormulaOf(ca, trail, true)) && SatClause(m, [u]))
    ensures Neg(u) in trail ==>
      (SatAll(m, FormulaOf(ca, trail, false)) <==> SatAll(m, FormulaOf(ca, trail, true)) && SatClause(m, [u]))
  {
    FormulaUnit(ca, trail, u, true);
    SatAllUnion(m, FormulaOf(ca, trail, true), {[u]});
    SatAllSingle(m, [u]);
    SatFormula(m, ca, trail, true);
    SatFormula(m, ca, trail, false);
    assert u in [u];
    assert SatClause(m, [u]) <==> Holds(m, u);
  }

  // The clauses as they are stored at the beginning.
  function Unmarked(clauses: seq<Clause>): (ca: seq<Cls>)
    ensures |ca| == |clauses| && forall i :: 0 <= i < |ca| ==> ca[i] == Cls(clauses[i], false)
  {
    seq(|clauses|, i requires 0 <= i < |clauses| => Cls(clauses[i], false))
  }

  method LoadClause(data: CoprocessorData, clauses: seq<Clause>, i: nat)
    requires i < |clauses| && Loaded(data, clauses, i) && Proper(clauses[i]) && data.ok
    modifies data`ca, data`occs, data`trail, data`ok
    ensures Loaded(data, clauses, i + 1)
    ensures |clauses[i]| > 1 ==> data.ok && data.trail == old(data.trail) && data.ca == old(data.ca) + [Cls(clauses[i], false)]
  {
    hide OccsOk, ClausesOk, TrailOk, Propagated, FormulaOf, Equiv, Prefix, Proper;
    var c := clauses[i];
    ghost var f, ca, trail := data.F(), data.ca, data.trail;
    if |c| == 0 {
      data.ok := false;
      EmptyLoads(ca, trail, c);
    } else if |c| == 1 {
      var status := data.Enqueue(c[0]);
      UnitLoadsAlways(ca, trail, c);
    } else {
      var cr := data.AddClause(c);
      LongLoads(ca, trail, c);
    }
    LoadedStep(clauses, i, f, data.F());
  }

  // The clause joins the formula.
  ghost predicate Joined(g: set<Clause>, f: set<Clause>, c: Clause) {
    forall m: Model {:trigger SatAll(m, g)} :: SatAll(m, g) <==> SatAll(m, f) && SatClause(m, c)
  }

  lemma EmptyLoads(ca: seq<Cls>, trail: seq<Lit>, c: Clause)
    requires |c| == 0
    ensures Joined(FormulaOf(ca, trail, false), FormulaOf(ca, trail, true), c)
  {
    forall m: Model ensures SatAll(m, FormulaOf(ca, trail, false)) <==> SatAll(m, FormulaOf(ca, trail, true)) && SatClause(m, c) {
      assert c == [];
      EmptyFails(ca, trail, true, m);
    }
  }

  lemma UnitLoadsAlways(ca: seq<Cls>, trail: seq<Lit>, c: Clause)
    requires |c| == 1
    ensures Joined(FormulaOf(ca, trail + [c[0]], true), FormulaOf(ca, trail, true), c)
    ensures c[0] in trail ==> Joined(FormulaOf(ca, trail, true), FormulaOf(ca, trail, true), c)
    ensures Neg(c[0]) in trail ==> Joined(FormulaOf(ca, trail, false), FormulaOf(ca, trail, true), c)
  {
    hide FormulaOf;
    var f := FormulaOf(ca, trail, true);
    assert c == [c[0]];
    forall m: Model
      ensures SatAll(m, FormulaOf(ca, trail + [c[0]], true)) <==> SatAll(m, f) && SatClause(m, c)
      ensures c[0] in trail ==> (SatAll(m, f) <==> SatAll(m, f) && SatClause(m, c))
      ensures Neg(c[0]) in trail ==> (SatAll(m, FormulaOf(ca, trail, false)) <==> SatAll(m, f) && SatClause(m, c))
    {
      UnitLoads(ca, trail, c[0], m);
    }
  }

  lemma LongLoads(ca: seq<Cls>, trail: seq<Lit>, c: Clause)
    ensures Joined(FormulaOf(ca + [Cls(c, false)], trail, true), FormulaOf(ca, trail, true), c)
  {
    hide FormulaOf;
    FormulaAdd(ca, c, trail, true);
    var f := FormulaOf(ca, trail, true);
    forall m: Model ensures SatAll(m, f + {c}) <==> SatAll(m, f) && SatClause(m, c) {
      SatAllUnion(m, f, {c});
      SatAllSingle(m, c);
    }
  }

  predicate AllLong(clauses: seq<Clause>) {
    forall i :: 0 <= i < |clauses| ==> |clauses[i]| > 1
  }

  // Clauses with two or more literals are stored in their order, and nothing else happens.
  ghost predicate JustLoaded(data: CoprocessorData, clauses: seq<Clause>)
    reads data
  {
    data.ok && data.trail == [] && !data.HasToPropagate() && data.ca == Unmarked(clauses)
  }

  // initializePreprocessor: unit clauses go to the trail, the empty clause and a
  // conflict end the loading.
  method InitializePreprocessor(clauses: seq<Clause>, frozen: set<nat>) returns (data: CoprocessorData)
    requires forall i :: 0 <= i < |clauses| ==> Proper(clauses[i])
    ensures fresh(data) && data.Valid() && data.Sound() && NoUnits(data.ca)
    ensures data.input == Prefix(clauses, |clauses|) && data.frozen == frozen && !data.frozenMet
    ensures AllLong(clauses) ==> JustLoaded(data, clauses)
  {
    data := new CoprocessorData(Prefix(clauses, |clauses|), frozen);
    var i := 0;
    while i < |clauses| && data.ok
      invariant 0 <= i <= |clauses| && Loaded(data, clauses, i) && fresh(data)
      invariant data.input == Prefix(clauses, |clauses|) && data.frozen == frozen && !data.frozenMet
      invariant AllLong(clauses) ==> data.ok && data.trail == [] && data.ca == Unmarked(clauses[..i])
    {
      assert clauses[..i + 1] == clauses[..i] + [clauses[i]];
      LoadClause(data, clauses, i);
      i := i + 1;
    }
    assert clauses[..|clauses|] == clauses;
    LoadedSound(data, clauses, i);
  }

  lemma LoadedSound(data: CoprocessorData, clauses: seq<Clause>, n: nat)
    requires n <= |clauses| && Loaded(data, clauses, n) && (n == |clauses| || !data.ok)
    requires data.input == Prefix(clauses, |clauses|)
    ensures data.Sound()
  {
    forall m: Model ensures SatAll(m, data.input) <==> SatAll(m, data.F()) {
      if n < |clauses| {
        EmptyFails(data.ca, data.trail, true, m);
        assert !SatAll(m, data.F());
        assert !SatAll(m, Prefix(clauses, n));
        var c :| c in Prefix(clauses, n) && !SatClause(m, c);
        assert c in data.input;
      }
    }
    EquivalentStep(data.input, data.F());
  }

  // ---------- running techniques ----------

  // The options stay the same over the whole run.
  datatype Options = Options(bve: Variables.Config, bce: Blocked.Config, cceLevel: nat, ccePercent: nat)

  // What to run, and in which order its heaps and queues yield their elements.
  datatype Technique =
    | UnitPropagation
    | VariableElimination(choices: seq<Run.Choice>)
    | BlockedClauseElimination(steps: Resolvents.Option<nat>)
    | CoveredLiteralAddition(order: seq<Lit>)
    | CoveredClauseElimination(candidates: seq<CRef>)

  // What a technique has done.
  datatype Ran =
    | Nothing
    | Eliminated(rounds: seq<Run.Round>)
    | Tried(steps: seq<Blocked.LitStep>)
    | Added(runs: seq<seq<Blocked.State>>)
    | Decided(limit: nat, states: seq<Blocked.State>)

  // One technique: the states before and after propagation and at the end, and the total
  // of the clauses that variable elimination has added.
  datatype Done = Done(was: Blocked.State, mid: Blocked.State, ran: Ran, now: Blocked.State, total: int, totalAfter: int)

  // Each technique runs from the propagated state, on everything it is asked to work on.
  ghost predicate HasRun(options: Options, frozen: set<nat>, t: Technique, d: Done) {
    match t
    case UnitPropagation => d.now == d.mid
    case VariableElimination(choices) =>
      var start := Variables.Snapshot(d.mid.ca, d.mid.trail);
      && d.ran.Eliminated?
      && Run.Run(options.bve, frozen, FormulaOf(d.mid.ca, d.mid.trail, true), choices, d.ran.rounds, start, d.mid.occs, d.total)
      && Variables.Snapshot(d.now.ca, d.now.trail) == Run.StateAt(start, d.ran.rounds, |d.ran.rounds|)
    case BlockedClauseElimination(limit) =>
      && d.ran.Tried? && Blocked.Trace(options.bce, frozen, d.mid, d.ran.steps, d.now)
      && (limit.None? ==>
            && (forall l :: Blocked.InLive(d.mid.ca, l) && l.v !in frozen ==> Blocked.TriedFrom(d.ran.steps, 0, l))
            && (forall i: nat, l: Lit :: Blocked.Freed(d.ran.steps, i, l) ==> Blocked.TriedFrom(d.ran.steps, i + 1, l)))
    case CoveredLiteralAddition(order) => d.ran.Added? && Covered.Runs(frozen, order, d.mid, d.ran.runs, d.now)
    case CoveredClauseElimination(candidates) =>
      if options.cceLevel == 0 then d.now == d.mid
      else
        && d.ran.Decided? && Elimination.IsLimit(d.mid.ca, candidates, options.ccePercent, d.ran.limit)
        && Elimination.CceRun(frozen, options.cceLevel, d.ran.limit, candidates, d.ran.states)
        && d.ran.states[0] == d.mid && d.ran.states[|candidates|] == d.now
  }

  // One technique after the other, from where the last one has ended.
  ghost predicate History(options: Options, frozen: set<nat>, schedule: seq<Technique>, history: seq<Done>, now: Blocked.State, total: int) {
    && |history| <= |schedule|
    && (forall i :: 0 <= i < |history| ==>
          HasRun(options, frozen, schedule[i], history[i]) && Blocked.PropagatedFrom(history[i].was, history[i].mid))
    && (forall i :: 0 <= i < |history| - 1 ==> history[i].now == history[i + 1].was && history[i].totalAfter == history[i + 1].total)
    && (history != [] ==> history[0].total == 0 && history[|history| - 1].now == now && history[|history| - 1].totalAfter == total)
    && (history == [] ==> total == 0)
  }

  lemma HistoryNext(options: Options, frozen: set<nat>, schedule: seq<Technique>, history: seq<Done>, d: Done)
    requires |history| < |schedule| && History(options, frozen, schedule, history, d.was, d.total)
    requires HasRun(options, frozen, schedule[|history|], d) && Blocked.PropagatedFrom(d.was, d.mid)
    ensures History(options, frozen, schedule, history + [d], d.now, d.totalAfter)
  {
    hide HasRun;
  }

  // What holds between two techniques.
  ghost predicate Between(options: Options, data: CoprocessorData, bve: Variables.BoundedVariableElimination)
    reads data, bve
  {
    && data.Valid() && data.Sound() && (data.ok ==> NoUnits(data.ca))
    && bve.totallyAddedClauses <= Variables.GrowthBound(options.bve) && (data.ok ==> bve.Cleared())
  }

  lemma OnlyDeleted(was: seq<Cls>, ca: seq<Cls>)
    requires |ca| == |was| && NoUnits(was)
    requires forall i :: 0 <= i < |ca| ==> ca[i] == was[i] || ca[i] == was[i].(deleted := true)
    ensures NoUnits(ca)
  {
  }

  // Every technique starts from a formula in which everything has been propagated.
  method RunTechnique(options: Options, data: CoprocessorData, bve: Variables.BoundedVariableElimination, t: Technique)
    returns (ghost done: Done)
    requires Between(options, data, bve) && data.ok
    modifies data`ca, data`occs, data`trail, data`ok, data`undo, data`qhead, data`origin, data`frozenMet, bve
    ensures Between(options, data, bve)
    ensures options.cceLevel < 2 ==> data.frozenMet == old(data.frozenMet)
    ensures done.was == old(Blocked.Now(data)) && done.now == Blocked.Now(data)
    ensures !old(data.HasToPropagate()) ==> done.mid == done.was
    ensures done.total == old(bve.totallyAddedClauses) && done.totalAfter == bve.totallyAddedClauses
    ensures data.ok ==> HasRun(options, data.frozen, t, done) && Blocked.PropagatedFrom(done.was, done.mid)
    ensures data.ok ==> (t.VariableElimination? ==> !data.HasToPropagate())
  {
    hide NoUnits, OccsOk, ClausesOk, TrailOk, Propagated, Step, Variables.GrowthBound, PivotsFree, Run.Run, Run.GrowthOk, Run.NoHiddenUnits, Run.Mixed, LiveSet;
    hide Blocked.Trace, Covered.Runs, Elimination.CceRun, Elimination.IsLimit, Elimination.NoneRefuted, Elimination.Complete, Blocked.NothingBlocked;
    ghost var before, total, ran := Blocked.Now(data), bve.totallyAddedClauses, Nothing;
    Blocked.Propagate(data);
    ghost var was, mid := data.ca, Blocked.Now(data);
    if data.ok {
      match t {
        case UnitPropagation =>
        case VariableElimination(choices) =>
          ghost var rounds := Run.BveWorker(options.bve, data, bve, choices);
          ran := Eliminated(rounds);
          if data.ok {
            Run.LastState(options.bve, rounds, Variables.Snapshot(mid.ca, mid.trail), Variables.Snap(data), total, bve.totallyAddedClauses);
          }
        case BlockedClauseElimination(steps) =>
          var finished;
          ghost var tried;
          finished, tried := Blocked.BlockedClauseElimination(options.bce, data, steps);
          ran := Tried(tried);
        case CoveredLiteralAddition(order) =>
          ghost var runs := Covered.CoveredLiteralAddition(data, order);
          ran := Added(runs);
        case CoveredClauseElimination(candidates) =>
          if options.cceLevel > 0 {
            var limit;
            ghost var states;
            limit, states := Elimination.ClauseEliminationRun(data, candidates, options.cceLevel, options.ccePercent);
            ran := Decided(limit, states);
            OnlyDeleted(was, data.ca);
          }
      }
    }
    done := Done(before, mid, ran, Blocked.Now(data), total, bve.totallyAddedClauses);
  }

  predicate OnlyElimination(schedule: seq<Technique>) {
    |schedule| == 1 && schedule[0].VariableElimination?
  }

  // The rounds of variable elimination right after loading.
  ghost predicate EliminationRounds(cfg: Variables.Config, frozen: set<nat>, clauses: seq<Clause>, choices: seq<Run.Choice>,
                                    rounds: seq<Run.Round>, now: Variables.Snapshot) {
    var start := Variables.Snapshot(Unmarked(clauses), []);
    && now == Run.StateAt(start, rounds, |rounds|)
    && exists occs: Occs :: Run.Run(cfg, frozen, FormulaOf(Unmarked(clauses), [], true), choices, rounds, start, occs, 0)
  }

  // Loads a formula and runs any schedule of techniques; history is what happens. If only
  // variables are eliminated, rounds is its only part.
  method Preprocess(options: Options, clauses: seq<Clause>, frozen: set<nat>, schedule: seq<Technique>)
    returns (data: CoprocessorData, ghost rounds: seq<Run.Round>, ghost history: seq<Done>)
    requires forall i :: 0 <= i < |clauses| ==> Proper(clauses[i])
    ensures fresh(data) && data.Valid() && data.input == Prefix(clauses, |clauses|) && data.Sound() && data.frozen == frozen
    ensures data.ok ==> !data.HasToPropagate() && |history| == |schedule|
    ensures data.ok ==> Leads(options, frozen, schedule, history, Blocked.Now(data))
    ensures AllLong(clauses) && history != [] ==> history[0].was.ca == Unmarked(clauses) && history[0].was.trail == []
    ensures options.cceLevel < 2 ==> !data.frozenMet
    ensures OnlyElimination(schedule) && AllLong(clauses) && data.ok ==>
      EliminationRounds(options.bve, frozen, clauses, schedule[0].choices, rounds, Variables.Snap(data))
  {
    hide NoUnits, OccsOk, ClausesOk, TrailOk, Propagated, Step, Variables.GrowthBound, PivotsFree, Run.Run, AllLong, History, HasRun;
    rounds, history := [], [];
    data := InitializePreprocessor(clauses, frozen);
    var bve := new Variables.BoundedVariableElimination();
    var i := 0;
    NoHistory(options, frozen, schedule, Blocked.Now(data));
    while i < |schedule| && data.ok
      invariant 0 <= i <= |schedule| && fresh(data) && fresh(bve) && Between(options, data, bve)
      invariant data.input == Prefix(clauses, |clauses|) && data.frozen == frozen
      invariant options.cceLevel < 2 ==> !data.frozenMet
      invariant AllLong(clauses) && history != [] ==> history[0].was.ca == Unmarked(clauses) && history[0].was.trail == []
      invariant |history| == i && (data.ok ==> History(options, frozen, schedule, history, Blocked.Now(data), bve.totallyAddedClauses))
      invariant i == 0 ==> bve.totallyAddedClauses == 0 && (AllLong(clauses) ==> JustLoaded(data, clauses))
      invariant i == 1 && OnlyElimination(schedule) && AllLong(clauses) && data.ok ==> !data.HasToPropagate()
      invariant i == 1 && OnlyElimination(schedule) && AllLong(clauses) && data.ok ==>
        EliminationRounds(options.bve, frozen, clauses, schedule[0].choices, rounds, Variables.Snap(data))
    {
      ghost var done := RunTechnique(options, data, bve, schedule[i]);
      rounds := if done.ran.Eliminated? then done.ran.rounds else [];
      if data.ok {
        HistoryNext(options, frozen, schedule, history, done);
        if schedule[i].VariableElimination? { RoundsOf(options, frozen, schedule[i], done); }
      }
      history := history + [done];
      i := i + 1;
    }
    ghost var end := Blocked.Now(data);
    if data.ok { StaysSame(end); }
    if data.HasToPropagate() && data.ok {
      Blocked.Propagate(data);
    }
    assert data.ok ==> Blocked.PropagatedFrom(end, Blocked.Now(data));
  }

  // The history, and propagation of the last units.
  ghost predicate Leads(options: Options, frozen: set<nat>, schedule: seq<Technique>, history: seq<Done>, now: Blocked.State) {
    exists end: Blocked.State, total: int ::
      History(options, frozen, schedule, history, end, total) && Blocked.PropagatedFrom(end, now)
  }

  lemma StaysSame(s: Blocked.State)
    ensures Blocked.PropagatedFrom(s, s)
  {
    assert s.trail <= s.trail;
  }

  lemma NoHistory(options: Options, frozen: set<nat>, schedule: seq<Technique>, s: Blocked.State)
    ensures History(options, frozen, schedule, [], s, 0)
  {
  }

  lemma RoundsOf(options: Options, frozen: set<nat>, t: Technique, d: Done)
    requires HasRun(options, frozen, t, d) && t.VariableElimination?
    ensures d.ran.Eliminated?
    ensures var start := Variables.Snapshot(d.mid.ca, d.mid.trail);
      && Run.Run(options.bve, frozen, FormulaOf(d.mid.ca, d.mid.trail, true), t.choices, d.ran.rounds, start, d.mid.occs, d.total)
      && Variables.Snapshot(d.now.ca, d.now.trail) == Run.StateAt(start, d.ran.rounds, |d.ran.rounds|)
  {
    hide Run.Run;
  }

  // The formula that is left has a model exactly if the loaded one has.
  lemma SatisfiabilityKept(data: CoprocessorData)
    requires data.Valid() && data.Sound()
    ensures Satisfiable(data.F()) <==> Satisfiable(data.input)
    ensures !data.ok ==> !Satisfiable(data.input)
  {
    if Satisfiable(data.F()) {
      var m: Model :| SatAll(m, data.F());
      assert SatAll(Extend(Segs(data.undo), m), data.input);
    }
    if !data.ok {
      forall m: Model ensures !SatAll(m, data.F()) {
        SatFormula(m, data.ca, data.trail, data.ok);
      }
    }
  }

  // ---------- the model of the loaded formula ----------

  predicate VariablesBelow(F: set<Clause>, n: nat) {
    forall c, l :: c in F && l in c ==> l.v < n
  }

  lemma TruncatedModel(m: Model, n: nat, F: set<Clause>)
    requires SatAll(m, F) && VariablesBelow(F, n) && n <= |m|
    ensures SatAll(m[..n], F)
  {
    forall c | c in F ensures SatClause(m[..n], c) {
      var l :| l in c && Holds(m, l);
      assert Holds(m[..n], l);
    }
  }

  // A frozen variable of the loaded formula keeps the value that the model gives it.
  ghost predicate FrozenKept(frozen: set<nat>, n: nat, model: seq<LBool>, out: seq<LBool>) {
    forall l: Lit {:trigger Holds(AsModel(out), l)} :: l.v in frozen && l.v < n ==> (Holds(AsModel(out), l) <==> Holds(AsModel(model), l))
  }

  lemma ExtendedFrozen(frozen: set<nat>, segs: seq<Clause>, n: nat, model: seq<LBool>, grown: seq<LBool>, out: seq<LBool>)
    requires PivotsFree(frozen, segs)
    requires SameModel(AsModel(grown), AsModel(model)) && SameModel(AsModel(out), Extend(segs, AsModel(grown)))
    ensures FrozenKept(frozen, n, model, out)
  {
    forall l: Lit | l.v in frozen ensures Holds(AsModel(out), l) <==> Holds(AsModel(model), l) {
      FrozenKeep(frozen, segs, AsModel(grown), l);
    }
  }

  lemma CutFrozen(frozen: set<nat>, n: nat, model: seq<LBool>, out: seq<LBool>)
    requires n <= |out|
    ensures FrozenKept(frozen, n, model, out) ==> FrozenKept(frozen, n, model, out[..n])
  {
    var cut := out[..n];
    assert AsModel(cut) == AsModel(out)[..n];
    forall l: Lit | l.v < n ensures Holds(AsModel(cut), l) <==> Holds(AsModel(out), l) {
    }
  }

  // Preprocessor::extendModel without the techniques that rename variables: the model
  // grows to the number of variables of the loaded formula, is repaired and cut to that
  // number again. Unless covered clause elimination has met a frozen variable, frozen
  // variables keep their values.
  method ExtendToInput(data: CoprocessorData, model: seq<LBool>, formulaVariables: nat) returns (out: seq<LBool>)
    requires data.Valid() && data.Sound()
    requires SatAll(AsModel(model), data.F()) && VariablesBelow(data.input, formulaVariables)
    ensures Undef !in out && SatAll(AsModel(out), data.input)
    ensures |out| == formulaVariables
    ensures !data.frozenMet ==> FrozenKept(data.frozen, formulaVariables, model, out)
  {
    var grown := model;
    if formulaVariables > |model| {
      grown := model + seq(formulaVariables - |model|, _ => Undef);
    }
    SameModelSatAll(AsModel(grown), AsModel(model), data.F());
    out := ExtendModel(data.undo, grown);
    SameModelSatAll(AsModel(out), Extend(Segs(data.undo), AsModel(grown)), data.input);
    if !data.frozenMet { ExtendedFrozen(data.frozen, Segs(data.undo), formulaVariables, model, grown, out); }
    if formulaVariables < |out| {
      TruncatedModel(AsModel(out), formulaVariables, data.input);
      assert AsModel(out[..formulaVariables]) == AsModel(out)[..formulaVariables];
      CutFrozen(data.frozen, formulaVariables, model, out);
      out := out[..formulaVariables];
    }
  }

  // ---------- the undo file ----------

  // The units of the trail change nothing about a model of what is left.
  lemma {:induction false} UnitsChangeNothing(trail: seq<Lit>, m: Model)
    requires forall u :: u in trail ==> Holds(m, u)
    ensures Extend(UndoFile.Units(trail), m) == m
  {
    if trail != [] {
      var n := |trail| - 1;
      assert UndoFile.Units(trail)[..n] == UndoFile.Units(trail[..n]);
      assert trail[n] in [trail[n]];
      UnitsChangeNothing(trail[..n], m);
    }
  }

  // A model of what is left is repaired by the stack that is read back from the file.
  lemma FileRepairs(data: CoprocessorData, vars: int, m: Model)
    requires data.Valid() && data.Sound() && SatAll(m, data.F())
    ensures var r := UndoFile.ReadAll(UndoFile.Start([], 0), UndoFile.FileOf(data.undo, data.trail, vars));
      UndoFile.Accepted(r) && WellFormed(r.undo) && NoEmptySegment(r.undo) && SatAll(Extend(Segs(r.undo), m), data.input)
  {
    hide UndoFile.ReadAll, UndoFile.FileOf, OccsOk, ClausesOk, TrailOk, Propagated;
    UndoFile.RoundTrip(data.undo, data.trail, vars, [], 0);
    UndoFile.RoundTripExtends(data.undo, data.trail, vars, m);
    SatFormula(m, data.ca, data.trail, data.ok);
    UnitsChangeNothing(data.trail, m);
  }

  // The undo information is written, read back by another process, and used there.
  method ExtendFromFile(data: CoprocessorData, model: seq<LBool>, formulaVariables: nat) returns (ok: bool, out: seq<LBool>)
    requires data.Valid() && data.Sound() && SatAll(AsModel(model), data.F())
    ensures ok && Undef !in out && SatAll(AsModel(out), data.input)
  {
    hide UndoFile.ReadAll, UndoFile.FileOf, OccsOk, ClausesOk, TrailOk, Propagated, Step, FormulaOf;
    var lines := UndoFile.WriteUndoInfo(data.undo, data.trail, formulaVariables, -1);
    var undo, vars;
    ok, undo, vars := UndoFile.ParseUndoInfo(lines, [], 0);
    FileRepairs(data, formulaVariables, AsModel(model));
    out := ExtendModel(undo, model);
    SameModelSatAll(AsModel(out), Extend(Segs(undo), AsModel(model)), data.input);
  }

  // ---------- shuffling first ----------

  predicate CodesUp(c: Clause) {
    forall i, k :: 0 <= i < k < |c| ==> Code(c[i]) <= Code(c[k])
  }

  // sortClauses: insertion sort of one clause.
  method SortLits(c: Clause) returns (r: Clause)
    ensures multiset(r) == multiset(c) && CodesUp(r)
  {
    hide CodesUp;
    r := c;
    var j := 1;
    OneLiteral(c);
    while j < |c|
      invariant |r| == |c| && multiset(r) == multiset(c) && 1 <= j && (|c| > 0 ==> j <= |c|)
      invariant if j <= |c| then CodesUp(r[..j]) else CodesUp(r)
    {
      r := Insert(r, j);
      j := j + 1;
    }
    assert r[..|r|] == r;
  }

  lemma OneLiteral(c: Clause)
    ensures if 1 <= |c| then CodesUp(c[..1]) else CodesUp(c)
  {
  }

  method Insert(start: Clause, j: nat) returns (r: Clause)
    requires 0 < j < |start| && CodesUp(start[..j])
    ensures |r| == |start| && multiset(r) == multiset(start) && CodesUp(r[..j + 1])
  {
    hide CodesUp, Code;
    r := start;
    var key, i := r[j], j - 1;
    StartShifting(start, j);
    while i >= 0 && Code(r[i]) > Code(key)
      invariant -1 <= i < j && Shifted(start, r, i, j)
    {
      r := ShiftOne(start, r, i, j);
      i := i - 1;
    }
    SortedBelow(start, r, i, j);
    r := r[i + 1 := key];
  }

  // The literals above the gap at i + 1 have moved up by one.
  ghost predicate Shifted(start: Clause, r: Clause, i: int, j: nat)
    requires -1 <= i < j < |start|
  {
    && |r| == |start|
    && (forall k :: 0 <= k <= i ==> r[k] == start[k])
    && (forall k :: i + 1 < k <= j ==> r[k] == start[k - 1] && Code(r[k]) > Code(start[j]))
    && multiset(r[i + 1 := start[j]]) == multiset(start)
  }

  lemma StartShifting(start: Clause, j: nat)
    requires 0 < j < |start|
    ensures Shifted(start, start, j - 1, j)
  {
    assert start[j := start[j]] == start;
  }

  method ShiftOne(start: Clause, r: Clause, i: nat, j: nat) returns (r': Clause)
    requires i < j < |start| && Shifted(start, r, i, j) && Code(r[i]) > Code(start[j])
    ensures r' == r[i + 1 := r[i]] && Shifted(start, r', i - 1, j)
  {
    MoveUp(r, i, start[j]);
    r' := r[i + 1 := r[i]];
  }

  lemma MoveUp(r: Clause, i: nat, key: Lit)
    requires i + 1 < |r|
    ensures multiset(r[i + 1 := r[i]][i := key]) == multiset(r[i + 1 := key])
  {
    var s := r[i + 1 := key];
    assert r[i + 1 := r[i]][i := key] == Swapped(s, i, i + 1);
    SwapMultiset(s, i, i + 1);
  }

  lemma SortedBelow(start: Clause, r: Clause, i: int, j: nat)
    requires -1 <= i < j < |start| && CodesUp(start[..j]) && Shifted(start, r, i, j)
    requires i >= 0 ==> Code(r[i]) <= Code(start[j])
    ensures CodesUp(r[i + 1 := start[j]][..j + 1])
    ensures |r| == |start| && multiset(r[i + 1 := start[j]]) == multiset(start)
  {
    hide Code;
    var t := r[i + 1 := start[j]][..j + 1];
    assert forall k :: 0 <= k < j ==> start[..j][k] == start[k];
    forall a, b | 0 <= a < b < |t| ensures Code(t[a]) <= Code(t[b]) {
      var a', b' := if a <= i then a else a - 1, if b <= i then b else b - 1;
      assert a != i + 1 ==> t[a] == start[a'];
      assert b != i + 1 ==> t[b] == start[b'];
      if a == i + 1 {
      } else if b == i + 1 {
        assert a < i ==> Code(start[..j][a]) <= Code(start[..j][i]);
      } else {
        assert Code(start[..j][a']) <= Code(start[..j][b']);
      }
    }
  }

  lemma InClause(c: Clause, i: nat, k: nat)
    requires i < |c| && k < |c|
    ensures c[i] in c && c[k] in c
  {
  }

  lemma NegRenamed(rep: seq<Lit>, n: nat, a: Lit, b: Lit)
    requires Shuffler.SignedPermutation(rep, n) && a.v < n && b.v < n
    ensures Shuffler.Renamed(rep, b) == Neg(Shuffler.Renamed(rep, a)) ==> b == Neg(a)
    ensures Shuffler.Renamed(rep, b) == Shuffler.Renamed(rep, a) ==> b == a
  {
    assert Neg(Neg(rep[a.v])) == rep[a.v];
    if rep[a.v].v == rep[b.v].v { assert a.v == b.v; }
  }

  // A renamed clause is proper again once it is sorted.
  lemma RenamedProper(rep: seq<Lit>, n: nat, c: Clause, d: Clause, r: Clause)
    requires Shuffler.SignedPermutation(rep, n) && Proper(c) && Shuffler.IsShuffled(rep, c, d)
    requires multiset(r) == multiset(d) && CodesUp(r)
    ensures Proper(r) && Shuffler.IsShuffled(rep, c, r) && forall l :: l in r ==> l.v < n
  {
    var e := Shuffler.RenamedAll(rep, c);
    forall i, k | 0 <= i < k < |e| ensures e[i] != e[k] {
      assert c[i] in c && c[k] in c && c[i] != c[k];
      NegRenamed(rep, n, c[i], c[k]);
    }
    Shuffler.PermutedNoDup(e, r);
    forall i, k | 0 <= i < k < |r| ensures Code(r[i]) < Code(r[k]) {
      if Code(r[i]) == Code(r[k]) { CodeInjective(r[i], r[k]); }
    }
    forall l | l in r ensures Neg(l) !in r && l.v < n {
      Shuffler.ShuffledLits(rep, c, r, l);
      Shuffler.ShuffledLits(rep, c, r, Neg(l));
      var i :| 0 <= i < |c| && Shuffler.Renamed(rep, c[i]) == l;
      assert c[i] in c;
      if k :| 0 <= k < |c| && Shuffler.Renamed(rep, c[k]) == Neg(l) {
        InClause(c, i, k);
        NegRenamed(rep, n, c[i], c[k]);
        assert false;
      }
    }
  }

  // The models of a formula are those of its clauses under their new names.
  ghost predicate RenamedInput(rep: seq<Lit>, clauses: seq<Clause>, input: set<Clause>) {
    forall s: Model, m: Model {:trigger Shuffler.Unshuffled(rep, s, m)} :: Shuffler.Unshuffled(rep, s, m) ==>
      (SatAll(m, Prefix(clauses, |clauses|)) <==> SatAll(s, input))
  }

  lemma PermutedSat(m: Model, c: Clause, d: Clause)
    requires multiset(c) == multiset(d)
    ensures SatClause(m, c) <==> SatClause(m, d)
  {
    assert forall l :: l in c <==> l in multiset(c);
    assert forall l :: l in d <==> l in multiset(d);
  }

  // sortClauses: the clauses of the list, each of them sorted.
  method SortClauses(ca: seq<Cls>, list: seq<CRef>) returns (r: seq<Clause>)
    requires forall k :: 0 <= k < |list| ==> list[k] < |ca|
    ensures |r| == |list|
    ensures forall k :: 0 <= k < |r| ==> CodesUp(r[k]) && multiset(r[k]) == multiset(ca[list[k]].lits)
  {
    r := [];
    for k := 0 to |list|
      invariant |r| == k
      invariant forall i :: 0 <= i < k ==> CodesUp(r[i]) && multiset(r[i]) == multiset(ca[list[i]].lits)
    {
      var c := SortLits(ca[list[k]].lits);
      r := r + [c];
    }
  }

  function AllRefs(n: nat): (r: seq<CRef>)
    ensures |r| == n && NoDup(r) && forall i: CRef :: i in r <==> i < n
  {
    if n == 0 then []
    else
      var front := AllRefs(n - 1);
      assert forall k :: 0 <= k < |front| ==> front[k] in front;
      front + [n - 1]
  }

  lemma PermutedRefs(list: seq<CRef>, n: nat)
    requires multiset(list) == multiset(AllRefs(n))
    ensures forall i: CRef :: i in list <==> i < n
    ensures forall k :: 0 <= k < |list| ==> list[k] < n
  {
    assert forall i: CRef :: i in list <==> i in multiset(list);
    assert forall i: CRef :: i in AllRefs(n) <==> i in multiset(AllRefs(n));
    forall k | 0 <= k < |list| ensures list[k] < n {
      assert list[k] in list;
    }
  }

  // What the shuffler and the sorting leave of the clauses.
  ghost predicate ShuffledAndSorted(rep: seq<Lit>, clauses: seq<Clause>, ca: seq<Cls>, list: seq<CRef>, sorted: seq<Clause>) {
    && Shuffler.ListShuffled(rep, AllRefs(|clauses|), Unmarked(clauses), ca) && |ca| == |clauses|
    && multiset(list) == multiset(AllRefs(|clauses|)) && |sorted| == |list|
    && forall k :: 0 <= k < |list| ==> list[k] < |ca| && CodesUp(sorted[k]) && multiset(sorted[k]) == multiset(ca[list[k]].lits)
  }

  lemma SortedModels(rep: seq<Lit>, clauses: seq<Clause>, ca: seq<Cls>, list: seq<CRef>, sorted: seq<Clause>, s: Model, m: Model)
    requires ShuffledAndSorted(rep, clauses, ca, list, sorted) && Shuffler.Unshuffled(rep, s, m)
    ensures SatAll(m, Prefix(clauses, |clauses|)) <==> SatAll(s, Prefix(sorted, |sorted|))
  {
    hide Shuffler.IsShuffled, Shuffler.Unshuffled, CodesUp;
    PermutedRefs(list, |clauses|);
    forall k | 0 <= k < |list| ensures SatClause(m, clauses[list[k]]) <==> SatClause(s, sorted[k]) {
      assert list[k] in AllRefs(|clauses|) && Unmarked(clauses)[list[k]].lits == clauses[list[k]];
      Shuffler.ShuffledSat(rep, clauses[list[k]], ca[list[k]].lits, s, m);
      PermutedSat(s, sorted[k], ca[list[k]].lits);
    }
    if SatAll(m, Prefix(clauses, |clauses|)) {
      forall d | d in Prefix(sorted, |sorted|) ensures SatClause(s, d) {
        var k :| 0 <= k < |sorted| && sorted[k] == d;
        assert clauses[list[k]] in Prefix(clauses, |clauses|);
      }
    }
    if SatAll(s, Prefix(sorted, |sorted|)) {
      forall c | c in Prefix(clauses, |clauses|) ensures SatClause(m, c) {
        var i :| 0 <= i < |clauses| && clauses[i] == c;
        assert i in list;
        var k :| 0 <= k < |list| && list[k] == i;
        assert sorted[k] in Prefix(sorted, |sorted|);
      }
    }
  }

  lemma SortedProper(rep: seq<Lit>, n: nat, clauses: seq<Clause>, ca: seq<Cls>, list: seq<CRef>, sorted: seq<Clause>)
    requires ShuffledAndSorted(rep, clauses, ca, list, sorted) && Shuffler.SignedPermutation(rep, n)
    requires forall i :: 0 <= i < |clauses| ==> Proper(clauses[i])
    ensures forall k :: 0 <= k < |sorted| ==> Proper(sorted[k])
    ensures VariablesBelow(Prefix(sorted, |sorted|), n)
  {
    hide Shuffler.IsShuffled, Shuffler.SignedPermutation, CodesUp, Proper;
    forall k | 0 <= k < |sorted| ensures Proper(sorted[k]) && forall l :: l in sorted[k] ==> l.v < n {
      var i := list[k];
      assert i in AllRefs(|clauses|) && Unmarked(clauses)[i].lits == clauses[i];
      RenamedProper(rep, n, clauses[i], ca[i].lits, sorted[k]);
    }
  }

  lemma RefsInRange(clauses: seq<Clause>, n: nat)
    requires VariablesBelow(Prefix(clauses, |clauses|), n)
    ensures Shuffler.ListInRange(AllRefs(|clauses|) + [], Unmarked(clauses), n) && AllRefs(|clauses|) + [] == AllRefs(|clauses|)
  {
    forall i | 0 <= i < |clauses| ensures Shuffler.InRange(clauses[i], n) {
      assert clauses[i] in Prefix(clauses, |clauses|);
    }
    var all := AllRefs(|clauses|);
    assert all + [] == all;
    forall k | 0 <= k < |all| ensures all[k] < |clauses| {
      assert all[k] in all;
    }
  }

  // Every clause is the sorted form of a renamed one.
  ghost predicate SortedForms(rep: seq<Lit>, clauses: seq<Clause>, sorted: seq<Clause>) {
    |sorted| == |clauses| && forall k :: 0 <= k < |sorted| ==> Proper(sorted[k]) && IsForm(rep, clauses, sorted[k])
  }

  ghost predicate IsForm(rep: seq<Lit>, clauses: seq<Clause>, d: Clause) {
    exists i :: 0 <= i < |clauses| && Shuffler.IsShuffled(rep, clauses[i], d)
  }

  lemma FormsSorted(rep: seq<Lit>, clauses: seq<Clause>, ca: seq<Cls>, list: seq<CRef>, sorted: seq<Clause>)
    requires ShuffledAndSorted(rep, clauses, ca, list, sorted) && forall k :: 0 <= k < |sorted| ==> Proper(sorted[k])
    ensures SortedForms(rep, clauses, sorted)
  {
    hide CodesUp, Proper;
    PermutedRefs(list, |clauses|);
    assert |list| == |multiset(list)| && |AllRefs(|clauses|)| == |multiset(AllRefs(|clauses|))|;
    forall k | 0 <= k < |sorted| ensures IsForm(rep, clauses, sorted[k]) {
      var i := list[k];
      assert i in AllRefs(|clauses|) && Unmarked(clauses)[i].lits == clauses[i];
      assert Shuffler.IsShuffled(rep, clauses[i], sorted[k]);
    }
  }

  // Shuffles the formula and then runs the schedule. The flags of frozen variables are
  // not renamed.
  method PreprocessShuffled(options: Options, clauses: seq<Clause>, frozen: set<nat>, schedule: seq<Technique>,
      shuffler: Shuffler.VarShuffler, vars: nat, shuffleOrder: bool)
    returns (data: CoprocessorData, ghost sorted: seq<Clause>, ghost rounds: seq<Run.Round>)
    requires (forall i :: 0 <= i < |clauses| ==> Proper(clauses[i])) && VariablesBelow(Prefix(clauses, |clauses|), vars)
    requires shuffler.Valid() && !shuffler.shuffledAlready
    modifies shuffler
    ensures fresh(data) && data.Valid() && data.Sound() && data.frozen == frozen && (options.cceLevel < 2 ==> !data.frozenMet)
    ensures shuffler.Valid() && shuffler.shuffledAlready && shuffler.variables == vars
    ensures shuffler.replacedBy == Shuffler.Renaming(shuffler.rand, vars)
    ensures SortedForms(shuffler.replacedBy, clauses, sorted) && data.input == Prefix(sorted, |sorted|)
    ensures OnlyElimination(schedule) && AllLong(sorted) && data.ok ==>
      EliminationRounds(options.bve, frozen, sorted, schedule[0].choices, rounds, Variables.Snap(data))
    ensures RenamedInput(shuffler.replacedBy, clauses, data.input) && VariablesBelow(data.input, vars)
  {
    hide Shuffler.SignedPermutation, Shuffler.ListShuffled, Shuffler.IsShuffled, VariablesBelow, CodesUp, RenamedInput;
    hide SortedForms, EliminationRounds, AllLong, Shuffler.Renaming;
    RefsInRange(clauses, vars);
    var order, learnts, trail, ca := shuffler.Process(AllRefs(|clauses|), [], [], vars, Unmarked(clauses), shuffleOrder);
    PermutedRefs(order, |clauses|);
    SameLength(shuffler.replacedBy, AllRefs(|clauses|), Unmarked(clauses), ca);
    var list := SortClauses(ca, order);
    sorted := list;
    SortedProper(shuffler.replacedBy, vars, clauses, ca, order, sorted);
    AllModels(shuffler.replacedBy, clauses, ca, order, sorted);
    FormsSorted(shuffler.replacedBy, clauses, ca, order, sorted);
    ghost var history;
    data, rounds, history := Preprocess(options, list, frozen, schedule);
  }

  lemma SameLength(rep: seq<Lit>, list: seq<CRef>, was: seq<Cls>, ca: seq<Cls>)
    requires Shuffler.ListShuffled(rep, list, was, ca)
    ensures |ca| == |was|
  {
  }

  lemma AllModels(rep: seq<Lit>, clauses: seq<Clause>, ca: seq<Cls>, list: seq<CRef>, sorted: seq<Clause>)
    requires ShuffledAndSorted(rep, clauses, ca, list, sorted)
    ensures RenamedInput(rep, clauses, Prefix(sorted, |sorted|))
  {
    hide ShuffledAndSorted, Shuffler.Unshuffled;
    forall s: Model, m: Model | Shuffler.Unshuffled(rep, s, m)
      ensures SatAll(m, Prefix(clauses, |clauses|)) <==> SatAll(s, Prefix(sorted, |sorted|))
    {
      SortedModels(rep, clauses, ca, list, sorted, s, m);
    }
  }

  // extendModel with shuffling: a model of what is left becomes a model of the formula as
  // it was before it was shuffled.
  method ExtendToUnshuffled(data: CoprocessorData, shuffler: Shuffler.VarShuffler, ghost clauses: seq<Clause>,
      model: seq<LBool>, vars: nat)
    returns (out: seq<LBool>)
    requires data.Valid() && data.Sound() && SatAll(AsModel(model), data.F())
    requires shuffler.Valid() && shuffler.shuffledAlready && shuffler.variables == vars
    requires RenamedInput(shuffler.replacedBy, clauses, data.input) && VariablesBelow(data.input, vars)
    modifies shuffler`variables, shuffler`replacedBy, shuffler`drawn
    ensures |out| == vars && SatAll(AsModel(out), Prefix(clauses, |clauses|))
    ensures shuffler.Valid() && shuffler.replacedBy == old(shuffler.replacedBy)
    ensures !data.frozenMet ==> NewNamesKept(shuffler.replacedBy, data.frozen, model, out)
  {
    hide Shuffler.SignedPermutation, VariablesBelow, Shuffler.Unshuffled, Step, FormulaOf, OccsOk, ClausesOk, TrailOk, Propagated;
    hide FrozenKept, NewNamesKept;
    var extended := ExtendToInput(data, model, vars);
    out := shuffler.Unshuffle(extended, |extended|);
    if !data.frozenMet { UnshuffledFrozen(shuffler.replacedBy, data.frozen, vars, model, extended, out); }
  }

  // A variable whose new name is frozen has the value that the model gives to its new name.
  ghost predicate NewNamesKept(rep: seq<Lit>, frozen: set<nat>, model: seq<LBool>, out: seq<LBool>) {
    forall l: Lit {:trigger Holds(AsModel(out), l)} :: l.v < |rep| && Shuffler.Renamed(rep, l).v in frozen ==>
      (Holds(AsModel(out), l) <==> Holds(AsModel(model), Shuffler.Renamed(rep, l)))
  }

  lemma UnshuffledFrozen(rep: seq<Lit>, frozen: set<nat>, n: nat, model: seq<LBool>, extended: seq<LBool>, out: seq<LBool>)
    requires Shuffler.SignedPermutation(rep, n) && FrozenKept(frozen, n, model, extended)
    requires Shuffler.Unshuffled(rep, AsModel(extended), AsModel(out))
    ensures NewNamesKept(rep, frozen, model, out)
  {
    forall l: Lit | l.v < |rep| && Shuffler.Renamed(rep, l).v in frozen
      ensures Holds(AsModel(out), l) <==> Holds(AsModel(model), Shuffler.Renamed(rep, l))
    {
      assert Shuffler.Renamed(rep, l).v == rep[l.v].v;
      assert Holds(AsModel(extended), Shuffler.Renamed(rep, l)) <==> Holds(AsModel(model), Shuffler.Renamed(rep, l));
    }
  }

  // Renaming keeps the answer to the satisfiability question over the whole path.
  lemma ShuffledSatisfiabilityKept(data: CoprocessorData, rep: seq<Lit>, n: nat, clauses: seq<Clause>)
    requires data.Valid() && data.Sound() && Shuffler.SignedPermutation(rep, n) && RenamedInput(rep, clauses, data.input)
    ensures Satisfiable(data.F()) <==> Satisfiable(Prefix(clauses, |clauses|))
  {
    hide Shuffler.SignedPermutation, Shuffler.Unshuffled, Step, FormulaOf, OccsOk, ClausesOk, TrailOk, Propagated;
    SatisfiabilityKept(data);
    if s: Model :| SatAll(s, data.input) {
      var m := Shuffler.UnshuffledForm(rep, n, s);
    }
    if m: Model :| SatAll(m, Prefix(clauses, |clauses|)) {
      var s := Shuffler.HasShuffledForm(rep, n, m);
    }
  }
}
