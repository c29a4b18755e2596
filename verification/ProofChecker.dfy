// The driver of forward proof checking (proofcheck/ProofChecker.cc).

module ProofChecker {
  import opened Sat
  import opened Formula
  import opened ReverseUnitPropagation
  import opened OnlineChecker

  class ProofChecker {
    var ok: bool
    var parsedEmptyClause: bool
    var receiveFormula: bool
    const forwardChecker: OnlineProofChecker

    ghost var emptyAdded: bool     // an empty clause was added while everything was fine
    ghost var emptyDeleted: bool   // a deletion of the empty clause was read

    ghost predicate Valid()
      reads this, forwardChecker
    {
      && forwardChecker.Valid()
      && (ok ==> (forwardChecker.ok <==> !emptyAdded))
      && (ok ==> (parsedEmptyClause <==> emptyAdded || emptyDeleted))
    }

    constructor (checkDrat: bool)
      ensures Valid() && fresh(forwardChecker) && ok && receiveFormula && !emptyDeleted
      ensures forwardChecker.drat == checkDrat && forwardChecker.parsed == {}
    {
      ok, parsedEmptyClause, receiveFormula := true, false, true;
      emptyAdded, emptyDeleted := false, false;
      forwardChecker := new OnlineProofChecker(checkDrat);
    }

    method SetReceiveFormula(nextIsFormula: bool)
      requires Valid()
      modifies `receiveFormula
      ensures Valid() && receiveFormula == nextIsFormula
    {
      receiveFormula := nextIsFormula;
    }

    // A deletion is fine if the clause is stored; after an empty clause everything is.
    ghost predicate Deletable(ps: Clause)
      reads forwardChecker
    {
      || ps == [] || !forwardChecker.ok
      || (if |ps| == 1 then ps[0] in forwardChecker.unitClauses else multiset(ps) in LiveBags(forwardChecker.ca))
    }

    // A proof clause is fine if the online checker accepts it.
    ghost predicate Acceptable(ps: Clause)
      reads forwardChecker
    {
      !forwardChecker.ok
      || Accepted(LiveBags(forwardChecker.ca), Stored(forwardChecker.ca, forwardChecker.unitClauses), forwardChecker.drat, ps)
    }

    method Delete(ps: Clause) returns (removed: bool)
      requires forwardChecker.Valid() && (|ps| > 1 ==> Removable(forwardChecker.ca, ps))
      modifies forwardChecker
      ensures forwardChecker.Valid() && forwardChecker.parsed == old(forwardChecker.parsed) && forwardChecker.ok == old(forwardChecker.ok)
      ensures removed <==> old(Deletable(ps))
    {
      hide OnlineProofChecker.Structures, Follows, HasModel, Removable, LiveBags, IsLive, Stored;
      removed := forwardChecker.RemoveClause(ps);
    }

    method Check(ps: Clause) returns (accepted: bool)
      requires forwardChecker.Valid()
      modifies forwardChecker
      ensures forwardChecker.Valid() && forwardChecker.parsed == old(forwardChecker.parsed)
      ensures forwardChecker.ok == (old(forwardChecker.ok) && !(accepted && ps == []))
      ensures accepted <==> old(Acceptable(ps))
    {
      hide OnlineProofChecker.Structures, Follows, HasModel, LiveBags, Accepted, Stored;
      accepted := forwardChecker.AddClause(ps, false);
    }

    // addClause_: the empty clause is remembered whatever happens to it.
    method AddClause(ps: Clause, isDelete: bool) returns (r: bool)
      requires Valid() && !(isDelete && receiveFormula)
      requires isDelete && |ps| > 1 ==> Removable(forwardChecker.ca, ps)
      modifies `ok, `parsedEmptyClause, `emptyAdded, `emptyDeleted, forwardChecker
      ensures Valid() && r == ok && (ok ==> old(ok))
      ensures receiveFormula || (isDelete && ps == []) ==> ok == old(ok)
      ensures old(ok) && !receiveFormula && isDelete ==> (r <==> old(Deletable(ps)))
      ensures old(ok) && !receiveFormula && !isDelete ==> (r <==> old(Acceptable(ps)))
      ensures parsedEmptyClause == (old(parsedEmptyClause) || ps == [])
      ensures emptyDeleted == (old(emptyDeleted) || (old(ok) && isDelete && ps == []))
      ensures forwardChecker.parsed == old(forwardChecker.parsed) + if old(ok) && receiveFormula then {multiset(ps)} else {}
    {
      hide OnlineProofChecker.Structures, Follows, HasModel, Removable, LiveBags, Acceptable;
      if |ps| == 0 { parsedEmptyClause := true; }
      if !ok { return false; }
      if receiveFormula {
        forwardChecker.AddParsedClause(ps);
        emptyAdded := emptyAdded || ps == [];
      } else if isDelete {
        var removed := Delete(ps);
        ok := ok && removed;
        emptyDeleted := emptyDeleted || ps == [];
      } else {
        var accepted := Check(ps);
        ok := ok && accepted;
        emptyAdded := emptyAdded || (accepted && ps == []);
      }
      r := ok;
    }

    predicate ParsingOk()
      reads this
    {
      ok
    }

    method VerifyProof() returns (r: bool)
      ensures r == parsedEmptyClause
    {
      r := parsedEmptyClause;
    }
  }

  // A proof that was read and derives the empty clause shows that the formula has no
  // model, whether it is verified for this clause or for another. In the DRAT format this
  // needs a clean run.
  lemma VerifiedProof(c: ProofChecker)
    requires c.Valid() && c.ParsingOk() && c.emptyAdded
    requires c.forwardChecker.drat ==> c.forwardChecker.clean
    ensures c.parsedEmptyClause && !HasModel(c.forwardChecker.parsed)
  {
    if c.forwardChecker.drat {
      CleanRunSound(c.forwardChecker);
    } else {
      DrupRunSound(c.forwardChecker);
    }
  }

  // Exactly the deletions are the gap: in a verified DRUP proof without a derived empty
  // clause every empty clause is a deletion, and what is stored follows from the formula,
  // so that a satisfiable formula stays satisfiable.
  lemma VerifiedWithoutEmptyClause(c: ProofChecker)
    requires c.Valid() && c.ParsingOk() && c.parsedEmptyClause && !c.forwardChecker.drat
    ensures c.emptyAdded ==> !HasModel(c.forwardChecker.parsed)
    ensures !c.emptyAdded ==> c.emptyDeleted && Follows(c.forwardChecker.parsed, c.forwardChecker.Formula())
    ensures !c.emptyAdded && HasModel(c.forwardChecker.parsed) ==> HasModel(c.forwardChecker.Formula())
  {
    if c.emptyAdded { VerifiedProof(c); }
  }

  ghost function Bags(formula: seq<Clause>): set<LitBag> {
    set i | 0 <= i < |formula| :: multiset(formula[i])
  }

  lemma BagsNext(formula: seq<Clause>, i: nat)
    requires i < |formula|
    ensures Bags(formula[..i + 1]) == Bags(formula[..i]) + {multiset(formula[i])}
  {
    var more, less := formula[..i + 1], formula[..i];
    forall d | d in Bags(more) ensures d in Bags(less) + {multiset(formula[i])} {
      var k :| 0 <= k < |more| && d == multiset(more[k]);
      if k < i { assert less[k] == more[k]; }
    }
    forall d | d in Bags(less) ensures d in Bags(more) {
      var k :| 0 <= k < |less| && d == multiset(less[k]);
      assert more[k] == less[k];
    }
    assert more[i] == formula[i];
  }

  // For every formula, whether it has a model or not, and in both formats, the proof that
  // only deletes the empty clause is verified.
  method EmptyDeletionVerifies(formula: seq<Clause>, drat: bool) returns (c: ProofChecker, verified: bool)
    ensures verified && c.forwardChecker.parsed == Bags(formula)
  {
    c := new ProofChecker(drat);
    hide *;
    assert Bags(formula[..0]) == {} by { NoBags(formula); }
    var i := 0;
    while i < |formula|
      invariant 0 <= i <= |formula| && fresh(c) && fresh(c.forwardChecker)
      invariant c.Valid() && c.ok && c.receiveFormula && c.forwardChecker.parsed == Bags(formula[..i])
    {
      BagsNext(formula, i);
      var added := c.AddClause(formula[i], false);
      i := i + 1;
    }
    assert formula[..i] == formula;
    c.SetReceiveFormula(false);
    var deleted := c.AddClause([], true);
    var proof := c.VerifyProof();
    verified := c.ok && proof;
  }

  lemma NoBags(formula: seq<Clause>)
    ensures Bags(formula[..0]) == {}
  {
  }
}
