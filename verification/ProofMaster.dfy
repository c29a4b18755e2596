// The proof that all threads of a portfolio write together (proofcheck/ProofMaster.h). A
// clause that several threads hold is written once; a counter says how many copies exist.

module ProofMaster {
  import opened Collections
  import opened Sat
  import opened Formula
  import opened Resolvents
  import opened Steps

  // A line of the proof file.
  datatype Line = Add(c: Clause) | Delete(c: Clause)

  // A clause of the hash table, with its counter (the lbd field of the clause header).
  datatype Stored = Stored(lits: Clause, counter: nat, freed: bool)

  // What the 20 bits of the lbd field can hold (riss/core/SolverTypes.h).
  const LIMIT := 0x10_0000

  function Truncated(n: nat): (r: nat)
    ensures r < LIMIT && (r == n <==> n < LIMIT)
  {
    n % LIMIT
  }

  // The clause that a call is about.
  function Full(c: Clause, e: Option<Lit>): Clause {
    match e
    case None => c
    case Some(l) => PivotFirst(c, l)
  }

  lemma {:induction false} WithoutNoDup(c: Clause, l: Lit)
    requires NoDup(c)
    ensures NoDup(Without(c, l))
  {
    if c != [] {
      assert NoDup(c[1..]) && c[0] !in c[1..];
      WithoutNoDup(c[1..], l);
    }
  }

  lemma {:induction false} WithoutLast(c: Clause, x: Lit, l: Lit)
    ensures Without(c + [x], l) == Without(c, l) + if x == l then [] else [x]
  {
    if c != [] {
      WithoutLast(c[1..], x, l);
      assert (c + [x])[1..] == c[1..] + [x];
    }
  }

  lemma FullFacts(c: Clause, e: Option<Lit>)
    ensures Lits(Full(c, e)) == Lits(c) + if e.None? then {} else {e.value}
    ensures NoDup(c) ==> NoDup(Full(c, e))
  {
    if e.Some? && NoDup(c) { WithoutNoDup(c, e.value); }
  }

  // ---------- the hash function ----------

  // The number of lists in the table.
  type Size = n: nat | n > 0 witness 1

  const WORDS := 0x1_0000_0000_0000_0000

  function Wrapped(n: nat): (r: nat)
    ensures r < WORDS
  {
    n % WORDS
  }

  function Plus(a: nat, b: nat): nat {
    Wrapped(a + b)
  }

  function Times(a: nat, b: nat): nat {
    Wrapped(a * b)
  }

  // Bitwise exclusive or.
  function Xor(a: nat, b: nat): nat {
    if a == 0 && b == 0 then 0 else 2 * Xor(a / 2, b / 2) + (a % 2 + b % 2) % 2
  }

  // The three accumulators of the hash; sum and product wrap around.
  datatype Sums = Sums(sum: nat, prod: nat, bits: nat)

  function Feed(h: Sums, l: Lit): Sums {
    Sums(Plus(h.sum, Code(l)), Times(h.prod, Code(l)), Xor(h.bits, Code(l)))
  }

  function FeedAll(h: Sums, c: Clause): Sums {
    if c == [] then h else Feed(FeedAll(h, c[..|c| - 1]), c[|c| - 1])
  }

  function Mixed(h: Sums, hashMax: Size): (r: nat)
    ensures r < hashMax
  {
    Xor(Plus(1023 * h.sum, h.prod), Times(31, h.bits)) % hashMax
  }

  // The list of the table in which a clause is looked up.
  function Bucket(c: Clause, hashMax: Size): (r: nat)
    ensures r < hashMax
  {
    Mixed(FeedAll(Sums(0, 1, 0), c), hashMax)
  }

  // Dropping multiples of 2^64 early makes no difference.
  lemma WrapMultiple(y: nat, k: nat)
    ensures Wrapped(k * WORDS + y) == Wrapped(y)
  {
    if k > 0 {
      WrapMultiple(y, k - 1);
      assert k * WORDS + y == ((k - 1) * WORDS + y) + WORDS;
      WrapOnce((k - 1) * WORDS + y);
    }
  }

  lemma WrapOnce(y: nat)
    ensures Wrapped(y + WORDS) == Wrapped(y)
  {
  }

  lemma WrapSum(x: nat, y: nat)
    ensures Wrapped(Wrapped(x) + y) == Wrapped(x + y)
  {
    WrapMultiple(Wrapped(x) + y, x / WORDS);
    assert x == (x / WORDS) * WORDS + Wrapped(x);
  }

  lemma WrapProduct(x: nat, y: nat)
    ensures Wrapped(Wrapped(x) * y) == Wrapped(x * y)
  {
    var q, r := x / WORDS, Wrapped(x);
    assert x == q * WORDS + r;
    Distribute(q, r, y);
    WrapMultiple(r * y, q * y);
  }

  lemma Distribute(q: nat, r: nat, y: nat)
    ensures (q * WORDS + r) * y == (q * y) * WORDS + r * y
  {
  }

  lemma Commute(p: nat, x: nat, y: nat)
    ensures (p * x) * y == (p * y) * x
  {
  }

  lemma SumSwap(p: nat, x: nat, y: nat)
    ensures Plus(Plus(p, x), y) == Plus(Plus(p, y), x)
  {
    hide Wrapped;
    WrapSum(p + x, y);
    WrapSum(p + y, x);
    assert (p + x) + y == (p + y) + x;
  }

  lemma ProductSwap(p: nat, x: nat, y: nat)
    ensures Times(Times(p, x), y) == Times(Times(p, y), x)
  {
    hide Wrapped;
    WrapProduct(p * x, y);
    WrapProduct(p * y, x);
    Commute(p, x, y);
  }

  lemma {:induction false} XorSwap(p: nat, x: nat, y: nat)
    ensures Xor(Xor(p, x), y) == Xor(Xor(p, y), x)
  {
    if p > 0 || x > 0 || y > 0 {
      XorSwap(p / 2, x / 2, y / 2);
      Halves(p, x, y);
      Halves(p, y, x);
      SameHalves(Xor(Xor(p, x), y), Xor(Xor(p, y), x));
    }
  }

  lemma XorHalf(a: nat, b: nat)
    ensures Xor(a, b) / 2 == Xor(a / 2, b / 2) && Xor(a, b) % 2 == (a % 2 + b % 2) % 2
  {
  }

  lemma Halves(p: nat, x: nat, y: nat)
    ensures Xor(Xor(p, x), y) / 2 == Xor(Xor(p / 2, x / 2), y / 2)
    ensures Xor(Xor(p, x), y) % 2 == (p % 2 + x % 2 + y % 2) % 2
  {
    hide Xor;
    XorHalf(p, x);
    XorHalf(Xor(p, x), y);
  }

  lemma SameHalves(a: nat, b: nat)
    requires a / 2 == b / 2 && a % 2 == b % 2
    ensures a == b
  {
  }

  lemma FeedSwap(h: Sums, a: Lit, b: Lit)
    ensures Feed(Feed(h, a), b) == Feed(Feed(h, b), a)
  {
    hide Plus, Times, Xor, Code;
    SumSwap(h.sum, Code(a), Code(b));
    ProductSwap(h.prod, Code(a), Code(b));
    XorSwap(h.bits, Code(a), Code(b));
  }

  // A literal may be processed last instead.
  lemma {:induction false} FeedLast(h: Sums, c: Clause, k: nat)
    requires k < |c|
    ensures FeedAll(h, c) == Feed(FeedAll(h, c[..k] + c[k + 1..]), c[k])
  {
    hide Feed;
    var n := |c| - 1;
    if k == n {
      assert c[..k] + c[k + 1..] == c[..n];
    } else {
      FeedLast(h, c[..n], k);
      assert (c[..k] + c[k + 1..])[..n - 1] == c[..n][..k] + c[..n][k + 1..];
      FeedSwap(FeedAll(h, (c[..k] + c[k + 1..])[..n - 1]), c[k], c[n]);
    }
  }

  lemma RemovedOne(c: Clause, k: nat)
    requires k < |c|
    ensures multiset(c[..k] + c[k + 1..]) == multiset(c) - multiset{c[k]}
  {
    assert c == c[..k] + [c[k]] + c[k + 1..];
  }

  lemma {:induction false} FeedPermuted(h: Sums, c: Clause, d: Clause)
    requires multiset(c) == multiset(d)
    ensures FeedAll(h, c) == FeedAll(h, d)
  {
    hide Feed;
    if c == [] {
      assert |d| == |multiset(d)| == 0;
    } else {
      var n := |c| - 1;
      assert c[n] in multiset(d);
      var k :| 0 <= k < |d| && d[k] == c[n];
      FeedLast(h, d, k);
      RemovedOne(c, n);
      RemovedOne(d, k);
      assert c[..n] + c[n + 1..] == c[..n];
      FeedPermuted(h, c[..n], d[..k] + d[k + 1..]);
    }
  }

  lemma {:induction false} NoDupCount(c: Clause, x: Lit)
    requires NoDup(c)
    ensures multiset(c)[x] == if x in c then 1 else 0
  {
    if c != [] {
      var d := c[..|c| - 1];
      assert c == d + [c[|c| - 1]];
      NoDupCount(d, x);
    }
  }

  // The hash depends on the set of literals only.
  lemma SameSetSameBucket(c: Clause, d: Clause, hashMax: Size)
    requires NoDup(c) && NoDup(d) && Lits(c) == Lits(d)
    ensures Bucket(c, hashMax) == Bucket(d, hashMax)
  {
    forall x ensures multiset(c)[x] == multiset(d)[x] {
      NoDupCount(c, x);
      NoDupCount(d, x);
      assert x in c <==> x in Lits(c);
      assert x in d <==> x in Lits(d);
    }
    assert multiset(c) == multiset(d);
    FeedPermuted(Sums(0, 1, 0), c, d);
  }

  lemma {:induction false} NoDupCard(c: Clause)
    requires NoDup(c)
    ensures |Lits(c)| == |c|
  {
    if c != [] {
      var d, x := c[..|c| - 1], c[|c| - 1];
      assert c == d + [x];
      NoDupCard(d);
      assert Lits(c) == Lits(d) + {x};
    } else {
      assert Lits(c) == {};
    }
  }

  lemma {:induction false} CardNoDup(c: Clause)
    ensures |Lits(c)| <= |c| && (|Lits(c)| == |c| ==> NoDup(c))
  {
    if c != [] {
      var d, x := c[..|c| - 1], c[|c| - 1];
      assert c == d + [x];
      CardNoDup(d);
      assert Lits(c) == Lits(d) + {x};
    } else {
      assert Lits(c) == {};
    }
  }

  // Same size and every literal marked: the same set of literals, if and only if the
  // entry does not repeat one.
  lemma MatchIsSame(c: Clause, d: Clause)
    requires NoDup(d) && |c| == |d| && Lits(c) <= Lits(d)
    ensures Lits(c) == Lits(d) <==> NoDup(c)
  {
    NoDupCard(d);
    CardNoDup(c);
    if NoDup(c) {
      NoDupCard(c);
      DiffCard(Lits(d), Lits(c));
    }
  }

  // The entry [a, a] passes for [a, b].
  lemma RepeatedMatches(a: Lit, b: Lit)
    requires a != b
    ensures var c, d := [a, a], [a, b]; NoDup(d) && |c| == |d| && Lits(c) <= Lits(d) && Lits(c) != Lits(d)
  {
    assert b in Lits([a, b]);
    assert Lits([a, a]) == {a};
  }

  // ---------- what the threads hold, and what the proof says ----------

  type Key = set<Lit>

  // The copies of a clause that all threads together hold.
  ghost function Total(held: seq<multiset<Key>>, key: Key): nat {
    if held == [] then 0 else Total(held[..|held| - 1], key) + held[|held| - 1][key]
  }

  lemma {:induction false} TotalUpdate(held: seq<multiset<Key>>, i: nat, h: multiset<Key>, key: Key)
    requires i < |held|
    ensures Total(held[i := h], key) == Total(held, key) - held[i][key] + h[key]
    ensures held[i][key] <= Total(held, key)
  {
    var n := |held| - 1;
    if i == n {
      assert held[i := h][..n] == held[..n];
    } else {
      TotalUpdate(held[..n], i, h, key);
      assert held[i := h][..n] == held[..n][i := h];
    }
  }

  // The clauses that a reader of the proof has after these lines.
  ghost function InProof(proof: seq<Line>): multiset<Key> {
    if proof == [] then multiset{}
    else
      var before, line := InProof(proof[..|proof| - 1]), proof[|proof| - 1];
      match line
      case Add(c) => before + multiset{Lits(c)}
      case Delete(c) => before - multiset{Lits(c)}
  }

  // Every deletion is about a clause that is there.
  ghost predicate WellFormed(proof: seq<Line>) {
    forall i :: 0 <= i < |proof| && proof[i].Delete? ==> Lits(proof[i].c) in InProof(proof[..i])
  }

  lemma LiveNext(proof: seq<Line>, line: Line)
    ensures InProof(proof + [line]) ==
      if line.Add? then InProof(proof) + multiset{Lits(line.c)} else InProof(proof) - multiset{Lits(line.c)}
    ensures WellFormed(proof) && (line.Delete? ==> Lits(line.c) in InProof(proof)) ==> WellFormed(proof + [line])
  {
    var more := proof + [line];
    assert more[..|proof|] == proof;
    forall i | 0 <= i < |proof| ensures more[..i] == proof[..i] {}
  }

  // No clause has two lines at a time.
  ghost predicate OneLine(proof: seq<Line>) {
    forall key :: InProof(proof)[key] <= 1
  }

  lemma OneLineNext(proof: seq<Line>, line: Line)
    requires OneLine(proof)
    ensures OneLine(proof + [line]) <==> line.Delete? || Lits(line.c) !in InProof(proof)
  {
    hide InProof;
    LiveNext(proof, line);
    if line.Delete? || Lits(line.c) !in InProof(proof) {
      forall key ensures InProof(proof + [line])[key] <= 1 {
        assert InProof(proof)[key] <= 1;
      }
    } else {
      assert InProof(proof + [line])[Lits(line.c)] > 1;
    }
  }

  // ---------- the table ----------

  function CounterFor(s: Stored, key: Key): nat {
    if !s.freed && Lits(s.lits) == key then s.counter else 0
  }

  function EntryFor(s: Stored, key: Key): nat {
    if !s.freed && Lits(s.lits) == key then 1 else 0
  }

  // The counters of all entries for a clause, and the number of these entries.
  ghost function Counters(ca: seq<Stored>, key: Key): nat {
    if ca == [] then 0 else Counters(ca[..|ca| - 1], key) + CounterFor(ca[|ca| - 1], key)
  }

  ghost function Entries(ca: seq<Stored>, key: Key): nat {
    if ca == [] then 0 else Entries(ca[..|ca| - 1], key) + EntryFor(ca[|ca| - 1], key)
  }

  lemma Pushed(ca: seq<Stored>, s: Stored, key: Key)
    ensures Counters(ca + [s], key) == Counters(ca, key) + CounterFor(s, key)
    ensures Entries(ca + [s], key) == Entries(ca, key) + EntryFor(s, key)
  {
    assert (ca + [s])[..|ca|] == ca;
  }

  lemma {:induction false} Changed(ca: seq<Stored>, r: nat, s: Stored, key: Key)
    requires r < |ca|
    ensures Counters(ca[r := s], key) == Counters(ca, key) - CounterFor(ca[r], key) + CounterFor(s, key)
    ensures Entries(ca[r := s], key) == Entries(ca, key) - EntryFor(ca[r], key) + EntryFor(s, key)
  {
    hide CounterFor, EntryFor;
    var n := |ca| - 1;
    if r == n {
      assert ca[r := s][..n] == ca[..n];
    } else {
      Changed(ca[..n], r, s, key);
      assert ca[r := s][..n] == ca[..n][r := s];
    }
  }

  ghost predicate Missing(ca: seq<Stored>, key: Key) {
    forall r :: 0 <= r < |ca| && !ca[r].freed ==> Lits(ca[r].lits) != key
  }

  lemma {:induction false} NoEntry(ca: seq<Stored>, key: Key)
    requires Missing(ca, key)
    ensures Counters(ca, key) == 0 && Entries(ca, key) == 0
  {
    if ca != [] { NoEntry(ca[..|ca| - 1], key); }
  }

  lemma {:induction false} SomeEntry(ca: seq<Stored>, r: nat, key: Key)
    requires r < |ca| && !ca[r].freed && Lits(ca[r].lits) == key
    ensures Entries(ca, key) > 0 && Counters(ca, key) >= ca[r].counter
    ensures Entries(ca, key) == 1 ==> Counters(ca, key) == ca[r].counter
  {
    var n := |ca| - 1;
    if r < n {
      SomeEntry(ca[..n], r, key);
    } else if Entries(ca[..n], key) == 0 {
      OnlyEntry(ca[..n], key);
    }
  }

  lemma {:induction false} MoreEntries(ca: seq<Stored>, r: nat, key: Key)
    requires Positive(ca) && r < |ca| && !ca[r].freed && Lits(ca[r].lits) == key && Entries(ca, key) > 1
    ensures Counters(ca, key) > ca[r].counter
  {
    var n := |ca| - 1;
    assert Positive(ca[..n]);
    EntriesCount(ca[..n], key);
    if r < n {
      if Entries(ca[..n], key) > 1 { MoreEntries(ca[..n], r, key); }
      SomeEntry(ca[..n], r, key);
    }
  }

  lemma {:induction false} OnlyEntry(ca: seq<Stored>, key: Key)
    ensures Entries(ca, key) == 0 ==> Counters(ca, key) == 0
  {
    if ca != [] { OnlyEntry(ca[..|ca| - 1], key); }
  }

  ghost predicate StoredOk(ca: seq<Stored>) {
    forall r :: 0 <= r < |ca| && !ca[r].freed ==> NoDup(ca[r].lits) && ca[r].counter < LIMIT
  }

  ghost predicate Positive(ca: seq<Stored>) {
    forall r :: 0 <= r < |ca| && !ca[r].freed ==> ca[r].counter > 0
  }

  predicate Member(list: seq<nat>, r: nat) {
    r in list
  }

  // The entry belongs into the list number b.
  ghost predicate EntryOk(ca: seq<Stored>, hashMax: Size, b: nat, r: nat) {
    r < |ca| && !ca[r].freed && Bucket(ca[r].lits, hashMax) == b
  }

  // Each clause that is not freed is in the list of its hash, once, and nothing else is.
  ghost predicate TableOk(ca: seq<Stored>, table: seq<seq<nat>>, hashMax: Size) {
    && |table| == hashMax
    && (forall b, r :: 0 <= b < |table| && Member(table[b], r) ==> EntryOk(ca, hashMax, b, r))
    && (forall b :: 0 <= b < |table| ==> NoDup(table[b]))
    && (forall r :: 0 <= r < |ca| && !ca[r].freed ==> Member(table[Bucket(ca[r].lits, hashMax)], r))
  }

  // The proof has a copy of the clause for every entry.
  ghost predicate LinesOk(ca: seq<Stored>, proof: seq<Line>) {
    forall key :: Entries(ca, key) == InProof(proof)[key]
  }

  // The counters say what the threads hold.
  ghost predicate Exact(ca: seq<Stored>, held: seq<multiset<Key>>) {
    forall key :: Counters(ca, key) == Total(held, key)
  }

  // What is left of this when a counter has left its field.
  ghost predicate Congruent(ca: seq<Stored>, held: seq<multiset<Key>>) {
    forall key :: Truncated(Counters(ca, key)) == Truncated(Total(held, key))
  }

  lemma TablePush(ca: seq<Stored>, table: seq<seq<nat>>, hashMax: Size, s: Stored)
    requires TableOk(ca, table, hashMax) && !s.freed
    ensures var b := Bucket(s.lits, hashMax); TableOk(ca + [s], table[b := table[b] + [|ca|]], hashMax)
  {
    hide Bucket;
    var b := Bucket(s.lits, hashMax);
    var more, after := ca + [s], table[b := table[b] + [|ca|]];
    forall d, r | 0 <= d < |after| && Member(after[d], r) ensures EntryOk(more, hashMax, d, r) {
      if r != |ca| { assert Member(table[d], r); }
    }
    forall d | 0 <= d < |after| ensures NoDup(after[d]) {
      forall k | 0 <= k < |table[d]| ensures table[d][k] != |ca| { assert Member(table[d], table[d][k]); }
    }
    forall r | 0 <= r < |more| && !more[r].freed ensures Member(after[Bucket(more[r].lits, hashMax)], r) {
      if r < |ca| { assert Member(table[Bucket(ca[r].lits, hashMax)], r); }
    }
  }

  lemma TableCount(ca: seq<Stored>, table: seq<seq<nat>>, hashMax: Size, r: nat, s: Stored)
    requires TableOk(ca, table, hashMax) && r < |ca| && s.lits == ca[r].lits && s.freed == ca[r].freed
    ensures TableOk(ca[r := s], table, hashMax)
  {
    hide Bucket, Member, NoDup;
    var less := ca[r := s];
    forall b, x | 0 <= b < |table| && Member(table[b], x) ensures EntryOk(less, hashMax, b, x) {
      assert EntryOk(ca, hashMax, b, x);
    }
  }

  lemma TableDrop(ca: seq<Stored>, table: seq<seq<nat>>, hashMax: Size, b: nat, i: nat)
    requires TableOk(ca, table, hashMax) && b < hashMax && i < |table[b]|
    ensures table[b][i] < |ca|
    ensures var r := table[b][i];
      TableOk(ca[r := Stored(ca[r].lits, 0, true)], table[b := SwapRemove(table[b], i)], hashMax)
  {
    hide Bucket, SwapRemove;
    assert Member(table[b], table[b][i]);
    var r := table[b][i];
    assert EntryOk(ca, hashMax, b, r);
    var less, after := ca[r := Stored(ca[r].lits, 0, true)], table[b := SwapRemove(table[b], i)];
    SwapRemoveNoDup(table[b], i);
    forall d, x | 0 <= d < |after| && Member(after[d], x) ensures EntryOk(less, hashMax, d, x) {
      assert Member(table[d], x);
      assert EntryOk(ca, hashMax, d, x);
    }
    forall x | 0 <= x < |less| && !less[x].freed ensures Member(after[Bucket(less[x].lits, hashMax)], x) {
      assert Member(table[Bucket(ca[x].lits, hashMax)], x);
    }
  }

  ghost predicate Allocated(ca: seq<Stored>, list: seq<nat>) {
    forall k :: 0 <= k < |list| ==> list[k] < |ca|
  }

  // The counter of the first entry for the key in a list of the table.
  ghost function FirstCounter(ca: seq<Stored>, list: seq<nat>, key: Key): nat
    requires Allocated(ca, list)
  {
    if list == [] then 0
    else if Lits(ca[list[0]].lits) == key then ca[list[0]].counter
    else FirstCounter(ca, list[1..], key)
  }

  lemma {:induction false} FirstCounterIs(ca: seq<Stored>, list: seq<nat>, key: Key, i: nat)
    requires Allocated(ca, list)
    requires i < |list| && Lits(ca[list[i]].lits) == key && forall k :: 0 <= k < i ==> Lits(ca[list[k]].lits) != key
    ensures FirstCounter(ca, list, key) == ca[list[i]].counter
  {
    if i > 0 { FirstCounterIs(ca, list[1..], key, i - 1); }
  }

  // If a list has an entry for the key, then the counter is that of an entry for it.
  lemma {:induction false} FirstFound(ca: seq<Stored>, list: seq<nat>, key: Key, k: nat) returns (i: nat)
    requires Allocated(ca, list) && k < |list| && Lits(ca[list[k]].lits) == key
    ensures i < |list| && Lits(ca[list[i]].lits) == key && FirstCounter(ca, list, key) == ca[list[i]].counter
  {
    if Lits(ca[list[0]].lits) == key {
      i := 0;
    } else {
      i := FirstFound(ca, list[1..], key, k - 1);
      i := i + 1;
    }
  }

  lemma {:induction false} FirstCounterNone(ca: seq<Stored>, list: seq<nat>, key: Key)
    requires Allocated(ca, list)
    requires forall k :: 0 <= k < |list| ==> Lits(ca[list[k]].lits) != key
    ensures FirstCounter(ca, list, key) == 0
  {
    if list != [] { FirstCounterNone(ca, list[1..], key); }
  }

  // ---------- steps that keep the counts ----------

  // The copies of one clause change, by what its counters change or not.
  ghost predicate CopiesChange(held: seq<multiset<Key>>, held': seq<multiset<Key>>, key: Key, y: int) {
    forall k :: Total(held', k) == Total(held, k) + if k == key then y else 0
  }

  ghost predicate CountersChange(ca: seq<Stored>, ca': seq<Stored>, key: Key, x: int) {
    forall k :: Counters(ca', k) == Counters(ca, k) + if k == key then x else 0
  }

  lemma Changes(ca: seq<Stored>, held: seq<multiset<Key>>, ca': seq<Stored>, held': seq<multiset<Key>>, key: Key, x: int, y: int)
    requires CountersChange(ca, ca', key, x) && CopiesChange(held, held', key, y)
    ensures Exact(ca, held) ==> (Exact(ca', held') <==> x == y)
    ensures Congruent(ca, held) ==> (Congruent(ca', held') <==> (x - y) % LIMIT == 0)
  {
    hide Truncated;
    forall k ensures Truncated(Counters(ca, k)) == Truncated(Total(held, k)) ==>
      (Truncated(Counters(ca', k)) == Truncated(Total(held', k)) <==> k != key || (x - y) % LIMIT == 0)
    {
      if k == key && Truncated(Counters(ca, k)) == Truncated(Total(held, k)) { SameRest(Counters(ca, k), Total(held, k), x, y); }
    }
    assert Counters(ca', key) == Counters(ca, key) + x && Total(held', key) == Total(held, key) + y;
  }

  lemma SameRest(c: nat, t: nat, x: int, y: int)
    requires Truncated(c) == Truncated(t) && c + x >= 0 && t + y >= 0
    ensures Truncated(c + x) == Truncated(t + y) <==> (x - y) % LIMIT == 0
  {
  }

  lemma Gained(held: seq<multiset<Key>>, i: nat, key: Key)
    requires i < |held|
    ensures CopiesChange(held, held[i := held[i] + multiset{key}], key, 1)
  {
    forall k ensures Total(held[i := held[i] + multiset{key}], k) == Total(held, k) + if k == key then 1 else 0 {
      TotalUpdate(held, i, held[i] + multiset{key}, k);
    }
  }

  // What a thread does not hold it does not lose.
  function Loss(h: multiset<Key>, key: Key): (r: int)
    ensures r == if key in h then 1 else 0
  {
    if h[key] > 0 then 1 else 0
  }

  lemma Lost(held: seq<multiset<Key>>, i: nat, key: Key)
    requires i < |held|
    ensures CopiesChange(held, held[i := held[i] - multiset{key}], key, -Loss(held[i], key))
    ensures Loss(held[i], key) <= Total(held, key)
  {
    forall k ensures Total(held[i := held[i] - multiset{key}], k)
      == Total(held, k) - if k == key then Loss(held[i], key) else 0
    {
      TotalUpdate(held, i, held[i] - multiset{key}, k);
    }
    TotalUpdate(held, i, held[i], key);
  }

  lemma CountersInsert(ca: seq<Stored>, proof: seq<Line>, s: Stored)
    requires LinesOk(ca, proof) && !s.freed
    ensures CountersChange(ca, ca + [s], Lits(s.lits), s.counter)
    ensures LinesOk(ca + [s], proof + [Add(s.lits)])
  {
    LiveNext(proof, Add(s.lits));
    forall k ensures Counters(ca + [s], k) == Counters(ca, k) + (if k == Lits(s.lits) then s.counter else 0)
      && Entries(ca + [s], k) == InProof(proof + [Add(s.lits)])[k] {
      Pushed(ca, s, k);
    }
  }

  lemma CountersSet(ca: seq<Stored>, proof: seq<Line>, r: nat, n: nat)
    requires LinesOk(ca, proof) && r < |ca| && !ca[r].freed
    ensures CountersChange(ca, ca[r := ca[r].(counter := n)], Lits(ca[r].lits), n - ca[r].counter)
    ensures LinesOk(ca[r := ca[r].(counter := n)], proof)
  {
    var s := ca[r].(counter := n);
    forall k ensures Counters(ca[r := s], k) == Counters(ca, k) + (if k == Lits(ca[r].lits) then n - ca[r].counter else 0)
      && Entries(ca[r := s], k) == Entries(ca, k) {
      Changed(ca, r, s, k);
    }
  }

  // The entry goes when its counter reaches zero.
  lemma CountersDrop(ca: seq<Stored>, proof: seq<Line>, r: nat, c: Clause)
    requires LinesOk(ca, proof) && r < |ca| && !ca[r].freed && ca[r].counter == 1 && Lits(c) == Lits(ca[r].lits)
    ensures Lits(c) in InProof(proof)
    ensures CountersChange(ca, ca[r := Stored(ca[r].lits, 0, true)], Lits(c), -1)
    ensures LinesOk(ca[r := Stored(ca[r].lits, 0, true)], proof + [Delete(c)])
  {
    hide InProof;
    var s := Stored(ca[r].lits, 0, true);
    SomeEntry(ca, r, Lits(c));
    assert InProof(proof)[Lits(c)] > 0;
    LineGone(proof, c);
    forall k ensures Counters(ca[r := s], k) == Counters(ca, k) + (if k == Lits(c) then -1 else 0)
      && Entries(ca[r := s], k) == InProof(proof + [Delete(c)])[k] {
      Changed(ca, r, s, k);
    }
  }

  lemma LineGone(proof: seq<Line>, c: Clause)
    requires Lits(c) in InProof(proof)
    ensures forall k :: InProof(proof + [Delete(c)])[k] == InProof(proof)[k] - if k == Lits(c) then 1 else 0
  {
    LiveNext(proof, Delete(c));
  }

  // ---------- the proof master ----------

  class Master {
    const hashMax: Size
    const useCounting: bool
    var ca: seq<Stored>
    var hashTable: seq<seq<nat>>    // by hash
    var proof: seq<Line>            // the lines written so far
    ghost var held: seq<multiset<Key>>  // by thread: the clauses it has told about and not deleted

    constructor (hashTableSize: Size, counting: bool, nrOfThreads: nat)
      ensures Inv() && hashMax == hashTableSize && useCounting == counting
      ensures proof == [] && held == seq(nrOfThreads + 1, _ => multiset{})
    {
      hashMax, useCounting := hashTableSize, counting;
      ca, proof := [], [];
      hashTable := seq(hashTableSize, _ => []);
      held := seq(nrOfThreads + 1, _ => multiset{});
      new;
      forall key ensures Total(held, key) == 0 {
        NothingHeld(held, key);
      }
    }

    // What all calls keep, whatever the counters have gone through.
    ghost predicate Consistent()
      reads `ca, `hashTable, `proof, `held
    {
      && WellFormed(proof)
      && if useCounting then
           StoredOk(ca) && TableOk(ca, hashTable, hashMax) && LinesOk(ca, proof) && Congruent(ca, held)
         else
           forall key :: Total(held, key) == InProof(proof)[key]
    }

    // What they keep as long as no counter leaves its field.
    ghost predicate Inv()
      reads `ca, `hashTable, `proof, `held
    {
      Consistent() && (useCounting ==> Positive(ca) && Exact(ca, held))
    }

    // A clause is in the proof as long as some thread holds a copy, and no longer.
    lemma LiveIffHeld(key: Key)
      requires Inv()
      ensures key in InProof(proof) <==> exists i :: 0 <= i < |held| && held[i][key] > 0
    {
      TotalPositive(held, key);
      if useCounting {
        EntriesCount(ca, key);
        assert Entries(ca, key) == InProof(proof)[key] && Counters(ca, key) == Total(held, key);
      }
    }

    // With one line for the clause, the counter that is found is the number of copies up
    // to multiples of LIMIT. As long as no counter has left its field it is the number of
    // copies, if and only if there are not two lines.
    lemma CounterIsTotal(c: Clause)
      requires Consistent() && useCounting && NoDup(c)
      ensures InProof(proof)[Lits(c)] == 1 ==> Counter(c) == Truncated(Total(held, Lits(c)))
      ensures Inv() ==> (Counter(c) == Total(held, Lits(c)) <==> InProof(proof)[Lits(c)] <= 1)
    {
      hide FirstCounter, Bucket, TableOk, NoDup, Truncated, InProof;
      var key := Lits(c);
      assert Entries(ca, key) == InProof(proof)[key] && Truncated(Counters(ca, key)) == Truncated(Total(held, key));
      assert Inv() ==> Counters(ca, key) == Total(held, key);
      if Missing(ca, key) {
        NoEntry(ca, key);
        NoCounter(c);
      } else {
        var r := EntryOf(c);
        SomeEntry(ca, r, key);
        if Inv() && Entries(ca, key) > 1 { MoreEntries(ca, r, key); }
        TruncatedIs(ca[r].counter);
      }
    }

    // With fewer than 1048576 copies and one line, the counter is the number of copies.
    lemma CounterExact(c: Clause)
      requires Consistent() && useCounting && NoDup(c) && InProof(proof)[Lits(c)] == 1
      ensures Total(held, Lits(c)) < 1048576 ==> Counter(c) == Total(held, Lits(c))
      ensures Total(held, Lits(c)) == 1048576 ==> Counter(c) == 0
    {
      hide Consistent, Counter, InProof, Total;
      CounterIsTotal(c);
    }

    // The list in which the clause is looked up.
    ghost function ListOf(c: Clause): (r: seq<nat>)
      reads `ca, `hashTable
      requires useCounting && TableOk(ca, hashTable, hashMax)
      ensures Allocated(ca, r)
    {
      var list := hashTable[Bucket(c, hashMax)];
      assert Allocated(ca, list) by {
        forall k | 0 <= k < |list| ensures list[k] < |ca| { assert Member(list, list[k]); }
      }
      list
    }

    // The counter that a call for the clause finds; zero if there is none.
    ghost function Counter(c: Clause): nat
      reads `ca, `hashTable
      requires useCounting && TableOk(ca, hashTable, hashMax)
    {
      FirstCounter(ca, ListOf(c), Lits(c))
    }

    ghost predicate EntryIs(r: nat, c: Clause)
      reads `ca, `hashTable
      requires useCounting && TableOk(ca, hashTable, hashMax)
    {
      r < |ca| && Lits(ca[r].lits) == Lits(c) && ca[r].counter == Counter(c)
    }

    // The entry that a look-up for the clause returns, or that there is none.
    ghost predicate Looked(c: Clause, b: nat, entry: int)
      reads `ca, `hashTable
      requires useCounting && TableOk(ca, hashTable, hashMax)
    {
      && b == Bucket(c, hashMax)
      && -1 <= entry < |hashTable[b]|
      && (entry >= 0 ==> EntryOk(ca, hashMax, b, hashTable[b][entry]) && EntryIs(hashTable[b][entry], c))
      && (entry < 0 ==> Counter(c) == 0 && Missing(ca, Lits(c)))
    }

    // ---------- look-up ----------

    // Marks the literals of a call's clause and counts them.
    method MarkAll(clause: Clause, e: Option<Lit>) returns (marks: set<Lit>, size: nat)
      ensures marks == Lits(Full(clause, e)) && size == |Full(clause, e)|
    {
      marks, size := {}, 0;
      if e.Some? { marks, size := {e.value}, 1; }
      var i := 0;
      while i < |clause|
        invariant 0 <= i <= |clause|
        invariant marks == Lits(Full(clause[..i], e)) && size == |Full(clause[..i], e)|
      {
        MarkNext(clause, e, i);
        if e != Some(clause[i]) {
          marks, size := marks + {clause[i]}, size + 1;
        }
        i := i + 1;
      }
      assert clause[..i] == clause;
    }

    // Has the entry this size and only marked literals?
    method Matches(c: Clause, marks: set<Lit>, size: nat) returns (r: bool)
      ensures r <==> |c| == size && Lits(c) <= marks
    {
      if |c| != size { return false; }
      var j := 0;
      while j < |c|
        invariant 0 <= j <= |c| && forall k :: 0 <= k < j ==> c[k] in marks
      {
        if c[j] !in marks {
          assert c[j] in Lits(c);
          return false;
        }
        j := j + 1;
      }
      r := true;
    }

    // The first entry with the same literals.
    method Find(clause: Clause, e: Option<Lit>) returns (b: nat, entry: int)
      requires useCounting && StoredOk(ca) && TableOk(ca, hashTable, hashMax) && NoDup(clause)
      ensures Looked(Full(clause, e), b, entry)
    {
      hide Full, TableOk, EntryOk, FirstCounter, Bucket;
      FullFacts(clause, e);
      b := Bucket(Full(clause, e), hashMax);
      var marks, size := MarkAll(clause, e);
      entry := FindIn(Full(clause, e), b, marks, size);
    }

    method FindIn(ghost full: Clause, b: nat, marks: set<Lit>, size: nat) returns (entry: int)
      requires useCounting && StoredOk(ca) && TableOk(ca, hashTable, hashMax) && NoDup(full)
      requires b == Bucket(full, hashMax) && marks == Lits(full) && size == |full|
      ensures Looked(full, b, entry)
    {
      hide FirstCounter, Bucket, NoDup, TableOk, StoredOk;
      ListFacts(full);
      var list := hashTable[b];
      var i := 0;
      while i < |list|
        invariant 0 <= i <= |list| && forall k :: 0 <= k < i ==> Lits(ca[list[k]].lits) != Lits(full)
      {
        var same := Matches(ca[list[i]].lits, marks, size);
        if same {
          EntryFacts(full, i);
          MatchIsSame(ca[list[i]].lits, full);
          FirstCounterIs(ca, list, Lits(full), i);
          return i;
        }
        OtherSize(ca[list[i]].lits, full, i);
        i := i + 1;
      }
      entry := -1;
      NotListed(full);
      FirstCounterNone(ca, list, Lits(full));
    }

    lemma ListFacts(c: Clause)
      requires useCounting && TableOk(ca, hashTable, hashMax)
      ensures Bucket(c, hashMax) < |hashTable| && Allocated(ca, hashTable[Bucket(c, hashMax)])
      ensures ListOf(c) == hashTable[Bucket(c, hashMax)]
    {
      var list := hashTable[Bucket(c, hashMax)];
      forall k | 0 <= k < |list| ensures list[k] < |ca| { assert Member(list, list[k]); }
    }

    lemma EntryFacts(c: Clause, i: nat)
      requires useCounting && StoredOk(ca) && TableOk(ca, hashTable, hashMax) && i < |ListOf(c)|
      ensures EntryOk(ca, hashMax, Bucket(c, hashMax), ListOf(c)[i]) && NoDup(ca[ListOf(c)[i]].lits)
    {
      assert Member(ListOf(c), ListOf(c)[i]);
    }

    lemma OtherSize(d: Clause, c: Clause, i: nat)
      requires useCounting && StoredOk(ca) && TableOk(ca, hashTable, hashMax) && NoDup(c)
      requires i < |ListOf(c)| && d == ca[ListOf(c)[i]].lits && !(|d| == |c| && Lits(d) <= Lits(c))
      ensures Lits(d) != Lits(c)
    {
      EntryFacts(c, i);
      NoDupCard(c);
      NoDupCard(d);
    }

    // Every entry for the clause is in its list.
    lemma InItsList(c: Clause, r: nat)
      requires useCounting && StoredOk(ca) && TableOk(ca, hashTable, hashMax) && NoDup(c)
      requires r < |ca| && !ca[r].freed && Lits(ca[r].lits) == Lits(c)
      ensures exists k :: 0 <= k < |ListOf(c)| && ListOf(c)[k] == r
    {
      hide Bucket;
      SameSetSameBucket(ca[r].lits, c, hashMax);
      assert Member(ListOf(c), r);
    }

    lemma NotListed(c: Clause)
      requires useCounting && StoredOk(ca) && TableOk(ca, hashTable, hashMax) && NoDup(c)
      requires forall k :: 0 <= k < |ListOf(c)| ==> Lits(ca[ListOf(c)[k]].lits) != Lits(c)
      ensures Missing(ca, Lits(c))
    {
      hide FirstCounter, Bucket;
      forall r | 0 <= r < |ca| && !ca[r].freed ensures Lits(ca[r].lits) != Lits(c) {
        if Lits(ca[r].lits) == Lits(c) { InItsList(c, r); }
      }
    }

    // The entry that a look-up finds, if there is one.
    lemma EntryOf(c: Clause) returns (r: nat)
      requires useCounting && StoredOk(ca) && TableOk(ca, hashTable, hashMax) && NoDup(c) && !Missing(ca, Lits(c))
      ensures r < |ca| && !ca[r].freed && EntryIs(r, c)
    {
      hide Bucket, FirstCounter, NoDup, TableOk;
      var any :| 0 <= any < |ca| && !ca[any].freed && Lits(ca[any].lits) == Lits(c);
      InItsList(c, any);
      var k :| 0 <= k < |ListOf(c)| && ListOf(c)[k] == any;
      var i := FirstFound(ca, ListOf(c), Lits(c), k);
      EntryFacts(c, i);
      r := ListOf(c)[i];
    }

    lemma NoCounter(c: Clause)
      requires useCounting && StoredOk(ca) && TableOk(ca, hashTable, hashMax) && Missing(ca, Lits(c))
      ensures Counter(c) == 0
    {
      hide Bucket, FirstCounter, NoDup, TableOk;
      forall k | 0 <= k < |ListOf(c)| ensures Lits(ca[ListOf(c)[k]].lits) != Lits(c) {
        EntryFacts(c, k);
      }
      FirstCounterNone(ca, ListOf(c), Lits(c));
    }

    // ---------- changes of the table ----------

    method Insert(c: Clause, b: nat, n: nat)
      requires useCounting && StoredOk(ca) && TableOk(ca, hashTable, hashMax) && NoDup(c) && b == Bucket(c, hashMax)
      modifies `ca, `hashTable
      ensures ca == old(ca) + [Stored(c, Truncated(n), false)]
      ensures TableOk(ca, hashTable, hashMax) && StoredOk(ca)
    {
      hide Bucket, TableOk, NoDup, Truncated;
      TableHas(b);
      TablePush(ca, hashTable, hashMax, Stored(c, Truncated(n), false));
      hashTable := hashTable[b := hashTable[b] + [|ca|]];
      ca := ca + [Stored(c, Truncated(n), false)];
    }

    lemma TableHas(b: nat)
      requires TableOk(ca, hashTable, hashMax) && b < hashMax
      ensures b < |hashTable|
    {
    }

    // A new value for the counter of an entry.
    method SetCounter(r: nat, n: nat)
      requires useCounting && StoredOk(ca) && TableOk(ca, hashTable, hashMax) && r < |ca| && !ca[r].freed
      modifies `ca
      ensures ca == old(ca)[r := old(ca[r]).(counter := Truncated(n))]
      ensures TableOk(ca, hashTable, hashMax) && StoredOk(ca)
    {
      hide TableOk, NoDup, Truncated;
      TableCount(ca, hashTable, hashMax, r, ca[r].(counter := Truncated(n)));
      ca := ca[r := ca[r].(counter := Truncated(n))];
    }

    method RecordNew(full: Clause, b: nat, n: nat, ghost held': seq<multiset<Key>>)
      requires useCounting && Consistent() && NoDup(full) && n > 0 && b == Bucket(full, hashMax)
      requires CopiesChange(held, held', Lits(full), n)
      modifies `ca, `hashTable, `proof, `held
      ensures held == held' && proof == old(proof) + [Add(full)]
      ensures Consistent() && (old(Inv()) ==> (Inv() <==> n < LIMIT))
    {
      hide TableOk, StoredOk, LinesOk, Exact, Congruent, CountersChange, CopiesChange, NoDup, Truncated, Bucket, InProof;
      hide WellFormed;
      TruncatedIs(n);
      CountersInsert(ca, proof, Stored(full, Truncated(n), false));
      Changes(ca, held, ca + [Stored(full, Truncated(n), false)], held', Lits(full), Truncated(n), n);
      LiveNext(proof, Add(full));
      Insert(full, b, n);
      held := held';
      proof := proof + [Add(full)];
    }

    method RecordAgain(r: nat, n: nat, ghost held': seq<multiset<Key>>)
      requires useCounting && Consistent() && n > 0 && r < |ca| && !ca[r].freed
      requires CopiesChange(held, held', Lits(ca[r].lits), n)
      modifies `ca, `held
      ensures held == held'
      ensures Consistent() && (old(Inv()) ==> (Inv() <==> old(ca[r].counter) + n < LIMIT))
    {
      hide TableOk, StoredOk, LinesOk, Exact, Congruent, CountersChange, CopiesChange, NoDup, Truncated, Bucket, InProof;
      hide WellFormed;
      ghost var c, s := ca[r].counter, Truncated(ca[r].counter + n);
      TruncatedIs(c + n);
      CountersSet(ca, proof, r, s);
      Changes(ca, held, ca[r := ca[r].(counter := s)], held', Lits(ca[r].lits), s - c, n);
      SetCounter(r, ca[r].counter + n);
      held := held';
    }

    // The common end of all calls that add n copies of a clause.
    method Record(full: Clause, b: nat, entry: int, n: nat, ghost held': seq<multiset<Key>>)
      requires useCounting && Consistent() && NoDup(full) && n > 0 && Looked(full, b, entry)
      requires CopiesChange(held, held', Lits(full), n)
      modifies `ca, `hashTable, `proof, `held
      ensures held == held'
      ensures proof == old(proof) + if Lits(full) in old(InProof(proof)) then [] else [Add(full)]
      ensures Consistent() && (old(Inv()) ==> (Inv() <==> old(Counter(full)) + n < LIMIT))
    {
      LookedFacts(full, b, entry);
      hide *;
      if entry < 0 {
        RecordNew(full, b, n, held');
      } else {
        RecordAgain(hashTable[b][entry], n, held');
      }
    }

    lemma LookedFacts(full: Clause, b: nat, entry: int)
      requires useCounting && Consistent() && Looked(full, b, entry)
      ensures b < |hashTable| && b == Bucket(full, hashMax) && -1 <= entry < |hashTable[b]|
      ensures entry < 0 ==> Counter(full) == 0 && Lits(full) !in InProof(proof)
      ensures entry >= 0 ==> hashTable[b][entry] < |ca| && !ca[hashTable[b][entry]].freed
      ensures entry >= 0 ==> Lits(ca[hashTable[b][entry]].lits) == Lits(full)
      ensures entry >= 0 ==> ca[hashTable[b][entry]].counter == Counter(full) < LIMIT && Lits(full) in InProof(proof)
    {
      hide InProof, FirstCounter, Bucket, Truncated;
      assert Entries(ca, Lits(full)) == InProof(proof)[Lits(full)];
      if entry < 0 {
        NoEntry(ca, Lits(full));
      } else {
        SomeEntry(ca, hashTable[b][entry], Lits(full));
      }
    }

    // The common end of all calls that delete one copy of a clause.
    method Discard(full: Clause, b: nat, entry: int, owner: nat)
      requires useCounting && Consistent() && Looked(full, b, entry) && owner < |held|
      modifies `ca, `hashTable, `proof, `held
      ensures held == old(held)[owner := old(held)[owner] - multiset{Lits(full)}]
      ensures proof == old(proof) + if old(Counter(full)) == 1 then [Delete(full)] else []
      ensures Consistent() <==> (Lits(full) in old(held[owner]) <==> Lits(full) in old(InProof(proof)))
      ensures old(Inv()) && Consistent() ==> Inv()
    {
      LookedFacts(full, b, entry);
      hide *;
      if entry < 0 {
        DiscardNone(full, owner);
      } else {
        DiscardFound(full, b, entry, owner);
      }
    }

    method DiscardFound(full: Clause, b: nat, entry: nat, owner: nat)
      requires useCounting && Consistent() && owner < |held|
      requires b < |hashTable| && entry < |hashTable[b]| && hashTable[b][entry] < |ca| && !ca[hashTable[b][entry]].freed
      requires Lits(ca[hashTable[b][entry]].lits) == Lits(full) && ca[hashTable[b][entry]].counter < LIMIT
      modifies `ca, `hashTable, `proof, `held
      ensures held == old(held)[owner := old(held)[owner] - multiset{Lits(full)}]
      ensures proof == old(proof) + if old(ca[hashTable[b][entry]].counter) == 1 then [Delete(full)] else []
      ensures Consistent() <==> Lits(full) in old(held[owner])
      ensures old(Inv()) && Consistent() ==> Inv()
    {
      hide *;
      if ca[hashTable[b][entry]].counter == 1 {
        DiscardEntry(full, b, entry, owner);
      } else {
        DiscardOne(full, hashTable[b][entry], owner);
      }
    }

    method DiscardNone(full: Clause, owner: nat)
      requires useCounting && Consistent() && owner < |held|
      modifies `held
      ensures held == old(held)[owner := old(held)[owner] - multiset{Lits(full)}]
      ensures Consistent() <==> Lits(full) !in old(held[owner])
      ensures old(Inv()) && Consistent() ==> Inv()
    {
      hide TableOk, StoredOk, LinesOk, Exact, Congruent, CopiesChange, InProof, WellFormed, Loss;
      ghost var held' := held[owner := held[owner] - multiset{Lits(full)}];
      Lost(held, owner, Lits(full));
      Changes(ca, held, ca, held', Lits(full), 0, -Loss(held[owner], Lits(full)));
      held := held';
    }

    method DiscardOne(full: Clause, r: nat, owner: nat)
      requires useCounting && Consistent() && owner < |held| && r < |ca| && !ca[r].freed && Lits(ca[r].lits) == Lits(full)
      requires ca[r].counter != 1 && ca[r].counter < LIMIT
      modifies `ca, `held
      ensures held == old(held)[owner := old(held)[owner] - multiset{Lits(full)}]
      ensures Consistent() <==> Lits(full) in old(held[owner])
      ensures old(Inv()) && Consistent() ==> Inv()
    {
      hide TableOk, StoredOk, LinesOk, Exact, Congruent, CountersChange, CopiesChange, InProof, WellFormed, Loss, Truncated;
      ghost var held' := held[owner := held[owner] - multiset{Lits(full)}];
      Lost(held, owner, Lits(full));
      ghost var c: int, s: int := ca[r].counter, Truncated(ca[r].counter + LIMIT - 1);
      OneLess(c);
      CountersSet(ca, proof, r, s);
      Changes(ca, held, ca[r := ca[r].(counter := s)], held', Lits(full), s - c, -Loss(held[owner], Lits(full)));
      SetCounter(r, ca[r].counter + LIMIT - 1);
      held := held';
    }

    method DiscardEntry(full: Clause, b: nat, entry: nat, owner: nat)
      requires useCounting && Consistent() && owner < |held|
      requires b < |hashTable| && entry < |hashTable[b]| && hashTable[b][entry] < |ca| && !ca[hashTable[b][entry]].freed
      requires Lits(ca[hashTable[b][entry]].lits) == Lits(full) && ca[hashTable[b][entry]].counter == 1
      modifies `ca, `hashTable, `proof, `held
      ensures held == old(held)[owner := old(held)[owner] - multiset{Lits(full)}]
      ensures proof == old(proof) + [Delete(full)]
      ensures Consistent() <==> Lits(full) in old(held[owner])
      ensures old(Inv()) && Consistent() ==> Inv()
    {
      hide TableOk, StoredOk, LinesOk, Exact, Congruent, CountersChange, CopiesChange, InProof, WellFormed, Loss, SwapRemove;
      ghost var held' := held[owner := held[owner] - multiset{Lits(full)}];
      Lost(held, owner, Lits(full));
      var r := hashTable[b][entry];
      CountersDrop(ca, proof, r, full);
      Changes(ca, held, ca[r := Stored(ca[r].lits, 0, true)], held', Lits(full), -1, -Loss(held[owner], Lits(full)));
      LiveNext(proof, Delete(full));
      DropKeeps(b, entry);
      proof := proof + [Delete(full)];
      hashTable := hashTable[b := SwapRemove(hashTable[b], entry)];
      ca := ca[r := Stored(ca[r].lits, 0, true)];
      held := held';
    }

    lemma DropKeeps(b: nat, i: nat)
      requires StoredOk(ca) && TableOk(ca, hashTable, hashMax) && b < |hashTable| && i < |hashTable[b]|
      ensures hashTable[b][i] < |ca|
      ensures var r := hashTable[b][i]; var ca' := ca[r := Stored(ca[r].lits, 0, true)];
        StoredOk(ca') && TableOk(ca', hashTable[b := SwapRemove(hashTable[b], i)], hashMax)
    {
      hide NoDup, SwapRemove, Bucket;
      TableDrop(ca, hashTable, hashMax, b, i);
    }

    // ---------- the calls of the threads ----------

    // addGlobalClause: a clause that is already there is only counted.
    method AddClause(clause: Clause, e: Option<Lit>, owner: nat)
      requires Consistent() && NoDup(clause) && owner < |held|
      modifies `ca, `hashTable, `proof, `held
      ensures held == old(held)[owner := old(held)[owner] + multiset{Lits(Full(clause, e))}]
      ensures proof == old(proof) +
        if useCounting && Lits(Full(clause, e)) in old(InProof(proof)) then [] else [Add(Full(clause, e))]
      ensures Consistent()
      ensures old(Inv()) ==> (Inv() <==> (useCounting ==> old(Counter(Full(clause, e))) + 1 < LIMIT))
      ensures useCounting && old(OneLine(proof)) ==> OneLine(proof)
    {
      hide TableOk, StoredOk, LinesOk, Congruent, Exact, CopiesChange, NoDup, FirstCounter, Bucket, InProof, OneLine, Full;
      FullFacts(clause, e);
      Gained(held, owner, Lits(Full(clause, e)));
      ghost var held' := held[owner := held[owner] + multiset{Lits(Full(clause, e))}];
      if OneLine(proof) { OneLineNext(proof, Add(Full(clause, e))); }
      assert proof + [] == proof;
      if useCounting {
        var b, entry := Find(clause, e);
        Record(Full(clause, e), b, entry, 1, held');
      } else {
        WriteOnly(Full(clause, e), held');
      }
    }

    // Without counting every call writes a line.
    method WriteOnly(full: Clause, ghost held': seq<multiset<Key>>)
      requires !useCounting && Consistent() && CopiesChange(held, held', Lits(full), 1)
      modifies `proof, `held
      ensures held == held' && proof == old(proof) + [Add(full)] && Consistent()
    {
      hide InProof, WellFormed, Total;
      LiveNext(proof, Add(full));
      held := held';
      proof := proof + [Add(full)];
    }

    method DeleteOnly(full: Clause, owner: nat)
      requires !useCounting && Consistent() && owner < |held|
      modifies `proof, `held
      ensures held == old(held)[owner := old(held)[owner] - multiset{Lits(full)}]
      ensures proof == old(proof) + [Delete(full)]
      ensures Consistent() <==> Lits(full) in old(held[owner])
    {
      hide InProof, WellFormed, Total, Loss;
      Lost(held, owner, Lits(full));
      LiveNext(proof, Delete(full));
      DeletedThere(proof, full);
      ghost var t := Total(held, Lits(full));
      held := held[owner := held[owner] - multiset{Lits(full)}];
      assert Total(held, Lits(full)) == t - Loss(old(held[owner]), Lits(full));
      proof := proof + [Delete(full)];
    }

    // removeGlobalClause: a line is written when the counter reaches zero. The invariants
    // survive if and only if the thread was entitled to delete: while copies are counted
    // it may also name a clause that neither it holds nor the proof has.
    method RemoveClause(clause: Clause, e: Option<Lit>, owner: nat)
      requires Consistent() && NoDup(clause) && clause != [] && owner < |held|
      modifies `ca, `hashTable, `proof, `held
      ensures held == old(held)[owner := old(held)[owner] - multiset{Lits(Full(clause, e))}]
      ensures proof == old(proof) +
        if useCounting && old(Counter(Full(clause, e))) != 1 then [] else [Delete(Full(clause, e))]
      ensures Consistent() <==> old(Entitled(owner, Lits(Full(clause, e))))
      ensures old(Inv()) && Consistent() ==> Inv()
      ensures old(OneLine(proof)) ==> OneLine(proof)
    {
      hide TableOk, StoredOk, LinesOk, Congruent, Exact, CopiesChange, NoDup, FirstCounter, Bucket, InProof, OneLine, Full;
      if OneLine(proof) { OneLineNext(proof, Delete(Full(clause, e))); }
      assert proof + [] == proof;
      if useCounting {
        var b, entry := Find(clause, e);
        Discard(Full(clause, e), b, entry, owner);
      } else {
        DeleteOnly(Full(clause, e), owner);
      }
    }

    ghost predicate Entitled(owner: nat, key: Key)
      reads `held, `proof
      requires owner < |held|
    {
      key in held[owner] <==> !useCounting || key in InProof(proof)
    }

    // With n copies and one line for them, a deletion ends the line, if and only if n is 1
    // modulo LIMIT: for other n than 1 it does so although copies are held.
    method RemoveCounted(clause: Clause, e: Option<Lit>, owner: nat)
      requires useCounting && Consistent() && NoDup(clause) && clause != [] && owner < |held|
      requires Lits(Full(clause, e)) in held[owner] && InProof(proof)[Lits(Full(clause, e))] == 1
      modifies `ca, `hashTable, `proof, `held
      ensures Consistent() && Total(held, Lits(Full(clause, e))) == old(Total(held, Lits(Full(clause, e)))) - 1
      ensures Lits(Full(clause, e)) in InProof(proof) <==> old(Total(held, Lits(Full(clause, e)))) % LIMIT != 1
    {
      FullFacts(clause, e);
      CountedFacts(Full(clause, e), owner);
      assert proof + [] == proof;
      hide *;
      RemoveClause(clause, e, owner);
    }

    lemma CountedFacts(full: Clause, owner: nat)
      requires useCounting && Consistent() && NoDup(full) && owner < |held|
      requires Lits(full) in held[owner] && InProof(proof)[Lits(full)] == 1
      ensures Entitled(owner, Lits(full))
      ensures Counter(full) == 1 <==> Total(held, Lits(full)) % LIMIT == 1
      ensures Total(held[owner := held[owner] - multiset{Lits(full)}], Lits(full)) == Total(held, Lits(full)) - 1
      ensures Lits(full) !in InProof(proof + [Delete(full)])
    {
      hide TableOk, StoredOk, LinesOk, Congruent, NoDup, FirstCounter, Bucket, Total, InProof, WellFormed;
      CounterIsTotal(full);
      Lost(held, owner, Lits(full));
      LiveNext(proof, Delete(full));
    }

    // The look-up of the calls for unit clauses.
    method FindUnit(unit: Lit) returns (b: nat, entry: int)
      requires useCounting && StoredOk(ca) && TableOk(ca, hashTable, hashMax)
      ensures Looked([unit], b, entry)
    {
      hide FirstCounter, Bucket, NoDup, TableOk, StoredOk;
      UnitFacts(unit);
      ListFacts([unit]);
      b := Bucket([unit], hashMax);
      var list := hashTable[b];
      var i := 0;
      while i < |list|
        invariant 0 <= i <= |list| && forall k :: 0 <= k < i ==> Lits(ca[list[k]].lits) != Lits([unit])
      {
        var c := ca[list[i]].lits;
        if |c| == 1 && c[0] == unit {
          EntryFacts([unit], i);
          FirstCounterIs(ca, list, Lits([unit]), i);
          return b, i;
        }
        EntryFacts([unit], i);
        NotUnit(c, unit);
        i := i + 1;
      }
      entry := -1;
      NotListed([unit]);
      FirstCounterNone(ca, list, Lits([unit]));
    }

    // addUnitToGlobalProof
    method AddUnit(unit: Lit, owner: nat)
      requires Consistent() && owner < |held|
      modifies `ca, `hashTable, `proof, `held
      ensures held == old(held)[owner := old(held)[owner] + multiset{{unit}}]
      ensures proof == old(proof) + if useCounting && {unit} in old(InProof(proof)) then [] else [Add([unit])]
      ensures Consistent()
      ensures old(Inv()) ==> (Inv() <==> (useCounting ==> old(Counter([unit])) + 1 < LIMIT))
      ensures useCounting && old(OneLine(proof)) ==> OneLine(proof)
    {
      hide TableOk, StoredOk, LinesOk, Congruent, Exact, CopiesChange, NoDup, FirstCounter, Bucket, InProof, OneLine;
      UnitFacts(unit);
      Gained(held, owner, Lits([unit]));
      ghost var held' := held[owner := held[owner] + multiset{Lits([unit])}];
      if OneLine(proof) { OneLineNext(proof, Add([unit])); }
      assert proof + [] == proof;
      if useCounting {
        var b, entry := FindUnit(unit);
        Record([unit], b, entry, 1, held');
      } else {
        WriteOnly([unit], held');
      }
    }

    // delFromProof for a unit clause
    method RemoveUnit(unit: Lit, owner: nat)
      requires Consistent() && owner < |held|
      modifies `ca, `hashTable, `proof, `held
      ensures held == old(held)[owner := old(held)[owner] - multiset{{unit}}]
      ensures proof == old(proof) + if useCounting && old(Counter([unit])) != 1 then [] else [Delete([unit])]
      ensures Consistent() <==> old(Entitled(owner, {unit}))
      ensures old(Inv()) && Consistent() ==> Inv()
      ensures old(OneLine(proof)) ==> OneLine(proof)
    {
      hide TableOk, StoredOk, LinesOk, Congruent, Exact, CopiesChange, NoDup, FirstCounter, Bucket, InProof, OneLine, Total;
      UnitFacts(unit);
      if OneLine(proof) { OneLineNext(proof, Delete([unit])); }
      assert proof + [] == proof;
      if useCounting {
        var b, entry := FindUnit(unit);
        Discard([unit], b, entry, owner);
      } else {
        DeleteOnly([unit], owner);
      }
    }

    // addInputToProof: an input clause with a number of copies, however these are
    // distributed among the threads. A clause that is said to be new gets an entry of
    // its own.
    method AddInput(clause: Clause, copies: nat, isNew: bool, ghost held': seq<multiset<Key>>)
      requires Consistent() && NoDup(clause) && copies > 0 && CopiesChange(held, held', Lits(clause), copies)
      modifies `ca, `hashTable, `proof, `held
      ensures held == held'
      ensures useCounting ==>
        proof == old(proof) + if !isNew && Lits(clause) in old(InProof(proof)) then [] else [Add(clause)]
      ensures !useCounting ==> proof == old(proof) + seq(copies, _ => Add(clause))
      ensures Consistent()
      ensures old(Inv()) ==>
        (Inv() <==> (useCounting ==> (if isNew then 0 else old(Counter(clause))) + copies < LIMIT))
      ensures useCounting && old(OneLine(proof)) ==> (OneLine(proof) <==> !(isNew && Lits(clause) in old(InProof(proof))))
    {
      hide TableOk, StoredOk, LinesOk, Congruent, Exact, CopiesChange, NoDup, FirstCounter, Bucket, InProof, OneLine;
      if OneLine(proof) { OneLineNext(proof, Add(clause)); }
      assert proof + [] == proof;
      if !useCounting {
        WriteCopies(clause, copies, held');
      } else if isNew {
        RecordNew(clause, Bucket(clause, hashMax), copies, held');
      } else {
        assert Full(clause, None) == clause;
        var b, entry := Find(clause, None);
        Record(clause, b, entry, copies, held');
      }
    }

    method WriteCopies(clause: Clause, copies: nat, ghost held': seq<multiset<Key>>)
      requires !useCounting && Consistent() && CopiesChange(held, held', Lits(clause), copies)
      modifies `proof, `held
      ensures held == held' && proof == old(proof) + seq(copies, _ => Add(clause)) && Consistent()
    {
      hide InProof, WellFormed, Total;
      ghost var proof0 := proof;
      var nrCopy := 0;
      while nrCopy < copies
        invariant 0 <= nrCopy <= copies && WellFormed(proof) && held == old(held)
        invariant proof == proof0 + seq(nrCopy, _ => Add(clause))
        invariant forall k :: InProof(proof)[k] == InProof(proof0)[k] + if k == Lits(clause) then nrCopy else 0
      {
        LiveNext(proof, Add(clause));
        proof := proof + [Add(clause)];
        nrCopy := nrCopy + 1;
      }
      held := held';
    }
  }

  // n calls add the same clause, then one call deletes it.
  method AddOftenRemoveOnce(hashTableSize: Size, c: Clause, n: nat) returns (m: Master)
    requires NoDup(c) && c != [] && n > 0
    ensures m.useCounting && m.Consistent() && Total(m.held, Lits(c)) == n - 1
    ensures Lits(c) in InProof(m.proof) <==> n % LIMIT != 1
  {
    m := new Master(hashTableSize, true, 0);
    assert Full(c, None) == c;
    NoneAdded(m);
    hide *;
    var i := 0;
    while i < n
      invariant 0 <= i <= n && fresh(m) && Added(m, Lits(c), i)
    {
      AddOnce(m, c, i);
      i := i + 1;
    }
    AddedFacts(m, Lits(c), n);
    m.RemoveCounted(c, None, 0);
  }

  // One thread has told n times about the clause.
  ghost predicate Added(m: Master, key: Key, n: nat)
    reads m
  {
    && m.useCounting && m.Consistent() && |m.held| == 1
    && Total(m.held, key) == m.held[0][key] == n
    && InProof(m.proof)[key] == if n == 0 then 0 else 1
  }

  lemma AddedFacts(m: Master, key: Key, n: nat)
    requires Added(m, key, n)
    ensures m.useCounting && m.Consistent() && |m.held| == 1 && Total(m.held, key) == m.held[0][key] == n
    ensures n > 0 ==> InProof(m.proof)[key] == 1
  {
  }

  lemma NoneAdded(m: Master)
    requires m.useCounting && m.Consistent() && m.proof == [] && m.held == seq(1, _ => multiset{})
    ensures forall key :: Added(m, key, 0)
  {
    forall key ensures Added(m, key, 0) {
      NothingHeld(m.held, key);
    }
  }

  method AddOnce(m: Master, c: Clause, n: nat)
    requires NoDup(c) && Added(m, Lits(c), n)
    modifies m`ca, m`hashTable, m`proof, m`held
    ensures Added(m, Lits(c), n + 1)
  {
    hide InProof, Total, FirstCounter, Bucket;
    Gained(m.held, 0, Lits(c));
    LiveNext(m.proof, Add(c));
    assert m.proof + [] == m.proof && Full(c, None) == c;
    m.AddClause(c, None, 0);
  }

  lemma UnitFacts(unit: Lit)
    ensures NoDup([unit]) && Lits([unit]) == {unit} && Full([unit], None) == [unit]
  {
  }

  lemma NotUnit(c: Clause, unit: Lit)
    requires NoDup(c) && !(|c| == 1 && c[0] == unit)
    ensures Lits(c) != Lits([unit])
  {
    UnitFacts(unit);
    NoDupCard(c);
    if |c| == 1 { assert c[0] in Lits(c); }
  }

  lemma TruncatedIs(n: nat)
    ensures Truncated(n) == n <==> n < LIMIT
    ensures (Truncated(n) - n) % LIMIT == 0
  {
  }

  lemma OneLess(c: nat)
    requires c < LIMIT
    ensures (Truncated(c + LIMIT - 1) - c + 1) % LIMIT == 0
    ensures c > 0 ==> Truncated(c + LIMIT - 1) == c - 1
  {
  }

  lemma DeletedThere(proof: seq<Line>, c: Clause)
    ensures WellFormed(proof + [Delete(c)]) ==> Lits(c) in InProof(proof)
  {
    var more := proof + [Delete(c)];
    assert more[|proof|].Delete? && more[..|proof|] == proof;
  }

  lemma MarkNext(clause: Clause, e: Option<Lit>, i: nat)
    requires i < |clause|
    ensures Full(clause[..i + 1], e) == Full(clause[..i], e) + if e == Some(clause[i]) then [] else [clause[i]]
    ensures Lits(Full(clause[..i + 1], e)) == Lits(Full(clause[..i], e)) + if e == Some(clause[i]) then {} else {clause[i]}
  {
    assert clause[..i + 1] == clause[..i] + [clause[i]];
    if e.Some? { WithoutLast(clause[..i], clause[i], e.value); }
  }

  lemma {:induction false} NothingHeld(held: seq<multiset<Key>>, key: Key)
    requires forall i :: 0 <= i < |held| ==> held[i] == multiset{}
    ensures Total(held, key) == 0
  {
    if held != [] { NothingHeld(held[..|held| - 1], key); }
  }

  lemma {:induction false} TotalPositive(held: seq<multiset<Key>>, key: Key)
    ensures Total(held, key) > 0 <==> exists i :: 0 <= i < |held| && held[i][key] > 0
  {
    if held != [] {
      var n := |held| - 1;
      TotalPositive(held[..n], key);
      if Total(held[..n], key) > 0 {
        var i :| 0 <= i < n && held[..n][i][key] > 0;
        assert held[i][key] > 0;
      } else if i :| 0 <= i < |held| && held[i][key] > 0 {
        if i < n { assert held[..n][i][key] > 0; }
      }
    }
  }

  // Counters of entries are positive.
  lemma {:induction false} EntriesCount(ca: seq<Stored>, key: Key)
    requires Positive(ca)
    ensures Counters(ca, key) > 0 <==> Entries(ca, key) > 0
  {
    if ca != [] {
      var n := |ca| - 1;
      assert Positive(ca[..n]);
      EntriesCount(ca[..n], key);
    }
  }
}
