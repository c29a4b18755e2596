// The undo information as a file (coprocessor/OutputFormula.cc): repair clauses and
// units are printed one a line, and read back onto the stack.

module UndoFile {
  import opened Collections
  import opened Sat
  import opened Steps
  import opened Undo

  // ---------- numbers ----------

  // The kinds of characters that the parser tells apart.
  datatype Kind = Space | Minus | Decimals

  predicate Is(c: char, kind: Kind) {
    match kind
    case Space => c == ' '
    case Minus => c == '-'
    case Decimals => '0' <= c <= '9'
  }

  function Digit(d: nat): (c: char)
    requires d < 10
    ensures Is(c, Decimals) && DigitValue(c) == d
  {
    ['0', '1', '2', '3', '4', '5', '6', '7', '8', '9'][d]
  }

  function DigitValue(c: char): nat
    requires Is(c, Decimals)
  {
    c as nat - '0' as nat
  }

  ghost predicate Digits(s: string) {
    forall i :: 0 <= i < |s| ==> Is(s[i], Decimals)
  }

  function Decimal(n: nat): (s: string)
    ensures s != [] && Digits(s)
  {
    (if n < 10 then [] else Decimal(n / 10)) + [Digit(n % 10)]
  }

  function Number(s: string): nat
    requires Digits(s)
  {
    if s == [] then 0 else 10 * Number(s[..|s| - 1]) + DigitValue(s[|s| - 1])
  }

  lemma {:induction false} NumberOfDecimal(n: nat)
    ensures Number(Decimal(n)) == n
  {
    var front := if n < 10 then [] else Decimal(n / 10);
    if n >= 10 { NumberOfDecimal(n / 10); }
    assert Decimal(n)[..|Decimal(n)| - 1] == front;
  }

  // How many characters at the beginning are of this kind?
  function Span(s: string, kind: Kind): (n: nat)
    ensures n <= |s| && (forall i :: 0 <= i < n ==> Is(s[i], kind)) && (n < |s| ==> !Is(s[n], kind))
  {
    if s != [] && Is(s[0], kind) then 1 + Span(s[1..], kind) else 0
  }

  lemma SpanIs(s: string, kind: Kind, n: nat)
    requires n <= |s| && (forall i :: 0 <= i < n ==> Is(s[i], kind)) && (n < |s| ==> !Is(s[n], kind))
    ensures Span(s, kind) == n
  {
  }

  // ---------- literals and clauses ----------

  function LitText(l: Lit): string {
    (if l.neg then "-" else "") + Decimal(l.v + 1)
  }

  function LineText(c: Clause): string {
    Text(c) + "0"
  }

  function Text(c: Clause): string {
    if c == [] then "" else Text(c[..|c| - 1]) + LitText(c[|c| - 1]) + " "
  }

  lemma TextFirst(c: Clause)
    requires c != []
    ensures Text(c) == LitText(c[0]) + " " + Text(c[1..])
  {
    hide *;
    TextPush(c[0], c[1..]);
    assert c == [c[0]] + c[1..];
  }

  lemma {:induction false} TextPush(l: Lit, c: Clause)
    ensures Text([l] + c) == LitText(l) + " " + Text(c)
  {
    hide *;
    if c == [] {
      TextOne(l);
      assert [l] + c == [l];
    } else {
      var front := c[..|c| - 1];
      TextPush(l, front);
      TextLast([l] + c);
      TextLast(c);
      assert ([l] + c)[..|c|] == [l] + front;
      Regroup(LitText(l), Text(front), LitText(c[|c| - 1]));
    }
  }

  lemma TextOne(l: Lit)
    ensures Text([]) == "" && Text([l]) == LitText(l) + " " && LitText(l) + " " + "" == LitText(l) + " "
  {
    hide LitText;
    TextLast([l]);
    assert [l][..0] == [];
  }

  lemma TextLast(c: Clause)
    requires c != []
    ensures Text(c) == Text(c[..|c| - 1]) + LitText(c[|c| - 1]) + " "
  {
    hide LitText;
  }

  lemma Regroup(a: string, b: string, x: string)
    ensures (a + " " + b) + x + " " == a + " " + (b + x + " ")
  {
  }

  // The number at the beginning of s: its value, whether there is a minus sign, and
  // where the text behind it and the following spaces begins.
  datatype Token = Token(value: nat, negative: bool, next: nat)

  function First(s: string): (t: Token)
    ensures t.next <= |s| && (t.value > 0 ==> t.next > 0)
  {
    var minus := Span(s, Minus);
    var end := minus + Span(s[minus..], Decimals);
    Token(Number(s[minus..end]), minus > 0, end + Span(s[end..], Space))
  }

  // What parseClause reads from the rest of a line: the numbers up to the first zero.
  function Parsed(s: string): Clause
    decreases |s|
  {
    if s == [] then []
    else
      var t := First(s);
      if t.value == 0 then [] else [Lit(t.value - 1, t.negative)] + Parsed(s[t.next..])
  }

  function ParsedLine(line: string): Clause {
    Parsed(line[Span(line, Space)..])
  }

  // Moves over characters of one kind.
  method Skip(line: string, ind: nat, kind: Kind) returns (r: nat)
    requires ind <= |line|
    ensures r == ind + Span(line[ind..], kind)
  {
    r := ind;
    while r < |line| && Is(line[r], kind)
      invariant ind <= r <= |line| && forall i :: ind <= i < r ==> Is(line[i], kind)
    {
      r := r + 1;
    }
    SpanIs(line[ind..], kind, r - ind);
  }

  lemma NumberNext(line: string, ind: nat, r: nat)
    requires ind <= r < |line| && Digits(line[ind..r]) && Is(line[r], Decimals)
    ensures Digits(line[ind..r + 1])
    ensures Number(line[ind..r + 1]) == 10 * Number(line[ind..r]) + DigitValue(line[r])
  {
    hide DigitValue, Is;
    assert line[ind..r + 1] == line[ind..r] + [line[r]];
    assert line[ind..r + 1][..r - ind] == line[ind..r];
  }

  method ReadNumber(line: string, ind: nat) returns (number: nat, r: nat)
    requires ind <= |line|
    ensures var digits := Span(line[ind..], Decimals); r == ind + digits && number == Number(line[ind..][..digits])
  {
    number, r := 0, ind;
    while r < |line| && Is(line[r], Decimals)
      invariant ind <= r <= |line| && Digits(line[ind..r]) && number == Number(line[ind..r])
    {
      NumberNext(line, ind, r);
      number := number * 10 + DigitValue(line[r]);
      r := r + 1;
    }
    SpanIs(line[ind..], Decimals, r - ind);
    assert line[ind..][..r - ind] == line[ind..r];
  }

  method ReadToken(line: string, ind: nat) returns (t: Token)
    requires ind <= |line|
    ensures t == First(line[ind..])
  {
    hide Span, Number;
    var number, after;
    var sign := Skip(line, ind, Minus);
    number, after := ReadNumber(line, sign);
    var next := Skip(line, after, Space);
    Suffixes(line, ind, sign, after, next);
    t := Token(number, sign > ind, next - ind);
  }

  method ParseOne(line: string, ind: nat) returns (done: bool, l: Lit, next: nat)
    requires ind < |line|
    ensures done ==> Parsed(line[ind..]) == []
    ensures !done ==> ind < next <= |line| && Parsed(line[ind..]) == [l] + Parsed(line[next..])
  {
    hide First;
    var t := ReadToken(line, ind);
    assert line[ind..][t.next..] == line[ind + t.next..];
    done, l, next := t.value == 0, Lit(if t.value == 0 then 0 else t.value - 1, t.negative), ind + t.next;
  }

  lemma Suffixes(line: string, i: nat, j: nat, k: nat, n: nat)
    requires i <= j <= k <= n <= |line|
    ensures line[i..][j - i..] == line[j..] && line[i..][k - i..] == line[k..] && line[i..][n - i..] == line[n..]
    ensures line[i..][j - i..k - i] == line[j..k] == line[j..][..k - j]
    ensures j == k ==> line[j..k] == ""
  {
  }

  // parseClause: the literals of a line are appended.
  method ParseClause(line: string, literals: Clause) returns (r: Clause)
    ensures r == literals + ParsedLine(line)
  {
    hide Span, Parsed;
    r := literals;
    var ind := Skip(line, 0, Space);
    assert line[0..] == line;
    while |line| > ind
      invariant 0 <= ind <= |line| && r + Parsed(line[ind..]) == literals + ParsedLine(line)
    {
      var done, l, next := ParseOne(line, ind);
      if done { return; }
      assert (r + [l]) + Parsed(line[next..]) == r + ([l] + Parsed(line[next..]));
      r, ind := r + [l], next;
    }
    NothingParsed();
    assert line[ind..] == "";
  }

  lemma NothingParsed()
    ensures Parsed("") == []
  {
  }

  lemma ParsedZero()
    ensures Parsed("0") == []
  {
    SpanIs("0", Minus, 0);
    assert "0"[0..] == "0";
    SpanIs("0", Decimals, 1);
    assert Number("0") == 0;
  }

  lemma {:induction false} ParsedPrinted(c: Clause)
    ensures Parsed(LineText(c)) == c && LineText(c) != [] && LineText(c)[0] != ' '
  {
    hide Parsed, LitText;
    if c == [] {
      ParsedZero();
      assert LineText(c) == "0";
    } else {
      ParsedPrinted(c[1..]);
      TextFirst(c);
      hide Text;
      ParsedFirst(c[0], LineText(c[1..]));
      assert LineText(c) == LitText(c[0]) + " " + LineText(c[1..]);
    }
  }

  lemma ParsedFirst(l: Lit, rest: string)
    requires rest != [] && rest[0] != ' '
    ensures Parsed(LitText(l) + " " + rest) == [l] + Parsed(rest)
    ensures (LitText(l) + " " + rest)[0] != ' '
  {
    hide Span, Number, Parsed, Decimal, First;
    var minus, n, tail := if l.neg then "-" else "", Decimal(l.v + 1), " " + rest;
    var s := minus + n + tail;
    assert s == LitText(l) + " " + rest;
    NumberOfDecimal(l.v + 1);
    FirstOf(minus, n, rest);
    FirstStep(s);
  }

  lemma FirstOf(minus: string, n: string, rest: string)
    requires (minus == "" || minus == "-") && n != [] && Digits(n) && rest != [] && rest[0] != ' '
    ensures var s := minus + n + (" " + rest);
      First(s) == Token(Number(n), minus == "-", |minus| + |n| + 1) && s[|minus| + |n| + 1..] == rest
  {
    hide Span, Number, Digits;
    PiecesOf(minus, n, rest);
  }

  // A number in decimal digits, n, is the literal of variable n - 1; a minus sign in front of
  // it makes the literal negative.
  lemma SignedNumber(digits: string, rest: string)
    requires digits != [] && Digits(digits) && Number(digits) > 0 && rest != [] && rest[0] != ' '
    ensures Parsed("-" + digits + " " + rest) == [Lit(Number(digits) - 1, true)] + Parsed(rest)
    ensures Parsed(digits + " " + rest) == [Lit(Number(digits) - 1, false)] + Parsed(rest)
  {
    hide *;
    OneNumber("-", digits, rest);
    OneNumber("", digits, rest);
    assert "-" + digits + " " + rest == "-" + digits + (" " + rest);
    assert digits + " " + rest == "" + digits + (" " + rest);
  }

  lemma OneNumber(minus: string, n: string, rest: string)
    requires (minus == "" || minus == "-") && n != [] && Digits(n) && Number(n) > 0 && rest != [] && rest[0] != ' '
    ensures Parsed(minus + n + (" " + rest)) == [Lit(Number(n) - 1, minus == "-")] + Parsed(rest)
  {
    hide *;
    FirstOf(minus, n, rest);
    FirstStep(minus + n + (" " + rest));
  }

  // A line with two literals, as printed and as read.
  lemma TwoLiterals()
    ensures ParsedLine("-12 7 0") == [Lit(11, true), Lit(6, false)]
    ensures LineText([Lit(11, true), Lit(6, false)]) == "-12 7 0"
  {
    hide *;
    LineRoundTrip([Lit(11, true), Lit(6, false)]);
    TwoTexts(Lit(11, true), Lit(6, false));
    TwelveAndSeven();
    assert "-12" + " " + "7" + " " + "0" == "-12 7 0";
  }

  lemma TwoTexts(a: Lit, b: Lit)
    ensures LineText([a, b]) == LitText(a) + " " + LitText(b) + " " + "0"
  {
    hide LitText;
    TextOne(a);
    TextLast([a, b]);
    assert [a, b][..1] == [a];
  }

  lemma TwelveAndSeven()
    ensures LitText(Lit(11, true)) == "-12" && LitText(Lit(6, false)) == "7"
  {
    assert Decimal(1) == "1" && Decimal(7) == "7";
    assert Decimal(12) == Decimal(1) + ['2'];
  }

  lemma FirstStep(s: string)
    requires s != [] && First(s).value > 0
    ensures Parsed(s) == [Lit(First(s).value - 1, First(s).negative)] + Parsed(s[First(s).next..])
  {
    hide First;
  }

  lemma PiecesOf(minus: string, n: string, rest: string)
    requires (minus == "" || minus == "-") && n != [] && Digits(n) && rest != [] && rest[0] != ' '
    ensures var s := minus + n + (" " + rest);
      && Span(s, Minus) == |minus| && Span(s[|minus|..], Decimals) == |n| && Span(s[|minus| + |n|..], Space) == 1
      && s[|minus|..|minus| + |n|] == n && s[|minus| + |n| + 1..] == rest
  {
    hide Span;
    var tail := " " + rest;
    var s := minus + n + tail;
    DigitFacts(n);
    SpanIs(s, Minus, |minus|);
    assert s[|minus|..] == n + tail && s[|minus|..|minus| + |n|] == n && s[|minus| + |n|..] == tail;
    SpanIs(n + tail, Decimals, |n|);
    SpanIs(tail, Space, 1);
    assert s[|minus| + |n| + 1..] == rest;
  }

  lemma DigitFacts(n: string)
    requires n != [] && Digits(n)
    ensures Is(n[0], Decimals) && n[0] != '-' && n[0] != ' '
  {
  }

  // The parser undoes the printer.
  lemma LineRoundTrip(c: Clause)
    ensures ParsedLine(LineText(c)) == c
  {
    ParsedPrinted(c);
    SpanIs(LineText(c), Space, 0);
    assert LineText(c)[0..] == LineText(c);
  }

  // ---------- the header ----------

  function IntText(n: int): string {
    if n < 0 then "-" + Decimal(-n) else Decimal(n)
  }

  function Header(vars: int, promised: nat): string {
    "p cnf " + IntText(vars) + " " + Decimal(promised)
  }

  // Extracts a number from a stream; without digits the extraction fails.
  datatype Extracted = Extracted(ok: bool, value: int, rest: string)

  function Extract(s: string): Extracted {
    var t := s[Span(s, Space)..];
    var minus := if t != [] && t[0] == '-' then 1 else 0;
    var digits := Span(t[minus..], Decimals);
    var value: int := Number(t[minus..minus + digits]);
    Extracted(digits > 0, if minus == 1 then -value else value, t[minus + digits..])
  }

  lemma ExtractPrinted(n: int, rest: string)
    requires rest == "" || rest[0] == ' '
    ensures Extract(" " + IntText(n) + rest) == Extracted(true, n, rest)
  {
    hide Span, Number, Decimal;
    var minus, d := if n < 0 then "-" else "", Decimal(if n < 0 then -n else n);
    DigitFacts(d);
    SignedPieces(minus, d, rest);
    NumberOfDecimal(if n < 0 then -n else n);
    assert " " + IntText(n) + rest == " " + (minus + d + rest);
  }

  lemma SignedPieces(minus: string, d: string, rest: string)
    requires (minus == "" || minus == "-") && d != [] && Digits(d) && (rest == "" || rest[0] == ' ')
    ensures var t := minus + d + rest;
      && Span(" " + t, Space) == 1 && (" " + t)[1..] == t && (t[0] == '-' <==> minus == "-")
      && Span(t[|minus|..], Decimals) == |d| && t[|minus|..|minus| + |d|] == d && t[|minus| + |d|..] == rest
  {
    hide Span;
    DigitFacts(d);
    var t := minus + d + rest;
    SpanIs(" " + t, Space, 1);
    assert t[|minus|..] == d + rest;
    SpanIs(d + rest, Decimals, |d|);
  }

  // ---------- the file ----------

  // What has been read so far. A line without literals makes the parser read the first
  // element of an empty vector, which is bad.
  datatype Reading = Reading(found: bool, vars: int, promised: int, parsed: nat, undo: seq<Mark>, bad: bool)

  predicate IsHeader(line: string) {
    |line| >= 5 && line[..5] == "p cnf"
  }

  predicate IsComment(line: string) {
    line != [] && line[0] == 'c'
  }

  function ReadHeader(r: Reading, line: string): Reading
    requires IsHeader(line)
  {
    var first := Extract(line[5..]);
    var second := Extract(first.rest);
    r.(found := true,
       vars := if first.ok then first.value else 0,
       promised := if !first.ok then r.promised else if second.ok then second.value else 0)
  }

  function ReadLine(r: Reading, line: string): Reading {
    if IsHeader(line) then ReadHeader(r, line)
    else if IsComment(line) then r
    else
      var c := ParsedLine(line);
      var more := r.(parsed := r.parsed + 1);
      if c == [] then more.(bad := true)
      else more.(undo := r.undo + [Sep] + Marks(PivotFirst(c, c[0])))
  }

  function ReadAll(r: Reading, lines: seq<string>): Reading {
    if lines == [] then r else ReadLine(ReadAll(r, lines[..|lines| - 1]), lines[|lines| - 1])
  }

  function Start(undo: seq<Mark>, vars: int): Reading {
    Reading(false, vars, -1, 0, undo, false)
  }

  // parseUndoInfo succeeds.
  predicate Accepted(r: Reading) {
    !r.bad && r.found && r.promised != -1 && r.promised == r.parsed
  }

  // parseUndoInfo: reads the lines of the file onto the stack; stops at a bad line.
  method ParseUndoInfo(lines: seq<string>, undo: seq<Mark>, vars: int) returns (ok: bool, undo': seq<Mark>, vars': int)
    ensures ok <==> Accepted(ReadAll(Start(undo, vars), lines))
    ensures ok ==> undo' == ReadAll(Start(undo, vars), lines).undo && vars' == ReadAll(Start(undo, vars), lines).vars
  {
    hide ReadHeader, ParsedLine;
    var r := Start(undo, vars);
    ok, undo', vars' := false, undo, vars;
    var i := 0;
    while i < |lines|
      invariant 0 <= i <= |lines| && r == ReadAll(Start(undo, vars), lines[..i]) && !r.bad
    {
      assert lines[..i + 1][..i] == lines[..i];
      var line := lines[i];
      if IsHeader(line) {
        r := ReadHeader(r, line);
        assert !r.bad by { HeaderKeepsBad(ReadAll(Start(undo, vars), lines[..i]), line); }
      } else if !IsComment(line) {
        var literals := ParseClause(line, []);
        assert [] + ParsedLine(line) == ParsedLine(line);
        if literals == [] {
          StaysBad(Start(undo, vars), lines, i + 1);
          return;
        }
        r := r.(parsed := r.parsed + 1, undo := r.undo + [Sep] + Marks(PivotFirst(literals, literals[0])));
      }
      i := i + 1;
    }
    assert lines[..i] == lines;
    ok, undo', vars' := r.found && r.promised != -1 && r.promised == r.parsed, r.undo, r.vars;
  }

  lemma HeaderKeepsBad(r: Reading, line: string)
    requires IsHeader(line)
    ensures ReadHeader(r, line).bad == r.bad
  {
  }

  lemma {:induction false} StaysBad(r: Reading, lines: seq<string>, i: nat)
    requires i <= |lines| && ReadAll(r, lines[..i]).bad
    ensures ReadAll(r, lines).bad
    decreases |lines|
  {
    if i == |lines| {
      assert lines[..i] == lines;
    } else {
      var front := lines[..|lines| - 1];
      assert front[..i] == lines[..i];
      StaysBad(r, front, i);
    }
  }

  // ---------- writing ----------

  // The clauses that are written: an empty one at the end of the stack is forgotten.
  function Written(undo: seq<Mark>): seq<Clause>
    requires WellFormed(undo)
  {
    var segs := Segs(undo);
    if undo != [] && undo[|undo| - 1] == Sep then segs[..|segs| - 1] else segs
  }

  function ClauseLines(cs: seq<Clause>): (r: seq<string>)
    ensures |r| == |cs|
  {
    if cs == [] then [] else ClauseLines(cs[..|cs| - 1]) + [LineText(cs[|cs| - 1])]
  }

  function Units(lits: seq<Lit>): (r: seq<Clause>)
    ensures |r| == |lits|
  {
    if lits == [] then [] else Units(lits[..|lits| - 1]) + [[lits[|lits| - 1]]]
  }

  function FileOf(undo: seq<Mark>, trail: seq<Lit>, vars: int): seq<string>
    requires WellFormed(undo)
  {
    [Header(vars, |Segs(undo)| + |trail|)] + ClauseLines(Written(undo) + Units(trail))
  }

  lemma CountNone()
    ensures |Segs([])| == 0
  {
  }

  lemma CountNext(undo: seq<Mark>, i: nat)
    requires WellFormed(undo) && i < |undo|
    ensures |Segs(undo[..i + 1])| == |Segs(undo[..i])| + if undo[i] == Sep then 1 else 0
  {
    hide Segs;
    assert undo[..i + 1] == undo[..i] + [undo[i]];
    SegsPush(undo[..i], undo[i]);
  }

  method CountSegments(undo: seq<Mark>) returns (promised: nat)
    requires WellFormed(undo)
    ensures promised == |Segs(undo)|
  {
    promised := 0;
    var i := 0;
    CountNone();
    hide Segs;
    while i < |undo|
      invariant 0 <= i <= |undo| && promised == |Segs(undo[..i])|
    {
      CountNext(undo, i);
      if undo[i] == Sep { promised := promised + 1; }
      i := i + 1;
    }
    assert undo[..i] == undo;
  }

  // Prints the literals up to the next separator.
  method WriteSegment(undo: seq<Mark>, start: nat) returns (text: string, i: nat)
    requires start <= |undo|
    ensures start <= i <= |undo| && (forall j :: start <= j < i ==> undo[j] != Sep) && (i < |undo| ==> undo[i] == Sep)
    ensures text == LineText(Cells(undo, start, i))
  {
    hide LitText;
    text, i := "", start;
    assert Cells(undo, start, i) == [];
    while i < |undo| && undo[i] != Sep
      invariant start <= i <= |undo| && forall j :: start <= j < i ==> undo[j] != Sep
      invariant text == Text(Cells(undo, start, i))
    {
      assert Cells(undo, start, i + 1)[..i - start] == Cells(undo, start, i);
      text := text + LitText(undo[i].lit) + " ";
      i := i + 1;
    }
    text := text + "0";
  }

  lemma ClauseLinesPush(cs: seq<Clause>, c: Clause)
    ensures ClauseLines(cs + [c]) == ClauseLines(cs) + [LineText(c)]
  {
    assert (cs + [c])[..|cs|] == cs;
  }

  method WriteSegments(undo: seq<Mark>) returns (lines: seq<string>)
    requires WellFormed(undo)
    ensures lines == ClauseLines(Written(undo))
  {
    hide LineText, ClauseLines, Segs, Written;
    lines := [];
    NothingWritten();
    if undo == [] { return; }
    var i := 1;
    assert undo[..0] == [];
    while i < |undo|
      invariant 1 <= i <= |undo| + 1 && (i <= |undo| ==> undo[i - 1] == Sep)
      invariant i == |undo| + 1 ==> undo[i - 2] != Sep
      invariant lines == ClauseLines(Segs(undo[..i - 1]))
    {
      var text, end := WriteSegment(undo, i);
      OneMoreLine(undo, i, end);
      lines := lines + [text];
      i := end + 1;
    }
    WrittenIs(undo, i - 1);
  }

  lemma NothingWritten()
    ensures ClauseLines(Segs([])) == [] && ClauseLines(Written([])) == []
  {
  }

  lemma OneMoreLine(undo: seq<Mark>, i: nat, end: nat)
    requires WellFormed(undo) && 1 <= i <= end <= |undo| && undo[i - 1] == Sep && forall j :: i <= j < end ==> undo[j] != Sep
    ensures ClauseLines(Segs(undo[..end])) == ClauseLines(Segs(undo[..i - 1])) + [LineText(Cells(undo, i, end))]
  {
    hide LineText, Segs;
    SegsLast(undo, i - 1, end);
    ClauseLinesPush(Segs(undo[..i - 1]), Cells(undo, i, end));
  }

  lemma WrittenIs(undo: seq<Mark>, n: nat)
    requires WellFormed(undo) && undo != [] && |undo| - 1 <= n <= |undo|
    requires n < |undo| <==> undo[|undo| - 1] == Sep
    ensures Segs(undo[..n]) == Written(undo)
  {
    assert undo[..|undo|] == undo;
    if n < |undo| {
      assert undo == undo[..n] + [Sep];
      SegsPush(undo[..n], Sep);
      DropLast(Segs(undo[..n]), []);
    }
  }

  // writeUndoInfo
  method WriteUndoInfo(undo: seq<Mark>, trail: seq<Lit>, formulaVariables: int, originalVariables: int)
    returns (lines: seq<string>)
    requires WellFormed(undo)
    ensures lines == FileOf(undo, trail,
      if originalVariables == -1 || formulaVariables < originalVariables then formulaVariables else originalVariables)
  {
    hide *;
    var promised := CountSegments(undo);
    var vars := if originalVariables == -1 || formulaVariables < originalVariables then formulaVariables else originalVariables;
    var clauses := WriteSegments(undo);
    clauses := WriteUnits(clauses, trail, Written(undo));
    lines := [Header(vars, promised + |trail|)] + clauses;
    FileIs(undo, trail, vars);
  }

  lemma FileIs(undo: seq<Mark>, trail: seq<Lit>, vars: int)
    requires WellFormed(undo)
    ensures FileOf(undo, trail, vars) == [Header(vars, |Segs(undo)| + |trail|)] + ClauseLines(Written(undo) + Units(trail))
  {
    hide Segs, Written, Header, ClauseLines, Units;
  }

  method WriteUnits(before: seq<string>, trail: seq<Lit>, ghost cs: seq<Clause>) returns (lines: seq<string>)
    requires before == ClauseLines(cs)
    ensures lines == ClauseLines(cs + Units(trail))
  {
    hide ClauseLines, LitText;
    lines := before;
    var i := 0;
    assert cs + Units(trail[..0]) == cs;
    while i < |trail|
      invariant 0 <= i <= |trail| && lines == ClauseLines(cs + Units(trail[..i]))
    {
      UnitsNext(trail, i, cs);
      UnitText(trail[i]);
      lines := lines + [LitText(trail[i]) + " 0"];
      i := i + 1;
    }
    assert trail[..i] == trail;
  }

  lemma UnitText(l: Lit)
    ensures LineText([l]) == LitText(l) + " 0"
  {
    hide LitText;
    assert [l][..0] == [];
    assert Text([l]) == LitText(l) + " ";
  }

  lemma UnitsNext(trail: seq<Lit>, i: nat, cs: seq<Clause>)
    requires i < |trail|
    ensures ClauseLines(cs + Units(trail[..i + 1])) == ClauseLines(cs + Units(trail[..i])) + [LineText([trail[i]])]
  {
    hide LineText;
    assert trail[..i + 1][..i] == trail[..i];
    assert cs + Units(trail[..i + 1]) == (cs + Units(trail[..i])) + [[trail[i]]];
    ClauseLinesPush(cs + Units(trail[..i]), [trail[i]]);
  }

  // ---------- reading back what was written ----------

  // The pivot of a clause is read back first, and once.
  function Normal(segs: seq<Clause>): (r: seq<Clause>)
    requires [] !in segs
    ensures |r| == |segs| && forall i :: 0 <= i < |segs| ==> r[i] == PivotFirst(segs[i], segs[i][0])
  {
    seq(|segs|, i requires 0 <= i < |segs| => PivotFirst(segs[i], segs[i][0]))
  }

  lemma HeaderRead(r: Reading, vars: int, promised: nat)
    ensures ReadLine(r, Header(vars, promised)) == r.(found := true, vars := vars, promised := promised)
  {
    hide IntText, Decimal, Extract;
    var line := Header(vars, promised);
    assert line == "p cnf" + (" " + IntText(vars) + (" " + Decimal(promised)));
    assert line[..5] == "p cnf" && line[5..] == " " + IntText(vars) + (" " + Decimal(promised));
    ExtractPrinted(vars, " " + Decimal(promised));
    IntTextNat(promised);
    assert " " + Decimal(promised) == " " + IntText(promised) + "";
    ExtractPrinted(promised, "");
  }

  lemma IntTextNat(n: nat)
    ensures IntText(n) == Decimal(n)
  {
  }

  lemma ClauseRead(r: Reading, c: Clause)
    ensures c == [] ==> ReadLine(r, LineText(c)) == r.(parsed := r.parsed + 1, bad := true)
    ensures c != [] ==>
      ReadLine(r, LineText(c)) == r.(parsed := r.parsed + 1, undo := r.undo + [Sep] + Marks(PivotFirst(c, c[0])))
  {
    hide LineText, ParsedLine, PivotFirst, Marks;
    LineRoundTrip(c);
    LineStart(c);
  }

  lemma LineStart(c: Clause)
    ensures !IsHeader(LineText(c)) && !IsComment(LineText(c))
  {
    if c != [] {
      TextFirst(c);
      hide Decimal, Text;
      var d := Decimal(c[0].v + 1);
      DigitFacts(d);
      assert LineText(c)[0] == LitText(c[0])[0];
      assert LineText(c)[0] != 'p';
    }
  }

  // The clauses cs have been read since r.
  ghost predicate HasRead(r: Reading, cs: seq<Clause>, now: Reading) {
    && now.parsed == r.parsed + |cs| && now.found == r.found && now.vars == r.vars && now.promised == r.promised
    && now.bad == (r.bad || [] in cs) && WellFormed(r.undo) && WellFormed(now.undo)
    && ([] !in cs ==> Segs(now.undo) == Segs(r.undo) + Normal(cs))
  }

  lemma ReadNext(r: Reading, front: seq<Clause>, now: Reading, c: Clause)
    requires HasRead(r, front, now)
    ensures HasRead(r, front + [c], ReadLine(now, LineText(c)))
  {
    hide ReadLine, LineText, PivotFirst, Segs;
    ClauseRead(now, c);
    assert [] in front + [c] <==> [] in front || c == [];
    if c != [] {
      SegsAppend(now.undo, PivotFirst(c, c[0]));
      if [] !in front {
        assert Normal(front + [c]) == Normal(front) + [PivotFirst(c, c[0])];
      }
    }
  }

  lemma NothingRead(r: Reading)
    requires WellFormed(r.undo)
    ensures HasRead(r, [], ReadAll(r, ClauseLines([])))
  {
    assert Segs(r.undo) + Normal([]) == Segs(r.undo);
  }

  lemma {:induction false} ClausesRead(r: Reading, cs: seq<Clause>)
    requires WellFormed(r.undo)
    ensures HasRead(r, cs, ReadAll(r, ClauseLines(cs)))
  {
    hide HasRead, LineText, ReadLine, ReadAll, ClauseLines;
    if cs == [] {
      NothingRead(r);
    } else {
      var front, c := cs[..|cs| - 1], cs[|cs| - 1];
      ClausesRead(r, front);
      assert cs == front + [c];
      LastLine(r, front, c);
      ReadNext(r, front, ReadAll(r, ClauseLines(front)), c);
    }
  }

  lemma LastLine(r: Reading, front: seq<Clause>, c: Clause)
    ensures ReadAll(r, ClauseLines(front + [c])) == ReadLine(ReadAll(r, ClauseLines(front)), LineText(c))
  {
    hide LineText;
    ClauseLinesPush(front, c);
    DropLast(ClauseLines(front), LineText(c));
  }

  lemma {:induction false} FirstLine(r: Reading, line: string, lines: seq<string>)
    ensures ReadAll(r, [line] + lines) == ReadAll(ReadLine(r, line), lines)
  {
    hide ReadLine;
    if lines == [] {
      assert [line][..0] == [];
    } else {
      FirstLine(r, line, lines[..|lines| - 1]);
      assert ([line] + lines)[..|lines|] == [line] + lines[..|lines| - 1];
    }
  }

  // Apart from the last one, no clause is empty; or no two separators are neighbours.
  ghost predicate InnerFilled(segs: seq<Clause>) {
    forall k :: 0 <= k < |segs| - 1 ==> segs[k] != []
  }

  ghost predicate NoTwoSeps(u: seq<Mark>) {
    forall i :: 0 < i < |u| ==> !(u[i - 1] == Sep == u[i])
  }

  lemma {:induction false} SegmentsOf(u: seq<Mark>)
    requires WellFormed(u)
    ensures InnerFilled(Segs(u)) <==> NoTwoSeps(u)
    ensures u != [] ==> (Segs(u)[|Segs(u)| - 1] == [] <==> u[|u| - 1] == Sep)
  {
    hide InnerFilled, NoTwoSeps;
    if u == [] {
      NothingMarked();
    } else {
      var n := |u| - 1;
      SegmentsOf(u[..n]);
      NextMark(Segs(u[..n]), u[..n], u[n]);
      assert u[..n] + [u[n]] == u;
    }
  }

  lemma NothingMarked()
    ensures InnerFilled([]) && NoTwoSeps([])
  {
  }

  lemma NextMark(segs: seq<Clause>, u: seq<Mark>, k: Mark)
    requires InnerFilled(segs) <==> NoTwoSeps(u)
    requires if u == [] then segs == [] && k == Sep else segs != [] && (segs[|segs| - 1] == [] <==> u[|u| - 1] == Sep)
    ensures InnerFilled(Push(segs, k)) <==> NoTwoSeps(u + [k])
    ensures Push(segs, k)[|Push(segs, k)| - 1] == [] <==> k == Sep
  {
    var s, v := Push(segs, k), u + [k];
    assert NoTwoSeps(v) ==> NoTwoSeps(u) by {
      if NoTwoSeps(v) {
        forall i | 0 < i < |u| ensures !(u[i - 1] == Sep == u[i]) { assert v[i - 1] == u[i - 1] && v[i] == u[i]; }
      }
    }
    if k == Sep && u != [] {
      assert v[|u| - 1] == u[|u| - 1] && v[|u|] == Sep;
      assert s[|segs| - 1] == segs[|segs| - 1];
    }
    assert forall j :: 0 <= j < |segs| - 1 ==> s[j] == segs[j];
  }

  lemma FilledIs(u: seq<Mark>)
    requires WellFormed(u)
    ensures NoEmptySegment(u) <==> [] !in Segs(u)
  {
    SegmentsOf(u);
    if u != [] {
      var segs := Segs(u);
      assert [] in segs <==> !InnerFilled(segs) || segs[|segs| - 1] == [];
      if NoEmptySegment(u) {
        forall i | 0 < i < |u| ensures !(u[i - 1] == Sep == u[i]) {}
      }
      if NoTwoSeps(u) && u[|u| - 1] != Sep {
        forall i | 0 <= i < |u| && u[i] == Sep ensures i + 1 < |u| && u[i + 1] != Sep {
          assert i + 1 < |u| ==> !(u[i + 1 - 1] == Sep == u[i + 1]);
        }
      }
    }
  }

  // ---------- the round trip ----------

  ghost predicate Restored(undo: seq<Mark>, trail: seq<Lit>, vars: int, undo0: seq<Mark>, r: Reading)
    requires WellFormed(undo) && WellFormed(undo0)
  {
    && r.vars == vars && WellFormed(r.undo) && [] !in Segs(undo)
    && Segs(r.undo) == Segs(undo0) + Normal(Segs(undo)) + Units(trail)
  }

  // Reading what was written succeeds exactly if no clause on the stack is empty; the
  // clauses come back, followed by the units.
  lemma RoundTrip(undo: seq<Mark>, trail: seq<Lit>, vars: int, undo0: seq<Mark>, vars0: int)
    requires WellFormed(undo) && WellFormed(undo0)
    ensures Accepted(ReadAll(Start(undo0, vars0), FileOf(undo, trail, vars))) <==> NoEmptySegment(undo)
    ensures NoEmptySegment(undo) ==> Restored(undo, trail, vars, undo0, ReadAll(Start(undo0, vars0), FileOf(undo, trail, vars)))
  {
    hide ReadAll, FileOf, Segs, Normal, Units, NoEmptySegment;
    var now := ReadAll(Start(undo0, vars0), FileOf(undo, trail, vars));
    FileRead(undo, trail, vars, undo0, vars0);
    WrittenFilled(undo, trail);
    if NoEmptySegment(undo) { NormalUnits(Segs(undo), trail); }
  }

  lemma FileRead(undo: seq<Mark>, trail: seq<Lit>, vars: int, undo0: seq<Mark>, vars0: int)
    requires WellFormed(undo) && WellFormed(undo0)
    ensures HasRead(Reading(true, vars, |Segs(undo)| + |trail|, 0, undo0, false), Written(undo) + Units(trail),
      ReadAll(Start(undo0, vars0), FileOf(undo, trail, vars)))
  {
    hide ReadLine, ReadAll, Header, ClauseLines, Segs, HasRead, Written, Units;
    var cs := Written(undo) + Units(trail);
    var line := Header(vars, |Segs(undo)| + |trail|);
    FirstLine(Start(undo0, vars0), line, ClauseLines(cs));
    HeaderRead(Start(undo0, vars0), vars, |Segs(undo)| + |trail|);
    ClausesRead(ReadLine(Start(undo0, vars0), line), cs);
  }

  // All promised clauses are written, and none is empty, exactly if the stack has no
  // empty clause.
  lemma WrittenFilled(undo: seq<Mark>, trail: seq<Lit>)
    requires WellFormed(undo)
    ensures |Units(trail)| == |trail|
    ensures NoEmptySegment(undo) <==> |Written(undo)| == |Segs(undo)| && [] !in Written(undo) + Units(trail)
    ensures NoEmptySegment(undo) ==> Written(undo) == Segs(undo) && [] !in Segs(undo)
  {
    hide Segs, NoEmptySegment;
    FilledIs(undo);
    SegmentsOf(undo);
    UnitsFilled(trail);
  }

  lemma {:induction false} UnitsFilled(trail: seq<Lit>)
    ensures [] !in Units(trail)
    ensures forall i :: 0 <= i < |trail| ==> Units(trail)[i] == [trail[i]]
  {
    if trail != [] { UnitsFilled(trail[..|trail| - 1]); }
  }

  lemma NormalUnits(segs: seq<Clause>, trail: seq<Lit>)
    requires [] !in segs
    ensures [] !in segs + Units(trail) && Normal(segs + Units(trail)) == Normal(segs) + Units(trail)
  {
    UnitsFilled(trail);
    forall i | 0 <= i < |trail| ensures PivotFirst(Units(trail)[i], Units(trail)[i][0]) == Units(trail)[i] {
      NormalSame([trail[i]]);
    }
  }

  // A clause whose first literal is not repeated comes back unchanged.
  lemma {:induction false} NormalSame(c: Clause)
    requires c != [] && c[0] !in c[1..]
    ensures PivotFirst(c, c[0]) == c
  {
    WithoutNone(c[1..], c[0]);
  }

  lemma {:induction false} WithoutNone(c: Clause, p: Lit)
    requires p !in c
    ensures Without(c, p) == c
  {
    if c != [] { WithoutNone(c[1..], p); }
  }

  // The clauses that come back repair a model as the written ones do.
  lemma {:induction false} NormalExtends(segs: seq<Clause>, m: Model)
    requires [] !in segs
    ensures Extend(Normal(segs), m) == Extend(segs, m)
  {
    if segs != [] {
      var n := |segs| - 1;
      assert Normal(segs)[..n] == Normal(segs[..n]);
      SameRepair(segs[n], m);
      NormalExtends(segs[..n], Repair(segs[n], m));
    }
  }

  lemma SameRepair(c: Clause, m: Model)
    requires c != []
    ensures Repair(PivotFirst(c, c[0]), m) == Repair(c, m)
  {
    var k := PivotFirst(c, c[0]);
    assert SatClause(m, k) <==> SatClause(m, c) by {
      if SatClause(m, k) { var l :| l in k && Holds(m, l); assert l in c; }
      if SatClause(m, c) { var l :| l in c && Holds(m, l); assert l in k; }
    }
  }

  lemma NormalFilled(segs: seq<Clause>)
    requires [] !in segs
    ensures [] !in Normal(segs)
  {
    forall i | 0 <= i < |segs| ensures Normal(segs)[i] != [] {
      assert segs[i] in segs;
    }
  }

  lemma SegsOfNothing()
    ensures WellFormed([]) && Segs([]) == []
  {
  }

  // What a post-processor makes of a model: first the units, then the repair clauses.
  lemma RoundTripExtends(undo: seq<Mark>, trail: seq<Lit>, vars: int, m: Model)
    requires WellFormed(undo) && NoEmptySegment(undo)
    ensures var r := ReadAll(Start([], 0), FileOf(undo, trail, vars));
      && WellFormed(r.undo) && NoEmptySegment(r.undo)
      && Extend(Segs(r.undo), m) == Extend(Segs(undo), Extend(Units(trail), m))
  {
    hide ReadAll, FileOf, Extend, Normal, Units, NoEmptySegment;
    RoundTrip(undo, trail, vars, [], 0);
    UnitsFilled(trail);
    NormalFilled(Segs(undo));
    SegsOfNothing();
    FilledIs(ReadAll(Start([], 0), FileOf(undo, trail, vars)).undo);
    assert Segs([]) + Normal(Segs(undo)) == Normal(Segs(undo));
    ExtendConcat(Normal(Segs(undo)), Units(trail), m);
    NormalExtends(Segs(undo), Extend(Units(trail), m));
  }
}
