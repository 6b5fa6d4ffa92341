/** The text CanonicalDigest hashes: one line a measurement, sorted and joined. */
module Digest {
  import opened Common
  import opened Sorting
  import opened Sequences
  import opened Reconciliation
  import opened Words

  /** What a line records of a measurement; the source is not part of it, and of
      the instant only its nanoseconds in 64 bits. */
  datatype Fact = Fact(lotId: string, material: Material, expected: int, actual: int, unit: Unit, at: Word)

  function FactOf(m: Measurement): Fact { Fact(m.lotId, m.material, m.expected, m.actual, m.unit, Wrap(m.at)) }

  function Facts(ms: seq<Measurement>): seq<Fact> { Image(FactOf, ms) }

  function MaterialName(m: Material): string {
    match m
    case Lithium => "lithium"
    case Nickel => "nickel"
    case Cobalt => "cobalt"
    case Copper => "copper"
    case Aluminum => "aluminum"
    case Unsupported(name) => name
  }

  function UnitName(u: Unit): string {
    match u
    case G => "g"
    case Kg => "kg"
    case OtherUnit(name) => name
  }

  function Digits(n: nat): string {
    if n < 10 then ['0' + n as char] else Digits(n / 10) + ['0' + (n % 10) as char]
  }

  function Decimal(n: int): string { if n < 0 then "-" + Digits(-n) else Digits(n) }

  const BAR := "|"
  const NEWLINE := "\n"

  function Line(f: Fact): string {
    Line4(f) + BAR + Decimal(f.at)
  }

  // Its beginnings, up to each bar.
  function Line1(f: Fact): string { f.lotId + BAR + MaterialName(f.material) }
  function Line2(f: Fact): string { Line1(f) + BAR + Decimal(f.expected) }
  function Line3(f: Fact): string { Line2(f) + BAR + Decimal(f.actual) }
  function Line4(f: Fact): string { Line3(f) + BAR + UnitName(f.unit) }

  function Lines(fs: seq<Fact>): seq<string> { Image(Line, fs) }

  function Join(parts: seq<string>): string {
    if parts == [] then "" else if |parts| == 1 then parts[0] else parts[0] + NEWLINE + Join(parts[1..])
  }

  function Text(fs: seq<Fact>): string { Join(StableSort(StringLe, Lines(fs))) }

  method CanonicalText(r: Report) returns (text: string)
    ensures text == Text(Facts(r.measurements))
  {
    var parts: seq<string> := [];
    for i := 0 to |r.measurements|
      invariant |parts| == i && forall j | 0 <= j < i :: parts[j] == Line(FactOf(r.measurements[j]))
    {
      parts := parts + [Line(FactOf(r.measurements[i]))];
    }
    assert parts == Lines(Facts(r.measurements));
    parts := SortStable(StringLe, parts);
    text := Join(parts);
  }

  // ------------------------------------------------------------- numbers

  function Value(s: string): nat
    requires forall i | 0 <= i < |s| :: '0' <= s[i] <= '9'
  {
    if s == "" then 0 else 10 * Value(s[..|s| - 1]) + (s[|s| - 1] as int - '0' as int)
  }

  lemma {:induction false} DigitsRead(n: nat)
    ensures Digits(n) != "" && (forall i | 0 <= i < |Digits(n)| :: '0' <= Digits(n)[i] <= '9')
    ensures Value(Digits(n)) == n && (|Digits(n)| > 1 ==> Digits(n)[0] != '0')
  {
    if n >= 10 {
      DigitsRead(n / 10);
      assert Digits(n)[..|Digits(n)| - 1] == Digits(n / 10);
    }
  }

  lemma DecimalShape(n: int)
    ensures Decimal(n) != "" && (Decimal(n)[0] == '-' <==> n < 0)
    ensures forall i | 0 <= i < |Decimal(n)| :: Decimal(n)[i] == '-' || '0' <= Decimal(n)[i] <= '9'
    ensures n < 0 ==> Decimal(n)[1..] == Digits(-n)
  {
    DigitsRead(Abs(n));
  }

  lemma DecimalRead(m: int, n: int)
    ensures Decimal(m) != "" && (forall i | 0 <= i < |Decimal(m)| :: Decimal(m)[i] == '-' || '0' <= Decimal(m)[i] <= '9')
    ensures Decimal(m) == Decimal(n) ==> m == n
  {
    DecimalShape(m);
    DecimalShape(n);
    if Decimal(m) == Decimal(n) {
      SameDigits(Abs(m), Abs(n));
    }
  }

  lemma SameDigits(m: nat, n: nat)
    ensures Digits(m) == Digits(n) ==> m == n
  {
    DigitsRead(m);
    DigitsRead(n);
  }

  /** A printed number is a sign, if negative, and its decimal digits. */
  lemma DecimalMeans(n: int)
    ensures n >= 0 ==> Decimal(n) == Digits(n)
    ensures n < 0 ==> Decimal(n) == "-" + Digits(-n)
  {
  }

  /** A line, field by field. */
  lemma LineMeans(m: Measurement)
    requires m.Valid()
    ensures Line(FactOf(m)) ==
      m.lotId + "|"
      + (match m.material
         case Lithium => "lithium"
         case Nickel => "nickel"
         case Cobalt => "cobalt"
         case Copper => "copper"
         case Aluminum => "aluminum"
         case Unsupported(name) => name)
      + "|" + Decimal(m.expected) + "|" + Decimal(m.actual) + "|" + (if m.unit == Kg then "kg" else "g")
      + "|" + Decimal(Wrap(m.at))
  {
  }

  /** Lines are joined by line breaks, with none at the end. */
  lemma JoinMeans(first: string, rest: seq<string>)
    ensures Join([]) == ""
    ensures Join([first] + rest) == if rest == [] then first else first + "\n" + Join(rest)
  {
    assert ([first] + rest)[1..] == rest;
  }

  lemma TextOfPair(f: Fact, g: Fact)
    requires StringLe(Line(f), Line(g))
    ensures Text([g, f]) == Line(f) + "\n" + Line(g)
  {
    JoinSorted(Line(f), Line(g));
    assert Lines([f, g]) == [Line(f), Line(g)];
    assert multiset([f, g]) == multiset([g, f]);
    TextIgnoresOrder([f, g], [g, f]);
  }

  lemma FactsOfPair(m: Measurement, n: Measurement)
    ensures Facts([m, n]) == [FactOf(m), FactOf(n)]
  {
  }

  /** A whole text: two measurements, given in the other order. */
  lemma TextSpelled(m: Measurement, n: Measurement)
    requires m == Measurement("LOT-1", Lithium, 950, 0, G, -7, "lab")
    requires n == Measurement("LOT-2", Nickel, 12, 11, Kg, 100, "scale")
    ensures Text(Facts([n, m])) == "LOT-1|lithium|950|0|g|-7" + "\n" + "LOT-2|nickel|12|11|kg|100"
  {
    FirstSpelled(FactOf(m));
    SecondSpelled(FactOf(n));
    FirstComesFirst();
    SpelledPair(m, n, "LOT-1|lithium|950|0|g|-7", "LOT-2|nickel|12|11|kg|100");
  }

  lemma SpelledPair(m: Measurement, n: Measurement, x: string, y: string)
    requires Line(FactOf(m)) == x && Line(FactOf(n)) == y && StringLe(x, y)
    ensures Text(Facts([n, m])) == x + "\n" + y
  {
    TextOfPair(FactOf(m), FactOf(n));
    FactsOfPair(n, m);
  }

  lemma FirstComesFirst()
    ensures StringLe("LOT-1|lithium|950|0|g|-7", "LOT-2|nickel|12|11|kg|100")
  {
    var x, y := "LOT-1|lithium|950|0|g|-7", "LOT-2|nickel|12|11|kg|100";
    assert x[..4] == y[..4] && x[4] < y[4];
    StringLeMeans(x, y);
  }

  lemma FirstSpelled(f: Fact)
    requires f == Fact("LOT-1", Lithium, 950, 0, G, -7)
    ensures Line(f) == "LOT-1|lithium|950|0|g|-7"
  {
    assert Digits(950) == Digits(95) + "0" && Digits(95) == Digits(9) + "5" && Digits(9) == "9";
  }

  lemma SecondSpelled(g: Fact)
    requires g == Fact("LOT-2", Nickel, 12, 11, Kg, 100)
    ensures Line(g) == "LOT-2|nickel|12|11|kg|100"
  {
    assert Digits(12) == Digits(1) + "2" && Digits(11) == Digits(1) + "1" && Digits(1) == "1";
    assert Digits(100) == Digits(10) + "0" && Digits(10) == Digits(1) + "0";
  }

  // ------------------------------------------------------------- separators

  predicate Free(s: string, c: char) { forall i | 0 <= i < |s| :: s[i] != c }

  /** Nothing after a separator and a separator-free field is a separator. */
  lemma LastSeparator(a: string, x: string, sep: string)
    requires |sep| == 1 && Free(x, sep[0])
    ensures (a + sep + x)[|a|] == sep[0]
    ensures forall j | |a| < j < |a + sep + x| :: (a + sep + x)[j] != sep[0]
  {
  }

  /** The last field can be cut off at the last separator. */
  lemma CutLast(a: string, x: string, b: string, y: string, sep: string)
    requires |sep| == 1 && Free(x, sep[0]) && Free(y, sep[0]) && a + sep + x == b + sep + y
    ensures a == b && x == y
  {
    var s, t := a + sep + x, b + sep + y;
    LastSeparator(a, x, sep);
    LastSeparator(b, y, sep);
    assert |a| == |b|;
    assert s[..|a|] == a && t[..|b|] == b && s[|a| + 1..] == x && t[|b| + 1..] == y;
  }

  /** The first field can be cut off at the first separator. */
  lemma CutFirst(x: string, a: string, y: string, b: string, sep: string)
    requires |sep| == 1 && Free(x, sep[0]) && Free(y, sep[0]) && x + sep + a == y + sep + b
    ensures x == y && a == b
  {
    var s, t := x + sep + a, y + sep + b;
    assert s[|x|] == sep[0] && t[|y|] == sep[0];
    assert (forall j | 0 <= j < |x| :: s[j] == x[j]) && (forall j | 0 <= j < |y| :: t[j] == y[j]);
    assert |x| == |y|;
    assert s[..|x|] == x && t[..|y|] == y && s[|x| + 1..] == a && t[|y| + 1..] == b;
  }

  /** A fact of an accepted measurement whose lot id has no line break. */
  predicate Plain(f: Fact) { f.material.Valid() && !f.unit.OtherUnit? && Free(f.lotId, '\n') }

  /** A line gives back its fact, even when the lot id contains bars. */
  lemma LineInjective(f: Fact, g: Fact)
    requires f.material.Valid() && g.material.Valid() && !f.unit.OtherUnit? && !g.unit.OtherUnit?
    requires Line(f) == Line(g)
    ensures f == g
  {
    CutDecimal(Line4(f), f.at, Line4(g), g.at);
    CutUnit(f, g);
    CutDecimal(Line2(f), f.actual, Line2(g), g.actual);
    CutDecimal(Line1(f), f.expected, Line1(g), g.expected);
    CutMaterial(f, g);
  }

  /** A number at the end can be cut off at the last bar. */
  lemma CutDecimal(a: string, m: int, b: string, n: int)
    requires a + BAR + Decimal(m) == b + BAR + Decimal(n)
    ensures a == b && m == n
  {
    DecimalRead(m, n);
    DecimalRead(n, m);
    CutLast(a, Decimal(m), b, Decimal(n), BAR);
  }

  lemma CutUnit(f: Fact, g: Fact)
    requires !f.unit.OtherUnit? && !g.unit.OtherUnit? && Line4(f) == Line4(g)
    ensures Line3(f) == Line3(g) && f.unit == g.unit
  {
    CutLast(Line3(f), UnitName(f.unit), Line3(g), UnitName(g.unit), BAR);
  }

  lemma CutMaterial(f: Fact, g: Fact)
    requires f.material.Valid() && g.material.Valid() && Line1(f) == Line1(g)
    ensures f.lotId == g.lotId && f.material == g.material
  {
    CutLast(f.lotId, MaterialName(f.material), g.lotId, MaterialName(g.material), BAR);
  }

  lemma LinePlain(f: Fact)
    requires Plain(f)
    ensures Line(f) != "" && Free(Line(f), '\n')
  {
    DecimalRead(f.at, 0);
    DecimalRead(f.actual, 0);
    DecimalRead(f.expected, 0);
    assert Free(MaterialName(f.material), '\n') && Free(UnitName(f.unit), '\n') && Free(BAR, '\n');
    FreeConcat(f.lotId, BAR);
    FreeConcat(f.lotId + BAR, MaterialName(f.material));
    FreeConcat(Line1(f), BAR);
    FreeConcat(Line1(f) + BAR, Decimal(f.expected));
    FreeConcat(Line2(f), BAR);
    FreeConcat(Line2(f) + BAR, Decimal(f.actual));
    FreeConcat(Line3(f), BAR);
    FreeConcat(Line3(f) + BAR, UnitName(f.unit));
    FreeConcat(Line4(f), BAR);
    FreeConcat(Line4(f) + BAR, Decimal(f.at));
  }

  lemma FreeConcat(a: string, b: string)
    requires Free(a, '\n') && Free(b, '\n')
    ensures Free(a + b, '\n')
  {
  }

  ghost predicate PlainLines(a: seq<string>) {
    forall i | 0 <= i < |a| :: a[i] != "" && Free(a[i], '\n')
  }

  lemma JoinShape(a: seq<string>)
    requires PlainLines(a)
    ensures Join(a) == "" <==> a == []
    ensures Free(Join(a), '\n') <==> |a| <= 1
  {
    if |a| > 1 {
      assert Join(a)[|a[0]|] == '\n';
    }
  }

  lemma {:induction false} JoinInjective(a: seq<string>, b: seq<string>)
    requires PlainLines(a) && PlainLines(b) && Join(a) == Join(b)
    ensures a == b
  {
    JoinShape(a);
    JoinShape(b);
    if |a| > 1 {
      CutFirst(a[0], Join(a[1..]), b[0], Join(b[1..]), NEWLINE);
      JoinInjective(a[1..], b[1..]);
      assert a == [a[0]] + a[1..] && b == [b[0]] + b[1..];
    }
  }

  // ------------------------------------------------------------- the theorems

  ghost predicate AllPlain(fs: seq<Fact>) {
    forall i | 0 <= i < |fs| :: Plain(fs[i])
  }

  /** The digested text depends only on the multiset of facts. */
  lemma TextIgnoresOrder(a: seq<Fact>, b: seq<Fact>)
    requires multiset(a) == multiset(b)
    ensures Text(a) == Text(b)
  {
    SameElementsSameImage(Line, a, b);
    StringPreorder();
    StableSortCorrect(StringLe, Lines(a));
    StableSortCorrect(StringLe, Lines(b));
    SortedStringsUnique(StableSort(StringLe, Lines(a)), StableSort(StringLe, Lines(b)));
  }

  lemma SortedLinesPlain(fs: seq<Fact>)
    requires AllPlain(fs)
    ensures PlainLines(StableSort(StringLe, Lines(fs)))
    ensures multiset(StableSort(StringLe, Lines(fs))) == multiset(Lines(fs))
  {
    StringPreorder();
    StableSortCorrect(StringLe, Lines(fs));
    var out := StableSort(StringLe, Lines(fs));
    forall i | 0 <= i < |out| ensures out[i] != "" && Free(out[i], '\n') {
      assert out[i] in multiset(Lines(fs));
      var j :| 0 <= j < |fs| && Lines(fs)[j] == out[i];
      LinePlain(fs[j]);
    }
  }

  /** For lot ids without line breaks, bars or not, two reports digest the same
      text exactly when they hold the same measurement facts. */
  lemma TextIffSameFacts(a: seq<Fact>, b: seq<Fact>)
    requires AllPlain(a) && AllPlain(b)
    ensures Text(a) == Text(b) <==> multiset(a) == multiset(b)
  {
    if multiset(a) == multiset(b) {
      TextIgnoresOrder(a, b);
    }
    if Text(a) == Text(b) {
      SortedLinesPlain(a);
      SortedLinesPlain(b);
      JoinInjective(StableSort(StringLe, Lines(a)), StableSort(StringLe, Lines(b)));
      forall i, j | 0 <= i < |a| && 0 <= j < |b| ensures Line(a[i]) == Line(b[j]) ==> a[i] == b[j] {
        if Line(a[i]) == Line(b[j]) {
          LineInjective(a[i], b[j]);
        }
      }
      SameImageSameElements(Line, a, b);
    }
  }

  /** The measurement without what no line records. */
  function Unsourced(m: Measurement): Measurement { m.(source := "") }

  /** Two measurements are recorded alike exactly when they differ at most in their
      source and by a multiple of 2^64 nanoseconds in their instant. */
  lemma RecordedAlikeIff(m: Measurement, n: Measurement)
    ensures FactOf(m) == FactOf(n) <==>
      Unsourced(m) == Unsourced(n.(at := m.at)) && exists k :: m.at == n.at + k * WORD
  {
    WrapSameIff(m.at, n.at);
  }

  /** For lot ids without line breaks and instants from the years a 64-bit clock
      covers, two lists of measurements digest alike exactly when they are the same
      up to order and sources. */
  lemma TextIffSameMeasurements(a: seq<Measurement>, b: seq<Measurement>)
    requires forall m | m in a + b :: m.Valid() && Free(m.lotId, '\n') && Is64(m.at)
    ensures Text(Facts(a)) == Text(Facts(b)) <==> multiset(Image(Unsourced, a)) == multiset(Image(Unsourced, b))
  {
    var ua, ub := Image(Unsourced, a), Image(Unsourced, b);
    FactsPlain(a);
    FactsPlain(b);
    TextIffSameFacts(Facts(a), Facts(b));
    assert Facts(ua) == Facts(a) && Facts(ub) == Facts(b);
    if multiset(ua) == multiset(ub) {
      SameElementsSameImage(FactOf, ua, ub);
    }
    if multiset(Facts(a)) == multiset(Facts(b)) {
      forall i, j | 0 <= i < |ua| && 0 <= j < |ub| ensures FactOf(ua[i]) == FactOf(ub[j]) ==> ua[i] == ub[j] {
        assert a[i] in a + b && b[j] in a + b;
        WrapExact(a[i].at);
        WrapExact(b[j].at);
      }
      SameImageSameElements(FactOf, ua, ub);
    }
  }

  lemma FactsPlain(ms: seq<Measurement>)
    requires forall m | m in ms :: m.Valid() && Free(m.lotId, '\n')
    ensures AllPlain(Facts(ms))
  {
    forall i | 0 <= i < |ms| ensures Plain(Facts(ms)[i]) {
      assert ms[i] in ms;
    }
  }

  /** The second fact with the whole first line, and a line break, before its lot id. */
  function Swallowing(f: Fact, g: Fact): Fact { g.(lotId := Line(f) + NEWLINE + g.lotId) }

  lemma LineOfSwallowing(f: Fact, g: Fact)
    ensures Line(Swallowing(f, g)) == Line(f) + NEWLINE + Line(g)
  {
    var h, p := Swallowing(f, g), Line(f) + NEWLINE;
    Prefixed(p, g.lotId, MaterialName(g.material));
    Prefixed(p, Line1(g), Decimal(g.expected));
    Prefixed(p, Line2(g), Decimal(g.actual));
    Prefixed(p, Line3(g), UnitName(g.unit));
    Prefixed(p, Line4(g), Decimal(g.at));
  }

  lemma Prefixed(p: string, a: string, b: string)
    ensures (p + a) + BAR + b == p + (a + BAR + b)
  {
  }

  /** For any two facts, those two and one whose lot id swallows the first digest alike. */
  lemma LineBreakCollides(f: Fact, g: Fact)
    requires StringLe(Line(f), Line(g))
    ensures Text([f, g]) == Text([Swallowing(f, g)]) == Line(Swallowing(f, g))
  {
    var h := Swallowing(f, g);
    LineOfSwallowing(f, g);
    JoinSorted(Line(f), Line(g));
    assert Lines([f, g]) == [Line(f), Line(g)];
    TextOfOne(h);
  }

  lemma TextOfOne(h: Fact)
    ensures Text([h]) == Line(h)
  {
    assert Lines([h]) == [Line(h)];
    JoinSorted(Line(h), Line(h));
  }

  lemma JoinSorted(x: string, y: string)
    requires StringLe(x, y) || x == y
    ensures Join(StableSort(StringLe, [x])) == x
    ensures Join(StableSort(StringLe, [x, y])) == x + NEWLINE + y
  {
    StringLeTotal(x, x);
    assert [x][..0] == [] && [x, y][..1] == [x] && [x, y][1..] == [y];
    assert StableSort(StringLe, []) == [];
    assert StableSort(StringLe, [x]) == [x];
    assert StableSort(StringLe, [x, y]) == Insert(StringLe, y, [x]) == [x, y];
  }

  // ------------------------------------------------- when a text is ambiguous, exactly

  /** What an accepted measurement records, lot ids with line breaks included. */
  predicate Proper(f: Fact) {
    !Blank(f.lotId) && f.material.Valid() && f.expected >= 0 && f.actual >= 0 && !f.unit.OtherUnit?
  }

  lemma ProperIff(f: Fact)
    ensures Proper(f) <==> exists m: Measurement :: m.Valid() && FactOf(m) == f
  {
    var m := Measurement(f.lotId, f.material, f.expected, f.actual, f.unit, f.at, "s");
    WrapExact(f.at);
    assert !Space(m.source[0]);
    assert FactOf(m) == f;
  }

  ghost predicate AllProper(fs: seq<Fact>) {
    forall i | 0 <= i < |fs| :: Proper(fs[i])
  }

  /** Other facts of accepted measurements with the same text. */
  ghost predicate Collides(fs: seq<Fact>, gs: seq<Fact>) {
    AllProper(gs) && multiset(gs) != multiset(fs) && Text(gs) == Text(fs)
  }

  ghost predicate IsLine(s: string) { exists f :: Proper(f) && Line(f) == s }

  /** The lot id holds a whole line before one of its line breaks, sorted before
      the fact that remains behind it. */
  ghost predicate HidesLine(h: Fact) {
    exists i | 0 <= i < |h.lotId| ::
      && h.lotId[i] == '\n' && IsLine(h.lotId[..i]) && !Blank(h.lotId[i + 1..])
      && StringLe(h.lotId[..i], Line(h.(lotId := h.lotId[i + 1..])))
  }

  lemma BlankPrefix(a: string, b: string)
    requires Blank(a + b)
    ensures Blank(a)
  {
    forall i | 0 <= i < |a| ensures Space(a[i]) {
      assert (a + b)[i] == a[i];
    }
  }

  lemma SwallowingProper(f: Fact, g: Fact)
    requires Proper(f) && Proper(g)
    ensures Proper(Swallowing(f, g))
  {
    var rest := Line(f)[|f.lotId|..];
    assert Line(f) == f.lotId + rest;
    if Blank(Swallowing(f, g).lotId) {
      BlankPrefix(Line(f) + NEWLINE, g.lotId);
      BlankPrefix(Line(f), NEWLINE);
      BlankPrefix(f.lotId, rest);
    }
  }

  ghost predicate AllLines(lines: seq<string>) {
    forall i | 0 <= i < |lines| :: IsLine(lines[i])
  }

  /** Joined lines are the line of one fact, which swallows all but the last. */
  lemma {:induction false} JoinIsLine(lines: seq<string>) returns (h: Fact)
    requires lines != [] && AllLines(lines)
    ensures Proper(h) && Line(h) == Join(lines)
  {
    var f := FactOfLine(lines[0]);
    if |lines| == 1 {
      h := f;
    } else {
      var g := JoinIsLine(lines[1..]);
      SwallowingProper(f, g);
      LineOfSwallowing(f, g);
      h := Swallowing(f, g);
    }
  }

  lemma SortedLines(fs: seq<Fact>) returns (lines: seq<string>)
    requires AllProper(fs)
    ensures Text(fs) == Join(lines) && |lines| == |fs| && AllLines(lines) && Sorted(StringLe, lines)
  {
    lines := StableSort(StringLe, Lines(fs));
    StringPreorder();
    StableSortCorrect(StringLe, Lines(fs));
    assert |lines| == |multiset(lines)| == |multiset(Lines(fs))| == |fs|;
    forall i | 0 <= i < |lines| ensures IsLine(lines[i]) {
      assert lines[i] in multiset(Lines(fs));
      var j :| 0 <= j < |fs| && Lines(fs)[j] == lines[i];
      assert Line(fs[j]) == lines[i];
    }
  }

  /** The line of a fact that begins with another line and a break hides that line. */
  lemma HidesFirst(h: Fact, f: Fact, g: Fact)
    requires Proper(h) && Proper(f) && Proper(g) && Line(h) == Line(f) + NEWLINE + Line(g) && StringLe(Line(f), Line(g))
    ensures HidesLine(h)
  {
    SwallowingProper(f, g);
    LineOfSwallowing(f, g);
    LineInjective(h, Swallowing(f, g));
    var i := |Line(f)|;
    assert h.lotId == Line(f) + NEWLINE + g.lotId;
    assert h.lotId[..i] == Line(f) && h.lotId[i + 1..] == g.lotId;
    assert h.(lotId := h.lotId[i + 1..]) == g;
  }

  lemma {:induction false} StringLePrefix(x: string, y: string, z: string)
    requires StringLe(x, y)
    ensures StringLe(x, y + z)
  {
    if x != "" {
      assert (y + z)[0] == y[0] && (y + z)[1..] == y[1..] + z;
      if x[0] == y[0] {
        StringLePrefix(x[1..], y[1..], z);
      }
    }
  }

  lemma ManyCollide(fs: seq<Fact>) returns (h: Fact)
    requires AllProper(fs) && |fs| >= 2
    ensures Collides(fs, [h])
  {
    var lines := SortedLines(fs);
    h := JoinIsLine(lines);
    TextOfOne(h);
    DifferentLengths([h], fs);
  }

  lemma HidingCollides(h: Fact) returns (f: Fact, g: Fact)
    requires Proper(h) && HidesLine(h)
    ensures Collides([h], [f, g])
  {
    f, g := HiddenLine(h);
    PairCollides(f, g);
  }

  lemma PairCollides(f: Fact, g: Fact)
    requires Proper(f) && Proper(g) && StringLe(Line(f), Line(g))
    ensures Collides([Swallowing(f, g)], [f, g])
  {
    LineBreakCollides(f, g);
    DifferentLengths([Swallowing(f, g)], [f, g]);
  }

  lemma DifferentLengths<T>(a: seq<T>, b: seq<T>)
    requires |a| != |b|
    ensures multiset(a) != multiset(b)
  {
    assert |multiset(a)| == |a| && |multiset(b)| == |b|;
  }

  lemma HiddenLine(h: Fact) returns (f: Fact, g: Fact)
    requires Proper(h) && HidesLine(h)
    ensures Proper(f) && Proper(g) && h == Swallowing(f, g) && StringLe(Line(f), Line(g))
  {
    var i :| 0 <= i < |h.lotId| && h.lotId[i] == '\n' && IsLine(h.lotId[..i]) && !Blank(h.lotId[i + 1..])
      && StringLe(h.lotId[..i], Line(h.(lotId := h.lotId[i + 1..])));
    f := FactOfLine(h.lotId[..i]);
    g := h.(lotId := h.lotId[i + 1..]);
    BreakAt(h.lotId, i);
  }

  lemma BreakAt(s: string, i: nat)
    requires i < |s| && s[i] == '\n'
    ensures s == s[..i] + NEWLINE + s[i + 1..]
  {
  }

  lemma OnlyHidingCollides(h: Fact, gs: seq<Fact>)
    requires Proper(h) && Collides([h], gs)
    ensures HidesLine(h)
  {
    TextOfOne(h);
    var lines := SortedLines(gs);
    if |gs| == 1 {
      assert gs == [gs[0]];
      TextOfOne(gs[0]);
      LineInjective(h, gs[0]);
    } else if |gs| >= 2 {
      ManyLinesHide(h, lines);
    }
  }

  lemma ManyLinesHide(h: Fact, lines: seq<string>)
    requires Proper(h) && |lines| >= 2 && AllLines(lines) && Sorted(StringLe, lines) && Line(h) == Join(lines)
    ensures HidesLine(h)
  {
    var f, g := FirstAndRest(lines);
    HidesFirst(h, f, g);
  }

  lemma FirstAndRest(lines: seq<string>) returns (f: Fact, g: Fact)
    requires |lines| >= 2 && AllLines(lines) && Sorted(StringLe, lines)
    ensures Proper(f) && Proper(g) && Join(lines) == Line(f) + NEWLINE + Line(g) && StringLe(Line(f), Line(g))
  {
    f := FactOfLine(lines[0]);
    g := JoinIsLine(lines[1..]);
    FirstBeforeRest(lines);
  }

  lemma FactOfLine(s: string) returns (f: Fact)
    requires IsLine(s)
    ensures Proper(f) && Line(f) == s
  {
    f :| Proper(f) && Line(f) == s;
  }

  lemma FirstBeforeRest(lines: seq<string>)
    requires |lines| >= 2 && Sorted(StringLe, lines)
    ensures StringLe(lines[0], Join(lines[1..]))
  {
    var rest := lines[1..];
    JoinExtends(rest);
    StringLePrefix(lines[0], rest[0], Join(rest)[|rest[0]|..]);
  }

  lemma JoinExtends(lines: seq<string>)
    requires lines != []
    ensures |lines[0]| <= |Join(lines)| && Join(lines) == lines[0] + Join(lines)[|lines[0]|..]
  {
  }

  /** The text of some accepted facts is shared by others exactly when there are at
      least two of them, or the single one hides a line in its lot id. */
  lemma TextAmbiguousIff(fs: seq<Fact>)
    requires AllProper(fs)
    ensures (exists gs :: Collides(fs, gs)) <==> |fs| >= 2 || (|fs| == 1 && HidesLine(fs[0]))
  {
    if |fs| >= 2 {
      var h := ManyCollide(fs);
    } else if fs == [] {
      forall gs ensures !Collides(fs, gs) {
        EmptyAlone(gs);
      }
    } else {
      assert fs == [fs[0]];
      if HidesLine(fs[0]) {
        var f, g := HidingCollides(fs[0]);
      }
      if gs :| Collides(fs, gs) {
        OnlyHidingCollides(fs[0], gs);
      }
    }
  }

  lemma EmptyAlone(gs: seq<Fact>)
    ensures !Collides([], gs)
  {
    if AllProper(gs) && gs != [] {
      var lines := SortedLines(gs);
      var h := JoinIsLine(lines);
      assert Line(h) != "";
      assert Lines([]) == [] && Text([]) == "";
    }
  }
}
