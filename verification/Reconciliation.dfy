/** Mass reconciliation reports: measurements, tolerance evaluation and the
    review states. A report is a value; each operation returns an updated copy. */
module Reconciliation {
  import opened Common
  import opened Sorting
  import opened Sequences

  const MINUTE := 60_000_000_000

  datatype State = Draft | Submitted | Investigating | Approved | Rejected

  datatype Material = Lithium | Nickel | Cobalt | Copper | Aluminum | Unsupported(name: string) {
    predicate Valid() { !Unsupported? }
  }

  datatype Unit = G | Kg | OtherUnit(name: string)

  datatype Measurement = Measurement(lotId: string, material: Material, expected: int, actual: int, unit: Unit,
                                     at: int, source: string)
  {
    predicate Valid() {
      && !Blank(lotId) && material.Valid() && expected >= 0 && actual >= 0
      && !unit.OtherUnit? && at != ZERO_TIME && !Blank(source)
    }
  }

  datatype Discrepancy = Discrepancy(lotId: string, material: Material, expected: int, actual: int, delta: int,
                                     ratio: real, within: bool)

  datatype Report = Report(id: string, tenant: string, state: State, measurements: seq<Measurement>,
                           discrepancies: seq<Discrepancy>, totalExpected: int, totalActual: int, createdAt: int,
                           submittedAt: Option<int>, approvedAt: Option<int>, reviewer: string, version: int)

  function NewReport(id: string, tenant: string, now: int): Result<Report> {
    if Blank(id) || Blank(tenant) || now == ZERO_TIME then Failure(Invalid)
    else Success(Report(id, tenant, Draft, [], [], 0, 0, now, None, None, "", 1))
  }

  // ------------------------------------------------------------- appending

  function Normalize(value: int, unit: Unit): int { if unit == Kg then value * 1000 else value }

  function ExpectedOf(m: Measurement): int { Normalize(m.expected, m.unit) }

  function ActualOf(m: Measurement): int { Normalize(m.actual, m.unit) }

  predicate MeasuredLe(a: Measurement, b: Measurement) { a.at <= b.at }

  predicate SamePair(a: Measurement, b: Measurement) { a.lotId == b.lotId && a.material == b.material }

  predicate CanAppend(r: Report) { r.state == Draft || r.state == Investigating }

  /** Whether the report accepts the measurement. */
  predicate Accepts(r: Report, m: Measurement) {
    CanAppend(r) && m.Valid() && forall i | 0 <= i < |r.measurements| :: !SamePair(r.measurements[i], m)
  }

  function Appended(r: Report, m: Measurement): Report {
    r.(measurements := StableSort(MeasuredLe, r.measurements + [m]),
       totalExpected := r.totalExpected + ExpectedOf(m), totalActual := r.totalActual + ActualOf(m))
  }

  /** When a measurement is accepted, and what the report then holds. */
  lemma AppendMeans(r: Report, m: Measurement)
    ensures Accepts(r, m) <==>
      && (r.state == Draft || r.state == Investigating)
      && !Blank(m.lotId) && !m.material.Unsupported? && m.expected >= 0 && m.actual >= 0
      && (m.unit == G || m.unit == Kg) && m.at != ZERO_TIME && !Blank(m.source)
      && forall i | 0 <= i < |r.measurements| :: r.measurements[i].lotId != m.lotId || r.measurements[i].material != m.material
    ensures var out, grams := Appended(r, m), if m.unit == Kg then 1000 else 1;
      && out == r.(measurements := out.measurements, totalExpected := out.totalExpected, totalActual := out.totalActual)
      && out.totalExpected == r.totalExpected + m.expected * grams
      && out.totalActual == r.totalActual + m.actual * grams
      && multiset(out.measurements) == multiset(r.measurements + [m])
      && forall i, j | 0 <= i < j < |out.measurements| :: out.measurements[i].at <= out.measurements[j].at
  {
    MeasuredPreorder();
    StableSortCorrect(MeasuredLe, r.measurements + [m]);
  }

  method Append(r: Report, m: Measurement) returns (out: Result<Report>)
    ensures out == if Accepts(r, m) then Success(Appended(r, m)) else Failure(Invalid)
  {
    if !CanAppend(r) || !m.Valid() {
      return Failure(Invalid);
    }
    for i := 0 to |r.measurements|
      invariant forall j | 0 <= j < i :: !SamePair(r.measurements[j], m)
    {
      if r.measurements[i].lotId == m.lotId && r.measurements[i].material == m.material {
        return Failure(Invalid);
      }
    }
    var sorted := SortStable(MeasuredLe, r.measurements + [m]);
    out := Success(r.(measurements := sorted,
                      totalExpected := r.totalExpected + ExpectedOf(m), totalActual := r.totalActual + ActualOf(m)));
  }

  /** What a report that accepted exactly `accepted`, in that order, must look like. */
  ghost predicate Accounts(r: Report, accepted: seq<Measurement>) {
    && IsStableSort(MeasuredLe, accepted, r.measurements)
    && multiset(r.measurements) == multiset(accepted)
    && (forall i, j | 0 <= i < j < |accepted| :: !SamePair(accepted[i], accepted[j]))
    && (forall i | 0 <= i < |accepted| :: accepted[i].Valid())
    && r.totalExpected == Sum(ExpectedOf, accepted)
    && r.totalActual == Sum(ActualOf, accepted)
  }

  lemma MeasuredPreorder()
    ensures Preorder(MeasuredLe)
  {
  }

  lemma AppendedAccounts(r: Report, accepted: seq<Measurement>, m: Measurement)
    requires Accounts(r, accepted) && Accepts(r, m)
    ensures Accounts(Appended(r, m), accepted + [m])
  {
    MeasuredPreorder();
    StableSortCorrect(MeasuredLe, r.measurements + [m]);
    SumSnoc(ExpectedOf, accepted, m);
    SumSnoc(ActualOf, accepted, m);
    assert (r.measurements + [m])[..|r.measurements|] == r.measurements && (accepted + [m])[..|accepted|] == accepted;
    forall i | 0 <= i < |accepted| ensures !SamePair(accepted[i], m) {
      assert accepted[i] in multiset(r.measurements);
    }
    assert forall k :: Tied(MeasuredLe, k, r.measurements + [m]) == Tied(MeasuredLe, k, accepted + [m]);
  }

  lemma MeasurementValid(r: Report, accepted: seq<Measurement>, i: nat)
    requires Accounts(r, accepted) && i < |r.measurements|
    ensures r.measurements[i].Valid()
  {
    assert r.measurements[i] in multiset(accepted);
  }

  /** A report after a series of attempted appends, and those it accepted. */
  function AppendEach(r: Report, ms: seq<Measurement>): (Report, seq<Measurement>) {
    if ms == [] then (r, []) else
      var (mid, taken) := AppendEach(r, ms[..|ms| - 1]);
      var m := ms[|ms| - 1];
      if Accepts(mid, m) then (Appended(mid, m), taken + [m]) else (mid, taken)
  }

  /** After any appends the measurements are the accepted ones in stable time
      order, their pairs are distinct and the totals are their sums. */
  lemma {:induction false} AppendsAccount(id: string, tenant: string, now: int, ms: seq<Measurement>)
    requires NewReport(id, tenant, now).Success?
    ensures var (r, accepted) := AppendEach(NewReport(id, tenant, now).value, ms); Accounts(r, accepted)
  {
    if ms != [] {
      AppendsAccount(id, tenant, now, ms[..|ms| - 1]);
      var (mid, taken) := AppendEach(NewReport(id, tenant, now).value, ms[..|ms| - 1]);
      if Accepts(mid, ms[|ms| - 1]) {
        AppendedAccounts(mid, taken, ms[|ms| - 1]);
      }
    }
  }

  /** The account in plain terms: the accepted measurements by time, those of one
      time in the order they came, and totals in grams, a kilogram for a thousand. */
  lemma AccountsMean(r: Report, accepted: seq<Measurement>)
    requires Accounts(r, accepted)
    ensures multiset(r.measurements) == multiset(accepted)
    ensures forall i, j | 0 <= i < j < |r.measurements| :: r.measurements[i].at <= r.measurements[j].at
    ensures forall i, j | 0 <= i < j < |accepted| ::
      accepted[i].lotId != accepted[j].lotId || accepted[i].material != accepted[j].material
    ensures r.totalExpected == Sum((m: Measurement) => m.expected * (if m.unit == Kg then 1000 else 1), accepted)
    ensures r.totalActual == Sum((m: Measurement) => m.actual * (if m.unit == Kg then 1000 else 1), accepted)
  {
    SumSame(ExpectedOf, (m: Measurement) => m.expected * (if m.unit == Kg then 1000 else 1), accepted);
    SumSame(ActualOf, (m: Measurement) => m.actual * (if m.unit == Kg then 1000 else 1), accepted);
  }

  // ------------------------------------------------------------- evaluation

  function Abs(v: int): nat { if v < 0 then -v else v }

  function DiscrepancyOf(m: Measurement, tolerance: real): Discrepancy {
    var e, a := ExpectedOf(m), ActualOf(m);
    var ratio := if e > 0 then Abs(e - a) as real / e as real else 0.0;
    Discrepancy(m.lotId, m.material, e, a, e - a, ratio, ratio <= tolerance)
  }

  /** Within tolerance, without the division: a share of the expected weight. An
      expected weight of zero counts as within any tolerance. */
  lemma WithinIff(m: Measurement, tolerance: real)
    requires tolerance >= 0.0 && m.Valid()
    ensures DiscrepancyOf(m, tolerance).within <==>
      ExpectedOf(m) == 0 || Abs(ExpectedOf(m) - ActualOf(m)) as real <= tolerance * ExpectedOf(m) as real
  {
    if ExpectedOf(m) > 0 {
      Quotient(Abs(ExpectedOf(m) - ActualOf(m)) as real, ExpectedOf(m) as real, tolerance);
    }
  }

  /** A judgement in plain terms: what it records, and within tolerance exactly when
      nothing is expected or the deviation is at most that share of it. */
  lemma DiscrepancyMeans(m: Measurement, tolerance: real)
    requires tolerance >= 0.0
    ensures var d := DiscrepancyOf(m, tolerance);
      var e, a := m.expected * (if m.unit == Kg then 1000 else 1), m.actual * (if m.unit == Kg then 1000 else 1);
      && d.lotId == m.lotId && d.material == m.material && d.expected == e && d.actual == a && d.delta == e - a
      && (e <= 0 ==> d.ratio == 0.0 && d.within)
      && (e > 0 ==> d.ratio * e as real == (if e < a then a - e else e - a) as real)
      && (e > 0 ==> (d.within <==> (if e < a then a - e else e - a) as real <= tolerance * e as real))
  {
    if ExpectedOf(m) > 0 {
      Quotient(Abs(ExpectedOf(m) - ActualOf(m)) as real, ExpectedOf(m) as real, tolerance);
    }
  }

  lemma Quotient(x: real, y: real, limit: real)
    requires y > 0.0
    ensures (x / y) * y == x
    ensures x / y <= limit <==> x <= limit * y
  {
    if x / y <= limit {
      assert (limit - x / y) * y >= 0.0;
    } else {
      assert (x / y - limit) * y > 0.0;
    }
  }

  datatype Policy = Policy(tolerances: map<Material, real>, maxAge: int) {
    function Tolerance(m: Material): Result<real> {
      if !m.Valid() || m !in tolerances || tolerances[m] < 0.0 || tolerances[m] > 1.0 then Failure(Invalid)
      else Success(tolerances[m])
    }

    predicate Timely(now: int, m: Measurement) { now - m.at <= maxAge && m.at <= now + 5 * MINUTE }

    /** The policy can judge these measurements at this time. */
    predicate Judges(now: int, ms: seq<Measurement>) {
      && now != ZERO_TIME && maxAge > 0
      && forall i | 0 <= i < |ms| :: Timely(now, ms[i]) && Tolerance(ms[i].material).Success?
    }

    function Judgement(m: Measurement): Discrepancy {
      DiscrepancyOf(m, Tolerance(m.material).GetOr(0.0))
    }
  }

  predicate ByLot(a: Discrepancy, b: Discrepancy) { StringLe(a.lotId, b.lotId) }

  lemma ByLotPreorder()
    ensures Preorder(ByLot)
  {
    StringPreorder();
    forall a: Discrepancy, b: Discrepancy ensures ByLot(a, b) || ByLot(b, a) {
      StringLeTotal(a.lotId, b.lotId);
    }
  }

  function Judgements(p: Policy, ms: seq<Measurement>): seq<Discrepancy> {
    seq(|ms|, i requires 0 <= i < |ms| => p.Judgement(ms[i]))
  }

  /** An evaluation: one judgement for each measurement, in lot order. Which of
      several judgements of one lot comes first is left open. */
  ghost predicate IsEvaluation(now: int, p: Policy, r: Report, out: Report) {
    && p.Judges(now, r.measurements)
    && out == r.(discrepancies := out.discrepancies)
    && Sorted(ByLot, out.discrepancies)
    && multiset(out.discrepancies) == multiset(Judgements(p, r.measurements))
  }

  /** The discrepancy is of this measurement, in grams, and is within tolerance
      exactly when nothing is expected or the deviation is at most the table's share. */
  ghost predicate RightlyJudged(tolerances: map<Material, real>, m: Measurement, d: Discrepancy) {
    var e, a := m.expected * (if m.unit == Kg then 1000 else 1), m.actual * (if m.unit == Kg then 1000 else 1);
    && m.material in tolerances && 0.0 <= tolerances[m.material] <= 1.0
    && d.lotId == m.lotId && d.material == m.material && d.expected == e && d.actual == a && d.delta == e - a
    && (e <= 0 ==> d.ratio == 0.0 && d.within)
    && (e > 0 ==> d.ratio * e as real == (if e < a then a - e else e - a) as real)
    && (e > 0 ==> (d.within <==> (if e < a then a - e else e - a) as real <= tolerances[m.material] * e as real))
  }

  lemma JudgementsRight(now: int, p: Policy, ms: seq<Measurement>)
    requires p.Judges(now, ms)
    ensures forall i | 0 <= i < |ms| ::
      var m := ms[i];
      && now - m.at <= p.maxAge && m.at - now <= 300_000_000_000
      && !m.material.Unsupported? && RightlyJudged(p.tolerances, m, p.Judgement(m))
  {
    forall i | 0 <= i < |ms| ensures RightlyJudged(p.tolerances, ms[i], p.Judgement(ms[i])) {
      DiscrepancyMeans(ms[i], p.Tolerance(ms[i].material).value);
    }
  }

  lemma JudgementsKept(now: int, p: Policy, r: Report, out: Report)
    requires IsEvaluation(now, p, r, out)
    ensures |out.discrepancies| == |r.measurements|
    ensures forall i | 0 <= i < |r.measurements| :: p.Judgement(r.measurements[i]) in out.discrepancies
  {
    var all := Judgements(p, r.measurements);
    assert |out.discrepancies| == |multiset(out.discrepancies)| == |multiset(all)| == |all|;
    forall i | 0 <= i < |r.measurements| ensures p.Judgement(r.measurements[i]) in out.discrepancies {
      assert all[i] in multiset(out.discrepancies);
    }
  }

  method EvaluateWithPolicy(now: int, p: Policy, r: Report) returns (out: Result<Report>)
    ensures out.Success? <==> p.Judges(now, r.measurements)
    ensures out.Success? ==> IsEvaluation(now, p, r, out.value)
    ensures out.Success? <==>
      && now != ZERO_TIME && p.maxAge > 0
      && forall i | 0 <= i < |r.measurements| :: var m := r.measurements[i];
           && now - m.at <= p.maxAge && m.at - now <= 300_000_000_000
           && !m.material.Unsupported? && m.material in p.tolerances && 0.0 <= p.tolerances[m.material] <= 1.0
    ensures out.Success? ==> |out.value.discrepancies| == |r.measurements|
    ensures out.Success? ==> forall i | 0 <= i < |r.measurements| ::
      exists d | d in out.value.discrepancies :: RightlyJudged(p.tolerances, r.measurements[i], d)
  {
    if p.Judges(now, r.measurements) {
      JudgementsRight(now, p, r.measurements);
    }
    if now == ZERO_TIME || p.maxAge <= 0 {
      return Failure(Invalid);
    }
    for i := 0 to |r.measurements|
      invariant forall j | 0 <= j < i :: p.Timely(now, r.measurements[j])
    {
      if now - r.measurements[i].at > p.maxAge || r.measurements[i].at > now + 5 * MINUTE {
        return Failure(Invalid);
      }
    }
    var found: seq<Discrepancy> := [];
    for i := 0 to |r.measurements|
      invariant forall j | 0 <= j < i :: p.Tolerance(r.measurements[j].material).Success?
      invariant |found| == i && forall j | 0 <= j < i :: found[j] == p.Judgement(r.measurements[j])
    {
      var tolerance :- p.Tolerance(r.measurements[i].material);
      found := found + [DiscrepancyOf(r.measurements[i], tolerance)];
    }
    assert found == Judgements(p, r.measurements);
    ByLotPreorder();
    StableSortCorrect(ByLot, found);
    var sorted := SortStable(ByLot, found);
    out := Success(r.(discrepancies := sorted));
    JudgementsKept(now, p, r, out.value);
  }

  /** The evaluator with one tolerance for every material keeps the measurement order. */
  method Evaluate(r: Report, tolerance: real) returns (out: Result<Report>)
    ensures out.Success? <==> 0.0 <= tolerance <= 1.0 && r.measurements != []
    ensures out.Success? ==>
      && out.value == r.(discrepancies := out.value.discrepancies)
      && |out.value.discrepancies| == |r.measurements|
      && forall i | 0 <= i < |r.measurements| :: out.value.discrepancies[i] == DiscrepancyOf(r.measurements[i], tolerance)
    ensures out.Success? ==> forall i | 0 <= i < |r.measurements| ::
      var m, d := r.measurements[i], out.value.discrepancies[i];
      d.lotId == m.lotId && RightlyJudged(map[m.material := tolerance], m, d)
  {
    forall m | m in r.measurements && tolerance >= 0.0
      ensures tolerance <= 1.0 ==> RightlyJudged(map[m.material := tolerance], m, DiscrepancyOf(m, tolerance))
    {
      DiscrepancyMeans(m, tolerance);
    }
    if tolerance < 0.0 || tolerance > 1.0 || r.measurements == [] {
      return Failure(Invalid);
    }
    var found: seq<Discrepancy> := [];
    for i := 0 to |r.measurements|
      invariant |found| == i && forall j | 0 <= j < i :: found[j] == DiscrepancyOf(r.measurements[j], tolerance)
    {
      found := found + [DiscrepancyOf(r.measurements[i], tolerance)];
    }
    out := Success(r.(discrepancies := found));
  }

  function Delta(d: Discrepancy): int { d.delta }

  lemma {:induction false} DeltasSum(ms: seq<Measurement>, ds: seq<Discrepancy>)
    requires |ds| == |ms| && forall i | 0 <= i < |ms| :: ds[i].delta == ExpectedOf(ms[i]) - ActualOf(ms[i])
    ensures Sum(Delta, ds) == Sum(ExpectedOf, ms) - Sum(ActualOf, ms)
  {
    if ms != [] {
      DeltasSum(ms[..|ms| - 1], ds[..|ds| - 1]);
    }
  }

  /** Either evaluator's deltas add up to the difference of the running totals. */
  lemma DeltasMatchTotals(r: Report, accepted: seq<Measurement>, ds: seq<Discrepancy>, tolerance: real, p: Policy)
    requires Accounts(r, accepted)
    requires multiset(ds) == multiset(Judgements(p, r.measurements))
             || ds == seq(|r.measurements|, i requires 0 <= i < |r.measurements| => DiscrepancyOf(r.measurements[i], tolerance))
    ensures Sum(Delta, ds) == r.totalExpected - r.totalActual
  {
    var ms := r.measurements;
    SumPermutation(ExpectedOf, accepted, ms);
    SumPermutation(ActualOf, accepted, ms);
    if multiset(ds) == multiset(Judgements(p, ms)) {
      SumPermutation(Delta, ds, Judgements(p, ms));
      DeltasSum(ms, Judgements(p, ms));
    } else {
      DeltasSum(ms, ds);
    }
  }

  // ------------------------------------------------------------- summary

  function Share(ms: seq<Measurement>, m: Material): int {
    if ms == [] then 0 else
      var x := ms[|ms| - 1];
      Share(ms[..|ms| - 1], m) + if x.material == m then ActualOf(x) else 0
  }

  function Get(s: map<Material, int>, m: Material): int { if m in s then s[m] else 0 }

  /** A material's share is the grams found of it and of nothing else. */
  lemma ShareMeans(ms: seq<Measurement>, x: Measurement, m: Material)
    ensures Share([], m) == 0
    ensures Share(ms + [x], m) ==
      Share(ms, m) + (if x.material != m then 0 else if x.unit == Kg then 1000 * x.actual else x.actual)
  {
    assert (ms + [x])[..|ms|] == ms;
  }

  method Summarize(r: Report) returns (out: map<Material, int>)
    ensures forall m :: m in out <==> exists i | 0 <= i < |r.measurements| :: r.measurements[i].material == m
    ensures forall m :: Get(out, m) == Share(r.measurements, m)
  {
    out := map[];
    for i := 0 to |r.measurements|
      invariant forall m :: m in out <==> exists j | 0 <= j < i :: r.measurements[j].material == m
      invariant forall m :: Get(out, m) == Share(r.measurements[..i], m)
    {
      var x := r.measurements[i];
      assert r.measurements[..i + 1][..i] == r.measurements[..i];
      out := out[x.material := Get(out, x.material) + ActualOf(x)];
    }
    assert r.measurements[..|r.measurements|] == r.measurements;
  }

  lemma {:induction false} SharesAddUp(ms: seq<Measurement>)
    requires forall i | 0 <= i < |ms| :: ms[i].Valid()
    ensures Share(ms, Lithium) + Share(ms, Nickel) + Share(ms, Cobalt) + Share(ms, Copper) + Share(ms, Aluminum)
            == Sum(ActualOf, ms)
  {
    if ms != [] {
      SharesAddUp(ms[..|ms| - 1]);
    }
  }

  /** The summary's values add up to the report's total. */
  lemma SummaryMatchesTotal(r: Report, accepted: seq<Measurement>, out: map<Material, int>)
    requires Accounts(r, accepted) && forall m :: Get(out, m) == Share(r.measurements, m)
    ensures Get(out, Lithium) + Get(out, Nickel) + Get(out, Cobalt) + Get(out, Copper) + Get(out, Aluminum)
            == r.totalActual
  {
    forall i | 0 <= i < |r.measurements| ensures r.measurements[i].Valid() {
      MeasurementValid(r, accepted, i);
    }
    SharesAddUp(r.measurements);
    SumPermutation(ActualOf, accepted, r.measurements);
  }

  // ------------------------------------------------------------- review states

  predicate CanApprove(r: Report) { r.state == Submitted || r.state == Investigating }

  predicate NeedsInvestigation(r: Report) {
    exists i | 0 <= i < |r.discrepancies| :: !r.discrepancies[i].within
  }

  function Submit(r: Report, now: int): Result<Report> {
    if r.state != Draft || r.measurements == [] || now == ZERO_TIME then Failure(Invalid)
    else Success(r.(state := Submitted, submittedAt := Some(now), version := r.version + 1))
  }

  function StartInvestigation(r: Report): Result<Report> {
    if r.state != Submitted then Failure(Invalid)
    else Success(r.(state := Investigating, version := r.version + 1))
  }

  function Approve(r: Report, reviewer: string, now: int): Result<Report> {
    if !CanApprove(r) || Blank(reviewer) || now == ZERO_TIME || NeedsInvestigation(r) then Failure(Invalid)
    else Success(r.(state := Approved, reviewer := reviewer, approvedAt := Some(now), version := r.version + 1))
  }

  function Reject(r: Report, reviewer: string): Result<Report> {
    if !CanApprove(r) || Blank(reviewer) then Failure(Invalid)
    else Success(r.(state := Rejected, reviewer := reviewer, version := r.version + 1))
  }
}
