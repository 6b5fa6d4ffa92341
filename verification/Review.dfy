/** The reconciliation service: a write-through cache before a report store, and
    the review flow that runs over it. Calls are run one at a time here; ReviewRuns
    interleaves them. */
module Review {
  import opened Common
  import opened Reconciliation
  import opened Sorting

  /** Where a call may be interrupted: the context at its start or before saving,
      or the store when it loads or saves. A save happens whole or not at all. */
  datatype Fault = AtStart | AtLoad | BeforeSave | AtSave

  /** `persistent` tells whether the service has a store at all. */
  datatype World = World(cache: map<string, Report>, stored: map<string, Report>, persistent: bool)

  datatype Op =
    | Create(p: Principal, id: string, now: int)
    | Append(p: Principal, id: string, m: Measurement)
    | Submit(p: Principal, id: string, evalAt: int, now: int)
    | Review(p: Principal, id: string, approve: bool, now: int)
    | Restart

  /** What the store answers, for one tenant. */
  function DirectLoad(stored: map<string, Report>, tenant: string, id: string): Result<Report> {
    if id in stored && stored[id].tenant == tenant then Success(stored[id]) else Failure(NotFound)
  }

  /** Cache first, and the tenant checked there too. */
  function Find(w: World, tenant: string, id: string): Result<Report> {
    if id in w.cache then
      if w.cache[id].tenant == tenant then Success(w.cache[id]) else Failure(NotFound)
    else if !w.persistent then Failure(NotFound)
    else DirectLoad(w.stored, tenant, id)
  }

  /** The cache after a lookup. */
  function Filled(w: World, tenant: string, id: string): World {
    if id !in w.cache && Find(w, tenant, id).Success? then w.(cache := w.cache[id := w.stored[id]]) else w
  }

  function Put(w: World, r: Report): World {
    w.(cache := w.cache[r.id := r], stored := if w.persistent then w.stored[r.id := r] else w.stored)
  }

  /** The review decision: an out-of-tolerance submission goes to investigation first. */
  function Decide(r: Report, reviewer: string, approve: bool, now: int): Result<Report> {
    if NeedsInvestigation(r) && r.state == Submitted then
      var investigating :- StartInvestigation(r);
      if approve then Approve(investigating, reviewer, now) else Success(investigating)
    else if approve then Approve(r, reviewer, now)
    else Reject(r, reviewer)
  }

  /** The decision in plain terms; `bad` says some judgement is out of tolerance. */
  lemma DecideMeans(r: Report, reviewer: string, approve: bool, now: int)
    ensures var bad := exists d | d in r.discrepancies :: !d.within;
      Decide(r, reviewer, approve, now) ==
      if bad && r.state == State.Submitted && !approve then Success(r.(state := Investigating, version := r.version + 1))
      else if (r.state != State.Submitted && r.state != Investigating) || Blank(reviewer) then Failure(Invalid)
      else if !approve then Success(r.(state := Rejected, reviewer := reviewer, version := r.version + 1))
      else if now == ZERO_TIME || bad then Failure(Invalid)
      else Success(r.(state := Approved, reviewer := reviewer, approvedAt := Some(now), version := r.version + 1))
  {
    assert NeedsInvestigation(r) <==> exists d | d in r.discrepancies :: !d.within;
  }

  predicate Allowed(op: Op) {
    match op
    case Create(p, _, _) => p.Can("recover")
    case Append(p, _, _) => p.Can("recover")
    case Submit(p, _, _, _) => p.Can("recover")
    case Review(p, _, _, _) => p.Can("certify")
    case Restart => true
  }

  /** What an operation may turn the report it loaded into. */
  ghost predicate Yields(policy: Policy, op: Op, r: Report, out: Report) {
    match op
    case Create(_, _, _) => false
    case Append(_, _, m) => Accepts(r, m) && out == Appended(r, m)
    case Submit(_, _, evalAt, now) =>
      exists e :: IsEvaluation(evalAt, policy, r, e) && Reconciliation.Submit(e, now) == Success(out)
    case Review(p, _, approve, now) => Decide(r, p.id, approve, now) == Success(out)
    case Restart => false
  }

  /** One call: it may fail, having at most filled the cache, or take effect whole. */
  ghost predicate Does(policy: Policy, w: World, op: Op, w': World) {
    match op
    case Create(p, id, now) =>
      w' == w || (Allowed(op) && NewReport(id, p.tenant, now).Success? && w' == Put(w, NewReport(id, p.tenant, now).value))
    case Restart => w' == w.(cache := map[])
    case _ =>
      || w' == w
      || (Allowed(op) && w' == Filled(w, op.p.tenant, op.id))
      || (Allowed(op) && exists out :: Saves(policy, w, op, w', out))
  }

  /** The call saved `out`, which it made from the report it found. */
  ghost predicate Saves(policy: Policy, w: World, op: Op, w': World, out: Report)
    requires op.Append? || op.Submit? || op.Review?
  {
    && Find(w, op.p.tenant, op.id).Success?
    && Yields(policy, op, Find(w, op.p.tenant, op.id).value, out)
    && w' == Put(w, out)
  }

  class ReconciliationService {
    var cache: map<string, Report>
    var stored: map<string, Report>
    const persistent: bool
    const policy: Policy

    function Now(): World
      reads this
    {
      World(cache, stored, persistent)
    }

    constructor (policy: Policy, persistent: bool)
      ensures Now() == World(map[], map[], persistent) && this.policy == policy
    {
      this.policy, this.persistent := policy, persistent;
      cache, stored := map[], map[];
    }

    method Load(p: Principal, id: string, faults: set<Fault>) returns (r: Result<Report>)
      modifies this
      ensures r.Success? ==> r == Find(old(Now()), p.tenant, id) && Now() == Filled(old(Now()), p.tenant, id)
      ensures r.Success? ==>
        && (if id in old(cache) then r.value == old(cache)[id] else persistent && id in old(stored) && r.value == old(stored)[id])
        && r.value.tenant == p.tenant && cache == old(cache)[id := r.value] && stored == old(stored)
      ensures r.Failure? ==> Now() == old(Now())
      ensures AtLoad !in faults ==> (r.Success? <==> Find(old(Now()), p.tenant, id).Success?)
    {
      if id in cache {
        return if cache[id].tenant != p.tenant then Failure(NotFound) else Success(cache[id]);
      }
      if !persistent || AtLoad in faults || id !in stored || stored[id].tenant != p.tenant {
        return Failure(NotFound);
      }
      cache := cache[id := stored[id]];
      r := Success(cache[id]);
    }

    method Save(report: Report, faults: set<Fault>) returns (r: Result<Report>)
      modifies this
      ensures r.Success? <==> BeforeSave !in faults && (persistent ==> AtSave !in faults)
      ensures r.Success? ==> r.value == report && Now() == Put(old(Now()), report)
      ensures r.Success? ==>
        cache == old(cache)[report.id := report] && stored == if persistent then old(stored)[report.id := report] else old(stored)
      ensures r.Failure? ==> Now() == old(Now())
    {
      if BeforeSave in faults || (persistent && AtSave in faults) {
        return Failure(Unavailable);
      }
      if persistent {
        stored := stored[report.id := report];
      }
      cache := cache[report.id := report];
      r := Success(report);
    }

    method CreateReport(p: Principal, id: string, now: int, faults: set<Fault>) returns (r: Result<Report>)
      modifies this
      ensures r.Success? <==> (p.role == "operator" || p.role == "supervisor") && AtStart !in faults
                              && !Blank(id) && !Blank(p.tenant) && now != ZERO_TIME && (persistent ==> AtSave !in faults)
      ensures r.Success? ==> r.value == Report(id, p.tenant, Draft, [], [], 0, 0, now, None, None, "", 1)
      ensures r.Success? ==> Now() == Put(old(Now()), r.value)
      ensures r.Failure? ==> Now() == old(Now())
      ensures Does(policy, old(Now()), Create(p, id, now), Now())
    {
      if !p.Can("recover") {
        return Failure(Forbidden);
      }
      if AtStart in faults {
        return Failure(Unavailable);
      }
      var report :- NewReport(id, p.tenant, now);
      if persistent {
        if AtSave in faults {
          return Failure(Unavailable);
        }
        stored := stored[id := report];
      }
      cache := cache[id := report];
      r := Success(report);
    }

    /** A call that failed: the cache may have been filled, nothing else. */
    twostate predicate OnlyFilled(tenant: string, id: string)
      reads this
    {
      Now() == old(Now()) || Now() == Filled(old(Now()), tenant, id)
    }

    method AppendMeasurement(p: Principal, id: string, m: Measurement, faults: set<Fault>) returns (r: Result<Report>)
      requires Keyed(Now())
      modifies this
      ensures r.Success? ==>
        var before := Find(old(Now()), p.tenant, id);
        p.Can("recover") && before.Success? && Accepts(before.value, m)
        && r.value == Appended(before.value, m) && Now() == Put(old(Now()), r.value)
      ensures r.Success? ==> p.role == "operator" || p.role == "supervisor"
      ensures r.Success? ==>
        var before, grams := Find(old(Now()), p.tenant, id).value, if m.unit == Kg then 1000 else 1;
        && (before.state == Draft || before.state == Investigating) && r.value.state == before.state
        && r.value.totalExpected == before.totalExpected + m.expected * grams
        && r.value.totalActual == before.totalActual + m.actual * grams
      ensures r.Failure? ==> OnlyFilled(p.tenant, id)
      ensures var before := Find(old(Now()), p.tenant, id);
        faults == {} && p.Can("recover") && before.Success? && Accepts(before.value, m) ==> r.Success?
      ensures Does(policy, old(Now()), Append(p, id, m), Now())
    {
      if !p.Can("recover") {
        return Failure(Forbidden);
      }
      if AtStart in faults {
        return Failure(Unavailable);
      }
      var report :- Load(p, id, faults);
      var next := Reconciliation.Append(report, m);
      if next.Failure? {
        return next;
      }
      r := Save(next.value, faults);
      if r.Success? {
        assert Saves(policy, old(Now()), Append(p, id, m), Now(), r.value);
      }
    }

    /** The clock is read twice: once to judge, once to stamp. */
    method SubmitReport(p: Principal, id: string, evalAt: int, now: int, faults: set<Fault>) returns (r: Result<Report>)
      requires Keyed(Now())
      modifies this
      ensures r.Success? ==>
        var before := Find(old(Now()), p.tenant, id);
        p.Can("recover") && before.Success? && Yields(policy, Submit(p, id, evalAt, now), before.value, r.value)
        && Now() == Put(old(Now()), r.value)
      ensures r.Success? ==>
        var before := Find(old(Now()), p.tenant, id).value;
        && (p.role == "operator" || p.role == "supervisor") && before.state == Draft && before.measurements != []
        && r.value == before.(state := State.Submitted, submittedAt := Some(now), version := before.version + 1,
                              discrepancies := r.value.discrepancies)
        && |r.value.discrepancies| == |before.measurements|
        && forall i | 0 <= i < |before.measurements| :: var m := before.measurements[i];
             && evalAt - m.at <= policy.maxAge && m.at - evalAt <= 300_000_000_000
             && exists d | d in r.value.discrepancies :: RightlyJudged(policy.tolerances, m, d)
      ensures r.Failure? ==> OnlyFilled(p.tenant, id)
      ensures var before := Find(old(Now()), p.tenant, id);
        faults == {} && p.Can("recover") && before.Success? && before.value.state == Draft
        && before.value.measurements != [] && policy.Judges(evalAt, before.value.measurements) && now != ZERO_TIME
        ==> r.Success?
      ensures Does(policy, old(Now()), Submit(p, id, evalAt, now), Now())
    {
      if !p.Can("recover") {
        return Failure(Forbidden);
      }
      var report :- Load(p, id, faults);
      var judged := EvaluateWithPolicy(evalAt, policy, report);
      if judged.Failure? {
        return judged;
      }
      var next :- Reconciliation.Submit(judged.value, now);
      r := Save(next, faults);
      if r.Success? {
        assert Saves(policy, old(Now()), Submit(p, id, evalAt, now), Now(), r.value);
      }
    }

    method ReviewReport(p: Principal, id: string, approve: bool, now: int, faults: set<Fault>) returns (r: Result<Report>)
      requires Keyed(Now())
      modifies this
      ensures r.Success? ==>
        var before := Find(old(Now()), p.tenant, id);
        p.Can("certify") && before.Success? && Decide(before.value, p.id, approve, now) == r
        && Now() == Put(old(Now()), r.value)
      ensures r.Success? ==>
        var before := Find(old(Now()), p.tenant, id).value;
        var bad := exists d | d in before.discrepancies :: !d.within;
        && p.role == "supervisor" && (before.state == State.Submitted || before.state == Investigating)
        && (approve ==> !bad && !Blank(p.id) && now != ZERO_TIME)
        && r.value ==
           (if approve then before.(state := Approved, reviewer := p.id, approvedAt := Some(now), version := before.version + 1)
            else if bad && before.state == State.Submitted then before.(state := Investigating, version := before.version + 1)
            else before.(state := Rejected, reviewer := p.id, version := before.version + 1))
      ensures r.Failure? ==> OnlyFilled(p.tenant, id)
      ensures var before := Find(old(Now()), p.tenant, id);
        faults == {} && p.Can("certify") && before.Success? && Decide(before.value, p.id, approve, now).Success?
        ==> r.Success?
      ensures Does(policy, old(Now()), Review(p, id, approve, now), Now())
    {
      if !p.Can("certify") {
        return Failure(Forbidden);
      }
      if AtStart in faults {
        return Failure(Unavailable);
      }
      var report :- Load(p, id, faults);
      if NeedsInvestigation(report) && report.state == Submitted {
        report := StartInvestigation(report).value;
        if !approve {
          r := Save(report, faults);
          if r.Success? {
            assert Saves(policy, old(Now()), Review(p, id, approve, now), Now(), r.value);
          }
          return;
        }
      }
      var next: Result<Report>;
      if approve {
        next := Approve(report, p.id, now);
      } else {
        next := Reject(report, p.id);
      }
      if next.Failure? {
        return next;
      }
      r := Save(next.value, faults);
      if r.Success? {
        assert Saves(policy, old(Now()), Review(p, id, approve, now), Now(), r.value);
      }
    }
  }

  ghost predicate Keyed(w: World) {
    (forall id | id in w.cache :: w.cache[id].id == id) && (forall id | id in w.stored :: w.stored[id].id == id)
  }

  // ------------------------------------------------------------- what every run keeps

  /** The discrepancies are the policy's judgements of exactly these measurements, made at a given time. */
  ghost predicate JudgedAt(policy: Policy, r: Report, now: int) {
    policy.Judges(now, r.measurements) && multiset(r.discrepancies) == multiset(Judgements(policy, r.measurements))
  }

  /** The review state and the marks it must have left. */
  ghost predicate Staged(policy: Policy, r: Report) {
    && (r.state != Draft ==> r.measurements != [] && r.submittedAt.Some?)
    && match r.state
       case Draft => r.version == 1 && r.discrepancies == []
       case Submitted => r.version == 2 && exists now :: JudgedAt(policy, r, now)
       case Investigating => r.version == 3 && NeedsInvestigation(r)
       case Approved =>
         && r.version == 3 && !Blank(r.reviewer) && r.approvedAt.Some?
         && !NeedsInvestigation(r) && exists now :: JudgedAt(policy, r, now)
       case Rejected => 3 <= r.version <= 4 && !Blank(r.reviewer)
  }

  ghost predicate Sound(policy: Policy, r: Report) {
    Staged(policy, r) && exists accepted :: Accounts(r, accepted)
  }

  ghost predicate Inv(policy: Policy, w: World) {
    && Keyed(w)
    && (w.persistent ==> forall id | id in w.cache :: id in w.stored && w.stored[id] == w.cache[id])
    && (forall id | id in w.cache :: Sound(policy, w.cache[id]))
    && (forall id | id in w.stored :: Sound(policy, w.stored[id]))
  }

  lemma YieldKeepsStage(policy: Policy, op: Op, r: Report, out: Report)
    requires Staged(policy, r) && Yields(policy, op, r, out)
    ensures out.id == r.id && out.tenant == r.tenant && Staged(policy, out)
  {
    match op
    case Append(_, _, m) =>
      if r.measurements != [] {
        assert |out.measurements| == |r.measurements| + 1 by { AppendedLength(r, m); }
      }
    case Submit(_, _, evalAt, _) => assert JudgedAt(policy, out, evalAt);
    case Review(_, _, _, _) =>
      if r.state == Submitted {
        var t :| JudgedAt(policy, r, t);
        assert JudgedAt(policy, out, t);
      }
  }

  lemma AppendedLength(r: Report, m: Measurement)
    ensures |Appended(r, m).measurements| == |r.measurements| + 1
  {
    var s := r.measurements + [m];
    StableSortCorrect(MeasuredLe, s);
    assert |StableSort(MeasuredLe, s)| == |multiset(StableSort(MeasuredLe, s))| == |multiset(s)| == |s|;
  }

  lemma YieldKeepsAccounts(policy: Policy, op: Op, r: Report, out: Report, accepted: seq<Measurement>)
    requires Accounts(r, accepted) && Yields(policy, op, r, out)
    ensures Accounts(out, if op.Append? then accepted + [op.m] else accepted)
  {
    if op.Append? {
      AppendedAccounts(r, accepted, op.m);
    } else {
      YieldKeepsFigures(policy, op, r, out);
    }
  }

  lemma YieldKeepsFigures(policy: Policy, op: Op, r: Report, out: Report)
    requires Yields(policy, op, r, out) && !op.Append?
    ensures out.measurements == r.measurements
    ensures out.totalExpected == r.totalExpected && out.totalActual == r.totalActual
  {
  }

  lemma YieldKeepsSound(policy: Policy, op: Op, r: Report, out: Report)
    requires Sound(policy, r) && Yields(policy, op, r, out)
    ensures out.id == r.id && out.tenant == r.tenant && Sound(policy, out)
  {
    YieldKeepsStage(policy, op, r, out);
    var accepted :| Accounts(r, accepted);
    YieldKeepsAccounts(policy, op, r, out, accepted);
  }

  lemma NewReportSound(policy: Policy, id: string, tenant: string, now: int)
    requires NewReport(id, tenant, now).Success?
    ensures Sound(policy, NewReport(id, tenant, now).value)
  {
    assert Accounts(NewReport(id, tenant, now).value, []);
  }

  lemma PutKeepsInv(policy: Policy, w: World, r: Report)
    requires Inv(policy, w) && Sound(policy, r)
    ensures Inv(policy, Put(w, r))
  {
  }

  lemma FilledKeepsInv(policy: Policy, w: World, tenant: string, id: string)
    requires Inv(policy, w)
    ensures Inv(policy, Filled(w, tenant, id))
  {
  }

  lemma FoundIsSound(policy: Policy, w: World, tenant: string, id: string)
    requires Inv(policy, w) && Find(w, tenant, id).Success?
    ensures Find(w, tenant, id).value.id == id && Sound(policy, Find(w, tenant, id).value)
  {
  }

  lemma SavesKeepsInv(policy: Policy, w: World, op: Op, w': World, out: Report)
    requires op.Append? || op.Submit? || op.Review?
    requires Inv(policy, w) && Saves(policy, w, op, w', out)
    ensures Inv(policy, w') && out.id == op.id && Sound(policy, Find(w, op.p.tenant, op.id).value)
    ensures w.persistent ==> Find(w, op.p.tenant, op.id) == DirectLoad(w.stored, op.p.tenant, op.id)
                             && w'.stored == w.stored[op.id := out]
  {
    FoundIsSound(policy, w, op.p.tenant, op.id);
    YieldKeepsSound(policy, op, Find(w, op.p.tenant, op.id).value, out);
    PutKeepsInv(policy, w, out);
  }

  lemma DoesKeepsInv(policy: Policy, w: World, op: Op, w': World)
    requires Inv(policy, w) && Does(policy, w, op, w')
    ensures Inv(policy, w') && w'.persistent == w.persistent
  {
    match op
    case Create(p, id, now) =>
      if w' != w {
        NewReportSound(policy, id, p.tenant, now);
        PutKeepsInv(policy, w, NewReport(id, p.tenant, now).value);
      }
    case Restart =>
    case _ =>
      FilledKeepsInv(policy, w, op.p.tenant, op.id);
      if w' != w && w' != Filled(w, op.p.tenant, op.id) {
        var out :| Saves(policy, w, op, w', out);
        SavesKeepsInv(policy, w, op, w', out);
      }
  }

  /** A run: any calls by any principals, succeeding or failing, with restarts. */
  ghost predicate IsRun(policy: Policy, ws: seq<World>, ops: seq<Op>) {
    && |ws| == |ops| + 1
    && forall i {:trigger ops[i]} | 0 <= i < |ops| :: Does(policy, ws[i], ops[i], ws[i + 1])
  }

  lemma {:induction false} RunKeepsInv(policy: Policy, ws: seq<World>, ops: seq<Op>)
    requires IsRun(policy, ws, ops) && Inv(policy, ws[0])
    ensures Inv(policy, ws[|ops|]) && ws[|ops|].persistent == ws[0].persistent
  {
    if ops != [] {
      var n := |ops| - 1;
      RunKeepsInv(policy, ws[..|ws| - 1], ops[..n]);
      DoesKeepsInv(policy, ws[n], ops[n], ws[n + 1]);
    }
  }

  /** Looking up through the cache answers as the store would, refusals included. */
  lemma LoadAgreesWithStore(policy: Policy, w: World, tenant: string, id: string)
    requires Inv(policy, w) && w.persistent
    ensures Find(w, tenant, id) == DirectLoad(w.stored, tenant, id)
  {
  }

  /** The measurement was valid and timely at that time, and the report records it
      as within the share that the policy's table allows of its material. */
  ghost predicate Cleared(policy: Policy, r: Report, m: Measurement, at: int) {
    var e, a := m.expected * (if m.unit == Kg then 1000 else 1), m.actual * (if m.unit == Kg then 1000 else 1);
    && m.Valid() && at - m.at <= policy.maxAge && m.at - at <= 300_000_000_000
    && m.material in policy.tolerances && 0.0 <= policy.tolerances[m.material] <= 1.0
    && (exists d | d in r.discrepancies :: d.within && RightlyJudged(policy.tolerances, m, d))
    && (e > 0 ==> (if e < a then a - e else e - a) as real <= policy.tolerances[m.material] * e as real)
  }

  lemma ApprovedIsCleared(policy: Policy, r: Report, at: int, accepted: seq<Measurement>, i: nat)
    requires JudgedAt(policy, r, at) && Accounts(r, accepted) && !NeedsInvestigation(r) && i < |r.measurements|
    ensures Cleared(policy, r, r.measurements[i], at)
  {
    var m := r.measurements[i];
    JudgementRecorded(policy, r, at, i);
    MeasurementValid(r, accepted, i);
    assert policy.Judgement(m).within by {
      assert exists k :: 0 <= k < |r.discrepancies| && r.discrepancies[k] == policy.Judgement(m);
    }
  }

  lemma JudgementRecorded(policy: Policy, r: Report, at: int, i: nat)
    requires JudgedAt(policy, r, at) && i < |r.measurements|
    ensures var m := r.measurements[i];
      && at - m.at <= policy.maxAge && m.at - at <= 300_000_000_000
      && policy.Judgement(m) in r.discrepancies && RightlyJudged(policy.tolerances, m, policy.Judgement(m))
  {
    JudgementsRight(at, policy, r.measurements);
    var m, all := r.measurements[i], Judgements(policy, r.measurements);
    assert all[i] == policy.Judgement(m);
    assert policy.Judgement(m) in multiset(all);
    assert policy.Judgement(m) in multiset(r.discrepancies);
  }

  /** A report the service holds, in its cache or in its store. */
  ghost predicate Holds(w: World, r: Report) {
    (r.id in w.cache && w.cache[r.id] == r) || (r.id in w.stored && w.stored[r.id] == r)
  }

  predicate Passed(r: Report) { r.state == Submitted || r.state == Approved }

  /** The two reports agree on what was submitted, when, and how it was judged. */
  predicate SameSubmission(r: Report, s: Report) {
    r.id == s.id && r.submittedAt == s.submittedAt && r.measurements == s.measurements && r.discrepancies == s.discrepancies
  }

  /** The call took effect as a submission of the report, and judged its measurements at its own time. */
  ghost predicate Judged(policy: Policy, w: World, op: Op, w': World, r: Report) {
    && op.Submit? && op.id == r.id && r.submittedAt == Some(op.now) && JudgedAt(policy, r, op.evalAt)
    && exists out :: Saves(policy, w, op, w', out) && SameSubmission(out, r)
  }

  /** Every submitted or approved report was judged by some step of the run. */
  ghost predicate Traced(policy: Policy, ws: seq<World>, ops: seq<Op>)
    requires |ws| == |ops| + 1
  {
    forall r | Holds(ws[|ops|], r) && Passed(r) :: exists i | 0 <= i < |ops| :: Judged(policy, ws[i], ops[i], ws[i + 1], r)
  }

  /** A submission judges what it saves; a review passes on what was judged. */
  lemma YieldTraced(policy: Policy, op: Op, r: Report, out: Report)
    requires Staged(policy, r) && Yields(policy, op, r, out) && Passed(out) && op.id == r.id
    ensures op.Submit? ==> out.id == op.id && out.submittedAt == Some(op.now) && JudgedAt(policy, out, op.evalAt)
    ensures !op.Submit? ==> Passed(r) && SameSubmission(r, out)
  {
  }

  lemma SameSubmissionJudged(policy: Policy, w: World, op: Op, w': World, r: Report, s: Report)
    requires Judged(policy, w, op, w', r) && SameSubmission(r, s)
    ensures Judged(policy, w, op, w', s)
  {
    var out :| Saves(policy, w, op, w', out) && SameSubmission(out, r);
    assert SameSubmission(out, s);
  }

  /** The call saved this very report. */
  ghost predicate Saved(policy: Policy, w: World, op: Op, w': World, r: Report) {
    (op.Append? || op.Submit? || op.Review?) && Saves(policy, w, op, w', r)
  }

  /** A submitted or approved report held after a step was held before or was saved by it. */
  lemma HeldAfter(policy: Policy, w: World, op: Op, w': World, r: Report) returns (saved: bool)
    requires Does(policy, w, op, w') && Holds(w', r) && Passed(r)
    ensures saved ==> Saved(policy, w, op, w', r)
    ensures !saved ==> Holds(w, r)
  {
    saved := !Holds(w, r);
  }

  lemma Tracing(policy: Policy, ws: seq<World>, ops: seq<Op>, r: Report) returns (i: nat)
    requires |ws| == |ops| + 1 && ops != [] && Traced(policy, ws[..|ws| - 1], ops[..|ops| - 1])
    requires Holds(ws[|ops| - 1], r) && Passed(r)
    ensures i < |ops| - 1 && Judged(policy, ws[i], ops[i], ws[i + 1], r)
  {
    var us, os := ws[..|ws| - 1], ops[..|ops| - 1];
    i :| 0 <= i < |os| && Judged(policy, us[i], os[i], us[i + 1], r);
  }

  lemma SavedTraced(policy: Policy, ws: seq<World>, ops: seq<Op>, r: Report) returns (i: nat)
    requires |ws| == |ops| + 1 && ops != [] && Passed(r)
    requires Saved(policy, ws[|ops| - 1], ops[|ops| - 1], ws[|ops|], r)
    requires Inv(policy, ws[|ops| - 1]) && Traced(policy, ws[..|ws| - 1], ops[..|ops| - 1])
    ensures i < |ops| && Judged(policy, ws[i], ops[i], ws[i + 1], r)
  {
    var w, op := ws[|ops| - 1], ops[|ops| - 1];
    var found := Find(w, op.p.tenant, op.id).value;
    FoundIsSound(policy, w, op.p.tenant, op.id);
    YieldTraced(policy, op, found, r);
    if op.Submit? {
      i := |ops| - 1;
      assert SameSubmission(r, r);
    } else {
      i := Tracing(policy, ws, ops, found);
      SameSubmissionJudged(policy, ws[i], ops[i], ws[i + 1], found, r);
    }
  }

  lemma {:induction false} RunTraced(policy: Policy, ws: seq<World>, ops: seq<Op>)
    requires IsRun(policy, ws, ops) && Inv(policy, ws[0])
    requires forall first | Holds(ws[0], first) :: !Passed(first)
    ensures Traced(policy, ws, ops)
  {
    if ops != [] {
      var n := |ops| - 1;
      RunTraced(policy, ws[..|ws| - 1], ops[..n]);
      RunKeepsInv(policy, ws[..|ws| - 1], ops[..n]);
      forall r | Holds(ws[|ops|], r) && Passed(r) ensures exists i | 0 <= i < |ops| :: Judged(policy, ws[i], ops[i], ws[i + 1], r) {
        var saved := HeldAfter(policy, ws[n], ops[n], ws[n + 1], r);
        if saved {
          var i := SavedTraced(policy, ws, ops, r);
        } else {
          var i := Tracing(policy, ws, ops, r);
        }
      }
    }
  }

  /** In every run from a world with no report submitted yet, an approved report,
      cached or only stored, holds just what one call of the run submitted, and at
      that call's time every measurement was timely and judged within tolerance. */
  lemma ApprovedIsWithinTolerance(policy: Policy, ws: seq<World>, ops: seq<Op>, r: Report) returns (i: nat)
    requires IsRun(policy, ws, ops) && Inv(policy, ws[0])
    requires forall first | Holds(ws[0], first) :: !Passed(first)
    requires Holds(ws[|ops|], r) && r.state == Approved
    ensures i < |ops| && ops[i].Submit? && ops[i].id == r.id && r.submittedAt == Some(ops[i].now)
    ensures exists out :: Saves(policy, ws[i], ops[i], ws[i + 1], out) && SameSubmission(out, r)
    ensures r.measurements != [] && forall k | 0 <= k < |r.measurements| :: Cleared(policy, r, r.measurements[k], ops[i].evalAt)
  {
    RunKeepsInv(policy, ws, ops);
    RunTraced(policy, ws, ops);
    assert Sound(policy, r);
    i :| 0 <= i < |ops| && Judged(policy, ws[i], ops[i], ws[i + 1], r);
    ApprovedCleared(policy, r, ops[i].evalAt);
  }

  lemma ApprovedCleared(policy: Policy, r: Report, at: int)
    requires Sound(policy, r) && r.state == Approved && JudgedAt(policy, r, at)
    ensures forall k | 0 <= k < |r.measurements| :: Cleared(policy, r, r.measurements[k], at)
  {
    var accepted :| Accounts(r, accepted);
    forall k | 0 <= k < |r.measurements| ensures Cleared(policy, r, r.measurements[k], at) {
      ApprovedIsCleared(policy, r, at, accepted, k);
    }
  }

  predicate Turns(r: Result<Report>, s: State) { r.Success? && r.value.state == s }

  /** A submission is approved exactly when nothing is out of tolerance; a report
      under investigation can be rejected but no longer approved. */
  lemma DecisionsOn(policy: Policy, r: Report, reviewer: string, now: int)
    requires Sound(policy, r) && !Blank(reviewer) && now != ZERO_TIME
    ensures r.state == Submitted ==> (Decide(r, reviewer, true, now).Success? <==> !NeedsInvestigation(r))
    ensures r.state == Submitted ==>
      Turns(Decide(r, reviewer, false, now), if NeedsInvestigation(r) then Investigating else Rejected)
    ensures r.state == Investigating ==>
      Decide(r, reviewer, true, now).Failure? && Turns(Decide(r, reviewer, false, now), Rejected)
    ensures r.state in {Draft, Approved, Rejected} ==>
      Decide(r, reviewer, true, now).Failure? && Decide(r, reviewer, false, now).Failure?
  {
  }

  /** How far a report can still go, short of being created anew. */
  predicate CanBecome(s: State, t: State) {
    match s
    case Draft => true
    case Submitted => t != Draft
    case Investigating => t == Investigating || t == Rejected
    case Approved => t == Approved
    case Rejected => t == Rejected
  }

  lemma YieldMoves(policy: Policy, op: Op, r: Report, out: Report)
    requires Sound(policy, r) && Yields(policy, op, r, out)
    ensures CanBecome(r.state, out.state) && r.state !in {Approved, Rejected}
  {
  }

  /** The report under an id, as a lookup by its own tenant finds it. */
  function Current(w: World, id: string): Option<Report> {
    if id in w.cache then Some(w.cache[id])
    else if w.persistent && id in w.stored then Some(w.stored[id])
    else None
  }

  /** How a report stands to an earlier one of the same id. */
  predicate Follows(first: Report, last: Report) {
    CanBecome(first.state, last.state) && (first.state in {Approved, Rejected} ==> last == first)
  }

  /** What could take a report away: its id created anew, or, when there is no
      store, a restart. */
  predicate Keeps(w: World, op: Op, id: string) {
    (op.Create? ==> op.id != id) && (op.Restart? ==> w.persistent)
  }

  /** From one step to the next a report stays, or moves on and was not final. */
  predicate Moves(before: Option<Report>, after: Option<Report>) {
    before.Some? ==>
      && after.Some?
      && (after == before || (CanBecome(before.value.state, after.value.state) && before.value.state !in {Approved, Rejected}))
  }

  /** Whatever is appended meanwhile, with a store or without, an investigation
      never ends in approval, and approved and rejected reports stay as they are. */
  lemma {:induction false} InvestigationNeverApproved(policy: Policy, ws: seq<World>, ops: seq<Op>, id: string)
    requires IsRun(policy, ws, ops) && Inv(policy, ws[0]) && Current(ws[0], id).Some?
    requires forall i | 0 <= i < |ops| :: Keeps(ws[0], ops[i], id)
    ensures Current(ws[|ops|], id).Some? && Follows(Current(ws[0], id).value, Current(ws[|ops|], id).value)
  {
    var history := seq(|ws|, i requires 0 <= i < |ws| => Current(ws[i], id));
    forall i | 0 <= i < |ops| ensures Moves(history[i], history[i + 1]) {
      assert Keeps(ws[0], ops[i], id);
      NextMoves(policy, ws, ops, i, id);
    }
    FollowsAll(history);
  }

  lemma {:induction false} FollowsAll(history: seq<Option<Report>>)
    requires history != [] && history[0].Some?
    requires forall i | 0 <= i < |history| - 1 :: Moves(history[i], history[i + 1])
    ensures history[|history| - 1].Some? && Follows(history[0].value, history[|history| - 1].value)
  {
    var n := |history| - 1;
    if n > 0 {
      FollowsAll(history[..n]);
      FollowsOn(history[0].value, history[n - 1], history[n]);
    }
  }

  lemma FollowsOn(first: Report, mid: Option<Report>, last: Option<Report>)
    requires mid.Some? && Follows(first, mid.value) && Moves(mid, last)
    ensures last.Some? && Follows(first, last.value)
  {
  }

  lemma NextMoves(policy: Policy, ws: seq<World>, ops: seq<Op>, i: nat, id: string)
    requires IsRun(policy, ws, ops) && i < |ops| && Inv(policy, ws[0]) && Keeps(ws[0], ops[i], id)
    ensures Moves(Current(ws[i], id), Current(ws[i + 1], id))
  {
    RunKeepsInv(policy, ws[..i + 1], ops[..i]);
    StepMoves(policy, ws[i], ops[i], ws[i + 1], id);
  }

  /** With a store, what a lookup finds is what is stored. */
  lemma CurrentIsStored(policy: Policy, w: World, id: string)
    requires Inv(policy, w) && w.persistent
    ensures Current(w, id) == if id in w.stored then Some(w.stored[id]) else None
  {
  }

  lemma StepMoves(policy: Policy, w: World, op: Op, w': World, id: string)
    requires Inv(policy, w) && Does(policy, w, op, w') && Keeps(w, op, id)
    ensures Moves(Current(w, id), Current(w', id))
  {
    if Current(w, id).Some? {
      if (op.Append? || op.Submit? || op.Review?) && exists out :: Saves(policy, w, op, w', out) {
        var out :| Saves(policy, w, op, w', out);
        SavesMoves(policy, w, op, w', out, id);
      } else {
        OtherwiseKept(policy, w, op, w', id);
      }
    }
  }

  lemma SavesMoves(policy: Policy, w: World, op: Op, w': World, out: Report, id: string)
    requires op.Append? || op.Submit? || op.Review?
    requires Inv(policy, w) && Saves(policy, w, op, w', out) && Current(w, id).Some?
    ensures Moves(Current(w, id), Current(w', id))
  {
    SavesKeepsInv(policy, w, op, w', out);
    CurrentAfterPut(w, out, id);
    if id == op.id {
      FoundIsCurrent(w, op.p.tenant, id);
      YieldMoves(policy, op, Current(w, id).value, out);
    }
  }

  lemma CurrentAfterPut(w: World, r: Report, id: string)
    ensures Current(Put(w, r), id) == if id == r.id then Some(r) else Current(w, id)
  {
  }

  lemma FoundIsCurrent(w: World, tenant: string, id: string)
    requires Find(w, tenant, id).Success?
    ensures Current(w, id) == Some(Find(w, tenant, id).value)
  {
  }

  /** Short of saving, a call changes no report but one it creates. */
  lemma OtherwiseKept(policy: Policy, w: World, op: Op, w': World, id: string)
    requires Inv(policy, w) && Does(policy, w, op, w') && Current(w, id).Some? && Keeps(w, op, id)
    requires !(op.Append? || op.Submit? || op.Review?) || forall out :: !Saves(policy, w, op, w', out)
    ensures Current(w', id) == Current(w, id)
  {
  }
}
