/** Any number of review-service calls in flight at once. A call's cache lookup,
    its load from the store, its filling of the cache, its save to the store and
    its update of the cache are separate steps, and any others fall between them. */
module ReviewRuns {
  import opened Common
  import opened Runs
  import opened Sorting
  import opened Reconciliation
  import opened Review

  type Call = op: Op | !op.Restart? witness Create(Principal("", "", ""), "", 0)

  /** Where a call is: it missed the cache, has the store's answer, is about to save
      what it makes of its report (none for a creation), or has saved and not cached. */
  datatype Pc =
    | Missed(op: Call)
    | Fetched(op: Call, found: Report)
    | Holding(op: Call, from: Option<Report>)
    | Written(out: Report)

  /** What a step saved: the operation and the report. */
  datatype Save = Save(op: Call, out: Report)

  datatype System = System(policy: Policy, w: World, calls: map<nat, Pc>, saves: seq<Save>)

  datatype Step =
    | Begin(c: nat, op: Call)
    | Fetch(c: nat)
    | Fill(c: nat)
    | Store(c: nat, out: Report)
    | Keep(c: nat)
    | Fail(c: nat)
    | Crash

  ghost predicate CanSave(policy: Policy, op: Call, found: Option<Report>, out: Report) {
    match found
    case None => op.Create? && NewReport(op.id, op.p.tenant, op.now) == Success(out)
    case Some(r) => Yields(policy, op, r, out)
  }

  /** What the first step of a call finds out. */
  function Lookup(w: World, op: Call): Option<Pc> {
    if !Allowed(op) then None
    else if op.Create? then Some(Holding(op, None))
    else if op.id in w.cache then
      if w.cache[op.id].tenant == op.p.tenant then Some(Holding(op, Some(w.cache[op.id]))) else None
    else if w.persistent then Some(Missed(op))
    else None
  }

  /** Steps that do not apply change nothing. A call may fail until it has saved. */
  ghost function Do(s: System, step: Step): System {
    match step
    case Begin(c, op) =>
      if c !in s.calls && Lookup(s.w, op).Some? then s.(calls := s.calls[c := Lookup(s.w, op).value]) else s
    case Fetch(c) =>
      if c !in s.calls || !s.calls[c].Missed? then s
      else
        var op := s.calls[c].op;
        (match DirectLoad(s.w.stored, op.p.tenant, op.id)
         case Success(r) => s.(calls := s.calls[c := Fetched(op, r)])
         case Failure(_) => s.(calls := s.calls - {c}))
    case Fill(c) =>
      if c !in s.calls || !s.calls[c].Fetched? then s
      else
        var op, r := s.calls[c].op, s.calls[c].found;
        s.(w := s.w.(cache := s.w.cache[op.id := r]), calls := s.calls[c := Holding(op, Some(r))])
    case Store(c, out) =>
      if c !in s.calls || !s.calls[c].Holding? || !CanSave(s.policy, s.calls[c].op, s.calls[c].from, out) then s
      else System(s.policy, if s.w.persistent then s.w.(stored := s.w.stored[out.id := out]) else s.w,
                  s.calls[c := Written(out)], s.saves + [Save(s.calls[c].op, out)])
    case Keep(c) =>
      if c !in s.calls || !s.calls[c].Written? then s
      else
        var out := s.calls[c].out;
        s.(w := s.w.(cache := s.w.cache[out.id := out]), calls := s.calls - {c})
    case Fail(c) => if c in s.calls && !s.calls[c].Written? then s.(calls := s.calls - {c}) else s
    case Crash => s.(w := s.w.(cache := map[]), calls := map[])
  }

  ghost function Run(s: System, steps: seq<Step>): System { Fold(Do, s, steps) }

  function Init(policy: Policy, persistent: bool): System {
    System(policy, World(map[], map[], persistent), map[], [])
  }

  // ------------------------------------------------- what every interleaving keeps

  /** Some save of these was the submission that judged the report, at its own time. */
  ghost predicate WasSubmitted(policy: Policy, saves: seq<Save>, r: Report) {
    exists i | 0 <= i < |saves| ::
      && saves[i].op.Submit? && r.submittedAt == Some(saves[i].op.now)
      && SameSubmission(saves[i].out, r) && JudgedAt(policy, r, saves[i].op.evalAt)
  }

  /** Some save of these was a supervisor's approval that made the report what it is. */
  ghost predicate WasApproved(saves: seq<Save>, r: Report) {
    exists i | 0 <= i < |saves| :: Approves(saves[i], r)
  }

  predicate Approves(e: Save, r: Report) {
    && e.op.Review? && e.op.approve && e.op.p.role == "supervisor" && e.out == r
    && r.reviewer == e.op.p.id && r.approvedAt == Some(e.op.now)
  }

  /** A report that may be held: sound, judged by a save if past draft, and approved by one if approved. */
  ghost predicate Fine(policy: Policy, saves: seq<Save>, r: Report, id: string) {
    && r.id == id && Sound(policy, r) && (Passed(r) ==> WasSubmitted(policy, saves, r))
    && (r.state == Approved ==> WasApproved(saves, r))
  }

  ghost predicate FineCall(policy: Policy, saves: seq<Save>, pc: Pc) {
    match pc
    case Missed(op) => !op.Create? && Allowed(op)
    case Fetched(op, found) => !op.Create? && Allowed(op) && Fine(policy, saves, found, op.id)
    case Holding(op, from) => Allowed(op) && (from.Some? ==> !op.Create? && Fine(policy, saves, from.value, op.id))
    case Written(out) => Fine(policy, saves, out, out.id)
  }

  ghost predicate AllFine(policy: Policy, saves: seq<Save>, held: map<string, Report>) {
    forall id | id in held :: Fine(policy, saves, held[id], id)
  }

  ghost predicate CallsFine(policy: Policy, saves: seq<Save>, calls: map<nat, Pc>) {
    forall c | c in calls :: FineCall(policy, saves, calls[c])
  }

  ghost predicate Good(s: System) {
    AllFine(s.policy, s.saves, s.w.cache) && AllFine(s.policy, s.saves, s.w.stored) && CallsFine(s.policy, s.saves, s.calls)
  }

  /** More saves trace no fewer reports. */
  lemma FineLater(policy: Policy, saves: seq<Save>, e: Save, r: Report, id: string)
    requires Fine(policy, saves, r, id)
    ensures Fine(policy, saves + [e], r, id)
  {
    if Passed(r) {
      var i :| 0 <= i < |saves| && saves[i].op.Submit? && r.submittedAt == Some(saves[i].op.now)
        && SameSubmission(saves[i].out, r) && JudgedAt(policy, r, saves[i].op.evalAt);
      assert (saves + [e])[i] == saves[i];
    }
    if r.state == Approved {
      var i :| 0 <= i < |saves| && Approves(saves[i], r);
      assert (saves + [e])[i] == saves[i];
    }
  }

  lemma AllFineLater(policy: Policy, saves: seq<Save>, e: Save, held: map<string, Report>)
    requires AllFine(policy, saves, held)
    ensures AllFine(policy, saves + [e], held)
  {
    forall id | id in held ensures Fine(policy, saves + [e], held[id], id) {
      FineLater(policy, saves, e, held[id], id);
    }
  }

  lemma CallsFineLater(policy: Policy, saves: seq<Save>, e: Save, calls: map<nat, Pc>)
    requires CallsFine(policy, saves, calls)
    ensures CallsFine(policy, saves + [e], calls)
  {
    forall c | c in calls ensures FineCall(policy, saves + [e], calls[c]) {
      match calls[c]
      case Missed(_) =>
      case Fetched(op, found) => FineLater(policy, saves, e, found, op.id);
      case Holding(op, from) => if from.Some? { FineLater(policy, saves, e, from.value, op.id); }
      case Written(out) => FineLater(policy, saves, e, out, out.id);
    }
  }

  /** What a call saves is fine, and about the id it was called for. */
  lemma SavedIsFine(policy: Policy, saves: seq<Save>, pc: Pc, out: Report)
    requires pc.Holding? && FineCall(policy, saves, pc) && CanSave(policy, pc.op, pc.from, out)
    ensures Fine(policy, saves + [Save(pc.op, out)], out, pc.op.id)
  {
    var e := Save(pc.op, out);
    match pc.from
    case None => NewReportSound(policy, pc.op.id, pc.op.p.tenant, pc.op.now);
    case Some(r) =>
      YieldKeepsSound(policy, pc.op, r, out);
      SaveTraced(policy, saves, pc.op, r, out);
      if out.state == Approved {
        ApprovalApproves(policy, pc.op, r, out);
        assert (saves + [e])[|saves|] == e;
      }
  }

  lemma SaveTraced(policy: Policy, saves: seq<Save>, op: Call, r: Report, out: Report)
    requires !op.Create? && Fine(policy, saves, r, op.id) && Yields(policy, op, r, out)
    ensures Passed(out) ==> WasSubmitted(policy, saves + [Save(op, out)], out)
  {
    var e := Save(op, out);
    if Passed(out) {
      YieldTraced(policy, op, r, out);
      if op.Submit? {
        assert (saves + [e])[|saves|] == e;
      } else {
        FineLater(policy, saves, e, r, op.id);
        SubmittedAlike(policy, saves + [e], r, out);
      }
    }
  }

  /** Only a supervisor's approving review turns out an approved report. */
  lemma ApprovalApproves(policy: Policy, op: Call, r: Report, out: Report)
    requires Allowed(op) && Sound(policy, r) && Yields(policy, op, r, out) && out.state == Approved
    ensures Approves(Save(op, out), out)
  {
  }

  lemma SubmittedAlike(policy: Policy, saves: seq<Save>, r: Report, out: Report)
    requires WasSubmitted(policy, saves, r) && SameSubmission(r, out)
    ensures WasSubmitted(policy, saves, out)
  {
    var i :| 0 <= i < |saves| && saves[i].op.Submit? && r.submittedAt == Some(saves[i].op.now)
      && SameSubmission(saves[i].out, r) && JudgedAt(policy, r, saves[i].op.evalAt);
    assert SameSubmission(saves[i].out, out) && JudgedAt(policy, out, saves[i].op.evalAt);
  }

  lemma StoreKeepsGood(s: System, c: nat, out: Report)
    requires Good(s) && c in s.calls && s.calls[c].Holding? && CanSave(s.policy, s.calls[c].op, s.calls[c].from, out)
    ensures Good(Do(s, Store(c, out)))
  {
    var e := Save(s.calls[c].op, out);
    SavedIsFine(s.policy, s.saves, s.calls[c], out);
    AllFineLater(s.policy, s.saves, e, s.w.cache);
    AllFineLater(s.policy, s.saves, e, s.w.stored);
    CallsFineLater(s.policy, s.saves, e, s.calls);
    FinePut(s.policy, s.saves + [e], s.w.stored, out);
    CallFinePut(s.policy, s.saves + [e], s.calls, c, Written(out));
  }

  lemma FinePut(policy: Policy, saves: seq<Save>, held: map<string, Report>, r: Report)
    requires AllFine(policy, saves, held) && Fine(policy, saves, r, r.id)
    ensures AllFine(policy, saves, held[r.id := r])
  {
  }

  lemma CallFinePut(policy: Policy, saves: seq<Save>, calls: map<nat, Pc>, c: nat, pc: Pc)
    requires CallsFine(policy, saves, calls) && FineCall(policy, saves, pc)
    ensures CallsFine(policy, saves, calls[c := pc])
  {
  }

  /** A step that saves nothing moves only fine reports about. */
  lemma QuietStepKeepsGood(s: System, step: Step)
    requires Good(s) && !step.Store?
    ensures Good(Do(s, step))
  {
    if (step.Fetch? || step.Fill? || step.Keep?) && step.c in s.calls {
      assert FineCall(s.policy, s.saves, s.calls[step.c]);
    }
  }

  lemma DoKeepsGood(s: System, step: Step)
    requires Good(s)
    ensures Good(Do(s, step))
  {
    if step.Store? {
      if Do(s, step) != s {
        StoreKeepsGood(s, step.c, step.out);
      }
    } else {
      QuietStepKeepsGood(s, step);
    }
  }

  lemma {:induction false} RunKeepsGood(s: System, steps: seq<Step>)
    requires Good(s)
    ensures Good(Run(s, steps))
  {
    if steps != [] {
      RunKeepsGood(s, steps[..|steps| - 1]);
      DoKeepsGood(Run(s, steps[..|steps| - 1]), steps[|steps| - 1]);
    }
  }

  /** Under any interleaving, lost updates included, an approved report that is held
      is just what some saved submission judged, and at that submission's time every
      measurement was timely and within tolerance; and it is what a supervisor's
      saved approval made it. */
  lemma ApprovedWasJudged(policy: Policy, persistent: bool, steps: seq<Step>, r: Report) returns (e: Save, a: Save)
    requires Holds(Run(Init(policy, persistent), steps).w, r) && r.state == Approved
    ensures e in Run(Init(policy, persistent), steps).saves && e.op.Submit? && SameSubmission(e.out, r)
    ensures r.submittedAt == Some(e.op.now)
    ensures forall k | 0 <= k < |r.measurements| :: Cleared(policy, r, r.measurements[k], e.op.evalAt)
    ensures a in Run(Init(policy, persistent), steps).saves && a.op.Review? && a.op.approve && a.out == r
    ensures a.op.p.role == "supervisor" && r.reviewer == a.op.p.id && r.approvedAt == Some(a.op.now)
  {
    RunKeepsGood(Init(policy, persistent), steps);
    RunKeepsSetup(Init(policy, persistent), steps);
    var s := Run(Init(policy, persistent), steps);
    assert Fine(policy, s.saves, r, r.id);
    var i :| 0 <= i < |s.saves| && s.saves[i].op.Submit? && r.submittedAt == Some(s.saves[i].op.now)
      && SameSubmission(s.saves[i].out, r) && JudgedAt(policy, r, s.saves[i].op.evalAt);
    e := s.saves[i];
    var j :| 0 <= j < |s.saves| && Approves(s.saves[j], r);
    a := s.saves[j];
    ApprovedCleared(policy, r, e.op.evalAt);
  }

  lemma {:induction false} RunKeepsSetup(s: System, steps: seq<Step>)
    ensures Run(s, steps).policy == s.policy && Run(s, steps).w.persistent == s.w.persistent
  {
    if steps != [] {
      RunKeepsSetup(s, steps[..|steps| - 1]);
    }
  }

  // ------------------------------------------- when a decision stands, exactly

  predicate Final(r: Report) { r.state == Approved || r.state == Rejected }

  /** The report is all that is held under its id. */
  ghost predicate Rests(s: System, r: Report) {
    && (r.id in s.w.cache ==> s.w.cache[r.id] == r)
    && (if s.w.persistent then r.id in s.w.stored && s.w.stored[r.id] == r else r.id in s.w.cache)
  }

  /** The call can put nothing else under the report's id: what it was given, may
      still save or has yet to cache is this very report, or it is about another id. */
  ghost predicate Harmless(policy: Policy, pc: Pc, r: Report) {
    match pc
    case Missed(_) => true
    case Fetched(op, found) => op.id == r.id ==> found == r
    case Holding(op, from) => op.id == r.id ==> forall out | CanSave(policy, op, from, out) :: out == r
    case Written(out) => out.id == r.id ==> out == r
  }

  ghost predicate AllHarmless(policy: Policy, calls: map<nat, Pc>, r: Report) {
    forall c | c in calls :: Harmless(policy, calls[c], r)
  }

  /** The step neither creates the report anew nor, without a store, loses the cache. */
  predicate Leaves(persistent: bool, step: Step, id: string) {
    && (step.Begin? && step.op.Create? ==> step.op.id != id)
    && (step.Crash? ==> persistent)
  }

  ghost predicate AllLeave(persistent: bool, steps: seq<Step>, id: string) {
    forall i | 0 <= i < |steps| :: Leaves(persistent, steps[i], id)
  }

  // Which id each held report and each call is about, and whose it is.

  /** A report is only given to, and only saved by, its own tenant. */
  predicate Owned(op: Call, r: Report) { r.id == op.id && r.tenant == op.p.tenant }

  predicate LabelledCall(pc: Pc) {
    match pc
    case Missed(op) => !op.Create?
    case Fetched(op, found) => !op.Create? && Owned(op, found)
    case Holding(op, from) => from.Some? ==> !op.Create? && Owned(op, from.value)
    case Written(_) => true
  }

  ghost predicate Labelled(s: System) {
    && Keyed(s.w)
    && (forall c | c in s.calls :: LabelledCall(s.calls[c]))
    && (forall c | c in s.calls && s.calls[c].Missed? :: s.w.persistent)
    && (forall e | e in s.saves :: Owned(e.op, e.out))
  }

  lemma SaveLabelled(policy: Policy, op: Call, from: Option<Report>, out: Report)
    requires CanSave(policy, op, from, out) && (from.Some? ==> Owned(op, from.value))
    ensures Owned(op, out)
  {
  }

  lemma DoKeepsLabelled(s: System, step: Step)
    requires Labelled(s)
    ensures Labelled(Do(s, step))
  {
  }

  lemma {:induction false} RunKeepsLabelled(s: System, steps: seq<Step>)
    requires Labelled(s)
    ensures Labelled(Run(s, steps))
  {
    if steps != [] {
      RunKeepsLabelled(s, steps[..|steps| - 1]);
      DoKeepsLabelled(Run(s, steps[..|steps| - 1]), steps[|steps| - 1]);
    }
  }

  /** Whatever the interleaving, every save is of a report of the caller's own tenant,
      under the id the caller named. */
  lemma SavesAreOwn(policy: Policy, persistent: bool, steps: seq<Step>, e: Save)
    requires e in Run(Init(policy, persistent), steps).saves
    ensures e.out.tenant == e.op.p.tenant && e.out.id == e.op.id
  {
    RunKeepsLabelled(Init(policy, persistent), steps);
  }

  /** With calls interleaved in any way, an approved or rejected report stays as it
      is in every later run exactly when no call under way can still put another
      report in its place. A call that loaded the report while it was open can. */
  lemma FinalStandsIff(s: System, r: Report)
    requires Labelled(s) && Final(r) && Rests(s, r)
    ensures (forall steps | AllLeave(s.w.persistent, steps, r.id) :: Rests(Run(s, steps), r))
            <==> AllHarmless(s.policy, s.calls, r)
  {
    if AllHarmless(s.policy, s.calls, r) {
      forall steps | AllLeave(s.w.persistent, steps, r.id) ensures Rests(Run(s, steps), r) {
        FinalStands(s, steps, r);
      }
    } else {
      var c :| c in s.calls && !Harmless(s.policy, s.calls[c], r);
      var steps := Overwrites(s, c, r);
      assert AllLeave(s.w.persistent, steps, r.id);
    }
  }

  lemma {:induction false} FinalStands(s: System, steps: seq<Step>, r: Report)
    requires Labelled(s) && Final(r) && Rests(s, r) && AllHarmless(s.policy, s.calls, r)
    requires AllLeave(s.w.persistent, steps, r.id)
    ensures Rests(Run(s, steps), r) && AllHarmless(s.policy, Run(s, steps).calls, r)
  {
    if steps != [] {
      FinalStands(s, steps[..|steps| - 1], r);
      RunKeepsLabelled(s, steps[..|steps| - 1]);
      RunKeepsSetup(s, steps[..|steps| - 1]);
      StepStands(Run(s, steps[..|steps| - 1]), steps[|steps| - 1], r);
    }
  }

  /** A call given a final report saves nothing. */
  lemma NothingFromFinal(policy: Policy, op: Call, r: Report)
    requires Final(r)
    ensures forall out :: !CanSave(policy, op, Some(r), out)
  {
  }

  /** A call about to save, given the report itself or one of another id. */
  lemma HoldingHarmless(policy: Policy, op: Call, found: Report, r: Report)
    requires Final(r) && (op.id == r.id ==> found == r)
    ensures Harmless(policy, Holding(op, Some(found)), r)
  {
    if op.id == r.id {
      NothingFromFinal(policy, op, r);
    }
  }

  lemma CallsHarmless(policy: Policy, calls: map<nat, Pc>, c: nat, pc: Pc, r: Report)
    requires AllHarmless(policy, calls, r) && Harmless(policy, pc, r)
    ensures AllHarmless(policy, calls[c := pc], r)
  {
  }

  lemma BeginStands(s: System, c: nat, op: Call, r: Report)
    requires Final(r) && Rests(s, r) && AllHarmless(s.policy, s.calls, r) && (op.Create? ==> op.id != r.id)
    requires Lookup(s.w, op).Some?
    ensures AllHarmless(s.policy, s.calls[c := Lookup(s.w, op).value], r)
  {
    if !op.Create? && op.id in s.w.cache {
      HoldingHarmless(s.policy, op, s.w.cache[op.id], r);
    }
    CallsHarmless(s.policy, s.calls, c, Lookup(s.w, op).value, r);
  }

  lemma FetchStands(s: System, c: nat, r: Report)
    requires Labelled(s) && Rests(s, r) && AllHarmless(s.policy, s.calls, r) && c in s.calls && s.calls[c].Missed?
    ensures AllHarmless(s.policy, Do(s, Fetch(c)).calls, r)
  {
    var op := s.calls[c].op;
    if DirectLoad(s.w.stored, op.p.tenant, op.id).Success? {
      CallsHarmless(s.policy, s.calls, c, Fetched(op, s.w.stored[op.id]), r);
    }
  }

  lemma FillStands(s: System, c: nat, r: Report)
    requires Final(r) && AllHarmless(s.policy, s.calls, r) && c in s.calls && s.calls[c].Fetched?
    ensures AllHarmless(s.policy, s.calls[c := Holding(s.calls[c].op, Some(s.calls[c].found))], r)
  {
    var pc := s.calls[c];
    assert Harmless(s.policy, pc, r);
    HoldingHarmless(s.policy, pc.op, pc.found, r);
    CallsHarmless(s.policy, s.calls, c, Holding(pc.op, Some(pc.found)), r);
  }

  lemma StoreStands(s: System, c: nat, out: Report, r: Report)
    requires Labelled(s) && AllHarmless(s.policy, s.calls, r) && c in s.calls && s.calls[c].Holding?
    requires CanSave(s.policy, s.calls[c].op, s.calls[c].from, out)
    ensures (out.id == r.id ==> out == r) && AllHarmless(s.policy, s.calls[c := Written(out)], r)
  {
    var pc := s.calls[c];
    assert LabelledCall(pc) && Harmless(s.policy, pc, r);
    SaveLabelled(s.policy, pc.op, pc.from, out);
    CallsHarmless(s.policy, s.calls, c, Written(out), r);
  }

  lemma StepStands(s: System, step: Step, r: Report)
    requires Labelled(s) && Final(r) && Rests(s, r) && AllHarmless(s.policy, s.calls, r)
    requires Leaves(s.w.persistent, step, r.id)
    ensures Rests(Do(s, step), r) && AllHarmless(s.policy, Do(s, step).calls, r)
  {
    match step
    case Begin(c, op) => if Lookup(s.w, op).Some? { BeginStands(s, c, op, r); }
    case Fetch(c) =>
      if c in s.calls && s.calls[c].Missed? {
        FetchStands(s, c, r);
      }
    case Fill(c) =>
      if c in s.calls && s.calls[c].Fetched? {
        assert Harmless(s.policy, s.calls[c], r);
        FillStands(s, c, r);
      }
    case Store(c, out) =>
      if c in s.calls && s.calls[c].Holding? && CanSave(s.policy, s.calls[c].op, s.calls[c].from, out) {
        StoreStands(s, c, out, r);
      }
    case Keep(c) => assert c in s.calls ==> Harmless(s.policy, s.calls[c], r);
    case _ =>
  }

  /** Any other call overwrites the report in at most two steps. */
  lemma Overwrites(s: System, c: nat, r: Report) returns (steps: seq<Step>)
    requires Labelled(s) && Rests(s, r) && c in s.calls && !Harmless(s.policy, s.calls[c], r)
    ensures AllLeave(s.w.persistent, steps, r.id) && !Rests(Run(s, steps), r)
  {
    match s.calls[c]
    case Fetched(_, _) => steps := FillOverwrites(s, c, r);
    case Written(_) => steps := KeepOverwrites(s, c, r);
    case Holding(_, _) => steps := SaveOverwrites(s, c, r);
  }

  lemma FillOverwrites(s: System, c: nat, r: Report) returns (steps: seq<Step>)
    requires Labelled(s) && c in s.calls && s.calls[c].Fetched? && !Harmless(s.policy, s.calls[c], r)
    ensures AllLeave(s.w.persistent, steps, r.id) && !Rests(Run(s, steps), r)
  {
    steps := Then(Do, s, [], Fill(c));
    assert Run(s, steps).w.cache[r.id] == s.calls[c].found != r;
  }

  lemma KeepOverwrites(s: System, c: nat, r: Report) returns (steps: seq<Step>)
    requires c in s.calls && s.calls[c].Written? && !Harmless(s.policy, s.calls[c], r)
    ensures AllLeave(s.w.persistent, steps, r.id) && !Rests(Run(s, steps), r)
  {
    steps := Then(Do, s, [], Keep(c));
    assert Run(s, steps).w.cache[r.id] == s.calls[c].out != r;
  }

  lemma SaveOverwrites(s: System, c: nat, r: Report) returns (steps: seq<Step>)
    requires Labelled(s) && c in s.calls && s.calls[c].Holding? && !Harmless(s.policy, s.calls[c], r)
    ensures AllLeave(s.w.persistent, steps, r.id) && !Rests(Run(s, steps), r)
  {
    var op, from := s.calls[c].op, s.calls[c].from;
    var out :| CanSave(s.policy, op, from, out) && out != r;
    assert LabelledCall(s.calls[c]);
    SaveLabelled(s.policy, op, from, out);
    steps := Then(Do, s, [], Store(c, out));
    assert Run(s, steps).calls[c] == Written(out);
    steps := Then(Do, s, steps, Keep(c));
    assert Run(s, steps).w.cache[r.id] == out;
  }

  // ------------------------------------------------- a lost update, step by step

  /** A call that finds its report at once, or creates it, and is undisturbed to its
      end saves as the serial service does. */
  lemma AloneIsSave(s: System, steps: seq<Step>, c: nat, op: Call, from: Option<Report>, out: Report)
    returns (longer: seq<Step>)
    requires var mid := Run(s, steps);
      c !in mid.calls && Lookup(mid.w, op) == Some(Holding(op, from)) && CanSave(mid.policy, op, from, out)
    ensures var mid := Run(s, steps);
      steps <= longer && Run(s, longer) == System(mid.policy, Put(mid.w, out), mid.calls, mid.saves + [Save(op, out)])
  {
    var mid := Run(s, steps);
    longer := Then(Do, s, steps, Begin(c, op));
    assert Run(s, longer).calls == mid.calls[c := Holding(op, from)];
    longer := Then(Do, s, longer, Store(c, out));
    assert Run(s, longer).calls == mid.calls[c := Written(out)];
    longer := Then(Do, s, longer, Keep(c));
    assert mid.calls[c := Written(out)] - {c} == mid.calls;
  }

  /** A report's way from its creation to its approval, and the calls that take it there. */
  datatype Story = Story(policy: Policy, creation: Call, addition: Call, submission: Call, approval: Call,
                         draft: Report, added: Report, sent: Report, passed: Report)
  {
    /** The cache and the store both hold this one report. */
    function Only(r: Report): World { World(map[draft.id := r], map[draft.id := r], true) }

    predicate About(op: Call, found: Report, out: Report) {
      !op.Create? && Allowed(op) && op.id == draft.id == out.id && op.p.tenant == found.tenant
    }

    ghost predicate Holds() {
      && creation.Create? && Allowed(creation) && CanSave(policy, creation, None, draft)
      && About(addition, draft, added) && CanSave(policy, addition, Some(draft), added)
      && About(submission, added, sent) && CanSave(policy, submission, Some(added), sent)
      && About(approval, sent, passed) && CanSave(policy, approval, Some(sent), passed)
    }

    /** Only this report is held, and an addition to the draft still waits to save. */
    ghost predicate Reached(steps: seq<Step>, r: Report) {
      var s := Run(Init(policy, true), steps);
      s.policy == policy && s.w == Only(r) && s.calls == map[0 := Holding(addition, Some(draft))]
    }
  }

  lemma StaleBegins(st: Story) returns (steps: seq<Step>)
    requires st.Holds()
    ensures st.Reached(steps, st.draft)
  {
    var s := Init(st.policy, true);
    steps := AloneIsSave(s, [], 1, st.creation, None, st.draft);
    assert Run(s, steps).w == st.Only(st.draft);
    steps := Then(Do, s, steps, Begin(0, st.addition));
  }

  lemma NextSave(st: Story, steps: seq<Step>, op: Call, from: Report, out: Report) returns (longer: seq<Step>)
    requires st.Reached(steps, from) && st.About(op, from, out) && CanSave(st.policy, op, Some(from), out)
    ensures st.Reached(longer, out) && steps <= longer
  {
    longer := AloneIsSave(Init(st.policy, true), steps, 1, op, Some(from), out);
    assert Put(st.Only(from), out) == st.Only(out);
  }

  lemma StaleSaves(st: Story, steps: seq<Step>) returns (longer: seq<Step>)
    requires st.Reached(steps, st.passed) && CanSave(st.policy, st.addition, Some(st.draft), st.added)
    requires st.added.id == st.draft.id
    ensures Run(Init(st.policy, true), longer).w == st.Only(st.added) && steps <= longer
  {
    var s := Init(st.policy, true);
    longer := Then(Do, s, steps, Store(0, st.added));
    assert Run(s, longer).calls[0] == Written(st.added);
    assert Run(s, longer).w.stored == st.Only(st.added).stored;
    longer := Then(Do, s, longer, Keep(0));
  }

  /** Whatever way a report takes to its approval: a call that loaded it as a draft
      and saves last undoes the approval. */
  lemma StaleCallReopens(st: Story) returns (steps: seq<Step>, longer: seq<Step>)
    requires st.Holds()
    ensures st.Reached(steps, st.passed) && steps <= longer
    ensures Run(Init(st.policy, true), longer).w == st.Only(st.added)
  {
    steps := StaleBegins(st);
    steps := NextSave(st, steps, st.addition, st.draft, st.added);
    steps := NextSave(st, steps, st.submission, st.added, st.sent);
    steps := NextSave(st, steps, st.approval, st.sent, st.passed);
    longer := StaleSaves(st, steps);
  }

  const POLICY := Policy(map[Lithium := 0.05], 1000)
  const BOSS := Principal("a", "a", "supervisor")
  const NOTHING := Measurement("a", Lithium, 0, 0, G, 1, "a")
  const DRAFT := Report("a", "a", Draft, [], [], 0, 0, 1, None, None, "", 1)

  /** There is such a way, from a draft to an approval. */
  lemma SomeStory() returns (st: Story)
    ensures st.Holds() && st.draft.state == st.added.state == Draft && st.passed.state == Approved
  {
    var added := DRAFT.(measurements := [NOTHING]);
    var judged := added.(discrepancies := [POLICY.Judgement(NOTHING)]);
    var sent := judged.(state := State.Submitted, submittedAt := Some(3), version := 2);
    var passed := sent.(state := Approved, reviewer := "a", approvedAt := Some(4), version := 3);
    assert !Blank("a") by { assert !Space("a"[0]); }
    SortOne(NOTHING);
    assert [] + [NOTHING] == [NOTHING];
    assert Judgements(POLICY, [NOTHING]) == [POLICY.Judgement(NOTHING)];
    assert IsEvaluation(2, POLICY, added, judged);
    assert Reconciliation.Submit(judged, 3) == Success(sent);
    st := Story(POLICY, Create(BOSS, "a", 1), Op.Append(BOSS, "a", NOTHING), Op.Submit(BOSS, "a", 2, 3),
                Op.Review(BOSS, "a", true, 4), DRAFT, added, sent, passed);
  }

  lemma SortOne(m: Measurement)
    ensures StableSort(MeasuredLe, [m]) == [m]
  {
    assert [m][..0] == [];
  }
}
