/** Serial calls: they are the interleaved system with the two steps adjacent,
    so they keep the invariant, and they can take any lot as far as recovery. */
module LifecycleProgress {
  import opened Common
  import opened Battery
  import opened Tables
  import opened Lifecycle
  import opened LifecycleRuns
  import opened LifecycleTheorems

  /** A serial call is a read step followed at once by its write step. */
  lemma SerialIsTwoSteps(s: System, id: nat, c: Call, auxFault: bool)
    requires Good(s) && id !in s.pending
    ensures var s' := Do(Do(s, Start(id, c, auxFault)), Finish(id, false));
      s'.pending == s.pending &&
      match Execute(s.db, c, auxFault)
      case Success(db) => s'.db == db && |s'.log| == |s.log| + 1
      case Failure(_) => s'.db == s.db && s'.log == s.log
  {
    var s1 := Do(s, Start(id, c, auxFault));
    assert s1.pending - {id} == s.pending;
  }

  lemma SerialKeepsInv(db: Db, c: Call, auxFault: bool)
    requires DbInv(db) && Execute(db, c, auxFault).Success?
    ensures DbInv(Execute(db, c, auxFault).value)
  {
    var s := System(db, map[], []);
    SerialIsTwoSteps(s, 0, c, auxFault);
    DoKeepsGood(s, Start(0, c, auxFault));
    DoKeepsGood(Do(s, Start(0, c, auxFault)), Finish(0, false));
  }

  function ExecuteAll(db: Db, calls: seq<Call>): Result<Db> {
    if calls == [] then Success(db) else
      var mid :- ExecuteAll(db, calls[..|calls| - 1]);
      Execute(mid, calls[|calls| - 1], false)
  }

  /** Every id in use is below n. */
  ghost predicate UsedBelow(db: Db, n: Token) {
    && (forall k | k in db.lots :: k < n)
    && (forall k | k in db.inspections :: k < n)
    && (forall k | k in db.reservations :: k < n)
    && (forall k | k in db.recoveries :: k < n)
    && (forall k | k in db.certificates :: k < n)
    && (forall k | k in db.audits :: k < n)
    && (forall k | k in db.outbox :: k < n)
  }

  ghost predicate Reached(db: Db, calls: seq<Call>, now: Db) {
    ExecuteAll(db, calls) == Success(now) && DbInv(now)
  }

  /** Appends a call whose write is known and applicable. */
  lemma Extend(db: Db, calls: seq<Call>, now: Db, c: Call, w: Write)
    requires Reached(db, calls, now)
    requires Prepare(now, c, false) == Success(Proceed(w)) && Applicable(now, w)
    ensures Reached(db, calls + [c], After(now, w))
  {
    PrepareWellFormed(now, c, false);
    ApplyExact(now, w);
    SerialKeepsInv(now, c, false);
    assert (calls + [c])[..|calls|] == calls;
  }

  const WORKER := "w"

  function Supervisor(tenant: string): Principal { Principal(WORKER, tenant, "supervisor") }

  /** Lot n has come as far as a state, and ids from m on are unused. */
  ghost predicate At(db: Db, n: Token, tenant: string, code: string, state: State, m: Token) {
    && n in db.lots && UsedBelow(db, m)
    && var lot := db.lots[n];
       lot.id == n && lot.tenant == tenant && lot.code == code && lot.state == state && lot.hazard < 70
  }

  /** The ids a write uses are below n. */
  predicate IdsBelow(w: Write, n: Token) {
    && w.lot.id < n && w.audit.id < n
    && (w.WInspect? ==> w.inspection.id < n)
    && (w.WReserve? ==> w.reservation.id < n)
    && (w.WRecover? ==> w.recovery.id < n && w.event.id < n)
    && (w.WCertify? ==> w.certificate.id < n)
  }

  lemma AtAfter(db: Db, w: Write, m: Token, n: Token)
    requires Applicable(db, w) && (!w.WIntake? ==> db.lots[w.lot.id] == w.lot)
    requires UsedBelow(db, m) && m <= n && IdsBelow(w, n) && w.lot.hazard < 70
    requires w.WIntake? ==> w.lot.state == Received
    ensures At(After(db, w), w.lot.id, w.lot.tenant, w.lot.code, Target(w), n)
    ensures After(db, w).lots == db.lots[w.lot.id := After(db, w).lots[w.lot.id]]
  {
  }

  lemma StageIntake(db: Db, calls: seq<Call>, mid: Db, n: Token, tenant: string, code: string)
    returns (calls': seq<Call>, now: Db)
    requires Reached(db, calls, mid) && UsedBelow(mid, n) && code != ""
    requires forall k | k in mid.lots :: mid.lots[k].tenant != tenant || mid.lots[k].code != code
    ensures Reached(db, calls', now) && At(now, n, tenant, code, Received, n + 2)
    ensures now.lots == mid.lots[n := now.lots[n]]
  {
    var c := Call.Intake(Supervisor(tenant), n, code, Some("LFP"), 0, None, n + 1, "", 0);
    var lot := Lot(n, tenant, code, "LFP", Received, 1, 0, None, 0, WORKER);
    var w := WIntake(lot, Audit(Supervisor(tenant), n, "intake", "success", "", n + 1, 0));
    Extend(db, calls, mid, c, w);
    AtAfter(mid, w, n, n + 2);
    calls', now := calls + [c], After(mid, w);
  }

  lemma StageInspect(db: Db, calls: seq<Call>, mid: Db, n: Token, tenant: string, code: string, m: Token)
    returns (calls': seq<Call>, now: Db)
    requires Reached(db, calls, mid) && At(mid, n, tenant, code, Received, m)
    ensures Reached(db, calls', now) && At(now, n, tenant, code, Inspected, m + 2)
    ensures now.lots == mid.lots[n := now.lots[n]]
  {
    var c := Call.Inspect(Supervisor(tenant), n, "pass", "", m, m + 1, "", 0);
    var w := WInspect(mid.lots[n], Inspected, Battery.Inspection(m, n, tenant, "pass", "", WORKER, 0),
                      Audit(Supervisor(tenant), n, "inspection", "pass", "", m + 1, 0));
    Extend(db, calls, mid, c, w);
    AtAfter(mid, w, m, m + 2);
    calls', now := calls + [c], After(mid, w);
  }

  lemma StageReserve(db: Db, calls: seq<Call>, mid: Db, n: Token, tenant: string, code: string, m: Token)
    returns (calls': seq<Call>, now: Db)
    requires Reached(db, calls, mid) && At(mid, n, tenant, code, Inspected, m)
    ensures Reached(db, calls', now) && At(now, n, tenant, code, State.Reserved, m + 2)
    ensures now.lots == mid.lots[n := now.lots[n]]
  {
    LookupsFollowState(mid, n);
    var c := Call.Reserve(Supervisor(tenant), n, "s", m, m + 1, "", 0);
    var w := WReserve(mid.lots[n], Battery.Reservation(m, n, tenant, "s", WORKER, 0),
                      Audit(Supervisor(tenant), n, "reserve", "s", "", m + 1, 0));
    Extend(db, calls, mid, c, w);
    AtAfter(mid, w, m, m + 2);
    calls', now := calls + [c], After(mid, w);
  }

  lemma StageBegin(db: Db, calls: seq<Call>, mid: Db, n: Token, tenant: string, code: string, m: Token)
    returns (calls': seq<Call>, now: Db)
    requires Reached(db, calls, mid) && At(mid, n, tenant, code, State.Reserved, m)
    ensures Reached(db, calls', now) && At(now, n, tenant, code, Dismantling, m + 1)
    ensures now.lots == mid.lots[n := now.lots[n]]
  {
    LookupsFollowState(mid, n);
    var c := Call.BeginDismantling(Supervisor(tenant), n, m, "", 0);
    var w := WBegin(mid.lots[n], Audit(Supervisor(tenant), n, "dismantling", "started", "", m, 0));
    Extend(db, calls, mid, c, w);
    AtAfter(mid, w, m, m + 1);
    calls', now := calls + [c], After(mid, w);
  }

  lemma StageRecover(db: Db, calls: seq<Call>, mid: Db, n: Token, tenant: string, code: string, m: Token)
    returns (calls': seq<Call>, now: Db)
    requires Reached(db, calls, mid) && At(mid, n, tenant, code, Dismantling, m)
    ensures Reached(db, calls', now) && At(now, n, tenant, code, Recovered, m + 3)
    ensures now.lots == mid.lots[n := now.lots[n]]
  {
    var c := Call.Recover(Supervisor(tenant), n, 1, 0, 0, "", m, m + 1, m + 2, "", 0);
    var r := Battery.Recovery(m, n, tenant, 1, 0, 0, 0);
    var w := WRecover(mid.lots[n], r, "", OutboxEvent(m + 1, tenant, n, "recovery.confirmed", r),
                      Audit(Supervisor(tenant), n, "recover", "confirmed", "", m + 2, 0));
    Extend(db, calls, mid, c, w);
    AtAfter(mid, w, m, m + 3);
    calls', now := calls + [c], After(mid, w);
  }

  lemma StageCertify(db: Db, calls: seq<Call>, mid: Db, n: Token, tenant: string, code: string, m: Token)
    returns (calls': seq<Call>, now: Db)
    requires Reached(db, calls, mid) && At(mid, n, tenant, code, Recovered, m)
    requires forall id | id in mid.lots && mid.lots[id].code == code :: mid.lots[id].state != Certified
    ensures Reached(db, calls', now) && At(now, n, tenant, code, Certified, m + 2)
    ensures now.lots == mid.lots[n := now.lots[n]]
  {
    LookupsFollowState(mid, n);
    SerialTakenIff(mid, code);
    var c := Call.Certify(Supervisor(tenant), n, m, m + 1, "", 0);
    var w := WCertify(mid.lots[n], Battery.Certificate(m, n, tenant, Serial(code), 0),
                      Audit(Supervisor(tenant), n, "certificate", "issued", "", m + 1, 0));
    Extend(db, calls, mid, c, w);
    AtAfter(mid, w, m, m + 2);
    calls', now := calls + [c], After(mid, w);
  }

  lemma LotCanBeReserved(db: Db, before: seq<Call>, mid: Db, tenant: string, code: string, n: Token)
    returns (calls: seq<Call>, now: Db)
    requires Reached(db, before, mid) && UsedBelow(mid, n) && code != ""
    requires forall k | k in mid.lots :: mid.lots[k].tenant != tenant || mid.lots[k].code != code
    ensures Reached(db, calls, now) && At(now, n, tenant, code, State.Reserved, n + 6)
    ensures now.lots == mid.lots[n := now.lots[n]]
  {
    calls, now := StageIntake(db, before, mid, n, tenant, code);
    calls, now := StageInspect(db, calls, now, n, tenant, code, n + 2);
    calls, now := StageReserve(db, calls, now, n, tenant, code, n + 4);
  }

  /** From any database with the invariant, any code its tenant has not used can
      be taken from intake to recovery, leaving every other lot as it was. */
  lemma LotCanBeRecovered(db: Db, before: seq<Call>, mid: Db, tenant: string, code: string, n: Token)
    returns (calls: seq<Call>, now: Db)
    requires Reached(db, before, mid) && UsedBelow(mid, n) && code != ""
    requires forall k | k in mid.lots :: mid.lots[k].tenant != tenant || mid.lots[k].code != code
    ensures Reached(db, calls, now) && At(now, n, tenant, code, Recovered, n + 10)
    ensures now.lots == mid.lots[n := now.lots[n]]
  {
    calls, now := LotCanBeReserved(db, before, mid, tenant, code, n);
    calls, now := StageBegin(db, calls, now, n, tenant, code, n + 6);
    calls, now := StageRecover(db, calls, now, n, tenant, code, n + 7);
  }

  /** Two lots share a code and the first is certified, the second not. */
  ghost predicate Blocks(db: Db, certified: Token, blocked: Token) {
    && certified in db.lots && blocked in db.lots && db.lots[certified].code == db.lots[blocked].code
    && db.lots[certified].state == Certified && db.lots[blocked].state != Certified
  }

  /** A write that applies leaves both as they are, or moves the second short of Certified. */
  lemma WriteKeepsBlocks(db: Db, w: Write, certified: Token, blocked: Token)
    requires DbInv(db) && Fits(db, w) && Applicable(db, w) && Blocks(db, certified, blocked)
    ensures Blocks(After(db, w), certified, blocked)
  {
    WriteAdvances(db, w);
    SerialTakenIff(db, db.lots[certified].code);
  }

  /** In every later run, whoever calls and however the calls interleave, a lot
      stays uncertified once another with its code is certified. */
  lemma {:induction false} BlockedForever(s: System, steps: seq<Step>, certified: Token, blocked: Token)
    requires Good(s) && Blocks(s.db, certified, blocked)
    ensures Good(Run(s, steps)) && Blocks(Run(s, steps).db, certified, blocked)
  {
    if steps != [] {
      BlockedForever(s, steps[..|steps| - 1], certified, blocked);
      var mid, last := Run(s, steps[..|steps| - 1]), steps[|steps| - 1];
      DoKeepsGood(mid, last);
      if last.Finish? && last.id in mid.pending {
        FinishExact(mid, last.id, last.fault);
        assert Fits(mid.db, mid.pending[last.id]);
        if Applicable(mid.db, mid.pending[last.id]) {
          WriteKeepsBlocks(mid.db, mid.pending[last.id], certified, blocked);
        }
      }
    }
  }

  lemma SharedCodeReached() returns (calls: seq<Call>, db: Db)
    ensures Reached(EMPTY, calls, db) && At(db, 20, "b", "X", Recovered, 30) && Blocks(db, 0, 20)
  {
    InterleavedInvariant([]);
    calls, db := LotCanBeRecovered(EMPTY, [], EMPTY, "a", "X", 0);
    calls, db := StageCertify(EMPTY, calls, db, 0, "a", "X", 10);
    calls, db := LotCanBeRecovered(EMPTY, calls, db, "b", "X", 20);
  }

  /** Two tenants may use one code, but only the first to certify can: here the
      second tenant's recovered lot is refused, now and in every later run. */
  lemma SharedCodeBlocksCertification() returns (calls: seq<Call>, db: Db)
    ensures Reached(EMPTY, calls, db) && At(db, 20, "b", "X", Recovered, 30)
    ensures forall row, audit :: Execute(db, Call.Certify(Supervisor("b"), 20, row, audit, "", 0), false).Failure?
    ensures forall s: System, steps | s.db == db && Good(s) :: Blocks(Run(s, steps).db, 0, 20)
  {
    calls, db := SharedCodeReached();
    forall row, audit ensures Execute(db, Call.Certify(Supervisor("b"), 20, row, audit, "", 0), false).Failure? {
      CertifySucceedsIff(db, Call.Certify(Supervisor("b"), 20, row, audit, "", 0), false);
    }
    forall s: System, steps | s.db == db && Good(s) ensures Blocks(Run(s, steps).db, 0, 20) {
      BlockedForever(s, steps, 0, 20);
    }
  }
}
