/** Where stored data comes from: in every run each lot and each row is, field for
    field, what one started call asked for, and that call's write was committed. */
module LifecycleOrigins {
  import opened Common
  import opened Battery
  import opened Tables
  import opened Lifecycle
  import opened LifecycleRuns
  import opened LifecycleEffects
  import opened LifecycleTheorems

  /** The audit event of a call. */
  predicate Audits(e: AuditEvent, c: Call, action: string, result: string) {
    e == AuditEvent(c.auditId, c.p.tenant, c.p.id, c.lotId, action, result, c.requestId, c.now)
  }

  /** The lot an intake call asks for. */
  predicate Takes(c: Call, lot: Lot) {
    c.Intake? && c.chemistry.Some?
    && lot == Lot(c.lotId, c.p.tenant, c.code, c.chemistry.value, Received, 1, c.now, c.expires, c.hazard, c.p.id)
  }

  /** The write carries out exactly what the call asked, on a lot of the caller's. */
  predicate Asks(c: Call, w: Write) {
    w.lot.id == c.lotId && w.lot.tenant == c.p.tenant &&
    match w
    case WIntake(lot, audit) => Takes(c, lot) && Audits(audit, c, "intake", "success")
    case WInspect(_, target, row, audit) =>
      && c.Inspect? && target == (if c.result == "hold" || c.result == "reject" then Quarantined else Inspected)
      && row == Inspection(c.rowId, c.lotId, c.p.tenant, c.result, c.notes, c.p.id, c.now)
      && Audits(audit, c, "inspection", c.result)
    case WReserve(_, row, audit) =>
      && c.Reserve? && row == Battery.Reservation(c.rowId, c.lotId, c.p.tenant, c.station, c.p.id, c.now)
      && Audits(audit, c, "reserve", c.station)
    case WBegin(_, audit) => c.BeginDismantling? && Audits(audit, c, "dismantling", "started")
    case WRecover(_, row, key, event, audit) =>
      && c.Recover? && key == c.key
      && row == Battery.Recovery(c.rowId, c.lotId, c.p.tenant, c.lithium, c.nickel, c.cobalt, c.now)
      && event == OutboxEvent(c.outboxId, c.p.tenant, c.lotId, "recovery.confirmed", row)
      && Audits(audit, c, "recover", "confirmed")
    case WCertify(lot, row, audit) =>
      && c.Certify? && row == Battery.Certificate(c.rowId, c.lotId, c.p.tenant, "DC-" + lot.code, c.now)
      && Audits(audit, c, "certificate", "issued")
  }

  lemma PrepareAsks(db: Db, c: Call, auxFault: bool)
    requires KeyedLots(db) && Prepare(db, c, auxFault).Success? && Prepare(db, c, auxFault).value.Proceed?
    ensures Asks(c, Prepare(db, c, auxFault).value.w)
  {
  }

  ghost predicate Asked(steps: seq<Step>, w: Write) {
    exists i | 0 <= i < |steps| :: steps[i].Start? && Asks(steps[i].call, w)
  }

  ghost predicate Commits(log: seq<Event>, w: Write) { Committed(w) in log }

  /** State and version apart, the two lots are one. */
  predicate SameLot(a: Lot, b: Lot) { a == b.(state := a.state, version := a.version) }

  /** Each lot was taken in by a committed write, each row written by one. */
  ghost predicate Logs(db: Db, log: seq<Event>) {
    && (forall id | id in db.lots :: exists w :: Commits(log, w) && w.WIntake? && SameLot(w.lot, db.lots[id]))
    && (forall k | k in db.inspections :: exists w :: Commits(log, w) && w.WInspect? && w.inspection == db.inspections[k])
    && (forall k | k in db.reservations :: exists w :: Commits(log, w) && w.WReserve? && w.reservation == db.reservations[k])
    && (forall k | k in db.recoveries :: exists w :: Commits(log, w) && w.WRecover? && w.recovery == db.recoveries[k])
    && (forall k | k in db.certificates :: exists w :: Commits(log, w) && w.WCertify? && w.certificate == db.certificates[k])
    && (forall k | k in db.outbox :: exists w :: Commits(log, w) && w.WRecover? && w.event == db.outbox[k])
    && (forall k | k in db.audits :: exists w :: Commits(log, w) && w.audit == db.audits[k])
  }

  ghost predicate Traced(s: System, steps: seq<Step>) {
    && (forall id | id in s.pending :: Asked(steps, s.pending[id]))
    && (forall w | Commits(s.log, w) :: Asked(steps, w))
    && Logs(s.db, s.log)
  }

  lemma AskedLater(steps: seq<Step>, step: Step, w: Write)
    requires Asked(steps, w)
    ensures Asked(steps + [step], w)
  {
    var i :| 0 <= i < |steps| && steps[i].Start? && Asks(steps[i].call, w);
    assert (steps + [step])[i] == steps[i];
  }

  lemma LogsAfter(db: Db, log: seq<Event>, w: Write)
    requires Logs(db, log) && (!w.WIntake? ==> w.lot.id in db.lots)
    ensures Logs(After(db, w), log + [Committed(w)])
  {
    var log' := log + [Committed(w)];
    assert Commits(log', w);
    assert forall v | Commits(log, v) :: Commits(log', v);
  }

  lemma StartTraced(s: System, steps: seq<Step>, id: nat, c: Call, auxFault: bool)
    requires KeyedLots(s.db) && Traced(s, steps) && forall w | Asked(steps, w) :: Asked(steps + [Start(id, c, auxFault)], w)
    ensures Traced(Do(s, Start(id, c, auxFault)), steps + [Start(id, c, auxFault)])
  {
    if id !in s.pending && Prepare(s.db, c, auxFault).Success? && Prepare(s.db, c, auxFault).value.Proceed? {
      PrepareAsks(s.db, c, auxFault);
      assert (steps + [Start(id, c, auxFault)])[|steps|].call == c;
    }
    LogsLonger(s.db, s.log, Do(s, Start(id, c, auxFault)).log);
  }

  lemma FinishTraced(s: System, steps: seq<Step>, id: nat, fault: bool)
    requires Good(s) && Traced(s, steps) && forall w | Asked(steps, w) :: Asked(steps + [Finish(id, fault)], w)
    ensures Traced(Do(s, Finish(id, fault)), steps + [Finish(id, fault)])
  {
    if id in s.pending {
      FinishExact(s, id, fault);
      assert Fits(s.db, s.pending[id]);
      if Applicable(s.db, s.pending[id]) && !fault {
        LogsAfter(s.db, s.log, s.pending[id]);
      }
    }
  }

  lemma StepTraced(s: System, steps: seq<Step>, step: Step)
    requires Good(s) && Traced(s, steps)
    ensures Traced(Do(s, step), steps + [step])
  {
    forall w | Asked(steps, w) ensures Asked(steps + [step], w) {
      AskedLater(steps, step, w);
    }
    match step
    case Start(id, c, auxFault) => StartTraced(s, steps, id, c, auxFault);
    case Finish(id, fault) => FinishTraced(s, steps, id, fault);
  }

  lemma LogsLonger(db: Db, log: seq<Event>, log': seq<Event>)
    requires Logs(db, log) && forall w | Commits(log, w) :: Commits(log', w)
    ensures Logs(db, log')
  {
  }

  lemma {:induction false} RunTraced(steps: seq<Step>)
    ensures Traced(Run(INIT, steps), steps)
  {
    if steps != [] {
      var n := |steps| - 1;
      RunTraced(steps[..n]);
      InterleavedInvariant(steps[..n]);
      StepTraced(Run(INIT, steps[..n]), steps[..n], steps[n]);
      assert steps[..n] + [steps[n]] == steps;
    }
  }

  /** Every lot ever stored is, but for its state and version, what an intake call
      asked for whose write was committed. */
  lemma LotIsAsAsked(steps: seq<Step>, id: Token) returns (i: nat, w: Write)
    requires id in Run(INIT, steps).db.lots
    ensures i < |steps| && steps[i].Start? && steps[i].call.Intake? && steps[i].call.chemistry.Some?
    ensures var c, lot := steps[i].call, Run(INIT, steps).db.lots[id];
      lot == Lot(id, c.p.tenant, c.code, c.chemistry.value, lot.state, lot.version, c.now, c.expires, c.hazard, c.p.id)
    ensures w.WIntake? && Asks(steps[i].call, w) && Committed(w) in Run(INIT, steps).log
  {
    RunTraced(steps);
    InterleavedInvariant(steps);
    var s := Run(INIT, steps);
    w :| Commits(s.log, w) && w.WIntake? && SameLot(w.lot, s.db.lots[id]);
    i := Asker(s, steps, w);
  }

  /** The call behind a committed write. */
  lemma Asker(s: System, steps: seq<Step>, w: Write) returns (i: nat)
    requires Traced(s, steps) && Commits(s.log, w)
    ensures i < |steps| && steps[i].Start? && Asks(steps[i].call, w)
  {
    assert Asked(steps, w);
    i :| 0 <= i < |steps| && steps[i].Start? && Asks(steps[i].call, w);
  }

  lemma InspectionIsAsAsked(steps: seq<Step>, k: Token) returns (i: nat, w: Write)
    requires k in Run(INIT, steps).db.inspections
    ensures i < |steps| && steps[i].Start? && steps[i].call.Inspect?
    ensures var c := steps[i].call;
      Run(INIT, steps).db.inspections[k] == Inspection(c.rowId, c.lotId, c.p.tenant, c.result, c.notes, c.p.id, c.now)
    ensures Asks(steps[i].call, w) && Committed(w) in Run(INIT, steps).log
  {
    RunTraced(steps);
    var s := Run(INIT, steps);
    w :| Commits(s.log, w) && w.WInspect? && w.inspection == s.db.inspections[k];
    i := Asker(s, steps, w);
  }

  lemma ReservationIsAsAsked(steps: seq<Step>, k: Token) returns (i: nat, w: Write)
    requires k in Run(INIT, steps).db.reservations
    ensures i < |steps| && steps[i].Start? && steps[i].call.Reserve?
    ensures var c := steps[i].call;
      Run(INIT, steps).db.reservations[k] == Battery.Reservation(c.rowId, c.lotId, c.p.tenant, c.station, c.p.id, c.now)
    ensures Asks(steps[i].call, w) && Committed(w) in Run(INIT, steps).log
  {
    RunTraced(steps);
    var s := Run(INIT, steps);
    w :| Commits(s.log, w) && w.WReserve? && w.reservation == s.db.reservations[k];
    i := Asker(s, steps, w);
  }

  lemma RecoveryIsAsAsked(steps: seq<Step>, k: Token) returns (i: nat, w: Write)
    requires k in Run(INIT, steps).db.recoveries
    ensures i < |steps| && steps[i].Start? && steps[i].call.Recover?
    ensures var c := steps[i].call;
      Run(INIT, steps).db.recoveries[k] == Battery.Recovery(c.rowId, c.lotId, c.p.tenant, c.lithium, c.nickel, c.cobalt, c.now)
    ensures Asks(steps[i].call, w) && Committed(w) in Run(INIT, steps).log
  {
    RunTraced(steps);
    var s := Run(INIT, steps);
    w :| Commits(s.log, w) && w.WRecover? && w.recovery == s.db.recoveries[k];
    i := Asker(s, steps, w);
  }

  lemma OutboxIsAsAsked(steps: seq<Step>, k: Token) returns (i: nat, w: Write)
    requires k in Run(INIT, steps).db.outbox
    ensures i < |steps| && steps[i].Start? && steps[i].call.Recover?
    ensures var c := steps[i].call;
      Run(INIT, steps).db.outbox[k] == OutboxEvent(c.outboxId, c.p.tenant, c.lotId, "recovery.confirmed",
        Battery.Recovery(c.rowId, c.lotId, c.p.tenant, c.lithium, c.nickel, c.cobalt, c.now))
    ensures Asks(steps[i].call, w) && Committed(w) in Run(INIT, steps).log
  {
    RunTraced(steps);
    var s := Run(INIT, steps);
    w :| Commits(s.log, w) && w.WRecover? && w.event == s.db.outbox[k];
    i := Asker(s, steps, w);
  }

  /** A certificate names the code its lot was taken in with. */
  lemma CertificateIsAsAsked(steps: seq<Step>, k: Token) returns (i: nat, w: Write)
    requires k in Run(INIT, steps).db.certificates
    ensures i < |steps| && steps[i].Start? && steps[i].call.Certify?
    ensures var c, db := steps[i].call, Run(INIT, steps).db;
      && c.lotId in db.lots
      && db.certificates[k] == Battery.Certificate(c.rowId, c.lotId, c.p.tenant, "DC-" + db.lots[c.lotId].code, c.now)
    ensures Asks(steps[i].call, w) && Committed(w) in Run(INIT, steps).log
  {
    RunTraced(steps);
    InterleavedInvariant(steps);
    var s := Run(INIT, steps);
    w :| Commits(s.log, w) && w.WCertify? && w.certificate == s.db.certificates[k];
    i := Asker(s, steps, w);
    assert s.db.certificates[k].lotId == steps[i].call.lotId;
  }

  /** Every audit event names the caller, the lot, the request and the time of one
      committed call, and what it did. */
  lemma AuditIsAsAsked(steps: seq<Step>, k: Token) returns (i: nat, w: Write)
    requires k in Run(INIT, steps).db.audits
    ensures i < |steps| && steps[i].Start?
    ensures var c, e := steps[i].call, Run(INIT, steps).db.audits[k];
      match c
      case Intake(_, _, _, _, _, _, _, _, _) => Audits(e, c, "intake", "success")
      case Inspect(_, _, _, _, _, _, _, _) => Audits(e, c, "inspection", c.result)
      case Reserve(_, _, _, _, _, _, _) => Audits(e, c, "reserve", c.station)
      case BeginDismantling(_, _, _, _, _) => Audits(e, c, "dismantling", "started")
      case Recover(_, _, _, _, _, _, _, _, _, _, _) => Audits(e, c, "recover", "confirmed")
      case Certify(_, _, _, _, _, _) => Audits(e, c, "certificate", "issued")
    ensures Asks(steps[i].call, w) && Committed(w) in Run(INIT, steps).log
  {
    RunTraced(steps);
    var s := Run(INIT, steps);
    w :| Commits(s.log, w) && w.audit == s.db.audits[k];
    i := Asker(s, steps, w);
  }
}
