/** The transactional store and the service that drives it, statement by
    statement. Any statement, and the commit itself, may fail: statement number
    n of a call fails exactly when n is in `faults`. */
module LifecycleStore {
  import opened Common
  import opened Battery
  import opened Tables
  import opened Lifecycle
  import opened LifecycleEffects

  class Store {
    var lots: map<Token, Lot>
    var inspections: map<Token, Inspection>
    var reservations: map<Token, Reservation>
    var recoveries: map<Token, Battery.Recovery>
    var certificates: map<Token, Certificate>
    var audits: map<Token, AuditEvent>
    var idempotency: map<IdemKey, Battery.Recovery>
    var outbox: map<Token, OutboxEvent>

    function Snapshot(): Db
      reads this
    {
      Db(lots, inspections, reservations, recoveries, certificates, audits, idempotency, outbox)
    }

    /** Restores every table, as the rollback of a transaction does. */
    method Rollback(saved: Db)
      modifies this
      ensures Snapshot() == saved
    {
      lots, inspections, reservations := saved.lots, saved.inspections, saved.reservations;
      recoveries, certificates, audits := saved.recoveries, saved.certificates, saved.audits;
      idempotency, outbox := saved.idempotency, saved.outbox;
    }

    /** Ends a transaction: commits unless the body or the commit failed. */
    method EndTx(saved: Db, body: Result<()>, commitFault: bool) returns (r: Result<()>)
      modifies this
      ensures r == if body.Success? && commitFault then Failure(Unavailable) else body
      ensures Snapshot() == if r.Success? then old(Snapshot()) else saved
    {
      r := if body.Success? && commitFault then Failure(Unavailable) else body;
      if r.Failure? {
        Rollback(saved);
      }
    }

    method UpdateState(id: Token, tenant: string, target: State, version: int, fault: bool) returns (r: Result<()>)
      modifies this
      ensures Outcome(r, fault, old(Snapshot()), Snapshot(), UpdateLotState(old(Snapshot()), id, tenant, target, version))
    {
      if fault {
        return Failure(Unavailable);
      }
      if id !in lots || lots[id].tenant != tenant || lots[id].version != version {
        return Failure(Conflict);
      }
      var lot := lots[id];
      lots := lots[id := lot.(state := target, version := lot.version + 1)];
      r := Success(());
    }

    method AddLot(lot: Lot, fault: bool) returns (r: Result<()>)
      modifies this
      ensures Outcome(r, fault, old(Snapshot()), Snapshot(), InsertLot(old(Snapshot()), lot))
    {
      if fault {
        return Failure(Unavailable);
      }
      if lot.id in lots || exists k | k in lots :: lots[k].tenant == lot.tenant && lots[k].code == lot.code {
        return Failure(Constraint);
      }
      lots := lots[lot.id := lot];
      r := Success(());
    }

    method AddInspection(row: Inspection, fault: bool) returns (r: Result<()>)
      modifies this
      ensures Outcome(r, fault, old(Snapshot()), Snapshot(), InsertInspection(old(Snapshot()), row))
    {
      if fault {
        return Failure(Unavailable);
      }
      if row.id in inspections || row.lotId !in lots {
        return Failure(Constraint);
      }
      inspections := inspections[row.id := row];
      r := Success(());
    }

    method AddReservation(row: Reservation, fault: bool) returns (r: Result<()>)
      modifies this
      ensures Outcome(r, fault, old(Snapshot()), Snapshot(), InsertReservation(old(Snapshot()), row))
    {
      if fault {
        return Failure(Unavailable);
      }
      if row.id in reservations || row.lotId !in lots {
        return Failure(Constraint);
      }
      reservations := reservations[row.id := row];
      r := Success(());
    }

    method AddRecovery(row: Battery.Recovery, fault: bool) returns (r: Result<()>)
      modifies this
      ensures Outcome(r, fault, old(Snapshot()), Snapshot(), InsertRecovery(old(Snapshot()), row))
    {
      if fault {
        return Failure(Unavailable);
      }
      if row.id in recoveries || row.lotId !in lots {
        return Failure(Constraint);
      }
      recoveries := recoveries[row.id := row];
      r := Success(());
    }

    method AddCertificate(row: Certificate, fault: bool) returns (r: Result<()>)
      modifies this
      ensures Outcome(r, fault, old(Snapshot()), Snapshot(), InsertCertificate(old(Snapshot()), row))
    {
      if fault {
        return Failure(Unavailable);
      }
      if row.id in certificates || row.lotId !in lots
         || exists k | k in certificates :: certificates[k].serial == row.serial {
        return Failure(Constraint);
      }
      certificates := certificates[row.id := row];
      r := Success(());
    }

    method AddAudit(e: AuditEvent, fault: bool) returns (r: Result<()>)
      modifies this
      ensures Outcome(r, fault, old(Snapshot()), Snapshot(), InsertAudit(old(Snapshot()), e))
    {
      if fault {
        return Failure(Unavailable);
      }
      if e.id in audits {
        return Failure(Constraint);
      }
      audits := audits[e.id := e];
      r := Success(());
    }

    method AddOutbox(e: OutboxEvent, fault: bool) returns (r: Result<()>)
      modifies this
      ensures Outcome(r, fault, old(Snapshot()), Snapshot(), InsertOutbox(old(Snapshot()), e))
    {
      if fault {
        return Failure(Unavailable);
      }
      if e.id in outbox {
        return Failure(Constraint);
      }
      outbox := outbox[e.id := e];
      r := Success(());
    }

    method SaveKey(key: IdemKey, response: Battery.Recovery, fault: bool) returns (r: Result<()>)
      modifies this
      ensures Outcome(r, fault, old(Snapshot()), Snapshot(), SaveIdempotency(old(Snapshot()), key, response))
    {
      if fault {
        return Failure(Unavailable);
      }
      if key in idempotency {
        return Failure(Constraint);
      }
      idempotency := idempotency[key := response];
      r := Success(());
    }

    // The transactions. A write's statements run in source order until one fails;
    // the last fault number is the commit's.

    method IntakeTx(w: Write, faults: set<nat>) returns (r: Result<()>)
      requires w.WIntake?
      modifies this
      ensures Atomic(r, old(Snapshot()), Snapshot(), Apply(old(Snapshot()), w), faults != {})
    {
      var saved := Snapshot();
      r := AddLot(w.lot, 1 in faults);
      if r.Success? {
        r := AddAudit(w.audit, 2 in faults);
      }
      r := EndTx(saved, r, 3 in faults);
    }

    method InspectTx(w: Write, faults: set<nat>) returns (r: Result<()>)
      requires w.WInspect?
      modifies this
      ensures Atomic(r, old(Snapshot()), Snapshot(), Apply(old(Snapshot()), w), faults != {})
    {
      var saved := Snapshot();
      r := UpdateState(w.lot.id, w.lot.tenant, w.target, w.lot.version, 1 in faults);
      if r.Success? {
        r := AddInspection(w.inspection, 2 in faults);
      }
      if r.Success? {
        r := AddAudit(w.audit, 3 in faults);
      }
      r := EndTx(saved, r, 4 in faults);
    }

    method ReserveTx(w: Write, faults: set<nat>) returns (r: Result<()>)
      requires w.WReserve?
      modifies this
      ensures Atomic(r, old(Snapshot()), Snapshot(), Apply(old(Snapshot()), w), faults != {})
    {
      var saved := Snapshot();
      r := AddReservation(w.reservation, 2 in faults);
      if r.Success? {
        r := UpdateState(w.lot.id, w.lot.tenant, Battery.Reserved, w.lot.version, 3 in faults);
      }
      if r.Success? {
        r := AddAudit(w.audit, 4 in faults);
      }
      r := EndTx(saved, r, 5 in faults);
    }

    method BeginTx(w: Write, faults: set<nat>) returns (r: Result<()>)
      requires w.WBegin?
      modifies this
      ensures Atomic(r, old(Snapshot()), Snapshot(), Apply(old(Snapshot()), w), faults != {})
    {
      var saved := Snapshot();
      r := UpdateState(w.lot.id, w.lot.tenant, Dismantling, w.lot.version, 2 in faults);
      if r.Success? {
        r := AddAudit(w.audit, 3 in faults);
      }
      r := EndTx(saved, r, 4 in faults);
    }

    method RecoverTx(w: Write, faults: set<nat>) returns (r: Result<()>)
      requires w.WRecover?
      modifies this
      ensures Atomic(r, old(Snapshot()), Snapshot(), Apply(old(Snapshot()), w), faults != {})
    {
      var saved := Snapshot();
      r := AddRecovery(w.recovery, 2 in faults);
      if r.Success? {
        r := UpdateState(w.lot.id, w.lot.tenant, Battery.Recovered, w.lot.version, 3 in faults);
      }
      if r.Success? && w.key != "" {
        r := SaveKey(IdemKey(w.lot.tenant, w.key, RECOVER), w.recovery, 4 in faults);
      }
      if r.Success? {
        r := AddOutbox(w.event, 5 in faults);
      }
      if r.Success? {
        r := AddAudit(w.audit, 6 in faults);
      }
      r := EndTx(saved, r, 7 in faults);
    }

    method CertifyTx(w: Write, faults: set<nat>) returns (r: Result<()>)
      requires w.WCertify?
      modifies this
      ensures Atomic(r, old(Snapshot()), Snapshot(), Apply(old(Snapshot()), w), faults != {})
    {
      var saved := Snapshot();
      r := AddCertificate(w.certificate, 2 in faults);
      if r.Success? {
        r := UpdateState(w.lot.id, w.lot.tenant, Certified, w.lot.version, 3 in faults);
      }
      if r.Success? {
        r := AddAudit(w.audit, 4 in faults);
      }
      r := EndTx(saved, r, 5 in faults);
    }

    /** The key column of the lots table is the lot's id. */
    ghost predicate Keyed()
      reads this
    {
      forall k | k in lots :: lots[k].id == k
    }
  }

  /** One statement: it fails as a fault or as its table says, changing nothing,
      or succeeds with the table's new database. */
  ghost predicate Outcome(r: Result<()>, fault: bool, before: Db, after: Db, spec: Result<Db>) {
    if fault then r == Failure(Unavailable) && after == before
    else match spec
      case Success(db) => r == Success(()) && after == db
      case Failure(e) => r == Failure(e) && after == before
  }

  /** What a whole call may do: nothing at all if it fails, otherwise exactly
      what the specification of the call says; and without faults it fails or
      succeeds as the specification does. */
  ghost predicate Atomic<T>(r: Result<T>, before: Db, after: Db, spec: Result<Db>, faulty: bool) {
    && (r.Failure? ==> after == before)
    && (r.Success? ==> spec == Success(after))
    && (!faulty ==> (r.Success? <==> spec.Success?) && (r.Failure? ==> r.error == spec.error))
  }

  class Service {
    const store: Store

    constructor (store: Store)
      ensures this.store == store
    {
      this.store := store;
    }

    method Intake(p: Principal, id: Token, code: string, chemistry: Option<string>, hazard: int, expires: Option<int>,
                  auditId: Token, req: string, now: int, faults: set<nat>) returns (r: Result<Lot>)
      requires store.Keyed()
      modifies store
      ensures store.Keyed()
      ensures Atomic(r, old(store.Snapshot()), store.Snapshot(),
                Execute(old(store.Snapshot()), Call.Intake(p, id, code, chemistry, hazard, expires, auditId, req, now), false),
                faults != {})
      ensures r.Success? ==> chemistry.Some? && var was := old(store.Snapshot());
        && r.value == Lot(id, p.tenant, code, chemistry.value, Received, 1, now, expires, hazard, p.id)
        && store.Snapshot() == was.(
             lots := was.lots[id := r.value],
             audits := was.audits[auditId := AuditEvent(auditId, p.tenant, p.id, id, "intake", "success", req, now)])
    {
      IntakeExactly(store.Snapshot(), p, id, code, chemistry, hazard, expires, auditId, req, now);
      if !p.Can("intake") {
        return Failure(Forbidden);
      }
      if chemistry.None? || code == "" {
        return Failure(Invalid);
      }
      var lot := Lot(id, p.tenant, code, chemistry.value, Received, 1, now, expires, hazard, p.id);
      var e := store.IntakeTx(WIntake(lot, Audit(p, id, "intake", "success", req, auditId, now)), faults);
      r := if e.Success? then Success(lot) else Failure(e.error);
    }

    method Inspect(p: Principal, id: Token, result: string, notes: string, rowId: Token, auditId: Token,
                   req: string, now: int, faults: set<nat>) returns (r: Result<Lot>)
      requires store.Keyed()
      modifies store
      ensures store.Keyed()
      ensures Atomic(r, old(store.Snapshot()), store.Snapshot(),
                Execute(old(store.Snapshot()), Call.Inspect(p, id, result, notes, rowId, auditId, req, now), false), faults != {})
      ensures r.Success? ==> id in old(store.lots) && var was := old(store.Snapshot()); var lot := was.lots[id];
        && r.value == lot.(state := if result == "hold" || result == "reject" then Quarantined else Inspected)
        && store.Snapshot() == was.(
             lots := was.lots[id := r.value.(version := lot.version + 1)],
             inspections := was.inspections[rowId := Inspection(rowId, id, p.tenant, result, notes, p.id, now)],
             audits := was.audits[auditId := AuditEvent(auditId, p.tenant, p.id, id, "inspection", result, req, now)])
    {
      InspectExactly(store.Snapshot(), p, id, result, notes, rowId, auditId, req, now);
      if !p.Can("inspect") {
        return Failure(Forbidden);
      }
      if 0 in faults {
        return Failure(Unavailable);
      }
      var lot :- GetLot(store.Snapshot(), id, p.tenant);
      if !lot.CanInspect() {
        return Failure(Conflict);
      }
      var target := InspectionTarget(result);
      var row := Inspection(rowId, id, p.tenant, result, notes, p.id, now);
      var e := store.InspectTx(WInspect(lot, target, row, Audit(p, id, "inspection", result, req, auditId, now)), faults);
      r := if e.Success? then Success(lot.(state := target)) else Failure(e.error);
    }

    method Reserve(p: Principal, id: Token, station: string, rowId: Token, auditId: Token,
                   req: string, now: int, faults: set<nat>) returns (r: Result<Reservation>)
      requires store.Keyed()
      modifies store
      ensures store.Keyed()
      ensures Atomic(r, old(store.Snapshot()), store.Snapshot(),
                Execute(old(store.Snapshot()), Call.Reserve(p, id, station, rowId, auditId, req, now), 1 in faults), faults != {})
      ensures r.Success? ==> id in old(store.lots) && var was := old(store.Snapshot()); var lot := was.lots[id];
        && r.value == Battery.Reservation(rowId, id, p.tenant, station, p.id, now)
        && store.Snapshot() == was.(
             lots := was.lots[id := lot.(state := Battery.Reserved, version := lot.version + 1)],
             reservations := was.reservations[rowId := r.value],
             audits := was.audits[auditId := AuditEvent(auditId, p.tenant, p.id, id, "reserve", station, req, now)])
    {
      ReserveExactly(store.Snapshot(), p, id, station, rowId, auditId, req, now, 1 in faults);
      if !p.Can("reserve") {
        return Failure(Forbidden);
      }
      if 0 in faults {
        return Failure(Unavailable);
      }
      var lot :- GetLot(store.Snapshot(), id, p.tenant);
      if !lot.CanReserve() {
        return Failure(Conflict);
      }
      if 1 !in faults && HasActiveReservation(store.Snapshot(), id, p.tenant) {
        return Failure(Conflict);
      }
      var row := Reservation(rowId, id, p.tenant, station, p.id, now);
      var e := store.ReserveTx(WReserve(lot, row, Audit(p, id, "reserve", station, req, auditId, now)), faults);
      r := if e.Success? then Success(row) else Failure(e.error);
    }

    method BeginDismantling(p: Principal, id: Token, auditId: Token, req: string, now: int, faults: set<nat>)
      returns (r: Result<()>)
      requires store.Keyed()
      modifies store
      ensures store.Keyed()
      ensures Atomic(r, old(store.Snapshot()), store.Snapshot(),
                Execute(old(store.Snapshot()), Call.BeginDismantling(p, id, auditId, req, now), 1 in faults), faults != {})
      ensures r.Success? ==> id in old(store.lots) && var was := old(store.Snapshot()); var lot := was.lots[id];
        store.Snapshot() == was.(
          lots := was.lots[id := lot.(state := Dismantling, version := lot.version + 1)],
          audits := was.audits[auditId := AuditEvent(auditId, p.tenant, p.id, id, "dismantling", "started", req, now)])
    {
      BeginExactly(store.Snapshot(), p, id, auditId, req, now, 1 in faults);
      if !p.Can("reserve") {
        return Failure(Forbidden);
      }
      if 0 in faults {
        return Failure(Unavailable);
      }
      var lot :- GetLot(store.Snapshot(), id, p.tenant);
      if lot.state != Battery.Reserved {
        return Failure(Conflict);
      }
      if 1 in faults || !HasActiveReservation(store.Snapshot(), id, p.tenant) {
        return Failure(Conflict);
      }
      r := store.BeginTx(WBegin(lot, Audit(p, id, "dismantling", "started", req, auditId, now)), faults);
    }

    /** A stored response is replayed before the lot is even read. */
    method Recover(p: Principal, id: Token, li: int, ni: int, co: int, key: string, rowId: Token, outboxId: Token,
                   auditId: Token, req: string, now: int, faults: set<nat>) returns (r: Result<Battery.Recovery>)
      requires store.Keyed()
      modifies store
      ensures store.Keyed()
      ensures Atomic(r, old(store.Snapshot()), store.Snapshot(),
                Execute(old(store.Snapshot()), Call.Recover(p, id, li, ni, co, key, rowId, outboxId, auditId, req, now),
                  0 in faults), faults != {})
      ensures r.Success? && key != "" ==>
                var k := IdemKey(p.tenant, key, "recover");
                k in store.idempotency && r.value == store.idempotency[k]
      ensures r.Success? && store.Snapshot() != old(store.Snapshot()) ==>
        id in old(store.lots) && var was := old(store.Snapshot()); var lot := was.lots[id];
        && r.value == Battery.Recovery(rowId, id, p.tenant, li, ni, co, now)
        && store.Snapshot() == was.(
             lots := was.lots[id := lot.(state := Battery.Recovered, version := lot.version + 1)],
             recoveries := was.recoveries[rowId := r.value],
             idempotency := if key == "" then was.idempotency else was.idempotency[IdemKey(p.tenant, key, "recover") := r.value],
             outbox := was.outbox[outboxId := OutboxEvent(outboxId, p.tenant, id, "recovery.confirmed", r.value)],
             audits := was.audits[auditId := AuditEvent(auditId, p.tenant, p.id, id, "recover", "confirmed", req, now)])
    {
      RecoverExactly(store.Snapshot(), p, id, li, ni, co, key, rowId, outboxId, auditId, req, now, 0 in faults);
      if !p.Can("recover") {
        return Failure(Forbidden);
      }
      var k := IdemKey(p.tenant, key, RECOVER);
      if key != "" && 0 !in faults && k in store.idempotency {
        return if 2 in faults then Failure(Unavailable) else Success(store.idempotency[k]);
      }
      if 1 in faults {
        return Failure(Unavailable);
      }
      var lot :- GetLot(store.Snapshot(), id, p.tenant);
      if !lot.CanRecover() {
        return Failure(Conflict);
      }
      if li < 0 || ni < 0 || co < 0 || li + ni + co == 0 {
        return Failure(Invalid);
      }
      var row := Battery.Recovery(rowId, id, p.tenant, li, ni, co, now);
      var event := OutboxEvent(outboxId, p.tenant, id, "recovery.confirmed", row);
      var e := store.RecoverTx(WRecover(lot, row, key, event, Audit(p, id, "recover", "confirmed", req, auditId, now)), faults);
      r := if e.Success? then Success(row) else Failure(e.error);
    }

    method Certify(p: Principal, id: Token, rowId: Token, auditId: Token, req: string, now: int, faults: set<nat>)
      returns (r: Result<Certificate>)
      requires store.Keyed()
      modifies store
      ensures store.Keyed()
      ensures Atomic(r, old(store.Snapshot()), store.Snapshot(),
                Execute(old(store.Snapshot()), Call.Certify(p, id, rowId, auditId, req, now), 1 in faults), faults != {})
      ensures r.Success? ==> id in old(store.lots) && var was := old(store.Snapshot()); var lot := was.lots[id];
        && r.value == Battery.Certificate(rowId, id, p.tenant, "DC-" + lot.code, now)
        && store.Snapshot() == was.(
             lots := was.lots[id := lot.(state := Certified, version := lot.version + 1)],
             certificates := was.certificates[rowId := r.value],
             audits := was.audits[auditId := AuditEvent(auditId, p.tenant, p.id, id, "certificate", "issued", req, now)])
    {
      CertifyExactly(store.Snapshot(), p, id, rowId, auditId, req, now, 1 in faults);
      if !p.Can("certify") {
        return Failure(Forbidden);
      }
      if 0 in faults {
        return Failure(Unavailable);
      }
      var lot :- GetLot(store.Snapshot(), id, p.tenant);
      if !lot.CanCertify() {
        return Failure(Conflict);
      }
      if 1 !in faults && HasCertificate(store.Snapshot(), id, p.tenant) {
        return Failure(Conflict);
      }
      var row := Certificate(rowId, id, p.tenant, Serial(lot.code), now);
      var e := store.CertifyTx(WCertify(lot, row, Audit(p, id, "certificate", "issued", req, auditId, now)), faults);
      r := if e.Success? then Success(row) else Failure(e.error);
    }
  }
}
