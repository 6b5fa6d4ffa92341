/** The eight tables the lot lifecycle touches, with the key, uniqueness and
    reference rules of migrations/001_initial.sql. Each statement either fails
    or returns the database with that one change. */
module Tables {
  import opened Common
  import opened Battery

  datatype IdemKey = IdemKey(tenant: string, key: string, operation: string)

  datatype Db = Db(
    lots: map<Token, Lot>,
    inspections: map<Token, Inspection>,
    reservations: map<Token, Reservation>,
    recoveries: map<Token, Recovery>,
    certificates: map<Token, Certificate>,
    audits: map<Token, AuditEvent>,
    idempotency: map<IdemKey, Recovery>,
    outbox: map<Token, OutboxEvent>)

  const EMPTY := Db(map[], map[], map[], map[], map[], map[], map[], map[])

  function GetLot(db: Db, id: Token, tenant: string): Result<Lot> {
    if id in db.lots && db.lots[id].tenant == tenant then Success(db.lots[id]) else Failure(NotFound)
  }

  function InsertLot(db: Db, lot: Lot): Result<Db> {
    if lot.id in db.lots || exists k | k in db.lots :: db.lots[k].tenant == lot.tenant && db.lots[k].code == lot.code
    then Failure(Constraint)
    else Success(db.(lots := db.lots[lot.id := lot]))
  }

  /** The compare-and-swap: no row matches unless id, tenant and version all do. */
  function UpdateLotState(db: Db, id: Token, tenant: string, target: State, version: int): Result<Db> {
    if id in db.lots && db.lots[id].tenant == tenant && db.lots[id].version == version
    then Success(db.(lots := db.lots[id := db.lots[id].(state := target, version := version + 1)]))
    else Failure(Conflict)
  }

  function InsertInspection(db: Db, r: Inspection): Result<Db> {
    if r.id in db.inspections || r.lotId !in db.lots then Failure(Constraint)
    else Success(db.(inspections := db.inspections[r.id := r]))
  }

  function InsertReservation(db: Db, r: Reservation): Result<Db> {
    if r.id in db.reservations || r.lotId !in db.lots then Failure(Constraint)
    else Success(db.(reservations := db.reservations[r.id := r]))
  }

  /** No operation ever sets released_at, so every reservation is active. */
  predicate HasActiveReservation(db: Db, lotId: Token, tenant: string) {
    exists k | k in db.reservations :: db.reservations[k].lotId == lotId && db.reservations[k].tenant == tenant
  }

  function InsertRecovery(db: Db, r: Recovery): Result<Db> {
    if r.id in db.recoveries || r.lotId !in db.lots then Failure(Constraint)
    else Success(db.(recoveries := db.recoveries[r.id := r]))
  }

  predicate SerialTaken(db: Db, serial: string) {
    exists k | k in db.certificates :: db.certificates[k].serial == serial
  }

  function InsertCertificate(db: Db, r: Certificate): Result<Db> {
    if r.id in db.certificates || r.lotId !in db.lots || SerialTaken(db, r.serial) then Failure(Constraint)
    else Success(db.(certificates := db.certificates[r.id := r]))
  }

  predicate HasCertificate(db: Db, lotId: Token, tenant: string) {
    exists k | k in db.certificates :: db.certificates[k].lotId == lotId && db.certificates[k].tenant == tenant
  }

  function InsertAudit(db: Db, e: AuditEvent): Result<Db> {
    if e.id in db.audits then Failure(Constraint)
    else Success(db.(audits := db.audits[e.id := e]))
  }

  function InsertOutbox(db: Db, e: OutboxEvent): Result<Db> {
    if e.id in db.outbox then Failure(Constraint)
    else Success(db.(outbox := db.outbox[e.id := e]))
  }

  function SaveIdempotency(db: Db, key: IdemKey, response: Recovery): Result<Db> {
    if key in db.idempotency then Failure(Constraint)
    else Success(db.(idempotency := db.idempotency[key := response]))
  }
}
