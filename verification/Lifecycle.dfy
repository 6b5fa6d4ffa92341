/** The six lot operations, each split into a read step that checks the guards
    and a write step that runs the statements of one transaction. Run back to
    back the two steps are the serial operation; kept apart they are the
    interleaved system, where a write works from stale reads and only the
    version compare-and-swap and the table keys protect it. */
module Lifecycle {
  import opened Common
  import opened Battery
  import opened Tables

  const RECOVER := "recover"

  /** One call with its arguments, the random tokens it draws and the clock reading it takes. */
  datatype Call =
    | Intake(p: Principal, lotId: Token, code: string, chemistry: Option<string>, hazard: int,
             expires: Option<int>, auditId: Token, requestId: string, now: int)
    | Inspect(p: Principal, lotId: Token, result: string, notes: string,
              rowId: Token, auditId: Token, requestId: string, now: int)
    | Reserve(p: Principal, lotId: Token, station: string,
              rowId: Token, auditId: Token, requestId: string, now: int)
    | BeginDismantling(p: Principal, lotId: Token, auditId: Token, requestId: string, now: int)
    | Recover(p: Principal, lotId: Token, lithium: int, nickel: int, cobalt: int, key: string,
              rowId: Token, outboxId: Token, auditId: Token, requestId: string, now: int)
    | Certify(p: Principal, lotId: Token, rowId: Token, auditId: Token, requestId: string, now: int)

  /** The writes a call goes on to make; `lot` is the row it read. */
  datatype Write =
    | WIntake(lot: Lot, audit: AuditEvent)
    | WInspect(lot: Lot, target: State, inspection: Inspection, audit: AuditEvent)
    | WReserve(lot: Lot, reservation: Reservation, audit: AuditEvent)
    | WBegin(lot: Lot, audit: AuditEvent)
    | WRecover(lot: Lot, recovery: Recovery, key: string, event: OutboxEvent, audit: AuditEvent)
    | WCertify(lot: Lot, certificate: Certificate, audit: AuditEvent)

  datatype Decision = Proceed(w: Write) | Replay(recovery: Recovery)

  function Audit(p: Principal, lotId: Token, action: string, result: string, requestId: string,
                 id: Token, now: int): AuditEvent
  {
    AuditEvent(id, p.tenant, p.id, lotId, action, result, requestId, now)
  }

  function InspectionTarget(result: string): State {
    if result == "hold" || result == "reject" then Quarantined else Inspected
  }

  function Serial(code: string): string { "DC-" + code }

  /** The reads and guards of a call, in source order. `auxFault` makes the
      secondary lookup (reservation, certificate or idempotency key) fail; the
      code then treats the row as absent. */
  function Prepare(db: Db, c: Call, auxFault: bool): Result<Decision> {
    match c
    case Intake(p, id, code, chemistry, hazard, expires, auditId, req, now) =>
      if !p.Can("intake") then Failure(Forbidden)
      else if chemistry.None? || code == "" then Failure(Invalid)
      else Success(Proceed(WIntake(
        Lot(id, p.tenant, code, chemistry.value, Received, 1, now, expires, hazard, p.id),
        Audit(p, id, "intake", "success", req, auditId, now))))
    case Inspect(p, id, result, notes, rowId, auditId, req, now) =>
      if !p.Can("inspect") then Failure(Forbidden) else
        var lot :- GetLot(db, id, p.tenant);
        if !lot.CanInspect() then Failure(Conflict)
        else Success(Proceed(WInspect(lot, InspectionTarget(result),
          Inspection(rowId, id, p.tenant, result, notes, p.id, now),
          Audit(p, id, "inspection", result, req, auditId, now))))
    case Reserve(p, id, station, rowId, auditId, req, now) =>
      if !p.Can("reserve") then Failure(Forbidden) else
        var lot :- GetLot(db, id, p.tenant);
        if !lot.CanReserve() then Failure(Conflict)
        else if !auxFault && HasActiveReservation(db, id, p.tenant) then Failure(Conflict)
        else Success(Proceed(WReserve(lot, Reservation(rowId, id, p.tenant, station, p.id, now),
          Audit(p, id, "reserve", station, req, auditId, now))))
    case BeginDismantling(p, id, auditId, req, now) =>
      if !p.Can("reserve") then Failure(Forbidden) else
        var lot :- GetLot(db, id, p.tenant);
        if lot.state != Reserved then Failure(Conflict)
        else if auxFault || !HasActiveReservation(db, id, p.tenant) then Failure(Conflict)
        else Success(Proceed(WBegin(lot, Audit(p, id, "dismantling", "started", req, auditId, now))))
    case Recover(p, id, li, ni, co, key, rowId, outboxId, auditId, req, now) =>
      if !p.Can("recover") then Failure(Forbidden)
      else if key != "" && !auxFault && IdemKey(p.tenant, key, RECOVER) in db.idempotency
      then Success(Replay(db.idempotency[IdemKey(p.tenant, key, RECOVER)]))
      else
        var lot :- GetLot(db, id, p.tenant);
        if !lot.CanRecover() then Failure(Conflict)
        else if li < 0 || ni < 0 || co < 0 || li + ni + co == 0 then Failure(Invalid)
        else
          var r := Battery.Recovery(rowId, id, p.tenant, li, ni, co, now);
          Success(Proceed(WRecover(lot, r, key, OutboxEvent(outboxId, p.tenant, id, "recovery.confirmed", r),
            Audit(p, id, "recover", "confirmed", req, auditId, now))))
    case Certify(p, id, rowId, auditId, req, now) =>
      if !p.Can("certify") then Failure(Forbidden) else
        var lot :- GetLot(db, id, p.tenant);
        if !lot.CanCertify() then Failure(Conflict)
        else if !auxFault && HasCertificate(db, id, p.tenant) then Failure(Conflict)
        else Success(Proceed(WCertify(lot, Certificate(rowId, id, p.tenant, Serial(lot.code), now),
          Audit(p, id, "certificate", "issued", req, auditId, now))))
  }

  /** The statements of the transaction, in source order. */
  function Apply(db: Db, w: Write): Result<Db> {
    match w
    case WIntake(lot, audit) =>
      var d1 :- InsertLot(db, lot);
      InsertAudit(d1, audit)
    case WInspect(lot, target, inspection, audit) =>
      var d1 :- UpdateLotState(db, lot.id, lot.tenant, target, lot.version);
      var d2 :- InsertInspection(d1, inspection);
      InsertAudit(d2, audit)
    case WReserve(lot, reservation, audit) =>
      var d1 :- InsertReservation(db, reservation);
      var d2 :- UpdateLotState(d1, lot.id, lot.tenant, Reserved, lot.version);
      InsertAudit(d2, audit)
    case WBegin(lot, audit) =>
      var d1 :- UpdateLotState(db, lot.id, lot.tenant, Dismantling, lot.version);
      InsertAudit(d1, audit)
    case WRecover(lot, recovery, key, event, audit) =>
      var d1 :- InsertRecovery(db, recovery);
      var d2 :- UpdateLotState(d1, lot.id, lot.tenant, Recovered, lot.version);
      var d3 :- if key == "" then Success(d2)
                else SaveIdempotency(d2, IdemKey(lot.tenant, key, RECOVER), recovery);
      var d4 :- InsertOutbox(d3, event);
      InsertAudit(d4, audit)
    case WCertify(lot, certificate, audit) =>
      var d1 :- InsertCertificate(db, certificate);
      var d2 :- UpdateLotState(d1, lot.id, lot.tenant, Certified, lot.version);
      InsertAudit(d2, audit)
  }

  /** A call whose read and write steps see the same database. */
  function Execute(db: Db, c: Call, auxFault: bool): Result<Db> {
    var d :- Prepare(db, c, auxFault);
    match d
    case Proceed(w) => Apply(db, w)
    case Replay(_) => Success(db)
  }

  // ---------------------------------------------------------------- the invariant

  datatype Table = Inspections | Reservations | Recoveries | Certificates | Audits | Outbox

  /** Which lot and tenant a row is about. */
  datatype Tag = Tag(lot: Token, tenant: string)

  ghost function InspectionsTags(m: map<Token, Inspection>): map<Token, Tag> { map k | k in m :: Tag(m[k].lotId, m[k].tenant) }
  ghost function ReservationsTags(m: map<Token, Reservation>): map<Token, Tag> { map k | k in m :: Tag(m[k].lotId, m[k].tenant) }
  ghost function RecoveriesTags(m: map<Token, Battery.Recovery>): map<Token, Tag> { map k | k in m :: Tag(m[k].lotId, m[k].tenant) }
  ghost function CertificatesTags(m: map<Token, Certificate>): map<Token, Tag> { map k | k in m :: Tag(m[k].lotId, m[k].tenant) }
  ghost function AuditsTags(m: map<Token, AuditEvent>): map<Token, Tag> { map k | k in m :: Tag(m[k].objectId, m[k].tenant) }
  ghost function OutboxTags(m: map<Token, OutboxEvent>): map<Token, Tag> { map k | k in m :: Tag(m[k].lotId, m[k].tenant) }

  ghost function Tags(db: Db, t: Table): map<Token, Tag> {
    match t
    case Inspections => InspectionsTags(db.inspections)
    case Reservations => ReservationsTags(db.reservations)
    case Recoveries => RecoveriesTags(db.recoveries)
    case Certificates => CertificatesTags(db.certificates)
    case Audits => AuditsTags(db.audits)
    case Outbox => OutboxTags(db.outbox)
  }

  ghost function RowsOf(tags: map<Token, Tag>, lot: Token): set<Token> {
    set k | k in tags && tags[k].lot == lot
  }

  function VersionOf(s: State): nat {
    match s
    case Received => 1
    case Inspected => 2
    case Quarantined => 2
    case Reserved => 3
    case Dismantling => 4
    case Recovered => 5
    case Certified => 6
  }

  predicate ReservedOrLater(s: State) { s in {Reserved, Dismantling, Recovered, Certified} }

  /** How many rows of each table a lot in a given state has. */
  function RowCount(t: Table, s: State): nat {
    match t
    case Inspections => if s == Received then 0 else 1
    case Reservations => if ReservedOrLater(s) then 1 else 0
    case Recoveries => if s in {Recovered, Certified} then 1 else 0
    case Outbox => if s in {Recovered, Certified} then 1 else 0
    case Certificates => if s == Certified then 1 else 0
    case Audits => VersionOf(s)
  }

  ghost predicate LotsSound(db: Db) {
    && (forall id | id in db.lots ::
          var lot := db.lots[id];
          lot.id == id && lot.version == VersionOf(lot.state) && (ReservedOrLater(lot.state) ==> lot.hazard < 70))
    && (forall a, b | a in db.lots && b in db.lots && a != b ::
          db.lots[a].tenant != db.lots[b].tenant || db.lots[a].code != db.lots[b].code)
  }

  /** Every row of a table belongs to an existing lot of its own tenant, and
      each lot has the number of rows its state calls for. */
  ghost predicate TagsSound(lots: map<Token, Lot>, t: Table, tags: map<Token, Tag>) {
    && (forall k | k in tags :: tags[k].lot in lots && lots[tags[k].lot].tenant == tags[k].tenant)
    && (forall id | id in lots :: |RowsOf(tags, id)| == RowCount(t, lots[id].state))
  }

  ghost predicate TablesSound(db: Db) {
    forall t: Table :: TagsSound(db.lots, t, Tags(db, t))
  }

  predicate ValidRecovery(r: Recovery) {
    r.lithium >= 0 && r.nickel >= 0 && r.cobalt >= 0 && r.lithium + r.nickel + r.cobalt > 0
  }

  /** A hold or reject verdict is exactly a quarantined lot. */
  ghost predicate VerdictsFaithful(db: Db) {
    forall k | k in db.inspections :: db.inspections[k].lotId in db.lots &&
      (InspectionTarget(db.inspections[k].result) == Quarantined) ==
      (db.lots[db.inspections[k].lotId].state == Quarantined)
  }

  ghost predicate SerialsFaithful(db: Db) {
    forall k | k in db.certificates :: db.certificates[k].lotId in db.lots &&
      db.certificates[k].serial == Serial(db.lots[db.certificates[k].lotId].code)
  }

  ghost predicate IsRecoveryRow(db: Db, r: Recovery) {
    r.id in db.recoveries && db.recoveries[r.id] == r
  }

  /** A stored response and a queued payload are recovery rows of the right tenant and lot. */
  ghost predicate RecoveriesFaithful(db: Db) {
    && (forall k | k in db.recoveries :: db.recoveries[k].id == k && ValidRecovery(db.recoveries[k]))
    && (forall k | k in db.idempotency ::
          db.idempotency[k].tenant == k.tenant && IsRecoveryRow(db, db.idempotency[k]))
    && (forall k | k in db.outbox ::
          db.outbox[k].payload.lotId == db.outbox[k].lotId && IsRecoveryRow(db, db.outbox[k].payload))
  }

  ghost predicate DbInv(db: Db) {
    && LotsSound(db) && TablesSound(db)
    && VerdictsFaithful(db) && SerialsFaithful(db) && RecoveriesFaithful(db)
  }

  // ------------------------------------------------------- what one write changes

  /** The state a write moves its lot to. */
  function Target(w: Write): State {
    match w
    case WIntake(_, _) => Received
    case WInspect(_, target, _, _) => target
    case WReserve(_, _, _) => Reserved
    case WBegin(_, _) => Dismantling
    case WRecover(_, _, _, _, _) => Recovered
    case WCertify(_, _, _) => Certified
  }

  /** The row, if any, a write adds to a table. */
  function NewRow(w: Write, t: Table): Option<Token> {
    match t
    case Audits => Some(w.audit.id)
    case Inspections => if w.WInspect? then Some(w.inspection.id) else None
    case Reservations => if w.WReserve? then Some(w.reservation.id) else None
    case Recoveries => if w.WRecover? then Some(w.recovery.id) else None
    case Outbox => if w.WRecover? then Some(w.event.id) else None
    case Certificates => if w.WCertify? then Some(w.certificate.id) else None
  }

  /** What Prepare guarantees of the write it returns, whatever the database does next. */
  predicate WellFormed(w: Write) {
    var lot := w.lot;
    && w.audit.objectId == lot.id && w.audit.tenant == lot.tenant
    && match w
       case WIntake(_, _) => lot.state == Received && lot.version == 1
       case WInspect(_, target, r, _) =>
         lot.CanInspect() && r.lotId == lot.id && r.tenant == lot.tenant && target == InspectionTarget(r.result)
       case WReserve(_, r, _) => lot.CanReserve() && r.lotId == lot.id && r.tenant == lot.tenant
       case WBegin(_, _) => lot.state == Reserved
       case WRecover(_, r, key, e, _) =>
         lot.CanRecover() && r.lotId == lot.id && r.tenant == lot.tenant && ValidRecovery(r)
         && e.lotId == lot.id && e.tenant == lot.tenant && e.payload == r
       case WCertify(_, r, _) =>
         lot.CanCertify() && r.lotId == lot.id && r.tenant == lot.tenant && r.serial == Serial(lot.code)
  }

  lemma PrepareWellFormed(db: Db, c: Call, auxFault: bool)
    requires LotsSound(db)
    requires Prepare(db, c, auxFault).Success? && Prepare(db, c, auxFault).value.Proceed?
    ensures WellFormed(Prepare(db, c, auxFault).value.w)
    ensures var w := Prepare(db, c, auxFault).value.w;
            w.lot.tenant == c.p.tenant && w.lot.id == c.lotId && (c.Intake? <==> w.WIntake?)
    ensures var w := Prepare(db, c, auxFault).value.w;
            !w.WIntake? ==> w.lot.id in db.lots && db.lots[w.lot.id] == w.lot
  {
  }

  /** The new ids and key are unused and the new serial is not taken. */
  predicate Unused(db: Db, w: Write) {
    && w.audit.id !in db.audits
    && match w
       case WIntake(_, _) => true
       case WInspect(_, _, r, _) => r.id !in db.inspections
       case WReserve(_, r, _) => r.id !in db.reservations
       case WBegin(_, _) => true
       case WRecover(lot, r, key, e, _) =>
         r.id !in db.recoveries && e.id !in db.outbox
         && (key != "" ==> IdemKey(lot.tenant, key, RECOVER) !in db.idempotency)
       case WCertify(_, r, _) => r.id !in db.certificates && !SerialTaken(db, r.serial)
  }

  /** When the statements of a write all succeed: the lot is still at the version read. */
  predicate Applicable(db: Db, w: Write) {
    && Unused(db, w)
    && if w.WIntake?
       then w.lot.id !in db.lots
            && forall k | k in db.lots :: db.lots[k].tenant != w.lot.tenant || db.lots[k].code != w.lot.code
       else w.lot.id in db.lots && db.lots[w.lot.id].tenant == w.lot.tenant
            && db.lots[w.lot.id].version == w.lot.version
  }

  function LotAfter(db: Db, w: Write): Lot
    requires !w.WIntake? ==> w.lot.id in db.lots
  {
    if w.WIntake? then w.lot else db.lots[w.lot.id].(state := Target(w), version := w.lot.version + 1)
  }

  /** The database a successful write leaves: one lot row, at most one new row a table. */
  function After(db: Db, w: Write): Db
    requires !w.WIntake? ==> w.lot.id in db.lots
  {
    Db(db.lots[w.lot.id := LotAfter(db, w)],
       if w.WInspect? then db.inspections[w.inspection.id := w.inspection] else db.inspections,
       if w.WReserve? then db.reservations[w.reservation.id := w.reservation] else db.reservations,
       if w.WRecover? then db.recoveries[w.recovery.id := w.recovery] else db.recoveries,
       if w.WCertify? then db.certificates[w.certificate.id := w.certificate] else db.certificates,
       db.audits[w.audit.id := w.audit],
       if w.WRecover? && w.key != "" then db.idempotency[IdemKey(w.lot.tenant, w.key, RECOVER) := w.recovery]
       else db.idempotency,
       if w.WRecover? then db.outbox[w.event.id := w.event] else db.outbox)
  }

  lemma WIntakeExact(db: Db, w: Write)
    requires w.WIntake? && WellFormed(w)
    ensures Apply(db, w).Success? ==> Applicable(db, w)
    ensures Applicable(db, w) ==> Apply(db, w) == Success(After(db, w))
  {
  }

  lemma WInspectExact(db: Db, w: Write)
    requires w.WInspect? && WellFormed(w)
    ensures Apply(db, w).Success? ==> Applicable(db, w)
    ensures Applicable(db, w) ==> Apply(db, w) == Success(After(db, w))
  {
  }

  lemma WReserveExact(db: Db, w: Write)
    requires w.WReserve? && WellFormed(w)
    ensures Apply(db, w).Success? ==> Applicable(db, w)
    ensures Applicable(db, w) ==> Apply(db, w) == Success(After(db, w))
  {
  }

  lemma WBeginExact(db: Db, w: Write)
    requires w.WBegin? && WellFormed(w)
    ensures Apply(db, w).Success? ==> Applicable(db, w)
    ensures Applicable(db, w) ==> Apply(db, w) == Success(After(db, w))
  {
  }

  lemma WRecoverExact(db: Db, w: Write)
    requires w.WRecover? && WellFormed(w)
    ensures Apply(db, w).Success? ==> Applicable(db, w)
    ensures Applicable(db, w) ==> Apply(db, w) == Success(After(db, w))
  {
    if Applicable(db, w) {
      var d1 := db.(recoveries := After(db, w).recoveries);
      var d2 := d1.(lots := After(db, w).lots);
      assert InsertRecovery(db, w.recovery) == Success(d1);
      assert UpdateLotState(d1, w.lot.id, w.lot.tenant, Recovered, w.lot.version) == Success(d2);
    }
  }

  lemma WCertifyExact(db: Db, w: Write)
    requires w.WCertify? && WellFormed(w)
    ensures Apply(db, w).Success? ==> Applicable(db, w)
    ensures Applicable(db, w) ==> Apply(db, w) == Success(After(db, w))
  {
  }

  /** A write succeeds exactly when it is applicable, and then has exactly the effect of After. */
  lemma ApplyExact(db: Db, w: Write)
    requires WellFormed(w)
    ensures Apply(db, w).Success? <==> Applicable(db, w)
    ensures Applicable(db, w) ==> Apply(db, w) == Success(After(db, w))
  {
    match w
    case WIntake(_, _) => WIntakeExact(db, w);
    case WInspect(_, _, _, _) => WInspectExact(db, w);
    case WReserve(_, _, _) => WReserveExact(db, w);
    case WBegin(_, _) => WBeginExact(db, w);
    case WRecover(_, _, _, _, _) => WRecoverExact(db, w);
    case WCertify(_, _, _) => WCertifyExact(db, w);
  }

  /** Which rows each table gains. */
  lemma TagsAfter(db: Db, w: Write, t: Table)
    requires WellFormed(w) && Applicable(db, w)
    ensures match NewRow(w, t)
            case None => Tags(After(db, w), t) == Tags(db, t)
            case Some(k) => k !in Tags(db, t) && Tags(After(db, w), t) == Tags(db, t)[k := Tag(w.lot.id, w.lot.tenant)]
  {
    match t
    case Inspections => if w.WInspect? { InspectionsTagsAfter(db, w); }
    case Reservations => if w.WReserve? { ReservationsTagsAfter(db, w); }
    case Recoveries => if w.WRecover? { RecoveriesTagsAfter(db, w); }
    case Certificates => if w.WCertify? { CertificatesTagsAfter(db, w); }
    case Audits => AuditsTagsAfter(db, w);
    case Outbox => if w.WRecover? { OutboxTagsAfter(db, w); }
  }

  lemma InspectionsTagsAfter(db: Db, w: Write)
    requires WellFormed(w) && w.WInspect?
    ensures InspectionsTags(db.inspections[w.inspection.id := w.inspection]) == InspectionsTags(db.inspections)[w.inspection.id := Tag(w.lot.id, w.lot.tenant)]
  {
  }

  lemma ReservationsTagsAfter(db: Db, w: Write)
    requires WellFormed(w) && w.WReserve?
    ensures ReservationsTags(db.reservations[w.reservation.id := w.reservation]) == ReservationsTags(db.reservations)[w.reservation.id := Tag(w.lot.id, w.lot.tenant)]
  {
  }

  lemma RecoveriesTagsAfter(db: Db, w: Write)
    requires WellFormed(w) && w.WRecover?
    ensures RecoveriesTags(db.recoveries[w.recovery.id := w.recovery]) == RecoveriesTags(db.recoveries)[w.recovery.id := Tag(w.lot.id, w.lot.tenant)]
  {
  }

  lemma CertificatesTagsAfter(db: Db, w: Write)
    requires WellFormed(w) && w.WCertify?
    ensures CertificatesTags(db.certificates[w.certificate.id := w.certificate]) == CertificatesTags(db.certificates)[w.certificate.id := Tag(w.lot.id, w.lot.tenant)]
  {
  }

  lemma AuditsTagsAfter(db: Db, w: Write)
    requires WellFormed(w)
    ensures AuditsTags(db.audits[w.audit.id := w.audit]) == AuditsTags(db.audits)[w.audit.id := Tag(w.lot.id, w.lot.tenant)]
  {
  }

  lemma OutboxTagsAfter(db: Db, w: Write)
    requires WellFormed(w) && w.WRecover?
    ensures OutboxTags(db.outbox[w.event.id := w.event]) == OutboxTags(db.outbox)[w.event.id := Tag(w.lot.id, w.lot.tenant)]
  {
  }

  lemma RowsOfInsert(tags: map<Token, Tag>, k: Token, tag: Tag, lot: Token)
    requires k !in tags
    ensures |RowsOf(tags[k := tag], lot)| == |RowsOf(tags, lot)| + if tag.lot == lot then 1 else 0
  {
    var extra := if tag.lot == lot then {k} else {};
    assert RowsOf(tags[k := tag], lot) == RowsOf(tags, lot) + extra;
  }

  lemma TagsSoundAfter(lots: map<Token, Lot>, t: Table, tags: map<Token, Tag>, lot: Lot, row: Option<Token>)
    requires TagsSound(lots, t, tags)
    requires row.Some? ==> row.value !in tags
    requires lot.id in lots ==> lots[lot.id].tenant == lot.tenant
    requires RowCount(t, lot.state) ==
             (if lot.id in lots then RowCount(t, lots[lot.id].state) else 0) + (if row.Some? then 1 else 0)
    ensures TagsSound(lots[lot.id := lot], t,
              if row.Some? then tags[row.value := Tag(lot.id, lot.tenant)] else tags)
  {
    var lots' := lots[lot.id := lot];
    var tags' := if row.Some? then tags[row.value := Tag(lot.id, lot.tenant)] else tags;
    forall id | id in lots' ensures |RowsOf(tags', id)| == RowCount(t, lots'[id].state) {
      if row.Some? {
        RowsOfInsert(tags, row.value, Tag(lot.id, lot.tenant), id);
      }
      if id !in lots {
        assert forall k | k in tags :: tags[k].lot != id;
        assert RowsOf(tags, id) == {};
      }
    }
  }

  lemma TableAfter(db: Db, w: Write, t: Table)
    requires DbInv(db) && WellFormed(w) && Applicable(db, w)
    requires !w.WIntake? ==> db.lots[w.lot.id] == w.lot
    ensures TagsSound(After(db, w).lots, t, Tags(After(db, w), t))
  {
    TagsAfter(db, w, t);
    TagsSoundAfter(db.lots, t, Tags(db, t), LotAfter(db, w), NewRow(w, t));
  }

  lemma LotsSoundAfter(db: Db, w: Write)
    requires LotsSound(db) && WellFormed(w) && Applicable(db, w)
    requires !w.WIntake? ==> db.lots[w.lot.id] == w.lot
    ensures LotsSound(After(db, w))
  {
    var lots, lot := db.lots, LotAfter(db, w);
    assert lot.version == VersionOf(lot.state) && (ReservedOrLater(lot.state) ==> lot.hazard < 70);
    assert After(db, w).lots == lots[lot.id := lot];
  }

  lemma VerdictsAfter(db: Db, w: Write)
    requires DbInv(db) && WellFormed(w) && Applicable(db, w)
    requires !w.WIntake? ==> db.lots[w.lot.id] == w.lot
    ensures VerdictsFaithful(After(db, w))
  {
    var rows := Tags(db, Inspections);
    assert TagsSound(db.lots, Inspections, rows);
    if w.WInspect? {
      assert RowsOf(rows, w.lot.id) == {};
      assert forall k | k in db.inspections :: rows[k].lot == w.lot.id ==> k in RowsOf(rows, w.lot.id);
    }
  }

  lemma SerialsAfter(db: Db, w: Write)
    requires SerialsFaithful(db) && WellFormed(w) && Applicable(db, w)
    requires !w.WIntake? ==> db.lots[w.lot.id] == w.lot
    ensures SerialsFaithful(After(db, w))
  {
    assert forall id | id in db.lots :: After(db, w).lots[id].code == db.lots[id].code;
  }

  lemma RecoveriesAfter(db: Db, w: Write)
    requires RecoveriesFaithful(db) && WellFormed(w) && Applicable(db, w)
    ensures RecoveriesFaithful(After(db, w))
  {
    var db' := After(db, w);
    if w.WRecover? {
      assert IsRecoveryRow(db', w.recovery);
      assert forall r :: IsRecoveryRow(db, r) ==> IsRecoveryRow(db', r);
    } else {
      assert db'.recoveries == db.recoveries && db'.idempotency == db.idempotency && db'.outbox == db.outbox;
    }
  }

  /** A write made from an up-to-date read keeps the whole invariant. */
  lemma WriteKeepsInv(db: Db, w: Write)
    requires DbInv(db) && WellFormed(w) && Applicable(db, w)
    requires !w.WIntake? ==> db.lots[w.lot.id] == w.lot
    ensures DbInv(After(db, w))
  {
    LotsSoundAfter(db, w);
    VerdictsAfter(db, w);
    SerialsAfter(db, w);
    RecoveriesAfter(db, w);
    forall t: Table ensures TagsSound(After(db, w).lots, t, Tags(After(db, w), t)) {
      TableAfter(db, w, t);
    }
  }
}
