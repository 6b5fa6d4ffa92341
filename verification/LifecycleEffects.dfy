/** What each of the six operations does, spelled out: when it succeeds, which
    error it gives otherwise, and every row it leaves behind. Operators and
    supervisors do all the work but certify. */
module LifecycleEffects {
  import opened Common
  import opened Battery
  import opened Tables
  import opened Lifecycle

  /** The key column of the lots table is the lot's id. */
  ghost predicate KeyedLots(db: Db) { forall k | k in db.lots :: db.lots[k].id == k }

  lemma IntakeExactly(db: Db, p: Principal, id: Token, code: string, chemistry: Option<string>, hazard: int,
                      expires: Option<int>, audit: Token, req: string, now: int)
    ensures Execute(db, Call.Intake(p, id, code, chemistry, hazard, expires, audit, req, now), false) ==
      if p.role != "operator" && p.role != "supervisor" then Failure(Forbidden)
      else if chemistry.None? || code == "" then Failure(Invalid)
      else if id in db.lots || audit in db.audits
              || exists k | k in db.lots :: db.lots[k].tenant == p.tenant && db.lots[k].code == code then Failure(Constraint)
      else Success(db.(
        lots := db.lots[id := Lot(id, p.tenant, code, chemistry.value, Received, 1, now, expires, hazard, p.id)],
        audits := db.audits[audit := AuditEvent(audit, p.tenant, p.id, id, "intake", "success", req, now)]))
  {
  }

  lemma InspectExactly(db: Db, p: Principal, id: Token, result: string, notes: string, row: Token, audit: Token,
                       req: string, now: int)
    requires KeyedLots(db)
    ensures Execute(db, Call.Inspect(p, id, result, notes, row, audit, req, now), false) ==
      if p.role != "operator" && p.role != "supervisor" then Failure(Forbidden)
      else if id !in db.lots || db.lots[id].tenant != p.tenant then Failure(NotFound)
      else if db.lots[id].state != Received then Failure(Conflict)
      else if row in db.inspections || audit in db.audits then Failure(Constraint)
      else
        var target := if result == "hold" || result == "reject" then Quarantined else Inspected;
        Success(db.(
          lots := db.lots[id := db.lots[id].(state := target, version := db.lots[id].version + 1)],
          inspections := db.inspections[row := Inspection(row, id, p.tenant, result, notes, p.id, now)],
          audits := db.audits[audit := AuditEvent(audit, p.tenant, p.id, id, "inspection", result, req, now)]))
  {
  }

  /** A failing reservation lookup reads as no reservation. */
  lemma ReserveExactly(db: Db, p: Principal, id: Token, station: string, row: Token, audit: Token, req: string, now: int,
                       auxFault: bool)
    requires KeyedLots(db)
    ensures Execute(db, Call.Reserve(p, id, station, row, audit, req, now), auxFault) ==
      if p.role != "operator" && p.role != "supervisor" then Failure(Forbidden)
      else if id !in db.lots || db.lots[id].tenant != p.tenant then Failure(NotFound)
      else if db.lots[id].state != Inspected || db.lots[id].hazard >= 70 then Failure(Conflict)
      else if !auxFault
              && exists k | k in db.reservations :: db.reservations[k].lotId == id && db.reservations[k].tenant == p.tenant then Failure(Conflict)
      else if row in db.reservations || audit in db.audits then Failure(Constraint)
      else Success(db.(
        lots := db.lots[id := db.lots[id].(state := Battery.Reserved, version := db.lots[id].version + 1)],
        reservations := db.reservations[row := Battery.Reservation(row, id, p.tenant, station, p.id, now)],
        audits := db.audits[audit := AuditEvent(audit, p.tenant, p.id, id, "reserve", station, req, now)]))
  {
  }

  /** Here a failing lookup refuses the call. */
  lemma BeginExactly(db: Db, p: Principal, id: Token, audit: Token, req: string, now: int, auxFault: bool)
    requires KeyedLots(db)
    ensures Execute(db, Call.BeginDismantling(p, id, audit, req, now), auxFault) ==
      if p.role != "operator" && p.role != "supervisor" then Failure(Forbidden)
      else if id !in db.lots || db.lots[id].tenant != p.tenant then Failure(NotFound)
      else if db.lots[id].state != Battery.Reserved then Failure(Conflict)
      else if auxFault
              || !(exists k | k in db.reservations :: db.reservations[k].lotId == id && db.reservations[k].tenant == p.tenant) then Failure(Conflict)
      else if audit in db.audits then Failure(Constraint)
      else Success(db.(
        lots := db.lots[id := db.lots[id].(state := Dismantling, version := db.lots[id].version + 1)],
        audits := db.audits[audit := AuditEvent(audit, p.tenant, p.id, id, "dismantling", "started", req, now)]))
  {
  }

  lemma RecoverApplies(db: Db, lot: Lot, recovery: Battery.Recovery, key: string, event: OutboxEvent, audit: AuditEvent)
    requires lot.id in db.lots && db.lots[lot.id] == lot && recovery.lotId == lot.id
    ensures Apply(db, WRecover(lot, recovery, key, event, audit)) ==
      if (key != "" && IdemKey(lot.tenant, key, "recover") in db.idempotency)
         || recovery.id in db.recoveries || event.id in db.outbox || audit.id in db.audits then Failure(Constraint)
      else Success(db.(
        lots := db.lots[lot.id := lot.(state := Battery.Recovered, version := lot.version + 1)],
        recoveries := db.recoveries[recovery.id := recovery],
        idempotency := if key == "" then db.idempotency else db.idempotency[IdemKey(lot.tenant, key, "recover") := recovery],
        outbox := db.outbox[event.id := event],
        audits := db.audits[audit.id := audit]))
  {
  }

  /** A used key is answered before the lot is even read; a failing lookup of it
      goes on to the key's constraint. */
  lemma RecoverExactly(db: Db, p: Principal, id: Token, li: int, ni: int, co: int, key: string, row: Token, outbox: Token,
                       audit: Token, req: string, now: int, auxFault: bool)
    requires KeyedLots(db)
    ensures var used := key != "" && IdemKey(p.tenant, key, "recover") in db.idempotency;
      Execute(db, Call.Recover(p, id, li, ni, co, key, row, outbox, audit, req, now), auxFault) ==
      if p.role != "operator" && p.role != "supervisor" then Failure(Forbidden)
      else if used && !auxFault then Success(db)
      else if id !in db.lots || db.lots[id].tenant != p.tenant then Failure(NotFound)
      else if db.lots[id].state != Dismantling then Failure(Conflict)
      else if li < 0 || ni < 0 || co < 0 || li + ni + co == 0 then Failure(Invalid)
      else if used || row in db.recoveries || outbox in db.outbox || audit in db.audits then Failure(Constraint)
      else
        var recovery := Battery.Recovery(row, id, p.tenant, li, ni, co, now);
        Success(db.(
          lots := db.lots[id := db.lots[id].(state := Battery.Recovered, version := db.lots[id].version + 1)],
          recoveries := db.recoveries[row := recovery],
          idempotency := if key == "" then db.idempotency else db.idempotency[IdemKey(p.tenant, key, "recover") := recovery],
          outbox := db.outbox[outbox := OutboxEvent(outbox, p.tenant, id, "recovery.confirmed", recovery)],
          audits := db.audits[audit := AuditEvent(audit, p.tenant, p.id, id, "recover", "confirmed", req, now)]))
  {
    if id in db.lots {
      var recovery := Battery.Recovery(row, id, p.tenant, li, ni, co, now);
      RecoverApplies(db, db.lots[id], recovery, key, OutboxEvent(outbox, p.tenant, id, "recovery.confirmed", recovery),
                     AuditEvent(audit, p.tenant, p.id, id, "recover", "confirmed", req, now));
    }
  }

  /** Only supervisors certify, and the serial is the code behind its prefix. */
  lemma CertifyExactly(db: Db, p: Principal, id: Token, row: Token, audit: Token, req: string, now: int, auxFault: bool)
    requires KeyedLots(db)
    ensures Execute(db, Call.Certify(p, id, row, audit, req, now), auxFault) ==
      if p.role != "supervisor" then Failure(Forbidden)
      else if id !in db.lots || db.lots[id].tenant != p.tenant then Failure(NotFound)
      else if db.lots[id].state != Battery.Recovered then Failure(Conflict)
      else if !auxFault
              && exists k | k in db.certificates :: db.certificates[k].lotId == id && db.certificates[k].tenant == p.tenant then Failure(Conflict)
      else if row in db.certificates || audit in db.audits
              || exists k | k in db.certificates :: db.certificates[k].serial == "DC-" + db.lots[id].code then Failure(Constraint)
      else Success(db.(
        lots := db.lots[id := db.lots[id].(state := Certified, version := db.lots[id].version + 1)],
        certificates := db.certificates[row := Battery.Certificate(row, id, p.tenant, "DC-" + db.lots[id].code, now)],
        audits := db.audits[audit := AuditEvent(audit, p.tenant, p.id, id, "certificate", "issued", req, now)]))
  {
  }
}
