/** What the interleaving invariant means for lots, callers, tenants and keys. */
module LifecycleTheorems {
  import opened Common
  import opened Battery
  import opened Tables
  import opened Lifecycle
  import opened LifecycleRuns

  ghost function AuditsOf(db: Db, id: Token): set<Token> { set k | k in db.audits && db.audits[k].objectId == id }
  ghost function InspectionsOf(db: Db, id: Token): set<Token> { set k | k in db.inspections && db.inspections[k].lotId == id }
  ghost function ReservationsOf(db: Db, id: Token): set<Token> { set k | k in db.reservations && db.reservations[k].lotId == id }
  ghost function RecoveriesOf(db: Db, id: Token): set<Token> { set k | k in db.recoveries && db.recoveries[k].lotId == id }
  ghost function OutboxOf(db: Db, id: Token): set<Token> { set k | k in db.outbox && db.outbox[k].lotId == id }
  ghost function CertificatesOf(db: Db, id: Token): set<Token> { set k | k in db.certificates && db.certificates[k].lotId == id }

  lemma RowsNamed(db: Db, id: Token)
    ensures RowsOf(Tags(db, Audits), id) == AuditsOf(db, id)
    ensures RowsOf(Tags(db, Inspections), id) == InspectionsOf(db, id)
    ensures RowsOf(Tags(db, Reservations), id) == ReservationsOf(db, id)
    ensures RowsOf(Tags(db, Recoveries), id) == RecoveriesOf(db, id)
    ensures RowsOf(Tags(db, Outbox), id) == OutboxOf(db, id)
    ensures RowsOf(Tags(db, Certificates), id) == CertificatesOf(db, id)
  {
  }

  /** The state of a lot fixes its version, its audit count and its row counts. */
  lemma StateFixesRows(steps: seq<Step>, id: Token)
    requires id in Run(INIT, steps).db.lots
    ensures var db := Run(INIT, steps).db; var lot := db.lots[id];
      && lot.version == VersionOf(lot.state) == |AuditsOf(db, id)|
      && |InspectionsOf(db, id)| == (if lot.state == Received then 0 else 1)
      && |ReservationsOf(db, id)| == (if ReservedOrLater(lot.state) then 1 else 0)
      && |RecoveriesOf(db, id)| == |OutboxOf(db, id)| == (if lot.state in {Recovered, Certified} then 1 else 0)
      && |CertificatesOf(db, id)| == (if lot.state == Certified then 1 else 0)
  {
    InterleavedInvariant(steps);
    var db := Run(INIT, steps).db;
    RowsNamed(db, id);
    forall t: Table ensures |RowsOf(Tags(db, t), id)| == RowCount(t, db.lots[id].state) {
      assert TagsSound(db.lots, t, Tags(db, t));
    }
  }

  /** From reservation on, the hazard is below the limit and no inspection held or rejected the lot. */
  lemma ReservedLotsAreSafe(steps: seq<Step>, id: Token, k: Token)
    requires id in Run(INIT, steps).db.lots && ReservedOrLater(Run(INIT, steps).db.lots[id].state)
    ensures Run(INIT, steps).db.lots[id].hazard < 70
    ensures var rows := Run(INIT, steps).db.inspections;
      k in rows && rows[k].lotId == id ==> rows[k].result !in {"hold", "reject"}
  {
    InterleavedInvariant(steps);
  }

  /** Of all the calls that read a lot at one version, at most one commits. */
  lemma OneCommitPerVersion(steps: seq<Step>, i: nat, j: nat)
    requires var log := Run(INIT, steps).log;
      i < |log| && j < |log| && i != j && log[i].Committed? && log[j].Committed?
      && log[i].w.lot.id == log[j].w.lot.id
    ensures var log := Run(INIT, steps).log;
      if i < j then ReadVersion(log[i].w) < ReadVersion(log[j].w) else ReadVersion(log[j].w) < ReadVersion(log[i].w)
  {
    InterleavedInvariant(steps);
    var log := Run(INIT, steps).log;
    assert Ordered(log[if i < j then i else j], log[if i < j then j else i]);
  }

  // ------------------------------------------------------------- one commit, one edge

  /** Everything stored about one lot. */
  datatype View = View(lot: Option<Lot>, inspections: map<Token, Inspection>, reservations: map<Token, Reservation>,
                       recoveries: map<Token, Battery.Recovery>, certificates: map<Token, Certificate>,
                       audits: map<Token, AuditEvent>, outbox: map<Token, OutboxEvent>)

  ghost function About<R>(t: map<Token, R>, lotOf: R -> Token, id: Token): map<Token, R> {
    map k | k in t && lotOf(t[k]) == id :: t[k]
  }

  lemma AboutInsert<R>(t: map<Token, R>, lotOf: R -> Token, k: Token, r: R, id: Token)
    requires k !in t && lotOf(r) != id
    ensures About(t[k := r], lotOf, id) == About(t, lotOf, id)
  {
  }

  function InspectionLot(r: Inspection): Token { r.lotId }
  function ReservationLot(r: Reservation): Token { r.lotId }
  function RecoveryLot(r: Battery.Recovery): Token { r.lotId }
  function CertificateLot(r: Certificate): Token { r.lotId }
  function AuditLot(r: AuditEvent): Token { r.objectId }
  function OutboxLot(r: OutboxEvent): Token { r.lotId }

  ghost function ViewOf(db: Db, id: Token): View {
    View(if id in db.lots then Some(db.lots[id]) else None,
         About(db.inspections, InspectionLot, id), About(db.reservations, ReservationLot, id),
         About(db.recoveries, RecoveryLot, id), About(db.certificates, CertificateLot, id),
         About(db.audits, AuditLot, id), About(db.outbox, OutboxLot, id))
  }

  lemma ViewUntouched(db: Db, w: Write, other: Token)
    requires WellFormed(w) && Applicable(db, w) && other != w.lot.id
    ensures ViewOf(After(db, w), other) == ViewOf(db, other)
  {
    AboutInsert(db.audits, AuditLot, w.audit.id, w.audit, other);
    match w
    case WIntake(_, _) =>
    case WInspect(_, _, r, _) => AboutInsert(db.inspections, InspectionLot, r.id, r, other);
    case WReserve(_, r, _) => AboutInsert(db.reservations, ReservationLot, r.id, r, other);
    case WBegin(_, _) =>
    case WRecover(_, r, _, e, _) =>
      AboutInsert(db.recoveries, RecoveryLot, r.id, r, other);
      AboutInsert(db.outbox, OutboxLot, e.id, e, other);
    case WCertify(_, r, _) => AboutInsert(db.certificates, CertificateLot, r.id, r, other);
  }

  /** No row already stored about any lot is changed or removed. */
  ghost predicate KeepsRows(db: Db, db': Db) {
    && (forall k | k in db.inspections :: k in db'.inspections && db'.inspections[k] == db.inspections[k])
    && (forall k | k in db.reservations :: k in db'.reservations && db'.reservations[k] == db.reservations[k])
    && (forall k | k in db.recoveries :: k in db'.recoveries && db'.recoveries[k] == db.recoveries[k])
    && (forall k | k in db.certificates :: k in db'.certificates && db'.certificates[k] == db.certificates[k])
    && (forall k | k in db.audits :: k in db'.audits && db'.audits[k] == db.audits[k])
    && (forall k | k in db.outbox :: k in db'.outbox && db'.outbox[k] == db.outbox[k])
    && (forall k | k in db.idempotency :: k in db'.idempotency && db'.idempotency[k] == db.idempotency[k])
  }

  /** A finishing call either commits its whole write or leaves the database alone. */
  lemma FinishExact(s: System, id: nat, fault: bool)
    requires Good(s) && id in s.pending
    ensures var w := s.pending[id];
      Do(s, Finish(id, fault)) ==
        if Applicable(s.db, w) && !fault
        then System(After(s.db, w), s.pending - {id}, s.log + [Committed(w)])
        else s.(pending := s.pending - {id})
  {
    assert Fits(s.db, s.pending[id]);
    ApplyExact(s.db, s.pending[id]);
  }

  /** The domain's table, pair by pair. */
  lemma NextStateTable(from: State, to: State)
    ensures NextState(from, to) <==> (from, to) in {
      (Received, Inspected), (Received, Quarantined), (Inspected, State.Reserved), (Inspected, Quarantined),
      (State.Reserved, Dismantling), (Dismantling, State.Recovered), (Dismantling, Quarantined),
      (State.Recovered, Certified)}
  {
  }

  /** A write that commits, however stale its read, is one legal edge of one lot
      whose guard still holds; nothing else that is stored changes. */
  lemma CommitIsOneEdge(s: System, id: nat)
    requires Good(s) && id in s.pending && Applicable(s.db, s.pending[id])
    ensures var w, db := s.pending[id], s.db;
      if w.WIntake? then w.lot.id !in db.lots && After(db, w).lots == db.lots[w.lot.id := w.lot]
      else
        && w.lot.id in db.lots && db.lots[w.lot.id] == w.lot && NextState(w.lot.state, Target(w))
        && After(db, w).lots == db.lots[w.lot.id := w.lot.(state := Target(w), version := w.lot.version + 1)]
    ensures var w := s.pending[id];
      !w.WIntake? ==> (w.lot.state, Target(w)) in {
        (Received, Inspected), (Received, Quarantined), (Inspected, State.Reserved), (State.Reserved, Dismantling),
        (Dismantling, State.Recovered), (State.Recovered, Certified)}
    ensures var w, db := s.pending[id], s.db;
      && KeepsRows(db, After(db, w))
      && (forall other | other != w.lot.id :: ViewOf(After(db, w), other) == ViewOf(db, other))
      && (forall k: IdemKey | k.tenant != w.lot.tenant :: k in After(db, w).idempotency <==> k in db.idempotency)
  {
    var w := s.pending[id];
    assert Fits(s.db, w);
    WriteAdvances(s.db, w);
    forall other | other != w.lot.id ensures ViewOf(After(s.db, w), other) == ViewOf(s.db, other) {
      ViewUntouched(s.db, w, other);
    }
  }

  /** A read, a replay, a refused or a failed call stores nothing. */
  lemma OtherStepsStoreNothing(s: System, step: Step)
    requires !(step.Finish? && step.id in s.pending && !step.fault && Apply(s.db, s.pending[step.id]).Success?)
    ensures Do(s, step).db == s.db
  {
  }

  /** Quarantined and certified lots, and every row about them, never change again. */
  lemma {:induction false} FinalLotsStay(s: System, steps: seq<Step>, id: Token)
    requires Good(s) && id in s.db.lots && s.db.lots[id].state in {Quarantined, Certified}
    ensures Good(Run(s, steps))
    ensures ViewOf(Run(s, steps).db, id) == ViewOf(s.db, id)
  {
    if steps != [] {
      var last, mid := steps[|steps| - 1], Run(s, steps[..|steps| - 1]);
      FinalLotsStay(s, steps[..|steps| - 1], id);
      DoKeepsGood(mid, last);
      assert ViewOf(mid.db, id).lot == Some(s.db.lots[id]);
      if last.Finish? && last.id in mid.pending {
        FinishExact(mid, last.id, last.fault);
        if Applicable(mid.db, mid.pending[last.id]) {
          FinalLotUntouched(mid, last.id, id);
        }
      }
    }
  }

  lemma FinalLotUntouched(s: System, call: nat, id: Token)
    requires Good(s) && id in s.db.lots && s.db.lots[id].state in {Quarantined, Certified}
    requires call in s.pending && Applicable(s.db, s.pending[call])
    ensures ViewOf(After(s.db, s.pending[call]), id) == ViewOf(s.db, id)
  {
    assert Fits(s.db, s.pending[call]);
    WriteAdvances(s.db, s.pending[call]);
    ViewUntouched(s.db, s.pending[call], id);
  }

  // ------------------------------------------------------------- idempotent recovery

  /** The recovery a successful keyed call returned to its caller. */
  function Answer(e: Event, key: IdemKey): Option<Battery.Recovery> {
    match e
    case Committed(w) => if KeyOf(w) == Some(key) then Some(w.recovery) else None
    case Replayed(k, r) => if k == key then Some(r) else None
  }

  /** For one tenant and key all successful calls, on any lots, return the same
      recovery, which is a stored row; and at most one of them committed. */
  lemma KeyAnswersAgree(steps: seq<Step>, key: IdemKey, i: nat, j: nat)
    requires var log := Run(INIT, steps).log;
      i < |log| && j < |log| && Answer(log[i], key).Some? && Answer(log[j], key).Some?
    ensures var s := Run(INIT, steps);
      && Answer(s.log[i], key) == Answer(s.log[j], key)
      && IsRecoveryRow(s.db, Answer(s.log[i], key).value)
      && (s.log[i].Committed? && s.log[j].Committed? ==> i == j)
  {
    InterleavedInvariant(steps);
    var s := Run(INIT, steps);
    assert Logged(s.db, s.log[i]) && Logged(s.db, s.log[j]);
  }

  /** A committed recovery writes one recovery row, one outbox row and one lot edge. */
  lemma RecoveryCommitRows(s: System, id: nat)
    requires Good(s) && id in s.pending && s.pending[id].WRecover? && Applicable(s.db, s.pending[id])
    ensures var w, db := s.pending[id], s.db;
      && |After(db, w).recoveries| == |db.recoveries| + 1 && After(db, w).recoveries[w.recovery.id] == w.recovery
      && |After(db, w).outbox| == |db.outbox| + 1 && After(db, w).outbox[w.event.id].payload == w.recovery
      && |After(db, w).idempotency| == |db.idempotency| + (if w.key == "" then 0 else 1)
      && After(db, w).lots == db.lots[w.lot.id := w.lot.(state := Recovered, version := w.lot.version + 1)]
  {
    assert Fits(s.db, s.pending[id]);
    WriteAdvances(s.db, s.pending[id]);
  }

  /** Once a key is used no later call with it stores anything: it replays, or is
      refused when its lookup fails. */
  lemma UsedKeyStoresNothing(db: Db, c: Call, auxFault: bool)
    requires DbInv(db) && c.Recover? && c.key != "" && IdemKey(c.p.tenant, c.key, RECOVER) in db.idempotency
    ensures Execute(db, c, auxFault).Success? <==> c.p.Can("recover") && !auxFault
    ensures Execute(db, c, auxFault).Success? ==> Execute(db, c, auxFault).value == db
  {
    if auxFault && Prepare(db, c, auxFault).Success? {
      PrepareWellFormed(db, c, auxFault);
      ApplyExact(db, Prepare(db, c, auxFault).value.w);
    }
  }

  // --------------------------------------------- when a serial call succeeds, exactly

  lemma NoRows(db: Db, t: Table, id: Token)
    requires DbInv(db) && id in db.lots && RowCount(t, db.lots[id].state) == 0
    ensures forall k | k in Tags(db, t) :: Tags(db, t)[k].lot != id
  {
    assert TagsSound(db.lots, t, Tags(db, t));
    forall k | k in Tags(db, t) ensures Tags(db, t)[k].lot != id {
      assert k in RowsOf(Tags(db, t), id) <==> Tags(db, t)[k].lot == id;
    }
  }

  lemma SomeRow(db: Db, t: Table, id: Token) returns (k: Token)
    requires DbInv(db) && id in db.lots && RowCount(t, db.lots[id].state) > 0
    ensures k in Tags(db, t) && Tags(db, t)[k] == Tag(id, db.lots[id].tenant)
  {
    assert TagsSound(db.lots, t, Tags(db, t));
    k := Member(RowsOf(Tags(db, t), id));
  }

  lemma Member(rows: set<Token>) returns (k: Token)
    requires |rows| > 0
    ensures k in rows
  {
    Inhabited(rows);
    k :| k in rows;
  }

  lemma Inhabited(rows: set<Token>)
    ensures (forall k :: k !in rows) ==> rows == {}
  {
    if forall k :: k !in rows {
      assert rows == {};
    }
  }

  /** The reservation and certificate lookups only confirm what the state already says. */
  lemma LookupsFollowState(db: Db, id: Token)
    requires DbInv(db) && id in db.lots
    ensures HasActiveReservation(db, id, db.lots[id].tenant) <==> ReservedOrLater(db.lots[id].state)
    ensures HasCertificate(db, id, db.lots[id].tenant) <==> db.lots[id].state == Certified
  {
    assert forall k | k in db.reservations :: k in Tags(db, Reservations);
    assert forall k | k in db.certificates :: k in Tags(db, Certificates);
    if ReservedOrLater(db.lots[id].state) {
      var k := SomeRow(db, Reservations, id);
      assert k in db.reservations;
    } else {
      NoRows(db, Reservations, id);
    }
    if db.lots[id].state == Certified {
      var k := SomeRow(db, Certificates, id);
      assert k in db.certificates;
    } else {
      NoRows(db, Certificates, id);
    }
  }

  /** Whether the reservation lookup fails or not, Reserve succeeds exactly for an
      allowed caller on an inspected lot of its tenant below the hazard limit. */
  lemma ReserveSucceedsIff(db: Db, c: Call, auxFault: bool)
    requires DbInv(db) && c.Reserve?
    ensures Execute(db, c, auxFault).Success? <==>
      && c.p.Can("reserve") && c.lotId in db.lots && db.lots[c.lotId].tenant == c.p.tenant
      && db.lots[c.lotId].state == Inspected && db.lots[c.lotId].hazard < 70
      && c.rowId !in db.reservations && c.auditId !in db.audits
  {
    if c.lotId in db.lots {
      LookupsFollowState(db, c.lotId);
    }
    if Prepare(db, c, auxFault).Success? {
      PrepareWellFormed(db, c, auxFault);
      ApplyExact(db, Prepare(db, c, auxFault).value.w);
    }
  }

  /** A reserved lot always has its reservation, so only a failing lookup refuses the start. */
  lemma BeginSucceedsIff(db: Db, c: Call, auxFault: bool)
    requires DbInv(db) && c.BeginDismantling?
    ensures Execute(db, c, auxFault).Success? <==>
      && c.p.Can("reserve") && c.lotId in db.lots && db.lots[c.lotId].tenant == c.p.tenant
      && db.lots[c.lotId].state == Battery.Reserved && !auxFault && c.auditId !in db.audits
  {
    if c.lotId in db.lots {
      LookupsFollowState(db, c.lotId);
    }
    if Prepare(db, c, auxFault).Success? {
      PrepareWellFormed(db, c, auxFault);
      ApplyExact(db, Prepare(db, c, auxFault).value.w);
    }
  }

  /** Serials are unique across tenants though codes are only unique within one:
      a recovered lot can be certified exactly while no certified lot of another
      tenant has the same code. */
  lemma CertifySucceedsIff(db: Db, c: Call, auxFault: bool)
    requires DbInv(db) && c.Certify?
    ensures Execute(db, c, auxFault).Success? <==>
      && c.p.Can("certify") && c.lotId in db.lots && db.lots[c.lotId].tenant == c.p.tenant
      && db.lots[c.lotId].state == Battery.Recovered
      && c.rowId !in db.certificates && c.auditId !in db.audits
      && (forall id | id in db.lots && db.lots[id].code == db.lots[c.lotId].code :: db.lots[id].state != Certified)
  {
    if c.lotId in db.lots {
      LookupsFollowState(db, c.lotId);
      SerialTakenIff(db, db.lots[c.lotId].code);
    }
    if Prepare(db, c, auxFault).Success? {
      PrepareWellFormed(db, c, auxFault);
      ApplyExact(db, Prepare(db, c, auxFault).value.w);
    }
  }

  lemma SerialTakenIff(db: Db, code: string)
    requires DbInv(db)
    ensures SerialTaken(db, Serial(code)) <==> exists id | id in db.lots :: db.lots[id].code == code && db.lots[id].state == Certified
  {
    if SerialTaken(db, Serial(code)) {
      var k :| k in db.certificates && db.certificates[k].serial == Serial(code);
      var id := db.certificates[k].lotId;
      assert Serial(db.lots[id].code)[3..] == Serial(code)[3..];
      assert k in Tags(db, Certificates);
      if db.lots[id].state != Certified {
        NoRows(db, Certificates, id);
      }
    }
    if id :| id in db.lots && db.lots[id].code == code && db.lots[id].state == Certified {
      var k := SomeRow(db, Certificates, id);
      assert k in db.certificates;
    }
  }
}
