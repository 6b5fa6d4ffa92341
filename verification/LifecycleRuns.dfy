/** Any number of lifecycle calls in flight at once. A call's read step and its
    write step are separate, any other steps may fall between them, and a write
    may fail at commit. */
module LifecycleRuns {
  import opened Common
  import opened Battery
  import opened Tables
  import opened Lifecycle
  import opened Runs

  /** What callers were told: a committed write, or a stored recovery replayed for a key. */
  datatype Event = Committed(w: Write) | Replayed(key: IdemKey, recovery: Battery.Recovery)

  datatype System = System(db: Db, pending: map<nat, Write>, log: seq<Event>)

  datatype Step =
    | Start(id: nat, call: Call, auxFault: bool)
    | Finish(id: nat, fault: bool)

  function Do(s: System, step: Step): System {
    match step
    case Start(id, call, auxFault) =>
      if id in s.pending then s else
        (match Prepare(s.db, call, auxFault)
         case Failure(_) => s
         case Success(Replay(r)) => s.(log := s.log + [Replayed(IdemKey(call.p.tenant, call.key, RECOVER), r)])
         case Success(Proceed(w)) => s.(pending := s.pending[id := w]))
    case Finish(id, fault) =>
      if id !in s.pending then s else
        var rest := s.pending - {id};
        match Apply(s.db, s.pending[id])
        case Success(db) =>
          if fault then s.(pending := rest) else System(db, rest, s.log + [Committed(s.pending[id])])
        case Failure(_) => s.(pending := rest)
  }

  const INIT := System(EMPTY, map[], [])

  ghost function Run(s: System, steps: seq<Step>): System { Fold(Do, s, steps) }

  // ---------------------------------------------------------------- the invariant

  /** The version a write expects its lot to be at; an intake expects no lot. */
  function ReadVersion(w: Write): int {
    if w.WIntake? then 0 else w.lot.version
  }

  /** The read behind a pending write may be stale, but only by whole versions. */
  ghost predicate Fits(db: Db, w: Write) {
    && WellFormed(w)
    && (!w.WIntake? ==>
          && w.lot.id in db.lots
          && var now := db.lots[w.lot.id];
             && now.tenant == w.lot.tenant
             && w.lot.version <= now.version
             && (w.lot.version == now.version ==> w.lot == now))
  }

  function KeyOf(w: Write): Option<IdemKey> {
    if w.WRecover? && w.key != "" then Some(IdemKey(w.lot.tenant, w.key, RECOVER)) else None
  }

  ghost predicate Logged(db: Db, e: Event) {
    match e
    case Committed(w) =>
      && w.lot.id in db.lots && ReadVersion(w) < db.lots[w.lot.id].version
      && (KeyOf(w).Some? ==> KeyOf(w).value in db.idempotency && db.idempotency[KeyOf(w).value] == w.recovery)
    case Replayed(key, r) => key in db.idempotency && db.idempotency[key] == r
  }

  /** Two committed writes to one lot were made from different versions, two
      committed recoveries under different keys. */
  ghost predicate Ordered(a: Event, b: Event) {
    a.Committed? && b.Committed? ==>
      && (a.w.lot.id == b.w.lot.id ==> ReadVersion(a.w) < ReadVersion(b.w))
      && (KeyOf(a.w).Some? ==> KeyOf(a.w) != KeyOf(b.w))
  }

  ghost predicate Good(s: System) {
    && DbInv(s.db)
    && (forall id | id in s.pending :: Fits(s.db, s.pending[id]))
    && (forall i | 0 <= i < |s.log| :: Logged(s.db, s.log[i]))
    && (forall i, j | 0 <= i < j < |s.log| :: Ordered(s.log[i], s.log[j]))
  }

  /** Applying a write advances its lot by one version and stores responses once. */
  lemma WriteAdvances(db: Db, w: Write)
    requires Fits(db, w) && Applicable(db, w)
    ensures !w.WIntake? ==> db.lots[w.lot.id] == w.lot
    ensures After(db, w).lots[w.lot.id].version == ReadVersion(w) + 1
    ensures forall id | id in db.lots && id != w.lot.id :: After(db, w).lots[id] == db.lots[id]
    ensures forall k | k in db.idempotency :: After(db, w).idempotency[k] == db.idempotency[k] && KeyOf(w) != Some(k)
  {
  }

  lemma FitsAfter(db: Db, w: Write, other: Write)
    requires Fits(db, w) && Applicable(db, w) && Fits(db, other)
    ensures Fits(After(db, w), other)
  {
    WriteAdvances(db, w);
  }

  lemma LoggedAfter(db: Db, w: Write, e: Event)
    requires Fits(db, w) && Applicable(db, w) && Logged(db, e)
    ensures Logged(After(db, w), e) && Ordered(e, Committed(w))
  {
    WriteAdvances(db, w);
  }

  lemma CommitKeepsGood(s: System, id: nat)
    requires Good(s) && id in s.pending && Applicable(s.db, s.pending[id])
    ensures Good(System(After(s.db, s.pending[id]), s.pending - {id}, s.log + [Committed(s.pending[id])]))
  {
    var w := s.pending[id];
    WriteAdvances(s.db, w);
    WriteKeepsInv(s.db, w);
    forall other | other in s.pending - {id} ensures Fits(After(s.db, w), s.pending[other]) {
      FitsAfter(s.db, w, s.pending[other]);
    }
    forall i | 0 <= i < |s.log| ensures Logged(After(s.db, w), s.log[i]) && Ordered(s.log[i], Committed(w)) {
      LoggedAfter(s.db, w, s.log[i]);
    }
  }

  lemma DoKeepsGood(s: System, step: Step)
    requires Good(s)
    ensures Good(Do(s, step))
  {
    match step
    case Start(id, call, auxFault) =>
      if id !in s.pending && Prepare(s.db, call, auxFault).Success? {
        StartKeepsGood(s, id, call, auxFault);
      }
    case Finish(id, fault) =>
      if id in s.pending {
        ApplyExact(s.db, s.pending[id]);
        if Applicable(s.db, s.pending[id]) {
          CommitKeepsGood(s, id);
        }
      }
  }

  lemma StartKeepsGood(s: System, id: nat, call: Call, auxFault: bool)
    requires Good(s) && id !in s.pending && Prepare(s.db, call, auxFault).Success?
    ensures Good(Do(s, Start(id, call, auxFault)))
  {
    match Prepare(s.db, call, auxFault).value
    case Replay(r) =>
      assert call.Recover?;
      assert Logged(s.db, Replayed(IdemKey(call.p.tenant, call.key, RECOVER), r));
    case Proceed(w) =>
      PrepareWellFormed(s.db, call, auxFault);
      assert Fits(s.db, w);
  }

  /** Whatever the interleaving, staleness and failures, the version check and
      the keys keep the whole cross-table invariant. */
  lemma {:induction false} InterleavedInvariant(steps: seq<Step>)
    ensures Good(Run(INIT, steps))
  {
    if steps == [] {
      forall t: Table ensures TagsSound(EMPTY.lots, t, Tags(EMPTY, t)) {
        assert Tags(EMPTY, t) == map[];
      }
    } else {
      InterleavedInvariant(steps[..|steps| - 1]);
      DoKeepsGood(Run(INIT, steps[..|steps| - 1]), steps[|steps| - 1]);
    }
  }
}
