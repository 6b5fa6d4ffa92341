/** Delivery of outbox rows: claim, publish, mark. A claim is a select followed
    by a separate update, and a mark overwrites whatever it finds. */
module Outbox {
  import opened Common
  import opened Sequences
  import opened Runs

  datatype RowState = Pending | Processing | Published | Failed

  datatype Row = Row(state: RowState, attempts: int, nextAttempt: int, created: int)

  type Rows = map<string, Row>

  const MAX_ATTEMPTS := 3
  const MINUTE := 60

  function Fresh(now: int): Row { Row(Pending, 0, now, now) }

  predicate Due(r: Row, now: int) { r.state == Pending && r.nextAttempt <= now }

  /** The rows the select may return: due, and none due was created earlier. */
  ghost predicate Selectable(rows: Rows, now: int, id: string) {
    && id in rows && Due(rows[id], now)
    && forall k | k in rows && Due(rows[k], now) :: rows[id].created <= rows[k].created
  }

  /** The claim's update: it matches no row unless the row is still pending. */
  function Claim(rows: Rows, id: string): Rows {
    if id in rows && rows[id].state == Pending
    then rows[id := rows[id].(state := Processing, attempts := rows[id].attempts + 1)]
    else rows
  }

  function Mark(rows: Rows, id: string, ok: bool, now: int): Rows {
    if id !in rows then rows
    else if ok then rows[id := rows[id].(state := Published)]
    else rows[id := rows[id].(state := if rows[id].attempts >= MAX_ATTEMPTS then Failed else Pending,
                              nextAttempt := now + MINUTE)]
  }

  /** The statements of a round that may fail. */
  datatype Fault = AtSelect | AtClaim | AtMark

  /** What a round does to the row it selected: a failed claim ends it before the
      publish, a failed mark leaves the row processing. */
  function Served(rows: Rows, id: string, faults: set<Fault>, ok: bool, later: int): Rows {
    if AtClaim in faults then rows
    else if AtMark in faults then Claim(rows, id)
    else Mark(Claim(rows, id), id, ok, later)
  }

  class OutboxStore {
    var rows: Rows

    /** A new row is due at once and has had no attempt. */
    method InsertOutbox(id: string, now: int, fault: bool) returns (r: Result<()>)
      modifies this
      ensures r.Success? <==> !fault && id !in old(rows)
      ensures rows == if r.Success? then old(rows)[id := Row(Pending, 0, now, now)] else old(rows)
    {
      if fault || id in rows {
        return Failure(if fault then Unavailable else Constraint);
      }
      rows := rows[id := Fresh(now)];
      r := Success(());
    }

    /** Scans for a due row created no later than any other. */
    method Select(now: int) returns (found: Option<string>)
      ensures found.None? <==> forall k | k in rows :: rows[k].state != Pending || rows[k].nextAttempt > now
      ensures found.Some? ==>
        && found.value in rows && rows[found.value].state == Pending && rows[found.value].nextAttempt <= now
        && forall k | k in rows && rows[k].state == Pending && rows[k].nextAttempt <= now ::
             rows[found.value].created <= rows[k].created
      ensures found.Some? ==> Selectable(rows, now, found.value)
    {
      found := None;
      var todo := rows.Keys;
      while todo != {}
        invariant todo <= rows.Keys
        invariant found.None? ==> forall k | k in rows && k !in todo :: !Due(rows[k], now)
        invariant found.Some? ==> found.value in rows && Due(rows[found.value], now)
        invariant found.Some? ==> forall k | k in rows && k !in todo && Due(rows[k], now) ::
                    rows[found.value].created <= rows[k].created
        decreases |todo|
      {
        var id :| id in todo;
        todo := todo - {id};
        if Due(rows[id], now) && (found.None? || rows[id].created < rows[found.value].created) {
          found := Some(id);
        }
      }
    }

    /** Select, then a separate update. `found` is the row selected, whatever became of its update. */
    method ClaimOutbox(now: int, faults: set<Fault>) returns (r: Result<string>, ghost found: Option<string>)
      modifies this
      ensures found.None? <==>
        AtSelect in faults || forall k | k in old(rows) :: old(rows)[k].state != Pending || old(rows)[k].nextAttempt > now
      ensures found.Some? ==>
        && found.value in old(rows) && old(rows)[found.value].state == Pending && old(rows)[found.value].nextAttempt <= now
        && forall k | k in old(rows) && old(rows)[k].state == Pending && old(rows)[k].nextAttempt <= now ::
             old(rows)[found.value].created <= old(rows)[k].created
      ensures found.Some? ==> Selectable(old(rows), now, found.value)
      ensures r == if found.None? || AtClaim in faults then Failure(Unavailable) else Success(found.value)
      ensures rows == if r.Success? then Claim(old(rows), r.value) else old(rows)
      ensures r.Success? ==>
        rows == old(rows)[r.value := old(rows)[r.value].(state := Processing, attempts := old(rows)[r.value].attempts + 1)]
    {
      found := None;
      if AtSelect in faults {
        return Failure(Unavailable), found;
      }
      var selected := Select(now);
      found := selected;
      if selected.None? || AtClaim in faults {
        return Failure(Unavailable), found;
      }
      var id := selected.value;
      if rows[id].state == Pending {
        rows := rows[id := rows[id].(state := Processing, attempts := rows[id].attempts + 1)];
      }
      r := Success(id);
    }

    method MarkOutbox(id: string, ok: bool, now: int, faults: set<Fault>) returns (r: Result<()>)
      modifies this
      ensures r == if AtMark in faults then Failure(Unavailable) else Success(())
      ensures rows == if r.Success? then Mark(old(rows), id, ok, now) else old(rows)
      ensures r.Success? && id in old(rows) ==> var row := old(rows)[id];
        rows == old(rows)[id :=
          if ok then row.(state := Published)
          else row.(state := if row.attempts >= 3 then Failed else Pending, nextAttempt := now + 60)]
      ensures id !in old(rows) ==> rows == old(rows)
    {
      if AtMark in faults {
        return Failure(Unavailable);
      }
      if id in rows {
        var row := rows[id];
        if ok {
          rows := rows[id := row.(state := Published)];
        } else if row.attempts >= MAX_ATTEMPTS {
          rows := rows[id := row.(state := Failed, nextAttempt := now + MINUTE)];
        } else {
          rows := rows[id := row.(state := Pending, nextAttempt := now + MINUTE)];
        }
      }
      r := Success(());
    }

    /** One worker round; `ok` is the publisher's answer, `later` the clock at the mark. */
    method RunOnce(now: int, faults: set<Fault>, ok: bool, later: int) returns (r: Result<()>, ghost found: Option<string>)
      modifies this
      ensures found.None? <==>
        AtSelect in faults || forall k | k in old(rows) :: old(rows)[k].state != Pending || old(rows)[k].nextAttempt > now
      ensures found.None? ==> rows == old(rows)
      ensures found.Some? ==>
        Selectable(old(rows), now, found.value) && rows == Served(old(rows), found.value, faults, ok, later)
      ensures r.Success? ==> found.Some? && found.value in old(rows) && var row := old(rows)[found.value];
        && row.state == Pending && row.nextAttempt <= now
        && rows == old(rows)[found.value :=
             if ok then row.(state := Published, attempts := row.attempts + 1)
             else row.(state := if row.attempts >= 2 then Failed else Pending, attempts := row.attempts + 1,
                       nextAttempt := later + 60)]
      ensures r.Success? <==> found.Some? && AtClaim !in faults && AtMark !in faults
    {
      var claimed;
      claimed, found := ClaimOutbox(now, faults);
      if claimed.Failure? {
        return Failure(claimed.error), found;
      }
      r := MarkOutbox(claimed.value, ok, later, faults);
    }
  }

  // ------------------------------------------------------ any number of workers

  /** Where a worker is in its round. */
  datatype Pc = Idle | Selected(id: string) | Claimed(id: string) | Answered(id: string, ok: bool)

  /** The table and the workers, with every claim that took a row and every
      publish that failed. */
  datatype System = System(rows: Rows, pcs: map<nat, Pc>, claims: seq<string>, failures: multiset<string>)

  datatype Step =
    | Insert(id: string, now: int)
    | SelectRow(w: nat, id: string, now: int)
    | ClaimRow(w: nat, fault: bool)
    | Publish(w: nat, ok: bool)
    | MarkRow(w: nat, fault: bool, now: int)

  function PcOf(s: System, w: nat): Pc {
    if w in s.pcs then s.pcs[w] else Idle
  }

  /** Steps that do not apply change nothing. A failed claim ends the round, and
      so does a mark, whether it fails or not. */
  ghost function Do(s: System, step: Step): System {
    match step
    case Insert(id, now) =>
      if id in s.rows then s else s.(rows := s.rows[id := Fresh(now)])
    case SelectRow(w, id, now) =>
      if PcOf(s, w) == Idle && Selectable(s.rows, now, id) then s.(pcs := s.pcs[w := Selected(id)]) else s
    case ClaimRow(w, fault) =>
      if !PcOf(s, w).Selected? then s
      else if fault then s.(pcs := s.pcs[w := Idle])
      else
        var id := PcOf(s, w).id;
        s.(rows := Claim(s.rows, id), pcs := s.pcs[w := Claimed(id)],
           claims := if id in s.rows && s.rows[id].state == Pending then s.claims + [id] else s.claims)
    case Publish(w, ok) =>
      if !PcOf(s, w).Claimed? then s
      else
        var id := PcOf(s, w).id;
        s.(pcs := s.pcs[w := Answered(id, ok)], failures := if ok then s.failures else s.failures + multiset{id})
    case MarkRow(w, fault, now) =>
      if !PcOf(s, w).Answered? then s
      else s.(rows := if fault then s.rows else Mark(s.rows, PcOf(s, w).id, PcOf(s, w).ok, now),
              pcs := s.pcs[w := Idle])
  }

  ghost function Run(s: System, steps: seq<Step>): System { Fold(Do, s, steps) }

  const INIT := System(map[], map[], [], multiset{})

  predicate Bounded(r: Row) {
    && 0 <= r.attempts <= MAX_ATTEMPTS
    && (r.state == Pending ==> r.attempts < MAX_ATTEMPTS)
    && (r.state == Failed ==> r.attempts == MAX_ATTEMPTS)
    && (r.state != Pending ==> r.attempts > 0)
  }

  /** A row's attempts are exactly the claims made of it. */
  ghost predicate Good(s: System) {
    && (forall id | id in s.rows :: Bounded(s.rows[id]) && s.rows[id].attempts == multiset(s.claims)[id])
    && (forall id | id in s.claims :: id in s.rows)
    && (forall w | w in s.pcs && !s.pcs[w].Idle? :: s.pcs[w].id in s.rows)
    && (forall w | w in s.pcs && (s.pcs[w].Claimed? || s.pcs[w].Answered?) :: s.rows[s.pcs[w].id].attempts > 0)
  }

  lemma ClaimKeepsGood(s: System, w: nat)
    requires Good(s) && PcOf(s, w).Selected?
    ensures Good(Do(s, ClaimRow(w, false)))
  {
    var id := PcOf(s, w).id;
    if s.rows[id].state == Pending {
      assert multiset(s.claims + [id]) == multiset(s.claims) + multiset{id};
    }
  }

  lemma MarkKeepsGood(s: System, w: nat, now: int)
    requires Good(s) && PcOf(s, w).Answered?
    ensures Good(Do(s, MarkRow(w, false, now)))
  {
    var rows := Mark(s.rows, PcOf(s, w).id, PcOf(s, w).ok, now);
    assert forall k | k in rows :: k in s.rows && rows[k].attempts == s.rows[k].attempts && Bounded(rows[k]);
  }

  lemma InsertKeepsGood(s: System, id: string, now: int)
    requires Good(s) && id !in s.rows
    ensures Good(Do(s, Insert(id, now)))
  {
    assert id !in multiset(s.claims);
  }

  /** A worker may move on while its row is there and, once claimed, counted. */
  lemma MoveKeepsGood(s: System, w: nat, pc: Pc, failures: multiset<string>)
    requires Good(s)
    requires !pc.Idle? ==> pc.id in s.rows && (!pc.Selected? ==> s.rows[pc.id].attempts > 0)
    ensures Good(s.(pcs := s.pcs[w := pc], failures := failures))
  {
  }

  lemma DoKeepsGood(s: System, step: Step)
    requires Good(s)
    ensures Good(Do(s, step))
  {
    match step
    case Insert(id, now) => if id !in s.rows { InsertKeepsGood(s, id, now); }
    case SelectRow(w, id, now) => if id in s.rows { MoveKeepsGood(s, w, Selected(id), s.failures); }
    case ClaimRow(w, fault) =>
      if PcOf(s, w).Selected? {
        if fault { MoveKeepsGood(s, w, Idle, s.failures); } else { ClaimKeepsGood(s, w); }
      }
    case Publish(w, ok) =>
      if PcOf(s, w).Claimed? { MoveKeepsGood(s, w, Answered(PcOf(s, w).id, ok), Do(s, step).failures); }
    case MarkRow(w, fault, now) =>
      if PcOf(s, w).Answered? {
        if fault { MoveKeepsGood(s, w, Idle, s.failures); } else { MarkKeepsGood(s, w, now); }
      }
  }

  lemma {:induction false} RunKeepsGood(s: System, steps: seq<Step>)
    requires Good(s)
    ensures Good(Run(s, steps))
  {
    if steps != [] {
      RunKeepsGood(s, steps[..|steps| - 1]);
      DoKeepsGood(Run(s, steps[..|steps| - 1]), steps[|steps| - 1]);
    }
  }

  /** However many workers interleave and fail, no row is claimed more than three
      times, a pending row fewer, and n rows are claimed at most 3n times in all. */
  lemma AttemptsBounded(steps: seq<Step>)
    ensures var s := Run(INIT, steps);
      && (forall id | id in s.rows :: s.rows[id].attempts <= 3 && (s.rows[id].state == Pending ==> s.rows[id].attempts <= 2))
      && |s.claims| <= 3 * |s.rows|
  {
    RunKeepsGood(INIT, steps);
    var s := Run(INIT, steps);
    MultisetBound(multiset(s.claims), s.rows.Keys, 3);
  }

  lemma {:induction false} MultisetBound(m: multiset<string>, keys: set<string>, n: nat)
    requires forall id | id in m :: id in keys && m[id] <= n
    ensures |m| <= n * |keys|
    decreases |keys|
  {
    if keys == {} {
      assert m == multiset{};
    } else {
      var id :| id in keys;
      var rest := m[id := 0];
      MultisetBound(rest, keys - {id}, n);
      assert |m| == |rest| + m[id];
      assert n * |keys| == n * |keys - {id}| + n;
    }
  }

  /** The worker, if any, is somewhere in a round on this row. */
  predicate Busy(s: System, w: nat, id: string) {
    !PcOf(s, w).Idle? && PcOf(s, w).id == id
  }

  // ------------------------------------------------------------- the retry delay

  /** The step is a mark of this row that takes effect. */
  predicate Marks(s: System, step: Step, id: string) {
    step.MarkRow? && !step.fault && PcOf(s, step.w).Answered? && PcOf(s, step.w).id == id
  }

  ghost predicate NeverMarks(s: System, steps: seq<Step>, id: string) {
    forall i | 0 <= i < |steps| :: !Marks(Run(s, steps[..i]), steps[i], id)
  }

  /** The time of a row's next attempt moves only when the row is marked. */
  lemma {:induction false} OnlyMarksDelay(s: System, steps: seq<Step>, id: string)
    requires id in s.rows && NeverMarks(s, steps, id)
    ensures id in Run(s, steps).rows && Run(s, steps).rows[id].nextAttempt == s.rows[id].nextAttempt
  {
    if steps != [] {
      NeverMarksFront(s, steps, id);
      OnlyMarksDelay(s, steps[..|steps| - 1], id);
      StepKeepsDelay(Run(s, steps[..|steps| - 1]), steps[|steps| - 1], id);
    }
  }

  lemma NeverMarksFront(s: System, steps: seq<Step>, id: string)
    requires steps != [] && NeverMarks(s, steps, id)
    ensures NeverMarks(s, steps[..|steps| - 1], id) && !Marks(Run(s, steps[..|steps| - 1]), steps[|steps| - 1], id)
  {
    var front := steps[..|steps| - 1];
    forall i | 0 <= i < |front| ensures !Marks(Run(s, front[..i]), front[i], id) {
      assert front[..i] == steps[..i] && front[i] == steps[i];
    }
  }

  lemma StepKeepsDelay(s: System, step: Step, id: string)
    requires id in s.rows && !Marks(s, step, id)
    ensures id in Do(s, step).rows && Do(s, step).rows[id].nextAttempt == s.rows[id].nextAttempt
  {
  }

  /** After a failing publish is marked at time t and the row is pending again, no
      worker selects the row before t + 60, whatever happens, until it is marked anew. */
  lemma MarkDelays(s: System, w: nat, t: int, id: string, steps: seq<Step>, v: nat, now: int)
    requires Good(s) && PcOf(s, w) == Answered(id, false) && s.rows[id].attempts < 3
    requires NeverMarks(Do(s, MarkRow(w, false, t)), steps, id)
    requires now < t + 60
    ensures Do(s, MarkRow(w, false, t)).rows[id].state == Pending
    ensures var s' := Run(Do(s, MarkRow(w, false, t)), steps); Do(s', SelectRow(v, id, now)) == s'
  {
    OnlyMarksDelay(Do(s, MarkRow(w, false, t)), steps, id);
  }

  /** And from then on it can be: a pending row whose time has come is selected by
      any idle worker once no row due is older. */
  lemma DueIsSelected(s: System, v: nat, id: string, now: int)
    requires id in s.rows && s.rows[id].state == Pending && PcOf(s, v) == Idle
    ensures Do(s, SelectRow(v, id, now)) != s <==>
      && s.rows[id].nextAttempt <= now
      && forall k | k in s.rows && s.rows[k].state == Pending && s.rows[k].nextAttempt <= now :: s.rows[id].created <= s.rows[k].created
  {
    assert PcOf(s, v) != Selected(id);
    if Selectable(s.rows, now, id) {
      assert PcOf(Do(s, SelectRow(v, id, now)), v) == Selected(id);
    }
  }

  /** A published row stays so unless some worker, having answered for the same
      row, marks a failure; a failed row stays so unless one marks a success. */
  lemma FinalUnlessMarked(s: System, step: Step, id: string)
    requires Good(s) && id in s.rows && s.rows[id].state in {Published, Failed}
    ensures id in Do(s, step).rows
    ensures (Do(s, step).rows[id].state != s.rows[id].state) <==>
      && step.MarkRow? && !step.fault && PcOf(s, step.w).Answered? && PcOf(s, step.w).id == id
      && PcOf(s, step.w).ok == (s.rows[id].state == Failed)
  {
  }

  /** A final row keeps its state in every later run exactly when each worker busy
      with it has already got the very answer the row records. A worker that has
      only selected the row can still overturn it. */
  lemma FinalIff(s: System, id: string)
    requires Good(s) && id in s.rows && s.rows[id].state in {Published, Failed}
    ensures (forall steps :: id in Run(s, steps).rows && Run(s, steps).rows[id].state == s.rows[id].state)
            <==> forall w | Busy(s, w, id) :: Agrees(s, w, id)
  {
    if forall w | Busy(s, w, id) :: Agrees(s, w, id) {
      forall steps ensures id in Run(s, steps).rows && Run(s, steps).rows[id].state == s.rows[id].state {
        FinalStays(s, steps, id);
      }
    } else {
      var w :| Busy(s, w, id) && !Agrees(s, w, id);
      var steps := BusyOverturns(s, w, id);
      assert Run(s, steps).rows[id].state != s.rows[id].state;
    }
  }

  /** The worker's answer is the one the row records. */
  predicate Agrees(s: System, w: nat, id: string)
    requires id in s.rows
  {
    PcOf(s, w) == Answered(id, s.rows[id].state == Published)
  }

  lemma StepKeepsFinal(s: System, step: Step, id: string)
    requires Good(s) && id in s.rows && s.rows[id].state in {Published, Failed}
    requires forall w | Busy(s, w, id) :: Agrees(s, w, id)
    ensures id in Do(s, step).rows && Do(s, step).rows[id].state == s.rows[id].state
    ensures forall w | Busy(Do(s, step), w, id) :: Agrees(Do(s, step), w, id)
  {
    FinalUnlessMarked(s, step, id);
    if !step.Insert? {
      assert Busy(s, step.w, id) ==> Agrees(s, step.w, id);
    }
    forall w | Busy(Do(s, step), w, id) ensures Agrees(Do(s, step), w, id) {
      assert Busy(s, w, id) ==> Agrees(s, w, id);
    }
  }

  lemma {:induction false} FinalStays(s: System, steps: seq<Step>, id: string)
    requires Good(s) && id in s.rows && s.rows[id].state in {Published, Failed}
    requires forall w | Busy(s, w, id) :: Agrees(s, w, id)
    ensures id in Run(s, steps).rows && Run(s, steps).rows[id].state == s.rows[id].state
    ensures forall w | Busy(Run(s, steps), w, id) :: Agrees(Run(s, steps), w, id)
  {
    if steps != [] {
      FinalStays(s, steps[..|steps| - 1], id);
      RunKeepsGood(s, steps[..|steps| - 1]);
      StepKeepsFinal(Run(s, steps[..|steps| - 1]), steps[|steps| - 1], id);
    }
  }

  /** Any other busy worker can still get the opposite answer, if it has not, and mark it. */
  lemma BusyOverturns(s: System, w: nat, id: string) returns (steps: seq<Step>)
    requires id in s.rows && s.rows[id].state in {Published, Failed} && Busy(s, w, id) && !Agrees(s, w, id)
    ensures id in Run(s, steps).rows && Run(s, steps).rows[id].state != s.rows[id].state
  {
    var ok := s.rows[id].state == Failed;
    steps := Then(Do, s, [], ClaimRow(w, false));
    steps := Then(Do, s, steps, Publish(w, ok));
    assert PcOf(Run(s, steps), w) == Answered(id, ok);
    assert Run(s, steps).rows == s.rows;
    steps := Then(Do, s, steps, MarkRow(w, false, 0));
  }

  /** A row a worker has claimed and not marked is out of every select's reach:
      it stays processing, whatever happens, exactly when no worker is busy with it. */
  lemma StrandedIff(s: System, id: string)
    requires id in s.rows && s.rows[id].state == Processing
    ensures (forall steps :: id in Run(s, steps).rows && Run(s, steps).rows[id] == s.rows[id])
            <==> forall w :: !Busy(s, w, id)
  {
    if forall w :: !Busy(s, w, id) {
      forall steps ensures id in Run(s, steps).rows && Run(s, steps).rows[id] == s.rows[id] {
        StrandedForever(s, steps, id);
      }
    } else {
      var w :| Busy(s, w, id);
      var steps := BusyDelivers(s, w, id);
      assert Run(s, steps).rows[id] != s.rows[id];
    }
  }

  lemma {:induction false} StrandedForever(s: System, steps: seq<Step>, id: string)
    requires id in s.rows && s.rows[id].state == Processing
    requires forall w :: !Busy(s, w, id)
    ensures id in Run(s, steps).rows && Run(s, steps).rows[id] == s.rows[id]
    ensures forall w :: !Busy(Run(s, steps), w, id)
  {
    if steps != [] {
      StrandedForever(s, steps[..|steps| - 1], id);
      var mid, last := Run(s, steps[..|steps| - 1]), steps[|steps| - 1];
      if !last.Insert? {
        assert !Busy(mid, last.w, id);
      }
      forall w ensures !Busy(Do(mid, last), w, id) {
        assert !Busy(mid, w, id);
      }
    }
  }

  /** A busy worker that claims, publishes and marks without failing delivers its row. */
  lemma BusyDelivers(s: System, w: nat, id: string) returns (steps: seq<Step>)
    requires id in s.rows && Busy(s, w, id)
    ensures id in Run(s, steps).rows && Run(s, steps).rows[id].state != Processing
  {
    steps := Then(Do, s, [], ClaimRow(w, false));
    steps := Then(Do, s, steps, Publish(w, true));
    assert PcOf(Run(s, steps), w).Answered? && PcOf(Run(s, steps), w).id == id;
    steps := Then(Do, s, steps, MarkRow(w, false, 0));
  }

  /** A failed mark is enough: a published row that is processing for good. */
  lemma FailedMarkStrands() returns (steps: seq<Step>)
    ensures Run(INIT, steps).rows == map["a" := Row(Processing, 1, 0, 0)]
    ensures forall w :: !Busy(Run(INIT, steps), w, "a")
  {
    steps := Then(Do, INIT, [], Insert("a", 0));
    steps := Then(Do, INIT, steps, SelectRow(0, "a", 0));
    steps := Then(Do, INIT, steps, ClaimRow(0, false));
    steps := Then(Do, INIT, steps, Publish(0, true));
    steps := Then(Do, INIT, steps, MarkRow(0, true, 0));
  }

  /** With two workers a published row can return to pending: both select it,
      one publishes and marks it, then the other marks its own failure. */
  lemma TwoWorkersReopen() returns (steps: seq<Step>, last: Step)
    ensures Run(INIT, steps).rows == map["a" := Row(Published, 1, 0, 0)]
    ensures Do(Run(INIT, steps), last).rows == map["a" := Row(Pending, 1, MINUTE, 0)]
  {
    steps := TwoWorkersClaim();
    steps := Then(Do, INIT, steps, Publish(0, true));
    steps := Then(Do, INIT, steps, Publish(1, false));
    steps := Then(Do, INIT, steps, MarkRow(0, false, 0));
    last := MarkRow(1, false, 0);
  }

  lemma TwoWorkersClaim() returns (steps: seq<Step>)
    ensures var s := Run(INIT, steps);
      && s.rows == map["a" := Row(Processing, 1, 0, 0)]
      && s.pcs == map[0 := Claimed("a"), 1 := Claimed("a")]
  {
    steps := Then(Do, INIT, [], Insert("a", 0));
    steps := Then(Do, INIT, steps, SelectRow(0, "a", 0));
    steps := Then(Do, INIT, steps, SelectRow(1, "a", 0));
    assert Run(INIT, steps).rows == map["a" := Fresh(0)];
    assert Run(INIT, steps).pcs == map[0 := Selected("a"), 1 := Selected("a")];
    steps := Then(Do, INIT, steps, ClaimRow(0, false));
    steps := Then(Do, INIT, steps, ClaimRow(1, false));
  }

  // ------------------------------------------------- one worker whose marks succeed

  /** Only worker 0 takes steps, and its marks succeed; its claims may fail, and
      rows may be inserted at any moment. */
  predicate ByWorker0(step: Step) {
    match step
    case Insert(_, _) => true
    case MarkRow(w, fault, _) => w == 0 && !fault
    case _ => step.w == 0
  }

  /** What a row's attempts say of its failed publishes, and which rows worker 0
      holds between claim and mark. */
  predicate Told(r: Row, failures: int, pc: Pc, id: string) {
    var mine := !pc.Idle? && pc.id == id;
    match r.state
    case Pending => r.attempts == failures <= 2 && (mine ==> pc.Selected?)
    case Processing =>
      && mine && (pc.Claimed? || pc.Answered?)
      && r.attempts == failures + (if pc.Answered? && !pc.ok then 0 else 1) <= 3
    case Published => r.attempts == failures + 1 <= 3 && !mine
    case Failed => r.attempts == failures == 3 && !mine
  }

  ghost predicate Sound(s: System) {
    && (forall w | w != 0 :: PcOf(s, w) == Idle)
    && (!PcOf(s, 0).Idle? ==> PcOf(s, 0).id in s.rows)
    && (forall id | id in s.rows :: Told(s.rows[id], s.failures[id], PcOf(s, 0), id))
    && (forall id | id in s.failures :: id in s.rows)
  }

  lemma DoKeepsTold(s: System, step: Step, id: string)
    requires Sound(s) && ByWorker0(step) && id in Do(s, step).rows
    ensures Told(Do(s, step).rows[id], Do(s, step).failures[id], PcOf(Do(s, step), 0), id)
  {
    assert id in s.rows ==> Told(s.rows[id], s.failures[id], PcOf(s, 0), id);
  }

  lemma DoKeepsSound(s: System, step: Step)
    requires Sound(s) && ByWorker0(step)
    ensures Sound(Do(s, step))
  {
    var s' := Do(s, step);
    forall w | w != 0 ensures PcOf(s', w) == Idle {
      assert PcOf(s, w) == Idle;
    }
    forall id | id in s'.rows ensures Told(s'.rows[id], s'.failures[id], PcOf(s', 0), id) {
      DoKeepsTold(s, step, id);
    }
  }

  lemma {:induction false} RunKeepsSound(s: System, steps: seq<Step>)
    requires Sound(s) && forall i | 0 <= i < |steps| :: ByWorker0(steps[i])
    ensures Sound(Run(s, steps))
  {
    if steps != [] {
      RunKeepsSound(s, steps[..|steps| - 1]);
      DoKeepsSound(Run(s, steps[..|steps| - 1]), steps[|steps| - 1]);
    }
  }

  /** How many more claims a row can take. */
  function Left(rows: Rows, id: string): int {
    if id in rows && rows[id].state in {Pending, Processing} then MAX_ATTEMPTS - rows[id].attempts else 0
  }

  /** The claims left over all rows. */
  ghost function Budget(rows: Rows): int { SetSum(id => Left(rows, id), rows.Keys) }

  /** Changing or adding one row changes the budget by that row's share. */
  lemma BudgetChange(rows: Rows, id: string, r: Row)
    ensures Budget(rows[id := r]) == Budget(rows) - Left(rows, id) + Left(rows[id := r], id)
  {
    var rows' := rows[id := r];
    var f, g := k => Left(rows, k), k => Left(rows', k);
    SetSumSplit(g, rows'.Keys, id);
    if id in rows {
      SetSumSplit(f, rows.Keys, id);
    }
    assert rows'.Keys - {id} == rows.Keys - {id};
    if id !in rows {
      assert rows.Keys - {id} == rows.Keys;
    }
    SetSumSame(f, g, rows.Keys - {id});
  }

  /** The one row a step can change, if any. */
  function Touched(s: System, step: Step): Option<string> {
    match step
    case Insert(id, _) => Some(id)
    case ClaimRow(w, _) => if PcOf(s, w).Idle? then None else Some(PcOf(s, w).id)
    case MarkRow(w, _, _) => if PcOf(s, w).Idle? then None else Some(PcOf(s, w).id)
    case _ => None
  }

  /** Every claim lowers the budget by one, every new row raises it by three, and
      no other step of one worker raises it. */
  lemma ClaimSpendsBudget(s: System, step: Step)
    requires Sound(s) && ByWorker0(step)
    ensures var s' := Do(s, step);
      Budget(s'.rows) <= Budget(s.rows) + 3 * (|s'.rows| - |s.rows|) - (|s'.claims| - |s.claims|)
  {
    var s' := Do(s, step);
    if s'.rows != s.rows {
      var id := Touched(s, step).value;
      assert id in s.rows ==> Told(s.rows[id], s.failures[id], PcOf(s, 0), id);
      assert s'.rows == s.rows[id := s'.rows[id]];
      BudgetChange(s.rows, id, s'.rows[id]);
      assert |s'.rows| == |s.rows| + if id in s.rows then 0 else 1;
    }
  }

  lemma {:induction false} RunSpendsBudget(steps: seq<Step>)
    requires forall i | 0 <= i < |steps| :: ByWorker0(steps[i])
    ensures var s := Run(INIT, steps); |s.claims| + Budget(s.rows) <= 3 * |s.rows|
  {
    if steps != [] {
      RunSpendsBudget(steps[..|steps| - 1]);
      RunKeepsSound(INIT, steps[..|steps| - 1]);
      ClaimSpendsBudget(Run(INIT, steps[..|steps| - 1]), steps[|steps| - 1]);
    }
  }

  lemma {:induction false} BudgetCovers(rows: Rows, ids: set<string>)
    requires forall id | id in ids :: Left(rows, id) >= 0
    ensures SetSum(id => Left(rows, id), ids) >= 0
    ensures forall id | id in ids :: Left(rows, id) <= SetSum(id => Left(rows, id), ids)
    decreases |ids|
  {
    forall id | id in ids
      ensures 0 <= Left(rows, id) <= SetSum(id => Left(rows, id), ids)
    {
      SetSumSplit(k => Left(rows, k), ids, id);
      BudgetCovers(rows, ids - {id});
    }
  }

  /** One worker whose marks succeed, rows inserted and claims failing at any
      moment: a row's state says how often its publish failed; only the row in the
      worker's hands is processing; n rows need at most 3n claims, and after the
      last of them nothing is pending. */
  lemma OneWorkerTotals(steps: seq<Step>)
    requires forall i | 0 <= i < |steps| :: ByWorker0(steps[i])
    ensures var s := Run(INIT, steps);
      && |s.claims| <= 3 * |s.rows|
      && (|s.claims| == 3 * |s.rows| ==> forall id | id in s.rows :: s.rows[id].state != Pending)
      && (forall id | id in s.rows && s.rows[id].state == Failed :: s.failures[id] == 3)
      && (forall id | id in s.rows && s.rows[id].state == Published :: s.failures[id] == s.rows[id].attempts - 1 <= 2)
      && (forall id | id in s.rows && s.rows[id].state == Pending :: s.failures[id] == s.rows[id].attempts <= 2)
      && (forall id | id in s.rows && s.rows[id].state == Processing :: PcOf(s, 0) in {Claimed(id), Answered(id, true), Answered(id, false)})
  {
    RunKeepsSound(INIT, steps);
    RunSpendsBudget(steps);
    var s := Run(INIT, steps);
    assert forall id | id in s.rows :: Told(s.rows[id], s.failures[id], PcOf(s, 0), id);
    BudgetCovers(s.rows, s.rows.Keys);
  }

  /** Under one worker published and failed rows are final. */
  lemma {:induction false} FinalRowsStay(s: System, steps: seq<Step>, id: string)
    requires Sound(s) && forall i | 0 <= i < |steps| :: ByWorker0(steps[i])
    requires id in s.rows && s.rows[id].state in {Published, Failed}
    ensures id in Run(s, steps).rows && Run(s, steps).rows[id] == s.rows[id]
  {
    if steps != [] {
      FinalRowsStay(s, steps[..|steps| - 1], id);
      RunKeepsSound(s, steps[..|steps| - 1]);
      var mid := Run(s, steps[..|steps| - 1]);
      assert Told(mid.rows[id], mid.failures[id], PcOf(mid, 0), id);
    }
  }

  /** A worker undisturbed in its round does exactly what the store's round does. */
  lemma AloneIsRound(s: System, w: nat, id: string, now: int, faults: set<Fault>, ok: bool, later: int)
    requires PcOf(s, w) == Idle && Selectable(s.rows, now, id)
    ensures var s1 := Do(Do(s, SelectRow(w, id, now)), ClaimRow(w, AtClaim in faults));
      var s2 := Do(Do(s1, Publish(w, ok)), MarkRow(w, AtMark in faults, later));
      s2.rows == Served(s.rows, id, faults, ok, later) && PcOf(s2, w) == Idle
  {
  }
}
