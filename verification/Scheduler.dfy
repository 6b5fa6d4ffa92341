/** The job scheduler. A tick copies the due jobs under the lock, runs each
    unlocked, and after each run looks again before it writes the outcome back. */
module Scheduler {
  import opened Common
  import opened Runs

  const SECOND := 1_000_000_000

  /** `run` stands for the job's function. */
  datatype Job = Job(id: string, run: int, attempts: int, next: int)

  type Jobs = map<string, Job>

  predicate Due(j: Job, now: int) { j.next == ZERO_TIME || j.next <= now }

  /** A snapshot in some map order: each due job exactly once. */
  ghost predicate IsSnapshot(jobs: Jobs, now: int, todo: seq<Job>) {
    && (forall j | j in todo :: j.id in jobs && jobs[j.id] == j && Due(j, now))
    && (forall id | id in jobs && Due(jobs[id], now) :: jobs[id] in todo)
    && (forall a, b | 0 <= a < b < |todo| :: todo[a].id != todo[b].id)
  }

  /** The job looks the way the snapshot saw it. */
  predicate Unchanged(jobs: Jobs, j: Job) {
    j.id in jobs && jobs[j.id].attempts == j.attempts && jobs[j.id].next == j.next
  }

  function Retry(j: Job, now: int): Job {
    j.(attempts := j.attempts + 1, next := now + (j.attempts + 1) * SECOND)
  }

  /** The locked section after a run. */
  function Settle(jobs: Jobs, j: Job, now: int, ok: bool): Jobs {
    if !Unchanged(jobs, j) then jobs
    else if ok then jobs - {j.id}
    else jobs[j.id := Retry(j, now)]
  }

  class Table {
    var jobs: Jobs

    ghost predicate Keyed()
      reads this
    {
      forall id | id in jobs :: jobs[id].id == id
    }

    constructor ()
      ensures jobs == map[]
    {
      jobs := map[];
    }

    method Add(j: Job) returns (ok: bool)
      modifies this
      ensures ok == (j.id !in old(jobs))
      ensures jobs == if ok then old(jobs)[j.id := j] else old(jobs)
    {
      if j.id in jobs {
        return false;
      }
      jobs := jobs[j.id := j];
      ok := true;
    }

    method Cancel(id: string)
      modifies this
      ensures jobs == old(jobs) - {id}
    {
      jobs := jobs - {id};
    }

    /** The first locked section of a tick. */
    method Collect(now: int) returns (todo: seq<Job>)
      requires Keyed()
      ensures IsSnapshot(jobs, now, todo)
      ensures forall j :: j in todo <==> j.id in jobs && jobs[j.id] == j && (j.next == ZERO_TIME || j.next <= now)
      ensures forall a, b | 0 <= a < b < |todo| :: todo[a].id != todo[b].id
    {
      todo := [];
      var rest := jobs.Keys;
      while rest != {}
        invariant rest <= jobs.Keys
        invariant forall j | j in todo :: j.id in jobs && j.id !in rest && jobs[j.id] == j && Due(j, now)
        invariant forall id | id in jobs && id !in rest && Due(jobs[id], now) :: jobs[id] in todo
        invariant forall a, b | 0 <= a < b < |todo| :: todo[a].id != todo[b].id
        decreases |rest|
      {
        var id :| id in rest;
        rest := rest - {id};
        if jobs[id].next == ZERO_TIME || !(jobs[id].next > now) {
          todo := todo + [jobs[id]];
        }
      }
    }

    /** The locked section after the run of a collected job. */
    method Finish(job: Job, now: int, ok: bool)
      modifies this
      ensures jobs == Settle(old(jobs), job, now, ok)
      ensures var same := job.id in old(jobs) && old(jobs)[job.id].attempts == job.attempts && old(jobs)[job.id].next == job.next;
        jobs == if !same then old(jobs)
                else if ok then old(jobs) - {job.id}
                else old(jobs)[job.id := job.(attempts := job.attempts + 1, next := now + (job.attempts + 1) * 1_000_000_000)]
    {
      if job.id !in jobs || jobs[job.id].attempts != job.attempts || jobs[job.id].next != job.next {
        return;
      }
      if ok {
        jobs := jobs - {job.id};
      } else {
        var attempts := job.attempts + 1;
        jobs := jobs[job.id := job.(attempts := attempts, next := now + attempts * SECOND)];
      }
    }
  }

  // ------------------------------------------------------------- interleaved ticks

  datatype Tick = Tick(now: int, todo: seq<Job>)

  /** What has happened to a job since it was added: the failures and the success
      of the runs that collected it. */
  datatype Tally = Tally(base: Job, failures: nat, lastFailure: int, done: bool)

  /** The table, the ticks under way, and the accounts. A runner's collected id is
      stale once that id has been cancelled or added anew; an id is a lookalike when
      it was added just as some stale job of it looks. */
  datatype System = System(jobs: Jobs, ticks: map<nat, Tick>, tallies: map<string, Tally>,
                           stale: set<(nat, string)>, lookalikes: set<string>)

  datatype Step =
    | Add(j: Job)
    | Cancel(id: string)
    | Snap(r: nat, now: int, todo: seq<Job>)
    | Ran(r: nat, ok: bool)

  function Todo(s: System, r: nat): seq<Job> {
    if r in s.ticks then s.ticks[r].todo else []
  }

  /** The runners that have collected an id and not settled it. */
  function Collectors(s: System, id: string): set<(nat, string)> {
    set r | r in s.ticks && Collected(s.ticks[r].todo, id) :: (r, id)
  }

  predicate Collected(todo: seq<Job>, id: string) { exists i | 0 <= i < |todo| :: todo[i].id == id }

  /** Some collected job of the same id looks like this one. */
  predicate LooksCollected(s: System, j: Job) {
    exists r | r in s.ticks :: exists i | 0 <= i < |s.ticks[r].todo| :: Unchanged(map[j.id := j], s.ticks[r].todo[i])
  }

  function Counted(t: map<string, Tally>, id: string, now: int, ok: bool): map<string, Tally> {
    if id !in t then t
    else if ok then t[id := t[id].(done := true)]
    else t[id := t[id].(failures := t[id].failures + 1, lastFailure := now)]
  }

  /** A runner starts a tick only when its last one is finished; `Ran` ends the
      unlocked run of the next collected job and settles it. */
  ghost function Do(s: System, step: Step): System {
    match step
    case Add(j) =>
      if j.id in s.jobs then s
      else System(s.jobs[j.id := j], s.ticks, s.tallies[j.id := Tally(j, 0, 0, false)],
                  s.stale + Collectors(s, j.id),
                  if LooksCollected(s, j) then s.lookalikes + {j.id} else s.lookalikes - {j.id})
    case Cancel(id) =>
      System(s.jobs - {id}, s.ticks, s.tallies - {id}, s.stale + Collectors(s, id), s.lookalikes - {id})
    case Snap(r, now, todo) =>
      if Todo(s, r) == [] && IsSnapshot(s.jobs, now, todo) then s.(ticks := s.ticks[r := Tick(now, todo)]) else s
    case Ran(r, ok) =>
      if Todo(s, r) == [] then s else
        var t := s.ticks[r];
        var id := t.todo[0].id;
        System(Settle(s.jobs, t.todo[0], t.now, ok), s.ticks[r := Tick(t.now, t.todo[1..])],
               if (r, id) in s.stale then s.tallies else Counted(s.tallies, id, t.now, ok),
               s.stale - {(r, id)}, s.lookalikes)
  }

  ghost function Run(s: System, steps: seq<Step>): System { Fold(Do, s, steps) }

  const INIT := System(map[], map[], map[], {}, {})

  /** A cancelled job that is not added again never comes back. */
  lemma {:induction false} CancelledStaysGone(s: System, steps: seq<Step>, id: string)
    requires id !in s.jobs && forall i | 0 <= i < |steps| :: steps[i].Add? ==> steps[i].j.id != id
    ensures id !in Run(s, steps).jobs
  {
    if steps != [] {
      CancelledStaysGone(s, steps[..|steps| - 1], id);
      var last := steps[|steps| - 1];
      assert last.Add? ==> last.j.id != id;
    }
  }

  /** The end of a run writes exactly when the job still has the attempts and the
      due time the run started from. */
  lemma RunWritesIff(s: System, r: nat, ok: bool)
    requires Todo(s, r) != []
    ensures (Do(s, Ran(r, ok)).jobs != s.jobs) <==> Unchanged(s.jobs, Todo(s, r)[0])
  {
    var j := Todo(s, r)[0];
    if Unchanged(s.jobs, j) {
      assert j.id in s.jobs;
      assert !ok ==> Do(s, Ran(r, ok)).jobs[j.id].attempts == s.jobs[j.id].attempts + 1;
    }
  }

  /** No tick collects an id twice. */
  ghost predicate DistinctTodos(s: System) {
    forall r, a, b | 0 <= a < b < |Todo(s, r)| :: Todo(s, r)[a].id != Todo(s, r)[b].id
  }

  lemma DoKeepsDistinct(s: System, step: Step)
    requires DistinctTodos(s)
    ensures DistinctTodos(Do(s, step))
  {
    forall r, a, b | 0 <= a < b < |Todo(Do(s, step), r)|
      ensures Todo(Do(s, step), r)[a].id != Todo(Do(s, step), r)[b].id
    {
      if step.Ran? && step.r == r && Todo(s, r) != [] {
        assert Todo(s, r)[a + 1].id != Todo(s, r)[b + 1].id;
      } else if !step.Snap? || step.r != r || Todo(Do(s, step), r) == Todo(s, r) {
        assert Todo(s, r)[a].id != Todo(s, r)[b].id;
      }
    }
  }

  lemma {:induction false} TodosDistinct(steps: seq<Step>)
    ensures DistinctTodos(Run(INIT, steps))
  {
    if steps != [] {
      TodosDistinct(steps[..|steps| - 1]);
      DoKeepsDistinct(Run(INIT, steps[..|steps| - 1]), steps[|steps| - 1]);
    }
  }

  /** No run still to be settled can write the job: none that is collected looks like it. */
  ghost predicate OutOfReach(s: System, id: string) {
    id in s.jobs && forall r, i | 0 <= i < |Todo(s, r)| && Todo(s, r)[i].id == id :: !Unchanged(s.jobs, Todo(s, r)[i])
  }

  /** The step neither cancels the job nor collects it for a run. */
  predicate Spares(step: Step, id: string) {
    && step != Cancel(id)
    && (step.Snap? ==> forall i | 0 <= i < |step.todo| :: step.todo[i].id != id)
  }

  /** However many runners tick meanwhile, until one of them collects the job
      itself, it is left as it is by every run under way, exactly when none of the
      collected jobs of its id has its attempts and time. */
  lemma SurvivesIff(s: System, id: string)
    requires id in s.jobs && DistinctTodos(s)
    ensures (forall steps | AllSpare(steps, id) :: id in Run(s, steps).jobs && Run(s, steps).jobs[id] == s.jobs[id])
            <==> OutOfReach(s, id)
  {
    if OutOfReach(s, id) {
      forall steps | AllSpare(steps, id) ensures id in Run(s, steps).jobs && Run(s, steps).jobs[id] == s.jobs[id] {
        ReaddedJobSurvives(s, steps, id);
      }
    } else {
      var r, i :| 0 <= i < |Todo(s, r)| && Todo(s, r)[i].id == id && Unchanged(s.jobs, Todo(s, r)[i]);
      var steps := Deletes(s, r, i, id);
      assert AllSpare(steps, id);
    }
  }

  ghost predicate AllSpare(steps: seq<Step>, id: string) { forall i | 0 <= i < |steps| :: Spares(steps[i], id) }

  /** A job added again with other attempts or another time is neither overwritten
      nor deleted by any run of the old one. */
  lemma {:induction false} ReaddedJobSurvives(s: System, steps: seq<Step>, id: string)
    requires OutOfReach(s, id) && AllSpare(steps, id)
    ensures OutOfReach(Run(s, steps), id) && Run(s, steps).jobs[id] == s.jobs[id]
  {
    if steps != [] {
      ReaddedJobSurvives(s, steps[..|steps| - 1], id);
      assert Spares(steps[|steps| - 1], id);
      StaysOutOfReach(Run(s, steps[..|steps| - 1]), steps[|steps| - 1], id);
    }
  }

  /** A runner that has collected a lookalike deletes the job when it gets there and succeeds. */
  lemma Deletes(s: System, r: nat, i: nat, id: string) returns (steps: seq<Step>)
    requires DistinctTodos(s) && i < |Todo(s, r)| && Todo(s, r)[i].id == id && Unchanged(s.jobs, Todo(s, r)[i])
    ensures AllSpare(steps, id) && id !in Run(s, steps).jobs
  {
    steps := RunsUpTo(s, r, i, id);
    assert Todo(Run(s, steps), r)[0] == Todo(s, r)[i];
    steps := Then(Do, s, steps, Ran(r, true));
  }

  lemma {:induction false} RunsUpTo(s: System, r: nat, k: nat, id: string) returns (steps: seq<Step>)
    requires id in s.jobs && k < |Todo(s, r)| && forall j | 0 <= j < k :: Todo(s, r)[j].id != id
    ensures AllSpare(steps, id) && Todo(Run(s, steps), r) == Todo(s, r)[k..]
    ensures id in Run(s, steps).jobs && Run(s, steps).jobs[id] == s.jobs[id]
  {
    steps := [];
    if k > 0 {
      steps := RunsUpTo(s, r, k - 1, id);
      assert Todo(Run(s, steps), r)[0] == Todo(s, r)[k - 1];
      steps := Then(Do, s, steps, Ran(r, true));
    }
  }

  lemma StaysOutOfReach(s: System, step: Step, id: string)
    requires OutOfReach(s, id) && Spares(step, id)
    ensures OutOfReach(Do(s, step), id) && Do(s, step).jobs[id] == s.jobs[id]
  {
    var s' := Do(s, step);
    if step.Ran? && Todo(s, step.r) != [] && Todo(s, step.r)[0].id == id {
      assert !Unchanged(s.jobs, Todo(s, step.r)[0]);
    }
    assert id in s'.jobs && s'.jobs[id] == s.jobs[id];
    forall r, i | 0 <= i < |Todo(s', r)| && Todo(s', r)[i].id == id ensures !Unchanged(s'.jobs, Todo(s', r)[i]) {
      if !step.Snap? || step.r != r || Todo(s', r) == Todo(s, r) {
        var k := if step.Ran? && step.r == r && Todo(s, r) != [] then i + 1 else i;
        assert Todo(s', r)[i] == Todo(s, r)[k];
      }
    }
  }

  // ------------------------------------------------------------- one runner

  /** A job's attempts are those it was added with plus its failures, its next run
      is set by its last failure, and it leaves only by succeeding. */
  ghost predicate Accounted(s: System, id: string) {
    id in s.tallies ==>
      var t := s.tallies[id];
      && t.base.id == id
      && (t.done <==> id !in s.jobs)
      && var attempts := t.base.attempts + t.failures;
         var next := if t.failures == 0 then t.base.next else t.lastFailure + attempts * SECOND;
         id in s.jobs ==> s.jobs[id] == Job(id, t.base.run, attempts, next)
  }

  /** A collected job is the one in the table, or is stale and, short of a
      lookalike, unlike it. */
  ghost predicate Placed(s: System, j: Job) {
    if (0, j.id) in s.stale then j.id !in s.lookalikes ==> !Unchanged(s.jobs, j)
    else j.id in s.jobs && s.jobs[j.id] == j
  }

  ghost predicate Good(s: System) {
    && (forall id | id in s.jobs :: id in s.tallies && s.jobs[id].id == id)
    && (forall id | id !in s.lookalikes :: Accounted(s, id))
    && (forall r | r != 0 :: Todo(s, r) == [])
    && (forall p | p in s.stale :: p.0 == 0 && Collected(Todo(s, 0), p.1))
    && (forall i | 0 <= i < |Todo(s, 0)| :: Placed(s, Todo(s, 0)[i]))
    && DistinctTodos(s)
  }

  predicate ByRunner0(step: Step) {
    step.Snap? ==> step.r == 0
  }

  lemma OthersIdle(s: System, step: Step)
    requires Good(s) && ByRunner0(step)
    ensures forall r | r != 0 :: Todo(Do(s, step), r) == []
  {
    forall r | r != 0 ensures Todo(Do(s, step), r) == [] {
      assert Todo(s, r) == [];
    }
  }

  lemma CollectorsAre0(s: System, id: string)
    requires Good(s)
    ensures Collectors(s, id) == if Collected(Todo(s, 0), id) then {(0, id)} else {}
  {
    forall p | p in Collectors(s, id) ensures p == (0, id) {
      assert Todo(s, p.0) != [];
    }
  }

  lemma AddKeepsGood(s: System, j: Job)
    requires Good(s) && j.id !in s.jobs
    ensures Good(Do(s, Add(j)))
  {
    var s' := Do(s, Add(j));
    OthersIdle(s, Add(j));
    DoKeepsDistinct(s, Add(j));
    CollectorsAre0(s, j.id);
    forall id | id !in s'.lookalikes ensures Accounted(s', id) {
      assert id != j.id ==> Accounted(s, id);
    }
    forall i | 0 <= i < |Todo(s', 0)| ensures Placed(s', Todo(s', 0)[i]) {
      var e := Todo(s, 0)[i];
      if e.id == j.id {
        assert Collected(Todo(s, 0), j.id);
        assert j.id !in s'.lookalikes ==> !Unchanged(map[j.id := j], e);
      } else {
        assert Placed(s, e);
      }
    }
  }

  lemma CancelKeepsGood(s: System, id: string)
    requires Good(s)
    ensures Good(Do(s, Cancel(id)))
  {
    var s' := Do(s, Cancel(id));
    OthersIdle(s, Cancel(id));
    DoKeepsDistinct(s, Cancel(id));
    CollectorsAre0(s, id);
    forall k | k !in s'.lookalikes ensures Accounted(s', k) {
      assert k != id ==> Accounted(s, k);
    }
    forall i | 0 <= i < |Todo(s', 0)| ensures Placed(s', Todo(s', 0)[i]) {
      var e := Todo(s, 0)[i];
      assert e.id == id ==> Collected(Todo(s, 0), id);
      assert e.id != id ==> Placed(s, e);
    }
  }

  lemma SnapKeepsGood(s: System, now: int, todo: seq<Job>)
    requires Good(s) && Todo(s, 0) == [] && IsSnapshot(s.jobs, now, todo)
    ensures Good(Do(s, Snap(0, now, todo)))
  {
    var s' := Do(s, Snap(0, now, todo));
    OthersIdle(s, Snap(0, now, todo));
    DoKeepsDistinct(s, Snap(0, now, todo));
    forall id | id !in s'.lookalikes ensures Accounted(s', id) {
      assert Accounted(s, id);
    }
  }

  lemma RanKeepsGood(s: System, ok: bool)
    requires Good(s) && Todo(s, 0) != []
    ensures Good(Do(s, Ran(0, ok)))
  {
    var s', j := Do(s, Ran(0, ok)), Todo(s, 0)[0];
    OthersIdle(s, Ran(0, ok));
    DoKeepsDistinct(s, Ran(0, ok));
    assert Todo(s', 0) == Todo(s, 0)[1..];
    assert Placed(s, j);
    forall id | id !in s'.lookalikes ensures Accounted(s', id) {
      assert Accounted(s, id);
    }
    forall p | p in s'.stale ensures p.0 == 0 && Collected(Todo(s', 0), p.1) {
      var i :| 0 <= i < |Todo(s, 0)| && Todo(s, 0)[i].id == p.1;
      assert i > 0 && Todo(s', 0)[i - 1] == Todo(s, 0)[i];
    }
    forall i | 0 <= i < |Todo(s', 0)| ensures Placed(s', Todo(s', 0)[i]) {
      assert Todo(s', 0)[i] == Todo(s, 0)[i + 1];
      assert Placed(s, Todo(s, 0)[i + 1]);
    }
  }

  lemma DoKeepsGood(s: System, step: Step)
    requires Good(s) && ByRunner0(step)
    ensures Good(Do(s, step))
  {
    match step
    case Add(j) => if j.id !in s.jobs { AddKeepsGood(s, j); }
    case Cancel(id) => CancelKeepsGood(s, id);
    case Snap(_, now, todo) => if Todo(s, 0) == [] && IsSnapshot(s.jobs, now, todo) { SnapKeepsGood(s, now, todo); }
    case Ran(r, ok) =>
      assert r != 0 ==> Todo(s, r) == [];
      if Todo(s, r) != [] { RanKeepsGood(s, ok); }
  }

  /** With one runner, whatever is added, cancelled and added again during its
      unlocked runs, the account of every job is exact, except one added looking
      just as a stale job of its id still to be settled. */
  lemma {:induction false} OneRunnerAccounts(s: System, steps: seq<Step>)
    requires Good(s) && forall i | 0 <= i < |steps| :: ByRunner0(steps[i])
    ensures Good(Run(s, steps))
  {
    if steps != [] {
      OneRunnerAccounts(s, steps[..|steps| - 1]);
      assert ByRunner0(steps[|steps| - 1]);
      DoKeepsGood(Run(s, steps[..|steps| - 1]), steps[|steps| - 1]);
    }
  }

  /** From an empty scheduler: a scheduled job that was no lookalike has the
      attempts it was last added with plus the failures since of runs that collected
      it, and the time its last failure set. */
  lemma ScheduledJob(steps: seq<Step>, id: string)
    requires forall i | 0 <= i < |steps| :: ByRunner0(steps[i])
    requires var s := Run(INIT, steps); id in s.jobs && id !in s.lookalikes
    ensures var s := Run(INIT, steps); id in s.tallies && var t := s.tallies[id];
      && !t.done && s.jobs[id].run == t.base.run && s.jobs[id].attempts == t.base.attempts + t.failures
      && s.jobs[id].next == if t.failures == 0 then t.base.next else t.lastFailure + s.jobs[id].attempts * 1_000_000_000
  {
    OneRunnerAccounts(INIT, steps);
    assert Accounted(Run(INIT, steps), id);
  }

  /** The back-off is kept: with one runner, a tick that collects a job which has
      failed k times in all comes at least k seconds after its last failure (unless
      that moment is the zero instant, which counts as unset), and one that finds a
      job due always collects it. */
  lemma TickWaits(steps: seq<Step>, now: int, todo: seq<Job>, id: string)
    requires forall i | 0 <= i < |steps| :: ByRunner0(steps[i])
    requires var s := Run(INIT, steps);
      id in s.jobs && id !in s.lookalikes && id in s.tallies && s.tallies[id].failures > 0
    requires Todo(Run(INIT, steps), 0) == [] && IsSnapshot(Run(INIT, steps).jobs, now, todo)
    ensures var s := Run(INIT, steps); var due := s.tallies[id].lastFailure + s.jobs[id].attempts * 1_000_000_000;
      (exists i | 0 <= i < |todo| :: todo[i].id == id) <==> now >= due || due == ZERO_TIME
  {
    var s := Run(INIT, steps);
    ScheduledJob(steps, id);
    assert s.jobs[id].id == id by { OneRunnerAccounts(INIT, steps); }
    if i :| 0 <= i < |todo| && todo[i].id == id {
      assert todo[i] in todo;
    }
    if Due(s.jobs[id], now) {
      assert s.jobs[id] in todo;
    }
  }

  /** A tick of any runner, in any state, collects exactly the jobs due. */
  lemma TickCollects(s: System, r: nat, now: int, todo: seq<Job>)
    requires Todo(s, r) == [] && IsSnapshot(s.jobs, now, todo)
    ensures Todo(Do(s, Snap(r, now, todo)), r) == todo
    ensures forall j | j in todo :: j.id in s.jobs && s.jobs[j.id] == j && (j.next == ZERO_TIME || j.next <= now)
    ensures forall id | id in s.jobs && (s.jobs[id].next == ZERO_TIME || s.jobs[id].next <= now) :: s.jobs[id] in todo
  {
  }

  /** Settling a run spoils an exact account exactly when the collected job is stale
      and a lookalike: the old run's outcome is then written over the new job. */
  lemma SpoiledIff(s: System, ok: bool)
    requires Good(s) && Todo(s, 0) != [] && Accounted(s, Todo(s, 0)[0].id)
    ensures var j := Todo(s, 0)[0];
      !Accounted(Do(s, Ran(0, ok)), j.id) <==> (0, j.id) in s.stale && Unchanged(s.jobs, j)
  {
    var j, s' := Todo(s, 0)[0], Do(s, Ran(0, ok));
    assert Placed(s, j);
    if (0, j.id) in s.stale && Unchanged(s.jobs, j) {
      assert j.id in s.tallies && s'.tallies == s.tallies;
      assert ok ==> j.id !in s'.jobs;
      assert !ok ==> s'.jobs[j.id].attempts == s.jobs[j.id].attempts + 1;
    }
  }

  /** A job leaves the table only by being cancelled or by a success of its own,
      unless it was a lookalike. */
  lemma MissingJob(steps: seq<Step>, id: string)
    requires forall i | 0 <= i < |steps| :: ByRunner0(steps[i])
    requires var s := Run(INIT, steps); id in s.tallies && id !in s.jobs && id !in s.lookalikes
    ensures Run(INIT, steps).tallies[id].done
  {
    OneRunnerAccounts(INIT, steps);
    assert Accounted(Run(INIT, steps), id);
  }

  /** With two runners a failure can go uncounted: both run the job, one writes. */
  lemma TwoRunnersMissAFailure() returns (steps: seq<Step>)
    ensures var s := Run(INIT, steps);
      && s.lookalikes == {} && "a" in s.tallies && s.tallies["a"].failures == 2
      && "a" in s.jobs && s.jobs["a"].attempts == 1
  {
    var j := Job("a", 0, 0, 0);
    steps := Then(Do, INIT, [], Add(j));
    assert IsSnapshot(map["a" := j], 5, [j]);
    steps := Then(Do, INIT, steps, Snap(0, 5, [j]));
    steps := Then(Do, INIT, steps, Snap(1, 5, [j]));
    steps := Then(Do, INIT, steps, Ran(0, false));
    steps := Then(Do, INIT, steps, Ran(1, false));
  }

  const OLD := Job("a", 0, 0, 0)
  const NEW := Job("a", 1, 0, 0)

  lemma OldIsRunning() returns (steps: seq<Step>)
    ensures var s := Run(INIT, steps);
      s.jobs == map["a" := OLD] && s.ticks == map[0 := Tick(5, [OLD])] && s.stale == {} && s.lookalikes == {}
  {
    steps := Then(Do, INIT, [], Add(OLD));
    assert IsSnapshot(map["a" := OLD], 5, [OLD]);
    steps := Then(Do, INIT, steps, Snap(0, 5, [OLD]));
  }

  /** A job cancelled and added again with the same attempts and time looks
      unchanged: the old run's success deletes the new job. */
  lemma LookalikeIsDeleted() returns (steps: seq<Step>)
    ensures Run(INIT, steps + [Ran(0, true)]).jobs == map[]
    ensures Run(INIT, steps).jobs == map["a" := NEW]
    ensures Todo(Run(INIT, steps), 0) == [OLD] && Run(INIT, steps).lookalikes == {"a"}
  {
    steps := OldIsRunning();
    steps := Then(Do, INIT, steps, Cancel("a"));
    steps := Then(Do, INIT, steps, Add(NEW));
    var longer := Then(Do, INIT, steps, Ran(0, true));
  }
}
