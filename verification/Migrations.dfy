/**
 The mock agent's outgoing migrations: queued outcomes, the record and the task one start creates, and
 the two views computed from them at read time. Times are nanoseconds.
 */
module Migrations {
  import opened Options

  const DEFAULT_DELAY := 100_000_000

  datatype Phase = Setup | Active | Completed | Failed | Cancelled | Other(name: string)

  datatype Status = Pending | Running | Success | TaskFailed | TaskCancelled | OtherStatus(name: string)

  /** A queued outcome; what is left unset gets a default when it is taken. */
  datatype Staged = Staged(status: Option<Status>, phase: Option<Phase>, error: Option<string>, delay: int)

  datatype Outcome = Outcome(status: Status, phase: Phase, error: Option<string>, delay: int)

  datatype Record = Record(createdAt: int, delay: int, finalPhase: Phase, pinned: Option<Phase>, error: Option<string>)

  datatype Task = Task(createdAt: int, delay: int, outcome: Outcome, migration: nat)

  function Normalised(s: Staged): (o: Outcome)
    ensures o.delay > 0
    ensures s.status.None? && s.phase.None? ==>
              (o.phase == Failed <==> s.error.Some?) && (o.status == TaskFailed <==> s.error.Some?)
  {
    var status := if s.status.Some? then s.status.value else if s.error.Some? then TaskFailed else Success;
    var phase := if s.phase.Some? then s.phase.value else if status == TaskFailed then Failed else Completed;
    Outcome(status, phase, s.error, if s.delay <= 0 then DEFAULT_DELAY else s.delay)
  }

  // ------------------------------------------------------------------ the views

  datatype View = View(phase: Phase, progress: int, startedAt: Option<int>, completedAt: Option<int>)

  function ProjectMigration(rec: Record, now: int): View
    requires rec.delay > 0
  {
    if rec.pinned.Some? then View(rec.pinned.value, 0, None, None) else
    var elapsed, half := now - rec.createdAt, rec.delay / 2;
    if elapsed < half then View(Setup, 0, None, None)
    else if elapsed < rec.delay then
      var pct := (elapsed - half) * 100 / (rec.delay - half);
      View(Active, if pct > 99 then 99 else pct, None, None)
    else match rec.finalPhase
      case Completed => View(Completed, 100, Some(rec.createdAt + half), Some(rec.createdAt + rec.delay))
      case Failed => View(Failed, 0, Some(rec.createdAt + half), None)
      case _ => View(rec.finalPhase, 99, Some(rec.createdAt + half), None)
  }

  function ProjectTask(t: Task, now: int): Status
    requires t.delay > 0
  {
    var elapsed := now - t.createdAt;
    if elapsed < t.delay / 2 then Pending else if elapsed < t.delay then Running else t.outcome.status
  }

  // ------------------------------------------------------------------ the state

  class MockState {
    var queues: map<string, seq<Staged>>
    var migrations: map<nat, Record>
    var tasks: map<nat, Task>

    /** Queues are never empty, and every stored delay is positive. */
    ghost predicate Valid()
      reads this
    {
      && (forall vm :: vm in queues ==> queues[vm] != [])
      && (forall id :: id in migrations ==> migrations[id].delay > 0)
      && (forall id :: id in tasks ==> tasks[id].delay > 0)
    }

    function Queue(vm: string): seq<Staged>
      reads this
    {
      if vm in queues then queues[vm] else []
    }

    constructor ()
      ensures Valid() && queues == map[] && migrations == map[] && tasks == map[]
    {
      queues, migrations, tasks := map[], map[], map[];
    }

    method Add(vm: string, s: Staged)
      requires Valid()
      modifies this
      ensures Valid() && Queue(vm) == old(Queue(vm)) + [s] && migrations == old(migrations) && tasks == old(tasks)
      ensures forall v :: v != vm ==> Queue(v) == old(Queue(v))
    {
      queues := queues[vm := Queue(vm) + [s]];
    }

    /** Takes the oldest outcome queued for this VM, or a default success. */
    method Take(vm: string) returns (o: Outcome)
      requires Valid()
      modifies this
      ensures Valid() && migrations == old(migrations) && tasks == old(tasks)
      ensures o == if old(Queue(vm)) == [] then Outcome(Success, Completed, None, DEFAULT_DELAY)
              else Normalised(old(Queue(vm))[0])
      ensures Queue(vm) == if old(Queue(vm)) == [] then [] else old(Queue(vm))[1..]
      ensures forall v :: v != vm ==> Queue(v) == old(Queue(v))
    {
      var queue := Queue(vm);
      if queue == [] { return Outcome(Success, Completed, None, DEFAULT_DELAY); }
      if |queue| == 1 {
        queues := queues - {vm};
      } else {
        queues := queues[vm := queue[1..]];
      }
      return Normalised(queue[0]);
    }

    /** Creates the record and the task of one migration, in step. */
    method StartOutgoing(vm: string, id: nat, taskId: nat, now: int)
      requires Valid() && taskId !in tasks
      modifies this
      ensures Valid() && id in migrations && taskId in tasks
      ensures InStep(migrations[id], tasks[taskId]) && migrations[id].createdAt == now && migrations[id].pinned.None? &&
              tasks[taskId].migration == id
      ensures migrations == old(migrations)[id := migrations[id]] && tasks == old(tasks)[taskId := tasks[taskId]]
    {
      var o := Take(vm);
      migrations := migrations[id := Record(now, o.delay, o.phase, None, o.error)];
      tasks := tasks[taskId := Task(now, o.delay, o, id)];
    }

    /** From a cancel on, the migration reads cancelled without progress at every instant; its task, and
        every other migration, reads as before. */
    method Cancel(id: nat) returns (ok: bool)
      requires Valid()
      modifies this
      ensures Valid() && ok == (id in old(migrations)) && migrations.Keys == old(migrations).Keys &&
              tasks == old(tasks) && queues == old(queues)
      ensures ok ==> forall now :: ProjectMigration(migrations[id], now) == View(Cancelled, 0, None, None)
      ensures forall other :: other in old(migrations) && other != id ==> migrations[other] == old(migrations)[other]
    {
      ok := id in migrations;
      if ok { migrations := migrations[id := migrations[id].(pinned := Some(Cancelled))]; }
    }
  }

  predicate InStep(rec: Record, t: Task)
  {
    rec.createdAt == t.createdAt && rec.delay == t.delay && rec.finalPhase == t.outcome.phase
  }

  // ------------------------------------------------------------------ the views agree

  /** Until it settles, a migration reads setup exactly while its task is pending and active exactly while
      it is running; they settle at the same instant, each into its own staged end. */
  lemma ViewsMoveTogether(rec: Record, t: Task, now: int)
    requires rec.delay > 0 && rec.pinned.None? && InStep(rec, t)
    ensures var v, elapsed := ProjectMigration(rec, now), now - rec.createdAt;
            if elapsed < rec.delay
            then (v.phase == Setup && ProjectTask(t, now) == Pending) ||
                (v.phase == Active && ProjectTask(t, now) == Running)
            else v.phase == t.outcome.phase && ProjectTask(t, now) == t.outcome.status
  {
  }

  /** Progress is at most 99 before the record settles, and is 100 exactly when it has settled as completed. */
  lemma ProgressIsHundredIffCompleted(rec: Record, now: int)
    requires rec.delay > 0
    ensures 0 <= ProjectMigration(rec, now).progress <= 100
    ensures ProjectMigration(rec, now).progress == 100 <==>
              rec.pinned.None? && rec.finalPhase == Completed && now - rec.createdAt >= rec.delay
  {
    var elapsed, half := now - rec.createdAt, rec.delay / 2;
    if half <= elapsed < rec.delay { RampIsMonotone(elapsed - half, elapsed - half, rec.delay - half); }
  }

  /** Division rounds down. */
  lemma QuotientBounds(a: int, span: int)
    requires span > 0
    ensures a / span * span <= a < a / span * span + span
  {
  }

  lemma SmallerFactor(x: int, y: int, span: int)
    requires span > 0 && x * span < y * span + span
    ensures x <= y
  {
    if x > y { Scaled(x - y - 1, span); }
  }

  lemma Scaled(n: int, span: int)
    requires n >= 0 && span > 0
    ensures n * span >= 0
  {
  }

  lemma DivisionIsMonotone(a: int, b: int, span: int)
    requires a <= b && span > 0
    ensures a / span <= b / span
  {
    QuotientBounds(a, span);
    QuotientBounds(b, span);
    SmallerFactor(a / span, b / span, span);
  }

  lemma RampIsMonotone(a: int, b: int, span: int)
    requires 0 <= a <= b && span > 0
    ensures 0 <= a * 100 / span <= b * 100 / span
  {
    DivisionIsMonotone(a * 100, b * 100, span);
    DivisionIsMonotone(0, a * 100, span);
  }

  /** The ramp has left zero: the first hundredth of the active half has passed. */
  predicate Advanced(rec: Record, now: int)
  {
    var elapsed, half := now - rec.createdAt, rec.delay / 2;
    elapsed < rec.delay && (elapsed - half) * 100 >= rec.delay - half
  }

  lemma AdvancedMeansProgress(rec: Record, now: int)
    requires rec.delay > 0 && rec.pinned.None? && now - rec.createdAt < rec.delay
    ensures ProjectMigration(rec, now).progress > 0 <==> Advanced(rec, now)
  {
    var elapsed, half := now - rec.createdAt, rec.delay / 2;
    if elapsed >= half { QuotientIsPositiveIff((elapsed - half) * 100, rec.delay - half); }
  }

  lemma QuotientIsPositiveIff(a: int, span: int)
    requires a >= 0 && span > 0
    ensures a / span > 0 <==> a >= span
  {
    var q := a / span;
    assert q * span <= a < q * span + span;
    assert q >= 1 ==> q * span >= span;
    assert q <= 0 ==> q * span <= 0;
  }

  /** Progress goes back between two instants exactly when the record has settled as failed by the later
      one and its ramp had left zero at the earlier. */
  lemma ProgressIsMonotoneIff(rec: Record, now: int, later: int)
    requires rec.delay > 0 && rec.pinned.None? && now <= later
    ensures ProjectMigration(rec, now).progress <= ProjectMigration(rec, later).progress <==>
            !(rec.finalPhase == Failed && later - rec.createdAt >= rec.delay && Advanced(rec, now))
  {
    var half := rec.delay / 2;
    var a, b := now - rec.createdAt, later - rec.createdAt;
    if a < rec.delay { AdvancedMeansProgress(rec, now); }
    if half <= a < rec.delay {
      RampIsMonotone(a - half, a - half, rec.delay - half);
      if b < rec.delay { RampIsMonotone(a - half, b - half, rec.delay - half); }
    } else if half <= b < rec.delay {
      RampIsMonotone(0, b - half, rec.delay - half);
    }
  }

  /** A failed migration's progress does drop. */
  lemma FailureDropsProgress()
    ensures var rec := Record(0, 10, Failed, None, None);
            ProjectMigration(rec, 9).progress == 80 && ProjectMigration(rec, 10).progress == 0
  {
  }
}
