/** Scheduler workers and the reminder API on one PostgreSQL database, one step per SQL statement.

    The table holds committed rows only.  A worker's uncommitted writes are its own until it commits, and each
    keeps its row locked until then.  A statement of READ COMMITTED isolation tests the committed row, waits if
    the row passes the test and is locked, and tests again once the lock is gone; here a waiting statement is an
    action that changes nothing, so it may be tried again at any later time. */
module SchedulerProtocol {
  import opened Wrappers
  import opened Reminders

  type WorkerId = nat

  /** Where a tick stands: before the task look-up of `due[i]` (or before the commit, when the list is done),
      before its conditional update, or between the claim and the notification. */
  datatype Phase = Resolving | Claiming | Notifying

  /** The local variables of one tick and the uncommitted writes of its session.  `missing` and `raised` split
      the source's single failure counter; `attempts` are the reminders handed to the provider, in order. */
  datatype Tick = Tick(
    phase: Phase, now: Time, limit: nat, due: seq<Loaded>, i: nat,
    sent: nat, failed: nat, skipped: nat, missing: nat, raised: nat,
    writes: Table, attempts: seq<ReminderId>)

  datatype Outcome = Committed | RolledBack | NothingDue

  datatype Ended = Ended(worker: WorkerId, tick: Tick, outcome: Outcome)

  datatype World = World(
    rows: Table,
    tasks: map<TaskId, Time>,
    used: set<ReminderId>,
    locks: map<ReminderId, WorkerId>,
    ticks: map<WorkerId, Tick>,
    sends: seq<ReminderId>,
    ended: seq<Ended>)

  datatype Action =
    | Begin(worker: WorkerId, now: Time, limit: nat)
    | Resolve(worker: WorkerId)
    | Claim(worker: WorkerId)
    | Notify(worker: WorkerId, raises: bool)
    | Finish(worker: WorkerId)
    | FinishUnacknowledged(worker: WorkerId)
    | DatabaseError(worker: WorkerId)
    | PutTask(task: TaskId, deadline: Time)
    | DeleteTask(task: TaskId)
    | CreateReminder(id: ReminderId, task: TaskId, remindAt: Time, at: Time)
    | UpdateReminder(id: ReminderId, newRemindAt: Option<Time>, newStatus: Option<ReminderStatus>, at: Time)
    | DeleteReminder(id: ReminderId)

  const EMPTY: World := World(map[], map[], {}, map[], map[], [], [])

  // ----- The scheduler's statements -----

  function FreshTick(rows: Table, now: Time, limit: nat): Tick {
    Tick(Resolving, now, limit, FindDue(rows, now, limit), 0, 0, 0, 0, 0, 0, map[], [])
  }

  function DoBegin(w: World, worker: WorkerId, now: Time, limit: nat): World {
    if worker in w.ticks then w else w.(ticks := w.ticks[worker := FreshTick(w.rows, now, limit)])
  }

  predicate At(w: World, worker: WorkerId, phase: Phase) {
    worker in w.ticks && w.ticks[worker].phase == phase && w.ticks[worker].i < |w.ticks[worker].due|
  }

  /** The look-up found the task, or counts a failure and goes on to the next reminder. */
  function Resolved(t: Tick, found: bool): Tick {
    if found then t.(phase := Claiming) else t.(failed := t.failed + 1, missing := t.missing + 1, i := t.i + 1)
  }

  function DoResolve(w: World, worker: WorkerId): World {
    if !At(w, worker, Resolving) then w
    else
      var t := w.ticks[worker];
      w.(ticks := w.ticks[worker := Resolved(t, t.due[t.i].row.taskId in w.tasks)])
  }

  /** The WHERE clause of `mark_sent` on the committed row. */
  predicate Claimable(w: World, id: ReminderId, now: Time) {
    id in w.rows && IsDue(w.rows[id], now)
  }

  /** The reminder a worker's next conditional update names. */
  function Wanted(w: World, worker: WorkerId): Loaded
    requires At(w, worker, Claiming)
  {
    w.ticks[worker].due[w.ticks[worker].i]
  }

  /** The conditional update of `worker` waits for a row lock. */
  predicate Blocked(w: World, worker: WorkerId) {
    && At(w, worker, Claiming)
    && Claimable(w, Wanted(w, worker).id, w.ticks[worker].now)
    && Wanted(w, worker).id in w.locks
  }

  /** One row updated: `row` becomes SENT in this session. */
  function Claimed(t: Tick, id: ReminderId, row: Reminder): Tick {
    t.(phase := Notifying, writes := t.writes[id := row.(status := Sent, updatedAt := t.now)])
  }

  /** No row updated. */
  function Skipped(t: Tick): Tick {
    t.(phase := Resolving, skipped := t.skipped + 1, i := t.i + 1)
  }

  function DoClaim(w: World, worker: WorkerId): World {
    if !At(w, worker, Claiming) || Blocked(w, worker) then w
    else
      var t := w.ticks[worker];
      var id := t.due[t.i].id;
      if Claimable(w, id, t.now) then
        w.(ticks := w.ticks[worker := Claimed(t, id, w.rows[id])], locks := w.locks[id := worker])
      else
        w.(ticks := w.ticks[worker := Skipped(t)])
  }

  /** The provider was called; the claim counts as sent even when the provider raised. */
  function Notified(t: Tick, id: ReminderId, raises: bool): Tick {
    var n := if raises then 1 else 0;
    t.(phase := Resolving, sent := t.sent + 1, failed := t.failed + n, raised := t.raised + n,
       attempts := t.attempts + [id], i := t.i + 1)
  }

  function DoNotify(w: World, worker: WorkerId, raises: bool): World {
    if !At(w, worker, Notifying) then w
    else
      var t := w.ticks[worker];
      var id := t.due[t.i].id;
      w.(ticks := w.ticks[worker := Notified(t, id, raises)], sends := w.sends + [id])
  }

  /** The session is over: its locks go, and its tick is recorded. */
  function Release(w: World, worker: WorkerId, outcome: Outcome): World
    requires worker in w.ticks
  {
    w.(locks := w.locks - w.ticks[worker].writes.Keys,
       ticks := w.ticks - {worker},
       ended := w.ended + [Ended(worker, w.ticks[worker], outcome)])
  }

  predicate AtEnd(w: World, worker: WorkerId) {
    worker in w.ticks && w.ticks[worker].phase.Resolving? && w.ticks[worker].i >= |w.ticks[worker].due|
  }

  /** The commit.  `FinishUnacknowledged` is the same step with its answer lost: it takes effect, and the worker sees
      an exception. */
  function DoFinish(w: World, worker: WorkerId): World {
    if !AtEnd(w, worker) then w
    else if w.ticks[worker].due == [] then Release(w, worker, NothingDue)
    else Release(w.(rows := w.rows + w.ticks[worker].writes), worker, Committed)
  }

  /** A statement or the commit raises: the module rolls the whole batch back.  The provider's exceptions do not
      end here, so no tick ends between a claim and its notification. */
  function DoDatabaseError(w: World, worker: WorkerId): World {
    if worker !in w.ticks || w.ticks[worker].phase.Notifying? then w
    else Release(w, worker, RolledBack)
  }

  // ----- The reminder and task API, one transaction a step -----

  function Owned(w: World, task: TaskId): set<ReminderId> {
    set id | id in w.rows && w.rows[id].taskId == task
  }

  /** Deleting a task deletes its reminders with it, and waits for the locks on them. */
  function DoDeleteTask(w: World, task: TaskId): World {
    if task !in w.tasks || !(Owned(w, task) !! w.locks.Keys) then w
    else w.(tasks := w.tasks - {task}, rows := w.rows - Owned(w, task))
  }

  function DoCreateReminder(w: World, id: ReminderId, task: TaskId, remindAt: Time, at: Time): World {
    if id in w.used || task !in w.tasks || remindAt > w.tasks[task] then w
    else w.(rows := w.rows[id := Reminder(task, remindAt, Pending, at)], used := w.used + {id})
  }

  /** A column that is given the value it has is not set. */
  function Changed<T(==)>(given: Option<T>, read: T): Option<T> {
    if given.Some? && given.value != read then given else None
  }

  /** The row with these columns set; when there are none, nothing is written at all. */
  function Written(r: Reminder, remindAt: Option<Time>, status: Option<ReminderStatus>, at: Time): Reminder {
    if remindAt.None? && status.None? then r
    else r.(remindAt := if remindAt.Some? then remindAt.value else r.remindAt,
            status := if status.Some? then status.value else r.status, updatedAt := at)
  }

  function DoUpdateReminder(w: World, id: ReminderId, newRemindAt: Option<Time>, newStatus: Option<ReminderStatus>,
                            at: Time): World
  {
    if id !in w.rows || id in w.locks || w.rows[id].status.Sent? then w
    else
      var r := w.rows[id];
      if newRemindAt.Some? && (r.taskId !in w.tasks || newRemindAt.value > w.tasks[r.taskId]) then w
      else if newStatus.Some? && newStatus.value.Sent? then w
      else
        w.(rows := w.rows[id := Written(r, Changed(newRemindAt, r.remindAt), Changed(newStatus, r.status), at)])
  }

  function DoDeleteReminder(w: World, id: ReminderId): World {
    if id !in w.rows || id in w.locks then w
    else w.(rows := w.rows - {id})
  }

  function Next(w: World, a: Action): World {
    match a
    case Begin(worker, now, limit) => DoBegin(w, worker, now, limit)
    case Resolve(worker) => DoResolve(w, worker)
    case Claim(worker) => DoClaim(w, worker)
    case Notify(worker, raises) => DoNotify(w, worker, raises)
    case Finish(worker) => DoFinish(w, worker)
    case FinishUnacknowledged(worker) => DoFinish(w, worker)
    case DatabaseError(worker) => DoDatabaseError(w, worker)
    case PutTask(task, deadline) => w.(tasks := w.tasks[task := deadline])
    case DeleteTask(task) => DoDeleteTask(w, task)
    case CreateReminder(id, task, remindAt, at) => DoCreateReminder(w, id, task, remindAt, at)
    case UpdateReminder(id, newRemindAt, newStatus, at) => DoUpdateReminder(w, id, newRemindAt, newStatus, at)
    case DeleteReminder(id) => DoDeleteReminder(w, id)
  }

  /** Every interleaving is a sequence of actions; the last one is taken last. */
  function Run(w: World, actions: seq<Action>): World {
    if actions == [] then w else Next(Run(w, actions[..|actions| - 1]), actions[|actions| - 1])
  }

  lemma {:induction false} RunAppend(w: World, before: seq<Action>, after: seq<Action>)
    ensures Run(w, before + after) == Run(Run(w, before), after)
    decreases |after|
  {
    if after == [] {
      assert before + after == before;
    } else {
      var n := |after| - 1;
      assert (before + after)[..|before + after| - 1] == before + after[..n];
      RunAppend(w, before, after[..n]);
    }
  }

  lemma RunOne(w: World, a: Action)
    ensures Run(w, [a]) == Next(w, a)
  {
    assert [a][..0] == [];
  }

  lemma RunTwo(w: World, a: Action, b: Action)
    ensures Run(w, [a, b]) == Next(Next(w, a), b)
  {
    RunOne(w, a);
    assert [a, b][..1] == [a];
  }

  lemma RunThree(w: World, s: seq<Action>, a: Action, b: Action, c: Action)
    ensures Run(w, s + [a, b, c]) == Next(Next(Next(Run(w, s), a), b), c)
  {
    hide Next;
    var all := s + [a, b, c];
    assert all[..|all| - 1] == s + [a, b];
    assert (s + [a, b])[..|s + [a, b]| - 1] == s + [a];
    assert (s + [a])[..|s + [a]| - 1] == s;
    assert Run(w, s + [a]) == Next(Run(w, s), a);
    assert Run(w, s + [a, b]) == Next(Run(w, s + [a]), b);
  }

  /** Look-up, claim and notification of a free, due reminder whose task exists. */
  lemma ThreeStatements(v: World, worker: WorkerId, raises: bool)
    requires At(v, worker, Resolving)
    requires var e := v.ticks[worker].due[v.ticks[worker].i];
             e.row.taskId in v.tasks && Claimable(v, e.id, v.ticks[worker].now) && e.id !in v.locks
    ensures DoNotify(DoClaim(DoResolve(v, worker), worker), worker, raises)
         == (var t := v.ticks[worker];
             var id := t.due[t.i].id;
             v.(sends := v.sends + [id], locks := v.locks[id := worker],
                ticks := v.ticks[worker := Notified(Claimed(t, id, v.rows[id]), id, raises)]))
  {
    var t := v.ticks[worker];
    var id := t.due[t.i].id;
    var x := DoResolve(v, worker);
    assert x.ticks[worker] == t.(phase := Claiming);
    var y := DoClaim(x, worker);
    assert y.ticks[worker] == Claimed(t, id, v.rows[id]);
  }
}
