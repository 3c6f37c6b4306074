/** What ticks achieve side by side: any number of workers, interleaved in any way, while nobody changes reminders or
    tasks through the API. */
module SchedulerProgress {
  import opened Reminders
  import opened SchedulerProtocol
  import opened SchedulerSafety

  /** A reminder stays as it is, or is claimed. */
  ghost predicate RowsGoOn(rows: Table, after: Table) {
    && after.Keys == rows.Keys
    && forall id :: id in rows ==>
         after[id] == rows[id] || (rows[id].status.Pending? && after[id].status.Sent? &&
             after[id].taskId == rows[id].taskId)
  }

  ghost predicate DueOrSent(rows: Table, id: ReminderId, now: Time) {
    id in rows && (IsDue(rows[id], now) || rows[id].status.Sent?)
  }

  ghost predicate IsSent(rows: Table, id: ReminderId) {
    id in rows && rows[id].status.Sent?
  }

  ghost predicate ListsAllDue(rows: Table, t: Tick) {
    forall id :: id in rows && IsDue(rows[id], t.now) ==> exists j :: 0 <= j < |t.due| && t.due[j].id == id
  }

  /** What a tick lists is due or already SENT, and has its task; what it has passed it has claimed or found SENT; and a
      list shorter than the limit has everything that is due. */
  ghost predicate TickGoesOn(w: World, t: Tick) {
    && (forall j :: 0 <= j < |t.due| ==> DueOrSent(w.rows, t.due[j].id, t.now) && t.due[j].row.taskId in w.tasks)
    && (forall j :: 0 <= j < t.i && j < |t.due| ==> t.due[j].id in t.writes || IsSent(w.rows, t.due[j].id))
    && (|t.due| < t.limit ==> ListsAllDue(w.rows, t))
  }

  /** A committed tick has left all it listed SENT; and after a tick that was not rolled back and listed fewer than its
      limit, nothing is due at its clock. */
  ghost predicate EndedWell(w: World, e: Ended) {
    && (e.outcome.Committed? ==> forall j :: 0 <= j < |e.tick.due| ==> IsSent(w.rows, e.tick.due[j].id))
    && (!e.outcome.RolledBack? && |e.tick.due| < e.tick.limit ==>
          forall id :: id in w.rows ==> !IsDue(w.rows[id], e.tick.now))
  }

  ghost predicate GoesOn(w: World, n: nat) {
    && n <= |w.ended| && TasksAreThere(w)
    && (forall k :: k in w.ticks ==> TickGoesOn(w, w.ticks[k]))
    && (forall k :: n <= k < |w.ended| ==> EndedWell(w, w.ended[k]))
  }

  lemma TickGoesOnLater(w: World, v: World, t: Tick)
    requires TickGoesOn(w, t) && RowsGoOn(w.rows, v.rows) && v.tasks == w.tasks
    ensures TickGoesOn(v, t)
  {
  }

  lemma EndedWellLater(w: World, v: World, e: Ended)
    requires EndedWell(w, e) && RowsGoOn(w.rows, v.rows) && v.tasks == w.tasks
    ensures EndedWell(v, e)
  {
  }

  lemma TasksStay(w: World, v: World)
    requires TasksAreThere(w) && RowsGoOn(w.rows, v.rows) && v.tasks == w.tasks
    ensures TasksAreThere(v)
  {
  }

  lemma ShortListHasAll(rows: Table, now: Time, limit: nat, id: ReminderId)
    requires |FindDue(rows, now, limit)| < limit && id in DueIds(rows, now)
    ensures Loaded(id, rows[id]) in FindDue(rows, now, limit)
  {
    var ids := DueIds(rows, now);
    RankedListsThem(rows, ids);
    assert FindDue(rows, now, limit) == Ranked(rows, ids)[..|ids|];
    assert Ranked(rows, ids)[..|ids|] == Ranked(rows, ids);
  }

  lemma FreshTickGoesOn(w: World, now: Time, limit: nat)
    requires TasksAreThere(w)
    ensures TickGoesOn(w, FreshTick(w.rows, now, limit))
  {
    var due := FindDue(w.rows, now, limit);
    hide FindDue;
    if |due| < limit {
      forall id | id in w.rows && IsDue(w.rows[id], now) ensures exists j :: 0 <= j < |due| && due[j].id == id {
        ShortListHasAll(w.rows, now, limit, id);
        var j :| 0 <= j < |due| && due[j] == Loaded(id, w.rows[id]);
      }
    }
  }

  lemma ResolvedGoesOn(w: World, t: Tick)
    requires TickGoesOn(w, t) && t.phase.Resolving? && t.i < |t.due|
    ensures TickGoesOn(w, Resolved(t, t.due[t.i].row.taskId in w.tasks))
  {
  }

  lemma SkippedGoesOn(w: World, t: Tick)
    requires TickGoesOn(w, t) && t.i < |t.due| && !Claimable(w, t.due[t.i].id, t.now)
    ensures TickGoesOn(w, Skipped(t))
  {
    assert DueOrSent(w.rows, t.due[t.i].id, t.now);
  }

  lemma ClaimedGoesOn(w: World, t: Tick, row: Reminder)
    requires TickGoesOn(w, t) && t.i < |t.due|
    ensures TickGoesOn(w, Claimed(t, t.due[t.i].id, row))
  {
  }

  lemma NotifiedGoesOn(w: World, t: Tick, raises: bool)
    requires TickGoesOn(w, t) && t.i < |t.due| && t.due[t.i].id in t.writes
    ensures TickGoesOn(w, Notified(t, t.due[t.i].id, raises))
  {
  }

  /** Committing claims moves rows from due to SENT. */
  lemma CommitGoesOn(rows: Table, t: Tick)
    requires WritesClaim(rows, t)
    ensures RowsGoOn(rows, rows + t.writes)
    ensures forall id :: id in t.writes ==> IsSent(rows + t.writes, id)
  {
  }

  lemma CommittedEndsWell(w: World, v: World, worker: WorkerId, t: Tick)
    requires TickGoesOn(w, t) && t.i >= |t.due| && v.rows == w.rows + t.writes && v.tasks == w.tasks &&
        WritesClaim(w.rows, t)
    ensures EndedWell(v, Ended(worker, t, Committed))
  {
    CommitGoesOn(w.rows, t);
    TickGoesOnLater(w, v, t);
    hide WritesClaim, TickGoesOn;
    forall j | 0 <= j < |t.due| ensures IsSent(v.rows, t.due[j].id) {
      PassedIsSent(v, t, j);
    }
    if |t.due| < t.limit {
      forall id | id in v.rows ensures !IsDue(v.rows[id], t.now) {
        if IsDue(v.rows[id], t.now) {
          var j := DueIsListed(v, t, id);
        }
      }
    }
  }

  lemma PassedIsSent(v: World, t: Tick, j: nat)
    requires TickGoesOn(v, t) && j < t.i && j < |t.due|
    requires forall id :: id in t.writes ==> IsSent(v.rows, id)
    ensures IsSent(v.rows, t.due[j].id)
  {
  }

  lemma DueIsListed(v: World, t: Tick, id: ReminderId) returns (j: nat)
    requires TickGoesOn(v, t) && |t.due| < t.limit && id in v.rows && IsDue(v.rows[id], t.now)
    ensures j < |t.due| && t.due[j].id == id
  {
    j :| 0 <= j < |t.due| && t.due[j].id == id;
  }

  lemma NothingDueEndsWell(w: World, worker: WorkerId, t: Tick)
    requires TickGoesOn(w, t) && t.due == []
    ensures EndedWell(w, Ended(worker, t, NothingDue))
  {
  }

  /** The tick ends; what the others hold goes on with the rows. */
  lemma ReleaseGoesOn(w: World, rows: Table, worker: WorkerId, outcome: Outcome, n: nat)
    requires GoesOn(w, n) && worker in w.ticks && RowsGoOn(w.rows, rows)
    requires EndedWell(w.(rows := rows), Ended(worker, w.ticks[worker], outcome))
    ensures GoesOn(Release(w.(rows := rows), worker, outcome), n)
  {
    hide RowsGoOn, TickGoesOn, EndedWell, TasksAreThere;
    TasksStay(w, Release(w.(rows := rows), worker, outcome));
    var e := Ended(worker, w.ticks[worker], outcome);
    var v := Release(w.(rows := rows), worker, outcome);
    forall k | k in v.ticks ensures TickGoesOn(v, v.ticks[k]) {
      TickGoesOnLater(w, v, w.ticks[k]);
    }
    forall k | n <= k < |v.ended| ensures EndedWell(v, v.ended[k]) {
      if k < |w.ended| {
        EndedWellLater(w, v, w.ended[k]);
      } else {
        EndedWellIn(w.(rows := rows), v, e);
      }
    }
  }

  lemma EndedWellIn(w: World, v: World, e: Ended)
    requires EndedWell(w, e) && v.rows == w.rows && v.tasks == w.tasks
    ensures EndedWell(v, e)
  {
  }

  lemma FinishGoesOn(w: World, worker: WorkerId, n: nat)
    requires Structure(w) && GoesOn(w, n)
    ensures GoesOn(DoFinish(w, worker), n)
  {
    hide TickShape, LocksAreWrites, WritesClaim, TickGoesOn, EndedWell, RowsGoOn;
    if AtEnd(w, worker) {
      var t := w.ticks[worker];
      if t.due == [] {
        NothingDueEndsWell(w, worker, t);
        SameRowsGoOn(w.rows);
        ReleaseGoesOn(w, w.rows, worker, NothingDue, n);
      } else {
        CommitGoesOn(w.rows, t);
        CommittedEndsWell(w, w.(rows := w.rows + t.writes), worker, t);
        ReleaseGoesOn(w, w.rows + t.writes, worker, Committed, n);
      }
    }
  }

  lemma SameRowsGoOn(rows: Table)
    ensures RowsGoOn(rows, rows)
  {
  }

  /** A tick takes a statement of its loop, or opens. */
  lemma StepGoesOn(w: World, v: World, worker: WorkerId, n: nat)
    requires GoesOn(w, n) && v.rows == w.rows && v.tasks == w.tasks && v.ended == w.ended
    requires v.ticks.Keys == w.ticks.Keys + {worker} && v.ticks == w.ticks[worker := v.ticks[worker]]
    requires TickGoesOn(w, v.ticks[worker])
    ensures GoesOn(v, n)
  {
    SameRowsGoOn(w.rows);
    hide TickGoesOn, EndedWell, RowsGoOn, TasksAreThere;
    TasksStay(w, v);
    forall k | k in v.ticks ensures TickGoesOn(v, v.ticks[k]) {
      TickGoesOnLater(w, v, v.ticks[k]);
    }
    forall k | n <= k < |v.ended| ensures EndedWell(v, v.ended[k]) {
      EndedWellLater(w, v, w.ended[k]);
    }
  }

  lemma NotifyingHasWritten(t: Tick)
    requires TickShape(t) && t.phase.Notifying?
    ensures t.i < |t.due| && t.due[t.i].id in t.writes
  {
  }

  lemma LoopGoesOn(w: World, a: Action, n: nat)
    requires Structure(w) && GoesOn(w, n) && (a.Begin? || a.Resolve? || a.Claim? || a.Notify?)
    ensures GoesOn(Next(w, a), n)
  {
    hide TickShape, LocksAreWrites, WritesClaim, TickGoesOn, EndedWell, FreshTick, GoesOn, IsDue, TasksAreThere;
    var v := Next(w, a);
    if v != w {
      assert v.ticks == w.ticks[a.worker := v.ticks[a.worker]];
      OpenTickGoesOn(w, a, n);
      match a {
        case Begin(worker, now, limit) => FreshTickGoesOn(w, now, limit);
        case Resolve(worker) => ResolvedGoesOn(w, w.ticks[worker]);
        case Claim(worker) =>
          var t := w.ticks[worker];
          if Claimable(w, t.due[t.i].id, t.now) {
            ClaimedGoesOn(w, t, w.rows[t.due[t.i].id]);
          } else {
            SkippedGoesOn(w, t);
          }
        case Notify(worker, raises) =>
          NotifyingHasWritten(w.ticks[worker]);
          NotifiedGoesOn(w, w.ticks[worker], raises);
      }
      StepGoesOn(w, v, a.worker, n);
    }
  }

  lemma OpenTickGoesOn(w: World, a: Action, n: nat)
    requires GoesOn(w, n) && (a.Begin? || a.Resolve? || a.Claim? || a.Notify?)
    ensures TasksAreThere(w) && (a.worker in w.ticks ==> TickGoesOn(w, w.ticks[a.worker]))
  {
    hide TickGoesOn, EndedWell, TasksAreThere;
  }

  lemma NextGoesOn(w: World, a: Action, n: nat)
    requires Structure(w) && GoesOn(w, n) && !IsApi(a)
    ensures GoesOn(Next(w, a), n)
  {
    hide TickShape, LocksAreWrites, WritesClaim, TickGoesOn, EndedWell, GoesOn;
    match a
    case Finish(worker) => FinishGoesOn(w, worker, n);
    case FinishUnacknowledged(worker) => FinishGoesOn(w, worker, n);
    case DatabaseError(worker) =>
      if worker in w.ticks && !w.ticks[worker].phase.Notifying? {
        SameRowsGoOn(w.rows);
        RolledBackEndsWell(w, worker);
        ReleaseGoesOn(w, w.rows, worker, RolledBack, n);
      }
    case _ => LoopGoesOn(w, a, n);
  }

  lemma RolledBackEndsWell(w: World, worker: WorkerId)
    requires worker in w.ticks
    ensures EndedWell(w, Ended(worker, w.ticks[worker], RolledBack))
  {
  }

  lemma {:induction false} RunsGoOn(w: World, actions: seq<Action>, n: nat)
    requires Safe(w, 0) && GoesOn(w, n) && forall a :: a in actions ==> !IsApi(a)
    ensures GoesOn(Run(w, actions), n)
    decreases |actions|
  {
    hide GoesOn, IsApi;
    if actions != [] {
      var front, last := actions[..|actions| - 1], actions[|actions| - 1];
      assert last in actions && forall a :: a in front ==> a in actions;
      RunsAreSafe(w, front, 0);
      RunsGoOn(w, front, n);
      NextGoesOn(Run(w, front), last, n);
    }
  }

  /** Ticks that have ended since a moment without open ticks, nobody having used the API: a committed tick leaves every
      reminder it listed SENT; and once one tick that listed fewer than its limit has ended without a rollback, nothing
      that was due at its clock is left, whatever the other workers did. */
  lemma TicksDeliver(before: seq<Action>, after: seq<Action>, k: nat)
    requires Run(EMPTY, before).ticks == map[] && forall a :: a in after ==> !IsApi(a)
    requires |Run(EMPTY, before).ended| <= k < |Run(EMPTY, before + after).ended|
    ensures var w := Run(EMPTY, before + after);
            var e := w.ended[k];
            && (e.outcome.Committed? ==> forall j :: 0 <= j < |e.tick.due| ==> IsSent(w.rows, e.tick.due[j].id))
            && (!e.outcome.RolledBack? && |e.tick.due| < e.tick.limit ==> DueIds(w.rows, e.tick.now) == {})
  {
    var w := Run(EMPTY, before);
    RunsAreSafe(EMPTY, before, 0);
    RunsKeepTasks(before);
    RunAppend(EMPTY, before, after);
    RunsGoOn(w, after, |w.ended|);
    assert EndedWell(Run(w, after), Run(w, after).ended[k]);
  }
}
