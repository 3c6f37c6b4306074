/** What every interleaving of scheduler workers and reminder API calls keeps. */
module SchedulerSafety {
  import opened Wrappers
  import opened Reminders
  import opened SchedulerProtocol

  // ----- Structure: locks, writes and the local variables of a tick agree -----

  /** A row is locked exactly by the worker that has written it and not yet ended. */
  ghost predicate LocksAreWrites(w: World) {
    && (forall id :: id in w.locks ==> w.locks[id] in w.ticks && id in w.ticks[w.locks[id]].writes)
    && (forall k, id :: k in w.ticks && id in w.ticks[k].writes ==> id in w.locks && w.locks[id] == k)
  }

  /** How many rows of `due` the claim has reached. */
  function Reached(t: Tick): nat {
    if t.phase.Notifying? then t.i + 1 else t.i
  }

  /** The rows claimed and already handed to the provider. */
  ghost function Handed(t: Tick): set<ReminderId> {
    if t.phase.Notifying? && t.i < |t.due| then t.writes.Keys - {t.due[t.i].id} else t.writes.Keys
  }

  ghost predicate CountsAgree(t: Tick) {
    && t.i == t.sent + t.skipped + t.missing
    && t.failed == t.missing + t.raised
    && t.raised <= t.sent
  }

  ghost predicate WrittenInOrder(t: Tick) {
    forall id :: id in t.writes ==> exists j :: 0 <= j < Reached(t) && j < |t.due| && t.due[j].id == id
  }

  ghost predicate TickShape(t: Tick) {
    && t.i <= |t.due| <= t.limit
    && (!t.phase.Resolving? ==> t.i < |t.due|)
    && (t.phase.Notifying? ==> t.due[t.i].id in t.writes)
    && InClaimOrder(t.due) && DistinctIds(t.due)
    && CountsAgree(t)
    && WrittenInOrder(t)
    && multiset(t.attempts) == multiset(Handed(t))
    && |Handed(t)| == t.sent
  }

  /** An uncommitted write claims a row that is, as committed, still due. */
  ghost predicate WritesClaim(rows: Table, t: Tick) {
    forall id :: id in t.writes ==>
      && id in rows && IsDue(rows[id], t.now)
      && t.writes[id] == rows[id].(status := Sent, updatedAt := t.now)
  }

  ghost predicate Structure(w: World) {
    && LocksAreWrites(w)
    && forall k :: k in w.ticks ==> TickShape(w.ticks[k]) && WritesClaim(w.rows, w.ticks[k])
  }

  /** A tick moves on without writing. */
  lemma QuietStepKeepsStructure(w: World, worker: WorkerId, u: Tick)
    requires Structure(w) && TickShape(u)
    requires worker in w.ticks && u.writes == w.ticks[worker].writes && u.now == w.ticks[worker].now
    ensures Structure(w.(ticks := w.ticks[worker := u]))
  {
    hide TickShape;
    assert WritesClaim(w.rows, u);
    hide WritesClaim;
  }

  lemma WriteKeepsStructure(w: World, worker: WorkerId, u: Tick, id: ReminderId)
    requires Structure(w) && TickShape(u) && WritesClaim(w.rows, u)
    requires worker in w.ticks && id !in w.locks && u.writes.Keys == w.ticks[worker].writes.Keys + {id}
    ensures Structure(w.(ticks := w.ticks[worker := u], locks := w.locks[id := worker]))
  {
    hide TickShape, WritesClaim;
  }

  lemma FreshTickHasShape(rows: Table, now: Time, limit: nat)
    ensures TickShape(FreshTick(rows, now, limit)) && WritesClaim(rows, FreshTick(rows, now, limit))
  {
    ClaimOrderIsDistinct(rows, FindDue(rows, now, limit));
  }

  lemma BeginKeepsStructure(w: World, worker: WorkerId, now: Time, limit: nat)
    requires Structure(w)
    ensures Structure(DoBegin(w, worker, now, limit))
  {
    hide TickShape, WritesClaim;
    FreshTickHasShape(w.rows, now, limit);
  }

  /** The written rows stay within reach when `i` moves on and nothing is written. */
  lemma WrittenStaysInOrder(t: Tick, u: Tick)
    requires WrittenInOrder(t) && u.due == t.due && u.writes == t.writes && Reached(t) <= Reached(u)
    ensures WrittenInOrder(u)
  {
    forall id | id in u.writes
      ensures exists j :: 0 <= j < Reached(u) && j < |u.due| && u.due[j].id == id
    {
      var j :| 0 <= j < Reached(t) && j < |t.due| && t.due[j].id == id;
    }
  }

  lemma ResolveKeepsTickShape(t: Tick, found: bool)
    requires TickShape(t) && t.phase.Resolving? && t.i < |t.due|
    ensures TickShape(Resolved(t, found))
  {
    WrittenStaysInOrder(t, Resolved(t, found));
    assert Handed(Resolved(t, found)) == Handed(t);
  }

  lemma NotYetWritten(t: Tick)
    requires TickShape(t) && t.phase.Claiming?
    ensures t.due[t.i].id !in t.writes
  {
    assert forall j :: 0 <= j < t.i ==> t.due[j].id != t.due[t.i].id;
  }

  lemma ClaimKeepsTickShape(t: Tick, row: Reminder)
    requires TickShape(t) && t.phase.Claiming?
    ensures TickShape(Claimed(t, t.due[t.i].id, row)) && Handed(Claimed(t, t.due[t.i].id, row)) == Handed(t)
  {
    hide InClaimOrder, DistinctIds;
    NotYetWritten(t);
    var id := t.due[t.i].id;
    var u := Claimed(t, id, row);
    assert Handed(u) == Handed(t);
    forall x | x in u.writes
      ensures exists j :: 0 <= j < Reached(u) && j < |u.due| && u.due[j].id == x
    {
      if x == id {
        assert u.due[t.i].id == x;
      } else {
        var j :| 0 <= j < Reached(t) && j < |t.due| && t.due[j].id == x;
      }
    }
  }

  lemma SkipKeepsTickShape(t: Tick)
    requires TickShape(t) && t.phase.Claiming?
    ensures TickShape(Skipped(t)) && Handed(Skipped(t)) == Handed(t)
  {
    WrittenStaysInOrder(t, Skipped(t));
    assert Handed(Skipped(t)) == Handed(t);
  }

  lemma NotifyHandsOver(t: Tick, raises: bool)
    requires TickShape(t) && t.phase.Notifying?
    ensures var id := t.due[t.i].id;
            id in t.writes && id !in Handed(t) && Handed(Notified(t, id, raises)) == Handed(t) + {id}
  {
  }

  lemma NotifyKeepsTickShape(t: Tick, raises: bool)
    requires TickShape(t) && t.phase.Notifying?
    ensures TickShape(Notified(t, t.due[t.i].id, raises))
  {
    hide InClaimOrder, DistinctIds, WrittenInOrder;
    var id := t.due[t.i].id;
    var u := Notified(t, id, raises);
    NotifyHandsOver(t, raises);
    assert multiset(u.attempts) == multiset(t.attempts) + multiset{id};
    assert multiset(Handed(u)) == multiset(Handed(t)) + multiset{id};
    WrittenStaysInOrder(t, u);
  }

  lemma ResolveKeepsStructure(w: World, worker: WorkerId)
    requires Structure(w)
    ensures Structure(DoResolve(w, worker))
  {
    if At(w, worker, Resolving) {
      hide TickShape, WritesClaim, LocksAreWrites;
      var t := w.ticks[worker];
      var found := t.due[t.i].row.taskId in w.tasks;
      ResolveKeepsTickShape(t, found);
      QuietStepKeepsStructure(w, worker, Resolved(t, found));
    }
  }

  lemma ClaimedRowIsWritten(rows: Table, t: Tick, id: ReminderId)
    requires WritesClaim(rows, t) && id in rows && IsDue(rows[id], t.now)
    ensures WritesClaim(rows, Claimed(t, id, rows[id])) && Claimed(t, id, rows[id]).writes.Keys == t.writes.Keys + {id}
  {
  }

  lemma ClaimKeepsStructure(w: World, worker: WorkerId)
    requires Structure(w)
    ensures Structure(DoClaim(w, worker))
  {
    if At(w, worker, Claiming) && !Blocked(w, worker) {
      hide TickShape, WritesClaim, LocksAreWrites;
      var t := w.ticks[worker];
      var id := t.due[t.i].id;
      if Claimable(w, id, t.now) {
        ClaimedRowIsWritten(w.rows, t, id);
        ClaimKeepsTickShape(t, w.rows[id]);
        WriteKeepsStructure(w, worker, Claimed(t, id, w.rows[id]), id);
      } else {
        SkipKeepsTickShape(t);
        QuietStepKeepsStructure(w, worker, Skipped(t));
      }
    }
  }

  lemma NotifyKeepsStructure(w: World, worker: WorkerId, raises: bool)
    requires Structure(w)
    ensures Structure(DoNotify(w, worker, raises))
  {
    if At(w, worker, Notifying) {
      hide TickShape, WritesClaim, LocksAreWrites;
      var t := w.ticks[worker];
      var id := t.due[t.i].id;
      NotifyKeepsTickShape(t, raises);
      QuietStepKeepsStructure(w, worker, Notified(t, id, raises));
      SendsDoNotMatter(w.(ticks := w.ticks[worker := Notified(t, id, raises)]), w.sends + [id]);
    }
  }

  lemma SendsDoNotMatter(w: World, sends: seq<ReminderId>)
    requires Structure(w)
    ensures Structure(w.(sends := sends))
  {
    hide TickShape, WritesClaim;
  }

  lemma CommitKeepsOthersWrites(w: World, worker: WorkerId)
    requires Structure(w) && worker in w.ticks
    ensures forall k :: k in w.ticks && k != worker ==> WritesClaim(w.rows + w.ticks[worker].writes, w.ticks[k])
  {
    hide TickShape;
    var mine := w.ticks[worker].writes;
    forall k, id | k in w.ticks && k != worker && id in w.ticks[k].writes
      ensures id !in mine
    {
      assert w.locks[id] == k;
    }
  }

  lemma ReleaseKeepsStructure(w: World, worker: WorkerId, outcome: Outcome)
    requires LocksAreWrites(w) && worker in w.ticks
    requires forall k :: k in w.ticks && k != worker ==> TickShape(w.ticks[k]) && WritesClaim(w.rows, w.ticks[k])
    ensures Structure(Release(w, worker, outcome))
  {
    hide TickShape, WritesClaim;
    var v := Release(w, worker, outcome);
    forall k | k in v.ticks ensures k in w.ticks && k != worker && v.ticks[k] == w.ticks[k] {
    }
    forall id | id in v.locks ensures v.locks[id] in v.ticks && id in v.ticks[v.locks[id]].writes {
      assert id in w.locks && v.locks[id] == w.locks[id];
      assert id !in w.ticks[worker].writes;
      assert w.locks[id] != worker;
    }
    forall k, id | k in v.ticks && id in v.ticks[k].writes ensures id in v.locks && v.locks[id] == k {
      assert k != worker && v.ticks[k] == w.ticks[k];
      assert w.locks[id] == k;
      assert id !in w.ticks[worker].writes;
    }
  }

  lemma FinishKeepsStructure(w: World, worker: WorkerId)
    requires Structure(w)
    ensures Structure(DoFinish(w, worker))
  {
    hide TickShape, WritesClaim;
    if AtEnd(w, worker) {
      if w.ticks[worker].due == [] {
        ReleaseKeepsStructure(w, worker, NothingDue);
      } else {
        CommitKeepsOthersWrites(w, worker);
        ReleaseKeepsStructure(w.(rows := w.rows + w.ticks[worker].writes), worker, Committed);
      }
    }
  }

  lemma RollbackKeepsStructure(w: World, worker: WorkerId)
    requires Structure(w)
    ensures Structure(DoDatabaseError(w, worker))
  {
    hide TickShape, WritesClaim, LocksAreWrites;
    if worker in w.ticks { ReleaseKeepsStructure(w, worker, RolledBack); }
  }

  /** The API changes no tick and no lock, and no row under a lock. */
  lemma ApiKeepsStructure(w: World, v: World)
    requires Structure(w) && v.locks == w.locks && v.ticks == w.ticks
    requires forall id :: id in w.locks && id in w.rows ==> id in v.rows && v.rows[id] == w.rows[id]
    ensures Structure(v)
  {
    hide TickShape;
    forall k | k in w.ticks ensures WritesClaim(v.rows, v.ticks[k]) {
      assert WritesClaim(w.rows, w.ticks[k]);
    }
  }

  predicate IsApi(a: Action) {
    a.PutTask? || a.DeleteTask? || a.CreateReminder? || a.UpdateReminder? || a.DeleteReminder?
  }

  lemma ApiLeavesLockedRows(w: World, a: Action)
    requires IsApi(a) && w.rows.Keys <= w.used
    ensures Next(w, a).locks == w.locks && Next(w, a).ticks == w.ticks
    ensures Next(w, a).sends == w.sends && Next(w, a).ended == w.ended
    ensures forall id :: id in w.locks && id in w.rows ==> id in Next(w, a).rows && Next(w, a).rows[id] == w.rows[id]
  {
  }

  /** No id ever comes into use again. */
  lemma NextKeepsUsed(w: World, a: Action)
    requires Structure(w) && w.rows.Keys <= w.used
    ensures Next(w, a).rows.Keys <= Next(w, a).used && w.used <= Next(w, a).used
  {
    hide TickShape, LocksAreWrites;
    if (a.Finish? || a.FinishUnacknowledged?) && a.worker in w.ticks {
      assert WritesClaim(w.rows, w.ticks[a.worker]);
    }
  }

  lemma NextKeepsStructure(w: World, a: Action)
    requires Structure(w) && w.rows.Keys <= w.used
    ensures Structure(Next(w, a))
  {
    hide Structure, IsDue, FindDue, DoBegin, DoResolve, DoClaim, DoNotify, DoFinish, DoDatabaseError;
    if IsApi(a) {
      ApiLeavesLockedRows(w, a);
      ApiKeepsStructure(w, Next(w, a));
    } else {
      match a
      case Begin(worker, now, limit) => BeginKeepsStructure(w, worker, now, limit);
      case Resolve(worker) => ResolveKeepsStructure(w, worker);
      case Claim(worker) => ClaimKeepsStructure(w, worker);
      case Notify(worker, raises) => NotifyKeepsStructure(w, worker, raises);
      case Finish(worker) => FinishKeepsStructure(w, worker);
      case FinishUnacknowledged(worker) => FinishKeepsStructure(w, worker);
      case DatabaseError(worker) => RollbackKeepsStructure(w, worker);
    }
  }

  // ----- What the API sets -----

  /** A step that creates a reminder or moves its time sets it no later than the deadline of its task, and only ticks
      make a reminder SENT. */
  lemma TimesAreSetByTheDeadline(w: World, a: Action, id: ReminderId)
    requires Structure(w) && w.rows.Keys <= w.used && id in Next(w, a).rows
    ensures var row := Next(w, a).rows[id];
            && (id !in w.rows ==> row.status.Pending?)
            && (id !in w.rows || row.remindAt != w.rows[id].remindAt ==>
                  row.taskId in w.tasks && row.remindAt <= w.tasks[row.taskId])
            && (IsApi(a) && row.status.Sent? ==> id in w.rows && w.rows[id].status.Sent?)
            && (id in w.rows ==> row.taskId == w.rows[id].taskId)
  {
    hide TickShape, LocksAreWrites;
    if (a.Finish? || a.FinishUnacknowledged?) && a.worker in w.ticks { assert WritesClaim(w.rows, w.ticks[a.worker]); }
  }

  /** And what is in order is done: a reminder for an existing task no later than its deadline is created under a new
      id; a reminder that is neither SENT nor locked takes a new time that is in order, and PENDING or CANCELLED. */
  lemma RequestsTakeEffect(w: World, id: ReminderId, task: TaskId, time: Time, status: ReminderStatus, at: Time)
    ensures task in w.tasks && time <= w.tasks[task] && id !in w.used ==>
              var v := Next(w, CreateReminder(id, task, time, at));
              id in v.rows && v.rows[id] == Reminder(task, time, Pending, at)
    ensures id in w.rows && !w.rows[id].status.Sent? && id !in w.locks && w.rows[id].taskId in w.tasks &&
            time <= w.tasks[w.rows[id].taskId] && !status.Sent? ==>
              var moved, marked := Next(w, UpdateReminder(id, Some(time), None, at)).rows,
                                   Next(w, UpdateReminder(id, None, Some(status), at)).rows;
              && moved == w.rows[id := if time == w.rows[id].remindAt then w.rows[id]
                                       else w.rows[id].(remindAt := time, updatedAt := at)]
              && marked == w.rows[id := if status == w.rows[id].status then w.rows[id]
                                        else w.rows[id].(status := status, updatedAt := at)]
  {
  }

  /** A reminder without a lock is deleted, and a task without a locked reminder with all its reminders and no other. */
  lemma DeletesTakeEffect(w: World, id: ReminderId, task: TaskId)
    ensures id in w.rows && id !in w.locks ==> Next(w, DeleteReminder(id)).rows == w.rows - {id}
    ensures task in w.tasks && (forall x :: x in w.rows && w.rows[x].taskId == task ==> x !in w.locks) ==>
              var v := Next(w, DeleteTask(task));
              && v.tasks == w.tasks - {task}
              && forall x :: x in v.rows <==> x in w.rows && w.rows[x].taskId != task
  {
  }

  // ----- History: ticks that ended -----

  /** How many ended ticks of the given outcome had written `id`. */
  function Claims(ended: seq<Ended>, outcome: Outcome, id: ReminderId): nat {
    if ended == [] then 0
    else
      var e := ended[|ended| - 1];
      Claims(ended[..|ended| - 1], outcome, id) + if e.outcome == outcome && id in e.tick.writes then 1 else 0
  }

  lemma ClaimsAppend(ended: seq<Ended>, e: Ended, outcome: Outcome, id: ReminderId)
    ensures Claims(ended + [e], outcome, id)
         == Claims(ended, outcome, id) + if e.outcome == outcome && id in e.tick.writes then 1 else 0
  {
    assert (ended + [e])[..|ended + [e]| - 1] == ended;
  }

  function SentNow(w: World, id: ReminderId): nat {
    if id in w.rows && w.rows[id].status.Sent? then 1 else 0
  }

  /** From `w` to `v` there is a new committed claim exactly for a row that became SENT, a row that goes takes no claim
      away, and a row that comes is new and not SENT. */
  ghost predicate CountsClaims(w: World, v: World, id: ReminderId) {
    && (id in w.rows && id in v.rows ==>
          Claims(v.ended, Committed, id) + SentNow(w, id) == Claims(w.ended, Committed, id) + SentNow(v, id))
    && (id !in w.rows || id !in v.rows ==> Claims(v.ended, Committed, id) == Claims(w.ended, Committed, id))
    && (id !in w.rows && id in v.rows ==> id !in w.used && SentNow(v, id) == 0)
  }

  lemma ReleaseCountsClaims(w: World, worker: WorkerId, outcome: Outcome, id: ReminderId)
    requires worker in w.ticks && outcome != Committed
    ensures CountsClaims(w, Release(w, worker, outcome), id)
  {
    hide Claims;
    ClaimsAppend(w.ended, Ended(worker, w.ticks[worker], outcome), Committed, id);
  }

  lemma CommitCountsClaims(w: World, worker: WorkerId, id: ReminderId)
    requires worker in w.ticks && WritesClaim(w.rows, w.ticks[worker])
    ensures CountsClaims(w, Release(w.(rows := w.rows + w.ticks[worker].writes), worker, Committed), id)
  {
    hide Claims;
    ClaimsAppend(w.ended, Ended(worker, w.ticks[worker], Committed), Committed, id);
  }

  lemma FinishCountsClaims(w: World, worker: WorkerId, id: ReminderId)
    requires Structure(w) && w.rows.Keys <= w.used
    ensures CountsClaims(w, DoFinish(w, worker), id)
  {
    if AtEnd(w, worker) {
      hide TickShape, LocksAreWrites, WritesClaim, CountsClaims;
      if w.ticks[worker].due == [] {
        ReleaseCountsClaims(w, worker, NothingDue, id);
      } else {
        CommitCountsClaims(w, worker, id);
      }
    }
  }

  /** The API makes no row SENT, and records no claim. */
  lemma ApiCountsClaims(w: World, a: Action, id: ReminderId)
    requires IsApi(a) && w.rows.Keys <= w.used
    ensures CountsClaims(w, Next(w, a), id)
  {
    hide Claims;
  }

  lemma LoopCountsClaims(w: World, a: Action, id: ReminderId)
    requires a.Begin? || a.Resolve? || a.Claim? || a.Notify?
    ensures CountsClaims(w, Next(w, a), id)
  {
    hide Claims, IsDue, FindDue;
  }

  lemma NextCountsClaims(w: World, a: Action, id: ReminderId)
    requires Structure(w) && w.rows.Keys <= w.used
    ensures CountsClaims(w, Next(w, a), id)
  {
    hide Structure, CountsClaims, DoFinish;
    if IsApi(a) {
      ApiCountsClaims(w, a, id);
    } else {
      match a
      case Finish(worker) => FinishCountsClaims(w, worker, id);
      case FinishUnacknowledged(worker) => FinishCountsClaims(w, worker, id);
      case DatabaseError(worker) =>
        if worker in w.ticks && !w.ticks[worker].phase.Notifying? {
          ReleaseCountsClaims(w, worker, RolledBack, id);
        } else {
          SameCountsClaims(w, id);
        }
      case _ => LoopCountsClaims(w, a, id);
    }
  }

  lemma SameCountsClaims(w: World, id: ReminderId)
    requires w.rows.Keys <= w.used
    ensures CountsClaims(w, w, id)
  {
  }

  /** A committed row is SENT exactly when one committed tick claimed it; an id that was never used has no claim. */
  ghost predicate History(w: World, id: ReminderId) {
    && w.rows.Keys <= w.used
    && Claims(w.ended, Committed, id) <= (if id in w.used then 1 else 0)
    && (id in w.rows ==> SentNow(w, id) == Claims(w.ended, Committed, id))
  }

  lemma NextKeepsHistory(w: World, a: Action, id: ReminderId)
    requires Structure(w) && History(w, id)
    ensures History(Next(w, a), id)
  {
    hide Structure, Next, Claims;
    NextKeepsUsed(w, a);
    NextCountsClaims(w, a, id);
  }

  // ----- Send accounting -----

  function Attempts(sends: seq<ReminderId>, id: ReminderId): nat {
    multiset(sends)[id]
  }

  /** One when an unfinished tick has claimed `id` and already handed it to the provider. */
  ghost function Open(w: World, id: ReminderId): nat {
    if id in w.locks && w.locks[id] in w.ticks && id in Handed(w.ticks[w.locks[id]]) then 1 else 0
  }

  ghost predicate SendsBalance(w: World, id: ReminderId) {
    Attempts(w.sends, id) == Claims(w.ended, Committed, id) + Claims(w.ended, RolledBack, id) + Open(w, id)
  }

  lemma QuietStepKeepsOpen(w: World, worker: WorkerId, u: Tick, id: ReminderId)
    requires worker in w.ticks && Handed(u) == Handed(w.ticks[worker])
    ensures Open(w.(ticks := w.ticks[worker := u]), id) == Open(w, id)
  {
    hide Handed;
  }

  lemma WriteKeepsOpen(w: World, worker: WorkerId, u: Tick, written: ReminderId, id: ReminderId)
    requires worker in w.ticks && Handed(u) == Handed(w.ticks[worker]) && written !in Handed(u)
    requires written !in w.locks
    ensures Open(w.(ticks := w.ticks[worker := u], locks := w.locks[written := worker]), id) == Open(w, id)
  {
    hide Handed;
  }

  lemma NotifyOpens(w: World, worker: WorkerId, u: Tick, told: ReminderId, id: ReminderId)
    requires worker in w.ticks && told !in Handed(w.ticks[worker]) && Handed(u) == Handed(w.ticks[worker]) + {told}
    requires told in w.locks && w.locks[told] == worker
    ensures Open(w.(ticks := w.ticks[worker := u], sends := w.sends + [told]), id)
         == Open(w, id) + if id == told then 1 else 0
  {
    hide Handed;
  }

  lemma WriteStepKeepsBalance(w: World, worker: WorkerId, written: ReminderId, row: Reminder, id: ReminderId)
    requires SendsBalance(w, id) && worker in w.ticks && written !in w.locks
    requires TickShape(w.ticks[worker]) && w.ticks[worker].phase.Claiming?
    requires written == w.ticks[worker].due[w.ticks[worker].i].id
    ensures SendsBalance(w.(ticks := w.ticks[worker := Claimed(w.ticks[worker], written, row)],
                            locks := w.locks[written := worker]), id)
  {
    hide TickShape, Handed, Open, Attempts;
    var t := w.ticks[worker];
    ClaimKeepsTickShape(t, row);
    HandedIsWritten(t, written);
    NotYetWritten(t);
    WriteKeepsOpen(w, worker, Claimed(t, written, row), written, id);
  }

  lemma QuietStepKeepsBalance(w: World, worker: WorkerId, u: Tick, id: ReminderId)
    requires SendsBalance(w, id) && worker in w.ticks && Handed(u) == Handed(w.ticks[worker])
    ensures SendsBalance(w.(ticks := w.ticks[worker := u]), id)
  {
    hide Handed, Open, Attempts;
    QuietStepKeepsOpen(w, worker, u, id);
  }

  lemma ClaimKeepsBalance(w: World, worker: WorkerId, id: ReminderId)
    requires Structure(w) && SendsBalance(w, id)
    ensures SendsBalance(DoClaim(w, worker), id)
  {
    if At(w, worker, Claiming) && !Blocked(w, worker) {
      hide TickShape, WritesClaim, LocksAreWrites, Handed, SendsBalance;
      var t := w.ticks[worker];
      var claimed := t.due[t.i].id;
      if Claimable(w, claimed, t.now) {
        WriteStepKeepsBalance(w, worker, claimed, w.rows[claimed], id);
      } else {
        SkipKeepsTickShape(t);
        QuietStepKeepsBalance(w, worker, Skipped(t), id);
      }
    }
  }

  lemma HandedIsWritten(t: Tick, id: ReminderId)
    ensures id in Handed(t) ==> id in t.writes
  {
  }

  lemma WrittenIsLocked(w: World, worker: WorkerId, id: ReminderId)
    requires Structure(w) && worker in w.ticks && id in w.ticks[worker].writes
    ensures id in w.locks && w.locks[id] == worker
  {
    hide TickShape, WritesClaim;
  }

  lemma AttemptsAppend(sends: seq<ReminderId>, told: ReminderId, id: ReminderId)
    ensures Attempts(sends + [told], id) == Attempts(sends, id) + if id == told then 1 else 0
  {
    assert multiset(sends + [told]) == multiset(sends) + multiset{told};
  }

  lemma NotifyKeepsBalance(w: World, worker: WorkerId, raises: bool, id: ReminderId)
    requires Structure(w) && SendsBalance(w, id)
    ensures SendsBalance(DoNotify(w, worker, raises), id)
  {
    if At(w, worker, Notifying) {
      hide TickShape, WritesClaim, LocksAreWrites, Handed, Open, Attempts;
      var t := w.ticks[worker];
      var told := t.due[t.i].id;
      NotifyHandsOver(t, raises);
      WrittenIsLocked(w, worker, told);
      NotifyOpens(w, worker, Notified(t, told, raises), told, id);
      AttemptsAppend(w.sends, told, id);
    }
  }

  lemma ShiftKeepsBalance(w: World, v: World, id: ReminderId)
    requires SendsBalance(w, id) && v.ended == w.ended
    requires Attempts(v.sends, id) - Attempts(w.sends, id) == Open(v, id) - Open(w, id)
    ensures SendsBalance(v, id)
  {
    hide Open, Attempts;
  }

  /** Releasing a tick takes its open claim away, and only its own. */
  lemma ReleaseClosesItsClaim(w: World, worker: WorkerId, outcome: Outcome, id: ReminderId)
    requires worker in w.ticks && !w.ticks[worker].phase.Notifying? && LocksAreWrites(w)
    ensures Open(Release(w, worker, outcome), id) == Open(w, id) - if id in w.ticks[worker].writes then 1 else 0
  {
    var t, v := w.ticks[worker], Release(w, worker, outcome);
    assert Handed(t) == t.writes.Keys;
    hide Handed;
    if id in t.writes {
      assert id in w.locks && w.locks[id] == worker;
      assert id !in v.locks;
    } else if id in w.locks {
      var k := w.locks[id];
      assert k in w.ticks && id in w.ticks[k].writes && k != worker;
      assert id in v.locks && v.locks[id] == k && v.ticks[k] == w.ticks[k];
    } else {
      assert id !in v.locks;
    }
  }

  lemma ReleaseKeepsBalance(w: World, worker: WorkerId, outcome: Outcome, id: ReminderId)
    requires worker in w.ticks && !w.ticks[worker].phase.Notifying? && LocksAreWrites(w)
    requires outcome.NothingDue? ==> w.ticks[worker].writes == map[]
    requires SendsBalance(w, id)
    ensures SendsBalance(Release(w, worker, outcome), id)
  {
    hide LocksAreWrites, Open, Claims, Attempts;
    var e := Ended(worker, w.ticks[worker], outcome);
    ClaimsAppend(w.ended, e, Committed, id);
    ClaimsAppend(w.ended, e, RolledBack, id);
    ReleaseClosesItsClaim(w, worker, outcome, id);
  }

  lemma NothingDueNothingWritten(t: Tick)
    requires TickShape(t) && t.due == []
    ensures t.writes == map[]
  {
  }

  lemma RowsDoNotMatterToBalance(w: World, rows: Table, id: ReminderId)
    requires SendsBalance(w, id) && LocksAreWrites(w)
    ensures SendsBalance(w.(rows := rows), id) && LocksAreWrites(w.(rows := rows))
  {
  }

  lemma FinishKeepsBalance(w: World, worker: WorkerId, id: ReminderId)
    requires Structure(w) && SendsBalance(w, id)
    ensures SendsBalance(DoFinish(w, worker), id)
  {
    if AtEnd(w, worker) {
      hide TickShape, WritesClaim, LocksAreWrites, SendsBalance;
      if w.ticks[worker].due == [] {
        NothingDueNothingWritten(w.ticks[worker]);
        ReleaseKeepsBalance(w, worker, NothingDue, id);
      } else {
        RowsDoNotMatterToBalance(w, w.rows + w.ticks[worker].writes, id);
        ReleaseKeepsBalance(w.(rows := w.rows + w.ticks[worker].writes), worker, Committed, id);
      }
    }
  }

  lemma ResolveKeepsBalance(w: World, worker: WorkerId, id: ReminderId)
    requires Structure(w) && SendsBalance(w, id)
    ensures SendsBalance(DoResolve(w, worker), id)
  {
    if At(w, worker, Resolving) {
      hide TickShape, WritesClaim, LocksAreWrites, SendsBalance;
      var t := w.ticks[worker];
      QuietStepKeepsBalance(w, worker, Resolved(t, t.due[t.i].row.taskId in w.tasks), id);
    }
  }

  lemma BeginKeepsBalance(w: World, worker: WorkerId, now: Time, limit: nat, id: ReminderId)
    requires LocksAreWrites(w) && SendsBalance(w, id)
    ensures SendsBalance(DoBegin(w, worker, now, limit), id)
  {
    hide Handed;
    assert worker !in w.ticks ==> id in w.locks ==> w.locks[id] != worker;
  }

  lemma ApiKeepsBalance(w: World, a: Action, id: ReminderId)
    requires IsApi(a) && w.rows.Keys <= w.used && SendsBalance(w, id)
    ensures SendsBalance(Next(w, a), id)
  {
    hide Next, Handed, Attempts, Claims;
    ApiLeavesLockedRows(w, a);
    ShiftKeepsBalance(w, Next(w, a), id);
  }

  lemma RollbackKeepsBalance(w: World, worker: WorkerId, id: ReminderId)
    requires Structure(w) && SendsBalance(w, id)
    ensures SendsBalance(DoDatabaseError(w, worker), id)
  {
    hide TickShape, WritesClaim, LocksAreWrites, SendsBalance;
    if worker in w.ticks && !w.ticks[worker].phase.Notifying? { ReleaseKeepsBalance(w, worker, RolledBack, id); }
  }

  lemma StructureHasLocks(w: World)
    requires Structure(w)
    ensures LocksAreWrites(w)
  {
    hide TickShape, WritesClaim, LocksAreWrites;
  }

  lemma NextKeepsBalance(w: World, a: Action, id: ReminderId)
    requires Structure(w) && w.rows.Keys <= w.used && SendsBalance(w, id)
    ensures SendsBalance(Next(w, a), id)
  {
    hide Structure, SendsBalance, IsDue, FindDue, DoBegin, DoResolve, DoClaim, DoNotify, DoFinish, DoDatabaseError;
    StructureHasLocks(w);
    if IsApi(a) {
      ApiKeepsBalance(w, a, id);
    } else {
      match a
      case Begin(worker, now, limit) => BeginKeepsBalance(w, worker, now, limit, id);
      case Resolve(worker) => ResolveKeepsBalance(w, worker, id);
      case Claim(worker) => ClaimKeepsBalance(w, worker, id);
      case Notify(worker, raises) => NotifyKeepsBalance(w, worker, raises, id);
      case Finish(worker) => FinishKeepsBalance(w, worker, id);
      case FinishUnacknowledged(worker) => FinishKeepsBalance(w, worker, id);
      case DatabaseError(worker) => RollbackKeepsBalance(w, worker, id);
    }
  }

  // ----- The records of ended ticks -----

  /** What the record of a tick that has ended says, whatever ran beside it. */
  ghost predicate RecordOk(e: Ended) {
    var t := e.tick;
    && multiset(t.attempts) == multiset(t.writes.Keys)
    && (forall id :: id in t.writes ==> t.writes[id].status.Sent? && t.writes[id].remindAt <= t.now)
    && |t.due| <= t.limit && t.sent == |t.writes|
    && t.failed == t.missing + t.raised && t.raised <= t.sent
    && (!e.outcome.RolledBack? ==> |t.due| == t.sent + t.skipped + t.missing)
  }

  ghost predicate RecordsOk(w: World) {
    forall e :: e in w.ended ==> RecordOk(e)
  }

  lemma EndedTickIsRecorded(rows: Table, e: Ended)
    requires TickShape(e.tick) && WritesClaim(rows, e.tick) && !e.tick.phase.Notifying?
    requires e.outcome.RolledBack? || |e.tick.due| <= e.tick.i
    ensures RecordOk(e)
  {
    assert Handed(e.tick) == e.tick.writes.Keys;
    assert |e.tick.writes| == |e.tick.writes.Keys|;
  }

  lemma ReleaseKeepsRecords(w: World, worker: WorkerId, outcome: Outcome)
    requires worker in w.ticks && RecordsOk(w) && RecordOk(Ended(worker, w.ticks[worker], outcome))
    ensures RecordsOk(Release(w, worker, outcome))
  {
    hide RecordOk;
  }

  lemma FinishKeepsRecords(w: World, worker: WorkerId)
    requires Structure(w) && RecordsOk(w)
    ensures RecordsOk(DoFinish(w, worker))
  {
    hide TickShape, WritesClaim, LocksAreWrites, RecordOk;
    if AtEnd(w, worker) {
      var outcome := if w.ticks[worker].due == [] then NothingDue else Committed;
      EndedTickIsRecorded(w.rows, Ended(worker, w.ticks[worker], outcome));
      var v := if outcome == Committed then w.(rows := w.rows + w.ticks[worker].writes) else w;
      ReleaseKeepsRecords(v, worker, outcome);
    }
  }

  lemma NextKeepsRecords(w: World, a: Action)
    requires Structure(w) && RecordsOk(w)
    ensures RecordsOk(Next(w, a))
  {
    hide TickShape, WritesClaim, LocksAreWrites, RecordOk;
    match a
    case Finish(worker) => FinishKeepsRecords(w, worker);
    case FinishUnacknowledged(worker) => FinishKeepsRecords(w, worker);
    case DatabaseError(worker) =>
      if worker in w.ticks && !w.ticks[worker].phase.Notifying? {
        EndedTickIsRecorded(w.rows, Ended(worker, w.ticks[worker], RolledBack));
        ReleaseKeepsRecords(w, worker, RolledBack);
      }
    case _ =>
  }

  // ----- All runs -----

  ghost predicate Safe(w: World, id: ReminderId) {
    Structure(w) && History(w, id) && SendsBalance(w, id) && RecordsOk(w)
  }

  lemma NextKeepsSafe(w: World, a: Action, id: ReminderId)
    requires Safe(w, id)
    ensures Safe(Next(w, a), id)
  {
    NextKeepsStructure(w, a);
    NextKeepsHistory(w, a, id);
    NextKeepsBalance(w, a, id);
    NextKeepsRecords(w, a);
  }

  lemma {:induction false} RunsAreSafe(w: World, actions: seq<Action>, id: ReminderId)
    requires Safe(w, id)
    ensures Safe(Run(w, actions), id)
    decreases |actions|
  {
    if actions != [] {
      RunsAreSafe(w, actions[..|actions| - 1], id);
      NextKeepsSafe(Run(w, actions[..|actions| - 1]), actions[|actions| - 1], id);
    }
  }

  // ----- The task of a reminder -----

  ghost predicate TasksAreThere(w: World) {
    forall id :: id in w.rows ==> w.rows[id].taskId in w.tasks
  }

  lemma FinishKeepsTasks(w: World, worker: WorkerId)
    requires Structure(w) && TasksAreThere(w)
    ensures TasksAreThere(DoFinish(w, worker))
  {
    hide TickShape, LocksAreWrites;
    if AtEnd(w, worker) { assert WritesClaim(w.rows, w.ticks[worker]); }
  }

  lemma NextKeepsTasks(w: World, a: Action)
    requires Structure(w) && TasksAreThere(w)
    ensures TasksAreThere(Next(w, a))
  {
    hide Structure, DoFinish, IsDue, FindDue;
    match a
    case Finish(worker) => FinishKeepsTasks(w, worker);
    case FinishUnacknowledged(worker) => FinishKeepsTasks(w, worker);
    case _ =>
  }

  /** No reminder is ever without its task. */
  lemma {:induction false} RunsKeepTasks(actions: seq<Action>)
    ensures TasksAreThere(Run(EMPTY, actions))
  {
    if actions != [] {
      hide Structure, Next, TasksAreThere;
      var front := actions[..|actions| - 1];
      RunsAreSafe(EMPTY, front, 0);
      RunsKeepTasks(front);
      NextKeepsTasks(Run(EMPTY, front), actions[|actions| - 1]);
    }
  }

  // ----- Theorems -----

  /** At most one committed claim for a reminder, ever, and a committed row is SENT exactly when it has one. */
  lemma ClaimedAtMostOnce(actions: seq<Action>, id: ReminderId)
    ensures var w := Run(EMPTY, actions);
            && Claims(w.ended, Committed, id) <= 1
            && (id in w.rows ==> (w.rows[id].status.Sent? <==> Claims(w.ended, Committed, id) == 1))
  {
    RunsAreSafe(EMPTY, actions, id);
  }

  lemma FinishKeepsSent(w: World, worker: WorkerId, id: ReminderId)
    requires Structure(w) && id in w.rows && w.rows[id].status.Sent?
    ensures id in DoFinish(w, worker).rows && DoFinish(w, worker).rows[id] == w.rows[id]
  {
    hide TickShape, LocksAreWrites;
    if AtEnd(w, worker) { assert WritesClaim(w.rows, w.ticks[worker]); }
  }

  lemma OtherStepsKeepSent(w: World, a: Action, id: ReminderId)
    requires w.rows.Keys <= w.used && id in w.rows && w.rows[id].status.Sent? && !a.Finish? && !a.FinishUnacknowledged?
    ensures id in Next(w, a).rows ==> Next(w, a).rows[id] == w.rows[id]
  {
    hide FindDue, FreshTick, IsDue, Blocked, Owned;
  }

  lemma StepKeepsSent(w: World, a: Action, id: ReminderId)
    requires Structure(w) && w.rows.Keys <= w.used && id in w.rows && w.rows[id].status.Sent?
    ensures id in Next(w, a).rows ==> Next(w, a).rows[id] == w.rows[id]
  {
    hide Structure, DoFinish;
    match a
    case Finish(worker) => FinishKeepsSent(w, worker, id);
    case FinishUnacknowledged(worker) => FinishKeepsSent(w, worker, id);
    case _ => OtherStepsKeepSent(w, a, id);
  }

  /** A committed SENT row does not change while it exists: not its status, not its time, nothing. */
  lemma SentRowsAreFrozen(actions: seq<Action>, a: Action, id: ReminderId)
    ensures var w, v := Run(EMPTY, actions), Next(Run(EMPTY, actions), a);
            id in w.rows && w.rows[id].status.Sent? && id in v.rows ==> v.rows[id] == w.rows[id]
  {
    RunsAreSafe(EMPTY, actions, id);
    hide Structure, Next, Run;
    var w := Run(EMPTY, actions);
    if id in w.rows && w.rows[id].status.Sent? { StepKeepsSent(w, a, id); }
  }

  ghost predicate NobodyBetweenClaimAndSend(w: World, id: ReminderId) {
    forall k :: k in w.ticks && w.ticks[k].phase.Notifying? && w.ticks[k].i < |w.ticks[k].due| ==>
      w.ticks[k].due[w.ticks[k].i].id != id
  }

  /** Send attempts equal committed claims, plus the claim still open, plus the claims a rollback undid. */
  lemma SendAccounting(actions: seq<Action>, id: ReminderId)
    requires NobodyBetweenClaimAndSend(Run(EMPTY, actions), id)
    ensures var w := Run(EMPTY, actions);
            Attempts(w.sends, id) == Claims(w.ended, Committed, id) + Claims(w.ended, RolledBack, id)
                                   + (if id in w.locks then 1 else 0)
  {
    RunsAreSafe(EMPTY, actions, id);
    var w := Run(EMPTY, actions);
    if id in w.locks {
      var t := w.ticks[w.locks[id]];
      assert TickShape(t);
      assert id in Handed(t);
    }
  }

  /** Each committed claim had exactly one attempt in its own tick, and was of a reminder then due. */
  lemma CommittedClaimsWereSentOnce(actions: seq<Action>, e: Ended, id: ReminderId)
    requires e in Run(EMPTY, actions).ended && e.outcome.Committed?
    ensures Attempts(e.tick.attempts, id) == if id in e.tick.writes then 1 else 0
    ensures id in e.tick.writes ==> e.tick.writes[id].remindAt <= e.tick.now
  {
    RunsAreSafe(EMPTY, actions, id);
    assert RecordOk(e);
    assert multiset(e.tick.attempts)[id] == multiset(e.tick.writes.Keys)[id];
  }

  /** The counts of a tick that was not rolled back, under any interference. */
  lemma TickCountsHold(actions: seq<Action>, e: Ended)
    requires e in Run(EMPTY, actions).ended && !e.outcome.RolledBack?
    ensures var t := e.tick;
            && |t.due| == t.sent + t.skipped + t.missing && t.failed == t.missing + t.raised
            && |t.due| <= t.limit && t.sent == |t.writes|
            && |t.due| - t.sent - t.skipped <= t.failed <= |t.due| - t.skipped
  {
    RunsAreSafe(EMPTY, actions, 0);
    assert RecordOk(e);
  }
}
