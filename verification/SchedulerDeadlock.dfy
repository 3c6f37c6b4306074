/** Scheduler workers wait for each other in a circle only when they have read the reminders in orders that disagree.
    They agree as long as nobody moves the time of a reminder that an open tick lists. */
module SchedulerDeadlock {
  import opened Reminders
  import opened SchedulerProtocol
  import opened SchedulerSafety

  ghost predicate WaitsFor(w: World, a: WorkerId, b: WorkerId) {
    Blocked(w, a) && w.locks[Wanted(w, a).id] == b
  }

  /** Every worker of the path waits for the next one. */
  ghost predicate WaitChain(w: World, path: seq<WorkerId>) {
    forall k :: 0 <= k < |path| - 1 ==> WaitsFor(w, path[k], path[k + 1])
  }

  // ----- One order for all ticks -----

  ghost predicate IsStrictOrder(before: (ReminderId, ReminderId) -> bool) {
    && (forall x :: !before(x, x))
    && (forall x, y, z :: before(x, y) && before(y, z) ==> before(x, z))
  }

  /** All open ticks list the reminders that still exist in the one order given. */
  ghost predicate Aligned(w: World, before: (ReminderId, ReminderId) -> bool) {
    forall k, i, j :: k in w.ticks && 0 <= i < j < |w.ticks[k].due| &&
                      w.ticks[k].due[i].id in w.rows && w.ticks[k].due[j].id in w.rows ==>
                      before(w.ticks[k].due[i].id, w.ticks[k].due[j].id)
  }

  /** What `t` has claimed it lists before what it has come to. */
  lemma HeldIsListedBefore(t: Tick, id: ReminderId) returns (j: nat)
    requires TickShape(t) && t.phase.Claiming? && id in t.writes
    ensures j < t.i < |t.due| && t.due[j].id == id
  {
    hide Handed, InClaimOrder, DistinctIds, CountsAgree;
    j :| 0 <= j < Reached(t) && j < |t.due| && t.due[j].id == id;
  }

  /** Whoever is waited for, if it waits itself, waits for a reminder further on. */
  lemma WaitingGoesForward(w: World, before: (ReminderId, ReminderId) -> bool, a: WorkerId, b: WorkerId)
    requires Structure(w) && Aligned(w, before) && WaitsFor(w, a, b) && Blocked(w, b)
    ensures before(Wanted(w, a).id, Wanted(w, b).id)
  {
    hide TickShape, WritesClaim, IsDue;
    var t := w.ticks[b];
    var j := HeldIsListedBefore(t, Wanted(w, a).id);
    assert t.due[j].id in w.rows && t.due[t.i].id in w.rows;
  }

  lemma {:induction false} ChainGoesForward(w: World, before: (ReminderId, ReminderId) -> bool, path: seq<WorkerId>)
    requires Structure(w) && Aligned(w, before) && IsStrictOrder(before) && WaitChain(w, path) && |path| >= 2
    requires Blocked(w, path[|path| - 1])
    ensures Blocked(w, path[0]) && before(Wanted(w, path[0]).id, Wanted(w, path[|path| - 1]).id)
    decreases |path|
  {
    hide Structure, Aligned;
    assert WaitsFor(w, path[0], path[1]);
    if |path| == 2 {
      WaitingGoesForward(w, before, path[0], path[1]);
    } else {
      assert WaitsFor(w, path[1], path[2]);
      WaitingGoesForward(w, before, path[0], path[1]);
      assert forall k :: 0 <= k < |path[1..]| - 1 ==> WaitsFor(w, path[1..][k], path[1..][k + 1]) by {
        forall k | 0 <= k < |path[1..]| - 1 ensures WaitsFor(w, path[1..][k], path[1..][k + 1]) {
          assert WaitsFor(w, path[k + 1], path[k + 2]);
        }
      }
      ChainGoesForward(w, before, path[1..]);
    }
  }

  /** Whatever the run was: while the open ticks list the reminders in one order, no chain of waiting workers closes. */
  lemma NoCycleInOneOrder(actions: seq<Action>, before: (ReminderId, ReminderId) -> bool, path: seq<WorkerId>)
    requires IsStrictOrder(before) && Aligned(Run(EMPTY, actions), before)
    requires |path| >= 2 && WaitChain(Run(EMPTY, actions), path)
    ensures path[0] != path[|path| - 1]
  {
    RunsAreSafe(EMPTY, actions, 0);
    var w := Run(EMPTY, actions);
    if path[0] == path[|path| - 1] {
      assert WaitsFor(w, path[0], path[1]);
      ChainGoesForward(w, before, path);
      assert false;
    }
  }

  // ----- The order of the times -----

  /** The step moves no time that an open tick has read.  Everything else is allowed: reminders may be created,
      cancelled, deleted, and moved while no open tick lists them. */
  ghost predicate MovesNoListedTime(w: World, a: Action) {
    a.UpdateReminder? && a.newRemindAt.Some? ==>
      forall k, j :: k in w.ticks && 0 <= j < |w.ticks[k].due| ==> w.ticks[k].due[j].id != a.id
  }

  ghost predicate NoListedTimeMoves(w: World, actions: seq<Action>) {
    forall n :: 0 <= n < |actions| ==> MovesNoListedTime(Run(w, actions[..n]), actions[n])
  }

  /** The times a tick has read are still the committed ones. */
  ghost predicate TimesAreCurrent(rows: Table, used: set<ReminderId>, t: Tick) {
    forall j :: 0 <= j < |t.due| ==>
      && t.due[j].id in used
      && (t.due[j].id in rows ==> rows[t.due[j].id].remindAt == t.due[j].row.remindAt)
  }

  ghost predicate Ordered(w: World) {
    && w.rows.Keys <= w.used
    && forall k :: k in w.ticks ==> TimesAreCurrent(w.rows, w.used, w.ticks[k])
  }

  /** The step leaves the time of the row as it is, or takes the row away, and brings no old id back. */
  ghost predicate KeepsTime(w: World, v: World, id: ReminderId) {
    id in v.rows && id in w.used ==> id in w.rows && v.rows[id].remindAt == w.rows[id].remindAt
  }

  lemma StepKeepsTime(w: World, a: Action, id: ReminderId)
    requires Structure(w) && w.rows.Keys <= w.used
    requires !(a.UpdateReminder? && a.newRemindAt.Some? && a.id == id)
    ensures KeepsTime(w, Next(w, a), id)
  {
    hide TickShape, LocksAreWrites;
    if (a.Finish? || a.FinishUnacknowledged?) && a.worker in w.ticks {
      assert WritesClaim(w.rows, w.ticks[a.worker]);
    }
  }

  lemma StepKeepsTicksDue(w: World, a: Action, k: WorkerId)
    requires k in Next(w, a).ticks
    ensures Next(w, a).ticks[k].due == (if k in w.ticks then w.ticks[k].due else FreshTick(w.rows, a.now, a.limit).due)
    ensures k !in w.ticks ==> a.Begin? && a.worker == k && Next(w, a).rows == w.rows && Next(w, a).used == w.used
  {
    hide FreshTick, IsDue, Blocked, Owned;
  }

  lemma TimesStayCurrent(w: World, v: World, t: Tick, u: Tick)
    requires TimesAreCurrent(w.rows, w.used, t) && u.due == t.due && w.used <= v.used
    requires forall j :: 0 <= j < |t.due| ==> KeepsTime(w, v, t.due[j].id)
    ensures TimesAreCurrent(v.rows, v.used, u)
  {
  }

  lemma FreshTimesAreCurrent(w: World, now: Time, limit: nat, u: Tick)
    requires w.rows.Keys <= w.used && u.due == FreshTick(w.rows, now, limit).due
    ensures TimesAreCurrent(w.rows, w.used, u)
  {
  }

  lemma NextKeepsOrdered(w: World, a: Action)
    requires Structure(w) && Ordered(w) && MovesNoListedTime(w, a)
    ensures Ordered(Next(w, a))
  {
    hide Structure, TimesAreCurrent, Next, FreshTick, KeepsTime;
    var v := Next(w, a);
    NextKeepsUsed(w, a);
    forall k | k in v.ticks ensures TimesAreCurrent(v.rows, v.used, v.ticks[k]) {
      StepKeepsTicksDue(w, a, k);
      if k in w.ticks {
        forall j | 0 <= j < |w.ticks[k].due| ensures KeepsTime(w, v, w.ticks[k].due[j].id) {
          StepKeepsTime(w, a, w.ticks[k].due[j].id);
        }
        TimesStayCurrent(w, v, w.ticks[k], v.ticks[k]);
      } else {
        FreshTimesAreCurrent(w, a.now, a.limit, v.ticks[k]);
      }
    }
  }

  lemma RunStructure(w: World, actions: seq<Action>)
    requires Safe(w, 0)
    ensures Structure(Run(w, actions))
  {
    RunsAreSafe(w, actions, 0);
  }

  lemma {:induction false} RunsKeepOrdered(w: World, actions: seq<Action>)
    requires Safe(w, 0) && Ordered(w) && NoListedTimeMoves(w, actions)
    ensures Structure(Run(w, actions)) && Ordered(Run(w, actions))
    decreases |actions|
  {
    hide Safe, Structure, Ordered, MovesNoListedTime, Next;
    RunStructure(w, actions);
    if actions != [] {
      var n := |actions| - 1;
      assert forall m :: 0 <= m < n ==> actions[..n][..m] == actions[..m];
      RunsKeepOrdered(w, actions[..n]);
      NextKeepsOrdered(Run(w, actions[..n]), actions[n]);
    }
  }

  /** `remind_at`, then id, of the committed rows. */
  ghost function TimeOrder(rows: Table): (ReminderId, ReminderId) -> bool {
    (x, y) => x in rows && y in rows && Earlier(Loaded(x, rows[x]), Loaded(y, rows[y]))
  }

  lemma OrderedIsAligned(w: World)
    requires Structure(w) && Ordered(w)
    ensures IsStrictOrder(TimeOrder(w.rows)) && Aligned(w, TimeOrder(w.rows))
  {
    hide LocksAreWrites, WritesClaim, Handed, WrittenInOrder, DistinctIds, CountsAgree;
    forall k, i, j | k in w.ticks && 0 <= i < j < |w.ticks[k].due| &&
                     w.ticks[k].due[i].id in w.rows && w.ticks[k].due[j].id in w.rows
      ensures TimeOrder(w.rows)(w.ticks[k].due[i].id, w.ticks[k].due[j].id)
    {
      assert TickShape(w.ticks[k]) && TimesAreCurrent(w.rows, w.used, w.ticks[k]);
      assert Earlier(w.ticks[k].due[i], w.ticks[k].due[j]);
    }
  }

  lemma StaysInOneOrder(before: seq<Action>, after: seq<Action>)
    requires Run(EMPTY, before).ticks == map[]
    requires NoListedTimeMoves(Run(EMPTY, before), after)
    ensures var w := Run(EMPTY, before + after);
            Structure(w) && IsStrictOrder(TimeOrder(w.rows)) && Aligned(w, TimeOrder(w.rows))
  {
    RunsAreSafe(EMPTY, before, 0);
    RunAppend(EMPTY, before, after);
    hide NoListedTimeMoves, Structure, Aligned, IsStrictOrder, Run;
    RunsKeepOrdered(Run(EMPTY, before), after);
    OrderedIsAligned(Run(EMPTY, before + after));
  }

  /** However the database got to a moment without ticks: from then on, while no listed reminder's time is moved, no
      chain of waiting workers closes. */
  lemma NoWaitCycle(before: seq<Action>, after: seq<Action>, path: seq<WorkerId>)
    requires Run(EMPTY, before).ticks == map[]
    requires NoListedTimeMoves(Run(EMPTY, before), after)
    requires |path| >= 2 && WaitChain(Run(EMPTY, before + after), path)
    ensures path[0] != path[|path| - 1]
  {
    StaysInOneOrder(before, after);
    hide *;
    NoCycleInOneOrder(before + after, TimeOrder(Run(EMPTY, before + after).rows), path);
  }

  // ----- Somebody can always go on -----

  lemma BlockerIsOpen(w: World, k: WorkerId)
    requires Structure(w) && Blocked(w, k)
    ensures w.locks[Wanted(w, k).id] in w.ticks && WaitsFor(w, k, w.locks[Wanted(w, k).id])
  {
    hide TickShape, WritesClaim;
  }

  /** A waiting worker that wants a reminder before `x`. */
  ghost predicate WantsBefore(w: World, before: (ReminderId, ReminderId) -> bool, k: WorkerId, x: ReminderId) {
    Blocked(w, k) && before(Wanted(w, k).id, x)
  }

  lemma WaitStep(w: World, before: (ReminderId, ReminderId) -> bool, from: WorkerId, x: ReminderId)
    returns (next: WorkerId, ahead: ReminderId)
    requires Structure(w) && Aligned(w, before) && IsStrictOrder(before) && Blocked(w, from) && Wanted(w, from).id == x
    ensures from in w.ticks && !WantsBefore(w, before, from, x) && next in w.ticks
    ensures Blocked(w, next) ==> Wanted(w, next).id == ahead && before(x, ahead) && WantsBefore(w, before, from, ahead)
  {
    BlockerIsOpen(w, from);
    hide Structure, Aligned;
    next := w.locks[x];
    ahead := x;
    if Blocked(w, next) {
      ahead := Wanted(w, next).id;
      WaitingGoesForward(w, before, from, next);
    }
  }

  lemma WantsBeforeStill(w: World, before: (ReminderId, ReminderId) -> bool, k: WorkerId, x: ReminderId, y: ReminderId)
    requires IsStrictOrder(before) && WantsBefore(w, before, k, x) && before(x, y)
    ensures WantsBefore(w, before, k, y)
  {
    hide Blocked;
  }

  /** Follow the waiting: each stop wants a reminder after all before, so the walk ends at a free worker. */
  lemma {:induction false} FollowWaits(w: World, before: (ReminderId, ReminderId) -> bool, from: WorkerId,
                                       x: ReminderId, seen: set<WorkerId>)
    returns (free: WorkerId)
    requires Structure(w) && Aligned(w, before) && IsStrictOrder(before) && seen <= w.ticks.Keys
    requires Blocked(w, from) && Wanted(w, from).id == x
    requires forall k :: k in seen ==> WantsBefore(w, before, k, x)
    ensures free in w.ticks && !Blocked(w, free)
    decreases w.ticks.Keys - seen
  {
    hide *;
    var next, ahead := WaitStep(w, before, from, x);
    if !Blocked(w, next) {
      free := next;
    } else {
      forall k | k in seen + {from} ensures WantsBefore(w, before, k, ahead) {
        if k != from { WantsBeforeStill(w, before, k, x, ahead); }
      }
      free := FollowWaits(w, before, next, ahead, seen + {from});
    }
  }

  /** The statement a worker is about to issue. */
  function Upcoming(w: World, k: WorkerId): Action
    requires k in w.ticks
  {
    if AtEnd(w, k) then Finish(k)
    else match w.ticks[k].phase
      case Resolving => Resolve(k)
      case Claiming => Claim(k)
      case Notifying => Notify(k, false)
  }

  /** Statements a tick still has before its commit. */
  function StatementsLeft(t: Tick): nat
    requires t.i <= |t.due| && (!t.phase.Resolving? ==> t.i < |t.due|)
  {
    3 * (|t.due| - t.i) - match t.phase case Resolving => 0 case Claiming => 1 case Notifying => 2
  }

  /** The local variables after the upcoming statement, when the tick is still open then. */
  function Upcame(w: World, k: WorkerId, t: Tick): Tick
    requires t.i < |t.due|
  {
    var id := t.due[t.i].id;
    match t.phase
    case Resolving => Resolved(t, t.due[t.i].row.taskId in w.tasks)
    case Claiming => if Claimable(w, id, t.now) then Claimed(t, id, w.rows[id]) else Skipped(t)
    case Notifying => Notified(t, id, false)
  }

  lemma UpcomingTick(w: World, k: WorkerId)
    requires k in w.ticks && !Blocked(w, k) && (w.ticks[k].i >= |w.ticks[k].due| ==> w.ticks[k].phase.Resolving?)
    ensures if AtEnd(w, k) then k !in Next(w, Upcoming(w, k)).ticks
            else k in Next(w, Upcoming(w, k)).ticks && Next(w, Upcoming(w, k)).ticks[k] == Upcame(w, k, w.ticks[k])
  {
    assert AtEnd(w, k) || At(w, k, w.ticks[k].phase);
    hide FindDue, IsDue;
  }

  lemma UpcameIsShorter(w: World, k: WorkerId, t: Tick)
    requires TickShape(t) && t.i < |t.due| && TickShape(Upcame(w, k, t))
    ensures StatementsLeft(Upcame(w, k, t)) < StatementsLeft(t)
  {
    hide Handed, WrittenInOrder;
  }

  lemma TickShapeBasics(t: Tick)
    requires TickShape(t)
    ensures t.i <= |t.due| && (!t.phase.Resolving? ==> t.i < |t.due|)
  {
  }

  /** While ticks are open some worker is free to go on, and going on ends its tick or shortens it: no deadlock
      among workers. */
  lemma SomeWorkerGoesOn(before: seq<Action>, after: seq<Action>) returns (k: WorkerId)
    requires Run(EMPTY, before).ticks == map[]
    requires NoListedTimeMoves(Run(EMPTY, before), after)
    requires Run(EMPTY, before + after).ticks != map[]
    ensures var w := Run(EMPTY, before + after);
            && k in w.ticks && !Blocked(w, k) && TickShape(w.ticks[k])
            && var v := Next(w, Upcoming(w, k));
               k in v.ticks ==> TickShape(v.ticks[k]) && StatementsLeft(v.ticks[k]) < StatementsLeft(w.ticks[k])
  {
    StaysInOneOrder(before, after);
    RunsAreSafe(EMPTY, before + after, 0);
    hide Run, LocksAreWrites, WritesClaim, Aligned, IsStrictOrder, TimeOrder, SendsBalance, RecordsOk, TickShape,
      NoListedTimeMoves;
    var w := Run(EMPTY, before + after);
    var from :| from in w.ticks;
    if Blocked(w, from) {
      k := FollowWaits(w, TimeOrder(w.rows), from, Wanted(w, from).id, {});
    } else {
      k := from;
    }
    GoingOn(w, k);
  }

  lemma GoingOn(w: World, k: WorkerId)
    requires Structure(w) && w.rows.Keys <= w.used && k in w.ticks && !Blocked(w, k)
    ensures TickShape(w.ticks[k])
    ensures var v := Next(w, Upcoming(w, k));
            if AtEnd(w, k) then k !in v.ticks
            else k in v.ticks && TickShape(v.ticks[k]) && v.ticks[k] == Upcame(w, k, w.ticks[k])
                 && StatementsLeft(v.ticks[k]) < StatementsLeft(w.ticks[k])
  {
    NextKeepsStructure(w, Upcoming(w, k));
    hide LocksAreWrites, WritesClaim, TickShape;
    TickShapeBasics(w.ticks[k]);
    hide Next, Upcoming, Blocked, Upcame;
    UpcomingTick(w, k);
    if !AtEnd(w, k) { UpcameIsShorter(w, k, w.ticks[k]); }
  }
}
