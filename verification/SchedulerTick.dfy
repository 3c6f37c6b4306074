/** The tick as the code runs it: a loop over the due reminders that issues one statement after another, with any
    statements of other sessions in between. */
module SchedulerTick {
  import opened Wrappers
  import opened Faults
  import opened Reminders
  import opened SchedulerProtocol
  import opened SchedulerSafety

  /** An action of another session. */
  predicate ByOther(a: Action, worker: WorkerId) {
    IsApi(a) || a.worker != worker
  }

  /** The ended ticks of one worker. */
  function OwnEnded(ended: seq<Ended>, worker: WorkerId): seq<Ended> {
    if ended == [] then []
    else
      var e := ended[|ended| - 1];
      OwnEnded(ended[..|ended| - 1], worker) + (if e.worker == worker then [e] else [])
  }

  /** How many commits of the worker took effect without its learning so. */
  function LostAnswers(trace: seq<Action>, worker: WorkerId): nat {
    if trace == [] then 0
    else
      LostAnswers(trace[..|trace| - 1], worker) + if trace[|trace| - 1] == FinishUnacknowledged(worker) then 1 else 0
  }

  lemma OwnEndedAppend(ended: seq<Ended>, e: Ended, worker: WorkerId)
    ensures OwnEnded(ended + [e], worker) == OwnEnded(ended, worker) + (if e.worker == worker then [e] else [])
  {
    assert (ended + [e])[..|ended|] == ended;
  }

  lemma LostAppend(trace: seq<Action>, a: Action, worker: WorkerId)
    ensures LostAnswers(trace + [a], worker)
         == LostAnswers(trace, worker) + if a == FinishUnacknowledged(worker) then 1 else 0
  {
    assert (trace + [a])[..|trace|] == trace;
  }

  lemma {:induction false} OthersLoseNothing(trace: seq<Action>, more: seq<Action>, worker: WorkerId)
    requires forall a :: a in more ==> ByOther(a, worker)
    ensures LostAnswers(trace + more, worker) == LostAnswers(trace, worker)
  {
    if more == [] {
      assert trace + more == trace;
    } else {
      var front, last := more[..|more| - 1], more[|more| - 1];
      OthersLoseNothing(trace, front, worker);
      assert last in more && trace + more == (trace + front) + [last];
      LostAppend(trace + front, last, worker);
    }
  }

  ghost predicate SameTick(w: World, v: World, worker: WorkerId) {
    && (worker in w.ticks <==> worker in v.ticks)
    && (worker in w.ticks ==> v.ticks[worker] == w.ticks[worker])
    && OwnEnded(v.ended, worker) == OwnEnded(w.ended, worker)
  }

  lemma EndsAtMostOne(w: World, a: Action)
    ensures || Next(w, a).ended == w.ended
            || (!IsApi(a) && exists e: Ended :: e.worker == a.worker && Next(w, a).ended == w.ended + [e])
  {
    hide FindDue, FreshTick, IsDue, Blocked, Owned;
    if Next(w, a).ended != w.ended {
      var e := Next(w, a).ended[|w.ended|];
      assert Next(w, a).ended == w.ended + [e];
    }
  }

  lemma OthersKeepOpen(w: World, a: Action, worker: WorkerId)
    requires ByOther(a, worker)
    ensures worker in w.ticks <==> worker in Next(w, a).ticks
    ensures worker in w.ticks ==> Next(w, a).ticks[worker] == w.ticks[worker]
  {
    hide FindDue, FreshTick, IsDue, Blocked, Owned;
  }

  lemma OthersEndElsewhere(w: World, a: Action, worker: WorkerId)
    requires ByOther(a, worker)
    ensures OwnEnded(Next(w, a).ended, worker) == OwnEnded(w.ended, worker)
  {
    hide Next, OwnEnded;
    EndsAtMostOne(w, a);
    if Next(w, a).ended != w.ended {
      var e: Ended :| e.worker == a.worker && Next(w, a).ended == w.ended + [e];
      OwnEndedAppend(w.ended, e, worker);
    }
  }

  lemma OthersKeepTick(w: World, a: Action, worker: WorkerId)
    requires ByOther(a, worker)
    ensures SameTick(w, Next(w, a), worker)
  {
    hide Next, OwnEnded, ByOther;
    OthersKeepOpen(w, a, worker);
    OthersEndElsewhere(w, a, worker);
  }

  lemma {:induction false} RunsOfOthersKeepTick(w: World, actions: seq<Action>, worker: WorkerId)
    requires forall a :: a in actions ==> ByOther(a, worker)
    ensures SameTick(w, Run(w, actions), worker)
    decreases |actions|
  {
    hide Next, OwnEnded, ByOther;
    if actions != [] {
      RunsOfOthersKeepTick(w, actions[..|actions| - 1], worker);
      OthersKeepTick(Run(w, actions[..|actions| - 1]), actions[|actions| - 1], worker);
    }
  }

  datatype TickResult = TickResult(sent: nat, failed: nat, skipped: nat, due: nat)

  /** What lies behind a worker: its ended ticks, and how many of their commits it does not know of. */
  datatype Past = Past(ended: seq<Ended>, lost: nat)

  /** A worker's database session and its notification provider.  What the outside world will do is fixed ahead,
      in any way whatever: `others` are the statements of other sessions before each statement of this one,
      `faults` what becomes of its own, `refusals` which notifications raise. */
  class Session {
    const worker: WorkerId
    var world: World
    var others: seq<seq<Action>>
    var faults: seq<Fault>
    var refusals: seq<bool>
    ghost var trace: seq<Action>

    /** The database is where a run of the protocol has brought it. */
    ghost predicate Valid()
      reads this
    {
      && world == Run(EMPTY, trace)
      && forall chunk, a :: chunk in others && a in chunk ==> ByOther(a, worker)
    }

    ghost function OwnPast(): Past
      reads this
    {
      Past(OwnEnded(world.ended, worker), LostAnswers(trace, worker))
    }

    /** The worker's tick is over, as `t` and with the given outcome; `lost` is one when it was not told of the
        commit. */
    ghost predicate EndsAs(before: Past, t: Tick, outcome: Outcome, lost: nat)
      reads this
    {
      worker !in world.ticks && OwnPast() == Past(before.ended + [Ended(worker, t, outcome)], before.lost + lost)
    }

    constructor (worker: WorkerId, others: seq<seq<Action>>, faults: seq<Fault>, refusals: seq<bool>)
      requires forall chunk, a :: chunk in others && a in chunk ==> ByOther(a, worker)
      ensures Valid() && this.worker == worker && world == EMPTY
    {
      this.worker, this.others, this.faults, this.refusals := worker, others, faults, refusals;
      world, trace := EMPTY, [];
    }

    /** This session's own tick stands still while the others act. */
    method LetOthersAct()
      requires Valid()
      modifies this`world, this`others, this`trace
      ensures Valid() && old(trace) <= trace && SameTick(old(world), world, worker) && OwnPast() == old(OwnPast())
    {
      if others != [] {
        RunsOfOthersKeepTick(world, others[0], worker);
        RunAppend(EMPTY, trace, others[0]);
        OthersLoseNothing(trace, others[0], worker);
        assert forall chunk :: chunk in others[1..] ==> chunk in others;
        world := Run(world, others[0]);
        trace := trace + others[0];
        others := others[1..];
      }
    }

    method Take(a: Action)
      requires Valid()
      modifies this`world, this`trace
      ensures Valid() && trace == old(trace) + [a] && world == Next(old(world), a)
      ensures OwnPast().lost == old(OwnPast().lost) + if a == FinishUnacknowledged(worker) then 1 else 0
    {
      RunAppend(EMPTY, trace, [a]);
      RunOne(world, a);
      LostAppend(trace, a, worker);
      world := Next(world, a);
      trace := trace + [a];
    }

    method NextFault() returns (fault: Fault)
      modifies this`faults
      ensures Follows(old(faults), faults) && (fault.NoFault? <==> Smooth(old(faults), faults))
      ensures fault.AnswerLost? ==> AnswerLost in Met(old(faults), faults)
    {
      fault := NoFault;
      if faults != [] {
        fault := faults[0];
        faults := faults[1..];
      }
    }

    method FindDue(now: Time, limit: nat) returns (r: Result<seq<Loaded>>)
      requires Valid() && worker !in world.ticks
      modifies this
      ensures Valid() && old(trace) <= trace && OwnPast() == old(OwnPast())
      ensures Follows(old(faults), faults) && (r.Ok? <==> Smooth(old(faults), faults))
      ensures r.Err? ==> worker !in world.ticks
      ensures r.Ok? ==> worker in world.ticks && world.ticks[worker] == FreshTick(world.rows, now, limit)
      ensures r.Ok? ==> r.value == world.ticks[worker].due
    {
      LetOthersAct();
      var fault := NextFault();
      if fault != NoFault { return Err(StatementFailed); }
      Take(Begin(worker, now, limit));
      return Ok(world.ticks[worker].due);
    }

    /** `get_by_id` on tasks for the reminder the tick has come to. */
    method TaskExists() returns (r: Result<bool>)
      requires Valid() && At(world, worker, Resolving)
      modifies this
      ensures Valid() && old(trace) <= trace && worker in world.ticks && OwnPast() == old(OwnPast())
      ensures r.Err? ==> world.ticks[worker] == old(world.ticks[worker])
      ensures r.Ok? ==> world.ticks[worker] == Resolved(old(world.ticks[worker]), r.value)
      ensures r.Ok? ==>
                var t := old(world.ticks[worker]); r.value == (t.due[t.i].row.taskId in world.tasks)
      ensures Follows(old(faults), faults) && (r.Ok? <==> Smooth(old(faults), faults))
    {
      LetOthersAct();
      var fault := NextFault();
      if fault != NoFault { return Err(StatementFailed); }
      var t := world.ticks[worker];
      var found := t.due[t.i].row.taskId in world.tasks;
      Take(Resolve(worker));
      return Ok(found);
    }

    /** `mark_sent`: the number of rows updated.  A row lock that never comes free ends in a database error, and
        nothing else does but a fault. */
    method MarkSent() returns (r: Result<nat>)
      requires Valid() && At(world, worker, Claiming)
      modifies this
      ensures Valid() && old(trace) <= trace && worker in world.ticks && OwnPast() == old(OwnPast())
      ensures Follows(old(faults), faults)
      ensures r.Err? ==> world.ticks[worker] == old(world.ticks[worker])
      ensures r.Err? <==> !Smooth(old(faults), faults) || Blocked(world, worker)
      ensures r.Ok? ==>
                var t := old(world.ticks[worker]);
                var id := t.due[t.i].id;
                if id in world.rows && world.rows[id].status.Pending? && world.rows[id].remindAt <= t.now
                then r.value == 1 && world.ticks[worker] == Claimed(t, id, world.rows[id])
                else r.value == 0 && world.ticks[worker] == Skipped(t)
    {
      LetOthersAct();
      var fault := NextFault();
      if fault != NoFault || Blocked(world, worker) { return Err(StatementFailed); }
      var t := world.ticks[worker];
      var id := t.due[t.i].id;
      var claimable := Claimable(world, id, t.now);
      Take(Claim(worker));
      return Ok(if claimable then 1 else 0);
    }

    /** The provider's answer: does it raise? */
    method Send() returns (raises: bool)
      requires Valid() && At(world, worker, Notifying)
      modifies this
      ensures Valid() && old(trace) <= trace && worker in world.ticks && OwnPast() == old(OwnPast())
      ensures var t := old(world.ticks[worker]); world.ticks[worker] == Notified(t, t.due[t.i].id, raises)
      ensures var t := old(world.ticks[worker]); world.sends == old(world.sends) + [t.due[t.i].id]
      ensures raises == (old(refusals) != [] && old(refusals)[0]) && faults == old(faults)
    {
      raises := false;
      if refusals != [] {
        raises := refusals[0];
        refusals := refusals[1..];
      }
      Take(Notify(worker, raises));
    }

    /** The commit; it may take effect although it raises. */
    method Commit() returns (r: Result<()>)
      requires Valid() && AtEnd(world, worker) && world.ticks[worker].due != []
      modifies this
      ensures Valid() && old(trace) <= trace
      ensures r.Ok? ==> EndsAs(old(OwnPast()), old(world.ticks[worker]), Committed, 0)
      ensures Follows(old(faults), faults) && (r.Ok? <==> Smooth(old(faults), faults))
      ensures r.Err? ==>
                || (AtEnd(world, worker) && world.ticks[worker] == old(world.ticks[worker]) &&
                    OwnPast() == old(OwnPast()))
                || (AnswerLost in Met(old(faults), faults) &&
                    EndsAs(old(OwnPast()), old(world.ticks[worker]), Committed, 1))
    {
      hide Run, OwnEnded, LostAnswers, Next, DoFinish;
      LetOthersAct();
      var fault := NextFault();
      match fault
      case Raises => return Err(StatementFailed);
      case NoFault =>
        FinishEnds(world, worker);
        Take(Finish(worker));
        return Ok(());
      case AnswerLost =>
        FinishEnds(world, worker);
        Take(FinishUnacknowledged(worker));
        return Err(StatementFailed);
    }

    /** The session ends without a commit; when nothing was due there is nothing to keep. */
    method Close()
      requires Valid() && AtEnd(world, worker) && world.ticks[worker].due == []
      modifies this
      ensures Valid() && old(trace) <= trace && EndsAs(old(OwnPast()), old(world.ticks[worker]), NothingDue, 0)
      ensures world.rows == old(world.rows) && faults == old(faults)
    {
      hide Run, OwnEnded, LostAnswers, Next, DoFinish;
      FinishEnds(world, worker);
      Take(Finish(worker));
    }

    /** Whatever the session has not committed is gone. */
    method Rollback()
      requires Valid() && (worker in world.ticks ==> !world.ticks[worker].phase.Notifying?)
      modifies this
      ensures Valid() && old(trace) <= trace && world.rows == old(world.rows) && worker !in world.ticks
      ensures faults == old(faults)
      ensures old(worker in world.ticks) ==>
                world.locks == old(world.locks) - old(world.ticks[worker]).writes.Keys
      ensures if old(worker in world.ticks) then EndsAs(old(OwnPast()), old(world.ticks[worker]), RolledBack, 0)
              else OwnPast() == old(OwnPast())
    {
      if worker in world.ticks {
        OwnEndedAppend(world.ended, Ended(worker, world.ticks[worker], RolledBack), worker);
      }
      Take(DatabaseError(worker));
    }
  }

  lemma FinishIs(w: World, worker: WorkerId)
    ensures Next(w, Finish(worker)) == DoFinish(w, worker) == Next(w, FinishUnacknowledged(worker))
  {
  }

  lemma FinishRecords(w: World, worker: WorkerId)
    requires AtEnd(w, worker)
    ensures var outcome := if w.ticks[worker].due == [] then NothingDue else Committed;
            var v := DoFinish(w, worker);
            && worker !in v.ticks && v.ended == w.ended + [Ended(worker, w.ticks[worker], outcome)]
            && (w.ticks[worker].due == [] ==> v.rows == w.rows)
  {
  }

  lemma FinishEnds(w: World, worker: WorkerId)
    requires AtEnd(w, worker)
    ensures Next(w, Finish(worker)) == Next(w, FinishUnacknowledged(worker))
    ensures var v := Next(w, Finish(worker));
            var e := Ended(worker, w.ticks[worker], if w.ticks[worker].due == [] then NothingDue else Committed);
            && worker !in v.ticks && OwnEnded(v.ended, worker) == OwnEnded(w.ended, worker) + [e]
            && (w.ticks[worker].due == [] ==> v.rows == w.rows)
  {
    hide Next, DoFinish, OwnEnded;
    FinishIs(w, worker);
    FinishRecords(w, worker);
    var outcome := if w.ticks[worker].due == [] then NothingDue else Committed;
    OwnEndedAppend(w.ended, Ended(worker, w.ticks[worker], outcome), worker);
  }

  /** The counts of the law of `TickCountsHold`, as a caller sees them. */
  predicate CountsAreLawful(r: TickResult, limit: nat) {
    && r.due <= limit && r.sent + r.skipped <= r.due
    && r.due - r.sent - r.skipped <= r.failed <= r.due - r.skipped
  }

  /** The result says what the tick did. */
  predicate Reports(r: TickResult, t: Tick) {
    r == TickResult(t.sent, t.failed, t.skipped, |t.due|)
  }

  /** What became of a reminder: no task, claimed by somebody else, or claimed and handed to the provider. */
  datatype Handled = Missing | AlreadyTaken | Told(raises: bool)

  class SchedulerService {
    const session: Session

    constructor (session: Session)
      ensures this.session == session
    {
      this.session := session;
    }

    /** One turn of the loop: look up the task, claim, notify.  An exception leaves the tick before the claim. */
    method Handle() returns (r: Result<Handled>)
      requires session.Valid() && At(session.world, session.worker, Resolving)
      modifies session
      ensures session.Valid() && old(session.trace) <= session.trace && session.OwnPast() == old(session.OwnPast())
      ensures session.worker in session.world.ticks && Follows(old(session.faults), session.faults)
      ensures r.Ok? ==> Smooth(old(session.faults), session.faults)
      ensures r.Err? ==> !Smooth(old(session.faults), session.faults) || Blocked(session.world, session.worker)
      ensures var t, u := old(session.world.ticks[session.worker]), session.world.ticks[session.worker];
              && u.due == t.due && u.now == t.now && u.limit == t.limit
              && if r.Err? then !u.phase.Notifying? else IsHandled(t, u, r.value)
    {
      hide Run, OwnEnded, LostAnswers, FindDue, IsDue, Blocked;
      var present := session.TaskExists();
      if present.Err? { return Err(StatementFailed); }
      if !present.value { return Ok(Missing); }
      ghost var ahead := session.faults;
      var rowcount := session.MarkSent();
      MetJoins(old(session.faults), ahead, session.faults);
      if rowcount.Err? { return Err(StatementFailed); }
      if rowcount.value == 0 { return Ok(AlreadyTaken); }
      var raises := session.Send();
      return Ok(Told(raises));
    }

    /** The tick has gone on by one reminder, with the counts that belong to that. */
    ghost predicate IsHandled(t: Tick, u: Tick, h: Handled) {
      && u.phase.Resolving? && u.i == t.i + 1
      && u.sent == t.sent + (if h.Told? then 1 else 0)
      && u.failed == t.failed + (if h.Missing? || (h.Told? && h.raises) then 1 else 0)
      && u.skipped == t.skipped + (if h.AlreadyTaken? then 1 else 0)
    }

    /** Find what is due, and handle one reminder after the other.  On success the tick stands before its commit and the
        result reports it; an exception leaves it where it was, never between a claim and its notification. */
    method Tick(now: Time, limit: nat) returns (r: Result<TickResult>)
      requires session.Valid() && session.worker !in session.world.ticks
      modifies session
      ensures session.Valid() && old(session.trace) <= session.trace && session.OwnPast() == old(session.OwnPast())
      ensures Follows(old(session.faults), session.faults)
      ensures r.Ok? ==> Smooth(old(session.faults), session.faults)
      ensures r.Err? ==>
                !Smooth(old(session.faults), session.faults) || Blocked(session.world, session.worker)
      ensures r.Err? && session.worker in session.world.ticks ==>
                var t := session.world.ticks[session.worker]; !t.phase.Notifying? && t.now == now && t.limit == limit
      ensures r.Ok? ==> AtEnd(session.world, session.worker) && Reports(r.value, session.world.ticks[session.worker])
      ensures r.Ok? ==> session.world.ticks[session.worker].now == now
      ensures r.Ok? ==> session.world.ticks[session.worker].limit == limit
    {
      hide Run, OwnEnded, LostAnswers, FindDue, IsDue, Blocked, Claimable, Resolved, Claimed, Notified;
      var found := session.FindDue(now, limit);
      if found.Err? { return Err(StatementFailed); }
      var due := found.value;
      var sent, failed, skipped := 0, 0, 0;
      ghost var start := session.world.ticks[session.worker];
      for i := 0 to |due|
        invariant session.Valid() && old(session.trace) <= session.trace && session.worker in session.world.ticks
        invariant session.OwnPast() == old(session.OwnPast()) && Smooth(old(session.faults), session.faults)
        invariant Stands(session.world.ticks[session.worker], start, i, sent, failed, skipped)
      {
        ghost var ahead := session.faults;
        var handled := Handle();
        MetJoins(old(session.faults), ahead, session.faults);
        if handled.Err? { return Err(StatementFailed); }
        match handled.value {
          case Missing => failed := failed + 1;
          case AlreadyTaken => skipped := skipped + 1;
          case Told(raises) =>
            sent := sent + 1;
            if raises { failed := failed + 1; }
        }
      }
      return Ok(TickResult(sent, failed, skipped, |due|));
    }

    /** The loop's local variables and the tick they belong to. */
    ghost predicate Stands(t: Tick, start: Tick, i: nat, sent: nat, failed: nat, skipped: nat) {
      && t.phase.Resolving? && t.i == i && t.sent == sent && t.failed == failed && t.skipped == skipped
      && t.due == start.due && t.now == start.now && t.limit == start.limit
    }
  }

  class SchedulerModule {
    const session: Session
    const service: SchedulerService

    constructor (session: Session)
      ensures this.session == session && service.session == session
    {
      this.session := session;
      service := new SchedulerService(session);
    }

    /** Run the batch, then commit it or roll it back as a whole, whatever other sessions do in between.  A result
        means that exactly one tick of this worker has been added, committed (or with nothing due), and reports its
        lawful counts.  An exception has a cause: a statement that failed, or a claim that met a row locked by another
        worker.  It means that no tick was added, or one that was rolled back, or one whose commit took effect although
        its answer was lost. */
    method Tick(now: Time, limit: nat) returns (r: Result<TickResult>)
      requires session.Valid() && service.session == session && session.worker !in session.world.ticks
      modifies session
      ensures session.Valid() && old(session.trace) <= session.trace && session.worker !in session.world.ticks
      ensures Follows(old(session.faults), session.faults)
      ensures r.Ok? ==> exists t: Tick ::
                && Reports(r.value, t) && t.now == now && t.limit == limit
                && session.EndsAs(old(session.OwnPast()), t, if r.value.due == 0 then NothingDue else Committed, 0)
      ensures r.Ok? ==> CountsAreLawful(r.value, limit)
      ensures r.Err? ==>
                || session.OwnPast() == old(session.OwnPast())
                || (exists t: Tick ::
                      t.now == now && t.limit == limit && session.EndsAs(old(session.OwnPast()), t, RolledBack, 0))
                || (AnswerLost in Met(old(session.faults), session.faults) && exists t: Tick ::
                      t.now == now && t.limit == limit && session.EndsAs(old(session.OwnPast()), t, Committed, 1))
      ensures r.Ok? ==> Smooth(old(session.faults), session.faults)
      ensures r.Err? && Smooth(old(session.faults), session.faults) ==>
                exists t: Tick ::
                  session.EndsAs(old(session.OwnPast()), t, RolledBack, 0) && MetALock(session.world, session.worker, t)
      ensures forall id :: Claims(session.world.ended, Committed, id) <= 1
    {
      hide Run, Claims, OwnEnded, LostAnswers;
      r := service.Tick(now, limit);
      if r.Err? {
        if Blocked(session.world, session.worker) {
          BlockedMeetsALock(session.trace, session.worker);
        }
        session.Rollback();
      } else {
        ghost var t := session.world.ticks[session.worker];
        if r.value.due > 0 {
          ghost var ahead := session.faults;
          var committed := session.Commit();
          MetJoins(old(session.faults), ahead, session.faults);
          if committed.Err? {
            session.Rollback();
            r := Err(StatementFailed);
          }
        } else {
          session.Close();
        }
        if r.Ok? {
          OwnEndedIsThere(session.world.ended, session.worker);
          TickCountsHold(session.trace, session.OwnPast().ended[|session.OwnPast().ended| - 1]);
        }
      }
      forall id ensures Claims(session.world.ended, Committed, id) <= 1 {
        ClaimedAtMostOnce(session.trace, id);
      }
    }
  }

  /** The tick had come to a due reminder whose row another worker had locked. */
  ghost predicate MetALock(w: World, worker: WorkerId, t: Tick) {
    && t.phase.Claiming? && t.i < |t.due|
    && var id := t.due[t.i].id;
       && id in w.rows && w.rows[id].status.Pending? && w.rows[id].remindAt <= t.now
       && id in w.locks && w.locks[id] != worker
  }

  lemma BlockedMeetsALock(trace: seq<Action>, worker: WorkerId)
    requires Blocked(Run(EMPTY, trace), worker)
    ensures var w := Run(EMPTY, trace);
            MetALock(w, worker, w.ticks[worker]) && Wanted(w, worker).id !in w.ticks[worker].writes
  {
    RunsAreSafe(EMPTY, trace, 0);
    hide Run, SendsBalance, History, RecordsOk;
    NotYetWritten(Run(EMPTY, trace).ticks[worker]);
  }

  lemma {:induction false} OwnEndedIsThere(ended: seq<Ended>, worker: WorkerId)
    ensures forall e :: e in OwnEnded(ended, worker) ==> e in ended
  {
    if ended != [] {
      OwnEndedIsThere(ended[..|ended| - 1], worker);
      assert ended == ended[..|ended| - 1] + [ended[|ended| - 1]];
    }
  }
}
