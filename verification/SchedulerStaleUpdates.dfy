/** `update_reminder` as two steps: a read that checks the row, and later a write that names the row by its id alone.

    The write sets the columns that were given values other than those read.  It waits for a lock on its row, and does
    not test the row again. */
module SchedulerStaleUpdates {
  import opened Wrappers
  import opened Reminders
  import opened SchedulerProtocol
  import opened SchedulerSafety
  import opened SchedulerDrain

  type EditorId = nat

  datatype Edit = Edit(id: ReminderId, remindAt: Option<Time>, status: Option<ReminderStatus>)

  /** `edits` are the updates that have been read and not yet written, with the columns they will set. */
  datatype Desk = Desk(world: World, edits: map<EditorId, Edit>)

  datatype DeskAction =
    | Step(action: Action)
    | ReadForUpdate(editor: EditorId, id: ReminderId, newRemindAt: Option<Time>, newStatus: Option<ReminderStatus>)
    | WriteUpdate(editor: EditorId, at: Time)

  const START: Desk := Desk(EMPTY, map[])

  /** The checks of `update_reminder`; a refused update never writes. */
  function DoRead(d: Desk, editor: EditorId, id: ReminderId, newRemindAt: Option<Time>,
      newStatus: Option<ReminderStatus>): Desk {
    var w := d.world;
    if editor in d.edits || id !in w.rows || w.rows[id].status.Sent? then d
    else
      var r := w.rows[id];
      if newRemindAt.Some? && (r.taskId !in w.tasks || newRemindAt.value > w.tasks[r.taskId]) then d
      else if newStatus.Some? && newStatus.value.Sent? then d
      else d.(edits := d.edits[editor := Edit(id, Changed(newRemindAt, r.remindAt), Changed(newStatus, r.status))])
  }

  /** An update that finds its row gone fails. */
  function DoWrite(d: Desk, editor: EditorId, at: Time): Desk {
    if editor !in d.edits || d.edits[editor].id in d.world.locks then d
    else
      var e, w := d.edits[editor], d.world;
      var v := if e.id !in w.rows then w
               else w.(rows := w.rows[e.id := Written(w.rows[e.id], e.remindAt, e.status, at)]);
      Desk(v, d.edits - {editor})
  }

  function NextDesk(d: Desk, x: DeskAction): Desk {
    match x
    case Step(a) => d.(world := Next(d.world, a))
    case ReadForUpdate(editor, id, newRemindAt, newStatus) => DoRead(d, editor, id, newRemindAt, newStatus)
    case WriteUpdate(editor, at) => DoWrite(d, editor, at)
  }

  function RunDesk(d: Desk, xs: seq<DeskAction>): Desk {
    if xs == [] then d else NextDesk(RunDesk(d, xs[..|xs| - 1]), xs[|xs| - 1])
  }

  // ----- What every step keeps -----

  ghost predicate DeskOk(d: Desk) {
    && Structure(d.world) && d.world.rows.Keys <= d.world.used
    && forall k :: k in d.edits && d.edits[k].status.Some? ==> !d.edits[k].status.value.Sent?
  }

  lemma NextKeepsDeskOk(d: Desk, x: DeskAction)
    requires DeskOk(d)
    ensures DeskOk(NextDesk(d, x))
  {
    hide Structure, Next;
    match x
    case Step(a) =>
      NextKeepsStructure(d.world, a);
      NextKeepsUsed(d.world, a);
    case WriteUpdate(editor, at) =>
      if editor in d.edits && d.edits[editor].id !in d.world.locks {
        ApiKeepsStructure(d.world, NextDesk(d, x).world);
      }
    case _ =>
  }

  lemma {:induction false} RunsKeepDeskOk(xs: seq<DeskAction>)
    ensures DeskOk(RunDesk(START, xs))
  {
    hide DeskOk, NextDesk;
    if xs == [] {
      StartIsOk();
    } else {
      RunsKeepDeskOk(xs[..|xs| - 1]);
      NextKeepsDeskOk(RunDesk(START, xs[..|xs| - 1]), xs[|xs| - 1]);
    }
  }

  lemma StartIsOk()
    ensures DeskOk(START)
  {
  }

  /** Neither the API nor a pending update changes a row with an open claim, an open tick, or what has ended. */
  lemma LockedRowsStay(d: Desk, x: DeskAction)
    requires DeskOk(d) && (x.Step? ==> IsApi(x.action))
    ensures var w, v := d.world, NextDesk(d, x).world;
            && v.locks == w.locks && v.ticks == w.ticks && v.sends == w.sends && v.ended == w.ended
            && forall id :: id in w.locks && id in w.rows ==> id in v.rows && v.rows[id] == w.rows[id]
  {
    hide Structure, Next;
    if x.Step? { ApiLeavesLockedRows(d.world, x.action); }
  }

  /** Taken without a pause, the read and the write are the update as one step. */
  lemma UpdateIsReadThenWrite(d: Desk, editor: EditorId, id: ReminderId, newRemindAt: Option<Time>,
                              newStatus: Option<ReminderStatus>, at: Time)
    requires editor !in d.edits && id !in d.world.locks
    ensures NextDesk(NextDesk(d, ReadForUpdate(editor, id, newRemindAt, newStatus)), WriteUpdate(editor, at))
         == d.(world := Next(d.world, UpdateReminder(id, newRemindAt, newStatus, at)))
  {
    assert d.edits - {editor} == d.edits;
    var read := NextDesk(d, ReadForUpdate(editor, id, newRemindAt, newStatus));
    assert read.edits - {editor} == d.edits;
  }

  // ----- When a committed SENT row changes -----

  /** The write of an update to this row that was read before. */
  ghost predicate Overwrites(d: Desk, x: DeskAction, id: ReminderId) {
    x.WriteUpdate? && x.editor in d.edits && d.edits[x.editor].id == id && id !in d.world.locks
  }

  lemma OnlyWritesTouchSent(d: Desk, x: DeskAction, id: ReminderId)
    requires DeskOk(d) && id in d.world.rows && d.world.rows[id].status.Sent? && id in NextDesk(d, x).world.rows
    requires !Overwrites(d, x, id)
    ensures NextDesk(d, x).world.rows[id] == d.world.rows[id]
  {
    hide Structure, Next;
    if x.Step? { StepKeepsSent(d.world, x.action, id); }
  }

  /** With the read and the write of an update apart, a committed SENT row changes its time or its status, while it
      exists, exactly by the write of an update that read it before it was SENT: the status if that update sets one,
      the time if it sets another.  No other step changes it at all. */
  lemma SentRowChangesExactlyBy(xs: seq<DeskAction>, x: DeskAction, id: ReminderId)
    requires var d := RunDesk(START, xs);
             id in d.world.rows && d.world.rows[id].status.Sent? && id in NextDesk(d, x).world.rows
    ensures var d, v := RunDesk(START, xs), NextDesk(RunDesk(START, xs), x);
            var row, after := d.world.rows[id], v.world.rows[id];
            && (!after.status.Sent? <==> Overwrites(d, x, id) && d.edits[x.editor].status.Some?)
            && (after.remindAt != row.remindAt <==>
                  Overwrites(d, x, id) && d.edits[x.editor].remindAt.Some? &&
                      d.edits[x.editor].remindAt.value != row.remindAt)
            && after.taskId == row.taskId
            && (!Overwrites(d, x, id) ==> after == row)
  {
    RunsKeepDeskOk(xs);
    var d := RunDesk(START, xs);
    hide RunDesk, Structure, Next;
    if !Overwrites(d, x, id) { OnlyWritesTouchSent(d, x, id); }
  }

  // ----- How often a reminder is claimed -----

  /** The step takes a SENT status away. */
  ghost predicate Reopens(d: Desk, x: DeskAction, id: ReminderId) {
    && Overwrites(d, x, id) && d.edits[x.editor].status.Some?
    && id in d.world.rows && d.world.rows[id].status.Sent?
  }

  /** How many steps of a run take the SENT status of `id` away. */
  ghost function Reopenings(xs: seq<DeskAction>, id: ReminderId): nat {
    if xs == [] then 0
    else
      var front, last := xs[..|xs| - 1], xs[|xs| - 1];
      Reopenings(front, id) + if Reopens(RunDesk(START, front), last, id) then 1 else 0
  }

  /** Whether `id` is SENT or, when its row is gone, was SENT in the end. */
  ghost function SentLast(xs: seq<DeskAction>, id: ReminderId): nat {
    if id in RunDesk(START, xs).world.rows then SentNow(RunDesk(START, xs).world, id)
    else if xs == [] then 0
    else SentLast(xs[..|xs| - 1], id)
  }

  lemma WriteCountsClaims(d: Desk, x: DeskAction, id: ReminderId)
    requires DeskOk(d) && !x.Step?
    ensures var w, v := d.world, NextDesk(d, x).world;
            && v.ended == w.ended && v.used == w.used && v.rows.Keys == w.rows.Keys
            && SentNow(v, id) + (if Reopens(d, x, id) then 1 else 0) == SentNow(w, id)
  {
    hide Structure;
  }

  /** The claims counted, and no claim of an id that was never used. */
  ghost predicate Tallied(xs: seq<DeskAction>, id: ReminderId) {
    var w := RunDesk(START, xs).world;
    && Claims(w.ended, Committed, id) == Reopenings(xs, id) + SentLast(xs, id)
    && (id !in w.used ==> SentLast(xs, id) == 0)
  }

  lemma SentLastAppend(xs: seq<DeskAction>, x: DeskAction, id: ReminderId)
    ensures var w := RunDesk(START, xs + [x]).world;
            && RunDesk(START, xs + [x]) == NextDesk(RunDesk(START, xs), x)
            && SentLast(xs + [x], id) == (if id in w.rows then SentNow(w, id) else SentLast(xs, id))
            && Reopenings(xs + [x], id)
               == Reopenings(xs, id) + if Reopens(RunDesk(START, xs), x, id) then 1 else 0
  {
    hide NextDesk, Reopens, SentNow;
    assert (xs + [x])[..|xs + [x]| - 1] == xs;
  }

  lemma NextKeepsTally(xs: seq<DeskAction>, x: DeskAction, id: ReminderId)
    requires Tallied(xs, id)
    ensures Tallied(xs + [x], id)
  {
    hide RunDesk, Structure, Next, Claims, SentLast, Reopenings, Reopens;
    var d := RunDesk(START, xs);
    SentLastAppend(xs, x, id);
    RunsKeepDeskOk(xs);
    if x.Step? {
      NextKeepsUsed(d.world, x.action);
      NextCountsClaims(d.world, x.action, id);
      StepReopensNothing(d, x, id);
    } else {
      WriteCountsClaims(d, x, id);
    }
    SentLastIs(xs, id);
  }

  lemma SentLastIs(xs: seq<DeskAction>, id: ReminderId)
    ensures var w := RunDesk(START, xs).world; id in w.rows ==> SentLast(xs, id) == SentNow(w, id)
  {
  }

  lemma StepReopensNothing(d: Desk, x: DeskAction, id: ReminderId)
    requires x.Step?
    ensures !Reopens(d, x, id)
  {
  }

  lemma {:induction false} RunsAreTallied(xs: seq<DeskAction>, id: ReminderId)
    ensures Tallied(xs, id)
  {
    if xs != [] {
      hide Tallied;
      RunsAreTallied(xs[..|xs| - 1], id);
      NextKeepsTally(xs[..|xs| - 1], xs[|xs| - 1], id);
      assert xs[..|xs| - 1] + [xs[|xs| - 1]] == xs;
    }
  }

  /** In every run: a reminder is claimed once for each time an update that read it before it was SENT wrote its status
      after, and once more if it is SENT now, or was when it was deleted.  So it is claimed at most once if and only if
      that never happened, or happened once and left it unsent. */
  lemma ClaimsAreCounted(xs: seq<DeskAction>, id: ReminderId)
    ensures var w := RunDesk(START, xs).world;
            var claims := Claims(w.ended, Committed, id);
            && claims == Reopenings(xs, id) + SentLast(xs, id)
            && (id in w.rows ==> claims == Reopenings(xs, id) + SentNow(w, id))
            && Reopenings(xs, id) <= claims <= Reopenings(xs, id) + 1
            && (claims <= 1 <==> Reopenings(xs, id) == 0 || (Reopenings(xs, id) == 1 && SentLast(xs, id) == 0))
  {
    RunsAreTallied(xs, id);
    SentLastIsOne(xs, id);
  }

  lemma {:induction false} SentLastIsOne(xs: seq<DeskAction>, id: ReminderId)
    ensures SentLast(xs, id) <= 1
  {
    if xs != [] { SentLastIsOne(xs[..|xs| - 1], id); }
  }

  ghost predicate NeverReopened(xs: seq<DeskAction>, id: ReminderId) {
    forall n :: 0 <= n < |xs| ==> !Reopens(RunDesk(START, xs[..n]), xs[n], id)
  }

  lemma NeverReopenedBefore(front: seq<DeskAction>, x: DeskAction, id: ReminderId)
    ensures NeverReopened(front + [x], id) <==>
            NeverReopened(front, id) && !Reopens(RunDesk(START, front), x, id)
  {
    hide RunDesk, Reopens;
    var xs, n := front + [x], |front|;
    assert xs[..n] == front && xs[n] == x;
    forall m | 0 <= m < n ensures xs[..m] == front[..m] && xs[m] == front[m] {
    }
  }

  lemma {:induction false} NeverReopenedIsZero(xs: seq<DeskAction>, id: ReminderId)
    ensures NeverReopened(xs, id) <==> Reopenings(xs, id) == 0
  {
    if xs != [] {
      hide RunDesk, Reopens, NeverReopened;
      var front, last := xs[..|xs| - 1], xs[|xs| - 1];
      assert front + [last] == xs;
      NeverReopenedBefore(front, last, id);
      NeverReopenedIsZero(front, id);
    }
  }

  /** What one transaction for each update would give: at most one claim, and SENT exactly with it. */
  lemma ClaimedAtMostOnceUnlessReopened(xs: seq<DeskAction>, id: ReminderId)
    requires NeverReopened(xs, id)
    ensures var w := RunDesk(START, xs).world;
            && Claims(w.ended, Committed, id) <= 1
            && (id in w.rows ==> (w.rows[id].status.Sent? <==> Claims(w.ended, Committed, id) == 1))
  {
    NeverReopenedIsZero(xs, id);
    ClaimsAreCounted(xs, id);
  }

  // ----- How often it is sent -----

  lemma NextKeepsDeskBalance(d: Desk, x: DeskAction, id: ReminderId)
    requires DeskOk(d) && SendsBalance(d.world, id)
    ensures SendsBalance(NextDesk(d, x).world, id)
  {
    hide Next, SendsBalance, Structure, LocksAreWrites;
    if x.Step? {
      NextKeepsBalance(d.world, x.action, id);
    } else {
      StructureHasLocks(d.world);
      RowsDoNotMatterToBalance(d.world, NextDesk(d, x).world.rows, id);
    }
  }

  lemma {:induction false} SendsStayBalanced(xs: seq<DeskAction>, id: ReminderId)
    ensures SendsBalance(RunDesk(START, xs).world, id)
  {
    if xs != [] {
      hide DeskOk, NextDesk, SendsBalance;
      SendsStayBalanced(xs[..|xs| - 1], id);
      RunsKeepDeskOk(xs[..|xs| - 1]);
      NextKeepsDeskBalance(RunDesk(START, xs[..|xs| - 1]), xs[|xs| - 1], id);
    }
  }

  /** In every run: a reminder was sent as often as it was claimed, counting the claims that were rolled back and the
      one an open tick has handed over. */
  lemma SendsAreCounted(xs: seq<DeskAction>, id: ReminderId)
    ensures var w := RunDesk(START, xs).world;
            Attempts(w.sends, id)
              == Reopenings(xs, id) + SentLast(xs, id) + Claims(w.ended, RolledBack, id) + Open(w, id)
  {
    SendsStayBalanced(xs, id);
    ClaimsAreCounted(xs, id);
    hide RunDesk, Attempts, Claims, Open;
  }

  // ----- A reminder sent twice -----

  function Steps(actions: seq<Action>): seq<DeskAction> {
    seq(|actions|, i requires 0 <= i < |actions| => Step(actions[i]))
  }

  lemma {:induction false} RunSteps(d: Desk, actions: seq<Action>)
    ensures RunDesk(d, Steps(actions)) == d.(world := Run(d.world, actions))
  {
    hide Next;
    if actions != [] {
      var n := |actions| - 1;
      assert Steps(actions)[..n] == Steps(actions[..n]);
      RunSteps(d, actions[..n]);
    }
  }

  lemma {:induction false} RunDeskAppend(d: Desk, xs: seq<DeskAction>, ys: seq<DeskAction>)
    ensures RunDesk(d, xs + ys) == RunDesk(RunDesk(d, xs), ys)
  {
    hide NextDesk;
    if ys == [] {
      assert xs + ys == xs;
    } else {
      assert (xs + ys)[..|xs + ys| - 1] == xs + ys[..|ys| - 1];
      RunDeskAppend(d, xs, ys[..|ys| - 1]);
    }
  }

  lemma RunDeskOne(d: Desk, x: DeskAction)
    ensures RunDesk(d, [x]) == NextDesk(d, x)
  {
    hide NextDesk;
    assert [x][..0] == [];
  }

  const ONE_REMINDER: World := EMPTY.(rows := map[1 := Reminder(0, 1, Pending, 0)], tasks := map[0 := 100], used := {1})

  const CREATED: seq<Action> := [PutTask(0, 100), CreateReminder(1, 0, 1, 0)]

  lemma OneReminderIsReachable()
    ensures Run(EMPTY, CREATED) == ONE_REMINDER
  {
    RunTwo(EMPTY, CREATED[0], CREATED[1]);
    assert CREATED == [CREATED[0], CREATED[1]];
    assert {} + {1} == {1};
  }

  lemma OneIsDue(w: World, now: Time)
    requires w.rows.Keys == {1} && IsDue(w.rows[1], now)
    ensures DueIds(w.rows, now) == {1} && Ids(AllDue(w, now)) == [1]
  {
    assert DueIds(w.rows, now) == {1};
    var due := AllDue(w, now);
    RankedListsThem(w.rows, {1});
    assert |due| == 1 && due[0].id == 1;
  }

  /** A tick, alone, for the only reminder, at a time when it is due. */
  lemma TickSendsTheOne(w: World, now: Time)
    requires Quiet(w) && w.rows.Keys == {1} && IsDue(w.rows[1], now)
    ensures var v := Run(w, Drain(7, now, 5, [false]));
            && Quiet(v) && v.rows == map[1 := AsSent(w.rows[1], now)] && v.sends == w.sends + [1]
  {
    hide Run, Drain, TicksFor;
    OneIsDue(w, now);
    DrainBound(w, 7, now, 5, [false]);
    hide DueIds, AllDue, Quiet;
    var v := Run(w, Drain(7, now, 5, [false]));
    assert v.rows == map[1 := AsSent(w.rows[1], now)];
  }

  /** A user reads the pending reminder to cancel it, a worker sends it, the cancellation is written over SENT, and a
      second user puts it back to PENDING. */
  const REOPENING: seq<DeskAction> :=
    Steps(CREATED) + [ReadForUpdate(5, 1, None, Some(Cancelled))] + Steps(Drain(7, 10, 5, [false]))
    + [WriteUpdate(5, 12)]
    + [Step(UpdateReminder(1, None, Some(Pending), 13))]

  lemma Read()
    ensures RunDesk(START, Steps(CREATED) + [ReadForUpdate(5, 1, None, Some(Cancelled))])
         == Desk(ONE_REMINDER, map[5 := Edit(1, None, Some(Cancelled))])
  {
    OneReminderIsReachable();
    RunSteps(START, CREATED);
    RunDeskAppend(START, Steps(CREATED), [ReadForUpdate(5, 1, None, Some(Cancelled))]);
    hide RunDesk, Run, Steps;
    RunDeskOne(Desk(ONE_REMINDER, map[]), ReadForUpdate(5, 1, None, Some(Cancelled)));
  }

  lemma Overwritten(w: World)
    requires Quiet(w) && w.rows == map[1 := Reminder(0, 1, Sent, 10)]
    ensures NextDesk(Desk(w, map[5 := Edit(1, None, Some(Cancelled))]), WriteUpdate(5, 12)).world
         == w.(rows := map[1 := Reminder(0, 1, Cancelled, 12)])
    ensures Next(w.(rows := map[1 := Reminder(0, 1, Cancelled, 12)]), UpdateReminder(1, None, Some(Pending), 13))
         == w.(rows := map[1 := Reminder(0, 1, Pending, 13)])
  {
    var cancelled, pending := Reminder(0, 1, Cancelled, 12), Reminder(0, 1, Pending, 13);
    assert map[1 := Reminder(0, 1, Sent, 10)][1 := cancelled] == map[1 := cancelled];
    assert map[1 := cancelled][1 := pending] == map[1 := pending];
  }

  lemma Reopened() returns (w: World)
    ensures RunDesk(START, REOPENING).world == w.(rows := map[1 := Reminder(0, 1, Pending, 13)])
    ensures Quiet(w) && w.rows == map[1 := Reminder(0, 1, Sent, 10)] && w.sends == [1]
  {
    var read := Steps(CREATED) + [ReadForUpdate(5, 1, None, Some(Cancelled))];
    var tick := Drain(7, 10, 5, [false]);
    Read();
    TickSendsTheOne(ONE_REMINDER, 10);
    w := Run(ONE_REMINDER, tick);
    hide RunDesk, Run, Steps, NextDesk, Next, Drain;
    var d := Desk(ONE_REMINDER, map[5 := Edit(1, None, Some(Cancelled))]);
    RunDeskAppend(START, read, Steps(tick));
    RunSteps(d, tick);
    RunDeskAppend(START, read + Steps(tick), [WriteUpdate(5, 12)]);
    RunDeskOne(Desk(w, d.edits), WriteUpdate(5, 12));
    RunDeskAppend(START, read + Steps(tick) + [WriteUpdate(5, 12)], [Step(UpdateReminder(1, None, Some(Pending), 13))]);
    Overwritten(w);
    ReopenStep(NextDesk(Desk(w, d.edits), WriteUpdate(5, 12)));
  }

  lemma ReopenStep(d: Desk)
    ensures RunDesk(d, [Step(UpdateReminder(1, None, Some(Pending), 13))]).world
         == Next(d.world, UpdateReminder(1, None, Some(Pending), 13))
  {
    hide Next;
    RunDeskOne(d, Step(UpdateReminder(1, None, Some(Pending), 13)));
  }

  /** Reopened once and SENT again: this run sends the reminder twice. */
  lemma StaleUpdateSendsTwice()
    ensures Attempts(RunDesk(START, REOPENING + Steps(Drain(7, 14, 5, [false]))).world.sends, 1) == 2
  {
    var w := Reopened();
    var v := w.(rows := map[1 := Reminder(0, 1, Pending, 13)]);
    TickSendsTheOne(v, 14);
    hide RunDesk, Run, Steps, Drain;
    RunDeskAppend(START, REOPENING, Steps(Drain(7, 14, 5, [false])));
    RunSteps(RunDesk(START, REOPENING), Drain(7, 14, 5, [false]));
    assert [1] + [1] == [1, 1];
  }
}
