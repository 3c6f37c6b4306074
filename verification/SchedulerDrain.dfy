/** A single worker empties the due list in as few ticks as the batch size allows. */
module SchedulerDrain {
  import opened Reminders
  import opened SchedulerProtocol
  import opened SchedulerSafety

  function Ids(due: seq<Loaded>): (ids: seq<ReminderId>)
    ensures |ids| == |due| && forall k :: 0 <= k < |due| ==> ids[k] == due[k].id
  {
    if due == [] then [] else Ids(due[..|due| - 1]) + [due[|due| - 1].id]
  }

  function IdSet(due: seq<Loaded>): set<ReminderId> {
    set k | 0 <= k < |due| :: due[k].id
  }

  function AllDue(w: World, now: Time): seq<Loaded> {
    Ranked(w.rows, DueIds(w.rows, now))
  }

  function AsSent(row: Reminder, now: Time): Reminder {
    row.(status := Sent, updatedAt := now)
  }

  /** No tick is open, and every reminder has its task. */
  predicate Quiet(w: World) {
    w.ticks == map[] && w.locks == map[] && forall id :: id in w.rows ==> w.rows[id].taskId in w.tasks
  }

  /** The statements of a tick for the reminders of `raises`, one flag each: does the provider raise? */
  function Statements(worker: WorkerId, raises: seq<bool>): seq<Action> {
    if raises == [] then []
    else
      Statements(worker, raises[..|raises| - 1]) +
      [Resolve(worker), Claim(worker), Notify(worker, raises[|raises| - 1])]
  }

  function WholeTick(worker: WorkerId, now: Time, limit: nat, raises: seq<bool>): seq<Action> {
    [Begin(worker, now, limit)] + Statements(worker, raises) + [Finish(worker)]
  }

  /** One tick after another until all reminders of `raises` have been taken. */
  function Drain(worker: WorkerId, now: Time, limit: nat, raises: seq<bool>): seq<Action>
    requires limit > 0
    decreases |raises|
  {
    if raises == [] then []
    else
      var n := Least(limit, |raises|);
      WholeTick(worker, now, limit, raises[..n]) + Drain(worker, now, limit, raises[n..])
  }

  // ----- The order of what is left -----

  lemma {:induction false} RankedAgrees(rows: Table, other: Table, ids: set<ReminderId>)
    requires ids <= rows.Keys && ids <= other.Keys
    requires forall id :: id in ids ==> rows[id] == other[id]
    ensures Ranked(rows, ids) == Ranked(other, ids)
    decreases ids
  {
    if ids != {} {
      var a, b := Earliest(rows, ids), Earliest(other, ids);
      assert a == b;
      RankedAgrees(rows, other, ids - {a});
    }
  }

  lemma IdSetCons(x: Loaded, due: seq<Loaded>)
    ensures IdSet([x] + due) == {x.id} + IdSet(due)
  {
    var all := [x] + due;
    assert all[0].id == x.id;
    forall m | 0 <= m < |due| ensures due[m].id in IdSet(all) { assert all[m + 1].id == due[m].id; }
    forall m | 0 <= m < |all| ensures all[m].id in {x.id} + IdSet(due) {
      if m > 0 { assert due[m - 1].id == all[m].id; }
    }
  }

  lemma IdSetSnoc(due: seq<Loaded>, x: Loaded)
    ensures IdSet(due + [x]) == IdSet(due) + {x.id}
  {
    var all := due + [x];
    assert all[|due|].id == x.id;
    forall m | 0 <= m < |due| ensures due[m].id in IdSet(all) { assert all[m].id == due[m].id; }
    forall m | 0 <= m < |all| ensures all[m].id in IdSet(due) + {x.id} {
      if m < |due| { assert due[m].id == all[m].id; }
    }
  }

  lemma IdsSnoc(due: seq<Loaded>, x: Loaded)
    ensures Ids(due + [x]) == Ids(due) + [x.id]
  {
    assert (due + [x])[..|due|] == due;
  }

  lemma RankedTail(rows: Table, ids: set<ReminderId>)
    requires ids != {} && ids <= rows.Keys
    ensures var first := Earliest(rows, ids);
            Ranked(rows, ids) == [Loaded(first, rows[first])] + Ranked(rows, ids - {first})
  {
  }

  /** The ids that are left when the first k of them have been taken. */
  ghost function Rest(rows: Table, ids: set<ReminderId>, k: nat): set<ReminderId>
    requires ids <= rows.Keys && k <= |ids|
    ensures Rest(rows, ids, k) <= ids
    decreases k
  {
    if k == 0 then ids else Rest(rows, ids - {Earliest(rows, ids)}, k - 1)
  }

  lemma DropCons(first: Loaded, rest: seq<Loaded>, k: nat)
    requires 0 < k <= |rest| + 1
    ensures ([first] + rest)[k..] == rest[k - 1..]
  {
  }

  lemma {:induction false} RankedDrop(rows: Table, ids: set<ReminderId>, k: nat)
    requires ids <= rows.Keys && k <= |ids|
    ensures Ranked(rows, ids)[k..] == Ranked(rows, Rest(rows, ids, k))
    decreases k
  {
    if k > 0 {
      RankedTail(rows, ids);
      var first := Loaded(Earliest(rows, ids), rows[Earliest(rows, ids)]);
      DropCons(first, Ranked(rows, ids - {first.id}), k);
      RankedDrop(rows, ids - {first.id}, k - 1);
    }
  }

  lemma NothingTaken()
    ensures IdSet([]) == {}
  {
  }

  lemma TakeCons(first: Loaded, rest: seq<Loaded>, k: nat)
    requires 0 < k <= |rest| + 1
    ensures ([first] + rest)[..k] == [first] + rest[..k - 1]
  {
  }

  lemma {:induction false} RestIsUntaken(rows: Table, ids: set<ReminderId>, k: nat)
    requires ids <= rows.Keys && k <= |ids|
    ensures Rest(rows, ids, k) == ids - IdSet(Ranked(rows, ids)[..k])
    decreases k
  {
    hide IdSet, Ranked;
    NothingTaken();
    if k == 0 {
      assert Ranked(rows, ids)[..0] == [];
    } else {
      RankedTail(rows, ids);
      var first := Loaded(Earliest(rows, ids), rows[Earliest(rows, ids)]);
      var rest := Ranked(rows, ids - {first.id});
      RestIsUntaken(rows, ids - {first.id}, k - 1);
      TakeCons(first, rest, k);
      IdSetCons(first, rest[..k - 1]);
    }
  }

  // ----- One tick -----

  /** `due[..k]` has been taken. */
  ghost predicate Taken(w: World, v: World, worker: WorkerId, now: Time, due: seq<Loaded>, k: nat) {
    && k <= |due|
    && v.rows == w.rows && v.tasks == w.tasks && v.ended == w.ended && v.used == w.used
    && v.sends == w.sends + Ids(due[..k])
    && v.ticks.Keys == {worker}
    && v.locks.Keys == IdSet(due[..k])
    && var t := v.ticks[worker];
       && t.phase.Resolving? && t.now == now && t.due == due && t.i == k && t.sent == k
       && t.writes.Keys == IdSet(due[..k])
       && forall id :: id in t.writes ==> id in w.rows && t.writes[id] == AsSent(w.rows[id], now)
  }

  function TookOne(w: World, v: World, worker: WorkerId, id: ReminderId, raises: bool): World
    requires worker in v.ticks && id in w.rows
  {
    v.(sends := v.sends + [id], locks := v.locks[id := worker],
       ticks := v.ticks[worker := Notified(Claimed(v.ticks[worker], id, w.rows[id]), id, raises)])
  }

  /** Three statements take the next reminder. */
  lemma TakenTick(w: World, v: World, worker: WorkerId, now: Time, due: seq<Loaded>, k: nat, raises: bool)
    requires Quiet(w) && Taken(w, v, worker, now, due, k) && k < |due|
    requires due[k].id in w.rows && due[k].row == w.rows[due[k].id] && IsDue(due[k].row, now)
    requires due[k].id !in IdSet(due[..k])
    ensures DoNotify(DoClaim(DoResolve(v, worker), worker), worker, raises) == TookOne(w, v, worker, due[k].id, raises)
  {
    hide IdSet, Ids, DoNotify, DoClaim, DoResolve;
    ThreeStatements(v, worker, raises);
  }

  lemma TakeOne(w: World, v: World, worker: WorkerId, now: Time, due: seq<Loaded>, k: nat, raises: bool)
    requires Quiet(w) && Taken(w, v, worker, now, due, k) && k < |due|
    requires due[k].id in w.rows && due[k].row == w.rows[due[k].id] && IsDue(due[k].row, now)
    requires due[k].id !in IdSet(due[..k])
    ensures Taken(w, DoNotify(DoClaim(DoResolve(v, worker), worker), worker, raises), worker, now, due, k + 1)
  {
    hide IdSet, Ids, DoNotify, DoClaim, DoResolve, Quiet, IsDue;
    TakenTick(w, v, worker, now, due, k, raises);
    assert due[..k + 1] == due[..k] + [due[k]];
    IdsSnoc(due[..k], due[k]);
    IdSetSnoc(due[..k], due[k]);
    Associative(w.sends, Ids(due[..k]), [due[k].id]);
  }

  lemma NotAmongTheFirst(due: seq<Loaded>, k: nat)
    requires DistinctIds(due) && k < |due|
    ensures due[k].id !in IdSet(due[..k])
  {
  }

  lemma {:induction false} StatementsTake(w: World, v: World, worker: WorkerId, now: Time, due: seq<Loaded>,
      raises: seq<bool>)
    requires Quiet(w) && Taken(w, v, worker, now, due, 0) && |raises| <= |due| && DistinctIds(due)
    requires forall k :: 0 <= k < |due| ==>
               due[k].id in w.rows && due[k].row == w.rows[due[k].id] && IsDue(due[k].row, now)
    ensures Taken(w, Run(v, Statements(worker, raises)), worker, now, due, |raises|)
    decreases |raises|
  {
    if raises == [] {
      hide Taken;
    } else {
      hide Taken, Run, Quiet, IsDue;
      var k := |raises| - 1;
      StatementsTake(w, v, worker, now, due, raises[..k]);
      var s := Statements(worker, raises[..k]);
      RunThree(v, s, Resolve(worker), Claim(worker), Notify(worker, raises[k]));
      NotAmongTheFirst(due, k);
      TakeOne(w, Run(v, s), worker, now, due, k, raises[k]);
    }
  }

  /** What a tick leaves behind: the first `|raises|` due reminders are SENT, and nothing else has changed. */
  ghost predicate Drained(w: World, v: World, now: Time, n: nat) {
    var due := AllDue(w, now);
    && n <= |due|
    && Quiet(v) && v.tasks == w.tasks && v.rows.Keys == w.rows.Keys
    && (forall id :: id in w.rows ==>
          v.rows[id] == if id in IdSet(due[..n]) then AsSent(w.rows[id], now) else w.rows[id])
    && v.sends == w.sends + Ids(due[..n])
    && AllDue(v, now) == due[n..]
  }

  lemma FirstAreDue(w: World, now: Time, n: nat)
    requires n <= |AllDue(w, now)|
    ensures IdSet(AllDue(w, now)[..n]) <= DueIds(w.rows, now)
  {
    RankedListsThem(w.rows, DueIds(w.rows, now));
    hide Ranked, DueIds;
  }

  lemma RestIsDue(w: World, v: World, now: Time, n: nat)
    requires n <= |AllDue(w, now)| && v.rows.Keys == w.rows.Keys
    requires forall id :: id in w.rows ==>
               v.rows[id] == if id in IdSet(AllDue(w, now)[..n]) then AsSent(w.rows[id], now) else w.rows[id]
    ensures AllDue(v, now) == AllDue(w, now)[n..]
  {
    var ids := DueIds(w.rows, now);
    var taken := IdSet(AllDue(w, now)[..n]);
    FirstAreDue(w, now, n);
    RankedDrop(w.rows, ids, n);
    RestIsUntaken(w.rows, ids, n);
    hide Ranked, IdSet;
    assert DueIds(v.rows, now) == ids - taken;
    RankedAgrees(w.rows, v.rows, ids - taken);
  }

  lemma RunWholeTick(w: World, worker: WorkerId, now: Time, limit: nat, raises: seq<bool>)
    ensures Run(w, WholeTick(worker, now, limit, raises))
         == Next(Run(Next(w, Begin(worker, now, limit)), Statements(worker, raises)), Finish(worker))
  {
    var begin := [Begin(worker, now, limit)];
    hide Next, Statements;
    assert begin[..0] == [];
    assert Run(w, begin) == Next(w, begin[0]);
    RunAppend(w, begin, Statements(worker, raises));
    var whole := WholeTick(worker, now, limit, raises);
    assert whole[..|whole| - 1] == begin + Statements(worker, raises);
  }

  lemma BeginTakesNone(w: World, worker: WorkerId, now: Time, limit: nat)
    requires Quiet(w)
    ensures Taken(w, Next(w, Begin(worker, now, limit)), worker, now, FindDue(w.rows, now, limit), 0)
  {
    hide FindDue;
    var due := FindDue(w.rows, now, limit);
    assert due[..0] == [];
  }

  /** The reminders were due; they come by `remind_at`, oldest first, and then by id, and before any that is left. */
  ghost predicate OldestFirst(rows: Table, now: Time, ids: seq<ReminderId>, left: Table) {
    && (forall k :: 0 <= k < |ids| ==>
          ids[k] in rows && rows[ids[k]].status.Pending? && rows[ids[k]].remindAt <= now)
    && (forall i, j :: 0 <= i < j < |ids| ==>
          rows[ids[i]].remindAt < rows[ids[j]].remindAt ||
          (rows[ids[i]].remindAt == rows[ids[j]].remindAt && ids[i] < ids[j]))
    && (forall k, id :: 0 <= k < |ids| && id in left && left[id].status.Pending? && left[id].remindAt <= now ==>
          rows[ids[k]].remindAt < left[id].remindAt ||
          (rows[ids[k]].remindAt == left[id].remindAt && ids[k] < id))
  }

  lemma LeftWasNotTaken(w: World, v: World, now: Time, n: nat, id: ReminderId)
    requires Drained(w, v, now, n) && id in v.rows && v.rows[id].status.Pending? && v.rows[id].remindAt <= now
    ensures id in DueIds(w.rows, now) && v.rows[id] == w.rows[id] && Loaded(id, w.rows[id]) !in AllDue(w, now)[..n]
  {
    hide Quiet, Ids, AllDue;
    var due := AllDue(w, now)[..n];
    assert forall k :: 0 <= k < n ==> due[k].id in IdSet(due);
  }

  lemma FirstAreOldest(w: World, v: World, now: Time, n: nat)
    requires Drained(w, v, now, n)
    ensures OldestFirst(w.rows, now, Ids(AllDue(w, now)[..n]), v.rows)
  {
    hide Ids, Quiet, Ranked, Drained;
    assert n <= |AllDue(w, now)| by { DrainedCount(w, v, now, n); }
    var due := AllDue(w, now)[..n];
    FirstRanked(w.rows, DueIds(w.rows, now), n);
    forall k, id | 0 <= k < n && id in v.rows && v.rows[id].status.Pending? && v.rows[id].remindAt <= now
      ensures due[k].row.remindAt < v.rows[id].remindAt ||
              (due[k].row.remindAt == v.rows[id].remindAt && due[k].id < id)
    {
      LeftWasNotTaken(w, v, now, n, id);
    }
  }

  lemma DrainedCount(w: World, v: World, now: Time, n: nat)
    requires Drained(w, v, now, n)
    ensures n <= |AllDue(w, now)|
  {
  }

  /** One tick, alone: exactly the first `limit` due reminders are committed SENT, in claim order, and the tick
      is recorded as committed, whatever the provider raises. */
  lemma TickAlone(w: World, worker: WorkerId, now: Time, limit: nat, raises: seq<bool>)
    requires Quiet(w) && raises != [] && |raises| == Least(limit, |AllDue(w, now)|)
    ensures var v := Run(w, WholeTick(worker, now, limit, raises));
            && Drained(w, v, now, |raises|)
            && |v.ended| == |w.ended| + 1 && v.ended[..|w.ended|] == w.ended && v.ended[|w.ended|].outcome == Committed
            && w.sends <= v.sends && |v.sends| == |w.sends| + |raises|
            && OldestFirst(w.rows, now, v.sends[|w.sends|..], v.rows)
  {
    hide Run, Next, Statements, Taken, Quiet, FindDue, AllDue, IdSet, Ids, InClaimOrder;
    var due := FindDue(w.rows, now, limit);
    FindsFirst(w, now, limit);
    ClaimOrderIsDistinct(w.rows, due);
    BeginTakesNone(w, worker, now, limit);
    RunWholeTick(w, worker, now, limit, raises);
    var begun := Next(w, Begin(worker, now, limit));
    StatementsTake(w, begun, worker, now, due, raises);
    var last := Run(begun, Statements(worker, raises));
    TickCommits(w, last, worker, now, due);
    var v := Next(last, Finish(worker));
    RestIsDue(w, v, now, |raises|);
    FirstAreOldest(w, v, now, |raises|);
    assert v.sends[|w.sends|..] == Ids(AllDue(w, now)[..|raises|]);
  }

  lemma FindsFirst(w: World, now: Time, limit: nat)
    ensures FindDue(w.rows, now, limit) == AllDue(w, now)[..Least(limit, |AllDue(w, now)|)]
    ensures InClaimOrder(FindDue(w.rows, now, limit))
  {
    hide Ranked;
  }

  /** The only open tick commits: nothing stays open or locked. */
  lemma LastTickCommits(last: World, worker: WorkerId)
    requires AtEnd(last, worker) && last.ticks[worker].due != []
    requires last.ticks.Keys == {worker} && last.locks.Keys == last.ticks[worker].writes.Keys
    ensures Next(last, Finish(worker))
         == last.(rows := last.rows + last.ticks[worker].writes, locks := map[], ticks := map[],
                  ended := last.ended + [Ended(worker, last.ticks[worker], Committed)])
  {
    assert last.ticks - {worker} == map[];
    assert last.locks - last.ticks[worker].writes.Keys == map[];
  }

  /** A finished tick commits all it has taken. */
  lemma TickCommits(w: World, last: World, worker: WorkerId, now: Time, due: seq<Loaded>)
    requires Quiet(w) && Taken(w, last, worker, now, due, |due|) && due != []
    ensures var v := Next(last, Finish(worker));
            && Quiet(v) && v.tasks == w.tasks && v.rows.Keys == w.rows.Keys
            && (forall id :: id in w.rows ==>
                  v.rows[id] == if id in IdSet(due) then AsSent(w.rows[id], now) else w.rows[id])
            && v.sends == w.sends + Ids(due)
            && |v.ended| == |w.ended| + 1 && v.ended[..|w.ended|] == w.ended && v.ended[|w.ended|].outcome == Committed
  {
    assert due[..|due|] == due;
    LastTickCommits(last, worker);
    hide Next, IdSet, Ids;
    var v := last.(rows := last.rows + last.ticks[worker].writes, locks := map[], ticks := map[],
                   ended := last.ended + [Ended(worker, last.ticks[worker], Committed)]);
    assert v.rows.Keys == w.rows.Keys;
  }

  // ----- All ticks -----

  function TicksFor(n: nat, limit: nat): nat
    requires limit > 0
    decreases n
  {
    if n == 0 then 0 else 1 + TicksFor(n - Least(limit, n), limit)
  }

  /** `TicksFor` is n / limit rounded up. */
  lemma {:induction false} TicksForIsCeiling(n: nat, limit: nat)
    requires limit > 0
    ensures n <= TicksFor(n, limit) * limit < n + limit
    decreases n
  {
    if n > 0 {
      var m := Least(limit, n);
      TicksForIsCeiling(n - m, limit);
      assert TicksFor(n, limit) * limit == limit + TicksFor(n - m, limit) * limit;
      if n <= limit { assert TicksFor(0, limit) == 0; }
    }
  }

  lemma IdsSplit(due: seq<Loaded>, n: nat)
    requires n <= |due|
    ensures Ids(due) == Ids(due[..n]) + Ids(due[n..])
  {
    hide Ids;
    var all, split := Ids(due), Ids(due[..n]) + Ids(due[n..]);
    forall k | 0 <= k < |all| ensures all[k] == split[k] {
      if k >= n { assert due[n..][k - n] == due[k]; }
    }
  }

  /** The due reminders have become SENT; every other one is as it was. */
  ghost predicate OnlyDueWereSent(rows: Table, after: Table, now: Time) {
    && after.Keys == rows.Keys
    && forall id :: id in rows ==>
         after[id] == if rows[id].status.Pending? && rows[id].remindAt <= now
                      then Reminder(rows[id].taskId, rows[id].remindAt, Sent, now) else rows[id]
  }

  /** So many more ticks have ended, and all of them committed. */
  ghost predicate MoreCommits(ended: seq<Ended>, after: seq<Ended>, ticks: nat) {
    && |after| == |ended| + ticks && after[..|ended|] == ended
    && forall k :: |ended| <= k < |after| ==> after[k].outcome == Committed
  }

  /** What draining leaves behind: no due reminder, each of them SENT and notified once, in claim order, by ticks
      that all committed. */
  ghost predicate AllDrained(w: World, v: World, now: Time, ticks: nat) {
    && Quiet(v) && DueIds(v.rows, now) == {}
    && OnlyDueWereSent(w.rows, v.rows, now)
    && v.sends == w.sends + Ids(AllDue(w, now))
    && OldestFirst(w.rows, now, v.sends[|w.sends|..], v.rows)
    && MoreCommits(w.ended, v.ended, ticks)
  }

  lemma NothingToDrain(w: World, now: Time)
    requires Quiet(w) && DueIds(w.rows, now) == {}
    ensures Run(w, []) == w && AllDrained(w, w, now, 0)
  {
    assert AllDue(w, now) == [];
    assert w.sends[|w.sends|..] == [];
    assert forall id :: id in w.rows && IsDue(w.rows[id], now) ==> id in DueIds(w.rows, now);
  }

  lemma RowsDrainedTwice(w: World, u: World, v: World, now: Time, n: nat)
    requires Drained(w, u, now, n) && OnlyDueWereSent(u.rows, v.rows, now)
    ensures OnlyDueWereSent(w.rows, v.rows, now)
  {
    FirstAreDue(w, now, n);
    hide Quiet, Ids, AllDue, IdSet;
  }

  lemma CommitsGrow(a: seq<Ended>, b: seq<Ended>, c: seq<Ended>, ticks: nat)
    requires |b| == |a| + 1 && b[..|a|] == a && b[|a|].outcome == Committed && MoreCommits(b, c, ticks)
    ensures MoreCommits(a, c, ticks + 1)
  {
    assert c[|a|] == c[..|b|][|a|];
    assert c[..|a|] == c[..|b|][..|a|];
  }

  lemma SendsGrow(a: seq<ReminderId>, b: seq<ReminderId>, c: seq<ReminderId>, due: seq<Loaded>, n: nat)
    requires n <= |due| && b == a + Ids(due[..n]) && c == b + Ids(due[n..])
    ensures c == a + Ids(due)
  {
    IdsSplit(due, n);
    hide Ids;
    Associative(a, Ids(due[..n]), Ids(due[n..]));
  }

  lemma Associative(a: seq<ReminderId>, b: seq<ReminderId>, c: seq<ReminderId>)
    ensures (a + b) + c == a + (b + c)
  {
  }

  lemma AllAreOldest(w: World, v: World, now: Time)
    requires DueIds(v.rows, now) == {} && v.sends == w.sends + Ids(AllDue(w, now))
    ensures OldestFirst(w.rows, now, v.sends[|w.sends|..], v.rows)
  {
    RankedListsThem(w.rows, DueIds(w.rows, now));
    assert v.sends[|w.sends|..] == Ids(AllDue(w, now));
    assert forall id :: id in v.rows && v.rows[id].status.Pending? && v.rows[id].remindAt <= now ==>
                          id in DueIds(v.rows, now);
  }

  lemma DrainedThenDrained(w: World, u: World, v: World, now: Time, n: nat, ticks: nat)
    requires Drained(w, u, now, n) && AllDrained(u, v, now, ticks)
    requires |u.ended| == |w.ended| + 1 && u.ended[..|w.ended|] == w.ended && u.ended[|w.ended|].outcome == Committed
    ensures AllDrained(w, v, now, ticks + 1)
  {
    RowsDrainedTwice(w, u, v, now, n);
    SendsGrow(w.sends, u.sends, v.sends, AllDue(w, now), n);
    CommitsGrow(w.ended, u.ended, v.ended, ticks);
    AllAreOldest(w, v, now);
    hide Quiet, Ids, AllDue, DueIds, OnlyDueWereSent, MoreCommits, OldestFirst;
  }

  /** With one worker, every task present, commits succeeding and a fixed clock, n due reminders are all committed
      SENT after exactly ceil(n / limit) ticks, each notified once, over all in (`remind_at`, id) order, whatever
      the provider raises. */
  lemma {:induction false} DrainBound(w: World, worker: WorkerId, now: Time, limit: nat, raises: seq<bool>)
    requires limit > 0 && Quiet(w) && |raises| == |DueIds(w.rows, now)|
    ensures AllDrained(w, Run(w, Drain(worker, now, limit, raises)), now, TicksFor(|raises|, limit))
    decreases |raises|
  {
    hide WholeTick, AllDrained, Drained, Run, Quiet, OldestFirst, AllDue, DueIds, Drain, TicksFor;
    DrainUnfolds(worker, now, limit, raises);
    AllDueCounts(w, now);
    if raises == [] {
      NothingToDrain(w, now);
    } else {
      var n := Least(limit, |raises|);
      var tick, rest := WholeTick(worker, now, limit, raises[..n]), Drain(worker, now, limit, raises[n..]);
      TickAlone(w, worker, now, limit, raises[..n]);
      RunAppend(w, tick, rest);
      var u := Run(w, tick);
      StillDue(w, u, now, n);
      DrainBound(u, worker, now, limit, raises[n..]);
      DrainedThenDrained(w, u, Run(u, rest), now, n, TicksFor(|raises| - n, limit));
    }
  }

  lemma DrainUnfolds(worker: WorkerId, now: Time, limit: nat, raises: seq<bool>)
    requires limit > 0
    ensures var n := Least(limit, |raises|);
            if raises == [] then Drain(worker, now, limit, raises) == [] && TicksFor(|raises|, limit) == 0
            else && 0 < n <= |raises|
                 && Drain(worker, now, limit, raises)
                    == WholeTick(worker, now, limit, raises[..n]) + Drain(worker, now, limit, raises[n..])
                 && TicksFor(|raises|, limit) == TicksFor(|raises| - n, limit) + 1
  {
    hide WholeTick;
  }

  lemma AllDueCounts(w: World, now: Time)
    ensures |AllDue(w, now)| == |DueIds(w.rows, now)|
  {
  }

  lemma StillDue(w: World, u: World, now: Time, n: nat)
    requires Drained(w, u, now, n)
    ensures Quiet(u) && |DueIds(u.rows, now)| == |DueIds(w.rows, now)| - n
  {
    assert |AllDue(u, now)| == |AllDue(w, now)| - n;
  }

  lemma QuietWithoutTicks(before: seq<Action>)
    requires Run(EMPTY, before).ticks == map[]
    ensures Quiet(Run(EMPTY, before))
  {
    RunsAreSafe(EMPTY, before, 0);
    RunsKeepTasks(before);
    hide Run;
  }

  /** So it is after every run that leaves no tick open. */
  lemma EveryRunDrains(before: seq<Action>, worker: WorkerId, now: Time, limit: nat, raises: seq<bool>)
    requires limit > 0 && Run(EMPTY, before).ticks == map[] && |raises| == |DueIds(Run(EMPTY, before).rows, now)|
    ensures AllDrained(Run(EMPTY, before), Run(EMPTY, before + Drain(worker, now, limit, raises)), now,
              TicksFor(|raises|, limit))
  {
    QuietWithoutTicks(before);
    hide Run, AllDrained, Drain, Quiet, DueIds;
    RunAppend(EMPTY, before, Drain(worker, now, limit, raises));
    DrainBound(Run(EMPTY, before), worker, now, limit, raises);
  }
}
