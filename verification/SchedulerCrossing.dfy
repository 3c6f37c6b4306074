/** Exactly when two open ticks can bring each other to a standstill by their own statements: in terms of what each
    holds, and of the order in which it is to claim the rest. */
module SchedulerCrossing {
  import opened Wrappers
  import opened Reminders
  import opened SchedulerProtocol
  import opened SchedulerSafety
  import opened SchedulerDeadlock
  import opened SchedulerPaths
  import opened SchedulerCircles

  // ----- Two lists of rows to lock -----

  ghost predicate Apart(s: Side, o: Side) {
    && s.held !! o.held
    && (forall i :: 0 <= i < |s.path| ==> s.path[i] !in s.held)
    && (forall i, j :: 0 <= i < j < |s.path| ==> s.path[i] != s.path[j])
  }

  /** A row that `o` is still to claim and that `s` holds, or can claim before it comes to any other row that `o`
      holds or is still to claim. */
  ghost predicate Foothold(s: Side, o: Side, u: ReminderId) {
    && u in o.path
    && (u in s.held || exists j: nat :: IsFirstShared(s, o, j) && s.path[j] == u && u !in o.held)
  }

  ghost predicate IsFirstShared(s: Side, o: Side, j: nat) {
    j < |s.path| && forall i :: 0 <= i < j ==> s.path[i] !in o.held && s.path[i] !in o.path
  }

  /** Each has a foothold, and not the same one. */
  ghost predicate CanCross(s: Side, o: Side) {
    exists u, v :: u != v && Foothold(s, o, u) && Foothold(o, s, v)
  }

  // ----- A circle of two -----

  lemma {:induction false} FirstShared(s: Side, o: Side, i: nat) returns (j: nat)
    requires i < |s.path| && (s.path[i] in o.held || s.path[i] in o.path)
    ensures j <= i && IsFirstShared(s, o, j) && (s.path[j] in o.held || s.path[j] in o.path)
    decreases i
  {
    if k: nat :| k < i && (s.path[k] in o.held || s.path[k] in o.path) {
      j := FirstShared(s, o, k);
    } else {
      j := i;
    }
  }

  /** Who takes a row that the other is to claim, and none that the other holds, has a foothold. */
  lemma TakenGivesFoothold(s: Side, o: Side, c: nat, x: ReminderId) returns (u: ReminderId)
    requires c <= |s.path| && x in Taken(s, c) && x in o.path && Taken(s, c) !! o.held
    ensures Foothold(s, o, u) && u in Taken(s, c)
  {
    if x in s.held {
      u := x;
    } else {
      var i: nat :| i < c && s.path[..c][i] == x;
      var j := FirstShared(s, o, i);
      u := s.path[j];
      assert s.path[..c][j] == u;
    }
  }

  lemma ClosingCrosses(s: Side, o: Side)
    requires CanClose([s, o])
    ensures CanCross(s, o)
  {
    hide Foothold;
    var cuts :| Closes([s, o], cuts);
    var c, d := cuts[0], cuts[1];
    assert [s, o][0] == s && [s, o][1] == o && After(0, 2) == 1 && After(1, 2) == 0;
    assert Taken(s, c) !! Taken(o, d) && s.held <= Taken(s, c) && o.held <= Taken(o, d);
    var u := TakenGivesFoothold(s, o, c, o.path[d]);
    var v := TakenGivesFoothold(o, s, d, s.path[c]);
  }

  lemma {:induction false} FirstIn(path: seq<ReminderId>, rows: set<ReminderId>, p: nat) returns (c: nat)
    requires p < |path| && path[p] in rows
    ensures c <= p && path[c] in rows && forall i :: 0 <= i < c ==> path[i] !in rows
    decreases p
  {
    if k: nat :| k < p && path[k] in rows {
      c := FirstIn(path, rows, k);
    } else {
      c := p;
    }
  }

  lemma IsTaken(s: Side, c: nat, x: ReminderId)
    requires c <= |s.path|
    ensures x in Taken(s, c) <==> x in s.held || exists i :: 0 <= i < c && s.path[i] == x
  {
    forall i | 0 <= i < c ensures s.path[i] in s.path[..c] {
      assert s.path[..c][i] == s.path[i];
    }
  }

  /** The first c rows of the path bring `u`, and nothing else that the other holds or is still to claim. */
  ghost predicate BringsOnly(s: Side, o: Side, u: ReminderId, c: nat) {
    && c <= |s.path| && u in Taken(s, c)
    && forall i :: 0 <= i < c && (s.path[i] in o.held || s.path[i] in o.path) ==> s.path[i] == u
  }

  lemma ToTheFoothold(s: Side, o: Side, u: ReminderId) returns (c: nat)
    requires Foothold(s, o, u)
    ensures BringsOnly(s, o, u, c)
  {
    if u in s.held {
      c := 0;
    } else {
      var j: nat :| IsFirstShared(s, o, j) && s.path[j] == u && u !in o.held;
      c := j + 1;
      IsTaken(s, c, u);
    }
  }

  /** A side that comes to a row the other has taken on the way to its foothold has its own by then. */
  lemma HasItsFoothold(s: Side, o: Side, u: ReminderId, v: ReminderId, c: nat, d: nat)
    requires Foothold(s, o, u) && BringsOnly(o, s, v, d) && u != v && c < |s.path| && s.path[c] in Taken(o, d)
    ensures u in Taken(s, c)
  {
    IsTaken(o, d, s.path[c]);
    IsTaken(o, d, u);
    IsTaken(s, c, u);
    if u !in s.held {
      var j: nat :| IsFirstShared(s, o, j) && s.path[j] == u && u !in o.held;
      assert j <= c;
    }
  }

  /** The other goes to its foothold, this side as far as it can then, and the other as far as it can. */
  lemma CrossingCloses(s: Side, o: Side)
    requires Apart(s, o) && Apart(o, s) && CanCross(s, o)
    ensures CanClose([s, o])
  {
    var u, v :| u != v && Foothold(s, o, u) && Foothold(o, s, v);
    var b := ToTheFoothold(o, s, v);
    var q: nat :| q < |s.path| && s.path[q] == v;
    var c := FirstIn(s.path, Taken(o, b), q);
    HasItsFoothold(s, o, u, v, c, b);
    var p: nat :| p < |o.path| && o.path[p] == u;
    var d := FirstIn(o.path, Taken(s, c), p);
    CutsCross(s, o, v, b, c, d);
    hide Taken;
    assert After(0, 2) == 1 && After(1, 2) == 0;
    assert Closes([s, o], [c, d]);
  }

  lemma CutsCross(s: Side, o: Side, v: ReminderId, b: nat, c: nat, d: nat)
    requires Apart(s, o) && v in s.path && BringsOnly(o, s, v, b) && c < |s.path| && d < |o.path|
    requires s.path[c] in Taken(o, b) && forall i :: 0 <= i < c ==> s.path[i] !in Taken(o, b)
    requires o.path[d] in Taken(s, c) && forall i :: 0 <= i < d ==> o.path[i] !in Taken(s, c)
    ensures Taken(s, c) !! Taken(o, d) && s.path[c] in Taken(o, d)
  {
    forall x: ReminderId { IsTaken(s, c, x); }
    forall x { IsTaken(o, b, x); }
    forall x { IsTaken(o, d, x); }
    hide Taken;
    assert v !in Taken(s, c);
    assert b <= d;
  }

  /** For two sides apart, footholds are what the cuts of a circle come to. */
  lemma CrossingIsClosing(s: Side, o: Side)
    requires Apart(s, o) && Apart(o, s)
    ensures CanCross(s, o) <==> CanClose([s, o])
  {
    hide CanCross, CanClose, Apart;
    if CanCross(s, o) { CrossingCloses(s, o); }
    if CanClose([s, o]) { ClosingCrosses(s, o); }
  }

  /** Two workers that hold nothing the other wants, and come to the same row first, keep each other out: whoever has
      that row goes through. */
  lemma OneGateIsEnough(s: Side, o: Side, i: nat, j: nat)
    requires Apart(s, o) && Apart(o, s) && i < |s.path| && j < |o.path| && s.path[i] == o.path[j]
    requires IsFirstShared(s, o, i) && IsFirstShared(o, s, j)
    requires (forall x :: x in s.held ==> x !in o.path) && (forall x :: x in o.held ==> x !in s.path)
    ensures !CanCross(s, o)
  {
    forall u | Foothold(s, o, u) ensures u == s.path[i] {
      var k: nat :| IsFirstShared(s, o, k) && s.path[k] == u && u !in o.held;
      assert !(k < i) && !(i < k);
    }
    forall v | Foothold(o, s, v) ensures v == o.path[j] {
      var k: nat :| IsFirstShared(o, s, k) && o.path[k] == v && v !in s.held;
      assert !(k < j) && !(j < k);
    }
  }

  lemma OneSharedRow(x: ReminderId, y: ReminderId, z: ReminderId)
    requires x != y && y != z && z != x
    ensures !CanCross(Side({}, [x, y]), Side({}, [y, z]))
  {
    hide CanCross, Foothold;
    OneGateIsEnough(Side({}, [x, y]), Side({}, [y, z]), 1, 0);
  }

  lemma ThreeClose(x: ReminderId, y: ReminderId, z: ReminderId)
    requires x != y && y != z && z != x
    ensures CanClose([Side({}, [x, y]), Side({}, [y, z]), Side({}, [z, x])])
  {
    var sides := [Side({}, [x, y]), Side({}, [y, z]), Side({}, [z, x])];
    OneIsTaken(x, y);
    OneIsTaken(y, z);
    OneIsTaken(z, x);
    hide Taken;
    assert After(0, 3) == 1 && After(1, 3) == 2 && After(2, 3) == 0;
    assert Closes(sides, [1, 1, 1]);
  }

  lemma OneIsTaken(x: ReminderId, y: ReminderId)
    ensures Taken(Side({}, [x, y]), 1) == {x}
  {
    assert [x, y][..1] == [x];
  }

  /** Three can stand still although no two of them can. */
  lemma ThreeWithoutTwo(x: ReminderId, y: ReminderId, z: ReminderId)
    requires x != y && y != z && z != x
    ensures var a, b, c := Side({}, [x, y]), Side({}, [y, z]), Side({}, [z, x]);
            !CanCross(a, b) && !CanCross(b, c) && !CanCross(c, a) && CanClose([a, b, c])
  {
    hide *;
    OneSharedRow(x, y, z);
    OneSharedRow(y, z, x);
    OneSharedRow(z, x, y);
    ThreeClose(x, y, z);
  }

  // ----- Two open ticks -----

  lemma SidesAreApart(w: World, a: WorkerId, b: WorkerId, team: set<WorkerId>)
    requires Structure(w) && a in w.ticks && b in w.ticks && a != b
    ensures Apart(SideOf(w, a, team), SideOf(w, b, team))
  {
    HeldApart(w, a, b);
    var t := w.ticks[a];
    hide PathFrom, TickShape, WritesClaim, LocksAreWrites;
    forall p | 0 <= p < |PathFrom(w, t, team, t.i)| ensures PathFrom(w, t, team, t.i)[p] !in t.writes {
      PathIsNotHeld(w, t, team, p);
    }
    forall p, q | 0 <= p < q < |PathFrom(w, t, team, t.i)|
      ensures PathFrom(w, t, team, t.i)[p] != PathFrom(w, t, team, t.i)[q]
    {
      PathIsDistinct(w, t, team, p, q);
    }
  }

  ghost predicate Crossed(w: World, a: WorkerId, b: WorkerId) {
    WaitsFor(w, a, b) && WaitsFor(w, b, a)
  }

  ghost predicate CanDeadlock(actions: seq<Action>, a: WorkerId, b: WorkerId) {
    exists s :: AreOwn(s, {a, b}) && Crossed(Run(EMPTY, actions + s), a, b)
  }

  lemma TwoAreACircle(w: World, a: WorkerId, b: WorkerId)
    ensures Members([a, b]) == {a, b} && (Standstill(w, [a, b]) <==> Crossed(w, a, b))
    ensures a in w.ticks && b in w.ticks ==> SidesOf(w, [a, b]) == [SideOf(w, a, {a, b}), SideOf(w, b, {a, b})]
  {
    var circle := [a, b];
    hide SideOf, WaitsFor;
    assert circle[0] == a && circle[1] == b && After(0, 2) == 1 && After(1, 2) == 0;
    assert Members(circle) == {a, b};
  }

  lemma DeadlockIsStandstill(actions: seq<Action>, a: WorkerId, b: WorkerId)
    ensures CanDeadlock(actions, a, b) <==> CanStandStill(actions, [a, b])
  {
    hide Run, Standstill, Crossed, Members;
    forall s: seq<Action>
      ensures Members([a, b]) == {a, b}
      ensures Standstill(Run(EMPTY, actions + s), [a, b]) <==> Crossed(Run(EMPTY, actions + s), a, b)
    {
      TwoAreACircle(Run(EMPTY, actions + s), a, b);
    }
  }

  // ----- Theorems -----

  /** Whatever the run was: two open ticks can go on, by statements of their own, to wait for each other if and only if
      each has a foothold among the rows the other is still to claim, and not both the same row. */
  lemma DeadlocksExactlyWhenCrossing(actions: seq<Action>, a: WorkerId, b: WorkerId)
    requires a != b && a in Run(EMPTY, actions).ticks && b in Run(EMPTY, actions).ticks
    ensures var w := Run(EMPTY, actions);
            CanDeadlock(actions, a, b) <==> CanCross(SideOf(w, a, {a, b}), SideOf(w, b, {a, b}))
  {
    hide Run, Safe, Structure, CanCross, SideOf, CanDeadlock, CanStandStill;
    var w := Run(EMPTY, actions);
    ReachedIsSafe(actions);
    SafeIsStructure(w);
    DeadlockIsStandstill(actions, a, b);
    StandStillExactlyWhenClosing(actions, [a, b]);
    TwoAreACircle(w, a, b);
    SidesAreApart(w, a, b, {a, b});
    SidesAreApart(w, b, a, {a, b});
    CrossingIsClosing(SideOf(w, a, {a, b}), SideOf(w, b, {a, b}));
  }

  // ----- Which reads lead there -----

  /** The tick was just opened, and `due[j]` can be claimed. */
  ghost predicate CanStillClaim(w: World, t: Tick, j: nat) {
    j < |t.due| && t.due[j].row.taskId in w.tasks && Claimable(w, t.due[j].id, t.now)
  }

  lemma {:induction false} ClaimableIsOnPath(w: World, t: Tick, team: set<WorkerId>, j: nat, q: nat)
    requires t.phase.Resolving? && t.i <= j <= q && CanStillClaim(w, t, q) && w.locks == map[]
    ensures t.due[q].id in PathFrom(w, t, team, j)
    ensures j == q ==> PathFrom(w, t, team, j)[0] == t.due[q].id
    decreases q - j
  {
    if j < q { ClaimableIsOnPath(w, t, team, j + 1, q); }
  }

  /** Two fresh ticks can deadlock when each begins with a row that the other lists further on, all four still to be
      claimed: so it is enough to move the first reminder behind another between the two reads. */
  lemma DifferentFirstsCanDeadlock(actions: seq<Action>, a: WorkerId, b: WorkerId, i: nat, j: nat)
    requires var w := Run(EMPTY, actions);
             && a != b && a in w.ticks && b in w.ticks && w.locks == map[]
             && w.ticks[a].phase.Resolving? && w.ticks[a].i == 0 && w.ticks[b].phase.Resolving? && w.ticks[b].i == 0
             && CanStillClaim(w, w.ticks[a], 0) && CanStillClaim(w, w.ticks[a], i)
             && CanStillClaim(w, w.ticks[b], 0) && CanStillClaim(w, w.ticks[b], j)
             && w.ticks[a].due[0].id == w.ticks[b].due[j].id && w.ticks[b].due[0].id == w.ticks[a].due[i].id
             && w.ticks[a].due[0].id != w.ticks[b].due[0].id
    ensures CanDeadlock(actions, a, b)
  {
    DeadlocksExactlyWhenCrossing(actions, a, b);
    RunsAreSafe(EMPTY, actions, 0);
    hide Run;
    var w := Run(EMPTY, actions);
    FreshHoldsNothing(w, a);
    FreshHoldsNothing(w, b);
    hide Safe, CanDeadlock, Claimable;
    ClaimableIsOnPath(w, w.ticks[a], {a, b}, 0, 0);
    ClaimableIsOnPath(w, w.ticks[a], {a, b}, 0, i);
    ClaimableIsOnPath(w, w.ticks[b], {a, b}, 0, 0);
    ClaimableIsOnPath(w, w.ticks[b], {a, b}, 0, j);
    FirstsAreFootholds(SideOf(w, a, {a, b}), SideOf(w, b, {a, b}));
  }

  lemma FreshHoldsNothing(w: World, k: WorkerId)
    requires Structure(w) && k in w.ticks && w.locks == map[]
    ensures w.ticks[k].writes == map[]
  {
    hide TickShape, WritesClaim;
  }

  lemma FirstsAreFootholds(s: Side, o: Side)
    requires s.held == {} && o.held == {} && s.path != [] && o.path != []
    requires s.path[0] in o.path && o.path[0] in s.path && s.path[0] != o.path[0]
    ensures CanCross(s, o)
  {
    assert IsFirstShared(s, o, 0) && IsFirstShared(o, s, 0);
    assert Foothold(s, o, s.path[0]) && Foothold(o, s, o.path[0]);
  }

  /** Disagreeing lists alone are not enough: two ticks that have claimed nothing and have the same row to claim first
      keep each other out, whatever the order of the rest. */
  lemma SameFirstCannotDeadlock(actions: seq<Action>, a: WorkerId, b: WorkerId)
    requires var w := Run(EMPTY, actions);
             && a != b && a in w.ticks && b in w.ticks && w.locks == map[]
             && SideOf(w, a, {a, b}).path != [] && SideOf(w, b, {a, b}).path != [] &&
                 SideOf(w, a, {a, b}).path[0] == SideOf(w, b, {a, b}).path[0]
    ensures !CanDeadlock(actions, a, b)
  {
    DeadlocksExactlyWhenCrossing(actions, a, b);
    RunsAreSafe(EMPTY, actions, 0);
    hide Run;
    var w := Run(EMPTY, actions);
    FreshHoldsNothing(w, a);
    FreshHoldsNothing(w, b);
    SidesAreApart(w, a, b, {a, b});
    SidesAreApart(w, b, a, {a, b});
    hide Safe, CanDeadlock, PathFrom, CanCross, Apart;
    OneGateIsEnough(SideOf(w, a, {a, b}), SideOf(w, b, {a, b}), 0, 0);
  }

  // ----- A run that gets there -----

  const TWO_REMINDERS: World :=
    EMPTY.(rows := map[1 := Reminder(0, 1, Pending, 0), 2 := Reminder(0, 2, Pending, 0)],
           tasks := map[0 := 100], used := {1, 2})

  const MOVED: Table := map[1 := Reminder(0, 3, Pending, 4), 2 := Reminder(0, 2, Pending, 0)]

  const CREATION: seq<Action> := [PutTask(0, 100), CreateReminder(1, 0, 1, 0), CreateReminder(2, 0, 2, 0)]

  /** Worker 7 reads reminders 1 and 2 in that order, then reminder 1 is moved behind reminder 2, then worker 8
      reads them in the other order. */
  const TWO_READS: seq<Action> := [Begin(7, 10, 5), UpdateReminder(1, Some(3), None, 4), Begin(8, 10, 5)]

  lemma TwoRemindersAreReachable()
    ensures TWO_REMINDERS == Run(EMPTY, CREATION)
  {
    RunThree(EMPTY, [], CREATION[0], CREATION[1], CREATION[2]);
    assert [] + CREATION == CREATION && CREATION == [CREATION[0], CREATION[1], CREATION[2]];
    assert {} + {1} + {2} == {1, 2};
  }

  lemma OpenFirst()
    ensures Next(TWO_REMINDERS, Begin(7, 10, 5))
         == TWO_REMINDERS.(ticks := map[7 := FreshTick(TWO_REMINDERS.rows, 10, 5)])
  {
    hide FreshTick;
  }

  lemma Move(t: Tick)
    ensures Next(TWO_REMINDERS.(ticks := map[7 := t]), UpdateReminder(1, Some(3), None, 4))
         == TWO_REMINDERS.(ticks := map[7 := t], rows := MOVED)
  {
    assert TWO_REMINDERS.rows[1 := Reminder(0, 3, Pending, 4)] == MOVED;
  }

  lemma OpenSecond(t: Tick)
    ensures Next(TWO_REMINDERS.(ticks := map[7 := t], rows := MOVED), Begin(8, 10, 5))
         == TWO_REMINDERS.(ticks := map[7 := t, 8 := FreshTick(MOVED, 10, 5)], rows := MOVED)
  {
    hide FreshTick;
  }

  lemma OpenBoth()
    ensures Run(TWO_REMINDERS, TWO_READS)
         == TWO_REMINDERS.(ticks := map[7 := FreshTick(TWO_REMINDERS.rows, 10, 5), 8 := FreshTick(MOVED, 10, 5)],
             rows := MOVED)
  {
    RunThree(TWO_REMINDERS, [], TWO_READS[0], TWO_READS[1], TWO_READS[2]);
    assert [] + TWO_READS == TWO_READS && TWO_READS == [TWO_READS[0], TWO_READS[1], TWO_READS[2]];
    assert Run(TWO_REMINDERS, []) == TWO_REMINDERS;
    hide *;
    var t := FreshTick(TWO_REMINDERS.rows, 10, 5);
    OpenFirst();
    Move(t);
    OpenSecond(t);
  }

  lemma TwoAreDue(rows: Table, a: ReminderId, b: ReminderId)
    requires rows.Keys == {a, b} && a != b && IsDue(rows[a], 10) && IsDue(rows[b], 10)
    requires rows[a].remindAt < rows[b].remindAt
    ensures FindDue(rows, 10, 5) == [Loaded(a, rows[a]), Loaded(b, rows[b])]
  {
    hide FindDue;
    var due := FindDue(rows, 10, 5);
    assert DueIds(rows, 10) == {a, b};
    FindDueCounts(rows, 10, 5);
    hide DueIds;
    assert |due| == 2;
    assert due[0].id in {a, b} && due[1].id in {a, b};
  }

  lemma BothWaysRead()
    ensures var w := Run(EMPTY, CREATION + TWO_READS);
            && w.rows == MOVED && w.tasks == map[0 := 100] && w.locks == map[]
            && w.ticks == map[7 := FreshTick(TWO_REMINDERS.rows, 10, 5), 8 := FreshTick(MOVED, 10, 5)]
  {
    TwoRemindersAreReachable();
    hide Run, FreshTick;
    RunAppend(EMPTY, CREATION, TWO_READS);
    OpenBoth();
  }

  lemma BothListBoth()
    ensures FreshTick(TWO_REMINDERS.rows, 10, 5).due
         == [Loaded(1, TWO_REMINDERS.rows[1]), Loaded(2, TWO_REMINDERS.rows[2])]
    ensures FreshTick(MOVED, 10, 5).due == [Loaded(2, MOVED[2]), Loaded(1, MOVED[1])]
  {
    hide FindDue;
    TwoAreDue(TWO_REMINDERS.rows, 1, 2);
    TwoAreDue(MOVED, 2, 1);
  }

  /** The premise of `NoWaitCycle` is needed: a moved time can make two workers wait for each other. */
  lemma MovingATimeCanDeadlock()
    ensures CanDeadlock(CREATION + TWO_READS, 7, 8)
  {
    BothListBoth();
    FreshTicksBegin(TWO_REMINDERS.rows, 10, 5);
    FreshTicksBegin(MOVED, 10, 5);
    hide Run, FindDue, CanDeadlock, FreshTick;
    BothWaysRead();
    DifferentFirstsCanDeadlock(CREATION + TWO_READS, 7, 8, 1, 1);
  }

  lemma FreshTicksBegin(rows: Table, now: Time, limit: nat)
    ensures var t := FreshTick(rows, now, limit); t.phase.Resolving? && t.i == 0 && t.now == now
  {
    hide FindDue;
  }
}
