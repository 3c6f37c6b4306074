/** Exactly when open ticks, in any number, can bring each other to a standstill by their own statements. */
module SchedulerCircles {
  import opened Reminders
  import opened SchedulerProtocol
  import opened SchedulerSafety
  import opened SchedulerDeadlock
  import opened SchedulerPaths

  // ----- Lists of rows to lock -----

  /** The next place in a circle of n. */
  function After(i: nat, n: nat): (j: nat)
    requires i < n
    ensures j < n
  {
    if i + 1 < n then i + 1 else 0
  }

  /** The rows held after c of the rows of the path have been taken. */
  function Taken(s: Side, c: nat): set<ReminderId>
    requires c <= |s.path|
  {
    s.held + set x | x in s.path[..c]
  }

  /** Each cut goes short of the end of its path. */
  ghost predicate AreCuts(sides: seq<Side>, cuts: seq<nat>) {
    |cuts| == |sides| && forall i :: 0 <= i < |sides| ==> cuts[i] < |sides[i].path|
  }

  /** Up to the cuts no two sides take the same row, and each goes on with a row that the next one has taken. */
  ghost predicate Closes(sides: seq<Side>, cuts: seq<nat>) {
    && AreCuts(sides, cuts)
    && (forall i, j :: 0 <= i < j < |sides| ==> Taken(sides[i], cuts[i]) !! Taken(sides[j], cuts[j]))
    && (forall i :: 0 <= i < |sides| ==>
          sides[i].path[cuts[i]] in Taken(sides[After(i, |sides|)], cuts[After(i, |sides|)]))
  }

  ghost predicate CanClose(sides: seq<Side>) {
    exists cuts :: Closes(sides, cuts)
  }

  lemma MovedTaken(s: Side, c: nat)
    requires c < |s.path| && s.path != []
    ensures c > 0 ==> Taken(Moved(s), c - 1) == Taken(s, c) && Moved(s).path[c - 1] == s.path[c]
  {
    if c > 0 { assert s.path[..c] == [s.path[0]] + Moved(s).path[..c - 1]; }
  }

  /** The same rows are taken up to the cuts, and the same rows come next. */
  lemma SameCutsClose(sides: seq<Side>, cuts: seq<nat>, other: seq<Side>, otherCuts: seq<nat>)
    requires Closes(sides, cuts) && |other| == |sides| && AreCuts(other, otherCuts)
    requires forall i :: 0 <= i < |sides| ==>
               && Taken(other[i], otherCuts[i]) == Taken(sides[i], cuts[i])
               && other[i].path[otherCuts[i]] == sides[i].path[cuts[i]]
    ensures Closes(other, otherCuts)
  {
    hide Taken;
  }

  lemma MoveBackClosesAt(sides: seq<Side>, i: nat, cuts: seq<nat>)
    requires i < |sides| && sides[i].path != [] && Closes(sides[i := Moved(sides[i])], cuts)
    ensures i < |cuts| && Closes(sides, cuts[i := cuts[i] + 1])
  {
    hide Closes, Taken;
    var after := sides[i := Moved(sides[i])];
    CutsOf(after, cuts);
    MovedTaken(sides[i], cuts[i] + 1);
    SameCutsClose(after, cuts, sides, cuts[i := cuts[i] + 1]);
  }

  lemma MoveBackCloses(sides: seq<Side>, i: nat)
    requires i < |sides| && sides[i].path != [] && CanClose(sides[i := Moved(sides[i])])
    ensures CanClose(sides)
  {
    hide Closes;
    var cuts :| Closes(sides[i := Moved(sides[i])], cuts);
    MoveBackClosesAt(sides, i, cuts);
  }

  lemma CutsOf(sides: seq<Side>, cuts: seq<nat>)
    requires Closes(sides, cuts)
    ensures AreCuts(sides, cuts)
  {
  }

  lemma MoveCloses(sides: seq<Side>, cuts: seq<nat>, i: nat)
    requires Closes(sides, cuts) && i < |sides| && cuts[i] > 0
    ensures sides[i].path != [] && CanClose(sides[i := Moved(sides[i])])
  {
    CutsOf(sides, cuts);
    MovedTaken(sides[i], cuts[i]);
    hide Closes, Taken;
    SameCutsClose(sides, cuts, sides[i := Moved(sides[i])], cuts[i := cuts[i] - 1]);
  }

  // ----- Circles of open ticks -----

  /** Different workers with open ticks, in an order. */
  ghost predicate IsCircle(w: World, circle: seq<WorkerId>) {
    && circle != []
    && (forall i, j :: 0 <= i < j < |circle| ==> circle[i] != circle[j])
    && forall k :: k in circle ==> k in w.ticks
  }

  function Members(circle: seq<WorkerId>): set<WorkerId> {
    set k | k in circle
  }

  function SidesOf(w: World, circle: seq<WorkerId>): (sides: seq<Side>)
    requires forall k :: k in circle ==> k in w.ticks
    ensures |sides| == |circle| && forall i :: 0 <= i < |circle| ==> sides[i] == SideOf(w, circle[i], Members(circle))
  {
    seq(|circle|, i requires 0 <= i < |circle| && circle[i] in w.ticks => SideOf(w, circle[i], Members(circle)))
  }

  /** Everyone waits for the next one. */
  ghost predicate Standstill(w: World, circle: seq<WorkerId>) {
    forall i :: 0 <= i < |circle| ==> WaitsFor(w, circle[i], circle[After(i, |circle|)])
  }

  ghost predicate CircleCanClose(w: World, circle: seq<WorkerId>) {
    IsCircle(w, circle) && CanClose(SidesOf(w, circle))
  }

  lemma SideIs(w: World, circle: seq<WorkerId>, i: nat)
    requires IsCircle(w, circle) && i < |circle|
    ensures circle[i] in w.ticks && SidesOf(w, circle)[i] == SideOf(w, circle[i], Members(circle))
    ensures circle[i] in Members(circle)
  {
  }

  // ----- From the end of a run back to its start -----

  /** Who waits for a member of the circle has not come to the end of its path. */
  lemma WaitsForNext(w: World, circle: seq<WorkerId>, i: nat, j: nat)
    requires Structure(w) && IsCircle(w, circle) && i < |circle| && j < |circle| && WaitsFor(w, circle[i], circle[j])
    ensures var s := SideOf(w, circle[i], Members(circle));
            s.path != [] && s.path[0] in w.ticks[circle[j]].writes
  {
    BlockedPath(w, circle[i], Members(circle));
    HolderHasWritten(w, Wanted(w, circle[i]).id);
    hide Structure, SideOf;
  }

  lemma StandstillIsCircle(w: World, circle: seq<WorkerId>)
    requires Standstill(w, circle) && circle != []
    requires forall i, j :: 0 <= i < j < |circle| ==> circle[i] != circle[j]
    ensures IsCircle(w, circle)
  {
    forall i | 0 <= i < |circle| ensures circle[i] in w.ticks {
      assert WaitsFor(w, circle[i], circle[After(i, |circle|)]);
    }
  }

  /** Cut at their starts. */
  lemma ClosesAtOnce(sides: seq<Side>)
    requires forall i, j :: 0 <= i < j < |sides| ==> sides[i].held !! sides[j].held
    requires forall i :: 0 <= i < |sides| ==>
               sides[i].path != [] && sides[i].path[0] in sides[After(i, |sides|)].held
    ensures CanClose(sides)
  {
    var cuts: seq<nat> := seq(|sides|, _ => 0);
    forall i | 0 <= i < |sides| ensures Taken(sides[i], cuts[i]) == sides[i].held {
    }
    hide Taken;
    assert Closes(sides, cuts);
  }

  lemma StandstillCloses(w: World, circle: seq<WorkerId>)
    requires Structure(w) && IsCircle(w, circle) && Standstill(w, circle)
    ensures CircleCanClose(w, circle)
  {
    hide Structure, Standstill, PathFrom, WaitsFor, CanClose;
    var n, sides := |circle|, SidesOf(w, circle);
    forall i | 0 <= i < n ensures sides[i].path != [] && sides[i].path[0] in sides[After(i, n)].held {
      StandsStill(w, circle, i);
      WaitsForNext(w, circle, i, After(i, n));
    }
    forall i, j | 0 <= i < j < n ensures sides[i].held !! sides[j].held {
      HeldApart(w, circle[i], circle[j]);
    }
    ClosesAtOnce(sides);
  }

  lemma StandsStill(w: World, circle: seq<WorkerId>, i: nat)
    requires Standstill(w, circle) && i < |circle|
    ensures WaitsFor(w, circle[i], circle[After(i, |circle|)])
  {
  }

  /** The sides of the circle when only one of them, or none, has moved. */
  lemma OneSideChanged(w: World, v: World, circle: seq<WorkerId>, i: nat)
    requires IsCircle(w, circle) && IsCircle(v, circle) && i < |circle|
    requires StaysOrMoves(w, SideOf(w, circle[i], Members(circle)), SideOf(v, circle[i], Members(circle)))
    requires forall other :: other in w.ticks && other in v.ticks && other != circle[i] ==>
               SideOf(v, other, Members(circle)) == SideOf(w, other, Members(circle))
    ensures var sides := SidesOf(w, circle);
            || SidesOf(v, circle) == sides
            || (sides[i].path != [] && sides[i].path[0] !in w.locks &&
                SidesOf(v, circle) == sides[i := Moved(sides[i])])
  {
    hide SideOf, Members, SidesOf;
    var before, after := SidesOf(w, circle), SidesOf(v, circle);
    assert forall j :: 0 <= j < |circle| && j != i ==> after[j] == before[j];
    assert after == before[i := after[i]];
    if after[i] == before[i] { assert after == before; }
  }

  lemma StepBack(w: World, x: Action, circle: seq<WorkerId>)
    requires Structure(w) && IsOwn(x, Members(circle)) && CircleCanClose(Next(w, x), circle)
    ensures CircleCanClose(w, circle)
  {
    var v := Next(w, x);
    hide Structure, SideOf, CanClose, Next;
    forall k | k in circle ensures k in w.ticks { OpenAfterwards(w, x, k); }
    var i: nat :| i < |circle| && circle[i] == x.worker;
    hide Members;
    SideIs(w, circle, i);
    StatementMoves(w, x, x.worker, Members(circle));
    OneSideChanged(w, v, circle, i);
    hide SidesOf;
    if SidesOf(v, circle) != SidesOf(w, circle) { MoveBackCloses(SidesOf(w, circle), i); }
  }

  ghost predicate AreOwn(s: seq<Action>, team: set<WorkerId>) {
    forall x :: x in s ==> IsOwn(x, team)
  }

  lemma {:induction false} RunBack(w: World, s: seq<Action>, circle: seq<WorkerId>)
    requires Safe(w, 0) && AreOwn(s, Members(circle)) && CircleCanClose(Run(w, s), circle)
    ensures CircleCanClose(w, circle)
    decreases |s|
  {
    hide CircleCanClose, IsOwn, Members;
    if s != [] {
      var front, last := s[..|s| - 1], s[|s| - 1];
      assert last in s && forall x :: x in front ==> x in s;
      RunsAreSafe(w, front, 0);
      StepBack(Run(w, front), last, circle);
      RunBack(w, front, circle);
    }
  }

  // ----- From the start of a run to a standstill -----

  /** A row taken up to a cut is held, or comes first on the way there. */
  lemma FirstIsTaken(s: Side, c: nat)
    requires c < |s.path|
    ensures if c == 0 then Taken(s, c) == s.held else s.path[0] in Taken(s, c) && s.held <= Taken(s, c)
  {
    if c > 0 { assert s.path[..c][0] == s.path[0]; }
  }

  lemma NotYetHeld(sides: seq<Side>, cuts: seq<nat>, i: nat, j: nat)
    requires Closes(sides, cuts) && i < |sides| && j < |sides| && i != j && cuts[i] > 0
    ensures sides[i].path != [] && sides[i].path[0] !in sides[j].held
  {
    CutsOf(sides, cuts);
    FirstIsTaken(sides[i], cuts[i]);
    FirstIsTaken(sides[j], cuts[j]);
    hide Taken;
    var a, b := if i < j then i else j, if i < j then j else i;
    assert Taken(sides[a], cuts[a]) !! Taken(sides[b], cuts[b]);
  }

  /** A blocked tick short of the end of its path waits for a member of the circle, which holds its next row. */
  lemma BlockedByMember(w: World, circle: seq<WorkerId>, i: nat) returns (j: nat)
    requires Structure(w) && IsCircle(w, circle) && i < |circle| && Blocked(w, circle[i])
    requires SideOf(w, circle[i], Members(circle)).path != []
    ensures j < |circle| && j != i && WaitsFor(w, circle[i], circle[j])
    ensures Wanted(w, circle[i]).id == SideOf(w, circle[i], Members(circle)).path[0]
    ensures SideOf(w, circle[i], Members(circle)).path[0] in SideOf(w, circle[j], Members(circle)).held
  {
    var k := circle[i];
    BlockedPath(w, k, Members(circle));
    var holder := w.locks[Wanted(w, k).id];
    assert holder in circle;
    j :| 0 <= j < |circle| && circle[j] == holder;
    HolderHasWritten(w, Wanted(w, k).id);
    PathIsNotHeld(w, w.ticks[k], Members(circle), 0);
    hide Structure, PathFrom;
  }

  /** Someone who can go on, and takes nothing at its cut: or else everyone waits for the next one. */
  lemma Mover(w: World, circle: seq<WorkerId>, cuts: seq<nat>) returns (i: nat)
    requires Structure(w) && IsCircle(w, circle) && Closes(SidesOf(w, circle), cuts) && !Standstill(w, circle)
    ensures i < |circle| && !Blocked(w, circle[i])
    ensures var s := SidesOf(w, circle)[i]; s.path != [] && (cuts[i] == 0 ==> s.path[0] in w.locks)
  {
    var n, sides := |circle|, SidesOf(w, circle);
    CutsOf(sides, cuts);
    if some: nat :| some < n && cuts[some] > 0 {
      i := some;
      hide Closes, SideOf, Standstill, Blocked, Structure;
      if Blocked(w, circle[i]) {
        var j := BlockedByMember(w, circle, i);
        NotYetHeld(sides, cuts, i, j);
      }
    } else {
      forall j: nat | j < n ensures sides[j].path[0] in sides[After(j, n)].held {
        FirstIsTaken(sides[After(j, n)], cuts[After(j, n)]);
      }
      hide Closes, PathFrom, Structure, Blocked, WaitsFor;
      i :| 0 <= i < n && !WaitsFor(w, circle[i], circle[After(i, n)]);
      HeldIsLocked(w, circle[After(i, n)], sides[i].path[0]);
      if Blocked(w, circle[i]) {
        WaitsForHolder(w, circle, i, After(i, n));
      }
    }
  }

  lemma HeldIsLocked(w: World, k: WorkerId, id: ReminderId)
    requires Structure(w) && k in w.ticks && id in w.ticks[k].writes
    ensures id in w.locks && w.locks[id] == k
  {
    hide TickShape, WritesClaim;
  }

  lemma WaitsForHolder(w: World, circle: seq<WorkerId>, i: nat, j: nat)
    requires Structure(w) && IsCircle(w, circle) && i < |circle| && j < |circle| && Blocked(w, circle[i])
    requires var path := SideOf(w, circle[i], Members(circle)).path;
             path != [] && path[0] in SideOf(w, circle[j], Members(circle)).held
    ensures WaitsFor(w, circle[i], circle[j])
  {
    var h := BlockedByMember(w, circle, i);
    hide Structure, PathFrom, Blocked;
    HeldIsLocked(w, circle[j], SideOf(w, circle[i], Members(circle)).path[0]);
  }

  /** The statements the ticks of the circle have left. */
  ghost function AllLeft(w: World, circle: seq<WorkerId>): nat {
    if circle == [] then 0
    else
      var k := circle[|circle| - 1];
      AllLeft(w, circle[..|circle| - 1]) + if k in w.ticks then Left(w.ticks[k]) else 0
  }

  lemma {:induction false} LessIsLeft(w: World, v: World, circle: seq<WorkerId>, k: WorkerId)
    requires k in w.ticks && k in v.ticks && v.ticks == w.ticks[k := v.ticks[k]] && Left(v.ticks[k]) < Left(w.ticks[k])
    ensures if k in circle then AllLeft(v, circle) < AllLeft(w, circle) else AllLeft(v, circle) == AllLeft(w, circle)
  {
    hide Left;
    if circle != [] { LessIsLeft(w, v, circle[..|circle| - 1], k); }
  }

  lemma StepOnAt(w: World, circle: seq<WorkerId>, cuts: seq<nat>) returns (k: WorkerId)
    requires Structure(w) && w.rows.Keys <= w.used && IsCircle(w, circle) && Closes(SidesOf(w, circle), cuts)
    requires !Standstill(w, circle)
    ensures k in w.ticks && IsOwn(Upcoming(w, k), Members(circle))
    ensures var v := Next(w, Upcoming(w, k));
            CircleCanClose(v, circle) && AllLeft(v, circle) < AllLeft(w, circle)
  {
    hide Structure, Closes, SideOf, Next, Upcoming, Blocked, Standstill, Left, AllLeft, IsApi, Members, SidesOf;
    var i := Mover(w, circle, cuts);
    k := circle[i];
    var sides, v := SidesOf(w, circle), Next(w, Upcoming(w, k));
    SideIs(w, circle, i);
    UpcomingIsOwn(w, k);
    UpcomingMoves(w, k, Members(circle));
    LessIsLeft(w, v, circle, k);
    OneSideChanged(w, v, circle, i);
    CutsOf(sides, cuts);
    if SidesOf(v, circle) == sides {
      assert Closes(SidesOf(v, circle), cuts);
    } else {
      MoveCloses(sides, cuts, i);
    }
  }

  lemma StepOn(w: World, circle: seq<WorkerId>) returns (k: WorkerId)
    requires Safe(w, 0) && CircleCanClose(w, circle) && !Standstill(w, circle)
    ensures k in w.ticks && IsOwn(Upcoming(w, k), Members(circle))
    ensures var v := Next(w, Upcoming(w, k));
            Safe(v, 0) && CircleCanClose(v, circle) && AllLeft(v, circle) < AllLeft(w, circle)
  {
    hide Safe, Structure, Closes, Next, Upcoming, Standstill, AllLeft, IsApi, Members, SidesOf;
    SafeIsStructure(w);
    var cuts :| Closes(SidesOf(w, circle), cuts);
    k := StepOnAt(w, circle, cuts);
    NextKeepsSafe(w, Upcoming(w, k), 0);
  }

  lemma {:induction false} ReachStandstill(w: World, circle: seq<WorkerId>) returns (s: seq<Action>)
    requires Safe(w, 0) && CircleCanClose(w, circle)
    ensures AreOwn(s, Members(circle)) && Standstill(Run(w, s), circle)
    decreases AllLeft(w, circle)
  {
    hide Safe, CircleCanClose, Next, Upcoming, Standstill, IsOwn, Members;
    if Standstill(w, circle) {
      s := [];
    } else {
      var k := StepOn(w, circle);
      var x := Upcoming(w, k);
      var rest := ReachStandstill(Next(w, x), circle);
      s := [x] + rest;
      RunAppend(w, [x], rest);
      RunOne(w, x);
    }
  }

  // ----- Theorems -----

  ghost predicate CanStandStill(actions: seq<Action>, circle: seq<WorkerId>) {
    exists s :: AreOwn(s, Members(circle)) && Standstill(Run(EMPTY, actions + s), circle)
  }

  /** Whatever the run was: open ticks can go on, by statements of their own, until each waits for the next one around
      the circle, if and only if their paths can be cut so that up to the cuts no two of them take the same row, and
      each goes on with a row that the next one has taken. */
  lemma StandStillExactlyWhenClosing(actions: seq<Action>, circle: seq<WorkerId>)
    requires IsCircle(Run(EMPTY, actions), circle)
    ensures CanStandStill(actions, circle) <==> CanClose(SidesOf(Run(EMPTY, actions), circle))
  {
    hide Run, Safe, CanClose, SideOf, Standstill, AreOwn, Members, SidesOf;
    var w := Run(EMPTY, actions);
    ReachedIsSafe(actions);
    if CanStandStill(actions, circle) {
      var s :| AreOwn(s, Members(circle)) && Standstill(Run(EMPTY, actions + s), circle);
      RunAppend(EMPTY, actions, s);
      RunStructure(w, s);
      StandstillIsCircle(Run(w, s), circle);
      StandstillCloses(Run(w, s), circle);
      RunBack(w, s, circle);
    }
    if CanClose(SidesOf(w, circle)) {
      var s := ReachStandstill(w, circle);
      RunAppend(EMPTY, actions, s);
    }
  }

  // ----- What the lists must look like -----

  ghost predicate Lists(t: Tick, x: ReminderId, y: ReminderId) {
    exists i, j :: 0 <= i < j < |t.due| && t.due[i].id == x && t.due[j].id == y
  }

  lemma HeldIsListedBeforePath(w: World, t: Tick, team: set<WorkerId>, x: ReminderId, q: nat)
    requires TickShape(t) && x in t.writes && q < |PathFrom(w, t, team, t.i)|
    ensures Lists(t, x, PathFrom(w, t, team, t.i)[q])
  {
    hide TickShape, PathFrom;
    var i := HeldIsBehind(t, x);
    var j := PathIsAhead(w, t, team, t.i, q);
  }

  lemma PathIsListed(w: World, t: Tick, team: set<WorkerId>, p: nat, q: nat)
    requires p < q < |PathFrom(w, t, team, t.i)|
    ensures Lists(t, PathFrom(w, t, team, t.i)[p], PathFrom(w, t, team, t.i)[q])
  {
    hide PathFrom;
    var i, j := PathInOrder(w, t, team, t.i, p, q);
  }

  lemma TakenIsListedBefore(w: World, k: WorkerId, team: set<WorkerId>, c: nat, x: ReminderId)
    requires Structure(w) && k in w.ticks && c < |SideOf(w, k, team).path| && x in Taken(SideOf(w, k, team), c)
    ensures Lists(w.ticks[k], x, SideOf(w, k, team).path[c])
  {
    hide TickShape, LocksAreWrites, WritesClaim, PathFrom, Lists;
    var t, s := w.ticks[k], SideOf(w, k, team);
    if x in s.held {
      HeldIsListedBeforePath(w, t, team, x, c);
    } else {
      var p: nat :| p < c && s.path[..c][p] == x;
      PathIsListed(w, t, team, p, c);
    }
  }

  /** So only ticks whose lists go around a circle of reminders can come to a standstill: each lists the one that the
      tick before it will wait for before the one that it will wait for itself. */
  lemma ListsGoAround(actions: seq<Action>, circle: seq<WorkerId>) returns (wanted: seq<ReminderId>)
    requires IsCircle(Run(EMPTY, actions), circle) && CanStandStill(actions, circle)
    ensures |wanted| == |circle|
    ensures forall i, j :: 0 <= i < j < |wanted| ==> wanted[i] != wanted[j]
    ensures forall i :: 0 <= i < |circle| ==>
              var next := After(i, |circle|);
              Lists(Run(EMPTY, actions).ticks[circle[next]], wanted[i], wanted[next])
  {
    hide Run, CanStandStill, SideOf, Taken, Safe, Structure, Lists, Members, Closes, After;
    StandStillExactlyWhenClosing(actions, circle);
    ReachedIsSafe(actions);
    SafeIsStructure(Run(EMPTY, actions));
    var w, n := Run(EMPTY, actions), |circle|;
    var sides := SidesOf(w, circle);
    var cuts :| Closes(sides, cuts);
    wanted := Wanteds(sides, cuts);
    forall i | 0 <= i < n ensures Lists(w.ticks[circle[After(i, n)]], wanted[i], wanted[After(i, n)]) {
      var next := After(i, n);
      TakenIsListedBefore(w, circle[next], Members(circle), cuts[next], wanted[i]);
    }
  }

  lemma Wanteds(sides: seq<Side>, cuts: seq<nat>) returns (wanted: seq<ReminderId>)
    requires Closes(sides, cuts)
    ensures AreCuts(sides, cuts) && |wanted| == |sides|
    ensures forall i :: 0 <= i < |sides| ==> wanted[i] == sides[i].path[cuts[i]]
    ensures forall i :: 0 <= i < |sides| ==> wanted[i] in Taken(sides[After(i, |sides|)], cuts[After(i, |sides|)])
    ensures forall i, j :: 0 <= i < j < |wanted| ==> wanted[i] != wanted[j]
  {
    hide Taken;
    wanted := seq(|sides|, i requires 0 <= i < |sides| && AreCuts(sides, cuts) => sides[i].path[cuts[i]]);
    forall i, j | 0 <= i < j < |sides| ensures wanted[i] != wanted[j] {
      var a, b := After(i, |sides|), After(j, |sides|);
      assert a != b;
      assert Taken(sides[a], cuts[a]) !! Taken(sides[b], cuts[b]);
    }
  }
}
