/** What an open tick holds and what it is still to claim, and what each statement does to that. */
module SchedulerPaths {
  import opened Reminders
  import opened SchedulerProtocol
  import opened SchedulerSafety
  import opened SchedulerDeadlock

  /** What a worker holds, and what it is still to claim, in this order. */
  datatype Side = Side(held: set<ReminderId>, path: seq<ReminderId>)

  function Moved(s: Side): Side
    requires s.path != []
  {
    Side(s.held + {s.path[0]}, s.path[1..])
  }

  // ----- The side of an open tick -----

  /** The claim of `due[j]` is still to come, and finds the task there and the row due. */
  predicate Ahead(w: World, t: Tick, j: nat) {
    && t.i <= j < |t.due| && !(j == t.i && t.phase.Notifying?)
    && Claimable(w, t.due[j].id, t.now)
    && (t.due[j].row.taskId in w.tasks || (j == t.i && t.phase.Claiming?))
  }

  /** A worker outside the team holds the row. */
  predicate HeldElsewhere(w: World, team: set<WorkerId>, id: ReminderId) {
    id in w.locks && w.locks[id] !in team
  }

  /** The rows a tick will claim from `due[j]` on, as far as no worker outside the team holds one. */
  function PathFrom(w: World, t: Tick, team: set<WorkerId>, j: nat): seq<ReminderId>
    decreases |t.due| - j
  {
    if j >= |t.due| then []
    else if !Ahead(w, t, j) then PathFrom(w, t, team, j + 1)
    else if HeldElsewhere(w, team, t.due[j].id) then []
    else [t.due[j].id] + PathFrom(w, t, team, j + 1)
  }

  function SideOf(w: World, k: WorkerId, team: set<WorkerId>): Side
    requires k in w.ticks
  {
    Side(w.ticks[k].writes.Keys, PathFrom(w, w.ticks[k], team, w.ticks[k].i))
  }

  lemma {:induction false} PathIsAhead(w: World, t: Tick, team: set<WorkerId>, j: nat, p: nat) returns (q: nat)
    requires p < |PathFrom(w, t, team, j)|
    ensures j + p <= q < |t.due| && Ahead(w, t, q) && t.due[q].id == PathFrom(w, t, team, j)[p]
    ensures !HeldElsewhere(w, team, t.due[q].id)
    decreases |t.due| - j
  {
    hide Ahead, HeldElsewhere;
    if !Ahead(w, t, j) {
      q := PathIsAhead(w, t, team, j + 1, p);
    } else if p == 0 {
      q := j;
    } else {
      q := PathIsAhead(w, t, team, j + 1, p - 1);
    }
  }

  /** The path goes on in the order of the list. */
  lemma {:induction false} PathInOrder(w: World, t: Tick, team: set<WorkerId>, j: nat, p: nat, q: nat)
    returns (k: nat, m: nat)
    requires p < q < |PathFrom(w, t, team, j)|
    ensures j <= k < m < |t.due|
    ensures t.due[k].id == PathFrom(w, t, team, j)[p] && t.due[m].id == PathFrom(w, t, team, j)[q]
    decreases |t.due| - j
  {
    hide Ahead, HeldElsewhere;
    if !Ahead(w, t, j) {
      k, m := PathInOrder(w, t, team, j + 1, p, q);
    } else if p == 0 {
      k := j;
      m := PathIsAhead(w, t, team, j + 1, q - 1);
    } else {
      k, m := PathInOrder(w, t, team, j + 1, p - 1, q - 1);
    }
  }

  lemma HeldIsBehind(t: Tick, id: ReminderId) returns (j: nat)
    requires TickShape(t) && id in t.writes
    ensures j < |t.due| && t.due[j].id == id && (j < t.i || (j == t.i && t.phase.Notifying?))
  {
    hide Handed, InClaimOrder, DistinctIds, CountsAgree;
    j :| 0 <= j < Reached(t) && j < |t.due| && t.due[j].id == id;
  }

  lemma PathIsNotHeld(w: World, t: Tick, team: set<WorkerId>, p: nat)
    requires TickShape(t) && p < |PathFrom(w, t, team, t.i)|
    ensures PathFrom(w, t, team, t.i)[p] !in t.writes
  {
    DistinctDue(t);
    hide TickShape, PathFrom;
    var q := PathIsAhead(w, t, team, t.i, p);
    if t.due[q].id in t.writes {
      var j := HeldIsBehind(t, t.due[q].id);
    }
  }

  lemma PathIsDistinct(w: World, t: Tick, team: set<WorkerId>, p: nat, q: nat)
    requires TickShape(t) && p < q < |PathFrom(w, t, team, t.i)|
    ensures PathFrom(w, t, team, t.i)[p] != PathFrom(w, t, team, t.i)[q]
  {
    DistinctDue(t);
    hide TickShape, PathFrom;
    var k, m := PathInOrder(w, t, team, t.i, p, q);
  }

  lemma HeldApart(w: World, a: WorkerId, b: WorkerId)
    requires Structure(w) && a in w.ticks && b in w.ticks && a != b
    ensures w.ticks[a].writes.Keys !! w.ticks[b].writes.Keys
  {
    hide TickShape, WritesClaim;
    forall id | id in w.ticks[a].writes ensures id !in w.ticks[b].writes {
      assert w.locks[id] == a;
    }
  }

  lemma DistinctDue(t: Tick)
    requires TickShape(t)
    ensures DistinctIds(t.due)
  {
  }

  // ----- What a statement does to the sides -----

  lemma {:induction false} PathAgrees(w: World, v: World, t: Tick, u: Tick, team: set<WorkerId>, j: nat)
    requires u.due == t.due
    requires forall i: nat :: j <= i ==> (Ahead(w, t, i) <==> Ahead(v, u, i))
    requires forall i :: j <= i < |t.due| ==>
               (HeldElsewhere(w, team, t.due[i].id) <==> HeldElsewhere(v, team, t.due[i].id))
    ensures PathFrom(w, t, team, j) == PathFrom(v, u, team, j)
    decreases |t.due| - j
  {
    hide Ahead, HeldElsewhere;
    if j < |t.due| { PathAgrees(w, v, t, u, team, j + 1); }
  }

  /** Rows and tasks are the same, and no lock is new but perhaps that of `id`, taken by `k`. */
  ghost predicate OnlyLocks(w: World, v: World, k: WorkerId, id: ReminderId) {
    && v.rows == w.rows && v.tasks == w.tasks
    && (v.locks == w.locks || (id !in w.locks && v.locks == w.locks[id := k]))
  }

  lemma LockIsNoConcern(w: World, v: World, t: Tick, k: WorkerId, team: set<WorkerId>, id: ReminderId)
    requires OnlyLocks(w, v, k, id) && (v.locks == w.locks || k in team)
    ensures PathFrom(v, t, team, t.i) == PathFrom(w, t, team, t.i)
  {
    PathAgrees(w, v, t, t, team, t.i);
  }

  /** The tick goes past a row it does not claim. */
  lemma PathPasses(w: World, t: Tick, u: Tick, team: set<WorkerId>)
    requires u.due == t.due && u.now == t.now && u.i == t.i + 1 && u.phase.Resolving? && !Ahead(w, t, t.i)
    ensures PathFrom(w, u, team, u.i) == PathFrom(w, t, team, t.i)
  {
    PathAgrees(w, w, t, u, team, u.i);
    if t.i >= |t.due| { assert PathFrom(w, u, team, u.i) == []; }
  }

  lemma PathOfResolved(w: World, t: Tick, team: set<WorkerId>)
    requires t.phase.Resolving? && t.i < |t.due|
    ensures var u := Resolved(t, t.due[t.i].row.taskId in w.tasks);
            PathFrom(w, u, team, u.i) == PathFrom(w, t, team, t.i)
  {
    var u := Resolved(t, t.due[t.i].row.taskId in w.tasks);
    if t.due[t.i].row.taskId in w.tasks {
      PathAgrees(w, w, t, u, team, t.i);
    } else {
      PathPasses(w, t, u, team);
    }
  }

  lemma AheadOfClaimed(w: World, v: World, t: Tick, u: Tick, j: nat)
    requires t.phase.Claiming? && u.phase.Notifying? && u.i == t.i && u.due == t.due && u.now == t.now
    requires v.rows == w.rows && v.tasks == w.tasks
    ensures j > t.i ==> (Ahead(w, t, j) <==> Ahead(v, u, j))
    ensures !Ahead(v, u, t.i)
  {
    hide IsDue;
  }

  lemma PathOfClaimed(w: World, v: World, t: Tick, k: WorkerId, team: set<WorkerId>)
    requires TickShape(t) && t.phase.Claiming?
    requires var id := t.due[t.i].id;
             Claimable(w, id, t.now) && id !in w.locks && v.rows == w.rows && v.tasks == w.tasks &&
                 v.locks == w.locks[id := k]
    ensures var id := t.due[t.i].id;
            var u := Claimed(t, id, w.rows[id]);
            PathFrom(w, t, team, t.i) == [id] + PathFrom(v, u, team, u.i)
  {
    var id := t.due[t.i].id;
    var u := Claimed(t, id, w.rows[id]);
    DistinctDue(t);
    assert Ahead(w, t, t.i) && !HeldElsewhere(w, team, id);
    hide TickShape, Ahead, IsDue;
    forall j: nat ensures j > t.i ==> (Ahead(w, t, j) <==> Ahead(v, u, j)) {
      AheadOfClaimed(w, v, t, u, j);
    }
    AheadOfClaimed(w, v, t, u, t.i);
    PathAgrees(w, v, t, u, team, t.i + 1);
  }

  /** A statement of the team's open ticks. */
  predicate IsOwn(x: Action, team: set<WorkerId>) {
    !IsApi(x) && !x.Begin? && x.worker in team
  }

  /** The tick is open before, and the statement is one of its loop. */
  lemma OpenAfterwards(w: World, x: Action, k: WorkerId)
    requires !IsApi(x) && !x.Begin? && k in Next(w, x).ticks
    ensures k in w.ticks
    ensures x.worker == k ==> x.Resolve? || x.Claim? || x.Notify? || Next(w, x) == w
  {
    hide IsDue, Blocked;
  }

  /** What a statement of `k` does beyond its own tick: at most lock the row `k` has come to. */
  ghost predicate StatementOf(w: World, v: World, k: WorkerId) {
    && k in w.ticks && k in v.ticks && v.ticks == w.ticks[k := v.ticks[k]]
    && (v == w || (w.ticks[k].i < |w.ticks[k].due| && OnlyLocks(w, v, k, w.ticks[k].due[w.ticks[k].i].id)))
  }

  lemma LoopStatement(w: World, x: Action, k: WorkerId)
    requires (x.Resolve? || x.Claim? || x.Notify?) && x.worker == k && k in w.ticks
    ensures StatementOf(w, Next(w, x), k)
  {
    hide IsDue, FindDue;
    assert w.ticks == w.ticks[k := w.ticks[k]];
  }

  lemma OthersSideStays(w: World, v: World, k: WorkerId, other: WorkerId, team: set<WorkerId>)
    requires StatementOf(w, v, k) && k in team && other in w.ticks && other != k
    ensures other in v.ticks && SideOf(v, other, team) == SideOf(w, other, team)
  {
    hide PathFrom;
    if v != w {
      LockIsNoConcern(w, v, w.ticks[other], k, team, w.ticks[k].due[w.ticks[k].i].id);
    }
  }

  lemma OthersSidesStay(w: World, v: World, k: WorkerId, team: set<WorkerId>)
    requires StatementOf(w, v, k)
    ensures forall other :: other in w.ticks ==> other in v.ticks
    ensures k in team ==>
              forall other :: other in w.ticks && other != k ==> SideOf(v, other, team) == SideOf(w, other, team)
  {
    hide SideOf;
    if k in team {
      forall other | other in w.ticks && other != k ensures SideOf(v, other, team) == SideOf(w, other, team) {
        OthersSideStays(w, v, k, other, team);
      }
    }
  }

  /** Nothing happens to the side, or its next row, which nobody holds, is taken. */
  ghost predicate StaysOrMoves(w: World, s: Side, t: Side) {
    t == s || (s.path != [] && s.path[0] !in w.locks && t == Moved(s))
  }

  lemma ClaimIs(w: World, k: WorkerId)
    requires At(w, k, Claiming)
    requires var id := w.ticks[k].due[w.ticks[k].i].id; Claimable(w, id, w.ticks[k].now) && id !in w.locks
    ensures var t := w.ticks[k];
            var id := t.due[t.i].id;
            DoClaim(w, k) == w.(ticks := w.ticks[k := Claimed(t, id, w.rows[id])], locks := w.locks[id := k])
  {
    hide IsDue;
  }

  lemma TakingMoves(w: World, k: WorkerId, team: set<WorkerId>)
    requires Structure(w) && At(w, k, Claiming)
    requires var id := w.ticks[k].due[w.ticks[k].i].id; Claimable(w, id, w.ticks[k].now) && id !in w.locks
    ensures var v := DoClaim(w, k);
            var id := w.ticks[k].due[w.ticks[k].i].id;
            var s := SideOf(w, k, team);
            k in v.ticks && s.path != [] && s.path[0] == id && SideOf(v, k, team) == Moved(s)
  {
    hide DoClaim, PathFrom, IsDue, TickShape, LocksAreWrites, WritesClaim;
    var t, v := w.ticks[k], DoClaim(w, k);
    var id := t.due[t.i].id;
    ClaimIs(w, k);
    PathOfClaimed(w, v, t, k, team);
    TailOfPath(id, PathFrom(v, v.ticks[k], team, v.ticks[k].i));
  }

  lemma TailOfPath(id: ReminderId, rest: seq<ReminderId>)
    ensures ([id] + rest)[1..] == rest && ([id] + rest)[0] == id
  {
  }

  lemma SkippingStays(w: World, k: WorkerId, team: set<WorkerId>)
    requires At(w, k, Claiming) && !Claimable(w, w.ticks[k].due[w.ticks[k].i].id, w.ticks[k].now)
    ensures var v := DoClaim(w, k); k in v.ticks && SideOf(v, k, team) == SideOf(w, k, team)
  {
    var t, v := w.ticks[k], DoClaim(w, k);
    PathPasses(w, t, Skipped(t), team);
    LockIsNoConcern(w, v, v.ticks[k], k, team, t.due[t.i].id);
    hide PathFrom;
  }

  lemma ClaimMoves(w: World, k: WorkerId, team: set<WorkerId>)
    requires Structure(w) && k in w.ticks
    ensures var v := DoClaim(w, k); k in v.ticks && StaysOrMoves(w, SideOf(w, k, team), SideOf(v, k, team))
  {
    hide Structure, SideOf, IsDue;
    if At(w, k, Claiming) && !Blocked(w, k) {
      if Claimable(w, w.ticks[k].due[w.ticks[k].i].id, w.ticks[k].now) {
        TakingMoves(w, k, team);
      } else {
        SkippingStays(w, k, team);
      }
    }
  }

  lemma ResolveStays(w: World, k: WorkerId, team: set<WorkerId>)
    requires k in w.ticks
    ensures k in DoResolve(w, k).ticks && SideOf(DoResolve(w, k), k, team) == SideOf(w, k, team)
  {
    if At(w, k, Resolving) {
      var t, v := w.ticks[k], DoResolve(w, k);
      PathOfResolved(w, t, team);
      LockIsNoConcern(w, v, v.ticks[k], k, team, t.due[t.i].id);
      hide PathFrom;
    }
  }

  lemma NotifyStays(w: World, k: WorkerId, raises: bool, team: set<WorkerId>)
    requires k in w.ticks
    ensures k in DoNotify(w, k, raises).ticks && SideOf(DoNotify(w, k, raises), k, team) == SideOf(w, k, team)
  {
    if At(w, k, Notifying) {
      var t, v := w.ticks[k], DoNotify(w, k, raises);
      PathPasses(w, t, v.ticks[k], team);
      LockIsNoConcern(w, v, v.ticks[k], k, team, t.due[t.i].id);
      hide PathFrom;
    }
  }

  /** A statement of `k` leaves its side as it is, or takes the first row of its path, and leaves the others' sides
      alone. */
  lemma StatementMoves(w: World, x: Action, k: WorkerId, team: set<WorkerId>)
    requires Structure(w) && !IsApi(x) && !x.Begin? && x.worker == k && k in Next(w, x).ticks
    ensures k in w.ticks && StaysOrMoves(w, SideOf(w, k, team), SideOf(Next(w, x), k, team))
    ensures forall other :: other in w.ticks && other != k ==> other in Next(w, x).ticks
    ensures k in team ==>
              forall other :: other in w.ticks && other != k ==>
                SideOf(Next(w, x), other, team) == SideOf(w, other, team)
  {
    OpenAfterwards(w, x, k);
    hide SideOf, DoResolve, DoClaim, DoNotify, Structure;
    if x.Resolve? || x.Claim? || x.Notify? {
      LoopStatement(w, x, k);
      OthersSidesStay(w, Next(w, x), k, team);
      match x
      case Resolve(_) => ResolveStays(w, k, team);
      case Claim(_) => ClaimMoves(w, k, team);
      case Notify(_, raises) => NotifyStays(w, k, raises, team);
    }
  }

  // ----- Waiting, and going on -----

  lemma HolderHasWritten(w: World, id: ReminderId)
    requires Structure(w) && id in w.locks
    ensures w.locks[id] in w.ticks && id in w.ticks[w.locks[id]].writes
  {
    hide TickShape, WritesClaim;
  }

  /** The next row of a blocked tick is the one it waits for, unless a worker outside the team holds that. */
  lemma BlockedPath(w: World, k: WorkerId, team: set<WorkerId>)
    requires Blocked(w, k)
    ensures var path := SideOf(w, k, team).path;
            if w.locks[Wanted(w, k).id] in team then path != [] && path[0] == Wanted(w, k).id else path == []
  {
    assert Ahead(w, w.ticks[k], w.ticks[k].i);
    hide IsDue;
  }

  lemma UpcomingIsOwn(w: World, k: WorkerId)
    requires k in w.ticks
    ensures var x := Upcoming(w, k); !IsApi(x) && !x.Begin? && x.worker == k
  {
  }

  /** A tick with a row still to claim is not at its end. */
  lemma PathMeansNotAtEnd(w: World, k: WorkerId, team: set<WorkerId>)
    requires k in w.ticks && SideOf(w, k, team).path != []
    ensures !AtEnd(w, k)
  {
  }

  lemma LoopStatementOf(w: World, k: WorkerId)
    requires k in w.ticks && !AtEnd(w, k)
    ensures StatementOf(w, Next(w, Upcoming(w, k)), k)
  {
    LoopStatement(w, Upcoming(w, k), k);
    hide Next;
  }

  /** The statements the tick has left. */
  ghost function Left(t: Tick): nat {
    if t.i <= |t.due| && (!t.phase.Resolving? ==> t.i < |t.due|) then StatementsLeft(t) else 0
  }

  lemma LeftIs(t: Tick)
    requires TickShape(t)
    ensures t.i <= |t.due| && (!t.phase.Resolving? ==> t.i < |t.due|) && Left(t) == StatementsLeft(t)
  {
    TickShapeBasics(t);
    hide TickShape;
  }

  lemma UpcomingMoves(w: World, k: WorkerId, team: set<WorkerId>)
    requires Structure(w) && w.rows.Keys <= w.used && k in w.ticks && !Blocked(w, k) && SideOf(w, k, team).path != []
    ensures var v := Next(w, Upcoming(w, k));
            && k in v.ticks && v.ticks == w.ticks[k := v.ticks[k]] && Left(v.ticks[k]) < Left(w.ticks[k])
            && StaysOrMoves(w, SideOf(w, k, team), SideOf(v, k, team))
            && (k in team ==>
                  forall other :: other in w.ticks && other != k ==> SideOf(v, other, team) == SideOf(w, other, team))
  {
    PathMeansNotAtEnd(w, k, team);
    GoingOn(w, k);
    UpcomingIsOwn(w, k);
    hide Structure, SideOf, Next, Upcoming, TickShape, StaysOrMoves, Upcame, StatementsLeft, Left, IsApi;
    var x := Upcoming(w, k);
    StatementMoves(w, x, k, team);
    LoopStatementOf(w, k);
    LeftIs(w.ticks[k]);
    LeftIs(Next(w, x).ticks[k]);
  }

  lemma SafeIsStructure(w: World)
    requires Safe(w, 0)
    ensures Structure(w) && w.rows.Keys <= w.used
  {
  }

  lemma ReachedIsSafe(actions: seq<Action>)
    ensures Safe(Run(EMPTY, actions), 0)
  {
    RunsAreSafe(EMPTY, actions, 0);
  }
}
