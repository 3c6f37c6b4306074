/** Feasibility windows, and the pairs of them that overlap. */
module FeasibilityWindows {
  import opened Wrappers
  import opened Calendar
  import opened Sequences
  import opened Tasks
  import opened Workload

  /** A task can wait until `latestStart` and still be done by its deadline. */
  datatype Window = Window(taskId: TaskId, name: string, deadline: Instant, duration: int, latestStart: Instant)

  function WindowOf(t: TaskSummary): Window
    requires IsTimed(t)
  {
    Window(t.id, t.name, t.deadline.value, t.duration.value, t.deadline.value - t.duration.value * MINUTE)
  }

  function KeepWindow(t: TaskSummary): seq<Window> {
    if IsTimed(t) then [WindowOf(t)] else []
  }

  /** The key (deadline, name). */
  predicate WindowLe(a: Window, b: Window) {
    a.deadline < b.deadline || (a.deadline == b.deadline && (TextBefore(a.name, b.name) || a.name == b.name))
  }

  function Windows(summaries: seq<TaskSummary>): seq<Window> {
    SortBy(WindowLe, Collect(KeepWindow, summaries))
  }

  lemma WindowOrder()
    ensures IsOrder(WindowLe)
  {
    forall a, b ensures WindowLe(a, b) || WindowLe(b, a) {
      TextIsTotal(a.name, b.name);
    }
    forall a, b, c | WindowLe(a, b) && WindowLe(b, c) ensures WindowLe(a, c) {
      if TextBefore(a.name, b.name) && TextBefore(b.name, c.name) { TextIsTransitive(a.name, b.name, c.name); }
    }
  }

  function Length(w: Window): int {
    w.duration
  }

  ghost predicate ByDeadline(ws: seq<Window>) {
    forall i, j :: 0 <= i < j < |ws| ==> ws[i].deadline <= ws[j].deadline
  }

  lemma WindowsAreSorted(summaries: seq<TaskSummary>)
    ensures ByDeadline(Windows(summaries)) && Ordered(WindowLe, Windows(summaries))
    ensures multiset(Windows(summaries)) == multiset(Collect(KeepWindow, summaries))
  {
    hide SortBy, Collect;
    var ws, found := Windows(summaries), Collect(KeepWindow, summaries);
    WindowOrder();
    SortPermutes(WindowLe, found);
    SortOrders(WindowLe, found);
    forall i, j | 0 <= i < j < |ws| ensures ws[i].deadline <= ws[j].deadline {
      assert WindowLe(ws[i], ws[j]);
    }
  }

  lemma WindowsAreTheTasks(summaries: seq<TaskSummary>)
    ensures forall w :: w in Windows(summaries) ==>
              exists t :: t in summaries && t.deadline == Some(w.deadline) && t.duration == Some(w.duration) &&
                w.taskId == t.id && w.name == t.name && w.latestStart == w.deadline - w.duration * 60_000_000
  {
    hide Windows, Collect;
    WindowsAreSorted(summaries);
    hide Ordered, ByDeadline;
    SameMembers(Windows(summaries), Collect(KeepWindow, summaries));
    forall w | w in Windows(summaries)
      ensures exists t :: t in summaries && t.deadline == Some(w.deadline) && t.duration == Some(w.duration) &&
                w.taskId == t.id && w.name == t.name && w.latestStart == w.deadline - w.duration * 60_000_000
    {
      CollectedFrom(KeepWindow, summaries, w);
      var t :| t in summaries && w in KeepWindow(t);
    }
  }

  lemma EveryTaskHasItsWindow(summaries: seq<TaskSummary>)
    ensures forall t :: t in summaries && t.deadline.Some? && t.duration.Some? ==>
              Window(t.id, t.name, t.deadline.value, t.duration.value, t.deadline.value - t.duration.value * 60_000_000)
                in Windows(summaries)
  {
    hide Windows, Collect;
    WindowsAreSorted(summaries);
    hide Ordered, ByDeadline;
    SameMembers(Windows(summaries), Collect(KeepWindow, summaries));
    forall t | t in summaries && t.deadline.Some? && t.duration.Some?
      ensures Window(t.id, t.name, t.deadline.value, t.duration.value,
                     t.deadline.value - t.duration.value * 60_000_000) in Windows(summaries)
    {
      CollectedFrom(KeepWindow, summaries, WindowOf(t));
      assert WindowOf(t) in KeepWindow(t);
    }
  }

  lemma WindowsAddUp(summaries: seq<TaskSummary>)
    ensures Sum(Length, Windows(summaries)) == Sum(TimedMinutes, summaries)
  {
    hide Windows, Collect;
    WindowsAreSorted(summaries);
    SumPermutes(Length, Windows(summaries), Collect(KeepWindow, summaries));
    forall t: TaskSummary ensures TimedMinutes(t) == Sum(Length, KeepWindow(t)) {
      if IsTimed(t) { SumOfOne(Length, WindowOf(t)); }
    }
    SumOfCollected(Length, KeepWindow, TimedMinutes, summaries);
  }

  lemma WindowsStand(ws: seq<Window>)
    requires Ordered(WindowLe, ws)
    ensures forall i, j :: 0 <= i < j < |ws| && ws[i].deadline == ws[j].deadline ==>
              ws[i].name == ws[j].name || ComesFirst(ws[i].name, ws[j].name)
  {
    hide TextBefore, ComesFirst;
    forall i, j | 0 <= i < j < |ws| && ws[i].deadline == ws[j].deadline
      ensures ws[i].name == ws[j].name || ComesFirst(ws[i].name, ws[j].name)
    {
      assert WindowLe(ws[i], ws[j]);
      TextBeforeIs(ws[i].name, ws[j].name);
    }
  }

  /** One window for each task with deadline and duration, in order of deadline and then name, as long as the task. */
  lemma WindowsAreExact(summaries: seq<TaskSummary>)
    ensures ByDeadline(Windows(summaries)) && Ordered(WindowLe, Windows(summaries))
    ensures var ws := Windows(summaries);
            forall i, j :: 0 <= i < j < |ws| && ws[i].deadline == ws[j].deadline ==>
              ws[i].name == ws[j].name || ComesFirst(ws[i].name, ws[j].name)
    ensures multiset(Windows(summaries)) == multiset(Collect(KeepWindow, summaries))
    ensures forall w :: w in Windows(summaries) ==>
              exists t :: t in summaries && t.deadline == Some(w.deadline) && t.duration == Some(w.duration) &&
                w.taskId == t.id && w.name == t.name && w.latestStart == w.deadline - w.duration * 60_000_000
    ensures forall t :: t in summaries && t.deadline.Some? && t.duration.Some? ==>
              Window(t.id, t.name, t.deadline.value, t.duration.value, t.deadline.value - t.duration.value * 60_000_000)
                in Windows(summaries)
    ensures Sum(Length, Windows(summaries)) == Sum(TimedMinutes, summaries)
  {
    hide *;
    WindowsAreSorted(summaries);
    WindowsStand(Windows(summaries));
    WindowsAreTheTasks(summaries);
    EveryTaskHasItsWindow(summaries);
    WindowsAddUp(summaries);
  }

  // ----- Overlapping pairs -----

  function Max(a: int, b: int): int {
    if a >= b then a else b
  }

  function Min(a: int, b: int): int {
    if a <= b then a else b
  }

  /** The open intervals from latest start to deadline have a point in common. */
  predicate Overlap(a: Window, b: Window) {
    Max(a.latestStart, b.latestStart) < Min(a.deadline, b.deadline)
  }

  /** The pair, the smaller name first. */
  function InNameOrder(a: Window, b: Window): (Window, Window) {
    if TextBefore(a.name, b.name) then (a, b) else (b, a)
  }

  datatype Indices = Indices(i: nat, j: nat)

  /** The index pairs the inner loop reports for the outer index i, up to the inner index j. */
  function OverlapsWith(ws: seq<Window>, i: nat, j: nat): seq<Indices>
    requires i < |ws| && i < j <= |ws|
  {
    if j == i + 1 then []
    else OverlapsWith(ws, i, j - 1) + (if Overlap(ws[i], ws[j - 1]) then [Indices(i, j - 1)] else [])
  }

  /** The index pairs reported for the outer indices below i. */
  function OverlapsBefore(ws: seq<Window>, i: nat): seq<Indices>
    requires i <= |ws|
  {
    if i == 0 then [] else OverlapsBefore(ws, i - 1) + OverlapsWith(ws, i - 1, |ws|)
  }

  predicate Within(ws: seq<Window>, p: Indices) {
    p.i < p.j < |ws|
  }

  function PairAt(ws: seq<Window>): Indices -> seq<(Window, Window)> {
    p => if Within(ws, p) then [InNameOrder(ws[p.i], ws[p.j])] else []
  }

  predicate PairLe(p: (Window, Window), q: (Window, Window)) {
    || TextBefore(p.0.name, q.0.name)
    || (p.0.name == q.0.name && (TextBefore(p.1.name, q.1.name) || p.1.name == q.1.name))
  }

  function OverlappingPairs(ws: seq<Window>): seq<(Window, Window)> {
    SortBy(PairLe, Collect(PairAt(ws), OverlapsBefore(ws, |ws|)))
  }

  datatype SchedulingPressure = SchedulingPressure(
    aId: TaskId, aName: string, bId: TaskId, bName: string, overlapStart: Instant, overlapEnd: Instant)

  function Report(p: (Window, Window)): SchedulingPressure {
    SchedulingPressure(p.0.taskId, p.0.name, p.1.taskId, p.1.name,
                       Max(p.0.latestStart, p.1.latestStart), Min(p.0.deadline, p.1.deadline))
  }

  function ReportFor(p: (Window, Window)): seq<SchedulingPressure> {
    [Report(p)]
  }

  /** What the analysis of the windows reports. */
  function Reports(ws: seq<Window>): seq<SchedulingPressure> {
    Collect(ReportFor, OverlappingPairs(ws))
  }

  // ----- The pairwise test finds each overlapping pair once -----

  predicate OverlapAt(ws: seq<Window>, p: Indices) {
    Within(ws, p) && Overlap(ws[p.i], ws[p.j])
  }

  lemma CountAppend(front: seq<Indices>, back: seq<Indices>, p: Indices)
    ensures multiset(front + back)[p] == multiset(front)[p] + multiset(back)[p]
  {
  }

  /** What the inner loop adds at j. */
  function FoundAt(ws: seq<Window>, p: Indices): seq<Indices> {
    if OverlapAt(ws, p) then [p] else []
  }

  lemma FoundOnce(ws: seq<Window>, p: Indices, q: Indices)
    ensures multiset(FoundAt(ws, q))[p] == if p == q && OverlapAt(ws, q) then 1 else 0
  {
  }

  lemma RowStarts(ws: seq<Window>, i: nat, p: Indices)
    requires i < |ws|
    ensures multiset(OverlapsWith(ws, i, i + 1))[p] == 0
  {
  }

  lemma RowGrows(ws: seq<Window>, i: nat, j: nat)
    requires i < j < |ws|
    ensures OverlapsWith(ws, i, j + 1) == OverlapsWith(ws, i, j) + FoundAt(ws, Indices(i, j))
  {
    hide Overlap;
  }

  lemma {:induction false} InnerLoopIsExact(ws: seq<Window>, i: nat, j: nat, p: Indices)
    requires i < |ws| && i < j <= |ws|
    ensures multiset(OverlapsWith(ws, i, j))[p] == if p.i == i && p.j < j && OverlapAt(ws, p) then 1 else 0
  {
    hide OverlapsWith, Overlap, FoundAt;
    if j == i + 1 {
      RowStarts(ws, i, p);
    } else {
      InnerLoopIsExact(ws, i, j - 1, p);
      RowGrows(ws, i, j - 1);
      CountAppend(OverlapsWith(ws, i, j - 1), FoundAt(ws, Indices(i, j - 1)), p);
      FoundOnce(ws, p, Indices(i, j - 1));
    }
  }

  lemma {:induction false} OuterLoopIsExact(ws: seq<Window>, i: nat, p: Indices)
    requires i <= |ws|
    ensures multiset(OverlapsBefore(ws, i))[p] == if p.i < i && OverlapAt(ws, p) then 1 else 0
  {
    hide OverlapsWith, Overlap;
    if i > 0 {
      OuterLoopIsExact(ws, i - 1, p);
      InnerLoopIsExact(ws, i - 1, |ws|, p);
      CountAppend(OverlapsBefore(ws, i - 1), OverlapsWith(ws, i - 1, |ws|), p);
    }
  }

  lemma LoopsAreExact(ws: seq<Window>)
    ensures Distinct(OverlapsBefore(ws, |ws|))
    ensures forall p :: p in OverlapsBefore(ws, |ws|) <==> OverlapAt(ws, p)
  {
    hide OverlapsBefore, Overlap;
    var indices := OverlapsBefore(ws, |ws|);
    forall p
      ensures multiset(indices)[p] <= 1
      ensures p in indices <==> OverlapAt(ws, p)
    {
      OuterLoopIsExact(ws, |ws|, p);
      assert p in indices <==> multiset(indices)[p] > 0;
    }
    DistinctCounts(indices);
  }

  function ReportAt(ws: seq<Window>): Indices -> seq<SchedulingPressure> {
    p => if Within(ws, p) then [Report(InNameOrder(ws[p.i], ws[p.j]))] else []
  }

  lemma ReportsOfIndices(ws: seq<Window>)
    ensures multiset(Reports(ws)) == multiset(Collect(ReportAt(ws), OverlapsBefore(ws, |ws|)))
  {
    hide Report, InNameOrder, PairLe, OverlapsBefore;
    var indices := OverlapsBefore(ws, |ws|);
    var pairs := Collect(PairAt(ws), indices);
    SortPermutes(PairLe, pairs);
    CollectPermutes(ReportFor, OverlappingPairs(ws), pairs);
    forall p: Indices ensures ReportAt(ws)(p) == Collect(ReportFor, PairAt(ws)(p)) {
      if Within(ws, p) { CollectOfOne(ReportFor, InNameOrder(ws[p.i], ws[p.j])); }
    }
    CollectOfCollected(ReportFor, PairAt(ws), ReportAt(ws), indices);
  }

  /** The index pairs whose windows overlap and are reported as e. */
  ghost function Behind(ws: seq<Window>, e: SchedulingPressure): set<Indices> {
    Contributors(ReportAt(ws), OverlapsBefore(ws, |ws|), e)
  }

  lemma BehindAreTheOverlaps(ws: seq<Window>, e: SchedulingPressure, p: Indices)
    ensures p in Behind(ws, e) <==>
              p.i < p.j < |ws| && Overlap(ws[p.i], ws[p.j]) && Report(InNameOrder(ws[p.i], ws[p.j])) == e
  {
    LoopsAreExact(ws);
    hide OverlapsBefore, Overlap, InNameOrder;
  }

  /** The entry for a pair has both tasks, the smaller name first, and the bounds of what their windows share. */
  lemma EntryOfAPair(a: Window, b: Window)
    ensures var e := Report(InNameOrder(a, b));
            && (|| (e.aId, e.aName, e.bId, e.bName) == (a.taskId, a.name, b.taskId, b.name)
                || (e.aId, e.aName, e.bId, e.bName) == (b.taskId, b.name, a.taskId, a.name))
            && (e.aName == e.bName || ComesFirst(e.aName, e.bName))
            && e.overlapStart >= a.latestStart && e.overlapStart >= b.latestStart
            && (e.overlapStart == a.latestStart || e.overlapStart == b.latestStart)
            && e.overlapEnd <= a.deadline && e.overlapEnd <= b.deadline
            && (e.overlapEnd == a.deadline || e.overlapEnd == b.deadline)
            && (Overlap(a, b) <==> e.overlapStart < e.overlapEnd)
  {
    hide TextBefore, ComesFirst;
    TextIsTotal(a.name, b.name);
    TextBeforeIs(a.name, b.name);
    TextBeforeIs(b.name, a.name);
  }

  /** Sound and complete: an entry is reported as often as there are unordered pairs of windows with that overlap, so
      each pair whose windows meet in a non-empty open interval makes exactly one entry, and no other pair makes any. */
  lemma PressureIsExact(ws: seq<Window>, e: SchedulingPressure)
    ensures multiset(Reports(ws))[e] == |Behind(ws, e)|
    ensures forall p :: p in Behind(ws, e) <==>
              p.i < p.j < |ws| && Overlap(ws[p.i], ws[p.j]) && Report(InNameOrder(ws[p.i], ws[p.j])) == e
  {
    hide Reports, OverlapsBefore, Overlap, InNameOrder;
    ReportsOfIndices(ws);
    LoopsAreExact(ws);
    CountCollected(ReportAt(ws), OverlapsBefore(ws, |ws|), e);
    forall p ensures p in Behind(ws, e) <==>
              p.i < p.j < |ws| && Overlap(ws[p.i], ws[p.j]) && Report(InNameOrder(ws[p.i], ws[p.j])) == e
    {
      BehindAreTheOverlaps(ws, e, p);
    }
  }

  /** When no two windows belong to the same task: one entry for each pair that overlaps, none for another. */
  lemma EachPairIsReportedOnce(ws: seq<Window>, i: nat, j: nat)
    requires i < j < |ws|
    requires forall a, b :: 0 <= a < b < |ws| ==> ws[a].taskId != ws[b].taskId
    ensures multiset(Reports(ws))[Report(InNameOrder(ws[i], ws[j]))] == if Overlap(ws[i], ws[j]) then 1 else 0
  {
    hide Reports, Overlap, Behind;
    var e, here := Report(InNameOrder(ws[i], ws[j])), Indices(i, j);
    PressureIsExact(ws, e);
    forall p | p in Behind(ws, e) ensures p == here {
      assert ws[p.i].taskId in {ws[i].taskId, ws[j].taskId} && ws[p.j].taskId in {ws[i].taskId, ws[j].taskId};
    }
    assert Behind(ws, e) == if Overlap(ws[i], ws[j]) then {here} else {};
  }

  lemma PairOrder()
    ensures IsOrder(PairLe)
  {
    forall p, q ensures PairLe(p, q) || PairLe(q, p) {
      TextIsTotal(p.0.name, q.0.name);
      TextIsTotal(p.1.name, q.1.name);
    }
    forall p, q, r | PairLe(p, q) && PairLe(q, r) ensures PairLe(p, r) {
      if TextBefore(p.0.name, q.0.name) && TextBefore(q.0.name, r.0.name) {
        TextIsTransitive(p.0.name, q.0.name, r.0.name);
      }
      if TextBefore(p.1.name, q.1.name) && TextBefore(q.1.name, r.1.name) {
        TextIsTransitive(p.1.name, q.1.name, r.1.name);
      }
    }
  }

  lemma {:induction false} ReportsFollowPairs(pairs: seq<(Window, Window)>)
    ensures |Collect(ReportFor, pairs)| == |pairs|
    ensures forall k :: 0 <= k < |pairs| ==> Collect(ReportFor, pairs)[k] == Report(pairs[k])
  {
    if pairs != [] { ReportsFollowPairs(pairs[..|pairs| - 1]); }
  }

  /** The entries are sorted by their names, each with the smaller name first and a non-empty overlap. */
  lemma ReportsAreSorted(ws: seq<Window>)
    ensures var es := Reports(ws);
            forall i, j :: 0 <= i < j < |es| ==>
              ComesFirst(es[i].aName, es[j].aName) ||
              (es[i].aName == es[j].aName && (ComesFirst(es[i].bName, es[j].bName) || es[i].bName == es[j].bName))
    ensures forall e :: e in Reports(ws) ==>
              e.overlapStart < e.overlapEnd && (ComesFirst(e.aName, e.bName) || e.aName == e.bName)
  {
    hide TextBefore, ComesFirst;
    forall a: string, b: string { TextBeforeIs(a, b); }
    var es, pairs := Reports(ws), OverlappingPairs(ws);
    PairOrder();
    SortOrders(PairLe, Collect(PairAt(ws), OverlapsBefore(ws, |ws|)));
    ReportsFollowPairs(pairs);
    forall i, j | 0 <= i < j < |es|
      ensures ComesFirst(es[i].aName, es[j].aName) ||
              (es[i].aName == es[j].aName && (ComesFirst(es[i].bName, es[j].bName) || es[i].bName == es[j].bName))
    {
      assert PairLe(pairs[i], pairs[j]);
    }
    forall e | e in es ensures e.overlapStart < e.overlapEnd && (ComesFirst(e.aName, e.bName) || e.aName == e.bName) {
      PressureIsExact(ws, e);
      assert Behind(ws, e) != {};
      var p :| p in Behind(ws, e);
      TextIsTotal(ws[p.i].name, ws[p.j].name);
    }
  }

  // ----- What an empty report promises -----

  ghost predicate Positive(ws: seq<Window>) {
    forall w :: w in ws ==> w.duration > 0 && w.latestStart == w.deadline - w.duration * MINUTE
  }

  /** In deadline order, two windows overlap exactly when the later one begins before the earlier deadline. */
  lemma LaterStartDecides(ws: seq<Window>, i: nat, j: nat)
    requires ByDeadline(ws) && Positive(ws) && i < j < |ws|
    ensures Overlap(ws[i], ws[j]) <==> ws[j].latestStart < ws[i].deadline
  {
    assert ws[i] in ws && ws[j] in ws;
  }

  /** Nothing is reported exactly when each task can start as late as possible after the ones due before it. */
  lemma NoPressureMeansDisjoint(ws: seq<Window>)
    requires ByDeadline(ws) && Positive(ws)
    ensures Reports(ws) == [] <==> forall i, j :: 0 <= i < j < |ws| ==> ws[i].deadline <= ws[j].latestStart
  {
    hide Reports, Overlap, Behind, ByDeadline, Positive;
    if Reports(ws) == [] {
      forall i, j | 0 <= i < j < |ws| ensures ws[i].deadline <= ws[j].latestStart {
        var e := Report(InNameOrder(ws[i], ws[j]));
        PressureIsExact(ws, e);
        LaterStartDecides(ws, i, j);
        assert Indices(i, j) !in Behind(ws, e);
      }
    } else {
      var e := Reports(ws)[0];
      PressureIsExact(ws, e);
      assert e in Reports(ws);
      var p :| p in Behind(ws, e);
      LaterStartDecides(ws, p.i, p.j);
    }
  }

  /** Work one at a time, in deadline order, starting each task at its latest start. */
  ghost predicate OneAtATime(ws: seq<Window>) {
    forall i :: 0 < i < |ws| ==> ws[i - 1].latestStart + ws[i - 1].duration * MINUTE <= ws[i].latestStart
  }

  lemma {:induction false} WorkFits(ws: seq<Window>)
    requires ByDeadline(ws) && Positive(ws) && OneAtATime(ws) && ws != []
    ensures Sum(Length, ws) * MINUTE <= ws[|ws| - 1].deadline - ws[0].latestStart
    ensures forall w :: w in ws ==> ws[0].latestStart <= w.latestStart && w.deadline <= ws[|ws| - 1].deadline
  {
    var front, last := ws[..|ws| - 1], ws[|ws| - 1];
    assert last in ws;
    if front == [] {
      SumOfOne(Length, last);
    } else {
      assert front[|front| - 1] == ws[|ws| - 2] && front[|front| - 1] in ws;
      WorkFits(front);
    }
  }

  lemma WindowsArePositive(summaries: seq<TaskSummary>)
    requires forall t :: t in summaries && IsTimed(t) ==> t.duration.value > 0
    ensures Positive(Windows(summaries))
  {
    hide Windows, WindowLe;
    WindowsAreExact(summaries);
  }

  /** When all durations are positive and no pressure is reported, starting every task at its latest start is a
      schedule that runs one task at a time and meets every deadline; so all the work fits between the earliest
      latest start and the last deadline. */
  lemma NoPressureIsSchedulable(summaries: seq<TaskSummary>)
    requires forall t :: t in summaries && IsTimed(t) ==> t.duration.value > 0
    requires Reports(Windows(summaries)) == [] && Windows(summaries) != []
    ensures var ws := Windows(summaries);
            && OneAtATime(ws) && forall w :: w in ws ==> w.latestStart + w.duration * MINUTE == w.deadline
    ensures var ws := Windows(summaries);
            && Sum(TimedMinutes, summaries) * MINUTE <= ws[|ws| - 1].deadline - ws[0].latestStart
            && forall w :: w in ws ==> ws[0].latestStart <= w.latestStart && w.deadline <= ws[|ws| - 1].deadline
  {
    hide Reports, Windows;
    var ws := Windows(summaries);
    WindowsAreSorted(summaries);
    WindowsAddUp(summaries);
    WindowsArePositive(summaries);
    hide ByDeadline, Ordered, Sum;
    NoPressureMeansDisjoint(ws);
    WorkFits(ws);
  }
}
