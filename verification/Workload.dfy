/** What the workload analysis computes: feasibility windows, the minutes planned for each day, overloaded days, and
    the pairs of tasks whose windows overlap.

    The summaries an analysis works on are the active tasks of its input. */
module Workload {
  import opened Calendar
  import opened Sequences
  import opened Tasks

  const MINUTE: int := 60_000_000

  function KeepActive(t: TaskSummary): seq<TaskSummary> {
    if IsActive(t) then [t] else []
  }

  function Active(tasks: seq<TaskSummary>): seq<TaskSummary> {
    Collect(KeepActive, tasks)
  }

  /** Active are the tasks TODO and IN_PROGRESS. */
  lemma ActiveCounts(tasks: seq<TaskSummary>, t: TaskSummary)
    ensures multiset(Active(tasks))[t] == if t.status == Todo || t.status == InProgress then multiset(tasks)[t] else 0
  {
    KeptCounts(KeepActive, tasks, t);
  }

  // ----- Minutes -----

  function Minutes(t: TaskSummary): int {
    if t.duration.Some? then t.duration.value else 0
  }

  function Total(summaries: seq<TaskSummary>): int {
    Sum(Minutes, summaries)
  }

  /** Only a task with a deadline and a duration takes part in windows and daily pressure. */
  predicate IsTimed(t: TaskSummary) {
    t.deadline.Some? && t.duration.Some?
  }

  function KeepTimed(t: TaskSummary): seq<TaskSummary> {
    if IsTimed(t) then [t] else []
  }

  function TimedMinutes(t: TaskSummary): int {
    if IsTimed(t) then t.duration.value else 0
  }

  /** The minutes of a task without a deadline. */
  function UndatedMinutes(t: TaskSummary): int {
    if t.deadline.None? then Minutes(t) else 0
  }

  predicate DueOn(day: int, t: TaskSummary) {
    IsTimed(t) && DayOf(t.deadline.value) == day
  }

  function KeepDueOn(day: int): TaskSummary -> seq<TaskSummary> {
    t => if DueOn(day, t) then [t] else []
  }

  function OnDay(summaries: seq<TaskSummary>, day: int): seq<TaskSummary> {
    Collect(KeepDueOn(day), summaries)
  }

  function DayMinutes(day: int): TaskSummary -> int {
    t => if DueOn(day, t) then t.duration.value else 0
  }

  /** The minutes due on a day. */
  function Load(summaries: seq<TaskSummary>, day: int): int {
    Sum(DayMinutes(day), summaries)
  }

  lemma LoadIsPlanned(summaries: seq<TaskSummary>, day: int)
    ensures Sum(Minutes, OnDay(summaries, day)) == Load(summaries, day)
  {
    forall t: TaskSummary ensures DayMinutes(day)(t) == Sum(Minutes, KeepDueOn(day)(t)) {
      SumOfOne(Minutes, t);
    }
    SumOfCollected(Minutes, KeepDueOn(day), DayMinutes(day), summaries);
  }

  // ----- Daily pressure -----

  /** The deadline days in the order they first occur. */
  function DaysSeen(summaries: seq<TaskSummary>): seq<int> {
    if summaries == [] then []
    else
      var last, before := summaries[|summaries| - 1], DaysSeen(summaries[..|summaries| - 1]);
      if IsTimed(last) && DayOf(last.deadline.value) !in before then before + [DayOf(last.deadline.value)] else before
  }

  datatype DailyPressure = DailyPressure(day: int, planned: int, budget: int, tasks: seq<TaskSummary>)

  function EntryOf(summaries: seq<TaskSummary>, budget: int, day: int): DailyPressure {
    DailyPressure(day, Sum(Minutes, OnDay(summaries, day)), budget, SortBy(DisplayLe, OnDay(summaries, day)))
  }

  function Entry(summaries: seq<TaskSummary>, budget: int): int -> seq<DailyPressure> {
    day => [EntryOf(summaries, budget, day)]
  }

  function Entries(summaries: seq<TaskSummary>, budget: int): seq<DailyPressure> {
    Collect(Entry(summaries, budget), DaysSeen(summaries))
  }

  predicate EarlierDay(a: DailyPressure, b: DailyPressure) {
    a.day <= b.day
  }

  function Pressures(summaries: seq<TaskSummary>, budget: int): seq<DailyPressure> {
    SortBy(EarlierDay, Entries(summaries, budget))
  }

  lemma {:induction false} DaysSeenAreTheDays(summaries: seq<TaskSummary>)
    ensures Distinct(DaysSeen(summaries))
    ensures forall day :: day in DaysSeen(summaries) <==> exists t :: t in summaries && DueOn(day, t)
  {
    if summaries != [] {
      var n := |summaries| - 1;
      DaysSeenAreTheDays(summaries[..n]);
      assert summaries == summaries[..n] + [summaries[n]];
      forall day ensures day in DaysSeen(summaries) <==> exists t :: t in summaries && DueOn(day, t) {
        if DueOn(day, summaries[n]) { assert summaries[n] in summaries; }
      }
    }
  }

  lemma {:induction false} EntriesFollowDays(summaries: seq<TaskSummary>, budget: int, days: seq<int>)
    ensures |Collect(Entry(summaries, budget), days)| == |days|
    ensures forall k :: 0 <= k < |days| ==>
              Collect(Entry(summaries, budget), days)[k] == EntryOf(summaries, budget, days[k])
  {
    hide EntryOf;
    if days != [] { EntriesFollowDays(summaries, budget, days[..|days| - 1]); }
  }

  ghost predicate Increasing(ps: seq<DailyPressure>) {
    forall i, j :: 0 <= i < j < |ps| ==> ps[i].day < ps[j].day
  }

  /** Sorting entries of different days puts them in strictly increasing order. */
  lemma DaysIncrease(entries: seq<DailyPressure>, ps: seq<DailyPressure>)
    requires forall i, j :: 0 <= i < j < |entries| ==> entries[i].day != entries[j].day
    requires multiset(entries) == multiset(ps) && Ordered(EarlierDay, ps)
    ensures Increasing(ps)
  {
    DistinctPermutes(entries, ps);
    SameMembers(entries, ps);
    forall i, j | 0 <= i < j < |ps| ensures ps[i].day < ps[j].day {
      assert EarlierDay(ps[i], ps[j]);
      assert ps[i] in entries && ps[j] in entries;
    }
  }

  lemma EarlierDayOrder()
    ensures IsOrder(EarlierDay)
  {
  }

  lemma EntriesAreOfDays(summaries: seq<TaskSummary>, budget: int, p: DailyPressure)
    ensures p in Entries(summaries, budget) <==> p == EntryOf(summaries, budget, p.day) && p.day in DaysSeen(summaries)
  {
    hide EntryOf, DaysSeen, Collect;
    var days, entries := DaysSeen(summaries), Entries(summaries, budget);
    EntriesFollowDays(summaries, budget, days);
    EntryHasItsDay(summaries, budget);
    if p == EntryOf(summaries, budget, p.day) && p.day in days {
      var k :| 0 <= k < |days| && days[k] == p.day;
      assert entries[k] == p;
    }
  }

  lemma PressuresIncrease(summaries: seq<TaskSummary>, budget: int)
    ensures Increasing(Pressures(summaries, budget))
    ensures forall p :: p in Pressures(summaries, budget) <==> p in Entries(summaries, budget)
  {
    var days, ps, entries := DaysSeen(summaries), Pressures(summaries, budget), Entries(summaries, budget);
    hide EntryOf, DaysSeen, EarlierDay, SortBy, Collect;
    DaysSeenAreTheDays(summaries);
    EntriesFollowDays(summaries, budget, days);
    EntryHasItsDay(summaries, budget);
    EarlierDayOrder();
    SortPermutes(EarlierDay, entries);
    SortOrders(EarlierDay, entries);
    SameMembers(ps, entries);
    DaysIncrease(entries, ps);
  }

  /** The entries are in strictly increasing order of days, one for exactly each day with a timed task. */
  lemma PressureOfEachDay(summaries: seq<TaskSummary>, budget: int)
    ensures Increasing(Pressures(summaries, budget))
    ensures forall p :: p in Pressures(summaries, budget) <==>
              p == EntryOf(summaries, budget, p.day) && exists t :: t in summaries && DueOn(p.day, t)
  {
    hide EntryOf, DueOn, DaysSeen, Pressures, Entries, Increasing;
    DaysSeenAreTheDays(summaries);
    PressuresIncrease(summaries, budget);
    forall p
      ensures p in Entries(summaries, budget) <==>
                p == EntryOf(summaries, budget, p.day) && p.day in DaysSeen(summaries)
    {
      EntriesAreOfDays(summaries, budget, p);
    }
  }

  lemma EntryHasItsDay(summaries: seq<TaskSummary>, budget: int)
    ensures forall day :: EntryOf(summaries, budget, day).day == day
  {
  }

  lemma UnitsOfTime()
    ensures DAY == 24 * 60 * MINUTE && MINUTE == 60 * 1_000_000
  {
  }

  /** An entry plans the minutes due on its day, and lists the tasks with deadline and duration that are due then, as
      often as they are in the input: sorted by deadline, priority and name. */
  lemma EntryIsExact(summaries: seq<TaskSummary>, budget: int, day: int)
    ensures var p := EntryOf(summaries, budget, day);
            && p.day == day && p.planned == Load(summaries, day) == Sum(Minutes, p.tasks) && p.budget == budget
            && multiset(p.tasks) == multiset(OnDay(summaries, day))
    ensures var p := EntryOf(summaries, budget, day);
            forall t :: multiset(p.tasks)[t] ==
                        if t.deadline.Some? && t.duration.Some? && day * DAY <= t.deadline.value < (day + 1) * DAY
                        then multiset(summaries)[t] else 0
    ensures var p := EntryOf(summaries, budget, day);
            forall i, j :: 0 <= i < j < |p.tasks| ==> StandsBefore(p.tasks[i], p.tasks[j])
  {
    hide StandsBefore, Load, DueOn, SortBy, Minutes, Collect;
    DisplayOrder();
    LoadIsPlanned(summaries, day);
    SortPermutes(DisplayLe, OnDay(summaries, day));
    SortOrders(DisplayLe, OnDay(summaries, day));
    SumPermutes(Minutes, EntryOf(summaries, budget, day).tasks, OnDay(summaries, day));
    forall t: TaskSummary
      ensures multiset(OnDay(summaries, day))[t] ==
              if t.deadline.Some? && t.duration.Some? && day * DAY <= t.deadline.value < (day + 1) * DAY
              then multiset(summaries)[t] else 0
    {
      KeptCounts(KeepDueOn(day), summaries, t);
      DueOnIs(day, t);
    }
  }

  lemma DueOnIs(day: int, t: TaskSummary)
    ensures DueOn(day, t) <==>
              t.deadline.Some? && t.duration.Some? && day * DAY <= t.deadline.value < (day + 1) * DAY
  {
    if t.deadline.Some? { DayFits(t.deadline.value); }
  }

  // ----- Conservation -----

  function TasksOf(p: DailyPressure): seq<TaskSummary> {
    p.tasks
  }

  function Planned(p: DailyPressure): int {
    p.planned
  }

  function DayTasks(summaries: seq<TaskSummary>): int -> seq<TaskSummary> {
    day => SortBy(DisplayLe, OnDay(summaries, day))
  }

  function KeepDueAmong(days: seq<int>): TaskSummary -> seq<TaskSummary> {
    t => if IsTimed(t) && DayOf(t.deadline.value) in days then [t] else []
  }

  lemma OneMoreDay(summaries: seq<TaskSummary>, front: seq<int>, day: int)
    requires day !in front
    ensures multiset(Collect(KeepDueAmong(front + [day]), summaries))
         == multiset(Collect(KeepDueAmong(front), summaries)) + multiset(OnDay(summaries, day))
  {
    hide Collect;
    forall t | t in summaries
      ensures multiset(KeepDueAmong(front + [day])(t)) == multiset(KeepDueAmong(front)(t)) + multiset(KeepDueOn(day)(t))
    {
    }
    CollectsAdd(KeepDueAmong(front), KeepDueOn(day), KeepDueAmong(front + [day]), summaries);
  }

  lemma NoDays(summaries: seq<TaskSummary>)
    ensures Collect(KeepDueAmong([]), summaries) == []
  {
    CollectAgrees(KeepDueAmong([]), Nothing, summaries);
    NothingCollected(summaries);
  }

  lemma {:induction false} DaysPartition(summaries: seq<TaskSummary>, days: seq<int>)
    requires Distinct(days)
    ensures multiset(Collect(DayTasks(summaries), days)) == multiset(Collect(KeepDueAmong(days), summaries))
  {
    if days == [] {
      NoDays(summaries);
    } else {
      LastIsNew(days);
      hide Distinct, OnDay, KeepDueAmong, SortBy;
      var front, day := days[..|days| - 1], days[|days| - 1];
      DaysPartition(summaries, front);
      OneMoreDay(summaries, front, day);
      SortPermutes(DisplayLe, OnDay(summaries, day));
    }
  }

  function Nothing(t: TaskSummary): seq<TaskSummary> {
    []
  }

  lemma {:induction false} NothingCollected(summaries: seq<TaskSummary>)
    ensures Collect(Nothing, summaries) == []
  {
    if summaries != [] { NothingCollected(summaries[..|summaries| - 1]); }
  }

  /** The entries partition the timed tasks: each is listed in exactly one, as often as it is in the input. */
  lemma PressuresPartitionTasks(summaries: seq<TaskSummary>, budget: int)
    ensures multiset(Collect(TasksOf, Pressures(summaries, budget))) == multiset(Collect(KeepTimed, summaries))
  {
    var days, entries := DaysSeen(summaries), Entries(summaries, budget);
    SortPermutes(EarlierDay, entries);
    CollectPermutes(TasksOf, Pressures(summaries, budget), entries);
    forall day: int ensures DayTasks(summaries)(day) == Collect(TasksOf, Entry(summaries, budget)(day)) {
      CollectOfOne(TasksOf, EntryOf(summaries, budget, day));
    }
    CollectOfCollected(TasksOf, Entry(summaries, budget), DayTasks(summaries), days);
    DaysSeenAreTheDays(summaries);
    DaysPartition(summaries, days);
    forall t | t in summaries ensures KeepDueAmong(days)(t) == KeepTimed(t) {
      if IsTimed(t) { assert DueOn(DayOf(t.deadline.value), t); }
    }
    CollectAgrees(KeepDueAmong(days), KeepTimed, summaries);
  }

  /** No minute is lost or counted twice: what the days plan, and the durations of the tasks without a deadline, add
      up to the total. */
  lemma MinutesAreConserved(summaries: seq<TaskSummary>, budget: int)
    ensures Sum(Planned, Pressures(summaries, budget)) + Sum(UndatedMinutes, summaries) == Total(summaries)
  {
    var ps := Pressures(summaries, budget);
    PressureOfEachDay(summaries, budget);
    forall p | p in ps ensures Planned(p) == Sum(Minutes, TasksOf(p)) {
      EntryIsExact(summaries, budget, p.day);
      LoadIsPlanned(summaries, p.day);
      SumPermutes(Minutes, TasksOf(p), OnDay(summaries, p.day));
    }
    SumOfCollected(Minutes, TasksOf, Planned, ps);
    PressuresPartitionTasks(summaries, budget);
    SumPermutes(Minutes, Collect(TasksOf, ps), Collect(KeepTimed, summaries));
    forall t: TaskSummary ensures TimedMinutes(t) == Sum(Minutes, KeepTimed(t)) {
      SumOfOne(Minutes, t);
    }
    SumOfCollected(Minutes, KeepTimed, TimedMinutes, summaries);
    SumsAdd(TimedMinutes, UndatedMinutes, Minutes, summaries);
  }

  // ----- Overload -----

  datatype OverloadWarning = OverloadWarning(day: int, planned: int, budget: int, excess: int, tasks: seq<TaskSummary>)

  function WarningFor(p: DailyPressure): seq<OverloadWarning> {
    if p.planned > p.budget then [OverloadWarning(p.day, p.planned, p.budget, p.planned - p.budget, p.tasks)] else []
  }

  function Overloads(ps: seq<DailyPressure>): seq<OverloadWarning> {
    Collect(WarningFor, ps)
  }

  function OverloadsOf(summaries: seq<TaskSummary>, budget: int): seq<OverloadWarning> {
    Overloads(Pressures(summaries, budget))
  }

  lemma {:induction false} WarningsIncrease(ps: seq<DailyPressure>)
    requires Increasing(ps)
    ensures var ws := Overloads(ps); forall i, j :: 0 <= i < j < |ws| ==> ws[i].day < ws[j].day
    ensures forall w :: w in Overloads(ps) ==> exists p :: p in ps && w in WarningFor(p)
  {
    if ps != [] {
      var front, last := ps[..|ps| - 1], ps[|ps| - 1];
      WarningsIncrease(front);
      assert last in ps && forall p :: p in front ==> p in ps;
      forall w | w in Overloads(front) ensures w.day < last.day {
        var p :| p in front && w in WarningFor(p);
      }
    }
  }

  lemma {:induction false} NoLoadWithoutTasks(summaries: seq<TaskSummary>, day: int)
    requires forall t :: t in summaries ==> !DueOn(day, t)
    ensures Load(summaries, day) == 0
  {
    if summaries != [] { NoLoadWithoutTasks(summaries[..|summaries| - 1], day); }
  }

  lemma EntryOrNoLoad(summaries: seq<TaskSummary>, budget: int, day: int)
    ensures Increasing(Pressures(summaries, budget))
    ensures var p := EntryOf(summaries, budget, day);
            && p.day == day && p.budget == budget && p.planned == Load(summaries, day)
            && (p in Pressures(summaries, budget) || Load(summaries, day) == 0)
    ensures forall q :: q in Pressures(summaries, budget) && q.day == day ==> q == EntryOf(summaries, budget, day)
  {
    EntryHasItsDay(summaries, budget);
    EntryIsExact(summaries, budget, day);
    PressureOfEachDay(summaries, budget);
    hide EntryOf, Pressures, DueOn, Increasing;
    if forall t :: t in summaries ==> !DueOn(day, t) { NoLoadWithoutTasks(summaries, day); }
  }

  /** Warned of are exactly the days on which more is due than the budget allows, each once and in order, with the
      excess over the budget. */
  lemma OverloadIsExact(summaries: seq<TaskSummary>, budget: int, day: int)
    requires budget >= 0
    ensures var ws := OverloadsOf(summaries, budget); forall i, j :: 0 <= i < j < |ws| ==> ws[i].day < ws[j].day
    ensures (exists w :: w in OverloadsOf(summaries, budget) && w.day == day) <==> Load(summaries, day) > budget
    ensures forall w :: w in OverloadsOf(summaries, budget) && w.day == day ==>
              w.planned == Load(summaries, day) == budget + w.excess && w.excess > 0
  {
    hide EntryOf, Pressures, Increasing, Load;
    var ps, p := Pressures(summaries, budget), EntryOf(summaries, budget, day);
    EntryOrNoLoad(summaries, budget, day);
    WarningsIncrease(ps);
    forall w | w in Overloads(ps) && w.day == day ensures p in ps && w in WarningFor(p) {
      var q :| q in ps && w in WarningFor(q);
    }
    if p in ps && p.planned > budget {
      var w := WarningFor(p)[0];
      CollectedFrom(WarningFor, ps, w);
      assert w in OverloadsOf(summaries, budget) && w.day == day;
    }
  }
}
