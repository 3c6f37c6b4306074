/** The workload analysis service, loop by loop. */
module WorkloadAnalysis {
  import opened Wrappers
  import opened Calendar
  import opened Sequences
  import opened Tasks
  import opened Workload
  import opened FeasibilityWindows

  datatype Analysis = Analysis(
    totalTasks: nat, recommendedOrder: seq<TaskSummary>, windows: seq<Window>, totalPlanned: int,
    dailyPressure: seq<DailyPressure>, overloads: seq<OverloadWarning>, schedulingPressure: seq<SchedulingPressure>)

  /** The result, or the schema's refusal of a negative total. */
  function AnalysisOf(tasks: seq<TaskSummary>, budget: int): Result<Analysis> {
    var summaries := Active(tasks);
    if Total(summaries) < 0 then Err(ValidationError)
    else
      Ok(Analysis(|summaries|, SortBy(DisplayLe, summaries), Windows(summaries), Total(summaries),
                  Pressures(summaries, budget), OverloadsOf(summaries, budget), Reports(Windows(summaries))))
  }

  /** The tasks that tie with t in deadline, priority and name. */
  function KeepTied(t: TaskSummary): TaskSummary -> seq<TaskSummary> {
    u => if DisplayLe(t, u) && DisplayLe(u, t) then [u] else []
  }

  /** The recommended order holds exactly the active tasks, sorted by deadline, priority and name; tasks that tie stay
      in the order of the input. */
  lemma RecommendedOrderIsStable(tasks: seq<TaskSummary>, budget: int, t: TaskSummary)
    requires AnalysisOf(tasks, budget).Ok?
    ensures var order := AnalysisOf(tasks, budget).value.recommendedOrder;
            && multiset(order)[t] == (if t.status == Todo || t.status == InProgress then multiset(tasks)[t] else 0)
            && (forall i, j :: 0 <= i < j < |order| ==> StandsBefore(order[i], order[j]))
            && Collect(KeepTied(t), order) == Collect(KeepTied(t), Active(tasks))
  {
    hide StandsBefore, Collect, SortBy, Pressures, OverloadsOf, Reports, Windows, Total;
    DisplayOrder();
    SortOrders(DisplayLe, Active(tasks));
    SortPermutes(DisplayLe, Active(tasks));
    SortIsStable(DisplayLe, KeepTied(t), Active(tasks));
    ActiveCounts(tasks, t);
  }

  /** The entry plans the tasks due on its day. */
  ghost predicate PlansItsDay(p: DailyPressure, order: seq<TaskSummary>, budget: int) {
    && p.budget == budget && p.planned == Sum(Minutes, p.tasks) && p.tasks != []
    && (forall t :: multiset(p.tasks)[t] ==
                    if t.deadline.Some? && t.duration.Some? && p.day * DAY <= t.deadline.value < (p.day + 1) * DAY
                    then multiset(order)[t] else 0)
    && (forall i, j :: 0 <= i < j < |p.tasks| ==> StandsBefore(p.tasks[i], p.tasks[j]))
  }

  lemma EntriesPlanTheirDays(summaries: seq<TaskSummary>, order: seq<TaskSummary>, budget: int, p: DailyPressure)
    requires multiset(order) == multiset(summaries) && p in Pressures(summaries, budget)
    ensures PlansItsDay(p, order, budget)
  {
    hide EntryOf, Pressures, StandsBefore, Minutes, Load, Increasing;
    PressureOfEachDay(summaries, budget);
    EntryIsExact(summaries, budget, p.day);
    var t :| t in summaries && DueOn(p.day, t);
    DueOnIs(p.day, t);
    assert multiset(p.tasks)[t] == multiset(summaries)[t] > 0;
    assert t in multiset(p.tasks);
  }

  lemma TimedTasksArePlanned(summaries: seq<TaskSummary>, budget: int, t: TaskSummary)
    requires t in summaries && t.deadline.Some? && t.duration.Some?
    ensures exists p :: p in Pressures(summaries, budget) && t in p.tasks
  {
    hide EntryOf, Pressures, StandsBefore, Minutes, Load, Increasing;
    var day := DayOf(t.deadline.value);
    var p := EntryOf(summaries, budget, day);
    EntryHasItsDay(summaries, budget);
    PressureOfEachDay(summaries, budget);
    EntryIsExact(summaries, budget, day);
    assert DueOn(day, t);
    DueOnIs(day, t);
    assert multiset(p.tasks)[t] == multiset(summaries)[t] > 0;
    assert t in multiset(p.tasks);
  }

  lemma WarningsAreExact(ps: seq<DailyPressure>, w: OverloadWarning)
    ensures w in Overloads(ps) <==>
              exists p :: p in ps && p.planned > p.budget &&
                w == OverloadWarning(p.day, p.planned, p.budget, p.planned - p.budget, p.tasks)
  {
    CollectedFrom(WarningFor, ps, w);
    forall p | p in ps && p.planned > p.budget && w == OverloadWarning(p.day, p.planned, p.budget, p.planned - p.budget,
                                                                      p.tasks)
      ensures w in WarningFor(p)
    {
    }
  }

  lemma OrderHasTheWindows(summaries: seq<TaskSummary>, order: seq<TaskSummary>)
    requires multiset(order) == multiset(summaries)
    ensures multiset(Windows(summaries)) == multiset(Collect(KeepWindow, order))
    ensures Sum(Minutes, order) == Total(summaries)
  {
    hide Windows;
    WindowsAreSorted(summaries);
    CollectPermutes(KeepWindow, order, summaries);
    SumPermutes(Minutes, order, summaries);
  }

  /** The rest of the analysis is about the tasks of the recommended order: their number and minutes, a window for each
      that has a deadline and a duration, an entry for each day on which one is due, a warning for each of these days
      with more minutes than the budget, and an entry for each pair of windows that overlap. */
  lemma AnalysisFits(tasks: seq<TaskSummary>, budget: int)
    requires AnalysisOf(tasks, budget).Ok?
    ensures var a := AnalysisOf(tasks, budget).value;
            && a.totalTasks == |a.recommendedOrder| && a.totalPlanned == Sum(Minutes, a.recommendedOrder) >= 0
            && multiset(a.windows) == multiset(Collect(KeepWindow, a.recommendedOrder))
            && (forall i, j :: 0 <= i < j < |a.dailyPressure| ==> a.dailyPressure[i].day < a.dailyPressure[j].day)
            && (forall p :: p in a.dailyPressure ==> PlansItsDay(p, a.recommendedOrder, budget))
            && (forall t :: t in a.recommendedOrder && t.deadline.Some? && t.duration.Some? ==>
                  exists p :: p in a.dailyPressure && t in p.tasks)
            && (forall w :: w in a.overloads <==>
                  exists p :: p in a.dailyPressure && p.planned > p.budget &&
                    w == OverloadWarning(p.day, p.planned, p.budget, p.planned - p.budget, p.tasks))
            && (forall e :: multiset(a.schedulingPressure)[e] == |Behind(a.windows, e)|)
  {
    hide Pressures, Windows, Reports, Total, Behind, PlansItsDay, SortBy, Active, Overloads, Minutes;
    var summaries := Active(tasks);
    var order := SortBy(DisplayLe, summaries);
    SortPermutes(DisplayLe, summaries);
    assert |multiset(order)| == |multiset(summaries)|;
    SameMembers(order, summaries);
    OrderHasTheWindows(summaries, order);
    PressuresIncrease(summaries, budget);
    var ps := Pressures(summaries, budget);
    forall p | p in ps ensures PlansItsDay(p, order, budget) { EntriesPlanTheirDays(summaries, order, budget, p); }
    forall t | t in order && t.deadline.Some? && t.duration.Some? ensures exists p :: p in ps && t in p.tasks {
      TimedTasksArePlanned(summaries, budget, t);
    }
    forall w { WarningsAreExact(ps, w); }
    forall e { PressureIsExact(Windows(summaries), e); }
  }

  method FilterActiveTasks(tasks: seq<TaskSummary>) returns (result: seq<TaskSummary>)
    ensures result == Active(tasks)
    ensures forall t :: multiset(result)[t] ==
              if t.status == Todo || t.status == InProgress then multiset(tasks)[t] else 0
  {
    result := [];
    for i := 0 to |tasks|
      invariant result == Collect(KeepActive, tasks[..i])
    {
      CollectOneMore(KeepActive, tasks, i);
      if IsActive(tasks[i]) {
        result := result + [tasks[i]];
      }
    }
    TakeAll(tasks);
    forall t: TaskSummary { ActiveCounts(tasks, t); }
  }

  method CalculateFeasibilityWindows(summaries: seq<TaskSummary>) returns (windows: seq<Window>)
    ensures windows == Windows(summaries)
  {
    windows := [];
    for i := 0 to |summaries|
      invariant windows == Collect(KeepWindow, summaries[..i])
    {
      CollectOneMore(KeepWindow, summaries, i);
      var summary := summaries[i];
      if summary.deadline.None? || summary.duration.None? {
        continue;
      }
      var latestStart := summary.deadline.value - summary.duration.value * MINUTE;
      var window := Window(summary.id, summary.name, summary.deadline.value, summary.duration.value, latestStart);
      windows := windows + [window];
    }
    TakeAll(summaries);
    windows := SortBy(WindowLe, windows);
  }

  method CalculateTotalPlannedMinutes(summaries: seq<TaskSummary>) returns (total: int)
    ensures total == Total(summaries)
  {
    total := 0;
    for i := 0 to |summaries|
      invariant total == Sum(Minutes, summaries[..i])
    {
      SumOneMore(Minutes, summaries, i);
      if summaries[i].duration.Some? {
        total := total + summaries[i].duration.value;
      }
    }
    TakeAll(summaries);
  }

  lemma OnDayOneMore(summaries: seq<TaskSummary>, i: nat)
    requires i < |summaries|
    ensures forall day: int :: OnDay(summaries[..i + 1], day) ==
                               OnDay(summaries[..i], day) + (if DueOn(day, summaries[i]) then [summaries[i]] else [])
  {
    forall day: int
      ensures OnDay(summaries[..i + 1], day)
           == OnDay(summaries[..i], day) + (if DueOn(day, summaries[i]) then [summaries[i]] else [])
    {
      CollectOneMore(KeepDueOn(day), summaries, i);
    }
  }

  lemma NothingSeen()
    ensures forall day: int :: OnDay([], day) == []
  {
  }

  /** The dictionary of the days' tasks, and its keys in the order they were inserted. */
  method GroupByDay(summaries: seq<TaskSummary>) returns (groups: map<int, seq<TaskSummary>>, order: seq<int>)
    ensures order == DaysSeen(summaries)
    ensures forall day :: day in groups <==> day in order
    ensures forall day :: day in groups ==> groups[day] == OnDay(summaries, day)
  {
    hide OnDay;
    groups, order := map[], [];
    NothingSeen();
    for i := 0 to |summaries|
      invariant order == DaysSeen(summaries[..i])
      invariant forall day :: day in groups <==> day in order
      invariant forall day :: day in groups ==> groups[day] == OnDay(summaries[..i], day)
      invariant forall day :: day !in groups ==> OnDay(summaries[..i], day) == []
    {
      var summary := summaries[i];
      TakeOneMore(summaries, i);
      OnDayOneMore(summaries, i);
      if summary.deadline.None? || summary.duration.None? {
        continue;
      }
      var utcDate := DayOf(summary.deadline.value);
      if utcDate !in groups {
        groups, order := groups[utcDate := []], order + [utcDate];
      }
      groups := groups[utcDate := groups[utcDate] + [summary]];
    }
    TakeAll(summaries);
  }

  method CalculateDailyPressure(summaries: seq<TaskSummary>, budget: int) returns (pressures: seq<DailyPressure>)
    ensures pressures == Pressures(summaries, budget)
  {
    var tasksByDate, order := GroupByDay(summaries);
    pressures := [];
    for i := 0 to |order|
      invariant pressures == Collect(Entry(summaries, budget), order[..i])
    {
      CollectOneMore(Entry(summaries, budget), order, i);
      var day := order[i];
      var tasks := tasksByDate[day];
      var planned := CalculateTotalPlannedMinutes(tasks);
      pressures := pressures + [DailyPressure(day, planned, budget, SortBy(DisplayLe, tasks))];
    }
    TakeAll(order);
    pressures := SortBy(EarlierDay, pressures);
  }

  method CalculateOverloadWarnings(dailyPressure: seq<DailyPressure>) returns (warnings: seq<OverloadWarning>)
    ensures warnings == Overloads(dailyPressure)
  {
    warnings := [];
    for i := 0 to |dailyPressure|
      invariant warnings == Collect(WarningFor, dailyPressure[..i])
    {
      CollectOneMore(WarningFor, dailyPressure, i);
      var pressure := dailyPressure[i];
      if pressure.planned > pressure.budget {
        var excess := pressure.planned - pressure.budget;
        var warning := OverloadWarning(pressure.day, pressure.planned, pressure.budget, excess, pressure.tasks);
        warnings := warnings + [warning];
      }
    }
    TakeAll(dailyPressure);
  }

  /** The index pairs met before the inner loop of i comes to j. */
  ghost function Met(ws: seq<Window>, i: nat, j: nat): seq<Indices>
    requires i < |ws| && i < j <= |ws|
  {
    OverlapsBefore(ws, i) + OverlapsWith(ws, i, j)
  }

  lemma MetGrows(ws: seq<Window>, i: nat, j: nat)
    requires i < j < |ws|
    ensures Met(ws, i, j + 1) == Met(ws, i, j) + (if Overlap(ws[i], ws[j]) then [Indices(i, j)] else [])
  {
    hide OverlapsBefore, Overlap;
    var row := OverlapsWith(ws, i, j);
    assert OverlapsWith(ws, i, j + 1) == row + (if Overlap(ws[i], ws[j]) then [Indices(i, j)] else []);
  }

  lemma MeetOneMore(ws: seq<Window>, i: nat, j: nat)
    requires i < j < |ws|
    ensures Collect(PairAt(ws), Met(ws, i, j + 1)) ==
            Collect(PairAt(ws), Met(ws, i, j)) + (if Overlap(ws[i], ws[j]) then [InNameOrder(ws[i], ws[j])] else [])
  {
    hide Met, Overlap, InNameOrder, Collect;
    MetGrows(ws, i, j);
    var met, pairs := Met(ws, i, j), Collect(PairAt(ws), Met(ws, i, j));
    CollectAppend(PairAt(ws), met, [Indices(i, j)]);
    CollectOfOne(PairAt(ws), Indices(i, j));
    assert met + [] == met && pairs + [] == pairs;
  }

  lemma MeetRow(ws: seq<Window>, i: nat)
    requires i < |ws|
    ensures Met(ws, i, i + 1) == OverlapsBefore(ws, i) && Met(ws, i, |ws|) == OverlapsBefore(ws, i + 1)
  {
  }

  method DetectSchedulingPressure(windows: seq<Window>) returns (overlaps: seq<(Window, Window)>)
    ensures overlaps == OverlappingPairs(windows)
  {
    hide Collect, OverlapsBefore, OverlapsWith, Met;
    overlaps := [];
    NothingMet(windows);
    for i := 0 to |windows|
      invariant overlaps == Collect(PairAt(windows), OverlapsBefore(windows, i))
    {
      MeetRow(windows, i);
      for j := i + 1 to |windows|
        invariant overlaps == Collect(PairAt(windows), Met(windows, i, j))
      {
        MeetOneMore(windows, i, j);
        var a, b := windows[i], windows[j];
        var maxStart := Max(a.latestStart, b.latestStart);
        var minDeadline := Min(a.deadline, b.deadline);
        if maxStart < minDeadline {
          var pair := if TextBefore(a.name, b.name) then (a, b) else (b, a);
          overlaps := overlaps + [pair];
        }
      }
    }
    overlaps := SortBy(PairLe, overlaps);
  }

  lemma NothingMet(ws: seq<Window>)
    ensures Collect(PairAt(ws), OverlapsBefore(ws, 0)) == []
  {
  }

  method ConvertSchedulingPressure(pairs: seq<(Window, Window)>) returns (result: seq<SchedulingPressure>)
    ensures result == Collect(ReportFor, pairs)
  {
    result := [];
    for i := 0 to |pairs|
      invariant result == Collect(ReportFor, pairs[..i])
    {
      CollectOneMore(ReportFor, pairs, i);
      var a, b := pairs[i].0, pairs[i].1;
      var overlapStart := Max(a.latestStart, b.latestStart);
      var overlapEnd := Min(a.deadline, b.deadline);
      result := result + [SchedulingPressure(a.taskId, a.name, b.taskId, b.name, overlapStart, overlapEnd)];
    }
    TakeAll(pairs);
  }

  /** `analyze`, for the budget given or the service's own. */
  method Analyze(tasks: seq<TaskSummary>, budgetMinutes: Option<int>, defaultBudget: int) returns (r: Result<Analysis>)
    ensures r == AnalysisOf(tasks, if budgetMinutes.Some? then budgetMinutes.value else defaultBudget)
  {
    var budget := if budgetMinutes.Some? then budgetMinutes.value else defaultBudget;
    var summaries := FilterActiveTasks(tasks);
    var recommended := SortBy(DisplayLe, summaries);
    var windows := CalculateFeasibilityWindows(summaries);
    var total := CalculateTotalPlannedMinutes(summaries);
    var pressure := CalculateDailyPressure(summaries, budget);
    var overloads := CalculateOverloadWarnings(pressure);
    var pairs := DetectSchedulingPressure(windows);
    var scheduling := ConvertSchedulingPressure(pairs);
    if total < 0 {
      return Err(ValidationError);
    }
    r := Ok(Analysis(|summaries|, recommended, windows, total, pressure, overloads, scheduling));
  }
}
