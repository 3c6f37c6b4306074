/** The candidate generator, loop by loop. */
module ReschedulingGeneration {
  import opened Wrappers
  import opened Sequences
  import opened Tasks
  import opened Workload
  import opened WorkloadAnalysis
  import opened ReschedulingConstraints
  import opened ReschedulingCandidates

  predicate SlotLe(a: Slot, b: Slot) {
    a.start < b.start || (a.start == b.start && a.end <= b.end)
  }

  predicate IsBudget(budget: int) {
    0 < budget <= 1440
  }

  method KeepFirstOfEachId(tasks: seq<TaskSummary>) returns (unique: seq<TaskSummary>)
    ensures unique == Unique(tasks)
  {
    var seen: set<TaskId> := {};
    unique := [];
    for i := 0 to |tasks|
      invariant unique == Unique(tasks[..i])
      invariant forall id :: id in seen <==> id in Collect(IdOf, unique)
    {
      TakeOneMore(tasks, i);
      var t := tasks[i];
      if t.id !in seen {
        CollectAppend(IdOf, unique, [t]);
        CollectOfOne(IdOf, t);
        seen, unique := seen + {t.id}, unique + [t];
      }
    }
    TakeAll(tasks);
  }

  lemma ValidMinutes(tasks: seq<TaskSummary>)
    ensures Total(Active(Valid(tasks))) >= 0
  {
    hide Collect;
    forall t | t in Active(Valid(tasks)) ensures Minutes(t) >= 0 {
      CollectedFrom(KeepActive, Valid(tasks), t);
      CollectedFrom(KeepValid, tasks, t);
    }
    SumBounds(Minutes, Active(Valid(tasks)));
  }

  /** What is left after dropping durations that are not positive never has a negative total, so the analysis
      succeeds. */
  lemma ValidTasksAreAnalysed(tasks: seq<TaskSummary>, budget: int)
    ensures AnalysisOf(Valid(tasks), budget).Ok?
  {
    hide Total, Active, Valid;
    ValidMinutes(tasks);
  }

  lemma OneSlotSortsToItself(slots: seq<Slot>)
    requires |slots| == 1
    ensures |SortBy(SlotLe, slots)| == 1 && SortBy(SlotLe, slots)[0] == slots[0]
  {
    assert slots[..0] == [];
  }

  method SplitTasks(unique: seq<TaskSummary>, budget: int)
    returns (suggestions: seq<Suggestion>, unscheduled: seq<TaskSummary>)
    ensures suggestions == Collect(SuggestFor(unique, budget), unique)
    ensures unscheduled == Collect(LeaveFor(unique, budget), unique)
  {
    hide FitsBudget;
    suggestions, unscheduled := [], [];
    for i := 0 to |unique|
      invariant suggestions == Collect(SuggestFor(unique, budget), unique[..i])
      invariant unscheduled == Collect(LeaveFor(unique, budget), unique[..i])
    {
      CollectOneMore(SuggestFor(unique, budget), unique, i);
      CollectOneMore(LeaveFor(unique, budget), unique, i);
      var task := unique[i];
      if !IsActive(task) { continue; }
      if task.duration.None? || task.deadline.None? {
        unscheduled := unscheduled + [task];
        continue;
      }
      if task.duration.value <= 0 {
        unscheduled := unscheduled + [task];
        continue;
      }
      var slots := FindCandidateSlots(task, Some(unique), Some(budget), budget);
      if slots == [] {
        unscheduled := unscheduled + [task];
        continue;
      }
      OneSlotSortsToItself(slots);
      var best := SortBy(SlotLe, slots)[0];
      suggestions := suggestions + [Suggestion(task.id, task.name, task.duration.value, task.deadline.value, best)];
    }
    TakeAll(unique);
  }

  /** `generate_candidates`: the constructor has checked the service's own budget. */
  method GenerateCandidates(tasks: seq<TaskSummary>, budgetMinutes: Option<int>, defaultBudget: int)
    returns (r: Result<Rescheduling>)
    requires 0 < defaultBudget <= 1440
    ensures var budget := if budgetMinutes.Some? then budgetMinutes.value else defaultBudget;
            r == if 0 < budget <= 1440 then Ok(Candidates(tasks, budget)) else Err(ValueError)
  {
    var budget := if budgetMinutes.Some? then budgetMinutes.value else defaultBudget;
    if budget != defaultBudget && !IsBudget(budget) {
      return Err(ValueError);
    }
    if tasks == [] {
      NothingToMove(budget);
      return Ok(Rescheduling([], [], []));
    }
    var unique := KeepFirstOfEachId(tasks);
    var valid := Collect(KeepValid, unique);
    ValidTasksAreAnalysed(unique, budget);
    var analysis := Analyze(valid, Some(budget), defaultBudget);
    var overloadedDays := SortBy(DayLe, Collect(WarnedDay, analysis.value.overloads));
    var suggestions, unscheduled := SplitTasks(unique, budget);
    suggestions := SortBy(SuggestionLe(unique), suggestions);
    unscheduled := SortBy(TaskLe, unscheduled);
    return Ok(Rescheduling(suggestions, overloadedDays, unscheduled));
  }

  lemma NothingToMove(budget: int)
    ensures Candidates([], budget) == Rescheduling([], [], [])
  {
  }
}
