/** The slots a task could move to, found by one routine and checked by another. */
module ReschedulingConstraints {
  import opened Wrappers
  import opened Calendar
  import opened Sequences
  import opened Tasks
  import opened Workload

  datatype Slot = Slot(start: Instant, end: Instant, available: int)

  /** `int(delta.total_seconds() / 60)`: whole minutes, cut off towards zero. */
  function WholeMinutes(delta: int): int {
    if delta >= 0 then delta / MINUTE else -(-delta / MINUTE)
  }

  function OthersMinutes(id: TaskId, day: int): TaskSummary -> int {
    (t: TaskSummary) => if t.id != id && IsActive(t) && DueOn(day, t) then t.duration.value else 0
  }

  /** What the other active tasks due on the day leave of the budget is enough. */
  predicate HasCapacity(task: TaskSummary, day: int, all: seq<TaskSummary>, budget: int) {
    Sum(OthersMinutes(task.id, day), all) + Minutes(task) <= budget
  }

  /** A workload that is missing or empty sets no limit. */
  predicate FitsBudget(task: TaskSummary, day: int, allTasks: Option<seq<TaskSummary>>, budget: int) {
    allTasks.Some? && allTasks.value != [] ==> HasCapacity(task, day, allTasks.value, budget)
  }

  function LatestStart(task: TaskSummary): Instant
    requires IsTimed(task)
  {
    task.deadline.value - task.duration.value * MINUTE
  }

  /** At most one slot: the feasibility window itself. */
  function CandidateSlots(task: TaskSummary, allTasks: Option<seq<TaskSummary>>, budget: int): seq<Slot> {
    if IsTimed(task) && task.duration.value > 0 && FitsBudget(task, DayOf(LatestStart(task)), allTasks, budget)
    then [Slot(LatestStart(task), task.deadline.value, task.duration.value)]
    else []
  }

  method HasRemainingCapacity(task: TaskSummary, day: int, all: seq<TaskSummary>, budget: int) returns (fits: bool)
    requires task.duration.Some?
    ensures fits == HasCapacity(task, day, all, budget)
  {
    var totalOnDay := 0;
    for i := 0 to |all|
      invariant totalOnDay == Sum(OthersMinutes(task.id, day), all[..i])
    {
      SumOneMore(OthersMinutes(task.id, day), all, i);
      var other := all[i];
      if other.id == task.id { continue; }
      if other.deadline.None? || other.duration.None? { continue; }
      if DayOf(other.deadline.value) != day { continue; }
      if !IsActive(other) { continue; }
      totalOnDay := totalOnDay + other.duration.value;
    }
    TakeAll(all);
    return totalOnDay + task.duration.value <= budget;
  }

  /** `find_candidate_slots`: the length of the window in whole minutes is always the duration, so its checks on
      that length never turn a slot away. */
  method FindCandidateSlots(task: TaskSummary, allTasks: Option<seq<TaskSummary>>, budgetMinutes: Option<int>,
                            defaultBudget: int)
    returns (slots: seq<Slot>)
    ensures slots == CandidateSlots(task, allTasks, if budgetMinutes.Some? then budgetMinutes.value else defaultBudget)
  {
    var budget := if budgetMinutes.Some? then budgetMinutes.value else defaultBudget;
    if task.duration.None? || task.deadline.None? { return []; }
    if task.duration.value <= 0 { return []; }
    var candidateStart := task.deadline.value - task.duration.value * MINUTE;
    var candidateEnd := task.deadline.value;
    var candidateDuration := WholeMinutes(candidateEnd - candidateStart);
    if candidateDuration < task.duration.value { return []; }
    if candidateDuration != task.duration.value {
      assert false; // the realignment to the deadline is never needed
    }
    if allTasks.Some? && |allTasks.value| > 0 {
      var fits := HasRemainingCapacity(task, DayOf(candidateStart), allTasks.value, budget);
      if !fits { return []; }
    }
    return [Slot(candidateStart, candidateEnd, task.duration.value)];
  }

  /** `validate_candidate` */
  predicate ValidateCandidate(task: TaskSummary, slot: Slot, allTasks: Option<seq<TaskSummary>>, budget: int) {
    if task.duration.None? || task.deadline.None? then false
    else if task.duration.value <= 0 then false
    else if WholeMinutes(slot.end - slot.start) < task.duration.value then false
    else if slot.end > task.deadline.value then false
    else if slot.start < task.deadline.value - task.duration.value * MINUTE then false
    else if slot.end <= slot.start then false
    else if slot.available < task.duration.value then false
    else if allTasks.Some? && |allTasks.value| > 0 then HasCapacity(task, DayOf(slot.start), allTasks.value, budget)
    else true
  }

  /** The validator accepts exactly the slots the generator finds, though it was written separately and cuts lengths
      off to whole minutes: the canonical slot is the only acceptable one. */
  lemma ValidatorAcceptsWhatIsFound(task: TaskSummary, slot: Slot, allTasks: Option<seq<TaskSummary>>, budget: int)
    ensures ValidateCandidate(task, slot, allTasks, budget) <==>
              exists found :: found in CandidateSlots(task, allTasks, budget) &&
                found.start == slot.start && found.end == slot.end &&
                task.duration.Some? && slot.available >= task.duration.value
  {
    hide HasCapacity, DayOf;
    if ValidateCandidate(task, slot, allTasks, budget) {
      assert slot.end - slot.start >= task.duration.value * MINUTE;
      assert CandidateSlots(task, allTasks, budget) == [Slot(slot.start, slot.end, task.duration.value)];
    }
    forall found | found in CandidateSlots(task, allTasks, budget) && found.start == slot.start && found.end == slot.end
                   && slot.available >= task.duration.value
      ensures ValidateCandidate(task, slot, allTasks, budget)
    {
      assert slot.end - slot.start == task.duration.value * MINUTE;
    }
  }
}
