/** What the candidate generator computes from a whole workload. */
module ReschedulingCandidates {
  import opened Wrappers
  import opened Calendar
  import opened Sequences
  import opened Tasks
  import opened Workload
  import opened ReschedulingConstraints

  function IdOf(t: TaskSummary): seq<TaskId> {
    [t.id]
  }

  /** The first task of each id. */
  function Unique(tasks: seq<TaskSummary>): seq<TaskSummary> {
    if tasks == [] then []
    else
      var last, before := tasks[|tasks| - 1], Unique(tasks[..|tasks| - 1]);
      if last.id in Collect(IdOf, before) then before else before + [last]
  }

  function KeepValid(t: TaskSummary): seq<TaskSummary> {
    if t.duration.None? || t.duration.value > 0 then [t] else []
  }

  function Valid(tasks: seq<TaskSummary>): seq<TaskSummary> {
    Collect(KeepValid, tasks)
  }

  function WarnedDay(w: OverloadWarning): seq<int> {
    [w.day]
  }

  predicate DayLe(a: int, b: int) {
    a <= b
  }

  /** The days the workload analysis of the valid tasks warns of. */
  function OverloadedDays(tasks: seq<TaskSummary>, budget: int): seq<int> {
    SortBy(DayLe, Collect(WarnedDay, OverloadsOf(Active(Valid(tasks)), budget)))
  }

  datatype Suggestion = Suggestion(taskId: TaskId, name: string, duration: int, deadline: Instant, slot: Slot)

  function SlotsFor(tasks: seq<TaskSummary>, budget: int, t: TaskSummary): seq<Slot> {
    CandidateSlots(t, Some(tasks), budget)
  }

  function SuggestFor(tasks: seq<TaskSummary>, budget: int): TaskSummary -> seq<Suggestion> {
    t => var slots := SlotsFor(tasks, budget, t);
         if IsActive(t) && slots != []
         then [Suggestion(t.id, t.name, t.duration.value, t.deadline.value, slots[0])]
         else []
  }

  function LeaveFor(tasks: seq<TaskSummary>, budget: int): TaskSummary -> seq<TaskSummary> {
    t => if IsActive(t) && SlotsFor(tasks, budget, t) == [] then [t] else []
  }

  /** The priority of the first task with the id, LOW without one. */
  function PriorityOf(tasks: seq<TaskSummary>, id: TaskId): Priority {
    if tasks == [] then Low else if tasks[0].id == id then tasks[0].priority else PriorityOf(tasks[1..], id)
  }

  /** The key (deadline, priority, name, id). */
  predicate SuggestedLe(tasks: seq<TaskSummary>, a: Suggestion, b: Suggestion) {
    var p, q := PriorityKey(PriorityOf(tasks, a.taskId)), PriorityKey(PriorityOf(tasks, b.taskId));
    || a.deadline < b.deadline
    || (a.deadline == b.deadline && p < q)
    || (a.deadline == b.deadline && p == q && TextBefore(a.name, b.name))
    || (a.deadline == b.deadline && p == q && a.name == b.name && a.taskId <= b.taskId)
  }

  function SuggestionLe(tasks: seq<TaskSummary>): (Suggestion, Suggestion) -> bool {
    (a, b) => SuggestedLe(tasks, a, b)
  }

  datatype Rescheduling = Rescheduling(suggestions: seq<Suggestion>, overloadedDays: seq<int>,
      unscheduled: seq<TaskSummary>)

  function Plan(tasks: seq<TaskSummary>, budget: int): Rescheduling {
    Rescheduling(SortBy(SuggestionLe(tasks), Collect(SuggestFor(tasks, budget), tasks)),
                 OverloadedDays(tasks, budget),
                 SortBy(TaskLe, Collect(LeaveFor(tasks, budget), tasks)))
  }

  /** What `generate_candidates` returns for a budget in force. */
  function Candidates(tasks: seq<TaskSummary>, budget: int): Rescheduling {
    Plan(Unique(tasks), budget)
  }

  // ----- Keeping the first of each id -----

  lemma IdsOf(tasks: seq<TaskSummary>, id: TaskId)
    ensures id in Collect(IdOf, tasks) <==> exists t :: t in tasks && t.id == id
  {
    CollectedFrom(IdOf, tasks, id);
    forall t | t in tasks && t.id == id ensures id in IdOf(t) {
    }
  }

  /** The first task with its id. */
  ghost predicate FirstIn(tasks: seq<TaskSummary>, t: TaskSummary) {
    exists k :: 0 <= k < |tasks| && tasks[k] == t && forall j :: 0 <= j < k ==> tasks[j].id != t.id
  }

  lemma FirstGrows(front: seq<TaskSummary>, last: TaskSummary, t: TaskSummary)
    ensures FirstIn(front + [last], t) <==>
              FirstIn(front, t) || (t == last && forall u :: u in front ==> u.id != last.id)
  {
    var tasks := front + [last];
    assert forall j :: 0 <= j < |front| ==> tasks[j] == front[j] && front[j] in front;
    if FirstIn(front, t) {
      var k :| 0 <= k < |front| && front[k] == t && forall j :: 0 <= j < k ==> front[j].id != t.id;
      assert tasks[k] == t && forall j :: 0 <= j < k ==> tasks[j].id != t.id;
    } else if t == last && forall u :: u in front ==> u.id != last.id {
      assert tasks[|front|] == t;
    }
  }

  /** Each id is kept once. */
  lemma {:induction false} EachIdIsKeptOnce(tasks: seq<TaskSummary>)
    ensures DistinctIds(Unique(tasks))
    ensures forall id :: id in Collect(IdOf, Unique(tasks)) <==> id in Collect(IdOf, tasks)
  {
    if tasks != [] {
      var front, last := tasks[..|tasks| - 1], tasks[|tasks| - 1];
      EachIdIsKeptOnce(front);
      CollectAppend(IdOf, Unique(front), [last]);
      CollectOfOne(IdOf, last);
      forall t | t in Unique(front) ensures t.id in Collect(IdOf, Unique(front)) {
        IdsOf(Unique(front), t.id);
      }
    }
  }

  /** Kept are exactly the first tasks of each id. */
  lemma {:induction false} UniqueKeepsFirst(tasks: seq<TaskSummary>)
    ensures forall t :: t in Unique(tasks) <==> FirstIn(tasks, t)
  {
    hide FirstIn, Collect;
    if tasks == [] {
      NothingIsFirst();
    } else {
      var front, last := tasks[..|tasks| - 1], tasks[|tasks| - 1];
      UniqueKeepsFirst(front);
      EachIdIsKeptOnce(front);
      IdsOf(front, last.id);
      assert tasks == front + [last];
      forall t ensures t in Unique(tasks) <==> FirstIn(tasks, t) {
        FirstGrows(front, last, t);
      }
    }
  }

  lemma NothingIsFirst()
    ensures forall t :: !FirstIn([], t)
  {
  }

  lemma {:induction false} DistinctIsUnique(tasks: seq<TaskSummary>)
    requires DistinctIds(tasks)
    ensures Unique(tasks) == tasks
  {
    if tasks != [] {
      var front, last := tasks[..|tasks| - 1], tasks[|tasks| - 1];
      DistinctIsUnique(front);
      IdsOf(front, last.id);
      assert tasks == front + [last];
    }
  }

  // ----- Two sums that must agree -----

  /** The minutes of an active task due on the day. */
  function MinutesOn(day: int, t: TaskSummary): int {
    if IsActive(t) && DueOn(day, t) then t.duration.value else 0
  }

  function ActiveMinutes(day: int): TaskSummary -> int {
    t => MinutesOn(day, t)
  }

  function PositiveMinutes(day: int): TaskSummary -> int {
    t => if MinutesOn(day, t) > 0 then MinutesOn(day, t) else 0
  }

  function NegativeMinutes(day: int): TaskSummary -> int {
    t => if MinutesOn(day, t) < 0 then MinutesOn(day, t) else 0
  }

  lemma SignsAdd(tasks: seq<TaskSummary>, day: int)
    ensures Sum(ActiveMinutes(day), tasks) == Sum(PositiveMinutes(day), tasks) + Sum(NegativeMinutes(day), tasks)
  {
    SumsAdd(PositiveMinutes(day), NegativeMinutes(day), ActiveMinutes(day), tasks);
  }

  function KeepValidActive(t: TaskSummary): seq<TaskSummary> {
    Collect(KeepActive, KeepValid(t))
  }

  /** The workload analysis of the valid tasks adds up the positive minutes. */
  lemma AnalysedLoad(tasks: seq<TaskSummary>, day: int)
    ensures Load(Active(Valid(tasks)), day) == Sum(PositiveMinutes(day), tasks)
  {
    CollectOfCollected(KeepActive, KeepValid, KeepValidActive, tasks);
    forall t: TaskSummary ensures PositiveMinutes(day)(t) == Sum(DayMinutes(day), KeepValidActive(t)) {
      CollectOfOne(KeepActive, t);
      SumOfOne(DayMinutes(day), t);
      assert KeepValidActive(t) == if KeepValid(t) == [] then [] else KeepActive(t);
    }
    SumOfCollected(DayMinutes(day), KeepValidActive, PositiveMinutes(day), tasks);
  }

  lemma OthersWithout(tasks: seq<TaskSummary>, id: TaskId, day: int)
    requires forall t :: t in tasks ==> t.id != id
    ensures Sum(OthersMinutes(id, day), tasks) == Sum(ActiveMinutes(day), tasks)
  {
    SumAgrees(OthersMinutes(id, day), ActiveMinutes(day), tasks);
  }

  /** The capacity check adds up what all other tasks of the day take. */
  lemma {:induction false} OthersAreTheRest(tasks: seq<TaskSummary>, task: TaskSummary, day: int)
    requires DistinctIds(tasks) && task in tasks
    ensures Sum(OthersMinutes(task.id, day), tasks) + MinutesOn(day, task) == Sum(ActiveMinutes(day), tasks)
  {
    var front, last := tasks[..|tasks| - 1], tasks[|tasks| - 1];
    assert tasks == front + [last];
    if last == task {
      OthersWithout(front, task.id, day);
    } else {
      OthersAreTheRest(front, task, day);
    }
  }

  // ----- Overloaded days -----

  predicate SortedDays(days: seq<int>) {
    forall i, j :: 0 <= i < j < |days| ==> days[i] < days[j]
  }

  lemma {:induction false} WarnedDays(ws: seq<OverloadWarning>)
    ensures |Collect(WarnedDay, ws)| == |ws| && forall k :: 0 <= k < |ws| ==> Collect(WarnedDay, ws)[k] == ws[k].day
  {
    if ws != [] { WarnedDays(ws[..|ws| - 1]); }
  }

  lemma DayOrder()
    ensures IsOrder(DayLe)
  {
  }

  lemma SortedDaysIncrease(days: seq<int>)
    requires Distinct(days)
    ensures SortedDays(SortBy(DayLe, days))
    ensures forall day :: day in SortBy(DayLe, days) <==> day in days
  {
    hide SortBy;
    DayOrder();
    SortPermutes(DayLe, days);
    SortOrders(DayLe, days);
    SameMembers(SortBy(DayLe, days), days);
    DistinctPermutes(days, SortBy(DayLe, days));
  }

  lemma WarningsAreOfDifferentDays(summaries: seq<TaskSummary>, budget: int)
    requires budget >= 0
    ensures Distinct(Collect(WarnedDay, OverloadsOf(summaries, budget)))
  {
    hide OverloadsOf, Load;
    OverloadIsExact(summaries, budget, 0);
    WarnedDays(OverloadsOf(summaries, budget));
  }

  lemma WarnedDaysAreExact(tasks: seq<TaskSummary>, budget: int, day: int)
    requires budget >= 0
    ensures day in Collect(WarnedDay, OverloadsOf(Active(Valid(tasks)), budget)) <==>
        Sum(PositiveMinutes(day), tasks) > budget
  {
    hide OverloadsOf, Load, PositiveMinutes, Active, Valid, Collect;
    OverloadIsExact(Active(Valid(tasks)), budget, day);
    AnalysedLoad(tasks, day);
    CollectedFrom(WarnedDay, OverloadsOf(Active(Valid(tasks)), budget), day);
    forall w ensures day in WarnedDay(w) <==> w.day == day {
    }
  }

  /** The overloaded days, in strictly increasing order, are those with more positive minutes than the budget. */
  lemma OverloadedDaysAreExact(tasks: seq<TaskSummary>, budget: int)
    requires budget >= 0
    ensures SortedDays(OverloadedDays(tasks, budget))
    ensures forall day :: day in OverloadedDays(tasks, budget) <==> Sum(PositiveMinutes(day), tasks) > budget
  {
    hide OverloadsOf, PositiveMinutes, Active, Valid, Collect, SortBy, SortedDays;
    WarningsAreOfDifferentDays(Active(Valid(tasks)), budget);
    SortedDaysIncrease(Collect(WarnedDay, OverloadsOf(Active(Valid(tasks)), budget)));
    forall day ensures day in OverloadedDays(tasks, budget) <==> Sum(PositiveMinutes(day), tasks) > budget {
      WarnedDaysAreExact(tasks, budget, day);
    }
  }

  // ----- When a task is suggested -----

  predicate CanMove(t: TaskSummary) {
    IsActive(t) && IsTimed(t) && t.duration.value > 0
  }

  function SlotDay(t: TaskSummary): int
    requires IsTimed(t)
  {
    DayOf(LatestStart(t))
  }

  /** What the task would add to the day its slot starts on. */
  function Added(t: TaskSummary): int
    requires IsTimed(t)
  {
    if DueOn(SlotDay(t), t) then 0 else t.duration.value
  }

  /** A task gets its slot exactly when the minutes due on the slot's day leave room for what it adds; a day is
      overloaded exactly when its positive minutes exceed the budget. */
  lemma SlotNeedsRoom(tasks: seq<TaskSummary>, budget: int, t: TaskSummary)
    requires DistinctIds(tasks) && t in tasks && CanMove(t)
    ensures var day := SlotDay(t);
            SlotsFor(tasks, budget, t) != [] <==>
              Sum(PositiveMinutes(day), tasks) + Sum(NegativeMinutes(day), tasks) + Added(t) <= budget
  {
    OthersAreTheRest(tasks, t, SlotDay(t));
    SignsAdd(tasks, SlotDay(t));
  }

  ghost predicate NothingNegative(tasks: seq<TaskSummary>) {
    forall t :: t in tasks && IsActive(t) && IsTimed(t) ==> t.duration.value >= 0
  }

  lemma {:induction false} NoNegativeSum(tasks: seq<TaskSummary>, day: int)
    requires NothingNegative(tasks)
    ensures Sum(NegativeMinutes(day), tasks) == 0
  {
    if tasks != [] {
      var last := tasks[|tasks| - 1];
      assert last in tasks;
      assert MinutesOn(day, last) >= 0;
      NoNegativeSum(tasks[..|tasks| - 1], day);
    }
  }

  /** A slot starts on an overloaded day exactly when negative durations due that day take its load back under the
      budget. */
  lemma OverloadedSlotsExactly(tasks: seq<TaskSummary>, budget: int, t: TaskSummary)
    requires DistinctIds(tasks) && t in tasks && CanMove(t) && budget >= 0
    ensures var day := SlotDay(t);
            SlotsFor(tasks, budget, t) != [] && day in OverloadedDays(tasks, budget) <==>
              0 < Sum(PositiveMinutes(day), tasks) - budget <= -Sum(NegativeMinutes(day), tasks) - Added(t)
  {
    SlotNeedsRoom(tasks, budget, t);
    OverloadedDaysAreExact(tasks, budget);
  }

  /** Without negative durations no slot starts on an overloaded day, and a task whose slot starts on the day it is due
      gets it exactly when that day is not overloaded. */
  lemma SlotsAvoidOverload(tasks: seq<TaskSummary>, budget: int, t: TaskSummary)
    requires DistinctIds(tasks) && NothingNegative(tasks) && t in tasks && CanMove(t) && budget >= 0
    ensures SlotsFor(tasks, budget, t) != [] ==> SlotDay(t) !in OverloadedDays(tasks, budget)
    ensures DueOn(SlotDay(t), t) ==>
              (SlotsFor(tasks, budget, t) != [] <==> SlotDay(t) !in OverloadedDays(tasks, budget))
  {
    NoNegativeSum(tasks, SlotDay(t));
    SlotNeedsRoom(tasks, budget, t);
    OverloadedDaysAreExact(tasks, budget);
  }

  // ----- The order of the input does not matter -----

  lemma DistinctIdsApart(tasks: seq<TaskSummary>)
    ensures DistinctIds(tasks) <==>
              Distinct(tasks) && forall t, u :: t in tasks && u in tasks && t.id == u.id ==> t == u
  {
    if DistinctIds(tasks) {
      forall t, u | t in tasks && u in tasks && t.id == u.id ensures t == u {
        var i, j :| 0 <= i < |tasks| && 0 <= j < |tasks| && tasks[i] == t && tasks[j] == u;
        assert !(i < j) && !(j < i);
      }
    }
  }

  lemma DistinctIdsPermute(xs: seq<TaskSummary>, ys: seq<TaskSummary>)
    requires DistinctIds(xs) && multiset(xs) == multiset(ys)
    ensures DistinctIds(ys)
  {
    DistinctIdsApart(xs);
    DistinctIdsApart(ys);
    DistinctPermutes(xs, ys);
    SameMembers(xs, ys);
  }

  lemma {:induction false} PriorityIsTheTasks(tasks: seq<TaskSummary>, t: TaskSummary)
    requires DistinctIds(tasks) && t in tasks
    ensures PriorityOf(tasks, t.id) == t.priority
  {
    if tasks[0] != t {
      assert t in tasks[1..];
      var k :| 0 <= k < |tasks| && tasks[k] == t;
      assert tasks[0].id != tasks[k].id;
      PriorityIsTheTasks(tasks[1..], t);
    }
  }

  lemma {:induction false} PriorityOfAbsent(tasks: seq<TaskSummary>, id: TaskId)
    requires forall t :: t in tasks ==> t.id != id
    ensures PriorityOf(tasks, id) == Low
  {
    if tasks != [] {
      assert tasks[0] in tasks;
      PriorityOfAbsent(tasks[1..], id);
    }
  }

  lemma PrioritiesPermute(xs: seq<TaskSummary>, ys: seq<TaskSummary>, id: TaskId)
    requires DistinctIds(xs) && multiset(xs) == multiset(ys)
    ensures PriorityOf(xs, id) == PriorityOf(ys, id)
  {
    DistinctIdsPermute(xs, ys);
    SameMembers(xs, ys);
    if t :| t in xs && t.id == id {
      PriorityIsTheTasks(xs, t);
      PriorityIsTheTasks(ys, t);
    } else {
      PriorityOfAbsent(xs, id);
      PriorityOfAbsent(ys, id);
    }
  }

  lemma SlotsPermute(xs: seq<TaskSummary>, ys: seq<TaskSummary>, budget: int, t: TaskSummary)
    requires multiset(xs) == multiset(ys)
    ensures SlotsFor(xs, budget, t) == SlotsFor(ys, budget, t)
  {
    SameMembers(xs, ys);
    if IsTimed(t) {
      SumPermutes(OthersMinutes(t.id, SlotDay(t)), xs, ys);
    }
  }

  lemma {:induction false} IncreasingIsUnique(xs: seq<int>, ys: seq<int>)
    requires SortedDays(xs) && SortedDays(ys) && forall day :: day in xs <==> day in ys
    ensures xs == ys
  {
    DistinctCounts(xs);
    DistinctCounts(ys);
    assert multiset(xs) == multiset(ys) by {
      forall day: int ensures multiset(xs)[day] == multiset(ys)[day] {
        assert day in xs <==> multiset(xs)[day] > 0;
        assert day in ys <==> multiset(ys)[day] > 0;
      }
    }
    OrderIsUnique(DayLe, xs, ys);
  }

  lemma OverloadedDaysPermute(xs: seq<TaskSummary>, ys: seq<TaskSummary>, budget: int)
    requires multiset(xs) == multiset(ys) && budget >= 0
    ensures OverloadedDays(xs, budget) == OverloadedDays(ys, budget)
  {
    hide OverloadedDays, PositiveMinutes;
    OverloadedDaysAreExact(xs, budget);
    OverloadedDaysAreExact(ys, budget);
    forall day: int ensures Sum(PositiveMinutes(day), xs) == Sum(PositiveMinutes(day), ys) {
      SumPermutes(PositiveMinutes(day), xs, ys);
    }
    IncreasingIsUnique(OverloadedDays(xs, budget), OverloadedDays(ys, budget));
  }

  lemma UnscheduledPermute(xs: seq<TaskSummary>, ys: seq<TaskSummary>, budget: int)
    requires DistinctIds(xs) && multiset(xs) == multiset(ys)
    ensures Plan(xs, budget).unscheduled == Plan(ys, budget).unscheduled
  {
    var left := Collect(LeaveFor(xs, budget), xs);
    forall t: TaskSummary ensures LeaveFor(xs, budget)(t) == LeaveFor(ys, budget)(t) {
      SlotsPermute(xs, ys, budget, t);
    }
    CollectAgrees(LeaveFor(xs, budget), LeaveFor(ys, budget), ys);
    CollectPermutes(LeaveFor(xs, budget), xs, ys);
    TaskOrder();
    DistinctIdsApart(xs);
    forall t | t in left ensures t in xs {
      CollectedFrom(LeaveFor(xs, budget), xs, t);
    }
    SortForgetsOrder(TaskLe, left, Collect(LeaveFor(ys, budget), ys));
  }

  lemma SuggestionOrder(tasks: seq<TaskSummary>)
    ensures IsOrder(SuggestionLe(tasks))
    ensures forall a, b :: SuggestionLe(tasks)(a, b) && SuggestionLe(tasks)(b, a) ==> a.taskId == b.taskId
  {
    var le := SuggestionLe(tasks);
    forall a, b ensures le(a, b) || le(b, a) {
      TextIsTotal(a.name, b.name);
    }
    forall a, b, c | le(a, b) && le(b, c) ensures le(a, c) {
      if TextBefore(a.name, b.name) && TextBefore(b.name, c.name) { TextIsTransitive(a.name, b.name, c.name); }
    }
    forall a, b | le(a, b) && le(b, a) ensures a.taskId == b.taskId {
      TextIsTotal(a.name, b.name);
    }
  }

  /** No two suggestions are for one id. */
  lemma SuggestionsApart(tasks: seq<TaskSummary>, budget: int)
    requires DistinctIds(tasks)
    ensures var found := Collect(SuggestFor(tasks, budget), tasks);
            forall a, b :: a in found && b in found && a.taskId == b.taskId ==> a == b
  {
    hide SlotsFor, Collect;
    DistinctIdsApart(tasks);
    hide DistinctIds, Distinct;
    var found := Collect(SuggestFor(tasks, budget), tasks);
    forall a, b | a in found && b in found && a.taskId == b.taskId ensures a == b {
      CollectedFrom(SuggestFor(tasks, budget), tasks, a);
      CollectedFrom(SuggestFor(tasks, budget), tasks, b);
    }
  }

  lemma FoundPermutes(xs: seq<TaskSummary>, ys: seq<TaskSummary>, budget: int)
    requires multiset(xs) == multiset(ys)
    ensures multiset(Collect(SuggestFor(xs, budget), xs)) == multiset(Collect(SuggestFor(ys, budget), ys))
  {
    hide SlotsFor;
    forall t: TaskSummary ensures SuggestFor(xs, budget)(t) == SuggestFor(ys, budget)(t) {
      SlotsPermute(xs, ys, budget, t);
    }
    CollectAgrees(SuggestFor(xs, budget), SuggestFor(ys, budget), ys);
    CollectPermutes(SuggestFor(xs, budget), xs, ys);
  }

  lemma SuggestionsPermute(xs: seq<TaskSummary>, ys: seq<TaskSummary>, budget: int)
    requires DistinctIds(xs) && multiset(xs) == multiset(ys)
    ensures Plan(xs, budget).suggestions == Plan(ys, budget).suggestions
  {
    hide SuggestFor, Collect, OverloadedDays, LeaveFor, DistinctIds;
    var found, again := Collect(SuggestFor(xs, budget), xs), Collect(SuggestFor(ys, budget), ys);
    FoundPermutes(xs, ys, budget);
    forall a, b ensures SuggestionLe(xs)(a, b) == SuggestionLe(ys)(a, b) {
      PrioritiesPermute(xs, ys, a.taskId);
      PrioritiesPermute(xs, ys, b.taskId);
    }
    SortAgrees(SuggestionLe(xs), SuggestionLe(ys), again);
    SuggestionOrder(xs);
    SuggestionsApart(xs, budget);
    SortForgetsOrder(SuggestionLe(xs), found, again);
  }

  /** Tasks with distinct ids get the same suggestions, overloaded days and unscheduled list in whatever order they
      are passed. */
  lemma OrderOfTasksDoesNotMatter(xs: seq<TaskSummary>, ys: seq<TaskSummary>, budget: int)
    requires DistinctIds(xs) && multiset(xs) == multiset(ys) && 0 < budget <= 1440
    ensures Candidates(xs, budget) == Candidates(ys, budget)
  {
    DistinctIdsPermute(xs, ys);
    DistinctIsUnique(xs);
    DistinctIsUnique(ys);
    SuggestionsPermute(xs, ys, budget);
    OverloadedDaysPermute(xs, ys, budget);
    UnscheduledPermute(xs, ys, budget);
  }

  // ----- What the result contains -----

  function SuggestionOf(t: TaskSummary): Suggestion
    requires IsTimed(t)
  {
    Suggestion(t.id, t.name, t.duration.value, t.deadline.value,
               Slot(LatestStart(t), t.deadline.value, t.duration.value))
  }

  ghost predicate IsSuggested(tasks: seq<TaskSummary>, budget: int, t: TaskSummary) {
    t in tasks && CanMove(t) && SlotsFor(tasks, budget, t) != []
  }

  lemma SuggestedAlone(tasks: seq<TaskSummary>, budget: int, t: TaskSummary, s: Suggestion)
    ensures s in SuggestFor(tasks, budget)(t) <==>
        CanMove(t) && SlotsFor(tasks, budget, t) != [] && s == SuggestionOf(t)
  {
    hide FitsBudget;
  }

  lemma FoundIsSuggested(tasks: seq<TaskSummary>, budget: int, s: Suggestion)
    ensures s in Plan(tasks, budget).suggestions <==> s in Collect(SuggestFor(tasks, budget), tasks)
  {
    hide SuggestFor, SuggestionLe, OverloadedDays, LeaveFor;
    var found := Collect(SuggestFor(tasks, budget), tasks);
    SortPermutes(SuggestionLe(tasks), found);
    SameMembers(Plan(tasks, budget).suggestions, found);
  }

  /** A suggestion is made for exactly each active task with a slot, and moves it to its feasibility window. */
  lemma SuggestionsAreExact(tasks: seq<TaskSummary>, budget: int, s: Suggestion)
    ensures s in Plan(tasks, budget).suggestions <==> exists t :: IsSuggested(tasks, budget, t) && s == SuggestionOf(t)
  {
    hide SuggestFor, SlotsFor, Plan, Collect;
    FoundIsSuggested(tasks, budget, s);
    CollectedFrom(SuggestFor(tasks, budget), tasks, s);
    forall t
      ensures s in SuggestFor(tasks, budget)(t) <==>
                CanMove(t) && SlotsFor(tasks, budget, t) != [] && s == SuggestionOf(t)
    {
      SuggestedAlone(tasks, budget, t, s);
    }
    if t :| IsSuggested(tasks, budget, t) && s == SuggestionOf(t) {
      assert t in tasks && s in SuggestFor(tasks, budget)(t);
    }
  }

  lemma LeftIsUnscheduled(tasks: seq<TaskSummary>, budget: int, t: TaskSummary)
    ensures t in Plan(tasks, budget).unscheduled <==> t in Collect(LeaveFor(tasks, budget), tasks)
  {
    hide TaskLe, LeaveFor, OverloadedDays, SuggestFor;
    var left := Collect(LeaveFor(tasks, budget), tasks);
    SortPermutes(TaskLe, left);
    SameMembers(Plan(tasks, budget).unscheduled, left);
  }

  lemma WithoutSlots(tasks: seq<TaskSummary>, budget: int, t: TaskSummary)
    ensures SlotsFor(tasks, budget, t) != [] ==> IsTimed(t) && t.duration.value > 0
  {
  }

  /** The other active tasks are left unscheduled. */
  lemma UnscheduledAreExact(tasks: seq<TaskSummary>, budget: int, t: TaskSummary)
    ensures t in Plan(tasks, budget).unscheduled <==> t in tasks && IsActive(t) && !IsSuggested(tasks, budget, t)
  {
    hide Plan, Collect, SlotsFor;
    LeftIsUnscheduled(tasks, budget, t);
    CollectedFrom(LeaveFor(tasks, budget), tasks, t);
    WithoutSlots(tasks, budget, t);
  }

  lemma SuggestedStands(tasks: seq<TaskSummary>, t: TaskSummary, u: TaskSummary)
    requires DistinctIds(tasks) && t in tasks && u in tasks && IsTimed(t) && IsTimed(u)
    requires SuggestionLe(tasks)(SuggestionOf(t), SuggestionOf(u))
    ensures StandsBefore(t, u) && (Ties(t, u) ==> t.id <= u.id)
  {
    hide TextBefore, ComesFirst;
    PriorityIsTheTasks(tasks, t);
    PriorityIsTheTasks(tasks, u);
    TextBeforeIs(t.name, u.name);
    TextIsTotal(t.name, u.name);
  }

  /** Both lists are sorted by deadline, priority, name and id: the suggestions by those of their tasks. */
  lemma PlanIsSorted(tasks: seq<TaskSummary>, budget: int)
    ensures var suggested := Plan(tasks, budget).suggestions;
            DistinctIds(tasks) ==>
            forall i, j, t, u :: 0 <= i < j < |suggested| && t in tasks && u in tasks &&
                                 t.id == suggested[i].taskId && u.id == suggested[j].taskId ==>
              StandsBefore(t, u) && (Ties(t, u) ==> t.id <= u.id)
    ensures var left := Plan(tasks, budget).unscheduled;
            forall i, j :: 0 <= i < j < |left| ==>
              StandsBefore(left[i], left[j]) && (Ties(left[i], left[j]) ==> left[i].id <= left[j].id)
  {
    hide StandsBefore, Collect, SortBy, SlotsFor, SuggestionOf, SuggestionLe;
    SuggestionOrder(tasks);
    TaskOrder();
    SortOrders(SuggestionLe(tasks), Collect(SuggestFor(tasks, budget), tasks));
    SortOrders(TaskLe, Collect(LeaveFor(tasks, budget), tasks));
    var suggested := Plan(tasks, budget).suggestions;
    forall i, j, t, u | DistinctIds(tasks) && 0 <= i < j < |suggested| && t in tasks && u in tasks &&
                        t.id == suggested[i].taskId && u.id == suggested[j].taskId
      ensures StandsBefore(t, u) && (Ties(t, u) ==> t.id <= u.id)
    {
      SuggestionIsOfItsTask(tasks, budget, suggested[i], t);
      SuggestionIsOfItsTask(tasks, budget, suggested[j], u);
      SuggestedStands(tasks, t, u);
    }
  }

  lemma SuggestionIsOfItsTask(tasks: seq<TaskSummary>, budget: int, s: Suggestion, t: TaskSummary)
    requires DistinctIds(tasks) && s in Plan(tasks, budget).suggestions && t in tasks && t.id == s.taskId
    ensures IsSuggested(tasks, budget, t) && s == SuggestionOf(t)
  {
    DistinctIdsApart(tasks);
    hide DistinctIds, Plan, SlotsFor, CanMove;
    SuggestionsAreExact(tasks, budget, s);
  }

  /** The minutes of the other tasks that are active and due on the day, and the task's own, fit the budget. */
  ghost predicate HasRoom(tasks: seq<TaskSummary>, t: TaskSummary, day: int, budget: int)
    requires t.duration.Some?
  {
    Sum(MinutesOfOthers(t.id, day), tasks) + t.duration.value <= budget
  }

  ghost function MinutesOfOthers(id: TaskId, day: int): TaskSummary -> int {
    (u: TaskSummary) =>
      if && u.id != id && (u.status == Todo || u.status == InProgress) && u.deadline.Some? && u.duration.Some?
         && day * DAY <= u.deadline.value < (day + 1) * DAY
      then u.duration.value else 0
  }

  lemma RoomIsCapacity(tasks: seq<TaskSummary>, t: TaskSummary, day: int, budget: int)
    requires t.duration.Some?
    ensures HasRoom(tasks, t, day, budget) <==> HasCapacity(t, day, tasks, budget)
  {
    forall u | u in tasks ensures MinutesOfOthers(t.id, day)(u) == OthersMinutes(t.id, day)(u) {
      DueOnIs(day, u);
    }
    SumAgrees(MinutesOfOthers(t.id, day), OthersMinutes(t.id, day), tasks);
  }

  /** The first task of its id, to be moved: active, with a deadline and a positive duration, and with room on the day
      its slot starts. */
  ghost predicate Fits(tasks: seq<TaskSummary>, budget: int, t: TaskSummary) {
    && FirstIn(tasks, t) && (t.status == Todo || t.status == InProgress)
    && t.deadline.Some? && t.duration.Some? && t.duration.value > 0
    && HasRoom(Unique(tasks), t, (t.deadline.value - t.duration.value * 60_000_000) / DAY, budget)
  }

  lemma FitsIsSuggested(tasks: seq<TaskSummary>, budget: int, t: TaskSummary)
    ensures Fits(tasks, budget, t) <==> IsSuggested(Unique(tasks), budget, t)
  {
    hide FirstIn, HasRoom, Unique, HasCapacity;
    UniqueKeepsFirst(tasks);
    if t in Unique(tasks) && CanMove(t) { RoomIsCapacity(Unique(tasks), t, SlotDay(t), budget); }
  }

  /** The whole result, by fields: a suggestion for each task that fits, each for its window; the other active first
      tasks are left; and both lists are in order. */
  lemma CandidatesAreExact(tasks: seq<TaskSummary>, budget: int)
    ensures var r := Candidates(tasks, budget);
            && (forall s :: s in r.suggestions <==>
                  exists t :: Fits(tasks, budget, t) &&
                    s == Suggestion(t.id, t.name, t.duration.value, t.deadline.value,
                                    Slot(t.deadline.value - t.duration.value * 60_000_000, t.deadline.value,
                                         t.duration.value)))
            && (forall t :: t in r.unscheduled <==>
                  FirstIn(tasks, t) && (t.status == Todo || t.status == InProgress) && !Fits(tasks, budget, t))
    ensures var r := Candidates(tasks, budget);
            && (forall i, j, t, u :: 0 <= i < j < |r.suggestions| && FirstIn(tasks, t) && FirstIn(tasks, u) &&
                                     t.id == r.suggestions[i].taskId && u.id == r.suggestions[j].taskId ==>
                  StandsBefore(t, u) && (Ties(t, u) ==> t.id <= u.id))
            && (forall i, j :: 0 <= i < j < |r.unscheduled| ==>
                  StandsBefore(r.unscheduled[i], r.unscheduled[j]) &&
                  (Ties(r.unscheduled[i], r.unscheduled[j]) ==> r.unscheduled[i].id <= r.unscheduled[j].id))
  {
    hide Plan, Unique, FirstIn, Fits, StandsBefore, Ties, IsSuggested;
    var u := Unique(tasks);
    EachIdIsKeptOnce(tasks);
    UniqueKeepsFirst(tasks);
    PlanIsSorted(u, budget);
    forall t { FitsIsSuggested(tasks, budget, t); }
    forall s { SuggestionsAreExact(u, budget, s); }
    forall t { UnscheduledAreExact(u, budget, t); }
    forall t | IsSuggested(u, budget, t) ensures IsTimed(t) { SuggestedIsTimed(u, budget, t); }
  }

  lemma SuggestedIsTimed(tasks: seq<TaskSummary>, budget: int, t: TaskSummary)
    requires IsSuggested(tasks, budget, t)
    ensures IsTimed(t)
  {
  }

  function SuggestedId(s: Suggestion): seq<TaskId> {
    [s.taskId]
  }

  function ActiveId(t: TaskSummary): seq<TaskId> {
    if IsActive(t) then [t.id] else []
  }

  function MovedId(tasks: seq<TaskSummary>, budget: int): TaskSummary -> seq<TaskId> {
    t => if IsActive(t) && SlotsFor(tasks, budget, t) != [] then [t.id] else []
  }

  function LeftId(tasks: seq<TaskSummary>, budget: int): TaskSummary -> seq<TaskId> {
    t => if IsActive(t) && SlotsFor(tasks, budget, t) == [] then [t.id] else []
  }

  lemma MovedIds(tasks: seq<TaskSummary>, budget: int)
    ensures multiset(Collect(SuggestedId, Plan(tasks, budget).suggestions))
         == multiset(Collect(MovedId(tasks, budget), tasks))
  {
    hide SlotsFor, SuggestionLe;
    var found := Collect(SuggestFor(tasks, budget), tasks);
    SortPermutes(SuggestionLe(tasks), found);
    CollectPermutes(SuggestedId, Plan(tasks, budget).suggestions, found);
    forall t: TaskSummary ensures MovedId(tasks, budget)(t) == Collect(SuggestedId, SuggestFor(tasks, budget)(t)) {
      var moved := SuggestFor(tasks, budget)(t);
      if moved != [] { CollectOfOne(SuggestedId, moved[0]); }
    }
    CollectOfCollected(SuggestedId, SuggestFor(tasks, budget), MovedId(tasks, budget), tasks);
  }

  lemma LeftIds(tasks: seq<TaskSummary>, budget: int)
    ensures multiset(Collect(IdOf, Plan(tasks, budget).unscheduled)) == multiset(Collect(LeftId(tasks, budget), tasks))
  {
    hide SlotsFor, TaskLe;
    var left := Collect(LeaveFor(tasks, budget), tasks);
    SortPermutes(TaskLe, left);
    CollectPermutes(IdOf, Plan(tasks, budget).unscheduled, left);
    forall t: TaskSummary ensures LeftId(tasks, budget)(t) == Collect(IdOf, LeaveFor(tasks, budget)(t)) {
      CollectOfOne(IdOf, t);
    }
    CollectOfCollected(IdOf, LeaveFor(tasks, budget), LeftId(tasks, budget), tasks);
  }

  ghost predicate HasActive(tasks: seq<TaskSummary>, id: TaskId) {
    exists t :: t in tasks && IsActive(t) && t.id == id
  }

  lemma ActiveIdsAreDistinct(tasks: seq<TaskSummary>, id: TaskId)
    requires DistinctIds(tasks)
    ensures multiset(Collect(ActiveId, tasks))[id] == if HasActive(tasks, id) then 1 else 0
  {
    DistinctIdsApart(tasks);
    CountCollected(ActiveId, tasks, id);
    var from := Contributors(ActiveId, tasks, id);
    if HasActive(tasks, id) {
      var t :| t in tasks && IsActive(t) && t.id == id;
      assert from == {t};
    } else {
      assert from == {};
    }
  }

  /** Keeping the first task of each id, every active one is found exactly once across the suggestions and the
      unscheduled tasks, and no other id is in either. */
  lemma TasksAreConserved(tasks: seq<TaskSummary>, budget: int, id: TaskId)
    ensures var r := Candidates(tasks, budget);
            multiset(Collect(SuggestedId, r.suggestions))[id] + multiset(Collect(IdOf, r.unscheduled))[id] ==
            if exists t :: FirstIn(tasks, t) && IsActive(t) && t.id == id then 1 else 0
  {
    hide FirstIn, Plan, SlotsFor, Collect;
    var u := Unique(tasks);
    EachIdIsKeptOnce(tasks);
    UniqueKeepsFirst(tasks);
    MovedIds(u, budget);
    LeftIds(u, budget);
    CollectsAdd(MovedId(u, budget), LeftId(u, budget), ActiveId, u);
    ActiveIdsAreDistinct(u, id);
    assert HasActive(u, id) <==> exists t :: FirstIn(tasks, t) && IsActive(t) && t.id == id;
  }

  /** Without negative durations no suggestion starts on an overloaded day, and an active task with a positive duration
      whose slot starts on the day it is due is suggested exactly when that day is not overloaded. */
  lemma SuggestionsAvoidOverload(tasks: seq<TaskSummary>, budget: int)
    requires NothingNegative(Unique(tasks)) && 0 < budget <= 1440
    ensures var r := Candidates(tasks, budget);
            forall s :: s in r.suggestions ==> DayOf(s.slot.start) !in r.overloadedDays
    ensures var r := Candidates(tasks, budget);
            forall t :: t in Unique(tasks) && CanMove(t) && DueOn(SlotDay(t), t) ==>
                          (SuggestionOf(t) in r.suggestions <==> SlotDay(t) !in r.overloadedDays)
  {
    hide SlotsFor, OverloadedDays, NothingNegative, Unique, DueOn, Plan, DistinctIds;
    assert Candidates(tasks, budget).overloadedDays == OverloadedDays(Unique(tasks), budget) by {
      PlanDays(Unique(tasks), budget);
    }
    var u := Unique(tasks);
    EachIdIsKeptOnce(tasks);
    forall s | s in Plan(u, budget).suggestions ensures DayOf(s.slot.start) !in OverloadedDays(u, budget) {
      SuggestionsAreExact(u, budget, s);
      var t :| IsSuggested(u, budget, t) && s == SuggestionOf(t);
      SlotsAvoidOverload(u, budget, t);
    }
    forall t | t in u && CanMove(t) && DueOn(SlotDay(t), t)
      ensures SuggestionOf(t) in Plan(u, budget).suggestions <==> SlotDay(t) !in OverloadedDays(u, budget)
    {
      SlotsAvoidOverload(u, budget, t);
      SuggestedOnlyForItself(u, budget, t);
    }
  }

  lemma PlanDays(tasks: seq<TaskSummary>, budget: int)
    ensures Plan(tasks, budget).overloadedDays == OverloadedDays(tasks, budget)
  {
  }

  /** A task is suggested for its own sake: no other task makes its suggestion. */
  lemma SuggestedOnlyForItself(tasks: seq<TaskSummary>, budget: int, t: TaskSummary)
    requires DistinctIds(tasks) && t in tasks && IsTimed(t)
    ensures SuggestionOf(t) in Plan(tasks, budget).suggestions <==> IsSuggested(tasks, budget, t)
  {
    SuggestionsAreExact(tasks, budget, SuggestionOf(t));
    DistinctIdsApart(tasks);
    hide DistinctIds, Plan, SlotsFor;
  }

  const LONG_TASK: TaskSummary := TaskSummary(1, "report", High, Todo, Some(10 * DAY + 600 * MINUTE), Some(500))
  const NEGATIVE_TASK: TaskSummary := TaskSummary(2, "refund", Low, Todo, Some(10 * DAY + 600 * MINUTE), Some(-30))

  /** With a negative duration it can: the analysis leaves the invalid task out, the capacity check counts it. */
  lemma NegativeDurationsHideOverload()
    ensures var r := Candidates([LONG_TASK, NEGATIVE_TASK], 480);
            SuggestionOf(LONG_TASK) in r.suggestions && DayOf(SuggestionOf(LONG_TASK).slot.start) in r.overloadedDays
  {
    var tasks := [LONG_TASK, NEGATIVE_TASK];
    DistinctIsUnique(tasks);
    assert SlotDay(LONG_TASK) == 10 && CanMove(LONG_TASK) && DueOn(10, NEGATIVE_TASK) && DueOn(10, LONG_TASK);
    assert tasks == [LONG_TASK] + [NEGATIVE_TASK];
    SumAppend(PositiveMinutes(10), [LONG_TASK], [NEGATIVE_TASK]);
    SumAppend(NegativeMinutes(10), [LONG_TASK], [NEGATIVE_TASK]);
    SumOfOne(PositiveMinutes(10), LONG_TASK);
    SumOfOne(PositiveMinutes(10), NEGATIVE_TASK);
    SumOfOne(NegativeMinutes(10), LONG_TASK);
    SumOfOne(NegativeMinutes(10), NEGATIVE_TASK);
    OverloadedSlotsExactly(tasks, 480, LONG_TASK);
    hide Unique, OverloadedDays, SlotsFor;
    SuggestionsAreExact(tasks, 480, SuggestionOf(LONG_TASK));
  }
}
