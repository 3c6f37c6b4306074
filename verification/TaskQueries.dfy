/** The query for the tasks due in a range, over the ranges of the calendar. */
module TaskQueries {
  import opened Wrappers
  import opened Calendar
  import opened Sequences
  import opened Tasks

  predicate DueIn(r: Range, t: TaskSummary) {
    t.deadline.Some? && r.first <= t.deadline.value <= r.last
  }

  function KeepDueIn(r: Range): TaskSummary -> seq<TaskSummary> {
    t => if DueIn(r, t) then [t] else []
  }

  predicate NotLater(a: TaskSummary, b: TaskSummary) {
    a.deadline.Some? && b.deadline.Some? && a.deadline.value <= b.deadline.value
  }

  /** What `find_by_deadline_range` may return: the rows of the range, both ends included, by deadline; the order of
      equal deadlines is the database's choice. */
  ghost predicate IsAnswer(table: seq<TaskSummary>, r: Range, answer: seq<TaskSummary>) {
    && multiset(answer) == multiset(Collect(KeepDueIn(r), table))
    && Ordered(NotLater, answer)
  }

  lemma RangesAdd(table: seq<TaskSummary>, a: Range, b: Range, c: Range)
    requires forall t :: DueIn(c, t) <==> DueIn(a, t) || DueIn(b, t)
    requires forall t :: !(DueIn(a, t) && DueIn(b, t))
    ensures multiset(Collect(KeepDueIn(c), table))
         == multiset(Collect(KeepDueIn(a), table)) + multiset(Collect(KeepDueIn(b), table))
  {
    CollectsAdd(KeepDueIn(a), KeepDueIn(b), KeepDueIn(c), table);
  }

  lemma AnswersLieInRange(table: seq<TaskSummary>, r: Range, answer: seq<TaskSummary>)
    requires IsAnswer(table, r, answer)
    ensures forall t :: t in answer ==> DueIn(r, t)
  {
    SameMembers(answer, Collect(KeepDueIn(r), table));
    forall t | t in answer ensures DueIn(r, t) {
      CollectedFrom(KeepDueIn(r), table, t);
    }
  }

  /** An answer has the tasks of the table with a deadline in the range, both ends included, as often as the table has
      them, and no other, by deadline. */
  lemma AnswersAreExact(table: seq<TaskSummary>, r: Range, answer: seq<TaskSummary>)
    ensures IsAnswer(table, r, answer) <==>
              && (forall t :: multiset(answer)[t] ==
                              if t.deadline.Some? && r.first <= t.deadline.value <= r.last
                              then multiset(table)[t] else 0)
              && (forall i, j :: 0 <= i < j < |answer| ==>
                    answer[i].deadline.Some? && answer[j].deadline.Some? &&
                    answer[i].deadline.value <= answer[j].deadline.value)
  {
    hide Collect;
    var kept := Collect(KeepDueIn(r), table);
    forall t: TaskSummary
      ensures multiset(kept)[t] ==
              if t.deadline.Some? && r.first <= t.deadline.value <= r.last then multiset(table)[t] else 0
    {
      KeptCounts(KeepDueIn(r), table, t);
    }
    assert multiset(answer) == multiset(kept) <==> forall t :: multiset(answer)[t] == multiset(kept)[t] by {
      SameCounts(multiset(answer), multiset(kept));
    }
  }

  lemma SameCounts(a: multiset<TaskSummary>, b: multiset<TaskSummary>)
    ensures a == b <==> forall t :: a[t] == b[t]
  {
  }

  /** Two queries over ranges that meet make one query over both. */
  lemma AnswersJoin(table: seq<TaskSummary>, a: Range, b: Range, first: seq<TaskSummary>, second: seq<TaskSummary>)
    requires IsAnswer(table, a, first) && IsAnswer(table, b, second)
    requires a.first <= a.last + 1 == b.first <= b.last + 1
    ensures IsAnswer(table, Range(a.first, b.last), first + second)
  {
    RangesAdd(table, a, b, Range(a.first, b.last));
    AnswersLieInRange(table, a, first);
    AnswersLieInRange(table, b, second);
    var all := first + second;
    forall i, j | 0 <= i < j < |all| ensures NotLater(all[i], all[j]) {
      assert all[i] in first || all[i] in second;
      assert all[j] in first || all[j] in second;
    }
  }

  function Same(answer: seq<TaskSummary>): seq<TaskSummary> {
    answer
  }

  /** The n days from the given one. */
  function DaySpan(day: int, n: nat): Range {
    Range(day * DAY, (day + n) * DAY - 1)
  }

  lemma NothingIsDueInNoTime(table: seq<TaskSummary>, day: int)
    ensures IsAnswer(table, DaySpan(day, 0), [])
  {
    var none := DaySpan(day, 0);
    RangesAdd(table, none, none, none);
    assert multiset(Collect(KeepDueIn(none), table)) == multiset{};
  }

  lemma DayJoins(table: seq<TaskSummary>, day: int, n: nat, first: seq<TaskSummary>, second: seq<TaskSummary>)
    requires IsAnswer(table, DaySpan(day, n), first) && IsAnswer(table, DaySpan(day + n, 1), second)
    ensures IsAnswer(table, DaySpan(day, n + 1), first + second)
  {
    hide IsAnswer;
    AnswersJoin(table, DaySpan(day, n), DaySpan(day + n, 1), first, second);
  }

  /** The answers of consecutive days, one after the other, answer the query over all of them. */
  lemma {:induction false} DaysJoin(table: seq<TaskSummary>, day: int, answers: seq<seq<TaskSummary>>)
    requires forall k :: 0 <= k < |answers| ==> IsAnswer(table, DaySpan(day + k, 1), answers[k])
    ensures IsAnswer(table, DaySpan(day, |answers|), Collect(Same, answers))
  {
    hide IsAnswer, DaySpan;
    if answers == [] {
      NothingIsDueInNoTime(table, day);
    } else {
      var n := |answers| - 1;
      DaysJoin(table, day, answers[..n]);
      assert IsAnswer(table, DaySpan(day + n, 1), answers[n]);
      DayJoins(table, day, n, Collect(Same, answers[..n]), answers[n]);
    }
  }

  function DaysIn(p: Period, k: int): int {
    StartOf(p, k + 1) / DAY - StartOf(p, k) / DAY
  }

  lemma TodayIsADay(ref: Instant)
    requires Representable(ref)
    ensures At(Today, ref) == Ok(DaySpan(DayOf(ref), 1))
  {
  }

  lemma StartIsMidnight(p: Period, k: int)
    ensures StartOf(p, k) == StartOf(p, k) / DAY * DAY
  {
    match p
    case Days => WholeDays(k);
    case Weeks => WholeDays(7 * k);
    case Months =>
      WholeDays(MonthStart(k));
      hide MonthStart;
  }

  lemma WholeDays(n: int)
    ensures n * DAY / DAY == n
  {
  }

  lemma WeekIsSevenDays(k: int)
    ensures DaysIn(Weeks, k) == 7
  {
  }

  lemma PeriodIsDays(p: Period, ref: Instant)
    requires Representable(ref) && At(This(p), ref).Ok?
    ensures DaysIn(p, Index(p, ref)) > 0
    ensures At(This(p), ref).value == DaySpan(StartOf(p, Index(p, ref)) / DAY, DaysIn(p, Index(p, ref)))
    ensures p.Weeks? ==> DaysIn(p, Index(p, ref)) == 7
  {
    hide Index, At, StartOf;
    var k := Index(p, ref);
    ResolvesToWholePeriods(p, ref);
    StartsIncrease(p, k, k + 1);
    StartIsMidnight(p, k);
    StartIsMidnight(p, k + 1);
    WeekIsSevenDays(k);
  }

  /** The daily queries over a week or a month, each for TODAY at some instant of its day, lose no task and repeat
      none: together they answer THIS_WEEK or THIS_MONTH. */
  lemma DailyQueriesSplitThePeriod(p: Period, ref: Instant, table: seq<TaskSummary>, refs: seq<Instant>,
                                   answers: seq<seq<TaskSummary>>)
    requires Representable(ref) && At(This(p), ref).Ok?
    requires |refs| == |answers| == DaysIn(p, Index(p, ref))
    requires forall k :: 0 <= k < |refs| ==> Representable(refs[k])
    requires forall k :: 0 <= k < |refs| ==> DayOf(refs[k]) == StartOf(p, Index(p, ref)) / DAY + k
    requires forall k :: 0 <= k < |refs| ==> IsAnswer(table, At(Today, refs[k]).value, answers[k])
    ensures IsAnswer(table, At(This(p), ref).value, Collect(Same, answers))
    ensures p.Weeks? ==> |refs| == 7
  {
    hide Index, StartOf, IsAnswer, At, DaySpan, DayOf, DaysIn;
    PeriodIsDays(p, ref);
    var day := StartOf(p, Index(p, ref)) / DAY;
    forall k | 0 <= k < |answers| ensures IsAnswer(table, DaySpan(day + k, 1), answers[k]) {
      TodayIsADay(refs[k]);
    }
    DaysJoin(table, day, answers);
  }
}
