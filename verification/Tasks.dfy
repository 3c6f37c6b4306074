/** Task summaries, the keys they are sorted by, and the query for the tasks due in a range. */
module Tasks {
  import opened Wrappers
  import opened Calendar
  import opened Sequences

  type TaskId = int

  datatype Priority = Low | Medium | High

  datatype Status = Todo | InProgress | Completed | Cancelled

  /** The id is the 128-bit value of the UUID: its order is that of the printed ids. */
  datatype TaskSummary = TaskSummary(
    id: TaskId, name: string, priority: Priority, status: Status, deadline: Option<Instant>, duration: Option<int>)

  ghost predicate DistinctIds(tasks: seq<TaskSummary>) {
    forall i, j :: 0 <= i < j < |tasks| ==> tasks[i].id != tasks[j].id
  }

  predicate IsActive(t: TaskSummary) {
    t.status.Todo? || t.status.InProgress?
  }

  // ----- Comparisons -----

  /** Strings compare character by character. */
  predicate TextBefore(a: string, b: string) {
    b != [] && (a == [] || a[0] < b[0] || (a[0] == b[0] && TextBefore(a[1..], b[1..])))
  }

  lemma {:induction false} TextIsTotal(a: string, b: string)
    ensures TextBefore(a, b) || TextBefore(b, a) || a == b
    ensures !(TextBefore(a, b) && TextBefore(b, a)) && !TextBefore(a, a)
  {
    if a != [] && b != [] {
      TextIsTotal(a[1..], b[1..]);
      TextIsTotal(a[1..], a[1..]);
      if a[0] == b[0] && a[1..] == b[1..] {
        assert a == [a[0]] + a[1..] && b == [b[0]] + b[1..];
      }
    } else if a != [] {
      TextIsTotal(a[1..], a[1..]);
    }
  }

  lemma {:induction false} TextIsTransitive(a: string, b: string, c: string)
    requires TextBefore(a, b) && TextBefore(b, c)
    ensures TextBefore(a, c)
  {
    if a != [] && a[0] == b[0] && b[0] == c[0] {
      TextIsTransitive(a[1..], b[1..], c[1..]);
    }
  }

  /** The first character in which they differ is smaller in a, or a is what b begins with. */
  ghost predicate ComesFirst(a: string, b: string) {
    exists n :: 0 <= n <= |a| && n < |b| && a[..n] == b[..n] && (n == |a| || a[n] < b[n])
  }

  /** Where the strings differ, one character further on. */
  lemma DifferLater(a: string, b: string, n: nat)
    requires 0 < n <= |a| && n < |b| && a[..n] == b[..n] && (n == |a| || a[n] < b[n])
    ensures a[0] == b[0] && ComesFirst(a[1..], b[1..])
  {
    assert a[..n][0] == b[..n][0];
    assert a[1..][..n - 1] == a[..n][1..] && b[1..][..n - 1] == b[..n][1..];
  }

  lemma DifferEarlier(a: string, b: string)
    requires a != [] && b != [] && a[0] == b[0] && ComesFirst(a[1..], b[1..])
    ensures ComesFirst(a, b)
  {
    var c, d := a[1..], b[1..];
    var n :| 0 <= n <= |c| && n < |d| && c[..n] == d[..n] && (n == |c| || c[n] < d[n]);
    assert a[..n + 1] == [a[0]] + c[..n] && b[..n + 1] == [b[0]] + d[..n];
  }

  lemma FirstDecides(a: string, b: string)
    requires b != [] && (a == [] || a[0] < b[0])
    ensures ComesFirst(a, b)
  {
    assert a[..0] == b[..0];
  }

  /** The comparison is that of the first character in which the strings differ. */
  lemma {:induction false} TextBeforeIs(a: string, b: string)
    ensures TextBefore(a, b) <==> ComesFirst(a, b)
  {
    if b != [] && (a == [] || a[0] < b[0]) {
      FirstDecides(a, b);
    } else if a != [] && b != [] {
      TextBeforeIs(a[1..], b[1..]);
      if a[0] == b[0] && ComesFirst(a[1..], b[1..]) { DifferEarlier(a, b); }
      if ComesFirst(a, b) {
        var n :| 0 <= n <= |a| && n < |b| && a[..n] == b[..n] && (n == |a| || a[n] < b[n]);
        DifferLater(a, b, n);
      }
    }
  }

  /** A deadline that is missing sorts last. */
  predicate DeadlineBefore(a: Option<Instant>, b: Option<Instant>) {
    a.Some? && (b.None? || a.value < b.value)
  }

  /** HIGH comes first. */
  function PriorityKey(p: Priority): nat {
    match p case High => 0 case Medium => 1 case Low => 2
  }

  /** The key (deadline, priority, name) of the workload analysis. */
  predicate DisplayLe(a: TaskSummary, b: TaskSummary) {
    || DeadlineBefore(a.deadline, b.deadline)
    || (a.deadline == b.deadline && PriorityKey(a.priority) < PriorityKey(b.priority))
    || (a.deadline == b.deadline && a.priority == b.priority && (TextBefore(a.name, b.name) || a.name == b.name))
  }

  /** The key (deadline, priority, name, id) of the rescheduling engine. */
  predicate TaskLe(a: TaskSummary, b: TaskSummary) {
    || DeadlineBefore(a.deadline, b.deadline)
    || (a.deadline == b.deadline && PriorityKey(a.priority) < PriorityKey(b.priority))
    || (a.deadline == b.deadline && a.priority == b.priority && TextBefore(a.name, b.name))
    || (a.deadline == b.deadline && a.priority == b.priority && a.name == b.name && a.id <= b.id)
  }

  /** What a list sorted by deadline, priority and name looks like: no task without a deadline stands before one with a
      deadline, and deadlines do not decrease; with one deadline, no LOW stands before a MEDIUM or HIGH, and no MEDIUM
      before a HIGH; and with one priority too, names increase as strings compare. */
  ghost predicate StandsBefore(a: TaskSummary, b: TaskSummary) {
    && (a.deadline.None? ==> b.deadline.None?)
    && (a.deadline.Some? && b.deadline.Some? ==> a.deadline.value <= b.deadline.value)
    && (a.deadline == b.deadline ==>
          !(a.priority.Low? && !b.priority.Low?) && !(a.priority.Medium? && b.priority.High?))
    && (a.deadline == b.deadline && a.priority == b.priority ==> a.name == b.name || ComesFirst(a.name, b.name))
  }

  ghost predicate Ties(a: TaskSummary, b: TaskSummary) {
    a.deadline == b.deadline && a.priority == b.priority && a.name == b.name
  }

  lemma DisplayStands()
    ensures forall a, b :: DisplayLe(a, b) <==> StandsBefore(a, b)
  {
    forall a, b ensures DisplayLe(a, b) <==> StandsBefore(a, b) {
      TextBeforeIs(a.name, b.name);
      hide TextBefore, ComesFirst;
    }
  }

  lemma TaskStands()
    ensures forall a, b :: TaskLe(a, b) <==> StandsBefore(a, b) && (Ties(a, b) ==> a.id <= b.id)
  {
    forall a, b ensures TaskLe(a, b) <==> StandsBefore(a, b) && (Ties(a, b) ==> a.id <= b.id) {
      TextBeforeIs(a.name, b.name);
      TextIsTotal(a.name, b.name);
      hide TextBefore, ComesFirst;
    }
  }

  lemma TaskOrder()
    ensures IsOrder(TaskLe)
    ensures forall a, b :: TaskLe(a, b) && TaskLe(b, a) ==> a.id == b.id
    ensures forall a, b :: TaskLe(a, b) <==> StandsBefore(a, b) && (Ties(a, b) ==> a.id <= b.id)
  {
    TaskStands();
    hide ComesFirst, StandsBefore;
    forall a, b ensures TaskLe(a, b) || TaskLe(b, a) {
      TextIsTotal(a.name, b.name);
    }
    forall a, b, c | TaskLe(a, b) && TaskLe(b, c) ensures TaskLe(a, c) {
      if TextBefore(a.name, b.name) && TextBefore(b.name, c.name) { TextIsTransitive(a.name, b.name, c.name); }
    }
    forall a, b | TaskLe(a, b) && TaskLe(b, a) ensures a.id == b.id {
      TextIsTotal(a.name, b.name);
    }
  }

  lemma DisplayOrder()
    ensures IsOrder(DisplayLe)
    ensures forall a, b :: DisplayLe(a, b) <==> StandsBefore(a, b)
  {
    DisplayStands();
    hide ComesFirst, StandsBefore;
    forall a, b ensures DisplayLe(a, b) || DisplayLe(b, a) {
      TextIsTotal(a.name, b.name);
    }
    forall a, b, c | DisplayLe(a, b) && DisplayLe(b, c) ensures DisplayLe(a, c) {
      if TextBefore(a.name, b.name) && TextBefore(b.name, c.name) { TextIsTransitive(a.name, b.name, c.name); }
    }
  }
}
