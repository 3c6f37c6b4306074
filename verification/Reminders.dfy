/** The reminders table and the query that finds the due ones.

    A point in time is a whole number of microseconds.  An identifier is the 128-bit value of its UUID, whose
    order is the one PostgreSQL sorts by. */
module Reminders {

  type Time = int
  type ReminderId = nat
  type TaskId = nat

  datatype ReminderStatus = Pending | Sent | Cancelled

  datatype Reminder = Reminder(taskId: TaskId, remindAt: Time, status: ReminderStatus, updatedAt: Time)

  type Table = map<ReminderId, Reminder>

  /** A row as a query returned it: later changes of the table do not reach it. */
  datatype Loaded = Loaded(id: ReminderId, row: Reminder)

  predicate IsDue(row: Reminder, now: Time) {
    row.status.Pending? && row.remindAt <= now
  }

  /** The order of the due query: `remind_at`, then id. */
  predicate Earlier(a: Loaded, b: Loaded) {
    a.row.remindAt < b.row.remindAt || (a.row.remindAt == b.row.remindAt && a.id < b.id)
  }

  /** By `remind_at`, oldest first, and then by id. */
  ghost predicate InClaimOrder(due: seq<Loaded>) {
    forall i, j :: 0 <= i < j < |due| ==>
      due[i].row.remindAt < due[j].row.remindAt ||
      (due[i].row.remindAt == due[j].row.remindAt && due[i].id < due[j].id)
  }

  lemma EarliestExists(rows: Table, ids: set<ReminderId>) returns (first: ReminderId)
    requires ids != {} && ids <= rows.Keys
    ensures first in ids
    ensures forall id :: id in ids && id != first ==> Earlier(Loaded(first, rows[first]), Loaded(id, rows[id]))
    decreases ids
  {
    var some :| some in ids;
    if ids == {some} {
      first := some;
    } else {
      var rest := EarliestExists(rows, ids - {some});
      first := if Earlier(Loaded(some, rows[some]), Loaded(rest, rows[rest])) then some else rest;
      forall id | id in ids && id != first
        ensures Earlier(Loaded(first, rows[first]), Loaded(id, rows[id]))
      {
        assert id == some || id in ids - {some};
      }
    }
  }

  function Earliest(rows: Table, ids: set<ReminderId>): (first: ReminderId)
    requires ids != {} && ids <= rows.Keys
    ensures first in ids
    ensures forall id :: id in ids && id != first ==> Earlier(Loaded(first, rows[first]), Loaded(id, rows[id]))
  {
    assert exists f :: f in ids && forall id :: id in ids && id != f ==>
        Earlier(Loaded(f, rows[f]), Loaded(id, rows[id])) by {
      var f := EarliestExists(rows, ids);
    }
    var first :| first in ids && forall id :: id in ids && id != first ==>
        Earlier(Loaded(first, rows[first]), Loaded(id, rows[id]));
    first
  }

  function Ranked(rows: Table, ids: set<ReminderId>): (due: seq<Loaded>)
    requires ids <= rows.Keys
    ensures |due| == |ids|
    decreases ids
  {
    if ids == {} then []
    else
      var first := Earliest(rows, ids);
      [Loaded(first, rows[first])] + Ranked(rows, ids - {first})
  }

  /** Exactly the given rows, in claim order. */
  lemma {:induction false} RankedListsThem(rows: Table, ids: set<ReminderId>)
    requires ids <= rows.Keys
    ensures forall k :: 0 <= k < |Ranked(rows, ids)| ==>
              Ranked(rows, ids)[k].id in ids && Ranked(rows, ids)[k].row == rows[Ranked(rows, ids)[k].id]
    ensures forall id :: id in ids ==> Loaded(id, rows[id]) in Ranked(rows, ids)
    ensures InClaimOrder(Ranked(rows, ids))
    decreases ids
  {
    if ids != {} {
      RankedListsThem(rows, ids - {Earliest(rows, ids)});
    }
  }

  function DueIds(rows: Table, now: Time): set<ReminderId> {
    set id | id in rows && IsDue(rows[id], now)
  }

  lemma IdsAreTheDue(rows: Table, now: Time)
    ensures DueIds(rows, now) <= rows.Keys
    ensures forall id ::
              id in DueIds(rows, now) <==> id in rows && rows[id].status.Pending? && rows[id].remindAt <= now
  {
  }

  function Least(a: nat, b: nat): nat {
    if a <= b then a else b
  }

  /** The first n: in order, and what is left out comes after them. */
  lemma FirstRanked(rows: Table, ids: set<ReminderId>, n: nat)
    requires ids <= rows.Keys && n <= |ids|
    ensures var due := Ranked(rows, ids)[..n];
            InClaimOrder(due) && forall k :: 0 <= k < n ==> due[k].id in ids && due[k].row == rows[due[k].id]
    ensures var due := Ranked(rows, ids)[..n];
            forall id :: id in ids && Loaded(id, rows[id]) !in due ==>
              && n < |ids|
              && forall k :: 0 <= k < n ==>
                   due[k].row.remindAt < rows[id].remindAt ||
                   (due[k].row.remindAt == rows[id].remindAt && due[k].id < id)
  {
    hide Ranked;
    RankedListsThem(rows, ids);
    var all := Ranked(rows, ids);
    assert forall q :: 0 <= q < n ==> all[..n][q] == all[q];
    forall id | id in ids && Loaded(id, rows[id]) !in all[..n]
      ensures exists m :: n <= m < |all| && all[m] == Loaded(id, rows[id])
    {
      var m :| 0 <= m < |all| && all[m] == Loaded(id, rows[id]);
    }
  }

  /** `find_due`: rows that are PENDING with `remind_at <= now`, at most `limit` of them, by `remind_at` and then id,
      oldest first.  Only when there are `limit` of them is any such row left out, and then one that comes after all
      of them. */
  function FindDue(rows: Table, now: Time, limit: nat): (due: seq<Loaded>)
    ensures |due| <= limit
    ensures forall k :: 0 <= k < |due| ==>
              && due[k].id in rows && due[k].row == rows[due[k].id]
              && due[k].row.status.Pending? && due[k].row.remindAt <= now
    ensures forall i, j :: 0 <= i < j < |due| ==>
              due[i].row.remindAt < due[j].row.remindAt ||
              (due[i].row.remindAt == due[j].row.remindAt && due[i].id < due[j].id)
    ensures forall id ::
              id in rows && rows[id].status.Pending? && rows[id].remindAt <= now && Loaded(id, rows[id]) !in due ==>
                && |due| == limit
                && forall k :: 0 <= k < |due| ==>
                     due[k].row.remindAt < rows[id].remindAt ||
                     (due[k].row.remindAt == rows[id].remindAt && due[k].id < id)
  {
    var ids := DueIds(rows, now);
    FirstRanked(rows, ids, Least(|ids|, limit));
    IdsAreTheDue(rows, now);
    Ranked(rows, ids)[..Least(|ids|, limit)]
  }

  lemma FindDueCounts(rows: Table, now: Time, limit: nat)
    ensures |FindDue(rows, now, limit)| == Least(|DueIds(rows, now)|, limit)
  {
  }

  ghost predicate DistinctIds(due: seq<Loaded>) {
    forall i, j :: 0 <= i < j < |due| ==> due[i].id != due[j].id
  }

  /** Claim order is strict, and a row is loaded once, so no id comes twice. */
  lemma ClaimOrderIsDistinct(rows: Table, due: seq<Loaded>)
    requires InClaimOrder(due)
    requires forall k :: 0 <= k < |due| ==> due[k].id in rows && due[k].row == rows[due[k].id]
    ensures DistinctIds(due)
  {
  }
}
