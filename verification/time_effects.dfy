/** What each operation on timesheets writes, row by row, read off the tables before it. */
module TimeEffects {
  import opened Wrappers
  import opened HourlyPay
  import opened TimeEntries

  /** The minutes of the entries that are kept. */
  function Tally(entries: seq<TimeEntry>, keep: TimeEntry -> bool): int {
    if entries == [] then 0
    else Tally(entries[..|entries| - 1], keep) + (if keep(entries[|entries| - 1]) then entries[|entries| - 1].work.minutes else 0)
  }

  lemma {:induction false} DayIsTally(entries: seq<TimeEntry>, e: string, day: int, pendingToo: bool, keep: TimeEntry -> bool)
    requires forall t :: keep(t) <==> t.employee == e && t.work.day == day &&
                                      (t.status == EntryApproved || (pendingToo && t.status == EntryPending))
    ensures DayMinutes(entries, e, day, pendingToo) == Tally(entries, keep)
  {
    if entries != [] { DayIsTally(entries[..|entries| - 1], e, day, pendingToo, keep); }
  }

  lemma {:induction false} PaidIsTally(entries: seq<TimeEntry>, e: string, w: int, keep: TimeEntry -> bool)
    requires forall t :: keep(t) <==> t.employee == e && t.work.day / 7 == w && t.status == EntryApproved && t.paidBy.Some?
    ensures PaidMinutes(entries, e, w) == Tally(entries, keep)
  {
    if entries != [] { PaidIsTally(entries[..|entries| - 1], e, w, keep); }
  }

  /** A claim is recorded if and only if it is for 1 to 1440 minutes, not in the future, from
      an eligible employee, and with everything already claimed or approved for the day
      within 24 hours. */
  lemma SubmitEffect(s: Sheet, e: string, work: Work, today: int, eligible: bool, onDay: TimeEntry -> bool)
    requires forall t :: onDay(t) <==> t.employee == e && t.work.day == work.day &&
                                       (t.status == EntryApproved || t.status == EntryPending)
    ensures Perform(s, Submitted(e, work, today, eligible)) ==
            if 1 <= work.minutes <= 1440 && work.day <= today && eligible && Tally(s.entries, onDay) + work.minutes <= 1440
            then s.(entries := s.entries + [TimeEntry(e, work, EntryPending, None)]) else s
  {
    DayIsTally(s.entries, e, work.day, true, onDay);
  }

  /** A pending entry is approved if and only if its day then has no more than 24 hours
      approved. */
  lemma ApproveEffect(s: Sheet, i: nat, onDay: TimeEntry -> bool)
    requires i < |s.entries|
    requires forall t :: onDay(t) <==> t.employee == s.entries[i].employee && t.work.day == s.entries[i].work.day &&
                                       t.status == EntryApproved
    ensures Perform(s, Approval(i)) ==
            if s.entries[i].status == EntryPending && Tally(s.entries, onDay) + s.entries[i].work.minutes <= 1440
            then s.(entries := s.entries[i := s.entries[i].(status := EntryApproved)]) else s
  {
    DayIsTally(s.entries, s.entries[i].employee, s.entries[i].work.day, false, onDay);
  }

  lemma RejectEffect(s: Sheet, i: nat)
    ensures Perform(s, Rejection(i)) ==
            if i < |s.entries| && s.entries[i].status == EntryPending
            then s.(entries := s.entries[i := s.entries[i].(status := EntryRejected)]) else s
  {
  }

  /** In every reachable state nobody has more than 24 hours approved on one day. */
  lemma Within24Hours(steps: seq<Step>, e: string, day: int, onDay: TimeEntry -> bool)
    requires forall t :: onDay(t) <==> t.employee == e && t.work.day == day && t.status == EntryApproved
    ensures Tally(After(Sheet([], []), steps).entries, onDay) <= 1440
  {
    DayIsCapped(steps, e, day);
    DayIsTally(After(Sheet([], []), steps).entries, e, day, false, onDay);
  }

  // ---------- payroll runs ----------

  /** Worker k is the first in the list that is hourly and the employee of the entry. */
  predicate FirstFor(workers: seq<Worker>, k: nat, e: string) {
    && k < |workers| && workers[k].hourly && workers[k].employee == e
    && forall j | 0 <= j < k :: !(workers[j].hourly && workers[j].employee == e)
  }

  /** The entry is approved, not yet paid, and for a day before the bound. */
  predicate Open(t: TimeEntry, bound: int) {
    t.status == EntryApproved && t.paidBy.None? && t.work.day < bound
  }

  lemma {:induction false} RunCharges(s: Sheet, workers: seq<Worker>, bound: int, n: nat, i: nat)
    requires n <= |workers| && i < |s.entries|
    ensures var r, t := RunUpTo(s, workers, bound, n), s.entries[i];
            && |r.entries| == |s.entries| && |r.items| == |s.items| + n
            && (forall k: nat | k < n && FirstFor(workers, k, t.employee) && Open(t, bound) ::
                  r.entries[i] == t.(paidBy := Some(|s.items| + k)))
            && ((forall k: nat | k < n :: !FirstFor(workers, k, t.employee)) || !Open(t, bound) ==> r.entries[i] == t)
  {
    if n > 0 {
      RunCharges(s, workers, bound, n - 1, i);
      RunLength(s, workers, bound, n - 1);
      var p, t, w := RunUpTo(s, workers, bound, n - 1), s.entries[i], workers[n - 1];
      assert RunUpTo(s, workers, bound, n) == PayWorker(p, w, bound);
      if w.hourly && w.employee == t.employee && !FirstFor(workers, n - 1, t.employee) {
        var k := FirstExists(workers, n - 1, t.employee);
      }
    }
  }

  lemma {:induction false} FirstExists(workers: seq<Worker>, n: nat, e: string) returns (k: nat)
    requires n < |workers| && workers[n].hourly && workers[n].employee == e
    ensures k <= n && FirstFor(workers, k, e)
  {
    k := 0;
    while !(workers[k].hourly && workers[k].employee == e)
      invariant k <= n && forall j | 0 <= j < k :: !(workers[j].hourly && workers[j].employee == e)
      decreases n - k
    {
      k := k + 1;
    }
  }

  /** A run makes out one item per worker. It charges to a worker's item exactly the entries
      of an hourly one that are approved, unpaid, before the end of the period and not in the
      future, and changes no other entry. */
  lemma RunEffect(s: Sheet, workers: seq<Worker>, periodEnd: int, asOf: int, i: nat, p: Sheet)
    requires i < |s.entries| && p == Perform(s, PayrollRun(workers, periodEnd, asOf))
    ensures var t := s.entries[i];
            var due := t.status == EntryApproved && t.paidBy.None? && t.work.day < periodEnd && t.work.day <= asOf;
            && |p.entries| == |s.entries| && |p.items| == |s.items| + |workers|
            && (forall k: nat | FirstFor(workers, k, t.employee) && due :: p.entries[i] == t.(paidBy := Some(|s.items| + k)))
            && ((forall k: nat :: !FirstFor(workers, k, t.employee)) || !due ==> p.entries[i] == t)
  {
    RunCharges(s, workers, PeriodUpperBound(periodEnd, asOf), |workers|, i);
  }

  // ---------- the rows that a run charges ----------

  /** The rows of e's approved and unpaid entries before the bound, each once, oldest day
      first and in table order within a day. */
  ghost predicate AreDue(rows: seq<nat>, entries: seq<TimeEntry>, e: string, bound: int) {
    && (forall i: nat :: i in rows <==> i < |entries| && entries[i].employee == e && entries[i].status == EntryApproved &&
                                        entries[i].paidBy.None? && entries[i].work.day < bound)
    && InOrder(rows, entries)
  }

  predicate InOrder(rows: seq<nat>, entries: seq<TimeEntry>) {
    forall j, k | 0 <= j < k < |rows| :: Precedes(rows[j], rows[k], entries)
  }

  predicate Precedes(i: nat, j: nat, entries: seq<TimeEntry>) {
    && i < |entries| && j < |entries|
    && (entries[i].work.day < entries[j].work.day || (entries[i].work.day == entries[j].work.day && i < j))
  }

  predicate Valid(rows: seq<nat>, entries: seq<TimeEntry>) {
    forall j | 0 <= j < |rows| :: rows[j] < |entries|
  }

  function WorksAt(rows: seq<nat>, entries: seq<TimeEntry>): (works: seq<Work>)
    requires Valid(rows, entries)
    ensures |works| == |rows|
  {
    seq(|rows|, j requires 0 <= j < |rows| => entries[rows[j]].work)
  }

  lemma {:induction false} InsertPlace(works: seq<Work>, x: Work) returns (n: nat)
    ensures n <= |works| && InsertByDay(works, x) == works[..n] + [x] + works[n..]
    ensures (n > 0 ==> works[n - 1].day <= x.day) && forall k | n <= k < |works| :: works[k].day > x.day
  {
    if works == [] || works[|works| - 1].day <= x.day {
      n := |works|;
    } else {
      var m := |works| - 1;
      n := InsertPlace(works[..m], x);
      assert works[..m][..n] == works[..n] && works[..m][n..] + [works[m]] == works[n..];
    }
  }

  /** Row n, the last of the table, belongs between the rows up to its day and those after
      it. */
  ghost predicate GoesAt(rows: seq<nat>, entries: seq<TimeEntry>, n: nat, at: nat) {
    && at <= |rows| && n < |entries| && InOrder(rows, entries)
    && (forall j | 0 <= j < |rows| :: rows[j] < n)
    && (at > 0 ==> entries[rows[at - 1]].work.day <= entries[n].work.day)
    && forall j | at <= j < |rows| :: entries[rows[j]].work.day > entries[n].work.day
  }

  lemma JoinOrder(a: seq<nat>, b: seq<nat>, entries: seq<TimeEntry>)
    requires InOrder(a, entries) && InOrder(b, entries)
    requires forall j, k | 0 <= j < |a| && 0 <= k < |b| :: Precedes(a[j], b[k], entries)
    ensures InOrder(a + b, entries)
  {
    forall j, k | 0 <= j < k < |a + b| ensures Precedes((a + b)[j], (a + b)[k], entries) {
      if j >= |a| { assert Precedes(b[j - |a|], b[k - |a|], entries); }
      else if k >= |a| { assert Precedes(a[j], b[k - |a|], entries); }
    }
  }

  lemma UpToRow(rows: seq<nat>, entries: seq<TimeEntry>, n: nat, at: nat)
    requires GoesAt(rows, entries, n, at)
    ensures InOrder(rows[..at] + [n], entries)
    ensures forall j | 0 <= j < at :: entries[rows[j]].work.day <= entries[n].work.day
  {
    forall j | 0 <= j < at ensures Precedes(rows[j], n, entries) {
      assert j < at - 1 ==> Precedes(rows[j], rows[at - 1], entries);
    }
    assert InOrder(rows[..at], entries);
    JoinOrder(rows[..at], [n], entries);
  }

  lemma InsertOrder(rows: seq<nat>, entries: seq<TimeEntry>, n: nat, at: nat)
    requires GoesAt(rows, entries, n, at)
    ensures InOrder(rows[..at] + [n] + rows[at..], entries)
  {
    var a, b := rows[..at] + [n], rows[at..];
    UpToRow(rows, entries, n, at);
    forall j, k | 0 <= j < k < |b| ensures Precedes(b[j], b[k], entries) {
      assert Precedes(rows[at + j], rows[at + k], entries);
    }
    forall j, k | 0 <= j < |a| && 0 <= k < |b| ensures Precedes(a[j], b[k], entries) {
      assert entries[rows[at + k]].work.day > entries[n].work.day;
      assert j < at ==> a[j] == rows[j];
    }
    JoinOrder(a, b, entries);
  }

  lemma InsertMembers(rows: seq<nat>, n: nat, at: nat)
    requires at <= |rows|
    ensures forall i: nat :: i in rows[..at] + [n] + rows[at..] <==> i in rows || i == n
  {
    assert rows == rows[..at] + rows[at..];
  }

  lemma InsertWork(rows: seq<nat>, n: nat, at: nat, entries: seq<TimeEntry>, r: seq<nat>)
    requires n < |entries| && at <= |rows| && Valid(rows, entries) && r == rows[..at] + [n] + rows[at..]
    ensures Valid(r, entries)
    ensures WorksAt(r, entries) == WorksAt(rows, entries)[..at] + [entries[n].work] + WorksAt(rows, entries)[at..]
  {
  }

  lemma PrefixRows(rows: seq<nat>, entries: seq<TimeEntry>, n: nat)
    requires n <= |entries| && Valid(rows, entries[..n])
    ensures Valid(rows, entries) && WorksAt(rows, entries) == WorksAt(rows, entries[..n])
  {
  }

  ghost predicate AreRowsOf(rows: seq<nat>, entries: seq<TimeEntry>, e: string, bound: int) {
    Valid(rows, entries) && WorksAt(rows, entries) == DueWork(entries, e, bound) && AreDue(rows, entries, e, bound)
  }

  lemma PrefixOrder(rows: seq<nat>, entries: seq<TimeEntry>, n: nat)
    requires n <= |entries| && InOrder(rows, entries[..n])
    ensures InOrder(rows, entries)
  {
    forall j, k | 0 <= j < k < |rows| ensures Precedes(rows[j], rows[k], entries) {
      assert Precedes(rows[j], rows[k], entries[..n]);
    }
  }

  lemma NextMembers(earlier: seq<nat>, entries: seq<TimeEntry>, e: string, bound: int, rows: seq<nat>)
    requires entries != [] && AreDue(earlier, entries[..|entries| - 1], e, bound)
    requires forall i: nat :: i in rows <==> i in earlier || (i == |entries| - 1 && Due(entries[i], e, bound))
    ensures forall i: nat :: i in rows <==> i < |entries| && Due(entries[i], e, bound)
  {
    var n := |entries| - 1;
    forall i: nat ensures i in rows <==> i < |entries| && Due(entries[i], e, bound) {
      assert i < n ==> entries[i] == entries[..n][i];
    }
  }

  lemma AddRow(earlier: seq<nat>, entries: seq<TimeEntry>, works: seq<Work>) returns (rows: seq<nat>)
    requires entries != [] && Valid(earlier, entries) && works == WorksAt(earlier, entries) && InOrder(earlier, entries)
    requires forall j | 0 <= j < |earlier| :: earlier[j] < |entries| - 1
    ensures Valid(rows, entries) && WorksAt(rows, entries) == InsertByDay(works, entries[|entries| - 1].work)
    ensures InOrder(rows, entries) && forall i: nat :: i in rows <==> i in earlier || i == |entries| - 1
  {
    var n := |entries| - 1;
    var at := InsertPlace(works, entries[n].work);
    assert GoesAt(earlier, entries, n, at) by {
      assert forall j | 0 <= j < |earlier| :: works[j] == entries[earlier[j]].work;
    }
    rows := earlier[..at] + [n] + earlier[at..];
    InsertOrder(earlier, entries, n, at);
    InsertMembers(earlier, n, at);
    InsertWork(earlier, n, at, entries, rows);
  }

  lemma NextRow(earlier: seq<nat>, entries: seq<TimeEntry>, e: string, bound: int) returns (rows: seq<nat>)
    requires entries != [] && AreRowsOf(earlier, entries[..|entries| - 1], e, bound)
    ensures AreRowsOf(rows, entries, e, bound)
  {
    var n := |entries| - 1;
    PrefixRows(earlier, entries, n);
    PrefixOrder(earlier, entries, n);
    rows := earlier;
    if Due(entries[n], e, bound) { rows := AddRow(earlier, entries, DueWork(entries[..n], e, bound)); }
    NextMembers(earlier, entries, e, bound, rows);
  }

  /** The work that a run finds due is that of these rows, in this order. */
  lemma {:induction false} DueRows(entries: seq<TimeEntry>, e: string, bound: int) returns (rows: seq<nat>)
    ensures AreRowsOf(rows, entries, e, bound)
  {
    rows := [];
    if entries != [] {
      var earlier := DueRows(entries[..|entries| - 1], e, bound);
      rows := NextRow(earlier, entries, e, bound);
    }
  }

  lemma {:induction false} OneOrder(a: seq<nat>, b: seq<nat>, entries: seq<TimeEntry>)
    requires InOrder(a, entries) && InOrder(b, entries) && forall i: nat :: i in a <==> i in b
    ensures a == b
    decreases |a|
  {
    if a == [] {
      FirstIsIn(b);
    } else {
      SameFirst(a, b, entries);
      RestInOrder(a, entries);
      RestInOrder(b, entries);
      OneOrder(a[1..], b[1..], entries);
      assert a == [a[0]] + a[1..] && b == [b[0]] + b[1..];
    }
  }

  lemma FirstIsIn(a: seq<nat>)
    ensures a != [] ==> a[0] in a
  {
  }

  lemma FirstPrecedes(a: seq<nat>, k: nat, entries: seq<TimeEntry>)
    requires InOrder(a, entries) && k < |a|
    ensures k > 0 ==> Precedes(a[0], a[k], entries)
  {
  }

  lemma SameFirst(a: seq<nat>, b: seq<nat>, entries: seq<TimeEntry>)
    requires InOrder(a, entries) && InOrder(b, entries) && (forall i: nat :: i in a <==> i in b) && a != []
    ensures b != [] && a[0] == b[0]
  {
    assert a[0] in b;
    assert b[0] in a;
    var j :| 0 <= j < |b| && b[j] == a[0];
    var k :| 0 <= k < |a| && a[k] == b[0];
    FirstPrecedes(a, k, entries);
    FirstPrecedes(b, j, entries);
  }

  lemma RestInOrder(a: seq<nat>, entries: seq<TimeEntry>)
    requires a != [] && InOrder(a, entries)
    ensures InOrder(a[1..], entries) && forall i: nat :: i in a[1..] <==> i in a && i != a[0]
  {
    forall j, k | 0 <= j < k < |a| - 1 ensures Precedes(a[1..][j], a[1..][k], entries) {
      assert Precedes(a[j + 1], a[k + 1], entries);
    }
    forall i: nat ensures i in a[1..] <==> i in a && i != a[0] {
      if i in a[1..] {
        var k :| 0 <= k < |a| - 1 && a[1..][k] == i;
        assert Precedes(a[0], a[k + 1], entries);
      }
      assert a == [a[0]] + a[1..];
    }
  }

  /** There is one such list of rows. */
  lemma DueRowsOnce(rows: seq<nat>, entries: seq<TimeEntry>, e: string, bound: int)
    requires AreDue(rows, entries, e, bound)
    ensures AreRowsOf(rows, entries, e, bound)
  {
    var due := DueRows(entries, e, bound);
    OneOrder(rows, due, entries);
  }

  // ---------- what one worker's turn leaves of the others ----------

  lemma {:induction false} SweepDue(entries: seq<TimeEntry>, x: string, bound: int, item: nat, e: string)
    requires x != e
    ensures DueWork(Sweep(entries, x, bound, item), e, bound) == DueWork(entries, e, bound)
  {
    if entries != [] {
      var n := |entries| - 1;
      SweepDue(entries[..n], x, bound, item, e);
      assert Sweep(entries, x, bound, item)[..n] == Sweep(entries[..n], x, bound, item);
    }
  }

  /** e's entries are the same in both. */
  ghost predicate SameFor(e: string, entries: seq<TimeEntry>, later: seq<TimeEntry>) {
    && |later| == |entries|
    && (forall i | 0 <= i < |entries| && entries[i].employee == e :: later[i] == entries[i])
    && (forall i | 0 <= i < |entries| :: later[i].employee == entries[i].employee)
    && (forall w :: PaidMinutes(later, e, w) == PaidMinutes(entries, e, w))
  }

  lemma OtherTurn(s: Sheet, w: Worker, bound: int, e: string)
    requires w.employee != e
    ensures SameFor(e, s.entries, PayWorker(s, w, bound).entries)
    ensures DueWork(PayWorker(s, w, bound).entries, e, bound) == DueWork(s.entries, e, bound)
  {
    if w.hourly {
      SweepDue(s.entries, w.employee, bound, |s.items|, e);
      forall v ensures PaidMinutes(PayWorker(s, w, bound).entries, e, v) == PaidMinutes(s.entries, e, v) {
        SweepPays(s.entries, w.employee, bound, |s.items|, e, v);
      }
    }
  }
}
