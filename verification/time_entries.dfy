/** Timesheet entries from submission to the payroll run that pays them
    (internal/models/time_entry.go, internal/services/time_entry_service.go). */
module TimeEntries {
  import opened Wrappers
  import opened HourlyPay

  datatype EntryStatus = EntryPending | EntryApproved | EntryRejected

  datatype TimeEntry = TimeEntry(employee: string, work: Work, status: EntryStatus, paidBy: Option<nat>)

  /** The entries, and for every payroll item the employee it was made out to. */
  datatype Sheet = Sheet(entries: seq<TimeEntry>, items: seq<string>)

  const MAX_MINUTES := 1440

  // ---------- submitting and resolving ----------

  /** dayMinutes: minutes on one work date, approved ones or pending ones too. */
  function DayMinutes(entries: seq<TimeEntry>, e: string, day: int, pendingToo: bool): int {
    if entries == [] then 0
    else
      var t := entries[|entries| - 1];
      DayMinutes(entries[..|entries| - 1], e, day, pendingToo) +
      (if t.employee == e && t.work.day == day && (t.status == EntryApproved || (pendingToo && t.status == EntryPending))
       then t.work.minutes else 0)
  }

  /** SubmitTimeEntry; `eligible` says that the employee is hourly and active. */
  function Submit(s: Sheet, e: string, work: Work, today: int, eligible: bool): (r: Sheet) {
    if !(1 <= work.minutes <= MAX_MINUTES) || work.day > today || !eligible
       || DayMinutes(s.entries, e, work.day, true) + work.minutes > MAX_MINUTES then s
    else s.(entries := s.entries + [TimeEntry(e, work, EntryPending, None)])
  }

  predicate IsPending(s: Sheet, i: nat) {
    i < |s.entries| && s.entries[i].status == EntryPending
  }

  function WithStatus(s: Sheet, i: nat, status: EntryStatus): Sheet
    requires i < |s.entries|
  {
    s.(entries := s.entries[i := s.entries[i].(status := status)])
  }

  function Approve(s: Sheet, i: nat): (r: Sheet) {
    if !IsPending(s, i) then s
    else
      var t := s.entries[i];
      if DayMinutes(s.entries, t.employee, t.work.day, false) + t.work.minutes > MAX_MINUTES then s
      else WithStatus(s, i, EntryApproved)
  }

  function Reject(s: Sheet, i: nat): (r: Sheet) {
    if IsPending(s, i) then WithStatus(s, i, EntryRejected) else s
  }

  // ---------- paying ----------

  /** periodUpperBound: the period's end, but no later than the day after asOf. */
  function PeriodUpperBound(periodEnd: int, asOf: int): int {
    if asOf + 1 > periodEnd then periodEnd else asOf + 1
  }

  predicate Due(t: TimeEntry, e: string, bound: int) {
    t.employee == e && t.status == EntryApproved && t.paidBy.None? && t.work.day < bound
  }

  function InsertByDay(works: seq<Work>, x: Work): seq<Work> {
    if works == [] || works[|works| - 1].day <= x.day then works + [x]
    else InsertByDay(works[..|works| - 1], x) + [works[|works| - 1]]
  }

  /** UnpaidApprovedEntriesThrough: what no run has paid yet, oldest first. */
  function DueWork(entries: seq<TimeEntry>, e: string, bound: int): seq<Work> {
    if entries == [] then []
    else
      var t, before := entries[|entries| - 1], DueWork(entries[..|entries| - 1], e, bound);
      if Due(t, e, bound) then InsertByDay(before, t.work) else before
  }

  /** PaidMinutesInISOWeek. */
  function PaidMinutes(entries: seq<TimeEntry>, e: string, w: int): int {
    if entries == [] then 0
    else
      var t := entries[|entries| - 1];
      PaidMinutes(entries[..|entries| - 1], e, w) +
      (if t.employee == e && t.status == EntryApproved && t.paidBy.Some? && Week(t.work.day) == w then t.work.minutes else 0)
  }

  function PaidTo(entries: seq<TimeEntry>, e: string): Paid {
    w => PaidMinutes(entries, e, w)
  }

  /** MarkTimeEntriesPaid, for everything that is due. */
  function Sweep(entries: seq<TimeEntry>, e: string, bound: int, item: nat): (r: seq<TimeEntry>)
    ensures |r| == |entries|
    ensures forall k | 0 <= k < |r| :: r[k] == if Due(entries[k], e, bound) then entries[k].(paidBy := Some(item)) else entries[k]
  {
    if entries == [] then []
    else
      var t := entries[|entries| - 1];
      Sweep(entries[..|entries| - 1], e, bound, item) + [if Due(t, e, bound) then t.(paidBy := Some(item)) else t]
  }

  datatype Worker = Worker(employee: string, hourly: bool)

  /** A payroll run makes out one item per active employee; an hourly one's item is charged
      with every entry that is due. */
  function PayWorker(s: Sheet, w: Worker, bound: int): (r: Sheet) {
    Sheet(if w.hourly then Sweep(s.entries, w.employee, bound, |s.items|) else s.entries, s.items + [w.employee])
  }

  function RunUpTo(s: Sheet, workers: seq<Worker>, bound: int, n: nat): (r: Sheet)
    requires n <= |workers|
  {
    if n == 0 then s else PayWorker(RunUpTo(s, workers, bound, n - 1), workers[n - 1], bound)
  }

  datatype Step =
    | Submitted(e: string, work: Work, today: int, eligible: bool)
    | Approval(i: nat)
    | Rejection(i: nat)
    | PayrollRun(workers: seq<Worker>, periodEnd: int, asOf: int)

  function Perform(s: Sheet, step: Step): (r: Sheet) {
    match step
    case Submitted(e, work, today, eligible) => Submit(s, e, work, today, eligible)
    case Approval(i) => Approve(s, i)
    case Rejection(i) => Reject(s, i)
    case PayrollRun(workers, periodEnd, asOf) => RunUpTo(s, workers, PeriodUpperBound(periodEnd, asOf), |workers|)
  }

  function After(s: Sheet, steps: seq<Step>): (r: Sheet) {
    if steps == [] then s else Perform(After(s, steps[..|steps| - 1]), steps[|steps| - 1])
  }

  // ---------- the rows in every reachable state ----------

  /** Only approved entries are paid, by an item made out to their own employee. */
  predicate EntryOk(t: TimeEntry, items: seq<string>) {
    && 1 <= t.work.minutes <= MAX_MINUTES
    && (t.paidBy.Some? ==> t.status == EntryApproved && t.paidBy.value < |items| && items[t.paidBy.value] == t.employee)
  }

  predicate SheetOk(s: Sheet) {
    forall i | 0 <= i < |s.entries| :: EntryOk(s.entries[i], s.items)
  }

  /** What a paid entry says never changes again. */
  predicate Settled(t: TimeEntry, u: TimeEntry) {
    && u.employee == t.employee && u.work == t.work
    && (t.status != EntryPending ==> u.status == t.status)
    && (t.paidBy.Some? ==> u == t)
  }

  predicate Extends(s: Sheet, r: Sheet) {
    && |s.entries| <= |r.entries| && s.items <= r.items
    && forall i | 0 <= i < |s.entries| :: Settled(s.entries[i], r.entries[i])
  }

  lemma PayWorkerOk(s: Sheet, w: Worker, bound: int)
    requires SheetOk(s)
    ensures SheetOk(PayWorker(s, w, bound)) && Extends(s, PayWorker(s, w, bound))
  {
    var r := PayWorker(s, w, bound);
    forall i | 0 <= i < |r.entries| ensures EntryOk(r.entries[i], r.items) && Settled(s.entries[i], r.entries[i]) {
      assert EntryOk(s.entries[i], s.items);
    }
  }

  lemma {:induction false} RunOk(s: Sheet, workers: seq<Worker>, bound: int, n: nat)
    requires SheetOk(s) && n <= |workers|
    ensures SheetOk(RunUpTo(s, workers, bound, n)) && Extends(s, RunUpTo(s, workers, bound, n))
  {
    if n > 0 {
      RunOk(s, workers, bound, n - 1);
      var p := RunUpTo(s, workers, bound, n - 1);
      PayWorkerOk(p, workers[n - 1], bound);
      ExtendsTwice(s, p, PayWorker(p, workers[n - 1], bound));
    }
  }

  lemma ExtendsTwice(s: Sheet, p: Sheet, q: Sheet)
    requires Extends(s, p) && Extends(p, q)
    ensures Extends(s, q)
  {
    forall i | 0 <= i < |s.entries| ensures Settled(s.entries[i], q.entries[i]) {
      assert Settled(s.entries[i], p.entries[i]) && Settled(p.entries[i], q.entries[i]);
    }
  }

  lemma StepOk(s: Sheet, step: Step)
    requires SheetOk(s)
    ensures SheetOk(Perform(s, step)) && Extends(s, Perform(s, step))
  {
    match step
    case PayrollRun(workers, periodEnd, asOf) => RunOk(s, workers, PeriodUpperBound(periodEnd, asOf), |workers|);
    case _ =>
  }

  /** Through any further run an entry charged to a payroll item stays charged to that item,
      with the same minutes: it is never paid twice. */
  lemma {:induction false} ChargedOnce(s: Sheet, steps: seq<Step>)
    requires SheetOk(s)
    ensures SheetOk(After(s, steps)) && Extends(s, After(s, steps))
  {
    if steps != [] {
      ChargedOnce(s, steps[..|steps| - 1]);
      var p := After(s, steps[..|steps| - 1]);
      StepOk(p, steps[|steps| - 1]);
      ExtendsTwice(s, p, Perform(p, steps[|steps| - 1]));
    }
  }

  /** A pending entry that is rejected is never approved or paid, whatever follows. */
  lemma RejectedNeverPaid(s: Sheet, i: nat, steps: seq<Step>)
    requires SheetOk(s) && IsPending(s, i)
    ensures var r := After(Reject(s, i), steps);
            i < |r.entries| && r.entries[i].status == EntryRejected && r.entries[i].paidBy.None?
  {
    StepOk(s, Rejection(i));
    ChargedOnce(Reject(s, i), steps);
    var r := After(Reject(s, i), steps);
    assert Settled(Reject(s, i).entries[i], r.entries[i]);
    assert EntryOk(r.entries[i], r.items);
  }

  /** After a payroll run no approved entry of an active hourly worker dated before the
      run's bound is unpaid. */
  lemma {:induction false} NothingLeftUnpaid(s: Sheet, workers: seq<Worker>, bound: int, n: nat, k: nat, i: nat)
    requires SheetOk(s) && k < n <= |workers| && workers[k].hourly && i < |s.entries|
    ensures var r := RunUpTo(s, workers, bound, n);
            |r.entries| == |s.entries| && !Due(r.entries[i], workers[k].employee, bound)
  {
    RunLength(s, workers, bound, n - 1);
    var p := RunUpTo(s, workers, bound, n - 1);
    assert RunUpTo(s, workers, bound, n) == PayWorker(p, workers[n - 1], bound);
    if k < n - 1 { NothingLeftUnpaid(s, workers, bound, n - 1, k, i); }
  }

  lemma {:induction false} RunLength(s: Sheet, workers: seq<Worker>, bound: int, n: nat)
    requires n <= |workers|
    ensures |RunUpTo(s, workers, bound, n).entries| == |s.entries|
    ensures |RunUpTo(s, workers, bound, n).items| == |s.items| + n
  {
    if n > 0 { RunLength(s, workers, bound, n - 1); }
  }

  // ---------- no day is approved past 24 hours ----------

  lemma {:induction false} DayMinutesUpdate(entries: seq<TimeEntry>, i: nat, t: TimeEntry, e: string, day: int)
    requires i < |entries|
    ensures DayMinutes(entries[i := t], e, day, false) == DayMinutes(entries, e, day, false)
            - DayMinutes([entries[i]], e, day, false) + DayMinutes([t], e, day, false)
  {
    var n := |entries| - 1;
    assert [entries[i]][..0] == [] && [t][..0] == [];
    if i == n {
      assert entries[i := t][..n] == entries[..n];
    } else {
      DayMinutesUpdate(entries[..n], i, t, e, day);
      assert entries[i := t][..n] == entries[..n][i := t];
    }
  }

  lemma {:induction false} SweepDayMinutes(entries: seq<TimeEntry>, x: string, bound: int, item: nat, e: string, day: int)
    ensures DayMinutes(Sweep(entries, x, bound, item), e, day, false) == DayMinutes(entries, e, day, false)
  {
    if entries != [] {
      var n := |entries| - 1;
      SweepDayMinutes(entries[..n], x, bound, item, e, day);
      assert Sweep(entries, x, bound, item)[..n] == Sweep(entries[..n], x, bound, item);
    }
  }

  lemma {:induction false} RunDayMinutes(s: Sheet, workers: seq<Worker>, bound: int, n: nat, e: string, day: int)
    requires n <= |workers|
    ensures DayMinutes(RunUpTo(s, workers, bound, n).entries, e, day, false) == DayMinutes(s.entries, e, day, false)
  {
    if n > 0 {
      RunDayMinutes(s, workers, bound, n - 1, e, day);
      var p := RunUpTo(s, workers, bound, n - 1);
      SweepDayMinutes(p.entries, workers[n - 1].employee, bound, |p.items|, e, day);
    }
  }

  lemma ResolveDay(s: Sheet, i: nat, e: string, day: int)
    requires IsPending(s, i)
    ensures DayMinutes(WithStatus(s, i, EntryRejected).entries, e, day, false) == DayMinutes(s.entries, e, day, false)
    ensures DayMinutes(WithStatus(s, i, EntryApproved).entries, e, day, false) == DayMinutes(s.entries, e, day, false) +
            (if s.entries[i].employee == e && s.entries[i].work.day == day then s.entries[i].work.minutes else 0)
  {
    var t := s.entries[i];
    DayMinutesUpdate(s.entries, i, t.(status := EntryApproved), e, day);
    DayMinutesUpdate(s.entries, i, t.(status := EntryRejected), e, day);
    SingleDay(t, e, day);
  }

  lemma StepDay(s: Sheet, step: Step, e: string, day: int)
    requires DayMinutes(s.entries, e, day, false) <= MAX_MINUTES
    ensures DayMinutes(Perform(s, step).entries, e, day, false) <= MAX_MINUTES
  {
    match step
    case Submitted(x, work, today, eligible) =>
      assert (s.entries + [TimeEntry(x, work, EntryPending, None)])[..|s.entries|] == s.entries;
    case Approval(i) => if IsPending(s, i) { ResolveDay(s, i, e, day); }
    case Rejection(i) => if IsPending(s, i) { ResolveDay(s, i, e, day); }
    case PayrollRun(workers, periodEnd, asOf) =>
      RunDayMinutes(s, workers, PeriodUpperBound(periodEnd, asOf), |workers|, e, day);
  }

  /** In every reachable state, however submissions and approvals interleave, nobody has
      more than 24 hours approved on one day. */
  lemma {:induction false} DayIsCapped(steps: seq<Step>, e: string, day: int)
    ensures DayMinutes(After(Sheet([], []), steps).entries, e, day, false) <= MAX_MINUTES
  {
    if steps != [] {
      DayIsCapped(steps[..|steps| - 1], e, day);
      StepDay(After(Sheet([], []), steps[..|steps| - 1]), steps[|steps| - 1], e, day);
    }
  }

  lemma SingleDay(t: TimeEntry, e: string, day: int)
    ensures t.status == EntryPending ==> DayMinutes([t], e, day, false) == 0
    ensures DayMinutes([t.(status := EntryRejected)], e, day, false) == 0
    ensures DayMinutes([t.(status := EntryApproved)], e, day, false) ==
            if t.employee == e && t.work.day == day then t.work.minutes else 0
  {
    assert [t][..0] == [] && [t.(status := EntryApproved)][..0] == [] && [t.(status := EntryRejected)][..0] == [];
  }

  // ---------- overtime over all runs ----------

  lemma {:induction false} InsertTotal(works: seq<Work>, x: Work, w: int)
    ensures WeekTotal(InsertByDay(works, x), w) == WeekTotal(works, w) + (if Week(x.day) == w then x.minutes else 0)
  {
    if works == [] || works[|works| - 1].day <= x.day {
      assert (works + [x])[..|works|] == works;
    } else {
      var n := |works| - 1;
      InsertTotal(works[..n], x, w);
      var r := InsertByDay(works[..n], x);
      assert (r + [works[n]])[..|r|] == r;
    }
  }

  lemma {:induction false} InsertPositive(works: seq<Work>, x: Work)
    requires Positive(works) && x.minutes > 0
    ensures Positive(InsertByDay(works, x))
  {
    if works != [] && works[|works| - 1].day > x.day { InsertPositive(works[..|works| - 1], x); }
  }

  predicate OldestFirst(works: seq<Work>) {
    forall i, j | 0 <= i < j < |works| :: works[i].day <= works[j].day
  }

  lemma {:induction false} InsertSorted(works: seq<Work>, x: Work)
    requires OldestFirst(works)
    ensures OldestFirst(InsertByDay(works, x))
    ensures forall i | 0 <= i < |InsertByDay(works, x)| ::
              InsertByDay(works, x)[i].day <= x.day || (works != [] && InsertByDay(works, x)[i].day <= works[|works| - 1].day)
  {
    if works != [] && works[|works| - 1].day > x.day { InsertSorted(works[..|works| - 1], x); }
  }

  lemma {:induction false} DueWorkSorted(entries: seq<TimeEntry>, e: string, bound: int)
    ensures OldestFirst(DueWork(entries, e, bound))
  {
    if entries != [] {
      DueWorkSorted(entries[..|entries| - 1], e, bound);
      InsertSorted(DueWork(entries[..|entries| - 1], e, bound), entries[|entries| - 1].work);
    }
  }

  lemma {:induction false} DueWorkPositive(entries: seq<TimeEntry>, e: string, bound: int)
    requires forall i | 0 <= i < |entries| :: entries[i].work.minutes > 0
    ensures Positive(DueWork(entries, e, bound))
  {
    if entries != [] {
      var n := |entries| - 1;
      DueWorkPositive(entries[..n], e, bound);
      InsertPositive(DueWork(entries[..n], e, bound), entries[n].work);
    }
  }

  /** Sweeping moves exactly the due minutes of a week to its paid minutes. */
  lemma {:induction false} SweepPays(entries: seq<TimeEntry>, x: string, bound: int, item: nat, e: string, w: int)
    ensures PaidMinutes(Sweep(entries, x, bound, item), e, w) ==
            PaidMinutes(entries, e, w) + (if x == e then WeekTotal(DueWork(entries, x, bound), w) else 0)
  {
    if entries != [] {
      var n := |entries| - 1;
      SweepPays(entries[..n], x, bound, item, e, w);
      assert Sweep(entries, x, bound, item)[..n] == Sweep(entries[..n], x, bound, item);
      if Due(entries[n], x, bound) { InsertTotal(DueWork(entries[..n], x, bound), entries[n].work, w); }
    }
  }

  /** Regular minutes of week w that the worker's item is paid. */
  function RegularIfPaid(s: Sheet, worker: Worker, bound: int, e: string, w: int, threshold: int): int {
    if worker.hourly && worker.employee == e
    then RegularIn(DueWork(s.entries, e, bound), PaidTo(s.entries, e), threshold, w) else 0
  }

  function RegularDuring(s: Sheet, workers: seq<Worker>, bound: int, n: nat, e: string, w: int, threshold: int): int
    requires n <= |workers|
  {
    if n == 0 then 0
    else RegularDuring(s, workers, bound, n - 1, e, w, threshold) +
         RegularIfPaid(RunUpTo(s, workers, bound, n - 1), workers[n - 1], bound, e, w, threshold)
  }

  /** Regular minutes of week w paid to e by all the payroll runs. */
  function RegularPaid(s: Sheet, steps: seq<Step>, e: string, w: int, threshold: int): int {
    if steps == [] then 0
    else
      var front, last := steps[..|steps| - 1], steps[|steps| - 1];
      RegularPaid(s, front, e, w, threshold) +
      (if last.PayrollRun?
       then RegularDuring(After(s, front), last.workers, PeriodUpperBound(last.periodEnd, last.asOf), |last.workers|, e, w, threshold)
       else 0)
  }

  lemma DueRegular(s: Sheet, e: string, bound: int, w: int, threshold: int, due: seq<Work>, paid: Paid)
    requires SheetOk(s) && due == DueWork(s.entries, e, bound) && paid == PaidTo(s.entries, e)
    ensures RegularIn(due, paid, threshold, w) ==
            Least(threshold, PaidMinutes(s.entries, e, w) + WeekTotal(due, w)) - Least(threshold, PaidMinutes(s.entries, e, w))
  {
    assert Positive(due) by {
      assert forall i | 0 <= i < |s.entries| :: EntryOk(s.entries[i], s.items);
      DueWorkPositive(s.entries, e, bound);
    }
    RegularClosedForm(due, paid, threshold, w);
  }

  lemma WorkerOvertime(s: Sheet, worker: Worker, bound: int, e: string, w: int, threshold: int, r: Sheet)
    requires SheetOk(s) && r == PayWorker(s, worker, bound)
    ensures RegularIfPaid(s, worker, bound, e, w, threshold) ==
            Least(threshold, PaidMinutes(r.entries, e, w)) - Least(threshold, PaidMinutes(s.entries, e, w))
  {
    if worker.hourly {
      assert r.entries == Sweep(s.entries, worker.employee, bound, |s.items|);
      SweepPays(s.entries, worker.employee, bound, |s.items|, e, w);
      if worker.employee == e {
        DueRegular(s, e, bound, w, threshold, DueWork(s.entries, e, bound), PaidTo(s.entries, e));
      }
    }
  }

  lemma {:induction false} RunOvertime(s: Sheet, workers: seq<Worker>, bound: int, n: nat, e: string, w: int, threshold: int)
    requires SheetOk(s) && n <= |workers|
    ensures RegularDuring(s, workers, bound, n, e, w, threshold) ==
            Least(threshold, PaidMinutes(RunUpTo(s, workers, bound, n).entries, e, w)) - Least(threshold, PaidMinutes(s.entries, e, w))
  {
    if n > 0 {
      RunOvertime(s, workers, bound, n - 1, e, w, threshold);
      RunOk(s, workers, bound, n - 1);
      var p := RunUpTo(s, workers, bound, n - 1);
      WorkerOvertime(p, workers[n - 1], bound, e, w, threshold, PayWorker(p, workers[n - 1], bound));
    }
  }

  lemma {:induction false} PaidUpdate(entries: seq<TimeEntry>, i: nat, t: TimeEntry, e: string, w: int)
    requires i < |entries| && entries[i].paidBy.None? && t.paidBy.None?
    ensures PaidMinutes(entries[i := t], e, w) == PaidMinutes(entries, e, w)
  {
    var n := |entries| - 1;
    if i == n {
      assert entries[i := t][..n] == entries[..n];
    } else {
      PaidUpdate(entries[..n], i, t, e, w);
      assert entries[i := t][..n] == entries[..n][i := t];
    }
  }

  lemma OnlyRunsPay(s: Sheet, step: Step, e: string, w: int)
    requires SheetOk(s) && !step.PayrollRun?
    ensures PaidMinutes(Perform(s, step).entries, e, w) == PaidMinutes(s.entries, e, w)
  {
    match step
    case Submitted(x, work, today, eligible) =>
      assert (s.entries + [TimeEntry(x, work, EntryPending, None)])[..|s.entries|] == s.entries;
    case Approval(i) =>
      if IsPending(s, i) {
        assert EntryOk(s.entries[i], s.items);
        PaidUpdate(s.entries, i, s.entries[i].(status := EntryApproved), e, w);
      }
    case Rejection(i) =>
      if IsPending(s, i) {
        assert EntryOk(s.entries[i], s.items);
        PaidUpdate(s.entries, i, s.entries[i].(status := EntryRejected), e, w);
      }
  }

  /** Over every history of submissions, late approvals and payroll runs, the regular
      minutes paid for a week are the smaller of the threshold and all minutes paid for it:
      a late approval is never rated as regular time once the week is full. */
  lemma {:induction false} OvertimeIsExact(steps: seq<Step>, e: string, w: int, threshold: int)
    requires threshold >= 0
    ensures RegularPaid(Sheet([], []), steps, e, w, threshold) ==
            Least(threshold, PaidMinutes(After(Sheet([], []), steps).entries, e, w))
  {
    if steps != [] {
      var front, last := steps[..|steps| - 1], steps[|steps| - 1];
      OvertimeIsExact(front, e, w, threshold);
      ChargedOnce(Sheet([], []), front);
      var s := After(Sheet([], []), front);
      if last.PayrollRun? {
        RunOvertime(s, last.workers, PeriodUpperBound(last.periodEnd, last.asOf), |last.workers|, e, w, threshold);
      } else {
        OnlyRunsPay(s, last, e, w);
      }
    }
  }

  // ---------- the tables as the services update them ----------

  class TimeSheet {
    var entries: seq<TimeEntry>
    var items: seq<string>

    constructor ()
      ensures State() == Sheet([], [])
    {
      entries, items := [], [];
    }

    function State(): Sheet
      reads this
    {
      Sheet(entries, items)
    }

    method SumDay(e: string, day: int, pendingToo: bool) returns (total: int)
      ensures total == DayMinutes(entries, e, day, pendingToo)
    {
      total := 0;
      for i := 0 to |entries|
        invariant total == DayMinutes(entries[..i], e, day, pendingToo)
      {
        var t := entries[i];
        assert entries[..i + 1][..i] == entries[..i];
        if t.employee == e && t.work.day == day && (t.status == EntryApproved || (pendingToo && t.status == EntryPending)) {
          total := total + t.work.minutes;
        }
      }
      assert entries[..|entries|] == entries;
    }

    method SubmitTimeEntry(e: string, work: Work, today: int, eligible: bool)
      modifies this`entries
      ensures State() == Submit(old(State()), e, work, today, eligible)
    {
      if work.minutes <= 0 || work.minutes > MAX_MINUTES || work.day > today || !eligible { return; }
      var claimed := SumDay(e, work.day, true);
      if claimed + work.minutes > MAX_MINUTES { return; }
      entries := entries + [TimeEntry(e, work, EntryPending, None)];
    }

    method ApproveTimeEntry(i: nat)
      modifies this`entries
      ensures State() == Approve(old(State()), i)
    {
      if i >= |entries| { return; }
      var t := entries[i];
      var approved := SumDay(t.employee, t.work.day, false);
      if t.status != EntryPending || approved + t.work.minutes > MAX_MINUTES { return; }
      entries := entries[i := t.(status := EntryApproved)];
    }

    method RejectTimeEntry(i: nat)
      modifies this`entries
      ensures State() == Reject(old(State()), i)
    {
      if i < |entries| && entries[i].status == EntryPending {
        entries := entries[i := entries[i].(status := EntryRejected)];
      }
    }

    /** The rows due, and their work oldest first. */
    method UnpaidApprovedEntriesThrough(e: string, bound: int) returns (ids: seq<nat>, works: seq<Work>)
      ensures forall k: nat :: k in ids <==> k < |entries| && Due(entries[k], e, bound)
      ensures works == DueWork(entries, e, bound) && OldestFirst(works)
    {
      ids, works := [], [];
      for i := 0 to |entries|
        invariant forall k: nat :: k in ids <==> k < i && Due(entries[k], e, bound)
        invariant works == DueWork(entries[..i], e, bound)
      {
        assert entries[..i + 1][..i] == entries[..i];
        if Due(entries[i], e, bound) {
          ids, works := ids + [i], InsertByDay(works, entries[i].work);
        }
      }
      assert entries[..|entries|] == entries;
      DueWorkSorted(entries, e, bound);
    }

    method PaidMinutesInISOWeek(e: string, w: int) returns (total: int)
      ensures total == PaidMinutes(entries, e, w)
    {
      total := 0;
      for i := 0 to |entries|
        invariant total == PaidMinutes(entries[..i], e, w)
      {
        var t := entries[i];
        assert entries[..i + 1][..i] == entries[..i];
        if t.employee == e && t.status == EntryApproved && t.paidBy.Some? && Week(t.work.day) == w {
          total := total + t.work.minutes;
        }
      }
      assert entries[..|entries|] == entries;
    }

    /** Looks up every week that has work in it, once. */
    method SeedWeeks(e: string, works: seq<Work>) returns (seeds: map<int, int>)
      ensures Seeds(seeds, works, PaidTo(entries, e))
    {
      seeds := map[];
      for k := 0 to |works|
        invariant forall w :: w in seeds ==> seeds[w] == PaidMinutes(entries, e, w)
        invariant forall j | 0 <= j < k :: Week(works[j].day) in seeds
      {
        var w := Week(works[k].day);
        if w !in seeds {
          var paid := PaidMinutesInISOWeek(e, w);
          seeds := seeds[w := paid];
        }
      }
    }

    method MarkTimeEntriesPaid(ids: seq<nat>, item: nat)
      requires forall j | 0 <= j < |ids| :: ids[j] < |entries|
      modifies this`entries
      ensures |entries| == |old(entries)|
      ensures forall k | 0 <= k < |entries| ::
                entries[k] == if k in ids then old(entries)[k].(paidBy := Some(item)) else old(entries)[k]
    {
      for j := 0 to |ids|
        invariant |entries| == |old(entries)|
        invariant forall k | 0 <= k < |entries| ::
                    entries[k] == if k in ids[..j] then old(entries)[k].(paidBy := Some(item)) else old(entries)[k]
      {
        entries := entries[ids[j] := entries[ids[j]].(paidBy := Some(item))];
        assert ids[..j + 1] == ids[..j] + [ids[j]];
      }
      assert ids[..|ids|] == ids;
    }

    /** A failed transaction leaves the tables as they were. */
    method Rollback(s: Sheet)
      modifies this
      ensures State() == s
    {
      entries, items := s.entries, s.items;
    }

    /** What a payroll run does to the timesheet for one employee. */
    method PayEmployee(w: Worker, bound: int) returns (works: seq<Work>)
      modifies this
      ensures State() == PayWorker(old(State()), w, bound)
      ensures works == if w.hourly then DueWork(old(entries), w.employee, bound) else []
    {
      var ids: seq<nat> := [];
      works := [];
      if w.hourly { ids, works := UnpaidApprovedEntriesThrough(w.employee, bound); }
      var item := |items|;
      items := items + [w.employee];
      forall j | 0 <= j < |ids| ensures ids[j] < |entries| { assert ids[j] in ids; }
      MarkTimeEntriesPaid(ids, item);
      assert entries == if w.hourly then Sweep(old(entries), w.employee, bound, item) else old(entries);
    }
  }
}
