/** Every line of a committed payroll run, from the tables as they were before the run:
    what was earned, withheld, saved and paid. */
module PayrollLines {
  import opened Wrappers
  import opened Money
  import opened HourlyPay
  import opened TimeEntries
  import opened TimeEffects
  import opened PayrollRun

  // ---------- what a line says ----------

  /** Row j is rated after the minutes of its week that earlier runs paid and those of the
      rows before it. */
  ghost predicate SlipAt(
      slips: seq<Slip>, rows: seq<nat>, j: nat, entries: seq<TimeEntry>, e: string, policy: PayPolicy, rate: Int64)
    requires |slips| == |rows| && j < |rows| && Valid(rows, entries)
  {
    var work := entries[rows[j]].work;
    Slips(slips[j], work, PaidMinutes(entries, e, Week(work.day)) + WeekTotal(WorksAt(rows, entries)[..j], Week(work.day)),
          policy, rate)
  }

  /** One slip for every row that is due. */
  ghost predicate IsTimesheet(
      slips: seq<Slip>, rows: seq<nat>, entries: seq<TimeEntry>, e: string, bound: int, policy: PayPolicy, rate: Int64)
  {
    && AreDue(rows, entries, e, bound) && Valid(rows, entries) && |slips| == |rows|
    && forall j | 0 <= j < |rows| :: SlipAt(slips, rows, j, entries, e, policy, rate)
  }

  /** A salary, or what the slips add up to. */
  ghost predicate IsGross(
      gross: int, e: Employee, terms: Terms, slips: seq<Slip>, rows: seq<nat>, entries: seq<TimeEntry>)
  {
    if !e.hourly then gross == e.salary
    else
      && IsTimesheet(slips, rows, entries, e.id, terms.bound, terms.policy, e.rate)
      && gross == SlipTotals(slips, WorksAt(rows, entries)).base + SlipTotals(slips, WorksAt(rows, entries)).premium
  }

  /** What is owed is withheld as far as gross reaches, what was elected is saved unless it is
      nothing or everything that is left, and the rest is paid. */
  ghost predicate IsNet(l: Line, owed: int, pref: Savings.Preference, wanted: int) {
    var left := l.gross - l.withheld;
    && l.withheld == Least(l.gross, owed)
    && InRange(left) && (left > 0 ==> Savings.Elected(wanted, left, pref))
    && l.diverted == (if left > 0 && pref.enabled && 0 < wanted < left then wanted else 0)
    && l.net == left - l.diverted
    && l.status == (if l.net == 0 then PayrollBatch.Completed else PayrollBatch.Pending)
  }

  // ---------- one turn ----------

  lemma SlipsOfRows(
      slips: seq<Slip>, rows: seq<nat>, entries: seq<TimeEntry>, e: string, bound: int, policy: PayPolicy, rate: Int64, paid: Paid)
    requires AreDue(rows, entries, e, bound) && Valid(rows, entries) && paid == PaidTo(entries, e)
    requires |slips| == |rows|
    ensures AreSlips(slips, WorksAt(rows, entries), paid, policy, rate) <==>
            IsTimesheet(slips, rows, entries, e, bound, policy, rate)
  {
    var works := WorksAt(rows, entries);
    assert forall w :: paid(w) == PaidMinutes(entries, e, w);
    forall j | 0 <= j < |rows|
      ensures IsSlip(slips[j], works, j, paid, policy, rate) <==> SlipAt(slips, rows, j, entries, e, policy, rate)
    {
    }
  }

  lemma GrossOfTurn(sheet: Timesheet, e: Employee, terms: Terms) returns (rows: seq<nat>, slips: seq<Slip>)
    requires EmployeeOk(e) && GrossPay(sheet, e, terms).Ok?
    ensures IsGross(GrossPay(sheet, e, terms).value, e, terms, slips, rows, sheet.entries)
    ensures e.hourly ==> WorksAt(rows, sheet.entries) == DueWork(sheet.entries, e.id, terms.bound)
  {
    rows, slips := [], [];
    if e.hourly {
      var entries, paid := sheet.entries, PaidTo(sheet.entries, e.id);
      DueIsPositive(sheet, e.id, terms.bound);
      rows := DueRows(entries, e.id, terms.bound);
      slips := GrossIsSlips(DueWork(entries, e.id, terms.bound), paid, terms.policy, e.rate, RuleOf(terms.policy, e.rate));
      SlipsOfRows(slips, rows, entries, e.id, terms.bound, terms.policy, e.rate, paid);
    }
  }

  lemma NetOfSlip(e: string, slip: Ewa.Payslip, owed: nat, pref: Savings.Preference, wanted: int)
    requires slip.gross >= 0 && slip.withheld == Least(slip.gross, owed) && InRange(slip.gross - slip.withheld)
    requires var left := slip.gross - slip.withheld;
             && (left > 0 ==> Savings.Elected(wanted, left, pref))
             && slip.diverted == if left > 0 && pref.enabled && 0 < wanted < left then wanted else 0
    ensures LineFor(e, slip).gross == slip.gross && IsNet(LineFor(e, slip), owed, pref, wanted)
  {
  }

  /** The payslip of a turn in its parts. */
  lemma SlipOfTurn(org: Ewa.Org, e: string, period: int, gross: Int64, pref: Savings.Preference, slip: Ewa.Payslip, owed: nat)
    requires gross >= 0 && owed == EwaRecovery.OwedBefore(org.advances, e, period, |org.advances|)
    requires Ewa.PayItem(org, e, period, gross, pref).Ok? && slip == Ewa.PayItem(org, e, period, gross, pref).value.slip
    ensures slip.gross == gross && slip.withheld == Least(gross, owed) && InRange(gross - slip.withheld)
    ensures Savings.Diverted(gross - slip.withheld, pref) == Ok(slip.diverted)
  {
    var s := Ewa.SettleUpTo(org, e, period, org.nextItem, gross, |org.advances|);
    assert s.withheld == Least(gross, owed) by {
      EwaRecovery.Waterfall(org, e, period, org.nextItem, gross, |org.advances|, s);
    }
    PayItemParts(org, e, period, gross, pref, s);
    var d := Savings.Diverted(gross - s.withheld, pref);
    assert slip == Ewa.Payslip(gross, s.withheld, d.value);
  }

  lemma NetOfTurn(e: Employee, slip: Ewa.Payslip, owed: nat) returns (wanted: int)
    requires slip.gross >= 0 && slip.withheld == Least(slip.gross, owed) && InRange(slip.gross - slip.withheld)
    requires Savings.Diverted(slip.gross - slip.withheld, e.pref) == Ok(slip.diverted)
    ensures IsNet(LineFor(e.id, slip), owed, e.pref, wanted)
  {
    wanted := Diversion(slip.gross - slip.withheld, e.pref);
    NetOfSlip(e.id, slip, owed, e.pref, wanted);
  }

  lemma Diversion(left: Int64, pref: Savings.Preference) returns (wanted: int)
    requires left >= 0 && Savings.Diverted(left, pref).Ok?
    ensures left > 0 ==> Savings.Elected(wanted, left, pref)
    ensures Savings.Diverted(left, pref).value == if left > 0 && pref.enabled && 0 < wanted < left then wanted else 0
  {
    wanted := 0;
    if left > 0 {
      wanted := Savings.ElectionExists(left, pref);
      Savings.DivertedIsElected(left, pref, wanted);
    }
  }

  /** A turn in its parts: the gross, and a payslip of it. */
  lemma TurnParts(run: Run, e: Employee, terms: Terms, r: Run, owed: nat) returns (gross: Int64, slip: Ewa.Payslip)
    requires EmployeeOk(e) && PayLine(run, e, terms) == Some(r)
    requires owed == EwaRecovery.OwedBefore(run.org.advances, e.id, terms.period, |run.org.advances|)
    ensures GrossPay(run.sheet, e, terms) == Ok(gross) && r.lines == run.lines + [LineFor(e.id, slip)]
    ensures gross == slip.gross >= 0 && slip.withheld == Least(gross, owed) && InRange(gross - slip.withheld)
    ensures Savings.Diverted(gross - slip.withheld, e.pref) == Ok(slip.diverted)
  {
    gross := GrossPay(run.sheet, e, terms).value;
    slip := Ewa.PayItem(run.org, e.id, terms.period, gross, e.pref).value.slip;
    GrossIsNonNegative(run.sheet, e, terms);
    SlipOfTurn(run.org, e.id, terms.period, gross, e.pref, slip, owed);
  }

  /** The new line of a turn, from the tables before it. */
  lemma TurnLine(run: Run, e: Employee, terms: Terms, r: Run) returns (rows: seq<nat>, slips: seq<Slip>, wanted: int)
    requires EmployeeOk(e) && PayLine(run, e, terms) == Some(r)
    ensures |r.lines| == |run.lines| + 1
    ensures var l := r.lines[|run.lines|];
            && l.employee == e.id && IsGross(l.gross, e, terms, slips, rows, run.sheet.entries)
            && IsNet(l, EwaRecovery.OwedBefore(run.org.advances, e.id, terms.period, |run.org.advances|), e.pref, wanted)
    ensures e.hourly ==> WorksAt(rows, run.sheet.entries) == DueWork(run.sheet.entries, e.id, terms.bound)
  {
    var owed := EwaRecovery.OwedBefore(run.org.advances, e.id, terms.period, |run.org.advances|);
    var gross, slip := TurnParts(run, e, terms, r, owed);
    rows, slips := GrossOfTurn(run.sheet, e, terms);
    wanted := NetOfTurn(e, slip, owed);
  }

  /** What a turn charges: the rows of the timesheet, and with them the minutes of each week
      that its regular time is reckoned from. */
  lemma TurnCharges(run: Run, e: Employee, terms: Terms, r: Run, rows: seq<nat>, slips: seq<Slip>)
    requires PayLine(run, e, terms) == Some(r) && e.hourly
    requires IsTimesheet(slips, rows, run.sheet.entries, e.id, terms.bound, terms.policy, e.rate)
    requires WorksAt(rows, run.sheet.entries) == DueWork(run.sheet.entries, e.id, terms.bound)
    ensures |r.sheet.entries| == |run.sheet.entries|
    ensures forall j | 0 <= j < |rows| :: r.sheet.entries[rows[j]].paidBy == Some(|run.sheet.items|)
    ensures forall w :: SlipRegularIn(slips, WorksAt(rows, run.sheet.entries), w) ==
              Least(terms.policy.threshold, PaidMinutes(r.sheet.entries, e.id, w))
              - Least(terms.policy.threshold, PaidMinutes(run.sheet.entries, e.id, w))
  {
    var entries, paid := run.sheet.entries, PaidTo(run.sheet.entries, e.id);
    assert r.sheet == PayWorker(run.sheet, WorkerOf(e), terms.bound);
    assert r.sheet.entries == Sweep(entries, e.id, terms.bound, |run.sheet.items|);
    SlipsOfRows(slips, rows, entries, e.id, terms.bound, terms.policy, e.rate, paid);
    forall w ensures SlipRegularIn(slips, WorksAt(rows, entries), w) ==
      Least(terms.policy.threshold, PaidMinutes(r.sheet.entries, e.id, w))
      - Least(terms.policy.threshold, PaidMinutes(entries, e.id, w))
    {
      SlipWeek(slips, WorksAt(rows, entries), paid, terms.policy, e.rate, w);
      SweepPays(entries, e.id, terms.bound, |run.sheet.items|, e.id, w);
    }
    forall j | 0 <= j < |rows| ensures Due(entries[rows[j]], e.id, terms.bound) { assert rows[j] in rows; }
  }

  // ---------- what the other turns leave alone ----------

  predicate DistinctIds(es: seq<Employee>) {
    forall j, k | 0 <= j < k < |es| :: es[j].id != es[k].id
  }

  /** e's advances are the same in both. */
  predicate SameAdvances(e: string, advances: seq<Ewa.Advance>, later: seq<Ewa.Advance>) {
    && |later| == |advances|
    && forall i | 0 <= i < |advances| ::
         later[i].employee == advances[i].employee && (advances[i].employee == e ==> later[i] == advances[i])
  }

  lemma {:induction false} SameOwed(e: string, advances: seq<Ewa.Advance>, later: seq<Ewa.Advance>, period: int, n: nat)
    requires SameAdvances(e, advances, later) && n <= |advances|
    ensures EwaRecovery.OwedBefore(later, e, period, n) == EwaRecovery.OwedBefore(advances, e, period, n)
  {
    if n > 0 { SameOwed(e, advances, later, period, n - 1); }
  }

  lemma OtherPay(org: Ewa.Org, x: string, period: int, gross: Int64, pref: Savings.Preference, e: string)
    requires x != e && Ewa.PayItem(org, x, period, gross, pref).Ok?
    ensures SameAdvances(e, org.advances, Ewa.PayItem(org, x, period, gross, pref).value.books.advances)
  {
    EwaRecovery.Waterfall(org, x, period, org.nextItem, gross, |org.advances|,
                          Ewa.SettleUpTo(org, x, period, org.nextItem, gross, |org.advances|));
  }

  /** Nothing of e's is different in the two states. */
  ghost predicate Untouched(e: string, run: Run, later: Run) {
    && SameFor(e, run.sheet.entries, later.sheet.entries) && SameAdvances(e, run.org.advances, later.org.advances)
  }

  lemma OtherTurnLeaves(run: Run, x: Employee, terms: Terms, turn: Turn, e: string, r: Run)
    requires x.id != e && IsTurnOf(turn, terms) && turn(run, x) == Some(r)
    ensures Untouched(e, run, r)
  {
    assert PayLine(run, x, terms) == Some(r);
    OtherTurn(run.sheet, WorkerOf(x), terms.bound, e);
    OtherPay(run.org, x.id, terms.period, GrossPay(run.sheet, x, terms).value, x.pref, e);
  }

  lemma UntouchedTwice(e: string, run: Run, later: Run, last: Run)
    requires Untouched(e, run, later) && Untouched(e, later, last)
    ensures Untouched(e, run, last)
  {
  }

  /** Where the run stands after n employees. */
  ghost predicate At(start: Run, es: seq<Employee>, turn: Turn, n: nat, run: Run) {
    n <= |es| && CreateUpTo(start, es, turn, n) == Some(run)
  }

  lemma TurnBefore(start: Run, es: seq<Employee>, turn: Turn, n: nat, last: Run) returns (before: Run)
    requires n > 0 && At(start, es, turn, n, last)
    ensures At(start, es, turn, n - 1, before) && turn(before, es[n - 1]) == Some(last)
  {
    before := CreateUpTo(start, es, turn, n - 1).value;
  }

  lemma {:induction false} QuietTurns(
      start: Run, es: seq<Employee>, terms: Terms, turn: Turn, m: nat, n: nat, e: string, last: Run)
    returns (run: Run)
    requires m <= n && IsTurnOf(turn, terms) && At(start, es, turn, n, last) && forall j | m <= j < n :: es[j].id != e
    ensures At(start, es, turn, m, run) && Untouched(e, run, last)
    decreases n
  {
    run := last;
    if m < n {
      var before := TurnBefore(start, es, turn, n, last);
      run := QuietTurns(start, es, terms, turn, m, n - 1, e, before);
      OtherTurnLeaves(before, es[n - 1], terms, turn, e, last);
      UntouchedTwice(e, run, before, last);
    }
  }

  lemma LineAdded(run: Run, e: Employee, terms: Terms, turn: Turn, r: Run)
    requires IsTurnOf(turn, terms) && turn(run, e) == Some(r)
    ensures Grown(run, r, 1)
  {
    assert PayLine(run, e, terms) == Some(r);
  }

  /** The later state has n more lines and items. */
  predicate Grown(run: Run, later: Run, n: nat) {
    && |later.lines| == |run.lines| + n && later.lines[..|run.lines|] == run.lines
    && |later.sheet.items| == |run.sheet.items| + n
  }

  lemma GrownTwice(run: Run, later: Run, last: Run, m: nat, n: nat)
    requires Grown(run, later, m) && Grown(later, last, n)
    ensures Grown(run, last, m + n)
  {
    assert last.lines[..|run.lines|] == last.lines[..|later.lines|][..|run.lines|];
  }

  lemma {:induction false} LinesGrow(start: Run, es: seq<Employee>, terms: Terms, turn: Turn, m: nat, n: nat, run: Run, last: Run)
    requires m <= n && IsTurnOf(turn, terms) && At(start, es, turn, m, run) && At(start, es, turn, n, last)
    ensures Grown(run, last, n - m)
    decreases n
  {
    if m < n {
      var before := TurnBefore(start, es, turn, n, last);
      LinesGrow(start, es, terms, turn, m, n - 1, run, before);
      LineAdded(before, es[n - 1], terms, turn, last);
      GrownTwice(run, before, last, n - 1 - m, 1);
    }
  }

  // ---------- the whole run ----------

  lemma SameDue(rows: seq<nat>, e: string, entries: seq<TimeEntry>, later: seq<TimeEntry>, bound: int)
    requires SameFor(e, entries, later) && AreDue(rows, later, e, bound) && Valid(rows, later)
    ensures AreDue(rows, entries, e, bound) && Valid(rows, entries) && WorksAt(rows, entries) == WorksAt(rows, later)
  {
    forall j | 0 <= j < |rows| ensures rows[j] < |entries| && entries[rows[j]] == later[rows[j]] { assert rows[j] in rows; }
    forall j, k | 0 <= j < k < |rows| ensures Precedes(rows[j], rows[k], entries) {
      assert Precedes(rows[j], rows[k], later);
    }
    assert WorksAt(rows, entries) == WorksAt(rows, later);
  }

  lemma SameTimesheet(
      slips: seq<Slip>, rows: seq<nat>, e: string, entries: seq<TimeEntry>, later: seq<TimeEntry>, bound: int,
      policy: PayPolicy, rate: Int64)
    requires SameFor(e, entries, later) && IsTimesheet(slips, rows, later, e, bound, policy, rate)
    ensures IsTimesheet(slips, rows, entries, e, bound, policy, rate) && WorksAt(rows, entries) == WorksAt(rows, later)
  {
    SameDue(rows, e, entries, later, bound);
    forall j | 0 <= j < |rows| ensures SlipAt(slips, rows, j, entries, e, policy, rate) {
      assert SlipAt(slips, rows, j, later, e, policy, rate);
      assert entries[rows[j]].work == WorksAt(rows, entries)[j] == later[rows[j]].work;
    }
  }

  /** The rows of the timesheet are charged to this item after the run, and every week has
      the regular minutes that bring it to its threshold. */
  ghost predicate IsCharged(
      slips: seq<Slip>, rows: seq<nat>, entries: seq<TimeEntry>, after: seq<TimeEntry>, e: string, threshold: int, item: nat)
    requires Valid(rows, entries) && |slips| == |rows|
  {
    && |after| == |entries|
    && (forall j | 0 <= j < |rows| :: after[rows[j]].paidBy == Some(item))
    && forall w :: SlipRegularIn(slips, WorksAt(rows, entries), w) ==
                   Least(threshold, PaidMinutes(after, e, w)) - Least(threshold, PaidMinutes(entries, e, w))
  }

  /** The turn of employee k, between the start and the end of the run. */
  lemma TurnInRun(start: Run, es: seq<Employee>, terms: Terms, turn: Turn, k: nat, last: Run) returns (run: Run, r: Run)
    requires DistinctIds(es) && IsTurnOf(turn, terms) && At(start, es, turn, |es|, last) && k < |es|
    ensures turn(run, es[k]) == Some(r)
    ensures Untouched(es[k].id, start, run) && Untouched(es[k].id, r, last)
    ensures Grown(start, run, k) && Grown(run, r, 1) && Grown(r, last, |es| - k - 1)
  {
    r := QuietTurns(start, es, terms, turn, k + 1, |es|, es[k].id, last);
    run := TurnBefore(start, es, turn, k + 1, r);
    var first := QuietTurns(start, es, terms, turn, 0, k, es[k].id, run);
    LinesGrow(start, es, terms, turn, 0, k, start, run);
    LinesGrow(start, es, terms, turn, k, k + 1, run, r);
    LinesGrow(start, es, terms, turn, k + 1, |es|, r, last);
  }

  /** The new line of the turn, and what it charged. */
  ghost predicate IsEarned(
      l: Line, e: Employee, terms: Terms, rows: seq<nat>, slips: seq<Slip>, wanted: int, run: Run, after: Run, item: nat)
  {
    && l.employee == e.id && IsGross(l.gross, e, terms, slips, rows, run.sheet.entries)
    && IsNet(l, EwaRecovery.OwedBefore(run.org.advances, e.id, terms.period, |run.org.advances|), e.pref, wanted)
    && (e.hourly ==> IsCharged(slips, rows, run.sheet.entries, after.sheet.entries, e.id, terms.policy.threshold, item))
  }

  lemma TurnEarns(run: Run, e: Employee, terms: Terms, turn: Turn, r: Run)
    returns (rows: seq<nat>, slips: seq<Slip>, wanted: int)
    requires EmployeeOk(e) && IsTurnOf(turn, terms) && turn(run, e) == Some(r) && Grown(run, r, 1)
    ensures IsEarned(r.lines[|run.lines|], e, terms, rows, slips, wanted, run, r, |run.sheet.items|)
  {
    assert PayLine(run, e, terms) == Some(r);
    rows, slips, wanted := TurnLine(run, e, terms, r);
    if e.hourly { TurnCharges(run, e, terms, r, rows, slips); }
  }

  lemma EarnedBefore(
      l: Line, e: Employee, terms: Terms, rows: seq<nat>, slips: seq<Slip>, wanted: int,
      start: Run, run: Run, after: Run, item: nat)
    requires IsEarned(l, e, terms, rows, slips, wanted, run, after, item) && Untouched(e.id, start, run)
    ensures IsEarned(l, e, terms, rows, slips, wanted, start, after, item)
  {
    SameOwed(e.id, start.org.advances, run.org.advances, terms.period, |start.org.advances|);
    if e.hourly {
      SameTimesheet(slips, rows, e.id, start.sheet.entries, run.sheet.entries, terms.bound, terms.policy, e.rate);
    }
  }

  lemma EarnedAfter(
      l: Line, e: Employee, terms: Terms, rows: seq<nat>, slips: seq<Slip>, wanted: int, run: Run, r: Run, last: Run, item: nat)
    requires IsEarned(l, e, terms, rows, slips, wanted, run, r, item) && Untouched(e.id, r, last)
    requires forall i | 0 <= i < |run.sheet.entries| && i < |r.sheet.entries| ::
               r.sheet.entries[i].employee == run.sheet.entries[i].employee
    ensures IsEarned(l, e, terms, rows, slips, wanted, run, last, item)
  {
    if e.hourly {
      forall j | 0 <= j < |rows| ensures last.sheet.entries[rows[j]].paidBy == Some(item) {
        assert rows[j] in rows;
      }
    }
  }

  lemma EarnedWhole(
      l: Line, e: Employee, terms: Terms, rows: seq<nat>, slips: seq<Slip>, wanted: int,
      start: Run, run: Run, r: Run, last: Run, item: nat)
    requires IsEarned(l, e, terms, rows, slips, wanted, run, r, item)
    requires Untouched(e.id, start, run) && Untouched(e.id, r, last)
    requires forall i | 0 <= i < |run.sheet.entries| && i < |r.sheet.entries| ::
               r.sheet.entries[i].employee == run.sheet.entries[i].employee
    ensures IsEarned(l, e, terms, rows, slips, wanted, start, last, item)
  {
    EarnedAfter(l, e, terms, rows, slips, wanted, run, r, last, item);
    EarnedBefore(l, e, terms, rows, slips, wanted, start, run, last, item);
  }

  lemma TurnKeepsOwners(run: Run, e: Employee, terms: Terms, turn: Turn, r: Run)
    requires IsTurnOf(turn, terms) && turn(run, e) == Some(r)
    ensures forall i | 0 <= i < |run.sheet.entries| && i < |r.sheet.entries| ::
              r.sheet.entries[i].employee == run.sheet.entries[i].employee
  {
    assert PayLine(run, e, terms) == Some(r);
  }

  lemma LineStays(start: Run, run: Run, r: Run, last: Run, k: nat, n: nat)
    requires start.lines == [] && Grown(start, run, k) && Grown(run, r, 1) && Grown(r, last, n)
    ensures |run.lines| == k && |last.lines| == k + 1 + n && last.lines[k] == r.lines[k]
  {
    assert last.lines[k] == last.lines[..|r.lines|][k];
  }

  lemma EarnedTurn(start: Run, run: Run, r: Run, last: Run, e: Employee, terms: Terms, turn: Turn, item: nat)
    returns (rows: seq<nat>, slips: seq<Slip>, wanted: int)
    requires EmployeeOk(e) && IsTurnOf(turn, terms) && turn(run, e) == Some(r) && Grown(run, r, 1)
    requires Untouched(e.id, start, run) && Untouched(e.id, r, last) && item == |run.sheet.items|
    ensures IsEarned(r.lines[|run.lines|], e, terms, rows, slips, wanted, start, last, item)
  {
    rows, slips, wanted := TurnEarns(run, e, terms, turn, r);
    TurnKeepsOwners(run, e, terms, turn, r);
    EarnedWhole(r.lines[|run.lines|], e, terms, rows, slips, wanted, start, run, r, last, item);
  }

  lemma {:induction false} EarnedLine(start: Run, es: seq<Employee>, terms: Terms, turn: Turn, k: nat, last: Run)
    returns (rows: seq<nat>, slips: seq<Slip>, wanted: int)
    requires AllOk(es) && DistinctIds(es) && IsTurnOf(turn, terms) && start.lines == []
    requires At(start, es, turn, |es|, last) && k < |es|
    ensures |last.lines| == |es|
    ensures IsEarned(last.lines[k], es[k], terms, rows, slips, wanted, start, last, |start.sheet.items| + k)
  {
    var run, r := TurnInRun(start, es, terms, turn, k, last);
    LineStays(start, run, r, last, k, |es| - k - 1);
    rows, slips, wanted := EarnedTurn(start, run, r, last, es[k], terms, turn, |start.sheet.items| + k);
  }

  lemma {:induction false} CreatedAt(
      org: Ewa.Org, sheet: Timesheet, es: seq<Employee>, terms: Terms, provider: bool, c: Committed)
    returns (turn: Turn)
    requires Created(org, sheet, es, terms, provider) == Some(c)
    ensures IsTurnOf(turn, terms) && At(Run(org, sheet, []), es, turn, |es|, c.run) && c.payroll.lines == c.run.lines
  {
    turn := TurnOf(terms);
  }

  /** Every line of every committed run, from the tables before it. A salaried worker's gross
      is the salary. An hourly one's is what the approved and unpaid entries before the bound
      earn, each rated after the minutes of its week that any run has paid: over the run
      every week gets the regular minutes that were left under the threshold, all others are
      overtime, and exactly those entries are charged to the item. Out of gross comes what is
      owed on disbursed advances, out of the rest what was elected as savings. */
  lemma {:induction false} CommittedLine(org: Ewa.Org, sheet: Timesheet, es: seq<Employee>, terms: Terms, provider: bool, k: nat)
    returns (rows: seq<nat>, slips: seq<Slip>, wanted: int)
    requires AllOk(es) && DistinctIds(es) && Created(org, sheet, es, terms, provider).Some? && k < |es|
    ensures var c := Created(org, sheet, es, terms, provider).value;
            && |c.payroll.lines| == |es|
            && IsEarned(c.payroll.lines[k], es[k], terms, rows, slips, wanted, Run(org, sheet, []), c.run, |sheet.items| + k)
  {
    var c := Created(org, sheet, es, terms, provider).value;
    var turn := CreatedAt(org, sheet, es, terms, provider, c);
    rows, slips, wanted := EarnedLine(Run(org, sheet, []), es, terms, turn, k, c.run);
  }

  /** The regular minutes of a charged timesheet, summed over its weeks, from the minutes paid
      before and after the run; the rest of its minutes are overtime. */
  lemma LineMinutes(
      slips: seq<Slip>, rows: seq<nat>, entries: seq<TimeEntry>, after: seq<TimeEntry>, e: string, threshold: int, item: nat,
      gained: int -> int, lo: int, hi: int)
    requires Valid(rows, entries) && |slips| == |rows| && IsCharged(slips, rows, entries, after, e, threshold, item)
    requires forall w :: gained(w) == Least(threshold, PaidMinutes(after, e, w)) - Least(threshold, PaidMinutes(entries, e, w))
    requires lo <= hi && forall j | 0 <= j < |rows| :: lo <= Week(entries[rows[j]].work.day) < hi
    ensures var t := SlipTotals(slips, WorksAt(rows, entries));
            t.regular == OverWeeks(gained, lo, hi) && t.regular + t.overtime == Minutes(WorksAt(rows, entries))
  {
    RegularOverWeeks(slips, WorksAt(rows, entries), gained, lo, hi);
    SlipMinutes(slips, WorksAt(rows, entries));
  }

  // ---------- when a run is committed ----------

  /** No product on the way to the pay of any row leaves int64. */
  ghost predicate RowsFit(rows: seq<nat>, entries: seq<TimeEntry>, e: string, policy: PayPolicy, rate: Int64)
    requires Valid(rows, entries)
  {
    forall j | 0 <= j < |rows| :: RowFits(rows, j, entries, e, policy, rate)
  }

  ghost predicate RowFits(rows: seq<nat>, j: nat, entries: seq<TimeEntry>, e: string, policy: PayPolicy, rate: Int64)
    requires j < |rows| && Valid(rows, entries)
  {
    var work := entries[rows[j]].work;
    EntryFits(work, PaidMinutes(entries, e, Week(work.day)) + WeekTotal(WorksAt(rows, entries)[..j], Week(work.day)), policy, rate)
  }

  /** The savings election can be computed on what is left. */
  predicate CanSave(left: int, pref: Savings.Preference) {
    left > 0 && pref.enabled && pref.mode == Savings.FixedPercent && pref.fixedPercent > 0 ==> InRange(left * pref.fixedPercent)
  }

  /** The line says what the tables say, and nothing on the way to it overflows. */
  ghost predicate IsPayable(
      l: Line, e: Employee, terms: Terms, slips: seq<Slip>, rows: seq<nat>, wanted: int, entries: seq<TimeEntry>, owed: int)
  {
    && l.employee == e.id && InRange(l.gross) && IsGross(l.gross, e, terms, slips, rows, entries)
    && (e.hourly ==> RowsFit(rows, entries, e.id, terms.policy, e.rate))
    && IsNet(l, owed, e.pref, wanted) && CanSave(l.gross - l.withheld, e.pref)
  }

  lemma FitsOfRows(rows: seq<nat>, entries: seq<TimeEntry>, e: string, policy: PayPolicy, rate: Int64, paid: Paid)
    requires Valid(rows, entries) && paid == PaidTo(entries, e)
    ensures AllFit(WorksAt(rows, entries), paid, policy, rate) <==> RowsFit(rows, entries, e, policy, rate)
  {
    var works := WorksAt(rows, entries);
    assert forall w :: paid(w) == PaidMinutes(entries, e, w);
    forall j | 0 <= j < |rows| ensures FitsAt(works, j, paid, policy, rate) <==> RowFits(rows, j, entries, e, policy, rate) {}
  }

  lemma GrossFits(sheet: Timesheet, e: Employee, terms: Terms, rows: seq<nat>)
    requires EmployeeOk(e) && e.hourly && GrossPay(sheet, e, terms).Ok?
    requires AreRowsOf(rows, sheet.entries, e.id, terms.bound)
    ensures RowsFit(rows, sheet.entries, e.id, terms.policy, e.rate)
  {
    var entries, paid := sheet.entries, PaidTo(sheet.entries, e.id);
    DueIsPositive(sheet, e.id, terms.bound);
    GrossFitsIff(DueWork(entries, e.id, terms.bound), paid, terms.policy, e.rate, RuleOf(terms.policy, e.rate));
    FitsOfRows(rows, entries, e.id, terms.policy, e.rate, paid);
  }

  lemma TotalsFromRows(
      entries: seq<TimeEntry>, e: string, terms: Terms, rate: Int64, slips: seq<Slip>, rows: seq<nat>, works: seq<Work>, paid: Paid,
      pay: PayRule)
    requires paid == PaidTo(entries, e) && works == DueWork(entries, e, terms.bound) && Positive(works)
    requires HourlyPay.Follows(pay, terms.policy, rate)
    requires IsTimesheet(slips, rows, entries, e, terms.bound, terms.policy, rate)
    requires RowsFit(rows, entries, e, terms.policy, rate)
    ensures WorksAt(rows, entries) == works && GrossOf(works, paid, terms.policy.threshold, pay) == Ok(SlipTotals(slips, works))
  {
    DueRowsOnce(rows, entries, e, terms.bound);
    FitsOfRows(rows, entries, e, terms.policy, rate, paid);
    SlipsOfRows(slips, rows, entries, e, terms.bound, terms.policy, rate, paid);
    SlipsMakeGross(slips, works, paid, terms.policy, rate, pay);
  }

  lemma HourlyGross(sheet: Timesheet, e: Employee, terms: Terms, works: seq<Work>, paid: Paid, t: Amounts)
    requires e.hourly && works == DueWork(sheet.entries, e.id, terms.bound) && paid == PaidTo(sheet.entries, e.id)
    requires Positive(works)
    requires GrossOf(works, paid, terms.policy.threshold, RuleOf(terms.policy, e.rate)) == Ok(t) && InRange(t.base + t.premium)
    ensures GrossPay(sheet, e, terms) == Ok(t.base + t.premium)
  {
  }

  lemma GrossFromRows(sheet: Timesheet, e: Employee, terms: Terms, gross: int, slips: seq<Slip>, rows: seq<nat>)
    requires EmployeeOk(e) && InRange(gross) && IsGross(gross, e, terms, slips, rows, sheet.entries)
    requires e.hourly ==> RowsFit(rows, sheet.entries, e.id, terms.policy, e.rate)
    ensures GrossPay(sheet, e, terms) == Ok(gross)
  {
    if e.hourly {
      var works, paid := DueWork(sheet.entries, e.id, terms.bound), PaidTo(sheet.entries, e.id);
      var t := HourlyTotals(sheet, e, terms, slips, rows, works, paid, RuleOf(terms.policy, e.rate));
      HourlyGross(sheet, e, terms, works, paid, t);
    }
  }

  lemma HourlyTotals(
      sheet: Timesheet, e: Employee, terms: Terms, slips: seq<Slip>, rows: seq<nat>, works: seq<Work>, paid: Paid, pay: PayRule)
    returns (t: Amounts)
    requires works == DueWork(sheet.entries, e.id, terms.bound) && paid == PaidTo(sheet.entries, e.id)
    requires HourlyPay.Follows(pay, terms.policy, e.rate)
    requires IsTimesheet(slips, rows, sheet.entries, e.id, terms.bound, terms.policy, e.rate)
    requires RowsFit(rows, sheet.entries, e.id, terms.policy, e.rate)
    ensures Positive(works) && t == SlipTotals(slips, WorksAt(rows, sheet.entries))
    ensures GrossOf(works, paid, terms.policy.threshold, pay) == Ok(t)
  {
    DueIsPositive(sheet, e.id, terms.bound);
    TotalsFromRows(sheet.entries, e.id, terms, e.rate, slips, rows, works, paid, pay);
    t := SlipTotals(slips, works);
  }

  lemma SavesAsElected(left: Int64, pref: Savings.Preference, wanted: int)
    requires left >= 0 && CanSave(left, pref) && (left > 0 ==> Savings.Elected(wanted, left, pref))
    ensures Savings.Diverted(left, pref) == Ok(if left > 0 && pref.enabled && 0 < wanted < left then wanted else 0)
  {
    if left > 0 { Savings.DivertedIsElected(left, pref, wanted); }
  }

  lemma PaidFromParts(org: Ewa.Org, l: Line, e: Employee, terms: Terms, wanted: int, owed: nat)
    requires InRange(l.gross) && l.gross >= 0 && IsNet(l, owed, e.pref, wanted) && CanSave(l.gross - l.withheld, e.pref)
    requires owed == EwaRecovery.OwedBefore(org.advances, e.id, terms.period, |org.advances|)
    ensures var paid := Ewa.PayItem(org, e.id, terms.period, l.gross, e.pref);
            paid.Ok? && paid.value.slip == Ewa.Payslip(l.gross, l.withheld, l.diverted)
  {
    var s := Ewa.SettleUpTo(org, e.id, terms.period, org.nextItem, l.gross, |org.advances|);
    PaySlip(org, e.id, terms.period, l.gross, e.pref);
    PayItemParts(org, e.id, terms.period, l.gross, e.pref, s);
    SavesAsElected(l.gross - l.withheld, e.pref, wanted);
  }

  lemma LineOfSlip(l: Line, e: Employee, owed: nat, wanted: int)
    requires l.employee == e.id && IsNet(l, owed, e.pref, wanted) && l.gross >= 0
    ensures LineFor(e.id, Ewa.Payslip(l.gross, l.withheld, l.diverted)) == l
  {
  }

  /** A turn succeeds, with line l, whenever the tables before it make l payable. */
  lemma PayableTurn(
      run: Run, e: Employee, terms: Terms, turn: Turn, l: Line, slips: seq<Slip>, rows: seq<nat>, wanted: int, owed: nat)
    requires EmployeeOk(e) && IsTurnOf(turn, terms)
    requires owed == EwaRecovery.OwedBefore(run.org.advances, e.id, terms.period, |run.org.advances|)
    requires IsPayable(l, e, terms, slips, rows, wanted, run.sheet.entries, owed)
    ensures turn(run, e).Some? && turn(run, e).value.lines == run.lines + [l]
  {
    GrossFromRows(run.sheet, e, terms, l.gross, slips, rows);
    GrossIsNonNegative(run.sheet, e, terms);
    PaidFromParts(run.org, l, e, terms, wanted, owed);
    LineOfSlip(l, e, owed, wanted);
    assert turn(run, e) == PayLine(run, e, terms);
  }

  /** And a turn that succeeds makes out a payable line. */
  lemma TurnIsPayable(run: Run, e: Employee, terms: Terms, turn: Turn, r: Run, owed: nat)
    returns (slips: seq<Slip>, rows: seq<nat>, wanted: int)
    requires EmployeeOk(e) && IsTurnOf(turn, terms) && turn(run, e) == Some(r) && Grown(run, r, 1)
    requires owed == EwaRecovery.OwedBefore(run.org.advances, e.id, terms.period, |run.org.advances|)
    ensures IsPayable(r.lines[|run.lines|], e, terms, slips, rows, wanted, run.sheet.entries, owed)
  {
    assert PayLine(run, e, terms) == Some(r);
    rows, slips, wanted := TurnLine(run, e, terms, r);
    var gross := GrossPay(run.sheet, e, terms).value;
    if e.hourly { GrossFits(run.sheet, e, terms, rows); }
    GrossIsNonNegative(run.sheet, e, terms);
    CouldSave(run.org, e, terms, gross, owed);
  }

  lemma CouldSave(org: Ewa.Org, e: Employee, terms: Terms, gross: Int64, owed: nat)
    requires gross >= 0 && Ewa.PayItem(org, e.id, terms.period, gross, e.pref).Ok?
    requires owed == EwaRecovery.OwedBefore(org.advances, e.id, terms.period, |org.advances|)
    ensures CanSave(gross - Least(gross, owed), e.pref)
  {
    var slip := Ewa.PayItem(org, e.id, terms.period, gross, e.pref).value.slip;
    var left := gross - Least(gross, owed);
    SlipOfTurn(org, e.id, terms.period, gross, e.pref, slip, owed);
    if left > 0 {
      var wanted := Savings.ElectionExists(left, e.pref);
      Savings.DivertedIsElected(left, e.pref, wanted);
    }
  }

  // ---------- the run is committed exactly when every line is payable ----------

  lemma SameForSym(e: string, entries: seq<TimeEntry>, later: seq<TimeEntry>)
    requires SameFor(e, entries, later)
    ensures SameFor(e, later, entries)
  {
  }

  lemma SamePayable(
      l: Line, e: Employee, terms: Terms, slips: seq<Slip>, rows: seq<nat>, wanted: int,
      entries: seq<TimeEntry>, later: seq<TimeEntry>, owed: int)
    requires SameFor(e.id, entries, later) && IsPayable(l, e, terms, slips, rows, wanted, later, owed)
    ensures IsPayable(l, e, terms, slips, rows, wanted, entries, owed)
  {
    if e.hourly {
      SameTimesheet(slips, rows, e.id, entries, later, terms.bound, terms.policy, e.rate);
      SameFits(rows, e.id, entries, later, terms.bound, terms.policy, e.rate);
    }
  }

  lemma SameFits(
      rows: seq<nat>, e: string, entries: seq<TimeEntry>, later: seq<TimeEntry>, bound: int, policy: PayPolicy, rate: Int64)
    requires SameFor(e, entries, later) && AreDue(rows, later, e, bound) && Valid(rows, later)
    requires RowsFit(rows, later, e, policy, rate)
    ensures Valid(rows, entries) && RowsFit(rows, entries, e, policy, rate)
  {
    SameDue(rows, e, entries, later, bound);
    forall j | 0 <= j < |rows| ensures RowFits(rows, j, entries, e, policy, rate) {
      assert RowFits(rows, j, later, e, policy, rate);
      assert entries[rows[j]].work == WorksAt(rows, entries)[j] == later[rows[j]].work;
    }
  }

  /** The tables have a payable line for the employee. */
  ghost predicate HasLine(l: Line, e: Employee, terms: Terms, run: Run) {
    exists slips: seq<Slip>, rows: seq<nat>, wanted: int ::
      IsPayable(l, e, terms, slips, rows, wanted, run.sheet.entries,
                EwaRecovery.OwedBefore(run.org.advances, e.id, terms.period, |run.org.advances|))
  }

  lemma HasLineBefore(l: Line, e: Employee, terms: Terms, run: Run, later: Run)
    requires Untouched(e.id, run, later) && HasLine(l, e, terms, later)
    ensures HasLine(l, e, terms, run)
  {
    var owed := EwaRecovery.OwedBefore(later.org.advances, e.id, terms.period, |later.org.advances|);
    var slips: seq<Slip>, rows: seq<nat>, wanted: int :|
      IsPayable(l, e, terms, slips, rows, wanted, later.sheet.entries, owed);
    SameOwed(e.id, run.org.advances, later.org.advances, terms.period, |run.org.advances|);
    SamePayable(l, e, terms, slips, rows, wanted, run.sheet.entries, later.sheet.entries, owed);
  }

  lemma HasLineLater(l: Line, e: Employee, terms: Terms, run: Run, later: Run)
    requires Untouched(e.id, run, later) && HasLine(l, e, terms, run)
    ensures HasLine(l, e, terms, later)
  {
    SameForSym(e.id, run.sheet.entries, later.sheet.entries);
    HasLineBefore(l, e, terms, later, run);
  }

  lemma TurnOfLine(run: Run, e: Employee, terms: Terms, turn: Turn, l: Line)
    requires EmployeeOk(e) && IsTurnOf(turn, terms) && HasLine(l, e, terms, run)
    ensures turn(run, e).Some? && turn(run, e).value.lines == run.lines + [l]
  {
    var owed := EwaRecovery.OwedBefore(run.org.advances, e.id, terms.period, |run.org.advances|);
    var slips: seq<Slip>, rows: seq<nat>, wanted: int :|
      IsPayable(l, e, terms, slips, rows, wanted, run.sheet.entries, owed);
    PayableTurn(run, e, terms, turn, l, slips, rows, wanted, owed);
  }

  lemma LineOfTurn(run: Run, e: Employee, terms: Terms, turn: Turn, r: Run)
    requires EmployeeOk(e) && IsTurnOf(turn, terms) && turn(run, e) == Some(r) && Grown(run, r, 1)
    ensures HasLine(r.lines[|run.lines|], e, terms, run)
  {
    var owed := EwaRecovery.OwedBefore(run.org.advances, e.id, terms.period, |run.org.advances|);
    var slips, rows, wanted := TurnIsPayable(run, e, terms, turn, r, owed);
  }

  /** One payable line per employee, in order, all from the same tables. */
  ghost predicate HasLines(lines: seq<Line>, es: seq<Employee>, terms: Terms, start: Run) {
    |lines| == |es| && forall k | 0 <= k < |es| :: HasLine(lines[k], es[k], terms, start)
  }

  lemma {:induction false} LinesMakeRun(start: Run, es: seq<Employee>, terms: Terms, turn: Turn, lines: seq<Line>, n: nat)
    returns (run: Run)
    requires AllOk(es) && DistinctIds(es) && IsTurnOf(turn, terms) && start.lines == []
    requires HasLines(lines, es, terms, start) && n <= |es|
    ensures At(start, es, turn, n, run) && run.lines == lines[..n]
  {
    run := start;
    if n > 0 {
      var before := LinesMakeRun(start, es, terms, turn, lines, n - 1);
      var first := QuietTurns(start, es, terms, turn, 0, n - 1, es[n - 1].id, before);
      NextLine(start, before, es[n - 1], terms, turn, lines[n - 1]);
      run := turn(before, es[n - 1]).value;
      assert lines[..n] == lines[..n - 1] + [lines[n - 1]];
    }
  }

  lemma NextLine(start: Run, before: Run, e: Employee, terms: Terms, turn: Turn, l: Line)
    requires EmployeeOk(e) && IsTurnOf(turn, terms) && Untouched(e.id, start, before) && HasLine(l, e, terms, start)
    ensures turn(before, e).Some? && turn(before, e).value.lines == before.lines + [l]
  {
    HasLineLater(l, e, terms, start, before);
    TurnOfLine(before, e, terms, turn, l);
  }

  lemma RunHasLine(start: Run, es: seq<Employee>, terms: Terms, turn: Turn, last: Run, k: nat)
    requires AllOk(es) && DistinctIds(es) && IsTurnOf(turn, terms) && start.lines == []
    requires At(start, es, turn, |es|, last) && k < |es|
    ensures |last.lines| == |es| && HasLine(last.lines[k], es[k], terms, start)
  {
    var run, r := TurnInRun(start, es, terms, turn, k, last);
    LineStays(start, run, r, last, k, |es| - k - 1);
    LineOfTurn(run, es[k], terms, turn, r);
    HasLineBefore(last.lines[k], es[k], terms, start, run);
  }

  /** A run is committed if and only if there is a provider, somebody to pay, a payable line
      for every employee in the tables before the run, and a total that fits; these are then
      its lines. */
  lemma {:induction false} CommittedIff(
      org: Ewa.Org, sheet: Timesheet, es: seq<Employee>, terms: Terms, provider: bool, lines: seq<Line>)
    requires AllOk(es) && DistinctIds(es)
    ensures var start, c := Run(org, sheet, []), Created(org, sheet, es, terms, provider);
            (c.Some? && c.value.payroll.lines == lines) <==>
            provider && es != [] && HasLines(lines, es, terms, start) && InRange(Sums(lines).net)
  {
    var start, turn := Run(org, sheet, []), TurnOf(terms);
    if provider && es != [] && HasLines(lines, es, terms, start) {
      var run := LinesMakeRun(start, es, terms, turn, lines, |es|);
      assert run.lines == lines;
      CreatedFits(org, sheet, es, terms, run);
    }
    var c := Created(org, sheet, es, terms, provider);
    if c.Some? && c.value.payroll.lines == lines {
      turn := CreatedAt(org, sheet, es, terms, provider, c.value);
      forall k | 0 <= k < |es| ensures |lines| == |es| && HasLine(lines[k], es[k], terms, start) {
        RunHasLine(start, es, terms, turn, c.value.run, k);
      }
      CreatedFits(org, sheet, es, terms, c.value.run);
    }
  }

  lemma {:induction false} CreatedFits(org: Ewa.Org, sheet: Timesheet, es: seq<Employee>, terms: Terms, run: Run)
    requires AllOk(es) && es != [] && CreateUpTo(Run(org, sheet, []), es, TurnOf(terms), |es|) == Some(run)
    ensures Created(org, sheet, es, terms, true).Some? <==> InRange(Sums(run.lines).net)
    ensures Created(org, sheet, es, terms, true).Some? ==> Created(org, sheet, es, terms, true).value.payroll.lines == run.lines
  {
    CreateLines(Run(org, sheet, []), es, terms);
    SumsBalance(run.lines);
  }
}
