/** Building a payroll run (internal/services/payroll_service.go): gross pay, recovery of
    advances, savings, and the items and total that are sent for payment. */
module PayrollRun {
  import opened Wrappers
  import opened Money
  import Ledger
  import Ewa
  import EwaBooks
  import EwaRecovery
  import EwaStore
  import Savings
  import HourlyPay
  import TimeEntries
  import PayrollBatch
  import PayrollProtocol

  datatype Employee = Employee(id: string, hourly: bool, salary: Int64, rate: Int64, pref: Savings.Preference)

  /** The constraints on the employees table. */
  predicate EmployeeOk(e: Employee) { e.salary >= 0 && e.rate >= 0 }

  type Policy = p: HourlyPay.PayPolicy | HourlyPay.PolicyOk(p) witness HourlyPay.PayPolicy(2400, 15000, 10000, 10000, 10000)

  type Timesheet = s: TimeEntries.Sheet | TimeEntries.SheetOk(s) witness TimeEntries.Sheet([], [])

  /** What the run is made from, besides the tables. */
  datatype Terms = Terms(period: int, bound: int, policy: Policy)

  /** A payroll item with the breakdown behind its net amount. */
  datatype Line = Line(employee: string, gross: int, withheld: int, diverted: int, net: int, status: PayrollBatch.Status)

  /** The run under way: the tables so far and the items made out. */
  datatype Run = Run(org: Ewa.Org, sheet: Timesheet, lines: seq<Line>)

  function GrossPay(sheet: Timesheet, e: Employee, terms: Terms): (r: Result<Int64>)
  {
    if !e.hourly then Ok(e.salary)
    else
      DueIsPositive(sheet, e.id, terms.bound);
      HourlyPay.Gross(TimeEntries.DueWork(sheet.entries, e.id, terms.bound), TimeEntries.PaidTo(sheet.entries, e.id),
                      terms.policy, e.rate)
  }

  lemma DueIsPositive(sheet: Timesheet, e: string, bound: int)
    ensures HourlyPay.Positive(TimeEntries.DueWork(sheet.entries, e, bound))
  {
    assert forall i | 0 <= i < |sheet.entries| :: TimeEntries.EntryOk(sheet.entries[i], sheet.items);
    TimeEntries.DueWorkPositive(sheet.entries, e, bound);
  }

  function LineFor(e: string, slip: Ewa.Payslip): Line {
    var net := slip.gross - slip.withheld - slip.diverted;
    Line(e, slip.gross, slip.withheld, slip.diverted, net, if net > 0 then PayrollBatch.Pending else PayrollBatch.Completed)
  }

  function WorkerOf(e: Employee): TimeEntries.Worker { TimeEntries.Worker(e.id, e.hourly) }

  /** One turn of CreatePayroll's loop. None: the whole run is rolled back. */
  function PayLine(run: Run, e: Employee, terms: Terms): (r: Option<Run>) {
    match GrossPay(run.sheet, e, terms)
    case Err(_) => None
    case Ok(gross) => PayGross(run, e, gross, terms)
  }

  function PayGross(run: Run, e: Employee, gross: Int64, terms: Terms): (r: Option<Run>) {
    match Ewa.PayItem(run.org, e.id, terms.period, gross, e.pref)
    case Err(_) => None
    case Ok(paid) =>
      TimeEntries.PayWorkerOk(run.sheet, WorkerOf(e), terms.bound);
      Some(Run(paid.books, TimeEntries.PayWorker(run.sheet, WorkerOf(e), terms.bound), run.lines + [LineFor(e.id, paid.slip)]))
  }

  type Turn = (Run, Employee) -> Option<Run>

  function TurnOf(terms: Terms): Turn {
    (run: Run, e: Employee) => PayLine(run, e, terms)
  }

  function CreateUpTo(start: Run, es: seq<Employee>, turn: Turn, n: nat): (r: Option<Run>)
    requires n <= |es|
  {
    if n == 0 then Some(start)
    else match CreateUpTo(start, es, turn, n - 1)
      case None => None
      case Some(run) => turn(run, es[n - 1])
  }

  function Nets(lines: seq<Line>): seq<int> {
    if lines == [] then [] else Nets(lines[..|lines| - 1]) + [lines[|lines| - 1].net]
  }

  datatype Payroll = Payroll(lines: seq<Line>, total: int)

  datatype Committed = Committed(run: Run, payroll: Payroll)

  /** CreatePayroll: None when there is nobody to pay, no provider for the currency, or any
      step fails. */
  function Created(org: Ewa.Org, sheet: Timesheet, es: seq<Employee>, terms: Terms, provider: bool)
    : (r: Option<Committed>)
  {
    if !provider || es == [] then None
    else match CreateUpTo(Run(org, sheet, []), es, TurnOf(terms), |es|)
      case None => None
      case Some(run) =>
        if InRange(Total(Nets(run.lines))) then Some(Committed(run, Payroll(run.lines, Total(Nets(run.lines))))) else None
  }

  /** Every turn takes a state that satisfies inv at employee k to one that does at k + 1. */
  ghost predicate Keeps(turn: Turn, es: seq<Employee>, inv: (Run, nat) -> bool) {
    forall run: Run, k: nat {:trigger inv(run, k)} ::
      k < |es| && inv(run, k) && turn(run, es[k]).Some? ==> inv(turn(run, es[k]).value, k + 1)
  }

  lemma {:induction false} CreateKeeps(start: Run, es: seq<Employee>, turn: Turn, n: nat, inv: (Run, nat) -> bool)
    requires n <= |es| && Keeps(turn, es, inv) && inv(start, 0) && CreateUpTo(start, es, turn, n).Some?
    ensures inv(CreateUpTo(start, es, turn, n).value, n)
  {
    if n > 0 { CreateKeeps(start, es, turn, n - 1, inv); }
  }

  // ---------- one line ----------

  /** Gross is paid out, withheld or saved, to the last kobo; the net is never negative,
      savings never take all that is left, and exactly a zero net needs no transfer. */
  predicate LineOk(l: Line) {
    && l.gross == l.net + l.withheld + l.diverted
    && l.net >= 0 && l.withheld >= 0 && l.diverted >= 0
    && (l.diverted > 0 ==> l.net > 0)
    && l.status == (if l.net == 0 then PayrollBatch.Completed else PayrollBatch.Pending)
  }

  /** What is withheld is the smaller of the pay and what is collectible. */
  lemma PaySlip(org: Ewa.Org, e: string, period: int, gross: Int64, pref: Savings.Preference)
    requires gross >= 0
    ensures var owed := EwaRecovery.OwedBefore(org.advances, e, period, |org.advances|);
            var withheld := Ewa.SettleUpTo(org, e, period, org.nextItem, gross, |org.advances|).withheld;
            withheld == (if gross < owed then gross else owed) && 0 <= withheld <= gross
    ensures Ewa.PayItem(org, e, period, gross, pref).Ok? ==>
              var slip := Ewa.PayItem(org, e, period, gross, pref).value.slip;
              slip.gross == gross && LineOk(LineFor(e, slip))
  {
    var s := Ewa.SettleUpTo(org, e, period, org.nextItem, gross, |org.advances|);
    EwaRecovery.Waterfall(org, e, period, org.nextItem, gross, |org.advances|, s);
    var left := gross - s.withheld;
    if Savings.Diverted(left, pref).Ok? { Savings.DivertedLeavesPay(left, pref); }
  }

  /** PayItem from its two parts, the settlement s and the savings. */
  lemma PayItemParts(org: Ewa.Org, e: string, period: int, gross: Int64, pref: Savings.Preference, s: Ewa.Settlement)
    requires gross >= 0 && s == Ewa.SettleUpTo(org, e, period, org.nextItem, gross, |org.advances|)
    ensures 0 <= s.withheld <= gross
    ensures Ewa.PayItem(org, e, period, gross, pref) ==
            match Savings.Diverted(gross - s.withheld, pref)
            case Err(x) => Err(x)
            case Ok(d) => Ok(Ewa.PaidItem(Ewa.Close(s.books, e, d), Ewa.Payslip(gross, s.withheld, d)))
  {
    EwaRecovery.Waterfall(org, e, period, org.nextItem, gross, |org.advances|, s);
  }

  lemma GrossIsNonNegative(sheet: Timesheet, e: Employee, terms: Terms)
    requires EmployeeOk(e) && GrossPay(sheet, e, terms).Ok?
    ensures GrossPay(sheet, e, terms).value >= 0
  {
    if e.hourly {
      DueIsPositive(sheet, e.id, terms.bound);
      HourlyPay.GrossNonNegative(TimeEntries.DueWork(sheet.entries, e.id, terms.bound),
                                 TimeEntries.PaidTo(sheet.entries, e.id), terms.policy, e.rate);
    }
  }

  lemma PayLineOk(run: Run, e: Employee, terms: Terms)
    requires EmployeeOk(e) && PayLine(run, e, terms).Some?
    ensures var r := PayLine(run, e, terms).value;
            && |r.lines| == |run.lines| + 1 && r.lines[..|run.lines|] == run.lines
            && r.lines[|run.lines|].employee == e.id && LineOk(r.lines[|run.lines|])
  {
    GrossIsNonNegative(run.sheet, e, terms);
    PaySlip(run.org, e.id, terms.period, GrossPay(run.sheet, e, terms).value, e.pref);
  }

  // ---------- the whole run ----------

  /** One line per employee, in order, each of them in balance. */
  predicate LinesOk(lines: seq<Line>, es: seq<Employee>, n: nat) {
    |lines| == n <= |es| && forall k | 0 <= k < n :: lines[k].employee == es[k].id && LineOk(lines[k])
  }

  predicate AllOk(es: seq<Employee>) {
    forall k | 0 <= k < |es| :: EmployeeOk(es[k])
  }

  lemma LinesTurn(run: Run, es: seq<Employee>, terms: Terms, k: nat)
    requires k < |es| && EmployeeOk(es[k]) && LinesOk(run.lines, es, k) && PayLine(run, es[k], terms).Some?
    ensures LinesOk(PayLine(run, es[k], terms).value.lines, es, k + 1)
  {
    var r := PayLine(run, es[k], terms).value.lines;
    PayLineOk(run, es[k], terms);
    forall j | 0 <= j < k + 1 ensures r[j].employee == es[j].id && LineOk(r[j]) {
      assert j < k ==> r[..k][j] == run.lines[j];
    }
  }

  lemma {:induction false} CreateLines(start: Run, es: seq<Employee>, terms: Terms)
    requires AllOk(es) && start.lines == [] && CreateUpTo(start, es, TurnOf(terms), |es|).Some?
    ensures LinesOk(CreateUpTo(start, es, TurnOf(terms), |es|).value.lines, es, |es|)
  {
    var inv := (run: Run, k: nat) => LinesOk(run.lines, es, k);
    var turn := TurnOf(terms);
    forall run: Run, k: nat | k < |es| && inv(run, k) && turn(run, es[k]).Some? ensures inv(turn(run, es[k]).value, k + 1) {
      LinesTurn(run, es, terms, k);
    }
    CreateKeeps(start, es, turn, |es|, inv);
  }

  datatype Figures = Figures(gross: int, withheld: int, diverted: int, net: int)

  function Sums(lines: seq<Line>): (t: Figures) {
    if lines == [] then Figures(0, 0, 0, 0)
    else
      var s, l := Sums(lines[..|lines| - 1]), lines[|lines| - 1];
      Figures(s.gross + l.gross, s.withheld + l.withheld, s.diverted + l.diverted, s.net + l.net)
  }

  lemma {:induction false} SumsBalance(lines: seq<Line>)
    requires forall k | 0 <= k < |lines| :: LineOk(lines[k])
    ensures Sums(lines).gross == Sums(lines).withheld + Sums(lines).diverted + Sums(lines).net
    ensures Total(Nets(lines)) == Sums(lines).net >= 0
  {
    if lines != [] {
      var n := |lines| - 1;
      SumsBalance(lines[..n]);
      assert LineOk(lines[n]);
      assert (Nets(lines[..n]) + [lines[n].net])[..|Nets(lines[..n])|] == Nets(lines[..n]);
    }
  }

  /** Every committed run: one balanced line per employee, a total that is the sum of the
      nets, and over the whole run gross pay equal to what is sent, recovered and saved. */
  lemma {:induction false} RunAddsUp(org: Ewa.Org, sheet: Timesheet, es: seq<Employee>, terms: Terms, provider: bool)
    requires AllOk(es) && Created(org, sheet, es, terms, provider).Some?
    ensures var p := Created(org, sheet, es, terms, provider).value.payroll;
            && LinesOk(p.lines, es, |es|)
            && p.total == Sums(p.lines).net >= 0
            && Sums(p.lines).gross == p.total + Sums(p.lines).withheld + Sums(p.lines).diverted
  {
    CreateLines(Run(org, sheet, []), es, terms);
    SumsBalance(Created(org, sheet, es, terms, provider).value.payroll.lines);
  }

  // ---------- the tables after the run ----------

  lemma LineKeepsBooks(run: Run, e: Employee, terms: Terms, x: string)
    requires EwaBooks.Invariant(run.org, x) && PayLine(run, e, terms).Some?
    ensures EwaBooks.Invariant(PayLine(run, e, terms).value.org, x)
  {
    var gross := GrossPay(run.sheet, e, terms).value;
    var d := Ewa.PayItem(run.org, e.id, terms.period, gross, e.pref).value.slip.diverted;
    EwaBooks.PayWithKeeps(run.org, x, e.id, terms.period, gross, d);
  }

  /** The run keeps the books of every employee. */
  lemma {:induction false} RunKeepsBooks(start: Run, es: seq<Employee>, terms: Terms, x: string)
    requires EwaBooks.Invariant(start.org, x) && CreateUpTo(start, es, TurnOf(terms), |es|).Some?
    ensures EwaBooks.Invariant(CreateUpTo(start, es, TurnOf(terms), |es|).value.org, x)
  {
    ghost var inv := (run: Run, k: nat) => EwaBooks.Invariant(run.org, x);
    var turn := TurnOf(terms);
    forall run: Run, k: nat | k < |es| && inv(run, k) && turn(run, es[k]).Some? ensures inv(turn(run, es[k]).value, k + 1) {
      LineKeepsBooks(run, es[k], terms, x);
    }
    CreateKeeps(start, es, turn, |es|, inv);
  }

  function WorkersOf(es: seq<Employee>): (ws: seq<TimeEntries.Worker>)
    ensures |ws| == |es| && forall k | 0 <= k < |es| :: ws[k] == WorkerOf(es[k])
  {
    if es == [] then [] else WorkersOf(es[..|es| - 1]) + [WorkerOf(es[|es| - 1])]
  }

  lemma SweepTurn(run: Run, es: seq<Employee>, terms: Terms, k: nat, sheet: Timesheet)
    requires k < |es| && PayLine(run, es[k], terms).Some?
    requires run.sheet == TimeEntries.RunUpTo(sheet, WorkersOf(es), terms.bound, k)
    ensures PayLine(run, es[k], terms).value.sheet == TimeEntries.RunUpTo(sheet, WorkersOf(es), terms.bound, k + 1)
  {
    assert WorkersOf(es)[k] == WorkerOf(es[k]);
  }

  lemma {:induction false} RunIsSweep(start: Run, es: seq<Employee>, terms: Terms)
    requires CreateUpTo(start, es, TurnOf(terms), |es|).Some?
    ensures CreateUpTo(start, es, TurnOf(terms), |es|).value.sheet ==
            TimeEntries.RunUpTo(start.sheet, WorkersOf(es), terms.bound, |es|)
  {
    var inv := (run: Run, k: nat) => k <= |es| && run.sheet == TimeEntries.RunUpTo(start.sheet, WorkersOf(es), terms.bound, k);
    var turn := TurnOf(terms);
    forall run: Run, k: nat | k < |es| && inv(run, k) && turn(run, es[k]).Some? ensures inv(turn(run, es[k]).value, k + 1) {
      SweepTurn(run, es, terms, k, start.sheet);
    }
    CreateKeeps(start, es, turn, |es|, inv);
  }

  /** After a committed run no approved entry of an hourly employee in it, dated before the
      bound, is left unpaid. */
  lemma {:induction false} RunPaysAllDue(org: Ewa.Org, sheet: Timesheet, es: seq<Employee>, terms: Terms, provider: bool, k: nat, i: nat)
    requires Created(org, sheet, es, terms, provider).Some? && k < |es| && es[k].hourly && i < |sheet.entries|
    ensures var after := Created(org, sheet, es, terms, provider).value.run.sheet;
            |after.entries| == |sheet.entries| && !TimeEntries.Due(after.entries[i], es[k].id, terms.bound)
  {
    RunIsSweep(Run(org, sheet, []), es, terms);
    assert WorkersOf(es)[k] == WorkerOf(es[k]);
    TimeEntries.NothingLeftUnpaid(sheet, WorkersOf(es), terms.bound, |es|, k, i);
  }

  /** The ledger agrees with the payslip: the worker's wage_payable is debited by exactly
      what was withheld and what was saved. */
  lemma SlipIsPosted(org: Ewa.Org, e: string, period: int, gross: Int64, pref: Savings.Preference)
    requires EwaBooks.Invariant(org, e) && gross >= 0 && Ewa.PayItem(org, e, period, gross, pref).Ok?
    ensures var r := Ewa.PayItem(org, e, period, gross, pref).value;
            Ledger.LedgerNet(r.books.ledger, Ewa.Payable(org, e)) ==
            Ledger.LedgerNet(org.ledger, Ewa.Payable(org, e)) + r.slip.withheld + r.slip.diverted
  {
    var n := |org.advances|;
    var d := Ewa.PayItem(org, e, period, gross, pref).value.slip.diverted;
    PaySlip(org, e, period, gross, pref);
    assert d >= 0 by { assert LineOk(LineFor(e, Ewa.PayItem(org, e, period, gross, pref).value.slip)); }
    var p := Ewa.SettleUpTo(org, e, period, org.nextItem, gross, n).books;
    EwaRecovery.WaterfallPosts(org, e, period, gross, n, e, Ewa.SettleUpTo(org, e, period, org.nextItem, gross, n));
    ClosePosts(org, p, e, period, gross, d, n);
  }

  lemma ClosePosts(org: Ewa.Org, p: Ewa.Org, e: string, period: int, gross: Int64, d: Int64, n: nat)
    requires EwaBooks.Invariant(org, e) && d >= 0 && n == |org.advances|
    requires p == Ewa.SettleUpTo(org, e, period, org.nextItem, gross, n).books
    ensures Ledger.LedgerNet(Ewa.Close(p, e, d).ledger, Ewa.Payable(org, e)) == Ledger.LedgerNet(p.ledger, Ewa.Payable(org, e)) + d
  {
    EwaBooks.SettleKeeps(org, e, e, period, gross, n, Ewa.SettleUpTo(org, e, period, org.nextItem, gross, n));
    EwaBooks.SettleFrame(org, e, period, org.nextItem, gross, n);
    if d > 0 {
      EwaBooks.FreshKey(p, Ewa.SavingsKey(p.nextItem), n);
      EwaBooks.MoveNet(p, Ewa.SavingsKey(p.nextItem), Ewa.Payable(p, e), Ewa.SavingsOf(p, e), d, Ewa.Payable(p, e));
    }
  }

  // ---------- into the batch protocol ----------

  function ItemsOf(lines: seq<Line>): (items: seq<PayrollBatch.Item>)
    ensures |items| == |lines|
    ensures forall k | 0 <= k < |lines| :: items[k] == PayrollBatch.Item(lines[k].status, 1, lines[k].net)
  {
    if lines == [] then []
    else ItemsOf(lines[..|lines| - 1]) + [PayrollBatch.Item(lines[|lines| - 1].status, 1, lines[|lines| - 1].net)]
  }

  /** The batch that is queued for the worker. */
  function QueuedBatch(p: Payroll): PayrollBatch.Batch {
    PayrollBatch.Batch(PayrollBatch.Pending, 0, ItemsOf(p.lines))
  }

  /** Every committed run starts the batch protocol in one of its initial states, with a
      positive amount on every item that will be submitted. */
  lemma {:induction false} RunStartsProtocol(org: Ewa.Org, sheet: Timesheet, es: seq<Employee>, terms: Terms, provider: bool)
    requires AllOk(es) && Created(org, sheet, es, terms, provider).Some?
    ensures var b := QueuedBatch(Created(org, sheet, es, terms, provider).value.payroll);
            && PayrollProtocol.Initial(PayrollProtocol.System(b, [], false))
            && forall k | 0 <= k < |b.items| :: b.items[k].status == PayrollBatch.Pending <==> b.items[k].amount > 0
  {
    RunAddsUp(org, sheet, es, terms, provider);
    var p := Created(org, sheet, es, terms, provider).value.payroll;
    forall k | 0 <= k < |p.lines| ensures QueuedBatch(p).items[k] == PayrollBatch.Item(p.lines[k].status, 1, p.lines[k].net) && LineOk(p.lines[k]) {}
  }

  // ---------- the service ----------

  class PayrollService {
    const store: EwaStore.Store
    const sheet: TimeEntries.TimeSheet
    var payrolls: seq<Payroll>

    constructor (store: EwaStore.Store, sheet: TimeEntries.TimeSheet)
      ensures this.store == store && this.sheet == sheet && payrolls == []
    {
      this.store, this.sheet, payrolls := store, sheet, [];
    }

    ghost predicate Valid()
      reads sheet
    {
      TimeEntries.SheetOk(sheet.State())
    }

    /** Gross pay: the salary, or the hours that no run has paid yet. */
    method ComputeGross(e: Employee, terms: Terms) returns (r: Option<Int64>)
      requires Valid() && EmployeeOk(e)
      ensures GrossPay(sheet.State(), e, terms).Ok? <==> r.Some?
      ensures r.Some? ==> GrossPay(sheet.State(), e, terms).value == r.value
    {
      if !e.hourly { return Some(e.salary); }
      var _, works := sheet.UnpaidApprovedEntriesThrough(e.id, terms.bound);
      DueIsPositive(sheet.State(), e.id, terms.bound);
      var seeds := sheet.SeedWeeks(e.id, works);
      var breakdown := HourlyPay.ComputeHourlyGross(works, seeds, terms.policy, e.rate, TimeEntries.PaidTo(sheet.entries, e.id));
      if breakdown.Err? { return None; }
      return Some(breakdown.value.gross);
    }

    /** The item: recovery out of gross, savings out of what is left, the net and its status. */
    method PayOut(e: Employee, gross: Int64, terms: Terms) returns (r: Option<Line>)
      requires gross >= 0
      modifies store, store.books
      ensures r.Some? ==> LineOk(r.value) && InRange(r.value.net)
      ensures var paid := Ewa.PayItem(old(store.State()), e.id, terms.period, gross, e.pref);
              (paid.Ok? <==> r.Some?) && (paid.Ok? ==> store.State() == paid.value.books && r.value == LineFor(e.id, paid.value.slip))
    {
      ghost var org := store.State();
      var withheld := store.SettleAdvancesForPayrollItem(e.id, terms.period, store.nextItem, gross);
      PayItemParts(org, e.id, terms.period, gross, e.pref, Ewa.Settlement(store.State(), withheld));
      var left: Int64 := gross - withheld;
      var diverted := Savings.Diverted(left, e.pref);
      if diverted.Err? { return None; }
      store.CloseItem(e.id, diverted.value);
      Savings.DivertedLeavesPay(left, e.pref);
      var net := left - diverted.value;
      r := Some(Line(e.id, gross, withheld, diverted.value, net,
                     if net > 0 then PayrollBatch.Pending else PayrollBatch.Completed));
    }

    /** One turn of the loop; a failure leaves the caller to roll back. */
    method PayEmployee(e: Employee, terms: Terms, ghost before: Run) returns (r: Option<Line>)
      requires Valid() && EmployeeOk(e) && before.org == store.State() && before.sheet == sheet.State()
      modifies store, store.books, sheet
      ensures r.None? <==> PayLine(before, e, terms).None?
      ensures r.Some? ==> Valid() && r.value.net >= 0 && InRange(r.value.net)
      ensures r.Some? ==> PayLine(before, e, terms) == Some(Run(store.State(), sheet.State(), before.lines + [r.value]))
    {
      var gross := ComputeGross(e, terms);
      if gross.None? { return None; }
      assert gross.value >= 0 by { GrossIsNonNegative(before.sheet, e, terms); }
      assert PayLine(before, e, terms) == PayGross(before, e, gross.value, terms);
      TimeEntries.PayWorkerOk(before.sheet, WorkerOf(e), terms.bound);
      var _ := sheet.PayEmployee(WorkerOf(e), terms.bound);
      r := PayOut(e, gross.value, terms);
    }

    /** The tables are those of the run under way. */
    ghost predicate At(run: Run)
      reads store, store.books, sheet
    {
      run.org == store.State() && run.sheet == sheet.State()
    }

    method TakeTurn(e: Employee, terms: Terms, ghost before: Run, ghost turn: Turn)
      returns (r: Option<Line>, ghost after: Run)
      requires At(before) && EmployeeOk(e) && IsTurnOf(turn, terms)
      modifies store, store.books, sheet
      ensures r.None? <==> turn(before, e).None?
      ensures r.Some? ==> turn(before, e) == Some(after) && At(after) && after.lines == before.lines + [r.value]
      ensures r.Some? ==> r.value.net >= 0 && InRange(r.value.net)
    {
      r := PayEmployee(e, terms, before);
      after := before;
      if r.Some? { after := Run(store.State(), sheet.State(), before.lines + [r.value]); }
    }

    /** The loop over the employees, with the net amounts on the side. */
    method PayAll(es: seq<Employee>, terms: Terms, ghost start: Run, ghost turn: Turn)
      returns (r: Option<seq<Line>>, nets: seq<Int64>)
      requires At(start) && start.lines == [] && AllOk(es) && IsTurnOf(turn, terms)
      modifies store, store.books, sheet
      ensures r.Some? <==> CreateUpTo(start, es, turn, |es|).Some?
      ensures r.Some? ==> At(CreateUpTo(start, es, turn, |es|).value) && r.value == CreateUpTo(start, es, turn, |es|).value.lines
      ensures NonNegative(nets) && (r.Some? ==> nets == Nets(r.value))
    {
      ghost var run := start;
      var lines: seq<Line> := [];
      nets := [];
      for i := 0 to |es|
        invariant At(run) && run.lines == lines && nets == Nets(lines) && NonNegative(nets)
        invariant CreateUpTo(start, es, turn, i) == Some(run)
      {
        assert EmployeeOk(es[i]);
        var line, after := TakeTurn(es[i], terms, run, turn);
        if line.None? {
          FailedTurn(start, es, turn, i + 1, |es|);
          return None, [];
        }
        assert (lines + [line.value])[..|lines|] == lines;
        lines, nets := lines + [line.value], nets + [line.value.net];
        run := after;
      }
      return Some(lines), nets;
    }

    /** CreatePayroll commits the whole run or, on any failure, nothing of it. */
    method CreatePayroll(es: seq<Employee>, terms: Terms, provider: bool) returns (created: bool)
      requires Valid() && AllOk(es)
      modifies this`payrolls, store, store.books, sheet
      ensures Valid()
      ensures var r := Created(old(store.State()), old(sheet.State()), es, terms, provider);
              && (created <==> r.Some?)
              && (created ==> store.State() == r.value.run.org && sheet.State() == r.value.run.sheet
                              && payrolls == old(payrolls) + [r.value.payroll])
              && (!created ==> store.State() == old(store.State()) && sheet.State() == old(sheet.State()) && payrolls == old(payrolls))
    {
      if !provider || es == [] { return false; }
      var org, times := store.State(), sheet.State();
      var lines, nets := PayAll(es, terms, Run(org, times, []), TurnOf(terms));
      NonNegativePrefixes(nets);
      var total := Sum(nets);
      if lines.None? || total.Err? {
        store.Rollback(org);
        sheet.Rollback(times);
        return false;
      }
      payrolls := payrolls + [Payroll(lines.value, total.value)];
      return true;
    }
  }

  ghost predicate IsTurnOf(turn: Turn, terms: Terms) {
    forall run: Run, e: Employee {:trigger PayLine(run, e, terms)} :: turn(run, e) == PayLine(run, e, terms)
  }

  lemma {:induction false} FailedTurn(start: Run, es: seq<Employee>, turn: Turn, i: nat, n: nat)
    requires i <= n <= |es| && CreateUpTo(start, es, turn, i).None?
    ensures CreateUpTo(start, es, turn, n).None?
    decreases n
  {
    if i < n { FailedTurn(start, es, turn, i, n - 1); }
  }
}
