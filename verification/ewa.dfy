/** Earned-wage advances of one organisation over its ledger: the tables, and every
    operation that changes them (internal/models/ewa*.go, d2c_ledger.go, funding.go,
    hardship_grant.go and the services above them).

    Rows are identified by their index. Advances are in the order they were requested,
    which the org-wide lock makes the order of requested_at. */
module Ewa {
  import opened Wrappers
  import opened Money
  import opened Ledger
  import opened Eligibility
  import opened Savings

  datatype AdvanceStatus = Requested | Approved | Disbursed | Settled | Declined | Cancelled | WrittenOff

  predicate CanTransitionAdvance(from: AdvanceStatus, to: AdvanceStatus) {
    match from
    case Requested => to == Approved || to == Declined || to == Cancelled
    case Approved => to == Disbursed || to == Cancelled
    case Disbursed => to == Settled || to == WrittenOff
    case _ => false
  }

  datatype DebitStatus = DebitPending | DebitSuccessful | DebitFailed

  /** One direct-debit attempt against an advance. */
  datatype Collection = Collection(number: int, amount: Int64, status: DebitStatus)

  datatype Advance = Advance(
    employee: string, period: int, amount: Int64, recovered: Int64, status: AdvanceStatus, debits: seq<Collection>,
    clientKey: Option<string>)

  datatype GrantStatus = GrantPending | GrantSubmitted | GrantDisbursed | GrantFailed

  datatype Grant = Grant(amount: Int64, status: GrantStatus)

  /** Idempotency keys of the postings, one constructor per kind of posting. */
  datatype Key =
    | AdvanceKey(advance: nat)
    | CancelKey(advance: nat)
    | WriteOffKey(advance: nat)
    | SettleKey(advance: nat, item: nat)
    | CollectKey(advance: nat, debit: nat)
    | DepositKey(reference: string)
    | GrantKey(grant: nat)
    | GrantReversalKey(grant: nat)
    | SavingsKey(item: nat)

  datatype Org = Org(
    id: string, currency: Currency, period: int, nextItem: nat,
    advances: seq<Advance>, grants: seq<Grant>, ledger: seq<Posting<Key>>)

  // ---------- accounts and postings ----------

  function Receivable(o: Org, e: string): Account { Account(o.id, Some(e), AdvanceReceivable, o.currency) }

  function Payable(o: Org, e: string): Account { Account(o.id, Some(e), WagePayable, o.currency) }

  function SavingsOf(o: Org, e: string): Account { Account(o.id, Some(e), EmployeeSavings, o.currency) }

  function CashIn(o: Org, c: Currency): Account { Account(o.id, None, CashSettlement, c) }

  function Cash(o: Org): Account { CashIn(o, o.currency) }

  function Funding(o: Org): Account { Account(o.id, None, EmployerFunding, o.currency) }

  function WriteOffs(o: Org): Account { Account(o.id, None, WriteOffExpense, o.currency) }

  function GrantExpense(o: Org): Account { Account(o.id, None, HardshipGrantExpense, o.currency) }

  function Movement(o: Org, key: Key, dr: Account, cr: Account, amount: Int64): Posting<Key> {
    Posting(o.id, Some(key), [Entry(dr, Debit, amount, o.currency), Entry(cr, Credit, amount, o.currency)])
  }

  /** Posts one debit and one credit of the same amount under the key. */
  function Move(o: Org, key: Key, dr: Account, cr: Account, amount: Int64): Org {
    o.(ledger := Post(o.ledger, Movement(o, key, dr, cr, amount)))
  }

  function WithAdvance(o: Org, i: nat, a: Advance): Org
    requires i < |o.advances|
  {
    o.(advances := o.advances[i := a])
  }

  // ---------- requesting ----------

  /** What eligibilityTx learns outside the tables: accrual, dependency tier, the payday
      basis and floor, the policy, and the guardrails before and after the caps. */
  datatype Facts = Facts(
    accrued: Int64, tier: Tier, basis: Int64, floor: Int64, policy: Policy, earlyBlock: bool, lateBlock: bool)

  predicate IsOpen(a: Advance) {
    a.status == Approved || a.status == Disbursed
  }

  /** RemainingKobo. */
  function Remaining(a: Advance): (r: Int64)
    ensures r >= 0
  {
    FlooredSub(a.amount, a.recovered)
  }

  /** outstandingTx's debt: every open advance up to the period. */
  function Outstanding(advances: seq<Advance>, e: string, period: int): (n: nat) {
    if advances == [] then 0
    else
      var a := advances[|advances| - 1];
      Outstanding(advances[..|advances| - 1], e, period) +
      (if a.employee == e && a.period <= period && IsOpen(a) then Remaining(a) else 0)
  }

  function AvailableTo(o: Org, e: string, f: Facts): (r: Result<Int64>) {
    match PolicyCap(f.accrued, f.policy)
    case Err(x) => Err(x)
    case Ok(cap) =>
      var owed := Outstanding(o.advances, e, o.period);
      if !InRange(owed) then Err(Overflow)
      else Ok(Available(TierCap(f.tier, cap, f.policy), owed, f.basis, f.floor, f.policy,
                        AccountBalance(o.ledger, CashIn(o, NGN))))
  }

  datatype Decision = ApprovedDraw | DeclinedDraw | RequestError

  function Decide(o: Org, e: string, amount: Int64, f: Facts): (d: Decision) {
    if amount <= 0 then RequestError // the amount_kobo > 0 constraint refuses the row
    else if f.earlyBlock then DeclinedDraw
    else match AvailableTo(o, e, f)
      case Err(_) => RequestError
      case Ok(available) => if Approves(amount, available, f.policy, f.lateBlock) then ApprovedDraw else DeclinedDraw
  }

  /** The advance belongs to an earlier request of the employee under this client key. */
  predicate SameRequest(a: Advance, e: string, key: Option<string>) {
    key.Some? && a.employee == e && a.clientKey == key
  }

  predicate Replays(advances: seq<Advance>, e: string, key: Option<string>) {
    exists i :: 0 <= i < |advances| && SameRequest(advances[i], e, key)
  }

  function NewAdvance(o: Org, e: string, amount: Int64, status: AdvanceStatus, key: Option<string>): Advance {
    Advance(e, o.period, amount, 0, status, [], key)
  }

  /** A first request, with postAdvanceLedger. */
  function Draw(o: Org, e: string, amount: Int64, f: Facts, key: Option<string>): (r: Org) {
    match Decide(o, e, amount, f)
    case RequestError => o
    case DeclinedDraw => o.(advances := o.advances + [NewAdvance(o, e, amount, Declined, key)])
    case ApprovedDraw =>
      Move(o.(advances := o.advances + [NewAdvance(o, e, amount, Approved, key)]),
           AdvanceKey(|o.advances|), Receivable(o, e), Cash(o), amount)
  }

  /** RequestAdvance: a replay returns the original decision and writes nothing. */
  function RequestAdvance(o: Org, e: string, amount: Int64, f: Facts, key: Option<string>): (r: Org) {
    if Replays(o.advances, e, key) then o else Draw(o, e, amount, f, key)
  }

  // ---------- the life of one advance ----------

  function ConfirmDisbursed(o: Org, i: nat): (r: Org) {
    if i >= |o.advances| || o.advances[i].status != Approved then o
    else WithAdvance(o, i, o.advances[i].(status := Disbursed))
  }

  function CancelAdvance(o: Org, i: nat): (r: Org) {
    if i >= |o.advances| || o.advances[i].status != Approved then o
    else
      var a := o.advances[i];
      Move(WithAdvance(o, i, a.(status := Cancelled)), CancelKey(i), Cash(o), Receivable(o, a.employee), a.amount)
  }

  /** WriteOffAdvance credits the full amount, whatever was recovered before. */
  function WriteOffAdvance(o: Org, i: nat): (r: Org) {
    if i >= |o.advances| || o.advances[i].status != Disbursed then o
    else
      var a := o.advances[i];
      Move(WithAdvance(o, i, a.(status := WrittenOff)), WriteOffKey(i), WriteOffs(o), Receivable(o, a.employee), a.amount)
  }

  function Resolve(o: Org, i: nat, e: string): (r: Org)
    requires i < |o.advances|
    ensures |r.advances| == |o.advances|
  {
    if o.advances[i].employee != e then o
    else if o.advances[i].status == Approved then CancelAdvance(o, i)
    else WriteOffAdvance(o, i)
  }

  /** Terminate resolves every open advance of the employee among the first n. */
  function TerminateUpTo(o: Org, e: string, n: nat): (r: Org)
    requires n <= |o.advances|
    ensures |r.advances| == |o.advances|
  {
    if n == 0 then o else Resolve(TerminateUpTo(o, e, n - 1), n - 1, e)
  }

  // ---------- recovery from payroll ----------

  predicate Selected(a: Advance, e: string, period: int) {
    a.employee == e && a.period <= period && IsOpen(a)
  }

  /** Advance a once `portion` more of it has been recovered. */
  function Recovered(a: Advance, portion: Int64): Advance
    requires 0 < portion <= Remaining(a)
  {
    a.(recovered := a.recovered + portion,
       status := if a.recovered + portion >= a.amount && a.status == Disbursed then Settled else a.status)
  }

  /** Withholds `portion` of the item's pay against advance i. */
  function Recover(o: Org, i: nat, item: nat, portion: Int64): Org
    requires i < |o.advances| && 0 < portion <= Remaining(o.advances[i])
  {
    var e := o.advances[i].employee;
    Move(WithAdvance(o, i, Recovered(o.advances[i], portion)), SettleKey(i, item), Payable(o, e), Receivable(o, e), portion)
  }

  /** What the loop takes for advance a when `left` of the pay is not yet withheld. */
  function Portion(a: Advance, left: int): int {
    if left < Remaining(a) then left else Remaining(a)
  }

  /** The settlement loop under way: the books, and what was withheld so far. */
  datatype Settlement = Settlement(books: Org, withheld: int)

  /** One turn of the loop, for an open advance: one that was never disbursed is cancelled
      and costs nothing, any other gives up as much as is owed and left. */
  function SettleOne(s: Settlement, i: nat, item: nat, available: int): (r: Settlement)
    requires i < |s.books.advances|
    ensures |r.books.advances| == |s.books.advances|
  {
    var a := s.books.advances[i];
    var portion := Portion(a, available - s.withheld);
    if a.status == Approved then s.(books := CancelAdvance(s.books, i))
    else if portion <= 0 then s
    else Settlement(Recover(s.books, i, item, portion), s.withheld + portion)
  }

  function SettleTurn(s: Settlement, i: nat, e: string, period: int, item: nat, available: int): (r: Settlement)
    requires i < |s.books.advances|
    ensures |r.books.advances| == |s.books.advances|
  {
    if Selected(s.books.advances[i], e, period) then SettleOne(s, i, item, available) else s
  }

  /** SettleAdvancesForPayrollItem over the first n advances, oldest first. */
  function SettleUpTo(o: Org, e: string, period: int, item: nat, available: int, n: nat): (r: Settlement)
    requires n <= |o.advances|
    ensures |r.books.advances| == |o.advances|
  {
    if n == 0 then Settlement(o, 0)
    else SettleTurn(SettleUpTo(o, e, period, item, available, n - 1), n - 1, e, period, item, available)
  }

  /** The figures of one payroll item. */
  datatype Payslip = Payslip(gross: int, withheld: int, diverted: int)

  /** Diverts d to savings and closes the item. */
  function Close(o: Org, e: string, d: Int64): (r: Org) {
    var p := if d > 0 then Move(o, SavingsKey(o.nextItem), Payable(o, e), SavingsOf(o, e), d) else o;
    p.(nextItem := o.nextItem + 1)
  }

  /** Recovers advances out of gross, then diverts d of what is left. */
  function PayWith(o: Org, e: string, period: int, gross: Int64, d: Int64): (r: Org) {
    Close(SettleUpTo(o, e, period, o.nextItem, gross, |o.advances|).books, e, d)
  }

  datatype PaidItem = PaidItem(books: Org, slip: Payslip)

  /** What CreatePayroll does to the books for one employee: recover advances out of
      gross, then divert savings out of what is left. Err: the run is rolled back. */
  function PayItem(o: Org, e: string, period: int, gross: Int64, pref: Preference): (r: Result<PaidItem>) {
    var withheld := SettleUpTo(o, e, period, o.nextItem, gross, |o.advances|).withheld;
    if !InRange(gross - withheld) || (withheld > 0 && gross - withheld < 0) then Err(Overflow)
    else
      match Diverted(gross - withheld, pref)
      case Err(x) => Err(x)
      case Ok(d) => Ok(PaidItem(PayWith(o, e, period, gross, d), Payslip(gross, withheld, d)))
  }

  // ---------- recovery by direct debit ----------

  const MAX_DEBIT_ATTEMPTS := 4

  function LastNumber(debits: seq<Collection>): (n: int)
    ensures n >= 0
  {
    if debits == [] then 0
    else
      var m := LastNumber(debits[..|debits| - 1]);
      if debits[|debits| - 1].number > m then debits[|debits| - 1].number else m
  }

  function CountDebits(debits: seq<Collection>, s: DebitStatus): (n: nat) {
    if debits == [] then 0
    else CountDebits(debits[..|debits| - 1], s) + (if debits[|debits| - 1].status == s then 1 else 0)
  }

  /** InitiateD2CCollection's transaction; the unique index allows one pending attempt.
      `authorized`: a linked account with a mandate, and active consent to debit it. */
  function InitiateDebit(o: Org, i: nat, authorized: bool): (r: Org) {
    if i >= |o.advances| || !authorized then o
    else
      var a := o.advances[i];
      if a.status != Disbursed || Remaining(a) <= 0 || CountDebits(a.debits, DebitPending) > 0 then o
      else
        WithAdvance(o, i, a.(debits := a.debits + [Collection(LastNumber(a.debits) + 1, Remaining(a), DebitPending)]))
  }

  predicate IsPendingDebit(o: Org, i: nat, j: nat) {
    i < |o.advances| && j < |o.advances[i].debits| && o.advances[i].debits[j].status == DebitPending
  }

  function WithDebit(a: Advance, j: nat, s: DebitStatus): Advance
    requires j < |a.debits|
  {
    a.(debits := a.debits[j := a.debits[j].(status := s)])
  }

  /** Advance a once its debit j has landed. */
  function CollectedBy(a: Advance, j: nat): Advance
    requires j < |a.debits| && 0 <= a.recovered + a.debits[j].amount <= a.amount
  {
    var recovered := a.recovered + a.debits[j].amount;
    WithDebit(a, j, DebitSuccessful).(
      recovered := recovered, status := if recovered >= a.amount && a.status == Disbursed then Settled else a.status)
  }

  /** ConfirmD2CCollectionSuccess. The constraint recovered_kobo <= amount_kobo rolls the
      transaction back when the debit collected more than is still owed. */
  function DebitSucceeds(o: Org, i: nat, j: nat): (r: Org) {
    if !IsPendingDebit(o, i, j) then o
    else
      var a := o.advances[i];
      if !(0 <= a.recovered + a.debits[j].amount <= a.amount) || a.debits[j].amount <= 0 then o
      else
        Move(WithAdvance(o, i, CollectedBy(a, j)), CollectKey(i, j), Cash(o), Receivable(o, a.employee), a.debits[j].amount)
  }

  /** ConfirmD2CCollectionFailure: the fourth failure writes the advance off. */
  function DebitFails(o: Org, i: nat, j: nat): (r: Org) {
    if !IsPendingDebit(o, i, j) then o
    else
      var a := WithDebit(o.advances[i], j, DebitFailed);
      var p := WithAdvance(o, i, a);
      if CountDebits(a.debits, DebitFailed) < MAX_DEBIT_ATTEMPTS || a.status != Disbursed then p
      else WriteOffAdvance(p, i)
  }

  // ---------- funding and grants ----------

  /** RecordEmployerFunding. */
  function RecordFunding(o: Org, reference: string, amount: Int64): (r: Org) {
    Move(o, DepositKey(reference), Cash(o), Funding(o), amount)
  }

  /** IssueHardshipGrant. `eligible`: a reason is given, and the employee is the org's own
      and active; `coverage` is the org's policy. */
  function IssueGrant(o: Org, amount: Int64, coverage: bool, eligible: bool): (r: Org) {
    if amount <= 0 || !eligible then o
    else
      var exposure := AccountBalance(o.ledger, Cash(o));
      if coverage && amount > (if exposure < 0 then -exposure else 0) then o
      else Move(o.(grants := o.grants + [Grant(amount, GrantPending)]), GrantKey(|o.grants|), GrantExpense(o), Cash(o), amount)
  }

  predicate GrantUnresolved(o: Org, g: nat) {
    g < |o.grants| && (o.grants[g].status == GrantPending || o.grants[g].status == GrantSubmitted)
  }

  function SubmitGrant(o: Org, g: nat): (r: Org) {
    if g < |o.grants| && o.grants[g].status == GrantPending
    then o.(grants := o.grants[g := o.grants[g].(status := GrantSubmitted)]) else o
  }

  function ConfirmGrant(o: Org, g: nat): (r: Org) {
    if GrantUnresolved(o, g) then o.(grants := o.grants[g := o.grants[g].(status := GrantDisbursed)]) else o
  }

  function FailGrant(o: Org, g: nat): (r: Org) {
    if !GrantUnresolved(o, g) then o
    else
      Move(o.(grants := o.grants[g := o.grants[g].(status := GrantFailed)]),
           GrantReversalKey(g), Cash(o), GrantExpense(o), o.grants[g].amount)
  }

  // ---------- runs ----------

  datatype Step =
    | Request(e: string, amount: Int64, facts: Facts, key: Option<string>)
    | Disburse(i: nat)
    | Cancel(i: nat)
    | Pay(e: string, period: int, gross: Int64, pref: Preference)
    | Terminate(e: string)
    | Initiate(i: nat, authorized: bool)
    | Collect(i: nat, j: nat)
    | CollectionFails(i: nat, j: nat)
    | Deposit(reference: string, amount: Int64)
    | Issue(amount: Int64, coverage: bool, eligible: bool)
    | Submit(g: nat)
    | Confirm(g: nat)
    | Reverse(g: nat)
    | NextPeriod

  function Perform(o: Org, step: Step): (r: Org) {
    match step
    case Request(e, amount, f, key) => RequestAdvance(o, e, amount, f, key)
    case Disburse(i) => ConfirmDisbursed(o, i)
    case Cancel(i) => CancelAdvance(o, i)
    case Pay(e, period, gross, pref) =>
      (match PayItem(o, e, period, gross, pref) case Err(_) => o case Ok(paid) => paid.books)
    case Terminate(e) => TerminateUpTo(o, e, |o.advances|)
    case Initiate(i, authorized) => InitiateDebit(o, i, authorized)
    case Collect(i, j) => DebitSucceeds(o, i, j)
    case CollectionFails(i, j) => DebitFails(o, i, j)
    case Deposit(reference, amount) => RecordFunding(o, reference, amount)
    case Issue(amount, coverage, eligible) => IssueGrant(o, amount, coverage, eligible)
    case Submit(g) => SubmitGrant(o, g)
    case Confirm(g) => ConfirmGrant(o, g)
    case Reverse(g) => FailGrant(o, g)
    case NextPeriod => o.(period := o.period + 1)
  }

  function After(o: Org, steps: seq<Step>): (r: Org) {
    if steps == [] then o else Perform(After(o, steps[..|steps| - 1]), steps[|steps| - 1])
  }

  /** A new organisation, with nothing in its tables. */
  predicate Initial(o: Org) {
    o.advances == [] && o.grants == [] && o.ledger == [] && !o.currency.Unsupported?
  }
}
