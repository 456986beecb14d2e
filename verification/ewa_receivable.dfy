/** A worker's receivable against the worker's debt: what it is after every run, which
    calls make the two differ, and by how much. */
module EwaReceivable {
  import opened Wrappers
  import opened Money
  import opened Ledger
  import opened Eligibility
  import opened Savings
  import opened Ewa
  import opened EwaBooks

  // ---------- the balance after every run ----------

  /** Still owed on the worker's approved and disbursed advances. */
  function StillOwed(advances: seq<Advance>, e: string): int {
    if advances == [] then 0
    else
      var a := advances[|advances| - 1];
      StillOwed(advances[..|advances| - 1], e) + (if a.employee == e && IsOpen(a) then a.amount - a.recovered else 0)
  }

  /** What was recovered, before or after, on an advance of the worker that is written off. */
  function Excess(a: Advance, e: string): int {
    if a.employee == e && a.status == WrittenOff then a.recovered else 0
  }

  function ExcessOf(advances: seq<Advance>, e: string): int {
    if advances == [] then 0 else ExcessOf(advances[..|advances| - 1], e) + Excess(advances[|advances| - 1], e)
  }

  lemma {:induction false} OwesSplits(advances: seq<Advance>, e: string)
    ensures SumOf(advances, Owes(e)) == StillOwed(advances, e) - ExcessOf(advances, e)
  {
    if advances != [] { OwesSplits(advances[..|advances| - 1], e); }
  }

  lemma {:induction false} OutstandingIsStillOwed(advances: seq<Advance>, e: string, period: int)
    requires forall i | 0 <= i < |advances| :: AdvanceOk(advances[i]) && advances[i].period <= period
    ensures Outstanding(advances, e, period) == StillOwed(advances, e)
  {
    if advances != [] {
      var n := |advances| - 1;
      OutstandingIsStillOwed(advances[..n], e, period);
      assert AdvanceOk(advances[n]);
    }
  }

  function Balance(o: Org, e: string): int { AccountBalance(o.ledger, Receivable(o, e)) }

  /** The debt that eligibility reads from the tables. */
  function Debt(o: Org, e: string): int { Outstanding(o.advances, e, o.period) }

  lemma BalanceAndDebt(o: Org, e: string)
    requires Invariant(o, e)
    ensures Debt(o, e) == StillOwed(o.advances, e) && Balance(o, e) == Debt(o, e) - ExcessOf(o.advances, e)
  {
    assert forall i | 0 <= i < |o.advances| :: AdvanceOk(o.advances[i]) && o.advances[i].period <= o.period;
    OutstandingIsStillOwed(o.advances, e, o.period);
    OwesSplits(o.advances, e);
  }

  /** After every run, a worker's advance_receivable balance is what the tables say is
      still owed, less what was recovered on the worker's written-off advances. */
  lemma ReceivableOverRuns(o: Org, steps: seq<Step>, e: string)
    requires Initial(o)
    ensures var p := After(o, steps); Balance(p, e) == StillOwed(p.advances, e) - ExcessOf(p.advances, e)
  {
    RunKeeps(o, e, steps);
    BalanceAndDebt(After(o, steps), e);
  }

  // ---------- which calls make balance and debt differ ----------

  /** Recovered so far on the worker's disbursed advances among the first n. */
  function RecoveredInPart(advances: seq<Advance>, e: string, n: nat): int
    requires n <= |advances|
  {
    if n == 0 then 0
    else
      var a := advances[n - 1];
      RecoveredInPart(advances, e, n - 1) + (if a.employee == e && a.status == Disbursed then a.recovered else 0)
  }

  predicate Lands(o: Org, i: nat, j: nat) {
    && IsPendingDebit(o, i, j) && o.advances[i].debits[j].amount > 0
    && 0 <= o.advances[i].recovered + o.advances[i].debits[j].amount <= o.advances[i].amount
  }

  /** The failure of debit j is the one that writes the advance off. */
  predicate Exhausts(o: Org, i: nat, j: nat) {
    && IsPendingDebit(o, i, j) && o.advances[i].status == Disbursed
    && CountDebits(WithDebit(o.advances[i], j, DebitFailed).debits, DebitFailed) >= MAX_DEBIT_ATTEMPTS
  }

  /** By how much the call takes e's receivable below e's debt, read off the tables before
      the call: a write-off forgets what was recovered, and a debit that lands on a
      written-off advance lowers a balance that was already cleared. */
  function Harm(o: Org, step: Step, e: string): int {
    match step
    case Terminate(x) => if x == e then RecoveredInPart(o.advances, e, |o.advances|) else 0
    case CollectionFails(i, j) =>
      if Exhausts(o, i, j) && o.advances[i].employee == e then o.advances[i].recovered else 0
    case Collect(i, j) =>
      if Lands(o, i, j) && o.advances[i].employee == e && o.advances[i].status == WrittenOff
      then o.advances[i].debits[j].amount else 0
    case _ => 0
  }

  lemma {:induction false} ExcessUpdate(advances: seq<Advance>, i: nat, a: Advance, e: string)
    requires i < |advances|
    ensures ExcessOf(advances[i := a], e) == ExcessOf(advances, e) - Excess(advances[i], e) + Excess(a, e)
  {
    var n := |advances| - 1;
    if i == n {
      assert advances[i := a][..n] == advances[..n];
    } else {
      ExcessUpdate(advances[..n], i, a, e);
      assert advances[i := a][..n] == advances[..n][i := a];
    }
  }

  lemma ExcessAppend(advances: seq<Advance>, a: Advance, e: string)
    ensures ExcessOf(advances + [a], e) == ExcessOf(advances, e) + Excess(a, e)
  {
    assert (advances + [a])[..|advances|] == advances;
  }

  lemma CancelExcess(o: Org, i: nat, e: string)
    ensures ExcessOf(CancelAdvance(o, i).advances, e) == ExcessOf(o.advances, e)
  {
    if i < |o.advances| { ExcessUpdate(o.advances, i, o.advances[i].(status := Cancelled), e); }
  }

  lemma WriteOffExcess(o: Org, i: nat, e: string)
    ensures ExcessOf(WriteOffAdvance(o, i).advances, e) == ExcessOf(o.advances, e) +
            (if i < |o.advances| && o.advances[i].status == Disbursed && o.advances[i].employee == e
             then o.advances[i].recovered else 0)
  {
    if i < |o.advances| { ExcessUpdate(o.advances, i, o.advances[i].(status := WrittenOff), e); }
  }

  lemma ResolveExcess(o: Org, i: nat, x: string, e: string)
    requires i < |o.advances|
    ensures ExcessOf(Resolve(o, i, x).advances, e) == ExcessOf(o.advances, e) +
            (if x == e && o.advances[i].status == Disbursed && o.advances[i].employee == e then o.advances[i].recovered else 0)
  {
    CancelExcess(o, i, e);
    WriteOffExcess(o, i, e);
  }

  lemma {:induction false} TerminateReaches(o: Org, x: string, n: nat, k: nat, q: Org)
    requires n <= k < |o.advances| && q == TerminateUpTo(o, x, n)
    ensures q.advances[k] == o.advances[k]
    decreases n
  {
    if n > 0 {
      var p := TerminateUpTo(o, x, n - 1);
      TerminateReaches(o, x, n - 1, k, p);
      assert q == Resolve(p, n - 1, x);
    }
  }

  lemma {:induction false} TerminateExcess(o: Org, x: string, n: nat, e: string, q: Org)
    requires n <= |o.advances| && q == TerminateUpTo(o, x, n)
    ensures ExcessOf(q.advances, e) == ExcessOf(o.advances, e) + (if x == e then RecoveredInPart(o.advances, e, n) else 0)
  {
    if n > 0 {
      var p := TerminateUpTo(o, x, n - 1);
      TerminateExcess(o, x, n - 1, e, p);
      TerminateReaches(o, x, n - 1, n - 1, p);
      assert q == Resolve(p, n - 1, x);
      ResolveExcess(p, n - 1, x, e);
    }
  }

  lemma TurnExcess(s: Settlement, i: nat, x: string, period: int, item: nat, available: int, e: string, t: Settlement)
    requires i < |s.books.advances| && t == SettleTurn(s, i, x, period, item, available)
    ensures ExcessOf(t.books.advances, e) == ExcessOf(s.books.advances, e)
  {
    var a := s.books.advances[i];
    var portion := Portion(a, available - s.withheld);
    CancelExcess(s.books, i, e);
    if portion > 0 { ExcessUpdate(s.books.advances, i, Recovered(a, portion), e); }
  }

  lemma {:induction false} SettleExcess(o: Org, x: string, period: int, item: nat, available: int, n: nat, e: string, s: Settlement)
    requires n <= |o.advances| && s == SettleUpTo(o, x, period, item, available, n)
    ensures ExcessOf(s.books.advances, e) == ExcessOf(o.advances, e)
  {
    if n > 0 {
      var p := SettleUpTo(o, x, period, item, available, n - 1);
      SettleExcess(o, x, period, item, available, n - 1, e, p);
      TurnExcess(p, n - 1, x, period, item, available, e, s);
    }
  }

  lemma PayExcess(o: Org, x: string, period: int, gross: Int64, pref: Preference, e: string)
    ensures ExcessOf(Perform(o, Pay(x, period, gross, pref)).advances, e) == ExcessOf(o.advances, e)
  {
    var s := SettleUpTo(o, x, period, o.nextItem, gross, |o.advances|);
    SettleExcess(o, x, period, o.nextItem, gross, |o.advances|, e, s);
    var paid := PayItem(o, x, period, gross, pref);
    if paid.Ok? { assert paid.value.books.advances == s.books.advances; }
  }

  lemma CollectExcess(o: Org, i: nat, j: nat, e: string)
    requires RowsOk(o)
    ensures ExcessOf(DebitSucceeds(o, i, j).advances, e) == ExcessOf(o.advances, e) + Harm(o, Collect(i, j), e)
  {
    if Lands(o, i, j) {
      assert AdvanceOk(o.advances[i]);
      ExcessUpdate(o.advances, i, CollectedBy(o.advances[i], j), e);
    }
  }

  lemma FailExcess(o: Org, i: nat, j: nat, e: string)
    ensures ExcessOf(DebitFails(o, i, j).advances, e) == ExcessOf(o.advances, e) + Harm(o, CollectionFails(i, j), e)
  {
    if IsPendingDebit(o, i, j) {
      var a := WithDebit(o.advances[i], j, DebitFailed);
      ExcessUpdate(o.advances, i, a, e);
      WriteOffExcess(WithAdvance(o, i, a), i, e);
    }
  }

  lemma RequestExcess(o: Org, x: string, amount: Int64, f: Facts, key: Option<string>, e: string)
    ensures ExcessOf(RequestAdvance(o, x, amount, f, key).advances, e) == ExcessOf(o.advances, e)
  {
    ExcessAppend(o.advances, NewAdvance(o, x, amount, Declined, key), e);
    ExcessAppend(o.advances, NewAdvance(o, x, amount, Approved, key), e);
  }

  lemma QuietExcess(o: Org, i: nat, e: string)
    ensures ExcessOf(ConfirmDisbursed(o, i).advances, e) == ExcessOf(o.advances, e)
    ensures ExcessOf(InitiateDebit(o, i, true).advances, e) == ExcessOf(o.advances, e)
  {
    if i < |o.advances| {
      var a := o.advances[i];
      ExcessUpdate(o.advances, i, a.(status := Disbursed), e);
      ExcessUpdate(o.advances, i, WithAttempt(a, Collection(LastNumber(a.debits) + 1, Remaining(a), DebitPending)), e);
    }
  }

  lemma StepExcess(o: Org, step: Step, e: string)
    requires RowsOk(o)
    ensures ExcessOf(Perform(o, step).advances, e) == ExcessOf(o.advances, e) + Harm(o, step, e)
  {
    match step
    case Request(x, amount, f, key) => RequestExcess(o, x, amount, f, key, e);
    case Disburse(i) => QuietExcess(o, i, e);
    case Cancel(i) => CancelExcess(o, i, e);
    case Pay(x, period, gross, pref) => PayExcess(o, x, period, gross, pref, e);
    case Terminate(x) => TerminateExcess(o, x, |o.advances|, e, TerminateUpTo(o, x, |o.advances|));
    case Initiate(i, authorized) => QuietExcess(o, i, e);
    case Collect(i, j) => CollectExcess(o, i, j, e);
    case CollectionFails(i, j) => FailExcess(o, i, j, e);
    case _ =>
  }

  function TotalHarm(o: Org, steps: seq<Step>, e: string): int {
    if steps == [] then 0
    else
      var front := steps[..|steps| - 1];
      TotalHarm(o, front, e) + Harm(After(o, front), steps[|steps| - 1], e)
  }

  lemma {:induction false} ExcessIsHarm(o: Org, steps: seq<Step>, e: string)
    requires Initial(o)
    ensures ExcessOf(After(o, steps).advances, e) == TotalHarm(o, steps, e)
  {
    if steps != [] {
      var front, last := steps[..|steps| - 1], steps[|steps| - 1];
      ExcessIsHarm(o, front, e);
      assert RowsOk(After(o, front)) by { RunKeeps(o, e, front); }
      StepExcess(After(o, front), last, e);
    }
  }

  /** After every run the receivable falls short of the debt by exactly what the harmful
      calls of the run took from it. */
  lemma ShortByHarm(o: Org, steps: seq<Step>, e: string)
    requires Initial(o)
    ensures var p := After(o, steps); Balance(p, e) == Debt(p, e) - TotalHarm(o, steps, e)
  {
    RunKeeps(o, e, steps);
    BalanceAndDebt(After(o, steps), e);
    ExcessIsHarm(o, steps, e);
  }

  lemma {:induction false} RecoveredInPartZero(advances: seq<Advance>, e: string, n: nat)
    requires n <= |advances| && forall i | 0 <= i < |advances| :: AdvanceOk(advances[i])
    ensures RecoveredInPart(advances, e, n) >= 0
    ensures RecoveredInPart(advances, e, n) == 0 <==>
            forall i | 0 <= i < n && advances[i].employee == e && advances[i].status == Disbursed :: advances[i].recovered == 0
  {
    if n > 0 {
      assert AdvanceOk(advances[n - 1]);
      RecoveredInPartZero(advances, e, n - 1);
    }
  }

  lemma HarmIsNonNegative(o: Org, step: Step, e: string)
    requires RowsOk(o)
    ensures Harm(o, step, e) >= 0
  {
    match step
    case Terminate(x) =>
      assert forall i | 0 <= i < |o.advances| :: AdvanceOk(o.advances[i]);
      RecoveredInPartZero(o.advances, e, |o.advances|);
    case CollectionFails(i, j) => if Exhausts(o, i, j) { assert AdvanceOk(o.advances[i]); }
    case _ =>
  }

  /** No call of the run was harmful to e when it was made. */
  ghost predicate Harmless(o: Org, steps: seq<Step>, e: string) {
    steps == [] ||
    (Harmless(o, steps[..|steps| - 1], e) && Harm(After(o, steps[..|steps| - 1]), steps[|steps| - 1], e) == 0)
  }

  lemma {:induction false} HarmlessIsZero(o: Org, steps: seq<Step>, e: string)
    requires Initial(o)
    ensures TotalHarm(o, steps, e) >= 0 && (TotalHarm(o, steps, e) == 0 <==> Harmless(o, steps, e))
  {
    if steps != [] {
      var front, last := steps[..|steps| - 1], steps[|steps| - 1];
      HarmlessIsZero(o, front, e);
      assert RowsOk(After(o, front)) by { RunKeeps(o, e, front); }
      HarmIsNonNegative(After(o, front), last, e);
    }
  }

  /** The receivable is the debt after a run if and only if no call in it was harmful, each
      judged by the tables as the caller found them. */
  lemma ReceivableIsDebt(o: Org, steps: seq<Step>, e: string)
    requires Initial(o)
    ensures Balance(After(o, steps), e) == Debt(After(o, steps), e) <==> Harmless(o, steps, e)
  {
    ShortByHarm(o, steps, e);
    HarmlessIsZero(o, steps, e);
  }

  // ---------- the two harmful calls, one at a time ----------

  lemma {:induction false} StillOwedUpdate(advances: seq<Advance>, i: nat, a: Advance, e: string)
    requires i < |advances|
    ensures StillOwed(advances[i := a], e) == StillOwed(advances, e)
            - (if advances[i].employee == e && IsOpen(advances[i]) then advances[i].amount - advances[i].recovered else 0)
            + (if a.employee == e && IsOpen(a) then a.amount - a.recovered else 0)
  {
    var n := |advances| - 1;
    if i == n {
      assert advances[i := a][..n] == advances[..n];
    } else {
      StillOwedUpdate(advances[..n], i, a, e);
      assert advances[i := a][..n] == advances[..n][i := a];
    }
  }

  lemma WriteOffTables(p: Org, i: nat, q: Org)
    requires i < |p.advances| && p.advances[i].status == Disbursed && q == WriteOffAdvance(p, i)
    ensures var a := p.advances[i];
            && ExcessOf(q.advances, a.employee) == ExcessOf(p.advances, a.employee) + a.recovered
            && StillOwed(q.advances, a.employee) == StillOwed(p.advances, a.employee) - (a.amount - a.recovered)
  {
    var a := p.advances[i];
    WriteOffExcess(p, i, a.employee);
    StillOwedUpdate(p.advances, i, a.(status := WrittenOff), a.employee);
  }

  /** From p to q the receivable of e fell by `balance` and the debt by `debt`. */
  predicate Lowered(p: Org, q: Org, e: string, balance: int, debt: int) {
    Balance(q, e) == Balance(p, e) - balance && Debt(q, e) == Debt(p, e) - debt
  }

  lemma WriteOffAt(o: Org, steps: seq<Step>, i: nat, p: Org, q: Org)
    requires Initial(o) && p == After(o, steps) && q == WriteOffAdvance(p, i)
    requires i < |p.advances| && p.advances[i].status == Disbursed
    ensures var a := p.advances[i]; Lowered(p, q, a.employee, a.amount, a.amount - a.recovered)
  {
    var e := p.advances[i].employee;
    assert BalanceIs(p, e) by { RunKeeps(o, e, steps); BalanceAndDebt(p, e); }
    assert BalanceIs(q, e) by { RunKeeps(o, e, steps); WriteOffKeeps(p, e, i, 0); BalanceAndDebt(q, e); }
    WriteOffTables(p, i, q);
  }

  /** In every reachable state a write-off lowers the receivable by the full amount and the
      debt by what is owed: the two fall alike if and only if nothing was recovered. */
  lemma WriteOffLowers(o: Org, steps: seq<Step>, i: nat)
    requires Initial(o)
    ensures var p := After(o, steps);
            i < |p.advances| && p.advances[i].status == Disbursed ==>
              var a, q := p.advances[i], WriteOffAdvance(p, i);
              && Lowered(p, q, a.employee, a.amount, a.amount - a.recovered)
              && (Lowered(p, q, a.employee, a.amount, a.amount) <==> a.recovered == 0)
  {
    var p := After(o, steps);
    if i < |p.advances| && p.advances[i].status == Disbursed { WriteOffAt(o, steps, i, p, WriteOffAdvance(p, i)); }
  }

  ghost predicate BalanceIs(o: Org, e: string) {
    Debt(o, e) == StillOwed(o.advances, e) && Balance(o, e) == Debt(o, e) - ExcessOf(o.advances, e)
  }

  lemma CollectionTables(p: Org, i: nat, j: nat, q: Org)
    requires RowsOk(p) && Lands(p, i, j) && q == DebitSucceeds(p, i, j)
    ensures var a := p.advances[i];
            var x := a.debits[j].amount;
            && ExcessOf(q.advances, a.employee) == ExcessOf(p.advances, a.employee) + (if a.status == WrittenOff then x else 0)
            && StillOwed(q.advances, a.employee) == StillOwed(p.advances, a.employee) - (if a.status == WrittenOff then 0 else x)
  {
    var a := p.advances[i];
    assert AdvanceOk(a);
    CollectExcess(p, i, j, a.employee);
    StillOwedUpdate(p.advances, i, CollectedBy(a, j), a.employee);
  }

  lemma CollectionAt(o: Org, steps: seq<Step>, i: nat, j: nat, p: Org, q: Org)
    requires Initial(o) && p == After(o, steps) && q == DebitSucceeds(p, i, j) && Lands(p, i, j)
    ensures var a := p.advances[i];
            Lowered(p, q, a.employee, a.debits[j].amount, if a.status == WrittenOff then 0 else a.debits[j].amount)
  {
    var e := p.advances[i].employee;
    assert BalanceIs(p, e) && RowsOk(p) by { RunKeeps(o, e, steps); BalanceAndDebt(p, e); }
    assert BalanceIs(q, e) by { RunKeeps(o, e, steps); DebitSucceedsKeeps(p, e, i, j); BalanceAndDebt(q, e); }
    CollectionTables(p, i, j, q);
  }

  /** In every reachable state a debit that lands lowers the receivable by its amount; the
      debt falls alike if and only if the advance is not written off. */
  lemma CollectionLowers(o: Org, steps: seq<Step>, i: nat, j: nat)
    requires Initial(o)
    ensures var p := After(o, steps);
            Lands(p, i, j) ==>
              var a, q := p.advances[i], DebitSucceeds(p, i, j);
              var x := a.debits[j].amount;
              && Lowered(p, q, a.employee, x, if a.status == WrittenOff then 0 else x)
              && (Lowered(p, q, a.employee, x, x) <==> a.status != WrittenOff)
  {
    var p := After(o, steps);
    if Lands(p, i, j) { CollectionAt(o, steps, i, j, p, DebitSucceeds(p, i, j)); }
  }

  // ---------- a run for each ----------

  const DRAW_FACTS := Facts(100, Healthy, 0, 0, Policy(100, 1000, 1, 0, false), false, false)
  const NO_SAVINGS := Preference(false, OtherMode, 0, 0)
  const ATTEMPT := Collection(1, 100, DebitPending)

  function EmptyOrg(): Org { Org("ORG", NGN, 0, 0, [], [], []) }

  function LossRun(): seq<Step> {
    [Request("EMP", 100, DRAW_FACTS, None), Disburse(0), Pay("EMP", 0, 40, NO_SAVINGS), Terminate("EMP")]
  }

  function LateDebitRun(): seq<Step> {
    [Request("EMP", 100, DRAW_FACTS, None), Disburse(0), Initiate(0, true), Terminate("EMP"), Collect(0, 0)]
  }

  predicate OnlyAdvance(o: Org, recovered: Int64, status: AdvanceStatus, debits: seq<Collection>) {
    o.advances == [Advance("EMP", 0, 100, recovered, status, debits, None)] && o.period == 0
  }

  lemma AfterNext(o: Org, steps: seq<Step>, n: nat, p: Org)
    requires n < |steps| && p == After(o, steps[..n])
    ensures After(o, steps[..n + 1]) == Perform(p, steps[n])
  {
    assert steps[..n + 1][..n] == steps[..n];
  }

  lemma DrawFirst(o: Org)
    requires o.advances == [] && o.period == 0
    ensures OnlyAdvance(Perform(o, Request("EMP", 100, DRAW_FACTS, None)), 0, Approved, [])
  {
    PercentExact(100, 100, 100);
    RoundOfMultiple(100, 100);
    assert PolicyCap(100, DRAW_FACTS.policy) == Ok(100);
    assert Outstanding(o.advances, "EMP", 0) == 0;
  }

  lemma DisburseFirst(o: Org)
    requires OnlyAdvance(o, 0, Approved, [])
    ensures OnlyAdvance(Perform(o, Disburse(0)), 0, Disbursed, [])
  {
  }

  lemma PayFirst(o: Org, gross: Int64, debits: seq<Collection>)
    requires OnlyAdvance(o, 0, Disbursed, debits) && 0 < gross < 100
    ensures OnlyAdvance(Perform(o, Pay("EMP", 0, gross, NO_SAVINGS)), gross, Disbursed, debits)
  {
    var s := Settlement(o, 0);
    assert SettleUpTo(o, "EMP", 0, o.nextItem, gross, 0) == s;
    assert SettleUpTo(o, "EMP", 0, o.nextItem, gross, 1) == SettleTurn(s, 0, "EMP", 0, o.nextItem, gross);
  }

  lemma LeaveFirst(o: Org, recovered: Int64, debits: seq<Collection>)
    requires OnlyAdvance(o, recovered, Disbursed, debits)
    ensures OnlyAdvance(Perform(o, Terminate("EMP")), recovered, WrittenOff, debits)
  {
    assert TerminateUpTo(o, "EMP", 0) == o;
    assert TerminateUpTo(o, "EMP", 1) == Resolve(o, 0, "EMP");
  }

  lemma InitiateFirst(o: Org)
    requires OnlyAdvance(o, 0, Disbursed, [])
    ensures OnlyAdvance(Perform(o, Initiate(0, true)), 0, Disbursed, [ATTEMPT])
  {
    assert o.advances[0].debits + [ATTEMPT] == [ATTEMPT];
  }

  lemma LandFirst(o: Org)
    requires OnlyAdvance(o, 0, WrittenOff, [ATTEMPT])
    ensures OnlyAdvance(Perform(o, Collect(0, 0)), 100, WrittenOff, [ATTEMPT.(status := DebitSuccessful)])
  {
    assert [ATTEMPT][0 := ATTEMPT.(status := DebitSuccessful)] == [ATTEMPT.(status := DebitSuccessful)];
  }

  lemma OnlyAdvanceFigures(o: Org, recovered: Int64, debits: seq<Collection>)
    requires OnlyAdvance(o, recovered, WrittenOff, debits)
    ensures StillOwed(o.advances, "EMP") == 0 && ExcessOf(o.advances, "EMP") == recovered
  {
    assert o.advances[..0] == [];
  }

  lemma DrawnFirst(o: Org, run: seq<Step>)
    requires o == EmptyOrg() && |run| >= 2 && run[0] == Request("EMP", 100, DRAW_FACTS, None)
    ensures OnlyAdvance(After(o, run[..1]), 0, Approved, [])
  {
    assert run[..0] == [];
    AfterNext(o, run, 0, o);
    DrawFirst(o);
  }

  lemma DisbursedFirst(o: Org, run: seq<Step>)
    requires o == EmptyOrg() && |run| >= 2 && run[0] == Request("EMP", 100, DRAW_FACTS, None) && run[1] == Disburse(0)
    ensures OnlyAdvance(After(o, run[..2]), 0, Disbursed, [])
  {
    DrawnFirst(o, run);
    var p := After(o, run[..1]);
    AfterNext(o, run, 1, p);
    DisburseFirst(p);
  }

  lemma LossTables(o: Org, run: seq<Step>)
    requires o == EmptyOrg() && run == LossRun()
    ensures OnlyAdvance(After(o, run), 40, WrittenOff, [])
  {
    DisbursedFirst(o, run);
    var p, q := After(o, run[..2]), After(o, run[..3]);
    assert OnlyAdvance(q, 40, Disbursed, []) by { AfterNext(o, run, 2, p); PayFirst(p, 40, []); }
    assert OnlyAdvance(After(o, run[..4]), 40, WrittenOff, []) by { AfterNext(o, run, 3, q); LeaveFirst(q, 40, []); }
    assert run[..4] == run;
  }

  /** A draw of 100 of which 40 comes back through payroll before the worker leaves: the
      write-off takes the receivable 40 below zero although nothing is owed. */
  lemma WriteOffOvershoots(o: Org, run: seq<Step>)
    requires o == EmptyOrg() && run == LossRun()
    ensures Balance(After(o, run), "EMP") == -40 && StillOwed(After(o, run).advances, "EMP") == 0
  {
    LossTables(o, run);
    OnlyAdvanceFigures(After(o, run), 40, []);
    ReceivableOverRuns(o, run, "EMP");
  }

  lemma PendingFirst(o: Org, run: seq<Step>)
    requires o == EmptyOrg() && |run| >= 3 && run[..3] == LateDebitRun()[..3]
    ensures OnlyAdvance(After(o, run[..3]), 0, Disbursed, [ATTEMPT])
  {
    assert forall k | 0 <= k < 3 :: run[k] == run[..3][k] == LateDebitRun()[k];
    DisbursedFirst(o, run);
    var p := After(o, run[..2]);
    AfterNext(o, run, 2, p);
    InitiateFirst(p);
  }

  lemma LateTables(o: Org, run: seq<Step>)
    requires o == EmptyOrg() && run == LateDebitRun()
    ensures OnlyAdvance(After(o, run[..4]), 0, WrittenOff, [ATTEMPT])
  {
    PendingFirst(o, run);
    var q := After(o, run[..3]);
    AfterNext(o, run, 3, q);
    LeaveFirst(q, 0, [ATTEMPT]);
  }

  /** A draw of 100 with a debit still pending when the worker leaves: nothing had been
      recovered, but the debit lands on the written-off advance and takes the receivable
      100 below zero. */
  lemma LateDebitOvershoots(o: Org, run: seq<Step>)
    requires o == EmptyOrg() && run == LateDebitRun()
    ensures Balance(After(o, run), "EMP") == -100 && StillOwed(After(o, run).advances, "EMP") == 0
  {
    var p := After(o, run[..4]);
    var landed := [ATTEMPT.(status := DebitSuccessful)];
    assert OnlyAdvance(After(o, run), 100, WrittenOff, landed) by {
      LateTables(o, run);
      AfterNext(o, run, 4, p);
      LandFirst(p);
      assert run[..5] == run;
    }
    OnlyAdvanceFigures(After(o, run), 100, landed);
    ReceivableOverRuns(o, run, "EMP");
  }
}
