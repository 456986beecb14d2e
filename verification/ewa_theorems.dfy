/** What the ledger says about an organisation after any run of any operations. */
module EwaTheorems {
  import opened Wrappers
  import opened Money
  import opened Ledger
  import opened Eligibility
  import opened Savings
  import opened Ewa
  import opened EwaBooks
  import opened EwaReceivable

  // ---------- cash ----------

  /** After every run, cash_settlement is the draws not cancelled, plus the grants not
      reversed, less deposits, less what direct debits brought in; the two expense
      accounts hold the amounts written off and granted. */
  lemma CashOverRuns(o: Org, steps: seq<Step>)
    requires Initial(o)
    ensures var p := After(o, steps);
            && AccountBalance(p.ledger, Cash(p)) ==
                 SumOf(p.advances, Drawn) + LiveGrants(p.grants) - Deposited(steps) - SumOf(p.advances, CollectedByDebit)
            && AccountBalance(p.ledger, WriteOffs(p)) == SumOf(p.advances, Lost)
            && AccountBalance(p.ledger, GrantExpense(p)) == LiveGrants(p.grants)
  {
    RunKeeps(o, "", steps);
    FundingIsDeposits(o, steps, "");
  }

  /** The deposit at the end of the run is new: positive, and its reference was not used by
      an earlier positive deposit. */
  predicate IsNewDeposit(earlier: seq<Step>, reference: string, amount: Int64) {
    amount > 0 && !WasDeposited(earlier, reference)
  }

  predicate WasDeposited(steps: seq<Step>, reference: string) {
    exists j :: 0 <= j < |steps| && IsDepositOf(steps[j], reference)
  }

  predicate IsDepositOf(step: Step, reference: string) {
    step.Deposit? && step.reference == reference && step.amount > 0
  }

  /** What the employer paid in: each reference counted once, at its first delivery. */
  function Deposited(steps: seq<Step>): int {
    if steps == [] then 0
    else
      var front, last := steps[..|steps| - 1], steps[|steps| - 1];
      Deposited(front) + (if last.Deposit? && IsNewDeposit(front, last.reference, last.amount) then last.amount else 0)
  }

  /** A change that records no deposit: the pool and the key of the reference are as before. */
  ghost predicate NoDeposit(o: Org, p: Org, reference: string) {
    && p.id == o.id && p.currency == o.currency
    && LedgerNet(p.ledger, Funding(o)) == LedgerNet(o.ledger, Funding(o))
    && (KeyUsed(p, DepositKey(reference)) <==> KeyUsed(o, DepositKey(reference)))
  }

  /** A change that records no deposit and takes no cash. */
  ghost predicate NoCashOut(o: Org, p: Org, reference: string) {
    NoDeposit(o, p, reference) && LedgerNet(p.ledger, Cash(o)) >= LedgerNet(o.ledger, Cash(o))
  }

  lemma NoCashOutTwice(o: Org, p: Org, q: Org, reference: string)
    requires NoCashOut(o, p, reference) && NoCashOut(p, q, reference)
    ensures NoCashOut(o, q, reference)
  {
  }

  lemma PostAppends(o: Org, key: Key, dr: Account, cr: Account, amount: Int64, a: Account)
    ensures var p := Move(o, key, dr, cr, amount);
            && (LedgerNet(p.ledger, a) == LedgerNet(o.ledger, a) ||
                (amount > 0 && LedgerNet(p.ledger, a) == LedgerNet(o.ledger, a) + Effect(dr, cr, amount, a)))
  {
    var posting := Movement(o, key, dr, cr, amount);
    if Move(o, key, dr, cr, amount).ledger != o.ledger {
      AllFitEach(posting.entries, o.currency);
      assert EntryFits(posting.entries[0], o.currency);
      KeyDecides(o.ledger, posting, Posting(o.id, Some(key), []));
      MoveNet(o, key, dr, cr, amount, a);
    }
  }

  lemma MoveOtherKey(o: Org, key: Key, dr: Account, cr: Account, amount: Int64, k: Key)
    requires key != k
    ensures KeyUsed(Move(o, key, dr, cr, amount), k) <==> KeyUsed(o, k)
  {
    var posting := Movement(o, key, dr, cr, amount);
    assert (o.ledger + [posting])[..|o.ledger|] == o.ledger;
  }

  lemma MoveNoDeposit(o: Org, p: Org, key: Key, dr: Account, cr: Account, amount: Int64, reference: string)
    requires p.ledger == o.ledger && p.id == o.id && p.currency == o.currency
    requires !key.DepositKey? && cr != Funding(o) && dr != Funding(o)
    ensures NoDeposit(o, Move(p, key, dr, cr, amount), reference)
  {
    PostAppends(p, key, dr, cr, amount, Funding(o));
    MoveOtherKey(p, key, dr, cr, amount, DepositKey(reference));
  }

  lemma MoveNoCashOut(o: Org, p: Org, key: Key, dr: Account, cr: Account, amount: Int64, reference: string)
    requires p.ledger == o.ledger && p.id == o.id && p.currency == o.currency
    requires !key.DepositKey? && cr != Cash(o) && cr != Funding(o) && dr != Funding(o)
    ensures NoCashOut(o, Move(p, key, dr, cr, amount), reference)
  {
    PostAppends(p, key, dr, cr, amount, Cash(o));
    MoveNoDeposit(o, p, key, dr, cr, amount, reference);
  }

  lemma CancelNoCashOut(o: Org, i: nat, r: string)
    ensures NoCashOut(o, CancelAdvance(o, i), r)
  {
    if i < |o.advances| {
      var a := o.advances[i];
      MoveNoCashOut(o, WithAdvance(o, i, a.(status := Cancelled)), CancelKey(i), Cash(o), Receivable(o, a.employee), a.amount, r);
    }
  }

  lemma WriteOffNoCashOut(o: Org, i: nat, r: string)
    ensures NoCashOut(o, WriteOffAdvance(o, i), r)
  {
    if i < |o.advances| {
      var a := o.advances[i];
      MoveNoCashOut(o, WithAdvance(o, i, a.(status := WrittenOff)), WriteOffKey(i), WriteOffs(o), Receivable(o, a.employee), a.amount, r);
    }
  }

  lemma ResolveNoCashOut(o: Org, i: nat, e: string, r: string)
    requires i < |o.advances|
    ensures NoCashOut(o, Resolve(o, i, e), r)
  {
    CancelNoCashOut(o, i, r);
    WriteOffNoCashOut(o, i, r);
  }

  lemma {:induction false} TerminateNoCashOut(o: Org, e: string, n: nat, r: string, q: Org)
    requires n <= |o.advances| && q == TerminateUpTo(o, e, n)
    ensures NoCashOut(o, q, r)
  {
    if n > 0 {
      var p := TerminateUpTo(o, e, n - 1);
      assert NoCashOut(o, p, r) by { TerminateNoCashOut(o, e, n - 1, r, p); }
      assert q == Resolve(p, n - 1, e);
      assert NoCashOut(p, q, r) by { ResolveNoCashOut(p, n - 1, e, r); }
      NoCashOutTwice(o, p, q, r);
    }
  }

  lemma RecoverNoCashOut(o: Org, i: nat, item: nat, portion: Int64, r: string)
    requires i < |o.advances| && 0 < portion <= Remaining(o.advances[i])
    ensures NoCashOut(o, Recover(o, i, item, portion), r)
  {
    var a := o.advances[i];
    MoveNoCashOut(o, WithAdvance(o, i, Recovered(a, portion)), SettleKey(i, item),
                  Payable(o, a.employee), Receivable(o, a.employee), portion, r);
  }

  lemma TurnNoCashOut(s: Settlement, i: nat, e: string, period: int, item: nat, available: int, r: string, t: Settlement)
    requires i < |s.books.advances| && t == SettleTurn(s, i, e, period, item, available)
    ensures NoCashOut(s.books, t.books, r)
  {
    var o, a := s.books, s.books.advances[i];
    var portion := Portion(a, available - s.withheld);
    if !Selected(a, e, period) || (a.status != Approved && portion <= 0) {
      assert t.books == o;
    } else if a.status == Approved {
      assert t.books == CancelAdvance(o, i);
      CancelNoCashOut(o, i, r);
    } else {
      assert t.books == Recover(o, i, item, portion);
      RecoverNoCashOut(o, i, item, portion, r);
    }
  }

  lemma {:induction false} SettleNoCashOut(
      o: Org, e: string, period: int, item: nat, available: int, n: nat, r: string, t: Settlement)
    requires n <= |o.advances| && t == SettleUpTo(o, e, period, item, available, n)
    ensures NoCashOut(o, t.books, r)
  {
    if n > 0 {
      var s := SettleUpTo(o, e, period, item, available, n - 1);
      SettleNoCashOut(o, e, period, item, available, n - 1, r, s);
      assert t == SettleTurn(s, n - 1, e, period, item, available);
      TurnNoCashOut(s, n - 1, e, period, item, available, r, t);
      NoCashOutTwice(o, s.books, t.books, r);
    }
  }

  lemma PayNoCashOut(o: Org, e: string, period: int, gross: Int64, pref: Preference, r: string)
    ensures NoCashOut(o, Perform(o, Pay(e, period, gross, pref)), r)
  {
    var s := SettleUpTo(o, e, period, o.nextItem, gross, |o.advances|);
    var p := s.books;
    assert NoCashOut(o, p, r) by { SettleNoCashOut(o, e, period, o.nextItem, gross, |o.advances|, r, s); }
    var paid := PayItem(o, e, period, gross, pref);
    if paid.Ok? {
      var d := paid.value.slip.diverted;
      CloseNoCashOut(p, e, d, r);
      assert paid.value.books == Close(p, e, d);
    }
  }

  lemma CloseNoCashOut(o: Org, e: string, d: Int64, r: string)
    ensures NoCashOut(o, Close(o, e, d), r)
  {
    MoveNoCashOut(o, o, SavingsKey(o.nextItem), Payable(o, e), SavingsOf(o, e), d, r);
  }

  lemma DebitNoCashOut(o: Org, i: nat, j: nat, r: string)
    ensures NoCashOut(o, DebitSucceeds(o, i, j), r) && NoCashOut(o, DebitFails(o, i, j), r)
  {
    if IsPendingDebit(o, i, j) {
      var a := o.advances[i];
      if 0 <= a.recovered + a.debits[j].amount <= a.amount {
        MoveNoCashOut(o, WithAdvance(o, i, CollectedBy(a, j)), CollectKey(i, j), Cash(o), Receivable(o, a.employee), a.debits[j].amount, r);
      }
      WriteOffNoCashOut(WithAdvance(o, i, WithDebit(a, j, DebitFailed)), i, r);
    }
  }

  lemma ReverseNoCashOut(o: Org, g: nat, r: string)
    ensures NoCashOut(o, FailGrant(o, g), r)
  {
    if GrantUnresolved(o, g) {
      MoveNoCashOut(o, o.(grants := o.grants[g := o.grants[g].(status := GrantFailed)]),
                    GrantReversalKey(g), Cash(o), GrantExpense(o), o.grants[g].amount, r);
    }
  }

  /** Only an approved draw and a grant take cash, and only a deposit feeds the pool. */
  lemma StepNoCashOut(o: Org, step: Step, r: string)
    requires !step.Request? && !step.Issue? && !step.Deposit?
    ensures NoCashOut(o, Perform(o, step), r)
  {
    match step
    case Cancel(i) => CancelNoCashOut(o, i, r);
    case Pay(e, period, gross, pref) => PayNoCashOut(o, e, period, gross, pref, r);
    case Terminate(e) => TerminateNoCashOut(o, e, |o.advances|, r, Perform(o, step));
    case Collect(i, j) => DebitNoCashOut(o, i, j, r);
    case CollectionFails(i, j) => DebitNoCashOut(o, i, j, r);
    case Reverse(g) => ReverseNoCashOut(o, g, r);
    case _ =>
  }

  lemma StepNoDeposit(o: Org, step: Step, r: string)
    requires !step.Deposit?
    ensures NoDeposit(o, Perform(o, step), r)
  {
    match step
    case Request(e, amount, f, key) =>
      MoveNoDeposit(o, WithNewAdvance(o, NewAdvance(o, e, amount, Approved, key)),
                    AdvanceKey(|o.advances|), Receivable(o, e), Cash(o), amount, r);
    case Issue(amount, coverage, eligible) =>
      MoveNoDeposit(o, o.(grants := o.grants + [Grant(amount, GrantPending)]),
                    GrantKey(|o.grants|), GrantExpense(o), Cash(o), amount, r);
    case _ => StepNoCashOut(o, step, r);
  }

  lemma DepositEffect(o: Org, reference: string, amount: Int64, r: string)
    requires !o.currency.Unsupported?
    ensures var p := RecordFunding(o, reference, amount);
            var isNew := amount > 0 && !KeyUsed(o, DepositKey(reference));
            && p.id == o.id && p.currency == o.currency
            && LedgerNet(p.ledger, Funding(o)) == LedgerNet(o.ledger, Funding(o)) - (if isNew then amount else 0)
            && LedgerNet(p.ledger, Cash(o)) == LedgerNet(o.ledger, Cash(o)) + (if isNew then amount else 0)
            && (KeyUsed(p, DepositKey(r)) <==> KeyUsed(o, DepositKey(r)) || (r == reference && amount > 0))
  {
    var key := DepositKey(reference);
    var posting := Movement(o, key, Cash(o), Funding(o), amount);
    if amount > 0 && !KeyUsed(o, key) {
      MoveNet(o, key, Cash(o), Funding(o), amount, Funding(o));
      MoveNet(o, key, Cash(o), Funding(o), amount, Cash(o));
      MoveKeys(o, key, Cash(o), Funding(o), amount, DepositKey(r));
    } else {
      AllFitEach(posting.entries, o.currency);
      if amount <= 0 { assert !EntryFits(posting.entries[0], o.currency); }
      KeyDecides(o.ledger, posting, Posting(o.id, Some(key), []));
    }
  }

  /** What one step does to the pool and to the key of reference r. */
  lemma PoolStep(p: Org, step: Step, r: string, q: Org)
    requires q == Perform(p, step) && !p.currency.Unsupported?
    ensures q.id == p.id && q.currency == p.currency
    ensures LedgerNet(q.ledger, Funding(p)) == LedgerNet(p.ledger, Funding(p)) -
            (if step.Deposit? && step.amount > 0 && !KeyUsed(p, DepositKey(step.reference)) then step.amount else 0)
    ensures KeyUsed(q, DepositKey(r)) <==> KeyUsed(p, DepositKey(r)) || IsDepositOf(step, r)
  {
    if step.Deposit? {
      DepositEffect(p, step.reference, step.amount, r);
    } else {
      StepNoDeposit(p, step, r);
    }
  }

  /** The pool's balance is what the employer paid in, however often the provider repeats
      a delivery; a reference's key is used exactly when it was deposited. */
  lemma {:induction false} FundingIsDeposits(o: Org, steps: seq<Step>, r: string)
    requires Initial(o)
    ensures var p := After(o, steps);
            && p.id == o.id && p.currency == o.currency
            && AccountBalance(p.ledger, Funding(p)) == Deposited(steps)
            && (KeyUsed(p, DepositKey(r)) <==> WasDeposited(steps, r))
  {
    if steps != [] {
      var front, last := steps[..|steps| - 1], steps[|steps| - 1];
      var p, q := After(o, front), After(o, steps);
      FundingIsDeposits(o, front, r);
      if last.Deposit? { FundingIsDeposits(o, front, last.reference); }
      WasDepositedLast(steps, r);
      PoolStep(p, last, r, q);
      assert Funding(q) == Funding(p);
    }
  }

  lemma WasDepositedLast(steps: seq<Step>, r: string)
    requires steps != []
    ensures var n := |steps| - 1;
            WasDeposited(steps, r) <==> WasDeposited(steps[..n], r) || IsDepositOf(steps[n], r)
  {
    var n := |steps| - 1;
    if j :| 0 <= j < n && IsDepositOf(steps[..n][j], r) { assert IsDepositOf(steps[j], r); }
    if j :| 0 <= j < |steps| && IsDepositOf(steps[j], r) && j < n { assert IsDepositOf(steps[..n][j], r); }
  }

  // ---------- funding coverage ----------

  /** The org's policy demands coverage, at every request and every grant of the run. */
  predicate CoverageOn(step: Step) {
    match step
    case Request(_, _, f, _) => f.policy.requireFundingCoverage && ValidPolicy(f.policy) && f.accrued >= 0
    case Issue(_, coverage, _) => coverage
    case _ => true
  }

  lemma RequestCovered(o: Org, e: string, amount: Int64, f: Facts, key: Option<string>)
    requires CoverageOn(Request(e, amount, f, key)) && NoForeignCash(o) && LedgerNet(o.ledger, Cash(o)) >= 0
    ensures LedgerNet(RequestAdvance(o, e, amount, f, key).ledger, Cash(o)) >= 0
  {
    if Decide(o, e, amount, f) == ApprovedDraw {
      var l := LimitsExist(f.accrued, f.tier, f.policy);
      ApprovedIff(o, e, amount, f, l);
      PostAppends(WithNewAdvance(o, NewAdvance(o, e, amount, Approved, key)),
                  AdvanceKey(|o.advances|), Receivable(o, e), Cash(o), amount, Cash(o));
    }
  }

  lemma IssueCovered(o: Org, amount: Int64, eligible: bool)
    requires LedgerNet(o.ledger, Cash(o)) >= 0
    ensures LedgerNet(IssueGrant(o, amount, true, eligible).ledger, Cash(o)) >= 0
  {
    PostAppends(o.(grants := o.grants + [Grant(amount, GrantPending)]),
                GrantKey(|o.grants|), GrantExpense(o), Cash(o), amount, Cash(o));
  }

  lemma CoveredStep(p: Org, step: Step, q: Org)
    requires q == Perform(p, step) && CoverageOn(step) && !p.currency.Unsupported? && NoForeignCash(p)
    requires LedgerNet(p.ledger, Cash(p)) >= 0
    ensures q.id == p.id && q.currency == p.currency && LedgerNet(q.ledger, Cash(p)) >= 0
  {
    match step
    case Request(e, amount, f, key) => RequestCovered(p, e, amount, f, key);
    case Issue(amount, coverage, eligible) => IssueCovered(p, amount, eligible);
    case Deposit(reference, amount) => DepositEffect(p, reference, amount, "");
    case _ => StepNoCashOut(p, step, "");
  }

  /** With coverage always on, an organisation never advances or grants more than it was
      paid, whatever its currency: cash_settlement stays at or below zero through the run. */
  lemma {:induction false} NeverUncovered(o: Org, steps: seq<Step>)
    requires Initial(o) && forall j | 0 <= j < |steps| :: CoverageOn(steps[j])
    ensures var p := After(o, steps);
            p.id == o.id && p.currency == o.currency && AccountBalance(p.ledger, Cash(p)) <= 0
  {
    if steps != [] {
      var n := |steps| - 1;
      var p, q := After(o, steps[..n]), After(o, steps);
      NeverUncovered(o, steps[..n]);
      assert NoForeignCash(p) by { RunKeeps(o, "", steps[..n]); }
      CoveredStep(p, steps[n], q);
    }
  }

  // ---------- which draws are approved ----------

  /** The draw fits everything but the funding pool: the worker's guardrails, the minimum,
      the limit for the worker's tier and a protected floor. */
  predicate FitsWorker(o: Org, e: string, amount: Int64, f: Facts, l: Limits) {
    var debt := Outstanding(o.advances, e, o.period);
    && !f.earlyBlock && !f.lateBlock && amount >= f.policy.minDraw
    && InRange(f.accrued * f.policy.maxAccrualPct) && InRange(debt)
    && debt + amount <= l.draw
    && (f.floor > 0 ==> f.basis - (debt + amount) >= f.floor)
  }

  /** Under the limits l that the policy sets, a request is approved if and only if it fits
      the worker and, with coverage on, the NGN cash account. */
  lemma ApprovedIff(o: Org, e: string, amount: Int64, f: Facts, l: Limits)
    requires ValidPolicy(f.policy) && f.accrued >= 0 && AreLimits(l, f.accrued, f.tier, f.policy)
    ensures Decide(o, e, amount, f) == ApprovedDraw <==>
            && FitsWorker(o, e, amount, f, l)
            && (f.policy.requireFundingCoverage ==> AccountBalance(o.ledger, CashIn(o, NGN)) + amount <= 0)
  {
    var debt := Outstanding(o.advances, e, o.period);
    CapsAreLimits(f.accrued, f.tier, f.policy, l);
    if PolicyCap(f.accrued, f.policy).Ok? && InRange(debt) {
      ApprovesIff(amount, l.draw, debt, f.basis, f.floor, f.policy, AccountBalance(o.ledger, CashIn(o, NGN)), f.lateBlock);
    }
  }

  /** It is an error if and only if the amount is not positive or, unless the worker is
      blocked before the caps are computed, the share or the debt leaves int64. */
  lemma ErrorIff(o: Org, e: string, amount: Int64, f: Facts)
    requires ValidPolicy(f.policy) && f.accrued >= 0
    ensures Decide(o, e, amount, f) == RequestError <==>
            amount <= 0 || (!f.earlyBlock && !(InRange(f.accrued * f.policy.maxAccrualPct) &&
                                               InRange(Outstanding(o.advances, e, o.period))))
  {
    var l := LimitsExist(f.accrued, f.tier, f.policy);
    CapsAreLimits(f.accrued, f.tier, f.policy, l);
  }

  /** What the worker owes is within the limits, which are within the wages accrued, and
      leaves a protected floor standing; it is the policy's percentage of those wages at
      most, up to rounding. */
  predicate WithinCaps(debt: int, f: Facts, l: Limits) {
    && 0 < debt <= l.draw <= l.cap <= f.accrued && l.cap <= f.policy.absoluteCap
    && 100 * debt <= f.accrued * f.policy.maxAccrualPct + 50
    && (f.floor > 0 ==> f.basis - debt >= f.floor)
  }

  lemma DrawWithinCaps(p: Org, e: string, amount: Int64, f: Facts, l: Limits)
    requires ValidPolicy(f.policy) && f.accrued >= 0 && AreLimits(l, f.accrued, f.tier, f.policy)
    requires Decide(p, e, amount, f) == ApprovedDraw
    ensures WithinCaps(Outstanding(p.advances, e, p.period) + amount, f, l)
  {
    ApprovedIff(p, e, amount, f, l);
    CapsAreLimits(f.accrued, f.tier, f.policy, l);
  }

  lemma DebtAfterDraw(p: Org, e: string, amount: Int64, f: Facts, key: Option<string>, q: Org)
    requires Decide(p, e, amount, f) == ApprovedDraw && !Replays(p.advances, e, key) && q == RequestAdvance(p, e, amount, f, key)
    ensures StillOwed(q.advances, e) == StillOwed(p.advances, e) + amount
  {
    var a := NewAdvance(p, e, amount, Approved, key);
    assert (p.advances + [a])[..|p.advances|] == p.advances;
    assert q.advances == p.advances + [a];
  }

  /** In every reachable state, right after an approved draw everything the worker owes, the
      draw included, is within the caps. */
  lemma ApprovalWithinCaps(o: Org, steps: seq<Step>, e: string, amount: Int64, f: Facts, key: Option<string>, l: Limits)
    requires Initial(o) && ValidPolicy(f.policy) && f.accrued >= 0 && AreLimits(l, f.accrued, f.tier, f.policy)
    ensures var p := After(o, steps);
            Decide(p, e, amount, f) == ApprovedDraw && !Replays(p.advances, e, key) ==>
              WithinCaps(StillOwed(RequestAdvance(p, e, amount, f, key).advances, e), f, l)
  {
    var p := After(o, steps);
    if Decide(p, e, amount, f) == ApprovedDraw && !Replays(p.advances, e, key) {
      var q := RequestAdvance(p, e, amount, f, key);
      var debt := StillOwed(q.advances, e);
      assert debt == Outstanding(p.advances, e, p.period) + amount by {
        RunKeeps(o, e, steps);
        BalanceAndDebt(p, e);
        DebtAfterDraw(p, e, amount, f, key, q);
      }
      assert WithinCaps(debt, f, l) by { DrawWithinCaps(p, e, amount, f, l); }
    }
  }

  /** With coverage demanded, a request in any reachable state is approved if and only if
      the organisation's currency is NGN and the request fits the worker and the pool the
      organisation has paid in. The pool of an organisation in another currency is never
      looked at: exposure is read in NGN. */
  lemma CoveredDrawIff(o: Org, steps: seq<Step>, e: string, amount: Int64, f: Facts, l: Limits)
    requires Initial(o) && ValidPolicy(f.policy) && f.accrued >= 0 && f.policy.requireFundingCoverage
    requires AreLimits(l, f.accrued, f.tier, f.policy)
    ensures var p := After(o, steps);
            Decide(p, e, amount, f) == ApprovedDraw <==>
            o.currency == NGN && FitsWorker(p, e, amount, f, l) && AccountBalance(p.ledger, Cash(p)) + amount <= 0
  {
    var p := After(o, steps);
    ApprovedIff(p, e, amount, f, l);
    FundingIsDeposits(o, steps, "");
    if o.currency != NGN {
      assert AccountBalance(p.ledger, CashIn(p, NGN)) == 0 by { RunKeeps(o, e, steps); }
    }
  }

  const COVERED_LIMITS := Limits(100, 100, 50, 100)
  const COVERED_FACTS := Facts(100, Healthy, 0, 0, Policy(100, 1000, 1, 0, true), false, false)

  function OrgIn(c: Currency): Org { Org("ORG", c, 0, 0, [], [], []) }

  function FundedRun(): seq<Step> { [Deposit("DEP", 100), Request("EMP", 50, COVERED_FACTS, None)] }

  lemma FundedTables(o: Org, run: seq<Step>)
    requires (o == OrgIn(NGN) || o == OrgIn(USD)) && run == FundedRun()
    ensures var p := After(o, run[..1]); p.advances == [] && p.period == 0 && p.grants == [] && After(o, run) == Perform(p, run[1])
  {
    assert run[..0] == [] && run[..2] == run;
    AfterNext(o, run, 0, o);
    AfterNext(o, run, 1, After(o, run[..1]));
  }

  lemma FundedPool(o: Org, run: seq<Step>)
    requires (o == OrgIn(NGN) || o == OrgIn(USD)) && run == FundedRun()
    ensures var p := After(o, run[..1]); AccountBalance(p.ledger, Cash(p)) == -100
  {
    var first := run[..1];
    FundedTables(o, run);
    CashOverRuns(o, first);
    assert first[..0] == [] && !WasDeposited([], "DEP") && Deposited(first) == 100;
  }

  lemma FundedFits(p: Org)
    requires p.advances == [] && p.period == 0
    ensures AreLimits(COVERED_LIMITS, 100, Healthy, COVERED_FACTS.policy)
    ensures FitsWorker(p, "EMP", 50, COVERED_FACTS, COVERED_LIMITS)
  {
  }

  lemma FundedState(o: Org, run: seq<Step>)
    requires (o == OrgIn(NGN) || o == OrgIn(USD)) && run == FundedRun()
    ensures var p := After(o, run[..1]);
            && p.advances == [] && p.period == 0 && AccountBalance(p.ledger, Cash(p)) == -100
            && FitsWorker(p, "EMP", 50, COVERED_FACTS, COVERED_LIMITS)
            && After(o, run) == Perform(p, run[1])
  {
    FundedTables(o, run);
    FundedPool(o, run);
    FundedFits(After(o, run[..1]));
  }

  /** The same deposit and the same request: approved in NGN, declined in USD. */
  lemma SameRunTwoCurrencies(naira: Org, dollar: Org, run: seq<Step>)
    requires naira == OrgIn(NGN) && dollar == OrgIn(USD) && run == FundedRun()
    ensures After(naira, run).advances == [Advance("EMP", 0, 50, 0, Approved, [], None)]
    ensures After(dollar, run).advances == [Advance("EMP", 0, 50, 0, Declined, [], None)]
  {
    FundedState(naira, run);
    FundedState(dollar, run);
    FundedFits(After(naira, run[..1]));
    CoveredDrawIff(naira, run[..1], "EMP", 50, COVERED_FACTS, COVERED_LIMITS);
    CoveredDrawIff(dollar, run[..1], "EMP", 50, COVERED_FACTS, COVERED_LIMITS);
  }

  // ---------- grants only move forward ----------

  /** A grant keeps its amount; once submitted it is not pending again, and once disbursed
      or failed it stays so. */
  predicate Forward(g: Grant, h: Grant) {
    && h.amount == g.amount
    && (g.status == GrantSubmitted ==> h.status != GrantPending)
    && (g.status == GrantDisbursed || g.status == GrantFailed ==> h.status == g.status)
  }

  lemma {:induction false} TerminateGrants(o: Org, e: string, n: nat)
    requires n <= |o.advances|
    ensures TerminateUpTo(o, e, n).grants == o.grants
  {
    if n > 0 {
      TerminateGrants(o, e, n - 1);
      assert TerminateUpTo(o, e, n) == Resolve(TerminateUpTo(o, e, n - 1), n - 1, e);
    }
  }

  lemma StepForward(o: Org, step: Step, g: nat)
    requires g < |o.grants|
    ensures g < |Perform(o, step).grants| && Forward(o.grants[g], Perform(o, step).grants[g])
  {
    match step
    case Pay(e, period, gross, pref) => SettleFrame(o, e, period, o.nextItem, gross, |o.advances|);
    case Terminate(e) => TerminateGrants(o, e, |o.advances|);
    case _ =>
  }

  /** Through any further run, whatever is submitted, confirmed, reversed or repeated. */
  lemma {:induction false} GrantForward(o: Org, steps: seq<Step>, g: nat)
    requires g < |o.grants|
    ensures g < |After(o, steps).grants| && Forward(o.grants[g], After(o, steps).grants[g])
  {
    if steps != [] {
      GrantForward(o, steps[..|steps| - 1], g);
      StepForward(After(o, steps[..|steps| - 1]), steps[|steps| - 1], g);
    }
  }
}
