/** How advances are recovered: out of payroll, oldest first, and by direct debit. */
module EwaRecovery {
  import opened Money
  import opened Ledger
  import opened Savings
  import opened Ewa
  import opened EwaBooks
  import opened EwaTheorems

  // ---------- the payroll waterfall, in closed form ----------

  predicate Collectible(a: Advance, e: string, period: int) {
    a.employee == e && a.period <= period && a.status == Disbursed
  }

  /** Owed on the first n advances that the run can collect from. */
  function OwedBefore(advances: seq<Advance>, e: string, period: int, n: nat): (owed: nat)
    requires n <= |advances|
  {
    if n == 0 then 0
    else
      OwedBefore(advances, e, period, n - 1) +
      (if Collectible(advances[n - 1], e, period) then Remaining(advances[n - 1]) else 0)
  }

  function Clamp(x: int, hi: nat): (r: nat) {
    if x < 0 then 0 else if x < hi then x else hi
  }

  /** The share of advance k: what is left of the pay once everything older is covered. */
  function Share(advances: seq<Advance>, e: string, period: int, available: int, k: nat): (r: nat)
    requires k < |advances|
  {
    if Collectible(advances[k], e, period)
    then Clamp(available - OwedBefore(advances, e, period, k), Remaining(advances[k])) else 0
  }

  function SettledRow(advances: seq<Advance>, e: string, period: int, available: int, k: nat): (a: Advance)
    requires k < |advances|
  {
    var a, share := advances[k], Share(advances, e, period, available, k);
    if a.employee == e && a.period <= period && a.status == Approved then a.(status := Cancelled)
    else if share == 0 then a
    else a.(recovered := a.recovered + share, status := if a.recovered + share >= a.amount then Settled else a.status)
  }

  lemma {:induction false} OwedGrows(advances: seq<Advance>, e: string, period: int, m: nat, n: nat)
    requires m <= n <= |advances|
    ensures OwedBefore(advances, e, period, m) <= OwedBefore(advances, e, period, n)
    decreases n
  {
    if m < n { OwedGrows(advances, e, period, m, n - 1); }
  }

  /** The loop has treated the first n advances as the closed form says. */
  ghost predicate Flowed(advances: seq<Advance>, s: Settlement, e: string, period: int, available: int, n: nat)
    requires n <= |advances|
  {
    && |s.books.advances| == |advances|
    && s.withheld == Clamp(available, OwedBefore(advances, e, period, n))
    && (forall k | 0 <= k < n :: s.books.advances[k] == SettledRow(advances, e, period, available, k))
    && (forall k | n <= k < |advances| :: s.books.advances[k] == advances[k])
  }

  lemma FlowTurn(advances: seq<Advance>, s: Settlement, e: string, period: int, item: nat, available: int, i: nat)
    requires i < |advances| && Flowed(advances, s, e, period, available, i)
    ensures Flowed(advances, SettleTurn(s, i, e, period, item, available), e, period, available, i + 1)
  {
    var t := SettleTurn(s, i, e, period, item, available);
    assert s.books.advances[i] == advances[i];
    assert t.books.advances == s.books.advances[i := SettledRow(advances, e, period, available, i)];
  }

  /** The loop, with its running total and its early turns, computes the closed form: it
      withholds exactly the smaller of the pay and the debt, and gives every advance the
      share that the older ones leave it. */
  lemma Waterfall(o: Org, e: string, period: int, item: nat, available: int, n: nat, t: Settlement)
    requires n <= |o.advances| && t == SettleUpTo(o, e, period, item, available, n)
    ensures Flowed(o.advances, t, e, period, available, n)
  {
    ghost var inv := (s: Settlement, i: nat) => i <= |o.advances| && Flowed(o.advances, s, e, period, available, i);
    forall s: Settlement, i: nat | i < |s.books.advances| && inv(s, i)
      ensures inv(SettleTurn(s, i, e, period, item, available), i + 1)
    {
      FlowTurn(o.advances, s, e, period, item, available, i);
    }
    SettleInduction(o, e, period, item, available, n, inv);
  }

  /** Oldest first: as soon as one advance gets anything, every older one was paid in full. */
  lemma OldestFirst(advances: seq<Advance>, e: string, period: int, available: int, j: nat, k: nat)
    requires j < k < |advances| && Collectible(advances[j], e, period) && Share(advances, e, period, available, k) > 0
    ensures Share(advances, e, period, available, j) == Remaining(advances[j])
  {
    OwedGrows(advances, e, period, j + 1, k);
  }

  /** So at most one advance is recovered in part. */
  lemma OnePartial(advances: seq<Advance>, e: string, period: int, available: int, j: nat, k: nat)
    requires j < |advances| && k < |advances|
    requires 0 < Share(advances, e, period, available, j) < Remaining(advances[j])
    requires 0 < Share(advances, e, period, available, k) < Remaining(advances[k])
    ensures j == k
  {
    if j < k { OldestFirst(advances, e, period, available, j, k); }
    if k < j { OldestFirst(advances, e, period, available, k, j); }
  }

  /** An advance paid in full is settled, and only then. */
  lemma SettledWhenWhole(advances: seq<Advance>, e: string, period: int, available: int, k: nat)
    requires k < |advances| && Collectible(advances[k], e, period) && AdvanceOk(advances[k])
    requires Share(advances, e, period, available, k) > 0
    ensures var a, b := advances[k], SettledRow(advances, e, period, available, k);
            && b.recovered == a.recovered + Share(advances, e, period, available, k) <= a.amount
            && (b.status == Settled <==> b.recovered == b.amount)
            && (b.status == Settled <==> Share(advances, e, period, available, k) == Remaining(a))
  {
  }

  // ---------- what the waterfall posts ----------

  lemma RecoverPosts(o: Org, i: nat, portion: Int64, x: string)
    requires i < |o.advances| && 0 < portion <= Remaining(o.advances[i])
    requires !o.currency.Unsupported? && !KeyUsed(o, SettleKey(i, o.nextItem))
    ensures LedgerNet(Recover(o, i, o.nextItem, portion).ledger, Payable(o, x)) ==
            LedgerNet(o.ledger, Payable(o, x)) + (if x == o.advances[i].employee then portion else 0)
  {
    var a, key := o.advances[i], SettleKey(i, o.nextItem);
    var p := WithAdvance(o, i, Recovered(a, portion));
    assert !KeyUsed(p, key);
    MoveNet(p, key, Payable(o, a.employee), Receivable(o, a.employee), portion, Payable(o, x));
  }

  lemma CancelPosts(o: Org, i: nat, x: string)
    requires i < |o.advances|
    ensures LedgerNet(CancelAdvance(o, i).ledger, Payable(o, x)) == LedgerNet(o.ledger, Payable(o, x))
  {
    var a := o.advances[i];
    PostAppends(WithAdvance(o, i, a.(status := Cancelled)), CancelKey(i), Cash(o), Receivable(o, a.employee), a.amount, Payable(o, x));
  }

  lemma TurnPosts(s: Settlement, i: nat, e: string, period: int, available: int, x: string, t: Settlement)
    requires i < |s.books.advances| && !s.books.currency.Unsupported?
    requires !KeyUsed(s.books, SettleKey(i, s.books.nextItem))
    requires t == SettleTurn(s, i, e, period, s.books.nextItem, available)
    ensures LedgerNet(t.books.ledger, Payable(s.books, x)) ==
            LedgerNet(s.books.ledger, Payable(s.books, x)) + (if x == e then t.withheld - s.withheld else 0)
  {
    var o, a := s.books, s.books.advances[i];
    var portion := Portion(a, available - s.withheld);
    if !Selected(a, e, period) || (a.status != Approved && portion <= 0) {
      assert t == s;
    } else if a.status == Approved {
      assert t.books == CancelAdvance(o, i) && t.withheld == s.withheld;
      CancelPosts(o, i, x);
    } else {
      assert t.books == Recover(o, i, o.nextItem, portion) && t.withheld == s.withheld + portion;
      RecoverPosts(o, i, portion, x);
    }
  }

  /** The loop stands before advance i with x's books sound, and has debited e by what it
      withheld. */
  ghost predicate Posted(o: Org, e: string, x: string, s: Settlement, i: nat) {
    && Sound(s.books, x, i) && s.books.nextItem == o.nextItem && Payable(s.books, x) == Payable(o, x)
    && LedgerNet(s.books.ledger, Payable(o, x)) == LedgerNet(o.ledger, Payable(o, x)) + (if x == e then s.withheld else 0)
  }

  lemma PostedTurn(o: Org, e: string, period: int, available: int, x: string, s: Settlement, i: nat, t: Settlement)
    requires Posted(o, e, x, s, i) && i < |s.books.advances| && t == SettleTurn(s, i, e, period, o.nextItem, available)
    ensures Posted(o, e, x, t, i + 1)
  {
    assert !KeyUsed(s.books, SettleKey(i, o.nextItem)) by { FreshKey(s.books, SettleKey(i, o.nextItem), i); }
    TurnPosts(s, i, e, period, available, x, t);
    TurnKeeps(s, x, i, e, period, available, t);
    assert Payable(t.books, x) == Payable(s.books, x);
  }

  /** The worker's wage_payable is debited by exactly what was withheld, and nobody else's
      moves. */
  lemma WaterfallPosts(o: Org, e: string, period: int, available: int, n: nat, x: string, t: Settlement)
    requires Invariant(o, x) && n <= |o.advances| && t == SettleUpTo(o, e, period, o.nextItem, available, n)
    ensures LedgerNet(t.books.ledger, Payable(o, x)) ==
            LedgerNet(o.ledger, Payable(o, x)) + (if x == e then t.withheld else 0)
  {
    ghost var inv := (s: Settlement, i: nat) => Posted(o, e, x, s, i);
    forall s: Settlement, i: nat | i < |s.books.advances| && inv(s, i)
      ensures inv(SettleTurn(s, i, e, period, o.nextItem, available), i + 1)
    {
      PostedTurn(o, e, period, available, x, s, i, SettleTurn(s, i, e, period, o.nextItem, available));
    }
    SettleInduction(o, e, period, o.nextItem, available, n, inv);
  }

  // ---------- direct debit ----------

  /** Where an advance stands that nothing but direct debits has touched: attempts numbered
      from 1, each for the whole amount, every one but the last failed. */
  ghost predicate DebitLife(a: Advance) {
    && |a.debits| <= MAX_DEBIT_ATTEMPTS
    && (forall j | 0 <= j < |a.debits| :: a.debits[j].number == j + 1 && a.debits[j].amount == a.amount)
    && (forall j | 0 <= j < |a.debits| - 1 :: a.debits[j].status == DebitFailed)
    && match a.status
       case Disbursed => a.recovered == 0 && (a.debits != [] ==> a.debits[|a.debits| - 1].status != DebitSuccessful)
                         && (|a.debits| == MAX_DEBIT_ATTEMPTS ==> a.debits[|a.debits| - 1].status == DebitPending)
       case Settled => a.recovered == a.amount && a.debits != [] && a.debits[|a.debits| - 1].status == DebitSuccessful
       case WrittenOff => a.recovered == 0 && |a.debits| == MAX_DEBIT_ATTEMPTS && a.debits[|a.debits| - 1].status == DebitFailed
       case _ => a.recovered == 0 && a.debits == []
  }

  /** The step neither takes the advance into a payroll nor ends the worker's employment. */
  predicate LeavesToDebits(step: Step, e: string, period: int) {
    && (step.Pay? ==> step.e != e || step.period < period)
    && (step.Terminate? ==> step.e != e)
  }

  lemma {:induction false} CountFrom(debits: seq<Collection>, s: DebitStatus)
    requires forall j | 0 <= j < |debits| :: debits[j].status == s
    ensures CountDebits(debits, s) == |debits|
    ensures forall t :: t != s ==> CountDebits(debits, t) == 0
  {
    if debits != [] { CountFrom(debits[..|debits| - 1], s); }
  }

  lemma CountSplit(debits: seq<Collection>, t: DebitStatus)
    requires debits != [] && forall j | 0 <= j < |debits| - 1 :: debits[j].status == DebitFailed
    ensures CountDebits(debits, t) ==
            (if t == DebitFailed then |debits| - 1 else 0) + (if debits[|debits| - 1].status == t then 1 else 0)
  {
    CountFrom(debits[..|debits| - 1], DebitFailed);
  }

  lemma {:induction false} LastNumberIsLength(debits: seq<Collection>)
    requires forall j | 0 <= j < |debits| :: debits[j].number == j + 1
    ensures LastNumber(debits) == |debits|
  {
    if debits != [] { LastNumberIsLength(debits[..|debits| - 1]); }
  }

  ghost predicate SameAdvance(a: Advance, b: Advance) {
    b.employee == a.employee && b.period == a.period && b.amount == a.amount && b.clientKey == a.clientKey
  }

  lemma InitiateLife(o: Org, i: nat, authorized: bool)
    requires i < |o.advances| && DebitLife(o.advances[i]) && AdvanceOk(o.advances[i])
    ensures var b := InitiateDebit(o, i, authorized).advances[i]; DebitLife(b) && SameAdvance(o.advances[i], b)
  {
    var a := o.advances[i];
    LastNumberIsLength(a.debits);
    if a.debits != [] { CountSplit(a.debits, DebitPending); }
  }

  lemma SucceedLife(o: Org, i: nat, j: nat)
    requires i < |o.advances| && DebitLife(o.advances[i]) && AdvanceOk(o.advances[i])
    ensures var b := DebitSucceeds(o, i, j).advances[i]; DebitLife(b) && SameAdvance(o.advances[i], b)
  {
  }

  lemma FailLife(o: Org, i: nat, j: nat)
    requires i < |o.advances| && DebitLife(o.advances[i]) && AdvanceOk(o.advances[i])
    ensures var b := DebitFails(o, i, j).advances[i]; DebitLife(b) && SameAdvance(o.advances[i], b)
  {
    if IsPendingDebit(o, i, j) {
      var a := WithDebit(o.advances[i], j, DebitFailed);
      CountSplit(a.debits, DebitFailed);
    }
  }

  lemma {:induction false} TerminateSpares(o: Org, e: string, n: nat, i: nat)
    requires n <= |o.advances| && i < |o.advances| && o.advances[i].employee != e
    ensures TerminateUpTo(o, e, n).advances[i] == o.advances[i]
  {
    if n > 0 {
      TerminateSpares(o, e, n - 1, i);
      assert TerminateUpTo(o, e, n) == Resolve(TerminateUpTo(o, e, n - 1), n - 1, e);
    }
  }

  lemma PaySpares(o: Org, e: string, period: int, gross: Int64, pref: Preference, i: nat)
    requires i < |o.advances| && !Selected(o.advances[i], e, period)
    ensures var p := Perform(o, Pay(e, period, gross, pref)); |p.advances| == |o.advances| && p.advances[i] == o.advances[i]
  {
    Waterfall(o, e, period, o.nextItem, gross, |o.advances|, SettleUpTo(o, e, period, o.nextItem, gross, |o.advances|));
  }

  lemma DebitStepLife(o: Org, step: Step, i: nat)
    requires i < |o.advances| && DebitLife(o.advances[i]) && AdvanceOk(o.advances[i])
    requires step.Initiate? || step.Collect? || step.CollectionFails?
    ensures var p := Perform(o, step);
            i < |p.advances| && DebitLife(p.advances[i]) && SameAdvance(o.advances[i], p.advances[i])
  {
    match step
    case Initiate(k, authorized) => if k == i { InitiateLife(o, i, authorized); }
    case Collect(k, j) => if k == i { SucceedLife(o, i, j); }
    case CollectionFails(k, j) => if k == i { FailLife(o, i, j); }
  }

  lemma SparedLife(o: Org, step: Step, i: nat)
    requires i < |o.advances| && (step.Pay? || step.Terminate?)
    requires LeavesToDebits(step, o.advances[i].employee, o.advances[i].period)
    ensures i < |Perform(o, step).advances| && Perform(o, step).advances[i] == o.advances[i]
  {
    match step
    case Pay(e, period, gross, pref) => PaySpares(o, e, period, gross, pref, i);
    case Terminate(e) => TerminateSpares(o, e, |o.advances|, i);
  }

  lemma StepLife(o: Org, step: Step, i: nat, p: Org)
    requires i < |o.advances| && DebitLife(o.advances[i]) && AdvanceOk(o.advances[i]) && p == Perform(o, step)
    requires LeavesToDebits(step, o.advances[i].employee, o.advances[i].period)
    ensures i < |p.advances| && DebitLife(p.advances[i])
  {
    if step.Pay? || step.Terminate? {
      SparedLife(o, step, i);
    } else if step.Initiate? || step.Collect? || step.CollectionFails? {
      DebitStepLife(o, step, i);
    }
  }

  /** No step adds more than one advance, and a new one has no debits. */
  lemma StepGrows(o: Org, step: Step)
    ensures var p := Perform(o, step);
            && |o.advances| <= |p.advances| <= |o.advances| + 1
            && (|p.advances| > |o.advances| ==> DebitLife(p.advances[|o.advances|]))
  {
    if step.Pay? { PayCount(o, step.e, step.period, step.gross, step.pref); }
  }

  lemma PayCount(o: Org, e: string, period: int, gross: Int64, pref: Preference)
    ensures |Perform(o, Pay(e, period, gross, pref)).advances| == |o.advances|
  {
  }

  predicate LeftToDebits(steps: seq<Step>, e: string, period: int) {
    forall k | 0 <= k < |steps| :: LeavesToDebits(steps[k], e, period)
  }

  /** Every advance left to direct debit, through any run: at most four attempts, numbered
      consecutively, never two pending; settled exactly when one succeeded, and then in
      full; written off exactly after four failures. */
  lemma {:induction false} DebitOnlyRun(o: Org, steps: seq<Step>, i: nat)
    requires Initial(o)
    ensures var s := After(o, steps).advances;
            i < |s| && LeftToDebits(steps, s[i].employee, s[i].period) ==> DebitLife(s[i])
  {
    if steps != [] {
      var n := |steps| - 1;
      var p, q := After(o, steps[..n]), After(o, steps);
      DebitOnlyRun(o, steps[..n], i);
      assert i < |p.advances| ==> AdvanceOk(p.advances[i]) by { RunKeeps(o, "", steps[..n]); }
      DebitOnlyStep(p, steps, i, q);
    }
  }

  lemma DebitOnlyStep(p: Org, steps: seq<Step>, i: nat, q: Org)
    requires steps != [] && q == Perform(p, steps[|steps| - 1])
    requires i < |p.advances| ==> AdvanceOk(p.advances[i])
    requires i < |p.advances| && LeftToDebits(steps[..|steps| - 1], p.advances[i].employee, p.advances[i].period) ==>
               DebitLife(p.advances[i])
    ensures i < |q.advances| && LeftToDebits(steps, q.advances[i].employee, q.advances[i].period) ==> DebitLife(q.advances[i])
  {
    var last := steps[|steps| - 1];
    StepGrows(p, last);
    if i < |p.advances| {
      StepIdentity(p, last, i);
      if LeftToDebits(steps, p.advances[i].employee, p.advances[i].period) { StepLife(p, last, i, q); }
    }
  }

  lemma PayIdentity(o: Org, e: string, period: int, gross: Int64, pref: Preference, i: nat)
    requires i < |o.advances|
    ensures var p := Perform(o, Pay(e, period, gross, pref));
            |p.advances| == |o.advances| && SameAdvance(o.advances[i], p.advances[i])
  {
    Waterfall(o, e, period, o.nextItem, gross, |o.advances|, SettleUpTo(o, e, period, o.nextItem, gross, |o.advances|));
  }

  /** A step never changes whose advance it is, its period, its amount or its client key. */
  lemma StepIdentity(o: Org, step: Step, i: nat)
    requires i < |o.advances|
    ensures i < |Perform(o, step).advances| && SameAdvance(o.advances[i], Perform(o, step).advances[i])
  {
    match step
    case Pay(e, period, gross, pref) => PayIdentity(o, e, period, gross, pref, i);
    case Terminate(e) => TerminateIdentity(o, e, |o.advances|, i);
    case _ =>
  }

  lemma {:induction false} TerminateIdentity(o: Org, e: string, n: nat, i: nat)
    requires n <= |o.advances| && i < |o.advances|
    ensures SameAdvance(o.advances[i], TerminateUpTo(o, e, n).advances[i])
  {
    if n > 0 {
      TerminateIdentity(o, e, n - 1, i);
      assert TerminateUpTo(o, e, n) == Resolve(TerminateUpTo(o, e, n - 1), n - 1, e);
    }
  }

  /** The same in counts, as the collection rows show them. */
  lemma DebitCounts(a: Advance)
    requires DebitLife(a) && a.amount > 0
    ensures |a.debits| <= MAX_DEBIT_ATTEMPTS && CountDebits(a.debits, DebitPending) <= 1
    ensures a.status == WrittenOff <==> CountDebits(a.debits, DebitFailed) == MAX_DEBIT_ATTEMPTS
    ensures a.status == Settled <==> CountDebits(a.debits, DebitSuccessful) == 1
    ensures a.recovered == a.amount <==> a.status == Settled
    ensures a.recovered == 0 <==> a.status != Settled
  {
    if a.debits != [] {
      CountSplit(a.debits, DebitPending);
      CountSplit(a.debits, DebitFailed);
      CountSplit(a.debits, DebitSuccessful);
    }
  }
}
