/** What each operation on advances and grants writes, row by row and posting by posting,
    read off the tables before it. */
module EwaEffects {
  import opened Wrappers
  import opened Money
  import opened Ledger
  import opened Eligibility
  import opened Savings
  import opened Ewa
  import opened EwaBooks
  import opened EwaReceivable
  import opened EwaRecovery
  import opened EwaDebits
  import opened EwaTheorems

  /** The ledger has one new transaction: this debit and this credit, under this key. */
  ghost predicate Posted(o: Org, p: Org, key: Key, dr: Account, cr: Account, amount: Int64) {
    p.ledger == o.ledger +
      [Posting(o.id, Some(key), [Entry(dr, Debit, amount, o.currency), Entry(cr, Credit, amount, o.currency)])]
  }

  /** Nothing but advances and ledger has changed. */
  predicate OnlyAdvances(o: Org, p: Org) {
    p == o.(advances := p.advances, ledger := p.ledger)
  }

  predicate OnlyGrants(o: Org, p: Org) {
    p == o.(grants := p.grants, ledger := p.ledger)
  }

  lemma MovePosts(o: Org, p: Org, key: Key, dr: Account, cr: Account, amount: Int64, q: Org)
    requires p.ledger == o.ledger && p.id == o.id && p.currency == o.currency
    requires amount > 0 && !o.currency.Unsupported? && !KeyUsed(o, key) && q == Move(p, key, dr, cr, amount)
    ensures Posted(o, q, key, dr, cr, amount) && q == p.(ledger := q.ledger)
  {
    assert !KeyUsed(p, key);
    MoveAppends(p, key, dr, cr, amount);
  }

  // ---------- requests ----------

  /** The employee has an earlier request under this client key. */
  predicate IsRepeat(o: Org, e: string, key: Option<string>) {
    key.Some? && exists i :: 0 <= i < |o.advances| && o.advances[i].employee == e && o.advances[i].clientKey == key
  }

  lemma RepeatIsReplay(o: Org, e: string, key: Option<string>)
    ensures Replays(o.advances, e, key) <==> IsRepeat(o, e, key)
  {
    if i :| 0 <= i < |o.advances| && SameRequest(o.advances[i], e, key) { assert o.advances[i].employee == e; }
    if IsRepeat(o, e, key) {
      var i :| 0 <= i < |o.advances| && o.advances[i].employee == e && o.advances[i].clientKey == key;
      assert SameRequest(o.advances[i], e, key);
    }
  }

  /** A request writes nothing when it repeats one of the same employee or is an error.
      Otherwise it adds one row: approved, with the draw debited to the receivable, if it
      fits the limits, and declined if it does not. */
  lemma RequestEffect(o: Org, e: string, amount: Int64, f: Facts, key: Option<string>, l: Limits, p: Org)
    requires Invariant(o, e) && ValidPolicy(f.policy) && f.accrued >= 0 && AreLimits(l, f.accrued, f.tier, f.policy)
    requires p == Perform(o, Request(e, amount, f, key))
    ensures var computable := InRange(f.accrued * f.policy.maxAccrualPct) && InRange(Outstanding(o.advances, e, o.period));
            var fits := FitsWorker(o, e, amount, f, l) &&
                        (f.policy.requireFundingCoverage ==> AccountBalance(o.ledger, CashIn(o, NGN)) + amount <= 0);
            if IsRepeat(o, e, key) || amount <= 0 || (!f.earlyBlock && !computable) then p == o
            else
              && OnlyAdvances(o, p)
              && p.advances == o.advances + [Advance(e, o.period, amount, 0, if fits then Approved else Declined, [], key)]
              && (if fits then Posted(o, p, AdvanceKey(|o.advances|), Receivable(o, e), Cash(o), amount) else p.ledger == o.ledger)
  {
    RepeatIsReplay(o, e, key);
    ApprovedIff(o, e, amount, f, l);
    ErrorIff(o, e, amount, f);
    if !IsRepeat(o, e, key) && Decide(o, e, amount, f) == ApprovedDraw {
      FreshKey(o, AdvanceKey(|o.advances|), 0);
      MovePosts(o, WithNewAdvance(o, NewAdvance(o, e, amount, Approved, key)),
                AdvanceKey(|o.advances|), Receivable(o, e), Cash(o), amount, p);
    }
  }

  // ---------- the life of one advance ----------

  lemma DisburseEffect(o: Org, i: nat)
    ensures Perform(o, Disburse(i)) ==
            if i < |o.advances| && o.advances[i].status == Approved
            then o.(advances := o.advances[i := o.advances[i].(status := Disbursed)]) else o
  {
  }

  /** Only an advance that is approved and not yet paid out is cancelled; the draw is taken
      back in full. */
  lemma CancelEffect(o: Org, x: string, i: nat, p: Org)
    requires Invariant(o, x) && p == Perform(o, Cancel(i))
    ensures if i < |o.advances| && o.advances[i].status == Approved then
              var a := o.advances[i];
              && OnlyAdvances(o, p) && p.advances == o.advances[i := a.(status := Cancelled)]
              && Posted(o, p, CancelKey(i), Cash(o), Receivable(o, a.employee), a.amount)
            else p == o
  {
    if i < |o.advances| && o.advances[i].status == Approved {
      var a := o.advances[i];
      assert AdvanceOk(a);
      FreshKey(o, CancelKey(i), 0);
      MovePosts(o, WithAdvance(o, i, a.(status := Cancelled)), CancelKey(i), Cash(o), Receivable(o, a.employee), a.amount, p);
    }
  }

  // ---------- termination ----------

  /** What a termination of e makes of row a. */
  predicate Ended(a: Advance, b: Advance, e: string) {
    if a.employee != e then b == a
    else
      match a.status
      case Approved => b == a.(status := Cancelled)
      case Disbursed => b == a.(status := WrittenOff)
      case _ => b == a
  }

  lemma {:induction false} TerminateTo(o: Org, e: string, n: nat, k: nat, q: Org)
    requires n <= |o.advances| && k < n && q == TerminateUpTo(o, e, n)
    ensures Ended(o.advances[k], q.advances[k], e)
  {
    var p := TerminateUpTo(o, e, n - 1);
    assert q == Resolve(p, n - 1, e);
    if k < n - 1 { TerminateTo(o, e, n - 1, k, p); } else { TerminateReaches(o, e, n - 1, k, p); }
  }

  /** The worker's approved rows are cancelled and the disbursed ones written off, every
      other row is as before, and none of the worker's is left open. */
  lemma TerminateRows(o: Org, e: string)
    ensures var p := Perform(o, Terminate(e));
            && |p.advances| == |o.advances| && p.grants == o.grants
            && (forall k | 0 <= k < |o.advances| :: Ended(o.advances[k], p.advances[k], e))
            && forall k | 0 <= k < |o.advances| :: p.advances[k].employee == e ==>
                 p.advances[k].status != Approved && p.advances[k].status != Disbursed
  {
    var n, p := |o.advances|, Perform(o, Terminate(e));
    TerminateGrants(o, e, n);
    forall k | 0 <= k < n ensures Ended(o.advances[k], p.advances[k], e) { TerminateTo(o, e, n, k, p); }
  }

  /** The amounts of the worker's open advances. */
  function OpenAmounts(advances: seq<Advance>, e: string): int {
    if advances == [] then 0
    else
      var a := advances[|advances| - 1];
      OpenAmounts(advances[..|advances| - 1], e) +
      (if a.employee == e && (a.status == Approved || a.status == Disbursed) then a.amount else 0)
  }

  lemma {:induction false} NothingOwed(advances: seq<Advance>, e: string)
    requires forall k | 0 <= k < |advances| :: advances[k].employee == e ==> !IsOpen(advances[k])
    ensures StillOwed(advances, e) == 0
  {
    if advances != [] { NothingOwed(advances[..|advances| - 1], e); }
  }

  lemma {:induction false} OpenSplits(advances: seq<Advance>, e: string, n: nat)
    requires n <= |advances| && forall k | 0 <= k < n :: AdvanceOk(advances[k])
    ensures OpenAmounts(advances[..n], e) == StillOwed(advances[..n], e) + RecoveredInPart(advances, e, n)
  {
    if n > 0 {
      OpenSplits(advances, e, n - 1);
      assert advances[..n][..n - 1] == advances[..n - 1] && AdvanceOk(advances[n - 1]);
    }
  }

  lemma TerminateFigures(p: Org, e: string, q: Org)
    requires RowsOk(p) && q == Perform(p, Terminate(e))
    ensures StillOwed(q.advances, e) == 0
    ensures ExcessOf(q.advances, e) == ExcessOf(p.advances, e) + OpenAmounts(p.advances, e) - StillOwed(p.advances, e)
  {
    var n := |p.advances|;
    TerminateRows(p, e);
    NothingOwed(q.advances, e);
    TerminateExcess(p, e, n, e, q);
    assert forall k | 0 <= k < n :: AdvanceOk(p.advances[k]);
    OpenSplits(p.advances, e, n);
    assert p.advances[..n] == p.advances;
  }

  /** In every reachable state a termination lowers the worker's receivable by the amounts of
      the worker's open advances. */
  lemma TerminateLowers(o: Org, steps: seq<Step>, e: string, p: Org, q: Org)
    requires Initial(o) && p == After(o, steps) && q == Perform(p, Terminate(e))
    ensures Balance(q, e) == Balance(p, e) - OpenAmounts(p.advances, e)
  {
    assert BalanceIs(p, e) && RowsOk(p) by { RunKeeps(o, e, steps); BalanceAndDebt(p, e); }
    assert BalanceIs(q, e) by { RunKeeps(o, e, steps); StepKeeps(p, e, Terminate(e), q); BalanceAndDebt(q, e); }
    TerminateFigures(p, e, q);
  }

  // ---------- direct debits ----------

  ghost function DebitsIn(debits: seq<Collection>, s: DebitStatus): set<nat> {
    set j: nat | j < |debits| && debits[j].status == s
  }

  lemma LastDebit(debits: seq<Collection>, s: DebitStatus, n: nat)
    requires |debits| == n + 1
    ensures DebitsIn(debits, s) == DebitsIn(debits[..n], s) + (if debits[n].status == s then {n} else {})
  {
  }

  lemma {:induction false} DebitsCounted(debits: seq<Collection>, s: DebitStatus)
    ensures CountDebits(debits, s) == |DebitsIn(debits, s)|
  {
    if debits == [] {
      assert DebitsIn(debits, s) == {};
    } else {
      DebitsCounted(debits[..|debits| - 1], s);
      LastDebit(debits, s, |debits| - 1);
    }
  }

  predicate IsHighest(n: int, debits: seq<Collection>) {
    && (forall j | 0 <= j < |debits| :: debits[j].number <= n)
    && (n == 0 || exists j :: 0 <= j < |debits| && debits[j].number == n)
  }

  lemma {:induction false} LastNumberIsHighest(debits: seq<Collection>)
    ensures LastNumber(debits) >= 0 && IsHighest(LastNumber(debits), debits)
  {
    if debits != [] {
      var n := |debits| - 1;
      LastNumberIsHighest(debits[..n]);
      var m := LastNumber(debits[..n]);
      if debits[n].number > m {
        assert debits[n].number == LastNumber(debits);
      } else if m != 0 {
        var j :| 0 <= j < n && debits[..n][j].number == m;
        assert debits[j].number == m;
      }
    }
  }

  /** An attempt is made if and only if it is authorized, the advance is disbursed with
      something left to recover, and no other attempt is pending. It is for all that is
      left, and numbered after the highest so far. */
  lemma InitiateEffect(o: Org, x: string, i: nat, authorized: bool, highest: int)
    requires Invariant(o, x) && i < |o.advances| && highest >= 0 && IsHighest(highest, o.advances[i].debits)
    ensures var a, p := o.advances[i], Perform(o, Initiate(i, authorized));
            if authorized && a.status == Disbursed && a.recovered < a.amount
               && (forall j | 0 <= j < |a.debits| :: a.debits[j].status != DebitPending) then
              p == o.(advances := o.advances[i := a.(
                debits := a.debits + [Collection(highest + 1, a.amount - a.recovered, DebitPending)])])
            else p == o
  {
    var a := o.advances[i];
    assert AdvanceOk(a);
    LastNumberIsHighest(a.debits);
    if j :| 0 <= j < |a.debits| && a.debits[j].status == DebitPending {
      PendingCounts(a.debits, j);
    } else {
      DebitsCounted(a.debits, DebitPending);
      assert DebitsIn(a.debits, DebitPending) == {};
    }
  }

  /** A pending debit that is for no more than is owed is recorded as successful and posted;
      the advance is settled when that recovers it in full. Any other success writes
      nothing. */
  lemma CollectEffect(o: Org, x: string, i: nat, j: nat, p: Org)
    requires Invariant(o, x) && i < |o.advances| && j < |o.advances[i].debits| && p == Perform(o, Collect(i, j))
    ensures var a, d := o.advances[i], o.advances[i].debits[j];
            if d.status == DebitPending && a.recovered + d.amount <= a.amount then
              && OnlyAdvances(o, p)
              && p.advances == o.advances[i := a.(
                   debits := a.debits[j := d.(status := DebitSuccessful)], recovered := a.recovered + d.amount,
                   status := if a.status == Disbursed && a.recovered + d.amount == a.amount then Settled else a.status)]
              && Posted(o, p, CollectKey(i, j), Cash(o), Receivable(o, a.employee), d.amount)
            else p == o
  {
    var a, d := o.advances[i], o.advances[i].debits[j];
    assert AdvanceOk(a);
    if d.status == DebitPending && a.recovered + d.amount <= a.amount {
      FreshKey(o, CollectKey(i, j), 0);
      MovePosts(o, WithAdvance(o, i, CollectedBy(a, j)), CollectKey(i, j), Cash(o), Receivable(o, a.employee), d.amount, p);
    }
  }

  /** A pending debit that fails is marked so; the fourth failure writes a disbursed advance
      off. */
  lemma FailEffect(o: Org, x: string, i: nat, j: nat, failed: seq<Collection>, p: Org)
    requires Invariant(o, x) && i < |o.advances| && j < |o.advances[i].debits| && p == Perform(o, CollectionFails(i, j))
    requires failed == o.advances[i].debits[j := o.advances[i].debits[j].(status := DebitFailed)]
    ensures var a := o.advances[i];
            if a.debits[j].status != DebitPending then p == o
            else if a.status == Disbursed && |DebitsIn(failed, DebitFailed)| >= 4 then
              && OnlyAdvances(o, p) && p.advances == o.advances[i := a.(debits := failed, status := WrittenOff)]
              && Posted(o, p, WriteOffKey(i), WriteOffs(o), Receivable(o, a.employee), a.amount)
            else p == o.(advances := o.advances[i := a.(debits := failed)])
  {
    var a := o.advances[i];
    assert AdvanceOk(a);
    DebitsCounted(failed, DebitFailed);
    if a.debits[j].status == DebitPending && a.status == Disbursed && |DebitsIn(failed, DebitFailed)| >= 4 {
      FreshKey(o, WriteOffKey(i), 0);
      var b := a.(debits := failed, status := WrittenOff);
      assert o.advances[i := a.(debits := failed)][i := b] == o.advances[i := b];
      MovePosts(o, WithAdvance(o, i, b), WriteOffKey(i), WriteOffs(o), Receivable(o, a.employee), a.amount, p);
    }
  }

  // ---------- payroll ----------

  lemma PaySucceeds(o: Org, e: string, period: int, gross: Int64, pref: Preference, left: Int64)
    requires gross >= 0
    requires left == gross - Clamp(gross, OwedBefore(o.advances, e, period, |o.advances|))
    ensures PayItem(o, e, period, gross, pref).Err? <==>
            left > 0 && pref.enabled && pref.mode == FixedPercent && pref.fixedPercent > 0 && !InRange(left * pref.fixedPercent)
  {
    Waterfall(o, e, period, o.nextItem, gross, |o.advances|, SettleUpTo(o, e, period, o.nextItem, gross, |o.advances|));
    if left > 0 {
      var wanted := ElectionExists(left, pref);
      DivertedIsElected(left, pref, wanted);
    }
  }

  lemma PayWithRows(o: Org, e: string, period: int, gross: Int64, d: Int64, p: Org)
    requires p == PayWith(o, e, period, gross, d)
    ensures p == o.(advances := p.advances, ledger := p.ledger, nextItem := o.nextItem + 1)
    ensures |p.advances| == |o.advances|
    ensures forall k | 0 <= k < |o.advances| :: p.advances[k] == SettledRow(o.advances, e, period, gross, k)
  {
    var n := |o.advances|;
    Waterfall(o, e, period, o.nextItem, gross, n, SettleUpTo(o, e, period, o.nextItem, gross, n));
    SettleFrame(o, e, period, o.nextItem, gross, n);
  }

  /** A paid item treats every advance as the waterfall's closed form says, and is closed;
      nothing is written if the savings election overflows. */
  lemma PayRows(o: Org, e: string, period: int, gross: Int64, pref: Preference, left: Int64, p: Org)
    requires gross >= 0 && p == Perform(o, Pay(e, period, gross, pref))
    requires left == gross - Clamp(gross, OwedBefore(o.advances, e, period, |o.advances|))
    ensures if left > 0 && pref.enabled && pref.mode == FixedPercent && pref.fixedPercent > 0
               && !InRange(left * pref.fixedPercent) then p == o
            else
              && p == o.(advances := p.advances, ledger := p.ledger, nextItem := o.nextItem + 1)
              && |p.advances| == |o.advances|
              && forall k | 0 <= k < |o.advances| :: p.advances[k] == SettledRow(o.advances, e, period, gross, k)
  {
    PaySucceeds(o, e, period, gross, pref, left);
    var paid := PayItem(o, e, period, gross, pref);
    if paid.Ok? { PayWithRows(o, e, period, gross, paid.value.slip.diverted, p); }
  }

  // ---------- grants ----------

  /** A grant is made if and only if the amount is positive, the employee is eligible, and
      with coverage on the organisation has paid in that much more than it has given out. */
  lemma IssueEffect(o: Org, x: string, amount: Int64, coverage: bool, eligible: bool, p: Org)
    requires Invariant(o, x) && p == Perform(o, Issue(amount, coverage, eligible))
    ensures if amount > 0 && eligible && (coverage ==> AccountBalance(o.ledger, Cash(o)) + amount <= 0) then
              && OnlyGrants(o, p) && p.grants == o.grants + [Grant(amount, GrantPending)]
              && Posted(o, p, GrantKey(|o.grants|), GrantExpense(o), Cash(o), amount)
            else p == o
  {
    if amount > 0 && eligible && (coverage ==> AccountBalance(o.ledger, Cash(o)) + amount <= 0) {
      FreshKey(o, GrantKey(|o.grants|), 0);
      MovePosts(o, o.(grants := o.grants + [Grant(amount, GrantPending)]),
                GrantKey(|o.grants|), GrantExpense(o), Cash(o), amount, p);
    }
  }

  /** Whether step is news of grant g that is still open to it. */
  predicate IsGrantNews(o: Org, step: Step, g: nat) {
    && g < |o.grants|
    && match o.grants[g].status
       case GrantPending => step == Submit(g) || step == Confirm(g) || step == Reverse(g)
       case GrantSubmitted => step == Confirm(g) || step == Reverse(g)
       case _ => false
  }

  /** A pending grant may be submitted, one that is not resolved disbursed or failed, and only
      a failure posts: it takes the expense back. Everything else writes nothing. */
  lemma GrantEffect(o: Org, x: string, step: Step, g: nat, p: Org)
    requires Invariant(o, x) && p == Perform(o, step) && (step == Submit(g) || step == Confirm(g) || step == Reverse(g))
    ensures if !IsGrantNews(o, step, g) then p == o
            else
              var now := if step.Submit? then GrantSubmitted else if step.Confirm? then GrantDisbursed else GrantFailed;
              && OnlyGrants(o, p) && p.grants == o.grants[g := o.grants[g].(status := now)]
              && (if step.Reverse? then Posted(o, p, GrantReversalKey(g), Cash(o), GrantExpense(o), o.grants[g].amount)
                  else p.ledger == o.ledger)
  {
    if step.Reverse? && IsGrantNews(o, step, g) {
      FreshKey(o, GrantReversalKey(g), 0);
      MovePosts(o, o.(grants := o.grants[g := o.grants[g].(status := GrantFailed)]),
                GrantReversalKey(g), Cash(o), GrantExpense(o), o.grants[g].amount, p);
    }
  }
}
