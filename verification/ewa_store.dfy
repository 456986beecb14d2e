/** The earned-wage tables as the services update them, row by row. Every method is one
    transaction and is proved to be the operation of the same name in Ewa. */
module EwaStore {
  import opened Wrappers
  import opened Money
  import opened Ledger
  import opened Eligibility
  import opened Ewa
  import opened EwaBooks
  import EwaRecovery
  import EwaTheorems

  type Supported = c: Currency | !c.Unsupported? witness NGN

  /** An employee record: still employed, and still able to log in. */
  datatype Standing = Standing(active: bool, login: bool)

  datatype Cas = Won | Stale | Illegal

  /** What outstandingTx reads off the worker's advances. */
  datatype Position = Position(outstanding: Int64, recoverable: Int64, draws: nat)

  /** The draws of one period that count against its limit. */
  function DrawsIn(advances: seq<Advance>, e: string, period: int): (n: nat) {
    if advances == [] then 0
    else
      var a := advances[|advances| - 1];
      DrawsIn(advances[..|advances| - 1], e, period) +
      (if a.employee == e && a.period == period && (a.status == Approved || a.status == Disbursed || a.status == Settled)
       then 1 else 0)
  }

  function OwedUpTo(advances: seq<Advance>, e: string, period: int, n: nat): (owed: nat)
    requires n <= |advances|
  {
    if n == 0 then 0
    else OwedUpTo(advances, e, period, n - 1) + (if Selected(advances[n - 1], e, period) then Remaining(advances[n - 1]) else 0)
  }

  class Store {
    const id: string
    const currency: Supported
    const books: LedgerStore<Key>
    var employees: map<string, Standing>
    var period: int
    var nextItem: nat
    var advances: seq<Advance>
    var grants: seq<Grant>

    constructor (id: string, currency: Supported, period: int, employees: map<string, Standing>)
      ensures this.employees == employees
      ensures Initial(State()) && State().id == id && State().currency == currency && fresh(books)
    {
      this.id, this.currency, this.period, this.employees := id, currency, period, employees;
      nextItem, advances, grants := 0, [], [];
      books := new LedgerStore<Key>();
    }

    function State(): Org
      reads this, books
    {
      Org(id, currency, period, nextItem, advances, grants, books.transactions)
    }

    /** Every ledger write of the services: one debit and one credit under a key. */
    method PostMovement(key: Key, dr: Account, cr: Account, amount: Int64) returns (r: PostResult<Key>)
      modifies books`transactions
      ensures State() == Move(old(State()), key, dr, cr, amount)
      ensures r.Posted? <==> IsValidPosting(Movement(old(State()), key, dr, cr, amount))
    {
      r := books.PostTransaction(Movement(State(), key, dr, cr, amount));
    }

    /** TransitionAdvance: an edge the state machine lacks is an error; otherwise a
        compare-and-swap on the status column. */
    method TransitionAdvance(i: nat, from: AdvanceStatus, to: AdvanceStatus) returns (r: Cas)
      requires i < |advances|
      modifies this`advances
      ensures r == if !CanTransitionAdvance(from, to) then Illegal else if old(advances)[i].status == from then Won else Stale
      ensures advances == if r == Won then old(advances)[i := old(advances)[i].(status := to)] else old(advances)
    {
      if !CanTransitionAdvance(from, to) { return Illegal; }
      if advances[i].status != from { return Stale; }
      advances := advances[i := advances[i].(status := to)];
      return Won;
    }

    method ConfirmDisbursed(i: nat)
      modifies this`advances
      ensures State() == Ewa.ConfirmDisbursed(old(State()), i)
    {
      if i < |advances| { var _ := TransitionAdvance(i, Approved, Disbursed); }
    }

    method CancelAdvance(i: nat)
      modifies this`advances, books`transactions
      ensures State() == Ewa.CancelAdvance(old(State()), i)
    {
      if i >= |advances| { return; }
      var swapped := TransitionAdvance(i, Approved, Cancelled);
      if swapped != Won { return; }
      var _ := PostMovement(CancelKey(i), Cash(State()), Receivable(State(), advances[i].employee), advances[i].amount);
    }

    method WriteOffAdvance(i: nat)
      modifies this`advances, books`transactions
      ensures State() == Ewa.WriteOffAdvance(old(State()), i)
    {
      if i >= |advances| { return; }
      var swapped := TransitionAdvance(i, Disbursed, WrittenOff);
      if swapped != Won { return; }
      var _ := PostMovement(WriteOffKey(i), WriteOffs(State()), Receivable(State(), advances[i].employee), advances[i].amount);
    }

    /** EmployeeTerminationService.Terminate: an unknown employee is an error. Otherwise the
        employee and the login are deactivated, the login only together with the employee,
        and every open advance is resolved. */
    method Terminate(e: string) returns (found: bool)
      modifies this`employees, this`advances, books`transactions
      ensures found <==> e in old(employees)
      ensures State() == if found then TerminateUpTo(old(State()), e, |old(advances)|) else old(State())
      ensures employees == if !found || !old(employees)[e].active then old(employees)
                           else old(employees)[e := Standing(false, false)]
    {
      if e !in employees { return false; }
      if employees[e].active { employees := employees[e := Standing(false, false)]; }
      var n := |advances|;
      ghost var start := State();
      for i := 0 to n
        invariant |advances| == n == |start.advances|
        invariant State() == TerminateUpTo(start, e, i)
        invariant employees == if !old(employees)[e].active then old(employees) else old(employees)[e := Standing(false, false)]
      {
        ghost var before := State();
        if advances[i].employee == e {
          if advances[i].status == Approved { CancelAdvance(i); } else { WriteOffAdvance(i); }
        }
        assert State() == Resolve(before, i, e);
      }
      return true;
    }

    /** One turn of the settlement loop for an open advance: what it withheld. */
    method SettleAdvance(i: nat, item: nat, remaining: Int64) returns (portion: Int64)
      requires i < |advances|
      modifies this`advances, books`transactions
      ensures portion >= 0 && (portion > 0 ==> portion <= remaining)
      ensures forall withheld: Int64, available: Int64 | available - withheld == remaining ::
                SettleOne(Settlement(old(State()), withheld), i, item, available) ==
                Settlement(State(), withheld + portion)
    {
      var a := advances[i];
      if a.status == Approved {
        CancelAdvance(i);
        return 0;
      }
      var owed := Remaining(a);
      if owed <= 0 { return 0; }
      portion := owed;
      if remaining < owed { portion := remaining; }
      if portion <= 0 { return 0; }
      ghost var before := State();
      var _ := PostMovement(SettleKey(i, item), Payable(State(), a.employee), Receivable(State(), a.employee), portion);
      var recovered := AddChecked(a.recovered, portion);
      advances := advances[i := a.(recovered := recovered.value)];
      if recovered.value >= a.amount { var _ := TransitionAdvance(i, Disbursed, Settled); }
      assert State() == Recover(before, i, item, portion);
    }

    /** SettleAdvancesForPayrollItem; neither of its running totals can overflow. */
    method SettleAdvancesForPayrollItem(e: string, upTo: int, item: nat, available: Int64) returns (withheld: Int64)
      modifies this`advances, books`transactions
      ensures Settlement(State(), withheld) == SettleUpTo(old(State()), e, upTo, item, available, |old(advances)|)
    {
      var n := |advances|;
      ghost var start := State();
      var remaining := available;
      withheld := 0;
      for i := 0 to n
        invariant |advances| == n == |start.advances|
        invariant Settlement(State(), withheld) == SettleUpTo(start, e, upTo, item, available, i)
        invariant 0 <= withheld && remaining == available - withheld && (withheld > 0 ==> remaining >= 0)
      {
        ghost var s := Settlement(State(), withheld);
        if Selected(advances[i], e, upTo) {
          var portion := SettleAdvance(i, item, remaining);
          assert SettleOne(s, i, item, available) == Settlement(State(), withheld + portion);
          var sum := AddChecked(withheld, portion);
          var rest := SubChecked(remaining, portion);
          withheld, remaining := sum.value, rest.value;
        }
        assert Settlement(State(), withheld) == SettleTurn(s, i, e, upTo, item, available);
      }
    }

    /** The posting of DivertSavingsForPayrollItem; then the item is complete. */
    method CloseItem(e: string, d: Int64)
      modifies this`nextItem, books`transactions
      ensures State() == Close(old(State()), e, d)
    {
      if d > 0 { var _ := PostMovement(SavingsKey(nextItem), Payable(State(), e), SavingsOf(State(), e), d); }
      nextItem := nextItem + 1;
    }

    /** A failed transaction leaves the tables as they were. */
    method Rollback(o: Org)
      requires o.id == id && o.currency == currency
      modifies this, books`transactions
      ensures State() == o && employees == old(employees)
    {
      period, nextItem, advances, grants := o.period, o.nextItem, o.advances, o.grants;
      books.transactions := o.ledger;
    }

    /** outstandingTx's first query: the period's draws. */
    method CountDraws(e: string) returns (draws: nat)
      ensures draws == DrawsIn(advances, e, period)
    {
      draws := 0;
      for i := 0 to |advances|
        invariant draws == DrawsIn(advances[..i], e, period)
      {
        var a := advances[i];
        assert advances[..i + 1][..i] == advances[..i];
        if a.employee == e && a.period == period && (a.status == Approved || a.status == Disbursed || a.status == Settled) {
          draws := draws + 1;
        }
      }
      assert advances[..|advances|] == advances;
    }

    /** outstandingTx: what is owed, what payroll can recover of it, and the period's draws,
        summed with overflow checks; the second sum never overflows unless the first does. */
    method OutstandingTx(e: string) returns (r: Result<Position>)
      ensures r.Ok? <==> InRange(Outstanding(advances, e, period))
      ensures r.Ok? ==> r.value.outstanding == Outstanding(advances, e, period)
      ensures r.Ok? ==> r.value.recoverable == EwaRecovery.OwedBefore(advances, e, period, |advances|)
      ensures r.Ok? ==> r.value.draws == DrawsIn(advances, e, period)
    {
      var draws := CountDraws(e);
      var total: Int64, recoverable: Int64 := 0, 0;
      for i := 0 to |advances|
        invariant total == OwedUpTo(advances, e, period, i)
        invariant recoverable == EwaRecovery.OwedBefore(advances, e, period, i) <= total
      {
        var a := advances[i];
        var owed := Remaining(a);
        if Selected(a, e, period) {
          var next := AddChecked(total, owed);
          if next.Err? {
            OwedUpToGrows(advances, e, period, i + 1, |advances|);
            OwedUpToIs(advances, e, period, |advances|);
            return Err(next.error);
          }
          total := next.value;
          if a.status == Disbursed {
            var sum := AddChecked(recoverable, owed);
            recoverable := sum.value;
          }
        }
      }
      OwedUpToIs(advances, e, period, |advances|);
      return Ok(Position(total, recoverable, draws));
    }

    /** The row of an earlier request under the same client key, if there is one. */
    method FindReplay(e: string, key: Option<string>) returns (found: bool)
      ensures found <==> Replays(advances, e, key)
    {
      for i := 0 to |advances|
        invariant forall j | 0 <= j < i :: !SameRequest(advances[j], e, key)
      {
        if SameRequest(advances[i], e, key) { return true; }
      }
      return false;
    }

    /** RequestAdvance; None: a replay, which returns the earlier row and writes nothing. */
    method RequestAdvance(e: string, amount: Int64, f: Facts, key: Option<string>) returns (d: Option<Decision>)
      modifies this`advances, books`transactions
      ensures d == if Replays(old(advances), e, key) then None else Some(Decide(old(State()), e, amount, f))
      ensures State() == Ewa.RequestAdvance(old(State()), e, amount, f, key)
    {
      var replay := FindReplay(e, key);
      if replay { return None; }
      if amount <= 0 { return Some(RequestError); }
      var approved := false;
      if !f.earlyBlock {
        var cap := PolicyCap(f.accrued, f.policy);
        if cap.Err? { return Some(RequestError); }
        var debt := OutstandingTx(e);
        if debt.Err? { return Some(RequestError); }
        var exposure := AccountBalance(books.transactions, CashIn(State(), NGN));
        var available :=
          Available(TierCap(f.tier, cap.value, f.policy), debt.value.outstanding, f.basis, f.floor, f.policy, exposure);
        approved := Approves(amount, available, f.policy, f.lateBlock);
      }
      var i := |advances|;
      advances := advances + [NewAdvance(State(), e, amount, if approved then Approved else Declined, key)];
      if approved { var _ := PostMovement(AdvanceKey(i), Receivable(State(), e), Cash(State()), amount); }
      return Some(if approved then ApprovedDraw else DeclinedDraw);
    }

    /** InitiateD2CCollection: MAX(attempt_number) + 1, refused while one is pending. */
    method InitiateDebit(i: nat, authorized: bool)
      modifies this`advances
      ensures State() == Ewa.InitiateDebit(old(State()), i, authorized)
    {
      if i >= |advances| || !authorized || advances[i].status != Disbursed || Remaining(advances[i]) <= 0 { return; }
      var a := advances[i];
      var last, pending := 0, 0;
      for j := 0 to |a.debits|
        invariant last == LastNumber(a.debits[..j]) && pending == CountDebits(a.debits[..j], DebitPending)
      {
        assert a.debits[..j + 1][..j] == a.debits[..j];
        if a.debits[j].number > last { last := a.debits[j].number; }
        if a.debits[j].status == DebitPending { pending := pending + 1; }
      }
      assert a.debits[..|a.debits|] == a.debits;
      if pending > 0 { return; }
      advances := advances[i := a.(debits := a.debits + [Collection(last + 1, Remaining(a), DebitPending)])];
    }

    method ConfirmCollectionSuccess(i: nat, j: nat)
      modifies this`advances, books`transactions
      ensures State() == DebitSucceeds(old(State()), i, j)
    {
      if !IsPendingDebit(State(), i, j) { return; }
      var a := advances[i];
      var x := a.debits[j].amount;
      var recovered := AddChecked(a.recovered, x);
      // An overflow, the posting's rules and the table's constraints all roll back.
      if recovered.Err? || x <= 0 || !(0 <= recovered.value <= a.amount) { return; }
      ghost var before := State();
      advances := advances[i := WithDebit(a, j, DebitSuccessful).(recovered := recovered.value)];
      if recovered.value >= a.amount { var _ := TransitionAdvance(i, Disbursed, Settled); }
      assert State() == WithAdvance(before, i, CollectedBy(a, j));
      var _ := PostMovement(CollectKey(i, j), Cash(State()), Receivable(State(), a.employee), x);
    }

    static method CountFailures(debits: seq<Collection>) returns (failed: nat)
      ensures failed == CountDebits(debits, DebitFailed)
    {
      failed := 0;
      for k := 0 to |debits|
        invariant failed == CountDebits(debits[..k], DebitFailed)
      {
        assert debits[..k + 1][..k] == debits[..k];
        if debits[k].status == DebitFailed { failed := failed + 1; }
      }
      assert debits[..|debits|] == debits;
    }

    method ConfirmCollectionFailure(i: nat, j: nat)
      modifies this`advances, books`transactions
      ensures State() == DebitFails(old(State()), i, j)
    {
      if !IsPendingDebit(State(), i, j) { return; }
      var a := WithDebit(advances[i], j, DebitFailed);
      advances := advances[i := a];
      var failed := CountFailures(a.debits);
      if failed < MAX_DEBIT_ATTEMPTS { return; }
      WriteOffAdvance(i);
    }

    /** RecordEmployerFunding: the pool grows and the exposure falls by the deposit, once per
        provider reference. */
    method RecordEmployerFunding(reference: string, amount: Int64)
      modifies books`transactions
      ensures var o, p := old(State()), State();
              var paid := if amount > 0 && !KeyUsed(o, DepositKey(reference)) then amount else 0;
              && AccountBalance(p.ledger, Funding(p)) == AccountBalance(o.ledger, Funding(o)) + paid
              && AccountBalance(p.ledger, Cash(p)) == AccountBalance(o.ledger, Cash(o)) - paid
              && (KeyUsed(p, DepositKey(reference)) <==> KeyUsed(o, DepositKey(reference)) || amount > 0)
      ensures State() == RecordFunding(old(State()), reference, amount)
    {
      EwaTheorems.DepositEffect(State(), reference, amount, reference);
      var _ := PostMovement(DepositKey(reference), Cash(State()), Funding(State()), amount);
    }

    method IssueHardshipGrant(amount: Int64, coverage: bool, eligible: bool) returns (issued: bool)
      modifies this`grants, books`transactions
      ensures State() == IssueGrant(old(State()), amount, coverage, eligible)
      ensures issued <==> |grants| == |old(grants)| + 1
    {
      if amount <= 0 || !eligible { return false; }
      if coverage {
        var exposure := AccountBalance(books.transactions, Cash(State()));
        var headroom := if exposure < 0 then -exposure else 0;
        if amount > headroom { return false; }
      }
      var g := |grants|;
      grants := grants + [Grant(amount, GrantPending)];
      var _ := PostMovement(GrantKey(g), GrantExpense(State()), Cash(State()), amount);
      return true;
    }

    method MarkGrantSubmitted(g: nat)
      modifies this`grants
      ensures State() == SubmitGrant(old(State()), g)
      ensures forall k | 0 <= k < |old(grants)| :: EwaTheorems.Forward(old(grants)[k], grants[k])
    {
      if g < |grants| && grants[g].status == GrantPending { grants := grants[g := grants[g].(status := GrantSubmitted)]; }
    }

    method ConfirmGrantDisbursed(g: nat)
      modifies this`grants
      ensures State() == ConfirmGrant(old(State()), g)
      ensures forall k | 0 <= k < |old(grants)| :: EwaTheorems.Forward(old(grants)[k], grants[k])
    {
      if GrantUnresolved(State(), g) { grants := grants[g := grants[g].(status := GrantDisbursed)]; }
    }

    method FailGrant(g: nat)
      modifies this`grants, books`transactions
      ensures State() == Ewa.FailGrant(old(State()), g)
    {
      if !GrantUnresolved(State(), g) { return; }
      var amount := grants[g].amount;
      grants := grants[g := grants[g].(status := GrantFailed)];
      var _ := PostMovement(GrantReversalKey(g), Cash(State()), GrantExpense(State()), amount);
    }
  }

  predicate IsDraw(a: Advance, e: string, period: int) {
    && a.employee == e && a.period == period
    && (a.status == Approved || a.status == Disbursed || a.status == Settled)
  }

  ghost function CountedDraws(advances: seq<Advance>, e: string, period: int): set<nat> {
    set i: nat | i < |advances| && IsDraw(advances[i], e, period)
  }

  lemma LastDraw(advances: seq<Advance>, e: string, period: int, n: nat)
    requires |advances| == n + 1
    ensures CountedDraws(advances, e, period) ==
            CountedDraws(advances[..n], e, period) + (if IsDraw(advances[n], e, period) then {n} else {})
  {
  }

  lemma {:induction false} DrawsAreCounted(advances: seq<Advance>, e: string, period: int)
    ensures DrawsIn(advances, e, period) == |CountedDraws(advances, e, period)|
  {
    if advances == [] {
      assert CountedDraws(advances, e, period) == {};
    } else {
      var n := |advances| - 1;
      DrawsAreCounted(advances[..n], e, period);
      LastDraw(advances, e, period, n);
    }
  }

  lemma {:induction false} OwedUpToIs(advances: seq<Advance>, e: string, period: int, n: nat)
    requires n <= |advances|
    ensures OwedUpTo(advances, e, period, n) == Outstanding(advances[..n], e, period)
    ensures n == |advances| ==> OwedUpTo(advances, e, period, n) == Outstanding(advances, e, period)
  {
    if n > 0 {
      OwedUpToIs(advances, e, period, n - 1);
      assert advances[..n][..n - 1] == advances[..n - 1];
    }
    if n == |advances| { assert advances[..n] == advances; }
  }

  lemma {:induction false} OwedUpToGrows(advances: seq<Advance>, e: string, period: int, m: nat, n: nat)
    requires m <= n <= |advances|
    ensures OwedUpTo(advances, e, period, m) <= OwedUpTo(advances, e, period, n)
    decreases n
  {
    if m < n { OwedUpToGrows(advances, e, period, m, n - 1); }
  }
}
