/** Direct debits that payroll overtakes: when a confirmed debit is recorded, and when it
    never can be (internal/models/d2c_ledger.go). */
module EwaDebits {
  import opened Money
  import opened Savings
  import opened Ewa
  import opened EwaBooks
  import opened EwaRecovery
  import opened EwaReceivable

  // ---------- what the steps of a run do to an advance and its debits ----------

  /** Row b is row a at a later time: nothing recovered is given back, and the attempts made
      stand, with the same amounts, pending only if they were. */
  ghost predicate Onward(a: Advance, b: Advance) {
    && b.amount == a.amount && b.recovered >= a.recovered && |b.debits| >= |a.debits|
    && forall j | 0 <= j < |a.debits| ::
         b.debits[j].amount == a.debits[j].amount && (b.debits[j].status == DebitPending ==> a.debits[j].status == DebitPending)
  }

  lemma PayOnward(o: Org, e: string, period: int, gross: Int64, pref: Preference, i: nat)
    requires i < |o.advances|
    ensures var p := Perform(o, Pay(e, period, gross, pref));
            |p.advances| == |o.advances| && Onward(o.advances[i], p.advances[i]) && p.advances[i].debits == o.advances[i].debits
  {
    Waterfall(o, e, period, o.nextItem, gross, |o.advances|, SettleUpTo(o, e, period, o.nextItem, gross, |o.advances|));
  }

  lemma {:induction false} TerminateOnward(o: Org, e: string, n: nat, i: nat)
    requires n <= |o.advances| && i < |o.advances|
    ensures var b := TerminateUpTo(o, e, n).advances[i]; Onward(o.advances[i], b) && b.debits == o.advances[i].debits
  {
    if n > 0 {
      TerminateOnward(o, e, n - 1, i);
      assert TerminateUpTo(o, e, n) == Resolve(TerminateUpTo(o, e, n - 1), n - 1, e);
    }
  }

  lemma DebitOnward(o: Org, step: Step, i: nat, p: Org)
    requires i < |o.advances| && (step.Initiate? || step.Collect? || step.CollectionFails?) && p == Perform(o, step)
    ensures i < |p.advances| && Onward(o.advances[i], p.advances[i])
  {
  }

  lemma StepOnward(o: Org, step: Step, i: nat, p: Org)
    requires i < |o.advances| && p == Perform(o, step)
    ensures i < |p.advances| && Onward(o.advances[i], p.advances[i])
  {
    if step.Initiate? || step.Collect? || step.CollectionFails? {
      DebitOnward(o, step, i, p);
    } else if step.Pay? {
      PayOnward(o, step.e, step.period, step.gross, step.pref, i);
    } else if step.Terminate? {
      TerminateOnward(o, step.e, |o.advances|, i);
    }
  }

  lemma {:induction false} RunOnward(o: Org, steps: seq<Step>, i: nat)
    requires i < |o.advances|
    ensures i < |After(o, steps).advances| && Onward(o.advances[i], After(o, steps).advances[i])
  {
    if steps != [] {
      var n := |steps| - 1;
      var p := After(o, steps[..n]);
      RunOnward(o, steps[..n], i);
      StepOnward(p, steps[n], i, After(o, steps));
    }
  }

  // ---------- when a confirmed debit is recorded ----------

  /** The attempt is for the whole of what is owed when it is made. */
  lemma AttemptAmount(p: Org, i: nat, q: Org)
    requires RowsOk(p) && q == InitiateDebit(p, i, true) && q != p
    ensures i < |p.advances| == |q.advances|
    ensures var a, b := p.advances[i], q.advances[i];
            && b == a.(debits := b.debits) && |b.debits| == |a.debits| + 1
            && b.debits[|a.debits|].amount == a.amount - a.recovered > 0
  {
    assert AdvanceOk(p.advances[i]);
  }

  /** In every run, and at any time while the attempt is pending: the success of the debit is
      recorded if and only if nothing was recovered on the advance since the attempt was
      made, which is to say that the debit is not for more than is still owed. Otherwise
      nothing at all is written, although the worker's account was debited. */
  lemma RecordedIff(o: Org, before: seq<Step>, i: nat, p: Org, q: Org, later: seq<Step>, j: nat)
    requires Initial(o) && p == After(o, before) && q == InitiateDebit(p, i, true) && q != p
    requires i < |p.advances| && j == |p.advances[i].debits| && IsPendingDebit(After(q, later), i, j)
    ensures var r := After(q, later);
            && (DebitSucceeds(r, i, j) != r <==> r.advances[i].recovered == p.advances[i].recovered)
            && (DebitSucceeds(r, i, j) != r <==> r.advances[i].debits[j].amount <= Remaining(r.advances[i]))
  {
    assert RowsOk(p) by { RunKeeps(o, "", before); }
    assert AdvanceOk(p.advances[i]);
    AttemptAmount(p, i, q);
    RunOnward(q, later, i);
    SuccessShows(After(q, later), i, j);
  }

  lemma SuccessShows(r: Org, i: nat, j: nat)
    requires IsPendingDebit(r, i, j) && r.advances[i].recovered >= 0 && r.advances[i].debits[j].amount > 0
    ensures DebitSucceeds(r, i, j) != r <==> r.advances[i].recovered + r.advances[i].debits[j].amount <= r.advances[i].amount
  {
    if r.advances[i].recovered + r.advances[i].debits[j].amount <= r.advances[i].amount {
      assert DebitSucceeds(r, i, j).advances[i].debits[j].status == DebitSuccessful;
    }
  }

  // ---------- what becomes of one that is not ----------

  /** A pending debit for more than is still owed. */
  predicate Overtaken(o: Org, i: nat, j: nat) {
    IsPendingDebit(o, i, j) && o.advances[i].recovered + o.advances[i].debits[j].amount > o.advances[i].amount
  }

  lemma StepOvertaken(o: Org, step: Step, i: nat, j: nat, p: Org)
    requires Overtaken(o, i, j) && step != CollectionFails(i, j) && p == Perform(o, step)
    ensures Overtaken(p, i, j)
  {
    StepOnward(o, step, i, p);
    match step
    case Pay(e, period, gross, pref) => PayOnward(o, e, period, gross, pref, i);
    case Terminate(e) => TerminateOnward(o, e, |o.advances|, i);
    case _ =>
  }

  lemma {:induction false} PendingCounts(debits: seq<Collection>, j: nat)
    requires j < |debits| && debits[j].status == DebitPending
    ensures CountDebits(debits, DebitPending) > 0
  {
    if j < |debits| - 1 { PendingCounts(debits[..|debits| - 1], j); }
  }

  lemma OvertakenBlocks(p: Org, i: nat, j: nat, authorized: bool)
    requires Overtaken(p, i, j)
    ensures Perform(p, Collect(i, j)) == p && Perform(p, Initiate(i, authorized)) == p
  {
    PendingCounts(p.advances[i].debits, j);
  }

  lemma {:induction false} StaysOvertaken(o: Org, steps: seq<Step>, i: nat, j: nat)
    requires Overtaken(o, i, j) && CollectionFails(i, j) !in steps
    ensures Overtaken(After(o, steps), i, j)
  {
    if steps != [] {
      var n := |steps| - 1;
      StaysOvertaken(o, steps[..n], i, j);
      StepOvertaken(After(o, steps[..n]), steps[n], i, j, After(o, steps));
    }
  }

  /** From then on, whatever else happens, the debit stays pending: confirming it changes
      nothing, and it keeps every new attempt out, until it is reported as failed. */
  lemma OvertakenIsStuck(o: Org, steps: seq<Step>, i: nat, j: nat, authorized: bool)
    requires Overtaken(o, i, j) && CollectionFails(i, j) !in steps
    ensures var p := After(o, steps);
            Overtaken(p, i, j) && Perform(p, Collect(i, j)) == p && Perform(p, Initiate(i, authorized)) == p
  {
    StaysOvertaken(o, steps, i, j);
    OvertakenBlocks(After(o, steps), i, j, authorized);
  }

  // ---------- a run ----------

  function OvertakenRun(): seq<Step> {
    LateDebitRun()[..3] + [Pay("EMP", 0, 40, NO_SAVINGS)]
  }

  /** A draw of 100, debited in full, of which payroll takes 40 before the debit is
      confirmed: the confirmation is not recorded and no new attempt can be made. */
  lemma PayrollOvertakesDebit(o: Org, run: seq<Step>)
    requires o == EmptyOrg() && run == OvertakenRun()
    ensures OnlyAdvance(After(o, run), 40, Disbursed, [ATTEMPT])
    ensures Perform(After(o, run), Collect(0, 0)) == After(o, run) == Perform(After(o, run), Initiate(0, true))
  {
    var p := After(o, run[..3]);
    assert OnlyAdvance(After(o, run), 40, Disbursed, [ATTEMPT]) by {
      PendingFirst(o, run);
      AfterNext(o, run, 3, p);
      PayFirst(p, 40, [ATTEMPT]);
      assert run[..4] == run;
    }
    OvertakenIsStuck(After(o, run), [], 0, 0, true);
  }
}
