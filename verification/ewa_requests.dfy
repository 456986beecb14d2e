/** Requests that a client repeats under its own idempotency key. */
module EwaRequests {
  import opened Ewa
  import opened EwaRecovery

  /** Only a request adds an advance, and never under a key that the employee has used. */
  lemma StepAppends(o: Org, step: Step)
    ensures var p := Perform(o, step);
            |p.advances| > |o.advances| ==>
              && step.Request? && !Replays(o.advances, step.e, step.key)
              && p.advances[|o.advances|].employee == step.e && p.advances[|o.advances|].clientKey == step.key
  {
    if step.Pay? { PayCount(o, step.e, step.period, step.gross, step.pref); }
  }

  /** Over every run there is at most one advance per employee and client key, however often
      and with whatever amounts the request is repeated. */
  lemma {:induction false} OneAdvancePerKey(o: Org, steps: seq<Step>, i: nat, j: nat)
    requires Initial(o)
    ensures var s := After(o, steps).advances;
            i < j < |s| && s[i].employee == s[j].employee && s[i].clientKey == s[j].clientKey ==> s[j].clientKey.None?
  {
    if steps != [] && i < j < |After(o, steps).advances| {
      var p, last := After(o, steps[..|steps| - 1]), steps[|steps| - 1];
      StepGrows(p, last);
      StepAppends(p, last);
      StepIdentity(p, last, i);
      OneAdvancePerKey(o, steps[..|steps| - 1], i, j);
      if j < |p.advances| {
        StepIdentity(p, last, j);
      } else {
        assert !SameRequest(p.advances[i], last.e, last.key);
      }
    }
  }

  lemma {:induction false} AdvanceStays(o: Org, steps: seq<Step>, i: nat)
    requires i < |o.advances|
    ensures i < |After(o, steps).advances| && SameAdvance(o.advances[i], After(o, steps).advances[i])
  {
    if steps != [] {
      AdvanceStays(o, steps[..|steps| - 1], i);
      StepIdentity(After(o, steps[..|steps| - 1]), steps[|steps| - 1], i);
    }
  }

  /** Once a keyed request was recorded, approved or declined, repeating it at any later
      point of any run changes nothing. */
  lemma RepeatedRequest(o: Org, first: Step, later: seq<Step>, again: Step)
    requires first.Request? && again.Request? && again.e == first.e && again.key == first.key && first.key.Some?
    ensures |Perform(o, first).advances| > |o.advances| ==>
              var p := After(Perform(o, first), later); Perform(p, again) == p
  {
    var n, q := |o.advances|, Perform(o, first);
    if |q.advances| > n {
      StepAppends(o, first);
      AdvanceStays(q, later, n);
      assert SameRequest(After(q, later).advances[n], again.e, again.key);
    }
  }
}
