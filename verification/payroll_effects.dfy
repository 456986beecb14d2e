/** What each transaction of the batch protocol does to the batch and its items, spelled
    out on the rows, in every reachable state. */
module PayrollEffects {
  import opened Wrappers
  import opened PayrollBatch
  import opened PayrollProtocol

  ghost function ItemsIn(items: seq<Item>, s: Status): set<nat> {
    set k: nat | k < |items| && items[k].status == s
  }

  lemma LastItem(items: seq<Item>, s: Status, n: nat)
    requires |items| == n + 1
    ensures ItemsIn(items, s) == ItemsIn(items[..n], s) + (if items[n].status == s then {n} else {})
  {
  }

  lemma {:induction false} ItemsCounted(items: seq<Item>, s: Status)
    ensures Count(items, s) == |ItemsIn(items, s)|
  {
    if items == [] {
      assert ItemsIn(items, s) == {};
    } else {
      ItemsCounted(items[..|items| - 1], s);
      LastItem(items, s, |items| - 1);
    }
  }

  /** The batch is closed: failed if some item failed, else completed with every item. */
  predicate ClosedByItems(b: Batch) {
    && (b.status == Failed <==> exists k :: 0 <= k < |b.items| && b.items[k].status == Failed)
    && (b.status == Completed <==> forall k | 0 <= k < |b.items| :: b.items[k].status == Completed)
    && (b.status == Failed || b.status == Completed)
  }

  lemma ClosingIsByItems(b: Batch)
    requires b.status == ClosingStatus(b.items) && Count(b.items, Processing) == 0 && Count(b.items, Pending) == 0
    ensures ClosedByItems(b)
  {
    CountZero(b.items, Failed);
    CountZero(b.items, Processing);
    CountZero(b.items, Pending);
  }

  /** In every reachable state in which a worker found nothing to send, resolving the batch
      closes it by its items: failed if and only if some item is, completed if and only if
      all are. */
  lemma FinalizeResolves(s0: System, steps: seq<Step>, b: Batch)
    requires Initial(s0) && IsRun(s0, steps) && After(s0, steps).finalizing
    requires b == Perform(After(s0, steps), FinalizeTask).batch
    ensures b.items == After(s0, steps).batch.items && b.pendingCount == 0 && ClosedByItems(b)
  {
    InitialInvariant(s0);
    RunKeeps(s0, steps);
    ClosingIsByItems(b);
  }

  /** One item in flight got its outcome. The counter falls by one, and the last outcome
      closes the batch. */
  predicate Settled(b: Batch, i: nat, next: Status, r: Batch)
    requires i < |b.items|
  {
    && b.status == Processing && b.pendingCount > 0
    && r.items == b.items[i := b.items[i].(status := next)] && r.pendingCount == b.pendingCount - 1
    && (if r.pendingCount > 0 then r.status == Processing else ClosedByItems(r))
  }

  lemma SettleSettles(b: Batch, i: nat, next: Status)
    requires BatchOk(b) && i < |b.items| && b.items[i].status == Processing && (next == Completed || next == Failed)
    ensures Settled(b, i, next, Settle(b, i, Processing, next).0) && Settle(b, i, Processing, next).1.Applied?
  {
    ProcessingItemMeansProcessingBatch(b, i);
    SettleKeepsBatchOk(b, i, next);
    var r := Settle(b, i, Processing, next).0;
    if r.pendingCount == 0 {
      CountUpdate(b.items, i, b.items[i].(status := next), Processing);
      CountUpdate(b.items, i, b.items[i].(status := next), Pending);
      ClosingIsByItems(r);
    }
  }

  /** In every reachable state a callback settles its item if and only if it is for the
      current attempt of an item in flight and reports a failure, or a success with exactly
      the item's amount. Any other callback changes nothing. */
  lemma CallbackEffect(s0: System, steps: seq<Step>, i: nat, a: int, e: Event, b: Batch, r: Batch)
    requires Initial(s0) && IsRun(s0, steps) && Enabled(After(s0, steps), Deliver(i, a, e))
    requires b == After(s0, steps).batch && r == Perform(After(s0, steps), Deliver(i, a, e)).batch
    ensures if a == b.items[i].attempt && b.items[i].status == Processing
               && (e == Unsuccessful || e == Successful(b.items[i].amount))
            then Settled(b, i, if e == Unsuccessful then Failed else Completed, r)
            else r == b
  {
    InitialInvariant(s0);
    RunKeeps(s0, steps);
    var s, it := After(s0, steps), b.items[i];
    if it.status == Processing {
      SettleSettles(b, i, Completed);
      SettleSettles(b, i, Failed);
    } else if r != b {
      DeliverSettles(s, i, a, e);
    }
  }

  /** In every reachable state a manual resolution is refused without a note, a failure
      without evidence, on an item that is not in flight or not yet overdue, in this order,
      and changes nothing then; otherwise it settles the item as attested. */
  lemma ResolveEffect(
      s0: System, steps: seq<Step>, i: nat, o: Resolution, hasNote: bool, hasEvidence: bool, overdue: bool, b: Batch)
    requires Initial(s0) && IsRun(s0, steps) && b == After(s0, steps).batch && i < |b.items|
    ensures var r := Resolve(b, i, o, hasNote, hasEvidence, overdue);
            if !hasNote || (o == ResolveFailed && !hasEvidence) then r == (b, InvalidResolution)
            else if b.items[i].status != Processing then r == (b, NotResolvable)
            else if !overdue then r == (b, NotYetStuck)
            else r.1 == Resolved && Settled(b, i, if o == ResolvePaid then Completed else Failed, r.0)
  {
    InitialInvariant(s0);
    RunKeeps(s0, steps);
    if b.items[i].status == Processing { SettleSettles(b, i, if o == ResolvePaid then Completed else Failed); }
  }

  /** A batch that is pending or failed starts a round: its pending items go to the bank, or
      fail when their employee is gone, and the counter is the number that go. Any other
      batch is left alone. */
  lemma StartEffect(b: Batch, employed: set<nat>)
    ensures var r := StartRound(b, employed);
            if b.status == Pending || b.status == Failed then
              && r.0.status == Processing && |r.0.items| == |b.items| && r.1.Some? && r.0.pendingCount == |r.1.value|
              && (forall k: nat | k < |b.items| ::
                    r.0.items[k] == if b.items[k].status != Pending then b.items[k]
                                    else b.items[k].(status := if k in employed then Processing else Failed))
              && (forall k: nat :: k in r.1.value <==> k < |b.items| && b.items[k].status == Pending && k in employed)
              && (forall j, k | 0 <= j < k < |r.1.value| :: r.1.value[j] < r.1.value[k])
            else r == (b, None)
  {
    SelectedPending(b.items, employed, true);
  }

  /** A refused submission puts the items in flight back to pending and fails the batch. */
  lemma RollbackEffect(b: Batch)
    ensures var r := Rollback(b);
            if b.status == Processing then
              && r.status == Failed && r.pendingCount == b.pendingCount && |r.items| == |b.items|
              && forall k | 0 <= k < |b.items| ::
                   r.items[k] == if b.items[k].status == Processing then b.items[k].(status := Pending) else b.items[k]
            else r == b
  {
  }

  /** A retry puts exactly the failed items of active employees back to pending, under the
      next attempt. It answers how many items wait for the next round. */
  lemma RetryEffect(b: Batch, active: set<nat>)
    ensures var r := Retry(b, active);
            if b.status == Failed then
              && r.0.status == Failed && r.0.pendingCount == b.pendingCount && |r.0.items| == |b.items|
              && (forall k: nat | k < |b.items| ::
                    r.0.items[k] == if b.items[k].status == Failed && k in active
                                    then Item(Pending, b.items[k].attempt + 1, b.items[k].amount) else b.items[k])
              && r.1 == (if ItemsIn(r.0.items, Pending) == {} then NothingToRetry else Retrying(|ItemsIn(r.0.items, Pending)|))
            else r == (b, NotRetryable)
  {
    ItemsCounted(RetryItems(b.items, active), Pending);
  }
}
