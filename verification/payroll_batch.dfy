/** One payroll batch: its row, its items, and every transaction that changes them.

    Each transaction is first a function on values. The class PayrollStore then performs
    it step by step on mutable rows, the way the Go code does, and is proved to reach the
    state that the function describes. An error inside a transaction rolls it back. */
module PayrollBatch {
  import opened Wrappers

  // Four states of a batch or an item (internal/models/models.go).
  datatype Status = Pending | Processing | Completed | Failed

  /** One employee's line; its identity is its index in the batch. */
  datatype Item = Item(status: Status, attempt: int, amount: int)

  datatype Batch = Batch(status: Status, pendingCount: int, items: seq<Item>)

  predicate CanTransition(from: Status, to: Status) {
    match from
    case Pending => to == Processing || to == Failed
    case Processing => to == Completed || to == Failed
    case Failed => to == Pending || to == Processing
    case Completed => false
  }

  function Count(items: seq<Item>, s: Status): (n: nat) {
    if items == [] then 0
    else Count(items[..|items| - 1], s) + (if items[|items| - 1].status == s then 1 else 0)
  }

  /** The status reconciliation picks: failed exactly when some item is failed. */
  function ClosingStatus(items: seq<Item>): Status {
    if Count(items, Failed) > 0 then Failed else Completed
  }

  // ---------- settling one item ----------

  datatype Outcome =
    | Applied(closed: bool) // committed; closed tells whether this settlement closed the batch
    | Stale                 // another writer already moved the item
    | Refused               // an error: the transaction was rolled back

  /** SettlePayrollItem: the item CAS from the status the caller saw, the guarded
      decrement, and the reconciliation of a batch whose counter reached zero. */
  function Settle(b: Batch, i: nat, seen: Status, next: Status): (r: (Batch, Outcome))
    requires i < |b.items|
  {
    if !CanTransition(seen, next) then (b, Refused)
    else if b.items[i].status != seen then (b, Stale)
    else
      var items := b.items[i := b.items[i].(status := next)];
      if b.pendingCount <= 0 then (b.(items := items), Applied(false))
      else if b.pendingCount > 1 then (Batch(b.status, b.pendingCount - 1, items), Applied(false))
      else if !CanTransition(b.status, ClosingStatus(items)) then (b, Refused)
      else (Batch(ClosingStatus(items), 0, items), Applied(true))
  }

  datatype Event = Successful(amount: int) | Unsuccessful | OtherEvent

  /** handlePayrollItemWebhook, after the reference has been parsed and the item found. */
  function Callback(b: Batch, i: nat, attempt: int, event: Event): (r: Batch)
    requires i < |b.items|
  {
    var item := b.items[i];
    if attempt != item.attempt then b                          // superseded attempt
    else if item.status == Completed || item.status == Failed then b
    else if event == OtherEvent then b
    else if event.Successful? && event.amount != item.amount then b
    else
      var next := if event.Successful? then Completed else Failed;
      if !CanTransition(item.status, next) then b
      else Settle(b, i, item.status, next).0
  }

  datatype Resolution = ResolvePaid | ResolveFailed

  datatype ResolveResult = Resolved | InvalidResolution | NotResolvable | NotYetStuck

  /** ResolveItem: an admin settles an overdue item by hand. */
  function Resolve(b: Batch, i: nat, outcome: Resolution, hasNote: bool, hasEvidence: bool, overdue: bool)
    : (r: (Batch, ResolveResult))
    requires i < |b.items|
  {
    if !hasNote || (outcome == ResolveFailed && !hasEvidence) then (b, InvalidResolution)
    else if b.items[i].status != Processing then (b, NotResolvable)
    else if !overdue then (b, NotYetStuck)
    else
      var next := if outcome == ResolvePaid then Completed else Failed;
      var (b', o) := Settle(b, i, Processing, next);
      if o.Applied? then (b', Resolved) else (b, NotResolvable)
  }

  // ---------- the worker ----------

  function PendingIds(items: seq<Item>): (ids: seq<nat>) {
    if items == [] then []
    else
      var n := |items| - 1;
      PendingIds(items[..n]) + (if items[n].status == Pending then [n] else [])
  }

  /** The ids that are (keep) or are not (!keep) in who. */
  function Select(ids: seq<nat>, who: set<nat>, keep: bool): (r: seq<nat>) {
    if ids == [] then []
    else
      var n := |ids| - 1;
      Select(ids[..n], who, keep) + (if (ids[n] in who) == keep then [ids[n]] else [])
  }

  function StartItem(it: Item, employed: bool): Item {
    if it.status != Pending then it else it.(status := if employed then Processing else Failed)
  }

  function StartItems(items: seq<Item>, employed: set<nat>): (r: seq<Item>)
    ensures |r| == |items|
  {
    seq(|items|, k requires 0 <= k < |items| => StartItem(items[k], k in employed))
  }

  /** Phase 1 of ProcessPayrollTask. None: the batch was not pending or failed (a
      duplicate task). Some(ids): the items handed to the bank. `employed` holds the
      items whose employee record still exists. */
  function StartRound(b: Batch, employed: set<nat>): (r: (Batch, Option<seq<nat>>)) {
    if b.status != Pending && b.status != Failed then (b, None)
    else
      var sendable := Select(PendingIds(b.items), employed, true);
      (Batch(Processing, |sendable|, StartItems(b.items, employed)), Some(sendable))
  }

  function ReleaseItems(items: seq<Item>): (r: seq<Item>)
    ensures |r| == |items|
  {
    seq(|items|, k requires 0 <= k < |items| =>
      if items[k].status == Processing then items[k].(status := Pending) else items[k])
  }

  /** failBatchBeforeSend. The counter is left as it was. */
  function Rollback(b: Batch): (r: Batch) {
    if b.status != Processing then b
    else Batch(Failed, b.pendingCount, ReleaseItems(b.items))
  }

  /** finalizePayroll: resolves a batch that has nothing left to disburse. */
  function Finalize(b: Batch): (r: Batch) {
    if CanTransition(b.status, ClosingStatus(b.items)) then b.(status := ClosingStatus(b.items)) else b
  }

  // ---------- retrying ----------

  function RetryItem(it: Item, active: bool): Item {
    if it.status == Failed && active then it.(status := Pending, attempt := it.attempt + 1) else it
  }

  function RetryItems(items: seq<Item>, active: set<nat>): (r: seq<Item>)
    ensures |r| == |items|
  {
    seq(|items|, k requires 0 <= k < |items| => RetryItem(items[k], k in active))
  }

  datatype RetryResult = NotRetryable | NothingToRetry | Retrying(waiting: nat)

  /** RetryFailedItems: failed lines of active employees go back to pending under a new
      attempt number; the batch row itself is not touched. */
  function Retry(b: Batch, active: set<nat>): (r: (Batch, RetryResult)) {
    if b.status != Failed then (b, NotRetryable)
    else
      var items := RetryItems(b.items, active);
      var waiting := Count(items, Pending);
      (b.(items := items), if waiting == 0 then NothingToRetry else Retrying(waiting))
  }

  // ---------- facts about the lists ----------

  lemma {:induction false} CountUpdate(items: seq<Item>, i: nat, it: Item, s: Status)
    requires i < |items|
    ensures Count(items[i := it], s) ==
            Count(items, s) - (if items[i].status == s then 1 else 0) + (if it.status == s then 1 else 0)
  {
    var n := |items| - 1;
    if i == n {
      assert items[i := it][..n] == items[..n];
    } else {
      CountUpdate(items[..n], i, it, s);
      assert items[i := it][..n] == items[..n][i := it];
    }
  }

  lemma {:induction false} CountZero(items: seq<Item>, s: Status)
    ensures Count(items, s) == 0 <==> forall k | 0 <= k < |items| :: items[k].status != s
    ensures Count(items, s) <= |items|
  {
    if items != [] {
      var n := |items| - 1;
      CountZero(items[..n], s);
      if Count(items, s) == 0 {
        forall k | 0 <= k < |items| ensures items[k].status != s {
          if k < n { assert items[k] == items[..n][k]; }
        }
      } else if items[n].status != s {
        var k :| 0 <= k < n && items[..n][k].status == s;
        assert items[k].status == s;
      }
    }
  }

  ghost predicate Increasing(ids: seq<nat>) {
    forall j, k | 0 <= j < k < |ids| :: ids[j] < ids[k]
  }

  lemma IncreasingAppend(ids: seq<nat>, n: nat)
    requires Increasing(ids) && forall id | id in ids :: id < n
    ensures Increasing(ids + [n])
  {
    forall j, k | 0 <= j < k < |ids| + 1 ensures (ids + [n])[j] < (ids + [n])[k] {
      assert ids[j] in ids;
    }
  }

  lemma {:induction false} PendingIdsExact(items: seq<Item>)
    ensures forall id: nat :: id in PendingIds(items) <==> id < |items| && items[id].status == Pending
    ensures Increasing(PendingIds(items))
  {
    if items != [] {
      var n := |items| - 1;
      PendingIdsExact(items[..n]);
      forall id: nat ensures id in PendingIds(items) <==> id < |items| && items[id].status == Pending {
        if id < n { assert items[..n][id] == items[id]; }
      }
      IncreasingAppend(PendingIds(items[..n]), n);
      assert PendingIds(items[..n]) + [] == PendingIds(items[..n]);
    }
  }

  lemma {:induction false} SelectExact(ids: seq<nat>, who: set<nat>, keep: bool)
    ensures forall id: nat :: id in Select(ids, who, keep) <==> id in ids && ((id in who) == keep)
  {
    if ids != [] {
      var n := |ids| - 1;
      SelectExact(ids[..n], who, keep);
      assert ids == ids[..n] + [ids[n]];
    }
  }

  lemma {:induction false} SelectIncreasing(ids: seq<nat>, who: set<nat>, keep: bool)
    requires Increasing(ids)
    ensures Increasing(Select(ids, who, keep))
  {
    if ids != [] {
      var n := |ids| - 1;
      var front := Select(ids[..n], who, keep);
      SelectIncreasing(ids[..n], who, keep);
      SelectExact(ids[..n], who, keep);
      forall id | id in front ensures id < ids[n] {
        var j :| 0 <= j < n && ids[..n][j] == id;
        assert ids[j] == id;
      }
      IncreasingAppend(front, ids[n]);
      assert front + [] == front;
    }
  }

  lemma SelectedPending(items: seq<Item>, employed: set<nat>, keep: bool)
    ensures var ids := Select(PendingIds(items), employed, keep);
            && Increasing(ids)
            && (forall j | 0 <= j < |ids| :: ids[j] < |items|)
            && forall k: nat :: k in ids <==> k < |items| && items[k].status == Pending && ((k in employed) == keep)
  {
    PendingIdsExact(items);
    SelectExact(PendingIds(items), employed, keep);
    SelectIncreasing(PendingIds(items), employed, keep);
    var ids := Select(PendingIds(items), employed, keep);
    forall j | 0 <= j < |ids| ensures ids[j] < |items| { assert ids[j] in ids; }
  }

  /** The counter phase 1 stores is the number of items it marked processing. */
  lemma {:induction false} SendableCount(items: seq<Item>, employed: set<nat>)
    ensures Count(StartItems(items, employed), Processing) ==
            Count(items, Processing) + |Select(PendingIds(items), employed, true)|
  {
    if items != [] {
      var n := |items| - 1;
      SendableCount(items[..n], employed);
      assert StartItems(items, employed)[..n] == StartItems(items[..n], employed);
      var ids := PendingIds(items[..n]);
      if items[n].status == Pending {
        assert (ids + [n])[..|ids|] == ids;
      } else {
        assert ids + [] == ids;
      }
    }
  }

  // ---------- the same transactions on mutable rows ----------

  datatype Cas = Won | Lost | Illegal

  class PayrollStore {
    var status: Status
    var pendingCount: int
    var items: seq<Item>

    ghost function State(): Batch
      reads this
    {
      Batch(status, pendingCount, items)
    }

    constructor (b: Batch)
      ensures State() == b
    {
      status, pendingCount, items := b.status, b.pendingCount, b.items;
    }

    method TransitionItem(i: nat, current: Status, next: Status) returns (r: Cas)
      requires i < |items|
      modifies this`items
      ensures r == if !CanTransition(current, next) then Illegal
                   else if old(items)[i].status == current then Won else Lost
      ensures items == if r == Won then old(items)[i := old(items)[i].(status := next)] else old(items)
    {
      if !CanTransition(current, next) { return Illegal; }
      if items[i].status != current { return Lost; }
      items := items[i := items[i].(status := next)];
      return Won;
    }

    method TransitionBatch(current: Status, next: Status) returns (r: Cas)
      modifies this`status
      ensures r == if !CanTransition(current, next) then Illegal
                   else if old(status) == current then Won else Lost
      ensures status == if r == Won then next else old(status)
    {
      if !CanTransition(current, next) { return Illegal; }
      if status != current { return Lost; }
      status := next;
      return Won;
    }

    method ReconcilePayrollStatus(current: Status) returns (r: Cas)
      modifies this`status
      ensures r == if !CanTransition(current, ClosingStatus(items)) then Illegal
                   else if old(status) == current then Won else Lost
      ensures status == if r == Won then ClosingStatus(items) else old(status)
    {
      var failed := 0;
      for k := 0 to |items|
        invariant failed == Count(items[..k], Failed)
      {
        assert items[..k + 1][..k] == items[..k];
        if items[k].status == Failed { failed := failed + 1; }
      }
      assert items[..|items|] == items;
      r := TransitionBatch(current, if failed > 0 then Failed else Completed);
    }

    method SettlePayrollItem(i: nat, seen: Status, next: Status) returns (o: Outcome)
      requires i < |items|
      modifies this
      ensures (State(), o) == Settle(old(State()), i, seen, next)
    {
      var rowsBefore := items;
      var cas := TransitionItem(i, seen, next);
      if cas == Illegal { return Refused; }
      if cas == Lost { return Stale; }
      if pendingCount <= 0 { return Applied(false); }
      pendingCount := pendingCount - 1;
      if pendingCount > 0 { return Applied(false); }
      cas := ReconcilePayrollStatus(status);
      if cas == Illegal {
        items, pendingCount := rowsBefore, 1;
        return Refused;
      }
      return Applied(true);
    }

    method HandleCallback(i: nat, attempt: int, event: Event)
      requires i < |items|
      modifies this
      ensures State() == Callback(old(State()), i, attempt, event)
    {
      var item := items[i];
      if attempt != item.attempt { return; }
      if item.status == Completed || item.status == Failed { return; }
      var next: Status;
      match event {
        case Successful(amount) =>
          if amount != item.amount { return; }
          next := Completed;
        case Unsuccessful =>
          next := Failed;
        case OtherEvent =>
          return;
      }
      if !CanTransition(item.status, next) { return; }
      var _ := SettlePayrollItem(i, item.status, next);
    }

    method ResolveItem(i: nat, outcome: Resolution, hasNote: bool, hasEvidence: bool, overdue: bool)
      returns (r: ResolveResult)
      requires i < |items|
      modifies this
      ensures (State(), r) == Resolve(old(State()), i, outcome, hasNote, hasEvidence, overdue)
    {
      var next := if outcome == ResolvePaid then Completed else Failed;
      if !hasNote { return InvalidResolution; }
      if outcome == ResolveFailed && !hasEvidence { return InvalidResolution; }
      if items[i].status != Processing { return NotResolvable; }
      if !overdue { return NotYetStuck; }
      var o := SettlePayrollItem(i, items[i].status, next);
      if !o.Applied? { return NotResolvable; }
      return Resolved;
    }

    /** Marks the listed items, all currently pending, with the given status. */
    method MarkItems(ids: seq<nat>, s: Status)
      requires forall j | 0 <= j < |ids| :: ids[j] < |items|
      modifies this`items
      ensures |items| == |old(items)|
      ensures forall k | 0 <= k < |items| :: items[k] ==
                if k in ids && old(items)[k].status == Pending then old(items)[k].(status := s) else old(items)[k]
    {
      for j := 0 to |ids|
        invariant |items| == |old(items)|
        invariant forall k | 0 <= k < |items| :: items[k] ==
                    if k in ids[..j] && old(items)[k].status == Pending then old(items)[k].(status := s)
                    else old(items)[k]
      {
        assert ids[..j + 1] == ids[..j] + [ids[j]];
        var it := items[ids[j]];
        if it.status == Pending { items := items[ids[j] := it.(status := s)]; }
      }
      assert ids[..|ids|] == ids;
    }

    /** Splits the pending items by whether their employee record still exists. */
    method Partition(employed: set<nat>) returns (sendable: seq<nat>, orphaned: seq<nat>)
      ensures sendable == Select(PendingIds(items), employed, true)
      ensures orphaned == Select(PendingIds(items), employed, false)
    {
      var unsettled: seq<nat> := [];
      for k := 0 to |items|
        invariant unsettled == PendingIds(items[..k])
      {
        assert items[..k + 1][..k] == items[..k];
        if items[k].status == Pending { unsettled := unsettled + [k]; }
      }
      assert items[..|items|] == items;
      sendable, orphaned := [], [];
      for j := 0 to |unsettled|
        invariant sendable == Select(unsettled[..j], employed, true)
        invariant orphaned == Select(unsettled[..j], employed, false)
      {
        assert unsettled[..j + 1][..j] == unsettled[..j];
        if unsettled[j] in employed { sendable := sendable + [unsettled[j]]; }
        else { orphaned := orphaned + [unsettled[j]]; }
      }
      assert unsettled[..|unsettled|] == unsettled;
    }

    method MarkStarted(employed: set<nat>, sendable: seq<nat>, orphaned: seq<nat>)
      requires sendable == Select(PendingIds(items), employed, true)
      requires orphaned == Select(PendingIds(items), employed, false)
      modifies this`items
      ensures items == StartItems(old(items), employed)
    {
      SelectedPending(items, employed, true);
      SelectedPending(items, employed, false);
      MarkItems(sendable, Processing);
      MarkItems(orphaned, Failed);
    }

    method ProcessPhaseOne(employed: set<nat>) returns (r: Option<seq<nat>>)
      modifies this
      ensures (State(), r) == StartRound(old(State()), employed)
    {
      var sendable, orphaned := Partition(employed);
      if status != Pending && status != Failed { return None; }
      status, pendingCount := Processing, |sendable|;
      MarkStarted(employed, sendable, orphaned);
      return Some(sendable);
    }

    method FailBatchBeforeSend()
      modifies this
      ensures State() == Rollback(old(State()))
    {
      var cas := TransitionBatch(Processing, Failed);
      if cas != Won { return; }
      for j := 0 to |items|
        invariant |items| == |old(items)| && status == Failed && pendingCount == old(pendingCount)
        invariant forall k | 0 <= k < |items| ::
                    items[k] == if k < j then ReleaseItems(old(items))[k] else old(items)[k]
      {
        if items[j].status == Processing { items := items[j := items[j].(status := Pending)]; }
      }
      assert items == ReleaseItems(old(items));
    }

    method FinalizePayroll()
      modifies this
      ensures State() == Finalize(old(State()))
    {
      var _ := ReconcilePayrollStatus(status);
    }

    method RetryFailedItems(active: set<nat>) returns (r: RetryResult)
      modifies this
      ensures (State(), r) == Retry(old(State()), active)
    {
      if status != Failed { return NotRetryable; }
      for j := 0 to |items|
        invariant |items| == |old(items)| && status == old(status) && pendingCount == old(pendingCount)
        invariant forall k | 0 <= k < |items| ::
                    items[k] == if k < j then RetryItems(old(items), active)[k] else old(items)[k]
      {
        var it := items[j];
        if it.status == Failed && j in active {
          items := items[j := it.(status := Pending, attempt := it.attempt + 1)];
        }
      }
      assert items == RetryItems(old(items), active);
      var waiting := 0;
      for k := 0 to |items|
        invariant waiting == Count(items[..k], Pending)
      {
        assert items[..k + 1][..k] == items[..k];
        if items[k].status == Pending { waiting := waiting + 1; }
      }
      assert items[..|items|] == items;
      return if waiting == 0 then NothingToRetry else Retrying(waiting);
    }
  }
}
