/** One round's callbacks: their order, delay and duplication do not matter, and exactly
    one of them closes the batch (internal/services/payroll_settlement.go). */
module PayrollCallbacks {
  import opened PayrollBatch
  import opened PayrollProtocol

  datatype Delivery = Delivery(item: nat, attempt: int, event: Event)

  /** The delivery is about the current attempt of an item in flight. */
  predicate Addresses(b: Batch, d: Delivery) {
    d.item < |b.items| && b.items[d.item].attempt == d.attempt && b.items[d.item].status == Processing
  }

  /** Such a delivery reports the item's one outcome; all others may say anything. */
  predicate Truthful(b: Batch, paid: seq<bool>, d: Delivery)
    requires |paid| == |b.items|
  {
    Addresses(b, d) ==>
      (d.event.Successful? ==> paid[d.item]) && (d.event.Unsuccessful? ==> !paid[d.item])
  }

  ghost predicate AllTruthful(b: Batch, paid: seq<bool>, ds: seq<Delivery>) {
    |paid| == |b.items| && forall j | 0 <= j < |ds| :: Truthful(b, paid, ds[j])
  }

  predicate Effective(b: Batch, d: Delivery) {
    && Addresses(b, d)
    && (d.event.Unsuccessful? || (d.event.Successful? && d.event.amount == b.items[d.item].amount))
  }

  /** A callback for an item that does not exist is answered and changes nothing. */
  function Apply(b: Batch, d: Delivery): (r: Batch) {
    if d.item < |b.items| then Callback(b, d.item, d.attempt, d.event) else b
  }

  function DeliverAll(b: Batch, ds: seq<Delivery>): (r: Batch) {
    if ds == [] then b else Apply(DeliverAll(b, ds[..|ds| - 1]), ds[|ds| - 1])
  }

  ghost function Delivered(b: Batch, ds: seq<Delivery>): set<nat> {
    set j | 0 <= j < |ds| && Effective(b, ds[j]) :: ds[j].item
  }

  /** How many deliveries found the batch processing and left it otherwise. */
  function Closings(b: Batch, ds: seq<Delivery>): nat
  {
    if ds == [] then 0
    else
      var front := ds[..|ds| - 1];
      Closings(b, front) +
      (if DeliverAll(b, front).status == Processing && DeliverAll(b, ds).status != Processing then 1 else 0)
  }

  /** The items once those in `done` have their outcome. */
  function ItemsAfter(items: seq<Item>, paid: seq<bool>, done: set<nat>): (r: seq<Item>)
    requires |paid| == |items|
    ensures |r| == |items|
  {
    seq(|items|, k requires 0 <= k < |items| =>
      if k in done then items[k].(status := if paid[k] then Completed else Failed) else items[k])
  }

  /** The batch as a function of who has been heard from, and of nothing else. */
  function Progress(b: Batch, paid: seq<bool>, done: set<nat>): Batch
    requires |paid| == |b.items|
  {
    var items := ItemsAfter(b.items, paid, done);
    var open := Count(items, Processing);
    Batch(if open > 0 then Processing else ClosingStatus(items), open, items)
  }

  ghost predicate InFlight(b: Batch) {
    BatchOk(b) && b.status == Processing && b.pendingCount > 0
  }

  ghost predicate InFlightItems(b: Batch, done: set<nat>) {
    forall k | k in done :: k < |b.items| && b.items[k].status == Processing
  }

  lemma DeliverNews(b: Batch, paid: seq<bool>, done: set<nat>, d: Delivery)
    requires InFlight(b) && |paid| == |b.items| && Truthful(b, paid, d) && InFlightItems(b, done)
    requires Effective(b, d) && d.item !in done
    ensures Apply(Progress(b, paid, done), d) == Progress(b, paid, done + {d.item})
  {
    var now := Progress(b, paid, done);
    var i := d.item;
    var it := now.items[i].(status := if paid[i] then Completed else Failed);
    assert now.items[i] == b.items[i];
    assert ItemsAfter(b.items, paid, done + {i}) == now.items[i := it];
    CountUpdate(now.items, i, it, Processing);
    CountZero(now.items, Processing);
  }

  lemma DeliverOldNews(b: Batch, paid: seq<bool>, done: set<nat>, d: Delivery)
    requires InFlight(b) && |paid| == |b.items| && InFlightItems(b, done)
    requires !Effective(b, d) || d.item in done
    ensures Apply(Progress(b, paid, done), d) == Progress(b, paid, done)
  {
    CountZero(b.items, Pending);
  }

  /** Whatever was delivered, in whatever order and however often, the state is the one
      determined by the set of items heard from. */
  lemma {:induction false} OrderDoesNotMatter(b: Batch, paid: seq<bool>, ds: seq<Delivery>)
    requires InFlight(b) && AllTruthful(b, paid, ds)
    ensures DeliverAll(b, ds) == Progress(b, paid, Delivered(b, ds))
  {
    if ds == [] {
      assert ItemsAfter(b.items, paid, {}) == b.items;
      assert Delivered(b, ds) == {};
    } else {
      var n := |ds| - 1;
      OrderDoesNotMatter(b, paid, ds[..n]);
      DeliveredAppend(b, ds);
      var done := Delivered(b, ds[..n]);
      if Effective(b, ds[n]) && ds[n].item !in done {
        DeliverNews(b, paid, done, ds[n]);
      } else {
        assert Delivered(b, ds) == done;
        DeliverOldNews(b, paid, done, ds[n]);
      }
    }
  }

  lemma DeliveredAppend(b: Batch, ds: seq<Delivery>)
    requires ds != []
    ensures var n := |ds| - 1;
            Delivered(b, ds) == Delivered(b, ds[..n]) + (if Effective(b, ds[n]) then {ds[n].item} else {})
  {
    var n := |ds| - 1;
    forall k | k in Delivered(b, ds)
      ensures k in Delivered(b, ds[..n]) + (if Effective(b, ds[n]) then {ds[n].item} else {})
    {
      var j :| 0 <= j < |ds| && Effective(b, ds[j]) && ds[j].item == k;
      if j < n { assert ds[..n][j] == ds[j]; }
    }
    forall k | k in Delivered(b, ds[..n]) ensures k in Delivered(b, ds) {
      var j :| 0 <= j < n && Effective(b, ds[..n][j]) && ds[..n][j].item == k;
      assert ds[j].item == k;
    }
  }

  /** A batch that left processing does not come back, so it is closed at most once and
      it is closed exactly when it ends closed. */
  lemma {:induction false} ClosedOnce(b: Batch, paid: seq<bool>, ds: seq<Delivery>)
    requires InFlight(b) && AllTruthful(b, paid, ds)
    ensures Closings(b, ds) == if DeliverAll(b, ds).status == Processing then 0 else 1
  {
    if ds != [] {
      var n := |ds| - 1;
      ClosedOnce(b, paid, ds[..n]);
      OrderDoesNotMatter(b, paid, ds[..n]);
      var now := DeliverAll(b, ds[..n]);
      CountZero(now.items, Processing);
      CountZero(b.items, Pending);
      if now.status != Processing && ds[n].item < |now.items| {
        assert now.items[ds[n].item].status != Processing && now.items[ds[n].item].status != Pending;
      }
    }
  }

  /** The round's end: once every item in flight has been heard from, exactly one
      delivery has closed the batch, every item holds its outcome, and the batch is
      failed exactly when some item of it is failed. */
  lemma RoundCloses(b: Batch, paid: seq<bool>, ds: seq<Delivery>)
    requires InFlight(b) && AllTruthful(b, paid, ds)
    requires forall k: nat | k < |b.items| && b.items[k].status == Processing :: k in Delivered(b, ds)
    ensures Closings(b, ds) == 1
    ensures var r := DeliverAll(b, ds);
            && r.pendingCount == 0 && |r.items| == |b.items|
            && (forall k | 0 <= k < |b.items| :: r.items[k] ==
                  if b.items[k].status != Processing then b.items[k]
                  else b.items[k].(status := if paid[k] then Completed else Failed))
            && (r.status == Failed <==> exists k :: 0 <= k < |r.items| && r.items[k].status == Failed)
            && (r.status == Completed <==> forall k | 0 <= k < |r.items| :: r.items[k].status == Completed)
  {
    OrderDoesNotMatter(b, paid, ds);
    ClosedOnce(b, paid, ds);
    var r := DeliverAll(b, ds);
    CountZero(r.items, Processing);
    CountZero(r.items, Failed);
    CountZero(b.items, Pending);
  }

  /** Two deliveries of the same round, in any order and with any duplicates, agree. */
  lemma SameNewsSameState(b: Batch, paid: seq<bool>, ds: seq<Delivery>, es: seq<Delivery>)
    requires InFlight(b) && AllTruthful(b, paid, ds) && AllTruthful(b, paid, es)
    requires (set j | 0 <= j < |ds| :: ds[j]) == (set j | 0 <= j < |es| :: es[j])
    ensures DeliverAll(b, ds) == DeliverAll(b, es)
  {
    OrderDoesNotMatter(b, paid, ds);
    OrderDoesNotMatter(b, paid, es);
    var dset, eset := (set j | 0 <= j < |ds| :: ds[j]), (set j | 0 <= j < |es| :: es[j]);
    assert forall j | 0 <= j < |ds| :: ds[j] in dset;
    assert forall j | 0 <= j < |es| :: es[j] in eset;
    assert Delivered(b, ds) == Delivered(b, es);
  }
}
