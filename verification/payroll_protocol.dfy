/** The payroll batch protocol as a state machine: one batch, the bank, and five actors
    whose transactions interleave in any order (worker, rollback, callbacks, manual
    resolution, retry).

    Assumptions carried by Enabled, each of them about the environment:
    every transaction is one atomic step, and so are a callback's lookup and its
    transaction; the bank processes each submitted line at most once, never after it
    definitively refused the submission, and reports only what happened; an admin
    attests what happened, and only once the bank call for that line is over. */
module PayrollProtocol {
  import opened Wrappers
  import opened PayrollBatch

  datatype LineState = Submitted | Paid | Rejected

  /** One transfer of a bulk submission; (item, attempt) is its bank reference. */
  datatype Line = Line(item: nat, attempt: int, state: LineState)

  datatype Phase =
    | Calling    // the worker waits for the bank's answer; the bank may already act
    | Answered   // accepted, or outcome unknown: the worker is done
    | Declined   // definitively refused, the rollback has not run yet
    | RolledBack // refused and rolled back
    | Abandoned  // refused, but the rollback was lost

  datatype Call = Call(lines: seq<Line>, phase: Phase)

  /** `finalizing`: a worker found nothing to send and has not yet resolved the batch. */
  datatype System = System(batch: Batch, calls: seq<Call>, finalizing: bool)

  datatype Step =
    | StartTask(employed: set<nat>)
    | FinalizeTask
    | BankPays(c: nat, l: nat)
    | BankRejects(c: nat, l: nat)
    | BankAnswers(c: nat)
    | BankDeclines(c: nat)
    | RollBack(c: nat)
    | RollbackLost(c: nat)
    | Deliver(item: nat, attempt: int, event: Event)
    | AdminResolves(item: nat, outcome: Resolution)
    | AdminRetries(active: set<nat>)

  predicate WasDeclined(p: Phase) {
    p == Declined || p == RolledBack || p == Abandoned
  }

  predicate IsRef(line: Line, item: nat, attempt: int) {
    line.item == item && line.attempt == attempt
  }

  // ---------- what the environment may do ----------

  predicate LineAt(s: System, c: nat, l: nat) {
    c < |s.calls| && l < |s.calls[c].lines|
  }

  /** Some submission that was not declined carries this reference in this state. */
  ghost predicate BankKnows(s: System, item: nat, attempt: int, state: LineState) {
    exists c: nat, l: nat :: LineAt(s, c, l) && Knows(s.calls[c], l, item, attempt, state)
  }

  predicate Knows(call: Call, l: nat, item: nat, attempt: int, state: LineState)
    requires l < |call.lines|
  {
    !WasDeclined(call.phase) && IsRef(call.lines[l], item, attempt) && call.lines[l].state == state
  }

  /** The worker is still between its first transaction and the end of its bank call. */
  ghost predicate BankCallOpen(s: System, item: nat, attempt: int) {
    exists c: nat, l: nat :: LineAt(s, c, l) && (s.calls[c].phase == Calling || s.calls[c].phase == Declined) &&
      IsRef(s.calls[c].lines[l], item, attempt)
  }

  ghost predicate Enabled(s: System, step: Step) {
    match step
    case StartTask(_) => true
    case FinalizeTask => s.finalizing
    case BankPays(c, l) => LineAt(s, c, l) && !WasDeclined(s.calls[c].phase) && s.calls[c].lines[l].state == Submitted
    case BankRejects(c, l) => LineAt(s, c, l) && !WasDeclined(s.calls[c].phase) && s.calls[c].lines[l].state == Submitted
    case BankAnswers(c) => c < |s.calls| && s.calls[c].phase == Calling
    case BankDeclines(c) => c < |s.calls| && s.calls[c].phase == Calling && Untouched(s.calls[c])
    case RollBack(c) => c < |s.calls| && s.calls[c].phase == Declined
    case RollbackLost(c) => c < |s.calls| && s.calls[c].phase == Declined
    case Deliver(i, a, e) =>
      && i < |s.batch.items|
      && (e.Successful? ==> BankKnows(s, i, a, Paid))
      && (e.Unsuccessful? ==> BankKnows(s, i, a, Rejected))
    case AdminResolves(i, o) =>
      && i < |s.batch.items|
      && var a := s.batch.items[i].attempt;
      && !BankCallOpen(s, i, a)
      && (o == ResolvePaid ==> BankKnows(s, i, a, Paid))
      && (o == ResolveFailed ==> !BankKnows(s, i, a, Paid) && !BankKnows(s, i, a, Submitted))
    case AdminRetries(_) => true
  }

  ghost predicate Untouched(call: Call) {
    forall l | 0 <= l < |call.lines| :: call.lines[l].state == Submitted
  }

  // ---------- what each step does ----------

  function LinesFor(items: seq<Item>, ids: seq<nat>): (lines: seq<Line>)
    requires forall j | 0 <= j < |ids| :: ids[j] < |items|
    ensures |lines| == |ids|
  {
    seq(|ids|, j requires 0 <= j < |ids| => Line(ids[j], items[ids[j]].attempt, Submitted))
  }

  function SetPhase(s: System, c: nat, p: Phase): System
    requires c < |s.calls|
  {
    s.(calls := s.calls[c := s.calls[c].(phase := p)])
  }

  function SetLine(s: System, c: nat, l: nat, state: LineState): System
    requires LineAt(s, c, l)
  {
    var call := s.calls[c];
    s.(calls := s.calls[c := call.(lines := call.lines[l := call.lines[l].(state := state)])])
  }

  ghost function Perform(s: System, step: Step): (s': System)
    requires Enabled(s, step)
  {
    match step
    case StartTask(employed) =>
      SelectedPending(s.batch.items, employed, true);
      var (b, sent) := StartRound(s.batch, employed);
      match sent {
        case None => s
        case Some(ids) =>
          if ids == [] then System(b, s.calls, true)
          else System(b, s.calls + [Call(LinesFor(s.batch.items, ids), Calling)], s.finalizing)
      }
    case FinalizeTask => System(Finalize(s.batch), s.calls, false)
    case BankPays(c, l) => SetLine(s, c, l, Paid)
    case BankRejects(c, l) => SetLine(s, c, l, Rejected)
    case BankAnswers(c) => SetPhase(s, c, Answered)
    case BankDeclines(c) => SetPhase(s, c, Declined)
    case RollBack(c) => SetPhase(s, c, RolledBack).(batch := Rollback(s.batch))
    case RollbackLost(c) => SetPhase(s, c, Abandoned)
    case Deliver(i, a, e) => s.(batch := Callback(s.batch, i, a, e))
    case AdminResolves(i, o) => s.(batch := Resolve(s.batch, i, o, true, true, true).0)
    case AdminRetries(active) => s.(batch := Retry(s.batch, active).0)
  }

  /** A batch as CreatePayroll commits it: lines of zero net pay are already completed. */
  ghost predicate Initial(s: System) {
    && s.batch.status == Pending && s.batch.pendingCount == 0 && s.calls == [] && !s.finalizing
    && forall k | 0 <= k < |s.batch.items| ::
         s.batch.items[k].attempt == 1 && (s.batch.items[k].status == Pending || s.batch.items[k].status == Completed)
  }

  ghost predicate IsRun(s: System, steps: seq<Step>)
    decreases steps
  {
    steps == [] || (Enabled(s, steps[0]) && IsRun(Perform(s, steps[0]), steps[1..]))
  }

  ghost function After(s: System, steps: seq<Step>): System
    requires IsRun(s, steps)
    decreases steps
  {
    if steps == [] then s else After(Perform(s, steps[0]), steps[1..])
  }

  // ---------- the invariant ----------

  /** The counter and the statuses agree. */
  ghost predicate BatchOk(b: Batch) {
    && (forall k | 0 <= k < |b.items| :: b.items[k].attempt >= 1)
    && (b.status == Processing ==> b.pendingCount == Count(b.items, Processing) && Count(b.items, Pending) == 0)
    && (b.status == Pending || b.status == Failed ==> Count(b.items, Processing) == 0)
    && (b.status == Completed ==> forall k | 0 <= k < |b.items| :: b.items[k].status == Completed)
  }

  /** This line can no longer move money. */
  predicate Dead(p: Phase, line: Line) {
    WasDeclined(p) || line.state == Rejected
  }

  ghost predicate LineOk(items: seq<Item>, p: Phase, line: Line) {
    && line.item < |items|
    && var it := items[line.item];
    && 1 <= line.attempt <= it.attempt
    && (WasDeclined(p) ==> line.state == Submitted)
    && (line.attempt < it.attempt ==> Dead(p, line))
    && (line.attempt == it.attempt ==>
          && (it.status == Pending ==> p == RolledBack)
          && (it.status == Failed ==> Dead(p, line))
          && (it.status == Completed ==> Dead(p, line) || line.state == Paid))
  }

  ghost predicate DistinctItems(lines: seq<Line>) {
    forall j, k | 0 <= j < k < |lines| :: lines[j].item != lines[k].item
  }

  /** A call that may still end in a rollback. */
  ghost predicate Exposed(call: Call) {
    call.phase == Declined || (call.phase == Calling && Untouched(call))
  }

  /** The call's lines are exactly the items in processing. */
  ghost predicate Covers(b: Batch, call: Call) {
    && b.status == Processing
    && (forall l | 0 <= l < |call.lines| :: LineCurrent(b.items, call.lines[l]))
    && (forall k | 0 <= k < |b.items| && b.items[k].status == Processing :: Carries(call, k))
  }

  ghost predicate LineCurrent(items: seq<Item>, line: Line) {
    && line.item < |items| && items[line.item].status == Processing && items[line.item].attempt == line.attempt
  }

  ghost predicate Carries(call: Call, k: int) {
    exists l :: 0 <= l < |call.lines| && call.lines[l].item == k
  }

  ghost predicate CallOk(b: Batch, call: Call) {
    && call.lines != [] && DistinctItems(call.lines)
    && (forall l | 0 <= l < |call.lines| :: LineOk(b.items, call.phase, call.lines[l]))
    && (Exposed(call) ==> Covers(b, call))
  }

  ghost predicate SameRef(x: Line, y: Line) {
    x.item == y.item && x.attempt == y.attempt
  }

  ghost predicate NoSharedRef(x: Call, y: Call) {
    x.phase == RolledBack || y.phase == RolledBack ||
    forall l, m | 0 <= l < |x.lines| && 0 <= m < |y.lines| :: !SameRef(x.lines[l], y.lines[m])
  }

  ghost predicate UniqueRefs(calls: seq<Call>) {
    forall c, d | 0 <= c < d < |calls| :: NoSharedRef(calls[c], calls[d])
  }

  ghost predicate Invariant(s: System) {
    && BatchOk(s.batch)
    && (s.finalizing ==> s.batch.status == Processing && s.batch.pendingCount == 0)
    && (s.batch.status == Processing && s.batch.pendingCount == 0 ==> s.finalizing)
    && (forall c | 0 <= c < |s.calls| :: CallOk(s.batch, s.calls[c]))
    && UniqueRefs(s.calls)
  }

  // ---------- preservation, transaction by transaction ----------

  /** Settling a processing item keeps the counter equal to the items in flight, always
      finds the counter positive, and never hits an illegal edge. */
  lemma SettleKeepsBatchOk(b: Batch, i: nat, next: Status)
    requires BatchOk(b) && b.status == Processing && i < |b.items|
    requires b.items[i].status == Processing && (next == Completed || next == Failed)
    ensures var (b', o) := Settle(b, i, Processing, next);
            && BatchOk(b') && o.Applied? && b.pendingCount > 0
            && b'.items == b.items[i := b.items[i].(status := next)]
            && o.closed == (b.pendingCount == 1)
            && (!o.closed ==> b'.status == Processing && b'.pendingCount == b.pendingCount - 1)
            && (o.closed ==> b'.status == ClosingStatus(b'.items))
  {
    var it := b.items[i].(status := next);
    CountUpdate(b.items, i, it, Processing);
    CountUpdate(b.items, i, it, Pending);
    var items := b.items[i := it];
    CountZero(items, Processing);
    CountZero(items, Pending);
    CountZero(items, Failed);
  }

  /** Where a line of item i in a live call is unique, moving item i to `next` keeps every
      line consistent with it. */
  lemma SettleKeepsCalls(s: System, i: nat, next: Status, b': Batch)
    requires Invariant(s) && i < |s.batch.items|
    requires var it := s.batch.items[i];
             && it.status == Processing && (next == Completed || next == Failed)
             && b'.items == s.batch.items[i := it.(status := next)]
    requires forall c | 0 <= c < |s.calls| :: !Exposed(s.calls[c])
    requires forall c: nat, l: nat | LineAt(s, c, l) && IsRef(s.calls[c].lines[l], i, s.batch.items[i].attempt) ::
               Dead(s.calls[c].phase, s.calls[c].lines[l]) || (next == Completed && s.calls[c].lines[l].state == Paid)
    ensures forall c | 0 <= c < |s.calls| :: CallOk(b', s.calls[c])
  {
    forall c | 0 <= c < |s.calls| ensures CallOk(b', s.calls[c]) {
      var call := s.calls[c];
      assert CallOk(s.batch, call);
      forall l | 0 <= l < |call.lines| ensures LineOk(b'.items, call.phase, call.lines[l]) {
        assert LineAt(s, c, l);
        assert LineOk(s.batch.items, call.phase, call.lines[l]);
      }
    }
  }

  lemma DeliverKeeps(s: System, i: nat, a: int, e: Event)
    requires Invariant(s) && Enabled(s, Deliver(i, a, e))
    ensures Invariant(Perform(s, Deliver(i, a, e)))
    ensures Callback(s.batch, i, a, e) != s.batch ==> s.batch.pendingCount > 0
  {
    var b := s.batch;
    var b' := Callback(b, i, a, e);
    var it := b.items[i];
    if a == it.attempt && it.status != Completed && it.status != Failed && e != OtherEvent {
      var want := if e.Successful? then Paid else Rejected;
      var c0: nat, l0: nat :| LineAt(s, c0, l0) && Knows(s.calls[c0], l0, i, a, want);
      assert CallOk(b, s.calls[c0]);
      assert LineOk(b.items, s.calls[c0].phase, s.calls[c0].lines[l0]);
      assert it.status == Processing;
      ProcessingItemMeansProcessingBatch(b, i);
      NothingExposed(s, c0, l0, want);
      if b' != b {
        var next := if e.Successful? then Completed else Failed;
        SettleKeepsBatchOk(b, i, next);
        forall c: nat, l: nat | LineAt(s, c, l) && IsRef(s.calls[c].lines[l], i, a)
          ensures Dead(s.calls[c].phase, s.calls[c].lines[l]) || (next == Completed && s.calls[c].lines[l].state == Paid)
        {
          OneLiveLine(s, c0, l0, c, l);
        }
        SettleKeepsCalls(s, i, next, b');
      }
    }
  }

  lemma ProcessingItemMeansProcessingBatch(b: Batch, i: nat)
    requires BatchOk(b) && i < |b.items| && b.items[i].status == Processing
    ensures b.status == Processing
  {
    CountZero(b.items, Processing);
  }

  /** Two lines with one reference are the same line, unless one was rolled back. */
  lemma OneLiveLine(s: System, c: nat, l: nat, d: nat, m: nat)
    requires Invariant(s) && LineAt(s, c, l) && LineAt(s, d, m)
    requires SameRef(s.calls[c].lines[l], s.calls[d].lines[m])
    requires s.calls[c].phase != RolledBack
    ensures s.calls[d].phase == RolledBack || (c == d && l == m)
  {
    if c < d {
      assert NoSharedRef(s.calls[c], s.calls[d]);
    } else if d < c {
      assert NoSharedRef(s.calls[d], s.calls[c]);
    } else {
      assert CallOk(s.batch, s.calls[c]);
    }
  }

  /** While call c may be rolled back, any other call with a current line is history. */
  lemma SharesWithCovering(s: System, c: nat, d: nat, l: nat)
    requires Invariant(s) && c < |s.calls| && Exposed(s.calls[c])
    requires LineAt(s, d, l) && d != c && LineCurrent(s.batch.items, s.calls[d].lines[l])
    ensures s.calls[d].phase == RolledBack
  {
    assert CallOk(s.batch, s.calls[c]);
    var k := s.calls[d].lines[l].item;
    assert Carries(s.calls[c], k);
    var m :| 0 <= m < |s.calls[c].lines| && s.calls[c].lines[m].item == k;
    assert LineCurrent(s.batch.items, s.calls[c].lines[m]);
    OneLiveLine(s, c, m, d, l);
  }

  /** Once the bank has acted on the line of a processing item, no call can be rolled back. */
  lemma NothingExposed(s: System, c0: nat, l0: nat, state: LineState)
    requires Invariant(s) && LineAt(s, c0, l0) && state != Submitted
    requires !WasDeclined(s.calls[c0].phase) && s.calls[c0].lines[l0].state == state
    requires LineCurrent(s.batch.items, s.calls[c0].lines[l0])
    ensures forall c | 0 <= c < |s.calls| :: !Exposed(s.calls[c])
  {
    forall c | 0 <= c < |s.calls| ensures !Exposed(s.calls[c]) {
      if Exposed(s.calls[c]) {
        assert CallOk(s.batch, s.calls[c]);
        if c != c0 { SharesWithCovering(s, c, c0, l0); }
      }
    }
  }

  lemma ResolveKeeps(s: System, i: nat, o: Resolution)
    requires Invariant(s) && Enabled(s, AdminResolves(i, o))
    ensures Invariant(Perform(s, AdminResolves(i, o)))
    ensures s.batch.items[i].status == Processing ==> s.batch.pendingCount > 0
  {
    var b, it := s.batch, s.batch.items[i];
    if it.status == Processing {
      var next := if o == ResolvePaid then Completed else Failed;
      ProcessingItemMeansProcessingBatch(b, i);
      SettleKeepsBatchOk(b, i, next);
      forall c | 0 <= c < |s.calls| ensures !Exposed(s.calls[c]) {
        if Exposed(s.calls[c]) {
          assert CallOk(b, s.calls[c]);
          assert Carries(s.calls[c], i);
          var l :| 0 <= l < |s.calls[c].lines| && s.calls[c].lines[l].item == i;
          assert LineCurrent(b.items, s.calls[c].lines[l]);
          assert LineAt(s, c, l) && IsRef(s.calls[c].lines[l], i, it.attempt);
        }
      }
      forall c: nat, l: nat | LineAt(s, c, l) && IsRef(s.calls[c].lines[l], i, it.attempt)
        ensures Dead(s.calls[c].phase, s.calls[c].lines[l]) || (next == Completed && s.calls[c].lines[l].state == Paid)
      {
        if o == ResolvePaid {
          var c0: nat, l0: nat :| LineAt(s, c0, l0) && Knows(s.calls[c0], l0, i, it.attempt, Paid);
          OneLiveLine(s, c0, l0, c, l);
        } else if !WasDeclined(s.calls[c].phase) {
          assert !Knows(s.calls[c], l, i, it.attempt, Paid) && !Knows(s.calls[c], l, i, it.attempt, Submitted);
        }
      }
      SettleKeepsCalls(s, i, next, Settle(b, i, Processing, next).0);
    }
  }

  lemma NotProcessingMeansNothingExposed(s: System)
    requires Invariant(s) && s.batch.status != Processing
    ensures forall c | 0 <= c < |s.calls| :: !Exposed(s.calls[c])
  {
    forall c | 0 <= c < |s.calls| ensures !Exposed(s.calls[c]) {
      assert CallOk(s.batch, s.calls[c]);
    }
  }

  lemma RetryKeeps(s: System, active: set<nat>)
    requires Invariant(s)
    ensures Invariant(Perform(s, AdminRetries(active)))
  {
    if s.batch.status == Failed {
      var items := RetryItems(s.batch.items, active);
      CountZero(s.batch.items, Processing);
      CountZero(items, Processing);
      NotProcessingMeansNothingExposed(s);
      forall c | 0 <= c < |s.calls| ensures CallOk(s.batch.(items := items), s.calls[c]) {
        var call := s.calls[c];
        assert CallOk(s.batch, call);
        forall l | 0 <= l < |call.lines| ensures LineOk(items, call.phase, call.lines[l]) {
          assert LineOk(s.batch.items, call.phase, call.lines[l]);
        }
      }
    }
  }

  lemma StartKeepsBatchOk(b: Batch, employed: set<nat>)
    requires BatchOk(b) && (b.status == Pending || b.status == Failed)
    ensures BatchOk(StartRound(b, employed).0)
  {
    var items := StartItems(b.items, employed);
    SendableCount(b.items, employed);
    CountZero(items, Pending);
  }

  lemma StartKeeps(s: System, employed: set<nat>)
    requires Invariant(s)
    ensures Invariant(Perform(s, StartTask(employed)))
  {
    var b := s.batch;
    if b.status == Pending || b.status == Failed {
      var ids := StartRound(b, employed).1.value;
      var b' := StartRound(b, employed).0;
      SelectedPending(b.items, employed, true);
      StartKeepsBatchOk(b, employed);
      NotProcessingMeansNothingExposed(s);
      forall c | 0 <= c < |s.calls| ensures CallOk(b', s.calls[c]) {
        var call := s.calls[c];
        assert CallOk(b, call);
        forall l | 0 <= l < |call.lines| ensures LineOk(b'.items, call.phase, call.lines[l]) {
          assert LineOk(b.items, call.phase, call.lines[l]);
        }
      }
      forall j | 0 <= j < |ids| ensures b.items[ids[j]].status == Pending { assert ids[j] in ids; }
      if ids != [] {
        NewCallOk(s, employed, ids);
        NewCallUnique(s, ids);
      }
    }
  }

  lemma NewCallOk(s: System, employed: set<nat>, ids: seq<nat>)
    requires Invariant(s) && (s.batch.status == Pending || s.batch.status == Failed)
    requires ids == Select(PendingIds(s.batch.items), employed, true) && ids != []
    requires forall j | 0 <= j < |ids| :: ids[j] < |s.batch.items|
    ensures CallOk(StartRound(s.batch, employed).0, Call(LinesFor(s.batch.items, ids), Calling))
  {
    var items := s.batch.items;
    var call := Call(LinesFor(items, ids), Calling);
    var b' := StartRound(s.batch, employed).0;
    SelectedPending(items, employed, true);
    CountZero(items, Processing);
    forall l | 0 <= l < |call.lines|
      ensures LineCurrent(b'.items, call.lines[l]) && LineOk(b'.items, Calling, call.lines[l])
    {
      assert ids[l] in ids;
    }
    forall k | 0 <= k < |b'.items| && b'.items[k].status == Processing ensures Carries(call, k) {
      assert k in ids;
      var l :| 0 <= l < |ids| && ids[l] == k;
      assert call.lines[l].item == k;
    }
  }

  lemma NewCallUnique(s: System, ids: seq<nat>)
    requires Invariant(s)
    requires forall j | 0 <= j < |ids| :: ids[j] < |s.batch.items| && s.batch.items[ids[j]].status == Pending
    ensures UniqueRefs(s.calls + [Call(LinesFor(s.batch.items, ids), Calling)])
  {
    var call := Call(LinesFor(s.batch.items, ids), Calling);
    forall c | 0 <= c < |s.calls| ensures NoSharedRef(s.calls[c], call) {
      assert CallOk(s.batch, s.calls[c]);
      forall l, m | 0 <= l < |s.calls[c].lines| && 0 <= m < |call.lines| && s.calls[c].phase != RolledBack
        ensures !SameRef(s.calls[c].lines[l], call.lines[m])
      {
        assert LineOk(s.batch.items, s.calls[c].phase, s.calls[c].lines[l]);
      }
    }
  }

  lemma FinalizeKeeps(s: System)
    requires Invariant(s) && s.finalizing
    ensures Invariant(Perform(s, FinalizeTask))
  {
    CountZero(s.batch.items, Processing);
    CountZero(s.batch.items, Pending);
    CountZero(s.batch.items, Failed);
    forall c | 0 <= c < |s.calls| ensures CallOk(Finalize(s.batch), s.calls[c]) {
      assert CallOk(s.batch, s.calls[c]);
      assert Exposed(s.calls[c]) ==> LineCurrent(s.batch.items, s.calls[c].lines[0]);
    }
  }

  /** Releasing the items of refused call c leaves call d consistent. */
  lemma RollBackCall(s: System, c: nat, d: nat)
    requires Invariant(s) && Enabled(s, RollBack(c)) && d < |s.calls| && s.batch.status == Processing
    ensures CallOk(Rollback(s.batch), SetPhase(s, c, RolledBack).calls[d])
  {
    var b, b', call := s.batch, Rollback(s.batch), s.calls[d];
    var after := SetPhase(s, c, RolledBack).calls[d];
    assert CallOk(b, call);
    forall l | 0 <= l < |call.lines| ensures LineOk(b'.items, after.phase, call.lines[l]) {
      assert LineOk(b.items, call.phase, call.lines[l]);
      if d != c && LineCurrent(b.items, call.lines[l]) { SharesWithCovering(s, c, d, l); }
    }
    if d != c && Exposed(call) {
      assert LineCurrent(b.items, call.lines[0]);
      SharesWithCovering(s, c, d, 0);
    }
  }

  lemma RollBackKeeps(s: System, c: nat)
    requires Invariant(s) && Enabled(s, RollBack(c))
    ensures s.batch.status == Processing
    ensures Invariant(Perform(s, RollBack(c)))
  {
    var b := s.batch;
    assert CallOk(b, s.calls[c]);
    assert LineCurrent(b.items, s.calls[c].lines[0]);
    var b' := Rollback(b);
    CountZero(b.items, Processing);
    CountZero(b'.items, Processing);
    var calls := Perform(s, RollBack(c)).calls;
    forall d | 0 <= d < |calls| ensures CallOk(b', calls[d]) { RollBackCall(s, c, d); }
    forall d, e | 0 <= d < e < |calls| ensures NoSharedRef(calls[d], calls[e]) {
      assert NoSharedRef(s.calls[d], s.calls[e]);
    }
  }

  lemma PhaseKeeps(s: System, c: nat, p: Phase)
    requires Invariant(s) && c < |s.calls|
    requires (s.calls[c].phase == Calling && (p == Answered || (p == Declined && Untouched(s.calls[c]))))
             || (s.calls[c].phase == Declined && p == Abandoned)
    ensures Invariant(SetPhase(s, c, p))
  {
    var calls := SetPhase(s, c, p).calls;
    forall d | 0 <= d < |calls| ensures CallOk(s.batch, calls[d]) {
      assert CallOk(s.batch, s.calls[d]);
      forall l | 0 <= l < |calls[d].lines| ensures LineOk(s.batch.items, calls[d].phase, calls[d].lines[l]) {
        assert LineOk(s.batch.items, s.calls[d].phase, s.calls[d].lines[l]);
      }
    }
    forall d, e | 0 <= d < e < |calls| ensures NoSharedRef(calls[d], calls[e]) {
      assert NoSharedRef(s.calls[d], s.calls[e]);
    }
  }

  lemma LineKeeps(s: System, c: nat, l: nat, state: LineState)
    requires Invariant(s) && Enabled(s, BankPays(c, l)) && state != Submitted
    ensures Invariant(SetLine(s, c, l, state))
  {
    var calls := SetLine(s, c, l, state).calls;
    forall d | 0 <= d < |calls| ensures CallOk(s.batch, calls[d]) {
      assert CallOk(s.batch, s.calls[d]);
      forall m | 0 <= m < |calls[d].lines| ensures LineOk(s.batch.items, calls[d].phase, calls[d].lines[m]) {
        assert LineOk(s.batch.items, s.calls[d].phase, s.calls[d].lines[m]);
      }
      if d == c { assert calls[c].lines[l].state != Submitted; }
    }
    forall d, e | 0 <= d < e < |calls| ensures NoSharedRef(calls[d], calls[e]) {
      assert NoSharedRef(s.calls[d], s.calls[e]);
      forall x, y | 0 <= x < |calls[d].lines| && 0 <= y < |calls[e].lines|
        && s.calls[d].phase != RolledBack && s.calls[e].phase != RolledBack
        ensures !SameRef(calls[d].lines[x], calls[e].lines[y])
      {
        assert !SameRef(s.calls[d].lines[x], s.calls[e].lines[y]);
      }
    }
  }

  lemma StepKeeps(s: System, step: Step)
    requires Invariant(s) && Enabled(s, step)
    ensures Invariant(Perform(s, step))
  {
    match step
    case StartTask(employed) => StartKeeps(s, employed);
    case FinalizeTask => FinalizeKeeps(s);
    case BankPays(c, l) => LineKeeps(s, c, l, Paid);
    case BankRejects(c, l) => LineKeeps(s, c, l, Rejected);
    case BankAnswers(c) => PhaseKeeps(s, c, Answered);
    case BankDeclines(c) => PhaseKeeps(s, c, Declined);
    case RollBack(c) => RollBackKeeps(s, c);
    case RollbackLost(c) => PhaseKeeps(s, c, Abandoned);
    case Deliver(i, a, e) => DeliverKeeps(s, i, a, e);
    case AdminResolves(i, o) => ResolveKeeps(s, i, o);
    case AdminRetries(active) => RetryKeeps(s, active);
  }

  // ---------- the theorems ----------

  lemma InitialInvariant(s: System)
    requires Initial(s)
    ensures Invariant(s)
  {
    CountZero(s.batch.items, Processing);
  }

  lemma {:induction false} RunKeeps(s: System, steps: seq<Step>)
    requires Invariant(s) && IsRun(s, steps)
    ensures Invariant(After(s, steps))
    decreases steps
  {
    if steps != [] {
      StepKeeps(s, steps[0]);
      RunKeeps(Perform(s, steps[0]), steps[1..]);
    }
  }

  /** Every reachable state: the counter matches the items in flight. */
  lemma CounterMatchesItems(s0: System, steps: seq<Step>)
    requires Initial(s0) && IsRun(s0, steps)
    ensures var b := After(s0, steps).batch;
            && (b.status == Processing ==> b.pendingCount == Count(b.items, Processing) && Count(b.items, Pending) == 0)
            && (b.status == Pending || b.status == Failed ==> Count(b.items, Processing) == 0)
            && (b.status == Completed ==> forall k | 0 <= k < |b.items| :: b.items[k].status == Completed)
  {
    InitialInvariant(s0);
    RunKeeps(s0, steps);
  }

  /** The settlement of item i took it out of flight and lowered a positive counter by one. */
  predicate Settles(b: Batch, i: nat, b': Batch)
    requires i < |b.items|
  {
    b.pendingCount > 0 && b.items[i].status == Processing && b'.pendingCount == b.pendingCount - 1
  }

  /** In every reachable state a callback or a manual resolution that changes anything finds
      the counter above zero and lowers it by one: the `pending_count > 0` guard never
      fires. */
  lemma GuardNeverFires(s0: System, steps: seq<Step>, step: Step)
    requires Initial(s0) && IsRun(s0, steps) && Enabled(After(s0, steps), step)
    requires step.Deliver? || step.AdminResolves?
    ensures var s := After(s0, steps);
            Perform(s, step).batch != s.batch ==> Settles(s.batch, step.item, Perform(s, step).batch)
  {
    InitialInvariant(s0);
    RunKeeps(s0, steps);
    var s := After(s0, steps);
    if Perform(s, step).batch != s.batch {
      match step
      case Deliver(i, a, e) => DeliverSettles(s, i, a, e);
      case AdminResolves(i, o) => ResolveSettles(s, i, o);
    }
  }

  lemma DeliverSettles(s: System, i: nat, a: int, e: Event)
    requires Invariant(s) && Enabled(s, Deliver(i, a, e)) && Callback(s.batch, i, a, e) != s.batch
    ensures Settles(s.batch, i, Callback(s.batch, i, a, e))
  {
    var b := s.batch;
    var want := if e.Successful? then Paid else Rejected;
    var c0: nat, l0: nat :| LineAt(s, c0, l0) && Knows(s.calls[c0], l0, i, a, want);
    assert CallOk(b, s.calls[c0]);
    assert LineOk(b.items, s.calls[c0].phase, s.calls[c0].lines[l0]);
    ProcessingItemMeansProcessingBatch(b, i);
    SettleKeepsBatchOk(b, i, if e.Successful? then Completed else Failed);
  }

  lemma ResolveSettles(s: System, i: nat, o: Resolution)
    requires Invariant(s) && Enabled(s, AdminResolves(i, o)) && Resolve(s.batch, i, o, true, true, true).0 != s.batch
    ensures Settles(s.batch, i, Resolve(s.batch, i, o, true, true, true).0)
  {
    ProcessingItemMeansProcessingBatch(s.batch, i);
    SettleKeepsBatchOk(s.batch, i, if o == ResolvePaid then Completed else Failed);
  }

  /** Every run: a bank reference is in at most one submission that was not refused. */
  lemma ReferenceSubmittedOnce(s0: System, steps: seq<Step>, c: nat, l: nat, d: nat, m: nat)
    requires Initial(s0) && IsRun(s0, steps)
    requires var s := After(s0, steps);
             && LineAt(s, c, l) && LineAt(s, d, m)
             && !WasDeclined(s.calls[c].phase) && !WasDeclined(s.calls[d].phase)
             && SameRef(s.calls[c].lines[l], s.calls[d].lines[m])
    ensures c == d && l == m
  {
    InitialInvariant(s0);
    RunKeeps(s0, steps);
    OneLiveLine(After(s0, steps), c, l, d, m);
  }

  /** Every run: an item is paid at most once across all its attempts, and a paid item is
      either completed or still in flight under the paid attempt, never failed or resent. */
  lemma PaidAtMostOnce(s0: System, steps: seq<Step>, c: nat, l: nat, d: nat, m: nat)
    requires Initial(s0) && IsRun(s0, steps)
    requires var s := After(s0, steps);
             && LineAt(s, c, l) && LineAt(s, d, m)
             && s.calls[c].lines[l].state == Paid && s.calls[d].lines[m].state == Paid
             && s.calls[c].lines[l].item == s.calls[d].lines[m].item
    ensures c == d && l == m
    ensures var s := After(s0, steps);
            var line := s.calls[c].lines[l];
            && line.item < |s.batch.items|
            && var it := s.batch.items[line.item];
            it.attempt == line.attempt && (it.status == Completed || it.status == Processing)
  {
    InitialInvariant(s0);
    RunKeeps(s0, steps);
    var s := After(s0, steps);
    assert CallOk(s.batch, s.calls[c]) && CallOk(s.batch, s.calls[d]);
    assert LineOk(s.batch.items, s.calls[c].phase, s.calls[c].lines[l]);
    assert LineOk(s.batch.items, s.calls[d].phase, s.calls[d].lines[m]);
    OneLiveLine(s, c, l, d, m);
  }

  ghost predicate PaidLine(s: System, k: int) {
    exists c: nat, l: nat :: LineAt(s, c, l) && s.calls[c].lines[l].item == k && s.calls[c].lines[l].state == Paid
  }

  /** Every completed item was completed from the start (nothing to pay) or was paid. */
  ghost predicate CompletedArePaid(s0: System, s: System) {
    && |s.batch.items| == |s0.batch.items|
    && forall k | 0 <= k < |s.batch.items| && s.batch.items[k].status == Completed ::
         s0.batch.items[k].status == Completed || PaidLine(s, k)
  }

  lemma PaidLineStays(s: System, step: Step, k: int)
    requires Enabled(s, step) && PaidLine(s, k)
    ensures PaidLine(Perform(s, step), k)
  {
    var s' := Perform(s, step);
    var c: nat, l: nat :| LineAt(s, c, l) && s.calls[c].lines[l].item == k && s.calls[c].lines[l].state == Paid;
    assert LineAt(s', c, l) && s'.calls[c].lines[l] == s.calls[c].lines[l];
  }

  lemma NewlyCompletedIsPaid(s: System, step: Step, k: nat)
    requires Invariant(s) && Enabled(s, step) && k < |s.batch.items|
    requires s.batch.items[k].status != Completed
    ensures var s' := Perform(s, step);
            |s'.batch.items| == |s.batch.items| && (s'.batch.items[k].status == Completed ==> PaidLine(s', k))
  {
    var s' := Perform(s, step);
    if s'.batch.items[k].status == Completed {
      var a := s.batch.items[k].attempt;
      assert BankKnows(s, k, a, Paid);
      var c: nat, l: nat :| LineAt(s, c, l) && Knows(s.calls[c], l, k, a, Paid);
      assert LineAt(s', c, l) && s'.calls[c].lines[l].state == Paid;
    }
  }

  lemma {:induction false} PaidThroughRun(s0: System, s: System, steps: seq<Step>)
    requires Invariant(s) && CompletedArePaid(s0, s) && IsRun(s, steps)
    ensures CompletedArePaid(s0, After(s, steps))
    decreases steps
  {
    if steps != [] {
      var s' := Perform(s, steps[0]);
      forall k | 0 <= k < |s.batch.items|
        ensures |s'.batch.items| == |s.batch.items|
        ensures s'.batch.items[k].status == Completed ==> s0.batch.items[k].status == Completed || PaidLine(s', k)
      {
        if s.batch.items[k].status != Completed { NewlyCompletedIsPaid(s, steps[0], k); }
        else if s0.batch.items[k].status != Completed { PaidLineStays(s, steps[0], k); }
      }
      StepKeeps(s, steps[0]);
      PaidThroughRun(s0, s', steps[1..]);
    }
  }

  /** Every run: an item that had something to pay is completed only if the bank paid it
      (once, by PaidAtMostOnce). */
  lemma CompletedMeansPaid(s0: System, steps: seq<Step>, k: nat)
    requires Initial(s0) && IsRun(s0, steps)
    requires k < |s0.batch.items| && s0.batch.items[k].status == Pending
    ensures var s := After(s0, steps);
            |s.batch.items| == |s0.batch.items| && (s.batch.items[k].status == Completed ==> PaidLine(s, k))
  {
    InitialInvariant(s0);
    PaidThroughRun(s0, s0, steps);
  }

  // ---------- what the truthful bank is assumed for ----------

  /** Without that assumption a callback moves an item that was never sent exactly when it
      reports a failure of the current attempt and the batch does not refuse to close on
      it. It then fails the item, and takes one off a positive counter. */
  lemma StrayCallback(b: Batch, i: nat, a: int, e: Event)
    requires i < |b.items| && b.items[i].status == Pending
    ensures var r := Callback(b, i, a, e);
            && (r != b <==>
                  && a == b.items[i].attempt && e == Unsuccessful
                  && !(b.pendingCount == 1 && !CanTransition(b.status, Failed)))
            && (r != b ==>
                  && r.items == b.items[i := b.items[i].(status := Failed)]
                  && r.pendingCount == (if b.pendingCount > 0 then b.pendingCount - 1 else b.pendingCount))
  {
    if a == b.items[i].attempt && e == Unsuccessful {
      var items := b.items[i := b.items[i].(status := Failed)];
      assert items[i].status != b.items[i].status;
      CountZero(items, Failed);
      assert ClosingStatus(items) == Failed;
    }
  }

  /** A batch whose submission was refused and rolled back keeps a positive counter, so a
      stray failure does reach it. */
  lemma RolledBackCounter(s: System, c: nat)
    requires Invariant(s) && Enabled(s, RollBack(c))
    ensures Perform(s, RollBack(c)).batch.pendingCount > 0
  {
    RollBackKeeps(s, c);
    assert CallOk(s.batch, s.calls[c]);
    assert LineCurrent(s.batch.items, s.calls[c].lines[0]);
    CountZero(s.batch.items, Processing);
  }

  /** The states of a run of one item: refused, rolled back, resent under the same reference,
      then a stray failure of that reference, a retry, and a third submission. */
  function OneItem(amount: int): System {
    System(Batch(Pending, 0, [Item(Pending, 1, amount)]), [], false)
  }

  predicate Is(s: System, status: Status, count: int, item: Item, calls: seq<Call>) {
    s == System(Batch(status, count, [item]), calls, false)
  }

  lemma OneSendable(items: seq<Item>, employed: set<nat>)
    requires |items| == 1 && items[0].status == Pending && 0 in employed
    ensures Select(PendingIds(items), employed, true) == [0]
    ensures StartItems(items, employed) == [items[0].(status := Processing)]
  {
    var ids := PendingIds(items);
    assert ids == PendingIds(items[..0]) + [0] && PendingIds(items[..0]) == [];
    assert ids == [0] && ids[..0] == [];
    assert Select(ids, employed, true) == Select(ids[..0], employed, true) + [0];
  }

  lemma StartOne(s: System, status: Status, count: int, item: Item, calls: seq<Call>)
    requires Is(s, status, count, item, calls) && (status == Pending || status == Failed) && item.status == Pending
    ensures Is(Perform(s, StartTask({0})), Processing, 1, item.(status := Processing),
               calls + [Call([Line(0, item.attempt, Submitted)], Calling)])
  {
    var items, employed := s.batch.items, {0};
    OneSendable(items, employed);
    assert StartRound(s.batch, employed) == (Batch(Processing, 1, [item.(status := Processing)]), Some([0]));
    assert LinesFor(items, [0]) == [Line(0, item.attempt, Submitted)];
  }

  lemma DeclineOne(s: System, item: Item)
    requires Is(s, Processing, 1, item, [Call([Line(0, 1, Submitted)], Calling)]) && item.status == Processing
    ensures Enabled(s, BankDeclines(0))
    ensures var t := Perform(s, BankDeclines(0));
            && Enabled(t, RollBack(0))
            && Is(Perform(t, RollBack(0)), Failed, 1, item.(status := Pending), [Call([Line(0, 1, Submitted)], RolledBack)])
  {
    var t := Perform(s, BankDeclines(0));
    assert t.calls == [Call([Line(0, 1, Submitted)], Declined)];
    assert ReleaseItems(s.batch.items) == [item.(status := Pending)];
    assert Perform(t, RollBack(0)).calls == [Call([Line(0, 1, Submitted)], RolledBack)];
  }

  lemma StrayOne(b: Batch, item: Item)
    requires b == Batch(Processing, 1, [item]) && item.status == Processing
    ensures Callback(b, 0, item.attempt, Unsuccessful) == Batch(Failed, 0, [item.(status := Failed)])
  {
    var items := [item.(status := Failed)];
    assert b.items[0 := item.(status := Failed)] == items;
    CountZero(items, Failed);
    assert items[0].status == Failed;
  }

  lemma RetryOne(s: System, item: Item, calls: seq<Call>)
    requires Is(s, Failed, 0, item, calls) && item.status == Failed
    ensures Is(Perform(s, AdminRetries({0})), Failed, 0, item.(status := Pending, attempt := item.attempt + 1), calls)
  {
    assert RetryItems(s.batch.items, {0}) == [item.(status := Pending, attempt := item.attempt + 1)];
  }

  lemma PayOne(s: System, c: nat)
    requires c < |s.calls| && |s.calls[c].lines| == 1 && s.calls[c].lines[0].state == Submitted && !WasDeclined(s.calls[c].phase)
    ensures Enabled(s, BankPays(c, 0))
    ensures var t := Perform(s, BankPays(c, 0));
            t.batch == s.batch && |t.calls| == |s.calls|
            && (forall d | 0 <= d < |s.calls| && d != c :: t.calls[d] == s.calls[d])
            && t.calls[c] == Call([s.calls[c].lines[0].(state := Paid)], s.calls[c].phase)
  {
    assert s.calls[c].lines[0 := s.calls[c].lines[0].(state := Paid)] == [s.calls[c].lines[0].(state := Paid)];
  }

  /** Refused, rolled back, and sent again under the same reference. */
  function Resend(): seq<Step> { [StartTask({0}), BankDeclines(0), RollBack(0), StartTask({0})] }

  /** Retried under attempt 2, and both live submissions paid. */
  function PayBoth(): seq<Step> { [AdminRetries({0}), StartTask({0}), BankPays(1, 0), BankPays(2, 0)] }

  lemma Resent(amount: int, start: System, run: seq<Step>)
    requires start == OneItem(amount) && run == Resend()
    ensures IsRun(start, run)
    ensures Is(After(start, run), Processing, 1, Item(Processing, 1, amount),
               [Call([Line(0, 1, Submitted)], RolledBack), Call([Line(0, 1, Submitted)], Calling)])
  {
    var item := Item(Pending, 1, amount);
    var sent := Perform(start, StartTask({0}));
    StartOne(start, Pending, 0, item, []);
    assert [] + [Call([Line(0, 1, Submitted)], Calling)] == [Call([Line(0, 1, Submitted)], Calling)];
    DeclineOne(sent, item.(status := Processing));
    var declined := Perform(sent, BankDeclines(0));
    var released := Perform(declined, RollBack(0));
    StartOne(released, Failed, 1, item, released.calls);
    var s := Perform(released, StartTask({0}));
    assert s.calls == [Call([Line(0, 1, Submitted)], RolledBack), Call([Line(0, 1, Submitted)], Calling)];
    RunOfFour(start, StartTask({0}), BankDeclines(0), RollBack(0), StartTask({0}));
  }

  lemma BothPaid(amount: int, stray: System, run: seq<Step>)
    requires run == PayBoth()
    requires Is(stray, Failed, 0, Item(Failed, 1, amount),
                [Call([Line(0, 1, Submitted)], RolledBack), Call([Line(0, 1, Submitted)], Calling)])
    ensures IsRun(stray, run)
    ensures var end := After(stray, run);
            LineAt(end, 1, 0) && end.calls[1].lines[0] == Line(0, 1, Paid) && LineAt(end, 2, 0) && end.calls[2].lines[0] == Line(0, 2, Paid)
  {
    var retried := Perform(stray, AdminRetries({0}));
    RetryOne(stray, Item(Failed, 1, amount), stray.calls);
    var again := Perform(retried, StartTask({0}));
    StartOne(retried, Failed, 0, Item(Pending, 2, amount), stray.calls);
    PayOne(again, 1);
    var first := Perform(again, BankPays(1, 0));
    PayOne(first, 2);
    RunOfFour(stray, AdminRetries({0}), StartTask({0}), BankPays(1, 0), BankPays(2, 0));
  }

  /** One untruthful callback is enough for a double payment. After a refused submission was
      resent under the same reference, a late failure report for it makes the item
      retryable while the resend is live, and the bank pays both. */
  lemma StrayFailurePaysTwice(amount: int, start: System, before: seq<Step>, later: seq<Step>)
    requires start == OneItem(amount) && before == Resend() && later == PayBoth()
    ensures Initial(start) && IsRun(start, before)
    ensures var s := After(start, before);
            var stray := s.(batch := Callback(s.batch, 0, 1, Unsuccessful));
            && IsRun(stray, later)
            && var end := After(stray, later);
            && LineAt(end, 1, 0) && end.calls[1].lines[0] == Line(0, 1, Paid)
            && LineAt(end, 2, 0) && end.calls[2].lines[0] == Line(0, 2, Paid)
  {
    Resent(amount, start, before);
    var s := After(start, before);
    StrayOne(s.batch, Item(Processing, 1, amount));
    BothPaid(amount, s.(batch := Callback(s.batch, 0, 1, Unsuccessful)), later);
  }

  lemma RunOfFour(s: System, a: Step, b: Step, c: Step, d: Step)
    requires Enabled(s, a) && Enabled(Perform(s, a), b) && Enabled(Perform(Perform(s, a), b), c)
    requires Enabled(Perform(Perform(Perform(s, a), b), c), d)
    ensures IsRun(s, [a, b, c, d]) && After(s, [a, b, c, d]) == Perform(Perform(Perform(Perform(s, a), b), c), d)
  {
    var s1, s2, s3 := Perform(s, a), Perform(Perform(s, a), b), Perform(Perform(Perform(s, a), b), c);
    RunStep(s3, d, []);
    RunStep(s2, c, [d]);
    RunStep(s1, b, [c, d]);
    RunStep(s, a, [b, c, d]);
  }

  lemma RunStep(s: System, a: Step, rest: seq<Step>)
    requires Enabled(s, a) && IsRun(Perform(s, a), rest)
    ensures IsRun(s, [a] + rest) && After(s, [a] + rest) == After(Perform(s, a), rest)
  {
    assert ([a] + rest)[1..] == rest;
  }
}
