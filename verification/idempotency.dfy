/** The Idempotency-Key middleware (internal/api/middleware/idempotency.go) as a timed
    protocol on one shared Redis key: look up, claim, run the handler, store or release.

    Requests interleave between these four points, and time passes between any two steps.
    Times are in seconds. Every call to Redis may fail, and a handler may crash. */
module Idempotency {
  import opened Wrappers

  const RESPONSE_TTL := 24 * 60 * 60
  const INFLIGHT_TTL := 60

  datatype Value = Inflight | Cached(status: int, body: string, hash: string)

  datatype Cell = Cell(value: Value, expires: int)

  datatype Answer =
    | Busy                              // 409: a request with this key is in flight
    | Mismatch                          // 422: the key was used with another body
    | Unavailable                       // 500: the claim failed
    | Replayed(status: int, body: string)
    | Executed(status: int, body: string)
    | Crashed                           // the handler never answered

  datatype Phase = Arrived | Missed | Running(since: int) | Done(answer: Answer)

  /** A request, by the digest of its body. */
  datatype Request = Request(hash: string, phase: Phase)

  datatype Server = Server(now: int, cell: Option<Cell>, requests: seq<Request>)

  /** What Redis holds under the key, its expiry taken into account. */
  function Live(s: Server): Option<Value> {
    if s.cell.Some? && s.now < s.cell.value.expires then Some(s.cell.value.value) else None
  }

  predicate IsIn(s: Server, i: nat, phase: Phase) {
    i < |s.requests| && s.requests[i].phase == phase
  }

  predicate IsRunning(s: Server, i: nat) {
    i < |s.requests| && s.requests[i].phase.Running?
  }

  function WithPhase(s: Server, i: nat, phase: Phase): Server
    requires i < |s.requests|
  {
    s.(requests := s.requests[i := s.requests[i].(phase := phase)])
  }

  /** The lookup's outcome for a request with this digest. */
  function Lookup(live: Option<Value>, hash: string): Phase {
    match live
    case None => Missed
    case Some(Inflight) => Done(Busy)
    case Some(Cached(status, body, h)) => if h == hash then Done(Replayed(status, body)) else Done(Mismatch)
  }

  predicate IsSuccess(status: int) { 200 <= status < 300 }

  /** The cell once a handler has answered: only a success is kept. */
  function Stored(now: int, status: int, body: string, hash: string): Option<Cell> {
    if IsSuccess(status) then Some(Cell(Cached(status, body, hash), now + RESPONSE_TTL)) else None
  }

  datatype Step =
    | Arrive(hash: string)
    | Get(i: nat)
    | GetFails(i: nat)
    | Claim(i: nat)
    | ClaimFails(i: nat)
    | Finish(i: nat, status: int, body: string)
    | FinishUnstored(i: nat, status: int, body: string)
    | Crash(i: nat)
    | Tick(seconds: nat)

  predicate Enabled(s: Server, step: Step) {
    match step
    case Arrive(_) => true
    case Get(i) => IsIn(s, i, Arrived)
    case GetFails(i) => IsIn(s, i, Arrived)
    case Claim(i) => IsIn(s, i, Missed)
    case ClaimFails(i) => IsIn(s, i, Missed)
    case Finish(i, _, _) => IsRunning(s, i)
    case FinishUnstored(i, _, _) => IsRunning(s, i)
    case Crash(i) => IsRunning(s, i)
    case Tick(_) => true
  }

  function Perform(s: Server, step: Step): Server
    requires Enabled(s, step)
  {
    match step
    case Arrive(hash) => s.(requests := s.requests + [Request(hash, Arrived)])
    case Get(i) => WithPhase(s, i, Lookup(Live(s), s.requests[i].hash))
    case GetFails(i) => WithPhase(s, i, Missed)
    case Claim(i) =>
      if Live(s).Some? then WithPhase(s, i, Done(Busy))
      else WithPhase(s, i, Running(s.now)).(cell := Some(Cell(Inflight, s.now + INFLIGHT_TTL)))
    case ClaimFails(i) => WithPhase(s, i, Done(Unavailable))
    case Finish(i, status, body) =>
      WithPhase(s, i, Done(Executed(status, body))).(cell := Stored(s.now, status, body, s.requests[i].hash))
    case FinishUnstored(i, status, body) => WithPhase(s, i, Done(Executed(status, body)))
    case Crash(i) => WithPhase(s, i, Done(Crashed))
    case Tick(seconds) => s.(now := s.now + seconds)
  }

  predicate IsRun(s: Server, steps: seq<Step>)
    decreases |steps|, 0
  {
    steps == [] || (IsRun(s, steps[..|steps| - 1]) && Enabled(After(s, steps[..|steps| - 1]), steps[|steps| - 1]))
  }

  function After(s: Server, steps: seq<Step>): Server
    requires IsRun(s, steps)
    decreases |steps|, 1
  {
    if steps == [] then s else Perform(After(s, steps[..|steps| - 1]), steps[|steps| - 1])
  }

  predicate Initial(s: Server) { s.cell.None? && s.requests == [] }

  /** The run goes from s to t. */
  predicate Leads(s: Server, steps: seq<Step>, t: Server) {
    IsRun(s, steps) && After(s, steps) == t
  }

  /** One more step of the run, from the state that its first n steps lead to. */
  lemma Extend(s: Server, steps: seq<Step>, n: nat, t: Server, u: Server)
    requires n < |steps| && Leads(s, steps[..n], t) && Enabled(t, steps[n]) && u == Perform(t, steps[n])
    ensures Leads(s, steps[..n + 1], u)
  {
    assert steps[..n + 1][..n] == steps[..n];
  }

  // ---------- when two handlers overlap ----------

  ghost predicate Overlaps(s: Server) {
    exists i: nat, j: nat :: i != j && IsRunning(s, i) && IsRunning(s, j)
  }

  /** A handler is running although its sentinel has expired. */
  ghost predicate Overdue(s: Server) {
    exists i: nat :: IsRunning(s, i) && s.now >= s.requests[i].phase.since + INFLIGHT_TTL
  }

  /** Two handlers overlap at some point of the run. */
  ghost predicate EverOverlaps(s: Server, steps: seq<Step>)
    requires IsRun(s, steps)
  {
    Overlaps(After(s, steps)) || (steps != [] && EverOverlaps(s, steps[..|steps| - 1]))
  }

  /** Some claim of the run is made while a handler is overdue. */
  ghost predicate ClaimsOverdue(s: Server, steps: seq<Step>)
    requires IsRun(s, steps)
  {
    steps != [] &&
    (ClaimsOverdue(s, steps[..|steps| - 1]) || (steps[|steps| - 1].Claim? && Overdue(After(s, steps[..|steps| - 1]))))
  }

  /** A running handler holds the key: the cell is its own sentinel, expired or not. */
  ghost predicate Exclusive(s: Server) {
    && (forall i: nat | i < |s.requests| && IsRunning(s, i) ::
          s.cell == Some(Cell(Inflight, s.requests[i].phase.since + INFLIGHT_TTL)))
    && !Overlaps(s)
  }

  lemma StepExclusive(s: Server, step: Step)
    requires Exclusive(s) && Enabled(s, step) && !(step.Claim? && Overdue(s))
    ensures Exclusive(Perform(s, step))
  {
    var r := Perform(s, step);
    assert forall k: nat | IsRunning(r, k) :: IsRunning(s, k) || (step.Claim? && k == step.i);
    if step.Claim? && Live(s).None? {
      assert forall k: nat :: !IsRunning(s, k);
    }
  }

  lemma {:induction false} RunExclusive(s: Server, steps: seq<Step>)
    requires Exclusive(s) && IsRun(s, steps) && !ClaimsOverdue(s, steps)
    ensures Exclusive(After(s, steps)) && !EverOverlaps(s, steps)
  {
    if steps != [] {
      RunExclusive(s, steps[..|steps| - 1]);
      StepExclusive(After(s, steps[..|steps| - 1]), steps[|steps| - 1]);
    }
  }

  /** A claim beside an overdue handler always gets in. */
  lemma OverdueClaimOverlaps(s: Server, k: nat)
    requires Exclusive(s) && Overdue(s) && Enabled(s, Claim(k))
    ensures Overlaps(Perform(s, Claim(k)))
  {
    var i: nat :| IsRunning(s, i) && s.now >= s.requests[i].phase.since + INFLIGHT_TTL;
    assert Live(s).None? && i != k;
    assert IsRunning(Perform(s, Claim(k)), i) && IsRunning(Perform(s, Claim(k)), k);
  }

  /** In every run two handlers overlap if and only if somebody claims the key while a
      handler is running beyond the in-flight TTL. */
  lemma {:induction false} OverlapIff(s: Server, steps: seq<Step>)
    requires Initial(s) && IsRun(s, steps)
    ensures EverOverlaps(s, steps) <==> ClaimsOverdue(s, steps)
  {
    if !ClaimsOverdue(s, steps) {
      RunExclusive(s, steps);
    } else {
      var front := steps[..|steps| - 1];
      OverlapIff(s, front);
      if !ClaimsOverdue(s, front) {
        RunExclusive(s, front);
        OverdueClaimOverlaps(After(s, front), steps[|steps| - 1].i);
      }
    }
  }

  /** No handler is ever running beyond the in-flight TTL. */
  ghost predicate Punctual(s: Server, steps: seq<Step>)
    requires IsRun(s, steps)
  {
    !Overdue(After(s, steps)) && (steps == [] || Punctual(s, steps[..|steps| - 1]))
  }

  lemma {:induction false} PunctualClaims(s: Server, steps: seq<Step>)
    requires IsRun(s, steps) && Punctual(s, steps)
    ensures !ClaimsOverdue(s, steps)
  {
    if steps != [] {
      PunctualClaims(s, steps[..|steps| - 1]);
      assert !Overdue(After(s, steps[..|steps| - 1]));
    }
  }

  /** When every handler finishes or crashes within the in-flight TTL no two of them ever
      overlap, however the requests interleave. */
  lemma NoOverlap(s: Server, steps: seq<Step>)
    requires Initial(s) && IsRun(s, steps) && Punctual(s, steps)
    ensures !EverOverlaps(s, steps)
  {
    PunctualClaims(s, steps);
    OverlapIff(s, steps);
  }

  // ---------- when a success is final ----------

  /** The response is stored until `expires`, and nothing is running. */
  ghost predicate Answered(s: Server, response: Value, expires: int) {
    s.cell == Some(Cell(response, expires)) && response.Cached? && forall k: nat :: !IsRunning(s, k)
  }

  lemma StepAnswered(s: Server, step: Step, response: Value, expires: int)
    requires Answered(s, response, expires) && Enabled(s, step) && s.now < expires
    ensures Answered(Perform(s, step), response, expires)
  {
    assert forall k: nat :: IsRunning(Perform(s, step), k) ==> IsRunning(s, k);
  }

  lemma {:induction false} StaysAnswered(s: Server, steps: seq<Step>, response: Value, expires: int)
    requires Answered(s, response, expires) && IsRun(s, steps) && After(s, steps).now < expires
    ensures Answered(After(s, steps), response, expires)
  {
    if steps != [] {
      var front, last := steps[..|steps| - 1], steps[|steps| - 1];
      StaysAnswered(s, front, response, expires);
      StepAnswered(After(s, front), last, response, expires);
    }
  }

  /** No handler but i is running. */
  ghost predicate Alone(s: Server, i: nat) {
    forall k: nat :: IsRunning(s, k) ==> k == i
  }

  lemma PunctualIsAlone(s: Server, steps: seq<Step>, i: nat)
    requires Initial(s) && IsRun(s, steps) && !ClaimsOverdue(s, steps) && IsRunning(After(s, steps), i)
    ensures Alone(After(s, steps), i)
  {
    RunExclusive(s, steps);
  }

  lemma SuccessAnswers(p: Server, i: nat, status: int, body: string, done: Server)
    requires IsRunning(p, i) && Alone(p, i) && 200 <= status < 300 && done == Perform(p, Finish(i, status, body))
    ensures Answered(done, Cached(status, body, done.requests[i].hash), done.now + RESPONSE_TTL)
  {
    assert forall k: nat :: IsRunning(done, k) ==> IsRunning(p, k);
  }

  /** From the moment a handler succeeds in a run without overdue claims, for the full TTL
      and however requests interleave, no handler runs, and Redis holds that response. */
  lemma SuccessIsFinal(s: Server, before: seq<Step>, i: nat, status: int, body: string, done: Server, later: seq<Step>)
    requires Initial(s) && IsRun(s, before) && !ClaimsOverdue(s, before) && 200 <= status < 300
    requires Enabled(After(s, before), Finish(i, status, body)) && done == Perform(After(s, before), Finish(i, status, body))
    requires IsRun(done, later) && After(done, later).now < done.now + RESPONSE_TTL
    ensures Answered(After(done, later), Cached(status, body, done.requests[i].hash), done.now + RESPONSE_TTL)
  {
    PunctualIsAlone(s, before, i);
    SuccessAnswers(After(s, before), i, status, body, done);
    StaysAnswered(done, later, Cached(status, body, done.requests[i].hash), done.now + RESPONSE_TTL);
  }

  /** Whatever follows within the TTL, the response is kept and no handler starts. */
  ghost predicate IsFinal(done: Server, response: Value, expires: int) {
    forall later :: IsRun(done, later) && After(done, later).now < expires ==>
      After(done, later).cell == Some(Cell(response, expires)) &&
      forall k: nat :: !IsRunning(done, k) ==> !IsRunning(After(done, later), k)
  }

  /** What undoes a success: the handler k that was also running fails, which deletes the
      key, and the next request is executed. */
  function Undoing(done: Server, k: nat): seq<Step> {
    [Finish(k, 500, ""), Arrive(""), Get(|done.requests|), Claim(|done.requests|)]
  }

  lemma SecondFailureUndoes(done: Server, k: nat)
    requires IsRunning(done, k)
    ensures IsRun(done, Undoing(done, k)) && After(done, Undoing(done, k)).now == done.now
    ensures IsRunning(After(done, Undoing(done, k)), |done.requests|)
  {
    var n, steps := |done.requests|, Undoing(done, k);
    var failed := Perform(done, Finish(k, 500, ""));
    var arrived := Perform(failed, Arrive(""));
    Extend(done, steps, 0, done, failed);
    Extend(done, steps, 1, failed, arrived);
    FreeRequestRuns(done, steps, n, arrived);
  }

  /** A request that has just arrived at a key without a value looks, claims and runs. */
  lemma FreeRequestRuns(s: Server, steps: seq<Step>, n: nat, arrived: Server)
    requires |steps| >= 2 && steps[|steps| - 2] == Get(n) && steps[|steps| - 1] == Claim(n)
    requires Leads(s, steps[..|steps| - 2], arrived) && arrived.cell.None? && IsIn(arrived, n, Arrived)
    ensures IsRun(s, steps) && After(s, steps).now == arrived.now && IsRunning(After(s, steps), n)
    ensures forall k: nat | k < |arrived.requests| && k != n ::
              |After(s, steps).requests| == |arrived.requests| && After(s, steps).requests[k] == arrived.requests[k]
  {
    var missed := Perform(arrived, Get(n));
    Extend(s, steps, |steps| - 2, arrived, missed);
    Extend(s, steps, |steps| - 1, missed, Perform(missed, Claim(n)));
    assert steps[..|steps|] == steps;
  }

  /** A success is final, whatever follows, if and only if no other handler is running when
      it is stored: the final SET and DEL do not look at who holds the key. */
  lemma FinalIff(p: Server, i: nat, status: int, body: string, done: Server)
    requires IsRunning(p, i) && 200 <= status < 300 && done == Perform(p, Finish(i, status, body))
    ensures IsFinal(done, Cached(status, body, p.requests[i].hash), done.now + RESPONSE_TTL) <==> Alone(p, i)
  {
    var response, expires := Cached(status, body, p.requests[i].hash), done.now + RESPONSE_TTL;
    if Alone(p, i) {
      SuccessAnswers(p, i, status, body, done);
      forall later | IsRun(done, later) && After(done, later).now < expires
        ensures Answered(After(done, later), response, expires)
      {
        StaysAnswered(done, later, response, expires);
      }
    } else {
      var k: nat :| IsRunning(p, k) && k != i;
      SecondFailureUndoes(done, k);
      assert !IsFinal(done, response, expires);
    }
  }

  /** How a request may stand that no handler has run for, once `response` is stored. */
  predicate TurnedAway(r: Request, response: Value)
    requires response.Cached?
  {
    match r.phase
    case Arrived => true
    case Missed => true
    case Running(_) => false
    case Done(Replayed(status, body)) => status == response.status && body == response.body && r.hash == response.hash
    case Done(Mismatch) => r.hash != response.hash
    case Done(Executed(_, _)) => false
    case Done(Crashed) => false
    case Done(_) => true
  }

  /** Every request from the n-th on, and every one before it that `waits`, is turned away. */
  ghost predicate AllTurnedAway(s: Server, response: Value, n: nat, waits: set<nat>)
    requires response.Cached?
  {
    && n <= |s.requests|
    && forall k: nat | k < |s.requests| && (k >= n || k in waits) :: TurnedAway(s.requests[k], response)
  }

  lemma StepTurnsAway(s: Server, step: Step, response: Value, expires: int, n: nat, waits: set<nat>)
    requires Answered(s, response, expires) && Enabled(s, step) && s.now < expires && AllTurnedAway(s, response, n, waits)
    ensures AllTurnedAway(Perform(s, step), response, n, waits)
  {
    var t := Perform(s, step);
    forall k: nat | k < |t.requests| && (k >= n || k in waits) ensures TurnedAway(t.requests[k], response) {
      if k < |s.requests| {
        assert TurnedAway(s.requests[k], response) && !IsRunning(s, k);
      }
    }
  }

  lemma {:induction false} RunTurnsAway(s: Server, steps: seq<Step>, response: Value, expires: int, n: nat, waits: set<nat>)
    requires Answered(s, response, expires) && IsRun(s, steps) && After(s, steps).now < expires
    requires AllTurnedAway(s, response, n, waits)
    ensures AllTurnedAway(After(s, steps), response, n, waits)
  {
    if steps != [] {
      var front, last := steps[..|steps| - 1], steps[|steps| - 1];
      StaysAnswered(s, front, response, expires);
      RunTurnsAway(s, front, response, expires, n, waits);
      StepTurnsAway(After(s, front), last, response, expires, n, waits);
    }
  }

  /** The requests that were on their way when the handler succeeded. */
  function Waiting(s: Server): (waits: set<nat>) {
    set k: nat | k < |s.requests| && (s.requests[k].phase.Arrived? || s.requests[k].phase.Missed?)
  }

  /** For the full TTL after a success and in any interleaving, no request that was waiting
      or arrives later is executed: it is replayed the stored response if its body is the
      same, refused if it is not, or told to come back. */
  lemma OnlyReplays(s: Server, before: seq<Step>, i: nat, status: int, body: string, done: Server, later: seq<Step>, k: nat)
    requires Initial(s) && IsRun(s, before) && !ClaimsOverdue(s, before) && 200 <= status < 300
    requires Enabled(After(s, before), Finish(i, status, body)) && done == Perform(After(s, before), Finish(i, status, body))
    requires IsRun(done, later) && After(done, later).now < done.now + RESPONSE_TTL
    requires k < |After(done, later).requests| && (k >= |done.requests| || k in Waiting(done))
    ensures TurnedAway(After(done, later).requests[k], Cached(status, body, done.requests[i].hash))
  {
    var response := Cached(status, body, done.requests[i].hash);
    SuccessIsFinal(s, before, i, status, body, done, []);
    RunTurnsAway(done, later, response, done.now + RESPONSE_TTL, |done.requests|, Waiting(done));
  }

  // ---------- when the key is released ----------

  /** Nothing is stored and nothing runs. */
  ghost predicate Free(s: Server) {
    s.cell.None? && forall k: nat :: !IsRunning(s, k)
  }

  lemma {:induction false} StaysFree(s: Server, steps: seq<Step>)
    requires Free(s) && IsRun(s, steps) && forall n | 0 <= n < |steps| :: !steps[n].Claim?
    ensures Free(After(s, steps))
  {
    if steps != [] {
      var front, last := steps[..|steps| - 1], steps[|steps| - 1];
      StaysFree(s, front);
      var p := After(s, front);
      assert !last.Claim?;
      assert forall k: nat :: IsRunning(Perform(p, last), k) ==> IsRunning(p, k);
    }
  }

  /** In every run without overdue claims, once a handler has failed the key is free, however
      long nobody claims it, and the next request to claim it runs. */
  lemma FailureReleases(s: Server, before: seq<Step>, i: nat, status: int, body: string, done: Server, later: seq<Step>, k: nat)
    requires Initial(s) && IsRun(s, before) && !ClaimsOverdue(s, before) && !(200 <= status < 300)
    requires Enabled(After(s, before), Finish(i, status, body)) && done == Perform(After(s, before), Finish(i, status, body))
    requires IsRun(done, later) && (forall n | 0 <= n < |later| :: !later[n].Claim?) && IsIn(After(done, later), k, Missed)
    ensures IsRunning(Perform(After(done, later), Claim(k)), k)
  {
    var p := After(s, before);
    PunctualIsAlone(s, before, i);
    assert forall m: nat :: IsRunning(done, m) ==> IsRunning(p, m) && m != i;
    StaysFree(done, later);
  }

  /** The handler is gone and its sentinel is still there. */
  ghost predicate Abandoned(s: Server, expires: int) {
    s.cell == Some(Cell(Inflight, expires)) && forall k: nat :: !IsRunning(s, k)
  }

  /** Some claim of the run is made at time t or later. */
  predicate ClaimsFrom(s: Server, steps: seq<Step>, t: int)
    requires IsRun(s, steps)
  {
    steps != [] &&
    (ClaimsFrom(s, steps[..|steps| - 1], t) || (steps[|steps| - 1].Claim? && After(s, steps[..|steps| - 1]).now >= t))
  }

  lemma {:induction false} StaysAbandoned(s: Server, steps: seq<Step>, expires: int)
    requires Abandoned(s, expires) && IsRun(s, steps) && !ClaimsFrom(s, steps, expires)
    ensures Abandoned(After(s, steps), expires)
  {
    if steps != [] {
      var front, last := steps[..|steps| - 1], steps[|steps| - 1];
      StaysAbandoned(s, front, expires);
      var p := After(s, front);
      assert forall k: nat :: IsRunning(Perform(p, last), k) ==> IsRunning(p, k);
    }
  }

  lemma Abandons(p: Server, gone: Step, i: nat, done: Server)
    requires Exclusive(p) && IsRunning(p, i) && (gone == Crash(i) || (gone.FinishUnstored? && gone.i == i))
    requires done == Perform(p, gone)
    ensures Abandoned(done, p.requests[i].phase.since + INFLIGHT_TTL)
  {
    assert forall m: nat :: IsRunning(done, m) ==> IsRunning(p, m) && m != i;
  }

  lemma AbandonedClaim(t: Server, expires: int, k: nat)
    requires Abandoned(t, expires) && IsIn(t, k, Missed)
    ensures IsRunning(Perform(t, Claim(k)), k) <==> t.now >= expires
  {
  }

  /** In every run without overdue claims, a handler that crashed, or whose answer could not
      be stored, blocks the key for what is left of its in-flight TTL and no longer: the next
      claim runs if and only if that time is over. */
  lemma {:induction false} CrashReleases(s: Server, before: seq<Step>, gone: Step, i: nat, since: int, done: Server,
                                         later: seq<Step>, k: nat)
    requires Initial(s) && IsRun(s, before) && !ClaimsOverdue(s, before) && IsIn(After(s, before), i, Running(since))
    requires (gone == Crash(i) || (gone.FinishUnstored? && gone.i == i)) && done == Perform(After(s, before), gone)
    requires IsRun(done, later) && !ClaimsFrom(done, later, since + INFLIGHT_TTL) && IsIn(After(done, later), k, Missed)
    ensures IsRunning(Perform(After(done, later), Claim(k)), k) <==> After(done, later).now >= since + INFLIGHT_TTL
  {
    RunExclusive(s, before);
    Abandons(After(s, before), gone, i, done);
    StaysAbandoned(done, later, since + INFLIGHT_TTL);
    AbandonedClaim(After(done, later), since + INFLIGHT_TTL, k);
  }

  // ---------- what a slow handler does ----------

  const NOBODY: Server := Server(0, None, [])

  /** Two requests look and find nothing, the first claims and takes 60 seconds, the second
      claims. */
  const SLOW_RUN: seq<Step> := [Arrive(""), Arrive(""), Get(0), Get(1), Claim(0), Tick(60), Claim(1)]

  const BOTH_RUNNING: Server :=
    Server(60, Some(Cell(Inflight, 120)), [Request("", Running(0)), Request("", Running(60))])

  const BOTH_MISSED: Server := Server(0, None, [Request("", Missed), Request("", Missed)])

  lemma SlowRunStarts()
    ensures Leads(NOBODY, SLOW_RUN[..4], BOTH_MISSED)
  {
    var a1 := Perform(NOBODY, Arrive(""));
    var a2 := Perform(a1, Arrive(""));
    var a3 := Perform(a2, Get(0));
    assert Perform(a3, Get(1)).requests == BOTH_MISSED.requests;
    Extend(NOBODY, SLOW_RUN, 0, NOBODY, a1);
    Extend(NOBODY, SLOW_RUN, 1, a1, a2);
    Extend(NOBODY, SLOW_RUN, 2, a2, a3);
    Extend(NOBODY, SLOW_RUN, 3, a3, BOTH_MISSED);
  }

  lemma SlowRunLeads()
    ensures Leads(NOBODY, SLOW_RUN, BOTH_RUNNING)
  {
    SlowRunStarts();
    var a5 := Perform(BOTH_MISSED, Claim(0));
    var a6 := Perform(a5, Tick(60));
    assert Perform(a6, Claim(1)).requests == BOTH_RUNNING.requests;
    Extend(NOBODY, SLOW_RUN, 4, BOTH_MISSED, a5);
    Extend(NOBODY, SLOW_RUN, 5, a5, a6);
    Extend(NOBODY, SLOW_RUN, 6, a6, BOTH_RUNNING);
    assert SLOW_RUN[..7] == SLOW_RUN;
  }

  /** A run from the start in which a second handler joins a slow one. */
  lemma SlowHandlerOverlaps()
    ensures Initial(NOBODY) && IsRun(NOBODY, SLOW_RUN) && Overlaps(After(NOBODY, SLOW_RUN))
  {
    SlowRunLeads();
    assert IsRunning(BOTH_RUNNING, 0) && IsRunning(BOTH_RUNNING, 1);
  }

  /** Then the second handler succeeds, the slow one fails, and a third request comes. */
  const ERASING_RUN: seq<Step> :=
    SLOW_RUN + [Finish(1, 200, ""), Finish(0, 500, ""), Arrive(""), Get(2), Claim(2)]

  /** The late failure deletes the stored success, and a third handler runs at once. */
  lemma LateFailureErasesSuccess()
    ensures Initial(NOBODY) && IsRun(NOBODY, ERASING_RUN) && After(NOBODY, ERASING_RUN).now == 60
    ensures IsIn(After(NOBODY, ERASING_RUN), 1, Done(Executed(200, ""))) && IsRunning(After(NOBODY, ERASING_RUN), 2)
  {
    SlowRunLeads();
    assert ERASING_RUN[..7] == SLOW_RUN;
    var b1 := Perform(BOTH_RUNNING, Finish(1, 200, ""));
    var b2 := Perform(b1, Finish(0, 500, ""));
    var b3 := Perform(b2, Arrive(""));
    Extend(NOBODY, ERASING_RUN, 7, BOTH_RUNNING, b1);
    Extend(NOBODY, ERASING_RUN, 8, b1, b2);
    Extend(NOBODY, ERASING_RUN, 9, b2, b3);
    FreeRequestRuns(NOBODY, ERASING_RUN, 2, b3);
  }

  // ---------- the middleware on the shared key ----------

  class RedisKey {
    var now: int
    var cell: Option<Cell>

    constructor (now: int)
      ensures this.now == now && cell == None
    {
      this.now, cell := now, None;
    }

    method Get() returns (r: Option<Value>)
      ensures forall requests :: r == Live(Server(now, cell, requests))
    {
      r := if cell.Some? && now < cell.value.expires then Some(cell.value.value) else None;
    }

    method SetNX(value: Value, ttl: int) returns (acquired: bool)
      modifies this`cell
      ensures forall requests :: acquired <==> Live(Server(now, old(cell), requests)).None?
      ensures cell == if acquired then Some(Cell(value, now + ttl)) else old(cell)
    {
      var current := Get();
      assert current == Live(Server(now, cell, []));
      acquired := current.None?;
      if acquired { cell := Some(Cell(value, now + ttl)); }
    }

    /** Before the handler: a final answer, or None when the handler is to run. A lookup that
        fails counts as a miss, and the claim then keeps a second handler out; a claim that
        fails ends the request. */
    method Admit(hash: string, getFails: bool, claimFails: bool) returns (answer: Option<Answer>)
      modifies this`cell
      ensures var live := Live(Server(now, old(cell), []));
              && (answer.None? <==> live.None? && !claimFails)
              && cell == (if answer.None? then Some(Cell(Inflight, now + INFLIGHT_TTL)) else old(cell))
              && (live.Some? && !getFails ==> answer.Some? && Done(answer.value) == Lookup(live, hash))
              && (live.None? || getFails ==> answer.None? || answer.value == (if claimFails then Unavailable else Busy))
    {
      if !getFails {
        var cached := Get();
        assert cached == Live(Server(now, cell, []));
        if cached == Some(Inflight) { return Some(Busy); }
        if cached.Some? {
          var c := cached.value;
          return Some(if c.hash == hash then Replayed(c.status, c.body) else Mismatch);
        }
      }
      if claimFails { return Some(Unavailable); }
      var acquired := SetNX(Inflight, INFLIGHT_TTL);
      assert acquired <==> Live(Server(now, old(cell), [])).None?;
      if !acquired { return Some(Busy); }
      return None;
    }

    /** After the handler, and for whoever looks at time t: a success is replayed to the same
        body and refused to any other until the TTL is over; after a failure everyone misses.
        A call to Redis that fails is ignored, and the sentinel stays until it expires. */
    method Complete(hash: string, status: int, body: string, fails: bool)
      modifies this`cell
      ensures fails ==> cell == old(cell)
      ensures !fails ==> cell == Stored(now, status, body, hash)
      ensures !fails ==> forall t: int, h: string ::
                Lookup(Live(Server(t, cell, [])), h) ==
                (if !(200 <= status < 300) || t >= now + RESPONSE_TTL then Missed
                 else if h == hash then Done(Replayed(status, body)) else Done(Mismatch))
    {
      if fails { return; }
      if 200 <= status && status < 300 {
        cell := Some(Cell(Cached(status, body, hash), now + RESPONSE_TTL));
      } else {
        cell := None;
      }
    }
  }
}
