/** What a worker may draw (internal/services/ewa_service.go, ewa_dependency.go).

    The dependency tier, the accrued wages and the velocity guardrails are inputs; the
    caps, the floor and the funding pool are computed as the service computes them. */
module Eligibility {
  import opened Money

  datatype Tier = Healthy | Elevated | Strained | Dependent

  datatype Policy = Policy(
    maxAccrualPct: Int64, absoluteCap: Int64, minDraw: Int64, emergencyFloor: Int64, requireFundingCoverage: bool)

  /** The CHECK constraints on ewa_policies and UpdatePolicy's own validation. */
  predicate ValidPolicy(p: Policy) {
    1 <= p.maxAccrualPct <= 100 && p.absoluteCap > 0 && p.minDraw > 0 && p.emergencyFloor >= 0
  }

  // ---------- accrual ----------

  /** Days are numbered; day 0 is a Monday. */
  predicate IsWorkingDay(day: nat) {
    day % 7 < 5
  }

  function WorkingDays(from: nat, until: nat): (n: nat)
    requires from <= until
    ensures n <= until - from
    decreases until
  {
    if from == until then 0 else WorkingDays(from, until - 1) + (if IsWorkingDay(until - 1) then 1 else 0)
  }

  /** workingDaysBetween: counts in [from, until), zero when the range is empty. */
  method WorkingDaysBetween(from: nat, until: nat) returns (count: nat)
    ensures count == if from <= until then WorkingDays(from, until) else 0
  {
    count := 0;
    var d := from;
    while d < until
      invariant if from <= until then d <= until else d == from
      invariant d >= from && count == WorkingDays(from, d)
    {
      if IsWorkingDay(d) { count := count + 1; }
      d := d + 1;
    }
  }

  /** AccruedToDate over the month [start, end): a day counts once it is over. */
  function AccruedToDate(salary: Int64, start: nat, end: nat, asOf: nat): (r: Result<Int64>)
    requires start <= end <= start + 31
  {
    if salary <= 0 then Ok(0)
    else
      var total := WorkingDays(start, end);
      if total == 0 || asOf < start then Ok(0)
      else if asOf >= end then Ok(salary)
      else
        var elapsed := WorkingDays(start, asOf);
        if elapsed <= 0 then Ok(0) else Percent(salary, elapsed, total)
  }

  lemma {:induction false} WorkingDaysMonotone(start: nat, d: nat, e: nat)
    requires start <= d <= e
    ensures WorkingDays(start, d) <= WorkingDays(start, e)
    decreases e
  {
    if d < e { WorkingDaysMonotone(start, d, e - 1); }
  }

  /** Wages accrue monotonically from zero to the salary and never beyond it. */
  lemma AccrualMonotone(salary: Int64, start: nat, end: nat, d: nat, e: nat)
    requires start <= end <= start + 31 && d <= e
    requires AccruedToDate(salary, start, end, d).Ok? && AccruedToDate(salary, start, end, e).Ok?
    ensures 0 <= AccruedToDate(salary, start, end, d).value <= AccruedToDate(salary, start, end, e).value
    ensures salary >= 0 ==> AccruedToDate(salary, start, end, e).value <= salary
  {
    AccrualBounds(salary, start, end, d);
    AccrualBounds(salary, start, end, e);
    var total := WorkingDays(start, end);
    if salary > 0 && total > 0 && start <= d && e < end {
      WorkingDaysMonotone(start, d, e);
      WorkingDaysMonotone(start, e, end);
      var x, y := WorkingDays(start, d), WorkingDays(start, e);
      if x > 0 {
        PercentExact(salary, x, total);
        PercentExact(salary, y, total);
        MulOrdered(salary, x, y);
        RoundMonotone(salary * x, salary * y, total);
      }
    }
  }

  lemma AccrualBounds(salary: Int64, start: nat, end: nat, asOf: nat)
    requires start <= end <= start + 31
    requires AccruedToDate(salary, start, end, asOf).Ok?
    ensures 0 <= AccruedToDate(salary, start, end, asOf).value
    ensures salary >= 0 ==> AccruedToDate(salary, start, end, asOf).value <= salary
  {
    var total := WorkingDays(start, end);
    if salary > 0 && total > 0 && start <= asOf < end {
      var elapsed := WorkingDays(start, asOf);
      WorkingDaysMonotone(start, asOf, end);
      if elapsed > 0 {
        PercentExact(salary, elapsed, total);
        RoundShare(salary, elapsed, total);
      }
    }
  }

  function Weekdays(from: nat, until: nat): (days: set<nat>) {
    set d: nat | from <= d < until && d % 7 < 5
  }

  lemma {:induction false} WorkingDaysAre(from: nat, until: nat)
    requires from <= until
    ensures WorkingDays(from, until) == |Weekdays(from, until)|
    decreases until
  {
    if from == until {
      assert Weekdays(from, until) == {};
    } else {
      WorkingDaysAre(from, until - 1);
      var last := if (until - 1) % 7 < 5 then {until - 1} else {};
      assert Weekdays(from, until) == Weekdays(from, until - 1) + last;
    }
  }

  /** The accrual is the salary times the share of the month's weekdays that are over,
      rounded to nearest, ties to even; an error exactly when the product leaves int64. */
  lemma AccrualExact(salary: Int64, start: nat, end: nat, asOf: nat)
    requires start <= end <= start + 31
    ensures var r, month, over := AccruedToDate(salary, start, end, asOf), |Weekdays(start, end)|, |Weekdays(start, asOf)|;
            if salary <= 0 || month == 0 || asOf <= start then r == Ok(0)
            else if asOf >= end then r == Ok(salary)
            else (r.Ok? <==> InRange(salary * over)) && (r.Ok? ==> IsNearestEven(r.value, salary * over, month))
  {
    WorkingDaysAre(start, end);
    if start < asOf {
      WorkingDaysAre(start, asOf);
      if asOf < end {
        WorkingDaysMonotone(start, asOf, end);
        if salary > 0 && WorkingDays(start, end) > 0 {
          ShareOfDays(salary, WorkingDays(start, asOf), WorkingDays(start, end));
        }
      }
    } else if start == asOf {
      assert WorkingDays(start, asOf) == 0;
    }
  }

  lemma ShareOfDays(salary: Int64, over: nat, month: nat)
    requires salary > 0 && 0 < month <= 31 && over <= month
    ensures var r := if over <= 0 then Ok(0) else Percent(salary, over, month);
            (r.Ok? <==> InRange(salary * over)) && (r.Ok? ==> IsNearestEven(r.value, salary * over, month))
  {
    var x := salary * over;
    if over == 0 {
      assert x == 0 && IsNearestEven(0, x, month);
    } else {
      PercentExact(salary, over, month);
      var q := RoundHalfEven(x, month);
      assert Percent(salary, over, month) == if InRange(x) then Ok(q) else Err(Overflow);
    }
  }

  // ---------- caps ----------

  function PolicyCap(accrued: Int64, p: Policy): (r: Result<Int64>) {
    match Percent(accrued, p.maxAccrualPct, 100)
    case Err(e) => Err(e)
    case Ok(share) => Ok(if share > p.absoluteCap then p.absoluteCap else share)
  }

  function TierCap(tier: Tier, policyCap: Int64, p: Policy): (cap: Int64) {
    match tier
    case Dependent => if p.emergencyFloor < policyCap then p.emergencyFloor else policyCap
    case Strained =>
      (match Percent(policyCap, 50, 100)
       case Err(_) => p.emergencyFloor
       case Ok(halved) =>
         if halved < p.emergencyFloor then
           (if p.emergencyFloor < policyCap then p.emergencyFloor else policyCap)
         else halved)
    case _ => policyCap
  }

  /** What limits a draw: the policy's share of the accrued wages, the policy cap, half of
      it, and the cap of the worker's tier. */
  datatype Limits = Limits(share: int, cap: int, half: int, draw: int)

  /** The share is rounded to nearest, ties to even, and cut at the absolute cap; strained
      workers have half of that and dependent ones the emergency floor, but nobody less than
      the floor unless the cap itself is lower. */
  ghost predicate AreLimits(l: Limits, accrued: Int64, tier: Tier, p: Policy) {
    var floor := if p.emergencyFloor < l.cap then p.emergencyFloor else l.cap;
    && IsNearestEven(l.share, accrued * p.maxAccrualPct, 100)
    && l.cap == (if l.share < p.absoluteCap then l.share else p.absoluteCap)
    && IsNearestEven(l.half, l.cap * 50, 100)
    && l.draw == match tier
                 case Healthy => l.cap
                 case Elevated => l.cap
                 case Strained => if l.half > floor then l.half else floor
                 case Dependent => floor
  }

  lemma LimitsExist(accrued: Int64, tier: Tier, p: Policy) returns (l: Limits)
    ensures AreLimits(l, accrued, tier, p)
  {
    var share := RoundHalfEven(accrued * p.maxAccrualPct, 100);
    var cap := if share < p.absoluteCap then share else p.absoluteCap;
    var half := RoundHalfEven(cap * 50, 100);
    var floor := if p.emergencyFloor < cap then p.emergencyFloor else cap;
    l := Limits(share, cap, half,
                match tier
                case Healthy => cap
                case Elevated => cap
                case Strained => if half > floor then half else floor
                case Dependent => floor);
  }

  /** The caps that the service computes are these limits, and it fails exactly when the
      share's product leaves int64. */
  lemma CapsAreLimits(accrued: Int64, tier: Tier, p: Policy, l: Limits)
    requires ValidPolicy(p) && accrued >= 0 && AreLimits(l, accrued, tier, p)
    ensures PolicyCap(accrued, p).Ok? <==> InRange(accrued * p.maxAccrualPct)
    ensures PolicyCap(accrued, p).Ok? ==>
              && PolicyCap(accrued, p).value == l.cap && TierCap(tier, PolicyCap(accrued, p).value, p) == l.draw
              && 0 <= l.draw <= l.cap <= accrued && 100 * l.cap <= accrued * p.maxAccrualPct + 50
  {
    PercentExact(accrued, p.maxAccrualPct, 100);
    NearestEvenUnique(l.share, RoundHalfEven(accrued * p.maxAccrualPct, 100), accrued * p.maxAccrualPct, 100);
    if InRange(accrued * p.maxAccrualPct) {
      PolicyCapBounds(accrued, p);
      TierCapBounds(tier, l.cap, p);
      PercentExact(l.cap, 50, 100);
      NearestEvenUnique(l.half, RoundHalfEven(l.cap * 50, 100), l.cap * 50, 100);
      HalfIsLess(l.half, l.cap);
    }
  }

  lemma HalfIsLess(half: int, cap: int)
    requires cap >= 0 && IsNearestEven(half, cap * 50, 100)
    ensures 0 <= half <= cap
  {
  }

  /** The policy cap is at most the accrued wages, the tier cap at most the policy cap,
      the tier's halving cannot overflow once the policy cap was computed, and no tier
      narrows access below the emergency floor. */
  lemma CapsOrdered(accrued: Int64, tier: Tier, p: Policy)
    requires ValidPolicy(p) && accrued >= 0 && PolicyCap(accrued, p).Ok?
    ensures var cap := PolicyCap(accrued, p).value;
            && 0 <= TierCap(tier, cap, p) <= cap <= accrued
            && cap <= p.absoluteCap
            && Percent(cap, 50, 100).Ok?
            && TierCap(tier, cap, p) >= Min(p.emergencyFloor, cap)
  {
    PolicyCapBounds(accrued, p);
    TierCapBounds(tier, PolicyCap(accrued, p).value, p);
  }

  lemma PolicyCapBounds(accrued: Int64, p: Policy)
    requires ValidPolicy(p) && accrued >= 0 && PolicyCap(accrued, p).Ok?
    ensures var cap := PolicyCap(accrued, p).value;
            0 <= cap <= accrued && cap <= p.absoluteCap && InRange(cap * 50)
  {
    PercentExact(accrued, p.maxAccrualPct, 100);
    RoundShare(accrued, p.maxAccrualPct, 100);
    MulOrdered(accrued, 0, p.maxAccrualPct);
    HalvingFits(accrued * p.maxAccrualPct, Percent(accrued, p.maxAccrualPct, 100).value, PolicyCap(accrued, p).value);
  }

  lemma TierCapBounds(tier: Tier, cap: Int64, p: Policy)
    requires ValidPolicy(p) && cap >= 0 && InRange(cap * 50)
    ensures Percent(cap, 50, 100).Ok?
    ensures Min(p.emergencyFloor, cap) <= TierCap(tier, cap, p) <= cap
  {
    PercentExact(cap, 50, 100);
    RoundShare(cap, 50, 100);
  }

  lemma HalvingFits(product: int, share: int, cap: int)
    requires 0 <= product <= MAX64 && share == RoundHalfEven(product, 100) && 0 <= cap <= share
    ensures InRange(cap * 50)
  {
    assert IsNearestEven(share, product, 100);
  }

  // ---------- availability ----------

  /** The difference, with an overflow or a negative value read as zero. */
  function FlooredSub(a: Int64, b: Int64): (r: Int64)
    ensures r >= 0
  {
    if a - b > 0 && InRange(a - b) then a - b else 0
  }

  /** FlooredSub is what the code gets from Sub and its two guards. */
  lemma FlooredSubIsSub(a: Int64, b: Int64)
    ensures FlooredSub(a, b) == match Sub(a, b) case Err(_) => 0 case Ok(d) => if d < 0 then 0 else d
  {
    SubExact(a, b);
  }

  function Min(a: Int64, b: Int64): Int64 {
    if b < a then b else a
  }

  /** Available: what is left of the tier cap, then the worker's own floor, then the
      employer's funding pool. `exposure` is the balance of the NGN cash account. */
  function Available(tierCap: Int64, outstanding: Int64, basis: Int64, floor: Int64, p: Policy, exposure: int): (r: Int64)
    ensures r >= 0
  {
    var underCap := FlooredSub(tierCap, outstanding);
    var underFloor := if floor > 0 then Min(underCap, FlooredSub(FlooredSub(basis, floor), outstanding)) else underCap;
    if !p.requireFundingCoverage then underFloor
    else
      var headroom := if exposure < 0 then 0 - exposure else 0;
      if headroom < underFloor then headroom else underFloor
  }

  /** RequestAdvance's decision; `blocked` is any guardrail outside this module. */
  predicate Approves(amount: Int64, available: Int64, p: Policy, blocked: bool) {
    !blocked && available >= p.minDraw && amount >= p.minDraw && amount <= available
  }

  /** RequestAdvance approves exactly the draws that are at least the minimum, are not
      blocked, and with the debt so far fit the tier cap, a protected floor and, with
      coverage on, the funding pool. */
  lemma ApprovesIff(
      amount: Int64, tierCap: Int64, outstanding: Int64, basis: Int64, floor: Int64, p: Policy, exposure: int, blocked: bool)
    requires ValidPolicy(p) && tierCap >= 0 && outstanding >= 0
    ensures Approves(amount, Available(tierCap, outstanding, basis, floor, p, exposure), p, blocked) <==>
            && !blocked && amount >= p.minDraw && outstanding + amount <= tierCap
            && (floor > 0 ==> basis - (outstanding + amount) >= floor)
            && (p.requireFundingCoverage ==> exposure + amount <= 0)
  {
    assert FlooredSub(tierCap, outstanding) == if tierCap > outstanding then tierCap - outstanding else 0;
  }
}
