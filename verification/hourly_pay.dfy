/** Hourly gross pay with shift differentials and weekly overtime
    (internal/services/hourly_pay_service.go).

    Days are numbered from a Monday, so the ISO week of a day is its number divided by 7. */
module HourlyPay {
  import opened Money

  datatype Shift = RegularShift | NightShift | WeekendShift | HolidayShift

  datatype PayPolicy = PayPolicy(threshold: Int64, overtimeBps: Int64, nightBps: Int64, weekendBps: Int64, holidayBps: Int64)

  /** The constraints on payroll_policies. */
  predicate PolicyOk(p: PayPolicy) {
    p.threshold > 0 && p.overtimeBps >= 10000 && p.nightBps >= 10000 && p.weekendBps >= 10000 && p.holidayBps >= 10000
  }

  function MultiplierBps(p: PayPolicy, s: Shift): Int64 {
    match s
    case NightShift => p.nightBps
    case WeekendShift => p.weekendBps
    case HolidayShift => p.holidayBps
    case RegularShift => 10000
  }

  /** The approved work of one time entry. */
  datatype Work = Work(day: int, minutes: Int64, shift: Shift)

  predicate Positive(works: seq<Work>) {
    forall k | 0 <= k < |works| :: works[k].minutes > 0
  }

  function Week(day: int): int { day / 7 }

  function WeekTotal(works: seq<Work>, w: int): int {
    if works == [] then 0
    else
      var last := works[|works| - 1];
      WeekTotal(works[..|works| - 1], w) + (if Week(last.day) == w then last.minutes else 0)
  }

  function Least(a: int, b: int): int { if a < b then a else b }

  /** How much of an entry is regular time when `before` minutes of its week came first. */
  function RegularPortion(threshold: int, before: int, minutes: int): int {
    if before >= threshold then 0 else if before + minutes > threshold then threshold - before else minutes
  }

  // ---------- regular and overtime minutes ----------

  /** Minutes of each week that earlier payroll runs paid. */
  type Paid = int -> int

  function Before(works: seq<Work>, paid: Paid, day: int): int {
    paid(Week(day)) + WeekTotal(works, Week(day))
  }

  /** The regular minutes that one pass over the entries finds in week w. */
  function RegularIn(works: seq<Work>, paid: Paid, threshold: int, w: int): int {
    if works == [] then 0
    else
      var front, last := works[..|works| - 1], works[|works| - 1];
      RegularIn(front, paid, threshold, w) +
      (if Week(last.day) == w then RegularPortion(threshold, Before(front, paid, last.day), last.minutes) else 0)
  }

  /** The regular minutes that one pass over the entries finds in all weeks. */
  function RegularMinutes(works: seq<Work>, paid: Paid, threshold: int): int {
    if works == [] then 0
    else
      var front, last := works[..|works| - 1], works[|works| - 1];
      RegularMinutes(front, paid, threshold) + RegularPortion(threshold, Before(front, paid, last.day), last.minutes)
  }

  /** However a week's entries are ordered, one pass credits it with what is left under the
      threshold, and no more. */
  lemma {:induction false} RegularClosedForm(works: seq<Work>, paid: Paid, threshold: int, w: int)
    requires Positive(works)
    ensures RegularIn(works, paid, threshold, w) ==
            Least(threshold, paid(w) + WeekTotal(works, w)) - Least(threshold, paid(w))
    ensures WeekTotal(works, w) >= 0
  {
    if works != [] { RegularClosedForm(works[..|works| - 1], paid, threshold, w); }
  }

  /** Each payroll run starts from the minutes that the runs before it paid. */
  function PaidAfter(paid: Paid, works: seq<Work>): Paid {
    w => paid(w) + WeekTotal(works, w)
  }

  function PaidThrough(paid: Paid, runs: seq<seq<Work>>): Paid {
    if runs == [] then paid else PaidAfter(PaidThrough(paid, runs[..|runs| - 1]), runs[|runs| - 1])
  }

  /** Regular minutes of week w over several runs, each seeded from those before it. */
  function RunsRegularIn(runs: seq<seq<Work>>, paid: Paid, threshold: int, w: int): int {
    if runs == [] then 0
    else
      var front := runs[..|runs| - 1];
      RunsRegularIn(front, paid, threshold, w) + RegularIn(runs[|runs| - 1], PaidThrough(paid, front), threshold, w)
  }

  function RunsRegular(runs: seq<seq<Work>>, paid: Paid, threshold: int): int {
    if runs == [] then 0
    else
      var front := runs[..|runs| - 1];
      RunsRegular(front, paid, threshold) + RegularMinutes(runs[|runs| - 1], PaidThrough(paid, front), threshold)
  }

  function RunsTotal(runs: seq<seq<Work>>, w: int): int {
    if runs == [] then 0 else RunsTotal(runs[..|runs| - 1], w) + WeekTotal(runs[|runs| - 1], w)
  }

  predicate AllPositive(runs: seq<seq<Work>>) {
    forall r | 0 <= r < |runs| :: Positive(runs[r])
  }

  lemma {:induction false} PaidThroughTotal(paid: Paid, runs: seq<seq<Work>>, w: int)
    ensures PaidThrough(paid, runs)(w) == paid(w) + RunsTotal(runs, w)
  {
    if runs != [] { PaidThroughTotal(paid, runs[..|runs| - 1], w); }
  }

  /** However a week's entries are split over payroll runs, the regular minutes paid for it
      come to the smaller of the threshold and everything paid. */
  lemma {:induction false} RunsClosedForm(runs: seq<seq<Work>>, paid: Paid, threshold: int, w: int)
    requires AllPositive(runs)
    ensures RunsRegularIn(runs, paid, threshold, w) ==
            Least(threshold, paid(w) + RunsTotal(runs, w)) - Least(threshold, paid(w))
  {
    if runs != [] {
      var n := |runs| - 1;
      RunsClosedForm(runs[..n], paid, threshold, w);
      RegularClosedForm(runs[n], PaidThrough(paid, runs[..n]), threshold, w);
      PaidThroughTotal(paid, runs[..n], w);
    }
  }

  /** Splitting a week over runs gives the same regular minutes as one pass over the same
      work, whatever entry goes into which run and in whatever order. */
  lemma SplitWeek(runs: seq<seq<Work>>, onePass: seq<Work>, paid: Paid, threshold: int, w: int)
    requires AllPositive(runs) && Positive(onePass) && WeekTotal(onePass, w) == RunsTotal(runs, w)
    ensures RunsRegularIn(runs, paid, threshold, w) == RegularIn(onePass, paid, threshold, w)
    ensures paid(w) == 0 && threshold >= 0 ==>
            RunsRegularIn(runs, paid, threshold, w) == Least(threshold, WeekTotal(onePass, w))
  {
    RunsClosedForm(runs, paid, threshold, w);
    RegularClosedForm(onePass, paid, threshold, w);
  }

  // ---------- all weeks together ----------

  function Without(works: seq<Work>, w: int): (r: seq<Work>)
    ensures |r| <= |works|
  {
    if works == [] then []
    else
      var front, last := works[..|works| - 1], works[|works| - 1];
      Without(front, w) + (if Week(last.day) == w then [] else [last])
  }

  /** A pass over all weeks is a pass over one of them and a pass over the others. */
  lemma {:induction false} PeelWeek(works: seq<Work>, paid: Paid, threshold: int, w: int)
    ensures RegularMinutes(works, paid, threshold) ==
            RegularIn(works, paid, threshold, w) + RegularMinutes(Without(works, w), paid, threshold)
  {
    if works != [] {
      var n := |works| - 1;
      var front, last := works[..n], works[n];
      PeelWeek(front, paid, threshold, w);
      if Week(last.day) != w {
        assert (Without(front, w) + [last])[..|Without(front, w)|] == Without(front, w);
        WithoutTotal(front, w, Week(last.day));
      } else {
        assert Without(front, w) + [] == Without(front, w);
      }
    }
  }

  lemma {:induction false} WithoutPositive(works: seq<Work>, w: int)
    requires Positive(works)
    ensures Positive(Without(works, w))
  {
    if works != [] { WithoutPositive(works[..|works| - 1], w); }
  }

  lemma {:induction false} WithoutTotal(works: seq<Work>, w: int, v: int)
    ensures WeekTotal(Without(works, w), v) == if v == w then 0 else WeekTotal(works, v)
  {
    if works != [] {
      var n := |works| - 1;
      WithoutTotal(works[..n], w, v);
      var kept := Without(works[..n], w);
      assert (kept + [works[n]])[..|kept|] == kept && kept + [] == kept;
    }
  }

  /** Only the minutes of each week count, not the order or the size of the entries. */
  lemma {:induction false} SameWeeksSameRegular(a: seq<Work>, b: seq<Work>, paid: Paid, threshold: int)
    requires Positive(a) && Positive(b) && forall w :: WeekTotal(a, w) == WeekTotal(b, w)
    ensures RegularMinutes(a, paid, threshold) == RegularMinutes(b, paid, threshold)
    decreases |a|
  {
    if a == [] {
      if b != [] { NoWorkNoMinutes(b); }
    } else {
      var w := Week(a[|a| - 1].day);
      assert RegularIn(a, paid, threshold, w) == RegularIn(b, paid, threshold, w) by {
        RegularClosedForm(a, paid, threshold, w);
        RegularClosedForm(b, paid, threshold, w);
      }
      PeelWeek(a, paid, threshold, w);
      PeelWeek(b, paid, threshold, w);
      forall v ensures WeekTotal(Without(a, w), v) == WeekTotal(Without(b, w), v) {
        WithoutTotal(a, w, v);
        WithoutTotal(b, w, v);
      }
      assert Without(a, w) == Without(a[..|a| - 1], w);
      WithoutPositive(a, w);
      WithoutPositive(b, w);
      SameWeeksSameRegular(Without(a, w), Without(b, w), paid, threshold);
    }
  }

  lemma NoWorkNoMinutes(works: seq<Work>)
    requires Positive(works) && works != []
    ensures WeekTotal(works, Week(works[|works| - 1].day)) > 0
  {
    RegularClosedForm(works[..|works| - 1], w => 0, 0, Week(works[|works| - 1].day));
  }

  function Concat(runs: seq<seq<Work>>): seq<Work> {
    if runs == [] then [] else Concat(runs[..|runs| - 1]) + runs[|runs| - 1]
  }

  lemma {:induction false} WeekTotalConcat(a: seq<Work>, b: seq<Work>, w: int)
    ensures WeekTotal(a + b, w) == WeekTotal(a, w) + WeekTotal(b, w)
  {
    if b == [] {
      assert a + b == a;
    } else {
      WeekTotalConcat(a, b[..|b| - 1], w);
      assert (a + b)[..|a + b| - 1] == a + b[..|b| - 1];
    }
  }

  lemma {:induction false} RegularConcat(a: seq<Work>, b: seq<Work>, paid: Paid, threshold: int)
    ensures RegularMinutes(a + b, paid, threshold) ==
            RegularMinutes(a, paid, threshold) + RegularMinutes(b, PaidAfter(paid, a), threshold)
  {
    if b == [] {
      assert a + b == a;
    } else {
      var n := |b| - 1;
      RegularConcat(a, b[..n], paid, threshold);
      assert (a + b)[..|a + b| - 1] == a + b[..n];
      WeekTotalConcat(a, b[..n], Week(b[n].day));
    }
  }

  lemma {:induction false} RegularSeed(works: seq<Work>, p: Paid, q: Paid, threshold: int)
    requires forall w :: p(w) == q(w)
    ensures RegularMinutes(works, p, threshold) == RegularMinutes(works, q, threshold)
  {
    if works != [] { RegularSeed(works[..|works| - 1], p, q, threshold); }
  }

  lemma {:induction false} RunsAreOnePass(runs: seq<seq<Work>>, paid: Paid, threshold: int)
    ensures RunsRegular(runs, paid, threshold) == RegularMinutes(Concat(runs), paid, threshold)
    ensures forall w :: WeekTotal(Concat(runs), w) == RunsTotal(runs, w)
  {
    if runs != [] {
      var n := |runs| - 1;
      var front := runs[..n];
      RunsAreOnePass(front, paid, threshold);
      RegularConcat(Concat(front), runs[n], paid, threshold);
      forall w ensures WeekTotal(Concat(runs), w) == RunsTotal(runs, w) { WeekTotalConcat(Concat(front), runs[n], w); }
      forall w ensures PaidThrough(paid, front)(w) == PaidAfter(paid, Concat(front))(w) { PaidThroughTotal(paid, front, w); }
      RegularSeed(runs[n], PaidThrough(paid, front), PaidAfter(paid, Concat(front)), threshold);
    }
  }

  lemma {:induction false} ConcatPositive(runs: seq<seq<Work>>)
    requires AllPositive(runs)
    ensures Positive(Concat(runs))
  {
    if runs != [] { ConcatPositive(runs[..|runs| - 1]); }
  }

  /** Any number of payroll runs over the same work find the same regular minutes in all as
      a single pass over it; the rest of the work is overtime in both. */
  lemma SplitRuns(runs: seq<seq<Work>>, onePass: seq<Work>, paid: Paid, threshold: int)
    requires AllPositive(runs) && Positive(onePass) && forall w :: WeekTotal(onePass, w) == RunsTotal(runs, w)
    ensures RunsRegular(runs, paid, threshold) == RegularMinutes(onePass, paid, threshold)
  {
    RunsAreOnePass(runs, paid, threshold);
    ConcatPositive(runs);
    SameWeeksSameRegular(Concat(runs), onePass, paid, threshold);
  }

  // ---------- amounts ----------

  /** k * num / d, rounded half to even; what Percent computes (ScaleIsPercent). */
  function Scale(k: Int64, num: Int64, d: Int64): (r: Result<Int64>)
    requires 1 <= d <= 10000
  {
    if InRange(k * num) then RoundHalfEvenInRange(k * num, d); Ok(RoundHalfEven(k * num, d)) else Err(Overflow)
  }

  lemma RoundHalfEvenInRange(x: Int64, d: Int64)
    requires 1 <= d <= 10000
    ensures InRange(RoundHalfEven(x, d))
  {
    PercentExact(x, 1, d);
  }

  lemma ScaleIsPercent(k: Int64, num: Int64, d: Int64)
    requires 1 <= d <= 10000 && num >= 0
    ensures Percent(k, num, d) == Scale(k, num, d)
  {
    PercentExact(k, num, d);
  }

  /** Pay of one entry: its base at the shift rate, and the premium on its overtime. */
  datatype EntryPay = EntryPay(base: Int64, premium: Int64)

  function BaseFor(work: Work, p: PayPolicy, rate: Int64): (r: Result<Int64>) {
    match Scale(rate, MultiplierBps(p, work.shift), 10000)
    case Err(e) => Err(e)
    case Ok(shiftRate) => Scale(shiftRate, work.minutes, 60)
  }

  function PremiumFor(work: Work, overtime: Int64, p: PayPolicy, rate: Int64): (r: Result<Int64>)
    requires PolicyOk(p)
  {
    if overtime <= 0 || p.overtimeBps == 10000 then Ok(0)
    else match Scale(rate, MultiplierBps(p, work.shift), 10000)
      case Err(e) => Err(e)
      case Ok(shiftRate) =>
        match Scale(shiftRate, p.overtimeBps - 10000, 10000)
        case Err(e) => Err(e)
        case Ok(extraRate) => Scale(extraRate, overtime, 60)
  }

  function PayFor(work: Work, overtime: Int64, p: PayPolicy, rate: Int64): (r: Result<EntryPay>)
    requires PolicyOk(p)
  {
    match BaseFor(work, p, rate)
    case Err(e) => Err(e)
    case Ok(base) =>
      match PremiumFor(work, overtime, p, rate)
      case Err(e) => Err(e)
      case Ok(premium) => Ok(EntryPay(base, premium))
  }

  /** The two rates an entry is paid at: the shift's, and what an overtime minute adds. */
  datatype Rates = Rates(shift: int, extra: int)

  ghost predicate AreRates(r: Rates, shift: Shift, p: PayPolicy, rate: Int64) {
    var bps := match shift
               case RegularShift => 10000
               case NightShift => p.nightBps
               case WeekendShift => p.weekendBps
               case HolidayShift => p.holidayBps;
    && IsNearestEven(r.shift, rate * bps, 10000)
    && IsNearestEven(r.extra, r.shift * (p.overtimeBps - 10000), 10000)
  }

  /** What an entry earns: every minute at the shift's rate, and the extra rate on the
      overtime minutes alone, each step rounded to nearest, ties to even. */
  ghost predicate Earned(x: EntryPay, r: Rates, work: Work, overtime: int, p: PayPolicy, rate: Int64) {
    && AreRates(r, work.shift, p, rate)
    && IsNearestEven(x.base, r.shift * work.minutes, 60)
    && (if overtime > 0 then IsNearestEven(x.premium, r.extra * overtime, 60) else x.premium == 0)
  }

  /** No product on the way leaves int64. */
  ghost predicate Fits(r: Rates, work: Work, overtime: int, p: PayPolicy, rate: Int64) {
    var bps := match work.shift
               case RegularShift => 10000
               case NightShift => p.nightBps
               case WeekendShift => p.weekendBps
               case HolidayShift => p.holidayBps;
    && InRange(rate * bps) && InRange(r.shift * work.minutes)
    && (overtime > 0 && p.overtimeBps > 10000 ==>
          InRange(r.shift * (p.overtimeBps - 10000)) && InRange(r.extra * overtime))
  }

  lemma ScaleIs(k: Int64, num: Int64, d: Int64, q: int)
    requires 1 <= d <= 10000 && IsNearestEven(q, k * num, d)
    ensures Scale(k, num, d).Ok? <==> InRange(k * num)
    ensures Scale(k, num, d).Ok? ==> Scale(k, num, d).value == q
  {
    NearestEvenUnique(q, RoundHalfEven(k * num, d), k * num, d);
  }

  lemma RatesExist(shift: Shift, p: PayPolicy, rate: Int64) returns (r: Rates)
    ensures AreRates(r, shift, p, rate)
  {
    var shiftRate := RoundHalfEven(rate * MultiplierBps(p, shift), 10000);
    r := Rates(shiftRate, RoundHalfEven(shiftRate * (p.overtimeBps - 10000), 10000));
  }

  lemma BaseIsEarned(work: Work, p: PayPolicy, rate: Int64, r: Rates)
    requires AreRates(r, work.shift, p, rate)
    ensures BaseFor(work, p, rate).Ok? <==> InRange(rate * MultiplierBps(p, work.shift)) && InRange(r.shift * work.minutes)
    ensures BaseFor(work, p, rate).Ok? ==>
              Scale(rate, MultiplierBps(p, work.shift), 10000) == Ok(r.shift) &&
              IsNearestEven(BaseFor(work, p, rate).value, r.shift * work.minutes, 60)
  {
    ScaleIs(rate, MultiplierBps(p, work.shift), 10000, r.shift);
    if InRange(rate * MultiplierBps(p, work.shift)) {
      ScaleIs(r.shift, work.minutes, 60, RoundHalfEven(r.shift * work.minutes, 60));
    }
  }

  lemma PremiumIsEarned(work: Work, overtime: Int64, p: PayPolicy, rate: Int64, r: Rates)
    requires PolicyOk(p) && AreRates(r, work.shift, p, rate)
    requires Scale(rate, MultiplierBps(p, work.shift), 10000) == Ok(r.shift)
    ensures var x := PremiumFor(work, overtime, p, rate);
            && (x.Ok? <==> (overtime > 0 && p.overtimeBps > 10000 ==>
                              InRange(r.shift * (p.overtimeBps - 10000)) && InRange(r.extra * overtime)))
            && (x.Ok? ==> if overtime > 0 then IsNearestEven(x.value, r.extra * overtime, 60) else x.value == 0)
  {
    if overtime > 0 && p.overtimeBps > 10000 {
      ScaleIs(r.shift, p.overtimeBps - 10000, 10000, r.extra);
      if InRange(r.shift * (p.overtimeBps - 10000)) {
        ScaleIs(r.extra, overtime, 60, RoundHalfEven(r.extra * overtime, 60));
      }
    } else if overtime > 0 {
      NearestEvenUnique(r.extra, 0, 0, 10000);
    }
  }

  /** The pay of an entry is what it earns, and it is refused exactly when some product
      leaves int64. */
  lemma PayIsEarned(work: Work, overtime: Int64, p: PayPolicy, rate: Int64, r: Rates)
    requires PolicyOk(p) && AreRates(r, work.shift, p, rate)
    ensures PayFor(work, overtime, p, rate).Ok? <==> Fits(r, work, overtime, p, rate)
    ensures PayFor(work, overtime, p, rate).Ok? ==> Earned(PayFor(work, overtime, p, rate).value, r, work, overtime, p, rate)
  {
    BaseIsEarned(work, p, rate, r);
    if BaseFor(work, p, rate).Ok? { PremiumIsEarned(work, overtime, p, rate, r); }
  }

  /** An entry earns one amount. */
  lemma EarnedOnce(x: EntryPay, r: Rates, y: EntryPay, s: Rates, work: Work, overtime: int, p: PayPolicy, rate: Int64)
    requires Earned(x, r, work, overtime, p, rate) && Earned(y, s, work, overtime, p, rate)
    ensures x == y && r == s
  {
    NearestEvenUnique(r.shift, s.shift, rate * MultiplierBps(p, work.shift), 10000);
    NearestEvenUnique(r.extra, s.extra, r.shift * (p.overtimeBps - 10000), 10000);
    NearestEvenUnique(x.base, y.base, r.shift * work.minutes, 60);
    if overtime > 0 { NearestEvenUnique(x.premium, y.premium, r.extra * overtime, 60); }
  }

  datatype Amounts = Amounts(regular: int, overtime: int, base: int, premium: int)

  /** How the pay of an entry follows from the entry and its overtime minutes. */
  type PayRule = (Work, Int64) -> Result<EntryPay>

  function RuleOf(p: PayPolicy, rate: Int64): PayRule
    requires PolicyOk(p)
  {
    (work: Work, overtime: Int64) => PayFor(work, overtime, p, rate)
  }

  ghost predicate Follows(pay: PayRule, p: PayPolicy, rate: Int64)
    requires PolicyOk(p)
  {
    forall work: Work, overtime: Int64 {:trigger PayFor(work, overtime, p, rate)} ::
      pay(work, overtime) == PayFor(work, overtime, p, rate)
  }

  /** The totals with one more entry, when `before` minutes of its week came first. */
  function AddEntry(t: Amounts, work: Work, before: int, threshold: int, pay: PayRule): (r: Result<Amounts>)
    requires threshold > 0 && work.minutes > 0
  {
    var regular := RegularPortion(threshold, before, work.minutes);
    match pay(work, work.minutes - regular)
    case Err(e) => Err(e)
    case Ok(x) => Ok(Amounts(t.regular + regular, t.overtime + work.minutes - regular, t.base + x.base, t.premium + x.premium))
  }

  /** The exact totals over the entries; Err when some entry's pay overflows. */
  function GrossOf(works: seq<Work>, paid: Paid, threshold: int, pay: PayRule): (r: Result<Amounts>)
    requires threshold > 0 && Positive(works)
  {
    if works == [] then Ok(Amounts(0, 0, 0, 0))
    else
      var front, last := works[..|works| - 1], works[|works| - 1];
      match GrossOf(front, paid, threshold, pay)
      case Err(e) => Err(e)
      case Ok(t) => AddEntry(t, last, Before(front, paid, last.day), threshold, pay)
  }

  datatype Breakdown = Breakdown(regular: int, overtime: int, base: Int64, premium: Int64, gross: Int64)

  lemma ScaleOfNonNegative(k: Int64, num: Int64, d: Int64)
    requires k >= 0 && num >= 0 && 1 <= d <= 10000 && Scale(k, num, d).Ok?
    ensures Scale(k, num, d).value >= 0
  {
    MulOrdered(k, 0, num);
    RoundMonotone(0, k * num, d);
    RoundOfMultiple(0, d);
  }

  lemma PayForNonNegative(work: Work, overtime: Int64, p: PayPolicy, rate: Int64)
    requires PolicyOk(p) && rate >= 0 && work.minutes > 0 && PayFor(work, overtime, p, rate).Ok?
    ensures var x := PayFor(work, overtime, p, rate).value; x.base >= 0 && x.premium >= 0
  {
    var shiftRate := Scale(rate, MultiplierBps(p, work.shift), 10000).value;
    ScaleOfNonNegative(rate, MultiplierBps(p, work.shift), 10000);
    ScaleOfNonNegative(shiftRate, work.minutes, 60);
    if overtime > 0 && p.overtimeBps > 10000 {
      ScaleOfNonNegative(shiftRate, p.overtimeBps - 10000, 10000);
      ScaleOfNonNegative(Scale(shiftRate, p.overtimeBps - 10000, 10000).value, overtime, 60);
    }
  }

  lemma {:induction false} ErrStays(works: seq<Work>, paid: Paid, threshold: int, pay: PayRule, n: nat)
    requires threshold > 0 && Positive(works) && n <= |works| && GrossOf(works[..n], paid, threshold, pay).Err?
    ensures GrossOf(works, paid, threshold, pay).Err?
    decreases |works|
  {
    if n == |works| {
      assert works[..n] == works;
    } else {
      var m := |works| - 1;
      assert works[..m][..n] == works[..n];
      ErrStays(works[..m], paid, threshold, pay, n);
    }
  }

  /** What the weekly counters hold after the given work: every week seen so far is seeded
      from the paid minutes, and no other week has any of the work. */
  ghost predicate Counts(weekMinutes: map<int, int>, works: seq<Work>, paid: Paid) {
    forall w :: WeekTotal(works, w) == if w in weekMinutes then weekMinutes[w] - paid(w) else 0
  }

  lemma CountsStep(weekMinutes: map<int, int>, works: seq<Work>, paid: Paid, work: Work)
    requires Counts(weekMinutes, works, paid) && Week(work.day) in weekMinutes
    ensures weekMinutes[Week(work.day)] == Before(works, paid, work.day)
    ensures Counts(weekMinutes[Week(work.day) := weekMinutes[Week(work.day)] + work.minutes], works + [work], paid)
  {
    assert (works + [work])[..|works|] == works;
  }

  lemma CountsSeed(weekMinutes: map<int, int>, works: seq<Work>, paid: Paid, w: int)
    requires Counts(weekMinutes, works, paid) && w !in weekMinutes
    ensures Counts(weekMinutes[w := paid(w)], works, paid)
  {
  }

  lemma GrossStep(works: seq<Work>, work: Work, paid: Paid, threshold: int, pay: PayRule, t: Amounts)
    requires threshold > 0 && Positive(works) && work.minutes > 0 && GrossOf(works, paid, threshold, pay) == Ok(t)
    ensures Positive(works + [work])
    ensures GrossOf(works + [work], paid, threshold, pay) == AddEntry(t, work, Before(works, paid, work.day), threshold, pay)
  {
    assert (works + [work])[..|works|] == works;
  }

  datatype Lists = Lists(regular: int, overtime: int, bases: seq<Int64>, premiums: seq<Int64>)

  ghost predicate AddUpTo(l: Lists, r: Result<Amounts>) {
    && r == Ok(Amounts(l.regular, l.overtime, Total(l.bases), Total(l.premiums)))
    && NonNegative(l.bases) && NonNegative(l.premiums)
  }

  function Extended(l: Lists, regular: int, overtime: int, x: EntryPay): Lists {
    Lists(l.regular + regular, l.overtime + overtime, l.bases + [x.base], l.premiums + [x.premium])
  }

  /** m holds the amounts of l and those of one more entry. */
  ghost predicate OneMore(l: Lists, m: Lists, regular: int, overtime: int, x: EntryPay) {
    && m.regular == l.regular + regular && m.overtime == l.overtime + overtime
    && Total(m.bases) == Total(l.bases) + x.base && Total(m.premiums) == Total(l.premiums) + x.premium
    && NonNegative(m.bases) && NonNegative(m.premiums)
  }

  lemma ExtendedIsOneMore(l: Lists, m: Lists, regular: int, overtime: int, x: EntryPay)
    requires NonNegative(l.bases) && NonNegative(l.premiums) && x.base >= 0 && x.premium >= 0
    requires m == Extended(l, regular, overtime, x)
    ensures OneMore(l, m, regular, overtime, x)
  {
    assert m.bases[..|l.bases|] == l.bases && m.premiums[..|l.premiums|] == l.premiums;
  }

  /** The loop's arithmetic for one entry, in wrapping int64. */
  method PayEntry(work: Work, overtime: Int64, p: PayPolicy, rate: Int64) returns (r: Result<EntryPay>)
    requires PolicyOk(p) && work.minutes > 0
    ensures exists rates :: AreRates(rates, work.shift, p, rate) && (r.Ok? <==> Fits(rates, work, overtime, p, rate)) &&
                            (r.Ok? ==> Earned(r.value, rates, work, overtime, p, rate))
    ensures r == PayFor(work, overtime, p, rate)
  {
    ghost var rates := RatesExist(work.shift, p, rate);
    PayIsEarned(work, overtime, p, rate, rates);
    var bps := MultiplierBps(p, work.shift);
    ScaleIsPercent(rate, bps, 10000);
    var shiftRate := Percent(rate, bps, 10000);
    if shiftRate.Err? { return Err(shiftRate.error); }
    ScaleIsPercent(shiftRate.value, work.minutes, 60);
    var base := Percent(shiftRate.value, work.minutes, 60);
    if base.Err? { return Err(base.error); }
    var premium: Int64 := 0;
    if overtime > 0 {
      var extraBps := p.overtimeBps - 10000;
      if extraBps > 0 {
        ScaleIsPercent(shiftRate.value, extraBps, 10000);
        var extraRate := Percent(shiftRate.value, extraBps, 10000);
        if extraRate.Err? { return Err(extraRate.error); }
        ScaleIsPercent(extraRate.value, overtime, 60);
        var x := Percent(extraRate.value, overtime, 60);
        if x.Err? { return Err(x.error); }
        premium := x.value;
      }
    }
    return Ok(EntryPay(base.value, premium));
  }

  method PayByRule(work: Work, overtime: Int64, p: PayPolicy, rate: Int64, ghost pay: PayRule)
    returns (r: Result<EntryPay>)
    requires PolicyOk(p) && rate >= 0 && work.minutes > 0 && Follows(pay, p, rate)
    ensures r == pay(work, overtime)
    ensures r.Ok? ==> r.value.base >= 0 && r.value.premium >= 0
  {
    r := PayEntry(work, overtime, p, rate);
    if r.Ok? { PayForNonNegative(work, overtime, p, rate); }
  }

  lemma OneMoreAddsUp(l: Lists, m: Lists, t: Amounts, work: Work, before: int, threshold: int, pay: PayRule, x: EntryPay)
    requires threshold > 0 && work.minutes > 0 && AddUpTo(l, Ok(t))
    requires var regular := RegularPortion(threshold, before, work.minutes);
             pay(work, work.minutes - regular) == Ok(x) && OneMore(l, m, regular, work.minutes - regular, x)
    ensures AddUpTo(m, AddEntry(t, work, before, threshold, pay))
  {
  }

  /** One turn of the loop. */
  method RateEntry(l: Lists, work: Work, before: int, p: PayPolicy, rate: Int64, ghost pay: PayRule, ghost t: Amounts)
    returns (r: Result<Lists>)
    requires PolicyOk(p) && rate >= 0 && work.minutes > 0 && Follows(pay, p, rate) && AddUpTo(l, Ok(t))
    ensures r.Ok? <==> AddEntry(t, work, before, p.threshold, pay).Ok?
    ensures r.Ok? ==> AddUpTo(r.value, AddEntry(t, work, before, p.threshold, pay))
  {
    var regular := RegularPortion(p.threshold, before, work.minutes);
    var x := PayByRule(work, work.minutes - regular, p, rate, pay);
    if x.Err? { return Err(x.error); }
    var m := Extended(l, regular, work.minutes - regular, x.value);
    assert AddUpTo(m, AddEntry(t, work, before, p.threshold, pay)) by {
      ExtendedIsOneMore(l, m, regular, work.minutes - regular, x.value);
      OneMoreAddsUp(l, m, t, work, before, p.threshold, pay, x.value);
    }
    r := Ok(m);
  }

  /** The minutes already paid, as looked up for every week that has work in it. */
  ghost predicate Seeds(seeds: map<int, int>, works: seq<Work>, paid: Paid) {
    forall k | 0 <= k < |works| :: Week(works[k].day) in seeds && seeds[Week(works[k].day)] == paid(Week(works[k].day))
  }

  method SeedWeek(weekMinutes: map<int, int>, key: int, seed: int, ghost works: seq<Work>, ghost paid: Paid)
    returns (r: map<int, int>)
    requires Counts(weekMinutes, works, paid) && seed == paid(key)
    ensures Counts(r, works, paid) && key in r
  {
    r := weekMinutes;
    if key !in weekMinutes {
      CountsSeed(weekMinutes, works, paid, key);
      r := weekMinutes[key := seed];
    }
  }

  /** The loop under way: its weekly counters, and the minutes and amounts so far. */
  datatype Progress = Progress(weekMinutes: map<int, int>, lists: Lists)

  /** The loop has treated exactly these entries. */
  ghost predicate Treated(s: Progress, works: seq<Work>, paid: Paid, threshold: int, pay: PayRule)
    requires threshold > 0 && Positive(works)
  {
    Counts(s.weekMinutes, works, paid) && AddUpTo(s.lists, GrossOf(works, paid, threshold, pay))
  }

  /** One turn of the loop; `seed` is what was paid for the entry's week before this run. */
  method TreatEntry(s: Progress, work: Work, seed: int, p: PayPolicy, rate: Int64,
                    ghost works: seq<Work>, ghost paid: Paid, ghost pay: PayRule)
    returns (r: Result<Progress>)
    requires PolicyOk(p) && rate >= 0 && work.minutes > 0 && Follows(pay, p, rate) && seed == paid(Week(work.day))
    requires Positive(works) && Treated(s, works, paid, p.threshold, pay)
    ensures Positive(works + [work])
    ensures r.Ok? <==> GrossOf(works + [work], paid, p.threshold, pay).Ok?
    ensures r.Ok? ==> Treated(r.value, works + [work], paid, p.threshold, pay)
  {
    var key := Week(work.day);
    var weekMinutes := SeedWeek(s.weekMinutes, key, seed, works, paid);
    CountsStep(weekMinutes, works, paid, work);
    ghost var t := GrossOf(works, paid, p.threshold, pay).value;
    GrossStep(works, work, paid, p.threshold, pay, t);
    var next := RateEntry(s.lists, work, weekMinutes[key], p, rate, pay, t);
    if next.Err? { return Err(next.error); }
    return Ok(Progress(weekMinutes[key := weekMinutes[key] + work.minutes], next.value));
  }

  /** The loop over the entries, with its weekly counters seeded on first use. */
  method RateEntries(works: seq<Work>, seeds: map<int, int>, p: PayPolicy, rate: Int64, ghost paid: Paid, ghost pay: PayRule)
    returns (r: Result<Lists>)
    requires PolicyOk(p) && rate >= 0 && Positive(works) && Follows(pay, p, rate) && Seeds(seeds, works, paid)
    ensures r.Ok? <==> GrossOf(works, paid, p.threshold, pay).Ok?
    ensures r.Ok? ==> AddUpTo(r.value, GrossOf(works, paid, p.threshold, pay))
  {
    var s := Progress(map[], Lists(0, 0, [], []));
    for i := 0 to |works|
      invariant Treated(s, works[..i], paid, p.threshold, pay)
    {
      assert works[..i + 1] == works[..i] + [works[i]];
      var next := TreatEntry(s, works[i], seeds[Week(works[i].day)], p, rate, works[..i], paid, pay);
      if next.Err? {
        ErrStays(works, paid, p.threshold, pay, i + 1);
        return Err(next.error);
      }
      s := next.value;
    }
    assert works[..|works|] == works;
    return Ok(s.lists);
  }

  /** ComputeHourlyGross succeeds exactly when no entry's pay and no total leaves int64, and
      then returns the exact totals. */
  method ComputeHourlyGross(works: seq<Work>, seeds: map<int, int>, p: PayPolicy, rate: Int64, ghost paid: Paid)
    returns (r: Result<Breakdown>)
    requires PolicyOk(p) && rate >= 0 && Positive(works) && Seeds(seeds, works, paid)
    ensures r.Ok? <==> Gross(works, paid, p, rate).Ok?
    ensures r.Ok? ==> r.value.gross == Gross(works, paid, p, rate).value
    ensures r.Ok? ==> IsBreakdown(r.value, GrossOf(works, paid, p.threshold, RuleOf(p, rate)).value)
    ensures r.Ok? ==> exists slips :: AreSlips(slips, works, paid, p, rate) && IsBreakdown(r.value, SlipTotals(slips, works))
  {
    ghost var pay := RuleOf(p, rate);
    var rated := RateEntries(works, seeds, p, rate, paid, pay);
    if rated.Err? { return Err(rated.error); }
    var l := rated.value;
    NonNegativePrefixes(l.bases);
    NonNegativePrefixes(l.premiums);
    TotalPrefixBound(l.bases, 0);
    TotalPrefixBound(l.premiums, 0);
    var base := Sum(l.bases);
    if base.Err? { return Err(Overflow); }
    var premium := Sum(l.premiums);
    if premium.Err? { return Err(Overflow); }
    AddExact(base.value, premium.value);
    var gross := Add(base.value, premium.value);
    if gross.Err? { return Err(Overflow); }
    ghost var slips := GrossIsSlips(works, paid, p, rate, pay);
    return Ok(Breakdown(l.regular, l.overtime, base.value, premium.value, gross.value));
  }

  /** The gross of the entries, unless an entry's pay or the total overflows. */
  function Gross(works: seq<Work>, paid: Paid, p: PayPolicy, rate: Int64): (r: Result<Int64>)
    requires PolicyOk(p) && Positive(works)
  {
    match GrossOf(works, paid, p.threshold, RuleOf(p, rate))
    case Err(e) => Err(e)
    case Ok(t) => if InRange(t.base + t.premium) then Ok(t.base + t.premium) else Err(Overflow)
  }

  // ---------- a worker's pay, entry by entry ----------

  /** The overtime of one entry, and what it earns. */
  datatype Slip = Slip(overtime: int, rates: Rates, pay: EntryPay)

  /** The minutes that the week still has room for after `before` minutes are regular, the
      others are overtime. */
  function OvertimeAfter(threshold: int, before: int, minutes: int): int {
    minutes - (Least(threshold, before + minutes) - Least(threshold, before))
  }

  ghost predicate Slips(s: Slip, work: Work, before: int, p: PayPolicy, rate: Int64) {
    s.overtime == OvertimeAfter(p.threshold, before, work.minutes) && Earned(s.pay, s.rates, work, s.overtime, p, rate)
  }

  ghost predicate IsSlip(s: Slip, works: seq<Work>, k: nat, paid: Paid, p: PayPolicy, rate: Int64)
    requires k < |works|
  {
    Slips(s, works[k], paid(Week(works[k].day)) + WeekTotal(works[..k], Week(works[k].day)), p, rate)
  }

  ghost predicate AreSlips(slips: seq<Slip>, works: seq<Work>, paid: Paid, p: PayPolicy, rate: Int64) {
    |slips| == |works| && forall k | 0 <= k < |works| :: IsSlip(slips[k], works, k, paid, p, rate)
  }

  function SlipTotals(slips: seq<Slip>, works: seq<Work>): Amounts
    requires |slips| == |works|
  {
    if slips == [] then Amounts(0, 0, 0, 0)
    else
      var n := |slips| - 1;
      var t, s := SlipTotals(slips[..n], works[..n]), slips[n];
      Amounts(t.regular + works[n].minutes - s.overtime, t.overtime + s.overtime, t.base + s.pay.base, t.premium + s.pay.premium)
  }

  /** Regular minutes of week w on the slips. */
  function SlipRegularIn(slips: seq<Slip>, works: seq<Work>, w: int): int
    requires |slips| == |works|
  {
    if slips == [] then 0
    else
      var n := |slips| - 1;
      SlipRegularIn(slips[..n], works[..n], w) + (if Week(works[n].day) == w then works[n].minutes - slips[n].overtime else 0)
  }

  lemma SlipOfPrefix(s: Slip, works: seq<Work>, k: nat, n: nat, paid: Paid, p: PayPolicy, rate: Int64)
    requires k < n <= |works|
    ensures IsSlip(s, works[..n], k, paid, p, rate) <==> IsSlip(s, works, k, paid, p, rate)
  {
    assert works[..n][..k] == works[..k];
  }

  lemma SlipsPrefix(slips: seq<Slip>, works: seq<Work>, paid: Paid, p: PayPolicy, rate: Int64, n: nat)
    requires AreSlips(slips, works, paid, p, rate) && n <= |works|
    ensures AreSlips(slips[..n], works[..n], paid, p, rate)
  {
    forall k | 0 <= k < n ensures IsSlip(slips[..n][k], works[..n], k, paid, p, rate) {
      assert IsSlip(slips[k], works, k, paid, p, rate);
      SlipOfPrefix(slips[k], works, k, n, paid, p, rate);
    }
  }

  lemma SlipsAppend(slips: seq<Slip>, works: seq<Work>, s: Slip, paid: Paid, p: PayPolicy, rate: Int64)
    requires works != [] && AreSlips(slips, works[..|works| - 1], paid, p, rate)
    requires IsSlip(s, works, |works| - 1, paid, p, rate)
    ensures AreSlips(slips + [s], works, paid, p, rate)
  {
    var n := |works| - 1;
    forall k | 0 <= k < |works| ensures IsSlip((slips + [s])[k], works, k, paid, p, rate) {
      if k < n {
        assert IsSlip(slips[k], works[..n], k, paid, p, rate);
        SlipOfPrefix(slips[k], works, k, n, paid, p, rate);
      }
    }
  }

  lemma SlipTotalsAppend(slips: seq<Slip>, works: seq<Work>, s: Slip)
    requires works != [] && |slips| == |works| - 1
    ensures var t := SlipTotals(slips, works[..|slips|]);
            SlipTotals(slips + [s], works) == PlusSlip(t, works[|slips|].minutes, s)
  {
    assert (slips + [s])[..|slips|] == slips;
  }

  /** The slip of one entry that can be paid. */
  lemma SlipOf(work: Work, before: int, p: PayPolicy, rate: Int64) returns (s: Slip)
    requires PolicyOk(p) && work.minutes > 0
    requires PayFor(work, work.minutes - RegularPortion(p.threshold, before, work.minutes), p, rate).Ok?
    ensures Slips(s, work, before, p, rate)
    ensures s.overtime == work.minutes - RegularPortion(p.threshold, before, work.minutes)
    ensures PayFor(work, s.overtime, p, rate) == Ok(s.pay)
  {
    var overtime := work.minutes - RegularPortion(p.threshold, before, work.minutes);
    var r := RatesExist(work.shift, p, rate);
    PayIsEarned(work, overtime, p, rate, r);
    s := Slip(overtime, r, PayFor(work, overtime, p, rate).value);
  }

  function PlusSlip(t: Amounts, minutes: int, s: Slip): Amounts {
    Amounts(t.regular + minutes - s.overtime, t.overtime + s.overtime, t.base + s.pay.base, t.premium + s.pay.premium)
  }

  lemma AddSlip(t: Amounts, work: Work, before: int, p: PayPolicy, rate: Int64, pay: PayRule) returns (s: Slip)
    requires PolicyOk(p) && work.minutes > 0 && Follows(pay, p, rate) && AddEntry(t, work, before, p.threshold, pay).Ok?
    ensures Slips(s, work, before, p, rate)
    ensures AddEntry(t, work, before, p.threshold, pay) == Ok(PlusSlip(t, work.minutes, s))
  {
    var overtime := work.minutes - RegularPortion(p.threshold, before, work.minutes);
    assert pay(work, overtime) == PayFor(work, overtime, p, rate);
    s := SlipOf(work, before, p, rate);
  }

  /** The gross totals are the sums over slips that state, for every entry, what is overtime
      and what is earned. */
  lemma {:induction false} GrossIsSlips(works: seq<Work>, paid: Paid, p: PayPolicy, rate: Int64, pay: PayRule)
    returns (slips: seq<Slip>)
    requires PolicyOk(p) && Positive(works) && Follows(pay, p, rate) && GrossOf(works, paid, p.threshold, pay).Ok?
    ensures AreSlips(slips, works, paid, p, rate)
    ensures GrossOf(works, paid, p.threshold, pay) == Ok(SlipTotals(slips, works))
  {
    slips := [];
    if works != [] {
      var n := |works| - 1;
      var earlier := GrossIsSlips(works[..n], paid, p, rate, pay);
      slips := AddLastSlip(works, earlier, paid, p, rate, pay);
    }
  }

  lemma AddLastSlip(works: seq<Work>, earlier: seq<Slip>, paid: Paid, p: PayPolicy, rate: Int64, pay: PayRule)
    returns (slips: seq<Slip>)
    requires PolicyOk(p) && Positive(works) && works != [] && Follows(pay, p, rate)
    requires GrossOf(works, paid, p.threshold, pay).Ok?
    requires AreSlips(earlier, works[..|works| - 1], paid, p, rate)
    requires GrossOf(works[..|works| - 1], paid, p.threshold, pay) == Ok(SlipTotals(earlier, works[..|works| - 1]))
    ensures AreSlips(slips, works, paid, p, rate)
    ensures GrossOf(works, paid, p.threshold, pay) == Ok(SlipTotals(slips, works))
  {
    var n, work, t := |works| - 1, works[|works| - 1], SlipTotals(earlier, works[..|works| - 1]);
    var before := Before(works[..n], paid, work.day);
    assert GrossOf(works, paid, p.threshold, pay) == AddEntry(t, work, before, p.threshold, pay);
    var s := AddSlip(t, work, before, p, rate, pay);
    assert AreSlips(earlier + [s], works, paid, p, rate) by { SlipsAppend(earlier, works, s, paid, p, rate); }
    SlipTotalsAppend(earlier, works, s);
    slips := earlier + [s];
  }

  /** No product on the way to the pay of entry k leaves int64. */
  ghost predicate EntryFits(work: Work, before: int, p: PayPolicy, rate: Int64) {
    exists r: Rates :: AreRates(r, work.shift, p, rate) && Fits(r, work, OvertimeAfter(p.threshold, before, work.minutes), p, rate)
  }

  ghost predicate FitsAt(works: seq<Work>, k: nat, paid: Paid, p: PayPolicy, rate: Int64)
    requires k < |works|
  {
    EntryFits(works[k], paid(Week(works[k].day)) + WeekTotal(works[..k], Week(works[k].day)), p, rate)
  }

  ghost predicate AllFit(works: seq<Work>, paid: Paid, p: PayPolicy, rate: Int64) {
    forall k | 0 <= k < |works| :: FitsAt(works, k, paid, p, rate)
  }

  lemma PayFits(work: Work, before: int, p: PayPolicy, rate: Int64)
    requires PolicyOk(p) && work.minutes > 0
    ensures PayFor(work, work.minutes - RegularPortion(p.threshold, before, work.minutes), p, rate).Ok? <==>
            EntryFits(work, before, p, rate)
  {
    var overtime := work.minutes - RegularPortion(p.threshold, before, work.minutes);
    var r := RatesExist(work.shift, p, rate);
    PayIsEarned(work, overtime, p, rate, r);
    if q: Rates :| AreRates(q, work.shift, p, rate) && Fits(q, work, overtime, p, rate) {
      PayIsEarned(work, overtime, p, rate, q);
    }
  }

  lemma AddFits(t: Amounts, work: Work, before: int, p: PayPolicy, rate: Int64, pay: PayRule)
    requires PolicyOk(p) && work.minutes > 0 && Follows(pay, p, rate)
    ensures AddEntry(t, work, before, p.threshold, pay).Ok? <==> EntryFits(work, before, p, rate)
  {
    var overtime := work.minutes - RegularPortion(p.threshold, before, work.minutes);
    assert pay(work, overtime) == PayFor(work, overtime, p, rate);
    PayFits(work, before, p, rate);
  }

  /** There are totals if and only if no product of any entry leaves int64. */
  lemma {:induction false} GrossFitsIff(works: seq<Work>, paid: Paid, p: PayPolicy, rate: Int64, pay: PayRule)
    requires PolicyOk(p) && Positive(works) && Follows(pay, p, rate)
    ensures GrossOf(works, paid, p.threshold, pay).Ok? <==> AllFit(works, paid, p, rate)
  {
    if works != [] {
      var n := |works| - 1;
      GrossFitsIff(works[..n], paid, p, rate, pay);
      FitsFront(works, paid, p, rate);
      var front := GrossOf(works[..n], paid, p.threshold, pay);
      if front.Ok? { AddFits(front.value, works[n], Before(works[..n], paid, works[n].day), p, rate, pay); }
    }
  }

  lemma FitsFront(works: seq<Work>, paid: Paid, p: PayPolicy, rate: Int64)
    requires works != []
    ensures var n := |works| - 1;
            AllFit(works, paid, p, rate) <==> AllFit(works[..n], paid, p, rate) && FitsAt(works, n, paid, p, rate)
  {
    var n := |works| - 1;
    forall k: nat | k < n ensures FitsAt(works[..n], k, paid, p, rate) <==> FitsAt(works, k, paid, p, rate) {
      assert works[..n][..k] == works[..k];
    }
  }

  lemma SlipOnce(a: Slip, b: Slip, work: Work, before: int, p: PayPolicy, rate: Int64)
    requires Slips(a, work, before, p, rate) && Slips(b, work, before, p, rate)
    ensures a == b
  {
    EarnedOnce(a.pay, a.rates, b.pay, b.rates, work, a.overtime, p, rate);
  }

  lemma SlipsOnce(a: seq<Slip>, b: seq<Slip>, works: seq<Work>, paid: Paid, p: PayPolicy, rate: Int64)
    requires AreSlips(a, works, paid, p, rate) && AreSlips(b, works, paid, p, rate)
    ensures a == b
  {
    forall k | 0 <= k < |works| ensures a[k] == b[k] {
      assert IsSlip(a[k], works, k, paid, p, rate) && IsSlip(b[k], works, k, paid, p, rate);
      SlipOnce(a[k], b[k], works[k], paid(Week(works[k].day)) + WeekTotal(works[..k], Week(works[k].day)), p, rate);
    }
  }

  /** The slips determine the totals. */
  lemma SlipsMakeGross(slips: seq<Slip>, works: seq<Work>, paid: Paid, p: PayPolicy, rate: Int64, pay: PayRule)
    requires PolicyOk(p) && Positive(works) && Follows(pay, p, rate)
    requires AreSlips(slips, works, paid, p, rate) && AllFit(works, paid, p, rate)
    ensures GrossOf(works, paid, p.threshold, pay) == Ok(SlipTotals(slips, works))
  {
    GrossFitsIff(works, paid, p, rate, pay);
    var others := GrossIsSlips(works, paid, p, rate, pay);
    SlipsOnce(slips, others, works, paid, p, rate);
  }

  /** Over the slips of one pass, each week has the regular minutes that were left under its
      threshold. */
  lemma {:induction false} SlipWeek(slips: seq<Slip>, works: seq<Work>, paid: Paid, p: PayPolicy, rate: Int64, w: int)
    requires AreSlips(slips, works, paid, p, rate)
    ensures SlipRegularIn(slips, works, w) == Least(p.threshold, paid(w) + WeekTotal(works, w)) - Least(p.threshold, paid(w))
  {
    if works != [] {
      var n := |works| - 1;
      SlipsPrefix(slips, works, paid, p, rate, n);
      SlipWeek(slips[..n], works[..n], paid, p, rate, w);
      assert IsSlip(slips[n], works, n, paid, p, rate);
    }
  }

  function OverWeeks(f: int -> int, lo: int, hi: int): int
    requires lo <= hi
    decreases hi - lo
  {
    if lo == hi then 0 else OverWeeks(f, lo, hi - 1) + f(hi - 1)
  }

  lemma {:induction false} OneMoreWeek(f: int -> int, g: int -> int, lo: int, hi: int, w: int, x: int)
    requires lo <= hi && forall v :: f(v) == g(v) + (if v == w then x else 0)
    ensures OverWeeks(f, lo, hi) == OverWeeks(g, lo, hi) + (if lo <= w < hi then x else 0)
    decreases hi - lo
  {
    if lo < hi { OneMoreWeek(f, g, lo, hi - 1, w, x); }
  }

  /** The regular minutes on the slips are those of all their weeks together. */
  lemma {:induction false} RegularOverWeeks(slips: seq<Slip>, works: seq<Work>, f: int -> int, lo: int, hi: int)
    requires |slips| == |works| && lo <= hi && forall k | 0 <= k < |works| :: lo <= Week(works[k].day) < hi
    requires forall w :: f(w) == SlipRegularIn(slips, works, w)
    ensures SlipTotals(slips, works).regular == OverWeeks(f, lo, hi)
  {
    if works == [] {
      NoWeeks(f, lo, hi);
    } else {
      var n := |works| - 1;
      var g := (w: int) => SlipRegularIn(slips[..n], works[..n], w);
      RegularOverWeeks(slips[..n], works[..n], g, lo, hi);
      OneMoreWeek(f, g, lo, hi, Week(works[n].day), works[n].minutes - slips[n].overtime);
    }
  }

  lemma {:induction false} NoWeeks(f: int -> int, lo: int, hi: int)
    requires lo <= hi && forall w :: f(w) == 0
    ensures OverWeeks(f, lo, hi) == 0
    decreases hi - lo
  {
    if lo < hi { NoWeeks(f, lo, hi - 1); }
  }

  predicate IsBreakdown(b: Breakdown, t: Amounts) {
    && b.regular == t.regular && b.overtime == t.overtime && b.base == t.base && b.premium == t.premium
    && b.gross == t.base + t.premium && b.base >= 0 && b.premium >= 0
  }

  lemma {:induction false} RuleTotalsNonNegative(works: seq<Work>, paid: Paid, threshold: int, pay: PayRule)
    requires threshold > 0 && Positive(works) && GrossOf(works, paid, threshold, pay).Ok?
    requires forall work: Work, overtime: Int64 {:trigger pay(work, overtime)} ::
               work.minutes > 0 && pay(work, overtime).Ok? ==>
               pay(work, overtime).value.base >= 0 && pay(work, overtime).value.premium >= 0
    ensures var t := GrossOf(works, paid, threshold, pay).value; t.base >= 0 && t.premium >= 0
  {
    if works != [] { RuleTotalsNonNegative(works[..|works| - 1], paid, threshold, pay); }
  }

  lemma GrossNonNegative(works: seq<Work>, paid: Paid, p: PayPolicy, rate: Int64)
    requires PolicyOk(p) && rate >= 0 && Positive(works) && Gross(works, paid, p, rate).Ok?
    ensures Gross(works, paid, p, rate).value >= 0
  {
    var pay := RuleOf(p, rate);
    forall work: Work, overtime: Int64 | work.minutes > 0 && pay(work, overtime).Ok?
      ensures pay(work, overtime).value.base >= 0 && pay(work, overtime).value.premium >= 0
    {
      PayForNonNegative(work, overtime, p, rate);
    }
    RuleTotalsNonNegative(works, paid, p.threshold, pay);
  }

  /** The minutes in the breakdown are those of the closed form. */
  lemma {:induction false} BreakdownMinutes(works: seq<Work>, paid: Paid, threshold: int, pay: PayRule)
    requires threshold > 0 && Positive(works) && GrossOf(works, paid, threshold, pay).Ok?
    ensures var t := GrossOf(works, paid, threshold, pay).value;
            t.regular == RegularMinutes(works, paid, threshold) && t.regular + t.overtime == Minutes(works)
  {
    if works != [] { BreakdownMinutes(works[..|works| - 1], paid, threshold, pay); }
  }

  function Minutes(works: seq<Work>): int {
    if works == [] then 0 else Minutes(works[..|works| - 1]) + works[|works| - 1].minutes
  }

  lemma {:induction false} SlipMinutes(slips: seq<Slip>, works: seq<Work>)
    requires |slips| == |works|
    ensures SlipTotals(slips, works).regular + SlipTotals(slips, works).overtime == Minutes(works)
  {
    if works != [] { SlipMinutes(slips[..|slips| - 1], works[..|works| - 1]); }
  }

  // ---------- a differential never cuts pay ----------

  function Plain(p: PayPolicy): PayPolicy { PayPolicy(p.threshold, 10000, 10000, 10000, 10000) }

  lemma ScaleMonotone(k: Int64, l: Int64, num: Int64, d: Int64)
    requires 0 <= k <= l && num >= 0 && 1 <= d <= 10000 && Scale(k, num, d).Ok? && Scale(l, num, d).Ok?
    ensures Scale(k, num, d).value <= Scale(l, num, d).value
  {
    MulOrdered(num, k, l);
    RoundMonotone(k * num, l * num, d);
  }

  lemma RaisedRate(rate: Int64, bps: Int64)
    requires rate >= 0 && bps >= 10000 && Scale(rate, bps, 10000).Ok?
    ensures Scale(rate, 10000, 10000) == Ok(rate) && Scale(rate, bps, 10000).value >= rate
  {
    MulOrdered(rate, 10000, bps);
    MulOrdered(rate, 0, 10000);
    RoundOfMultiple(rate, 10000);
    RoundMonotone(rate * 10000, rate * bps, 10000);
  }

  /** Plain pay is the rate for the minutes, and it fits if the rate raised to k does. */
  lemma PlainFits(work: Work, overtime: Int64, p: PayPolicy, rate: Int64, k: Int64)
    requires PolicyOk(p) && 0 <= rate <= k && work.minutes > 0 && Scale(k, work.minutes, 60).Ok?
    ensures Scale(rate, work.minutes, 60).Ok? && Scale(rate, work.minutes, 60).value <= Scale(k, work.minutes, 60).value
    ensures Scale(rate, 10000, 10000) == Ok(rate) ==>
            PayFor(work, overtime, Plain(p), rate) == Ok(EntryPay(Scale(rate, work.minutes, 60).value, 0))
  {
    MulOrdered(work.minutes, 0, rate);
    MulOrdered(work.minutes, rate, k);
    ScaleMonotone(rate, k, work.minutes, 60);
  }

  /** An entry that can be paid at raised multipliers can be paid at 1.0x, and gets no more. */
  lemma EntryNotCut(work: Work, overtime: Int64, p: PayPolicy, rate: Int64)
    requires PolicyOk(p) && rate >= 0 && work.minutes > 0 && PayFor(work, overtime, p, rate).Ok?
    ensures PayFor(work, overtime, Plain(p), rate).Ok?
    ensures var x, y := PayFor(work, overtime, p, rate).value, PayFor(work, overtime, Plain(p), rate).value;
            x.base >= y.base && x.premium >= y.premium && y.base >= 0 && y.premium == 0
  {
    var bps := MultiplierBps(p, work.shift);
    RaisedRate(rate, bps);
    PlainFits(work, overtime, p, rate, Scale(rate, bps, 10000).value);
    PayForNonNegative(work, overtime, p, rate);
    PayForNonNegative(work, overtime, Plain(p), rate);
  }

  ghost predicate NeverLess(pay: PayRule, plain: PayRule) {
    forall work: Work, overtime: Int64 {:trigger plain(work, overtime)} ::
      work.minutes > 0 && pay(work, overtime).Ok? ==>
        && plain(work, overtime).Ok?
        && pay(work, overtime).value.base >= plain(work, overtime).value.base >= 0
        && pay(work, overtime).value.premium >= plain(work, overtime).value.premium >= 0
  }

  lemma {:induction false} GrossNotLess(works: seq<Work>, paid: Paid, threshold: int, pay: PayRule, plain: PayRule)
    requires threshold > 0 && Positive(works) && NeverLess(pay, plain) && GrossOf(works, paid, threshold, pay).Ok?
    ensures GrossOf(works, paid, threshold, plain).Ok?
    ensures var x, y := GrossOf(works, paid, threshold, pay).value, GrossOf(works, paid, threshold, plain).value;
            && x.base >= y.base >= 0 && x.premium >= y.premium >= 0
            && x.regular == y.regular && x.overtime == y.overtime
  {
    if works != [] { GrossNotLess(works[..|works| - 1], paid, threshold, pay, plain); }
  }

  /** With every multiplier at 1.0x or more, entries that can be paid can be paid at 1.0x, and
      gross is never below what they come to there, through both layers of rounding. */
  lemma NeverCut(works: seq<Work>, paid: Paid, p: PayPolicy, rate: Int64)
    requires PolicyOk(p) && rate >= 0 && Positive(works) && Gross(works, paid, p, rate).Ok?
    ensures Gross(works, paid, Plain(p), rate).Ok?
    ensures Gross(works, paid, p, rate).value >= Gross(works, paid, Plain(p), rate).value
  {
    var pay, plain := RuleOf(p, rate), RuleOf(Plain(p), rate);
    forall work: Work, overtime: Int64 | work.minutes > 0 && pay(work, overtime).Ok?
      ensures plain(work, overtime).Ok?
           && pay(work, overtime).value.base >= plain(work, overtime).value.base >= 0
           && pay(work, overtime).value.premium >= plain(work, overtime).value.premium >= 0
    {
      EntryNotCut(work, overtime, p, rate);
    }
    GrossNotLess(works, paid, p.threshold, pay, plain);
  }
}
