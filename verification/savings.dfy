/** Automated savings out of net pay (internal/services/ewa_savings_service.go). */
module Savings {
  import opened Money

  datatype Mode = FixedPercent | RoundUp | OtherMode

  datatype Preference = Preference(enabled: bool, mode: Mode, fixedPercent: Int64, roundUpTo: Int64)

  /** How far netPay falls short of the next multiple of unit. */
  function RoundUpDelta(netPay: Int64, unit: Int64): (d: Int64) {
    if unit <= 0 then 0
    else
      var remainder := GoRem(netPay, unit);
      if remainder == 0 then 0 else Wrap(unit - remainder)
  }

  /** The amount DivertSavingsForPayrollItem takes out of net pay. */
  function Diverted(netPay: Int64, pref: Preference): (r: Result<Int64>) {
    if netPay <= 0 || !pref.enabled then Ok(0)
    else
      var wanted: Result<Int64> :=
        match pref.mode
        case FixedPercent => if pref.fixedPercent <= 0 then Ok(0) else Percent(netPay, pref.fixedPercent, 100)
        case RoundUp => Ok(RoundUpDelta(netPay, pref.roundUpTo))
        case OtherMode => Ok(0);
      match wanted
      case Err(e) => Err(e)
      case Ok(amount) => if amount <= 0 || amount >= netPay then Ok(0) else Ok(amount)
  }

  /** Savings never take the whole remaining pay, whatever the election says. */
  lemma DivertedLeavesPay(netPay: Int64, pref: Preference)
    requires Diverted(netPay, pref).Ok?
    ensures var d := Diverted(netPay, pref).value; d >= 0 && (d > 0 ==> d < netPay)
  {
  }

  lemma RemOfPositive(x: Int64, unit: Int64)
    requires x >= 0 && unit > 0
    ensures GoRem(x, unit) == x % unit
  {
    var m, r := NatDivision(x, unit);
    assert unit * (x / unit) + x % unit == x;
  }

  /** Rounding up diverts the least amount that brings net pay plus savings onto a
      multiple of the unit. */
  lemma RoundUpReachesMultiple(netPay: Int64, unit: Int64)
    requires netPay >= 0 && unit > 0
    ensures var d := RoundUpDelta(netPay, unit); 0 <= d < unit && (netPay + d) % unit == 0
  {
    RemOfPositive(netPay, unit);
    var q, r := netPay / unit, netPay % unit;
    assert netPay == unit * q + r;
    if r != 0 {
      assert netPay + (unit - r) == unit * (q + 1);
      MultipleHasNoRemainder(unit, q + 1);
    }
  }

  /** What the election asks for: a percentage rounded to nearest, ties to even, or the
      least amount that brings net pay onto a multiple of the unit. */
  ghost predicate Elected(wanted: int, netPay: Int64, pref: Preference) {
    match pref.mode
    case FixedPercent =>
      if pref.fixedPercent <= 0 then wanted == 0 else IsNearestEven(wanted, netPay * pref.fixedPercent, 100)
    case RoundUp =>
      if pref.roundUpTo <= 0 then wanted == 0 else 0 <= wanted < pref.roundUpTo && (netPay + wanted) % pref.roundUpTo == 0
    case OtherMode => wanted == 0
  }

  lemma ElectionExists(netPay: Int64, pref: Preference) returns (wanted: int)
    requires netPay > 0
    ensures Elected(wanted, netPay, pref)
  {
    match pref.mode
    case FixedPercent =>
      wanted := if pref.fixedPercent <= 0 then 0 else RoundHalfEven(netPay * pref.fixedPercent, 100);
    case RoundUp =>
      wanted := if pref.roundUpTo <= 0 then 0 else RoundUpDelta(netPay, pref.roundUpTo);
      if pref.roundUpTo > 0 { RoundUpReachesMultiple(netPay, pref.roundUpTo); }
    case OtherMode => wanted := 0;
  }

  /** Net pay is diverted by what was elected, unless that is nothing or everything; an error
      exactly when the percentage's product leaves int64. */
  lemma DivertedIsElected(netPay: Int64, pref: Preference, wanted: int)
    requires netPay > 0 && Elected(wanted, netPay, pref)
    ensures var r := Diverted(netPay, pref);
            && (r.Err? <==> pref.enabled && pref.mode == FixedPercent && pref.fixedPercent > 0 &&
                            !InRange(netPay * pref.fixedPercent))
            && (r.Ok? ==> r.value == if pref.enabled && 0 < wanted < netPay then wanted else 0)
  {
    match pref.mode
    case FixedPercent =>
      if pref.fixedPercent > 0 {
        PercentExact(netPay, pref.fixedPercent, 100);
        NearestEvenUnique(wanted, RoundHalfEven(netPay * pref.fixedPercent, 100), netPay * pref.fixedPercent, 100);
      }
    case RoundUp =>
      if pref.roundUpTo > 0 {
        RoundUpReachesMultiple(netPay, pref.roundUpTo);
        OneResidue(netPay, pref.roundUpTo, wanted, RoundUpDelta(netPay, pref.roundUpTo));
      }
    case OtherMode =>
  }

  lemma OneResidue(x: int, unit: int, a: int, b: int)
    requires unit > 0 && 0 <= a < unit && 0 <= b < unit && (x + a) % unit == 0 && (x + b) % unit == 0
    ensures a == b
  {
    var m, n := (x + a) / unit, (x + b) / unit;
    assert a - b == unit * m - unit * n == unit * (m - n);
    if m - n >= 1 { MulAtLeast(m - n, unit); } else if m - n <= -1 { MulAtLeast(n - m, unit); SignedProducts(unit, m - n); }
  }

  lemma MultipleHasNoRemainder(unit: int, q: int)
    requires unit > 0
    ensures (unit * q) % unit == 0
  {
    var rem := (unit * q) % unit;
    var quot := (unit * q) / unit;
    assert unit * q == unit * quot + rem;
    assert rem == unit * (q - quot);
    if q - quot >= 1 { MulAtLeast(q - quot, unit); } else if q - quot <= -1 { MulAtLeast(quot - q, unit); SignedProducts(unit, q - quot); }
  }
}
