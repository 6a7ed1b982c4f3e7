/** The "Become a Host" earnings estimator: hours per day, charger power and
    price per kWh, less the platform's 15% share. */
module HostEarnings {
  import opened Wrappers
  import opened Money

  /** `powerMap[chargerType]` in kW; any other value is `undefined`. */
  function PowerOf(chargerType: string): (p: Option<int>)
    ensures p.Some? <==> chargerType in {"3kw", "7kw", "22kw"}
    ensures p == Some(3) <==> chargerType == "3kw"
    ensures p == Some(7) <==> chargerType == "7kw"
    ensures p == Some(22) <==> chargerType == "22kw"
  {
    if chargerType == "3kw" then Some(3)
    else if chargerType == "7kw" then Some(7)
    else if chargerType == "22kw" then Some(22)
    else None
  }

  datatype Estimate = Estimate(daily: int, monthly: int, yearly: int)

  /** The host's exact daily share before rounding. */
  function DailyShare(hours: int, power: int, price: int): real {
    (hours * power * price) as real * 0.85
  }

  /** `calculateEarnings`: each figure is the nearest integer to the daily
      share times 1, 30 and 365 days, all three taken from the unrounded
      share. An unknown charger type gives NaN, modelled as `None`. */
  function CalculateEarnings(chargerType: string, hours: int, price: int): (r: Option<Estimate>)
    ensures r.None? <==> PowerOf(chargerType).None?
    ensures r.Some? ==>
              var d := DailyShare(hours, PowerOf(chargerType).value, price);
              && r.value.daily as real - 0.5 <= d < r.value.daily as real + 0.5
              && r.value.monthly as real - 0.5 <= d * 30.0 < r.value.monthly as real + 0.5
              && r.value.yearly as real - 0.5 <= d * 365.0 < r.value.yearly as real + 0.5
  {
    match PowerOf(chargerType)
    case None => None
    case Some(power) =>
      var d := DailyShare(hours, power, price);
      Some(Estimate(Round(d), Round(d * 30.0), Round(d * 365.0)))
  }

  /** The page's starting values: 8 hours, a 3 kW charger and 10 per kWh. */
  lemma DefaultEstimate()
    ensures CalculateEarnings("3kw", 8, 10) == Some(Estimate(204, 6120, 74460))
  {
    assert DailyShare(8, 3, 10) == 204.0;
    RoundOfInt(204);
    RoundOfInt(6120);
    RoundOfInt(74460);
  }

  /** The monthly figure is not thirty rounded days: 2 hours on 3 kW at 5
      per kWh earn 25.5 a day, shown as 26, but 765 a month, not 780. */
  lemma MonthlyIsNotThirtyDays()
    ensures CalculateEarnings("3kw", 2, 5) == Some(Estimate(26, 765, 9308))
  {
    assert DailyShare(2, 3, 5) == 25.5;
  }

  /** 3 hours on 3 kW at 17 per kWh earn exactly 3901.5 a month, which
      rounds up to 3902. In IEEE-754 doubles the same product is
      3901.4999999999995, so the browser shows 3901. */
  lemma ExactHalfMonthly()
    ensures CalculateEarnings("3kw", 3, 17) == Some(Estimate(130, 3902, 47468))
  {
    assert DailyShare(3, 3, 17) == 130.05;
  }

  /** Still, the monthly figure is never more than 15 away from thirty times the daily one. */
  lemma MonthlyNearThirtyDays(chargerType: string, hours: int, price: int)
    requires PowerOf(chargerType).Some?
    ensures var e := CalculateEarnings(chargerType, hours, price).value;
            -15 <= e.monthly - 30 * e.daily <= 15
  {
    var e := CalculateEarnings(chargerType, hours, price).value;
    var d := DailyShare(hours, PowerOf(chargerType).value, price);
    assert -15.0 <= d * 30.0 - (30 * e.daily) as real <= 15.0;
  }

  /** The daily share grows with each input while the others are non-negative. */
  lemma DailyShareMonotone(h1: int, h2: int, p1: int, p2: int, c1: int, c2: int)
    requires 0 <= h1 <= h2 && 0 <= p1 <= p2 && 0 <= c1 <= c2
    ensures DailyShare(h1, p1, c1) <= DailyShare(h2, p2, c2)
  {
    assert h1 * p1 <= h2 * p2 by {
      assert h1 * p1 <= h2 * p1;
      assert h2 * p1 <= h2 * p2;
    }
    assert h1 * p1 * c1 <= h2 * p2 * c2 by {
      assert h1 * p1 * c1 <= h2 * p2 * c1;
      assert h2 * p2 * c1 <= h2 * p2 * c2;
    }
  }

  /** More hours, a more powerful charger or a higher price never lower any figure. */
  lemma EarningsMonotone(t1: string, t2: string, h1: int, h2: int, c1: int, c2: int)
    requires PowerOf(t1).Some? && PowerOf(t2).Some? && PowerOf(t1).value <= PowerOf(t2).value
    requires 0 <= h1 <= h2 && 0 <= c1 <= c2
    ensures var a := CalculateEarnings(t1, h1, c1).value;
            var b := CalculateEarnings(t2, h2, c2).value;
            a.daily <= b.daily && a.monthly <= b.monthly && a.yearly <= b.yearly
  {
    var d1 := DailyShare(h1, PowerOf(t1).value, c1);
    var d2 := DailyShare(h2, PowerOf(t2).value, c2);
    DailyShareMonotone(h1, h2, PowerOf(t1).value, PowerOf(t2).value, c1, c2);
    RoundMonotone(d1, d2);
    MulMonotone(d1, d2, 30.0);
    RoundMonotone(d1 * 30.0, d2 * 30.0);
    MulMonotone(d1, d2, 365.0);
    RoundMonotone(d1 * 365.0, d2 * 365.0);
  }
}
