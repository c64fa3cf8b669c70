/** A driver's payout for a delivery: a base fee plus a rate per started
    minute between pickup and delivery, the minutes clamped to a range,
    rounded up to the cent. */
module Payouts {
  import opened Common

  const BaseFeeRequired := "baseFee must not be null"
  const RateRequired := "perMinuteRate must not be null"
  const TimesRequired := "Tijden mogen niet null zijn"
  const DeliveryBeforePickup := "deliveryTime moet na pickupTime zijn"

  datatype PayoutCalculator = PayoutCalculator(baseFee: Money, perMinuteRate: Money, minMinutes: int, maxMinutes: int)

  /** The record's constructor: both amounts are required. */
  function NewCalculator(baseFee: Option<Money>, perMinuteRate: Option<Money>, minMinutes: int, maxMinutes: int)
    : (r: Result<PayoutCalculator>)
    ensures r.Success? <==> baseFee.Some? && perMinuteRate.Some?
    ensures baseFee.None? ==> r == Fail(NullPointer(BaseFeeRequired))
    ensures baseFee.Some? && perMinuteRate.None? ==> r == Fail(NullPointer(RateRequired))
    ensures r.Success? ==> r.value.baseFee == baseFee.value && r.value.perMinuteRate == perMinuteRate.value
                           && r.value.minMinutes == minMinutes && r.value.maxMinutes == maxMinutes
  {
    if baseFee.None? then Fail(NullPointer(BaseFeeRequired))
    else if perMinuteRate.None? then Fail(NullPointer(RateRequired))
    else Success(PayoutCalculator(baseFee.value, perMinuteRate.value, minMinutes, maxMinutes))
  }

  /** The started minutes of a duration in seconds. */
  function Minutes(seconds: nat): nat
  {
    (seconds + 59) / 60
  }

  /** Minutes is the ceiling of seconds / 60: the least whole number of
      minutes that covers the duration. */
  lemma MinutesIsCeiling(seconds: nat)
    ensures Minutes(seconds) * 60 >= seconds
    ensures Minutes(seconds) == 0 || (Minutes(seconds) - 1) * 60 < seconds
  {
  }

  /** Raised to the minimum first, then lowered to the maximum. */
  function Clamp(m: int, lo: int, hi: int): int
  {
    var raised := if m < lo then lo else m;
    if raised > hi then hi else raised
  }

  /** Within the range when it is one, unchanged when already inside it,
      and the maximum when the range is empty. */
  lemma ClampBounds(m: int, lo: int, hi: int)
    ensures lo <= hi ==> lo <= Clamp(m, lo, hi) <= hi
    ensures lo <= m <= hi ==> Clamp(m, lo, hi) == m
    ensures hi < lo ==> Clamp(m, lo, hi) == hi
  {
  }

  /** The clamped minutes between the two instants. */
  function BilledMinutes(c: PayoutCalculator, pickup: Time, delivery: Time): int
    requires pickup <= delivery
  {
    Clamp(Minutes(delivery - pickup), c.minMinutes, c.maxMinutes)
  }

  /** calculateFor: both times are required and delivery may not come
      before pickup. */
  function CalculateFor(c: PayoutCalculator, pickup: Option<Time>, delivery: Option<Time>): Result<Money>
  {
    if pickup.None? || delivery.None? then Fail(IllegalArgument(TimesRequired))
    else if delivery.value < pickup.value then Fail(IllegalArgument(DeliveryBeforePickup))
    else Success(CeilCents(c.baseFee + Times(c.perMinuteRate, BilledMinutes(c, pickup.value, delivery.value))))
  }

  /** The payout fails exactly on a missing time or a delivery before
      pickup, and is otherwise the base fee plus the rate for the billed
      minutes, rounded up to a whole cent. */
  lemma CalculateForSpec(c: PayoutCalculator, pickup: Option<Time>, delivery: Option<Time>)
    ensures CalculateFor(c, pickup, delivery).Fail? <==>
              pickup.None? || delivery.None? || delivery.value < pickup.value
    ensures CalculateFor(c, pickup, delivery).Success? ==>
              var exact := c.baseFee + c.perMinuteRate * BilledMinutes(c, pickup.value, delivery.value) as real;
              var r := CalculateFor(c, pickup, delivery).value;
              IsCents(r) && exact <= r < exact + 0.01
  {
    if pickup.Some? && delivery.Some? && delivery.value >= pickup.value {
      TimesIsProduct(c.perMinuteRate, BilledMinutes(c, pickup.value, delivery.value));
    }
  }

  /** The calculator of the default configuration. */
  const Default := PayoutCalculator(3.00, 0.30, 5, 30)

  /** At the default rates, `minutes` billed pay `amount` when that is
      3.00 + 0.30 × minutes and already a whole number of cents. */
  lemma DefaultPays(pickup: Time, delivery: Time, minutes: nat, amount: Money)
    requires pickup <= delivery && BilledMinutes(Default, pickup, delivery) == minutes
    requires 3.00 + 0.30 * minutes as real == amount && IsCents(amount)
    ensures CalculateFor(Default, Some(pickup), Some(delivery)) == Success(amount)
  {
    TimesIsProduct(0.30, minutes);
    CeilCentsOfCents(amount);
  }

  /** Fifteen minutes at the default rates pay 3.00 + 0.30 × 15 = 7.50;
      two minutes are raised to five (4.50), two hours lowered to thirty
      (12.00), and 14 minutes 1 second count as fifteen. */
  lemma DefaultExamples()
    ensures CalculateFor(Default, Some(0), Some(900)) == Success(7.50)
    ensures CalculateFor(Default, Some(0), Some(120)) == Success(4.50)
    ensures CalculateFor(Default, Some(0), Some(7200)) == Success(12.00)
    ensures CalculateFor(Default, Some(100), Some(941)) == Success(7.50)
  {
    assert IsCents(7.50) && IsCents(4.50) && IsCents(12.00);
    DefaultPays(0, 900, 15, 7.50);
    DefaultPays(0, 120, 5, 4.50);
    DefaultPays(0, 7200, 30, 12.00);
    DefaultPays(100, 941, 15, 7.50);
  }

  lemma {:induction false} TimesMonotone(p: Money, a: nat, b: nat)
    requires p >= 0.0 && a <= b
    ensures Times(p, a) <= Times(p, b)
    decreases b - a
  {
    if a < b {
      TimesMonotone(p, a, b - 1);
    }
  }

  lemma CeilCentsMonotone(x: Money, y: Money)
    requires x <= y
    ensures CeilCents(x) <= CeilCents(y)
  {
    assert (-y * 100.0).Floor <= (-x * 100.0).Floor;
  }

  /** With a non-negative rate and a proper range, the payout lies between
      the fee for the minimum and the fee for the maximum minutes, rounded
      up. */
  lemma PayoutBounds(c: PayoutCalculator, pickup: Time, delivery: Time)
    requires pickup <= delivery && c.perMinuteRate >= 0.0 && 0 <= c.minMinutes <= c.maxMinutes
    ensures c.baseFee + Times(c.perMinuteRate, c.minMinutes) <= CalculateFor(c, Some(pickup), Some(delivery)).value
    ensures CalculateFor(c, Some(pickup), Some(delivery)).value <= CeilCents(c.baseFee + Times(c.perMinuteRate, c.maxMinutes))
  {
    var m := BilledMinutes(c, pickup, delivery);
    ClampBounds(Minutes(delivery - pickup), c.minMinutes, c.maxMinutes);
    TimesMonotone(c.perMinuteRate, c.minMinutes, m);
    TimesMonotone(c.perMinuteRate, m, c.maxMinutes);
    CeilCentsMonotone(c.baseFee + Times(c.perMinuteRate, m), c.baseFee + Times(c.perMinuteRate, c.maxMinutes));
  }

  /** A later delivery never pays less. */
  lemma PayoutMonotone(c: PayoutCalculator, pickup: Time, d1: Time, d2: Time)
    requires pickup <= d1 <= d2 && c.perMinuteRate >= 0.0
    ensures CalculateFor(c, Some(pickup), Some(d1)).value <= CalculateFor(c, Some(pickup), Some(d2)).value
  {
    var m1, m2 := BilledMinutes(c, pickup, d1), BilledMinutes(c, pickup, d2);
    assert Minutes(d1 - pickup) <= Minutes(d2 - pickup);
    if m1 < m2 {
      TimesMonotone(c.perMinuteRate, m1, m2);
    }
    CeilCentsMonotone(c.baseFee + Times(c.perMinuteRate, m1), c.baseFee + Times(c.perMinuteRate, m2));
  }
}
