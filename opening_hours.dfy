/** A restaurant's weekly opening hours: per day of the week a list of
    periods, each open from its opening to its closing time inclusive. */
module Opening {
  import opened Common

  datatype DayOfWeek = MONDAY | TUESDAY | WEDNESDAY | THURSDAY | FRIDAY | SATURDAY | SUNDAY

  const SecondsPerDay := 86400

  /** A LocalTime, as seconds since midnight. */
  type TimeOfDay = t: int | 0 <= t < SecondsPerDay

  datatype OpeningPeriod = OpeningPeriod(openTime: TimeOfDay, closeTime: TimeOfDay)

  datatype OpeningDay = OpeningDay(day: DayOfWeek, periods: seq<OpeningPeriod>)

  datatype OpeningHours = OpeningHours(days: seq<OpeningDay>)

  /** Neither before the opening time nor after the closing time. */
  predicate Covers(p: OpeningPeriod, time: TimeOfDay)
  {
    !(time < p.openTime) && !(time > p.closeTime)
  }

  /** Some period in the list covers the time. */
  function AnyPeriod(ps: seq<OpeningPeriod>, time: TimeOfDay): (r: bool)
    ensures r <==> exists j :: 0 <= j < |ps| && Covers(ps[j], time)
  {
    if ps == [] then false
    else if Covers(ps[0], time) then true
    else
      var rest := AnyPeriod(ps[1..], time);
      assert forall j :: 1 <= j < |ps| ==> ps[j] == ps[1..][j - 1];
      rest
  }

  /** Some entry for `day` has a period covering the time. */
  function AnyDay(ds: seq<OpeningDay>, day: DayOfWeek, time: TimeOfDay): (r: bool)
    ensures r <==> exists i :: 0 <= i < |ds| && ds[i].day == day && AnyPeriod(ds[i].periods, time)
  {
    if ds == [] then false
    else if ds[0].day == day && AnyPeriod(ds[0].periods, time) then true
    else
      var rest := AnyDay(ds[1..], day, time);
      assert forall i :: 1 <= i < |ds| ==> ds[i] == ds[1..][i - 1];
      rest
  }

  /** The entries for the day, their periods flattened, any of them
      covering the time. */
  function IsOpenAt(h: OpeningHours, day: DayOfWeek, time: TimeOfDay): bool
  {
    AnyDay(h.days, day, time)
  }

  /** Open exactly when some period listed under that day covers the time,
      both ends included. */
  lemma IsOpenAtSpec(h: OpeningHours, day: DayOfWeek, time: TimeOfDay)
    ensures IsOpenAt(h, day, time) <==>
              exists i, j :: 0 <= i < |h.days| && h.days[i].day == day && 0 <= j < |h.days[i].periods|
                             && h.days[i].periods[j].openTime <= time <= h.days[i].periods[j].closeTime
  {
    if IsOpenAt(h, day, time) {
      var i :| 0 <= i < |h.days| && h.days[i].day == day && AnyPeriod(h.days[i].periods, time);
      var j :| 0 <= j < |h.days[i].periods| && Covers(h.days[i].periods[j], time);
      assert h.days[i].periods[j].openTime <= time <= h.days[i].periods[j].closeTime;
    }
  }

  /** The opening and the closing instant of a listed period both count as
      open. */
  lemma EndpointsInclusive(h: OpeningHours, i: nat, j: nat)
    requires i < |h.days| && j < |h.days[i].periods|
    ensures h.days[i].periods[j].openTime <= h.days[i].periods[j].closeTime ==>
              IsOpenAt(h, h.days[i].day, h.days[i].periods[j].openTime)
              && IsOpenAt(h, h.days[i].day, h.days[i].periods[j].closeTime)
  {
    var p := h.days[i].periods[j];
    if p.openTime <= p.closeTime {
      assert Covers(p, p.openTime) && Covers(p, p.closeTime);
      assert AnyPeriod(h.days[i].periods, p.openTime);
      assert AnyPeriod(h.days[i].periods, p.closeTime);
    }
  }

  /** Entries listed under another day never count: adding one changes
      nothing for `day`. */
  lemma {:induction false} OtherDaysNeverCount(ds: seq<OpeningDay>, extra: OpeningDay, day: DayOfWeek, time: TimeOfDay)
    requires extra.day != day
    ensures AnyDay(ds + [extra], day, time) == AnyDay(ds, day, time)
  {
    if AnyDay(ds + [extra], day, time) {
      var i :| 0 <= i < |ds + [extra]| && (ds + [extra])[i].day == day && AnyPeriod((ds + [extra])[i].periods, time);
      assert i < |ds| && ds[i] == (ds + [extra])[i];
    }
    if AnyDay(ds, day, time) {
      var i :| 0 <= i < |ds| && ds[i].day == day && AnyPeriod(ds[i].periods, time);
      assert (ds + [extra])[i] == ds[i];
    }
  }

  /** A day without periods is closed all day. */
  lemma NoPeriodsMeansClosed(h: OpeningHours, day: DayOfWeek, time: TimeOfDay)
    requires forall i :: 0 <= i < |h.days| && h.days[i].day == day ==> h.days[i].periods == []
    ensures !IsOpenAt(h, day, time)
  {
  }

  /** The day of the week of an instant, counted in seconds from Thursday
      1 January 1970 at midnight. */
  function DayOf(t: Time): DayOfWeek
  {
    var k := (t / SecondsPerDay + 3) % 7;
    if k == 0 then MONDAY else if k == 1 then TUESDAY else if k == 2 then WEDNESDAY
    else if k == 3 then THURSDAY else if k == 4 then FRIDAY else if k == 5 then SATURDAY else SUNDAY
  }

  /** The time of day of an instant. */
  function TimeOf(t: Time): TimeOfDay
  {
    t % SecondsPerDay
  }
}
