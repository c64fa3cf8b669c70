/** The driver service: a driver claims, starts, cancels and completes a
    delivery, each call checking the driver first and then the delivery;
    and the list of a driver's completed deliveries with a running total
    of the payouts. */
module DriverServices {
  import opened Common
  import Drivers
  import Deliveries
  import Payouts

  const NoPickupTime := "Delivery heeft geen pickupTime"
  const Currency := "EUR"

  /** The DeliveryStatusChangedDomainEvent published after start and
      complete. */
  datatype StatusChanged = StatusChanged(orderId: Uuid, orderStatus: Deliveries.OrderStatus)

  /** The driver and the delivery point at each other. */
  predicate Linked(driver: Drivers.Driver, delivery: Deliveries.Delivery)
    reads driver, delivery
  {
    delivery.orderId.Some? && driver.activeDeliveryId == delivery.orderId && delivery.assignedDriverId == Some(driver.id)
  }

  /** claimDelivery: a driver with an active delivery is refused before
      the delivery is looked at; otherwise the delivery is claimed and,
      only if that succeeds, the driver is assigned to it. `delivery` is
      the one stored under `deliveryId`. */
  method ClaimDelivery(driver: Drivers.Driver, delivery: Deliveries.Delivery, deliveryId: Uuid) returns (o: Outcome)
    requires delivery.orderId == Some(deliveryId)
    modifies driver, delivery
    ensures old(driver.activeDeliveryId).Some? ==>
              o == Err(IllegalState(Drivers.CannotClaimWhileActive)) && unchanged(driver, delivery)
    ensures old(driver.activeDeliveryId).None? ==>
              var e := Deliveries.Performed(old(delivery.View()), Deliveries.Claim(driver.id));
              o == e.outcome && delivery.View() == e.state
              && driver.activeDeliveryId == (if o == Ok then Some(deliveryId) else None)
    ensures driver.address == old(driver.address)
    ensures o == Ok ==> Linked(driver, delivery)
  {
    o := driver.EnsureCanClaimDelivery();
    if o != Ok {
      return;
    }
    o := delivery.Claim(driver.id);
    if o != Ok {
      return;
    }
    var marked := driver.MarkAsAssigned(deliveryId);
    assert marked == Ok;
  }

  /** startDelivery: the driver's active delivery is started at `now` and
      the order's new status is published; without an active delivery the
      call is refused. `delivery` is the one stored under the driver's
      active delivery id. */
  method StartDelivery(driver: Drivers.Driver, delivery: Deliveries.Delivery, now: Time)
    returns (o: Outcome, event: Option<StatusChanged>)
    requires driver.activeDeliveryId.Some? ==> delivery.orderId == driver.activeDeliveryId
    modifies delivery
    ensures driver.activeDeliveryId.None? ==>
              o == Err(IllegalState(Drivers.NoActiveDelivery)) && event == None && unchanged(delivery)
    ensures driver.activeDeliveryId.Some? ==>
              var e := Deliveries.Performed(old(delivery.View()), Deliveries.Start(now));
              o == e.outcome && delivery.View() == e.state
    ensures event.Some? <==> o == Ok
    ensures o == Ok ==> event == Some(StatusChanged(delivery.orderId.value, Deliveries.PICKED_UP))
    ensures old(Linked(driver, delivery)) ==> Linked(driver, delivery)
  {
    event := None;
    o := driver.EnsureCanCompleteDelivery();
    if o != Ok {
      return;
    }
    o := delivery.Start(now);
    if o == Ok {
      event := Some(StatusChanged(delivery.orderId.value, delivery.orderStatus));
    }
  }

  /** cancelDelivery: the driver's active delivery is cancelled and, only
      if that succeeds, the driver is released. The delivery reopens but
      keeps the driver it had. */
  method CancelDelivery(driver: Drivers.Driver, delivery: Deliveries.Delivery) returns (o: Outcome)
    requires driver.activeDeliveryId.Some? ==> delivery.orderId == driver.activeDeliveryId
    modifies driver, delivery
    ensures old(driver.activeDeliveryId).None? ==>
              o == Err(IllegalState(Drivers.NoActiveDelivery)) && unchanged(driver, delivery)
    ensures old(driver.activeDeliveryId).Some? ==>
              var e := Deliveries.Performed(old(delivery.View()), Deliveries.Cancel);
              o == e.outcome && delivery.View() == e.state
              && driver.activeDeliveryId == (if o == Ok then None else old(driver.activeDeliveryId))
    ensures o == Ok ==> delivery.status == Deliveries.OPEN && delivery.assignedDriverId == old(delivery.assignedDriverId)
    ensures driver.address == old(driver.address)
  {
    o := driver.EnsureCanCompleteDelivery();
    if o != Ok {
      return;
    }
    o := delivery.Cancel();
    if o != Ok {
      return;
    }
    var released := driver.MarkDeliveryCancelled();
    assert released == Ok;
  }

  /** completeDelivery: the driver's active delivery needs a pickup time;
      the payout for the time from pickup to `now` is recorded on the
      delivery, the driver is released and the order's new status is
      published. Each check that fails stops the call with nothing
      changed. */
  method CompleteDelivery(driver: Drivers.Driver, delivery: Deliveries.Delivery,
                          calculator: Payouts.PayoutCalculator, now: Time)
    returns (r: Result<Money>, event: Option<StatusChanged>)
    requires driver.activeDeliveryId.Some? ==> delivery.orderId == driver.activeDeliveryId
    modifies driver, delivery
    ensures old(driver.activeDeliveryId).None? ==>
              r == Fail(IllegalState(Drivers.NoActiveDelivery)) && unchanged(driver, delivery)
    ensures old(driver.activeDeliveryId).Some? && old(delivery.pickupTime).None? ==>
              r == Fail(IllegalState(NoPickupTime)) && unchanged(driver, delivery)
    ensures old(driver.activeDeliveryId).Some? && old(delivery.pickupTime).Some? ==>
              var payout := Payouts.CalculateFor(calculator, old(delivery.pickupTime), Some(now));
              (payout.Fail? ==> r == payout && unchanged(driver, delivery))
              && (payout.Success? ==>
                    var e := Deliveries.Performed(old(delivery.View()), Deliveries.Complete(Some(payout.value), now));
                    delivery.View() == e.state
                    && (e.outcome == Ok ==> r == payout && driver.activeDeliveryId == None)
                    && (e.outcome != Ok ==> r == Fail(e.outcome.failure) && unchanged(driver)))
    ensures event.Some? <==> r.Success?
    ensures r.Success? ==> event == Some(StatusChanged(delivery.orderId.value, Deliveries.OrderStatus.DELIVERED))
                           && delivery.price == Some(r.value) && delivery.deliveryTime == Some(now)
    ensures driver.address == old(driver.address)
  {
    event := None;
    var o := driver.EnsureCanCompleteDelivery();
    if o != Ok {
      return Fail(o.failure), None;
    }
    if delivery.pickupTime.None? {
      return Fail(IllegalState(NoPickupTime)), None;
    }
    r := Payouts.CalculateFor(calculator, delivery.pickupTime, Some(now));
    if r.Fail? {
      return;
    }
    o := delivery.Complete(Some(r.value), now);
    if o != Ok {
      return Fail(o.failure), None;
    }
    var released := driver.CompleteDelivery();
    assert released == Ok;
    event := Some(StatusChanged(delivery.orderId.value, delivery.orderStatus));
  }

  /** The columns of a stored delivery that the completed-deliveries list
      reads. */
  datatype CompletedRow = CompletedRow(orderId: Uuid, pickupTime: Option<Time>, deliveryTime: Option<Time>, price: Option<Money>)

  datatype CompletedDeliveryItem = CompletedDeliveryItem(
    orderId: Uuid, pickupTime: Option<Time>, deliveryTime: Option<Time>, payout: Money, cumulativeTotal: Money)

  datatype CompletedDeliveriesResponse = CompletedDeliveriesResponse(
    driverId: Uuid, total: Money, currency: string, deliveries: seq<CompletedDeliveryItem>)

  /** A delivery's payout: its price, or zero when it has none, rounded up
      to the cent. */
  function Payout(row: CompletedRow): Money
  {
    CeilCents(if row.price.Some? then row.price.value else 0.0)
  }

  /** The sum of the payouts of the rows. */
  function Total(rows: seq<CompletedRow>): Money
  {
    if rows == [] then 0.0 else Total(rows[..|rows| - 1]) + Payout(rows[|rows| - 1])
  }

  /** A sum of payouts is a whole number of cents, so rounding the running
      total up to the cent never moves it. */
  lemma {:induction false} TotalIsCents(rows: seq<CompletedRow>)
    ensures IsCents(Total(rows))
  {
    if rows != [] {
      TotalIsCents(rows[..|rows| - 1]);
      CentsAdd(Total(rows[..|rows| - 1]), Payout(rows[|rows| - 1]));
    }
  }

  /** With non-negative prices the totals never decrease along the list,
      and no total is below any single payout it includes. */
  lemma {:induction false} TotalMonotone(rows: seq<CompletedRow>, i: nat, j: nat)
    requires i <= j <= |rows|
    requires forall k :: 0 <= k < |rows| && rows[k].price.Some? ==> rows[k].price.value >= 0.0
    ensures 0.0 <= Total(rows[..i]) <= Total(rows[..j])
    decreases j
  {
    if j > 0 {
      assert rows[..j][..j - 1] == rows[..j - 1];
      if i < j {
        TotalMonotone(rows, i, j - 1);
      } else {
        TotalMonotone(rows, i - 1, j - 1);
      }
    }
  }

  /** getCompletedDeliveriesForDriver, over the driver's delivered
      deliveries in order of delivery time: one item per delivery with its
      rounded payout and the running total so far, and the final total. */
  method CompletedDeliveriesForDriver(driverId: Uuid, rows: seq<CompletedRow>)
    returns (response: CompletedDeliveriesResponse)
    ensures response.driverId == driverId && response.currency == Currency
    ensures |response.deliveries| == |rows|
    ensures forall i :: 0 <= i < |rows| ==>
              response.deliveries[i] == CompletedDeliveryItem(rows[i].orderId, rows[i].pickupTime, rows[i].deliveryTime,
                                                              Payout(rows[i]), Total(rows[..i + 1]))
    ensures response.total == Total(rows)
    ensures rows == [] ==> response.total == 0.0
    ensures rows != [] ==> response.total == response.deliveries[|rows| - 1].cumulativeTotal
  {
    var items: seq<CompletedDeliveryItem> := [];
    var runningTotal: Money := 0.0;
    for i := 0 to |rows|
      invariant |items| == i
      invariant runningTotal == Total(rows[..i])
      invariant forall k :: 0 <= k < i ==>
                  items[k] == CompletedDeliveryItem(rows[k].orderId, rows[k].pickupTime, rows[k].deliveryTime,
                                                    Payout(rows[k]), Total(rows[..k + 1]))
    {
      var e := rows[i];
      var payout := if e.price.Some? then e.price.value else 0.0;
      payout := CeilCents(payout);
      TotalIsCents(rows[..i]);
      CentsAdd(runningTotal, payout);
      CeilCentsOfCents(runningTotal + payout);
      assert rows[..i + 1][..i] == rows[..i];
      runningTotal := CeilCents(runningTotal + payout);
      items := items + [CompletedDeliveryItem(e.orderId, e.pickupTime, e.deliveryTime, payout, runningTotal)];
    }
    assert rows[..|rows|] == rows;
    response := CompletedDeliveriesResponse(driverId, runningTotal, Currency, items);
  }
}
