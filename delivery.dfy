/** A delivery of one order: its own status, the order's status as the
    delivery service sees it, the driver, the pickup and delivery times and
    the price paid to the driver. */
module Deliveries {
  import opened Common
  import opened Addresses

  type OrderId = Uuid
  type DriverId = Uuid

  datatype DeliveryStatus = OPEN | CLAIMED | IN_PROGRESS | DELIVERED
  datatype OrderStatus = PLACED | ACCEPTED | READY | PICKED_UP | DELIVERED

  const OnlyOpenClaimed := "Only open and accepted deliveries can be claimed."
  const StartNeedsClaimedReady := "Cannot start unless in claimed and ready"
  const CompleteNeedsInProgress := "Cannot complete unless in progress."
  const PayoutRequired := "betaling mag niet null zijn"
  const AlreadyMade := "Cannot cancel a delivery that is already made"
  const ReadyNeedsAccepted := "A delivery can't be ready unless it's accepted"

  /** Every field of a delivery; Java lets the order id be null. */
  datatype DeliveryData = DeliveryData(
    orderId: Option<OrderId>, status: DeliveryStatus, orderStatus: OrderStatus,
    pickupAddress: Option<Address>, deliveryAddress: Option<Address>,
    pickupTime: Option<Time>, deliveryTime: Option<Time>,
    driver: Option<DriverId>, price: Option<Money>)

  /** createNew: open, the order accepted, nothing else set. */
  function CreateNew(orderId: Option<OrderId>, pickup: Option<Address>, delivery: Option<Address>): DeliveryData
  {
    DeliveryData(orderId, OPEN, ACCEPTED, pickup, delivery, None, None, None, None)
  }

  /** The operations that change a delivery; `now` stands for the clock
      read by start and complete. */
  datatype Step =
    | Claim(driverId: DriverId)
    | Start(now: Time)
    | Complete(payout: Option<Money>, now: Time)
    | Cancel
    | MarkAsReady

  /** The delivery after one step, or the exception the step throws. */
  function Apply(d: DeliveryData, s: Step): Result<DeliveryData>
  {
    match s
    case Claim(driverId) =>
      if d.status != OPEN || (d.orderStatus != READY && d.orderStatus != ACCEPTED) then
        Fail(IllegalState(OnlyOpenClaimed))
      else Success(d.(driver := Some(driverId), status := CLAIMED))
    case Start(now) =>
      if d.status != CLAIMED || d.orderStatus != READY then Fail(IllegalState(StartNeedsClaimedReady))
      else Success(d.(status := IN_PROGRESS, orderStatus := PICKED_UP, pickupTime := Some(now)))
    case Complete(payout, now) =>
      if d.status != IN_PROGRESS || d.orderStatus != PICKED_UP then Fail(IllegalState(CompleteNeedsInProgress))
      else if payout.None? then Fail(IllegalArgument(PayoutRequired))
      else Success(d.(status := DeliveryStatus.DELIVERED, orderStatus := OrderStatus.DELIVERED,
                      deliveryTime := Some(now), price := payout))
    case Cancel =>
      if d.orderStatus == READY then Fail(IllegalState(AlreadyMade))
      else Success(d.(status := OPEN))
    case MarkAsReady =>
      if d.orderStatus != ACCEPTED then Fail(IllegalState(ReadyNeedsAccepted))
      else Success(d.(orderStatus := READY))
  }

  /** The delivery after a sequence of steps, stopping at the first that
      throws. */
  function Run(d: DeliveryData, steps: seq<Step>): Result<DeliveryData>
    decreases |steps|
  {
    if steps == [] then Success(d)
    else match Apply(d, steps[0])
      case Fail(f) => Fail(f)
      case Success(next) => Run(next, steps[1..])
  }

  /** The path every successful delivery takes: claimed while the order is
      accepted, the order made ready, picked up, delivered. It ends
      delivered on both sides, with the driver, both times and the payout
      recorded. */
  lemma HappyPath(orderId: Option<OrderId>, pickup: Option<Address>, delivery: Option<Address>,
                  driverId: DriverId, payout: Money, t1: Time, t2: Time)
    ensures Run(CreateNew(orderId, pickup, delivery), [Claim(driverId), MarkAsReady, Start(t1), Complete(Some(payout), t2)])
            == Success(DeliveryData(orderId, DeliveryStatus.DELIVERED, OrderStatus.DELIVERED, pickup, delivery,
                                    Some(t1), Some(t2), Some(driverId), Some(payout)))
    ensures Run(CreateNew(orderId, pickup, delivery), [MarkAsReady, Claim(driverId), Start(t1), Complete(Some(payout), t2)])
            == Run(CreateNew(orderId, pickup, delivery), [Claim(driverId), MarkAsReady, Start(t1), Complete(Some(payout), t2)])
  {
    var d0 := CreateNew(orderId, pickup, delivery);
    var claimed := Apply(d0, Claim(driverId)).value;
    var ready := Apply(d0, MarkAsReady).value;
    var both := Apply(claimed, MarkAsReady).value;
    assert Apply(ready, Claim(driverId)).value == both;
    var started := Apply(both, Start(t1)).value;
    RunStep(started, Complete(Some(payout), t2), []);
    RunStep(both, Start(t1), [Complete(Some(payout), t2)]);
    RunStep(claimed, MarkAsReady, [Start(t1), Complete(Some(payout), t2)]);
    RunStep(ready, Claim(driverId), [Start(t1), Complete(Some(payout), t2)]);
    RunStep(d0, Claim(driverId), [MarkAsReady, Start(t1), Complete(Some(payout), t2)]);
    RunStep(d0, MarkAsReady, [Claim(driverId), Start(t1), Complete(Some(payout), t2)]);
  }

  /** A run of one more step: the step, then the rest. */
  lemma RunStep(d: DeliveryData, s: Step, rest: seq<Step>)
    ensures Apply(d, s).Fail? ==> Run(d, [s] + rest) == Fail(Apply(d, s).failure)
    ensures Apply(d, s).Success? ==> Run(d, [s] + rest) == Run(Apply(d, s).value, rest)
  {
    assert ([s] + rest)[1..] == rest;
  }

  /** A delivery cannot be started before the order is ready, nor claimed
      twice, nor completed without being started. */
  lemma OutOfOrderRefused(orderId: Option<OrderId>, pickup: Option<Address>, delivery: Option<Address>,
                          driverId: DriverId, other: DriverId, payout: Money, t: Time)
    ensures Run(CreateNew(orderId, pickup, delivery), [Claim(driverId), Start(t)]) == Fail(IllegalState(StartNeedsClaimedReady))
    ensures Run(CreateNew(orderId, pickup, delivery), [Claim(driverId), Claim(other)]) == Fail(IllegalState(OnlyOpenClaimed))
    ensures Run(CreateNew(orderId, pickup, delivery), [Claim(driverId), MarkAsReady, Complete(Some(payout), t)])
            == Fail(IllegalState(CompleteNeedsInProgress))
  {
    var d := CreateNew(orderId, pickup, delivery);
    var c := Apply(d, Claim(driverId)).value;
    var r := Apply(c, MarkAsReady).value;
    RunStep(c, Start(t), []);
    RunStep(d, Claim(driverId), [Start(t)]);
    RunStep(c, Claim(other), []);
    RunStep(d, Claim(driverId), [Claim(other)]);
    RunStep(r, Complete(Some(payout), t), []);
    RunStep(c, MarkAsReady, [Complete(Some(payout), t)]);
    RunStep(d, Claim(driverId), [MarkAsReady, Complete(Some(payout), t)]);
  }

  /** What holds of every delivery built by createNew and the steps: a
      claimed or later delivery has a driver; one in progress has its
      order picked up and a pickup time; a delivered one has both times
      and a price; a claimed one waits on an accepted or ready order; and
      once the order is picked up there is a pickup time. */
  predicate Consistent(d: DeliveryData)
  {
    (d.status != OPEN ==> d.driver.Some?)
    && (d.status == CLAIMED ==> d.orderStatus == ACCEPTED || d.orderStatus == READY)
    && (d.status == IN_PROGRESS ==> d.orderStatus == PICKED_UP)
    && (d.status == DeliveryStatus.DELIVERED ==>
          d.orderStatus == OrderStatus.DELIVERED && d.deliveryTime.Some? && d.price.Some?)
    && (d.orderStatus == PICKED_UP || d.orderStatus == OrderStatus.DELIVERED ==> d.pickupTime.Some?)
  }

  lemma CreateNewConsistent(orderId: Option<OrderId>, pickup: Option<Address>, delivery: Option<Address>)
    ensures Consistent(CreateNew(orderId, pickup, delivery))
  {
  }

  /** Every step keeps a delivery consistent. */
  lemma StepKeepsConsistent(d: DeliveryData, s: Step)
    requires Consistent(d) && Apply(d, s).Success?
    ensures Consistent(Apply(d, s).value)
  {
  }

  /** Any run from a consistent delivery ends consistent. */
  lemma {:induction false} RunKeepsConsistent(d: DeliveryData, steps: seq<Step>)
    requires Consistent(d) && Run(d, steps).Success?
    ensures Consistent(Run(d, steps).value)
    decreases |steps|
  {
    if steps != [] {
      StepKeepsConsistent(d, steps[0]);
      RunKeepsConsistent(Apply(d, steps[0]).value, steps[1..]);
    }
  }

  /** A consistent delivery that complete accepts already has a pickup
      time, so the driver service's "no pickup time" check cannot fire for
      one built from createNew. */
  lemma CompletableHasPickupTime(d: DeliveryData, payout: Option<Money>, now: Time)
    requires Consistent(d) && d.status == IN_PROGRESS && d.orderStatus == PICKED_UP
    ensures d.pickupTime.Some?
    ensures payout.Some? <==> Apply(d, Complete(payout, now)).Success?
  {
  }

  /** No step changes the order id or the addresses; only claim sets the
      driver, only start the pickup time, only complete the delivery time
      and the price. */
  lemma StepFrame(d: DeliveryData, s: Step)
    requires Apply(d, s).Success?
    ensures var n := Apply(d, s).value;
      n.orderId == d.orderId && n.pickupAddress == d.pickupAddress && n.deliveryAddress == d.deliveryAddress
      && (n.driver != d.driver ==> s.Claim?)
      && (n.pickupTime != d.pickupTime ==> s.Start?)
      && (n.deliveryTime != d.deliveryTime || n.price != d.price ==> s.Complete?)
  {
  }

  /** Cancelling reopens the delivery and keeps its driver, its order
      status and everything else; it is refused only once the order is
      ready. */
  lemma CancelKeepsDriver(d: DeliveryData)
    ensures Apply(d, Cancel).Success? <==> d.orderStatus != READY
    ensures Apply(d, Cancel).Success? ==> Apply(d, Cancel).value == d.(status := OPEN)
    ensures Apply(d, Cancel).Success? ==> Apply(d, Cancel).value.driver == d.driver
  {
  }

  /** A delivery cancelled after pickup is open with its order picked up:
      claim, start, complete and markAsReady all refuse it from then on. */
  lemma CancelledAfterPickupIsStuck(d: DeliveryData, driverId: DriverId, payout: Option<Money>, now: Time)
    requires d.status == IN_PROGRESS && d.orderStatus == PICKED_UP
    ensures Apply(d, Cancel).Success?
    ensures var c := Apply(d, Cancel).value;
      Apply(c, Claim(driverId)).Fail? && Apply(c, Start(now)).Fail?
      && Apply(c, Complete(payout, now)).Fail? && Apply(c, MarkAsReady).Fail?
  {
  }

  /** The outcome of a step and the state it leaves: the new state, or the
      old one untouched when the step throws. */
  datatype Effect = Effect(outcome: Outcome, state: DeliveryData)

  function Performed(d: DeliveryData, s: Step): Effect
  {
    match Apply(d, s)
    case Success(n) => Effect(Ok, n)
    case Fail(f) => Effect(Err(f), d)
  }

  class Delivery {
    const orderId: Option<OrderId>
    var status: DeliveryStatus
    var orderStatus: OrderStatus
    const pickupAddress: Option<Address>
    const deliveryAddress: Option<Address>
    var pickupTime: Option<Time>
    var deliveryTime: Option<Time>
    var assignedDriverId: Option<DriverId>
    var price: Option<Money>

    function View(): DeliveryData
      reads this
    {
      DeliveryData(orderId, status, orderStatus, pickupAddress, deliveryAddress,
                   pickupTime, deliveryTime, assignedDriverId, price)
    }

    /** reconstruct: every field as given. */
    constructor Reconstruct(d: DeliveryData)
      ensures View() == d
    {
      orderId, status, orderStatus := d.orderId, d.status, d.orderStatus;
      pickupAddress, deliveryAddress := d.pickupAddress, d.deliveryAddress;
      pickupTime, deliveryTime := d.pickupTime, d.deliveryTime;
      assignedDriverId, price := d.driver, d.price;
    }

    static method CreateNewDelivery(orderId: Option<OrderId>, pickup: Option<Address>, delivery: Option<Address>)
      returns (d: Delivery)
      ensures fresh(d) && d.View() == CreateNew(orderId, pickup, delivery)
    {
      d := new Delivery.Reconstruct(CreateNew(orderId, pickup, delivery));
    }

    /** Applies a step to the fields; a step that throws changes nothing. */
    method Perform(s: Step) returns (o: Outcome)
      modifies this
      ensures Effect(o, View()) == Performed(old(View()), s)
    {
      var r := Apply(View(), s);
      if r.Fail? {
        return Err(r.failure);
      }
      var n := r.value;
      status, orderStatus := n.status, n.orderStatus;
      pickupTime, deliveryTime := n.pickupTime, n.deliveryTime;
      assignedDriverId, price := n.driver, n.price;
      o := Ok;
    }

    method Claim(driverId: DriverId) returns (o: Outcome)
      modifies this
      ensures Effect(o, View()) == Performed(old(View()), Step.Claim(driverId))
    {
      o := Perform(Step.Claim(driverId));
    }

    method Start(now: Time) returns (o: Outcome)
      modifies this
      ensures Effect(o, View()) == Performed(old(View()), Step.Start(now))
    {
      o := Perform(Step.Start(now));
    }

    method Complete(payout: Option<Money>, now: Time) returns (o: Outcome)
      modifies this
      ensures Effect(o, View()) == Performed(old(View()), Step.Complete(payout, now))
    {
      o := Perform(Step.Complete(payout, now));
    }

    method Cancel() returns (o: Outcome)
      modifies this
      ensures Effect(o, View()) == Performed(old(View()), Step.Cancel)
    {
      o := Perform(Step.Cancel);
    }

    method MarkAsReady() returns (o: Outcome)
      modifies this
      ensures Effect(o, View()) == Performed(old(View()), Step.MarkAsReady)
    {
      o := Perform(Step.MarkAsReady);
    }
  }
}
