/** The restaurant's copy of a placed order and the decision it takes on
    it: accept or reject, then ready, picked up and delivered. */
module RestaurantOrders {
  import opened Common
  import opened Addresses

  datatype OrderStatus = PLACED | ACCEPTED | CANCELLED | READY | PICKED_UP | DELIVERED

  /** The enum constant's name, as Java prints it. */
  function Name(s: OrderStatus): string
  {
    match s
    case PLACED => "PLACED"
    case ACCEPTED => "ACCEPTED"
    case CANCELLED => "CANCELLED"
    case READY => "READY"
    case PICKED_UP => "PICKED_UP"
    case DELIVERED => "DELIVERED"
  }

  /** The guard every transition runs first: the status must be the
      expected one, or the transition throws naming both. */
  function EnsureStatus(actual: OrderStatus, expected: OrderStatus): (o: Outcome)
    ensures o == Ok <==> actual == expected
  {
    if actual != expected then
      Err(IllegalState("Invalid status transition: expected " + Name(expected) + " but was " + Name(actual)))
    else Ok
  }

  /** The transitions, one per state-changing method. */
  datatype Step = Accept | Reject | MarkReady | MarkPickedUp | MarkDelivered

  /** The status a step demands. */
  function Expected(e: Step): OrderStatus
  {
    match e
    case Accept => PLACED
    case Reject => PLACED
    case MarkReady => ACCEPTED
    case MarkPickedUp => READY
    case MarkDelivered => PICKED_UP
  }

  /** The status a step leads to. */
  function Target(e: Step): OrderStatus
  {
    match e
    case Accept => ACCEPTED
    case Reject => CANCELLED
    case MarkReady => READY
    case MarkPickedUp => PICKED_UP
    case MarkDelivered => DELIVERED
  }

  /** The status after a run of steps, or None when one of them throws. */
  function Run(s: OrderStatus, es: seq<Step>): Option<OrderStatus>
    decreases es
  {
    if es == [] then Some(s)
    else if s != Expected(es[0]) then None
    else Run(Target(es[0]), es[1..])
  }

  /** How far along its life an order is; a rejected order is as far as it
      will ever get. */
  function Rank(s: OrderStatus): nat
  {
    match s
    case PLACED => 0
    case ACCEPTED => 1
    case CANCELLED => 1
    case READY => 2
    case PICKED_UP => 3
    case DELIVERED => 4
  }

  /** Every step that succeeds moves the order exactly one stage on, so an
      order takes at most four steps and never comes back to a status it
      left. */
  lemma {:induction false} RunAdvances(s: OrderStatus, es: seq<Step>)
    requires Run(s, es).Some?
    ensures Rank(Run(s, es).value) == Rank(s) + |es|
    decreases es
  {
    if es != [] {
      RunAdvances(Target(es[0]), es[1..]);
    }
  }

  /** A cancelled or delivered order accepts no further step. */
  lemma Terminal(s: OrderStatus, e: Step)
    requires s == CANCELLED || s == DELIVERED
    ensures Run(s, [e]).None?
  {
  }

  /** The decision is taken once: from PLACED, the first step decides
      between an order that can go on to delivery and one that stays
      cancelled. */
  lemma {:induction false} DecisionDecides(es: seq<Step>)
    requires es != [] && Run(PLACED, es).Some?
    ensures es[0] == Reject <==> Run(PLACED, es) == Some(CANCELLED)
    ensures es[0] == Reject ==> |es| == 1
  {
    RunAdvances(Target(es[0]), es[1..]);
  }

  class RestaurantOrder {
    const orderId: Uuid
    const restaurantId: Uuid
    const customerName: Option<string>
    const customerEmail: Option<string>
    const deliveryAddress: Option<Address>
    const createdAt: Time
    var status: OrderStatus
    var decisionReason: Option<string>

    /** Rebuilds an order from stored fields. */
    constructor Reconstruct(orderId: Uuid, restaurantId: Uuid, customerName: Option<string>,
                            customerEmail: Option<string>, deliveryAddress: Option<Address>,
                            status: OrderStatus, decisionReason: Option<string>, createdAt: Time)
      ensures this.orderId == orderId && this.restaurantId == restaurantId
      ensures this.customerName == customerName && this.customerEmail == customerEmail
      ensures this.deliveryAddress == deliveryAddress && this.createdAt == createdAt
      ensures this.status == status && this.decisionReason == decisionReason
    {
      this.orderId, this.restaurantId := orderId, restaurantId;
      this.customerName, this.customerEmail, this.deliveryAddress := customerName, customerEmail, deliveryAddress;
      this.status, this.decisionReason, this.createdAt := status, decisionReason, createdAt;
    }

    /** A new order, placed now and undecided; `newId` is the generated id. */
    constructor Create(newId: Uuid, restaurantId: Uuid, customerName: Option<string>,
                       customerEmail: Option<string>, deliveryAddress: Option<Address>, now: Time)
      ensures orderId == newId && this.restaurantId == restaurantId
      ensures this.customerName == customerName && this.customerEmail == customerEmail
      ensures this.deliveryAddress == deliveryAddress && createdAt == now
      ensures status == PLACED && decisionReason == None
    {
      this.orderId, this.restaurantId := newId, restaurantId;
      this.customerName, this.customerEmail, this.deliveryAddress := customerName, customerEmail, deliveryAddress;
      this.status, this.decisionReason, this.createdAt := PLACED, None, now;
    }

    /** Accepts a placed order and records why. */
    method Accept(reason: Option<string>) returns (o: Outcome)
      modifies this
      ensures o == EnsureStatus(old(status), Expected(Step.Accept))
      ensures o == Ok ==> Run(old(status), [Step.Accept]) == Some(status) && decisionReason == reason
      ensures o.Err? ==> status == old(status) && decisionReason == old(decisionReason)
    {
      o := EnsureStatus(status, PLACED);
      if o.Err? {
        return;
      }
      status := ACCEPTED;
      decisionReason := reason;
    }

    /** Rejects a placed order, which becomes cancelled, and records why. */
    method Reject(reason: Option<string>) returns (o: Outcome)
      modifies this
      ensures o == EnsureStatus(old(status), Expected(Step.Reject))
      ensures o == Ok ==> Run(old(status), [Step.Reject]) == Some(status) && decisionReason == reason
      ensures o.Err? ==> status == old(status) && decisionReason == old(decisionReason)
    {
      o := EnsureStatus(status, PLACED);
      if o.Err? {
        return;
      }
      status := CANCELLED;
      decisionReason := reason;
    }

    method MarkReady() returns (o: Outcome)
      modifies this
      ensures o == EnsureStatus(old(status), Expected(Step.MarkReady))
      ensures o == Ok ==> Run(old(status), [Step.MarkReady]) == Some(status)
      ensures o.Err? ==> status == old(status)
      ensures decisionReason == old(decisionReason)
    {
      o := EnsureStatus(status, ACCEPTED);
      if o.Err? {
        return;
      }
      status := READY;
    }

    method MarkPickedUp() returns (o: Outcome)
      modifies this
      ensures o == EnsureStatus(old(status), Expected(Step.MarkPickedUp))
      ensures o == Ok ==> Run(old(status), [Step.MarkPickedUp]) == Some(status)
      ensures o.Err? ==> status == old(status)
      ensures decisionReason == old(decisionReason)
    {
      o := EnsureStatus(status, READY);
      if o.Err? {
        return;
      }
      status := PICKED_UP;
    }

    method MarkDelivered() returns (o: Outcome)
      modifies this
      ensures o == EnsureStatus(old(status), Expected(Step.MarkDelivered))
      ensures o == Ok ==> Run(old(status), [Step.MarkDelivered]) == Some(status)
      ensures o.Err? ==> status == old(status)
      ensures decisionReason == old(decisionReason)
    {
      o := EnsureStatus(status, PICKED_UP);
      if o.Err? {
        return;
      }
      status := DELIVERED;
    }
  }
}
