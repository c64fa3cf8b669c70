/** A delivery driver: at most one active delivery at a time, assigned on
    claim and released on completion or cancellation. */
module Drivers {
  import opened Common
  import opened Addresses

  type DriverId = Uuid
  type OrderId = Uuid

  const AlreadyActive := "Driver already has an active delivery."
  const NothingToComplete := "No active delivery to complete."
  const NothingToCancel := "No active delivery to cancel."
  const NoActiveDelivery := "Driver doesn't have an active delivery"
  const CannotClaimWhileActive := "Driver already has an active delivery"

  /** The active delivery slot after markAsAssigned: filled when it was
      empty. */
  function Assigned(slot: Option<OrderId>, deliveryId: OrderId): Result<Option<OrderId>>
  {
    if slot.Some? then Fail(IllegalState(AlreadyActive)) else Success(Some(deliveryId))
  }

  /** The slot after completeDelivery or markDeliveryCancelled: emptied when
      it was filled, else the exception with `message`. */
  function Released(slot: Option<OrderId>, message: string): Result<Option<OrderId>>
  {
    if slot.None? then Fail(IllegalState(message)) else Success(None)
  }

  /** ensureCanCompleteDelivery. */
  function CanComplete(slot: Option<OrderId>): Outcome
  {
    if slot.None? then Err(IllegalState(NoActiveDelivery)) else Ok
  }

  /** ensureCanClaimDelivery. */
  function CanClaim(slot: Option<OrderId>): Outcome
  {
    if slot.Some? then Err(IllegalState(CannotClaimWhileActive)) else Ok
  }

  /** The two guards throw in exactly opposite cases, and each agrees with
      the operation it protects: a driver may claim exactly when assigning
      would succeed, and may complete exactly when releasing would. */
  lemma GuardsOpposite(slot: Option<OrderId>, deliveryId: OrderId, message: string)
    ensures CanComplete(slot) == Ok <==> CanClaim(slot) != Ok
    ensures CanClaim(slot) == Ok <==> Assigned(slot, deliveryId).Success?
    ensures CanComplete(slot) == Ok <==> Released(slot, message).Success?
  {
  }

  /** Assigning then releasing returns a free driver to free; assigning
      twice fails on the second attempt whatever the first id was. */
  lemma AssignReleaseRoundTrip(deliveryId: OrderId, other: OrderId, message: string)
    ensures Assigned(None, deliveryId) == Success(Some(deliveryId))
    ensures Released(Assigned(None, deliveryId).value, message) == Success(None)
    ensures Assigned(Assigned(None, deliveryId).value, other) == Fail(IllegalState(AlreadyActive))
  {
  }

  class Driver {
    const id: DriverId
    const name: Option<string>
    const email: Option<string>
    const phoneNumber: Option<string>
    const accountNumber: Option<string>
    var activeDeliveryId: Option<OrderId>
    var address: Option<Address>

    /** The full constructor; the short one is this with no address and
      no active delivery. */
    constructor (id: DriverId, name: Option<string>, email: Option<string>, phoneNumber: Option<string>,
                 accountNumber: Option<string>, address: Option<Address>, activeDeliveryId: Option<OrderId>)
      ensures this.id == id && this.name == name && this.email == email
      ensures this.phoneNumber == phoneNumber && this.accountNumber == accountNumber
      ensures this.address == address && this.activeDeliveryId == activeDeliveryId
    {
      this.id, this.name, this.email := id, name, email;
      this.phoneNumber, this.accountNumber := phoneNumber, accountNumber;
      this.address, this.activeDeliveryId := address, activeDeliveryId;
    }

    /** Busy exactly when the driver may complete and may not claim. */
    function HasActiveDelivery(): (r: bool)
      reads this
      ensures r <==> CanComplete(activeDeliveryId) == Ok
      ensures r <==> CanClaim(activeDeliveryId) != Ok
    {
      activeDeliveryId.Some?
    }

    /** Takes on a delivery; refused, with nothing changed, while another is
      active. */
    method MarkAsAssigned(deliveryId: OrderId) returns (o: Outcome)
      modifies this
      ensures o == Ok <==> !old(HasActiveDelivery())
      ensures o != Ok ==> o == Err(IllegalState(AlreadyActive)) && activeDeliveryId == old(activeDeliveryId)
      ensures o == Ok ==> activeDeliveryId == Some(deliveryId)
      ensures address == old(address)
    {
      var r := Assigned(activeDeliveryId, deliveryId);
      if r.Fail? {
        return Err(r.failure);
      }
      activeDeliveryId := r.value;
      o := Ok;
    }

    /** Releases the active delivery after it was delivered. */
    method CompleteDelivery() returns (o: Outcome)
      modifies this
      ensures o == Ok <==> old(HasActiveDelivery())
      ensures o != Ok ==> o == Err(IllegalState(NothingToComplete))
      ensures activeDeliveryId == None && address == old(address)
    {
      var r := Released(activeDeliveryId, NothingToComplete);
      if r.Fail? {
        return Err(r.failure);
      }
      activeDeliveryId := r.value;
      o := Ok;
    }

    /** Releases the active delivery after it was cancelled. */
    method MarkDeliveryCancelled() returns (o: Outcome)
      modifies this
      ensures o == Ok <==> old(HasActiveDelivery())
      ensures o != Ok ==> o == Err(IllegalState(NothingToCancel))
      ensures activeDeliveryId == None && address == old(address)
    {
      var r := Released(activeDeliveryId, NothingToCancel);
      if r.Fail? {
        return Err(r.failure);
      }
      activeDeliveryId := r.value;
      o := Ok;
    }

    /** Throws unless a delivery is active. */
    method EnsureCanCompleteDelivery() returns (o: Outcome)
      ensures o == Ok <==> activeDeliveryId.Some?
      ensures o != Ok ==> o == Err(IllegalState(NoActiveDelivery))
    {
      o := CanComplete(activeDeliveryId);
    }

    /** Throws while a delivery is active. */
    method EnsureCanClaimDelivery() returns (o: Outcome)
      ensures o == Ok <==> activeDeliveryId.None?
      ensures o != Ok ==> o == Err(IllegalState(CannotClaimWhileActive))
    {
      o := CanClaim(activeDeliveryId);
    }
  }
}
