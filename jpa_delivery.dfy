/** The stored form of a delivery: its columns, and two address entities
    it owns. */
module JpaDeliveries {
  import opened Common
  import opened Addresses
  import opened JpaAddresses
  import opened Deliveries

  /** The address an address entity holds, or null for no entity. */
  function AddressOf(e: JpaAddressEntity?): Option<Address>
    reads e
  {
    if e == null then None else Some(e.ToDomain())
  }

  class JpaDeliveryEntity {
    var orderId: Uuid
    var status: DeliveryStatus
    var orderStatus: OrderStatus
    var pickupAddress: JpaAddressEntity?
    var deliveryAddress: JpaAddressEntity?
    var pickupTime: Option<Time>
    var deliveryTime: Option<Time>
    var price: Option<Money>
    var assignedDriverId: Option<Uuid>

    /** The two address entities are separate rows. */
    predicate Valid()
      reads this
    {
      pickupAddress == null || pickupAddress != deliveryAddress
    }

    constructor (orderId: Uuid, status: DeliveryStatus, orderStatus: OrderStatus,
                 pickupAddress: JpaAddressEntity?, deliveryAddress: JpaAddressEntity?,
                 pickupTime: Option<Time>, deliveryTime: Option<Time>, price: Option<Money>,
                 assignedDriverId: Option<Uuid>)
      ensures this.orderId == orderId && this.status == status && this.orderStatus == orderStatus
      ensures this.pickupAddress == pickupAddress && this.deliveryAddress == deliveryAddress
      ensures this.pickupTime == pickupTime && this.deliveryTime == deliveryTime
      ensures this.price == price && this.assignedDriverId == assignedDriverId
    {
      this.orderId, this.status, this.orderStatus := orderId, status, orderStatus;
      this.pickupAddress, this.deliveryAddress := pickupAddress, deliveryAddress;
      this.pickupTime, this.deliveryTime := pickupTime, deliveryTime;
      this.price, this.assignedDriverId := price, assignedDriverId;
    }

    /** A null delivery maps to null. Otherwise every field is copied, each
      address into a new entity (`pickupId` and `deliveryId` stand for the
      ids they are given); a delivery without an order id is stored under
      the fresh id `newOrderId`. */
    static method FromDomain(delivery: Delivery?, newOrderId: Uuid, pickupId: Uuid, deliveryId: Uuid)
      returns (e: JpaDeliveryEntity?)
      ensures delivery == null <==> e == null
      ensures e != null ==>
                fresh(e) && e.Valid()
                && e.orderId == (if delivery.orderId.Some? then delivery.orderId.value else newOrderId)
                && e.status == delivery.status && e.orderStatus == delivery.orderStatus
                && e.pickupTime == delivery.pickupTime && e.deliveryTime == delivery.deliveryTime
                && e.price == delivery.price && e.assignedDriverId == delivery.assignedDriverId
                && (delivery.pickupAddress.None? <==> e.pickupAddress == null)
                && (e.pickupAddress != null ==> fresh(e.pickupAddress) && e.pickupAddress.Columns() == delivery.pickupAddress.value)
                && (delivery.deliveryAddress.None? <==> e.deliveryAddress == null)
                && (e.deliveryAddress != null ==> fresh(e.deliveryAddress) && e.deliveryAddress.Columns() == delivery.deliveryAddress.value)
    {
      if delivery == null {
        return null;
      }
      var id := if delivery.orderId.Some? then delivery.orderId.value else newOrderId;
      var pickup := JpaAddressEntity.FromDomain(delivery.pickupAddress, pickupId);
      var drop := JpaAddressEntity.FromDomain(delivery.deliveryAddress, deliveryId);
      e := new JpaDeliveryEntity(id, delivery.status, delivery.orderStatus, pickup, drop,
                                 delivery.pickupTime, delivery.deliveryTime, delivery.price, delivery.assignedDriverId);
    }

    /** Copies the domain delivery's state onto this entity, keeping the
      entity's own order id. An address the delivery has is written into
      the existing address entity in place, or into a new one when there
      is none; an address the delivery lacks leaves the entity's as it
      was. A null delivery changes nothing. */
    method UpdateFromDomain(delivery: Delivery?, pickupId: Uuid, deliveryId: Uuid)
      requires Valid()
      modifies this, pickupAddress, deliveryAddress
      ensures Valid()
      ensures delivery == null ==>
                unchanged(this)
                && (old(pickupAddress) != null ==> unchanged(old(pickupAddress)))
                && (old(deliveryAddress) != null ==> unchanged(old(deliveryAddress)))
      ensures delivery != null ==>
                orderId == old(orderId)
                && status == delivery.status && orderStatus == delivery.orderStatus
                && pickupTime == delivery.pickupTime && deliveryTime == delivery.deliveryTime
                && price == delivery.price && assignedDriverId == delivery.assignedDriverId
      ensures delivery != null && delivery.pickupAddress.None? ==>
                pickupAddress == old(pickupAddress) && (pickupAddress != null ==> unchanged(pickupAddress))
      ensures delivery != null && delivery.pickupAddress.Some? ==>
                pickupAddress != null && pickupAddress.Columns() == delivery.pickupAddress.value
                && (old(pickupAddress) != null ==> pickupAddress == old(pickupAddress))
                && (old(pickupAddress) == null ==> fresh(pickupAddress))
      ensures delivery != null && delivery.deliveryAddress.None? ==>
                deliveryAddress == old(deliveryAddress) && (deliveryAddress != null ==> unchanged(deliveryAddress))
      ensures delivery != null && delivery.deliveryAddress.Some? ==>
                deliveryAddress != null && deliveryAddress.Columns() == delivery.deliveryAddress.value
                && (old(deliveryAddress) != null ==> deliveryAddress == old(deliveryAddress))
                && (old(deliveryAddress) == null ==> fresh(deliveryAddress))
    {
      if delivery == null {
        return;
      }
      status, orderStatus := delivery.status, delivery.orderStatus;
      pickupTime, deliveryTime := delivery.pickupTime, delivery.deliveryTime;
      price := delivery.price;
      assignedDriverId := delivery.assignedDriverId;
      if delivery.pickupAddress.Some? {
        if pickupAddress == null {
          pickupAddress := JpaAddressEntity.FromDomain(delivery.pickupAddress, pickupId);
        } else {
          var _ := pickupAddress.UpdateFromDomain(delivery.pickupAddress);
        }
      }
      if delivery.deliveryAddress.Some? {
        if deliveryAddress == null {
          deliveryAddress := JpaAddressEntity.FromDomain(delivery.deliveryAddress, deliveryId);
        } else {
          var _ := deliveryAddress.UpdateFromDomain(delivery.deliveryAddress);
        }
      }
    }

    /** The domain delivery these columns describe; each address is
      rebuilt through the record's constructor and a missing one is
      null. */
    function ToDomain(): (d: DeliveryData)
      reads this, pickupAddress, deliveryAddress
      ensures d.orderId == Some(orderId)
      ensures d.pickupAddress.None? <==> pickupAddress == null
      ensures d.deliveryAddress.None? <==> deliveryAddress == null
      ensures d.driver.None? <==> assignedDriverId.None?
      ensures d.pickupAddress.Some? ==> Normalised(d.pickupAddress.value)
      ensures d.deliveryAddress.Some? ==> Normalised(d.deliveryAddress.value)
    {
      DeliveryData(Some(orderId), status, orderStatus, AddressOf(pickupAddress), AddressOf(deliveryAddress),
                   pickupTime, deliveryTime, assignedDriverId, price)
    }
  }

  /** A delivery whose addresses were built by the record's constructor. */
  predicate NormalisedAddresses(d: DeliveryData)
  {
    (d.pickupAddress.Some? ==> Normalised(d.pickupAddress.value))
    && (d.deliveryAddress.Some? ==> Normalised(d.deliveryAddress.value))
  }

  /** Storing a delivery that has an order id and reading it back gives
      the same delivery. */
  method RoundTrip(delivery: Delivery, newOrderId: Uuid, pickupId: Uuid, deliveryId: Uuid)
    returns (e: JpaDeliveryEntity)
    requires delivery.orderId.Some? && NormalisedAddresses(delivery.View())
    ensures e.ToDomain() == delivery.View()
  {
    e := JpaDeliveryEntity.FromDomain(delivery, newOrderId, pickupId, deliveryId);
  }

  /** Updating a stored delivery from a domain delivery with both
      addresses and reading it back gives that delivery, under the
      entity's own order id. */
  method UpdateThenRead(e: JpaDeliveryEntity, delivery: Delivery, pickupId: Uuid, deliveryId: Uuid)
    requires e.Valid()
    requires delivery.pickupAddress.Some? && delivery.deliveryAddress.Some? && NormalisedAddresses(delivery.View())
    modifies e, e.pickupAddress, e.deliveryAddress
    ensures e.ToDomain() == delivery.View().(orderId := Some(old(e.orderId)))
  {
    e.UpdateFromDomain(delivery, pickupId, deliveryId);
  }
}
