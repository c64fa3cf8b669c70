/** The delivery service's persistent form of an address, and its mapping
    to and from the Address value object. */
module JpaAddresses {
  import opened Common
  import opened Addresses

  const AddressRequired := "Address is required"

  class JpaAddressEntity {
    const id: Uuid
    var street: Option<string>
    var houseNumber: Option<string>
    var busNumber: Option<string>
    var postalCode: Option<string>
    var city: Option<string>
    var country: Option<string>

    /** The six stored columns, as an address record. */
    function Columns(): Address
      reads this
    {
      Address(street, houseNumber, busNumber, postalCode, city, country)
    }

    constructor (id: Uuid, street: Option<string>, houseNumber: Option<string>, busNumber: Option<string>,
                 postalCode: Option<string>, city: Option<string>, country: Option<string>)
      ensures this.id == id
      ensures Columns() == Address(street, houseNumber, busNumber, postalCode, city, country)
    {
      this.id := id;
      this.street, this.houseNumber, this.busNumber := street, houseNumber, busNumber;
      this.postalCode, this.city, this.country := postalCode, city, country;
    }

    /** A new entity under the fresh id `newId` holding the six components,
      or null for a null address. */
    static method FromDomain(address: Option<Address>, newId: Uuid) returns (e: JpaAddressEntity?)
      ensures address.None? <==> e == null
      ensures e != null ==> fresh(e) && e.id == newId && e.Columns() == address.value
    {
      if address.None? {
        return null;
      }
      var a := address.value;
      e := new JpaAddressEntity(newId, a.street, a.houseNumber, a.busNumber, a.postalCode, a.city, a.country);
    }

    /** Overwrites the six columns; the id stays. */
    method UpdateAddress(street: Option<string>, houseNumber: Option<string>, busNumber: Option<string>,
                         postalCode: Option<string>, city: Option<string>, country: Option<string>)
      modifies this
      ensures Columns() == Address(street, houseNumber, busNumber, postalCode, city, country)
    {
      this.street, this.houseNumber, this.busNumber := street, houseNumber, busNumber;
      this.postalCode, this.city, this.country := postalCode, city, country;
    }

    /** The address these columns hold, built through the record's
      constructor. */
    function ToDomain(): (a: Address)
      reads this
      ensures Normalised(a)
      ensures Normalised(Columns()) ==> a == Columns()
    {
      NewAddressNormalises(street, houseNumber, busNumber, postalCode, city, country);
      if Normalised(Columns()) then RebuildNormalised(Columns()); Rebuild(Columns())
      else Rebuild(Columns())
    }

    /** Overwrites the six columns from a non-null address; a null one throws
      and changes nothing. */
    method UpdateFromDomain(address: Option<Address>) returns (o: Outcome)
      modifies this
      ensures address.None? ==> o == Err(NullPointer(AddressRequired)) && Columns() == old(Columns())
      ensures address.Some? ==> o == Ok && Columns() == address.value
    {
      if address.None? {
        return Err(NullPointer(AddressRequired));
      }
      var a := address.value;
      UpdateAddress(a.street, a.houseNumber, a.busNumber, a.postalCode, a.city, a.country);
      o := Ok;
    }
  }

  /** Storing an address built by the record's constructor and reading it
      back gives the same six components. */
  lemma RoundTripOfBuilt(e: JpaAddressEntity, street: Option<string>, houseNumber: Option<string>,
                         busNumber: Option<string>, postalCode: Option<string>, city: Option<string>,
                         country: Option<string>)
    requires e.Columns() == NewAddress(street, houseNumber, busNumber, postalCode, city, country)
    ensures e.ToDomain() == NewAddress(street, houseNumber, busNumber, postalCode, city, country)
  {
    NewAddressNormalises(street, houseNumber, busNumber, postalCode, city, country);
  }
}
