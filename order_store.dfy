/** The web client's order store: the order being built or tracked, its id
    kept in the browser's local storage under "orderId", and the callbacks
    subscribed to changes of the current order; and the checkout form's
    validation. The REST calls are parameters: the value a call returned,
    or that it threw. */
module OrderStore {
  import opened Common

  /** The statuses of an order as the client receives them. */
  datatype ClientStatus =
    | CART
    | CUSTOMER_DETAILS_PROVIDED
    | PAYMENT_IN_PROGRESS
    | PLACED
    | ACCEPTED
    | READY
    | PICKED_UP
    | DELIVERED
    | CANCELLED
    | REJECTED

  datatype ClientLine = ClientLine(dishId: string, dishName: string, unitPrice: real, totalPrice: real,
                                   quantity: int, notes: string)

  /** An order as the REST API returns it; `lines` may be missing. */
  datatype ClientOrder = ClientOrder(id: string, restaurantId: Option<string>, status: ClientStatus,
                                     lines: Option<seq<ClientLine>>, totalPrice: real, paymentUrl: string)

  /** How an awaited REST call ended: it threw, or it returned a body, which
      may be null. */
  datatype Fetch = Threw | Returned(order: Option<ClientOrder>)

  /** The REST calls the store makes, in the order it makes them. */
  datatype Request = GetOrder(id: string) | CreateOrder

  /** A subscribed callback, known by the order of subscription. */
  type SubscriberId = nat

  /** One invocation of a subscriber with the order it was given. */
  datatype Call = Call(subscriber: SubscriberId, order: Option<ClientOrder>)

  /** Everything the store holds: the current order, the saved id, the
      subscribers in registration order and every call made to them so
      far. */
  datatype StoreState = StoreState(current: Option<ClientOrder>, savedId: Option<string>,
                                   subscribers: seq<SubscriberId>, calls: seq<Call>)

  /** A stored string a JavaScript condition treats as true: present and
      not empty. */
  predicate Truthy(s: Option<string>)
  {
    s.Some? && s.value != ""
  }

  /** The calls notifySubscribers makes: every subscriber, in order, with
      the same order. */
  function Broadcast(subscribers: seq<SubscriberId>, o: Option<ClientOrder>): (r: seq<Call>)
    ensures |r| == |subscribers|
    ensures forall i :: 0 <= i < |r| ==> r[i] == Call(subscribers[i], o)
  {
    if subscribers == [] then []
    else Broadcast(subscribers[..|subscribers| - 1], o) + [Call(subscribers[|subscribers| - 1], o)]
  }

  /** The state after notifySubscribers. */
  function Notified(s: StoreState): StoreState
  {
    s.(calls := s.calls + Broadcast(s.subscribers, s.current))
  }

  /** The state after setCurrentOrder(o). */
  function SetCurrent(s: StoreState, o: ClientOrder): (r: StoreState)
    ensures r.current == Some(o) && r.savedId == Some(o.id) && r.subscribers == s.subscribers
    ensures r.calls == s.calls + Broadcast(s.subscribers, Some(o))
  {
    Notified(s.(current := Some(o), savedId := Some(o.id)))
  }

  /** The state after resetCurrentOrder. */
  function Reset(s: StoreState): (r: StoreState)
    ensures r.current == None && r.savedId == None && r.subscribers == s.subscribers
    ensures r.calls == s.calls + Broadcast(s.subscribers, None)
  {
    Notified(s.(current := None, savedId := None))
  }

  /** The state after subscribeOrder(f): f is registered last and called
      once, at once, with the current order. */
  function Subscribe(s: StoreState, f: SubscriberId): (r: StoreState)
    ensures r.current == s.current && r.savedId == s.savedId
    ensures r.subscribers == s.subscribers + [f]
    ensures r.calls == s.calls + [Call(f, s.current)]
  {
    s.(subscribers := s.subscribers + [f], calls := s.calls + [Call(f, s.current)])
  }

  /** An order read back from the API with missing lines defaulted to
      none. */
  function WithLines(o: ClientOrder): (r: ClientOrder)
    ensures r.lines.Some? && (o.lines.Some? ==> r == o)
    ensures r.(lines := o.lines) == o
  {
    o.(lines := Some(if o.lines.Some? then o.lines.value else []))
  }

  /** What getOrCreateOrder ends with: the new state, the id it resolves
      to (None when it rejects) and the requests it made. */
  datatype Acquired = Acquired(state: StoreState, id: Option<string>, requests: seq<Request>)

  /** A fetched order that getOrCreateOrder adopts: present and still a
      cart. */
  predicate RestorableCart(f: Fetch)
  {
    f.Returned? && f.order.Some? && f.order.value.status == CART
  }

  /** getOrCreateOrder, given what getOrder would return for the saved id
      (`restored`) and what createOrder would return (`created`, None when
      it throws). */
  function GetOrCreate(s: StoreState, restored: Fetch, created: Option<ClientOrder>): (a: Acquired)
    ensures s.current.Some? && s.current.value.status == CART ==>
              a == Acquired(s, Some(s.current.value.id), [])
    ensures a.id.Some? ==> a.state.current.Some? && a.state.current.value.id == a.id.value
                           && (a.state.current.value.status == CART || CreateOrder in a.requests)
    ensures a.id.None? ==> a.state == s && created.None?
    ensures a.state.subscribers == s.subscribers
  {
    if s.current.Some? && s.current.value.status == CART then
      Acquired(s, Some(s.current.value.id), [])
    else
      var asked := if Truthy(s.savedId) then [GetOrder(s.savedId.value)] else [];
      if Truthy(s.savedId) && RestorableCart(restored) then
        Acquired(Notified(s.(current := restored.order)), Some(restored.order.value.id), asked)
      else if created.None? then
        Acquired(s, None, asked + [CreateOrder])
      else
        var o := created.value;
        Acquired(Notified(s.(current := Some(WithLines(o)), savedId := Some(o.id))), Some(o.id), asked + [CreateOrder])
  }

  /** What ensureCurrentOrder ends with: the new state, the order it
      resolves to and the requests it made. */
  datatype Ensured = Ensured(state: StoreState, order: Option<ClientOrder>, requests: seq<Request>)

  /** ensureCurrentOrder, given what getOrder would return for the saved
      id. */
  function EnsureCurrent(s: StoreState, restored: Fetch): (e: Ensured)
    ensures s.current.Some? ==> e == Ensured(s, s.current, [])
    ensures !Truthy(s.savedId) ==> e.requests == [] && e.state == s
    ensures e.state.current == e.order || e.state == s
    ensures e.state.subscribers == s.subscribers && e.state.savedId == s.savedId
  {
    if s.current.Some? then Ensured(s, s.current, [])
    else if !Truthy(s.savedId) then Ensured(s, None, [])
    else if restored.Threw? then Ensured(s, None, [GetOrder(s.savedId.value)])
    else Ensured(Notified(s.(current := restored.order)), restored.order, [GetOrder(s.savedId.value)])
  }

  class Store {
    var current: Option<ClientOrder>
    var savedId: Option<string>
    var subscribers: seq<SubscriberId>
    var calls: seq<Call>

    function View(): StoreState
      reads this
    {
      StoreState(current, savedId, subscribers, calls)
    }

    /** The module as loaded: no order in memory, no subscribers, and
        whatever id local storage already holds. */
    constructor (saved: Option<string>)
      ensures View() == StoreState(None, saved, [], [])
    {
      current, savedId, subscribers, calls := None, saved, [], [];
    }

    /** getCurrentOrder. */
    function CurrentOrder(): Option<ClientOrder>
      reads this
    {
      current
    }

    /** notifySubscribers: every subscriber in registration order is called
        with the current order. */
    method NotifySubscribers()
      modifies this
      ensures View() == Notified(old(View()))
    {
      var i := 0;
      while i < |subscribers|
        invariant 0 <= i <= |subscribers|
        invariant current == old(current) && savedId == old(savedId) && subscribers == old(subscribers)
        invariant calls == old(calls) + Broadcast(subscribers[..i], current)
      {
        assert subscribers[..i + 1][..i] == subscribers[..i];
        calls := calls + [Call(subscribers[i], current)];
        i := i + 1;
      }
      assert subscribers[..i] == subscribers;
    }

    method SetCurrentOrder(o: ClientOrder)
      modifies this
      ensures View() == SetCurrent(old(View()), o)
    {
      current := Some(o);
      savedId := Some(o.id);
      NotifySubscribers();
    }

    method ResetCurrentOrder()
      modifies this
      ensures View() == Reset(old(View()))
    {
      current := None;
      savedId := None;
      NotifySubscribers();
    }

    method SubscribeOrder(f: SubscriberId)
      modifies this
      ensures View() == Subscribe(old(View()), f)
    {
      subscribers := subscribers + [f];
      calls := calls + [Call(f, current)];
    }

    /** getOrCreateOrder: the in-memory cart if there is one; else the
        saved order if it is still a cart; else a newly created order,
        whose id is saved. */
    method GetOrCreateOrder(restored: Fetch, created: Option<ClientOrder>)
      returns (id: Option<string>, requests: seq<Request>)
      modifies this
      ensures var a := GetOrCreate(old(View()), restored, created);
              View() == a.state && id == a.id && requests == a.requests
    {
      if current.Some? && current.value.status == CART {
        return Some(current.value.id), [];
      }
      requests := [];
      if Truthy(savedId) {
        requests := [GetOrder(savedId.value)];
        if RestorableCart(restored) {
          current := restored.order;
          NotifySubscribers();
          return Some(restored.order.value.id), requests;
        }
      }
      requests := requests + [CreateOrder];
      if created.None? {
        return None, requests;
      }
      var o := created.value;
      current := Some(WithLines(o));
      savedId := Some(o.id);
      NotifySubscribers();
      id := Some(o.id);
    }

    /** ensureCurrentOrder: the in-memory order if any; else the saved
        order, adopted whatever its status; null when nothing is saved or
        the fetch throws. */
    method EnsureCurrentOrder(restored: Fetch) returns (order: Option<ClientOrder>, requests: seq<Request>)
      modifies this
      ensures var e := EnsureCurrent(old(View()), restored);
              View() == e.state && order == e.order && requests == e.requests
    {
      if current.Some? {
        return current, [];
      }
      if !Truthy(savedId) {
        return None, [];
      }
      requests := [GetOrder(savedId.value)];
      if restored.Threw? {
        return None, requests;
      }
      current := restored.order;
      NotifySubscribers();
      order := restored.order;
    }
  }

  /** Once getOrCreateOrder has settled on a cart, calling it again gives
      the same id with no request and no change, whatever the API would
      answer. */
  lemma GetOrCreateSettles(s: StoreState, restored: Fetch, created: Option<ClientOrder>,
                           restored2: Fetch, created2: Option<ClientOrder>)
    requires var a := GetOrCreate(s, restored, created);
             a.id.Some? && a.state.current.value.status == CART
    ensures var a := GetOrCreate(s, restored, created);
            GetOrCreate(a.state, restored2, created2) == Acquired(a.state, a.id, [])
  {
  }

  /** A saved id is fetched only when there is no cart in memory, and a
      new order is created only when neither the memory nor the saved id
      gives a cart; the saved id is then replaced by the new order's. */
  lemma {:induction false} GetOrCreateRequests(s: StoreState, restored: Fetch, created: Option<ClientOrder>)
    requires !(s.current.Some? && s.current.value.status == CART)
    ensures var a := GetOrCreate(s, restored, created);
            (CreateOrder in a.requests <==> !(Truthy(s.savedId) && RestorableCart(restored)))
            && (Truthy(s.savedId) ==> a.requests[0] == GetOrder(s.savedId.value))
            && (!Truthy(s.savedId) ==> a.requests == [CreateOrder])
            && (created.Some? && CreateOrder in a.requests ==>
                  a.state.savedId == Some(created.value.id) && a.state.current == Some(WithLines(created.value))
                  && a.state.calls == s.calls + Broadcast(s.subscribers, Some(WithLines(created.value))))
  {
    var a := GetOrCreate(s, restored, created);
    if Truthy(s.savedId) && RestorableCart(restored) {
      assert a.requests == [GetOrder(s.savedId.value)];
    } else if Truthy(s.savedId) {
      assert a.requests == [GetOrder(s.savedId.value), CreateOrder];
    } else {
      assert a.requests == [CreateOrder];
    }
  }

  /** A subscriber registered before a change hears of it; one registered
      after it is told the current order on subscription: either way the
      last call each subscriber received carries the current order. */
  lemma {:induction false} LastCallIsCurrent(s: StoreState, o: ClientOrder, f: SubscriberId)
    requires f in s.subscribers
    ensures var r := SetCurrent(s, o);
            exists i :: |s.calls| <= i < |r.calls| && r.calls[i] == Call(f, r.current)
    ensures var r := Subscribe(SetCurrent(s, o), f);
            r.calls[|r.calls| - 1] == Call(f, Some(o))
  {
    var r := SetCurrent(s, o);
    var k :| 0 <= k < |s.subscribers| && s.subscribers[k] == f;
    assert r.calls[|s.calls| + k] == Call(f, r.current);
  }

  /** After a reset, getOrCreateOrder can only create: nothing is in memory
      and nothing is saved. */
  lemma ResetThenCreate(s: StoreState, restored: Fetch, o: ClientOrder)
    ensures var a := GetOrCreate(Reset(s), restored, Some(o));
            a.requests == [CreateOrder] && a.id == Some(o.id) && a.state.savedId == Some(o.id)
  {
  }

  // ---------------------------------------------------------------------
  // The checkout form.

  datatype AddressDto = AddressDto(street: string, houseNumber: string, busNumber: Option<string>,
                                   city: string, country: string, postalCode: string)

  datatype PlaceOrderDto = PlaceOrderDto(name: string, email: string, addressDto: AddressDto)

  datatype Validation = Validation(valid: bool, errors: map<string, string>)

  const NameRequired := "Name is required"
  const EmailRequired := "Valid email is required"
  const StreetRequired := "Street is required"
  const HouseNumberRequired := "House number is required"
  const CityRequired := "City is required"
  const CountryRequired := "Country is required"
  const PostalCodeInvalid := "Postal code must be a valid Belgian code"

  /** The characters JavaScript's `\s` matches. */
  predicate IsSpace(c: char)
  {
    c == ' ' || c == '\t' || c == '\n' || c == '\U{B}' || c == '\U{C}' || c == '\r'
    || c == '\U{A0}' || c == '\U{1680}' || ('\U{2000}' <= c <= '\U{200A}')
    || c == '\U{2028}' || c == '\U{2029}' || c == '\U{202F}' || c == '\U{205F}'
    || c == '\U{3000}' || c == '\U{FEFF}'
  }

  predicate IsDigit(c: char)
  {
    '0' <= c <= '9'
  }

  /** `/\S+@\S+\.\S+/.test(s)`: somewhere in `s` an '@' with a non-space
      character before it, then one or more non-space characters, a '.'
      and a non-space character. */
  predicate EmailLooksValid(s: string)
  {
    exists a, d :: 0 < a && a + 1 < d && d + 1 < |s| && s[a] == '@' && s[d] == '.'
                   && !IsSpace(s[a - 1]) && !IsSpace(s[d + 1]) && NoSpaceBetween(s, a, d)
  }

  /** No character strictly between positions `a` and `d` is a space. */
  predicate NoSpaceBetween(s: string, a: int, d: int)
    requires 0 <= a <= d <= |s|
  {
    forall k :: a < k < d ==> !IsSpace(s[k])
  }

  /** `/^[1-9][0-9]{3}$/.test(s)`: exactly four digits, the first not
      zero. */
  predicate IsBelgianPostalCode(s: string)
  {
    |s| == 4 && '1' <= s[0] <= '9' && IsDigit(s[1]) && IsDigit(s[2]) && IsDigit(s[3])
  }

  /** The error message for each field that fails its check. */
  function Errors(dto: PlaceOrderDto): map<string, string>
  {
    var e0: map<string, string> := map[];
    var e1 := if dto.name == "" then e0["name" := NameRequired] else e0;
    var e2 := if dto.email == "" || !EmailLooksValid(dto.email) then e1["email" := EmailRequired] else e1;
    var e3 := if dto.addressDto.street == "" then e2["street" := StreetRequired] else e2;
    var e4 := if dto.addressDto.houseNumber == "" then e3["houseNumber" := HouseNumberRequired] else e3;
    var e5 := if dto.addressDto.city == "" then e4["city" := CityRequired] else e4;
    var e6 := if dto.addressDto.country == "" then e5["country" := CountryRequired] else e5;
    if dto.addressDto.postalCode == "" || !IsBelgianPostalCode(dto.addressDto.postalCode)
    then e6["postalCode" := PostalCodeInvalid] else e6
  }

  /** validateOrderDto. */
  function ValidateOrderDto(dto: PlaceOrderDto): Validation
  {
    var errors := Errors(dto);
    Validation(|errors| == 0, errors)
  }

  /** Every field the form checks passes. */
  predicate FieldsOk(dto: PlaceOrderDto)
  {
    dto.name != "" && EmailLooksValid(dto.email) && dto.addressDto.street != ""
    && dto.addressDto.houseNumber != "" && dto.addressDto.city != "" && dto.addressDto.country != ""
    && IsBelgianPostalCode(dto.addressDto.postalCode)
  }

  /** Each field's error is reported exactly when that field fails, and
      no other key is reported. */
  lemma ErrorKeys(dto: PlaceOrderDto)
    ensures var e := Errors(dto);
            ("name" in e <==> dto.name == "")
            && ("email" in e <==> !EmailLooksValid(dto.email))
            && ("street" in e <==> dto.addressDto.street == "")
            && ("houseNumber" in e <==> dto.addressDto.houseNumber == "")
            && ("city" in e <==> dto.addressDto.city == "")
            && ("country" in e <==> dto.addressDto.country == "")
            && ("postalCode" in e <==> !IsBelgianPostalCode(dto.addressDto.postalCode))
            && e.Keys <= {"name", "email", "street", "houseNumber", "city", "country", "postalCode"}
  {
  }

  /** The form is valid exactly when it reports no error, and exactly when
      every field passes; each field's error is reported exactly when that
      field fails, so several errors can be reported at once. */
  lemma ValidateOrderDtoSpec(dto: PlaceOrderDto)
    ensures var v := ValidateOrderDto(dto);
            (v.valid <==> v.errors == map[]) && (v.valid <==> FieldsOk(dto))
            && ("name" in v.errors <==> dto.name == "")
            && ("email" in v.errors <==> !EmailLooksValid(dto.email))
            && ("street" in v.errors <==> dto.addressDto.street == "")
            && ("houseNumber" in v.errors <==> dto.addressDto.houseNumber == "")
            && ("city" in v.errors <==> dto.addressDto.city == "")
            && ("country" in v.errors <==> dto.addressDto.country == "")
            && ("postalCode" in v.errors <==> !IsBelgianPostalCode(dto.addressDto.postalCode))
            && v.errors.Keys <= {"name", "email", "street", "houseNumber", "city", "country", "postalCode"}
  {
    ErrorKeys(dto);
    var v := ValidateOrderDto(dto);
    if !FieldsOk(dto) {
      var k: string :| k in v.errors;
      assert |v.errors| != 0;
    }
  }

  /** The digit character for 0 to 9. */
  function DigitChar(d: int): char
    requires 0 <= d < 10
  {
    ('0' as int + d) as char
  }

  /** The four-digit decimal numeral of `n`. */
  function Numeral(n: int): string
    requires 1000 <= n <= 9999
  {
    [DigitChar(n / 1000), DigitChar(n / 100 % 10), DigitChar(n / 10 % 10), DigitChar(n % 10)]
  }

  /** The number a four-digit string spells. */
  function ValueOf(s: string): int
    requires |s| == 4 && forall i | 0 <= i < 4 :: IsDigit(s[i])
  {
    1000 * (s[0] as int - '0' as int) + 100 * (s[1] as int - '0' as int)
    + 10 * (s[2] as int - '0' as int) + (s[3] as int - '0' as int)
  }

  /** A postal code passes exactly when it is the numeral of a number from
      1000 to 9999, so the numerals of those numbers are the only codes
      accepted. */
  lemma PostalCodeIsNumeral(s: string)
    ensures IsBelgianPostalCode(s) <==> exists n :: 1000 <= n <= 9999 && s == Numeral(n)
  {
    if IsBelgianPostalCode(s) {
      var n := ValueOf(s);
      NumeralOfValue(s);
      assert 1000 <= n <= 9999 && s == Numeral(n);
    }
    if exists n :: 1000 <= n <= 9999 && s == Numeral(n) {
      var n :| 1000 <= n <= 9999 && s == Numeral(n);
      assert 1 <= n / 1000 <= 9;
    }
  }

  lemma NumeralOfValue(s: string)
    requires IsBelgianPostalCode(s)
    ensures 1000 <= ValueOf(s) <= 9999 && Numeral(ValueOf(s)) == s
  {
    var d0, d1, d2, d3 := s[0] as int - '0' as int, s[1] as int - '0' as int,
                          s[2] as int - '0' as int, s[3] as int - '0' as int;
    var n := ValueOf(s);
    assert n / 1000 == d0;
    assert n / 100 == 10 * d0 + d1;
    assert n / 100 % 10 == d1;
    assert n / 10 == 100 * d0 + 10 * d1 + d2;
    assert n / 10 % 10 == d2;
    assert n % 10 == d3;
  }

  /** A filled-in form with a good address, an empty name and a bad postal
      code reports both errors and is not valid. */
  lemma NameAndPostalCodeErrorsTogether()
    ensures var v := ValidateOrderDto(PlaceOrderDto("", "a@b.c", AddressDto("Street", "1", None, "City", "BE", "0123")));
            !v.valid && v.errors == map["name" := NameRequired, "postalCode" := PostalCodeInvalid]
  {
    var dto := PlaceOrderDto("", "a@b.c", AddressDto("Street", "1", None, "City", "BE", "0123"));
    assert EmailLooksValid(dto.email) by {
      assert dto.email[1] == '@' && dto.email[3] == '.' && NoSpaceBetween(dto.email, 1, 3);
      assert !IsSpace(dto.email[0]) && !IsSpace(dto.email[4]);
    }
  }
}
