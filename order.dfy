/** The order service's aggregate: a customer's cart that becomes an order,
    its lines and its payment. */
module Ordering {
  import opened Common

  type OrderId = Uuid
  type RestaurantId = Uuid
  type DishId = Uuid

  datatype OrderStatus =
    | CART
    | CUSTOMER_DETAILS_PROVIDED
    | PAYMENT_IN_PROGRESS
    | PLACED
    | ACCEPTED
    | READY
    | PICKED_UP
    | DELIVERED
    | REJECTED

  datatype PaymentStatus = IN_PROGRESS | PAID

  // The messages of the exceptions the order aggregate throws.
  const PaymentNotInProgress := "Payment not in progress"
  const QuantityNotPositive := "Quantity must be > 0"
  const OnlyCartAddsDishes := "Only cart orders can have dishes added"
  const OtherRestaurant := "Cannot add dish from a different restaurant to this order"
  const DetailsAfterPaymentStage := "Only orders before payment stage can set customer details"
  const DetailsOnEmptyOrder := "Cannot set customer details on an empty order"
  const PaymentWithoutDetails := "Only orders with customer details can set payment"
  const PaymentOnEmptyOrder := "Cannot set payment on an empty order"
  const PaymentNotPaid := "Payment is not paid"
  const PlaceWithoutPayment := "Only orders with a payment can be placed"
  const PlaceEmptyOrder := "Cannot place an empty order"
  const AcceptRejected := "Cannot accept an order that is already rejected"
  const AcceptNotPlaced := "Order must be in PLACED state to be accepted"
  const RejectAccepted := "Cannot reject an order that is already accepted"
  const RejectNotPlaced := "Order must be in PLACED state to be rejected"
  const ReadyNotAccepted := "Order must be in ACCEPTED state to be marked as ready"
  const PickUpNotReady := "Order must be in READY state to be marked as picked-up"
  const DeliverNotPickedUp := "Order must be in PICKED_UP state to be marked as delivered"

  function DishUnavailable(name: string): string
  {
    "Dish " + name + " is not available for ordering."
  }

  /** The steps of an order's life, one per state-changing method. */
  datatype Step =
    | ProvideDetails
    | StartPayment
    | Place
    | Accept
    | Reject
    | MarkReady
    | PickUp
    | Deliver

  /** The lifecycle as a table: the status a step leads to, or None when the
      step is refused in that status. Repeating an accept or a reject is
      allowed and stays put; so is giving the customer details again. */
  function Next(s: OrderStatus, e: Step): Option<OrderStatus>
  {
    match e
    case ProvideDetails => if s == CART || s == CUSTOMER_DETAILS_PROVIDED then Some(CUSTOMER_DETAILS_PROVIDED) else None
    case StartPayment => if s == CUSTOMER_DETAILS_PROVIDED then Some(PAYMENT_IN_PROGRESS) else None
    case Place => if s == PAYMENT_IN_PROGRESS then Some(PLACED) else None
    case Accept => if s == PLACED || s == ACCEPTED then Some(ACCEPTED) else None
    case Reject => if s == PLACED || s == REJECTED then Some(REJECTED) else None
    case MarkReady => if s == ACCEPTED then Some(READY) else None
    case PickUp => if s == READY then Some(PICKED_UP) else None
    case Deliver => if s == PICKED_UP then Some(DELIVERED) else None
  }

  /** How far along its life an order is; REJECTED ends a branch of its
      own, after PLACED. */
  function Rank(s: OrderStatus): nat
  {
    match s
    case CART => 0
    case CUSTOMER_DETAILS_PROVIDED => 1
    case PAYMENT_IN_PROGRESS => 2
    case PLACED => 3
    case ACCEPTED => 4
    case READY => 5
    case PICKED_UP => 6
    case DELIVERED => 7
    case REJECTED => 4
  }

  /** The status after a run of steps, or None once one is refused. */
  function Run(s: OrderStatus, es: seq<Step>): Option<OrderStatus>
    decreases es
  {
    if es == [] then Some(s)
    else match Next(s, es[0])
      case None => None
      case Some(t) => Run(t, es[1..])
  }

  /** No step goes back: the rank never drops and only ProvideDetails,
      Accept and Reject may leave the status as it was. */
  lemma NextGoesForward(s: OrderStatus, e: Step)
    ensures Next(s, e).Some? ==> Rank(s) <= Rank(Next(s, e).value)
    ensures Next(s, e).Some? && Next(s, e).value == s ==> e in {ProvideDetails, Accept, Reject}
    ensures Next(s, e) != Some(CART)
  {
  }

  /** Any run of steps never lowers the rank, never returns to the cart,
      and DELIVERED and REJECTED are final. */
  lemma {:induction false} RunGoesForward(s: OrderStatus, es: seq<Step>)
    decreases es
    ensures Run(s, es).Some? ==> Rank(s) <= Rank(Run(s, es).value)
    ensures Run(s, es).Some? && s != CART ==> Run(s, es).value != CART
    ensures s == DELIVERED ==> Run(s, es) == if es == [] then Some(DELIVERED) else None
    ensures s == REJECTED && Run(s, es).Some? ==> Run(s, es).value == REJECTED
  {
    if es != [] {
      match Next(s, es[0])
      case None =>
      case Some(t) =>
        NextGoesForward(s, es[0]);
        RunGoesForward(t, es[1..]);
    }
  }

  /** An accepted order can never be rejected, nor a rejected one accepted,
      whatever happens in between. */
  lemma {:induction false} DecisionIsFinal(s: OrderStatus, es: seq<Step>)
    requires s == ACCEPTED || s == READY || s == PICKED_UP || s == DELIVERED
    ensures Run(s, es).Some? ==> Run(s, es).value != REJECTED
    decreases es
  {
    if es != [] {
      match Next(s, es[0])
      case None =>
      case Some(t) => DecisionIsFinal(t, es[1..]);
    }
  }

  /** The happy path: from the cart, eight steps deliver the order. */
  lemma HappyPath()
    ensures Run(CART, [ProvideDetails, StartPayment, Place, Accept, MarkReady, PickUp, Deliver]) == Some(DELIVERED)
    ensures Run(CART, [ProvideDetails, StartPayment, Place, Reject, Accept]) == None
  {
  }

  /** A dish as the restaurant catalogue reports it to the order service;
      its status is free text. */
  datatype CatalogDish = CatalogDish(name: string, price: Money, status: Option<string>)

  /** The delivery address the customer gives at checkout. */
  datatype DeliveryAddress = DeliveryAddress(
    street: Option<string>, houseNumber: Option<string>, busNumber: Option<string>,
    country: Option<string>, city: Option<string>, postalCode: Option<string>)

  /** String.equalsIgnoreCase on one character of an upper-case ASCII
      letter: the letter itself, its lower case, and for 'I' also the two
      Turkish i's, whose case mappings meet 'I' or 'i'. */
  predicate SameLetterIgnoringCase(c: char, upper: char)
    requires 'A' <= upper <= 'Z'
  {
    c == upper || c as int == upper as int + 32
    || (upper == 'I' && (c == 'ı' || c == 'İ'))
  }

  /** The dish status equals "AVAILABLE", ignoring case. */
  predicate IsAvailableLabel(s: string)
  {
    var word := "AVAILABLE";
    |s| == |word| && forall i :: 0 <= i < |s| ==> SameLetterIgnoringCase(s[i], word[i])
  }

  /** The labels the order service accepts: exactly "AVAILABLE" in any mix
      of letter cases. */
  lemma AvailableLabels()
    ensures IsAvailableLabel("AVAILABLE") && IsAvailableLabel("available") && IsAvailableLabel("Available")
    ensures !IsAvailableLabel("SOLD_OUT") && !IsAvailableLabel("AVAILABLE ") && !IsAvailableLabel("")
  {
    assert !SameLetterIgnoringCase('S', 'A');
  }

  class Payment {
    const id: string
    const checkoutUrl: string
    var status: PaymentStatus

    constructor (id: string, checkoutUrl: string, status: PaymentStatus)
      ensures this.id == id && this.checkoutUrl == checkoutUrl && this.status == status
    {
      this.id := id;
      this.checkoutUrl := checkoutUrl;
      this.status := status;
    }

    /** A payment that has just been created at the payment provider. */
    constructor InProgress(id: string, checkoutUrl: string)
      ensures this.id == id && this.checkoutUrl == checkoutUrl && status == IN_PROGRESS
      ensures !IsPaid()
    {
      this.id := id;
      this.checkoutUrl := checkoutUrl;
      this.status := IN_PROGRESS;
    }

    /** Paid exactly when markAsPaid would refuse the payment. */
    function IsPaid(): (r: bool)
      reads this
      ensures r <==> status != IN_PROGRESS
    {
      status == PAID
    }

    /** Only a payment in progress can become paid; a second call throws. */
    method MarkAsPaid() returns (o: Outcome)
      modifies this
      ensures old(status) == IN_PROGRESS ==> o == Ok && IsPaid()
      ensures old(status) != IN_PROGRESS ==>
                o == Err(IllegalState(PaymentNotInProgress)) && status == old(status)
    {
      if status != IN_PROGRESS {
        return Err(IllegalState(PaymentNotInProgress));
      }
      status := PAID;
      o := Ok;
    }
  }

  /** What the OrderLine constructor throws for a quantity and unit price,
      in the order it checks them; both checks carry the same message. */
  function CheckNewLine(quantity: int, unitPrice: Money): (o: Outcome)
    ensures o == Ok <==> quantity > 0 && unitPrice >= 0.0
    ensures o != Ok ==> o == Err(IllegalArgument(QuantityNotPositive))
  {
    if quantity <= 0 then Err(IllegalArgument(QuantityNotPositive))
    else if unitPrice < 0.0 then Err(IllegalArgument(QuantityNotPositive))
    else Ok
  }

  /** The value of a line at one moment. */
  datatype LineData = LineData(dishId: DishId, dishName: string, unitPrice: Money, quantity: int, notes: Option<string>)

  /** The unit price times the quantity. */
  function LineTotal(l: LineData): Money
  {
    Times(l.unitPrice, l.quantity)
  }

  class OrderLine {
    const dishId: DishId
    const dishName: string
    var unitPrice: Money
    var quantity: int
    var notes: Option<string>

    ghost predicate Valid()
      reads this
    {
      quantity > 0 && unitPrice >= 0.0
    }

    function View(): LineData
      reads this
    {
      LineData(dishId, dishName, unitPrice, quantity, notes)
    }

    /** The constructor, for arguments that pass CheckNewLine. */
    constructor (dishId: DishId, dishName: string, unitPrice: Money, quantity: int, notes: Option<string>)
      requires CheckNewLine(quantity, unitPrice) == Ok
      ensures Valid()
      ensures View() == LineData(dishId, dishName, unitPrice, quantity, notes)
    {
      this.dishId := dishId;
      this.dishName := dishName;
      this.unitPrice := unitPrice;
      this.quantity := quantity;
      this.notes := notes;
    }

    /** Raises the quantity by exactly `q`, and the line total by `q` unit
      prices; a non-positive `q` throws and changes nothing. */
    method AddQuantity(q: int) returns (o: Outcome)
      requires Valid()
      modifies this
      ensures Valid()
      ensures q > 0 ==> o == Ok && View() == old(View()).(quantity := old(quantity) + q)
      ensures q > 0 ==> LineTotal(View()) == LineTotal(old(View())) + Times(unitPrice, q)
      ensures q <= 0 ==> o == Err(IllegalArgument(QuantityNotPositive)) && View() == old(View())
    {
      if q <= 0 {
        return Err(IllegalArgument(QuantityNotPositive));
      }
      TimesAdd(unitPrice, quantity, q);
      quantity := quantity + q;
      o := Ok;
    }

    /** The line's value names that dish. */
    function IsForDish(id: DishId): (r: bool)
      reads this
      ensures r <==> View().dishId == id
    {
      dishId == id
    }
  }

  /** The index of the first line for `id` (the stream's findFirst). */
  function FindLine(ls: seq<OrderLine>, id: DishId): (r: Option<nat>)
    reads ls
    ensures r.None? <==> forall i :: 0 <= i < |ls| ==> !ls[i].IsForDish(id)
    ensures r.Some? ==> r.value < |ls| && ls[r.value].IsForDish(id)
                        && forall i :: 0 <= i < r.value ==> !ls[i].IsForDish(id)
  {
    if ls == [] then None
    else if ls[0].IsForDish(id) then Some(0)
    else match FindLine(ls[1..], id)
      case None => None
      case Some(k) => Some(k + 1)
  }

  /** The values of a list of lines. */
  function Views(ls: seq<OrderLine>): (vs: seq<LineData>)
    reads ls
    ensures |vs| == |ls|
  {
    if ls == [] then [] else Views(ls[..|ls| - 1]) + [ls[|ls| - 1].View()]
  }

  /** The value at index `i` of the values of `ls` is the value of `ls[i]`. */
  lemma ViewsAt(ls: seq<OrderLine>, i: nat)
    requires i < |ls|
    ensures Views(ls)[i] == ls[i].View()
  {
    if i < |ls| - 1 {
      ViewsAt(ls[..|ls| - 1], i);
    }
  }

  /** The values of a list are the given ones when they agree line by line. */
  lemma ViewsPointwise(ls: seq<OrderLine>, vs: seq<LineData>)
    requires |vs| == |ls|
    requires forall i :: 0 <= i < |ls| ==> vs[i] == ls[i].View()
    ensures Views(ls) == vs
  {
    forall i | 0 <= i < |ls|
      ensures Views(ls)[i] == vs[i]
    {
      ViewsAt(ls, i);
    }
  }

  /** The values of lines none of which changed are the same. */
  twostate lemma ViewsUnchanged(ls: seq<OrderLine>)
    requires forall i :: 0 <= i < |ls| ==> unchanged(ls[i])
    ensures Views(ls) == old(Views(ls))
  {
    forall i | 0 <= i < |ls|
      ensures Views(ls)[i] == old(Views(ls))[i]
    {
      ViewsAt(ls, i);
    }
  }

  /** The sum of the line totals, added up from the first line on. */
  function TotalOf(vs: seq<LineData>): Money
  {
    if vs == [] then 0.0 else TotalOf(vs[..|vs| - 1]) + LineTotal(vs[|vs| - 1])
  }

  /** Changing one line changes the sum by exactly the change in that
      line's total. */
  lemma {:induction false} TotalOfUpdate(vs: seq<LineData>, k: nat, v: LineData)
    requires k < |vs|
    ensures TotalOf(vs[k := v]) == TotalOf(vs) - LineTotal(vs[k]) + LineTotal(v)
  {
    var n := |vs| - 1;
    if k < n {
      assert vs[k := v][..n] == vs[..n][k := v];
      TotalOfUpdate(vs[..n], k, v);
    } else {
      assert vs[k := v][..n] == vs[..n];
    }
  }

  /** Appending a line adds exactly its total to the sum. */
  lemma TotalOfAppend(vs: seq<LineData>, v: LineData)
    ensures TotalOf(vs + [v]) == TotalOf(vs) + LineTotal(v)
  {
    assert (vs + [v])[..|vs|] == vs;
  }

  /** Lines with quantities above zero and prices not below zero add up to
      an amount that is not below zero. */
  lemma {:induction false} TotalOfNonNegative(vs: seq<LineData>)
    requires WellFormedLines(vs)
    ensures TotalOf(vs) >= 0.0
  {
    if vs != [] {
      var n := |vs| - 1;
      assert WellFormedLines(vs[..n]);
      TotalOfNonNegative(vs[..n]);
      TimesIsProduct(vs[n].unitPrice, vs[n].quantity);
    }
  }

  /** The index of the first line value for `id`. */
  function FindValue(vs: seq<LineData>, id: DishId): (r: Option<nat>)
    ensures r.None? <==> forall i :: 0 <= i < |vs| ==> vs[i].dishId != id
    ensures r.Some? ==> r.value < |vs| && vs[r.value].dishId == id
                        && forall i :: 0 <= i < r.value ==> vs[i].dishId != id
  {
    if vs == [] then None
    else if vs[0].dishId == id then Some(0)
    else match FindValue(vs[1..], id)
      case None => None
      case Some(k) => Some(k + 1)
  }

  /** Searching the lines and searching their values find the same index. */
  lemma FindLineValues(ls: seq<OrderLine>, id: DishId)
    ensures FindLine(ls, id) == FindValue(Views(ls), id)
  {
    var vs := Views(ls);
    forall i | 0 <= i < |ls|
      ensures vs[i].dishId == ls[i].dishId
    {
      ViewsAt(ls, i);
    }
  }

  /** The lines with line `k` raised by `quantity` and given `notes`, when
      there are notes. */
  function RaiseAt(vs: seq<LineData>, k: nat, quantity: int, notes: Option<string>): seq<LineData>
    requires k < |vs|
  {
    vs[k := Raised(vs[k], quantity, notes)]
  }

  /** One line raised by `quantity`, its notes replaced when there are new
      ones. */
  function Raised(l: LineData, quantity: int, notes: Option<string>): LineData
  {
    l.(quantity := l.quantity + quantity, notes := if notes.Some? then notes else l.notes)
  }

  /** How adding `quantity` of an available dish ends, given the current
      lines: a known dish checks the added quantity, a new one the checks of
      a new line. */
  function PutOutcome(vs: seq<LineData>, id: DishId, dish: CatalogDish, quantity: int): Outcome
  {
    match FindValue(vs, id)
    case Some(_) => if quantity > 0 then Ok else Err(IllegalArgument(QuantityNotPositive))
    case None => CheckNewLine(quantity, dish.price)
  }

  /** The lines after adding `quantity` of an available dish: the known
      dish's line gains the quantity (and the notes, when given); a new dish
      gets a line at the end; a failed check leaves the lines as they were. */
  function PutLineValues(vs: seq<LineData>, id: DishId, dish: CatalogDish, quantity: int, notes: Option<string>): seq<LineData>
  {
    if PutOutcome(vs, id, dish, quantity).Err? then vs
    else match FindValue(vs, id)
      case Some(k) => RaiseAt(vs, k, quantity, notes)
      case None => vs + [LineData(id, dish.name, dish.price, quantity, notes)]
  }

  /** One line per dish, each with a positive quantity and a price that is
      not negative. */
  predicate WellFormedLines(vs: seq<LineData>)
  {
    && (forall i, j :: 0 <= i < j < |vs| ==> vs[i].dishId != vs[j].dishId)
    && (forall i :: 0 <= i < |vs| ==> vs[i].quantity > 0 && vs[i].unitPrice >= 0.0)
  }

  /** Adding a dish keeps one line per dish, with positive quantities and
      prices that are not negative, and on success the dish has a line. */
  lemma PutLineKeepsWellFormed(vs: seq<LineData>, id: DishId, dish: CatalogDish, quantity: int, notes: Option<string>)
    requires WellFormedLines(vs)
    ensures WellFormedLines(PutLineValues(vs, id, dish, quantity, notes))
    ensures PutOutcome(vs, id, dish, quantity) == Ok ==> FindValue(PutLineValues(vs, id, dish, quantity, notes), id).Some?
  {
    if PutOutcome(vs, id, dish, quantity) == Ok {
      var r := PutLineValues(vs, id, dish, quantity, notes);
      match FindValue(vs, id)
      case Some(k) => assert r[k].dishId == id;
      case None => assert r[|vs|].dishId == id;
    }
  }

  /** Adding a dish adds exactly `quantity` times its unit price to the
      total: the price of the line already there, or the catalogue price of
      a new line. */
  lemma PutLineTotal(vs: seq<LineData>, id: DishId, dish: CatalogDish, quantity: int, notes: Option<string>)
    requires PutOutcome(vs, id, dish, quantity) == Ok
    ensures TotalOf(PutLineValues(vs, id, dish, quantity, notes))
            == TotalOf(vs) + Times(UnitPriceFor(vs, id, dish), quantity)
  {
    var r := PutLineValues(vs, id, dish, quantity, notes);
    var f := FindValue(vs, id);
    if f.Some? {
      var k := f.value;
      assert r == RaiseAt(vs, k, quantity, notes);
      RaiseAtTotal(vs, k, quantity, notes);
    } else {
      var l := LineData(id, dish.name, dish.price, quantity, notes);
      assert r == vs + [l];
      TotalOfAppend(vs, l);
    }
  }

  /** The unit price a dish is added at: that of its line, if it has one,
      or else the catalogue price. */
  function UnitPriceFor(vs: seq<LineData>, id: DishId, dish: CatalogDish): Money
  {
    match FindValue(vs, id)
    case Some(k) => vs[k].unitPrice
    case None => dish.price
  }

  /** Raising one line by `quantity` adds `quantity` unit prices of that
      line to the total. */
  lemma RaiseAtTotal(vs: seq<LineData>, k: nat, quantity: int, notes: Option<string>)
    requires k < |vs|
    ensures TotalOf(RaiseAt(vs, k, quantity, notes)) == TotalOf(vs) + Times(vs[k].unitPrice, quantity)
  {
    TotalOfUpdate(vs, k, Raised(vs[k], quantity, notes));
    RaisedTotal(vs[k], quantity, notes);
  }

  /** Raising a line by `quantity` adds `quantity` unit prices to its total. */
  lemma RaisedTotal(l: LineData, quantity: int, notes: Option<string>)
    ensures LineTotal(Raised(l, quantity, notes)) == LineTotal(l) + Times(l.unitPrice, quantity)
  {
    TimesAdd(l.unitPrice, l.quantity, quantity);
  }

  /** Every field of an order at one moment, the lines by reference. */
  datatype Snapshot = Snapshot(
    restaurantId: Option<RestaurantId>, timePlaced: Option<Time>, lines: seq<OrderLine>,
    status: OrderStatus, totalPrice: Option<Money>, decisionReason: Option<string>,
    decisionAt: Option<Time>, customerName: Option<string>, customerEmail: Option<string>,
    deliveryAddress: Option<DeliveryAddress>, payment: Payment?)

  class Order {
    const id: OrderId
    var restaurantId: Option<RestaurantId>
    var timePlaced: Option<Time>
    var lines: seq<OrderLine>
    var status: OrderStatus
    var totalPrice: Option<Money>
    var decisionReason: Option<string>
    var decisionAt: Option<Time>
    var customerName: Option<string>
    var customerEmail: Option<string>
    var deliveryAddress: Option<DeliveryAddress>
    var payment: Payment?

    /** One line per dish, every line with a positive quantity and a price
      that is not negative. */
    ghost predicate OneLinePerDish()
      reads this, lines
    {
      WellFormedLines(Views(lines))
    }

    /** The total price is the sum of the line totals. */
    ghost predicate TotalInStep()
      reads this, lines
    {
      totalPrice == Some(TotalOf(Views(lines)))
    }

    /** The order's own fields; the lines are by reference, their values are
      Views(lines). */
    ghost function Snap(): Snapshot
      reads this
    {
      Snapshot(restaurantId, timePlaced, lines, status, totalPrice, decisionReason,
               decisionAt, customerName, customerEmail, deliveryAddress, payment)
    }

    constructor Cart(id: OrderId)
      ensures OneLinePerDish()
      ensures this.id == id
      ensures Snap() == Snapshot(None, None, [], CART, None, None, None, None, None, None, null)
    {
      this.id := id;
      restaurantId, timePlaced, lines, status, totalPrice := None, None, [], CART, None;
      decisionReason, decisionAt, customerName, customerEmail := None, None, None, None;
      deliveryAddress, payment := None, null;
    }

    /** A fresh cart with no lines; the new id is a parameter. */
    static method CreateCart(newId: OrderId) returns (order: Order)
      ensures fresh(order) && order.OneLinePerDish()
      ensures order.id == newId && order.status == CART && order.lines == []
      ensures order.restaurantId == None && order.totalPrice == None && order.payment == null
    {
      order := new Order.Cart(newId);
    }

    /** Adds `quantity` of a dish. Only a cart takes dishes; the first dish
      fixes the restaurant (before the dish itself is checked); then the
      dish must be available, and PutLine adds it. */
    method AddDish(dishId: DishId, rid: RestaurantId, dish: CatalogDish, quantity: int, notes: Option<string>)
      returns (o: Outcome)
      requires OneLinePerDish()
      modifies this, lines
      ensures OneLinePerDish()
      ensures old(status) != CART ==>
                o == Err(IllegalState(OnlyCartAddsDishes)) && Snap() == old(Snap())
      ensures old(status) == CART && old(restaurantId).Some? && old(restaurantId).value != rid ==>
                o == Err(IllegalArgument(OtherRestaurant)) && Snap() == old(Snap())
      ensures old(status) == CART && old(restaurantId) in {None, Some(rid)}
              && !(dish.status.Some? && IsAvailableLabel(dish.status.value)) ==>
                o == Err(IllegalState(DishUnavailable(dish.name)))
                && Snap() == old(Snap()).(restaurantId := Some(rid))
      ensures old(status) == CART && old(restaurantId) in {None, Some(rid)}
              && dish.status.Some? && IsAvailableLabel(dish.status.value) ==>
                && o == PutOutcome(old(Views(lines)), dishId, dish, quantity)
                && (o.Err? ==> Snap() == old(Snap()).(restaurantId := Some(rid)))
                && (o == Ok ==> Snap() == old(Snap()).(restaurantId := Some(rid), lines := lines,
                                                      totalPrice := Some(TotalOf(Views(lines)))))
      ensures o.Err? ==> Views(lines) == old(Views(lines))
      ensures o == Ok ==> Views(lines) == PutLineValues(old(Views(lines)), dishId, dish, quantity, notes)
                          && TotalInStep()
    {
      if status != CART {
        return Err(IllegalState(OnlyCartAddsDishes));
      }
      if restaurantId == None {
        restaurantId := Some(rid);
      } else if restaurantId.value != rid {
        return Err(IllegalArgument(OtherRestaurant));
      }
      if !(dish.status.Some? && IsAvailableLabel(dish.status.value)) {
        return Err(IllegalState(DishUnavailable(dish.name)));
      }
      o := PutLine(dishId, dish, quantity, notes);
    }

    /** The part of addDish after the checks: a dish already in the cart
      raises that line's quantity, and replaces its notes when notes are
      given; another dish adds a line at the end. On success the total price
      is the sum of the line totals. */
    method PutLine(dishId: DishId, dish: CatalogDish, quantity: int, notes: Option<string>)
      returns (o: Outcome)
      requires OneLinePerDish()
      modifies this, lines
      ensures OneLinePerDish()
      ensures o == PutOutcome(old(Views(lines)), dishId, dish, quantity)
      ensures Views(lines) == PutLineValues(old(Views(lines)), dishId, dish, quantity, notes)
      ensures o.Err? ==> Snap() == old(Snap())
      ensures o == Ok ==> Snap() == old(Snap()).(lines := lines, totalPrice := Some(TotalOf(Views(lines))))
    {
      ghost var before := Views(lines);
      var found := FindLine(lines, dishId);
      FindLineValues(lines, dishId);
      PutLineKeepsWellFormed(before, dishId, dish, quantity, notes);
      if found.Some? {
        o := RaiseLine(found.value, quantity, notes);
      } else {
        o := AppendLine(dishId, dish, quantity, notes);
      }
      assert Views(lines) == PutLineValues(before, dishId, dish, quantity, notes);
      if o.Err? {
        return;
      }
      RecomputeTotal();
    }

    /** Raises the quantity of line `k` by `quantity` and, when notes are
      given, replaces its notes; a non-positive quantity throws and changes
      nothing. */
    method RaiseLine(k: nat, quantity: int, notes: Option<string>) returns (o: Outcome)
      requires OneLinePerDish() && k < |lines|
      modifies lines[k]
      ensures o == (if quantity > 0 then Ok else Err(IllegalArgument(QuantityNotPositive)))
      ensures Views(lines) == if quantity <= 0 then old(Views(lines)) else RaiseAt(old(Views(lines)), k, quantity, notes)
    {
      ghost var before := Views(lines);
      var line := lines[k];
      forall i | 0 <= i < |lines|
        ensures before[i] == lines[i].View()
      {
        ViewsAt(lines, i);
      }
      forall i | 0 <= i < |lines| && i != k
        ensures lines[i] != line
      {
        assert before[i].dishId != before[k].dishId;
      }
      o := line.AddQuantity(quantity);
      if o.Err? {
        ViewsPointwise(lines, before);
        return;
      }
      if notes.Some? {
        line.notes := notes;
      }
      assert RaiseAt(before, k, quantity, notes) == before[k := line.View()];
      ViewsPointwise(lines, RaiseAt(before, k, quantity, notes));
    }

    /** Checks a new line for the dish and adds it at the end; a failed
      check throws and changes nothing. */
    method AppendLine(dishId: DishId, dish: CatalogDish, quantity: int, notes: Option<string>) returns (o: Outcome)
      modifies this
      ensures o == CheckNewLine(quantity, dish.price)
      ensures o.Err? ==> Snap() == old(Snap())
      ensures o == Ok ==>
                && |lines| == |old(lines)| + 1 && lines[..|old(lines)|] == old(lines) && fresh(lines[|old(lines)|])
                && Snap() == old(Snap()).(lines := lines)
      ensures Views(lines) ==
                if o.Err? then old(Views(lines)) else old(Views(lines)) + [LineData(dishId, dish.name, dish.price, quantity, notes)]
    {
      o := CheckNewLine(quantity, dish.price);
      if o.Err? {
        return;
      }
      var line := new OrderLine(dishId, dish.name, dish.price, quantity, notes);
      label Appending:
      lines := lines + [line];
      assert lines[..|lines| - 1] == old(lines);
      ViewsUnchanged@Appending(old(lines));
    }

    /** Sets the total price to the sum of the line totals. */
    method RecomputeTotal()
      modifies this
      ensures Snap() == old(Snap()).(totalPrice := Some(old(TotalOf(Views(lines)))))
      ensures Views(lines) == old(Views(lines)) && TotalInStep()
    {
      totalPrice := Some(TotalOf(Views(lines)));
      ViewsUnchanged(lines);
    }

    /** Records the customer's details, from the cart or again after an
      earlier call; the order must have lines. The total is recomputed. */
    method SetCustomerDetails(name: Option<string>, email: Option<string>, address: Option<DeliveryAddress>)
      returns (o: Outcome)
      modifies this
      ensures o == Ok <==> Next(old(status), ProvideDetails).Some? && lines != []
      ensures o == Ok ==> Next(old(status), ProvideDetails) == Some(status)
      ensures Next(old(status), ProvideDetails).None? ==>
                o == Err(IllegalState(DetailsAfterPaymentStage)) && Snap() == old(Snap())
      ensures Next(old(status), ProvideDetails).Some? && lines == [] ==>
                o == Err(IllegalState(DetailsOnEmptyOrder)) && Snap() == old(Snap())
      ensures o == Ok ==>
                Snap() == old(Snap()).(totalPrice := Some(old(TotalOf(Views(lines)))), customerName := name,
                                       customerEmail := email, deliveryAddress := address,
                                       status := CUSTOMER_DETAILS_PROVIDED)
    {
      if status != CART && status != CUSTOMER_DETAILS_PROVIDED {
        return Err(IllegalState(DetailsAfterPaymentStage));
      }
      if lines == [] {
        return Err(IllegalState(DetailsOnEmptyOrder));
      }
      RecomputeTotal();
      ghost var priced := Snap();
      customerName, customerEmail, deliveryAddress := name, email, address;
      status := CUSTOMER_DETAILS_PROVIDED;
      assert Snap() == priced.(customerName := name, customerEmail := email, deliveryAddress := address,
                               status := CUSTOMER_DETAILS_PROVIDED);
      o := Ok;
    }

    /** Attaches a payment to an order whose customer details are known. */
    method AssignPayment(p: Payment) returns (o: Outcome)
      modifies this
      ensures o == Ok <==> Next(old(status), StartPayment).Some? && lines != []
      ensures o == Ok ==> Next(old(status), StartPayment) == Some(status)
      ensures Next(old(status), StartPayment).None? ==>
                o == Err(IllegalState(PaymentWithoutDetails)) && Snap() == old(Snap())
      ensures Next(old(status), StartPayment).Some? && lines == [] ==>
                o == Err(IllegalState(PaymentOnEmptyOrder)) && Snap() == old(Snap())
      ensures o == Ok ==> Snap() == old(Snap()).(payment := p, status := PAYMENT_IN_PROGRESS)
    {
      if status != CUSTOMER_DETAILS_PROVIDED {
        return Err(IllegalState(PaymentWithoutDetails));
      }
      if lines == [] {
        return Err(IllegalState(PaymentOnEmptyOrder));
      }
      payment := p;
      status := PAYMENT_IN_PROGRESS;
      o := Ok;
    }

    /** Places the order once its payment is paid; `now` is the clock. The
      payment is checked first, then the status, then the lines. */
    method ConfirmPayment(now: Time) returns (o: Outcome)
      modifies this
      ensures o == Ok <==> payment != null && payment.IsPaid() && Next(old(status), Place).Some? && lines != []
      ensures o == Ok ==> Next(old(status), Place) == Some(status)
      ensures payment == null || !payment.IsPaid() ==>
                o == Err(IllegalState(PaymentNotPaid)) && Snap() == old(Snap())
      ensures payment != null && payment.IsPaid() && Next(old(status), Place).None? ==>
                o == Err(IllegalState(PlaceWithoutPayment)) && Snap() == old(Snap())
      ensures payment != null && payment.IsPaid() && Next(old(status), Place).Some? && lines == [] ==>
                o == Err(IllegalState(PlaceEmptyOrder)) && Snap() == old(Snap())
      ensures o == Ok ==> Snap() == old(Snap()).(status := PLACED, timePlaced := Some(now))
    {
      if payment == null || !payment.IsPaid() {
        return Err(IllegalState(PaymentNotPaid));
      }
      if status != PAYMENT_IN_PROGRESS {
        return Err(IllegalState(PlaceWithoutPayment));
      }
      if lines == [] {
        return Err(IllegalState(PlaceEmptyOrder));
      }
      status := PLACED;
      timePlaced := Some(now);
      o := Ok;
    }

    /** The restaurant accepts. Accepting again only fills in a missing
      reason; a rejected order cannot be accepted; otherwise the order must
      be placed. */
    method Accept(reason: Option<string>, now: Time) returns (o: Outcome)
      modifies this
      ensures o == Ok <==> Next(old(status), Step.Accept).Some?
      ensures o == Ok ==> Next(old(status), Step.Accept) == Some(status)
      ensures old(status) == ACCEPTED ==>
                Snap() == old(Snap()).(decisionReason := if old(decisionReason) == None then reason else old(decisionReason))
      ensures old(status) == REJECTED ==>
                o == Err(InvalidOrderState(AcceptRejected)) && Snap() == old(Snap())
      ensures Next(old(status), Step.Accept).None? && old(status) != REJECTED ==>
                o == Err(InvalidOrderState(AcceptNotPlaced)) && Snap() == old(Snap())
      ensures old(status) == PLACED ==>
                Snap() == old(Snap()).(status := ACCEPTED, decisionReason := reason, decisionAt := Some(now))
    {
      if status == ACCEPTED {
        if decisionReason == None && reason != None {
          decisionReason := reason;
        }
        return Ok;
      }
      if status == REJECTED {
        return Err(InvalidOrderState(AcceptRejected));
      }
      if status != PLACED {
        return Err(InvalidOrderState(AcceptNotPlaced));
      }
      status := ACCEPTED;
      decisionReason := reason;
      decisionAt := Some(now);
      o := Ok;
    }

    /** The restaurant rejects; the mirror image of Accept, except that its
      errors are IllegalStateExceptions. */
    method Reject(reason: Option<string>, now: Time) returns (o: Outcome)
      modifies this
      ensures o == Ok <==> Next(old(status), Step.Reject).Some?
      ensures o == Ok ==> Next(old(status), Step.Reject) == Some(status)
      ensures old(status) == REJECTED ==>
                Snap() == old(Snap()).(decisionReason := if old(decisionReason) == None then reason else old(decisionReason))
      ensures old(status) == ACCEPTED ==>
                o == Err(IllegalState(RejectAccepted)) && Snap() == old(Snap())
      ensures Next(old(status), Step.Reject).None? && old(status) != ACCEPTED ==>
                o == Err(IllegalState(RejectNotPlaced)) && Snap() == old(Snap())
      ensures old(status) == PLACED ==>
                Snap() == old(Snap()).(status := REJECTED, decisionReason := reason, decisionAt := Some(now))
    {
      if status == REJECTED {
        if decisionReason == None && reason != None {
          decisionReason := reason;
        }
        return Ok;
      }
      if status == ACCEPTED {
        return Err(IllegalState(RejectAccepted));
      }
      if status != PLACED {
        return Err(IllegalState(RejectNotPlaced));
      }
      status := REJECTED;
      decisionReason := reason;
      decisionAt := Some(now);
      o := Ok;
    }

    /** Accepted or rejected: exactly the states in which the restaurant's
        decision has been taken, so that accepting or rejecting once more
        leaves the status as it is. */
    function IsFinalized(): (r: bool)
      reads this
      ensures r <==> Next(status, Step.Accept) == Some(status) || Next(status, Step.Reject) == Some(status)
    {
      status == ACCEPTED || status == REJECTED
    }

    /** The kitchen is done; the decision time is overwritten with `now`. */
    method MarkAsReady(now: Time) returns (o: Outcome)
      modifies this
      ensures o == Ok <==> Next(old(status), MarkReady).Some?
      ensures o == Ok ==> Next(old(status), MarkReady) == Some(status)
                          && Snap() == old(Snap()).(status := READY, decisionAt := Some(now))
      ensures o.Err? ==> o == Err(InvalidOrderState(ReadyNotAccepted)) && Snap() == old(Snap())
    {
      if status != ACCEPTED {
        return Err(InvalidOrderState(ReadyNotAccepted));
      }
      status := READY;
      decisionAt := Some(now);
      o := Ok;
    }

    method MarkAsOutForDelivery() returns (o: Outcome)
      modifies this
      ensures o == Ok <==> Next(old(status), PickUp).Some?
      ensures o == Ok ==> Next(old(status), PickUp) == Some(status) && Snap() == old(Snap()).(status := PICKED_UP)
      ensures o.Err? ==> o == Err(InvalidOrderState(PickUpNotReady)) && Snap() == old(Snap())
    {
      if status != READY {
        return Err(InvalidOrderState(PickUpNotReady));
      }
      status := PICKED_UP;
      o := Ok;
    }

    method MarkAsDelivered() returns (o: Outcome)
      modifies this
      ensures o == Ok <==> Next(old(status), Deliver).Some?
      ensures o == Ok ==> Next(old(status), Deliver) == Some(status) && Snap() == old(Snap()).(status := DELIVERED)
      ensures o.Err? ==> o == Err(InvalidOrderState(DeliverNotPickedUp)) && Snap() == old(Snap())
    {
      if status != PICKED_UP {
        return Err(InvalidOrderState(DeliverNotPickedUp));
      }
      status := DELIVERED;
      o := Ok;
    }
  }
}
