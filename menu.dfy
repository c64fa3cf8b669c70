/** A restaurant's menu: a list of dishes of which at most ten may be
    available (active) at once. Each operation is specified on the values
    of its dishes (module Dishes) and proved to keep the cap. */
module Menus {
  import opened Common
  import opened Dishes
  import PriceTiers

  const MaxActiveDishes := 10

  const AddCapReached := "Menu can have at most 10 active dishes"
  const PromoteCapReached := "Cannot promote more dishes: max active dishes reached"
  const PublishCapReached := "Cannot publish all concept dishes. Maximum of 10 available dishes allowed."
  const ActivateCapReached := "Cannot activate dish: max active dishes reached"
  /** The message starts so; the dish id that follows it is not modelled. */
  const DishNotFound := "Dish not found: "

  // ---------------------------------------------------------------------
  // The menu as values.

  function StatusOf(x: DishData): DishStatus
  {
    x.details.status
  }

  /** The dishes whose status is `s` (want) or is not `s` (!want), in
      order: the stream filters of the menu. */
  function Select(vs: seq<DishData>, s: DishStatus, want: bool): seq<DishData>
  {
    if vs == [] then []
    else (if (StatusOf(vs[0]) == s) == want then [vs[0]] else []) + Select(vs[1..], s, want)
  }

  /** The number of dishes with status `s`. */
  function Count(vs: seq<DishData>, s: DishStatus): nat
  {
    |Select(vs, s, true)|
  }

  function ActiveCount(vs: seq<DishData>): nat
  {
    Count(vs, AVAILABLE)
  }

  function Indicator(x: DishData, s: DishStatus): nat
  {
    if StatusOf(x) == s then 1 else 0
  }

  /** Only dishes of the wanted kind are selected, and every one of them
      is. */
  lemma {:induction false} SelectSpec(vs: seq<DishData>, s: DishStatus, want: bool)
    ensures forall x :: x in Select(vs, s, want) <==> x in vs && (StatusOf(x) == s) == want
  {
    if vs != [] {
      SelectSpec(vs[1..], s, want);
      assert vs == [vs[0]] + vs[1..];
    }
  }

  /** A status filter and its complement split the menu: the concept and
      the non-concept dishes together are all dishes, and active and
      concept dishes are disjoint. */
  lemma {:induction false} SelectPartition(vs: seq<DishData>, s: DishStatus)
    ensures multiset(Select(vs, s, true)) + multiset(Select(vs, s, false)) == multiset(vs)
    ensures |Select(vs, s, true)| + |Select(vs, s, false)| == |vs|
  {
    if vs != [] {
      SelectPartition(vs[1..], s);
      assert vs == [vs[0]] + vs[1..];
    }
  }

  lemma ActiveAndConceptDisjoint(vs: seq<DishData>)
    ensures forall x :: x in Select(vs, AVAILABLE, true) ==> x !in Select(vs, CONCEPT, true)
  {
    SelectSpec(vs, AVAILABLE, true);
    SelectSpec(vs, CONCEPT, true);
  }

  lemma {:induction false} CountConcat(a: seq<DishData>, b: seq<DishData>, s: DishStatus)
    ensures Count(a + b, s) == Count(a, s) + Count(b, s)
  {
    if a != [] {
      CountConcat(a[1..], b, s);
      assert (a + b)[0] == a[0];
      assert (a + b)[1..] == a[1..] + b;
      assert Select(a + b, s, true) == Select([a[0]], s, true) + Select(a[1..] + b, s, true);
    } else {
      assert a + b == b;
    }
  }

  lemma CountSingle(x: DishData, s: DishStatus)
    ensures Count([x], s) == Indicator(x, s)
  {
    assert [x][1..] == [];
    assert Select([x], s, true) == (if StatusOf(x) == s then [x] else []) + Select([], s, true);
  }

  /** Replacing one dish changes each count by the difference of the two
      dishes. */
  lemma CountUpdate(vs: seq<DishData>, k: nat, v: DishData, s: DishStatus)
    requires k < |vs|
    ensures Count(vs[k := v], s) + Indicator(vs[k], s) == Count(vs, s) + Indicator(v, s)
  {
    assert vs == vs[..k] + [vs[k]] + vs[k + 1..];
    assert vs[k := v] == vs[..k] + [v] + vs[k + 1..];
    CountConcat(vs[..k] + [vs[k]], vs[k + 1..], s);
    CountConcat(vs[..k], [vs[k]], s);
    CountConcat(vs[..k] + [v], vs[k + 1..], s);
    CountConcat(vs[..k], [v], s);
    CountSingle(vs[k], s);
    CountSingle(v, s);
  }

  /** The dish at `k` taken out and `u` put at the end: what updateDish
      leaves. */
  function MoveToEnd(vs: seq<DishData>, k: nat, u: DishData): seq<DishData>
    requires k < |vs|
  {
    vs[..k] + vs[k + 1..] + [u]
  }

  /** Moving a dish from its place to the end, possibly replaced, changes
      each count by the difference of the two dishes. */
  lemma CountMoveToEnd(vs: seq<DishData>, k: nat, v: DishData, s: DishStatus)
    requires k < |vs|
    ensures Count(MoveToEnd(vs, k, v), s) + Indicator(vs[k], s) == Count(vs, s) + Indicator(v, s)
  {
    assert vs == vs[..k] + [vs[k]] + vs[k + 1..];
    CountConcat(vs[..k] + [vs[k]], vs[k + 1..], s);
    CountConcat(vs[..k], [vs[k]], s);
    CountConcat(vs[..k] + vs[k + 1..], [v], s);
    CountConcat(vs[..k], vs[k + 1..], s);
    CountSingle(vs[k], s);
    CountSingle(v, s);
  }

  /** The index of the first dish with the id (findFirst). */
  function FindIndex(vs: seq<DishData>, id: DishId): (r: Option<nat>)
    ensures r.None? <==> forall i :: 0 <= i < |vs| ==> vs[i].id != id
    ensures r.Some? ==> r.value < |vs| && vs[r.value].id == id && forall i :: 0 <= i < r.value ==> vs[i].id != id
  {
    if vs == [] then None
    else if vs[0].id == id then Some(0)
    else match FindIndex(vs[1..], id)
      case None => None
      case Some(k) => Some(k + 1)
  }

  /** Replacing the first dish with an id by one with the same id keeps it
      first. */
  lemma FindIndexUpdate(vs: seq<DishData>, k: nat, v: DishData)
    requires k < |vs| && FindIndex(vs, v.id) == Some(k)
    ensures FindIndex(vs[k := v], v.id) == Some(k)
  {
    var ws := vs[k := v];
    assert ws[k].id == v.id;
    assert forall i :: 0 <= i < k ==> ws[i].id != v.id by {
      forall i | 0 <= i < k
        ensures ws[i].id != v.id
      {
        assert ws[i] == vs[i];
      }
    }
  }

  function WithStatus(x: DishData, s: DishStatus): DishData
  {
    x.(details := x.details.(status := s))
  }

  // ---------------------------------------------------------------------
  // The operations on values.

  /** What an operation does: how it ends and the dishes it leaves. */
  datatype Effect = Effect(outcome: Outcome, values: seq<DishData>)

  /** addDish: an available dish is refused once ten are active; any other
      dish is always added. */
  function AddValue(vs: seq<DishData>, x: DishData): Effect
  {
    if StatusOf(x) == AVAILABLE && ActiveCount(vs) >= MaxActiveDishes then Effect(Err(IllegalState(AddCapReached)), vs)
    else Effect(Ok, vs + [x])
  }

  lemma AddValueKeepsCap(vs: seq<DishData>, x: DishData)
    requires ActiveCount(vs) <= MaxActiveDishes
    ensures ActiveCount(AddValue(vs, x).values) <= MaxActiveDishes
    ensures StatusOf(x) != AVAILABLE ==> AddValue(vs, x) == Effect(Ok, vs + [x])
  {
    CountConcat(vs, [x], AVAILABLE);
    CountSingle(x, AVAILABLE);
  }

  /** removeIf on the id. */
  function RemoveValues(vs: seq<DishData>, id: DishId): seq<DishData>
  {
    if vs == [] then []
    else (if vs[0].id == id then [] else [vs[0]]) + RemoveValues(vs[1..], id)
  }

  /** Removing keeps exactly the dishes with other ids, and never adds an
      active dish. */
  lemma {:induction false} RemoveValuesSpec(vs: seq<DishData>, id: DishId)
    ensures forall x :: x in RemoveValues(vs, id) <==> x in vs && x.id != id
    ensures RemoveValues(vs, id) == vs <==> forall i :: 0 <= i < |vs| ==> vs[i].id != id
    ensures ActiveCount(RemoveValues(vs, id)) <= ActiveCount(vs)
  {
    if vs != [] {
      RemoveValuesSpec(vs[1..], id);
      assert vs == [vs[0]] + vs[1..];
      CountConcat([vs[0]], vs[1..], AVAILABLE);
      var head := if vs[0].id == id then [] else [vs[0]];
      CountConcat(head, RemoveValues(vs[1..], id), AVAILABLE);
      if vs[0].id == id {
        assert |RemoveValues(vs, id)| < |vs| by { RemoveValuesShorter(vs[1..], id); }
      } else {
        assert RemoveValues(vs, id)[1..] == RemoveValues(vs[1..], id);
      }
    }
  }

  lemma {:induction false} RemoveValuesShorter(vs: seq<DishData>, id: DishId)
    ensures |RemoveValues(vs, id)| <= |vs|
  {
    if vs != [] {
      RemoveValuesShorter(vs[1..], id);
    }
  }

  /** removeDish: every dish with the id goes; an unknown id throws. */
  function RemoveValue(vs: seq<DishData>, id: DishId): Effect
  {
    if FindIndex(vs, id).None? then Effect(Err(NoSuchElement(DishNotFound)), vs)
    else Effect(Ok, RemoveValues(vs, id))
  }

  /** One id of promoteConceptsToActive (promote) or demoteActiveToConcepts
      (!promote): an unknown id throws; a dish of the other kind is
      skipped; promoting throws once ten dishes are active. */
  function SwitchOne(vs: seq<DishData>, id: DishId, promote: bool): Result<seq<DishData>>
  {
    var f := FindIndex(vs, id);
    if f.None? then Fail(NoSuchElement(DishNotFound))
    else if promote then
      if StatusOf(vs[f.value]) != CONCEPT then Success(vs)
      else if ActiveCount(vs) >= MaxActiveDishes then Fail(IllegalState(PromoteCapReached))
      else Success(vs[f.value := WithStatus(vs[f.value], AVAILABLE)])
    else
      if StatusOf(vs[f.value]) != AVAILABLE then Success(vs)
      else Success(vs[f.value := WithStatus(vs[f.value], CONCEPT)])
  }

  /** The ids handled in order; the first failure ends the loop and the
      dishes switched before it stay switched. */
  function SwitchAll(vs: seq<DishData>, ids: seq<DishId>, promote: bool): Effect
    decreases ids
  {
    if ids == [] then Effect(Ok, vs)
    else
      var r := SwitchOne(vs, ids[0], promote);
      if r.Fail? then Effect(Err(r.failure), vs) else SwitchAll(r.value, ids[1..], promote)
  }

  lemma SwitchOneKeepsCap(vs: seq<DishData>, id: DishId, promote: bool)
    requires ActiveCount(vs) <= MaxActiveDishes
    ensures SwitchOne(vs, id, promote).Success? ==> ActiveCount(SwitchOne(vs, id, promote).value) <= MaxActiveDishes
  {
    var f := FindIndex(vs, id);
    if f.Some? {
      var k := f.value;
      CountUpdate(vs, k, WithStatus(vs[k], AVAILABLE), AVAILABLE);
      CountUpdate(vs, k, WithStatus(vs[k], CONCEPT), AVAILABLE);
    }
  }

  /** Neither loop ever leaves more than ten dishes active. */
  lemma {:induction false} SwitchAllKeepsCap(vs: seq<DishData>, ids: seq<DishId>, promote: bool)
    requires ActiveCount(vs) <= MaxActiveDishes
    ensures ActiveCount(SwitchAll(vs, ids, promote).values) <= MaxActiveDishes
    decreases ids
  {
    if ids != [] {
      SwitchOneKeepsCap(vs, ids[0], promote);
      var r := SwitchOne(vs, ids[0], promote);
      if r.Success? {
        SwitchAllKeepsCap(r.value, ids[1..], promote);
      }
    }
  }

  /** An id that is not on the menu ends the loop with NoSuchElement. */
  lemma UnknownIdThrows(vs: seq<DishData>, id: DishId, rest: seq<DishId>, promote: bool)
    requires forall i :: 0 <= i < |vs| ==> vs[i].id != id
    ensures SwitchAll(vs, [id] + rest, promote) == Effect(Err(NoSuchElement(DishNotFound)), vs)
  {
    assert ([id] + rest)[0] == id;
  }

  /** Promoting a concept dish with ten dishes active throws; a dish that
      is not a concept is skipped. */
  lemma PromoteRules(vs: seq<DishData>, k: nat)
    requires k < |vs| && FindIndex(vs, vs[k].id) == Some(k)
    ensures StatusOf(vs[k]) == CONCEPT && ActiveCount(vs) >= MaxActiveDishes ==>
              SwitchOne(vs, vs[k].id, true) == Fail(IllegalState(PromoteCapReached))
    ensures StatusOf(vs[k]) != CONCEPT ==> SwitchOne(vs, vs[k].id, true) == Success(vs)
  {
  }

  /** Every concept dish becomes available, nothing else changes. */
  function Published(vs: seq<DishData>): (ws: seq<DishData>)
    ensures |ws| == |vs|
  {
    seq(|vs|, i requires 0 <= i < |vs| => if StatusOf(vs[i]) == CONCEPT then WithStatus(vs[i], AVAILABLE) else vs[i])
  }

  /** publishAllConceptDishes: all or nothing, refused when the concept
      dishes would take the active ones over ten. */
  function PublishValues(vs: seq<DishData>): Effect
  {
    if ActiveCount(vs) + Count(vs, CONCEPT) > MaxActiveDishes then Effect(Err(IllegalState(PublishCapReached)), vs)
    else Effect(Ok, Published(vs))
  }

  /** After publishing no concept dish remains, the active dishes are the
      old active plus the old concept ones, and so at most ten. */
  lemma {:induction false} PublishedCounts(vs: seq<DishData>)
    ensures Count(Published(vs), CONCEPT) == 0
    ensures ActiveCount(Published(vs)) == ActiveCount(vs) + Count(vs, CONCEPT)
  {
    if vs != [] {
      var n := |vs| - 1;
      PublishedCounts(vs[..n]);
      assert Published(vs) == Published(vs[..n]) + [Published(vs)[n]];
      assert vs == vs[..n] + [vs[n]];
      CountConcat(Published(vs[..n]), [Published(vs)[n]], CONCEPT);
      CountConcat(Published(vs[..n]), [Published(vs)[n]], AVAILABLE);
      CountConcat(vs[..n], [vs[n]], CONCEPT);
      CountConcat(vs[..n], [vs[n]], AVAILABLE);
      CountSingle(Published(vs)[n], CONCEPT);
      CountSingle(Published(vs)[n], AVAILABLE);
      CountSingle(vs[n], CONCEPT);
      CountSingle(vs[n], AVAILABLE);
    }
  }

  lemma PublishKeepsCap(vs: seq<DishData>)
    requires ActiveCount(vs) <= MaxActiveDishes
    ensures ActiveCount(PublishValues(vs).values) <= MaxActiveDishes
    ensures PublishValues(vs).outcome == Ok ==> Count(PublishValues(vs).values, CONCEPT) == 0
  {
    PublishedCounts(vs);
  }

  /** updateDish: the dish with the same id is taken out and the new one
      appended; it throws when the id is unknown, or when the dish would
      become active with ten active already. */
  function UpdateValue(vs: seq<DishData>, u: DishData): Effect
  {
    var f := FindIndex(vs, u.id);
    if f.None? then Effect(Err(NoSuchElement(DishNotFound)), vs)
    else
      var becomingActive := StatusOf(u) == AVAILABLE && StatusOf(vs[f.value]) != AVAILABLE;
      if becomingActive && ActiveCount(vs) >= MaxActiveDishes then Effect(Err(IllegalState(ActivateCapReached)), vs)
      else Effect(Ok, MoveToEnd(vs, f.value, u))
  }

  /** Handing updateDish the dish already listed never trips the cap: it
      only moves the dish to the end. */
  lemma UpdateWithItself(vs: seq<DishData>, k: nat)
    requires k < |vs| && FindIndex(vs, vs[k].id) == Some(k)
    ensures UpdateValue(vs, vs[k]) == Effect(Ok, MoveToEnd(vs, k, vs[k]))
  {
  }

  lemma UpdateValueKeepsCap(vs: seq<DishData>, u: DishData)
    requires ActiveCount(vs) <= MaxActiveDishes
    ensures ActiveCount(UpdateValue(vs, u).values) <= MaxActiveDishes
  {
    var f := FindIndex(vs, u.id);
    if f.Some? {
      CountMoveToEnd(vs, f.value, u, AVAILABLE);
    }
  }

  /** The sum of the prices. */
  function SumPrices(vs: seq<DishData>): real
  {
    if vs == [] then 0.0 else SumPrices(vs[..|vs| - 1]) + vs[|vs| - 1].details.price
  }

  /** The average price of the active dishes, 0 when there are none. */
  function AveragePrice(vs: seq<DishData>): real
  {
    var active := Select(vs, AVAILABLE, true);
    if |active| == 0 then 0.0 else SumPrices(active) / |active| as real
  }

  lemma {:induction false} SumBounds(vs: seq<DishData>, lo: real, hi: real)
    requires forall i :: 0 <= i < |vs| ==> lo <= vs[i].details.price <= hi
    ensures Times(lo, |vs|) <= SumPrices(vs) <= Times(hi, |vs|)
  {
    if vs != [] {
      SumBounds(vs[..|vs| - 1], lo, hi);
    }
  }

  /** The average lies between the lowest and the highest active price. */
  lemma AverageWithin(vs: seq<DishData>, lo: real, hi: real)
    requires forall x :: x in vs && StatusOf(x) == AVAILABLE ==> lo <= x.details.price <= hi
    ensures ActiveCount(vs) == 0 ==> AveragePrice(vs) == 0.0
    ensures ActiveCount(vs) > 0 ==> lo <= AveragePrice(vs) <= hi
  {
    var active := Select(vs, AVAILABLE, true);
    if |active| > 0 {
      forall i | 0 <= i < |active|
        ensures lo <= active[i].details.price <= hi
      {
        SelectSpec(vs, AVAILABLE, true);
        assert active[i] in active;
      }
      MeanWithin(active, lo, hi);
    }
  }

  lemma MeanWithin(xs: seq<DishData>, lo: real, hi: real)
    requires |xs| > 0 && forall i :: 0 <= i < |xs| ==> lo <= xs[i].details.price <= hi
    ensures lo <= SumPrices(xs) / |xs| as real <= hi
  {
    SumBounds(xs, lo, hi);
    TimesIsProduct(lo, |xs|);
    TimesIsProduct(hi, |xs|);
    DivisionWithin(SumPrices(xs), |xs| as real, lo, hi);
  }

  /** Positions of a cheapest and a dearest dish of a non-empty list. */
  lemma {:induction false} Extremes(xs: seq<DishData>) returns (i: nat, j: nat)
    requires |xs| > 0
    ensures i < |xs| && j < |xs|
    ensures forall k :: 0 <= k < |xs| ==> xs[i].details.price <= xs[k].details.price <= xs[j].details.price
    decreases |xs|
  {
    if |xs| == 1 {
      i, j := 0, 0;
    } else {
      var i', j' := Extremes(xs[1..]);
      i := if xs[0].details.price <= xs[i' + 1].details.price then 0 else i' + 1;
      j := if xs[0].details.price >= xs[j' + 1].details.price then 0 else j' + 1;
      forall k | 0 <= k < |xs|
        ensures xs[i].details.price <= xs[k].details.price <= xs[j].details.price
      {
        if k > 0 {
          assert xs[k] == xs[1..][k - 1];
        }
      }
    }
  }

  /** With dishes on sale, the average lies between the price of one of
      them and the price of another. */
  lemma AverageBetween(vs: seq<DishData>)
    ensures ActiveCount(vs) > 0 ==>
              exists x, y :: x in Select(vs, AVAILABLE, true) && y in Select(vs, AVAILABLE, true)
                             && x.details.price <= AveragePrice(vs) <= y.details.price
  {
    var active := Select(vs, AVAILABLE, true);
    if |active| > 0 {
      var i, j := Extremes(active);
      MeanWithin(active, active[i].details.price, active[j].details.price);
      assert active[i] in active && active[j] in active;
    }
  }

  lemma DivisionWithin(sum: real, n: real, lo: real, hi: real)
    requires n > 0.0 && lo * n <= sum <= hi * n
    ensures lo <= sum / n <= hi
  {
    assert sum / n - lo == (sum - lo * n) / n;
    assert hi - sum / n == (hi * n - sum) / n;
  }

  /** The price indicator of the menu: the symbol of the tier of the
      average price of the active dishes. */
  function PriceIndicator(vs: seq<DishData>): string
  {
    PriceTiers.Symbol(PriceTiers.From(AveragePrice(vs)))
  }

  /** A menu without active dishes averages 0 and so shows the cheapest
      symbol. */
  lemma NoActiveIsCheap(vs: seq<DishData>)
    requires ActiveCount(vs) == 0
    ensures PriceIndicator(vs) == "€"
  {
    PriceTiers.SymbolBands(0.0);
  }

  predicate WithinCap(vs: seq<DishData>)
  {
    ActiveCount(vs) <= MaxActiveDishes
  }

  // ---------------------------------------------------------------------
  // The menu as a list of dish objects.

  /** The values of a list of dishes. */
  function Views(ds: seq<Dish>): (vs: seq<DishData>)
    reads ds
    ensures |vs| == |ds|
  {
    if ds == [] then [] else Views(ds[..|ds| - 1]) + [ds[|ds| - 1].View()]
  }

  lemma ViewsAt(ds: seq<Dish>, i: nat)
    requires i < |ds|
    ensures Views(ds)[i] == ds[i].View()
  {
    if i < |ds| - 1 {
      ViewsAt(ds[..|ds| - 1], i);
    }
  }

  lemma ViewsAllAt(ds: seq<Dish>)
    ensures forall i :: 0 <= i < |ds| ==> Views(ds)[i] == ds[i].View()
  {
    forall i | 0 <= i < |ds|
      ensures Views(ds)[i] == ds[i].View()
    {
      ViewsAt(ds, i);
    }
  }

  lemma ViewsPointwise(ds: seq<Dish>, vs: seq<DishData>)
    requires |vs| == |ds|
    requires forall i :: 0 <= i < |ds| ==> vs[i] == ds[i].View()
    ensures Views(ds) == vs
  {
    ViewsAllAt(ds);
  }

  /** removeIf on the id, over the objects (the id of a dish never
      changes). */
  function RemoveDishes(ds: seq<Dish>, id: DishId): seq<Dish>
  {
    if ds == [] then [] else (if ds[0].id == id then [] else [ds[0]]) + RemoveDishes(ds[1..], id)
  }

  lemma {:induction false} ViewsConcat(a: seq<Dish>, b: seq<Dish>)
    ensures Views(a + b) == Views(a) + Views(b)
  {
    ViewsAllAt(a);
    ViewsAllAt(b);
    ViewsPointwise(a + b, Views(a) + Views(b));
  }

  lemma {:induction false} ViewsOfRemove(ds: seq<Dish>, id: DishId)
    ensures Views(RemoveDishes(ds, id)) == RemoveValues(Views(ds), id)
  {
    if ds != [] {
      ViewsOfRemove(ds[1..], id);
      var head := if ds[0].id == id then [] else [ds[0]];
      ViewsConcat(head, RemoveDishes(ds[1..], id));
      ViewsConcat([ds[0]], ds[1..]);
      assert ds == [ds[0]] + ds[1..];
      assert Views([ds[0]]) == [ds[0].View()];
      assert Views(ds)[0] == ds[0].View() && Views(ds)[1..] == Views(ds[1..]);
    }
  }

  ghost predicate Unaliased(ds: seq<Dish>)
  {
    forall i, j :: 0 <= i < j < |ds| ==> ds[i] != ds[j]
  }

  /** Moving a dish to the end keeps the list free of aliases. */
  lemma MoveToEndUnaliased(ds: seq<Dish>, k: nat)
    requires k < |ds| && Unaliased(ds)
    ensures Unaliased(ds[..k] + ds[k + 1..] + [ds[k]])
  {
    var es := ds[..k] + ds[k + 1..] + [ds[k]];
    forall i, j | 0 <= i < j < |es|
      ensures es[i] != es[j]
    {
      var a := if i < k then i else if i < |ds| - 1 then i + 1 else k;
      var b := if j < k then j else if j < |ds| - 1 then j + 1 else k;
      assert es[i] == ds[a] && es[j] == ds[b] && a != b;
    }
  }

  class Menu {
    var dishes: seq<Dish>

    /** No dish object is listed twice. */
    ghost predicate Distinct()
      reads this
    {
      Unaliased(dishes)
    }

    function Values(): seq<DishData>
      reads this, dishes
    {
      Views(dishes)
    }

    constructor ()
      ensures dishes == []
    {
      dishes := [];
    }

    constructor Reconstruct(ds: seq<Dish>)
      ensures dishes == ds
    {
      dishes := ds;
    }

    method AddDish(d: Dish) returns (o: Outcome)
      modifies this
      ensures Effect(o, Values()) == AddValue(old(Values()), d.View())
      ensures dishes == if o == Ok then old(dishes) + [d] else old(dishes)
      ensures old(WithinCap(Values())) ==> WithinCap(Values())
    {
      if d.status == AVAILABLE && ActiveCount(Values()) >= MaxActiveDishes {
        return Err(IllegalState(AddCapReached));
      }
      ghost var before := Values();
      dishes := dishes + [d];
      assert dishes[..|dishes| - 1] == old(dishes);
      o := Ok;
      if WithinCap(before) {
        AddValueKeepsCap(before, d.View());
      }
    }

    method RemoveDish(id: DishId) returns (o: Outcome)
      modifies this
      ensures Effect(o, Values()) == RemoveValue(old(Values()), id)
      ensures dishes == if o == Ok then RemoveDishes(old(dishes), id) else old(dishes)
      ensures old(WithinCap(Values())) ==> WithinCap(Values())
    {
      if FindIndex(Values(), id).None? {
        return Err(NoSuchElement(DishNotFound));
      }
      ghost var before := Values();
      ViewsOfRemove(dishes, id);
      RemoveValuesSpec(before, id);
      dishes := RemoveDishes(dishes, id);
      o := Ok;
    }

    /** promoteConceptsToActive: promotes the listed concept dishes one by
      one; a failure leaves the earlier ones promoted. */
    method PromoteConceptsToActive(ids: seq<DishId>) returns (o: Outcome)
      requires Distinct()
      modifies dishes
      ensures Effect(o, Values()) == SwitchAll(old(Values()), ids, true)
      ensures old(WithinCap(Values())) ==> WithinCap(Values())
    {
      ghost var start := Values();
      if WithinCap(start) {
        SwitchAllKeepsCap(start, ids, true);
      }
      var i := 0;
      while i < |ids|
        invariant 0 <= i <= |ids|
        invariant SwitchAll(Values(), ids[i..], true) == SwitchAll(start, ids, true)
      {
        assert ids[i..][0] == ids[i] && ids[i..][1..] == ids[i + 1..];
        o := SwitchDish(ids[i], true);
        if o != Ok {
          return;
        }
        i := i + 1;
      }
      o := Ok;
    }

    /** demoteActiveToConcepts: demotes the listed available dishes one by
      one; an unknown id stops the loop. */
    method DemoteActiveToConcepts(ids: seq<DishId>) returns (o: Outcome)
      requires Distinct()
      modifies dishes
      ensures Effect(o, Values()) == SwitchAll(old(Values()), ids, false)
      ensures old(WithinCap(Values())) ==> WithinCap(Values())
    {
      ghost var start := Values();
      if WithinCap(start) {
        SwitchAllKeepsCap(start, ids, false);
      }
      var i := 0;
      while i < |ids|
        invariant 0 <= i <= |ids|
        invariant SwitchAll(Values(), ids[i..], false) == SwitchAll(start, ids, false)
      {
        assert ids[i..][0] == ids[i] && ids[i..][1..] == ids[i + 1..];
        o := SwitchDish(ids[i], false);
        if o != Ok {
          return;
        }
        i := i + 1;
      }
      o := Ok;
    }

    /** One turn of either loop: the dish with the id is looked up and,
      when its status allows, promoted (within the cap) or demoted. */
    method SwitchDish(id: DishId, promote: bool) returns (o: Outcome)
      requires Distinct()
      modifies dishes
      ensures var r := SwitchOne(old(Values()), id, promote);
              (r.Fail? ==> o == Err(r.failure) && Values() == old(Values()))
              && (r.Success? ==> o == Ok && Values() == r.value)
    {
      var f := FindIndex(Values(), id);
      if f.None? {
        return Err(NoSuchElement(DishNotFound));
      }
      var d := dishes[f.value];
      ViewsAllAt(dishes);
      ghost var prior := Values();
      if promote && d.status == CONCEPT {
        if ActiveCount(Values()) >= MaxActiveDishes {
          return Err(IllegalState(PromoteCapReached));
        }
        var _ := d.PromoteToAvailable();
        ViewsPointwise(dishes, prior[f.value := d.View()]);
      } else if !promote && d.status == AVAILABLE {
        var _ := d.DemoteToConcept();
        ViewsPointwise(dishes, prior[f.value := d.View()]);
      }
      o := Ok;
    }

    /** publishAllConceptDishes: promotes every concept dish, or none when
      that would exceed the cap. */
    method PublishAllConceptDishes() returns (o: Outcome)
      requires Distinct()
      modifies dishes
      ensures Effect(o, Values()) == PublishValues(old(Values()))
      ensures old(WithinCap(Values())) ==> WithinCap(Values())
    {
      ghost var start := Values();
      if WithinCap(start) {
        PublishKeepsCap(start);
      }
      if ActiveCount(Values()) + Count(Values(), CONCEPT) > MaxActiveDishes {
        return Err(IllegalState(PublishCapReached));
      }
      ViewsAllAt(dishes);
      for k := 0 to |dishes|
        invariant forall j :: 0 <= j < |dishes| ==> dishes[j].View() == (if j < k then Published(start)[j] else start[j])
      {
        var d := dishes[k];
        if d.status == CONCEPT {
          var _ := d.PromoteToAvailable();
        }
      }
      ViewsPointwise(dishes, Published(start));
      o := Ok;
    }

    /** updateDish: replaces the dish with the same id by the given one,
      which goes to the end of the list. */
    method UpdateDish(updated: Dish) returns (o: Outcome)
      modifies this
      ensures Effect(o, Values()) == UpdateValue(old(Values()), updated.View())
      ensures o == Ok ==> FindIndex(old(Values()), updated.id).Some?
      ensures o == Ok ==> var k := FindIndex(old(Values()), updated.id).value;
                dishes == old(dishes[..k] + dishes[k + 1..]) + [updated]
      ensures o.Err? ==> dishes == old(dishes)
      ensures old(WithinCap(Values())) ==> WithinCap(Values())
    {
      ghost var start := Values();
      if WithinCap(start) {
        UpdateValueKeepsCap(start, updated.View());
      }
      var f := FindIndex(Values(), updated.id);
      if f.None? {
        return Err(NoSuchElement(DishNotFound));
      }
      var k := f.value;
      var existing := dishes[k];
      ViewsAllAt(dishes);
      var becomingActive := updated.status == AVAILABLE && existing.status != AVAILABLE;
      if becomingActive && ActiveCount(Values()) >= MaxActiveDishes {
        return Err(IllegalState(ActivateCapReached));
      }
      dishes := dishes[..k] + dishes[k + 1..] + [updated];
      ViewsPointwise(dishes, MoveToEnd(start, k, updated.View()));
      o := Ok;
    }

    /** The dishes on sale. */
    function ActiveDishes(): (r: seq<DishData>)
      reads this, dishes
      ensures forall x :: x in r <==> x in Values() && StatusOf(x) == AVAILABLE
      ensures |r| == ActiveCount(Values())
    {
      SelectSpec(Values(), AVAILABLE, true);
      Select(Values(), AVAILABLE, true)
    }

    /** The dishes still being worked on. */
    function ConceptDishes(): (r: seq<DishData>)
      reads this, dishes
      ensures forall x :: x in r <==> x in Values() && StatusOf(x) == CONCEPT
      ensures |r| == Count(Values(), CONCEPT)
    {
      SelectSpec(Values(), CONCEPT, true);
      Select(Values(), CONCEPT, true)
    }

    /** Every dish that is not a concept; with the concept dishes it makes
        up the whole menu. */
    function NonConceptDishes(): (r: seq<DishData>)
      reads this, dishes
      ensures forall x :: x in r <==> x in Values() && StatusOf(x) != CONCEPT
      ensures multiset(r) + multiset(ConceptDishes()) == multiset(Values())
    {
      SelectSpec(Values(), CONCEPT, false);
      SelectPartition(Values(), CONCEPT);
      Select(Values(), CONCEPT, false)
    }

    /** The average price of the dishes on sale: 0 without any, otherwise
        between the cheapest and the dearest of them. */
    function CalculateAveragePrice(): (r: real)
      reads this, dishes
      ensures ActiveCount(Values()) == 0 ==> r == 0.0
      ensures ActiveCount(Values()) > 0 ==>
                exists x, y :: x in ActiveDishes() && y in ActiveDishes() && x.details.price <= r <= y.details.price
    {
      AverageBetween(Values());
      AveragePrice(Values())
    }

    /** The symbol of the price tier of the average price; "€" without
        dishes on sale. */
    function GetPriceIndicator(): (r: string)
      reads this, dishes
      ensures r == PriceTiers.Symbol(PriceTiers.From(CalculateAveragePrice()))
      ensures ActiveCount(Values()) == 0 ==> r == "€"
    {
      if ActiveCount(Values()) == 0 then
        NoActiveIsCheap(Values());
        PriceIndicator(Values())
      else
        PriceIndicator(Values())
    }
  }
}
