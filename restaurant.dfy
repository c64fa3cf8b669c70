/** A restaurant: its menu, its opening hours and a manual override of
    them. Changing a dish goes through the menu so that the cap on active
    dishes holds; the source's changeDish and changeDishStatus do not
    keep it, and both are modelled as written and corrected. */
module Restaurants {
  import opened Common
  import opened Addresses
  import opened Dishes
  import opened Menus
  import opened Opening

  const OwnerRequired := "Restaurant must be created by an owner"

  /** What changeDish (new details) or changeDishStatus (new status) does
      to the dish itself. */
  datatype Edit = SetDetails(details: Details) | SetStatus(target: DishStatus)

  /** The dish after the edit, or the failure of changeStatus. */
  function Edited(x: DishData, e: Edit): Result<DishData>
  {
    match e
    case SetDetails(det) => Success(x.(details := det))
    case SetStatus(t) =>
      var c := StatusChange(StatusOf(x), t);
      if c.Err? then Fail(c.failure) else Success(WithStatus(x, t))
  }

  /** The status the edit asks for. */
  function TargetStatus(x: DishData, e: Edit): DishStatus
  {
    match e
    case SetDetails(det) => det.status
    case SetStatus(t) => t
  }

  lemma EditedStatus(x: DishData, e: Edit)
    ensures Edited(x, e).Success? ==> Edited(x, e).value.id == x.id && StatusOf(Edited(x, e).value) == TargetStatus(x, e)
  {
  }

  /** As written: getDish (IllegalArgument when unknown), the edit of the
      dish object that is on the menu, then updateDish with that same
      object, whose cap test compares the dish with itself. */
  function ChangeAsWritten(vs: seq<DishData>, id: DishId, e: Edit): Effect
  {
    var f := FindIndex(vs, id);
    if f.None? then Effect(Err(IllegalArgument(DishNotFound)), vs)
    else
      var r := Edited(vs[f.value], e);
      if r.Fail? then Effect(Err(r.failure), vs)
      else UpdateValue(vs[f.value := r.value], r.value)
  }

  /** Corrected: a dish that would become active is refused when ten are
      active, before anything changes. */
  function ChangeChecked(vs: seq<DishData>, id: DishId, e: Edit): Effect
  {
    var f := FindIndex(vs, id);
    if f.None? then Effect(Err(IllegalArgument(DishNotFound)), vs)
    else if TargetStatus(vs[f.value], e) == AVAILABLE && StatusOf(vs[f.value]) != AVAILABLE
            && ActiveCount(vs) >= MaxActiveDishes then
      Effect(Err(IllegalState(ActivateCapReached)), vs)
    else ChangeAsWritten(vs, id, e)
  }

  /** On a menu at the cap, any edit that succeeds in making an inactive
      dish available gets through and leaves eleven dishes active. */
  lemma AsWrittenBreaksCapAt(vs: seq<DishData>, k: nat, e: Edit)
    requires k < |vs| && FindIndex(vs, vs[k].id) == Some(k)
    requires ActiveCount(vs) == MaxActiveDishes && StatusOf(vs[k]) != AVAILABLE
    requires Edited(vs[k], e).Success? && TargetStatus(vs[k], e) == AVAILABLE
    ensures ChangeAsWritten(vs, vs[k].id, e).outcome == Ok
    ensures ActiveCount(ChangeAsWritten(vs, vs[k].id, e).values) == MaxActiveDishes + 1
    ensures ChangeChecked(vs, vs[k].id, e) == Effect(Err(IllegalState(ActivateCapReached)), vs)
  {
    var id := vs[k].id;
    EditedStatus(vs[k], e);
    var x := Edited(vs[k], e).value;
    var ws := vs[k := x];
    FindIndexUpdate(vs, k, x);
    ChangeUnfolds(vs, id, e, k);
    UpdateWithItself(ws, k);
    CountUpdate(vs, k, x, AVAILABLE);
    CountMoveToEnd(ws, k, x, AVAILABLE);
  }

  /** Ten available dishes and a sold-out one. */
  function CappedMenu(): seq<DishData>
  {
    var d := Details(None, None, 1.0, false, false, false, None, AVAILABLE);
    seq(10, i requires 0 <= i => DishData(i, d, None)) + [DishData(10, d.(status := SOLD_OUT), None)]
  }

  lemma {:induction false} AllActiveCount(vs: seq<DishData>)
    requires forall i :: 0 <= i < |vs| ==> StatusOf(vs[i]) == AVAILABLE
    ensures ActiveCount(vs) == |vs|
  {
    if vs != [] {
      AllActiveCount(vs[1..]);
    }
  }

  /** The capped menu has eleven dishes, ten of them active, and its
      sold-out dish has id 10 and is the first with it. */
  lemma CappedMenuShape()
    ensures |CappedMenu()| == 11 && ActiveCount(CappedMenu()) == MaxActiveDishes
    ensures CappedMenu()[10].id == 10 && StatusOf(CappedMenu()[10]) == SOLD_OUT
    ensures FindIndex(CappedMenu(), 10) == Some(10)
  {
    var vs := CappedMenu();
    var ten := vs[..10];
    assert vs == ten + [vs[10]];
    CountConcat(ten, [vs[10]], AVAILABLE);
    CountSingle(vs[10], AVAILABLE);
    AllActiveCount(ten);
    assert FindIndex(vs, 10) == Some(10);
  }

  /** The concrete menu: ten dishes active and the sold-out one, id 10,
      made available through changeDishStatus, leaves eleven. */
  lemma AsWrittenBreaksCap()
    ensures WithinCap(CappedMenu())
    ensures ChangeAsWritten(CappedMenu(), 10, SetStatus(AVAILABLE)).outcome == Ok
    ensures ActiveCount(ChangeAsWritten(CappedMenu(), 10, SetStatus(AVAILABLE)).values) == 11
  {
    CappedMenuShape();
    AsWrittenBreaksCapAt(CappedMenu(), 10, SetStatus(AVAILABLE));
  }

  /** The same menu, the sold-out dish given the details of an available
      one through changeDish: eleven active as well. */
  lemma AsWrittenBreaksCapByDetails()
    ensures ChangeAsWritten(CappedMenu(), 10, SetDetails(CappedMenu()[0].details)).outcome == Ok
    ensures ActiveCount(ChangeAsWritten(CappedMenu(), 10, SetDetails(CappedMenu()[0].details)).values) == 11
  {
    CappedMenuShape();
    AsWrittenBreaksCapAt(CappedMenu(), 10, SetDetails(CappedMenu()[0].details));
  }

  /** Unfolds both changes for a dish that is found. */
  lemma ChangeUnfolds(vs: seq<DishData>, id: DishId, e: Edit, k: nat)
    requires FindIndex(vs, id) == Some(k)
    ensures ChangeAsWritten(vs, id, e) ==
              if Edited(vs[k], e).Fail? then Effect(Err(Edited(vs[k], e).failure), vs)
              else UpdateValue(vs[k := Edited(vs[k], e).value], Edited(vs[k], e).value)
    ensures ChangeChecked(vs, id, e) ==
              if TargetStatus(vs[k], e) == AVAILABLE && StatusOf(vs[k]) != AVAILABLE && ActiveCount(vs) >= MaxActiveDishes
              then Effect(Err(IllegalState(ActivateCapReached)), vs)
              else ChangeAsWritten(vs, id, e)
  {
  }

  /** The corrected change never takes the menu over the cap. */
  lemma ChangeCheckedKeepsCap(vs: seq<DishData>, id: DishId, e: Edit)
    requires WithinCap(vs)
    ensures WithinCap(ChangeChecked(vs, id, e).values)
  {
    var f := FindIndex(vs, id);
    if f.Some? {
      var k := f.value;
      var r := Edited(vs[k], e);
      if r.Success? {
        EditedStatus(vs[k], e);
        var ws := vs[k := r.value];
        CountUpdate(vs, k, r.value, AVAILABLE);
        FindIndexUpdate(vs, k, r.value);
        CountMoveToEnd(ws, k, r.value, AVAILABLE);
      }
    }
  }

  /** The correction only adds the refusal: every change it lets through
      is the source's. */
  lemma ChangeCheckedRefinesAsWritten(vs: seq<DishData>, id: DishId, e: Edit)
    ensures ChangeChecked(vs, id, e).outcome == Ok ==> ChangeChecked(vs, id, e) == ChangeAsWritten(vs, id, e)
    ensures ChangeChecked(vs, id, e) != ChangeAsWritten(vs, id, e) ==>
              ChangeChecked(vs, id, e) == Effect(Err(IllegalState(ActivateCapReached)), vs)
  {
  }

  /** isCurrentlyOpen: an override still in force decides; otherwise the
      opening hours do, and without them the restaurant is closed. */
  function OpenNow(hours: Option<OpeningHours>, override: Option<bool>, until: Option<Time>, now: Time): bool
  {
    if hours.None? && override.None? then false
    else if override.Some? && (until.None? || until.value > now) then override.value
    else hours.Some? && IsOpenAt(hours.value, DayOf(now), TimeOf(now))
  }

  /** The override left after the call: cleared once expired. */
  function OverrideAfter(override: Option<bool>, until: Option<Time>, now: Time): (r: Option<bool>)
  {
    if override.Some? && !(until.None? || until.value > now) then None else override
  }

  /** Closed without hours and override; an override in force is the
      answer; an expired one is as if there were none. */
  lemma OpenNowCases(hours: Option<OpeningHours>, override: Option<bool>, until: Option<Time>, now: Time)
    ensures hours.None? && override.None? ==> !OpenNow(hours, override, until, now)
    ensures override.Some? && (until.None? || until.value > now) ==> OpenNow(hours, override, until, now) == override.value
    ensures override.Some? && until.Some? && until.value <= now ==>
              OverrideAfter(override, until, now) == None && OpenNow(hours, override, until, now) == OpenNow(hours, None, until, now)
    ensures hours.Some? && OverrideAfter(override, until, now).None? ==>
              OpenNow(hours, override, until, now) == IsOpenAt(hours.value, DayOf(now), TimeOf(now))
  {
  }

  /** Asking again at the same instant gives the same answer. */
  lemma OpenNowStable(hours: Option<OpeningHours>, override: Option<bool>, until: Option<Time>, now: Time)
    ensures OpenNow(hours, OverrideAfter(override, until, now), until, now) == OpenNow(hours, override, until, now)
    ensures OverrideAfter(OverrideAfter(override, until, now), until, now) == OverrideAfter(override, until, now)
  {
  }

  /** updateDetails or changeStatus on the dish object. */
  method EditDish(dish: Dish, e: Edit) returns (o: Outcome)
    modifies dish
    ensures o.Err? <==> Edited(old(dish.View()), e).Fail?
    ensures o.Err? ==> o == Err(Edited(old(dish.View()), e).failure) && dish.View() == old(dish.View())
    ensures o == Ok ==> dish.View() == Edited(old(dish.View()), e).value
  {
    match e {
      case SetDetails(det) =>
        dish.UpdateDetails(det);
        o := Ok;
      case SetStatus(t) =>
        o := dish.ChangeStatus(t);
    }
  }

  /** The edit of the dish at `k` in place: no other dish changes. */
  method EditOnMenu(menu: Menu, k: nat, e: Edit) returns (o: Outcome)
    requires menu.Distinct() && k < |menu.dishes|
    modifies menu.dishes[k]
    ensures o.Err? <==> Edited(old(menu.Values())[k], e).Fail?
    ensures o.Err? ==> o == Err(Edited(old(menu.Values())[k], e).failure) && menu.Values() == old(menu.Values())
    ensures o == Ok ==> menu.Values() == old(menu.Values())[k := Edited(old(menu.Values())[k], e).value]
  {
    ghost var start := menu.Values();
    ViewsAllAt(menu.dishes);
    var dish := menu.dishes[k];
    o := EditDish(dish, e);
    var x := dish.View();
    forall i | 0 <= i < |menu.dishes|
      ensures start[k := x][i] == menu.dishes[i].View()
    {
      if i != k {
        assert menu.dishes[i] != dish;
      }
    }
    ViewsPointwise(menu.dishes, start[k := x]);
  }

  class Restaurant {
    const id: Uuid
    const address: Option<Address>
    const phoneNumber: Option<string>
    const email: Option<string>
    const menu: Menu
    const ownerId: Option<Uuid>
    var name: Option<string>
    var cuisineType: Option<string>
    var logoUrl: Option<string>
    var openingHours: Option<OpeningHours>
    var manualOverrideOpen: Option<bool>
    var overrideUntil: Option<Time>

    /** The private constructor behind create and reconstruct: a missing
      menu becomes a new empty one. */
    constructor Reconstruct(id: Uuid, name: Option<string>, address: Option<Address>, phoneNumber: Option<string>,
                            email: Option<string>, cuisineType: Option<string>, menu: Menu?, ownerId: Option<Uuid>)
      ensures this.id == id && this.name == name && this.address == address && this.phoneNumber == phoneNumber
      ensures this.email == email && this.cuisineType == cuisineType && this.ownerId == ownerId
      ensures menu != null ==> this.menu == menu
      ensures menu == null ==> fresh(this.menu) && this.menu.dishes == []
      ensures logoUrl == None && openingHours == None && manualOverrideOpen == None && overrideUntil == None
    {
      this.id, this.name, this.address := id, name, address;
      this.phoneNumber, this.email, this.cuisineType := phoneNumber, email, cuisineType;
      this.ownerId := ownerId;
      if menu != null {
        this.menu := menu;
      } else {
        this.menu := new Menu();
      }
      logoUrl, openingHours, manualOverrideOpen, overrideUntil := None, None, None, None;
    }

    /** create: refuses a missing owner; `newId` is the generated id. */
    static method Create(newId: Uuid, name: Option<string>, address: Option<Address>, phoneNumber: Option<string>,
                         email: Option<string>, cuisineType: Option<string>, ownerId: Option<Uuid>)
      returns (o: Outcome, r: Restaurant?)
      ensures o.Err? <==> ownerId.None?
      ensures o.Err? ==> o == Err(NullPointer(OwnerRequired)) && r == null
      ensures o == Ok ==> r != null && fresh(r) && fresh(r.menu) && r.menu.dishes == []
      ensures o == Ok ==> r.id == newId && r.name == name && r.ownerId == ownerId && r.openingHours == None
    {
      if ownerId.None? {
        return Err(NullPointer(OwnerRequired)), null;
      }
      r := new Restaurant.Reconstruct(newId, name, address, phoneNumber, email, cuisineType, null, ownerId);
      o := Ok;
    }

    /** addDish: a new dish with the generated id `newId`, added to the
      menu. */
    method AddDish(newId: DishId, details: Details) returns (o: Outcome, d: Dish)
      modifies menu
      ensures fresh(d) && d.View() == DishData(newId, details, None)
      ensures Effect(o, menu.Values()) == AddValue(old(menu.Values()), d.View())
      ensures old(menu.Distinct()) ==> menu.Distinct()
      ensures old(WithinCap(menu.Values())) ==> WithinCap(menu.Values())
    {
      d := new Dish(newId, details);
      assert d !in menu.dishes;
      o := menu.AddDish(d);
    }

    /** getDish: the first dish with the id, or IllegalArgument. */
    method GetDish(dishId: DishId) returns (r: Result<Dish>)
      ensures r.Fail? <==> FindIndex(menu.Values(), dishId).None?
      ensures r.Fail? ==> r == Fail(IllegalArgument(DishNotFound))
      ensures r.Success? ==> r.value == menu.dishes[FindIndex(menu.Values(), dishId).value]
      ensures r.Success? ==> r.value.id == dishId
    {
      var f := FindIndex(menu.Values(), dishId);
      if f.None? {
        return Fail(IllegalArgument(DishNotFound));
      }
      ViewsAt(menu.dishes, f.value);
      r := Success(menu.dishes[f.value]);
    }

    /** Edits the dish on the menu in place and hands it to updateDish, as
      changeDish and changeDishStatus do; `checked` refuses first a dish
      that would become active with ten active. */
    method Change(dishId: DishId, e: Edit, checked: bool) returns (o: Outcome)
      requires menu.Distinct()
      modifies menu, menu.dishes
      ensures Effect(o, menu.Values()) ==
                if checked then ChangeChecked(old(menu.Values()), dishId, e) else ChangeAsWritten(old(menu.Values()), dishId, e)
      ensures menu.Distinct()
    {
      ghost var start := menu.Values();
      var r := GetDish(dishId);
      if r.Fail? {
        return Err(r.failure);
      }
      var dish := r.value;
      var k := FindIndex(menu.Values(), dishId).value;
      ViewsAt(menu.dishes, k);
      ChangeUnfolds(start, dishId, e, k);
      if checked && TargetStatus(dish.View(), e) == AVAILABLE && dish.status != AVAILABLE
         && ActiveCount(menu.Values()) >= MaxActiveDishes {
        return Err(IllegalState(ActivateCapReached));
      }
      assert checked ==> ChangeChecked(start, dishId, e) == ChangeAsWritten(start, dishId, e);
      o := EditThenUpdate(dish, k, e);
    }

    /** The edit of the listed dish object in place, then updateDish with
      that same object. */
    method EditThenUpdate(dish: Dish, k: nat, e: Edit) returns (o: Outcome)
      requires menu.Distinct() && k < |menu.dishes| && menu.dishes[k] == dish
      requires FindIndex(menu.Values(), dish.id) == Some(k)
      modifies menu, menu.dishes
      ensures var vs := old(menu.Values());
              var r := Edited(vs[k], e);
              Effect(o, menu.Values()) == if r.Fail? then Effect(Err(r.failure), vs) else UpdateValue(vs[k := r.value], r.value)
      ensures menu.Distinct()
    {
      ghost var start := menu.Values();
      ghost var listed := menu.dishes;
      o := EditOnMenu(menu, k, e);
      assert menu.dishes == listed;
      if o.Err? {
        return;
      }
      ghost var x := Edited(start[k], e).value;
      ghost var mid := menu.dishes;
      ViewsAt(mid, k);
      ViewsAt(listed, k);
      EditedStatus(start[k], e);
      assert dish.View() == x && x.id == dish.id;
      FindIndexUpdate(start, k, x);
      o := menu.UpdateDish(dish);
      assert Effect(o, menu.Values()) == UpdateValue(start[k := x], x);
      if o == Ok {
        MoveToEndUnaliased(mid, k);
      }
    }

    /** changeDish as written: the new details, the status included, go
      onto the dish before the menu sees it. */
    method ChangeDishAsWritten(dishId: DishId, details: Details) returns (o: Outcome)
      requires menu.Distinct()
      modifies menu, menu.dishes
      ensures Effect(o, menu.Values()) == ChangeAsWritten(old(menu.Values()), dishId, SetDetails(details))
      ensures menu.Distinct()
    {
      o := Change(dishId, SetDetails(details), false);
    }

    /** changeDish, refusing to activate a dish beyond the cap. */
    method ChangeDish(dishId: DishId, details: Details) returns (o: Outcome)
      requires menu.Distinct()
      modifies menu, menu.dishes
      ensures Effect(o, menu.Values()) == ChangeChecked(old(menu.Values()), dishId, SetDetails(details))
      ensures menu.Distinct()
      ensures old(WithinCap(menu.Values())) ==> WithinCap(menu.Values())
    {
      ghost var start := menu.Values();
      o := Change(dishId, SetDetails(details), true);
      if WithinCap(start) {
        ChangeCheckedKeepsCap(start, dishId, SetDetails(details));
      }
    }

    /** changeDishStatus as written. */
    method ChangeDishStatusAsWritten(dishId: DishId, newStatus: DishStatus) returns (o: Outcome)
      requires menu.Distinct()
      modifies menu, menu.dishes
      ensures Effect(o, menu.Values()) == ChangeAsWritten(old(menu.Values()), dishId, SetStatus(newStatus))
      ensures menu.Distinct()
    {
      o := Change(dishId, SetStatus(newStatus), false);
    }

    /** changeDishStatus, refusing to activate a dish beyond the cap. */
    method ChangeDishStatus(dishId: DishId, newStatus: DishStatus) returns (o: Outcome)
      requires menu.Distinct()
      modifies menu, menu.dishes
      ensures Effect(o, menu.Values()) == ChangeChecked(old(menu.Values()), dishId, SetStatus(newStatus))
      ensures menu.Distinct()
      ensures old(WithinCap(menu.Values())) ==> WithinCap(menu.Values())
    {
      ghost var start := menu.Values();
      o := Change(dishId, SetStatus(newStatus), true);
      if WithinCap(start) {
        ChangeCheckedKeepsCap(start, dishId, SetStatus(newStatus));
      }
    }

    method RemoveDish(dishId: DishId) returns (o: Outcome)
      modifies menu
      ensures Effect(o, menu.Values()) == RemoveValue(old(menu.Values()), dishId)
      ensures old(WithinCap(menu.Values())) ==> WithinCap(menu.Values())
    {
      o := menu.RemoveDish(dishId);
    }

    /** isCurrentlyOpen at the instant `now`; an expired override is
      cleared on the way. */
    method IsCurrentlyOpen(now: Time) returns (open: bool)
      modifies this
      ensures open == OpenNow(old(openingHours), old(manualOverrideOpen), old(overrideUntil), now)
      ensures manualOverrideOpen == OverrideAfter(old(manualOverrideOpen), old(overrideUntil), now)
      ensures openingHours == old(openingHours) && overrideUntil == old(overrideUntil)
      ensures name == old(name) && cuisineType == old(cuisineType) && logoUrl == old(logoUrl)
    {
      if openingHours.None? && manualOverrideOpen.None? {
        return false;
      }
      if manualOverrideOpen.Some? {
        if overrideUntil.None? || overrideUntil.value > now {
          return manualOverrideOpen.value;
        } else {
          manualOverrideOpen := None;
        }
      }
      open := openingHours.Some? && IsOpenAt(openingHours.value, DayOf(now), TimeOf(now));
    }

    method OverrideOpeningManually(open: bool, until: Option<Time>)
      modifies this
      ensures manualOverrideOpen == Some(open) && overrideUntil == until
      ensures openingHours == old(openingHours)
      ensures name == old(name) && cuisineType == old(cuisineType) && logoUrl == old(logoUrl)
    {
      manualOverrideOpen, overrideUntil := Some(open), until;
    }

    method UpdateOpeningHours(hours: Option<OpeningHours>)
      modifies this
      ensures openingHours == hours
      ensures manualOverrideOpen == old(manualOverrideOpen) && overrideUntil == old(overrideUntil)
      ensures name == old(name) && cuisineType == old(cuisineType) && logoUrl == old(logoUrl)
    {
      openingHours := hours;
    }

    method PublishAllConceptDishes() returns (o: Outcome)
      requires menu.Distinct()
      modifies menu.dishes
      ensures Effect(o, menu.Values()) == PublishValues(old(menu.Values()))
      ensures old(WithinCap(menu.Values())) ==> WithinCap(menu.Values())
    {
      o := menu.PublishAllConceptDishes();
    }
  }
}
