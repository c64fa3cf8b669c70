/** A restaurant's dish: its details, its status on the menu (concept,
    available or sold out) and an update to its details that may be
    scheduled for later. */
module Dishes {
  import opened Common

  type DishId = Uuid

  datatype DishStatus = CONCEPT | AVAILABLE | SOLD_OUT

  /** A DishCategory constant, by name. */
  type DishCategory = string

  const ConceptOnlyToAvailable := "Concept dishes can only be promoted to available"
  const AvailableOnlyDown := "Available dishes can only be demoted to concept or sold out"
  const SoldOutOnlyRestock := "Sold out dishes can only be restocked to available"
  const OnlyConceptPromoted := "Only concept dishes can be promoted to available"
  const OnlyAvailableDemoted := "Only available dishes can be demoted to concept"
  /** The NullPointerException of comparing a time with null: its
      message is generated by the JVM and is not modelled, so it is left
      empty. */
  const NoMessage := ""

  /** What changeStatus does from status `s` to `t`: keep, move, or throw
      with the message of the branch for `s`. */
  function StatusChange(s: DishStatus, t: DishStatus): (o: Outcome)
    ensures o == Ok <==> !(s.CONCEPT? && t.SOLD_OUT?) && !(s.SOLD_OUT? && t.CONCEPT?)
    ensures o.Err? ==> o.failure.IllegalState?
  {
    if s == t then Ok
    else match s
      case CONCEPT => if t != AVAILABLE then Err(IllegalState(ConceptOnlyToAvailable)) else Ok
      case AVAILABLE => if t == CONCEPT || t == SOLD_OUT then Ok else Err(IllegalState(AvailableOnlyDown))
      case SOLD_OUT => if t == AVAILABLE then Ok else Err(IllegalState(SoldOutOnlyRestock))
  }

  /** The fields updateDetails and an update overwrite. */
  datatype Details = Details(
    name: Option<string>, description: Option<string>, price: real,
    vegetarian: bool, vegan: bool, glutenFree: bool, category: Option<DishCategory>, status: DishStatus)

  /** A DishPendingUpdate: each field is either a new value or null for
      "keep", and the time from which it applies, if any. */
  datatype PendingUpdate = PendingUpdate(
    name: Option<string>, description: Option<string>, price: Option<real>,
    vegetarian: Option<bool>, vegan: Option<bool>, glutenFree: Option<bool>,
    category: Option<DishCategory>, status: Option<DishStatus>, scheduledFor: Option<Time>)

  /** The whole state of a dish. */
  datatype DishData = DishData(id: DishId, details: Details, pending: Option<PendingUpdate>)

  /** A new value, or the current one when the update holds null. */
  function Keep<T>(o: Option<T>, current: T): T
  {
    if o.Some? then o.value else current
  }

  /** applyUpdate: every non-null field of the update replaces the dish's. */
  function Applied(d: Details, u: PendingUpdate): Details
  {
    Details(if u.name.Some? then u.name else d.name,
            if u.description.Some? then u.description else d.description,
            Keep(u.price, d.price), Keep(u.vegetarian, d.vegetarian), Keep(u.vegan, d.vegan),
            Keep(u.glutenFree, d.glutenFree),
            if u.category.Some? then u.category else d.category,
            Keep(u.status, d.status))
  }

  /** The update that changes nothing. */
  const NoChange := PendingUpdate(None, None, None, None, None, None, None, None, None)

  /** Applying an update twice is applying it once. */
  lemma AppliedIdempotent(d: Details, u: PendingUpdate)
    ensures Applied(Applied(d, u), u) == Applied(d, u)
  {
  }

  /** An update of nulls changes nothing. */
  lemma AppliedNothing(d: Details, at: Option<Time>)
    ensures Applied(d, NoChange.(scheduledFor := at)) == d
  {
  }

  /** One update applied after another is the two merged, the later
      winning. */
  lemma AppliedTwice(d: Details, u: PendingUpdate, v: PendingUpdate)
    ensures Applied(Applied(d, u), v) == Applied(d, Merged(u, v))
  {
  }

  /** The fields of `v`, and those of `u` where `v` holds null. */
  function Merged(u: PendingUpdate, v: PendingUpdate): PendingUpdate
  {
    PendingUpdate(if v.name.Some? then v.name else u.name,
                  if v.description.Some? then v.description else u.description,
                  if v.price.Some? then v.price else u.price,
                  if v.vegetarian.Some? then v.vegetarian else u.vegetarian,
                  if v.vegan.Some? then v.vegan else u.vegan,
                  if v.glutenFree.Some? then v.glutenFree else u.glutenFree,
                  if v.category.Some? then v.category else u.category,
                  if v.status.Some? then v.status else u.status,
                  v.scheduledFor)
  }

  /** An update with no time, or a time not after now, applies at once. */
  predicate DueNow(u: PendingUpdate, now: Time)
  {
    u.scheduledFor.None? || !(u.scheduledFor.value > now)
  }

  /** isUpdateReadyToApply: a pending update whose time is not after now.
      A pending update without a time makes the comparison throw. */
  function UpdateReady(pending: Option<PendingUpdate>, now: Time): (r: Result<bool>)
    ensures r == Success(true) <==> pending.Some? && pending.value.scheduledFor.Some? && now >= pending.value.scheduledFor.value
    ensures r.Fail? <==> pending.Some? && pending.value.scheduledFor.None?
  {
    if pending.None? then Success(false)
    else if pending.value.scheduledFor.None? then Fail(NullPointer(NoMessage))
    else Success(!(now < pending.value.scheduledFor.value))
  }

  class Dish {
    const id: DishId
    var name: Option<string>
    var description: Option<string>
    var price: real
    var vegetarian: bool
    var vegan: bool
    var glutenFree: bool
    var category: Option<DishCategory>
    var status: DishStatus
    var pendingUpdate: Option<PendingUpdate>

    function Current(): Details
      reads this
    {
      Details(name, description, price, vegetarian, vegan, glutenFree, category, status)
    }

    function View(): DishData
      reads this
    {
      DishData(id, Current(), pendingUpdate)
    }

    constructor (id: DishId, details: Details)
      ensures View() == DishData(id, details, None)
    {
      this.id := id;
      name, description, price := details.name, details.description, details.price;
      vegetarian, vegan, glutenFree := details.vegetarian, details.vegan, details.glutenFree;
      category, status := details.category, details.status;
      pendingUpdate := None;
    }

    /** Moves the dish to another status along the allowed transitions; a
      refused one throws and changes nothing. */
    method ChangeStatus(newStatus: DishStatus) returns (o: Outcome)
      modifies this
      ensures o == StatusChange(old(status), newStatus)
      ensures View() == if o == Ok then old(View()).(details := old(Current()).(status := newStatus)) else old(View())
    {
      o := StatusChange(status, newStatus);
      if o == Ok {
        status := newStatus;
      }
    }

    /** Overwrites every detail, the status included, without the
      transition rules of ChangeStatus. */
    method UpdateDetails(d: Details)
      modifies this
      ensures View() == old(View()).(details := d)
    {
      name, description, price := d.name, d.description, d.price;
      vegetarian, vegan, glutenFree := d.vegetarian, d.vegan, d.glutenFree;
      category, status := d.category, d.status;
    }

    method PromoteToAvailable() returns (o: Outcome)
      modifies this
      ensures o == Ok <==> old(status) == CONCEPT
      ensures o.Err? ==> o == Err(IllegalState(OnlyConceptPromoted)) && View() == old(View())
      ensures o == Ok ==> View() == old(View()).(details := old(Current()).(status := AVAILABLE))
    {
      if status != CONCEPT {
        return Err(IllegalState(OnlyConceptPromoted));
      }
      status := AVAILABLE;
      o := Ok;
    }

    method DemoteToConcept() returns (o: Outcome)
      modifies this
      ensures o == Ok <==> old(status) == AVAILABLE
      ensures o.Err? ==> o == Err(IllegalState(OnlyAvailableDemoted)) && View() == old(View())
      ensures o == Ok ==> View() == old(View()).(details := old(Current()).(status := CONCEPT))
    {
      if status != AVAILABLE {
        return Err(IllegalState(OnlyAvailableDemoted));
      }
      status := CONCEPT;
      o := Ok;
    }

    /** applyUpdate: overwrites the details the update does not leave
      null. */
    method ApplyUpdate(u: PendingUpdate)
      modifies this
      ensures View() == old(View()).(details := Applied(old(Current()), u))
    {
      var d := Applied(Current(), u);
      name, description, price := d.name, d.description, d.price;
      vegetarian, vegan, glutenFree := d.vegetarian, d.vegan, d.glutenFree;
      category, status := d.category, d.status;
    }

    /** An update due now is applied at once and any pending one stays;
      a later one replaces the pending update. */
    method ScheduleOrApplyUpdate(u: PendingUpdate, now: Time)
      modifies this
      ensures DueNow(u, now) ==> View() == old(View()).(details := Applied(old(Current()), u))
      ensures !DueNow(u, now) ==> View() == old(View()).(pending := Some(u))
    {
      if DueNow(u, now) {
        ApplyUpdate(u);
      } else {
        pendingUpdate := Some(u);
      }
    }

    /** True once the scheduled time of the pending update has come;
        false without a pending update; throws for an unscheduled one. */
    function IsUpdateReadyToApply(now: Time): (r: Result<bool>)
      reads this
      ensures r == Success(true) <==>
                HasPendingChanges() && pendingUpdate.value.scheduledFor.Some? && now >= pendingUpdate.value.scheduledFor.value
      ensures r.Fail? <==> HasPendingChanges() && pendingUpdate.value.scheduledFor.None?
      ensures !HasPendingChanges() ==> r == Success(false)
    {
      UpdateReady(pendingUpdate, now)
    }

    /** Without pending changes no update is ever ready to apply. */
    function HasPendingChanges(): (r: bool)
      reads this
      ensures !r ==> forall now: Time :: UpdateReady(pendingUpdate, now) == Success(false)
      ensures r ==> exists now: Time :: UpdateReady(pendingUpdate, now) != Success(false)
    {
      if pendingUpdate.Some? then
        var due := if pendingUpdate.value.scheduledFor.Some? then pendingUpdate.value.scheduledFor.value else 0;
        assert UpdateReady(pendingUpdate, due) != Success(false);
        true
      else
        false
    }

    /** Applies the pending update once its time has come and clears it;
      before that nothing changes. */
    method ApplyPendingChanges(now: Time) returns (o: Outcome)
      modifies this
      ensures UpdateReady(old(pendingUpdate), now).Fail? ==>
                o == Err(UpdateReady(old(pendingUpdate), now).failure) && View() == old(View())
      ensures UpdateReady(old(pendingUpdate), now) == Success(false) ==> o == Ok && View() == old(View())
      ensures UpdateReady(old(pendingUpdate), now) == Success(true) ==>
                o == Ok && View() == DishData(id, Applied(old(Current()), old(pendingUpdate).value), None)
    {
      var ready := IsUpdateReadyToApply(now);
      if ready.Fail? {
        return Err(ready.failure);
      }
      o := Ok;
      if !ready.value {
        return;
      }
      ApplyUpdate(pendingUpdate.value);
      pendingUpdate := None;
    }

    /** Stores the update as pending, replacing any earlier one. */
    method ScheduleUpdate(u: PendingUpdate)
      modifies this
      ensures View() == old(View()).(pending := Some(u))
    {
      pendingUpdate := Some(u);
    }
  }

  /** Scheduling an update for later and applying it once due leaves the
      same details as applying it at once, and leaves nothing pending. */
  method ScheduledThenApplied(d: Dish, u: PendingUpdate, now: Time, later: Time) returns (o: Outcome)
    requires !DueNow(u, now) && u.scheduledFor.Some? && later >= u.scheduledFor.value
    modifies d
    ensures o == Ok && d.View() == DishData(d.id, Applied(old(d.Current()), u), None)
  {
    d.ScheduleOrApplyUpdate(u, now);
    o := d.ApplyPendingChanges(later);
  }
}
