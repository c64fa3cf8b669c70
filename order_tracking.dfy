/** The order tracking page of the web client: a progress bar whose width
    follows the order's status, a poll every ten seconds that writes the
    fetched order to the store only when its status changed and stops once
    a changed status is final, and a store subscription that re-renders for
    the tracked order only. */
module OrderTracking {
  import opened Common
  import opened OrderStore

  /** The statuses after which the poll stops. */
  predicate Final(st: ClientStatus)
  {
    st == DELIVERED || st == CANCELLED || st == REJECTED
  }

  /** widthMap: the progress bar's width for each status, in percent. */
  function ProgressWidth(st: ClientStatus): real
  {
    match st
    case CART => 0.0
    case CUSTOMER_DETAILS_PROVIDED => 5.0
    case PAYMENT_IN_PROGRESS => 10.0
    case PLACED => 25.0
    case ACCEPTED => 50.0
    case READY => 75.0
    case PICKED_UP => 91.6
    case DELIVERED => 100.0
    case CANCELLED => 0.0
    case REJECTED => 0.0
  }

  /** The statuses an order passes through when nothing goes wrong. */
  const HappyPath: seq<ClientStatus> :=
    [CART, CUSTOMER_DETAILS_PROVIDED, PAYMENT_IN_PROGRESS, PLACED, ACCEPTED, READY, PICKED_UP, DELIVERED]

  /** The bar fills strictly along the happy path, from empty to full, and
      a cancelled or rejected order shows an empty bar; no width leaves
      0 to 100. */
  lemma ProgressWidthSpec(st: ClientStatus)
    ensures 0.0 <= ProgressWidth(st) <= 100.0
    ensures forall i, j :: 0 <= i < j < |HappyPath| ==> ProgressWidth(HappyPath[i]) < ProgressWidth(HappyPath[j])
    ensures ProgressWidth(HappyPath[0]) == 0.0 && ProgressWidth(HappyPath[|HappyPath| - 1]) == 100.0
    ensures ProgressWidth(CANCELLED) == 0.0 && ProgressWidth(REJECTED) == 0.0
    ensures ProgressWidth(st) == 100.0 <==> st == DELIVERED
  {
  }

  /** What one tick of the interval does: the fetch failed (or gave no
      order, whose status cannot be read), the status is the one already
      held, or the fetched order is written and the poll stops or goes
      on. */
  datatype Tick = Failed | Unchanged | Wrote(latest: ClientOrder, stop: bool)

  /** The tick's decision, from the store's current order and the result
      of fetching the tracked order. */
  function TickDecision(current: Option<ClientOrder>, fetched: Fetch): (t: Tick)
    ensures t.Failed? <==> fetched.Threw? || fetched.order.None?
    ensures t.Wrote? <==> fetched.Returned? && fetched.order.Some?
                          && (current.None? || fetched.order.value.status != current.value.status)
    ensures t.Wrote? ==> t.latest == fetched.order.value && (t.stop <==> Final(t.latest.status))
  {
    if fetched.Threw? || fetched.order.None? then Failed
    else
      var latest := fetched.order.value;
      if current.None? || latest.status != current.value.status then Wrote(latest, Final(latest.status))
      else Unchanged
  }

  /** The orders a run of ticks writes to the store, from the store's
      current order and the successive fetch results; the run ends at
      the first write of a final status. */
  function Poll(current: Option<ClientOrder>, fetches: seq<Fetch>): seq<ClientOrder>
    decreases |fetches|
  {
    if fetches == [] then []
    else
      var t := TickDecision(current, fetches[0]);
      if t.Wrote? then [t.latest] + (if t.stop then [] else Poll(Some(t.latest), fetches[1..]))
      else Poll(current, fetches[1..])
  }

  /** Every write changes the status: the first differs from the store's
      order and each later one from the one before; only the last write
      can carry a final status. */
  lemma {:induction false} PollWritesChanges(current: Option<ClientOrder>, fetches: seq<Fetch>)
    ensures var w := Poll(current, fetches);
            (w != [] && current.Some? ==> w[0].status != current.value.status)
            && (forall i :: 0 < i < |w| ==> w[i].status != w[i - 1].status)
            && (forall i :: 0 <= i < |w| - 1 ==> !Final(w[i].status))
            && |w| <= |fetches|
    decreases |fetches|
  {
    if fetches != [] {
      var t := TickDecision(current, fetches[0]);
      PollWritesChanges(if t.Wrote? then Some(t.latest) else current, fetches[1..]);
    }
  }

  /** Polling an order whose status never changes writes it at most once:
      exactly once when the store held no order or one with another
      status. */
  lemma {:induction false} PollSameOrder(current: Option<ClientOrder>, o: ClientOrder, fetches: seq<Fetch>)
    requires forall i :: 0 <= i < |fetches| ==> fetches[i] == Returned(Some(o))
    ensures Poll(current, fetches) == if fetches != [] && (current.None? || current.value.status != o.status) then [o] else []
    decreases |fetches|
  {
    if fetches != [] {
      if current.None? || current.value.status != o.status {
        if !Final(o.status) {
          PollSameOrder(Some(o), o, fetches[1..]);
        }
      } else {
        PollSameOrder(current, o, fetches[1..]);
      }
    }
  }

  /** Failed fetches and fetches of the status already held change
      nothing: dropping them from a run leaves its writes as they were. */
  lemma {:induction false} PollSkipsQuietTicks(current: Option<ClientOrder>, fetches: seq<Fetch>, k: nat)
    requires k < |fetches| && !TickDecision(current, fetches[k]).Wrote?
    requires forall i :: 0 <= i < k ==> !TickDecision(current, fetches[i]).Wrote?
    ensures Poll(current, fetches) == Poll(current, fetches[..k] + fetches[k + 1..])
    decreases k
  {
    var rest := fetches[..k] + fetches[k + 1..];
    if k == 0 {
      assert rest == fetches[1..];
    } else {
      assert rest[0] == fetches[0];
      assert rest[1..] == fetches[1..][..k - 1] + fetches[1..][k..];
      PollSkipsQuietTicks(current, fetches[1..], k - 1);
    }
  }

  /** An order that is already final when the page loads is written to
      the store once, at load; after that every tick sees the same status,
      writes nothing and never stops the poll. */
  lemma FinalAtLoadKeepsPolling(o: ClientOrder)
    requires Final(o.status)
    ensures TickDecision(Some(o), Returned(Some(o))) == Unchanged
  {
  }

  /** `(order) => { if (order?.id === orderId) render(order); }` acts on
      this call. */
  predicate Renders(c: Call, page: SubscriberId, orderId: string)
  {
    c.subscriber == page && c.order.Some? && c.order.value.id == orderId
  }

  /** The subscriber the page registers: it re-renders for an order with
      the tracked id and ignores every other call. */
  function SubscriberRenders(calls: seq<Call>, page: SubscriberId, orderId: string): (r: seq<ClientOrder>)
    ensures forall o :: o in r ==> o.id == orderId
    ensures |r| <= |calls|
    ensures forall i :: 0 <= i < |calls| && Renders(calls[i], page, orderId) ==> calls[i].order.value in r
  {
    if calls == [] then []
    else
      var c := calls[|calls| - 1];
      SubscriberRenders(calls[..|calls| - 1], page, orderId) + (if Renders(c, page, orderId) then [c.order.value] else [])
  }

  /** The page of one tracked order, polling the store's order. */
  class TrackingPage {
    const orderId: string
    const store: Store
    var polling: bool
    var rendered: seq<ClientOrder>

    /** A page for a missing id shows only its message and never polls;
        a page with an id starts polling with nothing rendered. */
    constructor (orderId: string, store: Store)
      ensures this.orderId == orderId && this.store == store && rendered == []
      ensures polling <==> orderId != ""
    {
      this.orderId, this.store := orderId, store;
      polling, rendered := orderId != "", [];
    }

    /** One tick of the interval: a changed status is written to the store
        (which notifies every subscriber) and rendered, and the poll stops
        if it is final; anything else leaves the store and the page as they
        were. */
    method OnTick(fetched: Fetch) returns (t: Tick)
      requires polling
      modifies this, store
      ensures t == TickDecision(old(store.current), fetched)
      ensures t.Wrote? ==>
                store.View() == SetCurrent(old(store.View()), t.latest)
                && rendered == old(rendered) + [t.latest] && polling == !t.stop
      ensures !t.Wrote? ==> store.View() == old(store.View()) && rendered == old(rendered) && polling
    {
      t := TickDecision(store.current, fetched);
      if t.Wrote? {
        store.SetCurrentOrder(t.latest);
        rendered := rendered + [t.latest];
        if t.stop {
          polling := false;
        }
      }
    }

    /** beforeunload: the poll stops. */
    method Unload()
      modifies this
      ensures !polling && rendered == old(rendered)
    {
      polling := false;
    }
  }
}
