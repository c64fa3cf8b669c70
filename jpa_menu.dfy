/** The stored form of a menu: a set of dish rows, unique by dish id, kept
    in step with the domain menu by updating matching rows in place, adding
    rows for new dishes and dropping rows whose dish is gone. */
module JpaMenus {
  import opened Common
  import opened Dishes
  import Menus

  /** A dish row: the dish's columns and the nine pending-update columns,
      all null (NoChange) when nothing is pending. */
  datatype DishRow = DishRow(id: DishId, details: Details, pending: PendingUpdate)

  function StoredPending(p: Option<PendingUpdate>): PendingUpdate
  {
    if p.Some? then p.value else NoChange
  }

  /** A pending update is read back only when it has a scheduled time. */
  function LoadedPending(c: PendingUpdate): Option<PendingUpdate>
  {
    if c.scheduledFor.Some? then Some(c) else None
  }

  /** The row fromDomain and updateFromDomain write for a dish. */
  function Stored(d: DishData): DishRow
  {
    DishRow(d.id, d.details, StoredPending(d.pending))
  }

  /** The dish toDomain builds from a row. */
  function Loaded(r: DishRow): DishData
  {
    DishData(r.id, r.details, LoadedPending(r.pending))
  }

  /** A dish survives storing and loading exactly when it has no pending
      update or one with a scheduled time; a pending update without a time
      is lost. */
  lemma DishRoundTrip(d: DishData)
    ensures Loaded(Stored(d)) == d <==> d.pending.None? || d.pending.value.scheduledFor.Some?
  {
  }

  /** The first row with the id, as the id-keyed set finds it. */
  function At(rows: seq<DishRow>, id: DishId): Option<DishRow>
  {
    if rows == [] then None else if rows[0].id == id then Some(rows[0]) else At(rows[1..], id)
  }

  /** The first dish of the domain menu with the id. */
  function First(ds: seq<DishData>, id: DishId): Option<DishData>
  {
    if ds == [] then None else if ds[0].id == id then Some(ds[0]) else First(ds[1..], id)
  }

  function IdsOf(rows: seq<DishRow>): set<DishId>
  {
    set r | r in rows :: r.id
  }

  predicate UniqueIds(rows: seq<DishRow>)
  {
    forall i, j :: 0 <= i < j < |rows| ==> rows[i].id != rows[j].id
  }

  /** Every row with the id replaced by `r`. */
  function Replace(rows: seq<DishRow>, id: DishId, r: DishRow): (res: seq<DishRow>)
    ensures |res| == |rows|
  {
    seq(|rows|, i requires 0 <= i < |rows| => if rows[i].id == id then r else rows[i])
  }

  /** The rows whose id is not in `ids`. */
  function Without(rows: seq<DishRow>, ids: set<DishId>): seq<DishRow>
  {
    if rows == [] then [] else (if rows[0].id in ids then [] else [rows[0]]) + Without(rows[1..], ids)
  }

  /** The rows, and the ids of the stored rows not yet matched by a domain
      dish. */
  datatype SyncState = SyncState(rows: seq<DishRow>, current: set<DishId>)

  /** One turn of updateFromDomain's loop for dish `d`: a dish whose id is
      still unmatched updates that row; otherwise its new row is added
      unless the set already holds a row with that id. */
  function SyncStep(s: SyncState, d: DishData): SyncState
  {
    if d.id in s.current then SyncState(Replace(s.rows, d.id, Stored(d)), s.current - {d.id})
    else if At(s.rows, d.id).Some? then s
    else SyncState(s.rows + [Stored(d)], s.current)
  }

  /** The loop of updateFromDomain over the domain dishes. */
  function SyncLoop(s: SyncState, ds: seq<DishData>): SyncState
    decreases |ds|
  {
    if ds == [] then s else SyncLoop(SyncStep(s, ds[0]), ds[1..])
  }

  /** updateFromDomain: the loop, then the rows left unmatched removed. */
  function Sync(rows: seq<DishRow>, ds: seq<DishData>): seq<DishRow>
  {
    var s := SyncLoop(SyncState(rows, IdsOf(rows)), ds);
    Without(s.rows, s.current)
  }

  lemma {:induction false} AtIdsOf(rows: seq<DishRow>, id: DishId)
    ensures At(rows, id).Some? <==> id in IdsOf(rows)
    ensures At(rows, id).Some? ==> At(rows, id).value.id == id
  {
    if rows != [] {
      AtIdsOf(rows[1..], id);
      assert IdsOf(rows) == {rows[0].id} + IdsOf(rows[1..]);
    }
  }

  lemma {:induction false} AtReplace(rows: seq<DishRow>, id: DishId, r: DishRow, x: DishId)
    requires r.id == id
    ensures At(Replace(rows, id, r), x) == if x == id && At(rows, id).Some? then Some(r) else At(rows, x)
  {
    if rows != [] {
      assert Replace(rows, id, r)[1..] == Replace(rows[1..], id, r);
      AtReplace(rows[1..], id, r, x);
    }
  }

  lemma {:induction false} AtAppend(rows: seq<DishRow>, r: DishRow, x: DishId)
    ensures At(rows + [r], x) == if At(rows, x).Some? then At(rows, x) else if r.id == x then Some(r) else None
  {
    if rows == [] {
      assert [r][1..] == [];
    } else {
      assert (rows + [r])[1..] == rows[1..] + [r];
      AtAppend(rows[1..], r, x);
    }
  }

  lemma {:induction false} AtWithout(rows: seq<DishRow>, ids: set<DishId>, x: DishId)
    ensures At(Without(rows, ids), x) == if x in ids then None else At(rows, x)
  {
    if rows != [] {
      AtWithout(rows[1..], ids, x);
      var head := if rows[0].id in ids then [] else [rows[0]];
      assert Without(rows, ids) == head + Without(rows[1..], ids);
      if head != [] {
        assert (head + Without(rows[1..], ids))[1..] == Without(rows[1..], ids);
      } else {
        assert Without(rows, ids) == Without(rows[1..], ids);
      }
    }
  }

  /** The loop, id by id: a row that was still unmatched or absent and
      whose id the domain has now holds the domain's first dish with that
      id; every other row is as it was. The ids left unmatched are the
      unmatched ones the domain does not have. */
  lemma {:induction false} SyncLoopAt(s: SyncState, ds: seq<DishData>, x: DishId)
    requires s.current <= IdsOf(s.rows)
    ensures SyncLoop(s, ds).current <= s.current
    ensures SyncLoop(s, ds).current <= IdsOf(SyncLoop(s, ds).rows)
    ensures x in SyncLoop(s, ds).current <==> x in s.current && First(ds, x).None?
    ensures At(SyncLoop(s, ds).rows, x) ==
              if First(ds, x).Some? && (x in s.current || At(s.rows, x).None?) then Some(Stored(First(ds, x).value))
              else At(s.rows, x)
    decreases |ds|
  {
    if ds != [] {
      var d := ds[0];
      AtIdsOf(s.rows, x);
      AtIdsOf(s.rows, d.id);
      if d.id in s.current {
        var next := SyncState(Replace(s.rows, d.id, Stored(d)), s.current - {d.id});
        forall y | y in next.current
          ensures y in IdsOf(next.rows)
        {
          AtIdsOf(s.rows, y);
          AtReplace(s.rows, d.id, Stored(d), y);
          AtIdsOf(next.rows, y);
        }
        AtReplace(s.rows, d.id, Stored(d), x);
        SyncLoopAt(next, ds[1..], x);
      } else if At(s.rows, d.id).Some? {
        SyncLoopAt(s, ds[1..], x);
      } else {
        var next := SyncState(s.rows + [Stored(d)], s.current);
        forall y | y in next.current
          ensures y in IdsOf(next.rows)
        {
          AtIdsOf(s.rows, y);
          AtAppend(s.rows, Stored(d), y);
          AtIdsOf(next.rows, y);
        }
        AtAppend(s.rows, Stored(d), x);
        SyncLoopAt(next, ds[1..], x);
      }
    }
  }

  /** After updateFromDomain the rows, looked up by id, hold exactly the
      domain menu's dishes: the first dish with each id the menu has, and
      nothing for any other id. */
  lemma SyncAt(rows: seq<DishRow>, ds: seq<DishData>, x: DishId)
    ensures At(Sync(rows, ds), x) == if First(ds, x).Some? then Some(Stored(First(ds, x).value)) else None
  {
    var s := SyncLoop(SyncState(rows, IdsOf(rows)), ds);
    SyncLoopAt(SyncState(rows, IdsOf(rows)), ds, x);
    AtIdsOf(rows, x);
    AtWithout(s.rows, s.current, x);
  }

  lemma {:induction false} WithoutKeepsUnique(rows: seq<DishRow>, ids: set<DishId>)
    requires UniqueIds(rows)
    ensures UniqueIds(Without(rows, ids))
    ensures forall r :: r in Without(rows, ids) ==> r in rows
  {
    if rows != [] {
      WithoutKeepsUnique(rows[1..], ids);
      var rest := Without(rows[1..], ids);
      if rows[0].id !in ids {
        assert forall r :: r in rest ==> r.id != rows[0].id by {
          forall r | r in rest
            ensures r.id != rows[0].id
          {
            var j :| 0 <= j < |rows[1..]| && rows[1..][j] == r;
            assert rows[j + 1] == r;
          }
        }
      }
    }
  }

  lemma {:induction false} SyncLoopKeepsUnique(s: SyncState, ds: seq<DishData>)
    requires UniqueIds(s.rows)
    ensures UniqueIds(SyncLoop(s, ds).rows)
    decreases |ds|
  {
    if ds != [] {
      var d := ds[0];
      if d.id in s.current {
        SyncLoopKeepsUnique(SyncState(Replace(s.rows, d.id, Stored(d)), s.current - {d.id}), ds[1..]);
      } else if At(s.rows, d.id).Some? {
        SyncLoopKeepsUnique(s, ds[1..]);
      } else {
        AtIdsOf(s.rows, d.id);
        assert forall i :: 0 <= i < |s.rows| ==> s.rows[i].id != d.id by {
          forall i | 0 <= i < |s.rows|
            ensures s.rows[i].id != d.id
          {
            assert s.rows[i] in s.rows;
          }
        }
        SyncLoopKeepsUnique(SyncState(s.rows + [Stored(d)], s.current), ds[1..]);
      }
    }
  }

  /** The synced rows never hold two rows with one id. */
  lemma SyncKeepsUnique(rows: seq<DishRow>, ds: seq<DishData>)
    requires UniqueIds(rows)
    ensures UniqueIds(Sync(rows, ds))
  {
    var s := SyncLoop(SyncState(rows, IdsOf(rows)), ds);
    SyncLoopKeepsUnique(SyncState(rows, IdsOf(rows)), ds);
    WithoutKeepsUnique(s.rows, s.current);
  }

  /** Syncing twice with the same menu gives, id by id, what syncing once
      gives. */
  lemma SyncTwice(rows: seq<DishRow>, ds: seq<DishData>, x: DishId)
    ensures At(Sync(Sync(rows, ds), ds), x) == At(Sync(rows, ds), x)
  {
    SyncAt(rows, ds, x);
    SyncAt(Sync(rows, ds), ds, x);
  }

  /** The dishes toDomain builds. */
  function LoadAll(rows: seq<DishRow>): (ds: seq<DishData>)
    ensures |ds| == |rows|
  {
    if rows == [] then [] else [Loaded(rows[0])] + LoadAll(rows[1..])
  }

  lemma {:induction false} FirstOfLoadAll(rows: seq<DishRow>, x: DishId)
    ensures First(LoadAll(rows), x) == if At(rows, x).Some? then Some(Loaded(At(rows, x).value)) else None
  {
    if rows != [] {
      FirstOfLoadAll(rows[1..], x);
      assert LoadAll(rows)[1..] == LoadAll(rows[1..]);
    }
  }

  /** Syncing a menu onto any stored rows and reading the menu back gives,
      for every id, the menu's first dish with that id, provided no pending
      update of the menu lacks a time. */
  lemma SyncThenLoad(rows: seq<DishRow>, ds: seq<DishData>, x: DishId)
    requires forall i :: 0 <= i < |ds| ==> ds[i].pending.None? || ds[i].pending.value.scheduledFor.Some?
    ensures First(LoadAll(Sync(rows, ds)), x) == First(ds, x)
  {
    SyncAt(rows, ds, x);
    FirstOfLoadAll(Sync(rows, ds), x);
    FirstIsMember(ds, x);
    if First(ds, x).Some? {
      DishRoundTrip(First(ds, x).value);
    }
  }

  lemma {:induction false} FirstIsMember(ds: seq<DishData>, x: DishId)
    ensures First(ds, x).Some? ==> First(ds, x).value in ds && First(ds, x).value.id == x
  {
    if ds != [] {
      FirstIsMember(ds[1..], x);
    }
  }

  class JpaDishEntity {
    const id: DishId
    var details: Details
    var pending: PendingUpdate

    function Row(): DishRow
      reads this
    {
      DishRow(id, details, pending)
    }

    constructor (r: DishRow)
      ensures Row() == r
    {
      id, details, pending := r.id, r.details, r.pending;
    }

    /** A new row with the dish's columns, and its pending update's
      columns when it has one. */
    static method FromDomain(d: Dish) returns (e: JpaDishEntity)
      ensures fresh(e) && e.Row() == Stored(d.View())
    {
      e := new JpaDishEntity(Stored(d.View()));
    }

    /** Overwrites the columns from the dish, clearing the pending columns
      when the dish has no pending update; the id stays. A null dish
      changes nothing. */
    method UpdateFromDomain(d: Dish?)
      modifies this
      ensures d == null ==> Row() == old(Row())
      ensures d != null ==> Row() == Stored(d.View()).(id := id)
    {
      if d == null {
        return;
      }
      var r := Stored(d.View());
      details, pending := r.details, r.pending;
    }

    function ToDomain(): DishData
      reads this
    {
      Loaded(Row())
    }
  }

  function Rows(es: seq<JpaDishEntity>): (rs: seq<DishRow>)
    reads es
    ensures |rs| == |es|
  {
    if es == [] then [] else Rows(es[..|es| - 1]) + [es[|es| - 1].Row()]
  }

  lemma {:induction false} RowsAt(es: seq<JpaDishEntity>, i: nat)
    requires i < |es|
    ensures Rows(es)[i] == es[i].Row()
    decreases |es|
  {
    if i < |es| - 1 {
      RowsAt(es[..|es| - 1], i);
    }
  }

  lemma RowsAllAt(es: seq<JpaDishEntity>)
    ensures forall i :: 0 <= i < |es| ==> Rows(es)[i] == es[i].Row()
  {
    forall i | 0 <= i < |es|
      ensures Rows(es)[i] == es[i].Row()
    {
      RowsAt(es, i);
    }
  }

  lemma RowsPointwise(es: seq<JpaDishEntity>, rs: seq<DishRow>)
    requires |rs| == |es|
    requires forall i :: 0 <= i < |es| ==> rs[i] == es[i].Row()
    ensures Rows(es) == rs
  {
    RowsAllAt(es);
  }

  /** The entities whose id is not in `ids`, as Set.remove leaves them. */
  function RemoveAll(es: seq<JpaDishEntity>, ids: set<DishId>): seq<JpaDishEntity>
  {
    if es == [] then [] else (if es[0].id in ids then [] else [es[0]]) + RemoveAll(es[1..], ids)
  }

  lemma {:induction false} RowsOfRemoveAll(es: seq<JpaDishEntity>, ids: set<DishId>)
    ensures Rows(RemoveAll(es, ids)) == Without(Rows(es), ids)
    ensures forall e :: e in RemoveAll(es, ids) ==> e in es
  {
    RowsAllAt(es);
    if es != [] {
      RowsOfRemoveAll(es[1..], ids);
      var head := if es[0].id in ids then [] else [es[0]];
      var rest := RemoveAll(es[1..], ids);
      RowsAllAt(head + rest);
      RowsAllAt(rest);
      RowsAllAt(es[1..]);
      assert Rows(es)[1..] == Rows(es[1..]);
      assert Rows(es)[0] == es[0].Row();
      RowsPointwise(head + rest, (if es[0].id in ids then [] else [es[0].Row()]) + Rows(rest));
    }
  }

  /** Set.remove takes out only the entities with the given ids: every
      other entity stays. */
  lemma {:induction false} RemoveAllKeeps(es: seq<JpaDishEntity>, ids: set<DishId>)
    ensures forall e :: e in es && e.id !in ids ==> e in RemoveAll(es, ids)
  {
    if es != [] {
      RemoveAllKeeps(es[1..], ids);
      var head := if es[0].id in ids then [] else [es[0]];
      assert RemoveAll(es, ids) == head + RemoveAll(es[1..], ids);
      forall e | e in es && e.id !in ids
        ensures e in RemoveAll(es, ids)
      {
        if e != es[0] {
          assert e in es[1..];
        }
      }
    }
  }

  class JpaMenuEntity {
    const id: Uuid
    var dishes: seq<JpaDishEntity>

    /** The set holds at most one row per dish id. */
    ghost predicate Valid()
      reads this, dishes
    {
      UniqueIds(Rows(dishes))
    }

    constructor (id: Uuid)
      ensures this.id == id && dishes == []
    {
      this.id := id;
      dishes := [];
    }

    /** A new menu entity under the fresh id `newId`, with one new row per
      dish; a later dish with the id of an earlier one is not added. */
    static method FromDomain(menu: Menus.Menu, newId: Uuid) returns (e: JpaMenuEntity)
      ensures fresh(e) && e.id == newId && e.Valid()
      ensures forall j :: 0 <= j < |e.dishes| ==> fresh(e.dishes[j])
      ensures Rows(e.dishes) == Sync([], menu.Values())
    {
      e := new JpaMenuEntity(newId);
      ghost var vals := menu.Values();
      assert IdsOf([]) == {};
      var none := e.SyncAll(menu.dishes, map[]);
      assert none.Keys == {};
      assert SyncState(Rows(e.dishes), {}) == SyncLoop(SyncState([], IdsOf([])), vals);
      WithoutNothing(Rows(e.dishes));
    }

    /** One turn of updateFromDomain's loop for the dish `d`, where
      `current` maps each still unmatched id to its entity: that entity is
      updated in place, or a new entity is added when no row has the id. */
    method SyncDish(d: Dish, current: map<DishId, JpaDishEntity>) returns (rest: map<DishId, JpaDishEntity>)
      requires Valid()
      requires forall k :: k in current ==> current[k] in dishes && current[k].id == k
      modifies this, dishes
      ensures Valid()
      ensures SyncState(Rows(dishes), rest.Keys) == SyncStep(SyncState(old(Rows(dishes)), current.Keys), old(d.View()))
      ensures forall k :: k in rest ==> k in current && rest[k] == current[k]
      ensures forall x :: x in old(dishes) ==> x in dishes
      ensures forall i :: 0 <= i < |dishes| ==> dishes[i] in old(dishes) || fresh(dishes[i])
    {
      ghost var dv := d.View();
      assert dv.id == d.id;
      ghost var prior := Rows(dishes);
      if d.id in current {
        var existing := current[d.id];
        rest := current - {d.id};
        assert rest.Keys == current.Keys - {d.id};
        UpdateInPlace(dishes, existing, d);
        ReplaceKeepsUnique(prior, d.id, Stored(dv));
      } else {
        rest := current;
        var ent := JpaDishEntity.FromDomain(d);
        assert Rows(dishes) == prior;
        if At(Rows(dishes), d.id).None? {
          AppendKeepsUnique(prior, ent.Row());
          ghost var olds := dishes;
          dishes := dishes + [ent];
          assert dishes[..|dishes| - 1] == olds;
          assert Rows(dishes) == prior + [Stored(dv)];
        }
      }
    }

    /** updateFromDomain: the rows follow Sync of the domain menu; an
      entity whose id the menu still has stays in the set, updated in
      place rather than re-created, and a null menu changes nothing. */
    method UpdateFromDomain(menu: Menus.Menu?)
      requires Valid()
      modifies this, dishes
      ensures Valid()
      ensures menu == null ==> dishes == old(dishes) && Rows(dishes) == old(Rows(dishes))
      ensures menu != null ==> Rows(dishes) == Sync(old(Rows(dishes)), old(menu.Values()))
      ensures forall j :: 0 <= j < |dishes| ==> dishes[j] in old(dishes) || fresh(dishes[j])
      ensures menu != null ==>
                forall x :: x in old(dishes) && First(old(menu.Values()), x.id).Some? ==> x in dishes
    {
      if menu == null {
        return;
      }
      ghost var start := Rows(dishes);
      ghost var vals := menu.Values();
      var current := CurrentOf(dishes);
      current := SyncAll(menu.dishes, current);
      ghost var mid := SyncState(Rows(dishes), current.Keys);
      ghost var midDishes := dishes;
      assert mid == SyncLoop(SyncState(start, IdsOf(start)), vals);
      forall x | x in old(dishes) && First(vals, x.id).Some?
        ensures x.id !in current.Keys
      {
        SyncLoopAt(SyncState(start, IdsOf(start)), vals, x.id);
      }
      DropUnmatched(current.Keys);
      assert Rows(dishes) == Sync(start, vals);
      forall j | 0 <= j < |dishes|
        ensures dishes[j] in old(dishes) || fresh(dishes[j])
      {
        assert dishes[j] in midDishes;
        var k :| 0 <= k < |midDishes| && midDishes[k] == dishes[j];
      }
    }

    /** The removal after updateFromDomain's loop: the rows whose id is in
      `ids` are dropped, the others kept in order. */
    method DropUnmatched(ids: set<DishId>)
      requires Valid()
      modifies this
      ensures Valid()
      ensures Rows(dishes) == Without(old(Rows(dishes)), ids)
      ensures forall x :: x in dishes ==> x in old(dishes)
      ensures forall x :: x in old(dishes) && x.id !in ids ==> x in dishes
    {
      var kept := RemoveAll(dishes, ids);
      RowsOfRemoveAll(dishes, ids);
      RemoveAllKeeps(dishes, ids);
      WithoutKeepsUnique(Rows(dishes), ids);
      dishes := kept;
    }

    /** The loop of updateFromDomain over the domain dishes `ms`, with
      `current` mapping each still unmatched id to its entity. */
    method SyncAll(ms: seq<Dish>, current: map<DishId, JpaDishEntity>) returns (rest: map<DishId, JpaDishEntity>)
      requires Valid()
      requires forall k :: k in current ==> current[k] in dishes && current[k].id == k
      modifies this, dishes
      ensures Valid()
      ensures SyncState(Rows(dishes), rest.Keys) == SyncLoop(SyncState(old(Rows(dishes)), current.Keys), old(Menus.Views(ms)))
      ensures rest.Keys <= current.Keys
      ensures forall j :: 0 <= j < |dishes| ==> dishes[j] in old(dishes) || fresh(dishes[j])
      ensures forall x :: x in old(dishes) ==> x in dishes
    {
      ghost var start := SyncState(Rows(dishes), current.Keys);
      ghost var vals := Menus.Views(ms);
      rest := current;
      for i := 0 to |ms|
        invariant Valid()
        invariant forall j :: 0 <= j < |dishes| ==> dishes[j] in old(dishes) || fresh(dishes[j])
        invariant forall x :: x in old(dishes) ==> x in dishes
        invariant forall k :: k in rest ==> rest[k] in dishes && rest[k].id == k
        invariant rest.Keys <= current.Keys
        invariant SyncLoop(SyncState(Rows(dishes), rest.Keys), vals[i..]) == SyncLoop(start, vals)
      {
        Menus.ViewsAt(ms, i);
        SyncLoopUnfold(SyncState(Rows(dishes), rest.Keys), vals[i..]);
        rest := SyncDish(ms[i], rest);
      }
      assert vals[|vals|..] == [];
    }

    function ToDomain(): seq<DishData>
      reads this, dishes
    {
      LoadAll(Rows(dishes))
    }
  }

  /** The entities keyed by id, as updateFromDomain indexes the set
    before its loop. */
  method CurrentOf(es: seq<JpaDishEntity>) returns (current: map<DishId, JpaDishEntity>)
    requires UniqueIds(Rows(es))
    ensures current.Keys == IdsOf(Rows(es))
    ensures forall k :: k in current ==> current[k] in es && current[k].id == k
  {
    RowsAllAt(es);
    forall a, b | a in es && b in es && a.id == b.id
      ensures a == b
    {
      var i :| 0 <= i < |es| && es[i] == a;
      var j :| 0 <= j < |es| && es[j] == b;
      assert Rows(es)[i].id == Rows(es)[j].id;
    }
    current := map e | e in es :: e.id := e;
    forall x
      ensures x in current.Keys <==> x in IdsOf(Rows(es))
    {
      if x in current.Keys {
        var j :| 0 <= j < |es| && es[j].id == x;
        assert Rows(es)[j].id == x;
      }
      if x in IdsOf(Rows(es)) {
        var j :| 0 <= j < |Rows(es)| && Rows(es)[j].id == x;
        assert es[j] in es;
      }
    }
  }

  lemma SyncLoopUnfold(s: SyncState, ds: seq<DishData>)
    requires ds != []
    ensures SyncLoop(s, ds) == SyncLoop(SyncStep(s, ds[0]), ds[1..])
  {
  }

  lemma ReplaceKeepsUnique(rows: seq<DishRow>, id: DishId, r: DishRow)
    requires UniqueIds(rows) && r.id == id
    ensures UniqueIds(Replace(rows, id, r))
  {
  }

  lemma AppendKeepsUnique(rows: seq<DishRow>, r: DishRow)
    requires UniqueIds(rows) && At(rows, r.id).None?
    ensures UniqueIds(rows + [r])
  {
    AtIdsOf(rows, r.id);
    forall i | 0 <= i < |rows|
      ensures rows[i].id != r.id
    {
      assert rows[i] in rows;
    }
  }

  /** Updates the one entity of `es` with the dish's id in place: the rows
    change exactly where that id is. */
  method UpdateInPlace(es: seq<JpaDishEntity>, existing: JpaDishEntity, d: Dish)
    requires UniqueIds(Rows(es)) && existing in es && existing.id == d.id
    modifies existing
    ensures Rows(es) == Replace(old(Rows(es)), d.id, Stored(d.View()))
  {
    ghost var prior := Rows(es);
    RowsAllAt(es);
    ghost var k :| 0 <= k < |es| && es[k] == existing;
    assert forall j :: 0 <= j < |es| && j != k ==> es[j] != existing by {
      forall j | 0 <= j < |es| && j != k
        ensures es[j] != existing
      {
        assert prior[j].id != prior[k].id;
      }
    }
    existing.UpdateFromDomain(d);
    assert d.View().id == d.id;
    RowsPointwise(es, Replace(prior, d.id, Stored(d.View())));
  }

  lemma {:induction false} WithoutNothing(rows: seq<DishRow>)
    ensures Without(rows, {}) == rows
  {
    if rows != [] {
      WithoutNothing(rows[1..]);
    }
  }
}
