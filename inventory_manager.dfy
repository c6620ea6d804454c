/** InventoryManager: puts items into the first free gun slot or inventory slot, and buys a whole
    basket at once: either every item finds a slot and the money is taken, or nothing changes. */
module Inventory {
  import opened UnityMath
  import opened InventoryDb
  import opened Shop
  import opened PlayerMenu

  /** A row of slots: the prefab shown in each, None when the slot's pivot holds no model. */
  type Slots = seq<Option<PrefabId>>

  /** The contents of a slot array; a missing array has no slots. */
  function Contents(a: array?<Option<PrefabId>>): Slots
    reads a
  {
    if a == null then [] else a[..]
  }

  /** The lowest-index empty slot; None when every slot is filled. */
  function FirstEmpty(s: Slots): (k: Option<nat>)
    ensures k.Some? ==> k.value < |s| && s[k.value].None? && forall j :: 0 <= j < k.value ==> s[j].Some?
    ensures k.None? ==> forall j :: 0 <= j < |s| ==> s[j].Some?
  {
    if s == [] then None
    else if s[0].None? then Some(0)
    else match FirstEmpty(s[1..]) {
      case None => None
      case Some(k) => Some(k + 1)
    }
  }

  /** The lookup, failing when there is no database. */
  function Lookup(database: Option<seq<Entry>>, itemName: string): (e: Option<Entry>)
    ensures database.None? ==> e.None?
    ensures e.Some? ==> e.value in database.value && EqualsIgnoreCase(e.value.name, itemName)
  {
    if database.None? then None else Find(database.value, itemName)
  }

  /** Where an item goes: the gun row or the other row, a slot index, and the prefab shown. */
  datatype Placement = Placement(gun: bool, index: nat, prefab: PrefabId)

  predicate Fits(p: Placement, gun: Slots, misc: Slots)
  {
    if p.gun then p.index < |gun| && gun[p.index].None? else p.index < |misc| && misc[p.index].None?
  }

  /** The slot an item is placed in: found in the database with a prefab, in the first empty
      slot of its category's row. None when the lookup fails, the prefab is missing or the row
      is full. */
  function PlanOne(database: Option<seq<Entry>>, itemName: string, gun: Slots, misc: Slots): (p: Option<Placement>)
    ensures p.Some? ==> Fits(p.value, gun, misc)
    ensures p.Some? <==> (var e := Lookup(database, itemName);
                          e.Some? && e.value.prefab.Some?
                          && FirstEmpty(if e.value.category == Gun then gun else misc).Some?)
    ensures p.Some? ==> var e := Lookup(database, itemName).value;
                        && p.value.gun == (e.category == Gun) && Some(p.value.prefab) == e.prefab
                        && Some(p.value.index) == FirstEmpty(if p.value.gun then gun else misc)
  {
    var e := Lookup(database, itemName);
    if e.None? || e.value.prefab.None? then None
    else
      var isGun := e.value.category == Gun;
      var slot := FirstEmpty(if isGun then gun else misc);
      if slot.None? then None else Some(Placement(isGun, slot.value, e.value.prefab.value))
  }

  /** Showing the placement's prefab in its slot. */
  function Apply(p: Placement, gun: Slots, misc: Slots): (r: (Slots, Slots))
    requires Fits(p, gun, misc)
    ensures |r.0| == |gun| && |r.1| == |misc|
  {
    if p.gun then (gun[p.index := Some(p.prefab)], misc) else (gun, misc[p.index := Some(p.prefab)])
  }

  /** The names of the items, in basket order. */
  function Names(items: seq<Item>): (names: seq<string>)
    ensures |names| == |items| && forall i :: 0 <= i < |items| ==> names[i] == items[i].name
  {
    seq(|items|, i requires 0 <= i < |items| => items[i].name)
  }

  /** Placing the items one after another; None as soon as one of them cannot be placed. */
  function PlaceAll(database: Option<seq<Entry>>, names: seq<string>, gun: Slots, misc: Slots): (r: Option<(Slots, Slots)>)
    ensures r.Some? ==> |r.value.0| == |gun| && |r.value.1| == |misc|
  {
    if names == [] then Some((gun, misc))
    else match PlaceAll(database, names[..|names| - 1], gun, misc) {
      case None => None
      case Some(rows) =>
        var p := PlanOne(database, names[|names| - 1], rows.0, rows.1);
        if p.None? then None else Some(Apply(p.value, rows.0, rows.1))
    }
  }

  /** The number of empty slots in a row. */
  function CountEmpty(s: Slots): nat
  {
    if s == [] then 0 else CountEmpty(s[..|s| - 1]) + (if s[|s| - 1].None? then 1 else 0)
  }

  lemma {:induction false} CountEmptyFill(s: Slots, k: nat, v: PrefabId)
    requires k < |s| && s[k].None?
    ensures CountEmpty(s[k := Some(v)]) + 1 == CountEmpty(s)
  {
    var t := s[k := Some(v)];
    if k < |s| - 1 {
      assert t[..|t| - 1] == s[..|s| - 1][k := Some(v)];
      CountEmptyFill(s[..|s| - 1], k, v);
    } else {
      assert t[..|t| - 1] == s[..|s| - 1];
    }
  }

  /** A successful purchase fills exactly one previously empty slot per item and never touches
      a slot that was already filled. */
  lemma {:induction false} PlaceAllFillsEmptySlots(database: Option<seq<Entry>>, names: seq<string>,
                                                   gun: Slots, misc: Slots)
    requires PlaceAll(database, names, gun, misc).Some?
    ensures var r := PlaceAll(database, names, gun, misc).value;
            && |r.0| == |gun| && |r.1| == |misc|
            && (forall j :: 0 <= j < |gun| && gun[j].Some? ==> r.0[j] == gun[j])
            && (forall j :: 0 <= j < |misc| && misc[j].Some? ==> r.1[j] == misc[j])
            && CountEmpty(r.0) + CountEmpty(r.1) + |names| == CountEmpty(gun) + CountEmpty(misc)
  {
    if names != [] {
      var front := names[..|names| - 1];
      PlaceAllFillsEmptySlots(database, front, gun, misc);
      var rows := PlaceAll(database, front, gun, misc).value;
      var p := PlanOne(database, names[|names| - 1], rows.0, rows.1).value;
      if p.gun {
        CountEmptyFill(rows.0, p.index, p.prefab);
      } else {
        CountEmptyFill(rows.1, p.index, p.prefab);
      }
    }
  }

  /** Once an item cannot be placed, the purchase as a whole fails. */
  lemma {:induction false} PlaceAllFailureIsFinal(database: Option<seq<Entry>>, names: seq<string>,
                                                  gun: Slots, misc: Slots, i: nat)
    requires i <= |names| && PlaceAll(database, names[..i], gun, misc).None?
    ensures PlaceAll(database, names, gun, misc).None?
    decreases |names| - i
  {
    if i < |names| {
      assert names[..i + 1][..i] == names[..i];
      PlaceAllFailureIsFinal(database, names, gun, misc, i + 1);
    } else {
      assert names[..i] == names;
    }
  }

  /** `gun` and `misc` equal `gun0` and `misc0` except at the slots listed in `filled`, which
      were empty in `gun0` and `misc0`. */
  ghost predicate FilledOnlyAt(filled: seq<Placement>, gun0: Slots, misc0: Slots, gun: Slots, misc: Slots)
  {
    && |gun| == |gun0| && |misc| == |misc0|
    && (forall p :: p in filled ==> Fits(p, gun0, misc0))
    && (forall j :: 0 <= j < |gun| && gun[j] != gun0[j] ==> exists p :: p in filled && p.gun && p.index == j)
    && (forall j :: 0 <= j < |misc| && misc[j] != misc0[j] ==> exists p :: p in filled && !p.gun && p.index == j)
  }

  class InventoryManager {
    /** The database; None when none is assigned. */
    const database: Option<seq<Entry>>
    const gunSlots: array?<Option<PrefabId>>
    const miscSlots: array?<Option<PrefabId>>

    /** The gun row and the other row are different slot arrays. */
    ghost predicate Valid()
    {
      gunSlots == null || miscSlots == null || gunSlots != miscSlots
    }

    constructor (database: Option<seq<Entry>>, gunSlots: array?<Option<PrefabId>>, miscSlots: array?<Option<PrefabId>>)
      requires gunSlots == null || miscSlots == null || gunSlots != miscSlots
      ensures Valid()
      ensures this.database == database && this.gunSlots == gunSlots && this.miscSlots == miscSlots
    {
      this.database := database;
      this.gunSlots := gunSlots;
      this.miscSlots := miscSlots;
    }

    /** FindFirstEmpty: the index of the first empty slot of `arr`; None for a missing array or
        when every slot holds a model. */
    method FindFirstEmpty(arr: array?<Option<PrefabId>>) returns (k: Option<nat>)
      ensures k == FirstEmpty(Contents(arr))
    {
      if arr == null {
        return None;
      }
      var i := 0;
      while i < arr.Length
        invariant 0 <= i <= arr.Length
        invariant forall j :: 0 <= j < i ==> arr[j].Some?
      {
        if arr[i].None? {
          FirstEmptyIsLowest(arr[..], i);
          return Some(i);
        }
        i := i + 1;
      }
      FirstEmptyIsLowest(arr[..], -1);
      return None;
    }

    /** Place one item: look it up and show its prefab in the first empty slot of its row. */
    method PlaceItem(itemName: string) returns (placed: Option<Placement>)
      requires Valid()
      modifies gunSlots, miscSlots
      ensures placed == PlanOne(database, itemName, old(Contents(gunSlots)), old(Contents(miscSlots)))
      ensures placed.None? ==> Contents(gunSlots) == old(Contents(gunSlots)) && Contents(miscSlots) == old(Contents(miscSlots))
      ensures placed.Some? ==>
                (Contents(gunSlots), Contents(miscSlots)) == Apply(placed.value, old(Contents(gunSlots)), old(Contents(miscSlots)))
    {
      var e := Lookup(database, itemName);
      if e.None? || e.value.prefab.None? {
        return None;
      }
      var isGun := e.value.category == Gun;
      var arr := if isGun then gunSlots else miscSlots;
      var slot := FindFirstEmpty(arr);
      if slot.None? {
        return None;
      }
      arr[slot.value] := e.value.prefab;
      placed := Some(Placement(isGun, slot.value, e.value.prefab.value));
    }

    /** TryAddByName: true exactly when the item was placed. */
    method TryAddByName(itemName: string) returns (ok: bool)
      requires Valid()
      modifies gunSlots, miscSlots
      ensures var p := PlanOne(database, itemName, old(Contents(gunSlots)), old(Contents(miscSlots)));
              && (ok <==> p.Some?)
              && (ok ==> (Contents(gunSlots), Contents(miscSlots)) == Apply(p.value, old(Contents(gunSlots)), old(Contents(miscSlots))))
              && (!ok ==> Contents(gunSlots) == old(Contents(gunSlots)) && Contents(miscSlots) == old(Contents(miscSlots)))
    {
      var placed := PlaceItem(itemName);
      ok := placed.Some?;
    }

    /** Undo: clear every slot filled so far. */
    method Undo(filled: seq<Placement>)
      requires Valid()
      modifies gunSlots, miscSlots
      ensures |Contents(gunSlots)| == |old(Contents(gunSlots))| && |Contents(miscSlots)| == |old(Contents(miscSlots))|
      ensures forall j :: 0 <= j < |Contents(gunSlots)| ==>
                Contents(gunSlots)[j] == (if exists p :: p in filled && p.gun && p.index == j then None else old(Contents(gunSlots))[j])
      ensures forall j :: 0 <= j < |Contents(miscSlots)| ==>
                Contents(miscSlots)[j] == (if exists p :: p in filled && !p.gun && p.index == j then None else old(Contents(miscSlots))[j])
    {
      var i := 0;
      while i < |filled|
        invariant 0 <= i <= |filled|
        invariant |Contents(gunSlots)| == |old(Contents(gunSlots))| && |Contents(miscSlots)| == |old(Contents(miscSlots))|
        invariant forall j :: 0 <= j < |Contents(gunSlots)| ==>
                    Contents(gunSlots)[j] == (if exists p :: p in filled[..i] && p.gun && p.index == j then None else old(Contents(gunSlots))[j])
        invariant forall j :: 0 <= j < |Contents(miscSlots)| ==>
                    Contents(miscSlots)[j] == (if exists p :: p in filled[..i] && !p.gun && p.index == j then None else old(Contents(miscSlots))[j])
      {
        var p := filled[i];
        var arr := if p.gun then gunSlots else miscSlots;
        if arr != null && p.index < arr.Length {
          arr[p.index] := None;
        }
        assert filled[..i + 1] == filled[..i] + [p];
        i := i + 1;
      }
      assert filled[..i] == filled;
    }

    /** PurchaseBasket: at the cashier, with enough money, place every item of the basket; if one
        cannot be placed, clear the slots filled in this call and fail. On success the total is
        taken from the money and the basket is emptied. `menu` stands for the static
        `PlayerMenuController.Instance`. */
    method PurchaseBasket(basket: Basket?, menu: PlayerMenuController?) returns (ok: bool)
      requires Valid()
      modifies gunSlots, miscSlots, basket, menu
      ensures menu != null ==> OnlyMoneyChanged(menu)
      ensures basket != null ==> basket.canPayHere == old(basket.canPayHere) && basket.paidEvents == old(basket.paidEvents)
      ensures var plan := if basket == null then None
                          else PlaceAll(database, Names(old(basket.items)), old(Contents(gunSlots)), old(Contents(miscSlots)));
              && (ok <==> basket != null && old(basket.canPayHere) && menu != null
                          && old(menu.money) >= SumPrices(old(basket.items)) && plan.Some?)
              && (ok ==> (Contents(gunSlots), Contents(miscSlots)) == plan.value
                         && menu.money == old(menu.money) - SumPrices(old(basket.items))
                         && basket.items == [] && basket.changedEvents == old(basket.changedEvents) + 1)
      ensures !ok ==> Contents(gunSlots) == old(Contents(gunSlots)) && Contents(miscSlots) == old(Contents(miscSlots))
                      && (basket != null ==> unchanged(basket)) && (menu != null ==> unchanged(menu))
    {
      if basket == null || !basket.canPayHere || menu == null {
        return false;
      }
      var total := basket.Total();
      if menu.money < total {
        return false;
      }
      var placedAll := PlaceEvery(Names(basket.items), Contents(gunSlots), Contents(miscSlots));
      if !placedAll {
        return false;
      }
      menu.AddMoney(-total);
      basket.Clear();
      ok := true;
    }

    /** The placing loop of PurchaseBasket: place the items one by one; when one cannot be
        placed, Undo the slots filled so far and fail. */
    method PlaceEvery(pending: seq<string>, ghost gun0: Slots, ghost misc0: Slots) returns (ok: bool)
      requires Valid()
      requires Contents(gunSlots) == gun0 && Contents(miscSlots) == misc0
      modifies gunSlots, miscSlots
      ensures ok <==> PlaceAll(database, pending, gun0, misc0).Some?
      ensures ok ==> (Contents(gunSlots), Contents(miscSlots)) == PlaceAll(database, pending, gun0, misc0).value
      ensures !ok ==> Contents(gunSlots) == gun0 && Contents(miscSlots) == misc0
    {
      var filled: seq<Placement> := [];
      var i := 0;
      while i < |pending|
        invariant 0 <= i <= |pending|
        invariant PlaceAll(database, pending[..i], gun0, misc0) == Some((Contents(gunSlots), Contents(miscSlots)))
        invariant filled == Placements(database, pending[..i], gun0, misc0)
      {
        var placed := PlaceStep(pending, i, filled, gun0, misc0);
        if placed.None? {
          return false;
        }
        filled := filled + [placed.value];
        i := i + 1;
      }
      assert pending[..i] == pending;
      ok := true;
    }

    /** One round of the placing loop: place the item `pending[i]`, or, when it cannot be
        placed, Undo the slots filled so far, which gives back the rows as they were before the
        purchase, and the purchase as a whole fails. */
    method PlaceStep(pending: seq<string>, i: nat, filled: seq<Placement>, ghost gun0: Slots, ghost misc0: Slots)
      returns (placed: Option<Placement>)
      requires Valid() && i < |pending|
      requires PlaceAll(database, pending[..i], gun0, misc0) == Some((Contents(gunSlots), Contents(miscSlots)))
      requires filled == Placements(database, pending[..i], gun0, misc0)
      modifies gunSlots, miscSlots
      ensures placed.Some? ==>
                && PlaceAll(database, pending[..i + 1], gun0, misc0) == Some((Contents(gunSlots), Contents(miscSlots)))
                && filled + [placed.value] == Placements(database, pending[..i + 1], gun0, misc0)
      ensures placed.None? ==>
                && PlaceAll(database, pending, gun0, misc0).None?
                && Contents(gunSlots) == gun0 && Contents(miscSlots) == misc0
    {
      ghost var gun, misc := Contents(gunSlots), Contents(miscSlots);
      PlaceAllStep(database, pending, i, gun0, misc0, (gun, misc));
      placed := PlaceItem(pending[i]);
      if placed.None? {
        PlaceAllFailureIsFinal(database, pending, gun0, misc0, i + 1);
        PlacementsFilledOnly(database, pending[..i], gun0, misc0);
        Undo(filled);
        UndoRestoresRows(filled, gun0, misc0, gun, misc, Contents(gunSlots), Contents(miscSlots));
      }
    }
  }

  /** One more item of the basket: the plan so far extended by that item's placement. */
  lemma PlaceAllStep(database: Option<seq<Entry>>, names: seq<string>, i: nat, gun: Slots, misc: Slots,
                     rows: (Slots, Slots))
    requires i < |names| && PlaceAll(database, names[..i], gun, misc) == Some(rows)
    ensures var p := PlanOne(database, names[i], rows.0, rows.1);
            PlaceAll(database, names[..i + 1], gun, misc) == if p.None? then None else Some(Apply(p.value, rows.0, rows.1))
    ensures var p := PlanOne(database, names[i], rows.0, rows.1);
            p.Some? ==> Placements(database, names[..i + 1], gun, misc) == Placements(database, names[..i], gun, misc) + [p.value]
  {
    assert names[..i + 1][..i] == names[..i];
  }

  /** The placements of a successful plan, in the order the items were placed. */
  function Placements(database: Option<seq<Entry>>, names: seq<string>, gun: Slots, misc: Slots): seq<Placement>
    requires PlaceAll(database, names, gun, misc).Some?
  {
    if names == [] then []
    else
      var front := names[..|names| - 1];
      var rows := PlaceAll(database, front, gun, misc).value;
      Placements(database, front, gun, misc) + [PlanOne(database, names[|names| - 1], rows.0, rows.1).value]
  }

  /** The slots a plan has filled so far are exactly those its placements name. */
  lemma {:induction false} PlacementsFilledOnly(database: Option<seq<Entry>>, names: seq<string>, gun: Slots, misc: Slots)
    requires PlaceAll(database, names, gun, misc).Some?
    ensures var r := PlaceAll(database, names, gun, misc).value;
            FilledOnlyAt(Placements(database, names, gun, misc), gun, misc, r.0, r.1)
  {
    if names != [] {
      var front := names[..|names| - 1];
      PlacementsFilledOnly(database, front, gun, misc);
      var rows := PlaceAll(database, front, gun, misc).value;
      var p := PlanOne(database, names[|names| - 1], rows.0, rows.1).value;
      FilledOnlyAtStep(Placements(database, front, gun, misc), p, gun, misc, rows.0, rows.1);
    }
  }

  /** Filling one more empty slot keeps the record of filled slots complete. */
  lemma FilledOnlyAtStep(filled: seq<Placement>, p: Placement, gun0: Slots, misc0: Slots, gun: Slots, misc: Slots)
    requires FilledOnlyAt(filled, gun0, misc0, gun, misc)
    requires Fits(p, gun, misc)
    ensures FilledOnlyAt(filled + [p], gun0, misc0, Apply(p, gun, misc).0, Apply(p, gun, misc).1)
  {
    var r := Apply(p, gun, misc);
    forall j | 0 <= j < |r.0| && r.0[j] != gun0[j]
      ensures exists q :: q in filled + [p] && q.gun && q.index == j
    {
      if p.gun && j == p.index {
        assert p in filled + [p];
      } else {
        var q :| q in filled && q.gun && q.index == j;
        assert q in filled + [p];
      }
    }
    forall j | 0 <= j < |r.1| && r.1[j] != misc0[j]
      ensures exists q :: q in filled + [p] && !q.gun && q.index == j
    {
      if !p.gun && j == p.index {
        assert p in filled + [p];
      } else {
        var q :| q in filled && !q.gun && q.index == j;
        assert q in filled + [p];
      }
    }
  }

  /** Clearing the slots filled since `gun0` and `misc0` gives back `gun0` and `misc0`: Undo
      never clears a slot that was filled before the purchase started. */
  lemma UndoRestoresRows(filled: seq<Placement>, gun0: Slots, misc0: Slots,
                         gun: Slots, misc: Slots, gun1: Slots, misc1: Slots)
    requires FilledOnlyAt(filled, gun0, misc0, gun, misc)
    requires |gun1| == |gun| && |misc1| == |misc|
    requires forall j :: 0 <= j < |gun1| ==>
               gun1[j] == (if exists p :: p in filled && p.gun && p.index == j then None else gun[j])
    requires forall j :: 0 <= j < |misc1| ==>
               misc1[j] == (if exists p :: p in filled && !p.gun && p.index == j then None else misc[j])
    ensures gun1 == gun0 && misc1 == misc0
  {
    forall j | 0 <= j < |gun1|
      ensures gun1[j] == gun0[j]
    {
      if exists p :: p in filled && p.gun && p.index == j {
        var p :| p in filled && p.gun && p.index == j;
        assert Fits(p, gun0, misc0);
      }
    }
    forall j | 0 <= j < |misc1|
      ensures misc1[j] == misc0[j]
    {
      if exists p :: p in filled && !p.gun && p.index == j {
        var p :| p in filled && !p.gun && p.index == j;
        assert Fits(p, gun0, misc0);
      }
    }
  }

  lemma FirstEmptyIsLowest(s: Slots, k: int)
    requires -1 <= k < |s|
    requires k >= 0 ==> s[k].None?
    requires forall j :: 0 <= j < (if k >= 0 then k else |s|) ==> s[j].Some?
    ensures FirstEmpty(s) == (if k >= 0 then Some(k) else None)
  {
    var r := FirstEmpty(s);
    if r.Some? {
      assert r.value >= k >= 0;
    }
  }
}
