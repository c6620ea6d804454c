/** Basket: the items picked up in a shop, their total price, and paying for them at the cashier
    with the money held by the player's menu. */
module Shop {
  import opened UnityMath
  import opened PlayerMenu

  datatype Item = Item(name: string, price: int)

  /** The sum of the prices, added up from the first item to the last. */
  function SumPrices(items: seq<Item>): (total: int)
    ensures (forall i :: 0 <= i < |items| ==> items[i].price >= 0) ==>
              forall i :: 0 <= i < |items| ==> items[i].price <= total
  {
    if items == [] then 0 else SumPrices(items[..|items| - 1]) + items[|items| - 1].price
  }

  /** Appending an item adds its price to the total. */
  lemma SumPricesAppend(items: seq<Item>, it: Item)
    ensures SumPrices(items + [it]) == SumPrices(items) + it.price
  {
    assert (items + [it])[..|items|] == items;
  }

  /** The total of two lists put together is the sum of their totals. */
  lemma {:induction false} SumPricesConcat(a: seq<Item>, b: seq<Item>)
    ensures SumPrices(a + b) == SumPrices(a) + SumPrices(b)
  {
    if b != [] {
      var front := b[..|b| - 1];
      SumPricesConcat(a, front);
      assert a + b == (a + front) + [b[|b| - 1]];
      SumPricesAppend(a + front, b[|b| - 1]);
    } else {
      assert a + b == a;
    }
  }

  /** With no negative price the total is never negative, so paying never adds money. */
  lemma {:induction false} SumPricesNonNegative(items: seq<Item>)
    requires forall i :: 0 <= i < |items| ==> items[i].price >= 0
    ensures SumPrices(items) >= 0
  {
    if items != [] {
      SumPricesNonNegative(items[..|items| - 1]);
    }
  }

  class Basket {
    var items: seq<Item>
    /** True while the player stands in the cashier zone. */
    var canPayHere: bool
    /** How many times `onChanged` and `onPaid` have fired. */
    var changedEvents: nat
    var paidEvents: nat

    constructor ()
      ensures items == [] && !canPayHere && changedEvents == 0 && paidEvents == 0
    {
      items := [];
      canPayHere := false;
      changedEvents := 0;
      paidEvents := 0;
    }

    /** Total: the running sum of the item prices. */
    method Total() returns (t: int)
      ensures t == SumPrices(items)
    {
      t := 0;
      var i := 0;
      while i < |items|
        invariant 0 <= i <= |items|
        invariant t == SumPrices(items[..i])
      {
        assert items[..i + 1] == items[..i] + [items[i]];
        SumPricesAppend(items[..i], items[i]);
        t := t + items[i].price;
        i := i + 1;
      }
      assert items[..i] == items;
    }

    /** Add: one new item at the end; the total grows by its price. */
    method Add(name: string, price: int)
      modifies this`items, this`changedEvents
      ensures items == old(items) + [Item(name, price)]
      ensures SumPrices(items) == SumPrices(old(items)) + price
      ensures changedEvents == old(changedEvents) + 1
    {
      SumPricesAppend(items, Item(name, price));
      items := items + [Item(name, price)];
      changedEvents := changedEvents + 1;
    }

    /** Clear: the basket is emptied and its total is 0. */
    method Clear()
      modifies this`items, this`changedEvents
      ensures items == [] && SumPrices(items) == 0
      ensures changedEvents == old(changedEvents) + 1
    {
      items := [];
      changedEvents := changedEvents + 1;
    }

    /** TryPayUsingMenuMoney: at the cashier, with a menu whose money covers the total, take the
        total from the money, empty the basket and report the payment. `menu` stands for the
        static `PlayerMenuController.Instance`. */
    method TryPayUsingMenuMoney(menu: PlayerMenuController?) returns (paid: bool)
      modifies this`items, this`changedEvents, this`paidEvents, menu
      ensures menu != null ==> OnlyMoneyChanged(menu)
      ensures paid <==> canPayHere && menu != null && old(menu.money) >= SumPrices(old(items))
      ensures paid ==>
                && menu.money == old(menu.money) - SumPrices(old(items))
                && items == [] && changedEvents == old(changedEvents) + 1
                && paidEvents == old(paidEvents) + 1
      ensures !paid ==> unchanged(this) && (menu != null ==> menu.money == old(menu.money))
      ensures paid && old(menu.money) >= 0 ==> menu.money >= 0
    {
      paid := false;
      if !canPayHere {
        return;
      }
      if menu == null {
        return;
      }
      var total := Total();
      if menu.money < total {
        return;
      }
      menu.AddMoney(-total);
      Clear();
      paidEvents := paidEvents + 1;
      paid := true;
    }
  }
}
