/** Clients of the screen model, written against the contracts only: a burger ordered twice, a
    large cola ordered three times, a screen where nothing was picked, and a size name the
    catalog does not list. */
module Scenarios {
  import opened Basics
  import opened Catalog
  import opened QtyBySize
  import opened Order
  import opened App

  method BurgerTwice() {
    var burger := Item("Burger", Some(500), []);
    var app := new ListViewApp();
    app.Build([burger]);
    var q := app.UpdateQty(0, 1);
    q := app.UpdateQty(0, 1);
    assert q == 2;
    var st := ItemState(burger, 2, None);
    assert app.itemChecks == [] + [st];
    OrderLinesSnoc([], st);
    var lines, total := app.OnOrder();
    assert lines == [ItemLine("Burger", None, 2, 1000), TotalLine(1000)];
  }

  /** The size dictionary of the cola starts as S: 0, L: 0. */
  lemma ColaStartsAtZero(cola: Item)
    requires cola.sizes == [Size("S", Some(150)), Size("L", Some(200))]
    ensures ZeroQtyBySize(cola.sizes) == [Entry("S", 0), Entry("L", 0)]
  {
    assert cola.sizes[..1] == [Size("S", Some(150))] && cola.sizes[..1][..0] == [];
    assert ZeroQtyBySize(cola.sizes[..1]) == [Entry("S", 0)];
    assert Keys([Entry("S", 0)]) == ["S"];
  }

  /** In the dictionary S: 0, L: n the large size reads n and is overwritten in place. */
  lemma LargeEntry(n: int, k: int)
    ensures Get([Entry("S", 0), Entry("L", n)], "L", 0) == n
    ensures Put([Entry("S", 0), Entry("L", n)], "L", k) == [Entry("S", 0), Entry("L", k)]
  {
    var m := [Entry("S", 0), Entry("L", n)];
    assert Keys(m) == ["S", "L"];
    FirstIndexIs(Keys(m), "L", 1);
  }

  /** Three large colas make one line of 600. */
  lemma ColaSummary(cola: Item, st: ItemState)
    requires cola == Item("Cola", None, [Size("S", Some(150)), Size("L", Some(200))])
    requires st == ItemState(cola, 0, Some([Entry("S", 0), Entry("L", 3)]))
    ensures OrderLines([st]) == [ItemLine("Cola", Some("L"), 3, 600)]
    ensures SumSubtotals(OrderLines([st])) == 600
  {
    var bySize := st.qtyBySize.value;
    FirstMatchingSizePriceWins(cola, 1, 200);
    SizeLinesSnoc(cola, [], bySize[0]);
    SizeLinesSnoc(cola, [bySize[0]], bySize[1]);
    assert [] + [bySize[0]] == [bySize[0]] && [bySize[0]] + [bySize[1]] == bySize;
    assert SizeLines(cola, []) == Concat([]) == [];
    assert EntryLines(cola, bySize[0]) == [];
    assert EntryLines(cola, bySize[1]) == [ItemLine("Cola", Some("L"), 3, 600)];
    assert OrderLines([]) == Concat([]) == [];
    OrderLinesSnoc([], st);
    assert [] + [st] == [st];
    assert StateLines(st) == SizeLines(cola, bySize) == [ItemLine("Cola", Some("L"), 3, 600)];
    SumSubtotalsSnoc([], ItemLine("Cola", Some("L"), 3, 600));
  }

  method LargeColaThrice() {
    var cola := Item("Cola", None, [Size("S", Some(150)), Size("L", Some(200))]);
    var app := new ListViewApp();
    app.Build([cola]);
    ColaStartsAtZero(cola);
    LargeEntry(0, 1);
    var q := app.UpdateSizeQty(0, "L", 1);
    LargeEntry(1, 2);
    q := app.UpdateSizeQty(0, "L", 1);
    LargeEntry(2, 3);
    q := app.UpdateSizeQty(0, "L", 1);
    var bySize := [Entry("S", 0), Entry("L", 3)];
    assert app.itemChecks == [ItemState(cola, 0, Some(bySize))];
    ColaSummary(cola, app.itemChecks[0]);
    var lines, total := app.OnOrder();
    assert lines == [ItemLine("Cola", Some("L"), 3, 600), TotalLine(600)];
  }

  method NothingPicked(items: seq<Item>) {
    var app := new ListViewApp();
    app.Build(items);
    InitialStatesOrderNothing(app.itemChecks);
    var lines, total := app.OnOrder();
    assert lines == [NothingSelected, TotalLine(0)];
  }

  method UnlistedSizeFallsBack() {
    var cola := Item("Cola", Some(120), [Size("S", Some(150)), Size("L", Some(200))]);
    SizedPriceFallback(cola, "XL");
    assert SizedUnitPrice(cola, "XL") == 120;
  }
}
