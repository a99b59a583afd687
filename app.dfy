/** The order-taking screen, reduced to the state it keeps and the operations that change or
    read it: building one state per catalog item, the -/+ buttons, and the order button. */
module App {
  import opened Basics
  import opened Catalog
  import opened QtyBySize
  import opened Order

  class ListViewApp {
    /** `self.item_checks`: one order state per catalog item, in catalog order. */
    var itemChecks: seq<ItemState>

    ghost predicate Valid()
      reads this
    {
      forall i :: 0 <= i < |itemChecks| ==> StateValid(itemChecks[i])
    }

    constructor ()
      ensures Valid() && itemChecks == []
    {
      itemChecks := [];
    }

    /** The state part of `build`: one fresh state per catalog item, appended in catalog order. */
    method Build(items: seq<Item>)
      modifies this
      ensures Valid()
      ensures |itemChecks| == |items|
      ensures forall i :: 0 <= i < |items| ==> itemChecks[i] == InitialState(items[i])
    {
      itemChecks := [];
      for k := 0 to |items|
        invariant |itemChecks| == k
        invariant forall i :: 0 <= i < k ==> itemChecks[i] == InitialState(items[i])
        invariant Valid()
      {
        var it := items[k];
        var state := ItemState(it, 0, None);
        if |it.sizes| > 0 {
          state := state.(qtyBySize := Some(ZeroQtyBySize(it.sizes)));
        }
        itemChecks := itemChecks + [state];
      }
    }

    /** The -/+ buttons of an item without sizes: the plain quantity of state `i` becomes
        `max(0, qty + change)`; nothing else changes. Returns the new quantity, which the
        screen shows. */
    method UpdateQty(i: nat, change: int) returns (qty: int)
      requires Valid() && i < |itemChecks|
      modifies this
      ensures Valid()
      ensures qty == ClampAtZero(old(itemChecks[i].qty) + change)
      ensures itemChecks == old(itemChecks)[i := old(itemChecks[i]).(qty := qty)]
    {
      var state := itemChecks[i];
      qty := ClampAtZero(state.qty + change);
      itemChecks := itemChecks[i := state.(qty := qty)];
    }

    /** The -/+ buttons of one size of a sized item: entry `size` of the size dictionary of
        state `i` becomes `max(0, m.get(size, 0) + change)`. Only that entry changes; a size
        name the dictionary lacks is added at its end, as a dict assignment does. */
    method UpdateSizeQty(i: nat, size: string, change: int) returns (qty: int)
      requires Valid() && i < |itemChecks| && itemChecks[i].qtyBySize.Some?
      modifies this
      ensures Valid()
      ensures qty == ClampAtZero(Get(old(itemChecks[i].qtyBySize.value), size, 0) + change)
      ensures itemChecks ==
        old(itemChecks)[i := old(itemChecks[i]).(qtyBySize := Some(Put(old(itemChecks[i].qtyBySize.value), size, qty)))]
    {
      var state := itemChecks[i];
      var bySize := state.qtyBySize.value;
      qty := ClampAtZero(Get(bySize, size, 0) + change);
      var bySize' := Put(bySize, size, qty);
      KeysMembership(bySize);
      KeysMembership(bySize');
      itemChecks := itemChecks[i := state.(qtyBySize := Some(bySize'))];
    }

    /** The order button: one line per positive quantity (states in catalog order, sizes in
        dictionary order), the "no items selected" line when there is none, then the total
        line, whose total is the sum of the subtotals. */
    method OnOrder() returns (lines: seq<Line>, total: int)
      ensures total == SumSubtotals(OrderLines(itemChecks))
      ensures lines == OrderLines(itemChecks) +
        (if OrderLines(itemChecks) == [] then [NothingSelected] else []) + [TotalLine(total)]
      ensures NothingOrdered(itemChecks) ==> lines == [NothingSelected, TotalLine(0)]
    {
      lines, total := [], 0;
      for n := 0 to |itemChecks|
        invariant lines == OrderLines(itemChecks[..n])
        invariant total == SumSubtotals(lines)
      {
        var st := itemChecks[n];
        var p := st.product;
        ghost var before := lines;
        if st.qtyBySize.Some? {
          var bySize := st.qtyBySize.value;
          for j := 0 to |bySize|
            invariant lines == before + SizeLines(p, bySize[..j])
            invariant total == SumSubtotals(lines)
          {
            var e := bySize[j];
            assert bySize[..j + 1] == bySize[..j] + [e];
            SizeLinesSnoc(p, bySize[..j], e);
            if e.qty > 0 {
              var price := SizedUnitPrice(p, e.size);
              var line := ItemLine(p.name, Some(e.size), e.qty, price * e.qty);
              SumSubtotalsSnoc(lines, line);
              lines := lines + [line];
              total := total + price * e.qty;
            }
          }
          assert bySize[..|bySize|] == bySize;
        } else {
          var qty := st.qty;
          if qty > 0 {
            var price := BasePrice(p);
            var line := ItemLine(p.name, None, qty, price * qty);
            SumSubtotalsSnoc(lines, line);
            lines := lines + [line];
            total := total + price * qty;
          }
        }
        assert itemChecks[..n + 1] == itemChecks[..n] + [st];
        OrderLinesSnoc(itemChecks[..n], st);
      }
      assert itemChecks[..|itemChecks|] == itemChecks;
      OrderLinesEmpty(itemChecks);
      if lines == [] {
        lines := lines + [NothingSelected];
      }
      lines := lines + [TotalLine(total)];
    }
  }
}
