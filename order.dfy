/** The order state the app keeps per catalog item, and the order summary built from it. */
module Order {
  import opened Basics
  import opened Catalog
  import opened QtyBySize

  /** The `state` dict built per catalog item: the product, the plain quantity `qty` (present on
      every state, sized or not) and, for an item with sizes, `qty_by_size`. */
  datatype ItemState = ItemState(product: Item, qty: int, qtyBySize: Option<QtyMap>)

  /** `max(0, n)`: quantities clamp at zero and have no upper bound. */
  function ClampAtZero(n: int): nat {
    if n < 0 then 0 else n
  }

  /** What every state keeps: no negative quantity, a size dictionary exactly when the item
      has sizes, and in it one key per name (at least every size name of the item). */
  predicate StateValid(st: ItemState) {
    && st.qty >= 0
    && (st.qtyBySize.Some? <==> |st.product.sizes| > 0)
    && (st.qtyBySize.Some? ==>
          && DistinctKeys(st.qtyBySize.value)
          && NonNegative(st.qtyBySize.value)
          && forall i :: 0 <= i < |st.product.sizes| ==> st.product.sizes[i].name in Keys(st.qtyBySize.value))
  }

  /** No quantity of `st` that the summary reads is positive. */
  predicate NothingOrderedIn(st: ItemState) {
    match st.qtyBySize
    case None => st.qty <= 0
    case Some(m) => forall j :: 0 <= j < |m| ==> m[j].qty <= 0
  }

  predicate NothingOrdered(states: seq<ItemState>) {
    forall i :: 0 <= i < |states| ==> NothingOrderedIn(states[i])
  }

  /** The state created for `item` when the screen is built: it keeps the invariant and orders
      nothing yet. */
  function InitialState(item: Item): (st: ItemState)
    ensures st.product == item
    ensures StateValid(st)
    ensures NothingOrderedIn(st)
  {
    ItemState(item, 0, if |item.sizes| > 0 then Some(ZeroQtyBySize(item.sizes)) else None)
  }

  /** One line of the confirmation popup, kept structured: an ordered entry with its size (None
      for an item without sizes), quantity and subtotal; the "no items selected" message; or
      the total. */
  datatype Line =
    | ItemLine(name: string, size: Option<string>, qty: int, subtotal: int)
    | NothingSelected
    | TotalLine(total: int)

  /** The line of one size entry: none when its quantity is not positive. */
  function EntryLines(item: Item, e: Entry): seq<Line> {
    if e.qty > 0 then [ItemLine(item.name, Some(e.size), e.qty, SizedUnitPrice(item, e.size) * e.qty)] else []
  }

  /** The lines for the sizes of `item` whose quantity is positive, in dictionary order. */
  function SizeLines(item: Item, m: QtyMap): seq<Line> {
    Concat(seq(|m|, j requires 0 <= j < |m| => EntryLines(item, m[j])))
  }

  /** The lines one state contributes: a sized state only through its size dictionary. */
  function StateLines(st: ItemState): seq<Line> {
    match st.qtyBySize
    case Some(m) => SizeLines(st.product, m)
    case None =>
      if st.qty > 0 then [ItemLine(st.product.name, None, st.qty, BasePrice(st.product) * st.qty)] else []
  }

  /** The entry lines of the summary, state after state in catalog order. */
  function OrderLines(states: seq<ItemState>): seq<Line> {
    Concat(seq(|states|, i requires 0 <= i < |states| => StateLines(states[i])))
  }

  /** The sum of the subtotals of the entry lines among `lines`. */
  function SumSubtotals(lines: seq<Line>): int
    decreases |lines|
  {
    if lines == [] then 0
    else
      var last := lines[|lines| - 1];
      SumSubtotals(lines[..|lines| - 1]) + if last.ItemLine? then last.subtotal else 0
  }

  /** One more line adds its subtotal, if it is an entry line. */
  lemma SumSubtotalsSnoc(lines: seq<Line>, line: Line)
    ensures SumSubtotals(lines + [line]) == SumSubtotals(lines) + if line.ItemLine? then line.subtotal else 0
  {
    assert (lines + [line])[..|lines|] == lines;
  }

  /** `line` is the summary line of one positive quantity held in `st`, priced by the unit
      price rule: the plain quantity of a state without sizes, or one entry of the size
      dictionary of a state with them. */
  ghost predicate LineOf(st: ItemState, line: Line) {
    match st.qtyBySize
    case None =>
      st.qty > 0 && line == ItemLine(st.product.name, None, st.qty, BasePrice(st.product) * st.qty)
    case Some(m) =>
      exists j :: 0 <= j < |m| && m[j].qty > 0 &&
        line == ItemLine(st.product.name, Some(m[j].size), m[j].qty, SizedUnitPrice(st.product, m[j].size) * m[j].qty)
  }

  /** The size lines of a dictionary split anywhere are the lines of the two parts, in
      order. */
  lemma SizeLinesAppend(item: Item, a: QtyMap, b: QtyMap)
    ensures SizeLines(item, a + b) == SizeLines(item, a) + SizeLines(item, b)
  {
    var f := j requires 0 <= j < |a + b| => EntryLines(item, (a + b)[j]);
    var fa := j requires 0 <= j < |a| => EntryLines(item, a[j]);
    var fb := j requires 0 <= j < |b| => EntryLines(item, b[j]);
    assert seq(|a + b|, f) == seq(|a|, fa) + seq(|b|, fb);
    ConcatAppend(seq(|a|, fa), seq(|b|, fb));
  }

  /** The summary of a catalog split anywhere is the summary of the first part followed by
      that of the second: lines follow catalog order. */
  lemma OrderLinesAppend(a: seq<ItemState>, b: seq<ItemState>)
    ensures OrderLines(a + b) == OrderLines(a) + OrderLines(b)
  {
    var f := i requires 0 <= i < |a + b| => StateLines((a + b)[i]);
    var fa := i requires 0 <= i < |a| => StateLines(a[i]);
    var fb := i requires 0 <= i < |b| => StateLines(b[i]);
    assert seq(|a + b|, f) == seq(|a|, fa) + seq(|b|, fb);
    ConcatAppend(seq(|a|, fa), seq(|b|, fb));
  }

  /** One more state adds its own lines after those of the states before it. */
  lemma OrderLinesSnoc(states: seq<ItemState>, st: ItemState)
    ensures OrderLines(states + [st]) == OrderLines(states) + StateLines(st)
  {
    OrderLinesAppend(states, [st]);
    var one := seq(1, i requires 0 <= i < 1 => StateLines([st][i]));
    assert one == [StateLines(st)] && one[..0] == [];
    assert OrderLines([st]) == Concat(one) == Concat([]) + StateLines(st);
  }

  /** One more size entry adds its own line, if any, after those of the entries before it. */
  lemma SizeLinesSnoc(item: Item, m: QtyMap, e: Entry)
    ensures SizeLines(item, m + [e]) == SizeLines(item, m) + EntryLines(item, e)
  {
    SizeLinesAppend(item, m, [e]);
    var one := seq(1, j requires 0 <= j < 1 => EntryLines(item, [e][j]));
    assert one == [EntryLines(item, e)] && one[..0] == [];
    assert SizeLines(item, [e]) == Concat(one) == Concat([]) + EntryLines(item, e);
  }

  /** A line is among the size lines exactly when some entry has a positive quantity and the
      line shows it at its unit price. */
  lemma SizeLinesExact(item: Item, m: QtyMap, line: Line)
    ensures line in SizeLines(item, m) <==>
      exists j :: 0 <= j < |m| && m[j].qty > 0 &&
        line == ItemLine(item.name, Some(m[j].size), m[j].qty, SizedUnitPrice(item, m[j].size) * m[j].qty)
  {
    var parts := seq(|m|, j requires 0 <= j < |m| => EntryLines(item, m[j]));
    ConcatMember(parts, line);
    if exists j :: 0 <= j < |m| && line in parts[j] {
      var j :| 0 <= j < |m| && line in parts[j];
      assert m[j].qty > 0;
    }
    if exists j :: 0 <= j < |m| && m[j].qty > 0 &&
        line == ItemLine(item.name, Some(m[j].size), m[j].qty, SizedUnitPrice(item, m[j].size) * m[j].qty) {
      var j :| 0 <= j < |m| && m[j].qty > 0 &&
        line == ItemLine(item.name, Some(m[j].size), m[j].qty, SizedUnitPrice(item, m[j].size) * m[j].qty);
      assert line in parts[j];
    }
  }

  /** A line is among the lines of one state exactly when it shows one of its positive
      quantities. */
  lemma StateLinesExact(st: ItemState, line: Line)
    ensures line in StateLines(st) <==> LineOf(st, line)
  {
    if st.qtyBySize.Some? {
      SizeLinesExact(st.product, st.qtyBySize.value, line);
    }
  }

  /** Every positive quantity of every state shows up in the summary as its priced line. */
  lemma OrderLinesComplete(states: seq<ItemState>, i: nat, line: Line)
    requires i < |states| && LineOf(states[i], line)
    ensures line in OrderLines(states)
  {
    var parts := seq(|states|, k requires 0 <= k < |states| => StateLines(states[k]));
    StateLinesExact(states[i], line);
    assert line in parts[i];
    ConcatMember(parts, line);
  }

  /** Every line of the summary shows one positive quantity of some state, priced by the unit
      price rule: zero quantities are left out, and a sized state is read through its size
      dictionary only. */
  lemma OrderLinesSound(states: seq<ItemState>, line: Line)
    requires line in OrderLines(states)
    ensures exists i :: 0 <= i < |states| && LineOf(states[i], line)
  {
    var parts := seq(|states|, k requires 0 <= k < |states| => StateLines(states[k]));
    ConcatMember(parts, line);
    var i :| 0 <= i < |states| && line in parts[i];
    StateLinesExact(states[i], line);
  }

  /** A state orders something exactly when it has a line that shows it. */
  lemma SomeLineOf(st: ItemState)
    ensures !NothingOrderedIn(st) <==> exists line :: LineOf(st, line)
  {
    match st.qtyBySize
    case None =>
      var line := ItemLine(st.product.name, None, st.qty, BasePrice(st.product) * st.qty);
      assert st.qty > 0 ==> LineOf(st, line);
    case Some(m) =>
      if !NothingOrderedIn(st) {
        var j :| 0 <= j < |m| && m[j].qty > 0;
        var line := ItemLine(st.product.name, Some(m[j].size), m[j].qty, SizedUnitPrice(st.product, m[j].size) * m[j].qty);
        assert LineOf(st, line);
      }
  }

  /** The summary has no entry line exactly when no state orders anything. */
  lemma OrderLinesEmpty(states: seq<ItemState>)
    ensures OrderLines(states) == [] <==> NothingOrdered(states)
  {
    if OrderLines(states) != [] {
      var line := OrderLines(states)[0];
      OrderLinesSound(states, line);
      var i :| 0 <= i < |states| && LineOf(states[i], line);
      SomeLineOf(states[i]);
    }
    if !NothingOrdered(states) {
      var i :| 0 <= i < |states| && !NothingOrderedIn(states[i]);
      SomeLineOf(states[i]);
      var line :| LineOf(states[i], line);
      OrderLinesComplete(states, i, line);
    }
  }

  /** States that are all as the screen created them order nothing. */
  lemma InitialStatesOrderNothing(states: seq<ItemState>)
    requires forall i :: 0 <= i < |states| ==> states[i] == InitialState(states[i].product)
    ensures OrderLines(states) == []
  {
    forall i | 0 <= i < |states| ensures NothingOrderedIn(states[i]) {
      var st := InitialState(states[i].product);
      assert NothingOrderedIn(st);
    }
    OrderLinesEmpty(states);
  }

  /** The plain `qty` of a state with a size dictionary never reaches the summary. */
  lemma SizedPlainQtyIgnored(states: seq<ItemState>, i: nat, q: int)
    requires i < |states| && states[i].qtyBySize.Some?
    ensures OrderLines(states[i := states[i].(qty := q)]) == OrderLines(states)
  {
    var changed := states[i := states[i].(qty := q)];
    assert StateLines(changed[i]) == StateLines(states[i]);
    assert seq(|changed|, k requires 0 <= k < |changed| => StateLines(changed[k])) ==
           seq(|states|, k requires 0 <= k < |states| => StateLines(states[k]));
  }
}
