# Order aggregator of the hamburger-shop storefront

A Dafny model of the order-taking logic of a Kivy storefront app (`main.py`). The app shows a
product catalog, lets the user raise or lower a quantity per product (or per size of a product
with sizes), and on "注文する" (place order) shows a popup with one line per ordered entry and
the total. The model keeps what that logic does with data and leaves out every widget:

- `catalog.dfy` (module `Catalog`): a parsed catalog item (`Item`, `Size`) and the unit-price
  rule of the summary: the price of the first size with the requested name if it has one,
  else the item's own price, else 0.
- `qty_by_size.dfy` (module `QtyBySize`): the per-size quantity dictionary `qty_by_size` as a
  sequence of entries in insertion order with distinct keys; `Get`, `Put` are `dict.get` and
  item assignment, `ZeroQtyBySize` is the comprehension that creates it.
- `order.dfy` (module `Order`): the per-item state dict (`ItemState`), its invariant, the
  structured summary lines (`Line`) and the specification of the summary (`OrderLines`,
  `SumSubtotals`) with the lemmas that characterise it.
- `app.dfy` (module `App`): class `ListViewApp` with field `itemChecks` (`self.item_checks`);
  `Build` appends one state per item in a loop, `UpdateQty` / `UpdateSizeQty` are the
  `update_qty` closures behind the -/+ buttons, `OnOrder` is the nested loop of `on_order`.
- `basics.dfy` (module `Basics`): `Option`, the first-match search that Python's
  `next(... for ... if ...)` performs, and concatenation of runs of lines.
- `scenarios.dfy` (module `Scenarios`): client methods that drive the class through its
  contracts: two burgers, three large colas, nothing picked, a size name not in the catalog.

Quantities and prices are unbounded integers, as Python's `int` is. A popup line is kept
structured: `ItemLine(name, size, qty, subtotal)` (size `None` for an item without sizes),
`NothingSelected` for the fixed "選択された商品がありません" message, `TotalLine(total)` for the
closing "合計" line.

## Model

| member | source | states |
|---|---|---|
| `Basics.FirstIndex` | main.py:269-270 | the first index holding the value, or None exactly when the value does not occur; no earlier index holds it |
| `Catalog.FirstMatchingSizePriceWins` | main.py:269-271 | a sized entry is priced by the first size with its name when that size has a price, a price of 0 included, whatever later sizes with the same name say |
| `Catalog.SizedPriceFallback` | main.py:269-271 | no size price is found exactly when no size has the name or the first one that has it carries no price; then the unit price is the item's price, 0 when it has none |
| `QtyBySize.Get` | main.py:245 | `dict.get`: the default for a missing key, otherwise the value stored under the key |
| `QtyBySize.Put` | main.py:245 | dict assignment keeps keys distinct; an existing key keeps its place, a new key goes last; every other entry keeps its position and value |
| `QtyBySize.GetAfterPut` | main.py:245 | after assigning a size, that size reads the new value and every other size reads as before |
| `QtyBySize.ZeroQtyBySize` | main.py:134 | the comprehension over the sizes gives one key per distinct size name and no other, all values 0, keys in first-occurrence order of the names |
| `Order.InitialState` | main.py:130-134 | a fresh state holds the item, keeps the state invariant (non-negative quantities, a size dictionary exactly when the item has sizes, every size name a key) and orders nothing |
| `Order.SizeLinesAppend` | main.py:267-273 | the lines of a size dictionary follow its entry order: splitting the entries splits the lines the same way |
| `Order.OrderLinesAppend` | main.py:264-279 | summary lines follow catalog order: the lines of a split list of states are the lines of the first part followed by those of the second |
| `Order.SizeLinesExact` | main.py:267-273 | a line is among a dictionary's lines exactly when some entry has a positive quantity and the line shows that size, quantity and unit price times quantity |
| `Order.StateLinesExact` | main.py:264-279 | a line is among a state's lines exactly when it shows one of the state's positive quantities at its unit price |
| `Order.OrderLinesComplete` | main.py:264-279 | every positive quantity of every state (the plain quantity of an unsized state, each size of a sized one) appears in the summary with subtotal unit price times quantity |
| `Order.OrderLinesSound` | main.py:264-279 | every summary line comes from one positive quantity of some state, priced by the unit-price rule; zero quantities never appear |
| `Order.OrderLinesEmpty` | main.py:264-281 | the summary has no entry line exactly when no quantity the summary reads is positive |
| `Order.InitialStatesOrderNothing` | main.py:130-134 | states as the screen creates them give no entry line |
| `Order.SizedPlainQtyIgnored` | main.py:266-279 | the plain `qty` of a state that has a size dictionary never changes the summary |
| `App.ListViewApp.Build` | main.py:82-166 | after building there is exactly one state per catalog item, in catalog order, each the fresh state of its item, and the invariant holds |
| `App.ListViewApp.UpdateQty` | main.py:206-208 | the plain quantity of the chosen state becomes max(0, old + change) and is returned; no other state or field changes; the invariant (never negative) is kept |
| `App.ListViewApp.UpdateSizeQty` | main.py:244-246 | the chosen size of the chosen state becomes max(0, old + change) and is returned; that dictionary entry is the only change; the invariant is kept |
| `App.ListViewApp.OnOrder` | main.py:261-284 | the popup lines are the summary lines, then the "no items selected" line exactly when there are none, then the total line last; the total is the sum of the line subtotals; with nothing ordered the output is the message and a total of 0 |

## Left out

- Widget construction, layout, styling, canvas drawing, the popup and the labels refreshed by
  the -/+ buttons: presentation only. `UpdateQty` and `UpdateSizeQty` return the new quantity
  in place of setting the label text.
- Font registration and file checks at start-up, and reading and parsing `products.json`:
  I/O. `Build` takes the parsed item list. When loading fails the app returns an error screen
  before `item_checks` exists, so no order can be placed; that path is not modelled.
- Formatting of the popup text (the "¥" sign, " x", " - ", the Japanese messages, joining with
  newlines): each line is kept as its structured fields.
- `id` and `image` of a catalog item: used for display only.
- Item name: modelled as a string that is present. A catalog entry without a name would show
  Python's `None` in its summary line.
- Size name: modelled as a string. A size without a name has the key `None` in Python, which
  behaves as one more distinct key; the model does not single it out.
- Item price: `None` stands for a missing `price` key. An item whose `price` is present but
  null cannot be expressed; the app raises on such an entry once it is ordered without a
  size price.
- `UpdateSizeQty` requires a state with a size dictionary: the app only creates the size
  buttons for such states, and the assignment would raise on any other.
- A size name missing from the dictionary is added at its end (what `dict.get(name, 0)` followed
  by assignment does), not ignored; the app's own buttons only ever pass listed names.
- The empty summary is signalled by the `NothingSelected` line, as the app does, not by a
  separate flag.
