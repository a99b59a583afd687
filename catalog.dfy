/** The parsed product catalog and the unit-price rule of the order summary. */
module Catalog {
  import opened Basics

  /** One size variant of a product: its name and, when the catalog gives one, its price. */
  datatype Size = Size(name: string, price: Option<int>)

  /** One catalog entry. `price` is None when the entry has no price key; `sizes` is empty
      when the entry has no sizes, an empty list or a null (the app only tests its truth). */
  datatype Item = Item(name: string, price: Option<int>, sizes: seq<Size>)

  /** The names of `sizes`, in catalog order, duplicates kept. */
  function SizeNames(sizes: seq<Size>): (names: seq<string>)
    ensures forall i :: 0 <= i < |sizes| ==> sizes[i].name in names
  {
    var names := seq(|sizes|, i requires 0 <= i < |sizes| => sizes[i].name);
    assert forall i :: 0 <= i < |sizes| ==> names[i] == sizes[i].name;
    names
  }

  /** The item's own price, 0 when it has none (`p.get('price', 0)`). */
  function BasePrice(item: Item): int {
    item.price.GetOr(0)
  }

  /** The price of the first size named `sizeName`, None when there is no such size or it
      has no price (the `next(...)` generator of the order handler). */
  function SizePrice(item: Item, sizeName: string): Option<int> {
    match FirstIndex(SizeNames(item.sizes), sizeName)
    case None => None
    case Some(i) => item.sizes[i].price
  }

  /** Unit price of one size of a sized item: the size's price if the first size with that
      name has one, the item's base price otherwise. */
  function SizedUnitPrice(item: Item, sizeName: string): int {
    SizePrice(item, sizeName).GetOr(BasePrice(item))
  }

  /** The first size carrying a name decides its price when it has one, a price of 0
      included, whatever later sizes of the same name say. */
  lemma FirstMatchingSizePriceWins(item: Item, i: nat, p: int)
    requires i < |item.sizes| && item.sizes[i].price == Some(p)
    requires forall j :: 0 <= j < i ==> item.sizes[j].name != item.sizes[i].name
    ensures SizedUnitPrice(item, item.sizes[i].name) == p
  {
    FirstIndexIs(SizeNames(item.sizes), item.sizes[i].name, i);
  }

  /** The base price (0 when absent) is used exactly when no size has the name, or the first
      size that has it carries no price. */
  lemma SizedPriceFallback(item: Item, sizeName: string)
    ensures SizePrice(item, sizeName).None? <==>
      (forall i :: 0 <= i < |item.sizes| ==> item.sizes[i].name != sizeName) ||
      (exists i :: 0 <= i < |item.sizes| && item.sizes[i].name == sizeName && item.sizes[i].price.None? &&
         forall j :: 0 <= j < i ==> item.sizes[j].name != sizeName)
    ensures SizePrice(item, sizeName).None? ==> SizedUnitPrice(item, sizeName) == BasePrice(item)
  {
    var names := SizeNames(item.sizes);
    match FirstIndex(names, sizeName)
    case None =>
      assert forall i :: 0 <= i < |item.sizes| ==> names[i] == item.sizes[i].name;
    case Some(k) =>
      if item.sizes[k].price.Some? {
        forall i | 0 <= i < |item.sizes| && item.sizes[i].name == sizeName &&
          forall j :: 0 <= j < i ==> item.sizes[j].name != sizeName
          ensures item.sizes[i].price.Some?
        {
          FirstIndexIs(names, sizeName, i);
        }
      } else {
        assert forall j :: 0 <= j < k ==> names[j] == item.sizes[j].name;
        assert item.sizes[k].name == sizeName;
      }
  }
}
