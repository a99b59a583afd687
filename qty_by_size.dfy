/** The per-size quantity dictionary (`qty_by_size`) of a sized item: a Python dict from
    size name to quantity, which keeps its keys in insertion order. */
module QtyBySize {
  import opened Basics
  import opened Catalog

  /** One key of the dictionary with its value. */
  datatype Entry = Entry(size: string, qty: int)

  /** The dictionary as its entries in insertion order; `DistinctKeys` holds of every one
      the app builds. */
  type QtyMap = seq<Entry>

  /** The keys in insertion order (iteration order of `.items()`). */
  function Keys(m: QtyMap): seq<string> {
    seq(|m|, i requires 0 <= i < |m| => m[i].size)
  }

  /** A key is in the dictionary exactly when some entry carries it. */
  lemma KeysMembership(m: QtyMap)
    ensures forall k :: k in Keys(m) <==> exists i :: 0 <= i < |m| && m[i].size == k
  {
    forall k | k in Keys(m) ensures exists i :: 0 <= i < |m| && m[i].size == k {
      var i :| 0 <= i < |Keys(m)| && Keys(m)[i] == k;
      assert m[i].size == k;
    }
    forall k | exists i :: 0 <= i < |m| && m[i].size == k ensures k in Keys(m) {
      var i :| 0 <= i < |m| && m[i].size == k;
      assert Keys(m)[i] == k;
    }
  }

  predicate DistinctKeys(m: QtyMap) {
    forall i, j :: 0 <= i < j < |m| ==> m[i].size != m[j].size
  }

  predicate NonNegative(m: QtyMap) {
    forall i :: 0 <= i < |m| ==> m[i].qty >= 0
  }

  /** `m.get(size, default)`. */
  function Get(m: QtyMap, size: string, default: int): (r: int)
    ensures size !in Keys(m) ==> r == default
    ensures DistinctKeys(m) ==> forall i :: 0 <= i < |m| && m[i].size == size ==> r == m[i].qty
  {
    KeysMembership(m);
    match FirstIndex(Keys(m), size)
    case None => default
    case Some(i) => m[i].qty
  }

  /** `m[size] = qty`: an existing key keeps its place and gets the new value, a new key goes
      at the end; every other key keeps its place and its value. */
  function Put(m: QtyMap, size: string, qty: int): (r: QtyMap)
    requires DistinctKeys(m)
    ensures DistinctKeys(r)
    ensures size in Keys(m) ==> Keys(r) == Keys(m)
    ensures size !in Keys(m) ==> Keys(r) == Keys(m) + [size]
    ensures forall j :: 0 <= j < |r| ==> r[j] == Entry(size, qty) || (j < |m| && r[j] == m[j])
  {
    KeysMembership(m);
    match FirstIndex(Keys(m), size)
    case Some(i) => m[i := Entry(size, qty)]
    case None => m + [Entry(size, qty)]
  }

  /** Reading back after `m[size] = qty`: `size` now holds `qty`, every other key reads as
      before. */
  lemma GetAfterPut(m: QtyMap, size: string, qty: int, other: string, d: int)
    requires DistinctKeys(m)
    ensures Get(Put(m, size, qty), size, d) == qty
    ensures other != size ==> Get(Put(m, size, qty), other, d) == Get(m, other, d)
  {
    var r := Put(m, size, qty);
    KeysMembership(m);
    KeysMembership(r);
    if other != size && other in Keys(m) {
      var i :| 0 <= i < |m| && m[i].size == other;
      assert r[i] == m[i];
    }
  }

  /** The keys of `m` appear in the order in which they first occur in `names`. */
  predicate InFirstOccurrenceOrder(m: QtyMap, names: seq<string>) {
    forall i, j :: 0 <= i < j < |m| ==>
      && FirstIndex(names, m[i].size).Some?
      && FirstIndex(names, m[j].size).Some?
      && FirstIndex(names, m[i].size).value < FirstIndex(names, m[j].size).value
  }

  /** `{s.get('name'): 0 for s in sizes}`: one key per distinct size name, at the place where
      the name first occurs, every value 0. */
  function ZeroQtyBySize(sizes: seq<Size>): (r: QtyMap)
    ensures DistinctKeys(r)
    ensures forall i :: 0 <= i < |r| ==> r[i].qty == 0
    ensures forall k :: k in Keys(r) <==> k in SizeNames(sizes)
    ensures InFirstOccurrenceOrder(r, SizeNames(sizes))
    decreases |sizes|
  {
    if sizes == [] then []
    else
      var prefix, last := sizes[..|sizes| - 1], sizes[|sizes| - 1];
      assert SizeNames(sizes) == SizeNames(prefix) + [last.name];
      var m := ZeroQtyBySize(prefix);
      PutZeroKeepsOrder(m, SizeNames(prefix), last.name);
      Put(m, last.name, 0)
  }

  /** One step of the comprehension: setting the next name to 0 keeps every value 0, makes
      the keys the names seen so far, and keeps them in first-occurrence order. */
  lemma PutZeroKeepsOrder(m: QtyMap, names: seq<string>, name: string)
    requires DistinctKeys(m)
    requires forall i :: 0 <= i < |m| ==> m[i].qty == 0
    requires forall k :: k in Keys(m) <==> k in names
    requires InFirstOccurrenceOrder(m, names)
    ensures forall i :: 0 <= i < |Put(m, name, 0)| ==> Put(m, name, 0)[i].qty == 0
    ensures forall k :: k in Keys(Put(m, name, 0)) <==> k in names + [name]
    ensures InFirstOccurrenceOrder(Put(m, name, 0), names + [name])
  {
    var r, names' := Put(m, name, 0), names + [name];
    assert names'[..|names|] == names;
    KeysMembership(m);
    forall k | k in names ensures FirstIndex(names', k) == FirstIndex(names, k) {
      FirstIndexOfPrefix(names', |names|, k);
    }
    if name in Keys(m) {
      assert Keys(r) == Keys(m);
      forall i | 0 <= i < |m| ensures r[i].size == m[i].size {
        assert Keys(r)[i] == Keys(m)[i];
      }
    } else {
      assert r == m + [Entry(name, 0)];
      assert name !in names;
      FirstIndexIs(names', name, |names|);
      forall i | 0 <= i < |m|
        ensures FirstIndex(names', m[i].size) == FirstIndex(names, m[i].size)
        ensures FirstIndex(names, m[i].size).Some?
      {
        assert m[i].size in names;
      }
    }
  }
}
