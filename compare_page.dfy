/**
 * The comparison page: its own copy of the compared products, the sorted
 * union of their specification keys, the per-cell placeholder rule and the
 * number of empty placeholder cards.
 */
module ComparePage {
  import opened Wrappers
  import opened Storage
  import opened Seqs
  import opened Text
  import opened Entities
  import opened Comparison
  import opened Layout

  /** Some product in the list has a specification named `k`. */
  ghost predicate HasSpecKey(products: seq<Product>, k: string) {
    exists i :: 0 <= i < |products| && products[i].specifications.Some? && k in products[i].specifications.value
  }

  lemma HasSpecKeyStep(products: seq<Product>, i: nat, k: string)
    requires i < |products|
    ensures HasSpecKey(products[..i + 1], k) <==>
      HasSpecKey(products[..i], k) || (products[i].specifications.Some? && k in products[i].specifications.value)
  {
    var next := products[..i + 1];
    if HasSpecKey(next, k) {
      var j :| 0 <= j < |next| && next[j].specifications.Some? && k in next[j].specifications.value;
      if j < i {
        assert products[..i][j] == next[j];
      }
    }
    if HasSpecKey(products[..i], k) {
      var j :| 0 <= j < i && products[..i][j].specifications.Some? && k in products[..i][j].specifications.value;
      assert next[j] == products[..i][j];
    }
    if products[i].specifications.Some? && k in products[i].specifications.value {
      assert next[i] == products[i];
    }
  }

  /** A product without `specifications` adds no key to the union. */
  lemma {:induction false} NoSpecsAddNothing(products: seq<Product>, p: Product, k: string)
    requires p.specifications.None?
    ensures HasSpecKey(products + [p], k) <==> HasSpecKey(products, k)
  {
    var all := products + [p];
    if HasSpecKey(all, k) {
      var j :| 0 <= j < |all| && all[j].specifications.Some? && k in all[j].specifications.value;
      assert j < |products| && all[j] == products[j];
    }
    if HasSpecKey(products, k) {
      var j :| 0 <= j < |products| && products[j].specifications.Some? && k in products[j].specifications.value;
      assert all[j] == products[j];
    }
  }

  /**
   * `getAllSpecKeys`: the keys are gathered into a `Set` (kept here as a
   * list without repeats, in insertion order) and then sorted.
   */
  method AllSpecKeys(products: seq<Product>) returns (keys: seq<string>)
    ensures SortedStrings(keys) && Distinct(keys)
    ensures forall k :: k in keys <==> HasSpecKey(products, k)
  {
    var seen: seq<string> := [];
    var i := 0;
    while i < |products|
      invariant 0 <= i <= |products|
      invariant Distinct(seen)
      invariant forall k :: k in seen <==> HasSpecKey(products[..i], k)
    {
      if products[i].specifications.Some? {
        var spec := products[i].specifications.value;
        var pending := spec.Keys;
        while pending != {}
          invariant pending <= spec.Keys
          invariant Distinct(seen)
          invariant forall k :: k in seen <==> HasSpecKey(products[..i], k) || (k in spec.Keys && k !in pending)
          decreases pending
        {
          var k :| k in pending;
          if k !in seen {
            seen := seen + [k];
          }
          pending := pending - {k};
        }
      }
      forall k ensures k in seen <==> HasSpecKey(products[..i + 1], k) {
        HasSpecKeyStep(products, i, k);
      }
      i := i + 1;
    }
    assert products[..i] == products;
    keys := SortStrings(seen);
    assert forall k :: k in keys <==> k in multiset(seen);
  }

  /** The table cell `value || '-'`: a missing or empty value shows a dash, and no cell is blank. */
  function SpecCell(p: Product, key: string): (r: string)
    ensures r != []
    ensures p.specifications.None? || key !in p.specifications.value || p.specifications.value[key] == [] ==> r == "-"
    ensures p.specifications.Some? && key in p.specifications.value && p.specifications.value[key] != [] ==>
      r == p.specifications.value[key]
  {
    match p.specifications
    case None => "-"
    case Some(spec) => if key in spec && spec[key] != [] then spec[key] else "-"
  }

  /**
   * The placeholder cards after the products: `Array(3 - n)`. A negative
   * length throws a `RangeError`, modelled as `None`.
   */
  function EmptySlotCount(n: nat): (r: Option<nat>)
    ensures r.Some? <==> n <= MaxCompareItems
    ensures r.Some? ==> n + r.value == MaxCompareItems
  {
    if n <= MaxCompareItems then Some(MaxCompareItems - n) else None
  }

  /** What the page shows once loaded. */
  datatype CompareView =
    | EmptyState
    | Grid(keys: seq<string>, cells: seq<seq<string>>, emptySlots: Option<nat>)

  /** An empty list shows the empty state; otherwise one row per key and one column per product. */
  method Render(products: seq<Product>) returns (v: CompareView)
    ensures v.EmptyState? <==> products == []
    ensures v.Grid? ==> SortedStrings(v.keys) && Distinct(v.keys) && (forall k :: k in v.keys <==> HasSpecKey(products, k))
    ensures v.Grid? ==> |v.cells| == |v.keys| && forall r :: 0 <= r < |v.keys| ==>
      |v.cells[r]| == |products| && forall c :: 0 <= c < |products| ==> v.cells[r][c] == SpecCell(products[c], v.keys[r])
    ensures v.Grid? ==> v.emptySlots == EmptySlotCount(|products|)
  {
    if products == [] {
      return EmptyState;
    }
    var keys := AllSpecKeys(products);
    var cells := seq(|keys|, r requires 0 <= r < |keys| =>
      seq(|products|, c requires 0 <= c < |products| => SpecCell(products[c], keys[r])));
    v := Grid(keys, cells, EmptySlotCount(|products|));
  }

  class ComparePageState {
    var products: seq<Product>

    /** `loadCompareItems` reads the comparison service once, on mount. */
    constructor (store: CompareStore)
      ensures products == store.Items()
    {
      products := store.Items();
    }

    /**
     * `handleRemove(id)`: the layout's handler runs, then the page drops the
     * product from its own list whether or not the service succeeded.
     */
    method HandleRemove(id: int, shop: Shop)
      modifies this`products, shop`compareItems, shop.compare`slot
      ensures products == WithoutKey(old(products), ProductId, id)
      ensures var r := RemoveResult(old(shop.compare.Items()), id, shop.compare.writesFail);
        shop.compareItems == (if r.success then r.items.value else old(shop.compareItems))
        && shop.compare.slot == (if r.success then Stored(r.items.value) else old(shop.compare.slot))
    {
      var _ := shop.HandleRemoveFromCompare(id);
      products := WithoutKey(products, ProductId, id);
    }
  }
}
