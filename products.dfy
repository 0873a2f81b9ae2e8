/**
 * The mock product repository: one module-level list that the getters read
 * and that `createProduct`, `updateProduct` and `deleteProduct` change in place.
 */
module Products {
  import opened Wrappers
  import opened Seqs
  import opened Text
  import opened Entities

  /** A brand counts only when it is truthy: present and not the empty string. */
  predicate HasBrand(p: Product) {
    p.brand.Some? && p.brand.value != []
  }

  /** The non-empty brands of `products`, in catalog order, repeats kept. */
  function BrandNames(products: seq<Product>): (r: seq<string>)
    ensures forall b :: b in r <==> exists i :: 0 <= i < |products| && HasBrand(products[i]) && products[i].brand.value == b
  {
    if products == [] then []
    else
      var rest := BrandNames(products[1..]);
      assert forall b :: b in rest <==> exists i :: 1 <= i < |products| && HasBrand(products[i]) && products[i].brand.value == b by {
        forall b ensures b in rest <==> exists i :: 1 <= i < |products| && HasBrand(products[i]) && products[i].brand.value == b {
          if b in rest {
            var i :| 0 <= i < |products[1..]| && HasBrand(products[1..][i]) && products[1..][i].brand.value == b;
            assert products[i + 1] == products[1..][i];
          }
          if exists i :: 1 <= i < |products| && HasBrand(products[i]) && products[i].brand.value == b {
            var i :| 1 <= i < |products| && HasBrand(products[i]) && products[i].brand.value == b;
            assert products[1..][i - 1] == products[i];
          }
        }
      }
      if HasBrand(products[0]) then [products[0].brand.value] + rest else rest
  }

  /** `Math.max(...ids)`, which has no finite value for an empty list. */
  datatype SpreadMax = NegInfinity | Finite(n: int)

  function MaxOfIds(ids: seq<int>): (r: SpreadMax)
    ensures r.NegInfinity? <==> ids == []
    ensures r.Finite? ==> r.n in ids && forall i :: 0 <= i < |ids| ==> ids[i] <= r.n
  {
    if ids == [] then NegInfinity
    else match MaxOfIds(ids[1..])
      case NegInfinity => Finite(ids[0])
      case Finite(m) => Finite(if ids[0] > m then ids[0] else m)
  }

  /** The `Id` that `createProduct` computes as written: `Math.max(...ids) + 1`, where `-Infinity + 1` stays `-Infinity`. */
  function CreatedIdAsWritten(ids: seq<int>): SpreadMax {
    match MaxOfIds(ids)
    case NegInfinity => NegInfinity
    case Finite(m) => Finite(m + 1)
  }

  /** On an empty catalog the computed `Id` is not a number usable as a key. */
  lemma EmptyCatalogIdAsWritten()
    ensures CreatedIdAsWritten([]) == NegInfinity
  {
  }

  /** On a non-empty catalog of non-negative ids, the written rule and the corrected one agree. */
  lemma {:induction false} CreatedIdAgrees(ids: seq<int>)
    requires ids != [] && forall i :: 0 <= i < |ids| ==> ids[i] >= 0
    ensures CreatedIdAsWritten(ids) == Finite(NextId(ids))
  {
    var m := MaxOfIds(ids).n;
    var z := MaxWithZero(ids);
    assert m in ids && z in ids + [0];
  }

  function ProductIds(products: seq<Product>): (r: seq<int>)
    ensures |r| == |products| && forall i :: 0 <= i < |products| ==> r[i] == products[i].id
  {
    seq(|products|, i requires 0 <= i < |products| => products[i].id)
  }

  /** The record `createProduct` appends: `Id` first, the draft's own fields over it, then the forced ones. */
  function NewProduct(id: int, d: ProductDraft): Product {
    Product(d.id.GetOr(id), d.name, d.description, d.category, d.brand, d.price, d.originalPrice,
      Some(0.0), 0, true, d.images, d.specifications)
  }

  /** Search on one product: `None` is the `TypeError` of `toLowerCase` on a missing brand. */
  function SearchHit(p: Product, term: string): Option<bool> {
    if Contains(ToLower(p.name), term) || Contains(ToLower(p.description), term) || Contains(ToLower(p.category), term)
    then Some(true)
    else match p.brand
      case None => None
      case Some(b) => Some(Contains(ToLower(b), term))
  }

  /** The `filter` of `searchProducts` with a lower-cased term; it stops at the first product that throws. */
  function SearchIn(products: seq<Product>, term: string): (r: Option<seq<Product>>)
    ensures r.None? <==> exists i :: 0 <= i < |products| && SearchHit(products[i], term).None?
    ensures r.Some? ==> IsSubsequence(r.value, products)
    ensures r.Some? ==> forall p {:trigger multiset(r.value)[p]} ::
      multiset(r.value)[p] == if SearchHit(p, term) == Some(true) then multiset(products)[p] else 0
    ensures r.Some? ==> forall p :: p in r.value <==> p in products && SearchHit(p, term) == Some(true)
  {
    if products == [] then Some([])
    else
      assert products == [products[0]] + products[1..];
      var rest := SearchIn(products[1..], term);
      match SearchHit(products[0], term)
      case None => None
      case Some(hit) =>
        if rest.None? then
          var i :| 0 <= i < |products[1..]| && SearchHit(products[1..][i], term).None?;
          assert products[i + 1] == products[1..][i];
          None
        else
          assert forall i :: 1 <= i < |products| ==> SearchHit(products[i], term).Some? by {
            forall i | 1 <= i < |products| ensures SearchHit(products[i], term).Some? {
              assert products[1..][i - 1] == products[i];
            }
          }
          if hit then Some([products[0]] + rest.value) else rest
  }

  /** A query that occurs in a product's name finds that product, or the search throws. */
  lemma NameMatchFound(products: seq<Product>, query: string, p: Product)
    requires p in products && Contains(ToLower(p.name), ToLower(query))
    ensures var r := SearchIn(products, ToLower(query)); r.Some? ==> p in r.value
  {
  }

  /** When every product has a brand the search never throws. */
  lemma BrandedCatalogSearchSucceeds(products: seq<Product>, term: string)
    requires forall i :: 0 <= i < |products| ==> products[i].brand.Some?
    ensures SearchIn(products, term).Some?
  {
  }

  class ProductCatalog {
    var products: seq<Product>

    constructor (initial: seq<Product>)
      ensures products == initial
    {
      products := initial;
    }

    /** `getBrands`: the distinct truthy brands, sorted. */
    function Brands(): (r: seq<string>)
      reads this
      ensures SortedStrings(r) && Distinct(r)
      ensures forall b :: b in r <==> exists i :: 0 <= i < |products| && HasBrand(products[i]) && products[i].brand.value == b
    {
      var all := BrandNames(products);
      var names := Dedup(all);
      var r := SortStrings(names);
      forall b ensures b in r <==> b in all {
        assert b in r <==> b in multiset(names);
      }
      r
    }

    /** `getProductById`: a copy of the first product with that `Id`, or `null`. */
    function ProductById(id: int): (r: Option<Product>)
      reads this
      ensures r.None? <==> !HasKey(products, ProductId, id)
      ensures r.Some? ==> r.value in products && r.value.id == id
      ensures r.Some? ==> exists i :: (0 <= i < |products| && products[i] == r.value
        && forall j :: 0 <= j < i ==> products[j].id != id)
    {
      match IndexOfKey(products, ProductId, id)
      case None => None
      case Some(i) => Some(products[i])
    }

    /** `getProductsByCategory`: exactly the products in that category, in catalog order. */
    function ProductsByCategory(name: string): (r: seq<Product>)
      reads this
      ensures IsSubsequence(r, products)
      ensures forall p {:trigger multiset(r)[p]} :: multiset(r)[p] == if p.category == name then multiset(products)[p] else 0
      ensures forall p :: p in r <==> p in products && p.category == name
    {
      var r := WithKey(products, ProductCategory, name);
      assert forall p :: p in r <==> p in multiset(r);
      r
    }

    /** `searchProducts(query)`; `None` when a product the search reaches has no brand. */
    function SearchProducts(query: string): (r: Option<seq<Product>>)
      reads this
      ensures r.Some? ==> forall p :: p in r.value <==> p in products && SearchHit(p, ToLower(query)) == Some(true)
      ensures r.None? ==> exists i :: 0 <= i < |products| && products[i].brand.None?
    {
      SearchIn(products, ToLower(query))
    }

    /**
     * `createProduct(draft)`. The `Id` is one more than the largest existing
     * `Id` and 0 (see the findings for the rule as written), and an `Id` in the
     * draft wins; rating, review count and stock are forced.
     */
    method CreateProduct(draft: ProductDraft) returns (r: Product)
      modifies this
      ensures r == NewProduct(NextId(ProductIds(old(products))), draft)
      ensures products == old(products) + [r]
      ensures draft.id.None? ==> forall i :: 0 <= i < |old(products)| ==> old(products)[i].id < r.id
      ensures r.rating == Some(0.0) && r.reviewCount == 0 && r.inStock
    {
      var next := NextId(ProductIds(products));
      r := NewProduct(next, draft);
      products := products + [r];
    }

    /** `updateProduct(id, updates)`: the first match is merged in place; an absent `Id` changes nothing. */
    method UpdateProduct(id: int, updates: ProductPatch) returns (r: Option<Product>)
      modifies this
      ensures r.None? <==> !HasKey(old(products), ProductId, id)
      ensures r.None? ==> products == old(products)
      ensures r.Some? ==> var i := IndexOfKey(old(products), ProductId, id).value;
        products == old(products)[i := MergeProduct(old(products)[i], updates)] && r == Some(products[i])
    {
      var index := IndexOfKey(products, ProductId, id);
      if index.None? {
        return None;
      }
      products := products[index.value := MergeProduct(products[index.value], updates)];
      r := Some(products[index.value]);
    }

    /** `deleteProduct(id)`: the first match is spliced out and `true` returned; otherwise `false`. */
    method DeleteProduct(id: int) returns (r: bool)
      modifies this
      ensures r <==> HasKey(old(products), ProductId, id)
      ensures !r ==> products == old(products)
      ensures r ==> products == RemoveAt(old(products), IndexOfKey(old(products), ProductId, id).value)
      ensures r && UniqueKeys(old(products), ProductId) ==> products == WithoutKey(old(products), ProductId, id)
    {
      var index := IndexOfKey(products, ProductId, id);
      if index.None? {
        return false;
      }
      if UniqueKeys(products, ProductId) {
        RemoveFirstIsWithoutKey(products, ProductId, id);
      }
      products := RemoveAt(products, index.value);
      r := true;
    }
  }
}
