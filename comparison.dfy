/**
 * The comparison service: an ordered list of product snapshots under one
 * storage key, capped at three entries and free of duplicate `Id`s.
 */
module Comparison {
  import opened Wrappers
  import opened Storage
  import opened Seqs
  import opened Entities

  const MaxCompareItems := 3

  const DuplicateMessage := "Product already in comparison"
  const LimitMessage := "Maximum 3 products can be compared"
  const AddedMessage := "Product added to comparison"
  const AddFailedMessage := "Failed to add product to comparison"
  const RemoveFailedMessage := "Failed to remove product from comparison"

  /** The `{success, message, items}` object the service returns; absent fields are `None`. */
  datatype CompareResult = CompareResult(success: bool, message: Option<string>, items: Option<seq<Product>>)

  function Rejected(message: string): CompareResult {
    CompareResult(false, Some(message), None)
  }

  /**
   * The outcome of `addToCompare(p)` on the stored list `items`. The duplicate
   * check comes first, then the limit; a failing write is caught and reported.
   */
  function AddResult(items: seq<Product>, p: Product, writesFail: bool): (r: CompareResult)
    ensures HasKey(items, ProductId, p.id) ==> r == Rejected(DuplicateMessage)
    ensures !HasKey(items, ProductId, p.id) && |items| >= MaxCompareItems ==> r == Rejected(LimitMessage)
    ensures !HasKey(items, ProductId, p.id) && |items| < MaxCompareItems && writesFail ==>
      r == Rejected(AddFailedMessage)
    ensures r.success <==> !HasKey(items, ProductId, p.id) && |items| < MaxCompareItems && !writesFail
    ensures r.success ==> r == CompareResult(true, Some(AddedMessage), Some(items + [p]))
  {
    if IndexOfKey(items, ProductId, p.id) != None then Rejected(DuplicateMessage)
    else if |items| >= MaxCompareItems then Rejected(LimitMessage)
    else if writesFail then Rejected(AddFailedMessage)
    else CompareResult(true, Some(AddedMessage), Some(items + [p]))
  }

  /** A successful add keeps a list of at most three distinct `Id`s within those bounds. */
  lemma AddKeepsBound(items: seq<Product>, p: Product, writesFail: bool)
    requires |items| <= MaxCompareItems
    requires Distinct(Ids(items))
    ensures var r := AddResult(items, p, writesFail);
      r.success ==> |r.items.value| == |items| + 1 <= MaxCompareItems && Distinct(Ids(r.items.value))
  {
    var r := AddResult(items, p, writesFail);
    if r.success {
      var s := r.items.value;
      assert Ids(s) == Ids(items) + [p.id];
      forall i | 0 <= i < |items| ensures Ids(items)[i] != p.id {
        assert ProductId(items[i]) == Ids(items)[i];
      }
    }
  }

  /** Adding a fourth distinct product to three fails and leaves the list as it was. */
  lemma FourthIsRejected(items: seq<Product>, p: Product, writesFail: bool)
    requires |items| == 3 && !HasKey(items, ProductId, p.id)
    ensures AddResult(items, p, writesFail) == Rejected(LimitMessage)
  {
  }

  /** Adding the same product twice: the second add reports the duplicate. */
  lemma SecondAddIsDuplicate(p: Product)
    ensures AddResult([], p, false).success
    ensures AddResult(AddResult([], p, false).items.value, p, false) == Rejected(DuplicateMessage)
  {
    assert ProductId([p][0]) == p.id;
  }

  function Ids(items: seq<Product>): (r: seq<int>)
    ensures |r| == |items| && forall i :: 0 <= i < |items| ==> r[i] == items[i].id
  {
    seq(|items|, i requires 0 <= i < |items| => items[i].id)
  }

  /** The outcome of `removeFromCompare(id)`: every entry with that `Id` goes; an absent `Id` still succeeds. */
  function RemoveResult(items: seq<Product>, id: int, writesFail: bool): (r: CompareResult)
    ensures r.success <==> !writesFail
    ensures r.success ==> r.items.Some? && !HasKey(r.items.value, ProductId, id)
    ensures r.success ==> IsSubsequence(r.items.value, items)
    ensures r.success ==> forall x {:trigger multiset(r.items.value)[x]} ::
      multiset(r.items.value)[x] == if x.id == id then 0 else multiset(items)[x]
    ensures r.success && !HasKey(items, ProductId, id) ==> r.items == Some(items)
    ensures !r.success ==> r == Rejected(RemoveFailedMessage)
  {
    if writesFail then Rejected(RemoveFailedMessage)
    else CompareResult(true, None, Some(WithoutKey(items, ProductId, id)))
  }

  class CompareStore {
    var slot: Slot<seq<Product>>
    /** Whether `localStorage.setItem` throws. */
    var writesFail: bool

    constructor (slot0: Slot<seq<Product>>, writesFail0: bool)
      ensures slot == slot0 && writesFail == writesFail0
    {
      slot := slot0;
      writesFail := writesFail0;
    }

    /** `getCompareItems`: a missing key or an unreadable value is the empty list; nothing is thrown. */
    function Items(): (r: seq<Product>)
      reads this
      ensures slot.Stored? ==> r == slot.value
      ensures slot.Missing? || slot.Unreadable? ==> r == []
    {
      ReadOr(slot, [])
    }

    /** `isInCompare(id)`. */
    predicate IsInCompare(id: int)
      reads this
      ensures IsInCompare(id) <==> id in Ids(Items())
    {
      var ids := Ids(Items());
      assert HasKey(Items(), ProductId, id) ==> id in ids by {
        if HasKey(Items(), ProductId, id) {
          var i :| 0 <= i < |Items()| && Items()[i].id == id;
          assert ids[i] == id;
        }
      }
      HasKey(Items(), ProductId, id)
    }

    method AddToCompare(p: Product) returns (r: CompareResult)
      modifies this`slot
      ensures r == AddResult(old(Items()), p, writesFail)
      ensures r.success ==> slot == Stored(r.items.value) && IsInCompare(p.id)
      ensures !r.success ==> slot == old(slot)
    {
      var items := Items();
      var existingIndex := IndexOfKey(items, ProductId, p.id);
      if existingIndex != None {
        return Rejected(DuplicateMessage);
      }
      if |items| >= MaxCompareItems {
        return Rejected(LimitMessage);
      }
      var updated := items + [p];
      if writesFail {
        return Rejected(AddFailedMessage);
      }
      slot := Stored(updated);
      assert ProductId(updated[|items|]) == p.id;
      r := CompareResult(true, Some(AddedMessage), Some(updated));
    }

    method RemoveFromCompare(id: int) returns (r: CompareResult)
      modifies this`slot
      ensures r == RemoveResult(old(Items()), id, writesFail)
      ensures r.success ==> slot == Stored(r.items.value) && !IsInCompare(id)
      ensures !r.success ==> slot == old(slot)
    {
      var updated := WithoutKey(Items(), ProductId, id);
      if writesFail {
        return Rejected(RemoveFailedMessage);
      }
      slot := Stored(updated);
      r := CompareResult(true, None, Some(updated));
    }

    /** `clearCompare`: the key is removed, so the list reads as empty. */
    method ClearCompare() returns (r: CompareResult)
      modifies this`slot
      ensures r == CompareResult(true, None, None)
      ensures slot == Missing && Items() == []
    {
      slot := Missing;
      r := CompareResult(true, None, None);
    }
  }
}
