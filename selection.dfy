/**
 * The multi-select checkbox lists for categories and brands: a click on a
 * name removes it when it is selected and appends it otherwise.
 */
module Selection {
  import opened Seqs

  /** `selected.includes(x) ? selected.filter(c => c !== x) : [...selected, x]`. */
  function Toggle(selected: seq<string>, x: string): seq<string> {
    if x in selected then WithoutKey(selected, Identity, x) else selected + [x]
  }

  /** The checkbox for `x` is checked iff the selection holds it. */
  predicate IsChecked(selected: seq<string>, x: string) {
    x in selected
  }

  lemma NotInWithoutSelf(s: seq<string>, x: string)
    ensures x !in WithoutKey(s, Identity, x)
    ensures forall y :: y != x ==> (y in WithoutKey(s, Identity, x) <==> y in s)
  {
    var r := WithoutKey(s, Identity, x);
    forall y | y != x ensures y in r <==> y in s {
      assert multiset(r)[y] == multiset(s)[y];
    }
  }

  /** A toggle flips the clicked name's membership and no other name's. */
  lemma ToggleFlipsMembership(selected: seq<string>, x: string)
    ensures IsChecked(Toggle(selected, x), x) <==> !IsChecked(selected, x)
    ensures forall y :: y != x ==> (IsChecked(Toggle(selected, x), y) <==> IsChecked(selected, y))
  {
    NotInWithoutSelf(selected, x);
  }

  /** A selected name is removed everywhere it occurs; an unselected one lands at the end. */
  lemma ToggleShape(selected: seq<string>, x: string)
    ensures x in selected ==> multiset(Toggle(selected, x))[x] == 0
    ensures x !in selected ==> Toggle(selected, x) == selected + [x]
  {
  }

  /** The other names keep their multiplicities and their relative order. */
  lemma {:induction false} ToggleKeepsOthers(selected: seq<string>, x: string)
    ensures WithoutKey(Toggle(selected, x), Identity, x) == WithoutKey(selected, Identity, x)
  {
    if x in selected {
      NotInWithoutSelf(selected, x);
    } else {
      WithoutKeyAppend(selected, x, Identity, x);
    }
  }

  /** Clicking an unselected name twice gives back the original selection. */
  lemma {:induction false} ToggleTwiceRestores(selected: seq<string>, x: string)
    requires x !in selected
    ensures Toggle(Toggle(selected, x), x) == selected
  {
    assert x in selected + [x];
    WithoutKeyAppend(selected, x, Identity, x);
  }
}
