/**
 * The list updates the material-supplier wizard performs with `filter` and
 * spread: toggling a material type and removing an uploaded image.
 */
module Lists {

  /** `xs.filter(y => y !== x)`: every occurrence of x dropped, the rest kept in order. */
  function Without<T(==)>(xs: seq<T>, x: T): (r: seq<T>)
    ensures x !in r
    ensures forall y :: y in r ==> y in xs
    ensures forall y :: y in xs && y != x ==> y in r
    ensures |r| <= |xs|
    ensures forall y :: y in xs && y != x ==> multiset(r)[y] == multiset(xs)[y]
  {
    if xs == [] then []
    else
      assert xs == [xs[0]] + xs[1..];
      (if xs[0] == x then [] else [xs[0]]) + Without(xs[1..], x)
  }

  /** `xs.includes(x) ? xs.filter(y => y !== x) : [...xs, x]`. */
  function Toggle<T(==)>(xs: seq<T>, x: T): (r: seq<T>)
    ensures x in r <==> x !in xs
    ensures forall y :: y in r && y != x ==> y in xs
    ensures forall y :: y in xs && y != x ==> y in r
    ensures x !in xs ==> r == xs + [x]
    ensures x in xs ==> forall y :: y in xs && y != x ==> multiset(r)[y] == multiset(xs)[y]
  {
    if x in xs then Without(xs, x) else xs + [x]
  }

  /** No element occurs twice. */
  predicate Distinct<T(==)>(xs: seq<T>) {
    forall i, j :: 0 <= i < j < |xs| ==> xs[i] != xs[j]
  }

  lemma {:induction false} WithoutAbsent<T>(xs: seq<T>, x: T)
    requires x !in xs
    ensures Without(xs, x) == xs
  {
    if xs != [] {
      WithoutAbsent(xs[1..], x);
    }
  }

  lemma {:induction false} WithoutAppend<T>(xs: seq<T>, ys: seq<T>, x: T)
    ensures Without(xs + ys, x) == Without(xs, x) + Without(ys, x)
  {
    if xs == [] {
      assert xs + ys == ys;
    } else {
      assert (xs + ys)[1..] == xs[1..] + ys;
      WithoutAppend(xs[1..], ys, x);
    }
  }

  lemma {:induction false} WithoutKeepsDistinct<T>(xs: seq<T>, x: T)
    requires Distinct(xs)
    ensures Distinct(Without(xs, x))
  {
    if xs != [] {
      WithoutKeepsDistinct(xs[1..], x);
      var rest := Without(xs[1..], x);
      assert xs[0] !in xs[1..] by {
        forall i | 0 <= i < |xs[1..]| ensures xs[1..][i] != xs[0] {
          assert xs[1..][i] == xs[i + 1];
        }
      }
      assert xs[0] !in rest;
    }
  }

  /** Toggling a type that is not selected, then toggling it again, restores the list. */
  lemma ToggleTwiceRestores<T>(xs: seq<T>, x: T)
    requires x !in xs
    ensures Toggle(Toggle(xs, x), x) == xs
  {
    WithoutAppend(xs, [x], x);
    WithoutAbsent(xs, x);
  }

  /** Toggling a selected type twice moves it, as its only occurrence, to the end. */
  lemma ToggleTwiceMovesToEnd<T>(xs: seq<T>, x: T)
    requires x in xs
    ensures Toggle(Toggle(xs, x), x) == Without(xs, x) + [x]
  {
  }

  /** Toggling never introduces a duplicate. */
  lemma ToggleKeepsDistinct<T>(xs: seq<T>, x: T)
    requires Distinct(xs)
    ensures Distinct(Toggle(xs, x))
  {
    if x in xs {
      WithoutKeepsDistinct(xs, x);
    } else {
      var r := xs + [x];
      forall i, j | 0 <= i < j < |r| ensures r[i] != r[j] {
        if j == |xs| {
          assert r[i] == xs[i];
        }
      }
    }
  }

  /** `xs.filter((_, i) => i !== index)` over the suffix whose first element sits at `pos`. */
  function RemoveAtFrom<T>(xs: seq<T>, index: int, pos: int): (r: seq<T>)
  {
    if xs == [] then [] else (if pos == index then [] else [xs[0]]) + RemoveAtFrom(xs[1..], index, pos + 1)
  }

  /** `xs.filter((_, i) => i !== index)`. */
  function RemoveAt<T>(xs: seq<T>, index: int): seq<T> {
    RemoveAtFrom(xs, index, 0)
  }

  lemma {:induction false} RemoveAtFromSpec<T>(xs: seq<T>, index: int, pos: int)
    ensures RemoveAtFrom(xs, index, pos) ==
      if pos <= index < pos + |xs| then xs[..index - pos] + xs[index - pos + 1..] else xs
  {
    if xs != [] {
      RemoveAtFromSpec(xs[1..], index, pos + 1);
      if pos == index {
      } else if pos < index < pos + |xs| {
        assert xs[..index - pos] == [xs[0]] + xs[1..][..index - pos - 1];
        assert xs[index - pos + 1..] == xs[1..][index - pos..];
      } else {
        assert xs == [xs[0]] + xs[1..];
      }
    }
  }

  /**
   * Removing image `index` drops exactly that element and keeps the others in
   * order; an index outside the list changes nothing.
   */
  lemma RemoveAtSpec<T>(xs: seq<T>, index: int)
    ensures 0 <= index < |xs| ==> RemoveAt(xs, index) == xs[..index] + xs[index + 1..]
    ensures 0 <= index < |xs| ==> |RemoveAt(xs, index)| == |xs| - 1
    ensures !(0 <= index < |xs|) ==> RemoveAt(xs, index) == xs
  {
    RemoveAtFromSpec(xs, index, 0);
  }
}
