/**
 * The array operations the forms use on their string lists:
 * `[...xs, x]`, `xs.filter(y => y !== x)`, `xs.includes(x)` and `xs.slice(0, n)`.
 */
module Lists {

  /** Number of occurrences of `x` in `xs`. */
  function Count<T(==)>(xs: seq<T>, x: T): nat {
    multiset(xs)[x]
  }

  /** `xs.filter(y => y !== x)`: every `x` removed, the rest in order. */
  function RemoveAll<T(==)>(xs: seq<T>, x: T): (r: seq<T>)
    ensures x !in r
    ensures multiset(r) == multiset(xs)[x := 0]
    ensures |r| == |xs| - Count(xs, x)
  {
    if xs == [] then []
    else
      assert xs == [xs[0]] + xs[1..];
      var rest := RemoveAll(xs[1..], x);
      if xs[0] == x then rest else [xs[0]] + rest
  }

  /** Filtering a concatenation filters each part, so the kept elements keep their order. */
  lemma {:induction false} RemoveAllAppend<T>(a: seq<T>, b: seq<T>, x: T)
    ensures RemoveAll(a + b, x) == RemoveAll(a, x) + RemoveAll(b, x)
    decreases |a|
  {
    if a != [] {
      assert (a + b)[0] == a[0];
      assert (a + b)[1..] == a[1..] + b;
      RemoveAllAppend(a[1..], b, x);
      var ra, rb := RemoveAll(a[1..], x), RemoveAll(b, x);
      assert RemoveAll(a + b, x) == if a[0] == x then ra + rb else [a[0]] + (ra + rb);
      assert RemoveAll(a, x) == if a[0] == x then ra else [a[0]] + ra;
    } else {
      assert a + b == b;
    }
  }

  /** Filtering out a value that does not occur changes nothing. */
  lemma {:induction false} RemoveAllAbsent<T>(xs: seq<T>, x: T)
    requires x !in xs
    ensures RemoveAll(xs, x) == xs
    decreases |xs|
  {
    if xs != [] {
      assert xs == [xs[0]] + xs[1..];
      RemoveAllAbsent(xs[1..], x);
    }
  }

  /** Appending `x` and then filtering `x` out again restores a list that had no `x`. */
  lemma AppendThenRemove<T>(xs: seq<T>, x: T)
    requires x !in xs
    ensures RemoveAll(xs + [x], x) == xs
  {
    RemoveAllAppend(xs, [x], x);
    RemoveAllAbsent(xs, x);
    assert RemoveAll([x], x) == [];
  }

  /**
   * A checkbox on a list: ticking appends `x` at the end, unticking filters
   * every `x` out and keeps the rest in order.
   */
  function CheckboxChange<T(==)>(xs: seq<T>, x: T, checked: bool): (r: seq<T>)
    ensures checked ==> |r| == |xs| + 1 && r[..|xs|] == xs && r[|xs|] == x
    ensures !checked ==> x !in r && multiset(r) == multiset(xs)[x := 0]
  {
    if checked then xs + [x] else RemoveAll(xs, x)
  }

  /**
   * Ticking a box that was unticked and unticking it again gives back the
   * very same list; unticking a ticked box and ticking it again leaves it ticked.
   */
  lemma CheckboxTwice<T>(xs: seq<T>, x: T)
    ensures x !in xs ==> CheckboxChange(CheckboxChange(xs, x, true), x, false) == xs
    ensures x in CheckboxChange(CheckboxChange(xs, x, false), x, true)
  {
    if x !in xs {
      AppendThenRemove(xs, x);
    }
    var r := CheckboxChange(CheckboxChange(xs, x, false), x, true);
    assert r[|r| - 1] == x;
  }

  /** A toggle button on a list: filters `x` out when present, appends it when absent. */
  function Toggle<T(==)>(xs: seq<T>, x: T): (r: seq<T>)
    ensures x in r <==> x !in xs
    ensures x in xs ==> multiset(r) == multiset(xs)[x := 0]
    ensures x !in xs ==> multiset(r) == multiset(xs) + multiset{x}
  {
    CheckboxChange(xs, x, x !in xs)
  }

  /**
   * Toggling twice restores whether `x` is in the list, restores the list
   * itself when `x` was absent, and leaves it without duplicates of `x` otherwise.
   */
  lemma ToggleTwice<T>(xs: seq<T>, x: T)
    ensures x in Toggle(Toggle(xs, x), x) <==> x in xs
    ensures x !in xs ==> Toggle(Toggle(xs, x), x) == xs
    ensures x in xs ==> Toggle(Toggle(xs, x), x) == RemoveAll(xs, x) + [x]
  {
    if x !in xs {
      AppendThenRemove(xs, x);
    }
  }

  /** `xs.slice(0, n)`: the first `n` elements, or all of them when there are fewer. */
  function Take<T>(xs: seq<T>, n: nat): (r: seq<T>)
    ensures |r| == if |xs| < n then |xs| else n
    ensures forall k :: 0 <= k < |r| ==> r[k] == xs[k]
  {
    if |xs| <= n then xs else xs[..n]
  }
}
