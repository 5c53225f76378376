/** Python's `list.remove`, as used on the board squares and on the pending dice. */
module Seqs {

  /** True when no element occurs twice in `xs`. */
  predicate NoDup<T(==)>(xs: seq<T>) {
    forall i, j :: 0 <= i < j < |xs| ==> xs[i] != xs[j]
  }

  /** `xs` with its first occurrence of `x` taken out; `xs` itself when `x` is absent. */
  function RemoveFirst<T(==)>(xs: seq<T>, x: T): (r: seq<T>)
    ensures x in xs ==> |r| == |xs| - 1 && multiset(r) == multiset(xs) - multiset{x}
    ensures x !in xs ==> r == xs
    ensures forall y :: y in r ==> y in xs
  {
    if xs == [] then []
    else
      assert xs == [xs[0]] + xs[1..];
      if xs[0] == x then xs[1..]
      else [xs[0]] + RemoveFirst(xs[1..], x)
  }

  /** The position of the first occurrence of `x` in `xs`. */
  function FirstIndex<T(==)>(xs: seq<T>, x: T): (k: nat)
    requires x in xs
    ensures k < |xs| && xs[k] == x && x !in xs[..k]
  {
    if xs[0] == x then 0
    else
      assert xs == [xs[0]] + xs[1..];
      var k := FirstIndex(xs[1..], x);
      assert xs[..k + 1] == [xs[0]] + xs[1..][..k];
      k + 1
  }

  /**
   * `list.remove` takes out the first occurrence and keeps the rest in order: the result is
   * what precedes the first `x` followed by what follows it.
   */
  lemma {:induction false} RemoveFirstSplits<T>(xs: seq<T>, x: T)
    requires x in xs
    ensures RemoveFirst(xs, x) == xs[..FirstIndex(xs, x)] + xs[FirstIndex(xs, x) + 1..]
  {
    assert xs == [xs[0]] + xs[1..];
    if xs[0] == x {
      assert xs[..0] + xs[1..] == xs[1..];
    } else {
      RemoveFirstSplits(xs[1..], x);
      var k := FirstIndex(xs[1..], x);
      assert FirstIndex(xs, x) == k + 1;
      assert xs[..k + 1] == [xs[0]] + xs[1..][..k];
      assert xs[k + 2..] == xs[1..][k + 1..];
    }
  }

  /** In a list without repeats, removing `x` takes out exactly `x` and keeps the list repeat-free. */
  lemma {:induction false} RemoveFirstMembers<T>(xs: seq<T>, x: T)
    requires NoDup(xs)
    ensures NoDup(RemoveFirst(xs, x))
    ensures forall y :: y in RemoveFirst(xs, x) <==> y in xs && y != x
  {
    if xs != [] {
      assert xs == [xs[0]] + xs[1..];
      assert xs[0] !in xs[1..] by {
        forall k | 0 <= k < |xs[1..]| ensures xs[1..][k] != xs[0] {
          assert xs[1..][k] == xs[k + 1];
        }
      }
      if xs[0] != x {
        RemoveFirstMembers(xs[1..], x);
        var tail := RemoveFirst(xs[1..], x);
        assert RemoveFirst(xs, x) == [xs[0]] + tail;
        forall i, j | 0 <= i < j < |[xs[0]] + tail| ensures ([xs[0]] + tail)[i] != ([xs[0]] + tail)[j] {
          if i == 0 {
            assert ([xs[0]] + tail)[j] == tail[j - 1];
            assert tail[j - 1] in xs[1..];
          } else {
            assert ([xs[0]] + tail)[i] == tail[i - 1];
            assert ([xs[0]] + tail)[j] == tail[j - 1];
          }
        }
      }
    }
  }

  /** A list without repeats stays so when an element it does not hold is appended. */
  lemma AppendFreshNoDup<T>(xs: seq<T>, x: T)
    requires NoDup(xs) && x !in xs
    ensures NoDup(xs + [x])
  {
    forall i, j | 0 <= i < j < |xs + [x]| ensures (xs + [x])[i] != (xs + [x])[j] {
      if j == |xs| {
        assert (xs + [x])[i] == xs[i];
      }
    }
  }
}
