/** The Python list operations the player uses: subscripting, `list.index` and `list.remove`. */
module PyList {
  import opened Optional

  /** No value occurs twice. */
  predicate NoDup<T(==)>(xs: seq<T>) {
    forall i, j :: 0 <= i < j < |xs| ==> xs[i] != xs[j]
  }

  /** Python's `xs[i]`: a negative `i` counts from the end, and an index outside
      `[-len(xs), len(xs))` raises `IndexError`, modelled as `None`. */
  function PyIndex<T>(xs: seq<T>, i: int): (r: Option<T>)
    ensures r.Some? <==> -|xs| <= i < |xs|
    ensures 0 <= i < |xs| ==> r == Some(xs[i])
    ensures -|xs| <= i < 0 ==> r == Some(xs[|xs| + i])
  {
    if 0 <= i < |xs| then Some(xs[i])
    else if -|xs| <= i < 0 then Some(xs[|xs| + i])
    else None
  }

  /** Python's `xs.index(x)`: the position of the first occurrence of `x`. */
  function FirstIndex<T(==)>(xs: seq<T>, x: T): (i: nat)
    requires x in xs
    ensures i < |xs| && xs[i] == x && x !in xs[..i]
  {
    if xs[0] == x then 0 else 1 + FirstIndex(xs[1..], x)
  }

  /** Python's `xs.remove(x)`: deletes the first occurrence of `x`; a missing `x` (which
      raises `ValueError` in Python and is ruled out by the callers) leaves `xs` alone. */
  function RemoveFirst<T(==)>(xs: seq<T>, x: T): (r: seq<T>)
    ensures x in xs ==> |r| == |xs| - 1
    ensures x !in xs ==> r == xs
  {
    if xs == [] then []
    else
      assert xs == [xs[0]] + xs[1..];
      if xs[0] == x then xs[1..] else [xs[0]] + RemoveFirst(xs[1..], x)
  }

  /** `remove` is the splice around the position `index` reports: every other entry stays,
      in its original order. */
  lemma {:induction false} RemoveFirstIsSplice<T>(xs: seq<T>, x: T)
    requires x in xs
    ensures RemoveFirst(xs, x) == xs[..FirstIndex(xs, x)] + xs[FirstIndex(xs, x) + 1..]
  {
    if xs[0] != x {
      var tail := xs[1..];
      assert x in tail;
      RemoveFirstIsSplice(tail, x);
      var j := FirstIndex(tail, x);
      assert RemoveFirst(tail, x) == tail[..j] + tail[j + 1..];
      assert RemoveFirst(xs, x) == [xs[0]] + RemoveFirst(tail, x);
      assert FirstIndex(xs, x) == j + 1;
      assert xs[..j + 1] == [xs[0]] + tail[..j];
      assert tail[j + 1..] == xs[j + 2..];
    }
  }

  /** `remove` lists nothing new and keeps every value other than the removed one. */
  lemma {:induction false} RemoveFirstMembers<T>(xs: seq<T>, x: T)
    ensures forall y :: y in RemoveFirst(xs, x) ==> y in xs
    ensures forall y :: y != x && y in xs ==> y in RemoveFirst(xs, x)
  {
    if xs != [] && xs[0] != x {
      assert xs == [xs[0]] + xs[1..];
      RemoveFirstMembers(xs[1..], x);
    }
  }

  /** `remove` takes away exactly one copy of `x` and leaves the count of every other value alone. */
  lemma {:induction false} RemoveFirstMultiset<T>(xs: seq<T>, x: T)
    ensures multiset(RemoveFirst(xs, x)) == multiset(xs) - multiset{x}
  {
    if xs != [] {
      assert xs == [xs[0]] + xs[1..];
      if xs[0] != x {
        RemoveFirstMultiset(xs[1..], x);
      }
    }
  }

  /** Removing from a list without duplicates keeps it without duplicates, and the removed
      value is gone altogether. */
  lemma {:induction false} RemoveFirstNoDup<T>(xs: seq<T>, x: T)
    requires NoDup(xs)
    ensures NoDup(RemoveFirst(xs, x))
    ensures x !in RemoveFirst(xs, x)
  {
    if xs != [] {
      var tail := xs[1..];
      forall k | 0 <= k < |tail| ensures tail[k] != xs[0] {
        assert tail[k] == xs[k + 1];
      }
      assert xs[0] !in tail;
      if xs[0] != x {
        assert NoDup(tail) by {
          forall i, j | 0 <= i < j < |tail| ensures tail[i] != tail[j] {
            assert tail[i] == xs[i + 1] && tail[j] == xs[j + 1];
          }
        }
        RemoveFirstNoDup(tail, x);
        RemoveFirstMembers(tail, x);
        var r := [xs[0]] + RemoveFirst(tail, x);
        forall i, j | 0 <= i < j < |r| ensures r[i] != r[j] {
          if i > 0 {
            assert r[i] == RemoveFirst(tail, x)[i - 1];
            assert r[j] == RemoveFirst(tail, x)[j - 1];
          } else {
            assert r[j] in RemoveFirst(tail, x);
          }
        }
      }
    }
  }

  /** Appending a fresh value and then removing it gives back the original list. */
  lemma RemoveFirstAppended<T>(xs: seq<T>, x: T)
    requires x !in xs
    ensures RemoveFirst(xs + [x], x) == xs
  {
    assert x in xs + [x];
    RemoveFirstIsSplice(xs + [x], x);
    assert FirstIndex(xs + [x], x) == |xs|;
    assert (xs + [x])[..|xs|] == xs;
  }

  /** Appending a value that is not yet present keeps a list without duplicates. */
  lemma AppendNoDup<T>(xs: seq<T>, x: T)
    requires NoDup(xs) && x !in xs
    ensures NoDup(xs + [x])
  {
  }
}
