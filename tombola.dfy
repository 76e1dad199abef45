/**
  The `Tombola` container of chapter 11: `load` adds items, `pick` removes one
  (raising LookupError when there is none), and the concrete `inspect` and
  `loaded` are written on top of those two. The chapter gives no subclass, so
  the container here keeps its items in a list and `pick` removes the item at
  a position chosen arbitrarily. Items are integers, which Python's `sorted`
  orders.
 */
module Tombolas {
  import opened Python

  predicate IsSorted(s: seq<int>)
  {
    forall i, j :: 0 <= i < j < |s| ==> s[i] <= s[j]
  }

  /** x put in front of the first element of s that is not smaller than it. */
  function InsertSorted(x: int, s: seq<int>): (r: seq<int>)
    ensures |r| == |s| + 1
    ensures r[0] == x || (s != [] && r[0] == s[0])
    ensures multiset(r) == multiset(s) + multiset{x}
    ensures IsSorted(s) ==> IsSorted(r)
  {
    if s == [] || x <= s[0] then [x] + s
    else
      var rest := InsertSorted(x, s[1..]);
      assert s == [s[0]] + s[1..];
      assert IsSorted(s) ==> IsSorted([s[0]] + rest) by {
        if IsSorted(s) {
          assert s[0] <= rest[0];
          SortedCons(s[0], rest);
        }
      }
      [s[0]] + rest
  }

  /** A sorted list stays sorted with an element no larger than its head in front. */
  lemma SortedCons(x: int, s: seq<int>)
    requires IsSorted(s) && (s == [] || x <= s[0])
    ensures IsSorted([x] + s)
  {
    var r := [x] + s;
    forall i, j | 0 <= i < j < |r| ensures r[i] <= r[j] {
      if i > 0 {
        assert r[i] == s[i - 1] && r[j] == s[j - 1];
      } else {
        assert r[j] == s[j - 1] && s[0] <= s[j - 1];
      }
    }
  }

  /** `sorted(items)`: the items in non-decreasing order. */
  function Sorted(items: seq<int>): (r: seq<int>)
    ensures IsSorted(r)
    ensures multiset(r) == multiset(items)
  {
    if items == [] then []
    else
      assert items == [items[0]] + items[1..];
      InsertSorted(items[0], Sorted(items[1..]))
  }

  /** The head of a sorted list is no larger than anything it holds. */
  lemma HeadIsLeast(s: seq<int>, x: int)
    requires IsSorted(s) && x in multiset(s)
    ensures s[0] <= x
  {
    assert x in s;
    var j :| 0 <= j < |s| && s[j] == x;
    assert j == 0 || s[0] <= s[j];
  }

  /** There is only one sorted arrangement of a multiset, so `sorted` does not
      depend on the order its argument comes in. */
  lemma {:induction false} SortedIsUnique(a: seq<int>, b: seq<int>)
    requires IsSorted(a) && IsSorted(b)
    requires multiset(a) == multiset(b)
    ensures a == b
  {
    if a != [] {
      SameHead(a, b);
      SameTail(a, b);
      SortedTail(a);
      SortedTail(b);
      SortedIsUnique(a[1..], b[1..]);
      assert a == [a[0]] + a[1..] && b == [b[0]] + b[1..];
    }
  }

  /** Two sorted arrangements of one non-empty multiset start alike. */
  lemma SameHead(a: seq<int>, b: seq<int>)
    requires IsSorted(a) && IsSorted(b)
    requires multiset(a) == multiset(b) && a != []
    ensures b != [] && a[0] == b[0]
  {
    assert a[0] in multiset(a);
    assert b != [];
    assert b[0] in multiset(b);
    HeadIsLeast(b, a[0]);
    HeadIsLeast(a, b[0]);
  }

  /** Equal multisets with equal heads have equal tails. */
  lemma SameTail(a: seq<int>, b: seq<int>)
    requires a != [] && b != [] && a[0] == b[0]
    requires multiset(a) == multiset(b)
    ensures multiset(a[1..]) == multiset(b[1..])
  {
    assert a == [a[0]] + a[1..];
    assert b == [b[0]] + b[1..];
    assert multiset(a) == multiset{a[0]} + multiset(a[1..]);
    assert multiset(b) == multiset{a[0]} + multiset(b[1..]);
    assert multiset(a[1..]) == multiset(a) - multiset{a[0]};
    assert multiset(b[1..]) == multiset(b) - multiset{a[0]};
  }

  lemma SortedTail(s: seq<int>)
    requires IsSorted(s) && s != []
    ensures IsSorted(s[1..])
  {
    forall i, j | 0 <= i < j < |s| - 1 ensures s[1..][i] <= s[1..][j] {
      assert s[1..][i] == s[i + 1] && s[1..][j] == s[j + 1];
    }
  }

  /** `sorted` of any arrangement of the same items gives the same tuple. */
  lemma SortedOfPermutation(a: seq<int>, b: seq<int>)
    requires multiset(a) == multiset(b)
    ensures Sorted(a) == Sorted(b)
  {
    SortedIsUnique(Sorted(a), Sorted(b));
  }

  class Tombola {
    /** The items currently held, in an order the container is free to change. */
    var items: seq<int>

    /** A new container holds nothing. */
    constructor ()
      ensures items == []
    {
      items := [];
    }

    /** `load(iterable)`: adds all the given items. */
    method Load(iterable: seq<int>)
      modifies this
      ensures items == old(items) + iterable
      ensures multiset(items) == multiset(old(items)) + multiset(iterable)
    {
      items := items + iterable;
    }

    /** `pick()`: removes one item and returns it, or raises LookupError when
        the container is empty, changing nothing. Which item is removed is
        left open. */
    method Pick() returns (r: Result<int>)
      modifies this
      ensures old(items) == [] <==> r.Raise?
      ensures r.Raise? ==> r.error == LookupError && items == old(items)
      ensures r.Ok? ==> r.value in old(items)
      ensures r.Ok? ==> multiset(items) + multiset{r.value} == multiset(old(items))
    {
      if items == [] {
        r := Raise(LookupError);
      } else {
        var i :| 0 <= i < |items|;
        r := Ok(items[i]);
        assert items == items[..i] + [items[i]] + items[i + 1..];
        items := items[..i] + items[i + 1..];
      }
    }

    /** `inspect()`: drains the container with `pick` until LookupError, loads
        the drained items back and returns them sorted. The items held
        afterwards are those held before, possibly in another order. */
    method Inspect() returns (r: seq<int>)
      modifies this
      ensures IsSorted(r)
      ensures multiset(r) == multiset(old(items))
      ensures multiset(items) == multiset(old(items))
    {
      var drained := [];
      while true
        invariant multiset(drained) + multiset(items) == multiset(old(items))
        decreases |items|
      {
        var picked := Pick();
        if picked.Raise? {
          break;
        }
        drained := drained + [picked.value];
      }
      Load(drained);
      r := Sorted(drained);
    }

    /** `loaded()`: `bool(self.inspect())`. */
    method Loaded() returns (b: bool)
      modifies this
      ensures b <==> old(items) != []
      ensures multiset(items) == multiset(old(items))
    {
      var snapshot := Inspect();
      b := |snapshot| != 0;
    }
  }

  /** `inspect` returns the sorted items held. Two calls in a row return the
      same tuple, and `loaded` afterwards still answers the same. */
  method InspectTwice(t: Tombola) returns (first: seq<int>, second: seq<int>, stillLoaded: bool)
    modifies t
    ensures first == second == Sorted(old(t.items))
    ensures stillLoaded <==> old(t.items) != []
    ensures multiset(t.items) == multiset(old(t.items))
  {
    first := t.Inspect();
    SortedIsUnique(first, Sorted(old(t.items)));
    second := t.Inspect();
    SortedIsUnique(second, Sorted(old(t.items)));
    stillLoaded := t.Loaded();
  }

  /** Loading items and picking as many times as were loaded gives back every
      item loaded and leaves the container empty. */
  method LoadThenDrain(xs: seq<int>) returns (picked: seq<int>, emptyAfter: bool)
    ensures multiset(picked) == multiset(xs)
    ensures emptyAfter
  {
    var t := new Tombola();
    t.Load(xs);
    picked := [];
    for k := 0 to |xs|
      invariant |t.items| == |xs| - k
      invariant multiset(picked) + multiset(t.items) == multiset(xs)
    {
      assert |multiset(t.items)| == |t.items|;
      var p := t.Pick();
      picked := picked + [p.value];
    }
    var last := t.Pick();
    emptyAfter := last.Raise?;
  }

  /** An example of the behaviour above: an empty container raises
      LookupError on `pick`; after `load([3, 1, 2])`, `inspect` returns
      `(1, 2, 3)` and the container is still loaded. */
  method LoadInspectExample() returns (onEmpty: Result<int>, snapshot: seq<int>, loaded: bool)
    ensures onEmpty == Raise(LookupError)
    ensures snapshot == [1, 2, 3]
    ensures loaded
  {
    var t := new Tombola();
    onEmpty := t.Pick();
    t.Load([3, 1, 2]);
    snapshot := t.Inspect();
    assert multiset([3, 1, 2]) == multiset([1, 2, 3]);
    SortedIsUnique(snapshot, [1, 2, 3]);
    loaded := t.Loaded();
  }
}
