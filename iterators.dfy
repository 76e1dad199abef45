/**
  Two ways of walking a sequence backwards: the hand-written iterator class
  `Reverse`, whose `__next__` steps a field `index` down to 0 and then raises
  StopIteration, and the generator function `reverse`.
 */
module Iterators {
  import opened Python

  /** What the generator `reverse(data)` yields: `data[index]` for index from
      `len(data) - 1` down to 0. */
  function ReverseGen<T>(data: seq<T>): (r: seq<T>)
    ensures |r| == |data|
  {
    if data == [] then [] else [data[|data| - 1]] + ReverseGen(data[..|data| - 1])
  }

  /** The k-th value yielded is `data[len(data) - 1 - k]`. */
  lemma {:induction false} ReverseGenAt<T>(data: seq<T>, k: int)
    requires 0 <= k < |data|
    ensures ReverseGen(data)[k] == data[|data| - 1 - k]
  {
    if k > 0 {
      ReverseGenAt(data[..|data| - 1], k - 1);
    }
  }

  /** Walking backwards twice gives the sequence back. */
  lemma ReverseGenTwice<T>(data: seq<T>)
    ensures ReverseGen(ReverseGen(data)) == data
  {
    var once := ReverseGen(data);
    forall k | 0 <= k < |data|
      ensures ReverseGen(once)[k] == data[k]
    {
      ReverseGenAt(once, k);
      ReverseGenAt(data, |data| - 1 - k);
    }
  }

  /** `class Reverse`: an iterator for looping over a sequence backwards. */
  class Reverse<T> {
    const data: seq<T>
    var index: nat

    ghost predicate Valid()
      reads this
    {
      index <= |data|
    }

    /** What is still to come: the first `index` elements, backwards. */
    ghost function Remaining(): seq<T>
      reads this
      requires Valid()
    {
      ReverseGen(data[..index])
    }

    /** `Reverse(data)`: starts past the last element. */
    constructor (data: seq<T>)
      ensures Valid()
      ensures this.data == data && index == |data|
      ensures Remaining() == ReverseGen(data)
    {
      this.data := data;
      index := |data|;
      assert data[..|data|] == data;
    }

    /** `__iter__` returns the iterator itself. */
    method Iter() returns (r: Reverse<T>)
      ensures r == this
    {
      r := this;
    }

    /** `__next__`: StopIteration once index is 0; otherwise index goes down by
        one and `data[index]` is returned, which is the next value of the
        generator. */
    method Next() returns (r: Result<T>)
      requires Valid()
      modifies this
      ensures Valid()
      ensures old(index) == 0 ==> r == Raise(StopIteration) && index == 0
      ensures old(index) > 0 ==> index == old(index) - 1 && r == Ok(data[index])
      ensures old(index) > 0 ==> [r.value] + Remaining() == old(Remaining())
    {
      if index == 0 {
        r := Raise(StopIteration);
      } else {
        index := index - 1;
        r := Ok(data[index]);
        assert data[..index + 1][..index] == data[..index];
      }
    }
  }

  /** `list(Reverse(data))`: calling `__next__` until StopIteration collects
      exactly what the generator `reverse(data)` yields. */
  method CollectReverse<T>(data: seq<T>) returns (out: seq<T>)
    ensures out == ReverseGen(data)
  {
    var it := new Reverse(data);
    out := [];
    while true
      invariant it.Valid() && it.data == data
      invariant out + it.Remaining() == ReverseGen(data)
      decreases it.index
    {
      var next := it.Next();
      if next.Raise? {
        break;
      }
      out := out + [next.value];
    }
  }

  /** `rev = Reverse('spam')`: the first `next(rev)` is 'm' and leaves `rev.index == 3`. */
  method SpamExample() returns (d: Result<char>, index: nat)
    ensures d == Ok('m') && index == 3
  {
    var rev := new Reverse("spam");
    d := rev.Next();
    index := rev.index;
  }
}
