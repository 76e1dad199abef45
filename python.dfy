/**
  The parts of Python's built-in behaviour that the modelled code leans on:
  the exceptions it raises, and how `list` interprets an integer position in
  `lst[pos]`, `lst[pos] = v`, `del lst[pos]`, `lst.insert(pos, v)` and the
  extended slice `lst[start::step]`.
 */
module Python {

  /** The built-in exceptions raised by the modelled code. */
  datatype Exception = IndexError | LookupError | StopIteration

  /** A call that either returns a value or raises an exception. */
  datatype Result<+T> = Ok(value: T) | Raise(error: Exception)

  /** A list in which no element occurs twice. */
  predicate NoDuplicates<T(==)>(s: seq<T>)
  {
    forall i, j :: 0 <= i < j < |s| ==> s[i] != s[j]
  }

  /** The element slot addressed by `pos` in a list of length `len`: a negative
      position counts from the end; anything outside `-len .. len-1` raises
      IndexError. */
  function Slot(pos: int, len: nat): (r: Result<nat>)
    ensures r.Ok? <==> 0 <= pos + len && pos < len
    ensures r.Ok? ==> r.value < len && (pos - r.value) % len == 0
    ensures r.Raise? ==> r.error == IndexError
  {
    if 0 <= pos < len then Ok(pos)
    else if 0 <= pos + len && pos < 0 then Ok(pos + len)
    else Raise(IndexError)
  }

  /** `lst[pos]` */
  function GetItem<T>(s: seq<T>, pos: int): (r: Result<T>)
    ensures r.Ok? <==> -|s| <= pos < |s|
    ensures 0 <= pos < |s| ==> r == Ok(s[pos])
    ensures -|s| <= pos < 0 ==> r == Ok(s[|s| + pos])
  {
    match Slot(pos, |s|)
    case Ok(i) => Ok(s[i])
    case Raise(e) => Raise(e)
  }

  /** The list after `lst[pos] = v`, or IndexError. */
  function SetItem<T>(s: seq<T>, pos: int, v: T): (r: Result<seq<T>>)
    ensures r.Ok? <==> -|s| <= pos < |s|
    ensures r.Ok? ==> |r.value| == |s| && GetItem(r.value, pos) == Ok(v)
    ensures r.Ok? ==> forall j :: 0 <= j < |s| && j != Slot(pos, |s|).value ==> r.value[j] == s[j]
  {
    match Slot(pos, |s|)
    case Ok(i) => Ok(s[i := v])
    case Raise(e) => Raise(e)
  }

  /** The list after `del lst[pos]`, or IndexError. */
  function DelItem<T>(s: seq<T>, pos: int): (r: Result<seq<T>>)
    ensures r.Ok? <==> -|s| <= pos < |s|
    ensures r.Ok? ==> |r.value| == |s| - 1
    ensures r.Ok? ==> var i := Slot(pos, |s|).value;
      && (forall j :: 0 <= j < i ==> r.value[j] == s[j])
      && (forall j :: i <= j < |r.value| ==> r.value[j] == s[j + 1])
      && multiset(r.value) + multiset{s[i]} == multiset(s)
  {
    match Slot(pos, |s|)
    case Ok(i) =>
      assert s == s[..i] + [s[i]] + s[i + 1..];
      Ok(s[..i] + s[i + 1..])
    case Raise(e) => Raise(e)
  }

  /** Where `lst.insert(pos, v)` puts `v`: a negative position counts from
      the end, and a position outside the list is clamped to its nearer end. */
  function InsertSlot(pos: int, len: nat): (r: nat)
    ensures r <= len
    ensures 0 <= pos <= len ==> r == pos
    ensures 0 <= pos + len && pos < 0 ==> r == pos + len
    ensures pos + len < 0 ==> r == 0
    ensures pos > len ==> r == len
  {
    if pos < 0 then (if pos + len < 0 then 0 else pos + len)
    else if pos > len then len
    else pos
  }

  /** The list after `lst.insert(pos, v)`; insert never raises. */
  function Insert<T>(s: seq<T>, pos: int, v: T): (r: seq<T>)
    ensures |r| == |s| + 1
    ensures var i := InsertSlot(pos, |s|);
      && r[i] == v
      && (forall j :: 0 <= j < i ==> r[j] == s[j])
      && (forall j :: i < j < |r| ==> r[j] == s[j - 1])
      && multiset(r) == multiset(s) + multiset{v}
  {
    var i := InsertSlot(pos, |s|);
    assert s == s[..i] + s[i..];
    s[..i] + [v] + s[i..]
  }

  /** Deleting at the position an insert used gives the list back. */
  lemma DelItemUndoesInsert<T>(s: seq<T>, pos: int, v: T)
    requires 0 <= pos <= |s|
    ensures DelItem(Insert(s, pos, v), pos) == Ok(s)
  {
    var r := DelItem(Insert(s, pos, v), pos);
    assert r.Ok?;
    assert r.value == s;
  }

  /** Writing back the element a position held restores the list. */
  lemma SetItemRestores<T>(s: seq<T>, pos: int, v: T)
    requires -|s| <= pos < |s|
    ensures SetItem(SetItem(s, pos, v).value, pos, GetItem(s, pos).value) == Ok(s)
  {
    var i := Slot(pos, |s|).value;
    var t := SetItem(s, pos, v).value;
    var u := SetItem(t, pos, GetItem(s, pos).value);
    assert u.value == s;
  }

  /** `lst[start::step]` for a non-negative start and a positive step: the
      elements at start, start + step, start + 2 * step, ..., every one of
      those positions that lies inside the list. */
  function StepSlice<T>(s: seq<T>, start: nat, step: nat): (r: seq<T>)
    requires step > 0
    ensures start < |s| <==> |r| > 0
    ensures forall k :: 0 <= k < |r| ==> StepIndex(start, step, k) < |s| && r[k] == s[StepIndex(start, step, k)]
    ensures forall k: nat :: StepIndex(start, step, k) < |s| ==> k < |r|
    decreases |s| - start
  {
    if start < |s| then
      var rest := StepSlice(s, start + step, step);
      assert forall k: nat :: 0 < k ==> StepIndex(start, step, k) == StepIndex(start + step, step, k - 1);
      [s[start]] + rest
    else []
  }

  /** The position of the k-th element of `lst[start::step]`. */
  function StepIndex(start: nat, step: nat, k: nat): nat
  {
    start + k * step
  }
}
