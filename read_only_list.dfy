/** ReadOnlyList<T>: a growable array list (backing array, size, version)
    whose IList mutators do nothing, its version-checked Enumerator, and the
    ReadOnlyCollection2 view that forwards to it. */
module Utils {
  import opened Geometry

  /** The exceptions the list throws. */
  datatype Error = ArgumentOutOfRange | IndexOutOfRange | BadArgument | InvalidOperation

  datatype Result<R> = Ok(value: R) | Err(error: Error)

  /** The capacity of the first array a list gets when it grows from empty. */
  const DefaultCapacity: int := 4

  /** Array.MaxLength of the runtime. */
  const ArrayMaxLength: int := 0x7FFF_FFC7

  /** The capacity Grow picks for a backing array of `length` slots that must
      hold `requested`: the default for an empty array, else double, clamped
      to ArrayMaxLength, and never less than requested. (The source clamps a
      doubled length that overflowed `int` through a `uint` cast; with
      unbounded integers that is the plain comparison.) */
  function GrownCapacity(length: int, requested: int): (c: int)
    requires 0 <= length < requested
    ensures length < requested <= c
    ensures c <= ArrayMaxLength || c == requested
    ensures length == 0 && requested <= DefaultCapacity ==> c == DefaultCapacity
    ensures 0 < length && requested <= 2 * length <= ArrayMaxLength ==> c == 2 * length
    ensures 0 < length && 2 * length <= ArrayMaxLength ==> 2 * length <= c
  {
    var step := if length == 0 then DefaultCapacity else 2 * length;
    var clamped := if step > ArrayMaxLength then ArrayMaxLength else step;
    if clamped < requested then requested else clamped
  }

  /** `r` is the first slot in [lo, hi) whose element satisfies p, or -1 when
      there is none. */
  ghost predicate FirstSatisfying<T>(s: seq<T>, p: T -> bool, lo: int, hi: int, r: int)
    requires 0 <= lo <= hi <= |s|
  {
    if r == -1 then forall i :: lo <= i < hi ==> !p(s[i])
    else lo <= r < hi && p(s[r]) && forall i :: lo <= i < r ==> !p(s[i])
  }

  /** `r` is the last slot in [lo, hi) whose element satisfies p, or -1 when
      there is none. */
  ghost predicate LastSatisfying<T>(s: seq<T>, p: T -> bool, lo: int, hi: int, r: int)
    requires 0 <= lo <= hi <= |s|
  {
    if r == -1 then forall i :: lo <= i < hi ==> !p(s[i])
    else lo <= r < hi && p(s[r]) && forall i :: r < i < hi ==> !p(s[i])
  }

  /** Object.Equals against a fixed item, as a predicate. */
  function EqualTo<T(==)>(x: T): T -> bool
  {
    y => y == x
  }

  /** Array.IndexOf over slots [lo, hi): scans forwards. */
  function SearchForward<T(==)>(s: seq<T>, x: T, lo: int, hi: int): (r: int)
    requires 0 <= lo <= hi <= |s|
    ensures FirstSatisfying(s, EqualTo(x), lo, hi, r)
    decreases hi - lo
  {
    if lo == hi then -1 else if s[lo] == x then lo else SearchForward(s, x, lo + 1, hi)
  }

  /** Array.LastIndexOf over slots [lo, hi): scans backwards from hi - 1. */
  function SearchBackward<T(==)>(s: seq<T>, x: T, lo: int, hi: int): (r: int)
    requires 0 <= lo <= hi <= |s|
    ensures LastSatisfying(s, EqualTo(x), lo, hi, r)
    decreases hi - lo
  {
    if lo == hi then -1 else if s[hi - 1] == x then hi - 1 else SearchBackward(s, x, lo, hi - 1)
  }

  /** The elements of s that satisfy p, in their order (what FindAll collects). */
  function Matching<T>(s: seq<T>, p: T -> bool): seq<T>
  {
    if s == [] then [] else Matching(s[..|s| - 1], p) + (if p(s[|s| - 1]) then [s[|s| - 1]] else [])
  }

  /** FindAll keeps exactly the elements that satisfy the predicate. */
  lemma {:induction false} MatchingMeaning<T>(s: seq<T>, p: T -> bool, x: T)
    ensures x in Matching(s, p) <==> x in s && p(x)
  {
    if s != [] {
      var init := s[..|s| - 1];
      MatchingMeaning(init, p, x);
      assert s == init + [s[|s| - 1]];
    }
  }

  /** The elements of s in the opposite order. */
  function Backwards<T>(s: seq<T>): (r: seq<T>)
    ensures |r| == |s|
  {
    if s == [] then [] else [s[|s| - 1]] + Backwards(s[..|s| - 1])
  }

  lemma {:induction false} BackwardsAt<T>(s: seq<T>, k: int)
    requires 0 <= k < |s|
    ensures Backwards(s)[k] == s[|s| - 1 - k]
  {
    if k > 0 {
      BackwardsAt(s[..|s| - 1], k - 1);
    }
  }

  /** Array.Reverse(items, index, count): the slots [index, index + count)
      in the opposite order, every other slot as it was. */
  function ReversedRange<T>(s: seq<T>, index: int, count: int): (r: seq<T>)
    requires 0 <= index && 0 <= count && index + count <= |s|
    ensures |r| == |s|
  {
    s[..index] + Backwards(s[index..index + count]) + s[index + count..]
  }

  /** The element at slot i of the range moves to index + (index + count - i - 1);
      every slot outside the range keeps its element. */
  lemma ReversedRangeAt<T>(s: seq<T>, index: int, count: int, i: int)
    requires 0 <= index && 0 <= count && index + count <= |s| && 0 <= i < |s|
    ensures index <= i < index + count ==> ReversedRange(s, index, count)[index + (index + count - i - 1)] == s[i]
    ensures !(index <= i < index + count) ==> ReversedRange(s, index, count)[i] == s[i]
  {
    if index <= i < index + count {
      BackwardsAt(s[index..index + count], index + count - i - 1);
    }
  }

  /** Reversing the same range twice restores the list. */
  lemma ReversedRangeTwice<T>(s: seq<T>, index: int, count: int)
    requires 0 <= index && 0 <= count && index + count <= |s|
    ensures ReversedRange(ReversedRange(s, index, count), index, count) == s
  {
    var once := ReversedRange(s, index, count);
    var twice := ReversedRange(once, index, count);
    forall i | 0 <= i < |s| ensures twice[i] == s[i] {
      ReversedRangeAt(s, index, count, i);
      if index <= i < index + count {
        ReversedRangeAt(once, index, count, index + (index + count - i - 1));
      } else {
        ReversedRangeAt(once, index, count, i);
      }
    }
  }

  /** A reversal inside the first n slots only touches those slots. */
  lemma ReversedRangePrefix<T>(s: seq<T>, index: int, count: int, n: int)
    requires 0 <= index && 0 <= count && index + count <= n <= |s|
    ensures ReversedRange(s, index, count)[..n] == ReversedRange(s[..n], index, count)
  {
    var l := ReversedRange(s, index, count)[..n];
    var r := ReversedRange(s[..n], index, count);
    forall t | 0 <= t < n ensures l[t] == r[t] {
      if index <= t < index + count {
        var i := index + (index + count - t - 1);
        ReversedRangeAt(s, index, count, i);
        ReversedRangeAt(s[..n], index, count, i);
      } else {
        ReversedRangeAt(s, index, count, t);
        ReversedRangeAt(s[..n], index, count, t);
      }
    }
  }

  /** A range of fewer than two slots reverses to itself. */
  lemma ReversedShortRange<T>(s: seq<T>, index: int, count: int)
    requires 0 <= index && 0 <= count <= 1 && index + count <= |s|
    ensures ReversedRange(s, index, count) == s
  {
    forall t | 0 <= t < |s| ensures ReversedRange(s, index, count)[t] == s[t] {
      ReversedRangeAt(s, index, count, t);
    }
  }

  /** Array.Reverse: swaps the ends of the range inwards, in place. */
  method ReverseSlots<T>(a: array<T>, index: int, count: int)
    requires 0 <= index && 0 <= count && index + count <= a.Length
    modifies a
    ensures a[..] == ReversedRange(old(a[..]), index, count)
  {
    ghost var m := 2 * index + count - 1;
    var i, j := index, index + count - 1;
    while i < j
      invariant index <= i && i + j == m && i <= j + 1 && j < index + count
      invariant forall t :: 0 <= t < a.Length ==>
        a[t] == if index <= t < i || j < t < index + count then old(a[m - t]) else old(a[t])
    {
      a[i], a[j] := a[j], a[i];
      i, j := i + 1, j - 1;
    }
    ghost var was := old(a[..]);
    forall t | 0 <= t < a.Length ensures a[..][t] == ReversedRange(was, index, count)[t] {
      if index <= t < index + count {
        ReversedRangeAt(was, index, count, m - t);
      } else {
        ReversedRangeAt(was, index, count, t);
      }
    }
  }

  /** ReadOnlyList<T>: `items` is the backing array, its first `size` slots
      are the list, and `version` counts the changes an enumeration must not
      overlap. */
  class ReadOnlyList<T(0,==)> {
    var items: array<T>
    var size: int
    var version: int

    ghost predicate Valid()
      reads this
    {
      0 <= size <= items.Length
    }

    /** The list's contents. */
    function Elements(): seq<T>
      reads this, items
      requires Valid()
    {
      items[..size]
    }

    /** An empty list with no backing storage. */
    constructor()
      ensures Valid() && fresh(items) && items.Length == 0 && Elements() == [] && version == 0
    {
      items := new T[0];
      size := 0;
      version := 0;
    }

    /** The part of ReadOnlyList(capacity) after its argument check. */
    constructor Sized(capacity: int)
      requires capacity >= 0
      ensures Valid() && fresh(items) && items.Length == capacity && Elements() == [] && version == 0
    {
      items := new T[capacity];
      size := 0;
      version := 0;
    }

    /** ReadOnlyList(capacity): a negative capacity is refused. */
    static method WithCapacity(capacity: int) returns (r: Result<ReadOnlyList<T>>)
      ensures r.Err? <==> capacity < 0
      ensures r.Err? ==> r.error == ArgumentOutOfRange
      ensures r.Ok? ==> fresh(r.value) && fresh(r.value.items) && r.value.Valid()
      ensures r.Ok? ==> r.value.items.Length == capacity && r.value.Elements() == []
    {
      if capacity < 0 {
        return Err(ArgumentOutOfRange);
      }
      var list := new ReadOnlyList<T>.Sized(capacity);
      return Ok(list);
    }

    /** ReadOnlyList(collection) for an ICollection: one array exactly as
        large as the collection, filled in order. */
    constructor FromCollection(c: seq<T>)
      ensures Valid() && fresh(items) && items.Length == |c| && Elements() == c && version == 0
    {
      var a := new T[|c|];
      forall i | 0 <= i < |c| {
        a[i] := c[i];
      }
      items := a;
      size := |c|;
      version := 0;
    }

    /** ReadOnlyList(collection) for any other enumerable: Add, one element at a time. */
    static method FromEnumerable(e: seq<T>) returns (list: ReadOnlyList<T>)
      ensures fresh(list) && list.Valid() && list.Elements() == e && list.version == |e|
    {
      list := new ReadOnlyList<T>();
      var i := 0;
      while i < |e|
        invariant 0 <= i <= |e|
        invariant fresh(list) && fresh(list.items) && list.Valid()
        invariant list.Elements() == e[..i] && list.version == i
      {
        list.Add(e[i]);
        i := i + 1;
      }
    }

    /** Count. */
    function Count(): (n: int)
      reads this, items
      requires Valid()
      ensures n == |Elements()|
    {
      size
    }

    /** The Capacity setter: below the size it throws; otherwise the backing
        array is replaced by one of exactly `value` slots holding the same
        elements, unless it already has that length. */
    method SetCapacity(value: int) returns (r: Result<()>)
      requires Valid()
      modifies this`items
      ensures Valid() && Elements() == old(Elements())
      ensures r.Err? <==> value < size
      ensures r.Err? ==> r.error == ArgumentOutOfRange && items == old(items)
      ensures r.Ok? ==> items.Length == value
      ensures r.Ok? && value == old(items.Length) ==> items == old(items)
      ensures r.Ok? && value != old(items.Length) ==> fresh(items)
    {
      if value < size {
        return Err(ArgumentOutOfRange);
      }
      if value != items.Length {
        if value > 0 {
          var newItems := new T[value];
          if size > 0 {
            forall i | 0 <= i < size {
              newItems[i] := items[i];
            }
          }
          items := newItems;
        } else {
          items := new T[0];
        }
      }
      r := Ok(());
    }

    /** Grow: a larger backing array, sized by GrownCapacity. */
    method Grow(capacity: int)
      requires Valid() && items.Length < capacity
      modifies this`items
      ensures Valid() && fresh(items) && Elements() == old(Elements())
      ensures items.Length == GrownCapacity(old(items.Length), capacity)
    {
      var newCapacity := if items.Length == 0 then DefaultCapacity else 2 * items.Length;
      if newCapacity > ArrayMaxLength {
        newCapacity := ArrayMaxLength;
      }
      if newCapacity < capacity {
        newCapacity := capacity;
      }
      var _ := SetCapacity(newCapacity);
    }

    /** EnsureCapacity: grows when the array is shorter than asked, and
        reports the resulting capacity. */
    method EnsureCapacity(capacity: int) returns (r: Result<int>)
      requires Valid()
      modifies this`items, this`version
      ensures Valid() && Elements() == old(Elements())
      ensures r.Err? <==> capacity < 0
      ensures r.Err? ==> r.error == ArgumentOutOfRange && items == old(items) && version == old(version)
      ensures r.Ok? ==> r.value == items.Length && capacity <= items.Length
      ensures r.Ok? && old(items.Length) < capacity ==>
        fresh(items) && items.Length == GrownCapacity(old(items.Length), capacity) && version == old(version) + 1
      ensures r.Ok? && capacity <= old(items.Length) ==> items == old(items) && version == old(version)
    {
      if capacity < 0 {
        return Err(ArgumentOutOfRange);
      }
      if items.Length < capacity {
        Grow(capacity);
        version := version + 1;
      }
      r := Ok(items.Length);
    }

    /** The indexer's get: only slots [0, size) can be read. */
    function Get(index: int): (r: Result<T>)
      reads this, items
      requires Valid()
      ensures r.Err? <==> !(0 <= index < |Elements()|)
      ensures r.Err? ==> r.error == ArgumentOutOfRange
      ensures r.Ok? ==> r.value == Elements()[index]
    {
      if index < 0 || index >= size then Err(ArgumentOutOfRange) else Ok(items[index])
    }

    /** The indexer's set: replaces one element and counts as a change. */
    method Set(index: int, value: T) returns (r: Result<()>)
      requires Valid()
      modifies items, this`version
      ensures Valid() && items == old(items) && size == old(size)
      ensures r.Err? <==> !(0 <= index < size)
      ensures r.Err? ==> r.error == ArgumentOutOfRange && Elements() == old(Elements()) && version == old(version)
      ensures r.Ok? ==> Elements() == old(Elements())[index := value] && version == old(version) + 1
    {
      if index < 0 || index >= size {
        return Err(ArgumentOutOfRange);
      }
      items[index] := value;
      version := version + 1;
      r := Ok(());
    }

    /** Add: the item goes into slot `size`, growing the array first when it
        is full; every Add counts as a change. */
    method Add(item: T)
      requires Valid()
      modifies this, items
      ensures Valid() && Elements() == old(Elements()) + [item]
      ensures version == old(version) + 1
      ensures old(size) < old(items.Length) ==> items == old(items)
      ensures old(size) == old(items.Length) ==>
        fresh(items) && items.Length == GrownCapacity(old(items.Length), old(size) + 1)
    {
      version := version + 1;
      var arr := items;
      var n := size;
      if n < arr.Length {
        size := n + 1;
        arr[n] := item;
      } else {
        AddWithResize(item);
      }
    }

    method AddWithResize(item: T)
      requires Valid() && size == items.Length
      modifies this`items, this`size
      ensures Valid() && fresh(items) && Elements() == old(Elements()) + [item]
      ensures items.Length == GrownCapacity(old(items.Length), old(size) + 1)
    {
      var n := size;
      Grow(n + 1);
      size := n + 1;
      items[n] := item;
    }

    /** IList.Add: adds and reports the new element's slot. */
    method AddObject(item: T) returns (index: int)
      requires Valid()
      modifies this, items
      ensures Valid() && Elements() == old(Elements()) + [item] && version == old(version) + 1
      ensures index == old(size) && Elements()[index] == item
    {
      Add(item);
      index := Count() - 1;
    }

    /** IndexOf(item): the first slot holding item, or -1. */
    function IndexOf(item: T): (r: int)
      reads this, items
      requires Valid()
      ensures r == -1 <==> item !in Elements()
      ensures r != -1 ==> 0 <= r < |Elements()| && Elements()[r] == item && item !in Elements()[..r]
    {
      var r := SearchForward(Elements(), item, 0, size);
      assert r == -1 ==> forall i :: 0 <= i < size ==> Elements()[i] != item;
      r
    }

    /** Contains: the list is not empty and IndexOf finds the item. */
    function Contains(item: T): (b: bool)
      reads this, items
      requires Valid()
      ensures b <==> item in Elements()
    {
      size != 0 && IndexOf(item) != -1
    }

    /** IndexOf(item, index, count): the first slot of [index, index + count)
        holding item; a range outside the list throws (a negative index
        through Array.IndexOf's own check). */
    function IndexOfRange(item: T, index: int, count: int): (r: Result<int>)
      reads this, items
      requires Valid()
      ensures r.Err? <==> !(0 <= index && 0 <= count && index + count <= |Elements()|)
      ensures r.Err? ==> r.error == ArgumentOutOfRange
      ensures r.Ok? ==> FirstSatisfying(Elements(), EqualTo(item), index, index + count, r.value)
    {
      if index > size then Err(ArgumentOutOfRange)
      else if count < 0 || index > size - count then Err(ArgumentOutOfRange)
      else if index < 0 then Err(ArgumentOutOfRange)
      else Ok(SearchForward(Elements(), item, index, index + count))
    }

    /** IndexOf(item, index): the first slot from index on holding item. */
    function IndexOfFrom(item: T, index: int): (r: Result<int>)
      reads this, items
      requires Valid()
      ensures r.Err? <==> !(0 <= index <= |Elements()|)
      ensures r.Err? ==> r.error == ArgumentOutOfRange
      ensures r.Ok? ==> FirstSatisfying(Elements(), EqualTo(item), index, |Elements()|, r.value)
    {
      if index > size then Err(ArgumentOutOfRange)
      else if index < 0 then Err(ArgumentOutOfRange)
      else Ok(SearchForward(Elements(), item, index, size))
    }

    /** LastIndexOf(item, index, count): the last slot of
        (index - count, index] holding item. A non-empty list refuses a
        negative index or count first; an empty list answers -1. */
    function LastIndexOfRange(item: T, index: int, count: int): (r: Result<int>)
      reads this, items
      requires Valid()
      ensures |Elements()| == 0 ==> r == Ok(-1)
      ensures r.Err? <==> |Elements()| != 0 && !(0 <= index < |Elements()| && 0 <= count <= index + 1)
      ensures r.Err? ==> r.error == (if index < 0 then IndexOutOfRange else ArgumentOutOfRange)
      ensures r.Ok? && |Elements()| != 0 ==>
        LastSatisfying(Elements(), EqualTo(item), index - count + 1, index + 1, r.value)
    {
      if size != 0 && index < 0 then Err(IndexOutOfRange)
      else if size != 0 && count < 0 then Err(ArgumentOutOfRange)
      else if size == 0 then Ok(-1)
      else if index >= size then Err(ArgumentOutOfRange)
      else if count > index + 1 then Err(ArgumentOutOfRange)
      else Ok(SearchBackward(Elements(), item, index - count + 1, index + 1))
    }

    /** LastIndexOf(item): the last slot holding item, or -1 (at once for an
        empty list). */
    function LastIndexOf(item: T): (r: int)
      reads this, items
      requires Valid()
      ensures r == -1 <==> item !in Elements()
      ensures r != -1 ==> 0 <= r < |Elements()| && Elements()[r] == item && item !in Elements()[r + 1..]
    {
      if size == 0 then -1
      else
        var r := LastIndexOfRange(item, size - 1, size).value;
        assert r == -1 ==> forall i :: 0 <= i < size ==> Elements()[i] != item;
        r
    }

    /** LastIndexOf(item, index): the last slot of [0, index] holding item. */
    function LastIndexOfFrom(item: T, index: int): (r: Result<int>)
      reads this, items
      requires Valid()
      ensures r.Err? <==> !(index < |Elements()| && (|Elements()| == 0 || 0 <= index))
      ensures r.Ok? && |Elements()| != 0 ==> LastSatisfying(Elements(), EqualTo(item), 0, index + 1, r.value)
      ensures r.Ok? && |Elements()| == 0 ==> r.value == -1
    {
      if index >= size then Err(ArgumentOutOfRange) else LastIndexOfRange(item, index, index + 1)
    }

    /** FindIndex(startIndex, count, matches): scans [startIndex, startIndex + count)
        forwards; a range outside the list throws. */
    method FindIndexRange(startIndex: int, count: int, matches: T -> bool) returns (r: Result<int>)
      requires Valid()
      ensures r.Err? <==> !(0 <= startIndex <= |Elements()| && 0 <= count && startIndex <= |Elements()| - count)
      ensures r.Err? ==> r.error == ArgumentOutOfRange
      ensures r.Ok? ==> FirstSatisfying(Elements(), matches, startIndex, startIndex + count, r.value)
    {
      if startIndex < 0 || startIndex > size {
        return Err(ArgumentOutOfRange);
      }
      if count < 0 || startIndex > size - count {
        return Err(ArgumentOutOfRange);
      }
      var endIndex := startIndex + count;
      var i := startIndex;
      while i < endIndex
        invariant startIndex <= i <= endIndex
        invariant forall t :: startIndex <= t < i ==> !matches(Elements()[t])
      {
        if matches(items[i]) {
          return Ok(i);
        }
        i := i + 1;
      }
      return Ok(-1);
    }

    /** FindIndex(matches): the whole list. */
    method FindIndex(matches: T -> bool) returns (r: int)
      requires Valid()
      ensures FirstSatisfying(Elements(), matches, 0, |Elements()|, r)
    {
      var found := FindIndexRange(0, size, matches);
      r := found.value;
    }

    /** FindIndex(startIndex, matches): from startIndex to the end. */
    method FindIndexFrom(startIndex: int, matches: T -> bool) returns (r: Result<int>)
      requires Valid()
      ensures r.Err? <==> !(0 <= startIndex <= |Elements()|)
      ensures r.Ok? ==> FirstSatisfying(Elements(), matches, startIndex, |Elements()|, r.value)
    {
      r := FindIndexRange(startIndex, size - startIndex, matches);
    }

    /** FindLastIndex(startIndex, count, matches): scans (startIndex - count,
        startIndex] backwards. On an empty list only startIndex = -1 (and so
        count = 0) is accepted. */
    method FindLastIndexRange(startIndex: int, count: int, matches: T -> bool) returns (r: Result<int>)
      requires Valid()
      ensures r.Err? <==> !(if |Elements()| == 0 then startIndex == -1 && count == 0
                            else 0 <= startIndex < |Elements()| && 0 <= count <= startIndex + 1)
      ensures r.Err? ==> r.error == ArgumentOutOfRange
      ensures r.Ok? && |Elements()| == 0 ==> r.value == -1
      ensures r.Ok? && |Elements()| != 0 ==>
        LastSatisfying(Elements(), matches, startIndex - count + 1, startIndex + 1, r.value)
    {
      if size == 0 {
        if startIndex != -1 {
          return Err(ArgumentOutOfRange);
        }
      } else {
        if startIndex < 0 || startIndex >= size {
          return Err(ArgumentOutOfRange);
        }
      }
      if count < 0 || startIndex - count + 1 < 0 {
        return Err(ArgumentOutOfRange);
      }
      var endIndex := startIndex - count;
      var i := startIndex;
      while i > endIndex
        invariant endIndex <= i <= startIndex
        invariant forall t :: i < t <= startIndex ==> !matches(Elements()[t])
      {
        if matches(items[i]) {
          return Ok(i);
        }
        i := i - 1;
      }
      return Ok(-1);
    }

    /** FindLastIndex(matches): the whole list, from the end. */
    method FindLastIndex(matches: T -> bool) returns (r: int)
      requires Valid()
      ensures |Elements()| == 0 ==> r == -1
      ensures |Elements()| != 0 ==> LastSatisfying(Elements(), matches, 0, |Elements()|, r)
    {
      var found := FindLastIndexRange(size - 1, size, matches);
      r := found.value;
    }

    /** FindLastIndex(startIndex, matches): from startIndex back to slot 0. */
    method FindLastIndexFrom(startIndex: int, matches: T -> bool) returns (r: Result<int>)
      requires Valid()
      ensures r.Err? <==> !(if |Elements()| == 0 then startIndex == -1 else 0 <= startIndex < |Elements()|)
      ensures r.Ok? && |Elements()| != 0 ==> LastSatisfying(Elements(), matches, 0, startIndex + 1, r.value)
    {
      r := FindLastIndexRange(startIndex, startIndex + 1, matches);
    }

    /** Exists: some element satisfies matches. */
    method Exists(matches: T -> bool) returns (b: bool)
      requires Valid()
      ensures b <==> exists i :: 0 <= i < |Elements()| && matches(Elements()[i])
    {
      var i := FindIndex(matches);
      b := i != -1;
    }

    /** Find: the first element satisfying matches; None stands for default(T). */
    method Find(matches: T -> bool) returns (r: Option<T>)
      requires Valid()
      ensures r.None? <==> forall i :: 0 <= i < |Elements()| ==> !matches(Elements()[i])
      ensures r.Some? ==> exists i :: FirstSatisfying(Elements(), matches, 0, |Elements()|, i) && 0 <= i < |Elements()| && r.value == Elements()[i]
    {
      var i := 0;
      while i < size
        invariant 0 <= i <= size
        invariant forall t :: 0 <= t < i ==> !matches(Elements()[t])
      {
        if matches(items[i]) {
          assert FirstSatisfying(Elements(), matches, 0, size, i);
          return Some(items[i]);
        }
        i := i + 1;
      }
      return None;
    }

    /** FindLast: the last element satisfying matches; None stands for default(T). */
    method FindLast(matches: T -> bool) returns (r: Option<T>)
      requires Valid()
      ensures r.None? <==> forall i :: 0 <= i < |Elements()| ==> !matches(Elements()[i])
      ensures r.Some? ==> exists i :: LastSatisfying(Elements(), matches, 0, |Elements()|, i) && 0 <= i < |Elements()| && r.value == Elements()[i]
    {
      var i := size - 1;
      while i >= 0
        invariant -1 <= i < size
        invariant forall t :: i < t < size ==> !matches(Elements()[t])
      {
        if matches(items[i]) {
          assert LastSatisfying(Elements(), matches, 0, size, i);
          return Some(items[i]);
        }
        i := i - 1;
      }
      return None;
    }

    /** FindAll: a new list of the matching elements, in order. */
    method FindAll(matches: T -> bool) returns (found: seq<T>)
      requires Valid()
      ensures found == Matching(Elements(), matches)
      ensures forall x :: x in found <==> x in Elements() && matches(x)
    {
      found := [];
      var i := 0;
      while i < size
        invariant 0 <= i <= size
        invariant found == Matching(Elements()[..i], matches)
      {
        assert Elements()[..i + 1][..i] == Elements()[..i];
        if matches(items[i]) {
          found := found + [items[i]];
        }
        i := i + 1;
      }
      assert Elements()[..size] == Elements();
      forall x ensures x in found <==> x in Elements() && matches(x) {
        MatchingMeaning(Elements(), matches, x);
      }
    }

    /** TrueForAll: every element satisfies matches. */
    method TrueForAll(matches: T -> bool) returns (b: bool)
      requires Valid()
      ensures b <==> forall i :: 0 <= i < |Elements()| ==> matches(Elements()[i])
    {
      var i := 0;
      while i < size
        invariant 0 <= i <= size
        invariant forall t :: 0 <= t < i ==> matches(Elements()[t])
      {
        if !matches(items[i]) {
          assert !matches(Elements()[i]);
          return false;
        }
        i := i + 1;
      }
      return true;
    }

    /** ForEach: the action is called on every element, in order; the
        results of the calls are returned. */
    method ForEach<U>(action: T -> U) returns (calls: seq<U>)
      requires Valid()
      ensures |calls| == |Elements()|
      ensures forall i :: 0 <= i < |calls| ==> calls[i] == action(Elements()[i])
    {
      calls := [];
      var i := 0;
      while i < size
        invariant 0 <= i <= size && |calls| == i
        invariant forall t :: 0 <= t < i ==> calls[t] == action(Elements()[t])
      {
        calls := calls + [action(items[i])];
        i := i + 1;
      }
    }

    /** ToArray: a fresh array of exactly the elements. */
    method ToArray() returns (a: array<T>)
      requires Valid()
      ensures fresh(a) && a[..] == Elements()
    {
      a := new T[size];
      forall i | 0 <= i < size {
        a[i] := items[i];
      }
    }

    /** GetRange: a new list holding slots [index, index + count), with a
        backing array of exactly count slots. */
    method GetRange(index: int, count: int) returns (r: Result<ReadOnlyList<T>>)
      requires Valid()
      ensures r.Err? <==> !(0 <= index && 0 <= count && count <= |Elements()| - index)
      ensures r.Err? ==> r.error == (if index < 0 then IndexOutOfRange else if count < 0 then ArgumentOutOfRange else BadArgument)
      ensures r.Ok? ==> fresh(r.value) && fresh(r.value.items) && r.value.Valid()
      ensures r.Ok? ==> r.value.Elements() == Elements()[index..index + count] && r.value.items.Length == count
    {
      if index < 0 {
        return Err(IndexOutOfRange);
      }
      if count < 0 {
        return Err(ArgumentOutOfRange);
      }
      if size - index < count {
        return Err(BadArgument);
      }
      var list := new ReadOnlyList<T>.Sized(count);
      forall i | 0 <= i < count {
        list.items[i] := items[index + i];
      }
      list.size := count;
      return Ok(list);
    }

    /** Reverse(index, count): the range is reversed in place; every call
        that passes the argument checks counts as a change. */
    method Reverse(index: int, count: int) returns (r: Result<()>)
      requires Valid()
      modifies items, this`version
      ensures Valid() && items == old(items) && size == old(size)
      ensures r.Err? <==> !(0 <= index && 0 <= count && count <= old(size) - index)
      ensures r.Err? ==> r.error == (if index < 0 then IndexOutOfRange else if count < 0 then ArgumentOutOfRange else BadArgument)
      ensures r.Err? ==> Elements() == old(Elements()) && version == old(version)
      ensures r.Ok? ==> Elements() == ReversedRange(old(Elements()), index, count) && version == old(version) + 1
    {
      if index < 0 {
        return Err(IndexOutOfRange);
      }
      if count < 0 {
        return Err(ArgumentOutOfRange);
      }
      if size - index < count {
        return Err(BadArgument);
      }
      ghost var was := items[..];
      if count > 1 {
        ReverseSlots(items, index, count);
        ReversedRangePrefix(was, index, count, size);
      } else {
        ReversedShortRange(was[..size], index, count);
      }
      version := version + 1;
      r := Ok(());
    }

    /** Reverse(): the whole list. */
    method ReverseAll()
      requires Valid()
      modifies items, this`version
      ensures Valid() && items == old(items) && size == old(size)
      ensures Elements() == ReversedRange(old(Elements()), 0, old(size)) && version == old(version) + 1
    {
      var _ := Reverse(0, size);
    }

    /** IList.Clear, IList.Insert, IList.Remove and IList.RemoveAt: the list
        is read-only through IList, so each one leaves it as it is. */
    method IListClear()
      requires Valid()
      ensures Elements() == old(Elements()) && version == old(version)
    {
    }

    method IListInsert(index: int, item: T)
      requires Valid()
      ensures Elements() == old(Elements()) && version == old(version)
    {
    }

    method IListRemove(item: T)
      requires Valid()
      ensures Elements() == old(Elements()) && version == old(version)
    {
    }

    method IListRemoveAt(index: int)
      requires Valid()
      ensures Elements() == old(Elements()) && version == old(version)
    {
    }
  }

  /** ReadOnlyList.Enumerator: remembers the version it started at and
      refuses to go on once the list has changed. `current` None stands for
      default(T). */
  class Enumerator<T(0,==)> {
    const list: ReadOnlyList<T>
    var index: int
    const version: int
    var current: Option<T>

    constructor(list: ReadOnlyList<T>)
      ensures this.list == list && index == 0 && version == list.version && current == None
      ensures CurrentObject().Err?
    {
      this.list := list;
      index := 0;
      version := list.version;
      current := None;
    }

    /** MoveNext: the next element while the list is unchanged; at the end
        it parks past the last slot; after a change it throws. */
    method MoveNext() returns (r: Result<bool>)
      requires list.Valid()
      modifies this`index, this`current
      ensures version == list.version && 0 <= old(index) < |list.Elements()| ==>
        r == Ok(true) && current == Some(list.Elements()[old(index)]) && index == old(index) + 1
      ensures version == list.version && !(0 <= old(index) < |list.Elements()|) ==>
        r == Ok(false) && current == None && index == |list.Elements()| + 1
      ensures version != list.version ==>
        r == Err(InvalidOperation) && current == old(current) && index == old(index)
      ensures r == Ok(true) ==> CurrentObject() == Ok(Some(list.Elements()[old(index)]))
      ensures r == Ok(false) ==> CurrentObject().Err?
    {
      if version == list.version && 0 <= index < list.size {
        current := Some(list.items[index]);
        index := index + 1;
        return Ok(true);
      }
      r := MoveNextRare();
    }

    method MoveNextRare() returns (r: Result<bool>)
      requires list.Valid()
      modifies this`index, this`current
      ensures version == list.version ==> r == Ok(false) && current == None && index == |list.Elements()| + 1
      ensures version != list.version ==>
        r == Err(InvalidOperation) && current == old(current) && index == old(index)
    {
      if version != list.version {
        return Err(InvalidOperation);
      }
      index := list.size + 1;
      current := None;
      r := Ok(false);
    }

    /** Current: the element MoveNext last produced. */
    function Current(): Option<T>
      reads this
    {
      current
    }

    /** IEnumerator.Current: throws before the first MoveNext and after the end. */
    function CurrentObject(): Result<Option<T>>
      reads this, list
    {
      if index == 0 || index == list.size + 1 then Err(InvalidOperation) else Ok(current)
    }

    /** IEnumerator.Reset: back to the start, unless the list has changed. */
    method Reset() returns (r: Result<()>)
      modifies this`index, this`current
      ensures r.Err? <==> version != list.version
      ensures r.Err? ==> r.error == InvalidOperation && index == old(index) && current == old(current)
      ensures r.Ok? ==> index == 0 && current == None && CurrentObject().Err?
    {
      if version != list.version {
        return Err(InvalidOperation);
      }
      index := 0;
      current := None;
      r := Ok(());
    }
  }

  /** A foreach over an unchanged list sees every element, in order, once. */
  method Enumerate<T(0,==)>(list: ReadOnlyList<T>) returns (seen: seq<T>)
    requires list.Valid()
    ensures seen == list.Elements()
  {
    var e := new Enumerator(list);
    seen := [];
    var more := true;
    while more
      invariant e.list == list && e.version == list.version
      invariant more ==> 0 <= e.index <= |list.Elements()| && seen == list.Elements()[..e.index]
      invariant !more ==> seen == list.Elements()
      decreases |list.Elements()| + 1 - e.index, more
    {
      var r := e.MoveNext();
      if r == Ok(true) {
        seen := seen + [e.current.value];
      } else {
        more := false;
      }
    }
  }

  /** An Add between two steps of an enumeration makes the next step throw. */
  method AddDuringEnumerationThrows() returns (first: Result<bool>, second: Result<bool>)
    ensures first == Ok(true) && second == Err(InvalidOperation)
  {
    var list := new ReadOnlyList<int>();
    list.Add(1);
    var e := new Enumerator(list);
    first := e.MoveNext();
    list.Add(2);
    second := e.MoveNext();
  }

  /** ReadOnlyCollection2: a read-only view that forwards every query to the
      list it wraps and ignores every IList mutator. */
  class ReadOnlyCollection2<T(0,==)> {
    const list: ReadOnlyList<T>

    constructor(list: ReadOnlyList<T>)
      ensures this.list == list
    {
      this.list := list;
    }

    /** Count: the wrapped list's current count. */
    function Count(): (n: int)
      reads list, list.items
      requires list.Valid()
      ensures n == |list.Elements()|
    {
      list.Count()
    }

    /** The indexer: the wrapped list's element, with its range check. */
    function Get(index: int): (r: Result<T>)
      reads list, list.items
      requires list.Valid()
      ensures r.Err? <==> !(0 <= index < |list.Elements()|)
      ensures r.Ok? ==> r.value == list.Elements()[index]
    {
      list.Get(index)
    }

    function Contains(value: T): (b: bool)
      reads list, list.items
      requires list.Valid()
      ensures b <==> value in list.Elements()
    {
      list.Contains(value)
    }

    /** IndexOf: through the wrapped list's IList.IndexOf. */
    function IndexOf(value: T): (r: int)
      reads list, list.items
      requires list.Valid()
      ensures r == -1 <==> value !in list.Elements()
      ensures r != -1 ==> 0 <= r < |list.Elements()| && list.Elements()[r] == value && value !in list.Elements()[..r]
    {
      list.IndexOf(value)
    }

    /** GetEnumerator: the wrapped list's enumerator. */
    method GetEnumerator() returns (e: Enumerator<T>)
      ensures fresh(e) && e.list == list && e.index == 0 && e.version == list.version
    {
      e := new Enumerator(list);
    }

    /** IList.Add: refuses with -1 and leaves the list as it is. */
    method IListAdd(value: T) returns (r: int)
      requires list.Valid()
      ensures r == -1 && list.Elements() == old(list.Elements())
    {
      r := -1;
    }

    /** The IList indexer's set, Clear, Insert, Remove, RemoveAt and CopyTo:
        each leaves the list as it is. */
    method IListSet(index: int, value: T)
      requires list.Valid()
      ensures list.Elements() == old(list.Elements())
    {
    }

    method IListClear()
      requires list.Valid()
      ensures list.Elements() == old(list.Elements())
    {
    }

    method IListInsert(index: int, value: T)
      requires list.Valid()
      ensures list.Elements() == old(list.Elements())
    {
    }

    method IListRemove(value: T)
      requires list.Valid()
      ensures list.Elements() == old(list.Elements())
    {
    }

    method IListRemoveAt(index: int)
      requires list.Valid()
      ensures list.Elements() == old(list.Elements())
    {
    }
  }

  /** The view is live: an element added to the wrapped list afterwards is
      seen through it, while an Add through the view is refused. */
  method ViewFollowsTheList() returns (before: int, after: int, seen: bool, refused: int)
    ensures before == 0 && after == 1 && seen && refused == -1
  {
    var list := new ReadOnlyList<int>();
    var view := new ReadOnlyCollection2(list);
    before := view.Count();
    refused := view.IListAdd(5);
    list.Add(7);
    after := view.Count();
    seen := view.Contains(7);
  }
}
