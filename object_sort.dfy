/**
 * Sorting a listing in place (common/object_sort.go): the comparator that the
 * source builds from the sort key and direction, and an in-place sort of an
 * array under it.
 */
module ObjectSort {
  import opened ObjectInfos

  /** `SortBy` values (a Go int enumeration). */
  const SortByName: int := 0
  const SortBySize: int := 1
  const SortByLastModified: int := 2

  /** `SortOrder` values (a Go int enumeration). */
  const Ascending: int := 0
  const Descending: int := 1

  /** Go's `<` on strings: lexicographic by character (code point order is UTF-8 byte order). */
  predicate StrLess(a: string, b: string) {
    if a == [] then b != []
    else if b == [] then false
    else if a[0] != b[0] then a[0] < b[0]
    else StrLess(a[1..], b[1..])
  }

  /**
   * The `less(i, j)` closure of SortObjects for entries `x` (at i) and `y` (at j).
   * It is irreflexive; LessAsymmetric and NotLessTransitive make it a strict weak order.
   */
  function Less(x: ObjectInfo, y: ObjectInfo, sortBy: int, sortOrder: int): (r: bool)
    ensures r ==> x != y
  {
    StrLessIrreflexive(x.name);
    var desc := sortOrder == Descending;
    if sortBy == SortByName then
      (if desc then StrLess(y.name, x.name) else StrLess(x.name, y.name))
    else if sortBy == SortBySize then
      (if desc then x.size > y.size else x.size < y.size)
    else if sortBy == SortByLastModified then
      (if desc then x.lastModified > y.lastModified else x.lastModified < y.lastModified)
    else
      StrLess(x.name, y.name)
  }

  /** No entry is strictly less than an entry before it. */
  ghost predicate Sorted(s: seq<ObjectInfo>, sortBy: int, sortOrder: int) {
    forall i, j :: 0 <= i < j < |s| ==> !Less(s[j], s[i], sortBy, sortOrder)
  }

  lemma {:induction false} StrLessIrreflexive(a: string)
    ensures !StrLess(a, a)
    decreases |a|
  {
    if a != [] {
      StrLessIrreflexive(a[1..]);
    }
  }

  lemma {:induction false} StrLessTransitive(a: string, b: string, c: string)
    requires StrLess(a, b) && StrLess(b, c)
    ensures StrLess(a, c)
    decreases |a|
  {
    if a != [] && b != [] && c != [] && a[0] == b[0] == c[0] {
      StrLessTransitive(a[1..], b[1..], c[1..]);
    }
  }

  lemma {:induction false} StrLessTotal(a: string, b: string)
    ensures a == b || StrLess(a, b) || StrLess(b, a)
    decreases |a|
  {
    if a != [] && b != [] && a[0] == b[0] {
      StrLessTotal(a[1..], b[1..]);
      if a[1..] == b[1..] {
        assert a == [a[0]] + a[1..] && b == [b[0]] + b[1..];
      }
    }
  }

  /** `!(b < a)` on strings is `a <= b`. */
  lemma StrNotLessIsLe(a: string, b: string)
    ensures !StrLess(b, a) <==> (a == b || StrLess(a, b))
  {
    StrLessTotal(a, b);
    StrLessIrreflexive(a);
    if StrLess(a, b) && StrLess(b, a) {
      StrLessTransitive(a, b, a);
    }
  }

  lemma LessAsymmetric(x: ObjectInfo, y: ObjectInfo, sortBy: int, sortOrder: int)
    requires Less(x, y, sortBy, sortOrder)
    ensures !Less(y, x, sortBy, sortOrder)
  {
    if StrLess(x.name, y.name) && StrLess(y.name, x.name) {
      StrLessTransitive(x.name, y.name, x.name);
      StrLessIrreflexive(x.name);
    }
  }

  /** "Not less" is transitive: the comparator is a strict weak order, as sort.Slice demands. */
  lemma NotLessTransitive(x: ObjectInfo, y: ObjectInfo, z: ObjectInfo, sortBy: int, sortOrder: int)
    requires !Less(y, x, sortBy, sortOrder) && !Less(z, y, sortBy, sortOrder)
    ensures !Less(z, x, sortBy, sortOrder)
  {
    StrNotLessIsLe(x.name, y.name);
    StrNotLessIsLe(y.name, z.name);
    StrNotLessIsLe(x.name, z.name);
    StrNotLessIsLe(y.name, x.name);
    StrNotLessIsLe(z.name, y.name);
    StrNotLessIsLe(z.name, x.name);
    if StrLess(x.name, y.name) && StrLess(y.name, z.name) {
      StrLessTransitive(x.name, y.name, z.name);
    }
    if StrLess(z.name, y.name) && StrLess(y.name, x.name) {
      StrLessTransitive(z.name, y.name, x.name);
    }
  }

  /** Exchanges the entries at `i` and `j`; nothing else moves. */
  method Swap(a: array<ObjectInfo>, i: int, j: int)
    requires 0 <= i < j < a.Length
    modifies a
    ensures a[i] == old(a[j]) && a[j] == old(a[i])
    ensures forall m :: 0 <= m < a.Length && m != i && m != j ==> a[m] == old(a[m])
    ensures multiset(a[..]) == old(multiset(a[..]))
  {
    a[i], a[j] := a[j], a[i];
  }

  /**
   * Sorts `a` in place under the comparator for `sortBy` and `sortOrder`:
   * the result is a permutation of the input in which no entry is less than
   * one before it. Ties may come out in any order (sort.Slice is not stable).
   */
  method SortObjects(a: array<ObjectInfo>, sortBy: int, sortOrder: int)
    modifies a
    ensures multiset(a[..]) == old(multiset(a[..]))
    ensures Sorted(a[..], sortBy, sortOrder)
  {
    var i := 0;
    while i < a.Length
      invariant 0 <= i <= a.Length
      invariant forall k, m :: 0 <= k < m < i ==> !Less(a[m], a[k], sortBy, sortOrder)
      invariant multiset(a[..]) == old(multiset(a[..]))
    {
      Insert(a, i, sortBy, sortOrder);
      i := i + 1;
    }
  }

  /** Moves `a[i]` left into the sorted run `a[..i]`, making `a[..i + 1]` sorted. */
  method Insert(a: array<ObjectInfo>, i: int, sortBy: int, sortOrder: int)
    requires 0 <= i < a.Length
    requires forall k, m :: 0 <= k < m < i ==> !Less(a[m], a[k], sortBy, sortOrder)
    modifies a
    ensures forall k, m :: 0 <= k < m <= i ==> !Less(a[m], a[k], sortBy, sortOrder)
    ensures multiset(a[..]) == old(multiset(a[..]))
  {
    var j := i;
    while j > 0 && Less(a[j], a[j - 1], sortBy, sortOrder)
      invariant 0 <= j <= i
      invariant multiset(a[..]) == old(multiset(a[..]))
      invariant forall k, m :: 0 <= k < m <= i && k != j && m != j ==> !Less(a[m], a[k], sortBy, sortOrder)
      invariant forall m :: j < m <= i ==> !Less(a[m], a[j], sortBy, sortOrder)
    {
      LessAsymmetric(a[j], a[j - 1], sortBy, sortOrder);
      Swap(a, j - 1, j);
      j := j - 1;
    }
    forall k | 0 <= k < j
      ensures !Less(a[j], a[k], sortBy, sortOrder)
    {
      if k < j - 1 {
        NotLessTransitive(a[k], a[j - 1], a[j], sortBy, sortOrder);
      }
    }
  }

  /** Ascending by name: names are non-decreasing in Go's string order. */
  lemma SortedByNameAscending(s: seq<ObjectInfo>, sortOrder: int)
    requires sortOrder != Descending && Sorted(s, SortByName, sortOrder)
    ensures forall i, j :: 0 <= i < j < |s| ==> s[i].name == s[j].name || StrLess(s[i].name, s[j].name)
  {
    forall i, j | 0 <= i < j < |s| ensures s[i].name == s[j].name || StrLess(s[i].name, s[j].name) {
      assert !Less(s[j], s[i], SortByName, sortOrder);
      StrNotLessIsLe(s[i].name, s[j].name);
    }
  }

  /** Descending by name: names are non-increasing. */
  lemma SortedByNameDescending(s: seq<ObjectInfo>)
    requires Sorted(s, SortByName, Descending)
    ensures forall i, j :: 0 <= i < j < |s| ==> s[i].name == s[j].name || StrLess(s[j].name, s[i].name)
  {
    forall i, j | 0 <= i < j < |s| ensures s[i].name == s[j].name || StrLess(s[j].name, s[i].name) {
      assert !Less(s[j], s[i], SortByName, Descending);
      StrNotLessIsLe(s[j].name, s[i].name);
    }
  }

  /** By size: sizes are non-decreasing, or non-increasing when descending. */
  lemma SortedBySize(s: seq<ObjectInfo>, sortOrder: int)
    requires Sorted(s, SortBySize, sortOrder)
    ensures sortOrder != Descending ==> forall i, j :: 0 <= i < j < |s| ==> s[i].size <= s[j].size
    ensures sortOrder == Descending ==> forall i, j :: 0 <= i < j < |s| ==> s[i].size >= s[j].size
  {
    assert forall i, j :: 0 <= i < j < |s| ==> !Less(s[j], s[i], SortBySize, sortOrder);
  }

  /** By last-modified time: chronological, or reverse-chronological when descending. */
  lemma SortedByLastModified(s: seq<ObjectInfo>, sortOrder: int)
    requires Sorted(s, SortByLastModified, sortOrder)
    ensures sortOrder != Descending ==> forall i, j :: 0 <= i < j < |s| ==> s[i].lastModified <= s[j].lastModified
    ensures sortOrder == Descending ==> forall i, j :: 0 <= i < j < |s| ==> s[i].lastModified >= s[j].lastModified
  {
    assert forall i, j :: 0 <= i < j < |s| ==> !Less(s[j], s[i], SortByLastModified, sortOrder);
  }

  /** An unknown key sorts ascending by name, whatever the order asks for. */
  lemma UnknownKeySortsAscendingByName(s: seq<ObjectInfo>, sortBy: int, sortOrder: int)
    requires sortBy != SortByName && sortBy != SortBySize && sortBy != SortByLastModified
    requires Sorted(s, sortBy, sortOrder)
    ensures forall i, j :: 0 <= i < j < |s| ==> s[i].name == s[j].name || StrLess(s[i].name, s[j].name)
  {
    forall i, j | 0 <= i < j < |s| ensures s[i].name == s[j].name || StrLess(s[i].name, s[j].name) {
      assert !Less(s[j], s[i], sortBy, sortOrder);
      StrNotLessIsLe(s[i].name, s[j].name);
    }
  }

  /** For the three known keys, Descending compares the two entries the other way round. */
  lemma DescendingReverses(x: ObjectInfo, y: ObjectInfo, sortBy: int)
    requires sortBy == SortByName || sortBy == SortBySize || sortBy == SortByLastModified
    ensures Less(x, y, sortBy, Descending) == Less(y, x, sortBy, Ascending)
  {
  }

  /** Every order other than Descending (1) compares as Ascending. */
  lemma NonDescendingIsAscending(x: ObjectInfo, y: ObjectInfo, sortBy: int, sortOrder: int)
    requires sortOrder != Descending
    ensures Less(x, y, sortBy, sortOrder) == Less(x, y, sortBy, Ascending)
  {
  }

  /** SortObjects applied to a slice held as a sequence: a sorted permutation of it. */
  method SortSlice(objects: seq<ObjectInfo>, sortBy: int, sortOrder: int) returns (sorted: seq<ObjectInfo>)
    ensures multiset(sorted) == multiset(objects)
    ensures Sorted(sorted, sortBy, sortOrder)
  {
    var a := new ObjectInfo[|objects|](k requires 0 <= k < |objects| => objects[k]);
    assert a[..] == objects;
    SortObjects(a, sortBy, sortOrder);
    sorted := a[..];
  }
}
