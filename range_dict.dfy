/** The interval map of the backend (backend/utils.py, class `RangeDict`): three parallel lists of
    range starts, range ends and values, kept sorted by start, where a key is looked up in the last
    range starting at or before it. */
module Ranges {
  import opened Common

  /** A range `(start, end, value)` as the constructor receives it; both ends are inclusive. */
  datatype Range<V> = Range(start: int, end: int, value: V)

  /** The exceptions the class raises. */
  datatype RangeError = ValueError(message: string) | KeyError(key: int)

  const StartAfterEnd: string := "Start of range cannot be greater than end."

  predicate Sorted(a: seq<int>) {
    forall i, j :: 0 <= i < j < |a| ==> a[i] <= a[j]
  }

  /** `bisect.bisect_right(a, x)` on a sorted list: the position after every element at most `x`,
      before every element greater than `x`. */
  function UpperBound(a: seq<int>, x: int): (i: nat)
    requires Sorted(a)
    ensures i <= |a|
    ensures forall j :: 0 <= j < i ==> a[j] <= x
    ensures forall j :: i <= j < |a| ==> a[j] > x
    decreases |a|
  {
    if a == [] || a[|a| - 1] <= x then |a| else UpperBound(a[..|a| - 1], x)
  }

  /** When no element exceeds `x`, every element is at most `x`: the upper bound is the length. */
  lemma UpperBoundPastAll(a: seq<int>, x: int)
    requires Sorted(a)
    requires forall j :: 0 <= j < |a| ==> a[j] <= x
    ensures UpperBound(a, x) == |a|
  {
    if a != [] {
      assert a[|a| - 1] <= x;
    }
  }

  /** `bisect.bisect_right(a, x)`, by binary search. */
  method BisectRight(a: seq<int>, x: int) returns (i: nat)
    requires Sorted(a)
    ensures i == UpperBound(a, x)
  {
    var lo, hi := 0, |a|;
    while lo < hi
      invariant 0 <= lo <= hi <= |a|
      invariant lo <= UpperBound(a, x) <= hi
      decreases hi - lo
    {
      var mid := (lo + hi) / 2;
      if x < a[mid] {
        hi := mid;
      } else {
        lo := mid + 1;
      }
    }
    i := lo;
  }

  /** `get(key)` on the three lists: the range just before the upper bound of `key` among the starts
      answers, if `key` lies within it; otherwise `KeyError`, also when no range starts at or before `key`. */
  function Lookup<V>(starts: seq<int>, ends: seq<int>, values: seq<V>, key: int): (r: Result<V, RangeError>)
    requires |starts| == |ends| == |values| && Sorted(starts)
    ensures r.Failure? ==> r.error == KeyError(key)
    ensures (forall j :: 0 <= j < |starts| ==> starts[j] > key) ==> r.Failure?
    ensures forall i :: 0 <= i < |starts| && starts[i] <= key && (forall j :: i < j < |starts| ==> starts[j] > key) ==>
      r == if key <= ends[i] then Success(values[i]) else Failure(KeyError(key))
  {
    var i := UpperBound(starts, key) - 1;
    if i >= 0 && starts[i] <= key <= ends[i] then Success(values[i]) else Failure(KeyError(key))
  }

  /** Only the last range starting at or before a key is consulted: a key inside an earlier, wider
      range that a later range shadows is not found. */
  lemma ShadowedKeyNotFound()
    ensures Lookup([0, 5], [10, 6], ["outer", "inner"], 8) == Failure(KeyError(8))
  {
    assert UpperBound([0, 5], 8) == 2;
  }

  /** Stored ranges no two of which share a key. */
  predicate Disjoint(starts: seq<int>, ends: seq<int>)
    requires |starts| == |ends|
  {
    forall i, j :: 0 <= i < |starts| && 0 <= j < |starts| && i != j ==> ends[i] < starts[j] || ends[j] < starts[i]
  }

  /** With well-formed, pairwise disjoint ranges, every key of a range finds that range's value. */
  lemma DisjointLookup<V>(starts: seq<int>, ends: seq<int>, values: seq<V>, k: nat, key: int)
    requires |starts| == |ends| == |values| && Sorted(starts)
    requires forall i :: 0 <= i < |starts| ==> starts[i] <= ends[i]
    requires Disjoint(starts, ends)
    requires k < |starts| && starts[k] <= key <= ends[k]
    ensures Lookup(starts, ends, values, key) == Success(values[k])
  {
    var i := UpperBound(starts, key) - 1;
    assert 0 <= k <= i;
    assert starts[i] <= key && starts[i] <= ends[i];
  }

  function StartsOf<V>(rs: seq<Range<V>>): (r: seq<int>)
    ensures |r| == |rs| && forall i :: 0 <= i < |rs| ==> r[i] == rs[i].start
  {
    seq(|rs|, i requires 0 <= i < |rs| => rs[i].start)
  }

  /** The list position `add_range` gives a new range: after every stored range with a start at most
      its own. */
  function InsertRange<V>(rs: seq<Range<V>>, r: Range<V>): seq<Range<V>>
    requires Sorted(StartsOf(rs))
  {
    var i := UpperBound(StartsOf(rs), r.start);
    rs[..i] + [r] + rs[i..]
  }

  /** Where each range of an insertion comes from: the stored ranges before the insertion point,
      the new range, then the rest of the stored ranges, which all start after the new one. */
  lemma InsertRangeShape<V>(rs: seq<Range<V>>, r: Range<V>)
    requires Sorted(StartsOf(rs))
    ensures var t := InsertRange(rs, r); var i := UpperBound(StartsOf(rs), r.start);
      && |t| == |rs| + 1 && t[i] == r
      && (forall j :: 0 <= j < i ==> t[j] == rs[j] && rs[j].start <= r.start)
      && (forall j :: i < j < |t| ==> t[j] == rs[j - 1] && rs[j - 1].start > r.start)
  {
  }

  /** Inserting keeps the ranges sorted by start. */
  lemma InsertRangeSorted<V>(rs: seq<Range<V>>, r: Range<V>)
    requires Sorted(StartsOf(rs))
    ensures Sorted(StartsOf(InsertRange(rs, r)))
  {
    var t := InsertRange(rs, r);
    var i := UpperBound(StartsOf(rs), r.start);
    InsertRangeShape(rs, r);
    forall a, b | 0 <= a < b < |t| ensures t[a].start <= t[b].start {
      if b < i {
        assert StartsOf(rs)[a] <= StartsOf(rs)[b];
      } else if a > i {
        assert StartsOf(rs)[a - 1] <= StartsOf(rs)[b - 1];
      }
    }
  }

  /** Inserting keeps every stored range and adds exactly the new one. */
  lemma InsertRangeMultiset<V>(rs: seq<Range<V>>, r: Range<V>)
    requires Sorted(StartsOf(rs))
    ensures multiset(InsertRange(rs, r)) == multiset(rs) + multiset{r}
  {
    var i := UpperBound(StartsOf(rs), r.start);
    assert rs == rs[..i] + rs[i..];
  }

  /** `sorted(ranges, key=lambda x: x[0])`: Python's stable sort by start, as an insertion sort that
      puts each range after the ranges with an equal start met before it. */
  function SortByStart<V>(ranges: seq<Range<V>>): (r: seq<Range<V>>)
    ensures Sorted(StartsOf(r))
    decreases |ranges|
  {
    if ranges == [] then []
    else
      var n := |ranges| - 1;
      var s := SortByStart(ranges[..n]);
      InsertRangeSorted(s, ranges[n]);
      InsertRange(s, ranges[n])
  }

  /** The sort is a permutation: every range it is given comes out, as often as it went in. */
  lemma {:induction false} SortByStartPermutes<V>(ranges: seq<Range<V>>)
    ensures multiset(SortByStart(ranges)) == multiset(ranges)
    decreases |ranges|
  {
    if ranges != [] {
      var n := |ranges| - 1;
      SortByStartPermutes(ranges[..n]);
      InsertRangeMultiset(SortByStart(ranges[..n]), ranges[n]);
      assert ranges == ranges[..n] + [ranges[n]];
    }
  }

  /** The ranges a sort returns are the ranges it was given. */
  lemma SortKeepsRanges<V>(ranges: seq<Range<V>>, x: Range<V>)
    ensures x in SortByStart(ranges) <==> x in ranges
  {
    SortByStartPermutes(ranges);
    assert x in multiset(SortByStart(ranges)) <==> x in multiset(ranges);
  }

  /** The ranges of `rs` that start at `k`, in their order. */
  function WithStart<V>(rs: seq<Range<V>>, k: int): seq<Range<V>>
    decreases |rs|
  {
    if rs == [] then []
    else if rs[0].start == k then [rs[0]] + WithStart(rs[1..], k)
    else WithStart(rs[1..], k)
  }

  lemma {:induction false} WithStartAppend<V>(a: seq<Range<V>>, b: seq<Range<V>>, k: int)
    ensures WithStart(a + b, k) == WithStart(a, k) + WithStart(b, k)
    decreases |a|
  {
    if a == [] {
      assert a + b == b;
    } else {
      assert (a + b)[0] == a[0] && (a + b)[1..] == a[1..] + b;
      WithStartAppend(a[1..], b, k);
      if a[0].start == k {
        assert [a[0]] + (WithStart(a[1..], k) + WithStart(b, k)) == [a[0]] + WithStart(a[1..], k) + WithStart(b, k);
      }
    }
  }

  lemma WithStartSingle<V>(r: Range<V>, k: int)
    ensures WithStart([r], k) == if r.start == k then [r] else []
  {
    assert [r][1..] == [];
  }

  lemma {:induction false} WithStartAbove<V>(t: seq<Range<V>>, k: int)
    requires forall j :: 0 <= j < |t| ==> t[j].start > k
    ensures WithStart(t, k) == []
    decreases |t|
  {
    if t != [] {
      WithStartAbove(t[1..], k);
    }
  }

  lemma WithStartThree<V>(front: seq<Range<V>>, r: Range<V>, back: seq<Range<V>>, k: int)
    ensures WithStart(front + [r] + back, k) == WithStart(front, k) + WithStart([r], k) + WithStart(back, k)
  {
    WithStartAppend(front + [r], back, k);
    WithStartAppend(front, [r], k);
  }

  lemma WithStartSplit<V>(s: seq<Range<V>>, i: nat, k: int)
    requires i <= |s|
    ensures WithStart(s, k) == WithStart(s[..i], k) + WithStart(s[i..], k)
  {
    WithStartAppend(s[..i], s[i..], k);
    assert s[..i] + s[i..] == s;
  }

  /** No stored range after the insertion point of `r` starts where `r` does. */
  lemma WithStartAfterUpperBound<V>(s: seq<Range<V>>, r: Range<V>)
    requires Sorted(StartsOf(s))
    ensures WithStart(s[UpperBound(StartsOf(s), r.start)..], r.start) == []
  {
    var i := UpperBound(StartsOf(s), r.start);
    var back := s[i..];
    forall j | 0 <= j < |back| ensures back[j].start > r.start {
      assert back[j] == s[i + j] && StartsOf(s)[i + j] > r.start;
    }
    WithStartAbove(back, r.start);
  }

  /** Inserting a range puts it after every stored range with its start, and before none of them. */
  lemma InsertRangeWithStart<V>(s: seq<Range<V>>, r: Range<V>, k: int)
    requires Sorted(StartsOf(s))
    ensures WithStart(InsertRange(s, r), k) == WithStart(s, k) + WithStart([r], k)
  {
    var i := UpperBound(StartsOf(s), r.start);
    WithStartThree(s[..i], r, s[i..], k);
    WithStartSplit(s, i, k);
    WithStartSingle(r, k);
    if r.start == k {
      WithStartAfterUpperBound(s, r);
    }
  }

  /** The sort is stable: for every start, the ranges with that start come out in the order they
      went in. A lookup resolves equal starts to the range given last because of this. */
  lemma {:induction false} SortByStartStable<V>(ranges: seq<Range<V>>, k: int)
    ensures WithStart(SortByStart(ranges), k) == WithStart(ranges, k)
    decreases |ranges|
  {
    if ranges != [] {
      var n := |ranges| - 1;
      SortByStartStable(ranges[..n], k);
      InsertRangeWithStart(SortByStart(ranges[..n]), ranges[n], k);
      assert ranges[..n] + [ranges[n]] == ranges;
      WithStartAppend(ranges[..n], [ranges[n]], k);
    }
  }

  /** Ranges given already sorted by start come out as they were given. */
  lemma {:induction false} SortByStartOfSorted<V>(ranges: seq<Range<V>>)
    requires Sorted(StartsOf(ranges))
    ensures SortByStart(ranges) == ranges
    decreases |ranges|
  {
    if ranges != [] {
      var n := |ranges| - 1;
      InsertNextOfSorted(ranges, n);
      SortByStartOfSorted(ranges[..n]);
      assert ranges[..n + 1] == ranges;
    }
  }

  /** In a list sorted by start, inserting the next element puts it at the end: adding the sorted
      ranges one by one rebuilds the sorted list. */
  lemma InsertNextOfSorted<V>(sorted: seq<Range<V>>, i: nat)
    requires Sorted(StartsOf(sorted)) && i < |sorted|
    ensures Sorted(StartsOf(sorted[..i]))
    ensures InsertRange(sorted[..i], sorted[i]) == sorted[..i + 1]
  {
    var p := sorted[..i];
    forall a, b | 0 <= a < b < |p| ensures StartsOf(p)[a] <= StartsOf(p)[b] {
      assert StartsOf(sorted)[a] <= StartsOf(sorted)[b];
    }
    forall j | 0 <= j < |p| ensures StartsOf(p)[j] <= sorted[i].start {
      assert StartsOf(sorted)[j] <= StartsOf(sorted)[i];
    }
    UpperBoundPastAll(StartsOf(p), sorted[i].start);
    assert sorted[..i + 1] == p + [sorted[i]];
  }

  /** The ranges held by three parallel lists, position by position. */
  function Zip<V>(starts: seq<int>, ends: seq<int>, values: seq<V>): (r: seq<Range<V>>)
    requires |starts| == |ends| == |values|
    ensures |r| == |starts| && StartsOf(r) == starts
    ensures forall i :: 0 <= i < |r| ==> r[i] == Range(starts[i], ends[i], values[i])
  {
    var r := seq(|starts|, i requires 0 <= i < |starts| => Range(starts[i], ends[i], values[i]));
    assert StartsOf(r) == starts;
    r
  }

  /** Inserting at one position in all three lists inserts the triple at that position of the ranges. */
  lemma ZipInsert<V>(starts: seq<int>, ends: seq<int>, values: seq<V>, i: nat, r: Range<V>)
    requires |starts| == |ends| == |values| && i <= |starts|
    ensures Zip(starts[..i] + [r.start] + starts[i..], ends[..i] + [r.end] + ends[i..], values[..i] + [r.value] + values[i..])
      == Zip(starts, ends, values)[..i] + [r] + Zip(starts, ends, values)[i..]
  {
  }

  /** The invariant of the three lists: one entry per range, sorted starts, and `start <= end` in
      every range. */
  predicate ListsValid<V>(starts: seq<int>, ends: seq<int>, values: seq<V>) {
    && |starts| == |ends| == |values|
    && Sorted(starts)
    && forall i :: 0 <= i < |starts| ==> starts[i] <= ends[i]
  }

  /** Inserting a well-formed range at its upper bound in all three lists keeps the invariant and is
      `InsertRange` on the ranges the lists hold. */
  lemma InsertKeepsValid<V>(starts: seq<int>, ends: seq<int>, values: seq<V>, r: Range<V>)
    requires ListsValid(starts, ends, values) && r.start <= r.end
    ensures var i := UpperBound(starts, r.start);
      var s', e', v' := starts[..i] + [r.start] + starts[i..], ends[..i] + [r.end] + ends[i..], values[..i] + [r.value] + values[i..];
      && ListsValid(s', e', v')
      && Zip(s', e', v') == InsertRange(Zip(starts, ends, values), r)
  {
    var i := UpperBound(starts, r.start);
    var s', e', v' := starts[..i] + [r.start] + starts[i..], ends[..i] + [r.end] + ends[i..], values[..i] + [r.value] + values[i..];
    ZipInsert(starts, ends, values, i, r);
    InsertRangeSorted(Zip(starts, ends, values), r);
    assert StartsOf(Zip(s', e', v')) == s';
    forall k | 0 <= k < |s'| ensures s'[k] <= e'[k] {
      if k > i {
        assert s'[k] == starts[k - 1] && e'[k] == ends[k - 1];
      } else if k < i {
        assert s'[k] == starts[k] && e'[k] == ends[k];
      }
    }
  }

  class RangeDict<V(==)> {
    var starts: seq<int>
    var ends: seq<int>
    var values: seq<V>

    /** The three lists have one entry per range, starts are sorted and each range is well formed. */
    predicate Valid()
      reads this
    {
      ListsValid(starts, ends, values)
    }

    /** The stored ranges, position by position. */
    function Triples(): (r: seq<Range<V>>)
      reads this
      requires |starts| == |ends| == |values|
      ensures |r| == |starts| && StartsOf(r) == starts
    {
      Zip(starts, ends, values)
    }

    /** `RangeDict()`: no ranges. */
    constructor ()
      ensures Valid() && starts == [] && ends == [] && values == []
    {
      starts, ends, values := [], [], [];
    }

    /** `RangeDict(ranges)`: the ranges added one by one in start order; a malformed range raises
        `ValueError` and no dictionary is returned. */
    static method FromRanges(ranges: seq<Range<V>>) returns (r: Result<RangeDict<V>, RangeError>)
      ensures r.Failure? <==> exists k :: 0 <= k < |ranges| && ranges[k].start > ranges[k].end
      ensures r.Failure? ==> r.error == ValueError(StartAfterEnd)
      ensures r.Success? ==> fresh(r.value) && r.value.Valid() && r.value.Triples() == SortByStart(ranges)
    {
      var d := new RangeDict();
      var sorted := SortByStart(ranges);
      var i := 0;
      while i < |sorted|
        invariant 0 <= i <= |sorted|
        invariant fresh(d) && d.Valid() && d.Triples() == sorted[..i]
        invariant forall k :: 0 <= k < i ==> sorted[k].start <= sorted[k].end
        modifies d
      {
        var err := d.AddRange(sorted[i].start, sorted[i].end, sorted[i].value);
        if err.Some? {
          SortKeepsRanges(ranges, sorted[i]);
          return Failure(err.value);
        }
        InsertNextOfSorted(sorted, i);
        i := i + 1;
      }
      assert sorted[..i] == sorted;
      forall k | 0 <= k < |ranges| ensures ranges[k].start <= ranges[k].end {
        SortKeepsRanges(ranges, ranges[k]);
      }
      r := Success(d);
    }

    /** `add_range(start, end, value)`: a range with `start > end` raises `ValueError` and changes
        nothing; otherwise the triple goes to the same position, after every start at most `start`,
        in all three lists. */
    method AddRange(start: int, end: int, value: V) returns (err: Option<RangeError>)
      requires Valid()
      modifies this
      ensures Valid()
      ensures start > end ==>
        err == Some(ValueError(StartAfterEnd)) && starts == old(starts) && ends == old(ends) && values == old(values)
      ensures start <= end ==>
        && err == None
        && var i := UpperBound(old(starts), start);
           && starts == old(starts)[..i] + [start] + old(starts)[i..]
           && ends == old(ends)[..i] + [end] + old(ends)[i..]
           && values == old(values)[..i] + [value] + old(values)[i..]
      ensures start <= end ==> Triples() == InsertRange(old(Triples()), Range(start, end, value))
    {
      if start > end {
        return Some(ValueError(StartAfterEnd));
      }
      var i := BisectRight(starts, start);
      InsertKeepsValid(starts, ends, values, Range(start, end, value));
      starts := starts[..i] + [start] + starts[i..];
      ends := ends[..i] + [end] + ends[i..];
      values := values[..i] + [value] + values[i..];
      err := None;
    }

    /** `get(key)`. */
    method Get(key: int) returns (r: Result<V, RangeError>)
      requires Valid()
      ensures r == Lookup(starts, ends, values, key)
    {
      var u := BisectRight(starts, key);
      var i := u as int - 1;
      if i >= 0 && starts[i] <= key <= ends[i] {
        return Success(values[i]);
      }
      return Failure(KeyError(key));
    }

    /** `__getitem__(key)`: the same lookup as `get`. */
    method GetItem(key: int) returns (r: Result<V, RangeError>)
      requires Valid()
      ensures r == Lookup(starts, ends, values, key)
    {
      r := Get(key);
    }
  }
}
