/** Wrappers and the list operations the handlers are written with
    (`Array.prototype.filter`, `includes`, JavaScript truthiness). */
module Common {

  datatype Option<T> = None | Some(value: T)

  datatype Result<T, E> = Success(value: T) | Failure(error: E)

  /** JavaScript truthiness of a `number | null` (or an optional number):
      `null`, `undefined` and `0` are falsy, every other number is truthy. */
  predicate Truthy(x: Option<int>) {
    x.Some? && x.value != 0
  }

  /** The expression `x || undefined` on a `number | null`. */
  function OrUndefined(x: Option<int>): (r: Option<int>)
    ensures Truthy(x) ==> r == x
    ensures !Truthy(x) ==> r == None
  {
    if Truthy(x) then x else None
  }

  /** `s.filter(p)`: the elements of `s` that satisfy `p`, in their order. */
  function Filter<T>(s: seq<T>, p: T -> bool): (r: seq<T>)
    ensures |r| <= |s|
    ensures forall i :: 0 <= i < |r| ==> r[i] in s && p(r[i])
    ensures forall i :: 0 <= i < |s| && p(s[i]) ==> s[i] in r
  {
    if s == [] then []
    else if p(s[0]) then [s[0]] + Filter(s[1..], p)
    else Filter(s[1..], p)
  }

  lemma {:induction false} FilterAppend<T>(a: seq<T>, b: seq<T>, p: T -> bool)
    ensures Filter(a + b, p) == Filter(a, p) + Filter(b, p)
  {
    if a == [] {
      assert a + b == b;
    } else {
      assert (a + b)[1..] == a[1..] + b;
      FilterAppend(a[1..], b, p);
    }
  }

  /** Filtering with a predicate that every element already satisfies changes nothing. */
  lemma {:induction false} FilterAll<T>(s: seq<T>, p: T -> bool)
    requires forall i :: 0 <= i < |s| ==> p(s[i])
    ensures Filter(s, p) == s
  {
    if s != [] {
      FilterAll(s[1..], p);
    }
  }

  /** An element related to every element of `t` is related to every element of a filtering of `t`. */
  lemma RelatedToFilter<T>(x: T, t: seq<T>, p: T -> bool, rel: (T, T) -> bool)
    requires forall k :: 0 <= k < |t| ==> rel(x, t[k])
    ensures forall j :: 0 <= j < |Filter(t, p)| ==> rel(x, Filter(t, p)[j])
  {
    var f := Filter(t, p);
    forall j | 0 <= j < |f| ensures rel(x, f[j]) {
      var k :| 0 <= k < |t| && t[k] == f[j];
    }
  }

  /** Filtering keeps every relation that held between each earlier and each later element. */
  lemma {:induction false} FilterKeepsPairwise<T>(s: seq<T>, p: T -> bool, rel: (T, T) -> bool)
    requires forall i, j :: 0 <= i < j < |s| ==> rel(s[i], s[j])
    ensures forall i, j :: 0 <= i < j < |Filter(s, p)| ==> rel(Filter(s, p)[i], Filter(s, p)[j])
  {
    if s != [] {
      var t := s[1..];
      forall i, j | 0 <= i < j < |t| ensures rel(t[i], t[j]) {
        assert t[i] == s[i + 1] && t[j] == s[j + 1];
      }
      FilterKeepsPairwise(t, p, rel);
      if p(s[0]) {
        forall k | 0 <= k < |t| ensures rel(s[0], t[k]) {
          assert t[k] == s[k + 1];
        }
        RelatedToFilter(s[0], t, p, rel);
        var f, r := Filter(t, p), Filter(s, p);
        assert r == [s[0]] + f;
        forall i, j | 0 <= i < j < |r| ensures rel(r[i], r[j]) {
          assert r[j] == f[j - 1];
          if i > 0 {
            assert r[i] == f[i - 1];
          }
        }
      }
    }
  }

  /** No element occurs twice. */
  predicate NoDuplicates<T(==)>(s: seq<T>) {
    forall i, j :: 0 <= i < j < |s| ==> s[i] != s[j]
  }

  lemma {:induction false} FilterNoDuplicates<T>(s: seq<T>, p: T -> bool)
    requires NoDuplicates(s)
    ensures NoDuplicates(Filter(s, p))
  {
    if s != [] {
      assert NoDuplicates(s[1..]) by {
        forall i, j | 0 <= i < j < |s[1..]| ensures s[1..][i] != s[1..][j] {
          assert s[1..][i] == s[i + 1] && s[1..][j] == s[j + 1];
        }
      }
      FilterNoDuplicates(s[1..], p);
      if p(s[0]) {
        assert s[0] !in s[1..] by {
          forall k | 0 <= k < |s[1..]| ensures s[1..][k] != s[0] {
            assert s[1..][k] == s[k + 1];
          }
        }
        assert s[0] !in Filter(s[1..], p);
      }
    }
  }

  /** The `toggle...Selection` updater: `prev.includes(x) ? prev.filter(y => y !== x) : [...prev, x]`. */
  function Toggle<T(==)>(s: seq<T>, x: T): seq<T> {
    if x in s then Filter(s, y => y != x) else s + [x]
  }

  /** Toggling flips the membership of `x` and of nothing else. */
  lemma ToggleFlips<T>(s: seq<T>, x: T, y: T)
    ensures y in Toggle(s, x) <==> (if y == x then x !in s else y in s)
  {
  }

  /** Toggling twice restores membership; on a duplicate-free selection that did not
      hold `x` it restores the very same list. */
  lemma {:induction false} ToggleTwice<T>(s: seq<T>, x: T)
    ensures forall y :: y in s ==> y in Toggle(Toggle(s, x), x)
    ensures forall i :: 0 <= i < |Toggle(Toggle(s, x), x)| ==> Toggle(Toggle(s, x), x)[i] in s
    ensures x !in s ==> Toggle(Toggle(s, x), x) == s
  {
    if x !in s {
      assert x in s + [x];
      FilterAppend(s, [x], y => y != x);
      FilterAll(s, y => y != x);
      assert Filter([x], y => y != x) == [];
    }
  }

  /** Toggling keeps a selection free of duplicates. */
  lemma ToggleNoDuplicates<T>(s: seq<T>, x: T)
    requires NoDuplicates(s)
    ensures NoDuplicates(Toggle(s, x))
  {
    if x in s {
      FilterNoDuplicates(s, y => y != x);
    }
  }
}
