/**
 * `Array.prototype.sort` with a comparator, as a stable insertion sort. The comparator is
 * abstracted as `le(a, b)`, "a may stay before b" (the comparator returns a value <= 0);
 * JavaScript's sort is stable since ES2019, so elements that compare equal keep their order.
 */
module Sorting {

  /** A comparator that is consistent (total and transitive) on the elements of `s`. */
  ghost predicate TotalPreorderOn<T>(s: seq<T>, le: (T, T) -> bool)
  {
    && (forall a, b :: a in s && b in s ==> le(a, b) || le(b, a))
    && (forall a, b, c :: a in s && b in s && c in s && le(a, b) && le(b, c) ==> le(a, c))
  }

  predicate Sorted<T>(s: seq<T>, le: (T, T) -> bool)
  {
    forall i, j :: 0 <= i < j < |s| ==> le(s[i], s[j])
  }

  /** Places `x` after the leading elements that may stay before it. */
  function Insert<T>(x: T, s: seq<T>, le: (T, T) -> bool): (r: seq<T>)
    ensures |r| == |s| + 1
    ensures multiset(r) == multiset(s) + multiset{x}
  {
    if s == [] then [x]
    else
      assert s == [s[0]] + s[1..];
      if le(s[0], x) then [s[0]] + Insert(x, s[1..], le) else [x] + s
  }

  /** `[...s].sort(cmp)`: a sorted copy; `s` itself is a value and is left as it was. */
  function SortBy<T>(s: seq<T>, le: (T, T) -> bool): (r: seq<T>)
    ensures |r| == |s|
    ensures multiset(r) == multiset(s)
  {
    if s == [] then []
    else
      var n := |s| - 1;
      assert s == s[..n] + [s[n]];
      Insert(s[n], SortBy(s[..n], le), le)
  }

  /**
   * Inserting into an ordered sequence keeps it ordered, provided `x` is comparable with every
   * element and the comparator is transitive through `x`.
   */
  lemma {:induction false} InsertSorted<T>(x: T, s: seq<T>, le: (T, T) -> bool)
    requires Sorted(s, le)
    requires forall y :: y in s ==> le(x, y) || le(y, x)
    requires forall y, z :: y in s && z in s && le(x, y) && le(y, z) ==> le(x, z)
    ensures Sorted(Insert(x, s, le), le)
  {
    if s != [] {
      var r := Insert(x, s, le);
      if le(s[0], x) {
        var tail := Insert(x, s[1..], le);
        InsertSorted(x, s[1..], le);
        assert r == [s[0]] + tail;
        forall k | 0 <= k < |tail|
          ensures le(s[0], tail[k])
        {
          assert tail[k] in multiset(tail);
          assert tail[k] in multiset(s[1..]) || tail[k] == x;
          if tail[k] != x {
            var j :| 0 <= j < |s[1..]| && s[1..][j] == tail[k];
            assert s[j + 1] == tail[k];
          }
        }
        forall i, j | 0 <= i < j < |r|
          ensures le(r[i], r[j])
        {
          if i > 0 {
            assert r[i] == tail[i - 1] && r[j] == tail[j - 1];
          } else {
            assert r[j] == tail[j - 1];
          }
        }
      } else {
        assert r == [x] + s;
        assert le(x, s[0]) by {
          assert s[0] in s;
        }
        forall i, j | 0 <= i < j < |r|
          ensures le(r[i], r[j])
        {
          if i > 0 {
            assert r[i] == s[i - 1] && r[j] == s[j - 1];
          } else {
            assert r[j] == s[j - 1];
            if j > 1 {
              assert le(s[0], s[j - 1]);
              assert s[0] in s && s[j - 1] in s;
            }
          }
        }
      }
    }
  }

  /** Under a consistent comparator the result is ordered. */
  lemma {:induction false} SortBySorted<T>(s: seq<T>, le: (T, T) -> bool)
    requires TotalPreorderOn(s, le)
    ensures Sorted(SortBy(s, le), le)
  {
    if s != [] {
      var n := |s| - 1;
      assert forall y :: y in s[..n] ==> y in s;
      SortBySorted(s[..n], le);
      var sorted := SortBy(s[..n], le);
      forall y | y in sorted
        ensures y in s
      {
        SortByMembers(s[..n], le, y);
      }
      assert s[n] in s;
      InsertSorted(s[n], sorted, le);
    }
  }

  /** The elements of `s` that compare equal to `p` (each may stay before the other), in order. */
  function EquivalentTo<T>(s: seq<T>, p: T, le: (T, T) -> bool): seq<T>
  {
    if s == [] then []
    else (if le(s[0], p) && le(p, s[0]) then [s[0]] else []) + EquivalentTo(s[1..], p, le)
  }

  lemma {:induction false} EquivalentToAppend<T>(s: seq<T>, t: seq<T>, p: T, le: (T, T) -> bool)
    ensures EquivalentTo(s + t, p, le) == EquivalentTo(s, p, le) + EquivalentTo(t, p, le)
  {
    if s == [] {
      assert s + t == t;
    } else {
      assert (s + t)[0] == s[0] && (s + t)[1..] == s[1..] + t;
      EquivalentToAppend(s[1..], t, p, le);
    }
  }

  /**
   * Inserting `x` into an ordered sequence puts it after every element equal to it, so among the
   * elements equal to `p` it comes last.
   */
  lemma {:induction false} InsertStable<T>(x: T, s: seq<T>, p: T, le: (T, T) -> bool, all: seq<T>)
    requires Sorted(s, le)
    requires forall y :: y in s ==> y in all
    requires x in all && p in all && TotalPreorderOn(all, le)
    ensures EquivalentTo(Insert(x, s, le), p, le) == EquivalentTo(s, p, le) + EquivalentTo([x], p, le)
  {
    if s == [] {
    } else if le(s[0], x) {
      assert Sorted(s[1..], le) && forall y :: y in s[1..] ==> y in all by {
        forall i, j | 0 <= i < j < |s[1..]| ensures le(s[1..][i], s[1..][j]) {
          assert s[1..][i] == s[i + 1] && s[1..][j] == s[j + 1];
        }
        forall y | y in s[1..] ensures y in all {
          assert y in s;
        }
      }
      InsertStable(x, s[1..], p, le, all);
      InsertAfterHead(x, s, p, le);
    } else {
      if le(x, p) && le(p, x) {
        NoneEquivalentAfter(x, s, p, le, all);
      }
      InsertAtHead(x, s, p, le);
    }
  }

  lemma InsertAfterHead<T>(x: T, s: seq<T>, p: T, le: (T, T) -> bool)
    requires s != [] && le(s[0], x)
    requires EquivalentTo(Insert(x, s[1..], le), p, le) == EquivalentTo(s[1..], p, le) + EquivalentTo([x], p, le)
    ensures EquivalentTo(Insert(x, s, le), p, le) == EquivalentTo(s, p, le) + EquivalentTo([x], p, le)
  {
    var tail := Insert(x, s[1..], le);
    assert Insert(x, s, le) == [s[0]] + tail;
    EquivalentToCons(s[0], tail, p, le);
    EquivalentToCons(s[0], s[1..], p, le);
    assert [s[0]] + s[1..] == s;
  }

  lemma EquivalentToCons<T>(y: T, t: seq<T>, p: T, le: (T, T) -> bool)
    ensures EquivalentTo([y] + t, p, le) == EquivalentTo([y], p, le) + EquivalentTo(t, p, le)
  {
    assert ([y] + t)[1..] == t;
  }

  lemma InsertAtHead<T>(x: T, s: seq<T>, p: T, le: (T, T) -> bool)
    requires s != [] && !le(s[0], x)
    requires le(x, p) && le(p, x) ==> EquivalentTo(s, p, le) == []
    ensures EquivalentTo(Insert(x, s, le), p, le) == EquivalentTo(s, p, le) + EquivalentTo([x], p, le)
  {
    assert Insert(x, s, le) == [x] + s;
    EquivalentToAppend([x], s, p, le);
  }

  /** When `x` equals `p` and the first element of ordered `s` may not stay before `x`, no element of `s` equals `p`. */
  lemma {:induction false} NoneEquivalentAfter<T>(x: T, s: seq<T>, p: T, le: (T, T) -> bool, all: seq<T>)
    requires s != [] && Sorted(s, le) && !le(s[0], x) && le(x, p) && le(p, x)
    requires forall y :: y in s ==> y in all
    requires x in all && p in all && TotalPreorderOn(all, le)
    ensures EquivalentTo(s, p, le) == []
  {
    forall k | 0 <= k < |s|
      ensures !le(s[k], p)
    {
      assert s[0] in all && s[k] in all;
      assert le(s[0], s[k]);
    }
    NoneEquivalentIsEmpty(s, p, le);
  }

  lemma {:induction false} NoneEquivalentIsEmpty<T>(s: seq<T>, p: T, le: (T, T) -> bool)
    requires forall k :: 0 <= k < |s| ==> !(le(s[k], p) && le(p, s[k]))
    ensures EquivalentTo(s, p, le) == []
  {
    if s != [] {
      NoneEquivalentIsEmpty(s[1..], p, le);
    }
  }

  /**
   * The sort is stable: the elements that compare equal to any one element keep the order they
   * had in `s`.
   */
  lemma {:induction false} SortByStable<T>(s: seq<T>, p: T, le: (T, T) -> bool)
    requires p in s && TotalPreorderOn(s, le)
    ensures EquivalentTo(SortBy(s, le), p, le) == EquivalentTo(s, p, le)
  {
    StableFor(s, p, le, s);
  }

  lemma {:induction false} StableFor<T>(s: seq<T>, p: T, le: (T, T) -> bool, all: seq<T>)
    requires forall y :: y in s ==> y in all
    requires p in all && TotalPreorderOn(all, le)
    ensures EquivalentTo(SortBy(s, le), p, le) == EquivalentTo(s, p, le)
  {
    if s != [] {
      var n := |s| - 1;
      assert s == s[..n] + [s[n]];
      assert forall y :: y in s[..n] ==> y in s;
      StableFor(s[..n], p, le, all);
      var sorted := SortBy(s[..n], le);
      forall y | y in sorted
        ensures y in all
      {
        SortByMembers(s[..n], le, y);
      }
      assert TotalPreorderOn(s[..n], le);
      SortBySorted(s[..n], le);
      InsertStable(s[n], sorted, p, le, all);
      EquivalentToAppend(s[..n], [s[n]], p, le);
    }
  }

  /** Sorting keeps exactly the elements it was given. */
  lemma SortByMembers<T>(s: seq<T>, le: (T, T) -> bool, x: T)
    ensures x in SortBy(s, le) <==> x in s
  {
    var r := SortBy(s, le);
    assert x in r <==> x in multiset(r);
    assert x in s <==> x in multiset(s);
  }
}
