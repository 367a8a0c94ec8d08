/**
 * `Array.prototype.sort` with a consistent comparator. Since ECMAScript 2019 the sort is
 * stable, and a stable sort by a total preorder has exactly one possible result, so the
 * insertion sort below stands for every engine. A comparator `cmp` is modelled by the
 * relation `le(a, b) == (cmp(a, b) <= 0)`.
 */
module Sorting {
  import opened Seqs

  /** `le` is total and transitive, which is what "consistent comparator" means. */
  ghost predicate TotalPreorder<T(!new)>(le: (T, T) -> bool)
  {
    && (forall a, b :: le(a, b) || le(b, a))
    && (forall a, b, c :: le(a, b) && le(b, c) ==> le(a, c))
  }

  ghost predicate SortedBy<T>(s: seq<T>, le: (T, T) -> bool)
  {
    forall i, j :: 0 <= i < j < |s| ==> le(s[i], s[j])
  }

  /** The elements of `s` that compare equal to `y`, in their order in `s`. */
  function Ties<T>(s: seq<T>, y: T, le: (T, T) -> bool): seq<T>
  {
    Filter(s, e => le(e, y) && le(y, e))
  }

  /** Inserts `x` after every element that is not greater than it. */
  function Insert<T>(x: T, s: seq<T>, le: (T, T) -> bool): seq<T>
  {
    if |s| == 0 then [x]
    else if le(s[0], x) then [s[0]] + Insert(x, s[1..], le)
    else [x] + s
  }

  /** Stable sort: each element is inserted after the ones that came before it. */
  function StableSort<T>(s: seq<T>, le: (T, T) -> bool): seq<T>
  {
    if |s| == 0 then []
    else Insert(s[|s| - 1], StableSort(s[..|s| - 1], le), le)
  }

  lemma {:induction false} InsertMultiset<T>(x: T, s: seq<T>, le: (T, T) -> bool)
    ensures multiset(Insert(x, s, le)) == multiset(s) + multiset{x}
  {
    if |s| > 0 && le(s[0], x) {
      InsertMultiset(x, s[1..], le);
      assert s == [s[0]] + s[1..];
    }
  }

  /** The sort is a permutation of its input. */
  lemma {:induction false} SortIsPermutation<T>(s: seq<T>, le: (T, T) -> bool)
    ensures multiset(StableSort(s, le)) == multiset(s)
    ensures |StableSort(s, le)| == |s|
  {
    if |s| > 0 {
      var t := s[..|s| - 1];
      SortIsPermutation(t, le);
      InsertMultiset(s[|s| - 1], StableSort(t, le), le);
      assert s == t + [s[|s| - 1]];
    }
  }

  lemma {:induction false} InsertSorted<T(!new)>(x: T, s: seq<T>, le: (T, T) -> bool)
    requires TotalPreorder(le)
    requires SortedBy(s, le)
    ensures SortedBy(Insert(x, s, le), le)
  {
    if |s| > 0 {
      if le(s[0], x) {
        var r := Insert(x, s[1..], le);
        InsertSorted(x, s[1..], le);
        InsertMultiset(x, s[1..], le);
        forall e | e in r ensures le(s[0], e) {
          assert e in multiset(r);
          if e != x {
            assert e in s[1..];
          }
        }
        var res := [s[0]] + r;
        assert Insert(x, s, le) == res;
        forall i, j | 0 <= i < j < |res| ensures le(res[i], res[j]) {
          assert res[j] == r[j - 1] && r[j - 1] in r;
          if i > 0 {
            assert res[i] == r[i - 1];
          }
        }
      } else {
        var res := [x] + s;
        assert Insert(x, s, le) == res;
        forall i, j | 0 <= i < j < |res| ensures le(res[i], res[j]) {
          assert res[j] == s[j - 1];
          if i > 0 {
            assert res[i] == s[i - 1];
          } else {
            assert le(x, s[0]) && le(s[0], s[j - 1]);
          }
        }
      }
    }
  }

  /** The sort orders its input by `le`. */
  lemma {:induction false} SortIsSorted<T(!new)>(s: seq<T>, le: (T, T) -> bool)
    requires TotalPreorder(le)
    ensures SortedBy(StableSort(s, le), le)
  {
    if |s| > 0 {
      SortIsSorted(s[..|s| - 1], le);
      InsertSorted(s[|s| - 1], StableSort(s[..|s| - 1], le), le);
    }
  }

  lemma TiesCons<T>(a: T, s: seq<T>, y: T, le: (T, T) -> bool)
    ensures Ties([a] + s, y, le) == (if le(a, y) && le(y, a) then [a] else []) + Ties(s, y, le)
  {
    assert ([a] + s)[1..] == s;
  }

  lemma {:induction false} InsertTies<T(!new)>(x: T, s: seq<T>, y: T, le: (T, T) -> bool)
    requires TotalPreorder(le)
    requires SortedBy(s, le)
    ensures Ties(Insert(x, s, le), y, le)
         == Ties(s, y, le) + (if le(x, y) && le(y, x) then [x] else [])
  {
    if |s| == 0 {
      assert Insert(x, s, le) == [x] + s;
      TiesCons(x, s, y, le);
    } else if le(s[0], x) {
      InsertTies(x, s[1..], y, le);
      TiesCons(s[0], Insert(x, s[1..], le), y, le);
      TiesCons(s[0], s[1..], y, le);
      assert s == [s[0]] + s[1..];
    } else {
      TiesCons(x, s, y, le);
      if le(x, y) && le(y, x) {
        forall e | e in s ensures !(le(e, y) && le(y, e)) {
          var i :| 0 <= i < |s| && s[i] == e;
          assert i == 0 || le(s[0], s[i]);
        }
        FilterNoneKept(s, e => le(e, y) && le(y, e));
      }
    }
  }

  /**
   * Stability: for every `y`, the elements tied with `y` keep their input order.
   */
  lemma {:induction false} SortIsStable<T(!new)>(s: seq<T>, y: T, le: (T, T) -> bool)
    requires TotalPreorder(le)
    ensures Ties(StableSort(s, le), y, le) == Ties(s, y, le)
  {
    if |s| > 0 {
      var t := s[..|s| - 1];
      var x := s[|s| - 1];
      SortIsStable(t, y, le);
      SortIsSorted(t, le);
      InsertTies(x, StableSort(t, le), y, le);
      assert s == t + [x];
      FilterConcat(t, [x], e => le(e, y) && le(y, e));
    }
  }

  /** The ties within a prefix are a prefix of the ties. */
  lemma TiesPrefix<T>(s: seq<T>, k: nat, y: T, le: (T, T) -> bool)
    requires k <= |s|
    ensures Ties(s[..k], y, le) <= Ties(s, y, le)
  {
    FilterPrefix(s, k, e => le(e, y) && le(y, e));
  }

  /** Cutting a sorted sequence anywhere leaves nothing in front greater than anything behind. */
  lemma SortedSplit<T>(s: seq<T>, k: nat, le: (T, T) -> bool)
    requires k <= |s| && SortedBy(s, le)
    ensures forall p, q :: p in multiset(s[..k]) && q in multiset(s[k..]) ==> le(p, q)
  {
    forall p, q | p in multiset(s[..k]) && q in multiset(s[k..]) ensures le(p, q) {
      var i :| 0 <= i < k && s[..k][i] == p;
      var j :| 0 <= j < |s| - k && s[k..][j] == q;
      assert s[i] == p && s[k + j] == q;
    }
  }
}
