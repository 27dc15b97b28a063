/** Generic sequence operations shared by the whole model: the `filter` and
    `reduce` idioms the storefront uses on every list it keeps, and an
    optional value for the fields the source leaves `undefined`. */
module Seqs {

  datatype Option<T> = None | Some(value: T)

  /** `s.filter(keep)`: the elements of `s` that pass `keep`, in their
      original order. */
  function Filter<T>(s: seq<T>, keep: T -> bool): (r: seq<T>)
    ensures |r| <= |s|
    ensures forall i :: 0 <= i < |r| ==> r[i] in s && keep(r[i])
    ensures forall i :: 0 <= i < |s| && keep(s[i]) ==> s[i] in r
  {
    if s == [] then []
    else if keep(s[0]) then [s[0]] + Filter(s[1..], keep)
    else Filter(s[1..], keep)
  }

  /** `s.reduce((acc, x) => acc + f(x), 0)`. */
  function Sum<T>(s: seq<T>, f: T -> int): int
  {
    if s == [] then 0 else f(s[0]) + Sum(s[1..], f)
  }

  /** The number of elements of `s` that satisfy `p`. */
  function Count<T>(s: seq<T>, p: T -> bool): nat
  {
    if s == [] then 0 else (if p(s[0]) then 1 else 0) + Count(s[1..], p)
  }

  /** The index of the first element satisfying `p`, as `findIndex` and
      `find` locate it; `None` when there is none. */
  function FindIndex<T>(s: seq<T>, p: T -> bool): (r: Option<nat>)
    ensures r.Some? ==> r.value < |s| && p(s[r.value])
    ensures r.Some? ==> forall j :: 0 <= j < r.value ==> !p(s[j])
    ensures r.None? ==> forall j :: 0 <= j < |s| ==> !p(s[j])
  {
    if s == [] then None
    else if p(s[0]) then Some(0)
    else match FindIndex(s[1..], p)
      case None => None
      case Some(k) => Some(k + 1)
  }

  /** No element occurs twice. */
  predicate Distinct<T(==)>(s: seq<T>)
  {
    forall i, j :: 0 <= i < j < |s| ==> s[i] != s[j]
  }

  /** Filtering distributes over concatenation: together with
      FilterKeepsAll this says that a filter keeps the survivors in order. */
  lemma {:induction false} FilterAppend<T>(a: seq<T>, b: seq<T>, keep: T -> bool)
    ensures Filter(a + b, keep) == Filter(a, keep) + Filter(b, keep)
  {
    if a != [] {
      assert (a + b)[0] == a[0] && (a + b)[1..] == a[1..] + b;
      FilterAppend(a[1..], b, keep);
    } else {
      assert a + b == b;
    }
  }

  /** A filter that rejects nothing is the identity. */
  lemma {:induction false} FilterKeepsAll<T>(s: seq<T>, keep: T -> bool)
    requires forall x :: x in s ==> keep(x)
    ensures Filter(s, keep) == s
  {
    if s != [] {
      FilterKeepsAll(s[1..], keep);
    }
  }

  /** A filter keeps every occurrence of a surviving value and drops every
      occurrence of a rejected one. */
  lemma {:induction false} FilterMultiplicity<T>(s: seq<T>, keep: T -> bool, x: T)
    ensures multiset(Filter(s, keep))[x] == if keep(x) then multiset(s)[x] else 0
  {
    if s != [] {
      FilterMultiplicity(s[1..], keep, x);
      assert s == [s[0]] + s[1..];
    }
  }

  /** Filtering keeps any pairwise relation that held between earlier and
      later elements, because it never reorders them. */
  lemma {:induction false} FilterKeepsPairwise<T>(s: seq<T>, keep: T -> bool, rel: (T, T) -> bool)
    requires forall i, j :: 0 <= i < j < |s| ==> rel(s[i], s[j])
    ensures forall i, j :: 0 <= i < j < |Filter(s, keep)| ==> rel(Filter(s, keep)[i], Filter(s, keep)[j])
  {
    if s != [] {
      var tail := s[1..];
      assert forall i, j :: 0 <= i < j < |tail| ==> rel(tail[i], tail[j]) by {
        forall i, j | 0 <= i < j < |tail| ensures rel(tail[i], tail[j]) {
          assert tail[i] == s[i + 1] && tail[j] == s[j + 1];
        }
      }
      FilterKeepsPairwise(tail, keep, rel);
      var ft := Filter(tail, keep);
      if keep(s[0]) {
        var r := [s[0]] + ft;
        forall i, j | 0 <= i < j < |r| ensures rel(r[i], r[j]) {
          if i == 0 {
            assert r[j] in tail;
            var k :| 0 <= k < |tail| && tail[k] == r[j];
            assert rel(s[0], s[k + 1]);
          } else {
            assert r[i] == ft[i - 1] && r[j] == ft[j - 1];
          }
        }
      }
    }
  }

  /** A filter of a sequence without repetitions has none either. */
  lemma FilterDistinct<T>(s: seq<T>, keep: T -> bool)
    requires Distinct(s)
    ensures Distinct(Filter(s, keep))
  {
    FilterKeepsPairwise(s, keep, (a, b) => a != b);
  }

  /** In a sequence without repetitions every member occurs exactly once. */
  lemma {:induction false} DistinctOnce<T>(s: seq<T>, x: T)
    requires Distinct(s) && x in s
    ensures multiset(s)[x] == 1
  {
    assert s == [s[0]] + s[1..];
    if s[0] == x {
      assert forall j :: 0 <= j < |s[1..]| ==> s[1..][j] == s[j + 1];
      assert x !in s[1..];
    } else {
      assert Distinct(s[1..]) by {
        assert forall j :: 0 <= j < |s[1..]| ==> s[1..][j] == s[j + 1];
      }
      DistinctOnce(s[1..], x);
    }
  }

  /** Filtering out a single rejected element between two runs of
      survivors removes exactly that element. */
  lemma {:induction false} FilterDropsOne<T>(pre: seq<T>, x: T, post: seq<T>, keep: T -> bool)
    requires forall i :: 0 <= i < |pre| ==> keep(pre[i])
    requires forall i :: 0 <= i < |post| ==> keep(post[i])
    requires !keep(x)
    ensures Filter(pre + [x] + post, keep) == pre + post
  {
    assert forall y :: y in pre ==> keep(y);
    assert forall y :: y in post ==> keep(y);
    FilterKeepsAll(pre, keep);
    FilterKeepsAll(post, keep);
    assert Filter([x], keep) == [];
    FilterAppend(pre, [x], keep);
    FilterAppend(pre + [x], post, keep);
    calc {
      Filter(pre + [x] + post, keep);
      Filter(pre + [x], keep) + Filter(post, keep);
      Filter(pre, keep) + Filter([x], keep) + post;
      pre + [] + post;
    }
    assert pre + [] == pre;
  }

  lemma {:induction false} SumAppend<T>(a: seq<T>, b: seq<T>, f: T -> int)
    ensures Sum(a + b, f) == Sum(a, f) + Sum(b, f)
  {
    if a != [] {
      assert (a + b)[0] == a[0] && (a + b)[1..] == a[1..] + b;
      SumAppend(a[1..], b, f);
    } else {
      assert a + b == b;
    }
  }

  /** Replacing one element changes the sum by the difference of the two
      terms and nothing else. */
  lemma SumUpdate<T>(s: seq<T>, k: int, v: T, f: T -> int)
    requires 0 <= k < |s|
    ensures Sum(s[k := v], f) == Sum(s, f) - f(s[k]) + f(v)
  {
    assert s == s[..k] + ([s[k]] + s[k + 1..]);
    assert s[k := v] == s[..k] + ([v] + s[k + 1..]);
    SumAppend(s[..k], [s[k]] + s[k + 1..], f);
    SumAppend(s[..k], [v] + s[k + 1..], f);
    SumAppend([s[k]], s[k + 1..], f);
    SumAppend([v], s[k + 1..], f);
  }

  /** Dropping only elements that contribute nothing leaves the sum alone. */
  lemma {:induction false} SumFilterDropsZeros<T>(s: seq<T>, keep: T -> bool, f: T -> int)
    requires forall x :: x in s && !keep(x) ==> f(x) == 0
    ensures Sum(Filter(s, keep), f) == Sum(s, f)
  {
    if s != [] {
      SumFilterDropsZeros(s[1..], keep, f);
      if keep(s[0]) {
        assert ([s[0]] + Filter(s[1..], keep))[1..] == Filter(s[1..], keep);
      }
    }
  }

  /** Exactly one position satisfying `p` means a count of one. */
  lemma {:induction false} CountSingle<T>(s: seq<T>, p: T -> bool, k: int)
    requires 0 <= k < |s| && p(s[k])
    requires forall j :: 0 <= j < |s| && j != k ==> !p(s[j])
    ensures Count(s, p) == 1
  {
    if k == 0 {
      CountNone(s[1..], p);
    } else {
      CountSingle(s[1..], p, k - 1);
    }
  }

  /** No position satisfying `p` means a count of zero. */
  lemma {:induction false} CountNone<T>(s: seq<T>, p: T -> bool)
    requires forall j :: 0 <= j < |s| ==> !p(s[j])
    ensures Count(s, p) == 0
  {
    if s != [] {
      CountNone(s[1..], p);
    }
  }

  /** Dropping only elements that fail `p` leaves the count alone. */
  lemma {:induction false} CountFilterDropsNone<T>(s: seq<T>, keep: T -> bool, p: T -> bool)
    requires forall x :: x in s && !keep(x) ==> !p(x)
    ensures Count(Filter(s, keep), p) == Count(s, p)
  {
    if s != [] {
      CountFilterDropsNone(s[1..], keep, p);
      if keep(s[0]) {
        assert ([s[0]] + Filter(s[1..], keep))[1..] == Filter(s[1..], keep);
      }
    }
  }
}
