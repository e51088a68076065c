/** `Array.prototype.filter` and `find`, and the facts about it that the components' pipelines rely on. */
module Seqs {

  import opened Wrappers

  /** `s.filter(p)`: the elements satisfying `p`, in their original order. */
  function Filter<T(!new)>(s: seq<T>, p: T -> bool): (r: seq<T>)
    ensures |r| <= |s|
    ensures forall x :: x in r <==> x in s && p(x)
    decreases |s|
  {
    if s == [] then []
    else if p(s[0]) then [s[0]] + Filter(s[1..], p) else Filter(s[1..], p)
  }

  /** Filtering neither duplicates nor loses a passing element: the multiset of survivors is exact. */
  lemma {:induction false} FilterMultiset<T(!new)>(s: seq<T>, p: T -> bool)
    ensures forall x :: multiset(Filter(s, p))[x] == if p(x) then multiset(s)[x] else 0
    decreases |s|
  {
    if s != [] {
      FilterMultiset(s[1..], p);
      assert s == [s[0]] + s[1..];
    }
  }

  /** A filter that every element passes changes nothing. */
  lemma {:induction false} FilterAll<T(!new)>(s: seq<T>, p: T -> bool)
    requires forall x :: x in s ==> p(x)
    ensures Filter(s, p) == s
    decreases |s|
  {
    if s != [] { FilterAll(s[1..], p); }
  }

  /** Filtering twice is filtering once by the conjunction. */
  lemma {:induction false} FilterFilter<T(!new)>(s: seq<T>, p: T -> bool, q: T -> bool)
    ensures Filter(Filter(s, p), q) == Filter(s, x => p(x) && q(x))
    decreases |s|
  {
    if s != [] {
      FilterFilter(s[1..], p, q);
    }
  }

  /** The kept and the dropped elements together account for the whole input. */
  lemma {:induction false} FilterComplement<T(!new)>(s: seq<T>, p: T -> bool, q: T -> bool)
    requires forall x :: x in s ==> q(x) == !p(x)
    ensures |Filter(s, p)| + |Filter(s, q)| == |s|
    decreases |s|
  {
    if s != [] { FilterComplement(s[1..], p, q); }
  }

  /** Two predicates that agree on every element filter alike. */
  lemma {:induction false} FilterCongruent<T(!new)>(s: seq<T>, p: T -> bool, q: T -> bool)
    requires forall x :: x in s ==> p(x) == q(x)
    ensures Filter(s, p) == Filter(s, q)
    decreases |s|
  {
    if s != [] { FilterCongruent(s[1..], p, q); }
  }

  /** One more filter on already filtered rows: `Filter(s, p)` narrowed by `q` is `Filter(s, r)` when `r` is `p` and `q`. */
  lemma FilterNarrow<T(!new)>(s: seq<T>, t: seq<T>, p: T -> bool, q: T -> bool, r: T -> bool)
    requires t == Filter(s, p)
    requires forall x :: x in s ==> r(x) == (p(x) && q(x))
    ensures Filter(t, q) == Filter(s, r)
  {
    FilterFilter(s, p, q);
    FilterCongruent(s, x => p(x) && q(x), r);
  }

  /** The position of the first element satisfying `p`, if any. */
  function FindIndex<T>(s: seq<T>, p: T -> bool): (r: Option<nat>)
    ensures r.Some? ==> r.value < |s| && p(s[r.value]) && forall j :: 0 <= j < r.value ==> !p(s[j])
    ensures r.None? ==> forall i :: 0 <= i < |s| ==> !p(s[i])
    decreases |s|
  {
    if s == [] then None
    else if p(s[0]) then Some(0)
    else match FindIndex(s[1..], p)
      case None => None
      case Some(i) => Some(i + 1)
  }

  /** `s.find(p)`: the first element satisfying `p`, if any. */
  function Find<T>(s: seq<T>, p: T -> bool): (r: Option<T>)
    ensures r.Some? ==> r.value in s && p(r.value)
    ensures r.None? ==> forall x :: x in s ==> !p(x)
    ensures forall i :: 0 <= i < |s| && p(s[i]) && (forall j :: 0 <= j < i ==> !p(s[j])) ==> r == Some(s[i])
  {
    match FindIndex(s, p)
    case None => None
    case Some(i) => Some(s[i])
  }

  /** An element that passes has a first passing element at or before it. */
  lemma FirstPassing<T>(s: seq<T>, p: T -> bool, i: nat)
    requires i < |s| && p(s[i])
    ensures exists k :: 0 <= k <= i && p(s[k]) && forall j :: 0 <= j < k ==> !p(s[j])
  {
    var k := FindIndex(s, p).value;
    assert k <= i;
  }

  /** `before` relates every element to every later one. */
  ghost predicate Chain<T>(s: seq<T>, before: (T, T) -> bool)
  {
    forall i, j :: 0 <= i < j < |s| ==> before(s[i], s[j])
  }

  /** An order that holds between every earlier and later element still holds after filtering. */
  lemma {:induction false} FilterKeepsOrder<T(!new)>(s: seq<T>, p: T -> bool, before: (T, T) -> bool)
    requires Chain(s, before)
    ensures Chain(Filter(s, p), before)
    decreases |s|
  {
    if s != [] {
      var t := s[1..];
      assert Chain(t, before) by {
        forall i, j | 0 <= i < j < |t| ensures before(t[i], t[j]) { assert t[i] == s[i + 1] && t[j] == s[j + 1]; }
      }
      FilterKeepsOrder(t, p, before);
      if p(s[0]) {
        var r := Filter(t, p);
        var f := [s[0]] + r;
        forall i, j | 0 <= i < j < |f| ensures before(f[i], f[j]) {
          if i == 0 {
            assert f[j] == r[j - 1] && r[j - 1] in t;
            var k :| 0 <= k < |t| && t[k] == r[j - 1];
            assert t[k] == s[k + 1];
          } else {
            assert f[i] == r[i - 1] && f[j] == r[j - 1];
          }
        }
        assert Chain(f, before);
      }
    }
  }

  /** Two different elements that both pass a filter leave at least two survivors. */
  lemma {:induction false} FilterTwo<T(!new)>(s: seq<T>, p: T -> bool, x: T, y: T)
    requires x in s && y in s && p(x) && p(y) && x != y
    ensures |Filter(s, p)| >= 2
  {
    var f := Filter(s, p);
    assert x in f && y in f;
    var i :| 0 <= i < |f| && f[i] == x;
    var j :| 0 <= j < |f| && f[j] == y;
    assert i != j;
  }

  /** When exactly the element at `i` passes, the filter keeps that element alone. */
  lemma {:induction false} FilterOnly<T(!new)>(s: seq<T>, p: T -> bool, i: nat)
    requires i < |s| && p(s[i])
    requires forall j :: 0 <= j < |s| && j != i ==> !p(s[j])
    ensures Filter(s, p) == [s[i]]
    decreases |s|
  {
    if i == 0 {
      assert forall x :: x in s[1..] ==> !p(x) by {
        forall x | x in s[1..] ensures !p(x) {
          var k :| 0 <= k < |s[1..]| && s[1..][k] == x;
          assert s[k + 1] == x;
        }
      }
      assert Filter(s[1..], p) == [] by { FilterNone(s[1..], p); }
    } else {
      assert !p(s[0]);
      FilterOnly(s[1..], p, i - 1);
      assert s[1..][i - 1] == s[i];
    }
  }

  /** A filter nothing passes is empty. */
  lemma FilterNone<T(!new)>(s: seq<T>, p: T -> bool)
    requires forall x :: x in s ==> !p(x)
    ensures Filter(s, p) == []
  {
    var r := Filter(s, p);
    assert forall k :: 0 <= k < |r| ==> r[k] in r;
  }

  /** `FilterOnly` for every index at once. */
  lemma FilterOnlyAll<T(!new)>(s: seq<T>, p: T -> bool)
    ensures forall i :: 0 <= i < |s| && p(s[i]) && (forall j :: 0 <= j < |s| && j != i ==> !p(s[j])) ==> Filter(s, p) == [s[i]]
  {
    forall i | 0 <= i < |s| && p(s[i]) && (forall j :: 0 <= j < |s| && j != i ==> !p(s[j]))
      ensures Filter(s, p) == [s[i]]
    {
      FilterOnly(s, p, i);
    }
  }
}
