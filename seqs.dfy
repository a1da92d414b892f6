/** The array pipeline steps the dashboard uses: `filter`, `map`, a stable descending
    sort by a numeric key (`sort((a, b) => key(b) - key(a))`) and `slice(0, k)`. */
module Seqs {

  /** Non-increasing by `key`. */
  ghost predicate SortedDesc<T>(s: seq<T>, key: T -> real) {
    forall i, j :: 0 <= i < j < |s| ==> key(s[i]) >= key(s[j])
  }

  /** Inserts `x` in front of the first element whose key does not exceed its own. */
  function InsertDesc<T>(x: T, s: seq<T>, key: T -> real): (r: seq<T>)
    ensures multiset(r) == multiset(s) + multiset{x}
  {
    if s == [] then [x]
    else if key(x) >= key(s[0]) then
      assert s == [s[0]] + s[1..];
      [x] + s
    else
      assert s == [s[0]] + s[1..];
      [s[0]] + InsertDesc(x, s[1..], key)
  }

  lemma {:induction false} InsertDescSorted<T>(x: T, s: seq<T>, key: T -> real)
    requires SortedDesc(s, key)
    ensures SortedDesc(InsertDesc(x, s, key), key)
  {
    if s != [] && key(x) < key(s[0]) {
      var rest := InsertDesc(x, s[1..], key);
      InsertDescSorted(x, s[1..], key);
      forall j | 0 <= j < |rest| ensures key(s[0]) >= key(rest[j]) {
        assert rest[j] in multiset(rest);
        assert rest[j] == x || rest[j] in multiset(s[1..]);
        if rest[j] != x {
          var k :| 0 <= k < |s[1..]| && s[1..][k] == rest[j];
          assert s[k + 1] == rest[j];
        }
      }
    }
  }

  /** `s.sort((a, b) => key(b) - key(a))`: elements with equal keys keep their order. */
  function SortDesc<T>(s: seq<T>, key: T -> real): (r: seq<T>)
    ensures multiset(r) == multiset(s)
    ensures SortedDesc(r, key)
  {
    if s == [] then []
    else
      assert s == [s[0]] + s[1..];
      var rest := SortDesc(s[1..], key);
      InsertDescSorted(s[0], rest, key);
      InsertDesc(s[0], rest, key)
  }

  /** `s.filter(p)`: the elements satisfying `p`, in order. */
  function Filter<T>(s: seq<T>, p: T -> bool): (r: seq<T>)
    ensures |r| <= |s|
    ensures forall x | x in r :: x in s && p(x)
    ensures forall x | x in s && p(x) :: x in r
  {
    if s == [] then []
    else (if p(s[0]) then [s[0]] else []) + Filter(s[1..], p)
  }

  /** `s.map(f)`. */
  function Map<T, U>(s: seq<T>, f: T -> U): (r: seq<U>)
    ensures |r| == |s|
    ensures forall i | 0 <= i < |s| :: r[i] == f(s[i])
  {
    seq(|s|, i requires 0 <= i < |s| => f(s[i]))
  }

  /** `s.slice(0, k)`. */
  function Take<T>(s: seq<T>, k: nat): (r: seq<T>)
    ensures |r| == if |s| < k then |s| else k
    ensures r <= s
  {
    if |s| <= k then s else s[..k]
  }

  /** A prefix holds no element more often than the whole sequence. */
  lemma TakeSubMultiset<T>(s: seq<T>, k: nat)
    ensures multiset(Take(s, k)) <= multiset(s)
  {
    var r := Take(s, k);
    assert s == r + s[|r|..];
    assert multiset(s) == multiset(r) + multiset(s[|r|..]);
  }

  /** `sort(...).slice(0, k)`: `k` elements, or all of them when there are
      fewer, drawn from `s` with no element more often than it occurs there. */
  lemma TopOfSort<T>(s: seq<T>, key: T -> real, k: nat)
    ensures |Take(SortDesc(s, key), k)| == if |s| < k then |s| else k
    ensures multiset(Take(SortDesc(s, key), k)) <= multiset(s)
  {
    var sorted := SortDesc(s, key);
    assert |sorted| == |multiset(sorted)| == |multiset(s)| == |s|;
    TakeSubMultiset(sorted, k);
  }

  /** The first element of a descending sort has the largest key of all. */
  lemma SortDescHeadIsMax<T>(s: seq<T>, key: T -> real, x: T)
    requires x in s
    ensures |SortDesc(s, key)| > 0
    ensures key(SortDesc(s, key)[0]) >= key(x)
  {
    var r := SortDesc(s, key);
    assert x in multiset(s);
    assert x in multiset(r);
    var j :| 0 <= j < |r| && r[j] == x;
    if j > 0 {
      assert key(r[0]) >= key(r[j]);
    }
  }

  /** `x` occurs among the first `j + 1` elements of `s`. */
  predicate OccursBy<T(==)>(s: seq<T>, x: T, j: nat)
    requires j < |s|
  {
    x in s[..j + 1]
  }

  /** The sort is stable, so the head of the sorted filter is the first
      of the kept elements with the largest key: it occurs no later than
      any kept element whose key reaches its own. */
  lemma {:induction false} FilterSortHeadFirst<T>(s: seq<T>, p: T -> bool, key: T -> real)
    requires SortDesc(Filter(s, p), key) != []
    ensures var h := SortDesc(Filter(s, p), key)[0];
      forall j | 0 <= j < |s| && p(s[j]) && key(s[j]) >= key(h) :: OccursBy(s, h, j)
  {
    if s != [] {
      var r' := SortDesc(Filter(s[1..], p), key);
      var h := SortDesc(Filter(s, p), key)[0];
      var headFirst := p(s[0]) && (r' == [] || key(s[0]) >= key(r'[0]));
      FilterSortHead(s, p, key);
      if headFirst {
        forall j | 0 <= j < |s| && p(s[j]) && key(s[j]) >= key(h) ensures OccursBy(s, h, j) {
          assert s[..j + 1][0] == s[0];
        }
      } else {
        FilterSortHeadFirst(s[1..], p, key);
        forall j | 0 <= j < |s| && p(s[j]) && key(s[j]) >= key(h) ensures OccursBy(s, h, j) {
          assert s[1..][j - 1] == s[j];
          InTail(s, j, h);
        }
      }
    }
  }

  /** One step of the sort on the filter: the first element, when kept,
      goes in front of the sorted rest exactly when its key is at least
      the rest's head's; otherwise the rest's head stays first, with a key
      above the first element's when that one is kept. */
  lemma FilterSortHead<T>(s: seq<T>, p: T -> bool, key: T -> real)
    requires s != [] && SortDesc(Filter(s, p), key) != []
    ensures var r' := SortDesc(Filter(s[1..], p), key);
      var h := SortDesc(Filter(s, p), key)[0];
      if p(s[0]) && (r' == [] || key(s[0]) >= key(r'[0])) then h == s[0]
      else r' != [] && h == r'[0] && (p(s[0]) ==> key(s[0]) < key(h))
  {
    var f' := Filter(s[1..], p);
    var r' := SortDesc(f', key);
    if p(s[0]) {
      var sf := [s[0]] + f';
      assert Filter(s, p) == sf;
      assert sf[1..] == f';
      var ins := InsertDesc(s[0], r', key);
      assert SortDesc(sf, key) == ins;
      if r' == [] || key(s[0]) >= key(r'[0]) {
        assert ins[0] == s[0];
      } else {
        assert ins == [r'[0]] + InsertDesc(s[0], r'[1..], key);
      }
    } else {
      assert Filter(s, p) == f';
      assert SortDesc(Filter(s, p), key) == r';
    }
  }

  /** The first element occurs no later than any element at all. */
  lemma HeadNoLater<T>(s: seq<T>, q: T -> bool)
    requires s != []
    ensures forall j | 0 <= j < |s| && q(s[j]) :: OccursBy(s, s[0], j)
  {
    forall j | 0 <= j < |s| && q(s[j]) ensures OccursBy(s, s[0], j) {
      assert s[..j + 1][0] == s[0];
    }
  }

  /** "`h` occurs no later than any element satisfying `q`" carries over
      from the tail to the whole when the first element does not satisfy
      `q`. */
  lemma NoLaterThanShift<T>(s: seq<T>, h: T, q: T -> bool)
    requires s != [] && !q(s[0])
    requires forall j | 0 <= j < |s[1..]| && q(s[1..][j]) :: OccursBy(s[1..], h, j)
    ensures forall j | 0 <= j < |s| && q(s[j]) :: OccursBy(s, h, j)
  {
    forall j | 0 <= j < |s| && q(s[j]) ensures OccursBy(s, h, j) {
      assert s[1..][j - 1] == s[j];
      InTail(s, j, h);
    }
  }

  /** An element among the first `j` of the tail is among the first
      `j + 1` of the whole. */
  lemma InTail<T>(s: seq<T>, j: nat, h: T)
    requires 0 < j < |s| && OccursBy(s[1..], h, j - 1)
    ensures OccursBy(s, h, j)
  {
    assert s[1..][..j] == s[1..j + 1];
    assert s[..j + 1] == [s[0]] + s[1..j + 1];
  }

  /** The first `k` of a descending sort are the top `k`: no element left out
      beats any element kept. */
  lemma TakeOfSortedIsTop<T>(s: seq<T>, key: T -> real, k: nat, i: nat, j: nat)
    requires SortedDesc(s, key)
    requires i < |Take(s, k)| <= j < |s|
    ensures key(Take(s, k)[i]) >= key(s[j])
  {
  }
}
