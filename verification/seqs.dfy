/** `Array.prototype.filter`, counting with `filter(...).length`, and the
    5-per-page `slice` of the list views. */
module Seqs {
  import opened Wrappers

  /** `s.filter(p)`: the elements satisfying `p`, in their original order. */
  function Filter<T>(s: seq<T>, p: T -> bool): (r: seq<T>)
    ensures |r| <= |s|
    ensures forall i :: 0 <= i < |r| ==> p(r[i])
  {
    if |s| == 0 then [] else (if p(s[0]) then [s[0]] else []) + Filter(s[1..], p)
  }

  /** `s.filter(p).length`. */
  function Count<T>(s: seq<T>, p: T -> bool): nat {
    |Filter(s, p)|
  }

  /** Filtering a concatenation filters each part: with `Filter([x], p)`
      this fixes `Filter` as the order-preserving selection. */
  lemma {:induction false} FilterAppend<T>(a: seq<T>, b: seq<T>, p: T -> bool)
    ensures Filter(a + b, p) == Filter(a, p) + Filter(b, p)
  {
    if |a| == 0 {
      assert a + b == b;
    } else {
      assert (a + b)[1..] == a[1..] + b;
      FilterAppend(a[1..], b, p);
    }
  }

  lemma ConcatAssoc<T>(a: seq<T>, b: seq<T>, c: seq<T>)
    ensures a + (b + c) == (a + b) + c
  {
  }

  /** Filtering a list with a head in front. */
  lemma FilterCons<T>(h: T, t: seq<T>, p: T -> bool)
    ensures Filter([h] + t, p) == (if p(h) then [h] else []) + Filter(t, p)
  {
    assert ([h] + t)[1..] == t;
  }

  /** A common first element keeps what one filtered list adds to another. */
  lemma FilterConsExtends<T>(h: T, t: seq<T>, t': seq<T>, p: T -> bool, added: seq<T>)
    requires Filter(t', p) == Filter(t, p) + added
    ensures Filter([h] + t', p) == Filter([h] + t, p) + added
  {
    FilterCons(h, t, p);
    FilterCons(h, t', p);
    ConcatAssoc(if p(h) then [h] else [], Filter(t, p), added);
  }

  /** An element is kept exactly when it is in the list and satisfies `p`. */
  lemma {:induction false} FilterMembership<T>(s: seq<T>, p: T -> bool, x: T)
    ensures x in Filter(s, p) <==> x in s && p(x)
  {
    if |s| > 0 {
      FilterMembership(s[1..], p, x);
      assert x in s <==> x == s[0] || x in s[1..];
    }
  }

  /** A last element that passes the test stays last. */
  lemma FilterKeepsLast<T>(s: seq<T>, p: T -> bool)
    requires |s| > 0 && p(s[|s| - 1])
    ensures |Filter(s, p)| > 0 && Filter(s, p)[|Filter(s, p)| - 1] == s[|s| - 1]
  {
    var n := |s|;
    assert s == s[..n - 1] + [s[n - 1]];
    FilterAppend(s[..n - 1], [s[n - 1]], p);
    assert [s[n - 1]][1..] == [];
  }

  /** When every element satisfies `p`, the filter keeps the whole list. */
  lemma {:induction false} FilterAll<T>(s: seq<T>, p: T -> bool)
    requires forall i :: 0 <= i < |s| ==> p(s[i])
    ensures Filter(s, p) == s
  {
    if |s| > 0 {
      FilterAll(s[1..], p);
    }
  }

  /** When no element satisfies `p`, nothing is kept. */
  lemma {:induction false} FilterNone<T>(s: seq<T>, p: T -> bool)
    requires forall i :: 0 <= i < |s| ==> !p(s[i])
    ensures Filter(s, p) == []
  {
    if |s| > 0 {
      FilterNone(s[1..], p);
    }
  }

  /** Two tests that agree everywhere filter alike. */
  lemma {:induction false} SameFilter<T>(s: seq<T>, p: T -> bool, q: T -> bool)
    requires forall x :: p(x) == q(x)
    ensures Filter(s, p) == Filter(s, q)
  {
    if |s| > 0 {
      SameFilter(s[1..], p, q);
    }
  }

  /** The filter drops nothing exactly when every element satisfies `p`. */
  lemma {:induction false} FilterKeepsLength<T>(s: seq<T>, p: T -> bool)
    ensures |Filter(s, p)| == |s| <==> forall i :: 0 <= i < |s| ==> p(s[i])
  {
    if |s| > 0 {
      FilterKeepsLength(s[1..], p);
      if !p(s[0]) {
        assert |Filter(s, p)| == |Filter(s[1..], p)| <= |s| - 1;
      }
      assert forall i :: 1 <= i < |s| ==> s[1..][i - 1] == s[i];
    }
  }

  /** A predicate and its negation split a list's length. */
  lemma {:induction false} CountComplement<T>(s: seq<T>, p: T -> bool, q: T -> bool)
    requires forall x :: q(x) == !p(x)
    ensures Count(s, p) + Count(s, q) == |s|
  {
    if |s| > 0 {
      CountComplement(s[1..], p, q);
    }
  }

  /** An element that passes makes the count positive. */
  lemma {:induction false} CountAtLeastOne<T>(s: seq<T>, p: T -> bool, k: nat)
    requires k < |s| && p(s[k])
    ensures Count(s, p) >= 1
  {
    if k > 0 {
      CountAtLeastOne(s[1..], p, k - 1);
    }
  }

  /** Counting two disjoint tests separately adds up to counting their
      union. */
  lemma {:induction false} CountSplit<T>(s: seq<T>, p: T -> bool, q: T -> bool, either: T -> bool)
    requires forall x :: !(p(x) && q(x)) && either(x) == (p(x) || q(x))
    ensures Count(s, p) + Count(s, q) == Count(s, either)
  {
    if |s| > 0 {
      CountSplit(s[1..], p, q, either);
    }
  }

  /** Three mutually exclusive, exhaustive predicates split a list's length. */
  lemma {:induction false} CountPartition3<T>(s: seq<T>, p: T -> bool, q: T -> bool, r: T -> bool)
    requires forall x :: (p(x) || q(x) || r(x)) && !(p(x) && q(x)) && !(p(x) && r(x)) && !(q(x) && r(x))
    ensures Count(s, p) + Count(s, q) + Count(s, r) == |s|
  {
    if |s| > 0 {
      CountPartition3(s[1..], p, q, r);
    }
  }

  /** Counts of mutually exclusive predicates never add up to more than the list. */
  lemma {:induction false} CountDisjoint3<T>(s: seq<T>, p: T -> bool, q: T -> bool, r: T -> bool)
    requires forall x :: !(p(x) && q(x)) && !(p(x) && r(x)) && !(q(x) && r(x))
    ensures Count(s, p) + Count(s, q) + Count(s, r) <= |s|
  {
    if |s| > 0 {
      CountDisjoint3(s[1..], p, q, r);
    }
  }

  /** `s.filter(p)` where evaluating `p` may throw: the first element whose
      test throws aborts the whole filter with that exception. */
  function FilterOrThrow<T, E>(s: seq<T>, p: T -> Result<bool, E>): (r: Result<seq<T>, E>)
    ensures r.Ok? <==> forall i :: 0 <= i < |s| ==> p(s[i]).Ok?
    ensures r.Ok? ==> r.value == Filter(s, Holds(p))
    ensures r.Err? ==> exists i :: FirstThrow(s, p, i) && r.error == p(s[i]).error
  {
    if |s| == 0 then Ok([])
    else match p(s[0])
      case Err(e) =>
        assert FirstThrow(s, p, 0);
        Err(e)
      case Ok(keep) =>
        match FilterOrThrow(s[1..], p)
        case Err(e) =>
          assert forall i :: FirstThrow(s[1..], p, i) ==> FirstThrow(s, p, i + 1) && s[1..][i] == s[i + 1];
          Err(e)
        case Ok(rest) =>
          assert forall i :: 1 <= i < |s| ==> s[1..][i - 1] == s[i];
          Ok((if keep then [s[0]] else []) + rest)
  }

  /** The test as a plain predicate: it succeeded and said "keep". */
  function Holds<T, E>(p: T -> Result<bool, E>): T -> bool {
    x => p(x).Ok? && p(x).value
  }

  /** Element `i` is the first whose test throws. */
  predicate FirstThrow<T, E>(s: seq<T>, p: T -> Result<bool, E>, i: int) {
    0 <= i < |s| && p(s[i]).Err? && forall j :: 0 <= j < i ==> p(s[j]).Ok?
  }

  // ---------------------------------------------------------------------
  // Distinct values
  // ---------------------------------------------------------------------

  /** No element occurs twice. */
  predicate NoDuplicates<T(==)>(s: seq<T>) {
    forall i, j :: 0 <= i < j < |s| ==> s[i] != s[j]
  }

  /** `s.indexOf(x)` for an element that is present. */
  function FirstIndex<T(==)>(s: seq<T>, x: T): (i: nat)
    requires x in s
    ensures i < |s| && s[i] == x && x !in s[..i]
  {
    if s[0] == x then 0
    else
      var k := FirstIndex(s[1..], x);
      assert s[..k + 1] == [s[0]] + s[1..][..k];
      k + 1
  }

  /** Cutting the list after an element's first occurrence keeps that index. */
  lemma {:induction false} FirstIndexPrefix<T>(s: seq<T>, k: nat, x: T)
    requires k <= |s| && x in s[..k]
    ensures FirstIndex(s, x) == FirstIndex(s[..k], x)
  {
    if s[0] != x {
      assert s[..k][1..] == s[1..][..k - 1];
      FirstIndexPrefix(s[1..], k - 1, x);
    }
  }

  /** `Array.from(new Set(s))`: every element once, in order of first appearance. */
  function Distinct<T(==)>(s: seq<T>): (r: seq<T>)
    ensures NoDuplicates(r)
    ensures forall i :: 0 <= i < |r| ==> r[i] in s
    ensures forall i :: 0 <= i < |s| ==> s[i] in r
    ensures forall i, j :: 0 <= i < j < |r| ==> FirstIndex(s, r[i]) < FirstIndex(s, r[j])
  {
    if |s| == 0 then []
    else
      var init := s[..|s| - 1];
      var last := s[|s| - 1];
      assert s == init + [last];
      var r := Distinct(init);
      if last in r then
        DistinctKeep(init, last, r);
        r
      else
        DistinctAdd(init, last, r);
        r + [last]
  }

  /** An element of the prefix keeps its first index when one more element
      is appended. */
  lemma FirstIndexOfInit<T>(init: seq<T>, last: T, y: T)
    requires y in init
    ensures FirstIndex(init + [last], y) == FirstIndex(init, y) < |init|
  {
    assert (init + [last])[..|init|] == init;
    FirstIndexPrefix(init + [last], |init|, y);
  }

  /** A new element appended last is first found at the end. */
  lemma FirstIndexOfNew<T>(init: seq<T>, last: T)
    requires last !in init
    ensures FirstIndex(init + [last], last) == |init|
  {
    var s := init + [last];
    assert forall i :: 0 <= i < |init| ==> s[i] == init[i];
  }

  /** One more element, already present: the distinct list stays. */
  lemma DistinctKeep<T>(init: seq<T>, last: T, r: seq<T>)
    requires forall i :: 0 <= i < |r| ==> r[i] in init
    requires forall i :: 0 <= i < |init| ==> init[i] in r
    requires forall i, j :: 0 <= i < j < |r| ==> FirstIndex(init, r[i]) < FirstIndex(init, r[j])
    requires last in r
    ensures forall i :: 0 <= i < |r| ==> r[i] in init + [last]
    ensures forall i :: 0 <= i < |init| + 1 ==> (init + [last])[i] in r
    ensures forall i, j :: 0 <= i < j < |r| ==> FirstIndex(init + [last], r[i]) < FirstIndex(init + [last], r[j])
  {
    forall i, j | 0 <= i < j < |r|
      ensures FirstIndex(init + [last], r[i]) < FirstIndex(init + [last], r[j])
    {
      FirstIndexOfInit(init, last, r[i]);
      FirstIndexOfInit(init, last, r[j]);
    }
  }

  /** One more element, not yet present: it joins at the end. */
  lemma DistinctAdd<T>(init: seq<T>, last: T, r: seq<T>)
    requires NoDuplicates(r)
    requires forall i :: 0 <= i < |r| ==> r[i] in init
    requires forall i :: 0 <= i < |init| ==> init[i] in r
    requires forall i, j :: 0 <= i < j < |r| ==> FirstIndex(init, r[i]) < FirstIndex(init, r[j])
    requires last !in r
    ensures NoDuplicates(r + [last])
    ensures forall i :: 0 <= i < |r| + 1 ==> (r + [last])[i] in init + [last]
    ensures forall i :: 0 <= i < |init| + 1 ==> (init + [last])[i] in r + [last]
    ensures forall i, j :: 0 <= i < j < |r| + 1 ==>
      FirstIndex(init + [last], (r + [last])[i]) < FirstIndex(init + [last], (r + [last])[j])
  {
    AppendNewNoDuplicates(r, last);
    AppendNewOrder(init, last, r);
  }

  lemma AppendNewNoDuplicates<T>(r: seq<T>, last: T)
    requires NoDuplicates(r) && last !in r
    ensures NoDuplicates(r + [last])
  {
    var r' := r + [last];
    forall i, j | 0 <= i < j < |r'|
      ensures r'[i] != r'[j]
    {
      assert r'[i] == r[i];
    }
  }

  lemma AppendNewOrder<T>(init: seq<T>, last: T, r: seq<T>)
    requires forall i :: 0 <= i < |r| ==> r[i] in init
    requires forall i, j :: 0 <= i < j < |r| ==> FirstIndex(init, r[i]) < FirstIndex(init, r[j])
    requires last !in init
    ensures forall i, j :: 0 <= i < j < |r| + 1 ==>
      FirstIndex(init + [last], (r + [last])[i]) < FirstIndex(init + [last], (r + [last])[j])
  {
    var s := init + [last];
    var r' := r + [last];
    FirstIndexOfNew(init, last);
    forall i, j | 0 <= i < j < |r'|
      ensures FirstIndex(s, r'[i]) < FirstIndex(s, r'[j])
    {
      assert r'[i] == r[i];
      FirstIndexOfInit(init, last, r[i]);
      if j < |r| {
        assert r'[j] == r[j];
        FirstIndexOfInit(init, last, r[j]);
      }
    }
  }

  // ---------------------------------------------------------------------
  // Pagination
  // ---------------------------------------------------------------------

  /** `itemsPerPage`. */
  const PageSize: nat := 5

  /** Page numbers start at 1. */
  type PageNumber = p: int | 1 <= p witness 1

  function Min(a: int, b: int): int {
    if a <= b then a else b
  }

  /** `s.slice((p - 1) * 5, p * 5)`: slicing past the end yields fewer or no elements. */
  function Page<T>(s: seq<T>, p: PageNumber): (r: seq<T>)
    ensures |r| <= PageSize
    ensures forall k :: 0 <= k < |r| ==> (p - 1) * PageSize + k < |s| && r[k] == s[(p - 1) * PageSize + k]
    ensures |r| == if (p - 1) * PageSize >= |s| then 0 else Min(PageSize, |s| - (p - 1) * PageSize)
  {
    var lo := (p - 1) * PageSize;
    if lo >= |s| then [] else s[lo..Min(p * PageSize, |s|)]
  }

  /** `Math.ceil(n / 5)`. */
  function TotalPages(n: nat): (t: nat)
    ensures t * PageSize >= n
    ensures t == 0 || (t - 1) * PageSize < n
  {
    (n + PageSize - 1) / PageSize
  }

  /** Pages 1..k laid end to end. */
  function PagesUpTo<T>(s: seq<T>, k: nat): seq<T> {
    if k == 0 then [] else PagesUpTo(s, k - 1) + Page(s, k)
  }

  lemma {:induction false} PagesUpToIsPrefix<T>(s: seq<T>, k: nat)
    ensures PagesUpTo(s, k) == s[..Min(k * PageSize, |s|)]
  {
    if k > 0 {
      PagesUpToIsPrefix(s, k - 1);
      var lo := Min((k - 1) * PageSize, |s|);
      var hi := Min(k * PageSize, |s|);
      assert s[..hi] == s[..lo] + s[lo..hi];
    }
  }

  /** Concatenating pages 1..TotalPages gives back the whole list. */
  lemma PagesCoverList<T>(s: seq<T>)
    ensures PagesUpTo(s, TotalPages(|s|)) == s
  {
    PagesUpToIsPrefix(s, TotalPages(|s|));
  }
}
