/** The orders page: the search filter, the column sort with its toggle,
    and the 5-per-page pagination over the seed orders. */
module OrdersPage {
  import Text
  import Seqs
  import opened Orders

  // ---------------------------------------------------------------------
  // Search
  // ---------------------------------------------------------------------

  /** An order matches when its id or its customer's name contains the
      query, ignoring case. */
  predicate MatchesQuery(q: string, o: Order) {
    Text.Matches(o.id, q) || Text.Matches(o.customer.name, q)
  }

  function Matcher(q: string): Order -> bool {
    (o: Order) => MatchesQuery(q, o)
  }

  /** `filteredOrders`: the matching orders, in their original order. */
  function Search(os: seq<Order>, q: string): (r: seq<Order>)
    ensures |r| <= |os|
    ensures forall i :: 0 <= i < |r| ==> MatchesQuery(q, r[i])
  {
    Seqs.Filter(os, Matcher(q))
  }

  /** An order is listed exactly when it is in the list and matches; the
      empty query lists every order, in order. */
  lemma SearchLaws(os: seq<Order>, q: string, o: Order)
    ensures o in Search(os, q) <==> o in os && MatchesQuery(q, o)
    ensures Search(os, "") == os
  {
    Seqs.FilterMembership(os, Matcher(q), o);
    forall i | 0 <= i < |os|
      ensures Matcher("")(os[i])
    {
      Text.MatchesEmptyQuery(os[i].id);
    }
    Seqs.FilterAll(os, Matcher(""));
  }

  // ---------------------------------------------------------------------
  // Sort
  // ---------------------------------------------------------------------

  /** The sortable columns. */
  datatype SortField = ById | ByCustomer | ByStatus | ByTotal | ByCreatedAt

  datatype Direction = Asc | Desc

  /** A sort key: text compares by code point, totals by value. */
  datatype Key = Text(s: string) | Number(n: int)

  /** The value a column sorts on; the customer column sorts on the name. */
  function KeyOf(f: SortField, o: Order): Key {
    match f
    case ById => Text(o.id)
    case ByCustomer => Text(o.customer.name)
    case ByStatus => Text(o.status)
    case ByTotal => Number(o.total)
    case ByCreatedAt => Text(o.createdAt)
  }

  /** JavaScript's `<` on two keys of the same kind; keys of different kinds
      never compare as less. */
  predicate KeyLess(a: Key, b: Key) {
    match (a, b)
    case (Text(x), Text(y)) => Text.LexLess(x, y)
    case (Number(x), Number(y)) => x < y
    case _ => false
  }

  /** `KeyLess` is irreflexive and transitive, hence asymmetric. */
  lemma KeyLessOrder(a: Key, b: Key, c: Key)
    ensures !KeyLess(a, a)
    ensures KeyLess(a, b) && KeyLess(b, c) ==> KeyLess(a, c)
    ensures KeyLess(a, b) ==> !KeyLess(b, a)
  {
    if a.Text? {
      Text.LexLessIrreflexive(a.s);
      if b.Text? {
        Text.LexLessIrreflexive(b.s);
        if Text.LexLess(a.s, b.s) && Text.LexLess(b.s, a.s) {
          Text.LexLessTransitive(a.s, b.s, a.s);
        }
        if c.Text? && Text.LexLess(a.s, b.s) && Text.LexLess(b.s, c.s) {
          Text.LexLessTransitive(a.s, b.s, c.s);
        }
      }
    }
  }

  /** The comparator passed to `sort`: -1, 1 or 0, with the signs swapped for
      a descending sort. */
  function Compare(f: SortField, d: Direction, a: Order, b: Order): (c: int)
    ensures c in {-1, 0, 1}
    ensures c == 0 <==> !KeyLess(KeyOf(f, a), KeyOf(f, b)) && !KeyLess(KeyOf(f, b), KeyOf(f, a))
  {
    var ka := KeyOf(f, a);
    var kb := KeyOf(f, b);
    if KeyLess(ka, kb) then (if d == Asc then -1 else 1)
    else if KeyLess(kb, ka) then (if d == Asc then 1 else -1)
    else 0
  }

  /** `a` goes before `b`. */
  predicate Precedes(f: SortField, d: Direction, a: Order, b: Order) {
    Compare(f, d, a, b) < 0
  }

  /** Ascending, `a` goes first when its key is less; descending, when its
      key is greater. */
  lemma PrecedesByKey(f: SortField, d: Direction, a: Order, b: Order)
    ensures Precedes(f, d, a, b) <==> if d == Asc then KeyLess(KeyOf(f, a), KeyOf(f, b)) else KeyLess(KeyOf(f, b), KeyOf(f, a))
  {
    KeyLessOrder(KeyOf(f, a), KeyOf(f, b), KeyOf(f, a));
  }

  /** Descending is ascending with the comparison reversed. */
  lemma DescendingReverses(f: SortField, a: Order, b: Order)
    ensures Compare(f, Desc, a, b) == -Compare(f, Asc, a, b)
    ensures Precedes(f, Desc, a, b) <==> Precedes(f, Asc, b, a)
  {
    PrecedesByKey(f, Desc, a, b);
    PrecedesByKey(f, Asc, b, a);
  }

  /** `Precedes` is a strict order. */
  lemma PrecedesOrder(f: SortField, d: Direction, a: Order, b: Order, c: Order)
    ensures !Precedes(f, d, a, a)
    ensures Precedes(f, d, a, b) && Precedes(f, d, b, c) ==> Precedes(f, d, a, c)
  {
    var ka, kb, kc := KeyOf(f, a), KeyOf(f, b), KeyOf(f, c);
    PrecedesByKey(f, d, a, a);
    PrecedesByKey(f, d, a, b);
    PrecedesByKey(f, d, b, c);
    PrecedesByKey(f, d, a, c);
    KeyLessOrder(ka, kb, kc);
    KeyLessOrder(kc, kb, ka);
  }

  /** No later element goes before an earlier one. */
  predicate Sorted(f: SortField, d: Direction, s: seq<Order>) {
    forall i, j :: 0 <= i < j < |s| ==> !Precedes(f, d, s[j], s[i])
  }

  /** Places `x` before the first element it precedes, so after every
      element with an equal key. */
  function Insert(f: SortField, d: Direction, x: Order, s: seq<Order>): (r: seq<Order>)
    ensures multiset(r) == multiset(s) + multiset{x}
  {
    if |s| == 0 then [x]
    else if Precedes(f, d, x, s[0]) then [x] + s
    else
      assert s == [s[0]] + s[1..];
      [s[0]] + Insert(f, d, x, s[1..])
  }

  /** `[...filteredOrders].sort(comparator)`: a stable sort, modelled as an
      insertion sort that inserts the elements from first to last. */
  function Sort(f: SortField, d: Direction, s: seq<Order>): (r: seq<Order>)
    ensures multiset(r) == multiset(s)
  {
    if |s| == 0 then []
    else
      assert s == s[..|s| - 1] + [s[|s| - 1]];
      Insert(f, d, s[|s| - 1], Sort(f, d, s[..|s| - 1]))
  }

  lemma {:induction false} InsertSorted(f: SortField, d: Direction, x: Order, s: seq<Order>)
    requires Sorted(f, d, s)
    ensures Sorted(f, d, Insert(f, d, x, s))
  {
    if |s| == 0 {
    } else if Precedes(f, d, x, s[0]) {
      var r := [x] + s;
      forall i, j | 0 <= i < j < |r|
        ensures !Precedes(f, d, r[j], r[i])
      {
        if i == 0 {
          PrecedesOrder(f, d, r[j], x, s[0]);
          PrecedesOrder(f, d, s[0], s[0], s[0]);
        }
      }
    } else {
      var rest := Insert(f, d, x, s[1..]);
      InsertSorted(f, d, x, s[1..]);
      var r := [s[0]] + rest;
      forall j | 0 < j < |r|
        ensures !Precedes(f, d, r[j], s[0])
      {
        assert r[j] in multiset(rest);
        assert r[j] == x || r[j] in s[1..];
      }
    }
  }

  /** The sorted list is in order. */
  lemma {:induction false} SortSorted(f: SortField, d: Direction, s: seq<Order>)
    ensures Sorted(f, d, Sort(f, d, s))
  {
    if |s| > 0 {
      SortSorted(f, d, s[..|s| - 1]);
      InsertSorted(f, d, s[|s| - 1], Sort(f, d, s[..|s| - 1]));
    }
  }

  /** The orders whose sort key is `k`. */
  function WithKey(f: SortField, k: Key): Order -> bool {
    (o: Order) => KeyOf(f, o) == k
  }

  /** In a sorted list nothing after a first element that `x` precedes
      shares `x`'s key. */
  lemma NoEqualKeyAfter(f: SortField, d: Direction, x: Order, s: seq<Order>)
    requires Sorted(f, d, s) && |s| > 0 && Precedes(f, d, x, s[0])
    ensures forall i :: 0 <= i < |s| ==> KeyOf(f, s[i]) != KeyOf(f, x)
  {
    forall i | 0 <= i < |s|
      ensures KeyOf(f, s[i]) != KeyOf(f, x)
    {
      PrecedesByKey(f, d, x, s[0]);
      PrecedesByKey(f, d, s[i], s[0]);
      PrecedesOrder(f, d, s[0], s[0], s[0]);
    }
  }

  /** The tail of a sorted list is sorted. */
  lemma SortedTail(f: SortField, d: Direction, s: seq<Order>)
    requires Sorted(f, d, s) && |s| > 0
    ensures Sorted(f, d, s[1..])
  {
    forall i, j | 0 <= i < j < |s| - 1
      ensures !Precedes(f, d, s[1..][j], s[1..][i])
    {
      assert s[1..][j] == s[j + 1] && s[1..][i] == s[i + 1];
    }
  }

  /** What inserting `x` adds to the orders with key `k`. */
  function AddedWithKey(f: SortField, x: Order, k: Key): seq<Order> {
    if KeyOf(f, x) == k then [x] else []
  }

  /** Inserting into a sorted list puts `x` after every element that shares
      its key. */
  lemma {:induction false} InsertAfterEquals(f: SortField, d: Direction, x: Order, s: seq<Order>, k: Key)
    requires Sorted(f, d, s)
    ensures Seqs.Filter(Insert(f, d, x, s), WithKey(f, k))
      == Seqs.Filter(s, WithKey(f, k)) + AddedWithKey(f, x, k)
  {
    if |s| == 0 {
      Seqs.FilterCons(x, [], WithKey(f, k));
    } else if Precedes(f, d, x, s[0]) {
      InsertInFront(f, d, x, s, k);
    } else {
      SortedTail(f, d, s);
      InsertAfterEquals(f, d, x, s[1..], k);
      InsertFurther(f, d, x, s, k);
    }
  }

  /** `x` goes in front: nothing in the sorted list shares its key. */
  lemma InsertInFront(f: SortField, d: Direction, x: Order, s: seq<Order>, k: Key)
    requires Sorted(f, d, s) && |s| > 0 && Precedes(f, d, x, s[0])
    ensures Seqs.Filter(Insert(f, d, x, s), WithKey(f, k))
      == Seqs.Filter(s, WithKey(f, k)) + AddedWithKey(f, x, k)
  {
    var p := WithKey(f, k);
    assert Insert(f, d, x, s) == [x] + s;
    Seqs.FilterCons(x, s, p);
    if KeyOf(f, x) == k {
      NoEqualKeyAfter(f, d, x, s);
      assert forall i :: 0 <= i < |s| ==> !p(s[i]);
      Seqs.FilterNone(s, p);
      assert Seqs.Filter([x] + s, p) == [x];
    } else {
      assert Seqs.Filter([x] + s, p) == Seqs.Filter(s, p);
    }
  }

  /** `x` goes past the first element: what the tail gains, the list gains. */
  lemma InsertFurther(f: SortField, d: Direction, x: Order, s: seq<Order>, k: Key)
    requires |s| > 0 && !Precedes(f, d, x, s[0])
    requires Seqs.Filter(Insert(f, d, x, s[1..]), WithKey(f, k))
      == Seqs.Filter(s[1..], WithKey(f, k)) + AddedWithKey(f, x, k)
    ensures Seqs.Filter(Insert(f, d, x, s), WithKey(f, k))
      == Seqs.Filter(s, WithKey(f, k)) + AddedWithKey(f, x, k)
  {
    assert Insert(f, d, x, s) == [s[0]] + Insert(f, d, x, s[1..]);
    Seqs.FilterConsExtends(s[0], s[1..], Insert(f, d, x, s[1..]), WithKey(f, k), AddedWithKey(f, x, k));
    assert s == [s[0]] + s[1..];
  }

  /** Filtering a list with one more order at the end adds what that order
      adds. */
  lemma FilterLastWithKey(f: SortField, init: seq<Order>, last: Order, k: Key)
    ensures Seqs.Filter(init + [last], WithKey(f, k)) == Seqs.Filter(init, WithKey(f, k)) + AddedWithKey(f, last, k)
  {
    Seqs.FilterAppend(init, [last], WithKey(f, k));
    assert Seqs.Filter([last], WithKey(f, k)) == AddedWithKey(f, last, k) by {
      assert [last][1..] == [];
    }
  }

  /** The sort is stable: the orders sharing any one key keep their
      original relative order. */
  lemma {:induction false} SortStable(f: SortField, d: Direction, s: seq<Order>, k: Key)
    ensures Seqs.Filter(Sort(f, d, s), WithKey(f, k)) == Seqs.Filter(s, WithKey(f, k))
  {
    if |s| > 0 {
      var init, last := s[..|s| - 1], s[|s| - 1];
      assert s == init + [last];
      var sorted := Sort(f, d, init);
      assert Sort(f, d, s) == Insert(f, d, last, sorted);
      SortStable(f, d, init, k);
      SortSorted(f, d, init);
      InsertAfterEquals(f, d, last, sorted, k);
      FilterLastWithKey(f, init, last, k);
    }
  }

  // ---------------------------------------------------------------------
  // Page state
  // ---------------------------------------------------------------------

  /** The page's state: query, sort column, direction and current page. */
  datatype ListState = ListState(query: string, field: SortField, dir: Direction, page: Seqs.PageNumber)

  /** Nothing searched, newest first, first page. */
  const Initial := ListState("", ByCreatedAt, Desc, 1)

  /** `toggleSort`: the current column flips direction; another column
      becomes the sort column, ascending. The page is kept. */
  function ToggleSort(st: ListState, f: SortField): (r: ListState)
    ensures r.field == f && r.query == st.query && r.page == st.page
    ensures f == st.field ==> r.dir != st.dir
    ensures f != st.field ==> r.dir == Asc
  {
    if st.field == f then st.(dir := if st.dir == Asc then Desc else Asc)
    else st.(field := f, dir := Asc)
  }

  /** Two clicks on the same column restore the state. */
  lemma ToggleTwice(st: ListState, f: SortField)
    ensures ToggleSort(ToggleSort(st, f), f) == (if f == st.field then st else st.(field := f, dir := Desc))
  {
  }

  /** Typing in the search box keeps the current page. */
  function SetQuery(st: ListState, q: string): (r: ListState)
    ensures r.query == q && r.field == st.field && r.dir == st.dir && r.page == st.page
  {
    st.(query := q)
  }

  /** The sorted, filtered list the page draws from. */
  function Listed(os: seq<Order>, st: ListState): (r: seq<Order>)
    ensures Sorted(st.field, st.dir, r)
    ensures multiset(r) == multiset(Search(os, st.query))
  {
    SortSorted(st.field, st.dir, Search(os, st.query));
    Sort(st.field, st.dir, Search(os, st.query))
  }

  /** `totalPages` of the listed orders. */
  function PageCount(os: seq<Order>, st: ListState): (t: nat)
    ensures t * Seqs.PageSize >= |Listed(os, st)|
    ensures t == 0 || (t - 1) * Seqs.PageSize < |Listed(os, st)|
  {
    Seqs.TotalPages(|Listed(os, st)|)
  }

  /** The rows shown: one page of the listed orders. */
  function Visible(os: seq<Order>, st: ListState): (r: seq<Order>)
    ensures |r| <= Seqs.PageSize
    ensures forall k :: 0 <= k < |r| ==>
      (st.page - 1) * Seqs.PageSize + k < |Listed(os, st)| && r[k] == Listed(os, st)[(st.page - 1) * Seqs.PageSize + k]
  {
    Seqs.Page(Listed(os, st), st.page)
  }

  /** The "previous" link: moves back only from a page after the first. */
  function Previous(st: ListState): (r: ListState)
    ensures r.page == if st.page > 1 then st.page - 1 else st.page
    ensures r.(page := st.page) == st
  {
    if st.page > 1 then st.(page := st.page - 1) else st
  }

  /** The "next" link: moves on only from a page before the last. */
  function Next(st: ListState, totalPages: nat): (r: ListState)
    ensures r.page == if st.page < totalPages then st.page + 1 else st.page
    ensures r.(page := st.page) == st
  {
    if st.page < totalPages then st.(page := st.page + 1) else st
  }

  /** A page link. */
  function GoTo(st: ListState, p: Seqs.PageNumber): (r: ListState)
    ensures r.page == p && r.(page := st.page) == st
  {
    st.(page := p)
  }

  /** The page number is in range: at most the page count, or 1 when there
      is nothing to list. */
  predicate InRange(os: seq<Order>, st: ListState) {
    st.page <= PageCount(os, st) || st.page == 1
  }

  /** Previous, next and the page links shown keep the page in range. */
  lemma NavigationStaysInRange(os: seq<Order>, st: ListState, p: Seqs.PageNumber)
    requires InRange(os, st)
    ensures InRange(os, Previous(st))
    ensures InRange(os, Next(st, PageCount(os, st)))
    ensures p <= PageCount(os, st) ==> InRange(os, GoTo(st, p))
  {
  }

  /** When anything is listed, an in-range page shows at least one order. */
  lemma InRangePageNotEmpty(os: seq<Order>, st: ListState)
    requires InRange(os, st) && |Listed(os, st)| > 0
    ensures |Visible(os, st)| > 0
  {
  }

  /** The page is not reset by a new query: a page past the new page count
      shows no orders, which the table draws as "No orders found". The
      pagination controls are drawn only when there is more than one page
      (Orders.tsx:261), so when five or fewer orders match, the stale page
      also leaves no control to move back with. */
  lemma StalePageShowsNothing(os: seq<Order>, st: ListState, q: string)
    requires st.page > PageCount(os, SetQuery(st, q))
    ensures SetQuery(st, q).page == st.page
    ensures Visible(os, SetQuery(st, q)) == []
  {
  }

  /** On page 2 with six listed orders, a query that matches nothing leaves
      the page at 2, out of range. */
  lemma StalePageExample(os: seq<Order>, st: ListState, q: string)
    requires |Listed(os, st)| == 6 && st.page == 2
    requires forall i :: 0 <= i < |os| ==> !MatchesQuery(q, os[i])
    ensures InRange(os, st)
    ensures !InRange(os, SetQuery(st, q)) && Visible(os, SetQuery(st, q)) == []
  {
    Seqs.FilterNone(os, Matcher(q));
  }

  /** Pages 1 to the page count laid end to end are the listed orders. */
  lemma PagesShowEverything(os: seq<Order>, st: ListState)
    ensures Seqs.PagesUpTo(Listed(os, st), PageCount(os, st)) == Listed(os, st)
  {
    Seqs.PagesCoverList(Listed(os, st));
  }
}
