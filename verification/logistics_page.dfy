/** The logistics page: its shipment list, search box, status tabs, cards
    and refresh button. */
module LogisticsPage {
  import Text
  import Seqs
  import Ui
  import opened Shipments

  const InitialShipments: seq<Shipment> := [
    Shipment("SHP001", "Chicago, IL", "New York, NY", "FastFreight Inc.", Truck, "2023-09-15", "2023-09-18", InTransit, 65),
    Shipment("SHP002", "Los Angeles, CA", "Seattle, WA", "Pacific Shipping", Ship, "2023-09-10", "2023-09-20", InTransit, 40),
    Shipment("SHP003", "Dallas, TX", "Miami, FL", "AeroFreight", Air, "2023-09-17", "2023-09-18", Scheduled, 0),
    Shipment("SHP004", "Boston, MA", "Washington, DC", "RailExpress", Rail, "2023-09-12", "2023-09-14", Delivered, 100),
    Shipment("SHP005", "Denver, CO", "Phoenix, AZ", "FastFreight Inc.", Truck, "2023-09-16", "2023-09-19", InTransit, 25)
  ]

  /** The page's state: the list, the search text and the open tab. */
  datatype PageState = PageState(shipments: seq<Shipment>, query: string, tab: string)

  const Initial := PageState(InitialShipments, "", "all")

  /** `handleAddShipment`: the new shipment goes last. */
  function AddShipment(st: PageState, s: Shipment): (r: PageState)
    ensures |r.shipments| == |st.shipments| + 1
    ensures r.shipments[..|st.shipments|] == st.shipments && r.shipments[|st.shipments|] == s
    ensures r.query == st.query && r.tab == st.tab
  {
    st.(shipments := st.shipments + [s])
  }

  /** `handleRefresh`: back to the initial list; search and tab stay. */
  function Refresh(st: PageState): (r: PageState)
    ensures r.shipments == InitialShipments
    ensures r.query == st.query && r.tab == st.tab
  {
    st.(shipments := InitialShipments)
  }

  /** Whatever was added, a refresh forgets it. */
  lemma RefreshForgetsAdds(st: PageState, s: Shipment)
    ensures Refresh(AddShipment(st, s)) == Refresh(st)
  {
  }

  // ---------------------------------------------------------------------
  // Search and tabs
  // ---------------------------------------------------------------------

  /** Id, origin, destination, carrier or status text contains the query. */
  predicate MatchesQuery(q: string, s: Shipment) {
    Text.Matches(s.id, q) || Text.Matches(s.origin, q) || Text.Matches(s.destination, q)
    || Text.Matches(s.carrier, q) || Text.Matches(s.status.Label(), q)
  }

  function Matcher(q: string): Shipment -> bool {
    (s: Shipment) => MatchesQuery(q, s)
  }

  /** `filteredShipments`. */
  function Search(ss: seq<Shipment>, q: string): (r: seq<Shipment>)
    ensures |r| <= |ss|
    ensures forall i :: 0 <= i < |r| ==> MatchesQuery(q, r[i])
  {
    Seqs.Filter(ss, Matcher(q))
  }

  /** A shipment is listed exactly when it is in the list and matches; the
      empty query lists everything, in order. */
  lemma SearchLaws(ss: seq<Shipment>, q: string, s: Shipment)
    ensures s in Search(ss, q) <==> s in ss && MatchesQuery(q, s)
    ensures Search(ss, "") == ss
  {
    Seqs.FilterMembership(ss, Matcher(q), s);
    forall i | 0 <= i < |ss|
      ensures Matcher("")(ss[i])
    {
      Text.MatchesEmptyQuery(ss[i].id);
    }
    Seqs.FilterAll(ss, Matcher(""));
  }

  /** The rows a tab shows: the search result, narrowed to one status on the
      three status tabs, and the whole search result on the "all" tab. Only
      the four trigger values can be selected; the page draws no content
      for any other value, which this function does not distinguish from
      "all". */
  function Visible(st: PageState): (r: seq<Shipment>)
    ensures |r| <= |st.shipments|
  {
    var found := Search(st.shipments, st.query);
    if st.tab == "transit" then Seqs.Filter(found, HasStatus(InTransit))
    else if st.tab == "scheduled" then Seqs.Filter(found, HasStatus(Scheduled))
    else if st.tab == "delivered" then Seqs.Filter(found, HasStatus(Delivered))
    else found
  }

  /** Narrowing a list first never raises a count. */
  lemma {:induction false} CountOfFilter<T>(s: seq<T>, m: T -> bool, p: T -> bool)
    ensures Seqs.Count(Seqs.Filter(s, m), p) <= Seqs.Count(s, p)
  {
    if |s| > 0 {
      CountOfFilter(s[1..], m, p);
      if m(s[0]) {
        var rest := Seqs.Filter(s[1..], m);
        assert Seqs.Filter(s, m) == [s[0]] + rest;
        assert ([s[0]] + rest)[1..] == rest;
        assert Seqs.Count([s[0]] + rest, p) == (if p(s[0]) then 1 else 0) + Seqs.Count(rest, p);
      } else {
        assert Seqs.Filter(s, m) == Seqs.Filter(s[1..], m);
      }
      assert Seqs.Count(s, p) == (if p(s[0]) then 1 else 0) + Seqs.Count(s[1..], p);
    }
  }

  /** A row is on a status tab exactly when it matches the search and has
      that status; the tab never lists more rows than its card counts. */
  lemma TabRows(st: PageState, s: Shipment)
    ensures st.tab == "transit" ==>
      (s in Visible(st) <==> s in st.shipments && MatchesQuery(st.query, s) && s.status == InTransit)
      && |Visible(st)| <= Cards(st).inTransit
    ensures st.tab == "scheduled" ==>
      (s in Visible(st) <==> s in st.shipments && MatchesQuery(st.query, s) && s.status == Scheduled)
      && |Visible(st)| <= Cards(st).scheduled
    ensures st.tab == "delivered" ==>
      (s in Visible(st) <==> s in st.shipments && MatchesQuery(st.query, s) && s.status == Delivered)
      && |Visible(st)| <= Cards(st).delivered
  {
    var found := Search(st.shipments, st.query);
    SearchLaws(st.shipments, st.query, s);
    var status := if st.tab == "transit" then InTransit else if st.tab == "scheduled" then Scheduled else Delivered;
    Seqs.FilterMembership(found, HasStatus(status), s);
    CountOfFilter(st.shipments, Matcher(st.query), HasStatus(status));
  }

  /** With the empty query a status tab lists exactly its card's count. */
  lemma EmptyQueryTabsMatchCards(st: PageState)
    requires st.query == ""
    ensures st.tab == "transit" ==> |Visible(st)| == Cards(st).inTransit
    ensures st.tab == "scheduled" ==> |Visible(st)| == Cards(st).scheduled
    ensures st.tab == "delivered" ==> |Visible(st)| == Cards(st).delivered
    ensures st.tab !in ["transit", "scheduled", "delivered"] ==> Visible(st) == st.shipments
  {
    SearchLaws(st.shipments, "", InitialShipments[0]);
  }

  // ---------------------------------------------------------------------
  // Cards and badges
  // ---------------------------------------------------------------------

  /** The three cards count the whole list, whatever the search and tab. */
  function Cards(st: PageState): (r: Stats)
    ensures r.inTransit + r.scheduled + r.delivered == |st.shipments|
  {
    StatsOf(st.shipments)
  }

  /** Searching and switching tabs leave the cards as they are. */
  lemma CardsIgnoreSearch(st: PageState, q: string, t: string)
    ensures Cards(st.(query := q, tab := t)) == Cards(st)
  {
  }

  /** The initial list: 3 in transit, 1 scheduled, 1 delivered. */
  lemma InitialCards()
    ensures Cards(Initial) == Stats(3, 1, 1)
  {
    var c := InitialShipments;
    assert c[1..][1..][1..][1..][1..] == [];
  }

  /** A shipment from the modal raises the Scheduled card only. */
  lemma ModalAddRaisesScheduled(st: PageState, form: ShipmentForm, n: Draw)
    ensures Cards(AddShipment(st, NewShipment(form, n))) == Cards(st).(scheduled := Cards(st).scheduled + 1)
  {
    AddRaisesScheduled(st.shipments, form, n);
  }

  /** The draw 1 gives a second shipment with id SHP001: ids need not stay
      distinct. */
  lemma AddCanRepeatId(form: ShipmentForm)
    ensures var after := AddShipment(Initial, NewShipment(form, 1)).shipments;
            after[0].id == after[5].id
  {
    NewIdLaws(1, 1);
  }

  /** `getStatusVariant`, the page's own badge colours. */
  function StatusVariant(status: string): (v: Ui.BadgeVariant)
    ensures v == Ui.Default <==> status == "Delivered"
    ensures v == Ui.Secondary <==> status == "Scheduled"
    ensures v == Ui.Outline <==> status != "Delivered" && status != "Scheduled"
  {
    if status == "Delivered" then Ui.Default
    else if status == "In Transit" then Ui.Outline
    else if status == "Scheduled" then Ui.Secondary
    else Ui.Outline
  }

  /** The page and the shipment table agree on Delivered and swap the
      colours of In Transit and Scheduled. */
  lemma VariantAgainstTable(s: ShipmentStatus)
    ensures s == Delivered <==> StatusVariant(s.Label()) == StatusColor(s.Label())
    ensures s == InTransit ==> StatusVariant(s.Label()) == StatusColor(Scheduled.Label())
    ensures s == Scheduled ==> StatusVariant(s.Label()) == StatusColor(InTransit.Label())
  {
  }
}
