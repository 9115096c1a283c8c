/** The suppliers page: the search box, the average lead-time card and the
    reliability badge. The page reads `location`, `contact`,
    `productCategories`, `leadTimeDays` and `reliabilityScore`, which seed
    suppliers do not have. */
module SuppliersPage {
  import opened Wrappers
  import Text
  import Seqs
  import Ui
  import opened SupplierService

  // ---------------------------------------------------------------------
  // Search
  // ---------------------------------------------------------------------

  /** `categories.some(cat => cat.toLowerCase().includes(query))`. */
  predicate AnyMatches(cats: seq<string>, q: string) {
    exists i :: 0 <= i < |cats| && Text.Matches(cats[i], q)
  }

  /** The search test for one supplier, field by field in the page's order,
      stopping at the first match. Reaching a field the supplier lacks
      throws a TypeError. */
  function SupplierTest(q: string): Supplier -> Result<bool, Failure> {
    (s: Supplier) =>
      if Text.Matches(s.name, q) then Ok(true)
      else if s.location.None? then Err(TypeError)
      else if Text.Matches(s.location.value, q) then Ok(true)
      else if s.contact.None? then Err(TypeError)
      else if Text.Matches(s.contact.value.name, q) || Text.Matches(s.contact.value.email, q) then Ok(true)
      else if s.productCategories.None? then Err(TypeError)
      else Ok(AnyMatches(s.productCategories.value, q))
  }

  /** The test does not throw on `s`. */
  predicate Searchable(q: string, s: Supplier) {
    Text.Matches(s.name, q)
    || (s.location.Some? && (Text.Matches(s.location.value, q)
        || (s.contact.Some? && (Text.Matches(s.contact.value.name, q) || Text.Matches(s.contact.value.email, q)
            || s.productCategories.Some?))))
  }

  /** A supplier with every field the search reads. */
  predicate Complete(s: Supplier) {
    s.location.Some? && s.contact.Some? && s.productCategories.Some?
  }

  /** A supplier with a location, a contact and categories never makes the
      test throw, whatever the query. */
  lemma CompleteNeverThrows(q: string, s: Supplier)
    requires Complete(s)
    ensures SupplierTest(q)(s).Ok?
  {
  }

  /** The supplier matches on one of the fields the search reads. */
  predicate Hit(q: string, s: Supplier) {
    Text.Matches(s.name, q)
    || (s.location.Some? && Text.Matches(s.location.value, q))
    || (s.contact.Some? && (Text.Matches(s.contact.value.name, q) || Text.Matches(s.contact.value.email, q)))
    || (s.productCategories.Some? && AnyMatches(s.productCategories.value, q))
  }

  /** `filteredSuppliers`: the matching suppliers in order, or the TypeError
      of the first supplier whose test throws. */
  function Search(ss: seq<Supplier>, q: string): (r: Result<seq<Supplier>, Failure>)
    ensures r.Ok? <==> forall i :: 0 <= i < |ss| ==> Searchable(q, ss[i])
    ensures r.Err? ==> r.error == TypeError
    ensures r.Ok? ==> |r.value| <= |ss|
  {
    var r := Seqs.FilterOrThrow(ss, SupplierTest(q));
    assert forall i :: 0 <= i < |ss| ==> (SupplierTest(q)(ss[i]).Ok? <==> Searchable(q, ss[i]));
    r
  }

  /** When the search succeeds, a supplier is listed exactly when it is in
      the list and matches on one of the fields; complete suppliers never
      make it throw. */
  lemma SearchMembership(ss: seq<Supplier>, q: string, s: Supplier)
    ensures (forall i :: 0 <= i < |ss| ==> Complete(ss[i])) ==> Search(ss, q).Ok?
    ensures Search(ss, q).Ok? ==> (s in Search(ss, q).value <==> s in ss && Hit(q, s))
  {
    Seqs.FilterMembership(ss, Seqs.Holds(SupplierTest(q)), s);
  }

  /** The empty query matches every name and stops there: every supplier is
      in the filtered list, seed suppliers included. Drawing the rows is not
      modelled; for a seed supplier the row itself would throw, since it joins
      the missing categories and formats the missing score
      (Suppliers.tsx:125 and :155). */
  lemma SearchEmptyQuery(ss: seq<Supplier>)
    ensures Search(ss, "") == Ok(ss)
  {
    forall i | 0 <= i < |ss|
      ensures Seqs.Holds(SupplierTest(""))(ss[i])
    {
      Text.MatchesEmptyQuery(ss[i].name);
    }
    Seqs.FilterAll(ss, Seqs.Holds(SupplierTest("")));
  }

  /** A query missing the first seed's name reaches its missing location
      and throws. */
  lemma SeedSearchThrows()
    ensures Search(Seeds, "#") == Err(TypeError)
  {
    Text.NoMatchWithoutChar(Seeds[0].name, '#');
    assert !Searchable("#", Seeds[0]);
  }

  // ---------------------------------------------------------------------
  // Average lead time
  // ---------------------------------------------------------------------

  /** A number the card can show: a whole number, or NaN. */
  datatype Shown = Whole(n: int) | NaN

  /** `suppliers.reduce((sum, s) => sum + s.leadTimeDays, 0)`: adding a
      missing lead time makes the sum NaN for good. */
  function LeadTimeSum(ss: seq<Supplier>): (r: Shown)
    ensures r.NaN? <==> exists i :: 0 <= i < |ss| && ss[i].leadTimeDays.None?
  {
    if |ss| == 0 then Whole(0)
    else
      var rest := LeadTimeSum(ss[1..]);
      assert forall i :: 1 <= i < |ss| ==> ss[i] == ss[1..][i - 1];
      if ss[0].leadTimeDays.None? || rest.NaN? then NaN
      else Whole(ss[0].leadTimeDays.value + rest.n)
  }

  /** The lead times of a list where every supplier has one. */
  function LeadTimes(ss: seq<Supplier>): int
    requires forall i :: 0 <= i < |ss| ==> ss[i].leadTimeDays.Some?
  {
    if |ss| == 0 then 0 else ss[0].leadTimeDays.value + LeadTimes(ss[1..])
  }

  lemma {:induction false} LeadTimeSumIsSum(ss: seq<Supplier>)
    requires forall i :: 0 <= i < |ss| ==> ss[i].leadTimeDays.Some?
    ensures LeadTimeSum(ss) == Whole(LeadTimes(ss))
  {
    if |ss| > 0 {
      LeadTimeSumIsSum(ss[1..]);
    }
  }

  /** `Math.round(sum / n)`: `Math.round` rounds halves up, so this is
      floor((2 * sum + n) / (2 * n)). */
  function RoundedMean(sum: int, n: nat): (a: int)
    requires n > 0
    ensures 2 * n * a <= 2 * sum + n < 2 * n * a + 2 * n
  {
    (2 * sum + n) / (2 * n)
  }

  /** The average lead-time card: 0 for an empty list, NaN if any supplier
      has no lead time, otherwise the mean rounded half up. */
  function AverageLeadTime(ss: seq<Supplier>): (r: Shown)
    ensures |ss| == 0 ==> r == Whole(0)
    ensures |ss| > 0 ==> (r.NaN? <==> exists i :: 0 <= i < |ss| && ss[i].leadTimeDays.None?)
  {
    if |ss| == 0 then Whole(0)
    else match LeadTimeSum(ss)
      case NaN => NaN
      case Whole(sum) => Whole(RoundedMean(sum, |ss|))
  }

  /** With every lead time present, the card's value `a` is the mean rounded
      half up: a - 1/2 <= mean < a + 1/2. */
  lemma AverageIsRoundedMean(ss: seq<Supplier>)
    requires |ss| > 0 && forall i :: 0 <= i < |ss| ==> ss[i].leadTimeDays.Some?
    ensures AverageLeadTime(ss).Whole?
    ensures var a := AverageLeadTime(ss).n;
            2 * |ss| * a <= 2 * LeadTimes(ss) + |ss| < 2 * |ss| * a + 2 * |ss|
  {
    LeadTimeSumIsSum(ss);
  }

  /** The seed suppliers have no lead time, so the card shows NaN. */
  lemma SeedAverageIsNaN()
    ensures AverageLeadTime(Seeds) == NaN
  {
    assert Seeds[0].leadTimeDays.None?;
  }

  // ---------------------------------------------------------------------
  // Reliability badge
  // ---------------------------------------------------------------------

  /** The badge variant for a reliability score in basis points: at least
      0.95 is "default", at least 0.9 "secondary", anything else "outline".
      A missing score compares false both times. */
  function ReliabilityBadge(score: Option<int>): (v: Ui.BadgeVariant)
    ensures v == Ui.Default <==> score.Some? && score.value >= 9500
    ensures v == Ui.Secondary <==> score.Some? && 9000 <= score.value < 9500
    ensures v == Ui.Outline <==> score.None? || score.value < 9000
  {
    if score.Some? && score.value >= 9500 then Ui.Default
    else if score.Some? && score.value >= 9000 then Ui.Secondary
    else Ui.Outline
  }

  /** A tier's rank: outline below secondary below default. */
  function Tier(v: Ui.BadgeVariant): nat {
    match v
    case Default => 2
    case Secondary => 1
    case _ => 0
  }

  /** A higher score never gets a lower badge. */
  lemma BadgeMonotone(a: int, b: int)
    requires a <= b
    ensures Tier(ReliabilityBadge(Some(a))) <= Tier(ReliabilityBadge(Some(b)))
  {
  }
}
